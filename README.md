# EcoConnect dashboard logic in Dafny

This project models the three pieces of real logic in the EcoConnect environmental-monitoring app and proves properties of them.

- **Dashboard status bands** (`Dashboard.dfy`). `getStatusProgress` maps a reading and its kind to a band (good, moderate, poor, hazardous) and a progress percentage. `getStatusColor` and `getStatusBadge` map a status string to CSS classes, with a grey default. The alert list keeps the readings whose *stored* status is "poor" or "hazardous". The stored status and the computed band are kept apart: in the mock data, readings 1, 3 and 9 carry labels their values do not earn.
- **Chatbot** (`ChatInterface.dfy`). `generateBotResponse` lower-cases the message and returns the reply of the first keyword in table order that the message contains, or a default reply. It is a method with a loop, proved against the function `Reply`. `ChatSession` is the widget's state: `messages`, `input`, `isTyping`, and the queue of reply timers still to fire. Its invariant says that the bot's messages after the welcome answer the user's messages one by one, in order.
- **Mock authentication** (`AuthContext.dfy`). `AuthProvider` holds the module-level user table, the auth state `{user, isAuthenticated, isLoading}` and the stored "ecoUser" session. Login and register are each a request step (`BeginRequest`) followed by a completion step, the body of the timer. The invariant keeps emails unique ignoring case, ids equal to position + 1, `isAuthenticated` true exactly when a user is set, and the signed-in user equal to the stored one. The session restore applies the corrected restore from "## Findings"; the third part of the invariant holds only for it, not for the source on a stored "null".
- `Text.dfy` holds the string primitives used: `toLowerCase` (ASCII and Latin-1 letters), `trim`, `includes`, and the decimal rendering of `${n}`. `Wrappers.dfy` holds `Option`.

Readings are Dafny `real`s, so arithmetic is exact.

## Model

| member | source | states |
|---|---|---|
| Dashboard.StatusColor | src/pages/Dashboard.tsx:142-155 | the colour is the grey default exactly when the status is not one of the four known statuses |
| Dashboard.StatusBadge | src/pages/Dashboard.tsx:157-170 | the badge is the grey default exactly when the status is not one of the four known statuses |
| Dashboard.StatusStylesDistinct | src/pages/Dashboard.tsx:142-170 | distinct known statuses get distinct colours and distinct badges |
| Dashboard.BandNeverGrey | src/pages/Dashboard.tsx:172-189 | every band `getStatusProgress` computes is a known status, so its colour and badge are never grey |
| Dashboard.StatusProgress | src/pages/Dashboard.tsx:172-189 | the hazardous band always has progress 100; progress lies in [0, 100] for air and temperature readings >= 0 and for water readings <= 100 |
| Dashboard.BandFollowsBoundaries | src/pages/Dashboard.tsx:172-189 | the band's rank equals the number of band boundaries the reading has crossed: boundaries below it for air and temperature, above it for water |
| Dashboard.BandMonotone | src/pages/Dashboard.tsx:173-187 | raising a reading never improves the band of air or temperature, and never worsens the band of water |
| Dashboard.AirBands | src/pages/Dashboard.tsx:173-177 | air is good iff v <= 50, moderate iff 50 < v <= 100, poor iff 100 < v <= 150, hazardous iff v > 150 |
| Dashboard.WaterBands | src/pages/Dashboard.tsx:178-182 | water is good iff v >= 80, moderate iff 50 <= v < 80, poor iff 20 <= v < 50, hazardous iff v < 20 |
| Dashboard.TemperatureBands | src/pages/Dashboard.tsx:183-187 | every kind other than air and water uses the 25 / 32 / 40 thresholds, lower being better |
| Dashboard.CriticalItemsAreCritical | src/pages/Dashboard.tsx:198-200 | the filter keeps only readings whose stored status is poor or hazardous |
| Dashboard.CriticalItemsCount | src/pages/Dashboard.tsx:198-200 | each critical reading is kept as many times as it occurs; every other reading is dropped |
| Dashboard.CriticalItemsOrdered | src/pages/Dashboard.tsx:198-200 | the filter keeps readings in their original order (it is a subsequence of the input) |
| Dashboard.CriticalItemsDistributes | src/pages/Dashboard.tsx:197-201 | filtering two lists laid end to end is the same as filtering each and concatenating |
| Dashboard.Alerts | src/pages/Dashboard.tsx:196-203 | the alert list is the filter of air, then water, then temperature readings laid end to end, so it holds exactly the critical readings, air first, each group in order |
| Dashboard.MockAlerts | src/pages/Dashboard.tsx:197-201 | on the mock data the alerts are readings 3, 5 and 8, in that order |
| Dashboard.MockStatusesDisagreeWithBands | src/pages/Dashboard.tsx:13-101 | readings 1 (air 45), 3 (air 75) and 9 (temperature 26.2) carry stored labels that differ from their computed bands |
| Text.LowerIdempotent | src/components/chatbot/ChatInterface.tsx:41 | lower-casing twice is the same as lower-casing once |
| Text.TrimsToEmpty | src/components/chatbot/ChatInterface.tsx:75 | `trim()` gives the empty string exactly when the text is made only of white space |
| Text.DecimalStringInjective | src/context/AuthContext.tsx:100 | different numbers give different decimal id strings |
| ChatInterface.GenerateBotResponse | src/components/chatbot/ChatInterface.tsx:39-52 | the loop returns the reply of the first keyword in table order found in the lower-cased message, or the default reply |
| ChatInterface.FirstMatchAt | src/components/chatbot/ChatInterface.tsx:44-47 | when entry k is the first whose keyword occurs in the text, its response is chosen |
| ChatInterface.FirstMatchNone | src/components/chatbot/ChatInterface.tsx:50-51 | when no keyword occurs in the text, the default reply is chosen |
| ChatInterface.FirstMatchIsCanned | src/components/chatbot/ChatInterface.tsx:44-51 | the chosen reply is one of the table's responses or the default |
| ChatInterface.ReplyIsCanned | src/components/chatbot/ChatInterface.tsx:20-27 | every reply is one of the six table replies or the default reply |
| ChatInterface.ReplyIgnoresCase | src/components/chatbot/ChatInterface.tsx:41 | the reply to a message equals the reply to its lower-cased form |
| ChatInterface.AirQualityTakesPriority | src/components/chatbot/ChatInterface.tsx:21-22 | a message containing both "qualidade do ar" and "poluição" gets the air-quality reply, because table order decides |
| ChatInterface.SuggestedAirQuestion | src/components/chatbot/ChatInterface.tsx:31 | the suggested question "Qual a qualidade do ar hoje?" gets the air-quality reply |
| ChatInterface.SendKeepsAnswered | src/components/chatbot/ChatInterface.tsx:78-87 | appending a non-blank user message and queueing its reply keeps the transcript invariant |
| ChatInterface.ReplyKeepsAnswered | src/components/chatbot/ChatInterface.tsx:90-99 | appending the reply to the oldest pending text and dequeuing it keeps the transcript invariant |
| ChatInterface.ChatSession.constructor | src/components/chatbot/ChatInterface.tsx:55-64 | the transcript starts with the welcome message only, an empty input and no typing indicator |
| ChatInterface.ChatSession.SetInput | src/components/chatbot/ChatInterface.tsx:197 | editing the input box changes only `input` |
| ChatInterface.ChatSession.Send | src/components/chatbot/ChatInterface.tsx:74-88 | a blank text changes nothing; otherwise exactly one user message with the text is appended, `input` is cleared, `isTyping` is set and the reply is queued |
| ChatInterface.ChatSession.SendInput | src/components/chatbot/ChatInterface.tsx:103-108 | sending with the default argument sends the current input, with the same effects |
| ChatInterface.ChatSession.ReplyArrives | src/components/chatbot/ChatInterface.tsx:90-100 | the timer appends exactly one bot message whose content is the reply to the queued text, clears `isTyping`, and leaves earlier messages untouched |
| AuthContext.FindByEmail | src/context/AuthContext.tsx:64-66 | finds the first user whose email equals the given one ignoring case, and finds none exactly when no email matches |
| AuthContext.MockUsersValid | src/context/AuthContext.tsx:15-32 | the initial table has unique emails and ids "1", "2" |
| AuthContext.IdsUnique | src/context/AuthContext.tsx:100 | ids that follow position are pairwise distinct |
| AuthContext.RegisterKeepsTableValid | src/context/AuthContext.tsx:89-109 | appending a user whose email is not taken keeps emails unique ignoring case and ids equal to position + 1 |
| AuthContext.RestoredState | src/context/AuthContext.tsx:42-55 | restoring ends not loading; it authenticates exactly when a stored user is present and then sets that user; `isAuthenticated` holds iff a user is set |
| AuthContext.RestoredStateAsWritten | src/context/AuthContext.tsx:42-55 | the mount effect as written ends not loading; it authenticates exactly for a stored user's JSON and for the text "null", and sets the user only for a stored user's JSON |
| AuthContext.NullSessionAuthenticatesNobody | src/context/AuthContext.tsx:44-47 | as written, the stored text "null" gives an authenticated state with no user |
| AuthContext.RestoreAgreesExceptNull | src/context/AuthContext.tsx:42-55 | on every stored session other than "null" the code as written and the corrected restore agree |
| AuthContext.AuthProvider.constructor | src/context/AuthContext.tsx:35-39 | the provider starts with the mock table, no user, not authenticated and loading |
| AuthContext.AuthProvider.RestoreSession | src/context/AuthContext.tsx:42-55 | the mount effect sets the corrected restored state (signed out on the stored text "null", where the source authenticates without a user) and keeps the invariant |
| AuthContext.AuthProvider.BeginRequest | src/context/AuthContext.tsx:59 | the request step of login and register raises `isLoading` and changes nothing else |
| AuthContext.AuthProvider.CompleteLogin | src/context/AuthContext.tsx:63-78 | login succeeds iff some email matches ignoring case and the password is "password"; then it signs in and stores that user; otherwise it rejects, lowers `isLoading` and leaves user, authentication and storage alone |
| AuthContext.AuthProvider.CompleteRegister | src/context/AuthContext.tsx:88-116 | a taken email rejects and leaves the table alone; otherwise exactly one user with id length + 1, role "user" and the given name and email is appended, signed in and stored |
| AuthContext.AuthProvider.Logout | src/context/AuthContext.tsx:120-124 | logout removes the stored session and sets the signed-out, not-loading state |

## Left out

- Rendering (JSX, tabs, charts, progress bars, avatars, toasts, `scrollIntoView`) and the `src/pages/Chatbot.tsx` page, which is layout only.
- The `setTimeout` delays (800 ms and 1500 ms) and the promise plumbing. Each operation is a request step followed by a completion step. A settled promise is an `Outcome`.
- Message ids and timestamps (`Date.now()`, `new Date()`) and the users' `createdAt`. These values are nondeterministic.
- `console.error`, and timers that fire after the widget unmounts.
- `localStorage` and JSON. The stored session is the datatype `StoredSession`: missing, empty text, a user's JSON, the text "null", or text that fails to parse. Other JSON values that are not user records are not modelled.
- The user table is a field of the provider. The model does not capture that it is a module-level array shared by every provider instance and reset on each page load.
- `useAuth`'s error when it is used outside the provider. That check belongs to React's context wiring.
- `register`'s password argument. The source ignores it, and so does the model.
- Static tables (`chartData`, `suggestedQuestions`). The mock readings and one suggested question are used only as concrete inputs.
- IEEE-754 rounding in the progress division. The model computes over exact reals.
- AuthContext.AuthProvider.RestoreSession: applies the corrected restore, so on the stored text "null" it signs out, while the source sets `{user: null, isAuthenticated: true}`; the source's behaviour is kept in AuthContext.RestoredStateAsWritten.
- Text.Lower: models `toLowerCase` on ASCII and the Latin-1 capitals only, not full Unicode case mapping.

## Findings

| source | as written | input that shows it | evidently intended | confidence | as-written member | corrected member |
|---|---|---|---|---|---|---|
| src/context/AuthContext.tsx:44-47 | any truthy stored text that `JSON.parse` accepts becomes `user`, with `isAuthenticated: true` | stored "ecoUser" item equal to the text `null`: it parses to null without throwing, giving `{user: null, isAuthenticated: true}` | only a stored user signs in; anything else gives the signed-out state | medium, not executed | AuthContext.NullSessionAuthenticatesNobody | AuthContext.RestoredState |
