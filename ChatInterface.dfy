/**
 * The chatbot widget: a canned reply chosen by the first keyword, in table
 * order, that occurs in the lower-cased message; and the transcript that a
 * send and the delayed bot reply update.
 */
module ChatInterface {
  import opened Text

  /** One row of the keyword table: a keyword and the reply it triggers. */
  datatype Entry = Entry(keyword: string, response: string)

  const AirReply: string := "A qualidade do ar é medida através de diversos parâmetros como PM2.5, PM10, ozônio, NO2. Nossos dados mostram variações significativas entre áreas urbanas e rurais."
  const PollutionReply: string := "Nossos dados indicam que as principais fontes de poluição são veículos (55%), indústrias (30%) e outras fontes (15%). Você pode verificar os detalhes na seção de dados."
  const TemperatureReply: string := "Registramos um aumento médio de 1.5°C nas temperaturas urbanas nos últimos 5 anos. As previsões indicam um aumento adicional de 0.8°C na próxima década."
  const WaterReply: string := "A qualidade da água é monitorada em 27 pontos diferentes. O IQA (Índice de Qualidade da Água) médio é 72, considerado satisfatório, porém com pontos críticos em áreas industriais."
  const DataReply: string := "Nosso sistema coleta dados de qualidade do ar, água e temperatura de mais de 50 estações de monitoramento distribuídas pelo país. Atualizamos os dados a cada 30 minutos."
  const HelpReply: string := "Posso ajudar com informações sobre qualidade do ar, água, temperatura, análises de poluição e interpretação dos dados ambientais. Basta perguntar!"

  /** The reply when no keyword occurs in the message. */
  const DefaultReply: string := "Desculpe, não tenho informações específicas sobre isso. Posso ajudar com dados sobre qualidade do ar, água, temperatura e poluição. Tente perguntar sobre esses temas."

  /** `botResponses`, in the order in which `Object.entries` visits it. */
  const BotResponses: seq<Entry> := [
    Entry("qualidade do ar", AirReply),
    Entry("poluição", PollutionReply),
    Entry("temperatura", TemperatureReply),
    Entry("água", WaterReply),
    Entry("dados", DataReply),
    Entry("ajuda", HelpReply)
  ]

  /** The reply of the first entry whose keyword occurs in `text`, or the default reply. */
  function FirstMatch(text: string, table: seq<Entry>): string {
    if table == [] then DefaultReply
    else if Contains(text, table[0].keyword) then table[0].response
    else FirstMatch(text, table[1..])
  }

  /** The reply `generateBotResponse` gives to a message. */
  function Reply(message: string): string {
    FirstMatch(Lower(message), BotResponses)
  }

  /** `generateBotResponse`: scan the keyword table in order and stop at the first keyword found. */
  method GenerateBotResponse(message: string) returns (reply: string)
    ensures reply == Reply(message)
  {
    var lowerMessage := Lower(message);
    for i := 0 to |BotResponses|
      invariant FirstMatch(lowerMessage, BotResponses[i..]) == Reply(message)
    {
      if Contains(lowerMessage, BotResponses[i].keyword) {
        return BotResponses[i].response;
      }
      assert BotResponses[i..][1..] == BotResponses[i + 1..];
    }
    return DefaultReply;
  }

  /** When entry `k` is the first whose keyword occurs in `text`, its response is chosen. */
  lemma {:induction false} FirstMatchAt(text: string, table: seq<Entry>, k: nat)
    requires k < |table| && Contains(text, table[k].keyword)
    requires forall j :: 0 <= j < k ==> !Contains(text, table[j].keyword)
    ensures FirstMatch(text, table) == table[k].response
  {
    if k > 0 {
      assert !Contains(text, table[0].keyword);
      assert forall j :: 0 <= j < k - 1 ==> table[1..][j] == table[j + 1];
      FirstMatchAt(text, table[1..], k - 1);
    }
  }

  /** When no keyword occurs in `text`, the default reply is chosen. */
  lemma {:induction false} FirstMatchNone(text: string, table: seq<Entry>)
    requires forall j :: 0 <= j < |table| ==> !Contains(text, table[j].keyword)
    ensures FirstMatch(text, table) == DefaultReply
  {
    if table != [] {
      assert !Contains(text, table[0].keyword);
      assert forall j :: 0 <= j < |table| - 1 ==> table[1..][j] == table[j + 1];
      FirstMatchNone(text, table[1..]);
    }
  }

  /** The chosen reply is one of the table's responses or the default reply. */
  lemma {:induction false} FirstMatchIsCanned(text: string, table: seq<Entry>)
    ensures FirstMatch(text, table) == DefaultReply
         || exists j :: 0 <= j < |table| && FirstMatch(text, table) == table[j].response
  {
    if table != [] && !Contains(text, table[0].keyword) {
      FirstMatchIsCanned(text, table[1..]);
      if FirstMatch(text, table) != DefaultReply {
        var j :| 0 <= j < |table[1..]| && FirstMatch(text, table[1..]) == table[1..][j].response;
        assert FirstMatch(text, table) == table[j + 1].response;
      }
    }
  }

  /** Every reply is one of the six canned replies or the default reply. */
  lemma ReplyIsCanned(message: string)
    ensures Reply(message) in {AirReply, PollutionReply, TemperatureReply, WaterReply, DataReply, HelpReply, DefaultReply}
  {
    FirstMatchIsCanned(Lower(message), BotResponses);
  }

  /** The reply depends on the message only through its lower-cased form. */
  lemma ReplyIgnoresCase(message: string)
    ensures Reply(message) == Reply(Lower(message))
  {
    LowerIdempotent(message);
  }

  /** Table order decides: a message about air quality gets the air reply even when it also mentions pollution. */
  lemma AirQualityTakesPriority(message: string)
    requires Contains(Lower(message), "qualidade do ar") && Contains(Lower(message), "poluição")
    ensures Reply(message) == AirReply
  {
    FirstMatchAt(Lower(message), BotResponses, 0);
  }

  /** The first suggested question, "Qual a qualidade do ar hoje?", gets the air-quality reply. */
  lemma SuggestedAirQuestion()
    ensures Reply("Qual a qualidade do ar hoje?") == AirReply
  {
    var message := "Qual a qualidade do ar hoje?";
    var lower := Lower(message);
    assert message == "Qual a " + "qualidade do ar" + " hoje?";
    assert message[7..22] == "qualidade do ar";
    assert forall i :: 7 <= i < 22 ==> lower[i] == message[i];
    assert lower[7..22] == message[7..22];
    assert OccursAt(lower, "qualidade do ar", 7);
    FirstMatchAt(lower, BotResponses, 0);
  }

  /** A message of the transcript: its text and whether the user (rather than the bot) wrote it. */
  datatype Message = Message(content: string, isUser: bool)

  const Welcome: Message := Message("Olá! Sou o EcoBot, assistente virtual do EcoConnect. Como posso ajudar com informações sobre dados ambientais?", false)

  /** The texts of the user's messages, in transcript order. */
  function UserTexts(ms: seq<Message>): seq<string> {
    if ms == [] then [] else (if ms[0].isUser then [ms[0].content] else []) + UserTexts(ms[1..])
  }

  /** The texts of the bot's messages, in transcript order. */
  function BotTexts(ms: seq<Message>): seq<string> {
    if ms == [] then [] else (if ms[0].isUser then [] else [ms[0].content]) + BotTexts(ms[1..])
  }

  lemma {:induction false} TextsAppend(ms: seq<Message>, m: Message)
    ensures UserTexts(ms + [m]) == UserTexts(ms) + (if m.isUser then [m.content] else [])
    ensures BotTexts(ms + [m]) == BotTexts(ms) + (if m.isUser then [] else [m.content])
  {
    if ms == [] {
      assert ms + [m] == [m];
    } else {
      assert (ms + [m])[0] == ms[0];
      assert (ms + [m])[1..] == ms[1..] + [m];
      TextsAppend(ms[1..], m);
    }
  }

  /**
   * The invariant of a transcript and its pending replies: it opens with the
   * welcome message; user messages are never blank; the bot's later messages
   * answer the user's messages one by one, in order; and the user messages not
   * yet answered are exactly the pending ones.
   */
  ghost predicate Answered(messages: seq<Message>, pending: seq<string>) {
    && |messages| >= 1
    && messages[0] == Welcome
    && (forall t :: t in UserTexts(messages) ==> !IsBlank(t))
    && var asked, answered := UserTexts(messages), BotTexts(messages[1..]);
    && |answered| + |pending| == |asked|
    && pending == asked[|answered|..]
    && forall k :: 0 <= k < |answered| ==> answered[k] == Reply(asked[k])
  }

  /** Sending a non-blank text keeps the invariant: the text becomes the newest pending one. */
  lemma SendKeepsAnswered(messages: seq<Message>, pending: seq<string>, text: string)
    requires Answered(messages, pending) && !IsBlank(text)
    ensures Answered(messages + [Message(text, true)], pending + [text])
  {
    var m := Message(text, true);
    TextsAppend(messages, m);
    TextsAppend(messages[1..], m);
    assert (messages + [m])[1..] == messages[1..] + [m];
    var asked := UserTexts(messages);
    var answered := BotTexts(messages[1..]);
    assert (asked + [text])[|answered|..] == asked[|answered|..] + [text];
  }

  /** The bot's reply to the oldest pending text keeps the invariant. */
  lemma ReplyKeepsAnswered(messages: seq<Message>, pending: seq<string>)
    requires Answered(messages, pending) && pending != []
    ensures Answered(messages + [Message(Reply(pending[0]), false)], pending[1..])
  {
    var m := Message(Reply(pending[0]), false);
    TextsAppend(messages, m);
    TextsAppend(messages[1..], m);
    assert (messages + [m])[1..] == messages[1..] + [m];
    var asked := UserTexts(messages);
    var answered := BotTexts(messages[1..]);
    assert pending[0] == asked[|answered|];
  }

  /**
   * The chat widget's state. `pending` holds, in firing order, the texts whose
   * reply timer has been started and has not fired yet (all timers have the
   * same delay, so they fire in the order they were started).
   */
  class ChatSession {
    var messages: seq<Message>
    var input: string
    var isTyping: bool
    var pending: seq<string>

    ghost predicate Valid()
      reads this
    {
      Answered(messages, pending)
    }

    constructor ()
      ensures Valid()
      ensures messages == [Welcome] && input == "" && !isTyping && pending == []
    {
      messages := [Welcome];
      input := "";
      isTyping := false;
      pending := [];
    }

    /** The user edits the input box. */
    method SetInput(text: string)
      requires Valid()
      modifies this
      ensures Valid()
      ensures input == text
      ensures messages == old(messages) && isTyping == old(isTyping) && pending == old(pending)
    {
      input := text;
    }

    /**
     * `handleSendMessage(messageText)`: a blank text changes nothing; otherwise
     * the text is appended as a user message, the input box is cleared, the
     * typing indicator is switched on and the reply timer is started.
     */
    method Send(messageText: string)
      requires Valid()
      modifies this
      ensures Valid()
      ensures IsBlank(messageText) ==>
        messages == old(messages) && input == old(input) && isTyping == old(isTyping) && pending == old(pending)
      ensures !IsBlank(messageText) ==>
        && messages == old(messages) + [Message(messageText, true)]
        && input == ""
        && isTyping
        && pending == old(pending) + [messageText]
    {
      if TrimsToEmpty(messageText) {
        return;
      }
      SendKeepsAnswered(messages, pending, messageText);
      messages := messages + [Message(messageText, true)];
      input := "";
      isTyping := true;
      pending := pending + [messageText];
    }

    /** `handleSendMessage()` with its default argument: send what is in the input box. */
    method SendInput()
      requires Valid()
      modifies this
      ensures Valid()
      ensures IsBlank(old(input)) ==>
        messages == old(messages) && input == old(input) && isTyping == old(isTyping) && pending == old(pending)
      ensures !IsBlank(old(input)) ==>
        && messages == old(messages) + [Message(old(input), true)]
        && input == ""
        && isTyping
        && pending == old(pending) + [old(input)]
    {
      Send(input);
    }

    /**
     * The reply timer fires: the bot's reply to the oldest pending text is
     * appended and the typing indicator is switched off.
     */
    method ReplyArrives()
      requires Valid() && pending != []
      modifies this
      ensures Valid()
      ensures messages == old(messages) + [Message(Reply(old(pending)[0]), false)]
      ensures !isTyping && pending == old(pending)[1..] && input == old(input)
    {
      var reply := GenerateBotResponse(pending[0]);
      ReplyKeepsAnswered(messages, pending);
      messages := messages + [Message(reply, false)];
      isTyping := false;
      pending := pending[1..];
    }
  }
}
