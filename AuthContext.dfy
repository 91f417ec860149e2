/**
 * The mock authentication provider: a user table that registration appends
 * to, the auth state `{user, isAuthenticated, isLoading}`, and the session
 * kept in browser storage under the key "ecoUser".
 *
 * Each asynchronous operation is two steps: the request (`BeginRequest`, which
 * only raises `isLoading`) and the completion that the timer runs later
 * (`CompleteLogin`, `CompleteRegister`).
 */
module AuthContext {
  import opened Wrappers
  import opened Text

  /** A user record; the creation timestamp is not modelled. */
  datatype User = User(id: string, name: string, email: string, avatar: string, role: string)

  datatype AuthState = AuthState(user: Option<User>, isAuthenticated: bool, isLoading: bool)

  /** What the stored session text can be when the provider mounts. */
  datatype StoredSession =
    | Missing            // no "ecoUser" item
    | EmptyText          // the empty string, which is falsy
    | UserJson(user: User) // the JSON text of a user, as login and register write it
    | NullJson           // the text "null", which parses without error to null
    | Malformed          // text on which JSON.parse throws

  /** The settled outcome of a login or register promise. */
  datatype Outcome = Resolved | Rejected(reason: string)

  const Placeholder: string := "/placeholder.svg"
  const DemoPassword: string := "password"

  /** The table the module starts with. */
  const MockUsers: seq<User> := [
    User("1", "Maria Silva", "maria@example.com", Placeholder, "admin"),
    User("2", "João Santos", "joao@example.com", Placeholder, "user")
  ]

  /** `isAuthenticated` holds exactly when a user is set. */
  predicate Consistent(st: AuthState) {
    st.isAuthenticated <==> st.user.Some?
  }

  /** Emails are compared after lower-casing both sides. */
  predicate SameEmail(a: string, b: string) {
    Lower(a) == Lower(b)
  }

  /** The lookup `login` and `register` run: the first user whose email equals the given one ignoring case. */
  function FindByEmail(users: seq<User>, email: string): (r: Option<User>)
    ensures r.None? <==> forall i :: 0 <= i < |users| ==> !SameEmail(users[i].email, email)
    ensures r.Some? ==> exists i :: 0 <= i < |users| && users[i] == r.value
                          && SameEmail(r.value.email, email)
                          && forall j :: 0 <= j < i ==> !SameEmail(users[j].email, email)
  {
    if users == [] then None
    else if SameEmail(users[0].email, email) then Some(users[0])
    else
      var r := FindByEmail(users[1..], email);
      assert forall j :: 0 <= j < |users| - 1 ==> users[1..][j] == users[j + 1];
      r
  }

  /** No two users of the table share an email, ignoring case. */
  ghost predicate EmailsUnique(users: seq<User>) {
    forall i, j :: 0 <= i < j < |users| ==> !SameEmail(users[i].email, users[j].email)
  }

  /** The user at position `i` has id `i + 1`, written in decimal. */
  ghost predicate IdsFollowPosition(users: seq<User>) {
    forall i :: 0 <= i < |users| ==> users[i].id == DecimalString(i + 1)
  }

  ghost predicate TableValid(users: seq<User>) {
    EmailsUnique(users) && IdsFollowPosition(users)
  }

  lemma MockUsersValid()
    ensures TableValid(MockUsers)
  {
    var m := Lower(MockUsers[0].email);
    var j := Lower(MockUsers[1].email);
    assert m[0] == 'm' && j[0] == 'j';
  }

  /** Ids that follow position are unique. */
  lemma IdsUnique(users: seq<User>, i: nat, j: nat)
    requires IdsFollowPosition(users) && i < |users| && j < |users| && i != j
    ensures users[i].id != users[j].id
  {
    if users[i].id == users[j].id {
      DecimalStringInjective(i + 1, j + 1);
    }
  }

  /** The record `register` creates when the table holds `count` users. */
  function NewUser(count: nat, name: string, email: string): User {
    User(DecimalString(count + 1), name, email, Placeholder, "user")
  }

  /**
   * Appending a user whose email is not yet taken keeps emails unique and ids
   * following position; by induction this holds across any sequence of
   * registrations starting from the mock table.
   */
  lemma RegisterKeepsTableValid(users: seq<User>, name: string, email: string)
    requires TableValid(users) && FindByEmail(users, email).None?
    ensures TableValid(users + [NewUser(|users|, name, email)])
  {
    var users' := users + [NewUser(|users|, name, email)];
    forall i, j | 0 <= i < j < |users'|
      ensures !SameEmail(users'[i].email, users'[j].email)
    {
      if j == |users| {
        assert !SameEmail(users[i].email, email);
      }
    }
  }

  /** The state the mount effect settles in for a stored session: only a stored user signs in. */
  function RestoredState(stored: StoredSession): (st: AuthState)
    ensures !st.isLoading && Consistent(st)
    ensures st.isAuthenticated <==> stored.UserJson?
    ensures stored.UserJson? ==> st.user == Some(stored.user)
  {
    match stored
    case UserJson(u) => AuthState(Some(u), true, false)
    case _ => AuthState(None, false, false)
  }

  /**
   * The mount effect as written: a truthy item is parsed and whatever it parses
   * to becomes `user`, with `isAuthenticated` set; so the text "null" yields
   * an authenticated state without a user.
   */
  function RestoredStateAsWritten(stored: StoredSession): (st: AuthState)
    ensures !st.isLoading
    ensures st.isAuthenticated <==> (stored.UserJson? || stored.NullJson?)
    ensures st.user == (if stored.UserJson? then Some(stored.user) else None)
  {
    match stored
    case Missing => AuthState(None, false, false)
    case EmptyText => AuthState(None, false, false)
    case UserJson(u) => AuthState(Some(u), true, false)
    case NullJson => AuthState(None, true, false)
    case Malformed => AuthState(None, false, false)
  }

  /** The stored text "null" breaks the rule that an authenticated state has a user. */
  lemma NullSessionAuthenticatesNobody()
    ensures RestoredStateAsWritten(NullJson).isAuthenticated
    ensures RestoredStateAsWritten(NullJson).user.None?
    ensures !Consistent(RestoredStateAsWritten(NullJson))
  {
  }

  /** On every other stored session the code as written and the corrected restore agree. */
  lemma RestoreAgreesExceptNull(stored: StoredSession)
    requires !stored.NullJson?
    ensures RestoredStateAsWritten(stored) == RestoredState(stored)
  {
  }

  /**
   * The provider's state: the module-level user table, the auth state and the
   * stored session.
   */
  class AuthProvider {
    var users: seq<User>
    var state: AuthState
    var storage: StoredSession

    /**
     * The table keeps unique emails and positional ids; `isAuthenticated`
     * holds exactly when a user is set; and a signed-in user is the one the
     * stored session holds.
     */
    ghost predicate Valid()
      reads this
    {
      && TableValid(users)
      && Consistent(state)
      && (state.user.Some? ==> storage == UserJson(state.user.value))
    }

    /** The provider mounts with the mock table and whatever session storage holds; it is loading. */
    constructor (stored: StoredSession)
      ensures Valid()
      ensures users == MockUsers && state == AuthState(None, false, true) && storage == stored
    {
      users := MockUsers;
      state := AuthState(None, false, true);
      storage := stored;
      MockUsersValid();
    }

    /**
     * The mount effect: restore the session from storage. It applies the
     * corrected restore, which differs from the source on the stored text
     * "null": there the source authenticates without a user, and this method
     * signs out (see `RestoreAgreesExceptNull` for every other session).
     */
    method RestoreSession()
      requires Valid()
      modifies this
      ensures Valid()
      ensures state == RestoredState(storage)
      ensures users == old(users) && storage == old(storage)
    {
      state := RestoredState(storage);
    }

    /** The first step of `login` and `register`: `isLoading` is raised, nothing else changes. */
    method BeginRequest()
      requires Valid()
      modifies this
      ensures Valid()
      ensures state == old(state).(isLoading := true)
      ensures users == old(users) && storage == old(storage)
    {
      state := state.(isLoading := true);
    }

    /**
     * The timer step of `login`: succeeds exactly when some user's email
     * matches ignoring case and the password is the demo password; then that
     * user is signed in and stored. Otherwise it rejects, only `isLoading` drops.
     */
    method CompleteLogin(email: string, password: string) returns (outcome: Outcome)
      requires Valid()
      modifies this
      ensures Valid()
      ensures outcome.Resolved? <==>
        (exists i :: 0 <= i < |users| && SameEmail(users[i].email, email)) && password == DemoPassword
      ensures outcome.Resolved? ==>
        && state == AuthState(FindByEmail(users, email), true, false)
        && storage == UserJson(FindByEmail(users, email).value)
      ensures outcome.Rejected? ==>
        && outcome.reason == "Invalid credentials"
        && state == old(state).(isLoading := false)
        && storage == old(storage)
      ensures users == old(users)
    {
      var found := FindByEmail(users, email);
      if found.Some? && password == DemoPassword {
        state := AuthState(found, true, false);
        storage := UserJson(found.value);
        outcome := Resolved;
      } else {
        state := state.(isLoading := false);
        outcome := Rejected("Invalid credentials");
      }
    }

    /**
     * The timer step of `register`: rejects when the email is taken ignoring
     * case, leaving the table alone; otherwise appends one user with the next
     * positional id and role "user", signs it in and stores it.
     */
    method CompleteRegister(name: string, email: string, password: string) returns (outcome: Outcome)
      requires Valid()
      modifies this
      ensures Valid()
      ensures outcome.Rejected? <==> exists i :: 0 <= i < |old(users)| && SameEmail(old(users)[i].email, email)
      ensures outcome.Rejected? ==>
        && outcome.reason == "Email already in use"
        && users == old(users)
        && state == old(state).(isLoading := false)
        && storage == old(storage)
      ensures outcome.Resolved? ==>
        && users == old(users) + [NewUser(|old(users)|, name, email)]
        && state == AuthState(Some(NewUser(|old(users)|, name, email)), true, false)
        && storage == UserJson(NewUser(|old(users)|, name, email))
    {
      var existing := FindByEmail(users, email);
      if existing.Some? {
        state := state.(isLoading := false);
        outcome := Rejected("Email already in use");
      } else {
        var newUser := NewUser(|users|, name, email);
        RegisterKeepsTableValid(users, name, email);
        users := users + [newUser];
        state := AuthState(Some(newUser), true, false);
        storage := UserJson(newUser);
        outcome := Resolved;
      }
    }

    /** `logout`: the stored session is removed and the state is signed out and not loading. */
    method Logout()
      requires Valid()
      modifies this
      ensures Valid()
      ensures state == AuthState(None, false, false) && storage == Missing
      ensures users == old(users)
    {
      storage := Missing;
      state := AuthState(None, false, false);
    }
  }
}
