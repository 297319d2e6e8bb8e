/** The authentication slice: the decisions the login and signup requests
    take on the gateway's answers, and the session state those requests,
    `logout` and `clearError` update, with its persisted copy under the
    storage key `authState`. */
module AuthSlice {
  import opened Wrappers

  /** A user record as the gateway stores it. */
  datatype UserRecord = UserRecord(id: string, username: string, password: string, name: string)

  /** A user as the session holds it: the record without its password. */
  datatype User = User(id: string, username: string, name: string)

  /** `const { password, ...userWithoutPassword } = record`. */
  function WithoutPassword(record: UserRecord): User {
    User(record.id, record.username, record.name)
  }

  /** The session: `{user, loading, error, isAuthenticated}`. */
  datatype AuthState = AuthState(user: Option<User>, loading: bool, error: Option<string>, isAuthenticated: bool)

  /** The state used when nothing usable is stored. */
  const SignedOut := AuthState(None, false, None, false)

  /** What the storage entry `authState` holds: text that `JSON.parse`
      rejects, or a serialised session. */
  datatype StoredEntry = Corrupt | Saved(state: AuthState)

  /** `loadAuthState`: the stored session if there is one that parses,
      otherwise the signed-out state. */
  function LoadAuthState(stored: Option<StoredEntry>): (s: AuthState)
    ensures stored == None ==> s == SignedOut
    ensures stored == Some(Corrupt) ==> s == SignedOut
    ensures stored.Some? && stored.value.Saved? ==> s == stored.value.state
  {
    match stored
    case None => SignedOut
    case Some(Corrupt) => SignedOut
    case Some(Saved(state)) => state
  }

  /** What `GET /users?username=…` gave: the matching records, or an
      exception with its message. */
  datatype QueryOutcome = Users(records: seq<UserRecord>) | QueryFailed(message: string)

  /** What `POST /users` gave: the created record, a response that is not
      `ok`, or an exception with its message. */
  datatype CreateOutcome = Created(record: UserRecord) | CreateNotOk | CreateFailed(message: string)

  /** `error.message || fallback`. */
  function MessageOr(message: string, fallback: string): string {
    if message == "" then fallback else message
  }

  /** The index `users.find(user => user.password === password)` stops at. */
  function FindByPassword(users: seq<UserRecord>, password: string): (r: Option<nat>)
    ensures r.None? <==> forall i :: 0 <= i < |users| ==> users[i].password != password
    ensures r.Some? ==> r.value < |users| && users[r.value].password == password
    ensures r.Some? ==> forall j :: 0 <= j < r.value ==> users[j].password != password
  {
    if users == [] then None
    else if users[0].password == password then Some(0)
    else
      match FindByPassword(users[1..], password)
      case None => None
      case Some(k) => Some(k + 1)
  }

  /** The login request's decision on the gateway's answer. */
  function AttemptLogin(query: QueryOutcome, password: string): (r: Result<User, string>)
    ensures query.QueryFailed? ==> r == Failure(MessageOr(query.message, "Login failed"))
    ensures query.Users? ==>
      (r.Success? <==> exists i :: 0 <= i < |query.records| && query.records[i].password == password)
    ensures query.Users? && r.Failure? ==> r.error == "Invalid username or password"
    ensures r.Success? ==> query.Users?
    ensures r.Success? ==>
              exists i :: 0 <= i < |query.records| && query.records[i].password == password &&
                          r.value == WithoutPassword(query.records[i]) &&
                          (forall j :: 0 <= j < i ==> query.records[j].password != password)
  {
    match query
    case QueryFailed(message) => Failure(MessageOr(message, "Login failed"))
    case Users(users) =>
      match FindByPassword(users, password)
      case None => Failure("Invalid username or password")
      case Some(i) => Success(WithoutPassword(users[i]))
  }

  /** Login compares only the password in plain text: the username is
      matched by the gateway's query. When every returned record carries
      the requested username, so does the signed-in user. */
  lemma LoginUserMatchesQuery(query: QueryOutcome, username: string, password: string)
    requires query.Users? && forall i :: 0 <= i < |query.records| ==> query.records[i].username == username
    ensures AttemptLogin(query, password).Success? ==> AttemptLogin(query, password).value.username == username
  {
  }

  /** The signup request's decision: the existence check first, then the
      creation request, which is only sent when the check found nobody. */
  function AttemptSignup(check: QueryOutcome, create: CreateOutcome): (r: Result<User, string>)
    ensures r.Success? <==> check == Users([]) && create.Created?
    ensures r.Success? ==> r.value == WithoutPassword(create.record)
    ensures check.QueryFailed? ==> r == Failure(MessageOr(check.message, "Signup failed"))
    ensures check.Users? && |check.records| > 0 ==> r == Failure("Username already exists")
    ensures check == Users([]) && create == CreateNotOk ==> r == Failure("Failed to create user")
    ensures check == Users([]) && create.CreateFailed? ==> r == Failure(MessageOr(create.message, "Signup failed"))
  {
    match check
    case QueryFailed(message) => Failure(MessageOr(message, "Signup failed"))
    case Users(existing) =>
      if |existing| > 0 then Failure("Username already exists")
      else
        match create
        case CreateNotOk => Failure(MessageOr("Failed to create user", "Signup failed"))
        case CreateFailed(message) => Failure(MessageOr(message, "Signup failed"))
        case Created(record) => Success(WithoutPassword(record))
  }

  /** The session of one running client. The login and signup requests
      share the same three reducers (pending, fulfilled, rejected). */
  class AuthStore {
    var user: Option<User>
    var loading: bool
    var error: Option<string>
    var isAuthenticated: bool
    /** The storage entry `authState`, if present. */
    var storage: Option<StoredEntry>

    function State(): AuthState
      reads this
    {
      AuthState(user, loading, error, isAuthenticated)
    }

    /** The store starts from whatever `loadAuthState` reads. */
    constructor (stored: Option<StoredEntry>)
      ensures State() == LoadAuthState(stored) && storage == stored
    {
      var s := LoadAuthState(stored);
      user, loading, error, isAuthenticated := s.user, s.loading, s.error, s.isAuthenticated;
      storage := stored;
    }

    /** `logout`: forgets the user and the error and removes the stored
        entry; `loading` is left as it was. */
    method Logout()
      modifies this
      ensures user == None && !isAuthenticated && error == None
      ensures loading == old(loading)
      ensures storage == None && LoadAuthState(storage) == SignedOut
    {
      user := None;
      isAuthenticated := false;
      error := None;
      storage := None;
    }

    /** `clearError`: only the error is reset. */
    method ClearError()
      modifies this
      ensures State() == old(State()).(error := None)
      ensures storage == old(storage)
    {
      error := None;
    }

    /** `login.pending` and `signup.pending`. */
    method Pending()
      modifies this
      ensures loading && error == None
      ensures user == old(user) && isAuthenticated == old(isAuthenticated)
      ensures storage == old(storage)
    {
      loading := true;
      error := None;
    }

    /** `login.fulfilled` and `signup.fulfilled`: the user is signed in and
        the session is written to storage. `error` is not touched here. */
    method Fulfilled(payload: User)
      modifies this
      ensures !loading && user == Some(payload) && isAuthenticated
      ensures error == old(error)
      ensures storage == Some(Saved(AuthState(Some(payload), false, None, true)))
    {
      loading := false;
      user := Some(payload);
      isAuthenticated := true;
      storage := Some(Saved(AuthState(Some(payload), false, None, true)));
    }

    /** `login.rejected` and `signup.rejected`: the message becomes the error;
        the user and the authenticated flag stay as they were. */
    method Rejected(payload: string)
      modifies this
      ensures !loading && error == Some(payload)
      ensures user == old(user) && isAuthenticated == old(isAuthenticated)
      ensures storage == old(storage)
    {
      loading := false;
      error := Some(payload);
    }

    /** A whole login request: pending, then fulfilled or rejected with the
        decision taken on the gateway's answer. After a success, restoring
        from storage gives back exactly the in-memory session. */
    method Login(query: QueryOutcome, password: string) returns (outcome: Result<User, string>)
      modifies this
      ensures outcome == AttemptLogin(query, password)
      ensures outcome.Success? ==>
        State() == AuthState(Some(outcome.value), false, None, true) && LoadAuthState(storage) == State()
      ensures outcome.Failure? ==>
        State() == AuthState(old(user), false, Some(outcome.error), old(isAuthenticated)) && storage == old(storage)
    {
      Pending();
      outcome := AttemptLogin(query, password);
      match outcome
      case Success(u) => Fulfilled(u);
      case Failure(message) => Rejected(message);
    }

    /** A whole signup request, with the same life cycle as `Login`. */
    method Signup(check: QueryOutcome, create: CreateOutcome) returns (outcome: Result<User, string>)
      modifies this
      ensures outcome == AttemptSignup(check, create)
      ensures outcome.Success? ==>
        State() == AuthState(Some(outcome.value), false, None, true) && LoadAuthState(storage) == State()
      ensures outcome.Failure? ==>
        State() == AuthState(old(user), false, Some(outcome.error), old(isAuthenticated)) && storage == old(storage)
    {
      Pending();
      outcome := AttemptSignup(check, create);
      match outcome
      case Success(u) => Fulfilled(u);
      case Failure(message) => Rejected(message);
    }
  }
}
