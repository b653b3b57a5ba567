/**
  The user router of a small Express application (routes/users.js): three
  request handlers over one stored credential record.

  - `/profile` returns the stored record as JSON, or a fixed 500 error body.
  - `/login` checks a JSON body `{username, password}` against the stored
    record in a fixed, short-circuiting order.
  - `/logout` embeds a query parameter into a fixed HTML sentence.

  Each handler is modelled as a function from its inputs to the response it
  writes. Reading `user.json` is abstracted as an `Option<UserRecord>`:
  `None` stands for a file that cannot be read or parsed. A request field is
  an `Option<string>`: `None` when it was not sent.
*/
module Users {
  import opened Wrappers

  /** The single stored credential pair (plaintext, as in user.json). */
  datatype UserRecord = UserRecord(username: string, password: string)

  /** The JSON bodies the router writes. */
  datatype Json =
    | RecordBody(user: UserRecord)                 // the stored record, verbatim
    | VerdictBody(status: bool, message: string)   // `{status, message}`
    | ErrorBody(error: string)                     // `{error}`

  /** A response: the HTTP status code and its body. */
  datatype JsonResponse = JsonResponse(code: nat, body: Json)
  datatype HtmlResponse = HtmlResponse(code: nat, html: string)

  const OK: nat := 200
  const BAD_REQUEST: nat := 400
  const SERVER_ERROR: nat := 500

  const PROFILE_ERROR := "Failed to read user data"
  const MISSING_CREDENTIALS := "Username and password are required"
  const USERNAME_INVALID := "User Name is invalid"
  const PASSWORD_INVALID := "Password is invalid"
  const USER_VALID := "User Is valid"
  const LOGIN_ERROR := "Server error during login"
  const LOGOUT_OPEN := "<b>"
  const LOGOUT_CLOSE := " successfully logged out.</b>"
  const LOGOUT_MISSING := "<b>Username parameter is required</b>"

  /** JavaScript truthiness of a string-valued request field: it was sent and
      is not the empty string. */
  predicate Present(field: Option<string>) {
    field.Some? && field.value != ""
  }

  // ---------------------------------------------------------------- /profile

  /** What a client reads back from a `/profile` response: the record when the
      call succeeded, nothing otherwise. */
  function RecordOf(r: JsonResponse): Option<UserRecord> {
    if r.code == OK && r.body.RecordBody? then Some(r.body.user) else None
  }

  /** GET /profile: the loaded record unchanged, or a fixed 500 error. */
  function Profile(stored: Option<UserRecord>): (r: JsonResponse)
    ensures r.code == OK <==> stored.Some?
    ensures stored.Some? ==> r.body == RecordBody(stored.value)
    ensures stored.None? ==> r == JsonResponse(SERVER_ERROR, ErrorBody(PROFILE_ERROR))
    ensures RecordOf(r) == stored
  {
    match stored
    case Some(user) => JsonResponse(OK, RecordBody(user))
    case None => JsonResponse(SERVER_ERROR, ErrorBody(PROFILE_ERROR))
  }

  // ------------------------------------------------------------------ /login

  /** The outcome of a login attempt: the two errors, and the three verdicts. */
  datatype Outcome =
    | MissingInput
    | StorageUnavailable
    | UsernameMismatch
    | PasswordMismatch
    | Valid

  /** The handler's decision sequence: presence of both fields first (before
      the store is read), then the store, then the username, then the
      password. Comparisons are exact string equality. */
  function Check(username: Option<string>, password: Option<string>, stored: Option<UserRecord>): (o: Outcome)
    ensures o == MissingInput <==> !Present(username) || !Present(password)
    ensures o == StorageUnavailable <==> Present(username) && Present(password) && stored.None?
    ensures o == UsernameMismatch <==>
      Present(username) && Present(password) && stored.Some? && stored.value.username != username.value
    ensures o == PasswordMismatch <==>
      Present(username) && Present(password) && stored.Some?
      && stored.value.username == username.value && stored.value.password != password.value
    ensures o == Valid <==>
      Present(username) && Present(password) && stored == Some(UserRecord(username.value, password.value))
  {
    if !Present(username) || !Present(password) then MissingInput
    else match stored
      case None => StorageUnavailable
      case Some(user) =>
        if user.username != username.value then UsernameMismatch
        else if user.password != password.value then PasswordMismatch
        else Valid
  }

  /** What a client reads back from a `/login` response: the outcome it
      reports, or nothing for a response the handler never writes. */
  function ReadOutcome(r: JsonResponse): Option<Outcome> {
    if r == JsonResponse(BAD_REQUEST, VerdictBody(false, MISSING_CREDENTIALS)) then Some(MissingInput)
    else if r == JsonResponse(SERVER_ERROR, ErrorBody(LOGIN_ERROR)) then Some(StorageUnavailable)
    else if r == JsonResponse(OK, VerdictBody(false, USERNAME_INVALID)) then Some(UsernameMismatch)
    else if r == JsonResponse(OK, VerdictBody(false, PASSWORD_INVALID)) then Some(PasswordMismatch)
    else if r == JsonResponse(OK, VerdictBody(true, USER_VALID)) then Some(Valid)
    else None
  }

  /** The response written for each outcome. The three verdicts go out with
      the default status 200; only a valid login carries `status: true`. */
  function Respond(o: Outcome): (r: JsonResponse)
    ensures r.code == BAD_REQUEST <==> o == MissingInput
    ensures r.code == SERVER_ERROR <==> o == StorageUnavailable
    ensures r.body.VerdictBody? && r.body.status <==> o == Valid
    ensures ReadOutcome(r) == Some(o)
  {
    match o
    case MissingInput => JsonResponse(BAD_REQUEST, VerdictBody(false, MISSING_CREDENTIALS))
    case StorageUnavailable => JsonResponse(SERVER_ERROR, ErrorBody(LOGIN_ERROR))
    case UsernameMismatch => JsonResponse(OK, VerdictBody(false, USERNAME_INVALID))
    case PasswordMismatch => JsonResponse(OK, VerdictBody(false, PASSWORD_INVALID))
    case Valid => JsonResponse(OK, VerdictBody(true, USER_VALID))
  }

  /** POST /login with body `{username, password}`. */
  function Login(username: Option<string>, password: Option<string>, stored: Option<UserRecord>): (r: JsonResponse)
    // a missing field is reported whatever the store holds, even an unreadable one
    ensures !Present(username) || !Present(password) ==>
      r == JsonResponse(BAD_REQUEST, VerdictBody(false, MISSING_CREDENTIALS))
    // with both fields present, a broken store is a server error, never a verdict
    ensures Present(username) && Present(password) && stored.None? ==>
      r == JsonResponse(SERVER_ERROR, ErrorBody(LOGIN_ERROR))
    // the username is checked first: a wrong username wins over any password
    ensures Present(username) && Present(password) && stored.Some? && stored.value.username != username.value ==>
      r == JsonResponse(OK, VerdictBody(false, USERNAME_INVALID))
    ensures (Present(username) && Present(password) && stored.Some?
             && stored.value.username == username.value && stored.value.password != password.value) ==>
      r == JsonResponse(OK, VerdictBody(false, PASSWORD_INVALID))
    // the success verdict is given exactly when both fields equal the stored ones
    ensures r.body == VerdictBody(true, USER_VALID) <==>
      Present(username) && Present(password) && stored == Some(UserRecord(username.value, password.value))
    ensures r.code == OK <==> Present(username) && Present(password) && stored.Some?
    ensures ReadOutcome(r) == Some(Check(username, password, stored))
  {
    Respond(Check(username, password, stored))
  }

  /** A stored record admits some successful login exactly when neither of
      its fields is empty: an empty stored username or password can never be
      matched, because an empty request field is rejected as missing. */
  lemma ValidLoginReachable(user: UserRecord)
    ensures (exists username, password :: Login(username, password, Some(user)).body == VerdictBody(true, USER_VALID))
      <==> user.username != "" && user.password != ""
  {
    if user.username != "" && user.password != "" {
      var r := Login(Some(user.username), Some(user.password), Some(user));
      assert r.body == VerdictBody(true, USER_VALID);
    }
  }

  // ----------------------------------------------------------------- /logout

  /** What a client reads back from a `/logout` response: the username the
      sentence names, or nothing for an error response. */
  function LoggedOutUser(r: HtmlResponse): Option<string> {
    var n := |r.html|;
    if r.code == OK && |LOGOUT_OPEN| + |LOGOUT_CLOSE| <= n
       && r.html[..|LOGOUT_OPEN|] == LOGOUT_OPEN && r.html[n - |LOGOUT_CLOSE|..] == LOGOUT_CLOSE
    then Some(r.html[|LOGOUT_OPEN|..n - |LOGOUT_CLOSE|])
    else None
  }

  /** GET /logout?username=...: the username is inserted into the sentence
      verbatim, without HTML escaping; the store is never consulted. */
  function Logout(username: Option<string>): (r: HtmlResponse)
    ensures !Present(username) ==> r == HtmlResponse(BAD_REQUEST, LOGOUT_MISSING)
    ensures Present(username) ==>
      r == HtmlResponse(OK, LOGOUT_OPEN + username.value + LOGOUT_CLOSE)
    ensures LoggedOutUser(r) == (if Present(username) then Some(username.value) else None)
  {
    if !Present(username) then HtmlResponse(BAD_REQUEST, LOGOUT_MISSING)
    else HtmlResponse(OK, LOGOUT_OPEN + username.value + LOGOUT_CLOSE)
  }
}
