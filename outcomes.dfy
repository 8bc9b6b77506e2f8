/**
 * The decision trees of `SimpleLogin`: how each flow reads the backend's
 * response, what the auth listener does with each outcome of the
 * connection, what a restore does with the stored record, and the resulting
 * transitions of the persisted session.
 */
module Outcomes {
  import opened Wrappers
  import opened Enums
  import opened Json
  import opened LoginErrors
  import opened FirebaseUtils
  import opened Users

  /** What a `SimpleLoginAuthenticatedHandler` receives: `(error, user)`. */
  datatype AuthCompletion = AuthCompletion(error: Option<ErrorKind>, user: Option<User>)

  /** What a `SimpleLoginCompletionHandler` receives: `(error, success)`. */
  datatype BoolCompletion = BoolCompletion(error: Option<ErrorKind>, success: bool)

  /** A failed completion: the error and no user. */
  function Failed(k: ErrorKind): AuthCompletion
  {
    AuthCompletion(Some(k), None)
  }

  /** "No error, no user". */
  const NoUser := AuthCompletion(None, None)

  /** The kind of `errorFromResponse(payload)`, as the flows use it. */
  function ResponseErrorKind(payload: Option<JsonObject>): ErrorKind
  {
    ErrorFromResponse(payload).code.value
  }

  /** The kind of `errorFromFirebaseError(error)`, as the auth listener uses it. */
  function ConnectionErrorKind(error: Option<ConnectionErrorCode>): ErrorKind
  {
    ErrorFromFirebaseError(error).code.value
  }

  /** The arguments of `RequestHandler.handle(error, data)`. */
  datatype Delivery = Delivery(error: Option<ErrorKind>, data: Option<JsonObject>)

  /** The fetch task hands over either an error or a body, never neither. */
  predicate Delivered(d: Delivery)
  {
    d.error.Some? || d.data.Some?
  }

  /**
   * `FetchTask.onPostExecute`: a null body (a status of 300 or more, or a body
   * that does not parse) is delivered as the error `Unknown`; any other body
   * is delivered as data with no error.
   */
  function FetchResult(body: Option<JsonObject>): (d: Delivery)
    ensures Delivered(d)
    ensures d.error.Some? <==> body.None?
    ensures body.None? ==> d.error == Some(Unknown)
    ensures body.Some? ==> d.data == body
  {
    if body.None? then Delivery(Some(Unknown), None) else Delivery(None, body)
  }

  /** What a token-producing flow does next: complete with an error, or authenticate with the token. */
  datatype TokenStep = Finish(error: ErrorKind) | Authenticate(token: string, userData: JsonObject)

  /** The `error` payload of a body, when it is an object. */
  function ErrorPayload(data: JsonObject): Option<JsonObject>
  {
    if "error" in data && data["error"].JObject? then Some(data["error"].fields) else None
  }

  /**
   * The `handle` of `loginAnonymously`, `loginWithEmail` and `loginWithToken`:
   * a delivered error is passed on; a body without `token` gives the
   * classification of its `error` object (`Unknown` when absent); a token with
   * no `user` object gives `Unknown`; a token and a user object authenticate.
   * A `token` that is not a string or an `error`/`user` that is not an object
   * throws inside the handler, which completes with `Unknown`.
   */
  function InterpretTokenResponse(d: Delivery): (step: TokenStep)
    requires Delivered(d)
    ensures d.error.Some? ==> step == Finish(d.error.value)
    ensures step.Authenticate? <==>
      && d.error.None?
      && "token" in d.data.value && d.data.value["token"].JString?
      && "user" in d.data.value && d.data.value["user"].JObject?
    ensures step.Authenticate? ==>
      d.data.value["token"] == JString(step.token) && d.data.value["user"] == JObject(step.userData)
    ensures d.error.None? && "token" !in d.data.value ==>
      step == Finish(ResponseErrorKind(ErrorPayload(d.data.value)))
    ensures d.error.None? && "token" in d.data.value && step.Finish? ==> step == Finish(Unknown)
  {
    if d.error.Some? then Finish(d.error.value)
    else
      var data := d.data.value;
      match StringField(data, "token")
      case WrongType => Finish(Unknown)
      case Missing =>
        (match ObjectField(data, "error")
         case Found(details) => Finish(ResponseErrorKind(Some(details)))
         case Missing => Finish(ResponseErrorKind(None))
         case WrongType => Finish(Unknown))
      case Found(token) =>
        (match ObjectField(data, "user")
         case Found(userData) => Authenticate(token, userData)
         case Missing => Finish(ResponseErrorKind(None))
         case WrongType => Finish(Unknown))
  }

  /** A create-user body that succeeds: no `error`, and a `user` object with `id`, `uid` and `email` strings. */
  predicate CreatesUser(data: JsonObject)
  {
    && "error" !in data
    && ObjectField(data, "user").Found?
    && var u := ObjectField(data, "user").value;
    && StringField(u, "id").Found? && StringField(u, "uid").Found? && StringField(u, "email").Found?
  }

  /**
   * The `handle` of `createUser`. An `error` object takes precedence over
   * `user`; success builds an email/password user with no auth token from the
   * user's `id`, `uid` and `email` strings. Reading `error` or `user` with the
   * wrong type, or a user lacking one of those strings, completes with `Unknown`.
   */
  function InterpretCreateUser(d: Delivery): (c: AuthCompletion)
    requires Delivered(d)
    ensures c.error.None? <==> c.user.Some?
    ensures d.error.Some? ==> c == Failed(d.error.value)
    ensures d.error.None? && ErrorPayload(d.data.value).Some? && ObjectField(d.data.value, "user") != WrongType
      ==> c == Failed(ResponseErrorKind(ErrorPayload(d.data.value)))
    ensures c.user.Some? ==>
      var data := d.data.value;
      && d.error.None? && "error" !in data
      && "user" in data && data["user"].JObject?
      && var u := data["user"].fields;
      && c.user.value.email.Some?
      && StringField(u, "id") == Found(c.user.value.userId)
      && StringField(u, "uid") == Found(c.user.value.uid)
      && StringField(u, "email") == Found(c.user.value.email.value)
    ensures d.error.None? && ObjectField(d.data.value, "user") == WrongType ==> c == Failed(Unknown)
    ensures d.error.None? && CreatesUser(d.data.value) ==> c.user.Some?
    ensures d.error.None? && ErrorPayload(d.data.value).None? && !CreatesUser(d.data.value) ==> c == Failed(Unknown)
    ensures c.user.Some? ==>
      && c.user.value.provider == Password && c.user.value.authToken.None?
      && c.user.value.thirdPartyUserData == map[] && WellShaped(c.user.value)
  {
    if d.error.Some? then Failed(d.error.value)
    else
      var data := d.data.value;
      var errorDetails := ObjectField(data, "error");
      var userData := ObjectField(data, "user");
      if errorDetails == WrongType || userData == WrongType then Failed(Unknown)
      else if errorDetails.Found? then Failed(ResponseErrorKind(Some(errorDetails.value)))
      else if userData.Missing? then Failed(ResponseErrorKind(None))
      else
        var u := userData.value;
        match (StringField(u, "id"), StringField(u, "uid"), StringField(u, "email"))
        case (Found(userId), Found(uid), Found(email)) =>
          AuthCompletion(None, Some(PasswordUser(userId, uid, None, Some(email))))
        case _ => Failed(Unknown)
  }

  /**
   * The `handle` of `removeUser` and `sendPasswordResetEmail`: success exactly
   * when no error was delivered and the body has no `error` field; otherwise
   * the delivered error, the classification of the `error` object, or
   * `Unknown` when that field is not an object.
   */
  function InterpretErrorField(d: Delivery): (c: BoolCompletion)
    requires Delivered(d)
    ensures c.success <==> c.error.None?
    ensures c.success <==> d.error.None? && "error" !in d.data.value
    ensures d.error.Some? ==> c == BoolCompletion(d.error, false)
    ensures d.error.None? && "error" in d.data.value ==>
      c.error == Some(if d.data.value["error"].JObject? then ResponseErrorKind(ErrorPayload(d.data.value)) else Unknown)
  {
    if d.error.Some? then BoolCompletion(d.error, false)
    else
      match ObjectField(d.data.value, "error")
      case Found(details) => BoolCompletion(Some(ResponseErrorKind(Some(details))), false)
      case Missing => BoolCompletion(None, true)
      case WrongType => BoolCompletion(Some(Unknown), false)
  }

  /** The `handle` of `changePassword`: success whenever a body arrived, without reading it. */
  function InterpretChangePassword(d: Delivery): (c: BoolCompletion)
    requires Delivered(d)
    ensures c.success <==> d.data.Some? && d.error.None?
    ensures !c.success ==> c.error == d.error && c.error.Some?
    ensures c.success ==> c.error.None?
  {
    if d.error.Some? then BoolCompletion(d.error, false) else BoolCompletion(None, true)
  }

  /**
   * The user `saveSession` builds from the backend's raw user object: it needs
   * the `id` and `uid` strings, and for the email/password provider the
   * `email` string; a third-party user carries the whole object converted.
   */
  function BuildUser(token: string, provider: Provider, userData: JsonObject): (r: Option<User>)
    ensures r.Some? <==>
      && StringField(userData, "id").Found?
      && StringField(userData, "uid").Found?
      && (provider == Password ==> StringField(userData, "email").Found?)
    ensures r.Some? ==>
      && userData["id"] == JString(r.value.userId)
      && userData["uid"] == JString(r.value.uid)
      && r.value.provider == provider
      && r.value.authToken == Some(token)
      && WellShaped(r.value)
    ensures r.Some? && provider == Password ==>
      r.value.email.Some? && userData["email"] == JString(r.value.email.value) && r.value.thirdPartyUserData == map[]
    ensures r.Some? && provider != Password ==>
      r.value.email.None? && r.value.thirdPartyUserData == ToMap(Some(userData))
  {
    match StringField(userData, "id")
    case Found(userId) =>
      if provider == Password then
        match (StringField(userData, "email"), StringField(userData, "uid"))
        case (Found(email), Found(uid)) => Some(PasswordUser(userId, uid, Some(token), Some(email)))
        case _ => None
      else
        (match StringField(userData, "uid")
         case Found(uid) => Some(ThirdPartyUser(userId, uid, provider, Some(token), ToMap(Some(userData))))
         case _ => None)
    case _ => None
  }

  /** The stored `jsonTokenData` string, as `new JSONObject(...)` reads it back. */
  datatype StoredRecord = Parsed(json: JsonObject) | Unparsable

  /** The record `saveSession` writes: `{"token": token, "userData": userData}`. */
  function StoredRecordFor(token: string, userData: JsonObject): (r: StoredRecord)
    ensures r.Parsed? && r.json.Keys == {"token", "userData"}
    ensures StringField(r.json, "token") == Found(token)
    ensures ObjectField(r.json, "userData") == Found(userData)
  {
    Parsed(map["token" := JString(token), "userData" := JObject(userData)])
  }

  /** What `checkAuthStatus` does: complete at once, clear and complete, or re-authenticate. */
  datatype RestoreStep =
    | Report(completion: AuthCompletion)
    | ClearAndReport
    | Reauthenticate(token: string, provider: Provider, userData: JsonObject)

  /** A parsed record holding a `token` string and a `userData` object with a `provider` string. */
  predicate HasSessionFields(data: JsonObject)
  {
    && StringField(data, "token").Found?
    && ObjectField(data, "userData").Found?
    && StringField(ObjectField(data, "userData").value, "provider").Found?
  }

  /** The provider a record with session fields names. */
  function StoredProvider(data: JsonObject): Provider
    requires HasSessionFields(data)
  {
    ProviderForString(Some(StringField(ObjectField(data, "userData").value, "provider").value))
  }

  /**
   * `attemptAuthWithData` on a parsed record. A record without a `token`
   * string and a `userData` object, or whose user has no `provider` string:
   * `Unknown`, record kept. A provider string naming no provider: clear, then
   * `(null, null)`. Otherwise re-authenticate with the stored token.
   */
  function DataDecision(data: JsonObject): (r: RestoreStep)
    ensures r.Report? ==> r.completion == Failed(Unknown)
    ensures r.Report? <==> !HasSessionFields(data)
    ensures HasSessionFields(data) && StoredProvider(data) != Invalid ==>
      r == Reauthenticate(StringField(data, "token").value, StoredProvider(data), ObjectField(data, "userData").value)
    ensures r.Reauthenticate? ==>
      && "token" in data && data["token"] == JString(r.token)
      && "userData" in data && data["userData"] == JObject(r.userData)
      && "provider" in r.userData && r.userData["provider"].JString?
      && r.provider == ProviderForString(Some(r.userData["provider"].s))
      && r.provider != Invalid
    ensures r == ClearAndReport <==>
      && StringField(data, "token").Found?
      && "userData" in data && data["userData"].JObject?
      && var u := data["userData"].fields;
      && "provider" in u && u["provider"].JString?
      && ProviderForString(Some(u["provider"].s)) == Invalid
  {
    match (StringField(data, "token"), ObjectField(data, "userData"))
    case (Found(token), Found(userData)) =>
      (match StringField(userData, "provider")
       case Found(name) =>
         var provider := ProviderForString(Some(name));
         if provider != Invalid then Reauthenticate(token, provider, userData) else ClearAndReport
       case _ => Report(Failed(Unknown)))
    case _ => Report(Failed(Unknown))
  }

  /**
   * `checkAuthStatus`: with no context, no record or an unparsable record,
   * `(null, null)` at once; otherwise the decision on the parsed record.
   */
  function RestoreDecision(hasContext: bool, record: Option<StoredRecord>): (r: RestoreStep)
    ensures !hasContext || record.None? || record == Some(Unparsable) ==> r == Report(NoUser)
    ensures hasContext && record.Some? && record.value.Parsed? ==> r == DataDecision(record.value.json)
  {
    if !hasContext then Report(NoUser)
    else
      match record
      case None => Report(NoUser)
      case Some(Unparsable) => Report(NoUser)
      case Some(Parsed(data)) => DataDecision(data)
  }

  /** The persisted record and the number of registered revocation watchers. */
  datatype Session = Session(record: Option<StoredRecord>, watchers: nat)

  /** The outcome the connection's `auth(token, listener)` reports to the listener. */
  datatype AuthOutcome =
    | AuthSuccess
    | AuthRevoked(revokedBy: Option<ConnectionErrorCode>)
    | AuthFailed(failure: Option<ConnectionErrorCode>)

  /** `clearCredentials`: erases the record when a storage context exists, and does nothing otherwise. */
  function Cleared(hasContext: bool, s: Session): (r: Session)
    ensures r.watchers == s.watchers
    ensures hasContext ==> r.record.None?
    ensures !hasContext ==> r == s
  {
    if hasContext then s.(record := None) else s
  }

  /** Without a storage context there is never a record. */
  predicate Consistent(hasContext: bool, s: Session)
  {
    !hasContext ==> s.record.None?
  }

  /**
   * `attemptAuthWithToken`. Success: the record is replaced by
   * `{token, userData}` (whether or not a user can be built) and, when the
   * user is built, a watcher is registered and the user reported, otherwise
   * `Unknown`. Revoked: the record is cleared. Error: nothing changes.
   */
  function AfterAuth(hasContext: bool, s: Session, token: string, provider: Provider, userData: JsonObject,
                     auth: AuthOutcome): (r: (AuthCompletion, Session))
    ensures Consistent(hasContext, s) ==> Consistent(hasContext, r.1)
    ensures r.0.error.None? <==> r.0.user.Some?
    ensures auth == AuthSuccess ==>
      && r.0.user == BuildUser(token, provider, userData)
      && (r.0.user.None? ==> r.0.error == Some(Unknown))
      && (hasContext ==> r.1.record == Some(StoredRecordFor(token, userData)))
    ensures auth.AuthRevoked? ==>
      r.0 == Failed(ConnectionErrorKind(auth.revokedBy)) && (hasContext ==> r.1.record.None?)
    ensures auth.AuthFailed? ==> r == (Failed(ConnectionErrorKind(auth.failure)), s)
    ensures r.1.watchers == s.watchers + (if r.0.user.Some? then 1 else 0)
  {
    match auth
    case AuthSuccess =>
      var saved := if hasContext then Session(Some(StoredRecordFor(token, userData)), s.watchers) else s;
      (match BuildUser(token, provider, userData)
       case Some(user) => (AuthCompletion(None, Some(user)), saved.(watchers := s.watchers + 1))
       case None => (Failed(ResponseErrorKind(None)), saved))
    case AuthRevoked(e) => (Failed(ConnectionErrorKind(e)), Cleared(hasContext, s))
    case AuthFailed(e) => (Failed(ConnectionErrorKind(e)), s)
  }

  /** A token-producing flow after its request: interpret the body, then authenticate when told to. */
  function AfterTokenResponse(hasContext: bool, s: Session, provider: Provider, body: Option<JsonObject>,
                              auth: AuthOutcome): (r: (AuthCompletion, Session))
    ensures Consistent(hasContext, s) ==> Consistent(hasContext, r.1)
    ensures r.0.error.None? <==> r.0.user.Some?
    ensures body.None? ==> r == (Failed(Unknown), s)
    ensures InterpretTokenResponse(FetchResult(body)).Finish? ==> r == (Failed(InterpretTokenResponse(FetchResult(body)).error), s)
    ensures
      var step := InterpretTokenResponse(FetchResult(body));
      step.Authenticate? ==> r == AfterAuth(hasContext, s, step.token, provider, step.userData, auth)
  {
    match InterpretTokenResponse(FetchResult(body))
    case Finish(k) => (Failed(k), s)
    case Authenticate(token, userData) => AfterAuth(hasContext, s, token, provider, userData, auth)
  }

  /** Carrying out a restore decision, including the re-authentication it may start. */
  function AfterStep(hasContext: bool, s: Session, step: RestoreStep, auth: AuthOutcome): (r: (AuthCompletion, Session))
    ensures Consistent(hasContext, s) ==> Consistent(hasContext, r.1)
    ensures step.Report? ==> r == (step.completion, s)
    ensures step == ClearAndReport ==> r == (NoUser, Cleared(hasContext, s))
    ensures step.Reauthenticate? ==> r == AfterAuth(hasContext, s, step.token, step.provider, step.userData, auth)
  {
    match step
    case Report(c) => (c, s)
    case ClearAndReport => (NoUser, Cleared(hasContext, s))
    case Reauthenticate(token, provider, userData) => AfterAuth(hasContext, s, token, provider, userData, auth)
  }

  /** `checkAuthStatus` from the session's own record. */
  function AfterRestore(hasContext: bool, s: Session, auth: AuthOutcome): (r: (AuthCompletion, Session))
    ensures Consistent(hasContext, s) ==> Consistent(hasContext, r.1)
    ensures !hasContext || s.record.None? || s.record == Some(Unparsable) ==> r == (NoUser, s)
    ensures r.0.error.Some? ==> r.0.user.None?
  {
    AfterStep(hasContext, s, RestoreDecision(hasContext, s.record), auth)
  }

  /**
   * The revocation watchers seeing a value of `.info/authenticated`: only the
   * boolean `false` matters; then each registered watcher clears the record
   * and unregisters itself.
   */
  function AfterWatcher(hasContext: bool, s: Session, value: Json): (r: Session)
    ensures Consistent(hasContext, s) ==> Consistent(hasContext, r)
    ensures value != JBool(false) || s.watchers == 0 ==> r == s
    ensures value == JBool(false) && s.watchers > 0 ==> r.watchers == 0 && (hasContext ==> r.record.None?)
  {
    if s.watchers > 0 && value == JBool(false) then Cleared(hasContext, s).(watchers := 0) else s
  }

  /**
   * Save then restore: after a successful authentication with a storage
   * context, the restore flow re-authenticates with exactly the saved token,
   * the saved user object and the provider that object names.
   */
  lemma SaveRestoreRoundTrip(s: Session, token: string, provider: Provider, userData: JsonObject)
    requires "provider" in userData && userData["provider"].JString?
    requires ProviderForString(Some(userData["provider"].s)) == provider && provider != Invalid
    ensures RestoreDecision(true, AfterAuth(true, s, token, provider, userData, AuthSuccess).1.record)
            == Reauthenticate(token, provider, userData)
  {
    var record := StoredRecordFor(token, userData);
    assert StringField(record.json, "token") == Found(token);
    assert ObjectField(record.json, "userData") == Found(userData);
  }

  /**
   * Whenever a token-producing flow reports a user, that user's `userId` and
   * `uid` are the `id` and `uid` strings of the response's `user` object, its
   * auth token is the response's `token`, and its provider is the flow's.
   */
  lemma {:induction false} IdentityMatchesResponse(hasContext: bool, s: Session, provider: Provider,
                                                   body: Option<JsonObject>, auth: AuthOutcome)
    requires AfterTokenResponse(hasContext, s, provider, body, auth).0.user.Some?
    ensures
      var u := AfterTokenResponse(hasContext, s, provider, body, auth).0.user.value;
      && body.Some? && "token" in body.value && "user" in body.value && body.value["user"].JObject?
      && body.value["token"] == JString(u.authToken.value)
      && body.value["user"].fields["id"] == JString(u.userId)
      && body.value["user"].fields["uid"] == JString(u.uid)
      && u.provider == provider
      && auth == AuthSuccess
  {
    var step := InterpretTokenResponse(FetchResult(body));
    assert step.Authenticate?;
    var r := AfterAuth(hasContext, s, step.token, provider, step.userData, auth);
    assert r.0.user.Some?;
    assert auth == AuthSuccess;
    assert r.0.user == BuildUser(step.token, provider, step.userData);
  }

  /** Two successful logins in turn leave the record of the second: last write wins. */
  lemma LastWriteWins(s: Session, t1: string, p1: Provider, u1: JsonObject, t2: string, p2: Provider, u2: JsonObject)
    ensures
      var first := AfterAuth(true, s, t1, p1, u1, AuthSuccess).1;
      AfterAuth(true, first, t2, p2, u2, AuthSuccess).1.record == Some(StoredRecordFor(t2, u2))
  {
  }

  /** `logout` leaves no record when a context exists, and a second `logout` changes nothing. */
  lemma LogoutIdempotent(hasContext: bool, s: Session)
    requires Consistent(hasContext, s)
    ensures Cleared(hasContext, s).record.None?
    ensures Cleared(hasContext, Cleared(hasContext, s)) == Cleared(hasContext, s)
  {
  }

  /**
   * Password login against `{"token":"T","user":{"id":"1","uid":"u1","email":"a@b.com"}}`,
   * with the connection accepting the token, reports the email user and stores the record.
   */
  lemma EmailLoginSucceeds(s: Session)
    ensures
      var user := map["id" := JString("1"), "uid" := JString("u1"), "email" := JString("a@b.com")];
      var body := map["token" := JString("T"), "user" := JObject(user)];
      var r := AfterTokenResponse(true, s, Password, Some(body), AuthSuccess);
      && r.0 == AuthCompletion(None, Some(PasswordUser("1", "u1", Some("T"), Some("a@b.com"))))
      && r.1 == Session(Some(StoredRecordFor("T", user)), s.watchers + 1)
  {
    var user := map["id" := JString("1"), "uid" := JString("u1"), "email" := JString("a@b.com")];
    var body := map["token" := JString("T"), "user" := JObject(user)];
    assert StringField(body, "token") == Found("T");
    assert ObjectField(body, "user") == Found(user);
    assert StringField(user, "id") == Found("1");
    assert StringField(user, "uid") == Found("u1");
    assert StringField(user, "email") == Found("a@b.com");
  }

  /** Password login against `{"error":{"code":"INVALID_PASSWORD"}}` reports `InvalidPassword` and changes nothing. */
  lemma WrongPasswordRejected(hasContext: bool, s: Session, auth: AuthOutcome)
    ensures
      var body := map["error" := JObject(map["code" := JString("INVALID_PASSWORD")])];
      AfterTokenResponse(hasContext, s, Password, Some(body), auth) == (Failed(InvalidPassword), s)
  {
    var details := map["code" := JString("INVALID_PASSWORD")];
    var body := map["error" := JObject(details)];
    assert StringField(body, "token") == Missing;
    assert ObjectField(body, "error") == Found(details);
    assert ResponseCodeOf(InvalidPassword) == Some("INVALID_PASSWORD");
    assert ResponseKind("INVALID_PASSWORD") == InvalidPassword;
  }

  /** A connection that revokes the fetched token reports the classified error and leaves no record. */
  lemma RevokedLeavesNoRecord(s: Session, provider: Provider, body: Option<JsonObject>, e: Option<ConnectionErrorCode>)
    requires InterpretTokenResponse(FetchResult(body)).Authenticate?
    ensures
      var r := AfterTokenResponse(true, s, provider, body, AuthRevoked(e));
      r.0 == Failed(ConnectionErrorKind(e)) && r.1.record.None?
  {
  }

  /** Restore with no record reports "no error, no user"; a record naming no provider is cleared, then the same. */
  lemma RestoreWithoutSession(s: Session, auth: AuthOutcome, token: string, userData: JsonObject)
    requires "provider" in userData && userData["provider"].JString?
    requires ProviderForString(Some(userData["provider"].s)) == Invalid
    ensures AfterRestore(true, s.(record := None), auth) == (NoUser, s.(record := None))
    ensures AfterRestore(true, s.(record := Some(StoredRecordFor(token, userData))), auth) == (NoUser, s.(record := None))
  {
    var record := StoredRecordFor(token, userData);
    assert StringField(record.json, "token") == Found(token);
    assert ObjectField(record.json, "userData") == Found(userData);
  }

  /**
   * Every token-producing login whose response authenticates and whose user
   * can be built, with the connection accepting the token, reports that user,
   * stores `{token, user}` and registers one watcher.
   */
  lemma TokenLoginStoresSession(s: Session, provider: Provider, body: Option<JsonObject>)
    requires InterpretTokenResponse(FetchResult(body)).Authenticate?
    requires
      var step := InterpretTokenResponse(FetchResult(body));
      BuildUser(step.token, provider, step.userData).Some?
    ensures
      var step := InterpretTokenResponse(FetchResult(body));
      var r := AfterTokenResponse(true, s, provider, body, AuthSuccess);
      && r.0 == AuthCompletion(None, BuildUser(step.token, provider, step.userData))
      && r.1 == Session(Some(StoredRecordFor(step.token, step.userData)), s.watchers + 1)
  {
  }
}
