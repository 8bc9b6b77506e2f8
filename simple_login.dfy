/**
 * The `SimpleLogin` entry point. The HTTP round trip and the connection's
 * `auth` call are not performed here: each flow receives the body the fetch
 * task produced (`None` for a failed fetch) and the outcome the connection
 * reports, and returns the completion together with the request it would
 * have sent. The shared preferences are the `record` field.
 */
module Login {
  import opened Wrappers
  import opened Enums
  import opened Json
  import opened JavaStrings
  import opened FirebaseUtils
  import opened Validation
  import opened Users
  import opened Constants
  import opened Requests
  import opened Outcomes

  class SimpleLogin {
    const apiHost: string
    const namespace: string
    /** Whether an Android context was given, so that sessions are persisted. */
    const hasContext: bool
    const debug: bool
    /** The `jsonTokenData` entry of the shared preferences, if any. */
    var record: Option<StoredRecord>
    /** The revocation watchers registered on `.info/authenticated`. */
    var watchers: nat

    function State(): Session
      reads this
    {
      Session(record, watchers)
    }

    /** Without a storage context nothing is ever stored. */
    ghost predicate Valid()
      reads this
    {
      Consistent(hasContext, State())
    }

    /**
     * The private constructor: the namespace is the first label of the
     * reference's host, and the stored record is visible only with a context.
     */
    constructor (refHost: string, apiHost: string, hasContext: bool, stored: Option<StoredRecord>, debug: bool)
      requires NamespaceFromHost(refHost).Ok?
      ensures Valid()
      ensures this.apiHost == apiHost && this.namespace == NamespaceFromHost(refHost).value
      ensures this.hasContext == hasContext && this.debug == debug
      ensures State() == Session(if hasContext then stored else None, 0)
    {
      this.apiHost := apiHost;
      this.namespace := NamespaceFromHost(refHost).value;
      this.hasContext := hasContext;
      this.debug := debug;
      this.record := if hasContext then stored else None;
      this.watchers := 0;
    }

    /**
     * The public constructors: the default API host; a reference whose host
     * yields no namespace fails construction.
     */
    static method Create(refHost: string, hasContext: bool, stored: Option<StoredRecord>, debug: bool)
      returns (r: Result<SimpleLogin, ConfigurationError>)
      ensures r.Err? <==> NamespaceFromHost(refHost).Err?
      ensures r.Err? ==> r.error == NamespaceFromHost(refHost).error
      ensures r.Ok? ==>
        && fresh(r.value) && r.value.Valid()
        && r.value.apiHost == DefaultApiHost
        && r.value.namespace == NamespaceFromHost(refHost).value
        && r.value.hasContext == hasContext && r.value.debug == debug
        && r.value.State() == Session(if hasContext then stored else None, 0)
    {
      match NamespaceFromHost(refHost)
      case Err(e) => r := Err(e);
      case Ok(_) =>
        var login := new SimpleLogin(refHost, DefaultApiHost, hasContext, stored, debug);
        r := Ok(login);
    }

    /** `clearCredentials`: the record is erased when there is a context. */
    method ClearCredentials()
      requires Valid()
      modifies this
      ensures Valid()
      ensures State() == Cleared(hasContext, old(State()))
    {
      if hasContext {
        record := None;
      }
    }

    /** `logout`: the connection's `unauth` is outside this model; the record is cleared. */
    method Logout()
      requires Valid()
      modifies this
      ensures Valid()
      ensures State() == Cleared(hasContext, old(State()))
      ensures hasContext ==> record.None?
    {
      ClearCredentials();
    }

    /**
     * `saveSession`: clears the record, builds the user, and stores
     * `{token, userData}` when there is a context, whether or not the user
     * could be built.
     */
    method SaveSession(token: string, provider: Provider, userData: JsonObject) returns (user: Option<User>)
      requires Valid()
      modifies this
      ensures Valid()
      ensures user == BuildUser(token, provider, userData)
      ensures State() == old(State()).(record := if hasContext then Some(StoredRecordFor(token, userData)) else old(record))
    {
      ClearCredentials();
      user := BuildUser(token, provider, userData);
      if hasContext {
        record := Some(StoredRecordFor(token, userData));
      }
    }

    /** `attemptAuthWithToken`, with the connection's verdict on the token given as `auth`. */
    method AttemptAuthWithToken(token: string, provider: Provider, userData: JsonObject, auth: AuthOutcome)
      returns (c: AuthCompletion)
      requires Valid()
      modifies this
      ensures Valid()
      ensures (c, State()) == AfterAuth(hasContext, old(State()), token, provider, userData, auth)
    {
      match auth
      case AuthSuccess =>
        var user := SaveSession(token, provider, userData);
        if user.Some? {
          watchers := watchers + 1;
          c := AuthCompletion(None, user);
        } else {
          c := Failed(ResponseErrorKind(None));
        }
      case AuthRevoked(e) =>
        ClearCredentials();
        c := Failed(ConnectionErrorKind(e));
      case AuthFailed(e) =>
        c := Failed(ConnectionErrorKind(e));
    }

    /**
     * The revocation watchers' `onDataChange`: on the boolean `false` each
     * registered watcher clears the record and removes itself.
     */
    method OnAuthenticatedValue(value: Json)
      requires Valid()
      modifies this
      ensures Valid()
      ensures State() == AfterWatcher(hasContext, old(State()), value)
    {
      if value == JBool(false) && watchers > 0 {
        ClearCredentials();
        watchers := 0;
      }
    }

    /** `attemptAuthWithData`: the restore decision on a parsed record, carried out. */
    method AttemptAuthWithData(data: JsonObject, auth: AuthOutcome) returns (c: AuthCompletion)
      requires Valid()
      modifies this
      ensures Valid()
      ensures (c, State()) == AfterStep(hasContext, old(State()), DataDecision(data), auth)
    {
      match DataDecision(data)
      case Report(completion) =>
        c := completion;
      case ClearAndReport =>
        ClearCredentials();
        c := NoUser;
      case Reauthenticate(token, provider, userData) =>
        c := AttemptAuthWithToken(token, provider, userData, auth);
    }

    /** `checkAuthStatus`: reads the record and restores from it. */
    method CheckAuthStatus(auth: AuthOutcome) returns (c: AuthCompletion)
      requires Valid()
      modifies this
      ensures Valid()
      ensures (c, State()) == AfterRestore(hasContext, old(State()), auth)
    {
      if !hasContext {
        c := NoUser;
      } else {
        match record
        case None =>
          c := NoUser;
        case Some(Unparsable) =>
          c := NoUser;
        case Some(Parsed(data)) =>
          c := AttemptAuthWithData(data, auth);
      }
    }

    /**
     * `makeRequest`: the fixed parameters, then one parameter per data entry,
     * taken from the map in whatever order its entry set yields them.
     */
    method MakeRequest(path: string, data: map<string, Option<string>>) returns (r: Request)
      ensures IsRequestFor(r, apiHost, path, namespace, debug, data)
    {
      var query := [Param("firebase", Some(namespace)), Param("mobile", Some("android")), Param("transport", Some("json"))];
      if debug {
        query := query + [Param("debug", Some("1"))];
      }
      var entries: seq<Param> := [];
      var remaining := data.Keys;
      EnumerationStarts(data);
      while remaining != {}
        invariant EnumeratesSoFar(entries, data, remaining)
        decreases |remaining|
      {
        var key :| key in remaining;
        EnumerationStep(entries, data, remaining, key);
        entries := entries + [Param(key, data[key])];
        remaining := remaining - {key};
      }
      EnumerationEnds(entries, data);
      query := query + entries;
      assert query[|FixedParams(namespace, debug)|..] == entries;
      r := Request(apiHost, path, query);
    }

    /**
     * `loginWithToken`, and the shared shape of every token-producing flow:
     * send the request, interpret the body, authenticate with the token.
     */
    method LoginWithToken(path: string, provider: Provider, data: map<string, Option<string>>,
                          body: Option<JsonObject>, auth: AuthOutcome)
      returns (c: AuthCompletion, sent: Request)
      requires Valid()
      modifies this
      ensures Valid()
      ensures IsRequestFor(sent, apiHost, path, namespace, debug, data)
      ensures (c, State()) == AfterTokenResponse(hasContext, old(State()), provider, body, auth)
    {
      sent := MakeRequest(path, data);
      match InterpretTokenResponse(FetchResult(body))
      case Finish(k) =>
        c := Failed(k);
      case Authenticate(token, userData) =>
        c := AttemptAuthWithToken(token, provider, userData, auth);
    }

    /** `loginAnonymously`: no credentials, the anonymous path and provider. */
    method LoginAnonymously(body: Option<JsonObject>, auth: AuthOutcome) returns (c: AuthCompletion, sent: Request)
      requires Valid()
      modifies this
      ensures Valid()
      ensures IsRequestFor(sent, apiHost, AnonymousPath, namespace, debug, map[])
      ensures (c, State()) == AfterTokenResponse(hasContext, old(State()), Anonymous, body, auth)
    {
      c, sent := LoginWithToken(AnonymousPath, Anonymous, map[], body, auth);
    }

    /**
     * `loginWithEmail`: an invalid email fails with `InvalidEmail`, then an
     * invalid password with `InvalidPassword`, both without a request;
     * otherwise a password-provider token flow with the email and password.
     */
    method LoginWithEmail(email: Option<string>, password: Option<string>, body: Option<JsonObject>, auth: AuthOutcome)
      returns (c: AuthCompletion, sent: Option<Request>)
      requires Valid()
      modifies this
      ensures Valid()
      ensures !IsValidEmail(email) ==> c == Failed(InvalidEmail) && sent.None? && State() == old(State())
      ensures IsValidEmail(email) && !IsValidPassword(password) ==>
        c == Failed(InvalidPassword) && sent.None? && State() == old(State())
      ensures IsValidEmail(email) && IsValidPassword(password) ==>
        && sent.Some?
        && IsRequestFor(sent.value, apiHost, PasswordPath, namespace, debug, map["email" := email, "password" := password])
        && (c, State()) == AfterTokenResponse(hasContext, old(State()), Password, body, auth)
    {
      if !IsValidEmail(email) {
        c, sent := Failed(InvalidEmail), None;
      } else if !IsValidPassword(password) {
        c, sent := Failed(InvalidPassword), None;
      } else {
        var request;
        c, request := LoginWithToken(PasswordPath, Password, map["email" := email, "password" := password], body, auth);
        sent := Some(request);
      }
    }

    /** `loginWithFacebook`: both arguments are required; only the access token is sent. */
    method LoginWithFacebook(appId: Option<string>, accessToken: Option<string>, body: Option<JsonObject>, auth: AuthOutcome)
      returns (c: AuthCompletion, sent: Option<Request>)
      requires Valid()
      modifies this
      ensures Valid()
      ensures appId.None? || accessToken.None? ==> c == Failed(BadProviderToken) && sent.None? && State() == old(State())
      ensures appId.Some? && accessToken.Some? ==>
        && sent.Some?
        && IsRequestFor(sent.value, apiHost, FacebookPath, namespace, debug, map["access_token" := accessToken])
        && (c, State()) == AfterTokenResponse(hasContext, old(State()), Facebook, body, auth)
    {
      if appId.None? || accessToken.None? {
        c, sent := Failed(BadProviderToken), None;
      } else {
        var request;
        c, request := LoginWithToken(FacebookPath, Facebook, map["access_token" := accessToken], body, auth);
        sent := Some(request);
      }
    }

    /** `loginWithGoogle`: the access token is required. */
    method LoginWithGoogle(accessToken: Option<string>, body: Option<JsonObject>, auth: AuthOutcome)
      returns (c: AuthCompletion, sent: Option<Request>)
      requires Valid()
      modifies this
      ensures Valid()
      ensures accessToken.None? ==> c == Failed(BadProviderToken) && sent.None? && State() == old(State())
      ensures accessToken.Some? ==>
        && sent.Some?
        && IsRequestFor(sent.value, apiHost, GooglePath, namespace, debug, map["access_token" := accessToken])
        && (c, State()) == AfterTokenResponse(hasContext, old(State()), Google, body, auth)
    {
      if accessToken.None? {
        c, sent := Failed(BadProviderToken), None;
      } else {
        var request;
        c, request := LoginWithToken(GooglePath, Google, map["access_token" := accessToken], body, auth);
        sent := Some(request);
      }
    }

    /** `loginWithTwitter`: all three arguments are required; the numeric user id is sent in decimal. */
    method LoginWithTwitter(oauthToken: Option<string>, oauthTokenSecret: Option<string>, userId: Option<int>,
                            body: Option<JsonObject>, auth: AuthOutcome)
      returns (c: AuthCompletion, sent: Option<Request>)
      requires Valid()
      modifies this
      ensures Valid()
      ensures oauthToken.None? || oauthTokenSecret.None? || userId.None? ==>
        c == Failed(BadProviderToken) && sent.None? && State() == old(State())
      ensures oauthToken.Some? && oauthTokenSecret.Some? && userId.Some? ==>
        && sent.Some?
        && IsRequestFor(sent.value, apiHost, TwitterTokenPath, namespace, debug,
             map["oauth_token" := oauthToken, "oauth_token_secret" := oauthTokenSecret,
                 "user_id" := Some(DecimalString(userId.value))])
        && (c, State()) == AfterTokenResponse(hasContext, old(State()), Twitter, body, auth)
    {
      if oauthToken.None? || oauthTokenSecret.None? || userId.None? {
        c, sent := Failed(BadProviderToken), None;
      } else {
        var request;
        c, request := LoginWithToken(TwitterTokenPath, Twitter,
          map["oauth_token" := oauthToken, "oauth_token_secret" := oauthTokenSecret,
              "user_id" := Some(DecimalString(userId.value))], body, auth);
        sent := Some(request);
      }
    }

    /**
     * `createUser`: the email/password checks, then the create-user request;
     * the outcome is read from the body alone, so the session is untouched.
     */
    method CreateUser(email: Option<string>, password: Option<string>, body: Option<JsonObject>)
      returns (c: AuthCompletion, sent: Option<Request>)
      ensures !IsValidEmail(email) ==> c == Failed(InvalidEmail) && sent.None?
      ensures IsValidEmail(email) && !IsValidPassword(password) ==> c == Failed(InvalidPassword) && sent.None?
      ensures IsValidEmail(email) && IsValidPassword(password) ==>
        && sent.Some?
        && IsRequestFor(sent.value, apiHost, CreateUserPath, namespace, debug, map["email" := email, "password" := password])
        && c == InterpretCreateUser(FetchResult(body))
    {
      if !IsValidEmail(email) {
        c, sent := Failed(InvalidEmail), None;
      } else if !IsValidPassword(password) {
        c, sent := Failed(InvalidPassword), None;
      } else {
        var request := MakeRequest(CreateUserPath, map["email" := email, "password" := password]);
        c, sent := InterpretCreateUser(FetchResult(body)), Some(request);
      }
    }

    /** `removeUser`: the email/password checks, then the remove-user request. */
    method RemoveUser(email: Option<string>, password: Option<string>, body: Option<JsonObject>)
      returns (c: BoolCompletion, sent: Option<Request>)
      ensures !IsValidEmail(email) ==> c == BoolCompletion(Some(InvalidEmail), false) && sent.None?
      ensures IsValidEmail(email) && !IsValidPassword(password) ==>
        c == BoolCompletion(Some(InvalidPassword), false) && sent.None?
      ensures IsValidEmail(email) && IsValidPassword(password) ==>
        && sent.Some?
        && IsRequestFor(sent.value, apiHost, RemoveUserPath, namespace, debug, map["email" := email, "password" := password])
        && c == InterpretErrorField(FetchResult(body))
    {
      if !IsValidEmail(email) {
        c, sent := BoolCompletion(Some(InvalidEmail), false), None;
      } else if !IsValidPassword(password) {
        c, sent := BoolCompletion(Some(InvalidPassword), false), None;
      } else {
        var request := MakeRequest(RemoveUserPath, map["email" := email, "password" := password]);
        c, sent := InterpretErrorField(FetchResult(body)), Some(request);
      }
    }

    /**
     * `changePassword`: only the email and the new password are checked; the
     * old password is sent as given, even when null.
     */
    method ChangePassword(email: Option<string>, oldPassword: Option<string>, newPassword: Option<string>,
                          body: Option<JsonObject>)
      returns (c: BoolCompletion, sent: Option<Request>)
      ensures !IsValidEmail(email) ==> c == BoolCompletion(Some(InvalidEmail), false) && sent.None?
      ensures IsValidEmail(email) && !IsValidPassword(newPassword) ==>
        c == BoolCompletion(Some(InvalidPassword), false) && sent.None?
      ensures IsValidEmail(email) && IsValidPassword(newPassword) ==>
        && sent.Some?
        && IsRequestFor(sent.value, apiHost, ChangePasswordPath, namespace, debug,
             map["email" := email, "oldPassword" := oldPassword, "newPassword" := newPassword])
        && c == InterpretChangePassword(FetchResult(body))
    {
      if !IsValidEmail(email) {
        c, sent := BoolCompletion(Some(InvalidEmail), false), None;
      } else if !IsValidPassword(newPassword) {
        c, sent := BoolCompletion(Some(InvalidPassword), false), None;
      } else {
        var request := MakeRequest(ChangePasswordPath,
          map["email" := email, "oldPassword" := oldPassword, "newPassword" := newPassword]);
        c, sent := InterpretChangePassword(FetchResult(body)), Some(request);
      }
    }

    /** `sendPasswordResetEmail`: only the email is checked. */
    method SendPasswordResetEmail(email: Option<string>, body: Option<JsonObject>)
      returns (c: BoolCompletion, sent: Option<Request>)
      ensures !IsValidEmail(email) ==> c == BoolCompletion(Some(InvalidEmail), false) && sent.None?
      ensures IsValidEmail(email) ==>
        && sent.Some?
        && IsRequestFor(sent.value, apiHost, ResetPasswordPath, namespace, debug, map["email" := email])
        && c == InterpretErrorField(FetchResult(body))
    {
      if !IsValidEmail(email) {
        c, sent := BoolCompletion(Some(InvalidEmail), false), None;
      } else {
        var request := MakeRequest(ResetPasswordPath, map["email" := email]);
        c, sent := InterpretErrorField(FetchResult(body)), Some(request);
      }
    }
  }
}
