/**
 * Classification of raw failure signals into the closed error taxonomy, and
 * the immutable error value (code, message) whose message is looked up in a
 * fixed table.
 */
module LoginErrors {
  import opened Wrappers
  import opened Enums
  import opened Json

  /** The codes of the realtime connection's own errors; `OtherCode` is any code not listed. */
  datatype ConnectionErrorCode =
    | DataStaleCode
    | OperationFailedCode
    | PermissionDeniedCode
    | DisconnectedCode
    | PreemptedCode
    | ExpiredTokenCode
    | InvalidTokenCode
    | MaxRetriesCode
    | OverriddenBySetCode
    | OtherCode(code: int)

  /**
   * An error value. The constructor is private in the source and there are no
   * setters, so the only errors are those built by the three factories below;
   * `code` and `message` are what `getCode` and `getMessage` return.
   */
  datatype LoginError = LoginError(code: Option<ErrorKind>, message: string)

  const UnknownReason := "An unknown error occurred"

  /** The static `errorReasons` table. */
  const ErrorReasons: map<ErrorKind, string> := map[
    DataStale := "The transaction needs to be run again with current data",
    OperationFailed := "The server indicated that this operation failed",
    PermissionDenied := "This client does not have permission to perform this operation",
    Disconnected := "The operation had to be aborted due to a network disconnect",
    Preempted := "The active or pending auth credentials were superseded by another call to auth",
    ExpiredToken := "The supplied auth token has expired",
    InvalidToken := "The supplied auth token was invalid",
    MaxRetries := "The transaction had too many retries",
    OverriddenBySet := "The transaction was overridden by a subsequent set",
    Unknown := UnknownReason
  ]

  /** The message the table gives a code: its entry, or "" for null or an unlisted kind. */
  function MessageFor(code: Option<ErrorKind>): string
  {
    if code.Some? && code.value in ErrorReasons then ErrorReasons[code.value] else ""
  }

  /** An error whose message is the one the table derives from its code. */
  predicate DerivedMessage(e: LoginError)
  {
    e.message == MessageFor(e.code)
  }

  /** `errorFromCode`: keeps the code as given and looks its message up. */
  function ErrorFromCode(code: Option<ErrorKind>): (e: LoginError)
    ensures e.code == code && DerivedMessage(e)
    ensures code.None? ==> e.message == ""
  {
    LoginError(code, MessageFor(code))
  }

  /** The backend's code string for each kind it can report, the reference for `ResponseKind`. */
  function ResponseCodeOf(k: ErrorKind): Option<string>
  {
    match k
    case BadSystemToken => Some("190")
    case UserDoesNotExist => Some("INVALID_USER")
    case InvalidPassword => Some("INVALID_PASSWORD")
    case AccessNotGranted => Some("NO_ACCESS")
    case AccountNotFound => Some("NO_ACCOUNT")
    case AuthenticationProviderNotEnabled => Some("AUTHENTICATION_DISABLED")
    case InvalidEmail => Some("INVALID_EMAIL")
    case EmailTaken => Some("EMAIL_TAKEN")
    case _ => None
  }

  /**
   * The if-chain over the backend's `code` string: a listed string gives the
   * kind whose code it is, and every other string gives `Unknown`.
   */
  function ResponseKind(code: string): (k: ErrorKind)
    ensures k != Unknown <==> ResponseCodeOf(k) == Some(code)
    ensures (exists k' :: ResponseCodeOf(k') == Some(code)) ==> ResponseCodeOf(k) == Some(code)
  {
    if code == "190" then BadSystemToken
    else if code == "INVALID_USER" then UserDoesNotExist
    else if code == "INVALID_PASSWORD" then InvalidPassword
    else if code == "NO_ACCESS" then AccessNotGranted
    else if code == "NO_ACCOUNT" then AccountNotFound
    else if code == "AUTHENTICATION_DISABLED" then AuthenticationProviderNotEnabled
    else if code == "INVALID_EMAIL" then InvalidEmail
    else if code == "EMAIL_TAKEN" then EmailTaken
    else Unknown
  }

  /**
   * `errorFromResponse`: a null payload, or one whose `code` is missing or not
   * a string (getString throws, and the exception is caught), is `Unknown`.
   */
  function ErrorFromResponse(response: Option<JsonObject>): (e: LoginError)
    ensures e.code.Some? && DerivedMessage(e)
    ensures response.None? ==> e == LoginError(Some(Unknown), UnknownReason)
    ensures e.message == (if e.code == Some(Unknown) then UnknownReason else "")
    ensures response.Some? && "code" in response.value && response.value["code"].JString?
      ==> e.code == Some(ResponseKind(response.value["code"].s))
    ensures response.Some? && !("code" in response.value && response.value["code"].JString?)
      ==> e.code == Some(Unknown)
  {
    var kind :=
      match response
      case None => Unknown
      case Some(o) =>
        match StringField(o, "code")
        case Found(c) => ResponseKind(c)
        case _ => Unknown;
    LoginError(Some(kind), MessageFor(Some(kind)))
  }

  /** The connection code each connection-derived kind comes from, the reference for `ConnectionKind`. */
  function ConnectionCodeOf(k: ErrorKind): Option<ConnectionErrorCode>
  {
    match k
    case DataStale => Some(DataStaleCode)
    case OperationFailed => Some(OperationFailedCode)
    case PermissionDenied => Some(PermissionDeniedCode)
    case Disconnected => Some(DisconnectedCode)
    case Preempted => Some(PreemptedCode)
    case ExpiredToken => Some(ExpiredTokenCode)
    case InvalidToken => Some(InvalidTokenCode)
    case MaxRetries => Some(MaxRetriesCode)
    case OverriddenBySet => Some(OverriddenBySetCode)
    case _ => None
  }

  /** The `switch` over a connection error code; the default case is `Unknown`. */
  function ConnectionKind(c: ConnectionErrorCode): (k: ErrorKind)
    ensures k != Unknown <==> !c.OtherCode?
    ensures !c.OtherCode? ==> ConnectionCodeOf(k) == Some(c)
  {
    match c
    case DataStaleCode => DataStale
    case OperationFailedCode => OperationFailed
    case PermissionDeniedCode => PermissionDenied
    case DisconnectedCode => Disconnected
    case PreemptedCode => Preempted
    case ExpiredTokenCode => ExpiredToken
    case InvalidTokenCode => InvalidToken
    case MaxRetriesCode => MaxRetries
    case OverriddenBySetCode => OverriddenBySet
    case OtherCode(_) => Unknown
  }

  /**
   * `errorFromFirebaseError`: a null error is `Unknown`; every kind it can
   * produce has an entry in the table, so the message is never empty.
   */
  function ErrorFromFirebaseError(error: Option<ConnectionErrorCode>): (e: LoginError)
    ensures e.code.Some? && DerivedMessage(e)
    ensures e.code.value in ErrorReasons && e.message == ErrorReasons[e.code.value] && e.message != ""
    ensures error.None? ==> e == LoginError(Some(Unknown), UnknownReason)
    ensures error.Some? ==> e.code == Some(ConnectionKind(error.value))
  {
    var kind := if error.None? then Unknown else ConnectionKind(error.value);
    LoginError(Some(kind), MessageFor(Some(kind)))
  }

  /** The connection mapping is one-to-one on the nine named codes. */
  lemma {:induction false} ConnectionKindInjective(c1: ConnectionErrorCode, c2: ConnectionErrorCode)
    requires !c1.OtherCode? && !c2.OtherCode?
    requires ConnectionKind(c1) == ConnectionKind(c2)
    ensures c1 == c2
  {
    assert ConnectionCodeOf(ConnectionKind(c1)) == Some(c1);
    assert ConnectionCodeOf(ConnectionKind(c2)) == Some(c2);
  }

  /** The response mapping is one-to-one: two strings that name the same listed kind are equal. */
  lemma {:induction false} ResponseKindInjective(s1: string, s2: string)
    requires ResponseKind(s1) == ResponseKind(s2) != Unknown
    ensures s1 == s2
  {
    assert ResponseCodeOf(ResponseKind(s1)) == Some(s1);
    assert ResponseCodeOf(ResponseKind(s2)) == Some(s2);
  }

  /** Each listed kind is recovered from the payload `{"code": <its string>}`. */
  lemma {:induction false} ResponseRoundTrip(k: ErrorKind)
    requires ResponseCodeOf(k).Some?
    ensures ErrorFromResponse(Some(map["code" := JString(ResponseCodeOf(k).value)])).code == Some(k)
  {
    var c := ResponseCodeOf(k).value;
    var o := map["code" := JString(c)];
    assert StringField(o, "code") == Found(c);
    var r := ResponseKind(c);
    assert ResponseCodeOf(r) == Some(c);
    match k
    case BadSystemToken =>
    case UserDoesNotExist =>
    case InvalidPassword =>
    case AccessNotGranted =>
    case AccountNotFound =>
    case AuthenticationProviderNotEnabled =>
    case InvalidEmail =>
    case EmailTaken =>
  }
}
