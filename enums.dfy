/**
 * The two enumerations of the `enums` package: the error kinds reported to
 * completion handlers and the authentication providers.
 */
module Enums {

  /** The closed taxonomy of errors a completion handler may receive (enums/Error.java). */
  datatype ErrorKind =
    // auth errors
    | UserDoesNotExist
    | InvalidPassword
    | AccessNotGranted
    | AccountNotFound
    | AuthenticationProviderNotEnabled
    | InvalidEmail
    | BadSystemToken
    | EmailTaken
    | InvalidFirebase
    | BadProviderToken
    // errors of the realtime connection
    | DataStale
    | OperationFailed
    | PermissionDenied
    | Disconnected
    | Preempted
    | ExpiredToken
    | InvalidToken
    | MaxRetries
    | OverriddenBySet
    // catch all
    | Unknown

  /** The authentication providers; `Invalid` is the sentinel for an unrecognised name. */
  datatype Provider = Password | Anonymous | Facebook | Google | Twitter | Invalid

  /** The Java constant name of a provider, as `name()` and `toString()` give it. */
  function ProviderName(p: Provider): (name: string)
    ensures |name| > 0 && forall i :: 0 <= i < |name| ==> 'A' <= name[i] <= 'Z'
  {
    match p
    case Password => "PASSWORD"
    case Anonymous => "ANONYMOUS"
    case Facebook => "FACEBOOK"
    case Google => "GOOGLE"
    case Twitter => "TWITTER"
    case Invalid => "INVALID"
  }
}
