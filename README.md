# Firebase Simple Login for Android, modelled in Dafny

This project models the client side of Firebase Simple Login for Java/Android:
the `SimpleLogin` entry point with its login, account and restore flows, the
error classifier `FirebaseSimpleLoginError`, the helpers of `FirebaseUtils`,
the credential checks of `Validation`, and the `User` value it hands back.

The model is organised as the source is:

- `Enums` (enums.dfy) holds the error kinds and providers; `Constants`
  (constants.dfy) the API host and request paths.
- `LoginErrors` (login_error.dfy) is the classifier: the reasons table,
  `errorFromCode`, `errorFromResponse` and `errorFromFirebaseError`. Each
  code table has a reference inverse and proved injectivity.
- `JavaStrings` (java_strings.dfy) gives Java's `trim`, `indexOf`,
  `toUpperCase`, `split` and `Long.toString` the semantics the source relies
  on. This includes the removal of trailing empty fields by `split`. It also
  holds `lastIndexOf`, which the model uses to read `toString` back.
- `Validation`, `FirebaseUtils` and `Users` model the three helper classes.
  JSON conversion is proved to round-trip.
- `Json` (json.dfy) models org.json values and the `getString` and
  `getJSONObject` reads: a field is missing, found, or of the wrong type
  (the read throws).
- `Requests` (request.dfy) describes the request `makeRequest` builds.
  `Outcomes` (outcomes.dfy) holds each `handle` decision tree, the restore
  decision, and the pure transitions of the persisted session.
- `Login` (simple_login.dfy) is the `SimpleLogin` class. The record kept in
  the shared preferences and the count of revocation watchers are fields the
  methods update. Each flow method is proved equal to the pure transition in
  `Outcomes`. `makeRequest` keeps its loop over the data map.

The HTTP fetch and the connection's `auth` call are inputs of each flow: the
body the fetch task produced (`None` for a failed fetch) and the outcome the
connection reports (success, revoked, error). Each flow returns the
completion it delivers and the request it sends, if any.

## Model

| member | source | states |
|---|---|---|
| LoginErrors.ErrorFromCode | src/main/java/com/firebase/simplelogin/FirebaseSimpleLoginError.java:55-61 | keeps the code; the message is the reasons-table entry, or "" for null or unlisted codes |
| LoginErrors.ResponseKind | src/main/java/com/firebase/simplelogin/FirebaseSimpleLoginError.java:71-94 | a code string gives a kind other than Unknown exactly when the reference table maps that kind to that string ("190", INVALID_USER, …, EMAIL_TAKEN) |
| LoginErrors.ErrorFromResponse | src/main/java/com/firebase/simplelogin/FirebaseSimpleLoginError.java:63-107 | total: always a kind; null gives Unknown with "An unknown error occurred"; a string `code` is classified, a missing or non-string one gives Unknown; the message is the table entry, so response-derived kinds carry "" |
| LoginErrors.ConnectionKind | src/main/java/com/firebase/simplelogin/FirebaseSimpleLoginError.java:114-145 | the nine connection codes map to their nine kinds, and only the default case gives Unknown |
| LoginErrors.ErrorFromFirebaseError | src/main/java/com/firebase/simplelogin/FirebaseSimpleLoginError.java:109-152 | total; null gives Unknown; otherwise the kind of the code; the message is the non-empty table entry |
| LoginErrors.ConnectionKindInjective | src/main/java/com/firebase/simplelogin/FirebaseSimpleLoginError.java:114-141 | distinct named connection codes give distinct kinds: the mapping is one-to-one |
| LoginErrors.ResponseKindInjective | src/main/java/com/firebase/simplelogin/FirebaseSimpleLoginError.java:71-94 | two code strings with the same known kind are the same string |
| LoginErrors.ResponseRoundTrip | src/main/java/com/firebase/simplelogin/FirebaseSimpleLoginError.java:63-94 | a payload carrying the code string of a kind is classified as that kind |
| Json.StringField | src/main/java/com/firebase/simplelogin/SimpleLogin.java:232 | `has(key) ? getString(key) : null`: missing exactly when absent, found exactly when the value is a string |
| Json.ObjectField | src/main/java/com/firebase/simplelogin/SimpleLogin.java:234 | `has(key) ? getJSONObject(key) : null`: missing exactly when absent, found exactly when the value is an object |
| JavaStrings.Trim | src/main/java/com/firebase/simplelogin/Validation.java:15 | the result is empty exactly when every character is at most U+0020; otherwise it starts and ends with a visible character |
| JavaStrings.TrimPadded | src/main/java/com/firebase/simplelogin/FirebaseUtils.java:38 | trimming a word padded with characters at most U+0020 gives the word |
| JavaStrings.IndexOf | src/main/java/com/firebase/simplelogin/Validation.java:15 | -1 exactly when the character is absent; otherwise the position of its first occurrence |
| JavaStrings.ToUpperCase | src/main/java/com/firebase/simplelogin/FirebaseUtils.java:38 | same length; no ASCII lower-case letter remains, each one is replaced by its upper-case letter, and every other character is unchanged |
| JavaStrings.DropTrailingEmpty | src/main/java/com/firebase/simplelogin/FirebaseUtils.java:24 | a prefix of the fields with no trailing empty field; only empty fields are dropped |
| JavaStrings.FieldsNonEmpty | src/main/java/com/firebase/simplelogin/FirebaseUtils.java:24 | some field of the split is non-empty exactly when the string has a non-separator character |
| JavaStrings.Split | src/main/java/com/firebase/simplelogin/FirebaseUtils.java:24 | `split("\\.")`: with no dot the host itself is the only field; otherwise the dot-separated fields with exactly the trailing empty ones dropped, so the result is empty or ends in a non-empty field |
| JavaStrings.DecimalString | src/main/java/com/firebase/simplelogin/SimpleLogin.java:694 | `Long.toString`: digits denoting `n`, with no leading zero, for `n >= 0`; a '-' followed by the digits of `-n` otherwise |
| JavaStrings.SplitShape | src/main/java/com/firebase/simplelogin/FirebaseUtils.java:24-26 | `split` yields more than one field exactly when something other than dots follows the first dot, and then field 0 is the text before the first dot |
| FirebaseUtils.NamespaceFromHost | src/main/java/com/firebase/simplelogin/FirebaseUtils.java:22-32 | a failure is the invalid-reference error for that host |
| FirebaseUtils.NamespaceCharacterized | src/main/java/com/firebase/simplelogin/FirebaseUtils.java:22-30 | succeeds exactly when the host has a dot, a non-dot follows the first dot, and the first label is not blank; the namespace is then the first label |
| FirebaseUtils.ProviderNamed | src/main/java/com/firebase/simplelogin/FirebaseUtils.java:38-41 | `Provider.valueOf`: the provider with exactly that name, or INVALID when no provider has it |
| FirebaseUtils.ProviderForString | src/main/java/com/firebase/simplelogin/FirebaseUtils.java:35-47 | null gives INVALID; a valid result's name is the trimmed, upper-cased input; every such name is recognised |
| FirebaseUtils.ProviderForStringPadded | src/main/java/com/firebase/simplelogin/FirebaseUtils.java:38 | case and surrounding whitespace are ignored: any padded, any-case spelling of a provider's name gives that provider |
| FirebaseUtils.FromJson | src/main/java/com/firebase/simplelogin/FirebaseUtils.java:74-87 | JSON null becomes null, objects become maps and arrays lists; scalars stay scalars |
| FirebaseUtils.ToMap | src/main/java/com/firebase/simplelogin/FirebaseUtils.java:50-61 | null gives the empty map; otherwise exactly the object's keys, each value converted by `fromJson` |
| FirebaseUtils.ToList | src/main/java/com/firebase/simplelogin/FirebaseUtils.java:64-72 | null gives the empty list; otherwise same length and order, each element converted by `fromJson` |
| FirebaseUtils.FromJsonRoundTrip | src/main/java/com/firebase/simplelogin/FirebaseUtils.java:50-87 | converting JSON to plain values loses nothing: converting back gives the original JSON |
| FirebaseUtils.ToJsonRoundTrip | src/main/java/com/firebase/simplelogin/FirebaseUtils.java:50-87 | every plain value is the conversion of the JSON it denotes |
| Validation.IsValidEmail | src/main/java/com/firebase/simplelogin/Validation.java:14-16 | an accepted email is non-null, at least two characters long, holds an '@' and does not start with one |
| Validation.IsValidPassword | src/main/java/com/firebase/simplelogin/Validation.java:23-25 | an accepted password is non-null and non-empty; any password starting with a character above U+0020 is accepted |
| Validation.EmailCharacterized | src/main/java/com/firebase/simplelogin/Validation.java:14-16 | an email is valid exactly when non-null, not blank, and its first '@' is at index 1 or later |
| Validation.PasswordCharacterized | src/main/java/com/firebase/simplelogin/Validation.java:23-25 | a password is valid exactly when non-null and containing a character above U+0020 |
| Validation.ValidEmailIsValidPassword | src/main/java/com/firebase/simplelogin/Validation.java:14-25 | every valid email is also a valid password |
| Enums.ProviderName | src/main/java/com/firebase/simplelogin/User.java:116 | the printed name of a provider constant: non-empty and made of upper-case letters only, so upper-casing leaves it unchanged |
| Users.PasswordUser | src/main/java/com/firebase/simplelogin/User.java:33-41 | provider PASSWORD, empty third-party data, every other field and getter as given |
| Users.ThirdPartyUser | src/main/java/com/firebase/simplelogin/User.java:51-58 | no email; provider, token and data as given |
| Users.UserString | src/main/java/com/firebase/simplelogin/User.java:114-117 | starts with "UserId: ", ends with ')', and has the length of prefix, id, provider name and parentheses |
| Users.UserStringRoundTrip | src/main/java/com/firebase/simplelogin/User.java:114-117 | the user id and provider can be read back from `toString` |
| Users.ProviderNamedName | src/main/java/com/firebase/simplelogin/User.java:116 | a provider's printed name contains no '(' and names that provider |
| Requests.FixedParams | src/main/java/com/firebase/simplelogin/SimpleLogin.java:620-626 | `firebase`, `mobile=android`, `transport=json`, then `debug=1` exactly when debug is on |
| Requests.KeysOfAppend | src/main/java/com/firebase/simplelogin/SimpleLogin.java:628-634 | appending a parameter adds exactly its key |
| Requests.EnumerationStep | src/main/java/com/firebase/simplelogin/SimpleLogin.java:629-633 | appending one not-yet-listed entry keeps every listed entry exact, once each, with its value |
| Requests.EnumerationEnds | src/main/java/com/firebase/simplelogin/SimpleLogin.java:628-634 | once no key remains, the parameters list each data entry exactly once |
| Requests.RequestCarriesData | src/main/java/com/firebase/simplelogin/SimpleLogin.java:628-634 | every data entry appears, with its value, after the fixed parameters |
| Outcomes.FetchResult | src/main/java/com/firebase/simplelogin/SimpleLogin.java:761-771 | a null body is delivered as the error Unknown; any other body as data with no error |
| Outcomes.InterpretTokenResponse | src/main/java/com/firebase/simplelogin/SimpleLogin.java:702-731 | a transport error passes through; no token gives the classification of `error` (Unknown when absent); a token without a user object gives Unknown; a string token and a user object, and only those, authenticate |
| Outcomes.InterpretCreateUser | src/main/java/com/firebase/simplelogin/SimpleLogin.java:415-445 | a `user` that is present but not an object gives Unknown, even beside an `error` object; otherwise `error` wins over `user`; a user is reported exactly when no error was delivered, the body has no `error` and its `user` object has `id`, `uid` and `email` strings; it is then a PASSWORD user with no auth token carrying those strings; every other body without an `error` object gives Unknown |
| Outcomes.InterpretErrorField | src/main/java/com/firebase/simplelogin/SimpleLogin.java:477-496 | `(null, true)` exactly when no transport error and no `error` field; otherwise the error classified, and false |
| Outcomes.InterpretChangePassword | src/main/java/com/firebase/simplelogin/SimpleLogin.java:529-536 | success exactly when a body arrived; the body is not read |
| Outcomes.BuildUser | src/main/java/com/firebase/simplelogin/SimpleLogin.java:357-374 | a user exactly when `id` and `uid` are strings, plus `email` for PASSWORD; its id, uid and token come from the response; third-party users carry the converted object |
| Outcomes.DataDecision | src/main/java/com/firebase/simplelogin/SimpleLogin.java:183-206 | Unknown exactly when the token string, the user object or its provider string is missing; an unrecognised provider clears; a recognised one re-authenticates with exactly the stored token, that provider and the stored user object |
| Outcomes.RestoreDecision | src/main/java/com/firebase/simplelogin/SimpleLogin.java:161-181 | no context, no record or an unparsable record gives `(null, null)`; otherwise the decision on the parsed record |
| Outcomes.StoredRecordFor | src/main/java/com/firebase/simplelogin/SimpleLogin.java:379-384 | the saved record is an object with exactly the keys `token` (the token string) and `userData` (the raw user object) |
| Outcomes.Cleared | src/main/java/com/firebase/simplelogin/SimpleLogin.java:208-215 | `clearCredentials` erases the record when there is a context, does nothing otherwise, and never touches the watchers |
| Outcomes.AfterAuth | src/main/java/com/firebase/simplelogin/SimpleLogin.java:316-354 | success stores `{token, userData}` even when no user can be built, reports the built user (else Unknown) and adds a watcher only with a user; revoked clears; error changes nothing; never stores without a context |
| Outcomes.AfterTokenResponse | src/main/java/com/firebase/simplelogin/SimpleLogin.java:226-255 | a null body gives Unknown; a response that does not authenticate reports its error and leaves the session unchanged; one that does is followed by the auth transition with the response's token and user and the flow's provider |
| Outcomes.AfterStep | src/main/java/com/firebase/simplelogin/SimpleLogin.java:187-197 | a report leaves the session as it is; clearing reports `(null, null)`; re-authentication is the auth transition |
| Outcomes.AfterRestore | src/main/java/com/firebase/simplelogin/SimpleLogin.java:161-206 | no context, no record or an unparsable record reports `(null, null)` and changes nothing; never stores without a context |
| Outcomes.AfterWatcher | src/main/java/com/firebase/simplelogin/SimpleLogin.java:323-336 | only the boolean false with a registered watcher clears the record and unregisters the watchers; every other value changes nothing |
| Outcomes.SaveRestoreRoundTrip | src/main/java/com/firebase/simplelogin/SimpleLogin.java:183-193 | after a successful login, restore re-authenticates with exactly the saved token, user object and provider |
| Outcomes.IdentityMatchesResponse | src/main/java/com/firebase/simplelogin/SimpleLogin.java:319-374 | a reported user's id, uid and token are the response's `id`, `uid` and `token`; its provider is the flow's |
| Outcomes.TokenLoginStoresSession | src/main/java/com/firebase/simplelogin/SimpleLogin.java:316-374 | any response that authenticates with a buildable user, accepted by the connection, reports that user, stores `{token, user}` and adds one watcher |
| Outcomes.LastWriteWins | src/main/java/com/firebase/simplelogin/SimpleLogin.java:356-393 | two successful logins in turn leave the second's record |
| Outcomes.LogoutIdempotent | src/main/java/com/firebase/simplelogin/SimpleLogin.java:142-145 | logout leaves no record, and a second logout changes nothing |
| Outcomes.EmailLoginSucceeds | src/main/java/com/firebase/simplelogin/SimpleLogin.java:281-310 | a token-and-user response yields the email user and stores its record |
| Outcomes.WrongPasswordRejected | src/main/java/com/firebase/simplelogin/SimpleLogin.java:284-292 | an INVALID_PASSWORD payload yields InvalidPassword and changes nothing |
| Outcomes.RevokedLeavesNoRecord | src/main/java/com/firebase/simplelogin/SimpleLogin.java:345-348 | a revoked token reports the classified connection error and leaves no record |
| Outcomes.RestoreWithoutSession | src/main/java/com/firebase/simplelogin/SimpleLogin.java:161-206 | no record gives `(null, null)`; a record with an unrecognised provider is cleared, then `(null, null)` |
| Login.SimpleLogin.constructor | src/main/java/com/firebase/simplelogin/SimpleLogin.java:131-138 | the namespace is the first host label; the stored record is visible only with a context |
| Login.SimpleLogin.Create | src/main/java/com/firebase/simplelogin/SimpleLogin.java:104-129 | the default API host; construction fails exactly when the host yields no namespace |
| Login.SimpleLogin.ClearCredentials | src/main/java/com/firebase/simplelogin/SimpleLogin.java:208-215 | the record is erased exactly when there is a context |
| Login.SimpleLogin.Logout | src/main/java/com/firebase/simplelogin/SimpleLogin.java:142-145 | ends with no record |
| Login.SimpleLogin.SaveSession | src/main/java/com/firebase/simplelogin/SimpleLogin.java:356-393 | returns the built user and stores `{token, userData}` whenever there is a context |
| Login.SimpleLogin.AttemptAuthWithToken | src/main/java/com/firebase/simplelogin/SimpleLogin.java:316-354 | completion and new state are those of the auth transition |
| Login.SimpleLogin.OnAuthenticatedValue | src/main/java/com/firebase/simplelogin/SimpleLogin.java:325-334 | the new state is that of the watcher transition |
| Login.SimpleLogin.AttemptAuthWithData | src/main/java/com/firebase/simplelogin/SimpleLogin.java:183-206 | completion and new state follow the decision on the parsed record |
| Login.SimpleLogin.CheckAuthStatus | src/main/java/com/firebase/simplelogin/SimpleLogin.java:161-181 | completion and new state are those of the restore transition |
| Login.SimpleLogin.MakeRequest | src/main/java/com/firebase/simplelogin/SimpleLogin.java:617-636 | the API host and path, the fixed parameters in order, then each data entry exactly once with its value |
| Login.SimpleLogin.LoginWithToken | src/main/java/com/firebase/simplelogin/SimpleLogin.java:700-733 | sends the request for the data; completion and state follow the token response and the auth outcome |
| Login.SimpleLogin.LoginAnonymously | src/main/java/com/firebase/simplelogin/SimpleLogin.java:222-258 | an empty-data request to the anonymous path; the ANONYMOUS token flow |
| Login.SimpleLogin.LoginWithEmail | src/main/java/com/firebase/simplelogin/SimpleLogin.java:267-314 | invalid email gives InvalidEmail before the password is checked, invalid password InvalidPassword, neither sends nor changes anything; otherwise email and password to the password path, PASSWORD token flow |
| Login.SimpleLogin.LoginWithFacebook | src/main/java/com/firebase/simplelogin/SimpleLogin.java:646-656 | a null app id or token gives BadProviderToken with no request; otherwise only the access token is sent |
| Login.SimpleLogin.LoginWithGoogle | src/main/java/com/firebase/simplelogin/SimpleLogin.java:665-675 | a null token gives BadProviderToken with no request; otherwise the GOOGLE token flow |
| Login.SimpleLogin.LoginWithTwitter | src/main/java/com/firebase/simplelogin/SimpleLogin.java:686-698 | any null argument gives BadProviderToken with no request; otherwise the token, secret and decimal user id are sent |
| Login.SimpleLogin.CreateUser | src/main/java/com/firebase/simplelogin/SimpleLogin.java:402-448 | email then password checks without a request; otherwise the create request and the create-user interpretation; never authenticates or touches the session |
| Login.SimpleLogin.RemoveUser | src/main/java/com/firebase/simplelogin/SimpleLogin.java:457-499 | email then password checks as `(error, false)`; otherwise the remove request and the error-field interpretation |
| Login.SimpleLogin.ChangePassword | src/main/java/com/firebase/simplelogin/SimpleLogin.java:509-539 | checks only the email and the new password; sends the old password as given; success whenever a body arrived |
| Login.SimpleLogin.SendPasswordResetEmail | src/main/java/com/firebase/simplelogin/SimpleLogin.java:547-585 | checks only the email; otherwise the reset request and the error-field interpretation |

## Left out

- The HTTP fetch (`FetchTask.doInBackground`, `JsonBasicResponseHandler`) is I/O: its result is an input, a JSON object or `None` for a status of 300 or more or an unparsable body.
- URL building and encoding by `Uri.Builder` are not modelled: a request is its host, path and ordered parameter list, and a null parameter value stays null rather than being rendered as text.
- The Firebase reference is outside the model: `namespaceFromRef` works on the host string, URL parsing of the reference is not modelled, `auth` is an input outcome, and `unauth` in `logout` is not performed.
- Threading is not modelled: completions posted through `Handler` or delivered on the main thread are returned directly, and null completion handlers are not modelled.
- `SharedPreferences` is the `record` field. A record that was stored but does not parse is `Unparsable`. A failing `commit` is not modelled.
- The revocation listeners on `.info/authenticated` are modelled as a count of registered watchers: registering one adds to the count, and a `false` value removes them all. The reference paths and listener objects are not modelled, nor are listeners added by other code.
- Json.StringField: org.json's `getString` coerces numbers, booleans and null to text; here any non-string value is a type error (the read throws), so such responses complete with Unknown.
- JSON numbers are integers; floating-point values are not modelled.
- JavaStrings.ToUpperCase: upper-cases ASCII letters only, as in a non-Turkish locale; other Unicode case mappings are not modelled.
- JavaStrings.DecimalString: `Long.toString` for any integer; the 64-bit range of `Long` is not enforced.
- Connection error codes are an abstract datatype (nine named codes and any other code); their integer values belong to the Firebase client, which is not part of this model.
- `SimpleLogin` calls `FirebaseUtils.errorFromResponse` and `FirebaseUtils.errorFromFirebaseError`, which the `FirebaseUtils` class does not define; the model uses the kind computed by the `FirebaseSimpleLoginError` classifiers, and completions carry that kind without a message.
- Restore does not clear a stored record that cannot be used: an unparsable record reports `(null, null)` and is kept, and a record lacking its token or user object reports Unknown and is kept. Only a record naming an unrecognised provider is cleared.
- The `FirebaseSimpleLoginError` getters are the datatype's fields, and the `User` getters are the fields of `User`.
- `getSdkVersion`, `SimpleLoginOptions` (only its debug flag is kept), the callback interfaces and logging are not modelled.
