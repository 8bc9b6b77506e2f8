/** The session identity handed to completion handlers: an immutable record. */
module Users {
  import opened Wrappers
  import opened Enums
  import opened JavaStrings
  import opened FirebaseUtils

  /**
   * A `User`. Its fields are set only by the two constructors below and then
   * only read, so a datatype value models it; the getters are the fields.
   */
  datatype User = User(
    userId: string,
    uid: string,
    provider: Provider,
    authToken: Option<string>,
    email: Option<string>,
    thirdPartyUserData: map<string, Plain>)

  /** The shape each constructor gives: an email user has no third-party data, a third-party user no email. */
  predicate WellShaped(u: User)
  {
    if u.provider == Password then u.thirdPartyUserData == map[] else u.email == None
  }

  /** The email/password constructor: provider PASSWORD and empty third-party data; the rest as given. */
  function PasswordUser(userId: string, uid: string, authToken: Option<string>, email: Option<string>): (u: User)
    ensures u.provider == Password && u.thirdPartyUserData == map[] && WellShaped(u)
    ensures u.userId == userId && u.uid == uid && u.authToken == authToken && u.email == email
  {
    User(userId, uid, Password, authToken, email, map[])
  }

  /** The third-party constructor: no email; provider and data as given. */
  function ThirdPartyUser(userId: string, uid: string, provider: Provider, authToken: Option<string>,
                          data: map<string, Plain>): (u: User)
    ensures u.email == None && (provider != Password ==> WellShaped(u))
    ensures u.userId == userId && u.uid == uid && u.provider == provider
    ensures u.authToken == authToken && u.thirdPartyUserData == data
  {
    User(userId, uid, provider, authToken, None, data)
  }

  const UserIdPrefix := "UserId: "

  /** `toString`: "UserId: " + userId + "(" + provider + ")". */
  function UserString(u: User): (s: string)
    ensures |s| == |UserIdPrefix| + |u.userId| + |ProviderName(u.provider)| + 2
    ensures s[..|UserIdPrefix|] == UserIdPrefix && s[|s| - 1] == ')'
  {
    UserIdPrefix + u.userId + "(" + ProviderName(u.provider) + ")"
  }

  /**
   * Reads a user id and a provider back from `UserString`'s output: the last
   * '(' separates them, since no provider name holds one.
   */
  function ParseUserString(s: string): Option<(string, Provider)>
  {
    if |s| < |UserIdPrefix| + 2 || s[..|UserIdPrefix|] != UserIdPrefix || s[|s| - 1] != ')' then None
    else
      var body := s[|UserIdPrefix|..|s| - 1];
      var open := LastIndexOf(body, '(');
      if open < 0 then None
      else
        var p := ProviderNamed(body[open + 1..]);
        if ProviderName(p) == body[open + 1..] then Some((body[..open], p)) else None
  }

  /** `toString` loses neither the user id nor the provider. */
  lemma {:induction false} UserStringRoundTrip(u: User)
    ensures ParseUserString(UserString(u)) == Some((u.userId, u.provider))
  {
    var s := UserString(u);
    var name := ProviderName(u.provider);
    var body := s[|UserIdPrefix|..|s| - 1];
    assert body == u.userId + "(" + name;
    LastParenIsSeparator(u.userId, name);
    ProviderNamedName(u.provider);
    assert body[|u.userId| + 1..] == name;
    assert body[..|u.userId|] == u.userId;
  }

  lemma LastParenIsSeparator(id: string, name: string)
    requires '(' !in name
    ensures LastIndexOf(id + "(" + name, '(') == |id|
  {
    var body := id + "(" + name;
    var open := LastIndexOf(body, '(');
    assert body[|id|] == '(';
  }

  lemma ProviderNamedName(p: Provider)
    ensures '(' !in ProviderName(p) && ProviderNamed(ProviderName(p)) == p
  {
    match p
    case Password =>
    case Anonymous =>
    case Facebook =>
    case Google =>
    case Twitter =>
    case Invalid =>
  }
}
