/** The two field checks that let a flow fail locally, before any request. */
module Validation {
  import opened Wrappers
  import opened JavaStrings

  /**
   * `isValidEmail`: non-null, not blank after `trim`, and the first '@' of the
   * untrimmed string is at an index of at least 1.
   */
  predicate IsValidEmail(email: Option<string>)
    ensures IsValidEmail(email) ==> email.Some? && |email.value| >= 2 && email.value[0] != '@' && '@' in email.value
  {
    email.Some? && !IsBlank(email.value) && IndexOf(email.value, '@') > 0
  }

  /** `isValidPassword`: non-null and not blank after `trim`. */
  predicate IsValidPassword(password: Option<string>)
    ensures IsValidPassword(password) ==> password.Some? && |password.value| > 0
    ensures password.Some? && password.value != [] && !IsTrimmed(password.value[0]) ==> IsValidPassword(password)
  {
    password.Some? && !IsBlank(password.value)
  }

  /** Some character of `s` survives `trim`. */
  predicate HasVisibleChar(s: string)
  {
    exists i :: 0 <= i < |s| && !IsTrimmed(s[i])
  }

  /**
   * An email is accepted exactly when it has a character above U+0020, holds an
   * '@', and does not start with '@' (so "@a@b" is refused although a later
   * '@' follows a character).
   */
  lemma EmailCharacterized(email: Option<string>)
    ensures IsValidEmail(email) <==>
      email.Some? && HasVisibleChar(email.value) && '@' in email.value && email.value[0] != '@'
  {
    if email.Some? {
      var s := email.value;
      if '@' in s && s[0] != '@' {
        assert IndexOf(s, '@') != 0;
      }
      if IndexOf(s, '@') > 0 {
        assert s[0] in s[..IndexOf(s, '@')];
      }
    }
  }

  /** A password is accepted exactly when it is non-null and has a character above U+0020. */
  lemma PasswordCharacterized(password: Option<string>)
    ensures IsValidPassword(password) <==> password.Some? && HasVisibleChar(password.value)
  {
  }

  /** Every accepted email would also be accepted as a password. */
  lemma ValidEmailIsValidPassword(s: Option<string>)
    ensures IsValidEmail(s) ==> IsValidPassword(s)
  {
  }
}
