/**
 * The java.lang.String operations the core relies on, with the semantics the
 * Java platform gives them: `trim`, `indexOf`, `toUpperCase` and `split`.
 */
module JavaStrings {

  /** `trim` strips every character whose code is at most U+0020. */
  predicate IsTrimmed(c: char)
  {
    c <= ' '
  }

  /** The number of leading characters `trim` strips. */
  function LeadingTrimmed(s: string): (k: nat)
    ensures k <= |s|
    ensures forall i :: 0 <= i < k ==> IsTrimmed(s[i])
    ensures k < |s| ==> !IsTrimmed(s[k])
  {
    if s == [] || !IsTrimmed(s[0]) then 0 else 1 + LeadingTrimmed(s[1..])
  }

  /** The length left once `trim` has stripped the trailing characters. */
  function TrailingKept(s: string): (k: nat)
    ensures k <= |s|
    ensures forall i :: k <= i < |s| ==> IsTrimmed(s[i])
    ensures k > 0 ==> !IsTrimmed(s[k - 1])
  {
    if s == [] || !IsTrimmed(s[|s| - 1]) then |s| else TrailingKept(s[..|s| - 1])
  }

  /** `s.trim()` */
  function Trim(s: string): (r: string)
    ensures |r| == 0 <==> forall i :: 0 <= i < |s| ==> IsTrimmed(s[i])
    ensures r != [] ==> !IsTrimmed(r[0]) && !IsTrimmed(r[|r| - 1])
    ensures forall i :: 0 <= i < |s| && !IsTrimmed(s[i]) ==> |r| > 0
  {
    var lo := LeadingTrimmed(s);
    var hi := TrailingKept(s);
    if lo < hi then s[lo..hi] else []
  }

  /** `s.trim().length() == 0`, spelled out. */
  predicate IsBlank(s: string)
  {
    |Trim(s)| == 0
  }

  /** `trim` removes exactly the blank padding around a word that starts and ends with a non-blank character. */
  lemma {:induction false} TrimPadded(pre: string, w: string, post: string)
    requires forall i :: 0 <= i < |pre| ==> IsTrimmed(pre[i])
    requires forall i :: 0 <= i < |post| ==> IsTrimmed(post[i])
    requires w != [] && !IsTrimmed(w[0]) && !IsTrimmed(w[|w| - 1])
    ensures Trim(pre + w + post) == w
  {
    var s := pre + w + post;
    LeadingOfPadded(pre, w + post);
    assert s == pre + (w + post);
    TrailingOfPadded(pre + w, post);
    assert s[|pre|..|pre| + |w|] == w;
  }

  lemma {:induction false} LeadingOfPadded(pre: string, rest: string)
    requires forall i :: 0 <= i < |pre| ==> IsTrimmed(pre[i])
    requires rest != [] && !IsTrimmed(rest[0])
    ensures LeadingTrimmed(pre + rest) == |pre|
  {
    if pre != [] {
      assert (pre + rest)[1..] == pre[1..] + rest;
      LeadingOfPadded(pre[1..], rest);
    }
  }

  lemma {:induction false} TrailingOfPadded(body: string, post: string)
    requires forall i :: 0 <= i < |post| ==> IsTrimmed(post[i])
    requires body != [] && !IsTrimmed(body[|body| - 1])
    ensures TrailingKept(body + post) == |body|
  {
    if post != [] {
      var s := body + post;
      assert s[..|s| - 1] == body + post[..|post| - 1];
      TrailingOfPadded(body, post[..|post| - 1]);
    }
  }

  /** `s.indexOf(c)`: the first index of `c`, or -1. */
  function IndexOf(s: string, c: char): (r: int)
    ensures -1 <= r < |s|
    ensures r == -1 <==> c !in s
    ensures r >= 0 ==> s[r] == c && c !in s[..r]
  {
    if s == [] then -1
    else if s[0] == c then 0
    else
      var r := IndexOf(s[1..], c);
      if r < 0 then -1
      else
        assert s[..r + 1] == [s[0]] + s[1..][..r];
        r + 1
  }

  /** `s.lastIndexOf(c)`: the last index of `c`, or -1. */
  function LastIndexOf(s: string, c: char): (r: int)
    ensures -1 <= r < |s|
    ensures r == -1 <==> c !in s
    ensures r >= 0 ==> s[r] == c && c !in s[r + 1..]
  {
    if s == [] then -1
    else if s[|s| - 1] == c then |s| - 1
    else
      var init := s[..|s| - 1];
      var r := LastIndexOf(init, c);
      assert s == init + [s[|s| - 1]];
      if r < 0 then -1
      else
        assert s[r + 1..] == init[r + 1..] + [s[|s| - 1]];
        r
  }

  /** Upper-casing of one character, for the ASCII letters. */
  function UpperChar(c: char): char
  {
    if 'a' <= c <= 'z' then (c as int - 'a' as int + 'A' as int) as char else c
  }

  /** `s.toUpperCase()` restricted to ASCII letters. */
  function ToUpperCase(s: string): (r: string)
    ensures |r| == |s|
    ensures forall i :: 0 <= i < |s| ==> r[i] == UpperChar(s[i])
    ensures forall i :: 0 <= i < |r| ==> !('a' <= r[i] <= 'z')
    ensures forall i :: 0 <= i < |s| && !('a' <= s[i] <= 'z') ==> r[i] == s[i]
    ensures forall i :: 0 <= i < |s| && 'a' <= s[i] <= 'z' ==> r[i] as int == s[i] as int - 32
  {
    seq(|s|, i requires 0 <= i < |s| => UpperChar(s[i]))
  }

  /** Every field of `s` between separators, empty ones included. */
  function Fields(s: string, sep: char): (r: seq<string>)
    ensures |r| >= 1
    decreases |s|
  {
    var d := IndexOf(s, sep);
    if d < 0 then [s] else [s[..d]] + Fields(s[d + 1..], sep)
  }

  /** `fs` with its trailing empty strings removed. */
  function DropTrailingEmpty(fs: seq<string>): (r: seq<string>)
    ensures |r| <= |fs| && r == fs[..|r|]
    ensures r != [] ==> r[|r| - 1] != ""
    ensures forall i :: |r| <= i < |fs| ==> fs[i] == ""
  {
    if fs != [] && fs[|fs| - 1] == "" then DropTrailingEmpty(fs[..|fs| - 1]) else fs
  }

  /**
   * `s.split(regex)` for a regex matching the single character `sep`: with no
   * match the string itself is the only element; otherwise the fields, a
   * leading empty one included and the trailing empty ones removed.
   */
  function Split(s: string, sep: char): (r: seq<string>)
    ensures sep !in s ==> r == [s]
    ensures sep in s ==> |r| <= |Fields(s, sep)| && r == Fields(s, sep)[..|r|]
    ensures sep in s && r != [] ==> r[|r| - 1] != ""
    ensures sep in s ==> forall i :: |r| <= i < |Fields(s, sep)| ==> Fields(s, sep)[i] == ""
  {
    if sep !in s then [s] else DropTrailingEmpty(Fields(s, sep))
  }

  /** Some element of `fs` is a non-empty string. */
  predicate SomeNonEmpty(fs: seq<string>)
  {
    exists i :: 0 <= i < |fs| && fs[i] != ""
  }

  /** Some character of `s` is not `sep`. */
  predicate SomeOther(s: string, sep: char)
  {
    exists j :: 0 <= j < |s| && s[j] != sep
  }

  /** The fields of `s` after its first separator are the fields of the text after it. */
  lemma FieldsUnfold(s: string, sep: char)
    requires sep in s
    ensures Fields(s, sep) == [s[..IndexOf(s, sep)]] + Fields(s[IndexOf(s, sep) + 1..], sep)
  {
  }

  /** Some field of `s` is non-empty exactly when `s` holds a character other than the separator. */
  lemma {:induction false} FieldsNonEmpty(s: string, sep: char)
    ensures SomeNonEmpty(Fields(s, sep)) <==> SomeOther(s, sep)
    decreases |s|
  {
    if sep !in s {
      assert Fields(s, sep) == [s];
      if s != [] {
        assert s[0] in s;
        assert Fields(s, sep)[0] != "";
      }
    } else {
      var d := IndexOf(s, sep);
      FieldsUnfold(s, sep);
      FieldsNonEmpty(s[d + 1..], sep);
      var tl := Fields(s[d + 1..], sep);
      if SomeOther(s, sep) {
        FieldsNonEmptyIf(s, sep, d, tl);
      }
      if SomeNonEmpty(Fields(s, sep)) {
        FieldsNonEmptyOnlyIf(s, sep, d, tl);
      }
    }
  }

  lemma FieldsNonEmptyIf(s: string, sep: char, d: nat, tl: seq<string>)
    requires d < |s| && s[d] == sep && SomeOther(s, sep)
    requires SomeOther(s[d + 1..], sep) ==> SomeNonEmpty(tl)
    ensures SomeNonEmpty([s[..d]] + tl)
  {
    var fs := [s[..d]] + tl;
    var rest := s[d + 1..];
    var j :| 0 <= j < |s| && s[j] != sep;
    if j < d {
      assert fs[0][j] == s[j];
    } else {
      assert rest[j - d - 1] == s[j];
      var i :| 0 <= i < |tl| && tl[i] != "";
      assert fs[i + 1] != "";
    }
  }

  lemma FieldsNonEmptyOnlyIf(s: string, sep: char, d: nat, tl: seq<string>)
    requires d < |s| && sep !in s[..d] && SomeNonEmpty([s[..d]] + tl)
    requires SomeNonEmpty(tl) ==> SomeOther(s[d + 1..], sep)
    ensures SomeOther(s, sep)
  {
    var fs := [s[..d]] + tl;
    var rest := s[d + 1..];
    var i :| 0 <= i < |fs| && fs[i] != "";
    if i == 0 {
      assert s[0] == fs[0][0] && s[0] in s[..d];
    } else {
      assert tl[i - 1] != "";
      var j :| 0 <= j < |rest| && rest[j] != sep;
      assert s[d + 1 + j] == rest[j];
    }
  }

  /**
   * When `s` contains the separator, splitting yields at least two elements
   * exactly when some character after the first separator is not a
   * separator, and the first element is then the text before the first
   * separator.
   */
  lemma {:induction false} SplitShape(s: string, sep: char)
    requires sep in s
    ensures |Split(s, sep)| > 1 <==> SomeOther(s[IndexOf(s, sep) + 1..], sep)
    ensures |Split(s, sep)| > 1 ==> Split(s, sep)[0] == s[..IndexOf(s, sep)]
  {
    var d := IndexOf(s, sep);
    var fs := Fields(s, sep);
    var rest := s[d + 1..];
    assert fs == [s[..d]] + Fields(rest, sep);
    FieldsNonEmpty(rest, sep);
    var r := DropTrailingEmpty(fs);
    if |r| > 1 {
      assert Fields(rest, sep)[|r| - 2] == fs[|r| - 1] != "";
    }
    if SomeNonEmpty(Fields(rest, sep)) {
      var i :| 0 <= i < |Fields(rest, sep)| && Fields(rest, sep)[i] != "";
      assert fs[i + 1] != "";
    }
  }

  predicate IsDigit(c: char)
  {
    '0' <= c <= '9'
  }

  /** The number a string of decimal digits denotes. */
  function DigitsValue(s: string): nat
    requires forall i :: 0 <= i < |s| ==> IsDigit(s[i])
  {
    if s == [] then 0
    else
      assert IsDigit(s[|s| - 1]);
      DigitsValue(s[..|s| - 1]) * 10 + (s[|s| - 1] as int - '0' as int)
  }

  /**
   * `Long.toString(n)`: for `n >= 0` the digits of `n` with no leading zero;
   * for `n < 0` a '-' followed by the digits of `-n`.
   */
  function DecimalString(n: int): (r: string)
    ensures n >= 0 ==> |r| > 0 && (forall i :: 0 <= i < |r| ==> IsDigit(r[i])) && DigitsValue(r) == n
    ensures n > 0 ==> r[0] != '0'
    ensures n == 0 ==> r == "0"
    ensures n < 0 ==> |r| > 1 && r[0] == '-' && r[1..] == DecimalString(-n)
    decreases if n < 0 then 1 - n else n
  {
    if n < 0 then "-" + DecimalString(-n)
    else if n < 10 then [('0' as int + n) as char]
    else
      var high := DecimalString(n / 10);
      var low := DecimalString(n % 10);
      assert (high + low)[..|high + low| - 1] == high;
      high + low
  }
}
