/**
 * The small parsers: the namespace taken from the host name, the provider
 * named by a string, and the conversion of org.json values into plain
 * maps, lists and scalars.
 */
module FirebaseUtils {
  import opened Wrappers
  import opened Enums
  import opened Json
  import opened JavaStrings

  /** The `IllegalArgumentException` thrown for a reference whose host has no usable namespace. */
  datatype ConfigurationError = InvalidReference(host: string)

  /**
   * `namespaceFromRef`, on the host of the reference: the first label of
   * `host.split("\\.")` when the split has at least two elements and that
   * label is not blank after `trim`.
   */
  function NamespaceFromHost(host: string): (r: Result<string, ConfigurationError>)
    ensures r.Err? ==> r.error == InvalidReference(host)
  {
    var fragments := Split(host, '.');
    if |fragments| > 1 && !IsBlank(fragments[0]) then Ok(fragments[0])
    else Err(InvalidReference(host))
  }

  /**
   * The namespace is accepted exactly when the host holds a '.', some
   * character after the first '.' is not a '.' (Java's `split` drops trailing
   * empty labels), and the text before the first '.' is not blank; it is then
   * that text, untrimmed.
   */
  lemma NamespaceCharacterized(host: string)
    ensures NamespaceFromHost(host).Ok? <==>
      && '.' in host
      && SomeOther(host[IndexOf(host, '.') + 1..], '.')
      && !IsBlank(host[..IndexOf(host, '.')])
    ensures NamespaceFromHost(host).Ok? ==>
      var ns := NamespaceFromHost(host).value;
      && ns == host[..IndexOf(host, '.')]
      && '.' !in ns && host[|ns|] == '.'
  {
    if '.' in host {
      SplitShape(host, '.');
    } else {
      assert Split(host, '.') == [host];
    }
  }

  /**
   * `Provider.valueOf`, with the exception for an unknown name caught: the
   * provider whose constant is named exactly `name`, else `Invalid`.
   */
  function ProviderNamed(name: string): (p: Provider)
    ensures ProviderName(p) == name || (p == Invalid && forall q :: ProviderName(q) != name)
  {
    if name == "PASSWORD" then Password
    else if name == "ANONYMOUS" then Anonymous
    else if name == "FACEBOOK" then Facebook
    else if name == "GOOGLE" then Google
    else if name == "TWITTER" then Twitter
    else Invalid
  }

  /** `providerForString`: null is `Invalid`; otherwise the trimmed, upper-cased name is looked up. */
  function ProviderForString(s: Option<string>): (p: Provider)
    ensures s.None? ==> p == Invalid
    ensures s.Some? && p != Invalid ==> ToUpperCase(Trim(s.value)) == ProviderName(p)
    ensures s.Some? && (exists q :: q != Invalid && ProviderName(q) == ToUpperCase(Trim(s.value))) ==> p != Invalid
  {
    match s
    case None => Invalid
    case Some(str) => ProviderNamed(ToUpperCase(Trim(str)))
  }

  /**
   * Case and surrounding blanks are ignored: any spelling of a provider's name
   * whose letters upper-case to it, padded with characters `trim` strips,
   * parses to that provider.
   */
  lemma {:induction false} ProviderForStringPadded(p: Provider, pre: string, word: string, post: string)
    requires forall i :: 0 <= i < |pre| ==> IsTrimmed(pre[i])
    requires forall i :: 0 <= i < |post| ==> IsTrimmed(post[i])
    requires ToUpperCase(word) == ProviderName(p)
    ensures ProviderForString(Some(pre + word + post)) == p
  {
    var n := ProviderName(p);
    assert n[0] != ' ' && n[|n| - 1] != ' ';
    assert !IsTrimmed(word[0]) by {
      assert UpperChar(word[0]) == n[0];
    }
    assert !IsTrimmed(word[|word| - 1]) by {
      assert UpperChar(word[|word| - 1]) == n[|n| - 1];
    }
    TrimPadded(pre, word, post);
  }

  /** The values `fromJson` returns: null, Java scalars, `List`s and `Map`s. */
  datatype Plain =
    | PNull
    | PBool(b: bool)
    | PNumber(n: int)
    | PString(s: string)
    | PList(items: seq<Plain>)
    | PMap(entries: map<string, Plain>)

  /** `fromJson`: JSON null becomes null, objects and arrays are converted, scalars are kept. */
  function FromJson(j: Json): (v: Plain)
    ensures j == JNull <==> v == PNull
    ensures j.JObject? <==> v.PMap?
    ensures j.JArray? <==> v.PList?
    decreases j, 1
  {
    match j
    case JNull => PNull
    case JBool(b) => PBool(b)
    case JNumber(n) => PNumber(n)
    case JString(s) => PString(s)
    case JArray(items) => PList(ToList(Some(items)))
    case JObject(fields) => PMap(ToMap(Some(fields)))
  }

  /** `toMap`: exactly the object's keys, each value converted; null gives an empty map. */
  function ToMap(obj: Option<JsonObject>): (m: map<string, Plain>)
    ensures obj.None? ==> m == map[]
    ensures obj.Some? ==> m.Keys == obj.value.Keys
    ensures obj.Some? ==> forall k :: k in m ==> m[k] == FromJson(obj.value[k])
    decreases if obj.Some? then JObject(obj.value) else JNull, 0
  {
    match obj
    case None => map[]
    case Some(o) => map k | k in o :: FromJson(o[k])
  }

  /** `toList`: the same length, element by element in order; null gives an empty list. */
  function ToList(arr: Option<seq<Json>>): (l: seq<Plain>)
    ensures arr.None? ==> l == []
    ensures arr.Some? ==> |l| == |arr.value|
    ensures arr.Some? ==> forall i :: 0 <= i < |l| ==> l[i] == FromJson(arr.value[i])
    decreases if arr.Some? then JArray(arr.value) else JNull, 0
  {
    match arr
    case None => []
    case Some(a) => seq(|a|, i requires 0 <= i < |a| => FromJson(a[i]))
  }

  /** The reverse conversion, the reference that shows `fromJson` loses nothing. */
  function ToJson(v: Plain): Json
  {
    match v
    case PNull => JNull
    case PBool(b) => JBool(b)
    case PNumber(n) => JNumber(n)
    case PString(s) => JString(s)
    case PList(items) => JArray(seq(|items|, i requires 0 <= i < |items| => ToJson(items[i])))
    case PMap(entries) => JObject(map k | k in entries :: ToJson(entries[k]))
  }

  /** Converting and converting back gives the original JSON value. */
  lemma {:induction false} FromJsonRoundTrip(j: Json)
    ensures ToJson(FromJson(j)) == j
    decreases j
  {
    match j
    case JArray(items) =>
      var l := ToList(Some(items));
      forall i | 0 <= i < |items| ensures ToJson(l[i]) == items[i] {
        FromJsonRoundTrip(items[i]);
      }
      assert ToJson(FromJson(j)).items == items;
    case JObject(fields) =>
      var m := ToMap(Some(fields));
      forall k | k in fields ensures ToJson(m[k]) == fields[k] {
        FromJsonRoundTrip(fields[k]);
      }
      assert ToJson(FromJson(j)).fields == fields;
    case _ =>
  }

  /** Every plain value is the conversion of some JSON value, so `fromJson` is onto. */
  lemma {:induction false} ToJsonRoundTrip(v: Plain)
    ensures FromJson(ToJson(v)) == v
    decreases v
  {
    match v
    case PList(items) =>
      var a := ToJson(v).items;
      forall i | 0 <= i < |items| ensures FromJson(a[i]) == items[i] {
        ToJsonRoundTrip(items[i]);
      }
      assert FromJson(ToJson(v)).items == items;
    case PMap(entries) =>
      var o := ToJson(v).fields;
      forall k | k in entries ensures FromJson(o[k]) == entries[k] {
        ToJsonRoundTrip(entries[k]);
      }
      assert FromJson(ToJson(v)).entries == entries;
    case _ =>
  }
}
