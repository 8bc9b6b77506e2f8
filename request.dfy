/** The outbound request `makeRequest` builds: host, path and query parameters in order. */
module Requests {
  import opened Wrappers

  /** One query parameter; a null value is kept as null. */
  datatype Param = Param(key: string, value: Option<string>)

  datatype Request = Request(host: string, path: string, query: seq<Param>)

  /** The parameters every request starts with, in this order. */
  function FixedParams(namespace: string, debug: bool): (q: seq<Param>)
    ensures |q| == if debug then 4 else 3
    ensures q[0] == Param("firebase", Some(namespace))
    ensures q[1] == Param("mobile", Some("android"))
    ensures q[2] == Param("transport", Some("json"))
    ensures debug ==> q[3] == Param("debug", Some("1"))
  {
    [Param("firebase", Some(namespace)), Param("mobile", Some("android")), Param("transport", Some("json"))]
      + (if debug then [Param("debug", Some("1"))] else [])
  }

  /** The set of keys of a parameter list. */
  function KeysOf(q: seq<Param>): set<string>
  {
    set i | 0 <= i < |q| :: q[i].key
  }

  /** Appending a parameter adds its key to the key set. */
  lemma KeysOfAppend(q: seq<Param>, p: Param)
    ensures KeysOf(q + [p]) == KeysOf(q) + {p.key}
  {
    var q' := q + [p];
    assert q'[|q|] == p;
    forall k | k in KeysOf(q)
      ensures k in KeysOf(q')
    {
      var i :| 0 <= i < |q| && q[i].key == k;
      assert q'[i] == q[i];
    }
  }

  /**
   * `q` lists each entry of `data` exactly once, in some order (a `HashMap`
   * enumerates its entries in no specified order).
   */
  predicate Enumerates(q: seq<Param>, data: map<string, Option<string>>)
  {
    && |q| == |data|
    && KeysOf(q) == data.Keys
    && (forall i :: 0 <= i < |q| ==> q[i].key in data && data[q[i].key] == q[i].value)
    && (forall i, j :: 0 <= i < j < |q| ==> q[i].key != q[j].key)
  }

  /**
   * Part way through enumerating `data`: `q` lists each entry whose key is no
   * longer in `remaining` exactly once.
   */
  predicate EnumeratesSoFar(q: seq<Param>, data: map<string, Option<string>>, remaining: set<string>)
  {
    && remaining <= data.Keys
    && |q| + |remaining| == |data|
    && (forall i :: 0 <= i < |q| ==> q[i].key in data && q[i].key !in remaining && data[q[i].key] == q[i].value)
    && (forall i, j :: 0 <= i < j < |q| ==> q[i].key != q[j].key)
    && KeysOf(q) == data.Keys - remaining
  }

  /** Nothing listed, every key remaining. */
  lemma EnumerationStarts(data: map<string, Option<string>>)
    ensures EnumeratesSoFar([], data, data.Keys)
  {
  }

  /** Listing one remaining entry keeps the enumeration exact. */
  lemma EnumerationStep(q: seq<Param>, data: map<string, Option<string>>, remaining: set<string>, key: string)
    requires EnumeratesSoFar(q, data, remaining)
    requires key in remaining
    ensures EnumeratesSoFar(q + [Param(key, data[key])], data, remaining - {key})
  {
    KeysOfAppend(q, Param(key, data[key]));
  }

  /** With no key remaining, every entry is listed exactly once. */
  lemma EnumerationEnds(q: seq<Param>, data: map<string, Option<string>>)
    requires EnumeratesSoFar(q, data, {})
    ensures Enumerates(q, data)
  {
  }

  /** A request for `path` carrying the fixed parameters and then one parameter per data entry. */
  predicate IsRequestFor(r: Request, host: string, path: string, namespace: string, debug: bool,
                         data: map<string, Option<string>>)
  {
    var fixed := FixedParams(namespace, debug);
    && r.host == host
    && r.path == path
    && |r.query| == |fixed| + |data|
    && r.query[..|fixed|] == fixed
    && Enumerates(r.query[|fixed|..], data)
  }

  /** A request lists a data entry's key, with its value, exactly when the entry is in the data. */
  lemma {:induction false} RequestCarriesData(r: Request, host: string, path: string, namespace: string,
                                              debug: bool, data: map<string, Option<string>>, k: string)
    requires IsRequestFor(r, host, path, namespace, debug, data)
    requires k in data
    ensures exists i :: |FixedParams(namespace, debug)| <= i < |r.query| && r.query[i] == Param(k, data[k])
  {
    var n := |FixedParams(namespace, debug)|;
    var rest := r.query[n..];
    assert k in KeysOf(rest);
    var i :| 0 <= i < |rest| && rest[i].key == k;
    assert r.query[n + i] == rest[i];
  }
}
