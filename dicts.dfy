/** Ordered dictionaries with string keys.

    A Python dict iterates in insertion order, and the documents built from an
    OpenAPI file depend on that order, so a dict is modelled as an association
    list. A dict that Python actually holds never has a key twice
    (DistinctKeys); lookup returns the first match. */
module Dicts {

  datatype Option<+T> = None | Some(value: T)

  /** The keys of d, in iteration order (Python's d.keys()). */
  function Keys<V>(d: seq<(string, V)>): (ks: seq<string>)
    ensures |ks| == |d|
    ensures forall i :: 0 <= i < |d| ==> ks[i] == d[i].0
  {
    if d == [] then [] else [d[0].0] + Keys(d[1..])
  }

  /** No key occurs twice, as in every Python dict. */
  predicate DistinctKeys<V>(d: seq<(string, V)>)
  {
    forall i, j :: 0 <= i < j < |d| ==> d[i].0 != d[j].0
  }

  /** Python's `k in d`. */
  predicate Has<V>(d: seq<(string, V)>, k: string)
  {
    k in Keys(d)
  }

  /** Python's d[k], or None where Python raises KeyError. */
  function Get<V>(d: seq<(string, V)>, k: string): (r: Option<V>)
    ensures r.Some? <==> k in Keys(d)
    ensures r.Some? ==> exists i :: 0 <= i < |d| && d[i] == (k, r.value)
  {
    if d == [] then None
    else if d[0].0 == k then Some(d[0].1)
    else Get(d[1..], k)
  }

  /** Python's d.get(k, default). */
  function GetOr<V>(d: seq<(string, V)>, k: string, default: V): (r: V)
    ensures Get(d, k).Some? ==> r == Get(d, k).value
    ensures Get(d, k).None? ==> r == default
  {
    match Get(d, k)
    case Some(v) => v
    case None => default
  }

  /** In a dict, the value stored at position i is what lookup of its key returns. */
  lemma {:induction false} GetAt<V>(d: seq<(string, V)>, i: nat)
    requires DistinctKeys(d)
    requires i < |d|
    ensures Get(d, d[i].0) == Some(d[i].1)
  {
    if i > 0 {
      assert d[0].0 != d[i].0;
      assert d[1..][i - 1] == d[i];
      GetAt(d[1..], i - 1);
    }
  }

  /** Python's assignment d[k] = v: an existing key keeps its position and
      takes the new value, a new key is appended at the end. */
  function Put<V>(d: seq<(string, V)>, k: string, v: V): (r: seq<(string, V)>)
    ensures Keys(r) == if k in Keys(d) then Keys(d) else Keys(d) + [k]
    ensures k !in Keys(d) ==> r == d + [(k, v)]
  {
    if d == [] then [(k, v)]
    else if d[0].0 == k then [(k, v)] + d[1..]
    else
      var rest := Put(d[1..], k, v);
      assert Keys(d) == [d[0].0] + Keys(d[1..]);
      assert Keys([d[0]] + rest) == [d[0].0] + Keys(rest) by {
        assert ([d[0]] + rest)[1..] == rest;
      }
      assert k !in Keys(d) ==> [d[0]] + rest == d + [(k, v)] by {
        if k !in Keys(d) {
          assert d == [d[0]] + d[1..];
        }
      }
      [d[0]] + rest
  }

  /** After d[k] = v, looking up k gives v and every other key is unaffected. */
  lemma {:induction false} PutGet<V>(d: seq<(string, V)>, k: string, v: V, k': string)
    ensures Get(Put(d, k, v), k') == if k' == k then Some(v) else Get(d, k')
  {
    if d != [] && d[0].0 != k {
      var r := Put(d, k, v);
      assert r[1..] == Put(d[1..], k, v);
      PutGet(d[1..], k, v, k');
    }
  }

  /** Lookup in a one-entry dict. */
  lemma GetOne<V>(k0: string, v0: V, k: string)
    ensures Get([(k0, v0)], k) == if k == k0 then Some(v0) else None
  {
    assert [(k0, v0)][1..] == [];
  }

  /** Lookup in a two-entry dict. */
  lemma GetTwo<V>(k0: string, v0: V, k1: string, v1: V, k: string)
    ensures Get([(k0, v0), (k1, v1)], k) == if k == k0 then Some(v0) else if k == k1 then Some(v1) else None
  {
    assert [(k0, v0), (k1, v1)][1..] == [(k1, v1)];
    GetOne(k1, v1, k);
  }
}
