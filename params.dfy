/**
 * `URLSearchParams` as an ordered list of key/value pairs. Percent-encoding
 * and `toString()` are not modelled: a URL is its base plus the pair list.
 */
module Params {

  import opened Wrappers

  type Pair = (string, string)

  /** The keys of a parameter list, in order. */
  function Keys(q: seq<Pair>): (ks: seq<string>)
    ensures |ks| == |q|
    ensures forall i | 0 <= i < |q| :: ks[i] == q[i].0
  {
    seq(|q|, i requires 0 <= i < |q| => q[i].0)
  }

  /** `params.get(key)`: the value of the first pair with that key. */
  function Lookup(q: seq<Pair>, key: string): (r: Option<string>)
    ensures r.None? <==> key !in Keys(q)
    ensures r.Some? ==> (key, r.value) in q
  {
    if q == [] then None
    else if q[0].0 == key then Some(q[0].1)
    else
      assert Keys(q) == [q[0].0] + Keys(q[1..]);
      Lookup(q[1..], key)
  }

  /** The first pair with `key`, wherever it stands, is what `Lookup` finds. */
  lemma {:induction false} LookupAt(q: seq<Pair>, i: nat, key: string)
    requires i < |q| && q[i].0 == key && key !in Keys(q[..i])
    ensures Lookup(q, key) == Some(q[i].1)
  {
    if i > 0 {
      assert q[0].0 == Keys(q[..i])[0];
      assert q[1..][..i - 1] == q[..i][1..];
      assert Keys(q[1..][..i - 1]) == Keys(q[..i])[1..];
      LookupAt(q[1..], i - 1, key);
    }
  }

  /** Reading `Lookup` off the key list: a key's first occurrence gives its value. */
  lemma LookupByKeys(q: seq<Pair>, ks: seq<string>, i: nat)
    requires Keys(q) == ks && i < |ks| && ks[i] !in ks[..i]
    ensures Lookup(q, ks[i]) == Some(q[i].1)
  {
    assert Keys(q[..i]) == ks[..i];
    LookupAt(q, i, ks[i]);
  }

  /** With distinct keys, `Lookup` finds every pair of the list. */
  lemma DistinctKeysLookup(q: seq<Pair>, ks: seq<string>)
    requires Keys(q) == ks
    requires forall i, j | 0 <= i < j < |ks| :: ks[i] != ks[j]
    ensures forall i | 0 <= i < |q| :: Lookup(q, ks[i]) == Some(q[i].1)
  {
    forall i | 0 <= i < |q|
      ensures Lookup(q, ks[i]) == Some(q[i].1)
    {
      LookupByKeys(q, ks, i);
    }
  }

  /** A URL: the endpoint followed by `?` and its query string. */
  datatype Url = Url(base: string, query: seq<Pair>)
}
