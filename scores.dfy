/**
 * An emotion score dictionary as the detector builds it: a Python dict,
 * represented by its entries in insertion (iteration) order.
 */
module Scores {
  import opened Options

  datatype Entry = Entry(key: string, score: real)

  /** Entries in the order a Python dict iterates them. */
  type ScoreMap = seq<Entry>

  /** The keys of the dict, in iteration order. */
  function Keys(m: ScoreMap): (ks: seq<string>)
  {
    seq(|m|, i requires 0 <= i < |m| => m[i].key)
  }

  /** A Python dict never holds the same key twice. */
  predicate DistinctKeys(m: ScoreMap)
  {
    forall i, j :: 0 <= i < j < |m| ==> m[i].key != m[j].key
  }

  /** `d[key]`, or None where Python would raise KeyError. */
  function Get(m: ScoreMap, key: string): (r: Option<real>)
    ensures r.None? <==> key !in Keys(m)
  {
    if |m| == 0 then None
    else if m[0].key == key then
      assert Keys(m)[0] == key;
      Some(m[0].score)
    else
      assert Keys(m) == [m[0].key] + Keys(m[1..]);
      Get(m[1..], key)
  }

  /** In a well-formed dict, looking up the key of entry i yields entry i's score. */
  lemma {:induction false} GetAt(m: ScoreMap, i: nat)
    requires DistinctKeys(m) && i < |m|
    ensures Get(m, m[i].key) == Some(m[i].score)
  {
    if i > 0 {
      assert m[0].key != m[i].key;
      assert m[1..][i - 1] == m[i];
      GetAt(m[1..], i - 1);
    }
  }
}
