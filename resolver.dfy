/**
 * The label resolution of `camera_loop`: `max(extracted_emo, key=extracted_emo.get)`
 * followed by the override to "neutral" when the winning score is 0.
 */
module Resolver {
  import opened Options
  import opened Scores

  const Neutral: string := "neutral"

  /** Entry k holds the largest score and no earlier entry reaches it. */
  ghost predicate IsFirstMax(m: ScoreMap, k: nat)
  {
    && k < |m|
    && (forall j :: 0 <= j < |m| ==> m[j].score <= m[k].score)
    && (forall j :: 0 <= j < k ==> m[j].score < m[k].score)
  }

  /**
   * The index Python's `max` with a key function lands on: it scans the
   * entries in order and replaces its candidate only by a strictly greater one.
   */
  function MaxIndex(m: ScoreMap): (k: nat)
    requires |m| > 0
    ensures IsFirstMax(m, k)
  {
    if |m| == 1 then 0
    else
      var k := MaxIndex(m[..|m| - 1]);
      if m[|m| - 1].score > m[k].score then |m| - 1 else k
  }

  /** At most one index is the first maximum. */
  lemma FirstMaxUnique(m: ScoreMap, k1: nat, k2: nat)
    requires IsFirstMax(m, k1) && IsFirstMax(m, k2)
    ensures k1 == k2
  {
    assert m[k1].score <= m[k2].score && m[k2].score <= m[k1].score;
  }

  /**
   * The resolved label, or None where `max` of an empty dict raises ValueError.
   */
  function Resolve(m: ScoreMap): (r: Option<string>)
    requires DistinctKeys(m)
    ensures r.None? <==> |m| == 0
    ensures r.Some? ==> r.value == Neutral || r.value in Keys(m)
  {
    if |m| == 0 then None
    else
      var k := MaxIndex(m);
      var winner := m[k].key;
      GetAt(m, k);
      if Get(m, winner) == Some(0.0) then Some(Neutral) else Some(winner)
  }

  /**
   * Resolve returns the key of the first entry with the largest score, unless
   * that score is 0, in which case it returns "neutral".
   */
  lemma ResolveFirstMax(m: ScoreMap, k: nat)
    requires DistinctKeys(m) && IsFirstMax(m, k)
    ensures Resolve(m) == Some(if m[k].score == 0.0 then Neutral else m[k].key)
  {
    FirstMaxUnique(m, k, MaxIndex(m));
    GetAt(m, k);
  }

  /** A largest score of 0 resolves to "neutral", whichever key holds it. */
  lemma ZeroMaxIsNeutral(m: ScoreMap, k: nat)
    requires DistinctKeys(m) && k < |m| && m[k].score == 0.0
    requires forall j :: 0 <= j < |m| ==> m[j].score <= 0.0
    ensures Resolve(m) == Some(Neutral)
  {
    var w := MaxIndex(m);
    assert m[w].score == 0.0 by { assert m[k].score <= m[w].score; }
    ResolveFirstMax(m, w);
  }

  /** The all-zero "no face" map resolves to "neutral". */
  lemma AllZeroIsNeutral(m: ScoreMap)
    requires DistinctKeys(m) && |m| > 0
    requires forall j :: 0 <= j < |m| ==> m[j].score == 0.0
    ensures Resolve(m) == Some(Neutral)
  {
    ZeroMaxIsNeutral(m, 0);
  }

  /** A strictly largest non-zero score wins. */
  lemma UniqueMaxWins(m: ScoreMap, k: nat)
    requires DistinctKeys(m) && k < |m| && m[k].score != 0.0
    requires forall j :: 0 <= j < |m| && j != k ==> m[j].score < m[k].score
    ensures Resolve(m) == Some(m[k].key)
  {
    ResolveFirstMax(m, k);
  }

  /**
   * Among tied maxima the earliest key in iteration order wins: if entries
   * i < j both hold the largest non-zero score, the label is never key j.
   */
  lemma TieGoesToEarlierKey(m: ScoreMap, i: nat, j: nat)
    requires DistinctKeys(m) && i < j < |m|
    requires m[i].score == m[j].score != 0.0
    requires forall t :: 0 <= t < |m| ==> m[t].score <= m[i].score
    ensures Resolve(m) != Some(m[j].key)
  {
    var w := MaxIndex(m);
    ResolveFirstMax(m, w);
    assert m[w].score == m[i].score;
  }
}
