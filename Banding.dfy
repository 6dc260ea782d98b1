/** A ladder of strict `>` comparisons against ascending cut points, the shape
    of every threshold chain in the credit app (`a if s > c2 else b if s > c1
    else c`). The band of a score is the number of cut points it lies strictly
    above; this is the reference each of the app's chains is checked against. */
module Banding {

  /** The cut points are strictly increasing. */
  predicate Ascending(cuts: seq<real>) {
    forall i, j :: 0 <= i < j < |cuts| ==> cuts[i] < cuts[j]
  }

  /** The number of cut points that `score` lies strictly above. */
  function BandIndex(score: real, cuts: seq<real>): (k: nat)
    ensures k <= |cuts|
  {
    if cuts == [] then 0 else (if score > cuts[0] then 1 else 0) + BandIndex(score, cuts[1..])
  }

  /** A higher score never falls in a lower band. */
  lemma {:induction false} BandIndexMonotone(s1: real, s2: real, cuts: seq<real>)
    requires s1 <= s2
    ensures BandIndex(s1, cuts) <= BandIndex(s2, cuts)
  {
    if cuts != [] {
      BandIndexMonotone(s1, s2, cuts[1..]);
    }
  }

  /** On ascending cuts the band index k splits the cuts: the score is above
      every cut before position k and at or below every cut from k on. */
  lemma {:induction false} BandIndexSplits(score: real, cuts: seq<real>)
    requires Ascending(cuts)
    ensures forall i :: 0 <= i < BandIndex(score, cuts) ==> score > cuts[i]
    ensures forall i :: BandIndex(score, cuts) <= i < |cuts| ==> score <= cuts[i]
  {
    if cuts != [] {
      var rest := cuts[1..];
      BandIndexSplits(score, rest);
      if score <= cuts[0] {
        assert forall i :: 0 <= i < |rest| ==> cuts[0] < rest[i] by {
          forall i | 0 <= i < |rest| ensures cuts[0] < rest[i] {
            assert rest[i] == cuts[i + 1];
          }
        }
      } else {
        forall i | 1 <= i < |cuts|
          ensures i < BandIndex(score, cuts) ==> score > cuts[i]
          ensures BandIndex(score, cuts) <= i ==> score <= cuts[i]
        {
          assert cuts[i] == rest[i - 1];
        }
      }
    }
  }

  /** Band k is exactly the half-open interval (cuts[k-1], cuts[k]], open
      below the lowest cut and unbounded above the highest one. */
  lemma BandIndexExact(score: real, cuts: seq<real>, k: nat)
    requires Ascending(cuts)
    requires k <= |cuts|
    ensures BandIndex(score, cuts) == k <==>
              (k == 0 || score > cuts[k - 1]) && (k == |cuts| || score <= cuts[k])
  {
    BandIndexSplits(score, cuts);
  }
}
