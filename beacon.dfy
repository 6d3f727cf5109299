/** Which beacon entry seeds a round's randomness (wincount.go:92-97). */
module Beacon {
  import opened Types

  /** `rbase`: the last entry of the round's beacon entries, or the previous
      round's entry when the list is empty. It is never an entry from elsewhere. */
  function RandomnessBase(prev: BeaconEntry, entries: seq<BeaconEntry>): (r: BeaconEntry)
    ensures r == prev || r in entries
    ensures |entries| > 0 ==> r == entries[|entries| - 1]
    ensures |entries| == 0 ==> r == prev
  {
    if |entries| > 0 then entries[|entries| - 1] else prev
  }

  /** Beacon entries as the chain hands them over: each one of a later
      drand round than the one before it, the first later than `prev`. */
  predicate Chained(prev: BeaconEntry, entries: seq<BeaconEntry>) {
    && (|entries| > 0 ==> prev.round < entries[0].round)
    && forall k :: 0 <= k < |entries| - 1 ==> entries[k].round < entries[k + 1].round
  }

  /** The chosen entry is the latest one available: the last of the list
      when there is one, `prev` otherwise, and no available entry is of a
      later round. */
  lemma {:induction false} RandomnessBaseIsLatest(prev: BeaconEntry, entries: seq<BeaconEntry>)
    requires Chained(prev, entries)
    ensures |entries| > 0 ==> RandomnessBase(prev, entries) == entries[|entries| - 1]
    ensures |entries| == 0 ==> RandomnessBase(prev, entries) == prev
    ensures prev.round <= RandomnessBase(prev, entries).round
    ensures forall k :: 0 <= k < |entries| ==> entries[k].round <= RandomnessBase(prev, entries).round
    decreases |entries|
  {
    if |entries| > 1 {
      var front := entries[..|entries| - 1];
      assert Chained(prev, front);
      RandomnessBaseIsLatest(prev, front);
      assert RandomnessBase(prev, front) == entries[|entries| - 2];
    }
  }
}
