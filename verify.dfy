/** `verifyWinningPoSt` (wincount.go:227-259): rebuild the proving set,
    replay the challenge the prover answered, and hand exactly the
    challenged sectors to the native verifier. */
module WinningVerify {
  import opened Wrappers
  import opened Types
  import opened Collaborators

  /** What a call of `verifyWinningPoSt` comes to: the `(bool, error)` it
      returns, or a Go runtime panic on an index out of range. */
  datatype VerifyOutcome =
    | Verdict(ok: bool, err: Option<Error>)
    | Panicked(reason: string)

  /** The loop that copies each sector into `provingSet` field by field. */
  method CopyProvingSet(sectorInfo: seq<SectorInfo>) returns (provingSet: seq<SectorInfo>)
    ensures |provingSet| == |sectorInfo|
    ensures forall k :: 0 <= k < |sectorInfo| ==>
      && provingSet[k].sealProof == sectorInfo[k].sealProof
      && provingSet[k].sectorNumber == sectorInfo[k].sectorNumber
      && provingSet[k].sealedCid == sectorInfo[k].sealedCid
    ensures provingSet == sectorInfo
  {
    provingSet := [];
    var i := 0;
    while i < |sectorInfo|
      invariant 0 <= i <= |sectorInfo|
      invariant provingSet == sectorInfo[..i]
    {
      var s := sectorInfo[i];
      provingSet := provingSet + [SectorInfo(s.sealProof, s.sectorNumber, s.sealedCid)];
      i := i + 1;
    }
  }

  predicate AllBelow(indices: seq<nat>, n: nat) {
    forall k :: 0 <= k < |indices| ==> indices[k] < n
  }

  /** `challengedSectors`: for each challenge index in order, the sector at
      that position of the proving set, repeats included. */
  function Gather(provingSet: seq<SectorInfo>, indices: seq<nat>): (r: seq<SectorInfo>)
    requires AllBelow(indices, |provingSet|)
    ensures |r| == |indices|
    ensures forall k :: 0 <= k < |indices| ==> r[k] == provingSet[indices[k]]
    decreases |indices|
  {
    if indices == [] then []
    else Gather(provingSet, indices[..|indices| - 1]) + [provingSet[indices[|indices| - 1]]]
  }

  /** The gathering loop; `None` is the panic of `provingSet[idx]` on an
      index that is not below the size of the proving set. */
  method GatherChallenged(provingSet: seq<SectorInfo>, indices: seq<nat>) returns (r: Option<seq<SectorInfo>>)
    ensures r.Some? <==> AllBelow(indices, |provingSet|)
    ensures r.Some? ==> r.value == Gather(provingSet, indices)
  {
    var challenged: seq<SectorInfo> := [];
    var k := 0;
    while k < |indices|
      invariant 0 <= k <= |indices|
      invariant AllBelow(indices[..k], |provingSet|)
      invariant challenged == Gather(provingSet, indices[..k])
    {
      if indices[k] >= |provingSet| {
        return None;
      }
      assert indices[..k + 1][..k] == indices[..k];
      challenged := challenged + [provingSet[indices[k]]];
      k := k + 1;
    }
    assert indices[..k] == indices;
    r := Some(challenged);
  }

  /** The argument `verifyWinningPoSt` passes to `ffi.VerifyWinningPoSt`, or
      the outcome it ends with before getting there. */
  function VerifyInfo(env: Env, minerId: ActorId, sectorInfo: seq<SectorInfo>, proofs: seq<PoStProof>, randomness: seq<Byte>)
    : (r: Result<WinningPoStVerifyInfo, VerifyOutcome>)
    // an empty proving set panics on sectorInfo[0]
    ensures |sectorInfo| == 0 ==> r == Err(Panicked(IndexOutOfRange))
    // the proof type comes from the first sector, and its error is returned with false
    ensures |sectorInfo| > 0 && env.registeredWinningPoStProof(sectorInfo[0].sealProof).Err? ==>
      r == Err(Verdict(false, Some(env.registeredWinningPoStProof(sectorInfo[0].sealProof).error)))
    // the challenge is drawn for the full size of the proving set
    ensures |sectorInfo| > 0 && env.registeredWinningPoStProof(sectorInfo[0].sealProof).Ok? ==>
      var indices := env.generateWinningPoStSectorChallenge(
        env.registeredWinningPoStProof(sectorInfo[0].sealProof).value, minerId, randomness, |sectorInfo|);
      && (indices.Err? ==> r == Err(Verdict(false, Some(indices.error))))
      && (indices.Ok? && !AllBelow(indices.value, |sectorInfo|) ==> r == Err(Panicked(IndexOutOfRange)))
      && (indices.Ok? && AllBelow(indices.value, |sectorInfo|) ==>
            && r.Ok?
            && r.value.randomness == randomness && r.value.proofs == proofs && r.value.prover == minerId
            && |r.value.challengedSectors| == |indices.value|
            && forall k :: 0 <= k < |indices.value| ==> r.value.challengedSectors[k] == sectorInfo[indices.value[k]])
  {
    if |sectorInfo| == 0 then Err(Panicked(IndexOutOfRange))
    else
      match env.registeredWinningPoStProof(sectorInfo[0].sealProof)
      case Err(e) => Err(Verdict(false, Some(e)))
      case Ok(proofType) =>
        match env.generateWinningPoStSectorChallenge(proofType, minerId, randomness, |sectorInfo|)
        case Err(e) => Err(Verdict(false, Some(e)))
        case Ok(indices) =>
          if !AllBelow(indices, |sectorInfo|) then Err(Panicked(IndexOutOfRange))
          else Ok(WinningPoStVerifyInfo(randomness, proofs, Gather(sectorInfo, indices), minerId))
  }

  /** The outcome of `verifyWinningPoSt`. */
  function VerifySpec(env: Env, minerId: ActorId, sectorInfo: seq<SectorInfo>, proofs: seq<PoStProof>, randomness: seq<Byte>)
    : (r: VerifyOutcome)
    ensures r.Panicked? ==> r.reason == IndexOutOfRange
    // when the input cannot be built, the outcome is the one VerifyInfo ends with:
    // (false, err) for a proof-type or challenge error, or the index panic
    ensures VerifyInfo(env, minerId, sectorInfo, proofs, randomness).Err? ==>
      r == VerifyInfo(env, minerId, sectorInfo, proofs, randomness).error
    ensures VerifyInfo(env, minerId, sectorInfo, proofs, randomness).Ok? ==>
      var (ok, err) := env.verifyWinningPoSt(VerifyInfo(env, minerId, sectorInfo, proofs, randomness).value);
      r == Verdict(ok, err)
  {
    match VerifyInfo(env, minerId, sectorInfo, proofs, randomness)
    case Err(outcome) => outcome
    case Ok(info) =>
      var (ok, err) := env.verifyWinningPoSt(info);
      Verdict(ok, err)
  }

  method VerifyWinningPoSt(env: Env, minerId: ActorId, sectorInfo: seq<SectorInfo>, proofs: seq<PoStProof>, randomness: seq<Byte>)
    returns (outcome: VerifyOutcome)
    ensures outcome == VerifySpec(env, minerId, sectorInfo, proofs, randomness)
  {
    var provingSet := CopyProvingSet(sectorInfo);
    if |sectorInfo| == 0 {
      return Panicked(IndexOutOfRange);
    }
    var proofType := env.registeredWinningPoStProof(sectorInfo[0].sealProof);
    if proofType.Err? {
      return Verdict(false, Some(proofType.error));
    }
    var indices := env.generateWinningPoStSectorChallenge(proofType.value, minerId, randomness, |provingSet|);
    if indices.Err? {
      return Verdict(false, Some(indices.error));
    }
    var challengedSectors := GatherChallenged(provingSet, indices.value);
    if challengedSectors.None? {
      return Panicked(IndexOutOfRange);
    }
    var (ok, err) := env.verifyWinningPoSt(WinningPoStVerifyInfo(randomness, proofs, challengedSectors.value, minerId));
    outcome := Verdict(ok, err);
  }
}
