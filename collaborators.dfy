/** The code `wincount.go` calls but does not contain: the full-node API,
    `gen.IsRoundWinner`, `store.DrawRandomness`, address and JSON encoding,
    the native proving library (filecoin-ffi), the seal-proof table of
    `abi.RegisteredSealProof` and the output file. Each becomes a total
    function, so a call with the same arguments always gets the same answer. */
module Collaborators {
  import opened Wrappers
  import opened Types

  /** `crypto.DomainSeparationTag`, of which the program uses one value. */
  datatype DomainSeparationTag = WinningPoStChallengeSeed

  datatype Env = Env(
    /** `api.ChainGetTipSetByHeight(ctx, height, EmptyTSK)` */
    chainGetTipSetByHeight: int -> Result<TipSet, Error>,
    /** `api.MinerGetBaseInfo(ctx, addr, round, tipSetKey)` */
    minerGetBaseInfo: (Address, int, seq<Byte>) -> Result<MiningBaseInfo, Error>,
    /** `gen.IsRoundWinner(ctx, ts, round, addr, rbase, mbi, api)`; `None` is a nil winner */
    isRoundWinner: (TipSet, int, Address, BeaconEntry, MiningBaseInfo) -> Result<Option<ElectionProof>, Error>,
    /** `address.IDFromAddress` */
    idFromAddress: Address -> Result<ActorId, Error>,
    /** `abi.RegisteredSealProof.RegisteredWinningPoStProof` */
    registeredWinningPoStProof: int -> Result<int, Error>,
    /** the reordering done by `ffi.NewSortedPrivateSectorInfo` */
    sortPrivateSectors: seq<PrivateSectorInfo> -> seq<PrivateSectorInfo>,
    /** `addr.MarshalCBOR` */
    marshalAddress: Address -> Result<seq<Byte>, Error>,
    /** `store.DrawRandomness(beaconData, tag, round, entropy)` */
    drawRandomness: (seq<Byte>, DomainSeparationTag, int, seq<Byte>) -> Result<seq<Byte>, Error>,
    /** `ffi.GenerateWinningPoSt(minerID, sortedSectors, randomness)` */
    generateWinningPoSt: (ActorId, seq<PrivateSectorInfo>, seq<Byte>) -> Result<seq<PoStProof>, Error>,
    /** `json.Marshal` and `json.Unmarshal` of a `WinningOut` */
    marshalJson: WinningOut -> Result<seq<Byte>, Error>,
    unmarshalJson: seq<Byte> -> Result<WinningOut, Error>,
    /** `os.OpenFile(name, O_CREATE|O_RDWR, 0644)` and `f.Write(bytes)`; `Some` is an error */
    openOutFile: string -> Option<Error>,
    writeOutFile: (string, seq<Byte>) -> Option<Error>,
    /** `ffi.GenerateWinningPoStSectorChallenge(proofType, minerID, randomness, provingSetSize)` */
    generateWinningPoStSectorChallenge: (int, ActorId, seq<Byte>, nat) -> Result<seq<nat>, Error>,
    /** `ffi.VerifyWinningPoSt(info)`: its boolean and its error */
    verifyWinningPoSt: WinningPoStVerifyInfo -> (bool, Option<Error>))
}
