/** The records of the Filecoin packages that `wincount.go` passes around
    (`abi`, `proof5`, `types`, `ffi`), reduced to the fields the program
    reads or writes. Byte strings are `seq<Byte>`, Go strings `string`. */
module Types {

  type Byte = bv8

  /** Go's `uint64`. */
  type Uint64 = x: nat | x < 0x1_0000_0000_0000_0000

  /** `abi.ActorID`: the numeric identity of a miner actor. */
  type ActorId = Uint64

  /** `abi.SectorNumber`. */
  type SectorNumber = Uint64

  /** The largest round the run loop visits: `abi.ChainEpoch` is an `int64`. */
  const MaxEpoch: nat := 0x7FFF_FFFF_FFFF_FFFF

  /** A miner address as given on the command line, kept opaque. */
  datatype Address = Address(text: string)

  /** `proof5.SectorInfo`: a sector's seal-proof variant, number and sealed CID. */
  datatype SectorInfo = SectorInfo(sealProof: int, sectorNumber: SectorNumber, sealedCid: seq<Byte>)

  /** `proof5.PoStProof`: a proof variant and the opaque proof bytes. */
  datatype PoStProof = PoStProof(postProof: int, proofBytes: seq<Byte>)

  /** `types.BeaconEntry`: a drand round and its signature bytes. */
  datatype BeaconEntry = BeaconEntry(round: Uint64, data: seq<Byte>)

  /** `types.TipSet`, of which the program only uses the key. */
  datatype TipSet = TipSet(key: seq<Byte>)

  /** The fields of `api.MiningBaseInfo` that the program reads. */
  datatype MiningBaseInfo = MiningBaseInfo(
    prevBeaconEntry: BeaconEntry,
    beaconEntries: seq<BeaconEntry>,
    sectors: seq<SectorInfo>)

  /** `types.ElectionProof`: a non-nil winner of a round. */
  datatype ElectionProof = ElectionProof(winCount: int, vrfProof: seq<Byte>)

  /** `ffi.PrivateSectorInfo`: where a sector lives on disk and which proof it takes. */
  datatype PrivateSectorInfo = PrivateSectorInfo(
    cacheDirPath: string,
    postProofType: int,
    sealedSectorPath: string,
    sectorInfo: SectorInfo)

  /** `proof5.WinningPoStVerifyInfo`: the whole input of the native verifier. */
  datatype WinningPoStVerifyInfo = WinningPoStVerifyInfo(
    randomness: seq<Byte>,
    proofs: seq<PoStProof>,
    challengedSectors: seq<SectorInfo>,
    prover: ActorId)

  /** `WinningOut`: the record a winning round saves and `verify` reads back. */
  datatype WinningOut = WinningOut(
    minerId: ActorId,
    sectors: seq<SectorInfo>,
    proofs: seq<PoStProof>,
    randomness: seq<Byte>)

  /** A Go `error`: one a collaborator returned, or one wrapped by
      `xerrors.Errorf("<context>: %w", cause)`. */
  datatype Error =
    | Native(message: string)
    | Wrapped(context: string, cause: Error)

  /** Why the process would stop with a Go runtime panic. */
  const IndexOutOfRange: string := "index out of range"
}
