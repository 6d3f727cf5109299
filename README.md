# Winning PoSt win counter, modelled in Dafny

`wincount.go` is a small Lotus tool with two commands:

- `run` walks the chain epochs `[begin, end]`. For each round it asks the node whether the miner `--actor` won. For a won round with `--path` set, it does four things:
  - builds the miner's private sector list;
  - draws and masks the Winning PoSt seed;
  - generates the winning proof, optionally saves it as JSON to `--out`;
  - verifies the proof again, the way a chain validator would.
- `verify` reads such a saved record back and verifies it.

The heavy work lives in code the file only calls. That includes:

- the election draw (`gen.IsRoundWinner`);
- the randomness hash (`store.DrawRandomness`);
- the native proof library (challenge sampling, proof generation and verification);
- the chain API, CBOR and JSON encoding, and the file system.

Each of these is a field of the datatype `Collaborators.Env`. Each field is a total function, so it always gives the same answer for the same arguments.

The model keeps the glue around those calls, in the shape the source has it:

- `Beacon` chooses the beacon entry a round's randomness comes from.
- `PoStRandomness` clears the two high bits of seed byte 31. `MaskInPlace` does this on an array, as the source does in place.
- `SectorPaths` is `pubSectorToPriv`: a loop that builds one private entry per sector, with its cache and sealed paths.
- `WinningVerify` is `verifyWinningPoSt`: a loop that copies the proving set, the proof type taken from the first sector, the challenge, and a loop that gathers the challenged sectors.
- `Commands` is the round loop of `run`:
  - `PlayRound` is the loop body, with its `continue` and `return` paths;
  - `RoundStep` is the function that specifies it;
  - `Run` and `RunRounds` are the loop;
  - `RunFrom` is its specification.
  - A round becomes a `RoundRecord`: skipped with the logged error, lost, or won (with the proof record, the bytes it saved and its verification).
  - A run ends with `Returned(err)` when the source returns an error. It ends with `Crashed(reason)` where Go would panic: an index out of range on a seed shorter than 32 bytes, or inside `verifyWinningPoSt`.
- `OutFile` shows what writing to the `--out` file does as written (see Findings).

## Model

| member | source | states |
|---|---|---|
| Beacon.RandomnessBase | wincount.go:92-97 | the chosen entry is the last beacon entry when there is one and `PrevBeaconEntry` otherwise; either way it is `PrevBeaconEntry` or one of the round's entries, never anything else |
| Beacon.RandomnessBaseIsLatest | wincount.go:92-97 | the chosen entry is the last beacon entry when there is one, and `PrevBeaconEntry` otherwise; when the entries come in increasing drand rounds, no available entry is of a later round than the chosen one |
| PoStRandomness.Masked | wincount.go:126-127 | the masked seed has the same length, byte 31 has its two high bits clear and keeps its low six bits, and every other byte is unchanged |
| PoStRandomness.MaskInPlace | wincount.go:127 | masking the seed's array in place leaves it holding exactly `Masked` of its old contents |
| PoStRandomness.MaskIdempotent | wincount.go:127 | masking twice equals masking once |
| PoStRandomness.MaskForgetsOnlyHighBits | wincount.go:127 | two seeds of equal length mask alike if and only if they differ at most in the two high bits of byte 31 |
| PoStRandomness.MaskedIsBelowFieldBound | wincount.go:126-127 | a masked 32-byte seed, read as a little-endian number, is below 2^254 |
| Format.Decimal | wincount.go:217 | `%d` of a number is a non-empty string of digits with no leading zero (only `0` starts with `0`) |
| Format.ParseDecimalInvertsDecimal | wincount.go:217 | parsing the `%d` text of a number gives the number back |
| Format.DecimalInjective | wincount.go:217-219 | different numbers have different `%d` texts |
| SectorPaths.PathShapes | wincount.go:217-219 | a cache path is `path`, `/cache/s-t0`, the miner's `%d` digits, `-` and the sector's `%d` digits, with those lengths; a sealed path likewise with `/sealed/s-t0` |
| SectorPaths.CachePathInjective | wincount.go:217 | two (miner, sector) pairs share a cache directory under the same `path` only if they are equal |
| SectorPaths.SealedPathInjective | wincount.go:219 | two (miner, sector) pairs share a sealed file under the same `path` only if they are equal |
| SectorPaths.CacheAndSealedPathsDiffer | wincount.go:217-219 | a cache directory is never also a sealed file |
| SectorPaths.PrivateEntries | wincount.go:208-222 | the list succeeds if and only if every sector's seal proof has a Winning PoSt proof type; then there is one entry per sector, in input order, with the cache path, sealed path, proof type and sector of that sector; otherwise the error is that of the first failing sector |
| SectorPaths.PubSectorToPriv | wincount.go:206-225 | the loop returns the library's sort of exactly that list, or the error of the first failing sector |
| WinningVerify.CopyProvingSet | wincount.go:229-237 | the proving set has the length of `sectorInfo`, and each position has the same seal proof, sector number and sealed CID, in the same order |
| WinningVerify.Gather | wincount.go:249-252 | the challenged list has one entry per index, and entry `k` is the proving-set sector at `indices[k]`, repeats included |
| WinningVerify.GatherChallenged | wincount.go:249-252 | the gathering loop completes exactly when every index is below the size of the proving set, and then returns `Gather`; otherwise it is the index panic |
| WinningVerify.VerifyInfo | wincount.go:238-252 | an empty `sectorInfo` panics; a proof-type error of the first sector, or a challenge error, gives `(false, err)`; an index out of range panics; otherwise the verifier is given the randomness, the proofs, the miner, and entry `k` = `sectorInfo[indices[k]]`, where the challenge was drawn for the full size of the proving set |
| WinningVerify.VerifySpec | wincount.go:238-258 | when the verifier input can be built, the outcome is exactly what the native verifier returns for it, so a verification can be false without an error; otherwise it is the outcome `VerifyInfo` ends with: the panic on an empty `sectorInfo`, `(false, err)` for a proof-type or challenge error, or the index panic |
| WinningVerify.VerifyWinningPoSt | wincount.go:227-259 | the imperative function reaches exactly the outcome `VerifySpec` states |
| OutFile.OverwriteFromStart | wincount.go:144-149 | writing `b` to a file opened without truncation gives content that starts with `b`, is as long as the longer of the two, and keeps the old bytes after `b` |
| OutFile.StaleTailSurvives | wincount.go:144-149 | whenever the new record is shorter than the old content, the file does not end up holding the record: an old tail stays behind |
| OutFile.StaleTailExample | wincount.go:144-149 | writing `{}` over `{}}` leaves `{}}` |
| Commands.Elect | wincount.go:81-102 | an election rests on the tipset at height `round - 1`, the miner's base info at that tipset, the beacon entry `RandomnessBase` picks from it, and the winner check on exactly those; it fails with the error of the first of the three calls that fails, and succeeds with exactly those answers when none fails |
| Commands.Save | wincount.go:132-153 | with an empty `--out` nothing is saved; otherwise a save writes the JSON of the record after the file opened, and fails with the error of the first step that fails (marshal, open, write), and only then |
| Commands.Prove | wincount.go:106-155 | a proof is built exactly when every call on the way succeeds (`ProverSucceeds`); a built proof carries `ProofFacts`: the miner ID, the sectors, the masked draw from the chosen entry, the proofs the generator returned for the sorted private list and that seed, the saved JSON with the file opened and written exactly when `--out` is set, and its own verification; a failed call ends the run; a built proof ends it only when its verification panicked |
| Commands.RoundStep | wincount.go:79-157 | one pass of the loop body. A round is skipped exactly when a lookup or the winner check fails, and a skip never ends the run. A round is won exactly when the winner is non-nil, and it records the win count and sectors. Only a won round with `--path` set is proven or ends the run; such a round is proven exactly when every call on the way succeeds, and otherwise the run ends. A proof that was built carries `ProofFacts` (see `Commands.Prove`). A false or failed verification does not end the run; a panic in it does, as `Crashed` with the panic's reason |
| Commands.RoundAbortReasons | wincount.go:106-153 | a won round with `--path` set ends the run with the error of the first failing call: ID conversion, sector conversion, address marshalling (wrapped with its context), randomness draw (wrapped with its context), proof generation, or the save; a draw shorter than 32 bytes ends it with the index panic |
| Commands.PlayRound | wincount.go:80-157 | the imperative loop body, with its `continue` and `return` paths and the in-place mask, produces exactly `RoundStep` |
| Commands.RunFrom | wincount.go:79-158 | the records of a run are the records of its rounds in order; there are at most as many as the rounds in range, and exactly as many when no round stops the run |
| Commands.Run | wincount.go:77-160 | the imperative `run` loop over `[begin, end]` produces exactly the records, final output file and early end that `RunFrom` states |
| Commands.RunRounds | wincount.go:79-158 | the loop, proved against any loop body `steps`, with invariant "records so far followed by the run from round `i` is the run from `begin`" |
| Commands.RunVisitsRoundsInOrder | wincount.go:77-81 | rounds are visited in ascending order, each once, with round `begin + k` at position `k` looking up height `begin + k - 1`; none is visited when `begin > end` |
| Commands.RunCompletesUnlessARoundStops | wincount.go:79-157 | a run ends early if and only if some round of the range ends it |
| Commands.RunStopsAtLastRecord | wincount.go:106-153 | a run that ends early ends at its last recorded round, with that round's reason |
| Commands.RunGoesOnBeforeLastRecord | wincount.go:79-157 | no round before the last recorded one ended the run |
| Commands.EveryRoundUntilAStopIsRecorded | wincount.go:81-102 | every round that no earlier round stopped is visited with its own outcome; a round whose lookup or winner check fails is recorded as skipped with that error, and the next round is still visited |
| Commands.RunFileIsLastSaved | wincount.go:132-153 | for the truncating write (see Findings): the file a run leaves behind is the result of the saves of its records, in order |
| Commands.RunFileIsLastSave | wincount.go:132-153 | for the truncating write (see Findings): the file a run leaves behind holds exactly the bytes of its last saving round |
| Commands.RecordedProofIsSound | wincount.go:103-155 | a saved record of a run belongs to a won round with `--path` set, and its proof carries `ProofFacts` for that round |
| Commands.VerifyCommand | wincount.go:172-196 | `verify` with an empty `--in` does nothing; it verifies exactly when the file was read and decoded, and then reaches `verifyWinningPoSt` on the decoded record; otherwise it returns the read or decode error |
| Commands.ProofReplays | wincount.go:172-192 | when JSON decoding undoes JSON encoding, `verify --in` on the saved bytes of a proof reaches the verification that `run` printed for it |
| Commands.SavedRecordReplays | wincount.go:132-192 | for the truncating write (the corrected half of Findings), prover and verifier agree: `verify` on the file a run leaves behind reaches the very verification its last saving round printed |
| Commands.ChallengedSectorsAreProvedSectors | wincount.go:209-251 | position `indices[k]` of the private list before sorting holds the verifier's `k`-th challenged sector, with its own cache directory and sealed file; when the library's sort only reorders (`SortPermutes`), that entry is in the sorted list the proof generator receives |

## Left out

- `gen.IsRoundWinner` is the field `Env.isRoundWinner`. The election draw and its constants are not modelled.
- `store.DrawRandomness` is the field `Env.drawRandomness`, and CBOR address marshalling is `Env.marshalAddress`. Seed hashing is not modelled.
- The native library is a set of `Env` fields: challenge sampling, proof generation and proof verification. Proof-type lookup and the sort of `ffi.NewSortedPrivateSectorInfo` are `Env` fields too, since their keys and tables are not in this file.
- JSON encoding and decoding of `WinningOut` are `Env.marshalJson` and `Env.unmarshalJson`. The byte format is not modelled. `ProofReplays` and `SavedRecordReplays` assume the decoding undoes the encoding.
- File system calls are `Env` fields:
  - opening and writing the output file (`Env.openOutFile`, `Env.writeOutFile`);
  - the open and read of `verify`, which are the `read` parameter of `VerifyCommand`.
- The run model does not include file handles, or the `defer f.Close()` inside the loop, which keeps every handle open until the command returns.
- The CLI parts are not modelled. This covers flag parsing, the node API connection, the `--actor` address parsing and the request context. Flags enter as `Config` and as the arguments of `Run`.
- Logging and printing are not modelled. A logged error is the error inside `Skipped`. The printed win line and the printed verification are the fields of `Won` and `Proof`.
- A nil base info returned together with a nil error is not modelled. In the source this would be a nil dereference. In the model, `Env.minerGetBaseInfo` always gives a value or an error.
- Commands.Run: requires `end <= 2^63 - 1`. Larger values are left out. In the source, a range ending at the largest `uint64` never terminates, and epochs past `2^63 - 1` wrap when cast to `int64`. Round 0 looks up height `-1`, which is what the source's wrap-around and cast give.
- Commands.Run: the output file is replaced by each save (a truncating write), not overwritten from the start as the source does (see Findings).
- RunFileIsLastSaved, RunFileIsLastSave and SavedRecordReplays hold for that truncating write, not for the source's write as it stands, which can leave a stale tail (see Findings).
- ChallengedSectorsAreProvedSectors assumes the library's sort only reorders its input (`SectorPaths.SortPermutes`); the sort itself is not in this file, so where a challenged entry lands in the sorted list is not modelled.
- The model treats `Env` as fixed for the whole run, so the chain and file system answer the same question the same way every time.

## Findings

| source | as written | input that shows it | evidently intended | confidence | as-written member | corrected member |
|---|---|---|---|---|---|---|
| wincount.go:144 | `--out` is opened with `O_CREATE\|O_RDWR` and no `O_TRUNC`, and `f.Write(b)` writes the JSON over the start of the old content | an `--out` file that already holds `{}}` (or a longer record from an earlier winning round of the same run), then a new record `{}`: the file ends up holding `{}}`, which `verify` cannot decode | the file holds exactly the last saved record, so `verify` replays the last printed verification | not executed | OutFile.StaleTailSurvives | Commands.SavedRecordReplays |
