/** The `run` and `verify` commands of `wincount.go`: the loop over rounds
    `[begin, end]` with its skip and stop rules (wincount.go:77-160), and the
    re-verification of a saved record (wincount.go:172-196). */
module Commands {
  import opened Wrappers
  import opened Types
  import opened Collaborators
  import opened Beacon
  import opened PoStRandomness
  import opened SectorPaths
  import opened WinningVerify

  /** The flags of `run` the loop reads: `--actor`, `--path` when set, `--out`. */
  datatype Config = Config(actor: Address, path: Option<string>, out: string)

  /** What a won round with `--path` set got to: the record it built, the
      bytes it saved (when `--out` is not empty) and its verification. */
  datatype Proof = Proof(out: WinningOut, saved: Option<seq<Byte>>, verdict: VerifyOutcome)

  /** How a visited round went: skipped after a logged lookup or winner-check
      error, not won (nil winner), or won (and printed). */
  datatype Outcome =
    | Skipped(err: Error)
    | Lost
    | Won(winCount: int, sectors: seq<SectorInfo>, proof: Option<Proof>)

  /** One visited round: its number, the height of the tipset it looked up, its outcome. */
  datatype RoundRecord = RoundRecord(round: nat, lookupHeight: int, outcome: Outcome)

  /** Why the run ends early: `return err`, or a Go runtime panic. */
  datatype Stop = Returned(err: Error) | Crashed(reason: string)

  datatype Step = Step(record: RoundRecord, stop: Option<Stop>)

  datatype RunResult = RunResult(records: seq<RoundRecord>, file: seq<Byte>, stop: Option<Stop>)

  /** The chain state a round is decided on. */
  datatype Election = Election(tipSet: TipSet, baseInfo: MiningBaseInfo, rbase: BeaconEntry, winner: Option<ElectionProof>)

  const MarshalAddressContext: string := "failed to marshal miner address"
  const RandomnessContext: string := "failed to get randomness for winning post"

  /** The three lookups whose failure skips a round (wincount.go:81-102):
      the tipset at height `round - 1`, the miner's base info at that
      tipset, and the winner check against the chosen beacon entry. */
  function Elect(env: Env, cfg: Config, round: nat): (r: Result<Election, Error>)
    // an election rests on the tipset at height round - 1, the base info at that
    // tipset, the entry RandomnessBase picks from it, and the winner check on those
    ensures r.Ok? ==>
      && env.chainGetTipSetByHeight(round - 1) == Ok(r.value.tipSet)
      && env.minerGetBaseInfo(cfg.actor, round, r.value.tipSet.key) == Ok(r.value.baseInfo)
      && r.value.rbase == RandomnessBase(r.value.baseInfo.prevBeaconEntry, r.value.baseInfo.beaconEntries)
      && env.isRoundWinner(r.value.tipSet, round, cfg.actor, r.value.rbase, r.value.baseInfo) == Ok(r.value.winner)
    // it fails with the error of the first of the three calls that fails, and succeeds when none fails
    ensures var ts := env.chainGetTipSetByHeight(round - 1);
      && (ts.Err? ==> r == Err(ts.error))
      && (ts.Ok? && env.minerGetBaseInfo(cfg.actor, round, ts.value.key).Err? ==>
            r == Err(env.minerGetBaseInfo(cfg.actor, round, ts.value.key).error))
      && (ts.Ok? && env.minerGetBaseInfo(cfg.actor, round, ts.value.key).Ok? ==>
            var mbi := env.minerGetBaseInfo(cfg.actor, round, ts.value.key).value;
            var w := env.isRoundWinner(ts.value, round, cfg.actor, RandomnessBase(mbi.prevBeaconEntry, mbi.beaconEntries), mbi);
            && (w.Err? ==> r == Err(w.error))
            && (w.Ok? ==> r == Ok(Election(ts.value, mbi, RandomnessBase(mbi.prevBeaconEntry, mbi.beaconEntries), w.value))))
  {
    match env.chainGetTipSetByHeight(round - 1)
    case Err(e) => Err(e)
    case Ok(ts) =>
      match env.minerGetBaseInfo(cfg.actor, round, ts.key)
      case Err(e) => Err(e)
      case Ok(mbi) =>
        var rbase := RandomnessBase(mbi.prevBeaconEntry, mbi.beaconEntries);
        match env.isRoundWinner(ts, round, cfg.actor, rbase, mbi)
        case Err(e) => Err(e)
        case Ok(winner) => Ok(Election(ts, mbi, rbase, winner))
  }

  /** `--out` handling: nothing when it is empty, otherwise the JSON bytes
      written, or the error of marshalling, opening or writing. */
  function Save(env: Env, name: string, out: WinningOut): (r: Result<Option<seq<Byte>>, Error>)
    ensures name == "" ==> r == Ok(None)
    // a save writes the JSON of the record, after the file opened
    ensures name != "" && r.Ok? ==>
      && r.value.Some?
      && env.marshalJson(out) == Ok(r.value.value)
      && env.openOutFile(name).None?
      && env.writeOutFile(name, r.value.value).None?
    // it fails with the error of the first step that fails, and only then
    ensures name != "" && r.Err? ==>
      && (env.marshalJson(out).Err? ==> r.error == env.marshalJson(out).error)
      && (env.marshalJson(out).Ok? && env.openOutFile(name).Some? ==> r.error == env.openOutFile(name).value)
      && (env.marshalJson(out).Ok? && env.openOutFile(name).None? ==>
            env.writeOutFile(name, env.marshalJson(out).value) == Some(r.error))
  {
    if name == "" then Ok(None)
    else
      match env.marshalJson(out)
      case Err(e) => Err(e)
      case Ok(b) =>
        if env.openOutFile(name).Some? then Err(env.openOutFile(name).value)
        else if env.writeOutFile(name, b).Some? then Err(env.writeOutFile(name, b).value)
        else Ok(Some(b))
  }

  datatype Proving = Proving(proof: Option<Proof>, stop: Option<Stop>)

  /** Every call on the way to a proof succeeds: the miner ID, the private
      sector list, the address bytes, a draw of at least 32 bytes, the proof
      generation on the sorted list and the masked seed, and the save. */
  ghost predicate ProverSucceeds(env: Env, cfg: Config, round: nat, el: Election) {
    && cfg.path.Some?
    && env.idFromAddress(cfg.actor).Ok?
    && env.marshalAddress(cfg.actor).Ok?
    && (var minerId := env.idFromAddress(cfg.actor).value;
        var entries := PrivateEntries(env.registeredWinningPoStProof, minerId, el.baseInfo.sectors, cfg.path.value);
        var draw := env.drawRandomness(el.rbase.data, WinningPoStChallengeSeed, round, env.marshalAddress(cfg.actor).value);
        && entries.Ok?
        && draw.Ok? && |draw.value| >= SeedLength
        && (var proofs := env.generateWinningPoSt(minerId, env.sortPrivateSectors(entries.value), Masked(draw.value));
            && proofs.Ok?
            && Save(env, cfg.out, WinningOut(minerId, el.baseInfo.sectors, proofs.value, Masked(draw.value))).Ok?))
  }

  /** What a proof record of round `round` carries: the miner's ID, the
      round's sectors, the seed drawn from the chosen beacon entry and then
      masked, the proofs the library generated for the sorted private list
      and that seed, the JSON of exactly that record when it was saved (the
      file opened and written), and the verification of exactly that record. */
  ghost predicate ProofFacts(env: Env, cfg: Config, round: nat, el: Election, p: Proof) {
    && cfg.path.Some?
    && env.idFromAddress(cfg.actor) == Ok(p.out.minerId)
    && p.out.sectors == el.baseInfo.sectors
    && PrivateEntries(env.registeredWinningPoStProof, p.out.minerId, p.out.sectors, cfg.path.value).Ok?
    && env.marshalAddress(cfg.actor).Ok?
    && (var draw := env.drawRandomness(el.rbase.data, WinningPoStChallengeSeed, round, env.marshalAddress(cfg.actor).value);
        draw.Ok? && |draw.value| >= SeedLength && p.out.randomness == Masked(draw.value))
    && |p.out.randomness| >= SeedLength && p.out.randomness[31] & 0xC0 == 0
    && (var entries := PrivateEntries(env.registeredWinningPoStProof, p.out.minerId, p.out.sectors, cfg.path.value).value;
        env.generateWinningPoSt(p.out.minerId, env.sortPrivateSectors(entries), p.out.randomness) == Ok(p.out.proofs))
    && (p.saved.Some? <==> cfg.out != "")
    && (p.saved.Some? ==>
          && env.marshalJson(p.out) == Ok(p.saved.value)
          && env.openOutFile(cfg.out).None?
          && env.writeOutFile(cfg.out, p.saved.value).None?)
    && p.verdict == VerifySpec(env, p.out.minerId, p.out.sectors, p.out.proofs, p.out.randomness)
  }

  /** A won round with `--path` set, from the miner ID to the printed
      verification (wincount.go:106-155). */
  function Prove(env: Env, cfg: Config, round: nat, el: Election): (r: Proving)
    requires cfg.path.Some?
    // a proof is built exactly when every call on the way succeeds
    ensures r.proof.Some? <==> ProverSucceeds(env, cfg, round, el)
    ensures r.proof.Some? ==> ProofFacts(env, cfg, round, el, r.proof.value)
    // a failed call ends the run; a built proof ends it only when its verification panicked
    ensures r.proof.None? ==> r.stop.Some?
    ensures r.proof.Some? ==> r.stop == if r.proof.value.verdict.Panicked? then Some(Crashed(r.proof.value.verdict.reason)) else None
  {
    var path := cfg.path.value;
    match env.idFromAddress(cfg.actor)
    case Err(e) => Proving(None, Some(Returned(e)))
    case Ok(minerId) =>
      match PrivateEntries(env.registeredWinningPoStProof, minerId, el.baseInfo.sectors, path)
      case Err(e) => Proving(None, Some(Returned(e)))
      case Ok(entries) =>
        match env.marshalAddress(cfg.actor)
        case Err(e) => Proving(None, Some(Returned(Wrapped(MarshalAddressContext, e))))
        case Ok(buf) =>
          match env.drawRandomness(el.rbase.data, WinningPoStChallengeSeed, round, buf)
          case Err(e) => Proving(None, Some(Returned(Wrapped(RandomnessContext, e))))
          case Ok(rand) =>
            if |rand| < SeedLength then Proving(None, Some(Crashed(IndexOutOfRange)))
            else
              var randomness := Masked(rand);
              match env.generateWinningPoSt(minerId, env.sortPrivateSectors(entries), randomness)
              case Err(e) => Proving(None, Some(Returned(e)))
              case Ok(proofs) =>
                var out := WinningOut(minerId, el.baseInfo.sectors, proofs, randomness);
                match Save(env, cfg.out, out)
                case Err(e) => Proving(None, Some(Returned(e)))
                case Ok(saved) =>
                  var verdict := VerifySpec(env, minerId, el.baseInfo.sectors, proofs, randomness);
                  Proving(Some(Proof(out, saved, verdict)),
                          if verdict.Panicked? then Some(Crashed(verdict.reason)) else None)
  }

  /** One pass of the loop body for round `round`. */
  function RoundStep(env: Env, cfg: Config, round: nat): (s: Step)
    ensures s.record.round == round && s.record.lookupHeight == round - 1
    // a lookup or winner-check failure is logged and skips the round, nothing more
    ensures s.record.outcome.Skipped? <==> Elect(env, cfg, round).Err?
    ensures s.record.outcome.Skipped? ==> s.record.outcome.err == Elect(env, cfg, round).error && s.stop.None?
    // only a round with a non-nil winner is reported
    ensures s.record.outcome.Won? <==> Elect(env, cfg, round).Ok? && Elect(env, cfg, round).value.winner.Some?
    ensures s.record.outcome.Won? ==>
      && s.record.outcome.winCount == Elect(env, cfg, round).value.winner.value.winCount
      && s.record.outcome.sectors == Elect(env, cfg, round).value.baseInfo.sectors
    // only a won round with --path set is proven, and only such a round can end the run
    ensures s.record.outcome.Won? && s.record.outcome.proof.Some? ==>
      cfg.path.Some? && ProofFacts(env, cfg, round, Elect(env, cfg, round).value, s.record.outcome.proof.value)
    ensures s.record.outcome.Won? && cfg.path.None? ==> s.record.outcome.proof.None? && s.stop.None?
    // a won round with --path set is proven exactly when every call on the way succeeds,
    // and an error on the way ends the run (RoundAbortReasons says with which error)
    ensures s.record.outcome.Won? && cfg.path.Some? ==>
      (s.record.outcome.proof.Some? <==> ProverSucceeds(env, cfg, round, Elect(env, cfg, round).value))
    ensures s.record.outcome.Won? && cfg.path.Some? && s.record.outcome.proof.None? ==> s.stop.Some?
    ensures s.record.outcome.Won? && s.record.outcome.proof.Some? && s.record.outcome.proof.value.verdict.Panicked? ==>
      s.stop == Some(Crashed(s.record.outcome.proof.value.verdict.reason))
    ensures s.stop.Some? ==> s.record.outcome.Won? && cfg.path.Some?
    // a false or failed verification is only printed; a panic in it ends the run
    ensures s.record.outcome.Won? && s.record.outcome.proof.Some? ==>
      (s.stop.Some? <==> s.record.outcome.proof.value.verdict.Panicked?)
  {
    match Elect(env, cfg, round)
    case Err(e) => Step(RoundRecord(round, round - 1, Skipped(e)), None)
    case Ok(el) =>
      if el.winner.None? then Step(RoundRecord(round, round - 1, Lost), None)
      else if cfg.path.None? then
        Step(RoundRecord(round, round - 1, Won(el.winner.value.winCount, el.baseInfo.sectors, None)), None)
      else
        var p := Prove(env, cfg, round, el);
        Step(RoundRecord(round, round - 1, Won(el.winner.value.winCount, el.baseInfo.sectors, p.proof)), p.stop)
  }

  /** Why a won round with `--path` set ends the run: the error of the
      first call that fails, wrapped with its context for the address
      marshalling and the randomness draw, or the index panic of
      `randomness[31]` on a draw shorter than 32 bytes. */
  lemma RoundAbortReasons(env: Env, cfg: Config, round: nat)
    requires Elect(env, cfg, round).Ok? && Elect(env, cfg, round).value.winner.Some? && cfg.path.Some?
    ensures var el := Elect(env, cfg, round).value;
      var stop := RoundStep(env, cfg, round).stop;
      var id := env.idFromAddress(cfg.actor);
      var buf := env.marshalAddress(cfg.actor);
      && (id.Err? ==> stop == Some(Returned(id.error)))
      && (id.Ok? ==>
            var entries := PrivateEntries(env.registeredWinningPoStProof, id.value, el.baseInfo.sectors, cfg.path.value);
            && (entries.Err? ==> stop == Some(Returned(entries.error)))
            && (entries.Ok? && buf.Err? ==> stop == Some(Returned(Wrapped(MarshalAddressContext, buf.error))))
            && (entries.Ok? && buf.Ok? ==>
                  var draw := env.drawRandomness(el.rbase.data, WinningPoStChallengeSeed, round, buf.value);
                  && (draw.Err? ==> stop == Some(Returned(Wrapped(RandomnessContext, draw.error))))
                  && (draw.Ok? && |draw.value| < SeedLength ==> stop == Some(Crashed(IndexOutOfRange)))
                  && (draw.Ok? && |draw.value| >= SeedLength ==>
                        var proofs := env.generateWinningPoSt(id.value, env.sortPrivateSectors(entries.value), Masked(draw.value));
                        && (proofs.Err? ==> stop == Some(Returned(proofs.error)))
                        && (proofs.Ok? ==>
                              var save := Save(env, cfg.out, WinningOut(id.value, el.baseInfo.sectors, proofs.value, Masked(draw.value)));
                              save.Err? ==> stop == Some(Returned(save.error))))))
  {
  }

  /** The bytes a round left in the output file, if it saved a record. */
  function Saved(record: RoundRecord): Option<seq<Byte>> {
    match record.outcome
    case Won(_, _, Some(p)) => p.saved
    case _ => None
  }

  /** The output file after a round. The write replaces the whole content:
      this is the truncating write the program evidently intends (see
      OutFile.OverwriteFromStart for what `O_RDWR` without `O_TRUNC` does). */
  function FileAfter(record: RoundRecord, file: seq<Byte>): seq<Byte> {
    match Saved(record)
    case Some(b) => b
    case None => file
  }

  /** The number of rounds in `[i, end]`. */
  function Span(i: nat, end: nat): nat {
    if i <= end then end - i + 1 else 0
  }

  /** The loop body as a function of the round. */
  function Steps(env: Env, cfg: Config): nat -> Step {
    (round: nat) => RoundStep(env, cfg, round)
  }

  /** The loop from round `i` on, for the loop body `steps`: records of the
      visited rounds, the output file, and why the run ended early, if it did. */
  function RunFrom(steps: nat -> Step, i: nat, end: nat, file: seq<Byte>): (r: RunResult)
    ensures |r.records| <= Span(i, end)
    ensures r.stop.None? ==> |r.records| == Span(i, end)
    ensures forall k :: 0 <= k < |r.records| ==> r.records[k] == steps(i + k).record
    decreases Span(i, end)
  {
    if i > end then RunResult([], file, None)
    else
      var s := steps(i);
      var file' := FileAfter(s.record, file);
      if s.stop.Some? then RunResult([s.record], file', s.stop)
      else
        var rest := RunFrom(steps, i + 1, end, file');
        RunResult([s.record] + rest.records, rest.file, rest.stop)
  }

  /** Rounds are visited in ascending order, each once, round `i + k` at
      position `k` looking up height `i + k - 1`; none when `i > end`. */
  lemma RunVisitsRoundsInOrder(env: Env, cfg: Config, i: nat, end: nat, file: seq<Byte>)
    ensures var r := RunFrom(Steps(env, cfg), i, end, file);
      && (i > end ==> r.records == [])
      && forall k :: 0 <= k < |r.records| ==> r.records[k].round == i + k && r.records[k].lookupHeight == i + k - 1
  {
  }

  /** The run ends early exactly when some round of the range stops it. */
  lemma {:induction false} RunCompletesUnlessARoundStops(steps: nat -> Step, i: nat, end: nat, file: seq<Byte>)
    ensures RunFrom(steps, i, end, file).stop.None? <==> forall k :: i <= k <= end ==> steps(k).stop.None?
    decreases Span(i, end)
  {
    if i <= end {
      var s := steps(i);
      if s.stop.None? {
        RunCompletesUnlessARoundStops(steps, i + 1, end, FileAfter(s.record, file));
      }
    }
  }

  /** When it ends early, it ends at the last round it recorded, with that
      round's reason. */
  lemma {:induction false} RunStopsAtLastRecord(steps: nat -> Step, i: nat, end: nat, file: seq<Byte>)
    ensures var r := RunFrom(steps, i, end, file);
      r.stop.Some? ==> |r.records| > 0 && r.stop == steps(i + |r.records| - 1).stop
    decreases Span(i, end)
  {
    if i <= end {
      var s := steps(i);
      var file' := FileAfter(s.record, file);
      if s.stop.None? {
        var rest := RunFrom(steps, i + 1, end, file');
        assert |RunFrom(steps, i, end, file).records| == |rest.records| + 1;
        RunStopsAtLastRecord(steps, i + 1, end, file');
      }
    }
  }

  /** No round before the last recorded one stops the run. */
  lemma {:induction false} RunGoesOnBeforeLastRecord(steps: nat -> Step, i: nat, end: nat, file: seq<Byte>)
    ensures var r := RunFrom(steps, i, end, file);
      forall k :: i <= k < i + |r.records| - 1 ==> steps(k).stop.None?
    decreases Span(i, end)
  {
    if i <= end {
      var s := steps(i);
      var file' := FileAfter(s.record, file);
      if s.stop.None? {
        var rest := RunFrom(steps, i + 1, end, file');
        assert |RunFrom(steps, i, end, file).records| == |rest.records| + 1;
        RunGoesOnBeforeLastRecord(steps, i + 1, end, file');
      }
    }
  }

  /** Resilience: every round that no earlier round stopped is visited and
      recorded with its own outcome; in particular a round whose lookups
      fail is recorded as skipped and the loop goes on with the next one. */
  lemma EveryRoundUntilAStopIsRecorded(env: Env, cfg: Config, i: nat, end: nat, file: seq<Byte>, k: nat)
    requires i <= k <= end
    requires forall j :: i <= j < k ==> RoundStep(env, cfg, j).stop.None?
    ensures var r := RunFrom(Steps(env, cfg), i, end, file);
      && k - i < |r.records|
      && r.records[k - i] == RoundStep(env, cfg, k).record
      && (Elect(env, cfg, k).Err? ==> r.records[k - i].outcome == Skipped(Elect(env, cfg, k).error))
  {
    var steps := Steps(env, cfg);
    assert forall j :: i <= j < k ==> steps(j).stop.None?;
    RunStopsAtLastRecord(steps, i, end, file);
  }

  /** The output file after a sequence of rounds. */
  function LastSaved(records: seq<RoundRecord>, file: seq<Byte>): seq<Byte>
    decreases |records|
  {
    if records == [] then file else LastSaved(records[1..], FileAfter(records[0], file))
  }

  lemma {:induction false} RunFileIsLastSaved(steps: nat -> Step, i: nat, end: nat, file: seq<Byte>)
    ensures RunFrom(steps, i, end, file).file == LastSaved(RunFrom(steps, i, end, file).records, file)
    decreases Span(i, end)
  {
    var r := RunFrom(steps, i, end, file);
    if i <= end {
      var s := steps(i);
      var file' := FileAfter(s.record, file);
      assert r.records[1..] == RunFrom(steps, i + 1, end, file').records || s.stop.Some?;
      if s.stop.None? {
        RunFileIsLastSaved(steps, i + 1, end, file');
      } else {
        assert r.records[1..] == [];
      }
    }
  }

  /** The file a run leaves behind holds the bytes of its last saving round. */
  lemma RunFileIsLastSave(steps: nat -> Step, i: nat, end: nat, file: seq<Byte>, k: nat)
    requires var r := RunFrom(steps, i, end, file);
      && k < |r.records| && Saved(r.records[k]).Some?
      && forall j :: k < j < |r.records| ==> Saved(r.records[j]).None?
    ensures RunFrom(steps, i, end, file).file == Saved(RunFrom(steps, i, end, file).records[k]).value
  {
    RunFileIsLastSaved(steps, i, end, file);
    LastSavedIsLastWrite(RunFrom(steps, i, end, file).records, file, k);
  }

  lemma {:induction false} LastSavedIsLastWrite(records: seq<RoundRecord>, file: seq<Byte>, k: nat)
    requires k < |records| && Saved(records[k]).Some?
    requires forall j :: k < j < |records| ==> Saved(records[j]).None?
    ensures LastSaved(records, file) == Saved(records[k]).value
    decreases |records|
  {
    if k == 0 {
      NoLaterWrite(records[1..], FileAfter(records[0], file));
    } else {
      LastSavedIsLastWrite(records[1..], FileAfter(records[0], file), k - 1);
    }
  }

  lemma {:induction false} NoLaterWrite(records: seq<RoundRecord>, file: seq<Byte>)
    requires forall j :: 0 <= j < |records| ==> Saved(records[j]).None?
    ensures LastSaved(records, file) == file
    decreases |records|
  {
    if records != [] {
      NoLaterWrite(records[1..], FileAfter(records[0], file));
    }
  }

  /** `verify --in`: read the saved record back and verify it again. `read`
      is what opening and reading the file gave. */
  function VerifyCommand(env: Env, input: string, read: Result<seq<Byte>, Error>): (r: Result<Option<VerifyOutcome>, Error>)
    // an empty --in does nothing
    ensures input == "" ==> r == Ok(None)
    // a verification happens exactly when the file was read and decoded, and it is
    // verifyWinningPoSt on the decoded record
    ensures r.Ok? && r.value.Some? <==> input != "" && read.Ok? && env.unmarshalJson(read.value).Ok?
    ensures r.Ok? && r.value.Some? ==>
      var ret := env.unmarshalJson(read.value).value;
      r.value.value == VerifySpec(env, ret.minerId, ret.sectors, ret.proofs, ret.randomness)
    // otherwise the read or decode error is returned
    ensures input != "" && read.Err? ==> r == Err(read.error)
    ensures input != "" && read.Ok? && env.unmarshalJson(read.value).Err? ==> r == Err(env.unmarshalJson(read.value).error)
  {
    if input == "" then Ok(None)
    else
      match read
      case Err(e) => Err(e)
      case Ok(b) =>
        match env.unmarshalJson(b)
        case Err(e) => Err(e)
        case Ok(ret) => Ok(Some(VerifySpec(env, ret.minerId, ret.sectors, ret.proofs, ret.randomness)))
  }

  /** JSON decoding undoes JSON encoding. */
  ghost predicate CodecLossless(env: Env) {
    forall w :: env.marshalJson(w).Ok? ==> env.unmarshalJson(env.marshalJson(w).value) == Ok(w)
  }

  /** Prover and verifier agree: when the last saving round of a run is
      round `i + k`, the `verify` command run on the file the run left
      behind reaches the very verification that round printed. */
  lemma SavedRecordReplays(env: Env, cfg: Config, i: nat, end: nat, file: seq<Byte>, k: nat)
    requires CodecLossless(env)
    requires var r := RunFrom(Steps(env, cfg), i, end, file);
      && k < |r.records| && Saved(r.records[k]).Some?
      && forall j :: k < j < |r.records| ==> Saved(r.records[j]).None?
    ensures var r := RunFrom(Steps(env, cfg), i, end, file);
      && r.records[k].outcome.Won? && r.records[k].outcome.proof.Some?
      && VerifyCommand(env, cfg.out, Ok(r.file)) == Ok(Some(r.records[k].outcome.proof.value.verdict))
  {
    var r := RunFrom(Steps(env, cfg), i, end, file);
    RunFileIsLastSave(Steps(env, cfg), i, end, file, k);
    RecordedProofIsSound(env, cfg, i, end, file, k);
    ProofReplays(env, cfg, i + k, Elect(env, cfg, i + k).value, r.records[k].outcome.proof.value);
  }

  /** A record of the run that carries a proof carries the facts of
      `ProofFacts` about its own round. */
  lemma RecordedProofIsSound(env: Env, cfg: Config, i: nat, end: nat, file: seq<Byte>, k: nat)
    requires var r := RunFrom(Steps(env, cfg), i, end, file);
      k < |r.records| && Saved(r.records[k]).Some?
    ensures var r := RunFrom(Steps(env, cfg), i, end, file);
      && r.records[k].outcome.Won? && r.records[k].outcome.proof.Some?
      && Elect(env, cfg, i + k).Ok?
      && cfg.path.Some?
      && ProofFacts(env, cfg, i + k, Elect(env, cfg, i + k).value, r.records[k].outcome.proof.value)
  {
    var steps := Steps(env, cfg);
    var record := RunFrom(steps, i, end, file).records[k];
    assert record == steps(i + k).record;
  }

  /** A saved proof record, read back through a lossless codec, verifies
      the same way it verified when it was made. */
  lemma ProofReplays(env: Env, cfg: Config, round: nat, el: Election, p: Proof)
    requires CodecLossless(env)
    requires ProofFacts(env, cfg, round, el, p) && p.saved.Some?
    ensures VerifyCommand(env, cfg.out, Ok(p.saved.value)) == Ok(Some(p.verdict))
  {
  }

  /** The sectors the verifier challenges are sectors the prover handed to
      the library: position `indices[k]` of the prover's list before sorting
      holds the verifier's `k`-th challenged sector, with its cache
      directory and sealed file under `path`, and, when the library's sort
      only reorders, that very entry is in the sorted list the proof
      generator receives. */
  lemma ChallengedSectorsAreProvedSectors(env: Env, minerId: ActorId, sectors: seq<SectorInfo>, path: string,
                                          proofs: seq<PoStProof>, randomness: seq<Byte>)
    requires SortPermutes(env)
    requires PrivateEntries(env.registeredWinningPoStProof, minerId, sectors, path).Ok?
    requires VerifyInfo(env, minerId, sectors, proofs, randomness).Ok?
    ensures var entries := PrivateEntries(env.registeredWinningPoStProof, minerId, sectors, path).value;
      var challenged := VerifyInfo(env, minerId, sectors, proofs, randomness).value.challengedSectors;
      var indices := env.generateWinningPoStSectorChallenge(
        env.registeredWinningPoStProof(sectors[0].sealProof).value, minerId, randomness, |sectors|).value;
      && |challenged| == |indices|
      && forall k :: 0 <= k < |indices| ==>
           && indices[k] < |entries|
           && entries[indices[k]].sectorInfo == challenged[k]
           && entries[indices[k]].cacheDirPath == CachePath(path, minerId, challenged[k].sectorNumber)
           && entries[indices[k]].sealedSectorPath == SealedPath(path, minerId, challenged[k].sectorNumber)
           && entries[indices[k]] in env.sortPrivateSectors(entries)
  {
    var entries := PrivateEntries(env.registeredWinningPoStProof, minerId, sectors, path).value;
    var sorted := env.sortPrivateSectors(entries);
    assert multiset(sorted) == multiset(entries);
    forall e | e in entries
      ensures e in sorted
    {
      assert e in multiset(entries);
    }
  }

  /** The body of the `for` loop for round `round`; `return` and `continue`
      become the step it returns. */
  method PlayRound(env: Env, cfg: Config, round: nat) returns (step: Step)
    ensures step == RoundStep(env, cfg, round)
  {
    var ts := env.chainGetTipSetByHeight(round - 1);
    if ts.Err? {
      return Step(RoundRecord(round, round - 1, Skipped(ts.error)), None);
    }
    var mbi := env.minerGetBaseInfo(cfg.actor, round, ts.value.key);
    if mbi.Err? {
      return Step(RoundRecord(round, round - 1, Skipped(mbi.error)), None);
    }
    var beaconPrev := mbi.value.prevBeaconEntry;
    var bvals := mbi.value.beaconEntries;
    var rbase := beaconPrev;
    if |bvals| > 0 {
      rbase := bvals[|bvals| - 1];
    }
    var winner := env.isRoundWinner(ts.value, round, cfg.actor, rbase, mbi.value);
    if winner.Err? {
      return Step(RoundRecord(round, round - 1, Skipped(winner.error)), None);
    }
    if winner.value.None? {
      return Step(RoundRecord(round, round - 1, Lost), None);
    }
    var winCount := winner.value.value.winCount;
    var sectors := mbi.value.sectors;
    if cfg.path.None? {
      return Step(RoundRecord(round, round - 1, Won(winCount, sectors, None)), None);
    }
    var reported := RoundRecord(round, round - 1, Won(winCount, sectors, None));
    var actorId := env.idFromAddress(cfg.actor);
    if actorId.Err? {
      return Step(reported, Some(Returned(actorId.error)));
    }
    var minerId := actorId.value;
    var privsectors := PubSectorToPriv(env, minerId, sectors, cfg.path.value);
    if privsectors.Err? {
      return Step(reported, Some(Returned(privsectors.error)));
    }
    var buf := env.marshalAddress(cfg.actor);
    if buf.Err? {
      return Step(reported, Some(Returned(Wrapped(MarshalAddressContext, buf.error))));
    }
    var rand := env.drawRandomness(rbase.data, WinningPoStChallengeSeed, round, buf.value);
    if rand.Err? {
      return Step(reported, Some(Returned(Wrapped(RandomnessContext, rand.error))));
    }
    var seed := rand.value;
    if |seed| < SeedLength {
      return Step(reported, Some(Crashed(IndexOutOfRange)));
    }
    var buffer := new Byte[|seed|](k requires 0 <= k < |seed| => seed[k]);
    assert buffer[..] == seed;
    MaskInPlace(buffer);
    var randomness := buffer[..];
    var proofs := env.generateWinningPoSt(minerId, privsectors.value, randomness);
    if proofs.Err? {
      return Step(reported, Some(Returned(proofs.error)));
    }
    var out := WinningOut(minerId, sectors, proofs.value, randomness);
    var saved: Option<seq<Byte>> := None;
    if cfg.out != "" {
      var b := env.marshalJson(out);
      if b.Err? {
        return Step(reported, Some(Returned(b.error)));
      }
      var openErr := env.openOutFile(cfg.out);
      if openErr.Some? {
        return Step(reported, Some(Returned(openErr.value)));
      }
      var writeErr := env.writeOutFile(cfg.out, b.value);
      if writeErr.Some? {
        return Step(reported, Some(Returned(writeErr.value)));
      }
      saved := Some(b.value);
    }
    var verdict := VerifyWinningPoSt(env, minerId, sectors, proofs.value, randomness);
    var stop := if verdict.Panicked? then Some(Crashed(verdict.reason)) else None;
    step := Step(RoundRecord(round, round - 1, Won(winCount, sectors, Some(Proof(out, saved, verdict)))), stop);
  }

  /** `run --begin --end`: the loop `for i := begin; i <= end; i++`. Rounds
      beyond `MaxEpoch` (negative `abi.ChainEpoch`, and the endless loop at
      the largest `uint64`) are outside the model. */
  method Run(env: Env, cfg: Config, begin: Uint64, end: Uint64, file: seq<Byte>)
    returns (records: seq<RoundRecord>, outFile: seq<Byte>, stop: Option<Stop>)
    requires end <= MaxEpoch
    ensures RunResult(records, outFile, stop) == RunFrom(Steps(env, cfg), begin, end, file)
  {
    records, outFile, stop := RunRounds(env, cfg, Steps(env, cfg), begin, end, file);
  }

  /** `steps` is the loop body of `env` and `cfg`. The trigger keeps the
      body's definition out of the loop's proof, which only needs that
      `PlayStep` returns `steps(round)`. */
  ghost predicate IsLoopBody(env: Env, cfg: Config, steps: nat -> Step) {
    forall round: nat {:trigger RoundStep(env, cfg, round)} :: steps(round) == RoundStep(env, cfg, round)
  }

  /** The loop itself, for the loop body `steps`. */
  method RunRounds(env: Env, cfg: Config, ghost steps: nat -> Step, begin: nat, end: nat, file: seq<Byte>)
    returns (records: seq<RoundRecord>, outFile: seq<Byte>, stop: Option<Stop>)
    requires IsLoopBody(env, cfg, steps)
    ensures RunResult(records, outFile, stop) == RunFrom(steps, begin, end, file)
  {
    records, outFile, stop := [], file, None;
    var i: nat := begin;
    while i <= end
      invariant i <= end + 1 || i == begin
      invariant RunFrom(steps, begin, end, file) == Continue(records, RunFrom(steps, i, end, outFile))
      decreases Span(i, end)
    {
      var step := PlayStep(env, cfg, steps, i);
      LoopStep(steps, begin, end, file, records, i, outFile);
      records := records + [step.record];
      outFile := FileAfter(step.record, outFile);
      if step.stop.Some? {
        stop := step.stop;
        return;
      }
      i := i + 1;
    }
  }

  /** `PlayRound`, seen as the `round`-th pass of the loop body `steps`. */
  method PlayStep(env: Env, cfg: Config, ghost steps: nat -> Step, round: nat) returns (step: Step)
    requires IsLoopBody(env, cfg, steps)
    ensures step == steps(round)
  {
    step := PlayRound(env, cfg, round);
  }

  /** The records before round `i`, followed by the run from round `i` on. */
  function Continue(records: seq<RoundRecord>, rest: RunResult): RunResult {
    RunResult(records + rest.records, rest.file, rest.stop)
  }

  lemma RunFromFirstStep(steps: nat -> Step, i: nat, end: nat, file: seq<Byte>)
    requires i <= end
    ensures var s := steps(i);
      RunFrom(steps, i, end, file) ==
        if s.stop.Some? then RunResult([s.record], FileAfter(s.record, file), s.stop)
        else Continue([s.record], RunFrom(steps, i + 1, end, FileAfter(s.record, file)))
  {
  }

  lemma LoopStep(steps: nat -> Step, begin: nat, end: nat, file: seq<Byte>, records: seq<RoundRecord>, i: nat, outFile: seq<Byte>)
    requires i <= end
    requires RunFrom(steps, begin, end, file) == Continue(records, RunFrom(steps, i, end, outFile))
    ensures var s := steps(i);
      var file' := FileAfter(s.record, outFile);
      if s.stop.Some? then RunFrom(steps, begin, end, file) == RunResult(records + [s.record], file', s.stop)
      else RunFrom(steps, begin, end, file) == Continue(records + [s.record], RunFrom(steps, i + 1, end, file'))
  {
    RunFromFirstStep(steps, i, end, outFile);
    var s := steps(i);
    if s.stop.None? {
      var rest := RunFrom(steps, i + 1, end, FileAfter(s.record, outFile));
      assert records + ([s.record] + rest.records) == (records + [s.record]) + rest.records;
    }
  }
}
