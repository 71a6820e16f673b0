/** Whole runs: any sequence of requests, append faults, rotations, deaths of the
    process at any step, power failures and restarts, from an empty disk. */
module Runs {
  import opened Types
  import opened Lines
  import opened Lifecycle
  import opened Rates
  import opened Json
  import opened Records
  import opened History
  import opened Guarantees
  import opened Recovery
  import opened Carry
  import opened Machine
  import opened Safety
  import opened Rotation
  import opened Limits

  ghost predicate Run(tx: Text, cfg: Config, trace: seq<State>, steps: seq<Step>) {
    && |trace| == |steps| + 1 && trace[0] == INIT
    && forall i :: 0 <= i < |steps| ==> Next(tx, cfg, trace[i], steps[i], trace[i + 1])
  }

  lemma InitInv(tx: Text, cfg: Config)
    ensures Inv(tx, cfg, INIT)
  {
    EmptyFile(tx, cfg, 0);
    AllFirm(tx, cfg, [], [], 0);
  }

  lemma RotationStepInv(tx: Text, cfg: Config, s: State, step: Step, s': State)
    requires Faithful(tx) && Inv(tx, cfg, s) && Rotates(step) && NextRotation(tx, cfg, s, step, s')
    ensures Inv(tx, cfg, s')
  {
    match step
    case RotateBegin(order) => RotateBeginInv(tx, cfg, s, order, s');
    case WriteIntent => WriteIntentInv(tx, cfg, s, s');
    case StartRates(uids) => StartRatesInv(tx, cfg, s, uids, s');
    case WriteRate => WriteRateInv(tx, cfg, s, s');
    case GiveUp => SettleInv(tx, cfg, s, 0, s');
    case Link(ts) => LinkInv(tx, cfg, s, ts, s');
    case LinkFail(ts) => SettleInv(tx, cfg, s, ts, s');
    case Rename => RenameInv(tx, cfg, s, s');
    case SyncDir => AfterSwapInv(tx, cfg, s, 0, s');
    case SyncDirFail => AfterSwapInv(tx, cfg, s, 0, s');
    case Prune(ts) => AfterSwapInv(tx, cfg, s, ts, s');
  }

  lemma RequestStepInv(tx: Text, cfg: Config, s: State, step: Step, s': State)
    requires cfg.Valid() && Inv(tx, cfg, s) && !Rotates(step) && NextRequest(tx, cfg, s, step, s')
    ensures Inv(tx, cfg, s')
  {
    match step
    case Begin(rec, line) => BeginInv(tx, cfg, s, rec, line, s');
    case AppendOk => AppendOkInv(tx, cfg, s, s');
    case AppendFault(landed) => FaultInv(tx, cfg, s, landed, s');
    case Refuse(u) => RefuseInv(tx, cfg, s, u, s');
    case Reply => AfterSwapInv(tx, cfg, s, 0, s');
    case Kill(landed) => KillInv(tx, cfg, s, landed, s');
    case PowerFail(back, keep, machine) => PowerFailInv(tx, cfg, s, back, keep, machine, s');
    case Restart => RestartInv(tx, cfg, s, s');
    case StartFail(cut, synced, create) => StartFailInv(tx, cfg, s, cut, synced, create, s');
  }

  lemma NextInv(tx: Text, cfg: Config, s: State, step: Step, s': State)
    requires Faithful(tx) && cfg.Valid() && Inv(tx, cfg, s) && Next(tx, cfg, s, step, s')
    ensures Inv(tx, cfg, s')
  {
    if Rotates(step) {
      RotationStepInv(tx, cfg, s, step, s');
    } else {
      RequestStepInv(tx, cfg, s, step, s');
    }
  }

  lemma {:induction false} RunInv(tx: Text, cfg: Config, trace: seq<State>, steps: seq<Step>, i: nat)
    requires Faithful(tx) && cfg.Valid() && Run(tx, cfg, trace, steps) && i < |trace|
    ensures Inv(tx, cfg, trace[i])
    decreases i
  {
    hide Next, Inv, Faithful;
    if i == 0 {
      InitInv(tx, cfg);
    } else {
      RunInv(tx, cfg, trace, steps, i - 1);
      NextInv(tx, cfg, trace[i - 1], steps[i - 1], trace[i]);
    }
  }

  // ---- lines and history go together ----

  /** The sink without what a failed append left on it. */
  function Kept(s: State): seq<Byte> { if s.proc.Up? then Solid(s.disk, s.proc.phase) else s.disk.sink }

  /** The file and the history stay, or both gain the line in flight. */
  ghost predicate InStep(s: State, s': State) {
    || (s'.hist == s.hist && Scan(Kept(s')).lines == Scan(Kept(s)).lines)
    || (s.proc.Up? && InFlight(s.proc.phase) && s'.hist == s.hist + [s.proc.phase.rec] &&
        Scan(Kept(s')).lines == Scan(Kept(s)).lines + [s.proc.phase.line])
  }

  lemma LinesAppended(tx: Text, cfg: Config, s: State, s': State)
    requires Inv(tx, cfg, s) && DoAppendOk(cfg, s, s')
    ensures InStep(s, s')
  {
    hide Base, MemOk, CutsOk, FileOk, Scan, Noted, Installed, Decode;
    ScanLine(s.disk.sink, s.proc.phase.line);
    assert [] + s.proc.phase.line == s.proc.phase.line;
  }

  lemma LinesLanded(tx: Text, cfg: Config, s: State, landed: nat, s': State)
    requires Inv(tx, cfg, s) && DoKill(s, landed, s')
    ensures InStep(s, s')
  {
    hide Base, MemOk, CutsOk, FileOk, CarryingOk, RatesOk, Scan, Decode;
    if InFlight(s.proc.phase) {
      CrashedAppend(Solid(s.disk, s.proc.phase), s.proc.phase.line, landed);
    } else {
      NotFaulted(s);
    }
  }

  lemma LinesFaulted(s: State, landed: nat, s': State)
    requires DoAppendFault(s, landed, s')
    ensures InStep(s, s')
  {
    hide Scan, FaultedOk, Solid, Landing;
    FaultIsSolid(s, landed, s');
    NotFaulted(s);
  }

  lemma LinesAtStart(tx: Text, cfg: Config, s: State, step: Step, s': State)
    requires (step.Restart? || step.StartFail?) && Next(tx, cfg, s, step, s')
    ensures InStep(s, s')
  {
    hide Scan, Encode, RecoverLines, Rebuilt;
    Truncating(tx, s.disk.sink);
  }

  lemma LinesStay(tx: Text, cfg: Config, s: State, step: Step, s': State)
    requires Next(tx, cfg, s, step, s') && !step.Restart? && !step.StartFail? && !step.Rename?
    requires !step.AppendOk? && !step.AppendFault? && !step.Kill? && !step.PowerFail?
    ensures InStep(s, s')
  {
    hide Scan, LineFor, IdsOk, AdmitsStep, EvictedRings, Enumerates, CarryBytes, RateBytes;
  }

  /** Except for a rename, or a power failure. */
  lemma LinesStep(tx: Text, cfg: Config, s: State, step: Step, s': State)
    requires Inv(tx, cfg, s) && Next(tx, cfg, s, step, s') && !step.Rename? && !step.PowerFail?
    ensures InStep(s, s')
  {
    hide InStep, Inv, DoBegin, DoRotateBegin, DoWriteIntent, DoStartRates, DoWriteRate, DoRestart, DoStartFail;
    match step
    case AppendOk => LinesAppended(tx, cfg, s, s');
    case AppendFault(landed) => LinesFaulted(s, landed, s');
    case Kill(landed) => LinesLanded(tx, cfg, s, landed, s');
    case Restart => LinesAtStart(tx, cfg, s, step, s');
    case StartFail(_, _, _) => LinesAtStart(tx, cfg, s, step, s');
    case _ => LinesStay(tx, cfg, s, step, s');
  }

  // ---- recovery ----

  /** What a recovered segment says about the history: the same open intents
      with all their receipt fields, nothing closed that was not, and the same
      in-window charges at any later time. */
  ghost predicate Recovers(cfg: Config, log: seq<Rec>, h: seq<Rec>, clock: nat) {
    && Replay(Facts(log)).Ok? && Replay(Facts(h)).Ok?
    && Represents(Replay(Facts(log)).value, Replay(Facts(h)).value)
    && (cfg.rateMaxInWindow != 0 ==>
          forall u: nat, now: nat :: clock <= now ==>
            Evict(RingAfter(cfg, log, u), cfg.Threshold(now)) == Evict(Charges(h, u), cfg.Threshold(now)))
  }

  lemma TracksRecovers(cfg: Config, log: seq<Rec>, h: seq<Rec>, clock: nat)
    requires Tracks(cfg, log, h, cfg.Threshold(clock))
    ensures Recovers(cfg, log, h, clock)
  {
    if cfg.rateMaxInWindow != 0 {
      forall u: nat, now: nat | clock <= now
        ensures Evict(RingAfter(cfg, log, u), cfg.Threshold(now)) == Evict(Charges(h, u), cfg.Threshold(now))
      {
        assert WindowOk(cfg, RingAfter(cfg, log, u), Charges(h, u), cfg.Threshold(clock));
        ThresholdLater(cfg, clock, now);
        EvictedRingsAgree(RingAfter(cfg, log, u), Charges(h, u), cfg.Threshold(clock), cfg.Threshold(now));
      }
    }
  }

  /** At every point of every run while the broker is down, startup succeeds
      exactly when the segment is within the size limit and every line parses,
      and then rebuilds the history's open intents and windows. */
  lemma RecoveryRebuildsHistory(tx: Text, cfg: Config, trace: seq<State>, steps: seq<Step>, i: nat)
    requires Faithful(tx) && cfg.Valid() && Run(tx, cfg, trace, steps) && i < |trace| && trace[i].proc.Down?
    ensures var sink := trace[i].disk.sink;
            Recover(tx, sink).Ok? <==> |sink| <= MAX_SEGMENT_BYTES && LinesRead(tx, Scan(sink).lines)
    ensures Recover(tx, trace[i].disk.sink).Ok? ==>
              Recovers(cfg, Recover(tx, trace[i].disk.sink).value, trace[i].hist, trace[i].clock)
    ensures Recover(tx, trace[i].disk.sink).Err? ==>
              Recover(tx, trace[i].disk.sink).fault == if |trace[i].disk.sink| > MAX_SEGMENT_BYTES then TooLarge
                                                       else Corrupt
  {
    RunInv(tx, cfg, trace, steps, i);
    CutsWhole(tx, cfg, trace[i].disk.sink, trace[i].disk.firm, trace[i].hist, trace[i].clock);
    FileRecovers(tx, cfg, trace[i].disk.sink, trace[i].hist, trace[i].clock);
  }

  lemma FileRecovers(tx: Text, cfg: Config, file: seq<Byte>, h: seq<Rec>, clock: nat)
    requires FileOk(tx, cfg, file, h, clock)
    ensures var r := RecoverLines(tx, Scan(file).lines);
            && (r.Ok? <==> LinesRead(tx, Scan(file).lines)) && (r.Err? ==> r.fault == Corrupt)
            && (r.Ok? ==> Recovers(cfg, r.value, h, clock))
  {
    CorruptMeansUnread(tx, Scan(file).lines);
    var r := RecoverLines(tx, Scan(file).lines);
    if r.Ok? { TracksRecovers(cfg, r.value, h, clock); }
  }

  /** The open set with the line of a failed append, if all of it landed. */
  function WithLanded(opens: Opens, p: Phase): Opens {
    if p.Faulted? && p.landed == |p.line| + 1 then Installed(opens, p.rec.s) else opens
  }

  /** While the broker runs, replaying the sink gives the live open set, up to
      the flag that says how an intent reached the segment. After a failed
      append it gives that set, or exactly one line more when the whole line
      landed; a part of the line is the torn tail. */
  lemma SinkReplaysToLiveState(tx: Text, cfg: Config, trace: seq<State>, steps: seq<Step>, i: nat)
    requires Faithful(tx) && cfg.Valid() && Run(tx, cfg, trace, steps) && i < |trace| && trace[i].proc.Up?
    ensures var r := RecoverLines(tx, Scan(trace[i].disk.sink).lines);
            && (r.Ok? <==> LinesRead(tx, Scan(trace[i].disk.sink).lines)) && (r.Err? ==> r.fault == Corrupt)
            && (r.Ok? ==> SameOpens(WithLanded(trace[i].proc.mem.opens, trace[i].proc.phase),
                                    Replay(Facts(r.value)).value.opens))
    ensures var p := trace[i].proc.phase;
            Scan(trace[i].disk.sink).tail == if p.Faulted? && p.landed <= |p.line| then Landing(p.line, p.landed)
                                             else []
  {
    RunInv(tx, cfg, trace, steps, i);
    SinkNow(tx, cfg, trace[i]);
  }

  lemma SinkNow(tx: Text, cfg: Config, s: State)
    requires Inv(tx, cfg, s) && s.proc.Up?
    ensures var r := RecoverLines(tx, Scan(s.disk.sink).lines);
            && (r.Ok? <==> LinesRead(tx, Scan(s.disk.sink).lines)) && (r.Err? ==> r.fault == Corrupt)
            && (r.Ok? ==> SameOpens(WithLanded(s.proc.mem.opens, s.proc.phase), Replay(Facts(r.value)).value.opens))
    ensures var p := s.proc.phase;
            Scan(s.disk.sink).tail == if p.Faulted? && p.landed <= |p.line| then Landing(p.line, p.landed) else []
  {
    hide IsHistory, RingsOk, GlobalOk, CarryingOk, RatesOk, Decode, Replay, SameOpens, RecoverLines, LinesRead;
    var p, opens := s.proc.phase, s.proc.mem.opens;
    var h := if p.Faulted? then Landed(s.hist, p.line, p.rec, p.landed) else s.hist;
    if p.Faulted? {
      CrashedWrite(tx, cfg, Solid(s.disk, p), s.hist, s.clock, p.line, p.rec, p.landed);
      CrashedAppend(Solid(s.disk, p), p.line, p.landed);
      if p.landed == |p.line| + 1 { OpensAfterAppend(cfg, opens, s.hist, p.rec); }
    } else {
      NotFaulted(s);
    }
    SinkMeans(tx, cfg, s.disk.sink, h, s.clock, WithLanded(opens, p));
  }

  lemma SinkMeans(tx: Text, cfg: Config, file: seq<Byte>, h: seq<Rec>, clock: nat, opens: Opens)
    requires FileOk(tx, cfg, file, h, clock) && Replay(Facts(h)).Ok? && SameOpens(opens, Replay(Facts(h)).value.opens)
    ensures var r := RecoverLines(tx, Scan(file).lines);
            && (r.Ok? <==> LinesRead(tx, Scan(file).lines)) && (r.Err? ==> r.fault == Corrupt)
            && (r.Ok? ==> SameOpens(opens, Replay(Facts(r.value)).value.opens))
  {
    FileRecovers(tx, cfg, file, h, clock);
    var r := RecoverLines(tx, Scan(file).lines);
    if r.Ok? { SameThrough(opens, Replay(Facts(h)).value.opens, Replay(Facts(r.value)).value.opens); }
  }

  /** The same open intents and, from then on, the same windows. */
  ghost predicate SameRecovery(cfg: Config, a: seq<Rec>, b: seq<Rec>, clock: nat)
    requires Replay(Facts(a)).Ok? && Replay(Facts(b)).Ok?
  {
    && SameOpens(Replay(Facts(a)).value.opens, Replay(Facts(b)).value.opens)
    && (cfg.rateMaxInWindow != 0 ==> forall u: nat, now: nat :: clock <= now ==>
          Evict(RingAfter(cfg, a, u), cfg.Threshold(now)) == Evict(RingAfter(cfg, b, u), cfg.Threshold(now)))
  }

  lemma KeptFile(tx: Text, cfg: Config, s: State)
    requires Inv(tx, cfg, s)
    ensures FileOk(tx, cfg, Kept(s), s.hist, s.clock)
  {
    hide FileOk, CutsOk, MemOk, PhaseOk, PriorOk, Base, Solid;
    if s.proc.Down? { CutsWhole(tx, cfg, s.disk.sink, s.disk.firm, s.hist, s.clock); }
  }

  /** As long as a power failure may undo the last rename, also over restarts,
      the old file recovers exactly the history as it was at the rename, and the
      new one the history as it is now. Until a line is appended the new file
      does recover, and both give the same intents and the same windows. */
  lemma EitherSegmentRecovers(tx: Text, cfg: Config, trace: seq<State>, steps: seq<Step>, i: nat)
    requires Faithful(tx) && cfg.Valid() && Run(tx, cfg, trace, steps) && i < |trace| && trace[i].disk.prior.Some?
    ensures var was := RecoverLines(tx, Scan(trace[i].disk.prior.value).lines);
            && trace[i].base <= |trace[i].hist|
            && (was.Ok? <==> LinesRead(tx, Scan(trace[i].disk.prior.value).lines))
            && (was.Ok? ==> Recovers(cfg, was.value, trace[i].hist[..trace[i].base], trace[i].clock))
    ensures var now := RecoverLines(tx, Scan(Kept(trace[i])).lines);
            && (now.Ok? <==> LinesRead(tx, Scan(Kept(trace[i])).lines))
            && (now.Ok? ==> Recovers(cfg, now.value, trace[i].hist, trace[i].clock))
    ensures trace[i].base == |trace[i].hist| ==>
              var was := RecoverLines(tx, Scan(trace[i].disk.prior.value).lines);
              var now := RecoverLines(tx, Scan(Kept(trace[i])).lines);
              now.Ok? && (was.Ok? ==> SameRecovery(cfg, was.value, now.value, trace[i].clock))
  {
    hide Next, Faithful, RecoverLines, Scan, Recovers, LinesRead, SameRecovery, Kept;
    RunInv(tx, cfg, trace, steps, i);
    var s := trace[i];
    PriorRecovers(tx, cfg, s);
    KeptFile(tx, cfg, s);
    FileRecovers(tx, cfg, Kept(s), s.hist, s.clock);
    if s.base == |s.hist| {
      assert s.hist[..s.base] == s.hist;
      SwappedReads(tx, cfg, trace, steps, i);
      var was := RecoverLines(tx, Scan(s.disk.prior.value).lines);
      if was.Ok? { RecoverTheSame(cfg, was.value, RecoverLines(tx, Scan(Kept(s)).lines).value, s.hist, s.clock); }
    }
  }

  lemma PriorRecovers(tx: Text, cfg: Config, s: State)
    requires Inv(tx, cfg, s) && s.disk.prior.Some?
    ensures s.base <= |s.hist|
    ensures var r := RecoverLines(tx, Scan(s.disk.prior.value).lines);
            && (r.Ok? <==> LinesRead(tx, Scan(s.disk.prior.value).lines)) && (r.Err? ==> r.fault == Corrupt)
            && (r.Ok? ==> Recovers(cfg, r.value, s.hist[..s.base], s.clock))
  {
    FileRecovers(tx, cfg, s.disk.prior.value, s.hist[..s.base], s.clock);
  }

  lemma RecoverTheSame(cfg: Config, a: seq<Rec>, b: seq<Rec>, h: seq<Rec>, clock: nat)
    requires Recovers(cfg, a, h, clock) && Recovers(cfg, b, h, clock)
    ensures SameRecovery(cfg, a, b, clock)
  {
    SameThrough(Replay(Facts(a)).value.opens, Replay(Facts(h)).value.opens, Replay(Facts(b)).value.opens);
  }

  /** As long as the old file can come back and nothing was appended, the new
      one is as rotation wrote it, but for torn bytes. */
  lemma {:induction false} SwappedReads(tx: Text, cfg: Config, trace: seq<State>, steps: seq<Step>, i: nat)
    requires Faithful(tx) && cfg.Valid() && Run(tx, cfg, trace, steps) && i < |trace| && trace[i].disk.prior.Some?
    requires trace[i].base == |trace[i].hist|
    ensures RecoverLines(tx, Scan(Kept(trace[i])).lines).Ok?
  {
    hide Next, Inv, Faithful, RecoverLines, Scan, Kept;
    if i > 0 {
      RunInv(tx, cfg, trace, steps, i - 1);
      RunInv(tx, cfg, trace, steps, i);
      PriorStep(tx, cfg, trace[i - 1], steps[i - 1], trace[i]);
      if trace[i - 1].disk.prior.Some? { SwappedReads(tx, cfg, trace, steps, i - 1); }
    }
  }

  lemma PriorStep(tx: Text, cfg: Config, s: State, step: Step, s': State)
    requires Inv(tx, cfg, s) && Next(tx, cfg, s, step, s') && s'.disk.prior.Some? && s'.base == |s'.hist|
    ensures if s.disk.prior.Some? then s.base == |s.hist| && Scan(Kept(s')).lines == Scan(Kept(s)).lines
            else RecoverLines(tx, Scan(Kept(s')).lines).Ok?
  {
    hide UpOk, Base, PhaseOk, BeginOk, Decode, Scan, Rebuilt, RecoverLines, Encode, Kept, CutsOk, CleanFile;
    if step.Rename? {
      RenamedReads(tx, cfg, s, s');
    } else if s.disk.prior.Some? {
      LinesStep(tx, cfg, s, step, s');
    } else {
      assert step.StartFail? && step.create;
      CreatedReads(tx, s, step.cut, step.synced, s');
    }
  }

  lemma RenamedReads(tx: Text, cfg: Config, s: State, s': State)
    requires Inv(tx, cfg, s) && DoRename(s, s')
    ensures s.disk.prior.None? && RecoverLines(tx, Scan(Kept(s')).lines).Ok?
  {
    hide Base, UpOk, CarryingOk, RatesOk, Scan, RecoverLines;
  }

  lemma CreatedReads(tx: Text, s: State, cut: bool, synced: bool, s': State)
    requires MadeOk(s) && DoStartFail(s, cut, synced, true, s')
    ensures RecoverLines(tx, Scan(Kept(s')).lines).Ok?
  {
    assert Scan([]) == Scanned([], []);
  }

  lemma SameThrough(a: Opens, m: Opens, b: Opens)
    requires SameOpens(a, m) && SameOpens(b, m)
    ensures SameOpens(a, b)
  {
    forall c | c in a ensures Unflagged(a[c]) == Unflagged(b[c]) {
      assert Unflagged(a[c]) == Unflagged(m[c]) && Unflagged(b[c]) == Unflagged(m[c]);
    }
  }

  // ---- what every run guarantees ----

  lemma RunHistory(tx: Text, cfg: Config, trace: seq<State>, steps: seq<Step>, i: nat)
    requires Faithful(tx) && cfg.Valid() && Run(tx, cfg, trace, steps) && i < |trace|
    ensures IsHistory(cfg, trace[i].hist)
  {
    RunInv(tx, cfg, trace, steps, i);
  }

  /** Over a whole run, restarts and rotations included, no uid exceeds either
      quota in any interval one window long. */
  lemma QuotaOverRun(tx: Text, cfg: Config, trace: seq<State>, steps: seq<Step>, i: nat, u: nat, a: nat)
    requires Faithful(tx) && cfg.Valid() && Run(tx, cfg, trace, steps) && i < |trace|
    ensures var w := Within(Charges(trace[i].hist, u), a, a + cfg.Window());
            && (cfg.rateMaxInWindow != 0 ==> |w| <= cfg.rateMaxInWindow)
            && (cfg.rateMaxBytesPerUid != 0 ==> Sum(w) <= cfg.rateMaxBytesPerUid)
  {
    RunHistory(tx, cfg, trace, steps, i);
    QuotaHoldsOverHistory(cfg, trace[i].hist, u, a);
  }

  /** Over a whole run, an outcome that claims an effect comes after the
      redemption of its receipt, and that receipt's actor, verb and resource are
      those of the audited intent. */
  lemma EffectBackedOverRun(tx: Text, cfg: Config, trace: seq<State>, steps: seq<Step>, i: nat, g: nat, o: nat,
                            c: string)
    returns (k: nat, it: nat)
    requires Faithful(tx) && cfg.Valid() && Run(tx, cfg, trace, steps) && i < |trace|
    requires var h := trace[i].hist; g < |h| && o < |h| && IssuedLine(h[g], c) && OutcomeLine(h[o], c) && h[o].claim
    ensures var h := trace[i].hist;
            && it < k < o < |h| && g < k && RedeemedLine(h[k], c) && IntentLine(h[it], c)
            && h[o].s.actor == h[it].s.actor && h[k].s.receipt.actorUid == h[it].s.actor.uid
            && h[k].s.receipt.verb == h[it].s.operation && h[k].s.receipt.resource == h[it].s.resource
  {
    RunHistory(tx, cfg, trace, steps, i);
    var h := trace[i].hist;
    k := EffectClaimIsBacked(cfg, h, g, o, c);
    it := RedemptionMatchesIntent(cfg, h, k, c);
    var opener := OutcomeFollowsItsIntent(cfg, h, o);
    assert IntentLine(h[it], h[o].s.cid);
  }

  /** Over one lifetime of the process, with a positive clock, any interval one
      window long holds at most twice the global byte quota. */
  lemma GlobalQuotaOverLifetime(tx: Text, cfg: Config, trace: seq<State>, steps: seq<Step>, i: nat, a: nat)
    requires Faithful(tx) && cfg.Valid() && Run(tx, cfg, trace, steps) && i < |trace| && trace[i].proc.Up?
    requires Bounded(cfg)
    requires var es := AllCharges(ThisLifetime(trace[i])); es != [] ==> es[0].ts > 0
    ensures Sum(Within(AllCharges(ThisLifetime(trace[i])), a, a + cfg.Window())) <= 2 * cfg.rateMaxBytesGlobal
  {
    RunInv(tx, cfg, trace, steps, i);
    GlobalQuotaTwice(cfg, AllCharges(ThisLifetime(trace[i])), a);
  }
}
