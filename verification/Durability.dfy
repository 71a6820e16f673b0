/** What survives power failures. A line is safe once the file and the name it
    was written under are synced; a restart that finds the rename unsynced goes
    on without syncing it, and what it acknowledges can still be lost. */
module Durability {
  import opened Types
  import opened Lines
  import opened History
  import opened Recovery
  import opened Carry
  import opened Machine
  import opened Safety
  import opened Rotation
  import opened Runs
  import opened Paths

  // ---- the lines no failure can take ----

  /** The lines within the synced bytes of the sink. */
  function FirmLines(s: State): int {
    if s.disk.firm <= |Kept(s)| then |s.hist| - Lost(Kept(s), s.disk.firm) else |s.hist|
  }

  /** As long as the rename may be undone, only those from before it. */
  function Sure(s: State): int {
    if s.disk.prior.Some? && s.base < FirmLines(s) then s.base else FirmLines(s)
  }

  lemma {:induction false} MoreLines(file: seq<Byte>, a: nat, b: nat)
    requires a <= b <= |file|
    ensures |Scan(file[..a]).lines| <= |Scan(file[..b]).lines|
  {
    if a < b {
      MoreLines(file, a, b - 1);
      assert file[..b][..b - 1] == file[..b - 1];
    }
  }

  lemma FirmBounds(tx: Text, cfg: Config, s: State)
    requires Inv(tx, cfg, s)
    ensures s.disk.firm <= |Kept(s)| && 0 <= Sure(s) <= FirmLines(s) <= |s.hist|
    ensures s.disk.prior.Some? ==> Sure(s) <= s.base <= |s.hist|
  {
    hide Base, MemOk, PhaseOk, CleanFile, FileOk, Solid, Lost;
    assert CutOk(tx, cfg, Kept(s), s.disk.firm, s.hist, s.clock);
  }

  lemma AllIsFirm(s: State)
    requires s.disk.firm == |Kept(s)|
    ensures FirmLines(s) == |s.hist|
  {
    hide Kept;
    assert Kept(s)[..s.disk.firm] == Kept(s);
  }

  /** Syncing covers everything, or the synced bytes stay as they are. */
  ghost predicate FirmStays(s: State, s': State) {
    || s'.disk.firm == |Kept(s')|
    || (s'.disk.firm == s.disk.firm <= |Kept(s)| && s.disk.firm <= |Kept(s')| &&
        Kept(s')[..s.disk.firm] == Kept(s)[..s.disk.firm])
  }

  lemma FirmGrows(s: State, s': State)
    requires InStep(s, s') && FirmStays(s, s') && FirmLines(s) <= |s.hist|
    ensures FirmLines(s) <= FirmLines(s')
  {
    hide Kept, Scan;
    if s'.disk.firm == |Kept(s')| { AllIsFirm(s'); }
  }

  lemma FirmAtStart(tx: Text, cfg: Config, s: State, step: Step, s': State)
    requires Inv(tx, cfg, s) && (step.Restart? || step.StartFail?) && Next(tx, cfg, s, step, s')
    ensures FirmStays(s, s')
  {
    hide Scan, Encode, RecoverLines, Rebuilt, Base, CutOk;
    assert s.disk.sink == Encode(Scan(s.disk.sink).lines) + Scan(s.disk.sink).tail by { ScanIsExact(s.disk.sink); }
  }

  lemma FirmAfterKill(tx: Text, cfg: Config, s: State, landed: nat, s': State)
    requires Inv(tx, cfg, s) && DoKill(s, landed, s')
    ensures FirmStays(s, s')
  {
    hide Base, MemOk, PhaseOk, CutOk, CleanFile, Solid;
    NotFaulted(s);
  }

  lemma FirmAfterFault(tx: Text, cfg: Config, s: State, landed: nat, s': State)
    requires Inv(tx, cfg, s) && DoAppendFault(s, landed, s')
    ensures FirmStays(s, s')
  {
    hide Base, MemOk, PhaseOk, CutOk, CleanFile, Solid, FaultedOk, Landing;
    FaultIsSolid(s, landed, s');
    NotFaulted(s);
  }

  lemma FirmElse(tx: Text, cfg: Config, s: State, step: Step, s': State)
    requires Inv(tx, cfg, s) && Next(tx, cfg, s, step, s') && !step.Restart? && !step.StartFail? && !step.Rename?
    requires !step.AppendFault? && !step.Kill? && !step.PowerFail?
    ensures FirmStays(s, s')
  {
    hide Base, MemOk, PhaseOk, CutOk, CleanFile, LineFor, IdsOk, AdmitsStep, EvictedRings, Enumerates, CarryBytes;
    hide RateBytes, Noted, Installed;
  }

  lemma FirmStep(tx: Text, cfg: Config, s: State, step: Step, s': State)
    requires Inv(tx, cfg, s) && Next(tx, cfg, s, step, s') && !step.Rename? && !step.PowerFail?
    ensures FirmLines(s) <= FirmLines(s')
  {
    hide FirmStays, FirmLines, InStep, Inv, DoBegin, DoRotateBegin, DoWriteIntent, DoStartRates, DoWriteRate, DoRestart;
    hide DoStartFail, DoAppendOk;
    FirmBounds(tx, cfg, s);
    LinesStep(tx, cfg, s, step, s');
    match step {
      case AppendFault(landed) => FirmAfterFault(tx, cfg, s, landed, s');
      case Kill(landed) => FirmAfterKill(tx, cfg, s, landed, s');
      case Restart => FirmAtStart(tx, cfg, s, step, s');
      case StartFail(_, _, _) => FirmAtStart(tx, cfg, s, step, s');
      case _ => FirmElse(tx, cfg, s, step, s');
    }
    FirmGrows(s, s');
  }

  lemma RenameSure(tx: Text, cfg: Config, s: State, s': State)
    requires Inv(tx, cfg, s) && DoRename(s, s')
    ensures s'.hist == s.hist && FirmLines(s') == |s.hist| && Sure(s') == |s.hist|
  {
    hide FirmLines, Inv;
    NotFaulted(s');
    AllIsFirm(s');
  }

  lemma PowerFailSure(tx: Text, cfg: Config, s: State, back: bool, keep: nat, machine: string, s': State)
    requires Inv(tx, cfg, s) && DoPowerFail(s, back, keep, machine, s')
    ensures Sure(s) <= |s'.hist| && Sure(s') == FirmLines(s') == |s'.hist| && s'.hist <= s.hist
    ensures !back ==> FirmLines(s) <= |s'.hist|
  {
    hide Base, FileOk, Scan, CleanFile;
    FirmBounds(tx, cfg, s);
    AllIsFirm(s');
    if !back {
      assert CutOk(tx, cfg, s.disk.sink, keep, s.hist, s.clock);
      MoreLines(s.disk.sink, s.disk.firm, keep);
    }
  }

  /** What is sure stays, and stays sure. */
  lemma SureStep(tx: Text, cfg: Config, s: State, step: Step, s': State)
    requires Inv(tx, cfg, s) && Inv(tx, cfg, s') && Next(tx, cfg, s, step, s')
    ensures 0 <= Sure(s) <= |s.hist| && Sure(s) <= Sure(s') <= |s'.hist| && s.hist[..Sure(s)] <= s'.hist
    ensures !step.PowerFail? ==> s.hist <= s'.hist && s.acks <= s'.acks
  {
    hide FirmLines, Inv, InStep;
    FirmBounds(tx, cfg, s);
    FirmBounds(tx, cfg, s');
    if step.PowerFail? {
      PowerFailSure(tx, cfg, s, step.back, step.keep, step.machine, s');
    } else if step.Rename? {
      RenameSure(tx, cfg, s, s');
    } else {
      FirmStep(tx, cfg, s, step, s');
      PriorAfter(tx, cfg, s, step, s');
    }
  }

  lemma PriorAfter(tx: Text, cfg: Config, s: State, step: Step, s': State)
    requires Inv(tx, cfg, s) && Next(tx, cfg, s, step, s') && !step.Rename? && !step.PowerFail?
    ensures s.hist <= s'.hist && s.acks <= s'.acks
    ensures s'.disk.prior.Some? ==> (s.disk.prior == s'.disk.prior && s'.base == s.base) || s.hist == []
  {
    hide Base, UpOk, PhaseOk, PriorOk, CutsOk, BeginOk, EvictedRings, Enumerates, CarryBytes, RateBytes, Noted;
    hide Installed, Scan, Encode, RecoverLines, Rebuilt;
  }

  // ---- over a run ----

  /** What is sure stays in every later history; and as long as the machine does
      not lose power, everything does. */
  lemma {:induction false} HistoryOnlyGrows(tx: Text, cfg: Config, trace: seq<State>, steps: seq<Step>, i: nat, j: nat)
    requires Faithful(tx) && cfg.Valid() && Run(tx, cfg, trace, steps) && i <= j < |trace|
    ensures 0 <= Sure(trace[i]) <= |trace[i].hist| && Sure(trace[i]) <= Sure(trace[j]) <= |trace[j].hist|
    ensures trace[i].hist[..Sure(trace[i])] <= trace[j].hist
    ensures (forall k :: i <= k < j ==> !steps[k].PowerFail?) ==>
              trace[i].hist <= trace[j].hist && trace[i].acks <= trace[j].acks
    decreases j
  {
    hide Next, Inv, Faithful, Sure;
    RunInv(tx, cfg, trace, steps, j);
    if i == j {
      SureBounds(tx, cfg, trace[i]);
    } else {
      HistoryOnlyGrows(tx, cfg, trace, steps, i, j - 1);
      RunInv(tx, cfg, trace, steps, j - 1);
      SureStep(tx, cfg, trace[j - 1], steps[j - 1], trace[j]);
    }
  }

  lemma SureBounds(tx: Text, cfg: Config, s: State)
    requires Inv(tx, cfg, s)
    ensures 0 <= Sure(s) <= |s.hist|
  {
    hide Inv, FirmLines;
    FirmBounds(tx, cfg, s);
  }

  /** Only lines within the synced bytes are acknowledged. */
  ghost predicate AcksFirm(s: State) { forall n :: n in s.acks ==> n < FirmLines(s) }

  lemma AcksStep(tx: Text, cfg: Config, s: State, step: Step, s': State)
    requires Inv(tx, cfg, s) && Next(tx, cfg, s, step, s') && AcksFirm(s)
    ensures AcksFirm(s')
  {
    hide FirmLines, Inv, DoBegin, DoRotateBegin, DoWriteIntent, DoStartRates, DoWriteRate, DoRestart, DoStartFail;
    if step.PowerFail? {
      PowerFailSure(tx, cfg, s, step.back, step.keep, step.machine, s');
    } else if step.Rename? {
      RenameSure(tx, cfg, s, s');
      FirmBounds(tx, cfg, s);
    } else {
      FirmStep(tx, cfg, s, step, s');
      if step.Reply? { ReplyFirm(tx, cfg, s, s'); } else { SameAcks(tx, cfg, s, step, s'); }
    }
  }

  lemma ReplyFirm(tx: Text, cfg: Config, s: State, s': State)
    requires Inv(tx, cfg, s) && DoReply(s, s')
    ensures FirmLines(s') == |s.hist| && s'.acks <= s.acks + {|s.hist| - 1}
  {
    hide FirmLines, Base, MemOk, CutsOk, CleanFile, PriorOk;
    AllIsFirm(s');
  }

  lemma SameAcks(tx: Text, cfg: Config, s: State, step: Step, s': State)
    requires Next(tx, cfg, s, step, s') && !step.Reply? && !step.PowerFail?
    ensures s'.acks == s.acks
  {
    hide BeginOk, EvictedRings, Enumerates, CarryBytes, RateBytes, Noted, Installed, Scan, Encode, RecoverLines;
    hide Rebuilt;
  }

  lemma {:induction false} RunAcks(tx: Text, cfg: Config, trace: seq<State>, steps: seq<Step>, i: nat)
    requires Faithful(tx) && cfg.Valid() && Run(tx, cfg, trace, steps) && i < |trace|
    ensures AcksFirm(trace[i])
    decreases i
  {
    hide Next, Inv, Faithful, AcksFirm;
    if i == 0 {
      assert AcksFirm(INIT) by { NoAcks(INIT); }
    } else {
      RunInv(tx, cfg, trace, steps, i - 1);
      RunAcks(tx, cfg, trace, steps, i - 1);
      AcksStep(tx, cfg, trace[i - 1], steps[i - 1], trace[i]);
    }
  }

  lemma NoAcks(s: State)
    requires s.acks == {}
    ensures AcksFirm(s)
  {
  }

  // ---- exactly when an acknowledged line is safe ----

  /** No rename or creation is in doubt, or the line is from before it. */
  predicate Safe(s: State, n: nat) { s.disk.prior.None? || n < s.base }

  lemma SafeIsSure(s: State, n: nat)
    requires AcksFirm(s) && n in s.acks
    ensures n < Sure(s) <==> Safe(s, n)
  {
    hide FirmLines;
  }

  /** A safe acknowledged line is in the history from then on, whatever fails,
      and every later recovery rebuilds a history that contains it. */
  lemma AcknowledgedSurvives(tx: Text, cfg: Config, trace: seq<State>, steps: seq<Step>, i: nat, j: nat, n: nat)
    requires Faithful(tx) && cfg.Valid() && Run(tx, cfg, trace, steps) && i <= j < |trace| && n in trace[i].acks
    requires Safe(trace[i], n)
    ensures n < |trace[i].hist| && n < |trace[j].hist| && trace[j].hist[n] == trace[i].hist[n]
    ensures trace[j].proc.Down? && Recover(tx, trace[j].disk.sink).Ok? ==>
              Recovers(cfg, Recover(tx, trace[j].disk.sink).value, trace[j].hist, trace[j].clock)
  {
    hide Next, Faithful, AcksFirm, Sure, Recover, Recovers;
    RunAcks(tx, cfg, trace, steps, i);
    SafeIsSure(trace[i], n);
    HistoryOnlyGrows(tx, cfg, trace, steps, i, j);
    assert trace[i].hist[n] == trace[i].hist[..Sure(trace[i])][n];
    if trace[j].proc.Down? { RecoveryRebuildsHistory(tx, cfg, trace, steps, j); }
  }

  // ---- exactly when any line is safe ----

  /** The line is there, whatever happens next. */
  ghost predicate NeverLost(tx: Text, cfg: Config, s: State, n: nat)
    requires n < |s.hist|
  {
    forall s' :: Reaches(tx, cfg, s, s') ==> n < |s'.hist| && s'.hist[n] == s.hist[n]
  }

  /** A line, acknowledged or not, survives every continuation if and only if it
      is among those that are sure. */
  lemma SurvivesIffSure(tx: Text, cfg: Config, trace: seq<State>, steps: seq<Step>, n: nat)
    requires Faithful(tx) && cfg.Valid() && Run(tx, cfg, trace, steps) && n < |trace[|trace| - 1].hist|
    ensures NeverLost(tx, cfg, trace[|trace| - 1], n) <==> n < Sure(trace[|trace| - 1])
  {
    hide Next, Inv, Faithful, Reaches, FirmLines;
    var s := trace[|trace| - 1];
    RunInv(tx, cfg, trace, steps, |trace| - 1);
    if n < Sure(s) {
      forall s' | Reaches(tx, cfg, s, s') ensures n < |s'.hist| && s'.hist[n] == s.hist[n] {
        var trace', steps' := ReachesExtendsRun(tx, cfg, trace, steps, s');
        HistoryOnlyGrows(tx, cfg, trace', steps', |trace| - 1, |trace'| - 1);
        assert s.hist[n] == s.hist[..Sure(s)][n];
      }
    } else if n < FirmLines(s) {
      var s' := RolledBack(tx, cfg, s);
    } else {
      var s' := CutBack(tx, cfg, s);
    }
  }

  /** An acknowledged line survives every continuation if and only if it is
      safe. */
  lemma SurvivesIffSafe(tx: Text, cfg: Config, trace: seq<State>, steps: seq<Step>, n: nat)
    requires Faithful(tx) && cfg.Valid() && Run(tx, cfg, trace, steps) && n in trace[|trace| - 1].acks
    ensures n < |trace[|trace| - 1].hist|
    ensures NeverLost(tx, cfg, trace[|trace| - 1], n) <==> Safe(trace[|trace| - 1], n)
  {
    hide Next, Inv, Faithful, AcksFirm, Sure, NeverLost;
    RunInv(tx, cfg, trace, steps, |trace| - 1);
    AckInHistory(tx, cfg, trace[|trace| - 1], n);
    RunAcks(tx, cfg, trace, steps, |trace| - 1);
    SafeIsSure(trace[|trace| - 1], n);
    SurvivesIffSure(tx, cfg, trace, steps, n);
  }

  lemma AckInHistory(tx: Text, cfg: Config, s: State, n: nat)
    requires Inv(tx, cfg, s) && n in s.acks
    ensures n < |s.hist|
  {
  }

  lemma {:induction false} LongerThanAll(ids: set<string>) returns (k: nat)
    ensures forall x :: x in ids ==> |x| < k
  {
    if ids == {} {
      k := 0;
    } else {
      var x :| x in ids;
      k := LongerThanAll(ids - {x});
      k := if |x| < k then k else |x| + 1;
      forall y | y in ids ensures |y| < k { if y != x { assert y in ids - {x}; } }
    }
  }

  lemma FreshId(ids: set<string>) returns (id: string)
    ensures id !in ids
  {
    var k := LongerThanAll(ids);
    id := seq(k, _ => 'x');
    assert |id| == k;
  }

  lemma Dies(tx: Text, cfg: Config, s: State) returns (s': State)
    requires Inv(tx, cfg, s)
    ensures Reaches(tx, cfg, s, s') && s'.proc.Down? && s'.disk.prior == s.disk.prior && s'.base == s.base
    ensures s.hist <= s'.hist && s'.past == s.past && s'.disk.firm == s.disk.firm && FirmLines(s') == FirmLines(s)
    ensures Inv(tx, cfg, s')
  {
    hide Reaches, Base, UpOk, PriorOk, CarryingOk, RatesOk, WritingOk, FirmLines;
    ReachesSelf(tx, cfg, s);
    s' := s;
    if s.proc.Up? {
      var p := s.proc.phase;
      var landed: nat := if p.Faulted? then p.landed else 0;
      var sink := if InFlight(p) then Solid(s.disk, p) + Landing(p.line, landed) else s.disk.sink;
      s' := s.(proc := Down, disk := s.disk.(sink := sink),
               hist := if Whole(p, landed) then s.hist + [p.rec] else s.hist);
      ReachesStep(tx, cfg, s, s, Kill(landed), s');
      KillFirm(tx, cfg, s, landed, s');
      KillInv(tx, cfg, s, landed, s');
    }
  }

  lemma KillFirm(tx: Text, cfg: Config, s: State, landed: nat, s': State)
    requires Inv(tx, cfg, s) && DoKill(s, landed, s')
    ensures FirmLines(s') == FirmLines(s)
  {
    hide Base, MemOk, PhaseOk, CutOk, CleanFile, Solid, Scan, InStep;
    FirmBounds(tx, cfg, s);
    LinesLanded(tx, cfg, s, landed, s');
    NotFaulted(s);
    assert Kept(s')[..s.disk.firm] == Kept(s)[..s.disk.firm];
    InStepCounts(s, s');
  }

  lemma InStepCounts(s: State, s': State)
    requires InStep(s, s')
    ensures |Scan(Kept(s')).lines| - |Scan(Kept(s)).lines| == |s'.hist| - |s.hist|
  {
    hide Scan, Kept;
  }

  /** The process dies, the power goes, and the rename is undone. */
  lemma RolledBack(tx: Text, cfg: Config, s: State) returns (s': State)
    requires Inv(tx, cfg, s) && s.disk.prior.Some?
    ensures Reaches(tx, cfg, s, s') && s.base <= |s.hist| && s'.hist == s.hist[..s.base]
    ensures s'.proc.Down? && s'.disk.sink == s.disk.prior.value
  {
    hide Reaches, Base, UpOk, PhaseOk;
    var down := Dies(tx, cfg, s);
    var id := FreshId(s.past.machines);
    var back := s.disk.prior.value;
    var h := s.hist[..s.base];
    assert down.hist[..s.base] == h;
    s' := down.(disk := Disk(back, |back|, back != [], None, None, map[]), hist := h, boot := |h|,
                acks := (set i | i in down.acks && i < |h|),
                past := down.past.(machine := id, machines := down.past.machines + {id}));
    ReachesStep(tx, cfg, s, down, PowerFail(true, 0, id), s');
  }

  /** The process dies, the power goes, and nothing that was not synced is left. */
  lemma CutBack(tx: Text, cfg: Config, s: State) returns (s': State)
    requires Inv(tx, cfg, s)
    ensures Reaches(tx, cfg, s, s') && |s'.hist| == FirmLines(s)
  {
    hide Reaches, Base, UpOk, PhaseOk, PriorOk, Scan;
    var down := Dies(tx, cfg, s);
    FirmBounds(tx, cfg, down);
    var id := FreshId(s.past.machines);
    var firm := down.disk.firm;
    var h := Survives(down, false, firm);
    s' := down.(disk := Disk(down.disk.sink[..firm], firm, down.disk.made, None, None, map[]), hist := h, boot := |h|,
                acks := (set i | i in down.acks && i < |h|),
                past := down.past.(machine := id, machines := down.past.machines + {id}));
    ReachesStep(tx, cfg, s, down, PowerFail(false, firm, id), s');
  }
}
