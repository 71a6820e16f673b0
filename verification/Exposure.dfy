/** Which acknowledged lines can still be lost, told from the steps of the run
    alone, and what a single failure leaves. */
module Exposure {
  import opened Types
  import opened Lines
  import opened History
  import opened Recovery
  import opened Carry
  import opened Machine
  import opened Safety
  import opened Rotation
  import opened Runs
  import opened Durability

  /** The name of the sink changes, or appears, without the directory synced. */
  predicate Unsyncs(step: Step) { step.Rename? || (step.StartFail? && step.create) }

  /** The directory is synced, or the machine comes up with what it finds. */
  predicate Settles(step: Step) { step.SyncDir? || step.RotateBegin? || step.PowerFail? }

  /** The n-th line was appended at step a, after a restart at step q that found
      the rename or creation of step r unsynced, and nothing settled it since. */
  ghost predicate ExposedAt(trace: seq<State>, steps: seq<Step>, i: nat, n: nat, r: nat, q: nat, a: nat)
    requires |trace| == |steps| + 1 && i < |trace|
  {
    && r < q < a < i && Unsyncs(steps[r]) && steps[q].Restart?
    && |trace[a].hist| == n && |trace[a + 1].hist| == n + 1
    && forall k :: r < k < i ==> !Settles(steps[k])
  }

  ghost predicate Exposed(trace: seq<State>, steps: seq<Step>, i: nat, n: nat)
    requires |trace| == |steps| + 1 && i < |trace|
  {
    exists r: nat, q: nat, a: nat :: ExposedAt(trace, steps, i, n, r, q, a)
  }

  // ---- one step ----

  lemma DoubtBegins(tx: Text, cfg: Config, s: State, step: Step, s': State)
    requires Inv(tx, cfg, s) && Next(tx, cfg, s, step, s')
    ensures Unsyncs(step) ==> s'.disk.prior.Some? && s'.base == |s.hist| && s'.hist == s.hist && Stuck(s')
    ensures s.disk.prior.None? && s'.disk.prior.Some? ==> Unsyncs(step)
  {
    hide Base, UpOk, PhaseOk, PriorOk, CutsOk, BeginOk, EvictedRings, Enumerates, CarryBytes, RateBytes, Noted;
    hide Installed, Scan, Encode, RecoverLines, Rebuilt;
  }

  lemma DoubtStays(tx: Text, cfg: Config, s: State, step: Step, s': State)
    requires Inv(tx, cfg, s) && Next(tx, cfg, s, step, s') && s.disk.prior.Some?
    ensures !Unsyncs(step) && (s'.disk.prior.Some? <==> !Settles(step))
    ensures !Settles(step) ==> s'.base == s.base && s.hist <= s'.hist && |s'.hist| <= |s.hist| + 1
  {
    hide Base, UpOk, PhaseOk, CutsOk, CleanFile, BeginOk, EvictedRings, Enumerates, CarryBytes, RateBytes, Noted;
    hide Installed, Scan, Encode, RecoverLines, Rebuilt;
  }

  /** The process that could not sync the rename appends nothing more. */
  predicate Stuck(s: State) {
    s.proc.Up? ==> s.proc.phase.Swapped? || (s.proc.mem.poisoned && (s.proc.phase.Settled? || s.proc.phase.Idle?))
  }

  lemma StuckStep(tx: Text, cfg: Config, s: State, step: Step, s': State)
    requires Next(tx, cfg, s, step, s') && Stuck(s) && !Settles(step) && !step.Restart?
    ensures Stuck(s') && s'.hist == s.hist
  {
    hide LineFor, IdsOk, AdmitsStep, EvictedRings, Enumerates, CarryBytes, RateBytes, Noted, Installed, Scan, Encode;
  }

  // ---- over the run ----

  /** The rename that is in doubt. */
  lemma {:induction false} WhichRename(tx: Text, cfg: Config, trace: seq<State>, steps: seq<Step>, i: nat)
    returns (r: nat)
    requires Faithful(tx) && cfg.Valid() && Run(tx, cfg, trace, steps) && i < |trace| && trace[i].disk.prior.Some?
    ensures r < i && Unsyncs(steps[r]) && trace[i].base == |trace[r].hist| && Stuck(trace[r + 1])
    ensures trace[r + 1].hist == trace[r].hist && forall k :: r < k < i ==> !Settles(steps[k])
    decreases i
  {
    hide Next, Inv, Faithful, Stuck;
    if i > 0 {
      var s := trace[i - 1];
      RunInv(tx, cfg, trace, steps, i - 1);
      DoubtBegins(tx, cfg, s, steps[i - 1], trace[i]);
      if s.disk.prior.Some? {
        DoubtStays(tx, cfg, s, steps[i - 1], trace[i]);
        r := WhichRename(tx, cfg, trace, steps, i - 1);
      } else {
        r := i - 1;
      }
    }
  }

  /** The doubt lasts, and the history only grows. */
  lemma {:induction false} DoubtLasts(tx: Text, cfg: Config, trace: seq<State>, steps: seq<Step>, r: nat, i: nat)
    requires Faithful(tx) && cfg.Valid() && Run(tx, cfg, trace, steps) && r < i < |trace| && Unsyncs(steps[r])
    requires forall k :: r < k < i ==> !Settles(steps[k])
    ensures trace[i].disk.prior.Some? && trace[i].base == |trace[r].hist| && |trace[r].hist| <= |trace[i].hist|
    decreases i
  {
    hide Next, Inv, Faithful, Unsyncs;
    RunInv(tx, cfg, trace, steps, i - 1);
    if r < i - 1 {
      DoubtLasts(tx, cfg, trace, steps, r, i - 1);
      DoubtStays(tx, cfg, trace[i - 1], steps[i - 1], trace[i]);
    } else {
      DoubtBegins(tx, cfg, trace[r], steps[r], trace[i]);
    }
  }

  /** The step that appended the n-th line. */
  lemma {:induction false} WhichAppend(tx: Text, cfg: Config, trace: seq<State>, steps: seq<Step>, r: nat, i: nat,
                                       n: nat)
    returns (a: nat)
    requires Faithful(tx) && cfg.Valid() && Run(tx, cfg, trace, steps) && r < i < |trace| && Unsyncs(steps[r])
    requires forall k :: r < k < i ==> !Settles(steps[k])
    requires trace[r + 1].hist == trace[r].hist && |trace[r].hist| <= n < |trace[i].hist|
    ensures r < a < i && |trace[a].hist| == n && |trace[a + 1].hist| == n + 1
    decreases i
  {
    hide Next, Inv, Faithful, Unsyncs;
    if n < |trace[i - 1].hist| {
      a := WhichAppend(tx, cfg, trace, steps, r, i - 1, n);
    } else {
      a := i - 1;
      RunInv(tx, cfg, trace, steps, a);
      if r < a {
        DoubtLasts(tx, cfg, trace, steps, r, a);
        DoubtStays(tx, cfg, trace[a], steps[a], trace[i]);
      }
    }
  }

  lemma {:induction false} StuckUntilRestart(tx: Text, cfg: Config, trace: seq<State>, steps: seq<Step>, r: nat, a: nat)
    requires Run(tx, cfg, trace, steps) && r < a < |trace| && Stuck(trace[r + 1])
    requires forall k :: r < k < a ==> !Settles(steps[k]) && !steps[k].Restart?
    ensures Stuck(trace[a])
    decreases a
  {
    hide Next, Stuck;
    if r + 1 < a {
      StuckUntilRestart(tx, cfg, trace, steps, r, a - 1);
      StuckStep(tx, cfg, trace[a - 1], steps[a - 1], trace[a]);
    }
  }

  lemma RestartBetween(tx: Text, cfg: Config, trace: seq<State>, steps: seq<Step>, r: nat, a: nat) returns (q: nat)
    requires Run(tx, cfg, trace, steps) && r < a < |steps| && Stuck(trace[r + 1])
    requires (forall k :: r < k <= a ==> !Settles(steps[k])) && |trace[a].hist| < |trace[a + 1].hist|
    ensures r < q < a && steps[q].Restart?
  {
    hide Next, Stuck;
    if forall k :: r < k < a ==> !steps[k].Restart? {
      StuckUntilRestart(tx, cfg, trace, steps, r, a);
      if steps[a].Restart? {
        RestartAddsNothing(tx, cfg, trace[a], trace[a + 1]);
      } else {
        StuckStep(tx, cfg, trace[a], steps[a], trace[a + 1]);
      }
      assert false;
    }
    q :| r < q < a && steps[q].Restart?;
  }

  lemma RestartAddsNothing(tx: Text, cfg: Config, s: State, s': State)
    requires Next(tx, cfg, s, Restart, s')
    ensures s'.hist == s.hist
  {
  }

  /** An acknowledged line is safe if and only if it was not appended after a
      restart that found the rename, or the creation of the sink, unsynced, with
      no directory sync and no power failure since. */
  lemma SafeIffNotExposed(tx: Text, cfg: Config, trace: seq<State>, steps: seq<Step>, i: nat, n: nat)
    requires Faithful(tx) && cfg.Valid() && Run(tx, cfg, trace, steps) && i < |trace| && n in trace[i].acks
    ensures Safe(trace[i], n) <==> !Exposed(trace, steps, i, n)
  {
    hide Next, Inv, Faithful, Stuck, Unsyncs, Settles;
    RunInv(tx, cfg, trace, steps, i);
    AckInHistory(tx, cfg, trace[i], n);
    if !Safe(trace[i], n) {
      var r := WhichRename(tx, cfg, trace, steps, i);
      var a := WhichAppend(tx, cfg, trace, steps, r, i, n);
      var q := RestartBetween(tx, cfg, trace, steps, r, a);
      assert ExposedAt(trace, steps, i, n, r, q, a);
    }
    if Exposed(trace, steps, i, n) {
      var r: nat, q: nat, a: nat :| ExposedAt(trace, steps, i, n, r, q, a);
      DoubtLasts(tx, cfg, trace, steps, r, i);
      DoubtLasts(tx, cfg, trace, steps, r, a);
    }
  }

  // ---- the process that goes on regardless ----

  /** A running process with the rename in doubt is stuck, or it came up after
      the rename. */
  predicate DoubtOk(s: State) { s.proc.Up? && s.disk.prior.Some? ==> Stuck(s) || s.base <= s.boot }

  lemma DoubtStep(tx: Text, cfg: Config, s: State, step: Step, s': State)
    requires Inv(tx, cfg, s) && Next(tx, cfg, s, step, s') && DoubtOk(s)
    ensures DoubtOk(s')
  {
    hide Inv, Next, Stuck, Settles;
    if s'.proc.Up? && s'.disk.prior.Some? && !Unsyncs(step) {
      DoubtBegins(tx, cfg, s, step, s');
      DoubtStays(tx, cfg, s, step, s');
      BootStays(tx, cfg, s, step, s');
      if !step.Restart? && Stuck(s) { StuckStep(tx, cfg, s, step, s'); }
    } else {
      DoubtBegins(tx, cfg, s, step, s');
    }
  }

  lemma BootStays(tx: Text, cfg: Config, s: State, step: Step, s': State)
    requires Inv(tx, cfg, s) && Next(tx, cfg, s, step, s') && s.disk.prior.Some? && s'.proc.Up?
    ensures if step.Restart? then s.base <= s'.boot else s.proc.Up? && s'.boot == s.boot
  {
    hide Base, UpOk, PhaseOk, CutsOk, CleanFile, BeginOk, EvictedRings, Enumerates, CarryBytes, RateBytes, Noted;
    hide Installed, Scan, Encode, RecoverLines, Rebuilt;
    if step.Begin? { BeginUps(tx, cfg, s, step.rec, step.line, s'); }
  }

  lemma BeginUps(tx: Text, cfg: Config, s: State, rec: Rec, line: Line, s': State)
    requires DoBegin(tx, cfg, s, rec, line, s')
    ensures s.proc.Up?
  {
  }

  lemma {:induction false} RunDoubt(tx: Text, cfg: Config, trace: seq<State>, steps: seq<Step>, i: nat)
    requires Faithful(tx) && cfg.Valid() && Run(tx, cfg, trace, steps) && i < |trace|
    ensures DoubtOk(trace[i])
    decreases i
  {
    hide Next, Inv, Faithful, Stuck;
    if i > 0 {
      RunInv(tx, cfg, trace, steps, i - 1);
      RunDoubt(tx, cfg, trace, steps, i - 1);
      DoubtStep(tx, cfg, trace[i - 1], steps[i - 1], trace[i]);
    }
  }

  // ---- one failure ----

  /** If the process dies, every line stays and the one in flight is wholly in
      the history or wholly absent. If the power goes, what is left is a prefix
      of the history with everything that was sure, or exactly the history at
      the rename. Startup recovers precisely what is left. */
  lemma FailureIsAllOrNothing(tx: Text, cfg: Config, trace: seq<State>, steps: seq<Step>, i: nat)
    requires Faithful(tx) && cfg.Valid() && Run(tx, cfg, trace, steps) && i < |steps|
    requires steps[i].Kill? || steps[i].PowerFail?
    ensures trace[i + 1].proc.Down?
    ensures steps[i].Kill? ==>
              trace[i + 1].hist == trace[i].hist ||
              (trace[i].proc.Up? && InFlight(trace[i].proc.phase) &&
               trace[i + 1].hist == trace[i].hist + [trace[i].proc.phase.rec])
    ensures steps[i].PowerFail? ==> trace[i + 1].hist <= trace[i].hist && Sure(trace[i]) <= |trace[i + 1].hist|
    ensures steps[i].PowerFail? && steps[i].back ==> |trace[i + 1].hist| == trace[i].base
    ensures steps[i].PowerFail? ==> trace[i + 1].acks == set n | n in trace[i].acks && n < |trace[i + 1].hist|
    ensures var sink := trace[i + 1].disk.sink;
            && (Recover(tx, sink).Ok? <==> |sink| <= MAX_SEGMENT_BYTES && LinesRead(tx, Scan(sink).lines))
            && (Recover(tx, sink).Ok? ==> Recovers(cfg, Recover(tx, sink).value, trace[i + 1].hist, trace[i + 1].clock))
  {
    hide Faithful, Sure, Recover, Recovers, LinesRead, Scan, Inv, Solid, Landing;
    RunInv(tx, cfg, trace, steps, i);
    if steps[i].PowerFail? {
      PowerFailSure(tx, cfg, trace[i], steps[i].back, steps[i].keep, steps[i].machine, trace[i + 1]);
      if steps[i].back { PriorRecovers(tx, cfg, trace[i]); }
    }
    RecoveryRebuildsHistory(tx, cfg, trace, steps, i + 1);
  }
}
