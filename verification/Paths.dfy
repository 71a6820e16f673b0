/** Chaining machine steps: what the imperative broker does between two points
    is a path of the machine, so everything proved of runs applies to it. */
module Paths {
  import opened Types
  import opened Recovery
  import opened Machine
  import opened Safety
  import opened Runs

  ghost predicate Leads(tx: Text, cfg: Config, a: State, steps: seq<Step>, b: State) {
    if steps == [] then a == b
    else
      var earlier, last := steps[..|steps| - 1], steps[|steps| - 1];
      exists m :: Leads(tx, cfg, a, earlier, m) && Next(tx, cfg, m, last, b)
  }

  ghost predicate Reaches(tx: Text, cfg: Config, a: State, b: State) {
    exists steps :: Leads(tx, cfg, a, steps, b)
  }

  lemma ReachesSelf(tx: Text, cfg: Config, a: State)
    ensures Reaches(tx, cfg, a, a)
  {
    assert Leads(tx, cfg, a, [], a);
  }

  lemma LeadsStep(tx: Text, cfg: Config, a: State, steps: seq<Step>, b: State, step: Step, c: State)
    requires Leads(tx, cfg, a, steps, b) && Next(tx, cfg, b, step, c)
    ensures Leads(tx, cfg, a, steps + [step], c)
  {
    assert (steps + [step])[..|steps|] == steps;
  }

  lemma ReachesStep(tx: Text, cfg: Config, a: State, b: State, step: Step, c: State)
    requires Reaches(tx, cfg, a, b) && Next(tx, cfg, b, step, c)
    ensures Reaches(tx, cfg, a, c)
  {
    var steps :| Leads(tx, cfg, a, steps, b);
    LeadsStep(tx, cfg, a, steps, b, step, c);
  }

  lemma {:induction false} LeadsOn(tx: Text, cfg: Config, a: State, b: State, steps: seq<Step>, c: State)
    requires Reaches(tx, cfg, a, b) && Leads(tx, cfg, b, steps, c)
    ensures Reaches(tx, cfg, a, c)
    decreases |steps|
  {
    if steps != [] {
      var m :| Leads(tx, cfg, b, steps[..|steps| - 1], m) && Next(tx, cfg, m, steps[|steps| - 1], c);
      LeadsOn(tx, cfg, a, b, steps[..|steps| - 1], m);
      ReachesStep(tx, cfg, a, m, steps[|steps| - 1], c);
    }
  }

  lemma ReachesOn(tx: Text, cfg: Config, a: State, b: State, c: State)
    requires Reaches(tx, cfg, a, b) && Reaches(tx, cfg, b, c)
    ensures Reaches(tx, cfg, a, c)
  {
    var steps :| Leads(tx, cfg, b, steps, c);
    LeadsOn(tx, cfg, a, b, steps, c);
  }

  lemma {:induction false} LeadsExtendsRun(tx: Text, cfg: Config, trace: seq<State>, steps: seq<Step>, more: seq<Step>,
                                           b: State)
    returns (trace': seq<State>, steps': seq<Step>)
    requires Run(tx, cfg, trace, steps) && Leads(tx, cfg, trace[|trace| - 1], more, b)
    ensures Run(tx, cfg, trace', steps') && trace <= trace' && trace'[|trace'| - 1] == b
    decreases |more|
  {
    hide Next;
    if more == [] {
      trace', steps' := trace, steps;
    } else {
      var a, last := trace[|trace| - 1], more[|more| - 1];
      var m :| Leads(tx, cfg, a, more[..|more| - 1], m) && Next(tx, cfg, m, last, b);
      var t, ss := LeadsExtendsRun(tx, cfg, trace, steps, more[..|more| - 1], m);
      trace', steps' := t + [b], ss + [last];
      forall i | 0 <= i < |steps'| ensures Next(tx, cfg, trace'[i], steps'[i], trace'[i + 1]) {
        if i < |ss| { assert trace'[i] == t[i] && trace'[i + 1] == t[i + 1] && steps'[i] == ss[i]; }
      }
    }
  }

  /** A path from the end of a run is a longer run. */
  lemma ReachesExtendsRun(tx: Text, cfg: Config, trace: seq<State>, steps: seq<Step>, b: State)
    returns (trace': seq<State>, steps': seq<Step>)
    requires Run(tx, cfg, trace, steps) && Reaches(tx, cfg, trace[|trace| - 1], b)
    ensures Run(tx, cfg, trace', steps') && trace <= trace' && trace'[|trace'| - 1] == b
  {
    var more :| Leads(tx, cfg, trace[|trace| - 1], more, b);
    trace', steps' := LeadsExtendsRun(tx, cfg, trace, steps, more, b);
  }

  lemma {:induction false} LeadsKeepsInv(tx: Text, cfg: Config, a: State, steps: seq<Step>, b: State)
    requires Faithful(tx) && cfg.Valid() && Inv(tx, cfg, a) && Leads(tx, cfg, a, steps, b)
    ensures Inv(tx, cfg, b)
    decreases |steps|
  {
    hide Next, Inv, Faithful;
    if steps != [] {
      var m :| Leads(tx, cfg, a, steps[..|steps| - 1], m) && Next(tx, cfg, m, steps[|steps| - 1], b);
      LeadsKeepsInv(tx, cfg, a, steps[..|steps| - 1], m);
      NextInv(tx, cfg, m, steps[|steps| - 1], b);
    }
  }

  lemma ReachesKeepsInv(tx: Text, cfg: Config, a: State, b: State)
    requires Faithful(tx) && cfg.Valid() && Inv(tx, cfg, a) && Reaches(tx, cfg, a, b)
    ensures Inv(tx, cfg, b)
  {
    hide Leads, Inv, Faithful;
    var steps :| Leads(tx, cfg, a, steps, b);
    LeadsKeepsInv(tx, cfg, a, steps, b);
  }

  lemma PruneOne(tx: Text, cfg: Config, from: State, s: State, ts: nat)
    requires Reaches(tx, cfg, from, s) && s.proc.Up? && s.proc.phase.Settled? && !s.proc.mem.poisoned
    ensures Reaches(tx, cfg, from, s.(disk := s.disk.(archives := s.disk.archives - {ts})))
  {
    ReachesStep(tx, cfg, from, s, Prune(ts), s.(disk := s.disk.(archives := s.disk.archives - {ts})));
  }

  /** Unlinking any archives, one at a time. */
  lemma {:induction false} PrunePath(tx: Text, cfg: Config, from: State, s: State, gone: set<nat>)
    requires Reaches(tx, cfg, from, s) && s.proc.Up? && s.proc.phase.Settled? && !s.proc.mem.poisoned
    ensures Reaches(tx, cfg, from, s.(disk := s.disk.(archives := s.disk.archives - gone)))
    decreases |gone|
  {
    if gone == {} {
      assert s.disk.archives - gone == s.disk.archives;
    } else {
      var ts :| ts in gone;
      PruneOne(tx, cfg, from, s, ts);
      PrunePath(tx, cfg, from, s.(disk := s.disk.(archives := s.disk.archives - {ts})), gone - {ts});
      assert s.disk.archives - {ts} - (gone - {ts}) == s.disk.archives - gone;
    }
  }
}
