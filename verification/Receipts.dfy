/** A receipt stays what it was issued as. Of all the receipt lines a history ever
    holds for one correlation id there is a single identity, through rotations,
    restarts and power failures, so what is redeemed is what was issued. */
module Receipts {
  import opened Types
  import opened Lines
  import opened Lifecycle
  import opened Records
  import opened History
  import opened Guarantees
  import opened Recovery
  import opened Carry
  import opened Machine
  import opened Safety
  import opened Runs
  import opened Paths
  import opened Spending

  ghost predicate Granted(h: seq<Rec>, c: string) { exists r :: r in h && GrantLine(r, c) }

  /** Every receipt line for the id, kept or in flight, is one of this receipt. An
      intent of this lifetime has its receipt line, so no other will be issued. */
  ghost predicate OneReceipt(s: State, c: string, o: Receipt) {
    && c in s.past.cids
    && (forall r :: r in s.hist && GrantLine(r, c) ==> SameIdentity(r.s.receipt, o))
    && (OpenedHere(s.hist, s.boot, c) ==> Granted(s.hist, c))
    && (s.proc.Up? && InFlight(s.proc.phase) ==> FlightIs(s.proc.phase.rec, c, o))
  }

  predicate FlightIs(rec: Rec, c: string, o: Receipt) {
    !IntentLine(rec, c) && (GrantLine(rec, c) ==> SameIdentity(rec.s.receipt, o))
  }

  /** What memory holds for an open intent is what its line says. */
  lemma HeldIsALine(tx: Text, cfg: Config, s: State, c: string) returns (r: Rec)
    requires Inv(tx, cfg, s) && s.proc.Up? && c in s.proc.mem.opens && s.proc.mem.opens[c].receipt.Some?
    ensures r in s.hist && GrantLine(r, c) && r.s.receipt == s.proc.mem.opens[c].receipt.value
  {
    hide RingsOk, GlobalOk, CleanFile, CutsOk, PhaseOk, PriorOk, Before, Replay, IsHistory;
    var h := s.hist;
    AtIs(cfg, h, |h|, h);
    assert h[..|h|] == h;
    assert Unflagged(s.proc.mem.opens[c]) == Unflagged(At(cfg, h, |h|).opens[c]);
    var i := ReceiptHasLine(cfg, h, |h|, c);
    r := h[i];
  }

  /** An open intent with a receipt line has a receipt. */
  lemma GrantedHolds(tx: Text, cfg: Config, s: State, c: string)
    requires Inv(tx, cfg, s) && s.proc.Up? && c in s.proc.mem.opens && Granted(s.hist, c)
    ensures s.proc.mem.opens[c].receipt.Some?
  {
    hide RingsOk, GlobalOk, CleanFile, CutsOk, PhaseOk, PriorOk, Before, Replay, IsHistory;
    var h := s.hist;
    AtIs(cfg, h, |h|, h);
    assert h[..|h|] == h;
    assert Unflagged(s.proc.mem.opens[c]) == Unflagged(At(cfg, h, |h|).opens[c]);
    var r :| r in h && GrantLine(r, c);
    var i :| 0 <= i < |h| && h[i] == r;
    if r.s.receipt.state.Issued? {
      IssuedStays(cfg, h, i, |h|, c);
    } else {
      RedeemedStays(cfg, h, i, |h|, c);
    }
  }

  // ---- one step ----

  lemma BeginReceipt(tx: Text, cfg: Config, s: State, rec: Rec, line: Line, s': State, c: string, o: Receipt)
    requires Inv(tx, cfg, s) && OneReceipt(s, c, o) && DoBegin(tx, cfg, s, rec, line, s')
    ensures OneReceipt(s', c, o)
  {
    hide Inv, LineFor, FreshCid, IntentOk, BoundToIntent, VerifierInUse, ReceiptOk, Granted, OpenedHere;
    if GrantLine(rec, c) {
      if rec.s.receipt.state.Redeemed? {
        var r := HeldIsALine(tx, cfg, s, c);
      } else {
        GrantedHolds(tx, cfg, s, c);
      }
    }
  }

  lemma GrownReceipt(s: State, s': State, c: string, o: Receipt)
    requires OneReceipt(s, c, o) && s.proc.Up? && InFlight(s.proc.phase) && s'.hist == s.hist + [s.proc.phase.rec]
    requires s'.boot == s.boot && s'.past.cids == s.past.cids && !(s'.proc.Up? && InFlight(s'.proc.phase))
    ensures OneReceipt(s', c, o)
  {
    hide SameIdentity;
    if OpenedHere(s'.hist, s'.boot, c) {
      var i :| s'.boot <= i < |s'.hist| && IntentLine(s'.hist[i], c);
      assert s.hist[i] == s'.hist[i];
      assert OpenedHere(s.hist, s.boot, c);
      var r :| r in s.hist && GrantLine(r, c);
      assert r in s'.hist;
    }
  }

  /** The history is as it was, or what is left of it begins a new lifetime. */
  lemma SameReceipt(s: State, s': State, c: string, o: Receipt)
    requires OneReceipt(s, c, o) && s'.hist <= s.hist && s'.past.cids == s.past.cids
    requires (s'.hist == s.hist && s'.boot == s.boot) || s'.boot == |s'.hist|
    requires s'.proc.Up? && InFlight(s'.proc.phase) ==>
               s.proc.Up? && InFlight(s.proc.phase) && s'.proc.phase.rec == s.proc.phase.rec
    ensures OneReceipt(s', c, o)
  {
    hide SameIdentity, GrantLine, FlightIs;
    assert forall r :: r in s'.hist ==> r in s.hist;
  }

  lemma OtherReceipt(tx: Text, cfg: Config, s: State, step: Step, s': State, c: string, o: Receipt)
    requires OneReceipt(s, c, o) && Next(tx, cfg, s, step, s')
    requires !step.Begin? && !step.AppendOk? && !step.Kill? && !step.PowerFail?
    ensures OneReceipt(s', c, o)
  {
    hide OneReceipt, EvictedRings, Enumerates, CarryBytes, RateBytes, Scan, Encode, RecoverLines, Rebuilt;
    SameReceipt(s, s', c, o);
  }

  lemma KillReceipt(s: State, landed: nat, s': State, c: string, o: Receipt)
    requires OneReceipt(s, c, o) && DoKill(s, landed, s')
    ensures OneReceipt(s', c, o)
  {
    hide OneReceipt, Solid, Landing;
    if Whole(s.proc.phase, landed) { GrownReceipt(s, s', c, o); } else { SameReceipt(s, s', c, o); }
  }

  lemma PowerFailReceipt(s: State, back: bool, keep: nat, machine: string, s': State, c: string, o: Receipt)
    requires OneReceipt(s, c, o) && DoPowerFail(s, back, keep, machine, s')
    ensures OneReceipt(s', c, o)
  {
    hide OneReceipt, Lost;
    SameReceipt(s, s', c, o);
  }

  lemma ReceiptStep(tx: Text, cfg: Config, s: State, step: Step, s': State, c: string, o: Receipt)
    requires Inv(tx, cfg, s) && OneReceipt(s, c, o) && Next(tx, cfg, s, step, s')
    ensures OneReceipt(s', c, o)
  {
    hide OneReceipt, Inv, DoRotateBegin, DoWriteIntent, DoStartRates, DoWriteRate, DoRestart, DoStartFail, DoBegin;
    match step
    case Begin(rec, line) => BeginReceipt(tx, cfg, s, rec, line, s', c, o);
    case AppendOk => GrownReceipt(s, s', c, o);
    case Kill(landed) => KillReceipt(s, landed, s', c, o);
    case PowerFail(back, keep, machine) => PowerFailReceipt(s, back, keep, machine, s', c, o);
    case _ => OtherReceipt(tx, cfg, s, step, s', c, o);
  }

  // ---- over a path ----

  lemma {:induction false} LeadsReceipt(tx: Text, cfg: Config, a: State, steps: seq<Step>, b: State, c: string,
                                        o: Receipt)
    requires Faithful(tx) && cfg.Valid() && Inv(tx, cfg, a) && OneReceipt(a, c, o) && Leads(tx, cfg, a, steps, b)
    ensures Inv(tx, cfg, b) && OneReceipt(b, c, o)
    decreases |steps|
  {
    hide Next, Inv, Faithful, OneReceipt;
    if steps != [] {
      var last := steps[|steps| - 1];
      var m :| Leads(tx, cfg, a, steps[..|steps| - 1], m) && Next(tx, cfg, m, last, b);
      LeadsReceipt(tx, cfg, a, steps[..|steps| - 1], m, c, o);
      ReceiptStep(tx, cfg, m, last, b, c, o);
      NextInv(tx, cfg, m, last, b);
    }
  }

  /** Whatever happens after a receipt was issued, the intent's receipt is that
      one, as long as the intent has one. */
  lemma ReceiptStaysAsIssued(tx: Text, cfg: Config, a: State, b: State, c: string, o: Receipt)
    requires Faithful(tx) && cfg.Valid() && Inv(tx, cfg, a) && OneReceipt(a, c, o) && Reaches(tx, cfg, a, b)
    requires b.proc.Up? && c in b.proc.mem.opens && b.proc.mem.opens[c].receipt.Some?
    ensures SameIdentity(b.proc.mem.opens[c].receipt.value, o)
  {
    hide Leads, Inv, Faithful;
    var steps :| Leads(tx, cfg, a, steps, b);
    LeadsReceipt(tx, cfg, a, steps, b, c, o);
    var r := HeldIsALine(tx, cfg, b, c);
  }

  /** Right after an intent and its receipt were written they are all there is. */
  lemma JustIssued(tx: Text, cfg: Config, s: State, n: nat, c: string)
    requires Inv(tx, cfg, s) && PastOk(s) && s.proc.Up? && s.proc.phase.Idle? && |s.hist| == n + 2
    requires IntentLine(s.hist[n], c) && IssuedLine(s.hist[n + 1], c)
    ensures OneReceipt(s, c, s.hist[n + 1].s.receipt) && !RedeemedIn(s.hist, c)
  {
    hide UpOk, PhaseOk, PriorOk, Before, IsHistory, FlightOk, Dead;
    var h := s.hist;
    AdmittedKind(cfg, h, n);
    assert h[n] in h;
    forall k | 0 <= k < n ensures !GrantLine(h[k], c) { assert h[k] in h[..n]; }
    assert h[n + 1] in h && GrantLine(h[n + 1], c);
    PhasesDistinct();
  }
}
