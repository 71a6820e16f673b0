/** A receipt is spent once for good. Where a redeemed line stays in the history
    the history itself rules out a second; where a power failure took it, the
    machine has a new boot id, under which no receipt from before is good. */
module Spending {
  import opened Types
  import opened Lines
  import opened Lifecycle
  import opened Records
  import opened History
  import opened Guarantees
  import opened Recovery
  import opened Carry
  import opened Machine
  import opened Safety
  import opened Rotation
  import opened Runs

  predicate GrantLine(r: Rec, c: string) { r.s.ReceiptRecord? && r.s.cid == c }

  ghost predicate RedeemedIn(h: seq<Rec>, c: string) { exists i :: 0 <= i < |h| && RedeemedLine(h[i], c) }

  /** Whatever receipt lines are left are from an earlier boot, and the intent
      was not opened in this lifetime, so no new one will follow. */
  ghost predicate Dead(s: State, c: string) {
    && c in s.past.cids && !OpenedHere(s.hist, s.boot, c)
    && forall r :: r in s.hist && GrantLine(r, c) ==> r.s.receipt.bootId != s.past.machine
  }

  ghost predicate Known(p: Past, h: seq<Rec>) {
    && p.machine in p.machines && p.spent <= p.cids
    && (forall r :: r in h && r.s.ReceiptRecord? ==> r.s.receipt.bootId in p.machines)
    && (forall r :: r in h && Mints(r.s) ==> r.s.cid in p.cids)
  }

  /** The line in flight revives nothing. */
  ghost predicate FlightOk(s: State, rec: Rec) {
    && Known(s.past, [rec])
    && forall c :: c in s.past.spent && !RedeemedIn(s.hist, c) ==> !GrantLine(rec, c) && !IntentLine(rec, c)
  }

  ghost predicate PastOk(s: State) {
    && Known(s.past, s.hist)
    && (forall c :: c in s.past.spent ==> RedeemedIn(s.hist, c) || Dead(s, c))
    && (s.proc.Up? && InFlight(s.proc.phase) ==> FlightOk(s, s.proc.phase.rec))
  }

  // ---- receipts and their lines ----

  /** Only a receipt line gives an intent the receipt it has. */
  lemma WhoGrants(opens: Opens, r: Rec, c: string)
    requires c in Installed(opens, r.s) && Installed(opens, r.s)[c].receipt.Some?
    ensures if GrantLine(r, c) then r.s.receipt == Installed(opens, r.s)[c].receipt.value
            else c in opens && opens[c].receipt == Installed(opens, r.s)[c].receipt
  {
  }

  lemma NothingAtFirst(cfg: Config, h: seq<Rec>)
    requires IsHistory(cfg, h)
    ensures At(cfg, h, 0).opens == map[]
  {
    assert h[..0] == [];
  }

  /** An open intent's receipt was granted by a line of the history. */
  lemma {:induction false} ReceiptHasLine(cfg: Config, h: seq<Rec>, k: nat, c: string) returns (i: nat)
    requires IsHistory(cfg, h) && k <= |h| && c in At(cfg, h, k).opens && At(cfg, h, k).opens[c].receipt.Some?
    ensures i < k && GrantLine(h[i], c) && h[i].s.receipt == At(cfg, h, k).opens[c].receipt.value
    decreases k
  {
    hide IsHistory, Installed, At, Apply;
    if k == 0 {
      NothingAtFirst(cfg, h);
    } else {
      AtNext(cfg, h, k - 1);
      WhoGrants(At(cfg, h, k - 1).opens, h[k - 1], c);
      if GrantLine(h[k - 1], c) {
        i := k - 1;
      } else {
        i := ReceiptHasLine(cfg, h, k - 1, c);
      }
    }
  }

  lemma RedeemedStays(cfg: Config, h: seq<Rec>, i: nat, j: nat, c: string)
    requires IsHistory(cfg, h) && i < j <= |h| && RedeemedLine(h[i], c) && c in At(cfg, h, j).opens
    ensures At(cfg, h, j).opens[c].receipt.Some? && At(cfg, h, j).opens[c].receipt.value.state.Redeemed?
  {
    AtNext(cfg, h, i);
    AdmittedKind(cfg, h, i);
    LaterAt(cfg, h, i + 1, j, c);
    AtDisjoint(cfg, h, j);
  }

  /** A receipt that could still be redeemed is not spent. */
  lemma RedeemableNotSpent(tx: Text, cfg: Config, s: State, c: string)
    requires Inv(tx, cfg, s) && PastOk(s) && s.proc.Up? && c in s.proc.mem.opens && s.proc.mem.opens[c].receipt.Some?
    requires s.proc.mem.opens[c].receipt.value.state.Issued?
    requires s.proc.mem.opens[c].receipt.value.bootId == s.past.machine
    ensures c !in s.past.spent
  {
    hide RingsOk, GlobalOk, CleanFile, CutsOk, PhaseOk, PriorOk, Before, Replay, IsHistory, FlightOk;
    var h, o := s.hist, s.proc.mem.opens[c].receipt.value;
    AtIs(cfg, h, |h|, h);
    assert h[..|h|] == h;
    var meant := At(cfg, h, |h|).opens;
    assert Unflagged(s.proc.mem.opens[c]) == Unflagged(meant[c]);
    var i := ReceiptHasLine(cfg, h, |h|, c);
    assert h[i] in h;
    if RedeemedIn(h, c) {
      var j :| 0 <= j < |h| && RedeemedLine(h[j], c);
      RedeemedStays(cfg, h, j, |h|, c);
    }
  }

  // ---- one step ----

  lemma BeginPast(tx: Text, cfg: Config, s: State, rec: Rec, line: Line, s': State)
    requires Inv(tx, cfg, s) && PastOk(s) && DoBegin(tx, cfg, s, rec, line, s')
    ensures PastOk(s')
  {
    hide Base, UpOk, PhaseOk, PriorOk, LineFor, FreshCid, RedeemedIn, IntentOk, BoundToIntent, VerifierInUse, ReceiptOk;
    forall c | c in s.past.spent && !RedeemedIn(s.hist, c) ensures !GrantLine(rec, c) && !IntentLine(rec, c) {
      assert Dead(s, c);
      if GrantLine(rec, c) && rec.s.receipt.state.Redeemed? {
        RedeemableNotSpent(tx, cfg, s, c);
      }
    }
    forall c | c in s'.past.spent ensures RedeemedIn(s'.hist, c) || Dead(s', c) {
      assert RedeemedIn(s.hist, c) || Dead(s, c);
    }
  }

  lemma RedeemedOn(h: seq<Rec>, r: Rec, c: string)
    ensures RedeemedIn(h, c) ==> RedeemedIn(h + [r], c)
    ensures RedeemedLine(r, c) ==> RedeemedIn(h + [r], c)
  {
    if RedeemedIn(h, c) {
      var i :| 0 <= i < |h| && RedeemedLine(h[i], c);
      assert (h + [r])[i] == h[i];
    }
    assert (h + [r])[|h|] == r;
  }

  lemma StillDead(s: State, s': State, rec: Rec, c: string)
    requires Dead(s, c) && s'.hist == s.hist + [rec] && s'.boot == s.boot && s'.past.machine == s.past.machine
    requires s.past.cids <= s'.past.cids && !GrantLine(rec, c) && !IntentLine(rec, c)
    ensures Dead(s', c)
  {
  }

  /** The line in flight joins the history. */
  lemma GrownPast(s: State, s': State)
    requires PastOk(s) && s.proc.Up? && InFlight(s.proc.phase) && s'.hist == s.hist + [s.proc.phase.rec]
    requires s'.boot == s.boot && s'.past == s.past.(spent := s'.past.spent) && s'.past.spent <= s.past.cids
    requires s'.past.spent <= s.past.spent + Spends(s.proc.phase.rec) && !(s'.proc.Up? && InFlight(s'.proc.phase))
    ensures PastOk(s')
  {
    hide RedeemedIn, Dead;
    var rec := s.proc.phase.rec;
    assert rec in [rec];
    forall c | c in s'.past.spent ensures RedeemedIn(s'.hist, c) || Dead(s', c) {
      RedeemedOn(s.hist, rec, c);
      if !RedeemedIn(s'.hist, c) { StillDead(s, s', rec, c); }
    }
  }

  lemma AppendPast(tx: Text, cfg: Config, s: State, s': State)
    requires Inv(tx, cfg, s) && PastOk(s) && DoAppendOk(cfg, s, s')
    ensures PastOk(s')
  {
    hide UpOk, PriorOk, LineFor, Installed, Noted, Admitted, IsHistory, PastOk;
    var rec := s.proc.phase.rec;
    assert Spends(rec) <= s.past.cids by { SpentWasMinted(cfg, s, rec); }
    assert s.past.spent <= s.past.cids by { SpentKnown(s); }
    GrownPast(s, s');
  }

  lemma SpentKnown(s: State)
    requires PastOk(s)
    ensures s.past.spent <= s.past.cids
  {
  }

  lemma SpentWasMinted(cfg: Config, s: State, rec: Rec)
    requires IsHistory(cfg, s.hist) && Admitted(cfg, s.hist, rec) && PastOk(s)
    ensures Spends(rec) <= s.past.cids
  {
    hide Admitted, IsHistory, RedeemedIn, Dead, FlightOk;
    if rec.s.ReceiptRecord? && rec.s.receipt.state.Redeemed? {
      var h := s.hist + [rec];
      assert IsHistory(cfg, h) by { OneMore(cfg, s.hist, rec); }
      var i := RedemptionMatchesIntent(cfg, h, |s.hist|, rec.s.cid);
      assert s.hist[i] == h[i] && s.hist[i] in s.hist;
      PhasesDistinct();
    }
  }

  lemma OneMore(cfg: Config, h: seq<Rec>, rec: Rec)
    requires IsHistory(cfg, h) && Admitted(cfg, h, rec)
    ensures IsHistory(cfg, h + [rec])
  {
    assert (h + [rec])[..|h|] == h;
  }

  lemma KillPast(s: State, landed: nat, s': State)
    requires PastOk(s) && DoKill(s, landed, s')
    ensures PastOk(s')
  {
    hide RedeemedIn, Solid, Landing, GrantLine, IntentLine;
    if Whole(s.proc.phase, landed) {
      assert s.past.spent <= s.past.cids;
      GrownPast(s, s');
    } else {
      SamePast(s, s');
    }
  }

  lemma SamePast(s: State, s': State)
    requires PastOk(s) && s'.hist == s.hist && s'.boot >= s.boot && s'.past == s.past
    requires s'.proc.Up? && InFlight(s'.proc.phase) ==>
               s.proc.Up? && InFlight(s.proc.phase) && s'.proc.phase.rec == s.proc.phase.rec
    ensures PastOk(s')
  {
    hide RedeemedIn, GrantLine, IntentLine;
    forall c | c in s'.past.spent ensures RedeemedIn(s'.hist, c) || Dead(s', c) {
      assert RedeemedIn(s.hist, c) || Dead(s, c);
    }
  }

  /** A new boot id: everything spent stays spent. */
  lemma PowerFailPast(tx: Text, cfg: Config, s: State, back: bool, keep: nat, machine: string, s': State)
    requires PastOk(s) && DoPowerFail(s, back, keep, machine, s') && s'.hist <= s.hist
    ensures PastOk(s')
  {
    hide RedeemedIn, Survives;
    assert forall r :: r in s'.hist ==> r in s.hist;
    forall c | c in s'.past.spent ensures Dead(s', c) {}
  }

  lemma OtherPast(tx: Text, cfg: Config, s: State, step: Step, s': State)
    requires Inv(tx, cfg, s) && PastOk(s) && Next(tx, cfg, s, step, s')
    requires !step.Begin? && !step.AppendOk? && !step.Kill? && !step.PowerFail?
    ensures PastOk(s')
  {
    hide UpOk, PhaseOk, PriorOk, CutsOk, PastOk, IsHistory, Before, EvictedRings, Enumerates, CarryBytes, RateBytes;
    hide Scan, Encode, RecoverLines, Rebuilt;
    SamePast(s, s');
  }

  lemma PastStep(tx: Text, cfg: Config, s: State, step: Step, s': State)
    requires Inv(tx, cfg, s) && PastOk(s) && Next(tx, cfg, s, step, s')
    ensures PastOk(s')
  {
    hide PastOk, Inv, DoRotateBegin, DoWriteIntent, DoStartRates, DoWriteRate, DoRestart, DoStartFail;
    match step
    case Begin(rec, line) => BeginPast(tx, cfg, s, rec, line, s');
    case AppendOk => AppendPast(tx, cfg, s, s');
    case Kill(landed) => KillPast(s, landed, s');
    case PowerFail(back, keep, machine) => ShorterPast(tx, cfg, s, back, keep, machine, s');
    case _ => OtherPast(tx, cfg, s, step, s');
  }

  lemma ShorterPast(tx: Text, cfg: Config, s: State, back: bool, keep: nat, machine: string, s': State)
    requires PastOk(s) && DoPowerFail(s, back, keep, machine, s')
    ensures PastOk(s')
  {
    hide PastOk, Lost;
    PowerFailPast(tx, cfg, s, back, keep, machine, s');
  }

  // ---- over a run ----

  lemma NothingSpent()
    ensures PastOk(INIT)
  {
  }

  lemma {:induction false} RunPast(tx: Text, cfg: Config, trace: seq<State>, steps: seq<Step>, i: nat)
    requires Faithful(tx) && cfg.Valid() && Run(tx, cfg, trace, steps) && i < |trace|
    ensures PastOk(trace[i])
    decreases i
  {
    hide Next, Inv, Faithful, PastOk;
    if i == 0 {
      NothingSpent();
    } else {
      RunInv(tx, cfg, trace, steps, i - 1);
      RunPast(tx, cfg, trace, steps, i - 1);
      PastStep(tx, cfg, trace[i - 1], steps[i - 1], trace[i]);
    }
  }

  lemma SpentStep(tx: Text, cfg: Config, s: State, step: Step, s': State)
    requires Next(tx, cfg, s, step, s')
    ensures s.past.spent <= s'.past.spent
  {
    hide BeginOk, EvictedRings, Enumerates, CarryBytes, RateBytes, Noted, Installed, Scan, Encode, RecoverLines;
    hide Rebuilt;
  }

  lemma {:induction false} SpentStays(tx: Text, cfg: Config, trace: seq<State>, steps: seq<Step>, i: nat, j: nat)
    requires Run(tx, cfg, trace, steps) && i <= j < |trace|
    ensures trace[i].past.spent <= trace[j].past.spent
    decreases j
  {
    hide Next;
    if i < j {
      SpentStays(tx, cfg, trace, steps, i, j - 1);
      SpentStep(tx, cfg, trace[j - 1], steps[j - 1], trace[j]);
    }
  }

  /** The step makes a redemption of this id durable. */
  predicate Redeems(s: State, step: Step, c: string) {
    step.AppendOk? && s.proc.Up? && s.proc.phase.Writing? && RedeemedLine(s.proc.phase.rec, c)
  }

  /** What is in flight to be redeemed is not spent. */
  lemma InFlightNotSpent(tx: Text, cfg: Config, s: State, c: string)
    requires Inv(tx, cfg, s) && PastOk(s) && s.proc.Up? && s.proc.phase.Writing? && RedeemedLine(s.proc.phase.rec, c)
    ensures c !in s.past.spent
  {
    hide UpOk, PriorOk, Before, LineFor, Admitted, IsHistory, Known, Dead;
    var h := s.hist + [s.proc.phase.rec];
    if RedeemedIn(s.hist, c) {
      var i :| 0 <= i < |s.hist| && RedeemedLine(s.hist[i], c);
      OneMore(cfg, s.hist, s.proc.phase.rec);
      assert h[i] == s.hist[i];
      RedeemedAtMostOnce(cfg, h, i, |s.hist|, c);
    }
  }

  /** Over a whole run, through any failures and also where the line was lost
      again, no correlation id is redeemed twice. */
  lemma RedeemedOnceOverRun(tx: Text, cfg: Config, trace: seq<State>, steps: seq<Step>, i: nat, j: nat, c: string)
    requires Faithful(tx) && cfg.Valid() && Run(tx, cfg, trace, steps) && i < j < |steps|
    requires Redeems(trace[i], steps[i], c)
    ensures !Redeems(trace[j], steps[j], c)
  {
    hide Inv, Faithful, PastOk, RedeemedLine;
    if Redeems(trace[j], steps[j], c) {
      assert c in trace[i + 1].past.spent by { RedeemSpends(tx, cfg, trace[i], trace[i + 1], c); }
      SpentStays(tx, cfg, trace, steps, i + 1, j);
      RunInv(tx, cfg, trace, steps, j);
      RunPast(tx, cfg, trace, steps, j);
      InFlightNotSpent(tx, cfg, trace[j], c);
    }
  }

  lemma RedeemSpends(tx: Text, cfg: Config, s: State, s': State, c: string)
    requires Next(tx, cfg, s, AppendOk, s') && Redeems(s, AppendOk, c)
    ensures c in s'.past.spent
  {
  }
}
