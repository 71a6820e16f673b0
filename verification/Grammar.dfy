/** Which segments replay accepts, stated without replaying them: each
    correlation id's own records must lie in a small grammar, and no receipt may
    be installed while another open intent holds its verifier. */
module Grammar {
  import opened Types
  import opened Lifecycle

  // ---- the declared grammar of one correlation id ----

  predicate Carries(first: Stored, s: Stored) {
    s.Checkpoint? && first.IsOpener() && s.binding == first.binding && s.actor == first.actor
  }

  predicate Grants(first: Stored, s: Stored) {
    s.ReceiptRecord? && first.IsOpener() && BoundToIntent(s.receipt, Opened(first)) &&
    (s.checkpoint ==> first.Checkpoint?)
  }

  function Receipts(w: seq<Stored>): (rs: seq<Stored>)
    ensures forall r :: r in rs ==> r in w && r.ReceiptRecord?
    ensures forall r :: r in w && r.ReceiptRecord? ==> r in rs
  {
    if w == [] then []
    else Receipts(w[..|w| - 1]) + (if w[|w| - 1].ReceiptRecord? then [w[|w| - 1]] else [])
  }

  predicate Redeems(a: Receipt, b: Receipt) {
    a.state.Issued? && b == a.(state := Redeemed, acceptedUs := b.acceptedUs)
  }

  /** The first receipt is a carry or freshly issued; each later one repeats the
      one before it or redeems it. */
  predicate ReceiptsOk(rs: seq<Stored>)
    requires forall r :: r in rs ==> r.ReceiptRecord?
  {
    && (rs != [] ==> rs[0].checkpoint || rs[0].receipt.state.Issued?)
    && forall i :: 0 < i < |rs| ==>
         rs[i].receipt == rs[i - 1].receipt || Redeems(rs[i - 1].receipt, rs[i].receipt)
  }

  /** Opened once, then identical carries and consistent receipts, at most one
      outcome, and nothing after the outcome. */
  predicate InGrammar(w: seq<Stored>) {
    w != [] ==>
      && w[0].IsOpener() && w[0].binding != ""
      && (forall k :: 0 < k < |w| ==> Follows(w, k))
      && ReceiptsOk(Receipts(w))
  }

  predicate Follows(w: seq<Stored>, k: int)
    requires 0 < k < |w|
  {
    if w[k].IsOutcome() then k == |w| - 1 else Carries(w[0], w[k]) || Grants(w[0], w[k])
  }

  // ---- one correlation id, stepwise ----

  datatype Cell = Fresh | Live(it: Intent) | Done | Bad

  function CellReceipt(it: Intent, s: Stored): Cell
    requires s.ReceiptRecord?
  {
    if !BoundToIntent(s.receipt, it) || (s.checkpoint && !it.fromCheckpoint) then Bad
    else if it.receipt.None? then
      if s.checkpoint || s.receipt.state.Issued? then Live(it.(receipt := Some(s.receipt))) else Bad
    else if s.receipt == it.receipt.value then Live(it)
    else if Redeems(it.receipt.value, s.receipt) then Live(it.(receipt := Some(s.receipt)))
    else Bad
  }

  function CellStep(cell: Cell, s: Stored): Cell
    requires s.Lifecycle()
  {
    match cell
    case Fresh => if s.IsOpener() && s.binding != "" then Live(Opened(s)) else Bad
    case Live(it) =>
      if s.IsOutcome() then Done
      else if s.ReceiptRecord? then CellReceipt(it, s)
      else if s.Checkpoint? && s.binding != "" && it.binding == s.binding && it.actor == s.actor then cell
      else Bad
    case Done => Bad
    case Bad => Bad
  }

  function CellRun(w: seq<Stored>): Cell
    requires forall s :: s in w ==> s.Lifecycle()
  {
    if w == [] then Fresh else CellStep(CellRun(w[..|w| - 1]), w[|w| - 1])
  }

  lemma CellRunSnoc(w: seq<Stored>, s: Stored)
    requires s.Lifecycle() && forall x :: x in w ==> x.Lifecycle()
    ensures CellRun(w + [s]) == CellStep(CellRun(w), s)
  {
    assert (w + [s])[..|w|] == w;
  }

  function CellMeaning(w: seq<Stored>): Cell {
    if !InGrammar(w) then Bad
    else if w == [] then Fresh
    else if w[|w| - 1].IsOutcome() then Done
    else
      Live(Opened(w[0]).(receipt := LastReceipt(Receipts(w))))
  }

  lemma ReceiptsSnoc(w: seq<Stored>, s: Stored)
    ensures Receipts(w + [s]) == if s.ReceiptRecord? then Receipts(w) + [s] else Receipts(w)
  {
    assert (w + [s])[..|w|] == w;
  }

  lemma ReceiptsOkSnoc(rs: seq<Stored>, s: Stored)
    requires s.ReceiptRecord? && forall r :: r in rs ==> r.ReceiptRecord?
    ensures ReceiptsOk(rs + [s]) <==>
            && ReceiptsOk(rs)
            && NextReceipt(LastReceipt(rs), s)
  {
    var t := rs + [s];
    assert forall i :: 0 <= i < |rs| ==> t[i] == rs[i];
    assert t[|rs|] == s;
    if ReceiptsOk(t) {
      forall i | 0 < i < |rs|
        ensures rs[i].receipt == rs[i - 1].receipt || Redeems(rs[i - 1].receipt, rs[i].receipt)
      {
        assert t[i] == rs[i] && t[i - 1] == rs[i - 1];
      }
    }
  }

  /** Only an outcome's place depends on what comes after it. */
  lemma FollowsSnoc(w: seq<Stored>, s: Stored, k: int)
    requires 0 < k < |w|
    ensures Follows(w + [s], k) <==> Follows(w, k) && !w[k].IsOutcome()
  {
    assert (w + [s])[k] == w[k] && (w + [s])[0] == w[0];
  }

  lemma GrammarPrefix(w: seq<Stored>, s: Stored)
    requires InGrammar(w + [s])
    ensures InGrammar(w)
  {
    if w != [] {
      assert (w + [s])[0] == w[0];
      ReceiptsSnoc(w, s);
      if s.ReceiptRecord? { ReceiptsOkSnoc(Receipts(w), s); }
      forall k | 0 < k < |w| ensures Follows(w, k) {
        assert Follows(w + [s], k);
        FollowsSnoc(w, s, k);
      }
    }
  }

  lemma GrammarSnoc(w: seq<Stored>, s: Stored)
    requires w != [] && InGrammar(w) && s.Lifecycle()
    ensures InGrammar(w + [s]) <==>
            && !w[|w| - 1].IsOutcome()
            && (s.IsOutcome() || Carries(w[0], s) || Grants(w[0], s))
            && ReceiptsOk(Receipts(w + [s]))
  {
    hide Receipts, ReceiptsOk, Carries, Grants;
    var t := w + [s];
    assert t[0] == w[0] && t[|w|] == s;
    if InGrammar(t) {
      assert Follows(t, |w|);
      if |w| > 1 {
        assert Follows(t, |w| - 1);
        FollowsSnoc(w, s, |w| - 1);
      }
    }
    if !w[|w| - 1].IsOutcome() && (s.IsOutcome() || Carries(w[0], s) || Grants(w[0], s)) {
      forall k | 0 < k < |t| ensures Follows(t, k) {
        if k < |w| {
          assert Follows(w, k);
          FollowsSnoc(w, s, k);
        }
      }
    }
  }

  lemma FirstStepIsGrammar(s: Stored)
    requires s.Lifecycle()
    ensures CellStep(Fresh, s) == CellMeaning([s])
  {
    ReceiptsSnoc([], s);
    assert [] + [s] == [s];
  }

  function LastReceipt(rs: seq<Stored>): Option<Receipt>
    requires forall r :: r in rs ==> r.ReceiptRecord?
  {
    if rs == [] then None else Some(rs[|rs| - 1].receipt)
  }

  predicate NextReceipt(last: Option<Receipt>, s: Stored)
    requires s.ReceiptRecord?
  {
    if last.None? then s.checkpoint || s.receipt.state.Issued?
    else s.receipt == last.value || Redeems(last.value, s.receipt)
  }

  lemma CellReceiptIs(first: Stored, last: Option<Receipt>, s: Stored)
    requires first.IsOpener() && s.ReceiptRecord?
    ensures CellReceipt(Opened(first).(receipt := last), s) ==
            if Grants(first, s) && NextReceipt(last, s) then Live(Opened(first).(receipt := Some(s.receipt))) else Bad
  {
  }

  lemma MeaningOfLive(w: seq<Stored>)
    requires w != [] && InGrammar(w) && !w[|w| - 1].IsOutcome()
    ensures w[0].IsOpener() && ReceiptsOk(Receipts(w))
    ensures CellMeaning(w) == Live(Opened(w[0]).(receipt := LastReceipt(Receipts(w))))
  {
  }

  lemma ReceiptStepIsGrammar(w: seq<Stored>, s: Stored)
    requires w != [] && InGrammar(w) && s.ReceiptRecord? && !w[|w| - 1].IsOutcome()
    ensures CellStep(CellMeaning(w), s) == CellMeaning(w + [s])
  {
    hide InGrammar, Receipts, ReceiptsOk, Grants, Redeems, CellReceipt;
    GrammarSnoc(w, s);
    ReceiptsSnoc(w, s);
    ReceiptsOkSnoc(Receipts(w), s);
    var t := w + [s];
    assert t[0] == w[0] && t[|t| - 1] == s;
    MeaningOfLive(w);
    CellReceiptIs(w[0], LastReceipt(Receipts(w)), s);
    if InGrammar(t) { MeaningOfLive(t); }
  }

  lemma OtherStepIsGrammar(w: seq<Stored>, s: Stored)
    requires w != [] && InGrammar(w) && s.Lifecycle()
    requires s.ReceiptRecord? ==> w[|w| - 1].IsOutcome()
    ensures CellStep(CellMeaning(w), s) == CellMeaning(w + [s])
  {
    GrammarSnoc(w, s);
    ReceiptsSnoc(w, s);
    assert (w + [s])[0] == w[0] && (w + [s])[|w|] == s;
  }

  lemma CellStepIsGrammar(w: seq<Stored>, s: Stored)
    requires InGrammar(w) && s.Lifecycle()
    ensures CellStep(CellMeaning(w), s) == CellMeaning(w + [s])
  {
    if w == [] {
      assert w + [s] == [s];
      FirstStepIsGrammar(s);
    } else if s.ReceiptRecord? && !w[|w| - 1].IsOutcome() {
      ReceiptStepIsGrammar(w, s);
    } else {
      OtherStepIsGrammar(w, s);
    }
  }

  /** The stepwise automaton computes exactly the declared grammar. */
  lemma {:induction false} CellRunIsGrammar(w: seq<Stored>)
    requires forall s :: s in w ==> s.Lifecycle()
    ensures CellRun(w) == CellMeaning(w)
    ensures CellRun(w) == Bad <==> !InGrammar(w)
  {
    if w != [] {
      var v, s := w[..|w| - 1], w[|w| - 1];
      assert w == v + [s];
      CellRunIsGrammar(v);
      if InGrammar(w) { GrammarPrefix(v, s); }
      if InGrammar(v) { CellStepIsGrammar(v, s); }
    }
  }

  // ---- a whole segment ----

  predicate Of(s: Stored, c: string) { s.Lifecycle() && s.cid == c }

  /** The lifecycle records of one correlation id, in order. */
  function Project(recs: seq<Stored>, c: string): (w: seq<Stored>)
    ensures forall s :: s in w ==> Of(s, c) && s in recs
    ensures forall s :: s in recs && Of(s, c) ==> s in w
  {
    if recs == [] then []
    else Project(recs[..|recs| - 1], c) + (if Of(recs[|recs| - 1], c) then [recs[|recs| - 1]] else [])
  }

  lemma ProjectSnoc(recs: seq<Stored>, s: Stored, c: string)
    ensures Project(recs + [s], c) == if Of(s, c) then Project(recs, c) + [s] else Project(recs, c)
  {
    assert (recs + [s])[..|recs|] == recs;
  }

  function CellAt(recs: seq<Stored>, c: string): Cell { CellRun(Project(recs, c)) }

  lemma CellAtSnoc(recs: seq<Stored>, s: Stored, c: string)
    ensures CellAt(recs + [s], c) == if Of(s, c) then CellStep(CellAt(recs, c), s) else CellAt(recs, c)
  {
    ProjectSnoc(recs, s, c);
    if Of(s, c) { CellRunSnoc(Project(recs, c), s); }
  }

  predicate HoldsVerifier(cell: Cell, v: string) {
    cell.Live? && cell.it.receipt.Some? && cell.it.receipt.value.verifier == v
  }

  /** The last record installs a first receipt whose verifier another open
      intent holds. */
  ghost predicate ClashAfter(recs: seq<Stored>, s: Stored) {
    s.ReceiptRecord? && CellAt(recs, s.cid).Live? && CellAt(recs, s.cid).it.receipt.None? &&
    exists d :: HoldsVerifier(CellAt(recs, d), s.receipt.verifier)
  }

  ghost predicate NoClash(recs: seq<Stored>) {
    forall i :: 0 <= i < |recs| ==> !ClashAfter(recs[..i], recs[i])
  }

  lemma NoClashSnoc(recs: seq<Stored>, s: Stored)
    ensures NoClash(recs + [s]) <==> NoClash(recs) && !ClashAfter(recs, s)
  {
    var t := recs + [s];
    assert t[..|recs|] == recs && t[|recs|] == s;
    assert forall i :: 0 <= i < |recs| ==> t[..i] == recs[..i] && t[i] == recs[i];
    if NoClash(t) {
      forall i | 0 <= i < |recs| ensures !ClashAfter(recs[..i], recs[i]) {
        assert !ClashAfter(t[..i], t[i]);
      }
    }
  }

  function CellOf(l: Life, c: string): Cell {
    if c in l.opens then Live(l.opens[c]) else if c in l.closed then Done else Fresh
  }

  /** Replay's state, read cell by cell. */
  ghost predicate Agrees(l: Life, recs: seq<Stored>) {
    l.opens.Keys !! l.closed && forall c :: CellOf(l, c) == CellAt(recs, c)
  }

  ghost predicate EveryCellGood(recs: seq<Stored>) {
    forall c :: CellAt(recs, c) != Bad
  }

  predicate LifeClash(l: Life, s: Stored) {
    s.ReceiptRecord? && s.cid in l.opens && l.opens[s.cid].receipt.None? &&
    VerifierInUse(l.opens, s.receipt.verifier)
  }

  lemma ApplyOneCell(l: Life, s: Stored)
    requires s.Lifecycle() && l.opens.Keys !! l.closed
    ensures Apply(l, s).Ok? <==> CellStep(CellOf(l, s.cid), s) != Bad && !LifeClash(l, s)
    ensures Apply(l, s).Ok? ==> CellOf(Apply(l, s).value, s.cid) == CellStep(CellOf(l, s.cid), s)
  {
  }

  lemma ApplyOtherCells(l: Life, s: Stored)
    requires l.opens.Keys !! l.closed && Apply(l, s).Ok?
    ensures Apply(l, s).value.opens.Keys !! Apply(l, s).value.closed
    ensures forall c :: !Of(s, c) ==> CellOf(Apply(l, s).value, c) == CellOf(l, c)
  {
  }

  lemma LifeClashAgrees(l: Life, recs: seq<Stored>, s: Stored)
    requires Agrees(l, recs)
    ensures LifeClash(l, s) <==> ClashAfter(recs, s)
  {
    assert forall c :: CellOf(l, c) == CellAt(recs, c);
    if LifeClash(l, s) {
      var c :| c in l.opens && l.opens[c].receipt.Some? && l.opens[c].receipt.value.verifier == s.receipt.verifier;
      assert HoldsVerifier(CellAt(recs, c), s.receipt.verifier);
    }
  }

  lemma ApplyAgrees(l: Life, recs: seq<Stored>, s: Stored)
    requires Agrees(l, recs) && EveryCellGood(recs)
    ensures Apply(l, s).Ok? <==> EveryCellGood(recs + [s]) && !ClashAfter(recs, s)
    ensures Apply(l, s).Ok? ==> Agrees(Apply(l, s).value, recs + [s])
  {
    LifeClashAgrees(l, recs, s);
    forall c ensures CellAt(recs + [s], c) == if Of(s, c) then CellStep(CellAt(recs, c), s) else CellAt(recs, c) {
      CellAtSnoc(recs, s, c);
    }
    if s.Lifecycle() {
      ApplyOneCell(l, s);
      assert CellOf(l, s.cid) == CellAt(recs, s.cid);
      assert CellAt(recs + [s], s.cid) == CellStep(CellAt(recs, s.cid), s);
    }
    if Apply(l, s).Ok? { ApplyOtherCells(l, s); }
  }

  /** Replay accepts a segment exactly when every correlation id is in the
      grammar and no verifier clashes; it then computes each cell. */
  lemma {:induction false} ReplayCells(recs: seq<Stored>)
    ensures Replay(recs).Ok? <==> EveryCellGood(recs) && NoClash(recs)
    ensures Replay(recs).Ok? ==> Agrees(Replay(recs).value, recs)
  {
    if recs == [] {
      forall c ensures Project(recs, c) == [] && CellAt(recs, c) == Fresh {}
    } else {
      var v, s := recs[..|recs| - 1], recs[|recs| - 1];
      assert recs == v + [s];
      ReplayCells(v);
      ReplaySnoc(v, s);
      NoClashSnoc(v, s);
      if EveryCellGood(recs) {
        forall c ensures CellAt(v, c) != Bad {
          CellAtSnoc(v, s, c);
          assert CellAt(recs, c) != Bad;
        }
      }
      if Replay(v).Ok? { ApplyAgrees(Replay(v).value, v, s); }
    }
  }

  ghost predicate EveryCidInGrammar(recs: seq<Stored>) {
    forall c :: InGrammar(Project(recs, c))
  }

  /** The acceptance theorem in the grammar's own terms. */
  lemma ReplayAcceptsGrammar(recs: seq<Stored>)
    ensures Replay(recs).Ok? <==> EveryCidInGrammar(recs) && NoClash(recs)
  {
    ReplayCells(recs);
    if EveryCellGood(recs) {
      forall c ensures InGrammar(Project(recs, c)) {
        assert CellAt(recs, c) != Bad;
        CellRunIsGrammar(Project(recs, c));
      }
    }
    if EveryCidInGrammar(recs) {
      forall c ensures CellAt(recs, c) != Bad {
        CellRunIsGrammar(Project(recs, c));
      }
    }
  }

  // ---- order between different correlation ids ----

  ghost predicate DistinctVerifiers(recs: seq<Stored>) {
    forall a, b :: a in recs && b in recs && a.ReceiptRecord? && b.ReceiptRecord? && a.cid != b.cid ==>
      a.receipt.verifier != b.receipt.verifier
  }

  lemma {:induction false} HeldVerifierWasRecorded(recs: seq<Stored>, d: string, v: string)
    requires HoldsVerifier(CellAt(recs, d), v)
    ensures exists r :: r in recs && r.ReceiptRecord? && r.cid == d && r.receipt.verifier == v
  {
    if recs != [] {
      var u, s := recs[..|recs| - 1], recs[|recs| - 1];
      assert recs == u + [s];
      CellAtSnoc(u, s, d);
      if HoldsVerifier(CellAt(u, d), v) {
        HeldVerifierWasRecorded(u, d, v);
      } else {
        assert s in recs;
      }
    }
  }

  lemma DistinctMeansNoClash(recs: seq<Stored>)
    requires DistinctVerifiers(recs)
    ensures NoClash(recs)
  {
    forall i | 0 <= i < |recs| ensures !ClashAfter(recs[..i], recs[i]) {
      if ClashAfter(recs[..i], recs[i]) {
        var d :| HoldsVerifier(CellAt(recs[..i], d), recs[i].receipt.verifier);
        HeldVerifierWasRecorded(recs[..i], d, recs[i].receipt.verifier);
      }
    }
  }

  lemma AgreesDetermines(a: Life, b: Life, x: seq<Stored>, y: seq<Stored>)
    requires Agrees(a, x) && Agrees(b, y) && forall c :: Project(x, c) == Project(y, c)
    ensures a == b
  {
    assert forall c :: CellOf(a, c) == CellAt(x, c) && Project(x, c) == Project(y, c) && CellOf(b, c) == CellAt(y, c);
    assert forall c :: CellOf(a, c) == CellOf(b, c) by {
      forall c ensures CellOf(a, c) == CellOf(b, c) {
        assert CellOf(a, c) == CellAt(x, c) && CellOf(b, c) == CellAt(y, c);
      }
    }
    forall c ensures c in a.opens <==> c in b.opens {
      assert CellOf(a, c) == CellOf(b, c);
    }
    forall c | c in a.opens ensures a.opens[c] == b.opens[c] {
      assert CellOf(a, c) == CellOf(b, c);
    }
    forall c ensures c in a.closed <==> c in b.closed {
      assert CellOf(a, c) == CellOf(b, c);
    }
    assert a.opens == b.opens;
    assert a.closed == b.closed;
  }

  lemma SameProjectionsSameVerifiers(x: seq<Stored>, y: seq<Stored>)
    requires forall c :: Project(x, c) == Project(y, c)
    requires DistinctVerifiers(x)
    ensures DistinctVerifiers(y)
  {
    forall s | s in y && s.ReceiptRecord? ensures s in x {
      assert s in Project(y, s.cid);
      assert Project(x, s.cid) == Project(y, s.cid);
    }
  }

  lemma SameProjectionsSameCells(x: seq<Stored>, y: seq<Stored>)
    requires forall c :: Project(x, c) == Project(y, c)
    ensures EveryCellGood(x) ==> EveryCellGood(y)
  {
    if EveryCellGood(x) {
      forall c ensures CellAt(y, c) != Bad {
        assert CellAt(x, c) != Bad && Project(x, c) == Project(y, c);
      }
    }
  }

  /** With distinct verifiers only the order within each correlation id
      matters: any two interleavings are accepted alike and mean the same. */
  lemma ReorderingChangesNothing(x: seq<Stored>, y: seq<Stored>)
    requires forall c :: Project(x, c) == Project(y, c)
    requires DistinctVerifiers(x)
    ensures Replay(x).Ok? <==> Replay(y).Ok?
    ensures Replay(x).Ok? ==> Replay(x).value == Replay(y).value
  {
    SameProjectionsSameVerifiers(x, y);
    DistinctMeansNoClash(x);
    DistinctMeansNoClash(y);
    SameProjectionsSameCells(x, y);
    SameProjectionsSameCells(y, x);
    ReplayCells(x);
    ReplayCells(y);
    if Replay(x).Ok? { AgreesDetermines(Replay(x).value, Replay(y).value, x, y); }
  }
}
