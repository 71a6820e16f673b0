/** Every line the live checks admit, carried out on the indexed open table. */
module Installs {
  import opened Types
  import opened Lifecycle
  import opened Records
  import opened History
  import opened OpenSet

  lemma AdmittedCases(cfg: Config, h: seq<Rec>, opens: Opens, r: Rec)
    requires AdmitsStep(cfg, h, opens, r)
    ensures r.s.Audit? || r.s.ReceiptRecord?
    ensures r.s.IsOutcome() ==> r.s.cid in opens
    ensures r.s.ReceiptRecord? ==> r.s.cid in opens
    ensures r.s.ReceiptRecord? && opens[r.s.cid].receipt.Some? ==>
              r.s.receipt == opens[r.s.cid].receipt.value.(state := Redeemed, acceptedUs := r.s.receipt.acceptedUs)
  {
    PhasesDistinct();
  }

  lemma CountsAre(x: Index, h: Held)
    requires Agrees(x, h)
    ensures x.openCount == |h.opens| && forall u: nat :: CountOf(x.perUid, u) == |OpenBy(h.opens, u)|
  {
  }

  method InstallReceipt(table: OpenSet, cid: string, r: Receipt)
    requires table.Valid() && cid in table.h.opens
    requires var o := table.h.opens[cid].receipt;
             o.Some? ==> r == o.value.(state := Redeemed, acceptedUs := r.acceptedUs)
    modifies table, table.h.nodes.Values
    ensures table.Valid() && table.h.opens == old(table.h.opens)[cid := old(table.h.opens)[cid].(receipt := Some(r))]
  {
    hide Agrees, VerifierInUse;
    var n := table.FindCid(cid);
    if n.value.it.receipt.None? {
      table.IndexReceipt(n.value, r);
    } else {
      table.MarkRedeemed(n.value, r.acceptedUs);
    }
  }

  /** Add, remove or update one node; the set then means what the line means,
      and its counts are the true ones. */
  method Install(table: OpenSet, r: Rec, ghost cfg: Config, ghost h: seq<Rec>)
    requires table.Valid() && AdmitsStep(cfg, h, table.h.opens, r) && (r.s.IsIntent() ==> r.s.cid !in table.h.opens)
    modifies table, table.h.nodes.Values
    ensures table.Valid() && table.h.opens == Installed(old(table.h.opens), r.s)
    ensures table.x.openCount == |table.h.opens|
    ensures forall u: nat :: CountOf(table.x.perUid, u) == |OpenBy(table.h.opens, u)|
  {
    hide AdmitsStep, VerifierInUse, Agrees, OpenBy, CountOf;
    AdmittedCases(cfg, h, table.h.opens, r);
    PhasesDistinct();
    if r.s.IsIntent() {
      table.Add(r.s.cid, Opened(r.s));
    } else if r.s.IsOutcome() {
      var n := table.FindCid(r.s.cid);
      table.Remove(n.value);
    } else if r.s.ReceiptRecord? {
      InstallReceipt(table, r.s.cid, r.s.receipt);
    }
    CountsAre(table.x, table.h);
  }
}
