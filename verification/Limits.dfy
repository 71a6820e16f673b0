/** When a request is over a limit, said of the whole history: what was charged
    in the last window, and what is open. The live checks refuse for these
    reasons and for no others. */
module Limits {
  import opened Types
  import opened Rates
  import opened Lifecycle
  import opened History
  import opened Guarantees
  import opened Recovery
  import opened Carry
  import opened Machine
  import opened Safety

  /** The lines of the current lifetime. */
  function ThisLifetime(s: State): seq<Rec> { if s.boot <= |s.hist| then s.hist[s.boot..] else [] }

  /** An audit line costs its peer, and a receipt line the uid it is for: its size
      with the newline, at the time it was accepted. */
  predicate PaidBy(r: Rec, u: nat) {
    if r.s.Audit? then r.s.actor.uid == u else r.s.ReceiptRecord? && r.s.receipt.actorUid == u
  }

  function Cost(r: Rec): Entry {
    Entry(if r.s.Audit? then r.s.time else if r.s.ReceiptRecord? then r.s.receipt.acceptedUs else 0, r.size)
  }

  function PaidByAll(h: seq<Rec>): seq<Entry> {
    seq(|h|, i requires 0 <= i < |h| => Cost(h[i]))
  }

  function Paid(h: seq<Rec>, u: nat): seq<Entry> {
    if h == [] then []
    else Paid(h[..|h| - 1], u) + if PaidBy(h[|h| - 1], u) then [Cost(h[|h| - 1])] else []
  }

  /** What clients write: audit lines and receipt transitions. */
  predicate ClientLines(h: seq<Rec>) {
    forall i :: 0 <= i < |h| ==> h[i].s.Audit? || (h[i].s.ReceiptRecord? && !h[i].s.checkpoint)
  }

  lemma HistoryIsClientLines(cfg: Config, h: seq<Rec>)
    requires IsHistory(cfg, h)
    ensures ClientLines(h)
  {
    hide IsHistory;
    forall i | 0 <= i < |h| ensures h[i].s.Audit? || (h[i].s.ReceiptRecord? && !h[i].s.checkpoint) {
      AdmittedKind(cfg, h, i);
    }
  }

  /** Every client line is charged, in full, to the one who pays for it. */
  lemma {:induction false} ChargedIsPaid(h: seq<Rec>, u: nat)
    requires ClientLines(h)
    ensures Charges(h, u) == Paid(h, u) && AllCharges(h) == PaidByAll(h)
  {
    if h != [] {
      ChargedIsPaid(h[..|h| - 1], u);
      assert PaidByAll(h) == PaidByAll(h[..|h| - 1]) + [Cost(h[|h| - 1])];
    }
  }

  /** The uid has as many lines in the last window as it may, or n more bytes
      would be too many for the uid, or for all in this lifetime. */
  predicate QuotaFull(cfg: Config, s: State, u: nat, n: nat) {
    var mine := Recent(cfg, Paid(s.hist, u), s.clock);
    || 0 < cfg.rateMaxInWindow <= |mine|
    || 0 < cfg.rateMaxBytesPerUid < Sum(mine) + n
    || 0 < cfg.rateMaxBytesGlobal < Sum(Current(cfg, PaidByAll(ThisLifetime(s)), s.clock)) + n
  }

  /** As many intents are open as may be, in all or by this uid. */
  predicate OverCap(cfg: Config, opens: Opens, u: nat) {
    |opens| >= cfg.maxOpenGlobal || |OpenBy(opens, u)| >= cfg.maxOpenPerUid
  }

  lemma {:induction false} ChargesInOrder(h: seq<Rec>, u: nat, t: nat)
    requires Before(h, t)
    ensures Charges(h, u) != [] ==> Charges(h, u)[|Charges(h, u)| - 1].ts <= t
    ensures AllCharges(h) != [] ==> AllCharges(h)[|AllCharges(h)| - 1].ts <= t
  {
    ChargesBefore(h, u, t);
  }

  lemma UidExact(cfg: Config, ring: seq<Entry>, h: seq<Rec>, u: nat, clock: nat, n: nat)
    requires cfg.Valid() && IsHistory(cfg, h) && Before(h, clock)
    requires WindowOk(cfg, ring, Charges(h, u), cfg.Threshold(clock))
    ensures var mine := Recent(cfg, Charges(h, u), clock);
            && (RateAllowed(cfg, ring, clock) <==> !(0 < cfg.rateMaxInWindow <= |mine|))
            && (UidBytesAllowed(cfg, ring, clock, n) <==> !(0 < cfg.rateMaxBytesPerUid < Sum(mine) + n))
  {
    hide RateAllowed, UidBytesAllowed, Recent, IsHistory, WindowOk;
    var all := Charges(h, u);
    QuotaSame(cfg, ring, all, clock, clock, n);
    ChargesPassed(cfg, h, u);
    ChargesInOrder(h, u, clock);
    QuotaExact(cfg, all, clock, n);
  }

  lemma GlobalCheckExact(cfg: Config, s: State, g: Global, n: nat)
    requires Base(cfg, s) && GlobalOk(cfg, g, s.hist, s.boot)
    ensures GlobalAllowed(cfg, g, s.clock, n) <==>
            !(0 < cfg.rateMaxBytesGlobal < Sum(Current(cfg, AllCharges(ThisLifetime(s)), s.clock)) + n)
  {
    hide GlobalAllowed, Current, GlobalAfter, IsHistory;
    var mine := s.hist[s.boot..];
    assert Before(mine, s.clock);
    ChargesInOrder(mine, 0, s.clock);
    GlobalExact(cfg, AllCharges(mine), s.clock, n);
  }

  lemma LifetimeIsClientLines(cfg: Config, s: State)
    requires Base(cfg, s)
    ensures ClientLines(s.hist) && ClientLines(ThisLifetime(s))
  {
    hide IsHistory, Before;
    HistoryIsClientLines(cfg, s.hist);
  }

  /** The live checks are exact: they pass if and only if the history has room. */
  lemma ChecksExact(tx: Text, cfg: Config, s: State, u: nat, n: nat)
    requires cfg.Valid() && Inv(tx, cfg, s) && s.proc.Up?
    ensures QuotaFull(cfg, s, u, n) <==>
            || !RateAllowed(cfg, RingAt(s.proc.mem.rings, u), s.clock)
            || !UidBytesAllowed(cfg, RingAt(s.proc.mem.rings, u), s.clock, n)
            || !GlobalAllowed(cfg, s.proc.mem.global, s.clock, n)
  {
    hide RateAllowed, UidBytesAllowed, GlobalAllowed, Recent, Current, IsHistory, CleanFile, CutsOk, PhaseOk, PriorOk;
    hide GlobalOk, WindowOk, ThisLifetime, Sum, ClientLines, Paid, PaidByAll;
    UidExact(cfg, RingAt(s.proc.mem.rings, u), s.hist, u, s.clock, n);
    GlobalCheckExact(cfg, s, s.proc.mem.global, n);
    LifetimeIsClientLines(cfg, s);
    ChargedIsPaid(s.hist, u);
    ChargedIsPaid(ThisLifetime(s), u);
  }

  lemma CapExact(tx: Text, cfg: Config, s: State, u: nat)
    requires Inv(tx, cfg, s) && s.proc.Up?
    ensures Replay(Facts(s.hist)).Ok?
    ensures OverCap(cfg, s.proc.mem.opens, u) <==> OverCap(cfg, Replay(Facts(s.hist)).value.opens, u)
  {
    hide RingsOk, GlobalOk, CleanFile, CutsOk, PhaseOk, PriorOk, IsHistory, Replay, OpenBy;
    OpenBySame(s.proc.mem.opens, Replay(Facts(s.hist)).value.opens, u);
  }
}
