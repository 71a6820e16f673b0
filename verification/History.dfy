/** The whole history of client-visible appends, with rotations and restarts
    left out: what the live checks let into it, and what therefore holds of
    every such history. */
module History {
  import opened Types
  import opened Lifecycle
  import opened Rates
  import opened Records
  import opened Decimal

  /** One stored line: its facts, its size on disk with the newline, and
      whether its record claims that an effect was issued. */
  datatype Rec = Rec(s: Stored, size: nat, claim: bool)

  function Facts(h: seq<Rec>): (f: seq<Stored>)
    ensures |f| == |h| && forall i :: 0 <= i < |h| ==> f[i] == h[i].s
  {
    seq(|h|, i requires 0 <= i < |h| => h[i].s)
  }

  lemma FactsSnoc(h: seq<Rec>, r: Rec)
    ensures Facts(h + [r]) == Facts(h) + [r.s]
  {
  }

  // ---- charges ----

  datatype Charged = Charged(uid: nat, entry: Entry)

  /** Audit lines and receipt transitions are charged; carries are not. */
  function Charge(r: Rec): Option<Charged> {
    match r.s
    case Audit(_, _, _, actor, time, _, _, _) => Some(Charged(actor.uid, Entry(time, r.size)))
    case ReceiptRecord(_, checkpoint, receipt) =>
      if checkpoint then None else Some(Charged(receipt.actorUid, Entry(receipt.acceptedUs, r.size)))
    case _ => None
  }

  /** Everything ever charged to one uid. */
  function Charges(h: seq<Rec>, u: nat): seq<Entry> {
    if h == [] then []
    else
      var earlier, c := Charges(h[..|h| - 1], u), Charge(h[|h| - 1]);
      if c.Some? && c.value.uid == u then earlier + [c.value.entry] else earlier
  }

  function AllCharges(h: seq<Rec>): seq<Entry> {
    if h == [] then []
    else
      var earlier, c := AllCharges(h[..|h| - 1]), Charge(h[|h| - 1]);
      if c.Some? then earlier + [c.value.entry] else earlier
  }

  lemma ChargesSnoc(h: seq<Rec>, r: Rec, u: nat)
    ensures Charges(h + [r], u) ==
            if Charge(r).Some? && Charge(r).value.uid == u then Charges(h, u) + [Charge(r).value.entry]
            else Charges(h, u)
    ensures AllCharges(h + [r]) == if Charge(r).Some? then AllCharges(h) + [Charge(r).value.entry] else AllCharges(h)
  {
    assert (h + [r])[..|h|] == h;
  }

  // ---- admission ----

  predicate Mentions(s: Stored, cid: string) { !s.Rate? && s.cid == cid }

  ghost predicate FreshCid(h: seq<Rec>, cid: string) {
    forall r :: r in h ==> !Mentions(r.s, cid)
  }

  function OpenBy(opens: Opens, u: nat): set<string> {
    set c | c in opens && opens[c].actor.uid == u
  }

  predicate MetaOk(operation: string, resource: string, scope: string) {
    |operation| < META_MAX && |resource| < META_MAX && |scope| < SCOPE_MAX
  }

  ghost predicate AdmitsIntent(cfg: Config, h: seq<Rec>, opens: Opens, s: Stored) {
    && s.IsIntent() && CidOk(s.cid) && FreshCid(h, s.cid) && BindingOk(s.binding)
    && (forall c :: c in opens ==> opens[c].binding != s.binding)
    && |opens| < cfg.maxOpenGlobal && |OpenBy(opens, s.actor.uid)| < cfg.maxOpenPerUid
    && ActorOk(s.actor) && s.time < U64_LIMIT && MetaOk(s.operation, s.resource, s.scope)
  }

  predicate AdmitsOutcome(opens: Opens, r: Rec) {
    && r.s.IsOutcome() && r.s.cid in opens && opens[r.s.cid].actor == r.s.actor
    && (r.claim && opens[r.s.cid].receipt.Some? ==> opens[r.s.cid].receipt.value.state.Redeemed?)
  }

  ghost predicate AdmitsEmit(h: seq<Rec>, s: Stored) {
    s.Audit? && (s.phase == PHASE_PREVIEW || s.phase == PHASE_NOOP) && FreshCid(h, s.cid)
  }

  predicate AdmitsIssue(opens: Opens, s: Stored) {
    && s.ReceiptRecord? && !s.checkpoint && s.cid in opens && opens[s.cid].receipt.None?
    && s.receipt.state.Issued? && ReceiptOk(s.cid, s.receipt) && BoundToIntent(s.receipt, opens[s.cid])
    && !VerifierInUse(opens, s.receipt.verifier)
  }

  predicate AdmitsRedeem(opens: Opens, s: Stored) {
    && s.ReceiptRecord? && !s.checkpoint && s.cid in opens && opens[s.cid].receipt.Some?
    && var o := opens[s.cid].receipt.value;
       o.state.Issued? && s.receipt == o.(state := Redeemed, acceptedUs := s.receipt.acceptedUs)
       && s.receipt.acceptedUs < U64_LIMIT
  }

  ghost predicate AdmitsStep(cfg: Config, h: seq<Rec>, opens: Opens, r: Rec) {
    || AdmitsIntent(cfg, h, opens, r.s) || AdmitsOutcome(opens, r) || AdmitsEmit(h, r.s)
    || AdmitsIssue(opens, r.s) || AdmitsRedeem(opens, r.s)
  }

  /** The quota checks, made against everything ever charged. */
  predicate WithinQuota(cfg: Config, all: seq<Entry>, e: Entry) {
    && (all != [] ==> all[|all| - 1].ts <= e.ts)
    && RateAllowed(cfg, all, e.ts) && UidBytesAllowed(cfg, all, e.ts, e.bytes)
  }

  /** Uids are 32-bit; clock readings and sizes are 64-bit. */
  predicate ChargeOk(c: Charged) {
    c.uid < UID_LIMIT && c.entry.ts < U64_LIMIT && c.entry.bytes < U64_LIMIT
  }

  ghost predicate Admitted(cfg: Config, h: seq<Rec>, r: Rec) {
    && Replay(Facts(h)).Ok? && Charge(r).Some? && ChargeOk(Charge(r).value)
    && AdmitsStep(cfg, h, Replay(Facts(h)).value.opens, r)
    && WithinQuota(cfg, Charges(h, Charge(r).value.uid), Charge(r).value.entry)
  }

  ghost predicate IsHistory(cfg: Config, h: seq<Rec>) {
    h != [] ==> IsHistory(cfg, h[..|h| - 1]) && Admitted(cfg, h[..|h| - 1], h[|h| - 1])
  }

  lemma {:induction false} HistoryAt(cfg: Config, h: seq<Rec>, i: nat)
    requires IsHistory(cfg, h) && i <= |h|
    ensures IsHistory(cfg, h[..i]) && (i < |h| ==> Admitted(cfg, h[..i], h[i]))
    decreases |h|
  {
    hide Admitted;
    if i == |h| {
      assert h[..i] == h;
    } else {
      HistoryAt(cfg, h[..|h| - 1], i);
      assert h[..|h| - 1][..i] == h[..i];
    }
  }

  lemma {:induction false} FreshIsUnknown(h: seq<Stored>, cid: string)
    requires Replay(h).Ok? && forall s :: s in h ==> !Mentions(s, cid)
    ensures cid !in Replay(h).value.opens && cid !in Replay(h).value.closed
  {
    if h != [] {
      assert h[|h| - 1] in h;
      FreshIsUnknown(h[..|h| - 1], cid);
    }
  }

  lemma FreshUnknown(h: seq<Rec>, cid: string)
    requires Replay(Facts(h)).Ok? && FreshCid(h, cid)
    ensures cid !in Replay(Facts(h)).value.opens && cid !in Replay(Facts(h)).value.closed
  {
    forall s | s in Facts(h) ensures !Mentions(s, cid) {
      var i :| 0 <= i < |h| && Facts(h)[i] == s;
      assert h[i] in h;
    }
    FreshIsUnknown(Facts(h), cid);
  }

  lemma PhasesDistinct()
    ensures PHASE_INTENT != PHASE_OUTCOME && PHASE_INTENT != PHASE_PREVIEW && PHASE_INTENT != PHASE_NOOP
    ensures PHASE_OUTCOME != PHASE_PREVIEW && PHASE_OUTCOME != PHASE_NOOP
  {
    assert |PHASE_INTENT| == 6 && |PHASE_OUTCOME| == 7 && |PHASE_PREVIEW| == 7 && |PHASE_NOOP| == 4;
    assert PHASE_OUTCOME[0] == 'o' && PHASE_PREVIEW[0] == 'p';
  }

  /** What each kind of admitted line does to the open set. */
  function Installed(opens: Opens, s: Stored): Opens {
    if s.IsIntent() then opens[s.cid := Opened(s)]
    else if s.IsOutcome() then opens - {s.cid}
    else if s.ReceiptRecord? && s.cid in opens then opens[s.cid := opens[s.cid].(receipt := Some(s.receipt))]
    else opens
  }

  predicate ReceiptsBound(opens: Opens) {
    forall c :: c in opens && opens[c].receipt.Some? ==> BoundToIntent(opens[c].receipt.value, opens[c])
  }

  lemma {:induction false} ReplayKeepsReceiptsBound(recs: seq<Stored>)
    requires Replay(recs).Ok?
    ensures ReceiptsBound(Replay(recs).value.opens)
  {
    if recs != [] { ReplayKeepsReceiptsBound(recs[..|recs| - 1]); }
  }

  lemma AdmittedApplies(cfg: Config, h: seq<Rec>, l: Life, r: Rec)
    requires AdmitsStep(cfg, h, l.opens, r) && ReceiptsBound(l.opens)
    requires AdmitsIntent(cfg, h, l.opens, r.s) ==> r.s.cid !in l.opens && r.s.cid !in l.closed
    ensures Apply(l, r.s) == Ok(Life(Installed(l.opens, r.s), if r.s.IsOutcome() then l.closed + {r.s.cid}
                                                              else l.closed))
  {
    PhasesDistinct();
  }

  lemma AdmittedReplays(cfg: Config, h: seq<Rec>, r: Rec)
    requires Admitted(cfg, h, r)
    ensures var l := Replay(Facts(h)).value;
            Replay(Facts(h + [r])) ==
              Ok(Life(Installed(l.opens, r.s), if r.s.IsOutcome() then l.closed + {r.s.cid} else l.closed))
  {
    FactsSnoc(h, r);
    ReplaySnoc(Facts(h), r.s);
    var l := Replay(Facts(h)).value;
    if AdmitsIntent(cfg, h, l.opens, r.s) { FreshUnknown(h, r.s.cid); }
    ReplayKeepsReceiptsBound(Facts(h));
    AdmittedApplies(cfg, h, l, r);
  }

  /** Nothing the live checks admit can make replay fail. */
  lemma {:induction false} HistoryReplays(cfg: Config, h: seq<Rec>)
    requires IsHistory(cfg, h)
    ensures Replay(Facts(h)).Ok?
  {
    hide Admitted, Apply;
    if h != [] {
      var v, r := h[..|h| - 1], h[|h| - 1];
      assert v + [r] == h;
      AdmittedReplays(cfg, v, r);
    }
  }

  // ---- time ----

  ghost predicate Before(h: seq<Rec>, t: nat) {
    forall r :: r in h && Charge(r).Some? ==> Charge(r).value.entry.ts <= t
  }

  lemma {:induction false} ChargesBefore(h: seq<Rec>, u: nat, t: nat)
    requires Before(h, t)
    ensures forall e :: e in Charges(h, u) ==> e.ts <= t
    ensures forall e :: e in AllCharges(h) ==> e.ts <= t
  {
    if h != [] {
      var v := h[..|h| - 1];
      assert h[|h| - 1] in h;
      ChargesBefore(v, u, t);
    }
  }

  lemma HistoryExtends(cfg: Config, h: seq<Rec>, rec: Rec, clock: nat)
    requires IsHistory(cfg, h) && Admitted(cfg, h, rec) && Before(h, clock) && Charge(rec).value.entry.ts <= clock
    ensures IsHistory(cfg, h + [rec]) && Before(h + [rec], clock)
  {
    assert (h + [rec])[..|h|] == h;
  }
}
