/** The request handlers: every check in order, then a durable write. Minted
    ids, the boot time and the boot id come from outside. */
module Handlers {
  import opened Types
  import opened Utf8
  import opened Json
  import opened Decimal
  import opened Records
  import opened Requests
  import opened Lifecycle
  import opened Rates
  import opened History
  import opened Guarantees
  import opened Recovery
  import opened Carry
  import opened AuditLines
  import opened Machine
  import opened Safety
  import opened Limits
  import opened Rotation
  import opened Paths
  import opened Broker
  import opened Writes

  datatype Reply =
    | OpenOk(cid: string, binding: string, token: Option<string>)
    | OutcomeOk
    | EmitOk(emitted: string)
    | CapabilitiesOk
    | RedeemOk(redeemed: string)
    | Error(code: Code)

  /** An error leaves everything as it was, or the broker poisoned. */
  ghost predicate NothingDone(v: View, b: Broker)
    reads b
  {
    b.mem.poisoned || Seen(b) == v
  }

  lemma StampsFit(cid: string, a: Actor, now: nat)
    requires CidOk(cid) && ActorOk(a) && now < U64_LIMIT
    ensures StampOk(PHASE_OUTCOME, cid, None, a, now) && StampOk(PHASE_PREVIEW, cid, None, a, now)
    ensures StampOk(PHASE_NOOP, cid, None, a, now)
    ensures forall binding :: BindingOk(binding) ==> StampOk(PHASE_INTENT, cid, Some(binding), a, now)
  {
    hide WellEncoded;
    PhasesDistinct();
    NamesAreUtf8();
    assert |PHASE_INTENT| == 6 && |PHASE_OUTCOME| == 7 && |PHASE_PREVIEW| == 7 && |PHASE_NOOP| == 4;
  }

  // ---- emit ----

  ghost predicate Emitted(l: Rec, phase: string, cid: string, a: Actor, rec: Members) {
    l.s.Audit? && l == AuditRec(phase, cid, None, a, l.s.time, rec, l.size)
  }

  /** A single non-effect record: it opens nothing and closes nothing. */
  method HandleEmit(b: Broker, a: Actor, phase: string, rec: Members, cid: string, env: Env) returns (r: Reply)
    requires Ready(b) && ActorOk(a) && RecordValid(rec) && ProperRecord(rec)
    requires (phase == PHASE_PREVIEW || phase == PHASE_NOOP) && CidOk(cid) && FreshCid(b.hist, cid)
    requires cid !in b.past.cids
    modifies b
    ensures Reaches(b.tx, b.cfg, old(b.Snap()), b.Snap()) && b.clock < U64_LIMIT && (b.mem.poisoned || b.phase.Idle?)
    ensures r.EmitOk? || r.Error?
    ensures r.EmitOk? ==> r.emitted == cid && !b.mem.poisoned && Grew(old(Seen(b)), Seen(b))
    ensures r.EmitOk? ==> Emitted(Latest(Seen(b)), phase, cid, a, rec)
    ensures r.EmitOk? ==> b.mem.opens == old(b.mem.opens) && env.first.space
    ensures r.EmitOk? ==> AuditLodged(b.tx, b.cfg, old(b.Snap()), b.Snap(), phase, cid, None, a, env, rec, env.first)
    ensures r.Error? ==> NothingDone(old(Seen(b)), b)
    ensures r.Error? ==>
              WhyRefused(b, a.uid, AuditSize(b.tx, phase, cid, None, a, env, b.clock, rec), Printable(env, b.clock),
                         env.first, r.code)
  {
    hide Reaches, Decode, RecordValid, ProperRecord, ActorOk, StampOk, FreshCid, RateAllowed, EvictRing, AuditLodged;
    hide BytesAllowed, AuditSize, Printable, Inv, QuotaFull, IntentsOk, Faithful;
    hide AdmitsIntent, AdmitsOutcome, AdmitsIssue, AdmitsRedeem;
    ghost var from := b.Snap();
    ReachesSelf(b.tx, b.cfg, from);
    var now := b.ReadClock();
    if !RateAllowed(b.cfg, RingAt(b.mem.rings, a.uid), now) {
      RefuseLimited(b, from, a.uid, now, AuditSize(b.tx, phase, cid, None, a, env, now, rec));
      return Error(RateLimited);
    }
    if !env.first.space {
      b.Refuse(from, a.uid, now);
      return Error(PersistFailed);
    }
    StampsFit(cid, a, now);
    PhasesDistinct();
    var refusal := WriteAudit(b, from, phase, cid, None, a, env, now, rec, env.first);
    r := if refusal.None? then EmitOk(cid) else Error(refusal.value);
  }

  // ---- outcome ----

  method FindBinding(opens: Opens, binding: string) returns (r: Option<string>)
    ensures r.Some? ==> r.value in opens && opens[r.value].binding == binding
    ensures r.None? ==> forall c :: c in opens ==> opens[c].binding != binding
  {
    if c :| c in opens && opens[c].binding == binding {
      r := Some(c);
    } else {
      r := None;
    }
  }

  /** A receipt that is not redeemed cannot back an effect claim. */
  predicate EffectUnbacked(it: Intent, rec: Members) {
    it.receipt.Some? && it.receipt.value.state.Issued? && ClaimsEffect(rec)
  }

  /** The record says that an effect was issued. */
  predicate SaysEffect(rec: Members) { EffectIssued in rec && rec[EffectIssued] == Bool(true) }

  /** Once the intent is found: someone else's, or an effect claimed on a receipt
      that is not redeemed, or a write that was refused. */
  ghost predicate OutcomeErrorFits(b: Broker, code: Code, c: string, it: Intent, a: Actor, rec: Members, env: Env)
    reads b
  {
    if it.actor != a then code == ActorMismatch
    else if SaysEffect(rec) && it.receipt.Some? && it.receipt.value.state.Issued? then code == EffectWithoutReceipt
    else WhyRefused(b, a.uid, AuditSize(b.tx, PHASE_OUTCOME, c, None, a, env, b.clock, rec), Printable(env, b.clock),
                    env.first, code)
  }

  ghost predicate ClosedOne(v: View, w: View, binding: string, a: Actor, rec: Members)
  {
    w.hist != [] &&
    var l := Latest(w);
    && l.s.IsOutcome() && l == AuditRec(PHASE_OUTCOME, l.s.cid, None, a, l.s.time, rec, l.size)
    && l.s.cid in v.opens && v.opens[l.s.cid].binding == binding && v.opens[l.s.cid].actor == a
    && (SaysEffect(rec) && v.opens[l.s.cid].receipt.Some? ==> v.opens[l.s.cid].receipt.value.state.Redeemed?)
    && w.opens == v.opens - {l.s.cid}
  }

  /** The outcome closes the one intent its binding names, for the opener only. */
  method HandleOutcome(b: Broker, a: Actor, binding: string, rec: Members, env: Env) returns (r: Reply)
    requires Ready(b) && ActorOk(a) && RecordValid(rec) && ProperRecord(rec)
    modifies b
    ensures Reaches(b.tx, b.cfg, old(b.Snap()), b.Snap()) && b.clock < U64_LIMIT && (b.mem.poisoned || b.phase.Idle?)
    ensures r.OutcomeOk? || r.Error?
    ensures r.OutcomeOk? ==> !b.mem.poisoned && Grew(old(Seen(b)), Seen(b)) && env.first.space
    ensures r.OutcomeOk? ==> ClosedOne(old(Seen(b)), Seen(b), binding, a, rec)
    ensures r.OutcomeOk? ==>
              AuditLodged(b.tx, b.cfg, old(b.Snap()), b.Snap(), PHASE_OUTCOME, Latest(Seen(b)).s.cid, None, a, env, rec,
                          env.first)
    ensures r.Error? ==> NothingDone(old(Seen(b)), b)
    ensures r == Error(UnknownIntent) ==> forall c :: c in old(b.mem.opens) ==> old(b.mem.opens)[c].binding != binding
    ensures r.Error? && r.code != UnknownIntent ==>
              || (r.code == RateLimited && QuotaFull(b.cfg, b.Snap(), a.uid, 0))
              || exists c :: c in old(b.mem.opens) && old(b.mem.opens)[c].binding == binding &&
                             OutcomeErrorFits(b, r.code, c, old(b.mem.opens)[c], a, rec, env)
  {
    hide Reaches, Decode, RecordValid, ProperRecord, ActorOk, StampOk, RateAllowed, EvictRing, AuditLodged, AdmitsStep;
    hide BytesAllowed, AuditSize, Printable, Inv, QuotaFull, Faithful, Installed, AuditRec, EffectUnbacked, SaysEffect;
    hide Grew, ClosedOne;
    ghost var from := b.Snap();
    ReachesSelf(b.tx, b.cfg, from);
    var now := b.ReadClock();
    if !RateAllowed(b.cfg, RingAt(b.mem.rings, a.uid), now) {
      RefuseLimited(b, from, a.uid, now, 0);
      return Error(RateLimited);
    }
    var found := FindBinding(b.mem.opens, binding);
    if found.None? {
      b.Refuse(from, a.uid, now);
      return Error(UnknownIntent);
    }
    var it := b.mem.opens[found.value];
    if it.actor != a {
      b.Refuse(from, a.uid, now);
      return Error(ActorMismatch);
    }
    UnbackedIs(it, rec);
    if EffectUnbacked(it, rec) {
      b.Refuse(from, a.uid, now);
      return Error(EffectWithoutReceipt);
    }
    if !env.first.space {
      b.Refuse(from, a.uid, now);
      return Error(PersistFailed);
    }
    assert CidOk(found.value) by { assert IntentOk(found.value, it); }
    StampsFit(found.value, a, now);
    OutcomeAdmitted(b.cfg, b.hist, b.mem.opens, found.value, a, now, rec);
    var refusal := WriteAudit(b, from, PHASE_OUTCOME, found.value, None, a, env, now, rec, env.first);
    if refusal.None? { ClosedIs(old(Seen(b)), Seen(b), found.value, binding, a, now, rec); }
    r := if refusal.None? then OutcomeOk else Error(refusal.value);
  }

  lemma UnbackedIs(it: Intent, rec: Members)
    ensures EffectUnbacked(it, rec) <==> SaysEffect(rec) && it.receipt.Some? && it.receipt.value.state.Issued?
  {
  }

  lemma OutcomeAdmitted(cfg: Config, h: seq<Rec>, opens: Opens, c: string, a: Actor, now: nat, rec: Members)
    requires c in opens && opens[c].actor == a && !EffectUnbacked(opens[c], rec)
    ensures AdmitsStep(cfg, h, opens, AuditRec(PHASE_OUTCOME, c, None, a, now, rec, 0))
  {
    hide AdmitsIntent, AdmitsEmit, AdmitsIssue, AdmitsRedeem, ClaimsEffect, StringField;
  }

  lemma ClosedIs(v: View, w: View, c: string, binding: string, a: Actor, now: nat, rec: Members)
    requires Grew(v, w) && Latest(w) == AuditRec(PHASE_OUTCOME, c, None, a, now, rec, Latest(w).size)
    requires c in v.opens && v.opens[c].binding == binding && v.opens[c].actor == a && !EffectUnbacked(v.opens[c], rec)
    ensures ClosedOne(v, w, binding, a, rec) && Latest(w).s.Audit? && Latest(w).s.cid == c
  {
    hide StringField;
    PhasesDistinct();
    UnbackedIs(v.opens[c], rec);
  }

  // ---- issuing a receipt ----

  /** One reading of the boot clock and the boot id; either may fail. */
  datatype Boot = Boot(time: Option<nat>, id: Option<string>)

  /** A boot id that was read is the machine's. */
  predicate ReadHere(boot: Boot, past: Past) { boot.id.Some? ==> boot.id.value == past.machine }

  const MINT_TRIES := 8

  /** The digest: any function from strings to 32 bytes. */
  type Digest = string -> seq<Byte>

  function VerifierOf(sha: Digest, token: string): string { HexText(sha(token)) }

  predicate FreshToken(opens: Opens, binding: string, sha: Digest, token: string) {
    token != binding && !VerifierInUse(opens, VerifierOf(sha, token))
  }

  /** The first n draws succeeded. */
  predicate Drawn(draws: seq<Option<string>>, n: nat) {
    n <= |draws| && forall i :: 0 <= i < n ==> draws[i].Some?
  }

  /** The first usable candidate among the bounded tries; a failed draw stops. */
  method MintToken(opens: Opens, binding: string, sha: Digest, draws: seq<Option<string>>) returns (r: Option<string>)
    ensures r.Some? ==> r in draws && FreshToken(opens, binding, sha, r.value) && r.value != binding
    ensures r.None? ==> forall i: nat :: i < MINT_TRIES && Drawn(draws, i + 1) ==>
              !FreshToken(opens, binding, sha, draws[i].value)
  {
    var i := 0;
    while i < |draws| && i < MINT_TRIES
      invariant i <= |draws|
      invariant forall j :: 0 <= j < i ==> draws[j].Some? && !FreshToken(opens, binding, sha, draws[j].value)
    {
      if draws[i].None? {
        return None;
      }
      if FreshToken(opens, binding, sha, draws[i].value) {
        return draws[i];
      }
      i := i + 1;
    }
    r := None;
  }

  function NewReceipt(cfg: Config, it: Intent, verifier: string, plan: Effect, boot: Boot, now: nat): Receipt
    requires boot.time.Some? && boot.id.Some?
  {
    Receipt(Issued, verifier, it.actor.uid, it.operation, it.resource, plan.schema, plan.hash, boot.time.value,
            cfg.receiptTtlSec * 1000000, boot.id.value, now)
  }

  /** The receipt is the intent's, for this plan, from this boot time on, for the
      configured lifetime, with the token's digest. */
  ghost predicate IssuedTo(cfg: Config, v: View, w: View, cid: string, plan: Effect, boot: Boot, sha: Digest,
                           token: string)
  {
    w.hist != [] && cid in v.opens && boot.time.Some? && boot.id.Some? &&
    var l, it := Latest(w), v.opens[cid];
    l.s.ReceiptRecord? && l.s.cid == cid && !l.s.checkpoint &&
    var o := l.s.receipt;
    && o.state.Issued? && o.verifier == VerifierOf(sha, token) && o.actorUid == it.actor.uid
    && o.verb == it.operation && o.resource == it.resource && o.planSchema == plan.schema && o.planHash == plan.hash
    && o.issueUs == boot.time.value && o.ttlUs == cfg.receiptTtlSec * 1000000 && o.bootId == boot.id.value
    && it.receipt.None? && token != it.binding && !VerifierInUse(v.opens, VerifierOf(sha, token))
    && w.opens == v.opens[cid := it.(receipt := Some(o))]
  }

  /** None of the first eight draws before one failed can be used. */
  ghost predicate NoToken(opens: Opens, binding: string, sha: Digest, draws: seq<Option<string>>) {
    forall i :: 0 <= i < |draws| && i < 8 && (forall j :: 0 <= j <= i ==> draws[j].Some?) ==>
      draws[i].value == binding || VerifierInUse(opens, VerifierOf(sha, draws[i].value))
  }

  /** The line for the receipt cannot be built. */
  predicate Unwritable(tx: Text, cid: string, o: Receipt) {
    !ReceiptBuildable(cid, o) || |ReceiptLine(tx, cid, o)| + 1 >= 0x1_0000_0000_0000_0000
  }

  /** Why no receipt was issued: over a quota, or for a reason below. */
  ghost predicate WhyNotIssued(b: Broker, opens: Opens, cid: string, plan: Effect, boot: Boot, sha: Digest,
                               draws: seq<Option<string>>, luck: Luck, limited: bool)
    reads b
  {
    if cid !in opens || opens[cid].receipt.Some? || plan.schema != 1 then !limited
    else if boot.time.None? || boot.id.None? then !limited
    else
      var it := opens[cid];
      if limited then
        exists tok: string :: Some(tok) in draws &&
          WhyRefused(b, it.actor.uid,
                     |ReceiptLine(b.tx, cid, NewReceipt(b.cfg, it, VerifierOf(sha, tok), plan, boot, b.clock))| + 1,
                     true,
                     luck, RateLimited)
      else
        || DiskFails(luck) || NoToken(opens, it.binding, sha, draws)
        || exists tok: string :: Some(tok) in draws &&
             Unwritable(b.tx, cid, NewReceipt(b.cfg, it, VerifierOf(sha, tok), plan, boot, b.clock))
  }

  lemma NoneMinted(opens: Opens, binding: string, sha: Digest, draws: seq<Option<string>>)
    requires forall i: nat :: i < MINT_TRIES && Drawn(draws, i + 1) ==>
               !FreshToken(opens, binding, sha, draws[i].value)
    ensures NoToken(opens, binding, sha, draws)
  {
    hide VerifierInUse, VerifierOf;
    forall i | 0 <= i < |draws| && i < 8 && (forall j :: 0 <= j <= i ==> draws[j].Some?)
      ensures draws[i].value == binding || VerifierInUse(opens, VerifierOf(sha, draws[i].value))
    {
      assert Drawn(draws, i + 1);
    }
  }

  /** Bind a fresh token's digest to the open intent. Only the digest is stored. */
  method IssueReceipt(b: Broker, ghost from: State, cid: string, plan: Effect, boot: Boot, sha: Digest,
                      draws: seq<Option<string>>, luck: Luck)
    returns (token: Option<string>, limited: bool)
    requires Ready(b) && b.Since(from) && b.cfg.Valid() && (boot.time.Some? ==> boot.time.value < U64_LIMIT)
    requires ReadHere(boot, b.past) && OpenedHere(b.hist, b.boot, cid)
    requires forall t :: |sha(t)| == 32
    modifies b
    ensures b.Since(from) && b.clock < U64_LIMIT && (b.mem.poisoned || b.phase.Idle?)
    ensures token.Some? ==> token in draws && !b.mem.poisoned && Grew(old(Seen(b)), Seen(b))
    ensures token.Some? ==> plan.schema == 1 && luck.space
    ensures token.Some? ==> IssuedTo(b.cfg, old(Seen(b)), Seen(b), cid, plan, boot, sha, token.value)
    ensures token.Some? ==> ReceiptLodged(b.tx, b.cfg, old(b.Snap()), b.Snap(), luck)
    ensures token.None? ==> if b.mem.poisoned then !limited && b.acks == old(b.acks) && old(b.hist) <= b.hist
                            else Seen(b) == old(Seen(b))
    ensures token.None? ==> WhyNotIssued(b, old(b.mem.opens), cid, plan, boot, sha, draws, luck, limited)
  {
    hide Reaches, Decode, StampOk, RateAllowed, EvictRing, AllDigits, MetaOk, VerifierInUse, IsHexString, NoToken;
    hide AdmitsIntent, AdmitsEmit, AdmitsOutcome, AdmitsRedeem, OpenedHere, ReceiptLodged, BytesAllowed, ReceiptLine;
    hide ReceiptBuildable, Inv, QuotaFull, Faithful;
    token, limited := None, false;
    if plan.schema != PLAN_SCHEMA || cid !in b.mem.opens || b.mem.opens[cid].receipt.Some? || !luck.space ||
       boot.time.None? || boot.id.None? {
      return;
    }
    var it := b.mem.opens[cid];
    var minted := MintToken(b.mem.opens, it.binding, sha, draws);
    if minted.None? {
      NoneMinted(b.mem.opens, it.binding, sha, draws);
      return;
    }
    assert minted == Some(minted.value);
    var now := b.ReadClock();
    var receipt := NewReceipt(b.cfg, it, VerifierOf(sha, minted.value), plan, boot, now);
    if !ReceiptBuildable(cid, receipt) {
      assert Unwritable(b.tx, cid, NewReceipt(b.cfg, it, VerifierOf(sha, minted.value), plan, boot, b.clock)) by {
        SameButForTheTime(cid, receipt, b.clock);
      }
      return;
    }
    assert AdmitsStep(b.cfg, b.hist, b.mem.opens, ReceiptRec(cid, receipt, 0)) && ReceiptOk(cid, receipt) by {
      IssueAdmitted(b.cfg, b.hist, b.mem.opens, cid, plan, boot, sha, minted.value, now);
    }
    var refusal := WriteReceipt(b, from, cid, receipt, luck);
    if refusal.None? {
      token := minted;
    } else {
      limited := refusal.value == RateLimited;
      assert refusal == Some(Internal) ==> Unwritable(b.tx, cid, receipt);
    }
  }

  lemma SameButForTheTime(cid: string, o: Receipt, now: nat)
    ensures ReceiptBuildable(cid, o) == ReceiptBuildable(cid, o.(acceptedUs := now))
  {
  }

  lemma IssueAdmitted(cfg: Config, h: seq<Rec>, opens: Opens, cid: string, plan: Effect, boot: Boot, sha: Digest,
                      token: string, now: nat)
    requires cfg.Valid() && IntentsOk(opens) && cid in opens && opens[cid].receipt.None? && now < U64_LIMIT
    requires boot.time.Some? && boot.time.value < U64_LIMIT && boot.id.Some?
    requires FreshToken(opens, opens[cid].binding, sha, token)
    requires ReceiptBuildable(cid, NewReceipt(cfg, opens[cid], VerifierOf(sha, token), plan, boot, now))
    ensures var receipt := NewReceipt(cfg, opens[cid], VerifierOf(sha, token), plan, boot, now);
            AdmitsStep(cfg, h, opens, ReceiptRec(cid, receipt, 0)) && ReceiptOk(cid, receipt)
  {
    hide ReceiptBuildable, VerifierInUse, AdmitsIntent, AdmitsEmit, AdmitsOutcome, AdmitsRedeem, MetaOk, VerifierOf;
    assert IntentOk(cid, opens[cid]);
  }

  // ---- open ----

  predicate TooLongToBind(rec: Members) {
    |StringField(rec, Operation)| >= META_MAX || |StringField(rec, ResourceKey)| >= META_MAX
  }

  /** The open set has room for one more of this uid. */
  predicate RoomFor(cfg: Config, opens: Opens, u: nat) {
    |opens| < cfg.maxOpenGlobal && |OpenBy(opens, u)| < cfg.maxOpenPerUid
  }

  function NewIntent(binding: string, a: Actor, rec: Members): Intent {
    Intent(binding, a, Clip(StringField(rec, Operation), META_MAX), Clip(StringField(rec, ResourceKey), META_MAX),
           Clip(StringField(rec, ScopeKey), SCOPE_MAX), false, None)
  }

  /** The cut of a field splits no character. */
  predicate CutClean(s: string, cap: nat) { cap > 0 && (|s| < cap || !Cont(s[cap - 1])) }

  /** A request opens an intent that rotation can carry if and only if none of
      its three fields is cut inside a character. */
  lemma OpensCarriable(binding: string, a: Actor, rec: Members)
    requires ProperRecord(rec)
    ensures Carriable(NewIntent(binding, a, rec)) <==>
            && CutClean(StringField(rec, Operation), META_MAX) && CutClean(StringField(rec, ResourceKey), META_MAX)
            && CutClean(StringField(rec, ScopeKey), SCOPE_MAX)
  {
    hide NameOf, WellEncoded;
    FieldIsUtf8(rec, Operation);
    FieldIsUtf8(rec, ResourceKey);
    FieldIsUtf8(rec, ScopeKey);
    ClipIsUtf8(StringField(rec, Operation), META_MAX);
    ClipIsUtf8(StringField(rec, ResourceKey), META_MAX);
    ClipIsUtf8(StringField(rec, ScopeKey), SCOPE_MAX);
  }

  lemma FieldIsUtf8(rec: Members, k: Key)
    requires ProperRecord(rec)
    ensures WellEncoded(StringField(rec, k))
  {
    hide NameOf;
    assert k in rec ==> Proper(rec[k]);
  }

  ghost predicate OpenedOne(v: View, w: View, cid: string, binding: string, a: Actor, rec: Members)
  {
    w.hist != [] &&
    var l := Latest(w);
    && l.s.Audit? && l == AuditRec(PHASE_INTENT, cid, Some(binding), a, l.s.time, rec, l.size)
    && w.opens == v.opens[cid := NewIntent(binding, a, rec)]
  }

  /** The receipt binds the operation and resource exactly as the client sent
      them. */
  ghost predicate BindsRecord(l: Rec, rec: Members) {
    && l.s.ReceiptRecord? && l.s.receipt.verb == StringField(rec, Operation)
    && l.s.receipt.resource == StringField(rec, ResourceKey)
  }

  /** The ids minted for an open: never used before, as 128 random bits are. */
  ghost predicate FreshIds(hist: seq<Rec>, cids: set<string>, opens: Opens, cid: string, binding: string) {
    && CidOk(cid) && FreshCid(hist, cid) && cid !in cids && BindingOk(binding)
    && forall c :: c in opens ==> opens[c].binding != binding
  }

  /** The intent alone: checks, then the durable line, then the open set. */
  method OpenIntent(b: Broker, ghost from: State, a: Actor, rec: Members, cid: string, binding: string, env: Env)
    returns (refusal: Option<Code>)
    requires Ready(b) && b.Since(from) && ActorOk(a) && RecordValid(rec) && ProperRecord(rec)
    requires FreshIds(b.hist, b.past.cids, b.mem.opens, cid, binding)
    modifies b
    ensures b.Since(from) && WriteEnded(old(Seen(b)), b, refusal)
    ensures refusal.None? ==> OpenedOne(old(Seen(b)), Seen(b), cid, binding, a, rec)
    ensures refusal.None? ==> !OverCap(b.cfg, old(b.mem.opens), a.uid) && env.first.space
    ensures refusal.None? ==>
              AuditLodged(b.tx, b.cfg, old(b.Snap()), b.Snap(), PHASE_INTENT, cid, Some(binding), a, env, rec,
                          env.first)
    ensures OverCap(b.cfg, old(b.mem.opens), a.uid) ==> refusal == Some(RateLimited)
    ensures refusal.Some? && !OverCap(b.cfg, old(b.mem.opens), a.uid) ==>
              WhyRefused(b, a.uid, AuditSize(b.tx, PHASE_INTENT, cid, Some(binding), a, env, b.clock, rec),
                         Printable(env, b.clock), env.first, refusal.value)
  {
    hide AuditLodged, AuditSize, Printable, BytesAllowed, Inv, QuotaFull, Faithful;
    hide Reaches, Decode, RecordValid, StampOk, RateAllowed, EvictRing, ClaimsEffect, StringField, AllDigits;
    hide AdmitsStep, FreshCid, IntentOk, OpenBy, ActorOk;
    var now := b.ReadClock();
    if !RateAllowed(b.cfg, RingAt(b.mem.rings, a.uid), now) {
      RefuseLimited(b, from, a.uid, now, AuditSize(b.tx, PHASE_INTENT, cid, Some(binding), a, env, now, rec));
      return Some(RateLimited);
    }
    if !RoomFor(b.cfg, b.mem.opens, a.uid) {
      b.Refuse(from, a.uid, now);
      return Some(RateLimited);
    }
    if !env.first.space {
      b.Refuse(from, a.uid, now);
      return Some(PersistFailed);
    }
    StampsFit(cid, a, now);
    PhasesDistinct();
    hide Grew, OpenedOne, Installed, AuditFacts;
    assert AdmitsStep(b.cfg, b.hist, b.mem.opens, AuditRec(PHASE_INTENT, cid, Some(binding), a, now, rec, 0)) by {
      IntentAdmitted(b.cfg, b.hist, b.mem.opens, cid, binding, a, now, rec);
    }
    refusal := WriteAudit(b, from, PHASE_INTENT, cid, Some(binding), a, env, now, rec, env.first);
    if refusal.None? { OpenedIs(old(Seen(b)), Seen(b), cid, binding, a, now, rec); }
  }

  lemma IntentAdmitted(cfg: Config, h: seq<Rec>, opens: Opens, cid: string, binding: string, a: Actor, now: nat,
                       rec: Members)
    requires CidOk(cid) && FreshCid(h, cid) && BindingOk(binding) && ActorOk(a) && now < U64_LIMIT
    requires (forall c :: c in opens ==> opens[c].binding != binding) && RoomFor(cfg, opens, a.uid)
    ensures AdmitsStep(cfg, h, opens, AuditRec(PHASE_INTENT, cid, Some(binding), a, now, rec, 0))
  {
    hide FreshCid, OpenBy, StringField, ClaimsEffect;
  }

  lemma OpenedIs(v: View, w: View, cid: string, binding: string, a: Actor, now: nat, rec: Members)
    requires Grew(v, w) && Latest(w) == AuditRec(PHASE_INTENT, cid, Some(binding), a, now, rec, Latest(w).size)
    ensures OpenedOne(v, w, cid, binding, a, rec)
  {
    hide StringField, ClaimsEffect;
  }

  lemma OpenedIsOk(opens: Opens, cid: string, binding: string, a: Actor, rec: Members)
    requires IntentsOk(opens) && CidOk(cid) && BindingOk(binding) && ActorOk(a)
    ensures IntentsOk(opens[cid := NewIntent(binding, a, rec)])
  {
  }

  /** Everything outside that one open draws on. */
  datatype Draws = Draws(cid: string, binding: string, boot: Boot, sha: Digest, tokens: seq<Option<string>>)

  ghost predicate DrawsOk(d: Draws, hist: seq<Rec>, past: Past, opens: Opens) {
    && FreshIds(hist, past.cids, opens, d.cid, d.binding) && ReadHere(d.boot, past)
    && (d.boot.time.Some? ==> d.boot.time.value < U64_LIMIT) && forall t :: |d.sha(t)| == 32
  }

  /** What was seen after the first of the lines one open wrote. */
  ghost function AfterIntent(v: View, w: View): View
    requires |v.hist| < |w.hist|
  {
    var l := w.hist[|v.hist|];
    v.(hist := w.hist[..|v.hist| + 1], opens := Installed(v.opens, l.s), acks := v.acks + {|v.hist|},
       spent := v.spent + Spends(l))
  }

  /** The intent is durable and open, and for an effect so is its receipt, bound
      to the token's digest and to what the client sent. */
  ghost predicate TheOpen(cfg: Config, v: View, w: View, a: Actor, rec: Members, effect: Option<Effect>, d: Draws,
                          token: Option<string>)
  {
    |v.hist| < |w.hist| &&
    var mid := AfterIntent(v, w);
    && Grew(v, mid) && OpenedOne(v, mid, d.cid, d.binding, a, rec)
    && match effect
       case None => token.None? && w == mid
       case Some(plan) =>
         && token.Some? && token in d.tokens && Grew(mid, w) && BindsRecord(Latest(w), rec)
         && IssuedTo(cfg, mid, w, d.cid, plan, d.boot, d.sha, token.value)
  }

  /** Why an open failed: a field too long to bind; a cap or a quota; the disk,
      or for an effect no boot reading, no token, or no line; nothing that can be
      printed. */
  ghost predicate OpenErrorFits(b: Broker, opens: Opens, a: Actor, rec: Members, effect: Option<Effect>, d: Draws,
                                env: Env, code: Code)
    reads b
  {
    var n := AuditSize(b.tx, PHASE_INTENT, d.cid, Some(d.binding), a, env, b.clock, rec);
    var grown := opens[d.cid := NewIntent(d.binding, a, rec)];
    match code
    case SchemaInvalid =>
      effect.Some? && (|StringField(rec, Operation)| >= 128 || |StringField(rec, ResourceKey)| >= 128)
    case RateLimited =>
      || OverCap(b.cfg, opens, a.uid) || WhyRefused(b, a.uid, n, Printable(env, b.clock), env.first, code)
      || (effect.Some? &&
          WhyNotIssued(b, grown, d.cid, effect.value, d.boot, d.sha, d.tokens, env.second, true))
    case PersistFailed =>
      || DiskFails(env.first)
      || (effect.Some? &&
          WhyNotIssued(b, grown, d.cid, effect.value, d.boot, d.sha, d.tokens, env.second, false))
    case Internal => WhyRefused(b, a.uid, n, Printable(env, b.clock), env.first, code)
    case _ => false
  }

  /** The intent's line is in the file, and for an effect then the receipt's. */
  ghost predicate OpenLodged(tx: Text, cfg: Config, s: State, s': State, a: Actor, rec: Members, effect: Option<Effect>,
                             d: Draws, env: Env)
  {
    match effect
    case None => AuditLodged(tx, cfg, s, s', PHASE_INTENT, d.cid, Some(d.binding), a, env, rec, env.first)
    case Some(_) =>
      exists mid ::
        && AuditLodged(tx, cfg, s, mid, PHASE_INTENT, d.cid, Some(d.binding), a, env, rec, env.first)
        && ReceiptLodged(tx, cfg, mid, s', env.second)
  }

  /** The intent, and for an effect its receipt. If issuing fails the intent
      stays open without one, and the reply is an error. `mid` is the state
      between the two writes. */
  method HandleOpen(b: Broker, a: Actor, rec: Members, effect: Option<Effect>, d: Draws, env: Env)
    returns (r: Reply, ghost mid: View)
    requires Ready(b) && b.cfg.Valid() && ActorOk(a) && RecordValid(rec) && ProperRecord(rec)
    requires DrawsOk(d, b.hist, b.past, b.mem.opens)
    modifies b
    ensures Reaches(b.tx, b.cfg, old(b.Snap()), b.Snap()) && b.clock < U64_LIMIT && (b.mem.poisoned || b.phase.Idle?)
    ensures r.OpenOk? || r.Error?
    ensures r == Error(SchemaInvalid) <==>
            effect.Some? && (|StringField(rec, Operation)| >= 128 || |StringField(rec, ResourceKey)| >= 128)
    ensures r.OpenOk? ==> r.cid == d.cid && r.binding == d.binding && !b.mem.poisoned && r.token.Some? == effect.Some?
    ensures r.OpenOk? ==> Grew(old(Seen(b)), mid) && OpenedOne(old(Seen(b)), mid, d.cid, d.binding, a, rec)
    ensures r.OpenOk? && effect.None? ==> Seen(b) == mid
    ensures r.OpenOk? && effect.Some? ==> Grew(mid, Seen(b)) && r.token in d.tokens
    ensures r.OpenOk? && effect.Some? ==>
              IssuedTo(b.cfg, mid, Seen(b), d.cid, effect.value, d.boot, d.sha, r.token.value)
    ensures r.OpenOk? && effect.Some? ==> BindsRecord(Latest(Seen(b)), rec)
    ensures r.OpenOk? ==> TheOpen(b.cfg, old(Seen(b)), Seen(b), a, rec, effect, d, r.token)
    ensures r.OpenOk? ==> OpenLodged(b.tx, b.cfg, old(b.Snap()), b.Snap(), a, rec, effect, d, env)
    ensures r.OpenOk? ==> env.first.space && (effect.Some? ==> env.second.space)
    ensures r.OpenOk? ==> !OverCap(b.cfg, old(b.mem.opens), a.uid)
    ensures r.Error? ==> OpenErrorFits(b, old(b.mem.opens), a, rec, effect, d, env, r.code)
    ensures r.Error? && effect.None? ==> NothingDone(old(Seen(b)), b)
    ensures r.Error? && effect.Some? && !b.mem.poisoned && Seen(b) != old(Seen(b)) ==>
              Grew(old(Seen(b)), Seen(b)) && OpenedOne(old(Seen(b)), Seen(b), d.cid, d.binding, a, rec)
  {
    hide Reaches, Decode, RecordValid, RateAllowed, EvictRing, StringField, ActorOk, FreshCid, IntentsOk, Grew;
    hide IssuedTo, AuditLodged, ReceiptLodged, WhyNotIssued, BytesAllowed, AuditSize, Printable, AuditFacts;
    hide Inv, QuotaFull, Faithful;
    ghost var from := b.Snap();
    ReachesSelf(b.tx, b.cfg, from);
    mid := Seen(b);
    if effect.Some? && TooLongToBind(rec) {
      return Error(SchemaInvalid), mid;
    }
    var refusal := OpenIntent(b, from, a, rec, d.cid, d.binding, env);
    mid := Seen(b);
    if refusal.Some? {
      return Error(refusal.value), mid;
    }
    if effect.None? {
      MidIs(old(Seen(b)), mid, mid);
      return OpenOk(d.cid, d.binding, None), mid;
    }
    AfterOpen(old(Seen(b)), mid, d.cid, d.binding, a, rec);
    ReachesKeepsInv(b.tx, b.cfg, from, b.Snap());
    ghost var between := b.Snap();
    var token, limited := IssueReceipt(b, from, d.cid, effect.value, d.boot, d.sha, d.tokens, env.second);
    if token.Some? {
      IssuedBinds(b.cfg, old(Seen(b)), mid, Seen(b), d.cid, d.binding, a, rec, effect.value, d.boot, d.sha,
                  token.value);
      MidIs(old(Seen(b)), mid, Seen(b));
    }
    r := if token.Some? then OpenOk(d.cid, d.binding, token) else Error(if limited then RateLimited else PersistFailed);
  }

  lemma IssuedBinds(cfg: Config, v: View, mid: View, w: View, cid: string, binding: string, a: Actor, rec: Members,
                    plan: Effect, boot: Boot, sha: Digest, token: string)
    requires OpenedOne(v, mid, cid, binding, a, rec) && IssuedTo(cfg, mid, w, cid, plan, boot, sha, token)
    requires !TooLongToBind(rec)
    ensures w.hist != [] && BindsRecord(Latest(w), rec)
  {
    hide StringField;
  }

  lemma AfterOpen(v: View, w: View, cid: string, binding: string, a: Actor, rec: Members)
    requires IntentsOk(v.opens) && CidOk(cid) && BindingOk(binding) && ActorOk(a)
    requires OpenedOne(v, w, cid, binding, a, rec)
    requires Grew(v, w) && v.boot <= |v.hist|
    ensures IntentsOk(w.opens) && cid in w.opens && OpenedHere(w.hist, w.boot, cid) && w.boot <= |w.hist|
    ensures w.machine == v.machine
  {
    hide Installed;
    OpenedIsOk(v.opens, cid, binding, a, rec);
    assert IntentLine(w.hist[|v.hist|], cid);
  }

  lemma MidIs(v: View, mid: View, w: View)
    requires Grew(v, mid) && (w == mid || Grew(mid, w))
    ensures |v.hist| < |w.hist| && mid == AfterIntent(v, w)
  {
    hide Installed;
    assert w.hist[..|v.hist| + 1] == mid.hist;
  }

  // ---- redemption ----

  datatype Redemption =
    | Granted | NotRedeemer | NoReceipt | WrongPrincipal | WrongToken | WrongPlan | AlreadyRedeemed | Expired
    | OverQuota | NotPersisted

  predicate PlanMatches(o: Receipt, plan: Plan) {
    plan == Plan(o.verb, o.resource, o.planSchema, o.planHash)
  }

  /** Same boot, not before the issue, and within the lifetime. */
  predicate Unexpired(o: Receipt, boot: Boot) {
    boot.time.Some? && boot.id == Some(o.bootId) && 0 <= boot.time.value - o.issueUs <= o.ttlUs
  }

  /** Presented by the right principal with the right token. */
  predicate RightBearer(o: Receipt, principal: nat, verifier: string) {
    principal == o.actorUid && verifier == o.verifier
  }

  /** For the very plan it was issued for. */
  predicate RightPlan(o: Receipt, plan: Plan) {
    plan.verb == o.verb && plan.resource == o.resource && plan.schema == o.planSchema && plan.hash == o.planHash
  }

  /** The boot clock reads between the issue and the end of the lifetime, on the
      boot the receipt was issued on. */
  predicate InLifetime(o: Receipt, boot: Boot) {
    && boot.time.Some? && boot.id.Some? && boot.id.value == o.bootId
    && boot.time.value >= o.issueUs && boot.time.value <= o.issueUs + o.ttlUs
  }

  /** Each answer to a presented receipt has its own reason, first reason first. */
  predicate RedemptionFits(r: Redemption, o: Receipt, principal: nat, verifier: string, plan: Plan, boot: Boot) {
    match r
    case WrongPrincipal => principal != o.actorUid
    case WrongToken => principal == o.actorUid && verifier != o.verifier
    case WrongPlan => RightBearer(o, principal, verifier) && !RightPlan(o, plan)
    case AlreadyRedeemed => RightBearer(o, principal, verifier) && RightPlan(o, plan) && o.state.Redeemed?
    case Expired =>
      RightBearer(o, principal, verifier) && RightPlan(o, plan) && o.state.Issued? && !InLifetime(o, boot)
    case Granted | OverQuota | NotPersisted =>
      RightBearer(o, principal, verifier) && RightPlan(o, plan) && o.state.Issued? && InLifetime(o, boot)
    case _ => false
  }

  ghost predicate RedeemedOne(v: View, w: View, cid: string) {
    w.hist != [] && cid in v.opens && v.opens[cid].receipt.Some? &&
    var l, o := Latest(w), v.opens[cid].receipt.value;
    && l.s.ReceiptRecord? && l.s == ReceiptRecord(cid, false, o.(state := Redeemed,
                                                                 acceptedUs := l.s.receipt.acceptedUs))
    && w.opens == v.opens[cid := v.opens[cid].(receipt := Some(l.s.receipt))]
  }

  /** The stored verifier is decoded back to bytes and compared as bytes. */
  method TokenMatches(sha: Digest, token: string, verifier: string) returns (same: bool)
    requires IsHexString(verifier, 64)
    ensures same <==> VerifierOf(sha, token) == verifier
  {
    var stored := HexDecode(verifier, 32);
    assert forall i :: 0 <= i < 64 ==> verifier[i] in verifier;
    assert verifier[..64] == verifier;
    SameDigestSameText(sha(token), stored.value, verifier);
    same := sha(token) == stored.value;
  }

  method RedeemReceipt(b: Broker, ghost from: State, cid: string, token: string, redeemer: nat, principal: nat,
                       plan: Plan, boot: Boot, sha: Digest, luck: Luck)
    returns (r: Redemption)
    requires Ready(b) && b.Since(from) && ReadHere(boot, b.past)
    modifies b
    ensures b.Since(from) && b.clock < U64_LIMIT && (b.mem.poisoned || b.phase.Idle?)
    ensures r.NotRedeemer? <==> redeemer != 0
    ensures r.NoReceipt? <==> redeemer == 0 && !(cid in old(b.mem.opens) && old(b.mem.opens)[cid].receipt.Some?)
    ensures !r.NotRedeemer? && !r.NoReceipt? ==>
              RedemptionFits(r, old(b.mem.opens)[cid].receipt.value, principal, VerifierOf(sha, token), plan, boot)
    ensures r.Granted? ==> luck.space
    ensures r.Granted? ==> !b.mem.poisoned && Grew(old(Seen(b)), Seen(b)) && RedeemedOne(old(Seen(b)), Seen(b), cid)
    ensures r.Granted? ==> ReceiptLodged(b.tx, b.cfg, old(b.Snap()), b.Snap(), luck)
    ensures !r.Granted? ==> NothingDone(old(Seen(b)), b)
    ensures r.OverQuota? || r.NotPersisted? ==> SpendRefused(b, cid, old(b.mem.opens)[cid].receipt.value, luck, r)
  {
    hide Reaches, Decode, RateAllowed, EvictRing, VerifierOf, IsHexString, ReceiptLodged, AdmitsStep, BytesAllowed;
    hide ReceiptLine, Inv, QuotaFull, Faithful, Installed, IntentsOk, ReceiptOk, PlanMatches, Unexpired, Grew;
    hide RedeemedOne;
    hide RightPlan, InLifetime;
    if redeemer != 0 {
      return NotRedeemer;
    }
    if cid !in b.mem.opens || b.mem.opens[cid].receipt.None? {
      return NoReceipt;
    }
    var o := b.mem.opens[cid].receipt.value;
    ReceiptStands(b.mem.opens, cid);
    ChecksAre(o, plan, boot);
    if principal != o.actorUid {
      return WrongPrincipal;
    }
    var same := TokenMatches(sha, token, o.verifier);
    if !same {
      return WrongToken;
    }
    if !PlanMatches(o, plan) {
      return WrongPlan;
    }
    if o.state.Redeemed? {
      return AlreadyRedeemed;
    }
    if !Unexpired(o, boot) {
      return Expired;
    }
    if !luck.space {
      return NotPersisted;
    }
    var now := b.ReadClock();
    RedeemAdmitted(b.cfg, b.hist, b.mem.opens, cid, now);
    var refusal := WriteReceipt(b, from, cid, o.(state := Redeemed, acceptedUs := now), luck);
    assert refusal == Some(Internal) ==> Unwritable(b.tx, cid, o.(state := Redeemed, acceptedUs := now));
    if refusal.None? { RedeemedIs(old(Seen(b)), Seen(b), cid, now); }
    r := if refusal.None? then Granted else if refusal.value == RateLimited then OverQuota else NotPersisted;
  }

  lemma ReceiptStands(opens: Opens, cid: string)
    requires IntentsOk(opens) && cid in opens && opens[cid].receipt.Some?
    ensures ReceiptOk(cid, opens[cid].receipt.value) && IsHexString(opens[cid].receipt.value.verifier, 64)
  {
    assert IntentOk(cid, opens[cid]);
  }

  lemma ChecksAre(o: Receipt, plan: Plan, boot: Boot)
    ensures PlanMatches(o, plan) <==> RightPlan(o, plan)
    ensures Unexpired(o, boot) <==> InLifetime(o, boot)
    ensures InLifetime(o, boot) ==> boot.id == Some(o.bootId)
  {
  }

  lemma RedeemAdmitted(cfg: Config, h: seq<Rec>, opens: Opens, cid: string, now: nat)
    requires cid in opens && opens[cid].receipt.Some? && opens[cid].receipt.value.state.Issued? && now < U64_LIMIT
    requires ReceiptOk(cid, opens[cid].receipt.value)
    ensures var spent := opens[cid].receipt.value.(state := Redeemed, acceptedUs := now);
            ReceiptOk(cid, spent) && AdmitsStep(cfg, h, opens, ReceiptRec(cid, spent, 0))
  {
    hide AdmitsIntent, AdmitsEmit, AdmitsIssue, AdmitsOutcome, WellEncoded, IsHexString;
  }

  lemma RedeemedIs(v: View, w: View, cid: string, now: nat)
    requires cid in v.opens && v.opens[cid].receipt.Some? && Grew(v, w)
    requires var spent := v.opens[cid].receipt.value.(state := Redeemed, acceptedUs := now);
             Latest(w) == ReceiptRec(cid, spent, Latest(w).size)
    ensures RedeemedOne(v, w, cid)
  {
  }

  /** Why a good receipt was still not redeemed. */
  ghost predicate SpendRefused(b: Broker, cid: string, o: Receipt, luck: Luck, r: Redemption)
    reads b
  {
    if r.OverQuota? then
      WhyRefused(b, o.actorUid, |ReceiptLine(b.tx, cid, o.(state := Redeemed, acceptedUs := b.clock))| + 1, true, luck,
                 RateLimited)
    else DiskFails(luck) || Unwritable(b.tx, cid, o.(state := Redeemed, acceptedUs := b.clock))
  }

  method FindVerifier(opens: Opens, verifier: string) returns (r: Option<string>)
    ensures r.Some? ==> r.value in opens && opens[r.value].receipt.Some?
    ensures r.Some? ==> opens[r.value].receipt.value.verifier == verifier
    ensures r.None? <==> !VerifierInUse(opens, verifier)
  {
    if c :| c in opens && opens[c].receipt.Some? && opens[c].receipt.value.verifier == verifier {
      r := Some(c);
    } else {
      r := None;
    }
  }

  /** Root only; the receipt is found by its token alone. The correlation id in
      the reply is the matched intent's. */
  method HandleRedeem(b: Broker, a: Actor, token: string, principal: nat, plan: Plan, boot: Boot, sha: Digest,
                      luck: Luck)
    returns (r: Reply)
    requires Ready(b) && ReadHere(boot, b.past)
    modifies b
    ensures Reaches(b.tx, b.cfg, old(b.Snap()), b.Snap()) && b.clock < U64_LIMIT && (b.mem.poisoned || b.phase.Idle?)
    ensures r.RedeemOk? || r.Error?
    ensures r == Error(ReceiptUnauthorized) <==> a.uid != 0
    ensures r == Error(ReceiptInvalid) <==> a.uid == 0 && !VerifierInUse(old(b.mem.opens), VerifierOf(sha, token))
    ensures r.RedeemOk? ==> !b.mem.poisoned && Grew(old(Seen(b)), Seen(b))
    ensures r.RedeemOk? ==> RedeemedOne(old(Seen(b)), Seen(b), r.redeemed)
    ensures r.RedeemOk? ==> a.uid == 0 && luck.space
    ensures r.RedeemOk? ==> Presented(old(b.mem.opens), r.redeemed, VerifierOf(sha, token), principal, plan, boot)
    ensures r.RedeemOk? ==> ReceiptLodged(b.tx, b.cfg, old(b.Snap()), b.Snap(), luck)
    ensures r.Error? ==> NothingDone(old(Seen(b)), b)
    ensures r.Error? && r.code != ReceiptUnauthorized && r.code != ReceiptInvalid ==>
              exists c :: c in old(b.mem.opens) &&
                          RedeemErrorFits(b, r.code, c, old(b.mem.opens)[c], VerifierOf(sha, token), principal, plan,
                                          boot, luck)
  {
    hide Reaches, IntentsOk, Grew, RedeemedOne, HexText, IsHexString, PlanMatches, Unexpired, VerifierInUse, Decode;
    hide Faithful, ReceiptLodged, SpendRefused, Inv;
    ghost var from := b.Snap();
    ReachesSelf(b.tx, b.cfg, from);
    if a.uid != 0 {
      return Error(ReceiptUnauthorized);
    }
    var verifier := HexEncode(sha(token));
    var found := FindVerifier(b.mem.opens, verifier);
    if found.None? {
      return Error(ReceiptInvalid);
    }
    var redemption := RedeemReceipt(b, from, found.value, token, a.uid, principal, plan, boot, sha, luck);
    r := ReplyTo(redemption, found.value);
  }

  function ReplyTo(r: Redemption, cid: string): Reply {
    match r
    case Granted => RedeemOk(cid)
    case NotRedeemer => Error(ReceiptUnauthorized)
    case WrongPrincipal => Error(ReceiptActorMismatch)
    case WrongPlan => Error(ReceiptMismatch)
    case Expired => Error(ReceiptExpired)
    case AlreadyRedeemed => Error(ReceiptRedeemed)
    case OverQuota => Error(RateLimited)
    case NoReceipt | WrongToken => Error(ReceiptInvalid)
    case NotPersisted => Error(PersistFailed)
  }

  /** Everything a redemption proves about the receipt it spends. */
  predicate Presented(opens: Opens, cid: string, verifier: string, principal: nat, plan: Plan, boot: Boot) {
    cid in opens && opens[cid].receipt.Some? &&
    var o := opens[cid].receipt.value;
    && o.state.Issued? && o.verifier == verifier && o.actorUid == principal
    && plan.verb == o.verb && plan.resource == o.resource && plan.schema == o.planSchema && plan.hash == o.planHash
    && boot.time.Some? && boot.id.Some? && boot.id.value == o.bootId
    && o.issueUs <= boot.time.value <= o.issueUs + o.ttlUs
  }

  /** Which error the matched receipt calls for. */
  ghost predicate RedeemErrorFits(b: Broker, code: Code, cid: string, it: Intent, verifier: string, principal: nat,
                                  plan: Plan, boot: Boot, luck: Luck)
    reads b
  {
    it.receipt.Some? && it.receipt.value.verifier == verifier &&
    var o := it.receipt.value;
    if o.actorUid != principal then code == ReceiptActorMismatch
    else if !RightPlan(o, plan) then code == ReceiptMismatch
    else if o.state.Redeemed? then code == ReceiptRedeemed
    else if !InLifetime(o, boot) then code == ReceiptExpired
    else if code == RateLimited then SpendRefused(b, cid, o, luck, OverQuota)
    else code == PersistFailed && SpendRefused(b, cid, o, luck, NotPersisted)
  }

  // ---- one request ----

  /** The record, if there is one, was read from text. */
  ghost predicate ProperRequest(req: Request) {
    (req.Open? || req.WriteOutcome? || req.EmitRecord?) ==> ProperRecord(req.rec)
  }

  /** The broker's invariant between requests. */
  ghost predicate Valid(b: Broker)
    reads b
  {
    && Faithful(b.tx) && b.cfg.Valid() && b.clock < U64_LIMIT && (b.mem.poisoned || b.phase.Idle?)
    && Inv(b.tx, b.cfg, b.Snap())
  }

  lemma InvIntentsOk(tx: Text, cfg: Config, s: State)
    requires Inv(tx, cfg, s) && s.proc.Up?
    ensures IntentsOk(s.proc.mem.opens) && s.boot <= |s.hist|
  {
    LiveIntentsOk(cfg, s.proc.mem.opens, s.hist);
  }

  ghost function ViewOf(s: State): View
    requires s.proc.Up?
  {
    View(s.hist, s.proc.mem.opens, s.acks, s.past.spent, s.boot, s.past.machine)
  }

  /** What an error leaves: nothing, or the broker poisoned, or the open intent
      of an effect whose receipt could not be issued. */
  ghost predicate Failed(before: State, after: State, a: Actor, req: Request, d: Draws)
    requires before.proc.Up? && after.proc.Up?
  {
    var v, w := ViewOf(before), ViewOf(after);
    || after.proc.mem.poisoned || w == v
    || (req.Open? && req.effect.Some? && Grew(v, w) && OpenedOne(v, w, d.cid, d.binding, a, req.rec))
  }

  /** What each reply says of the states around it. */
  ghost predicate Told(cfg: Config, before: State, after: State, a: Actor, req: Request, d: Draws, r: Reply) {
    && before.proc.Up? && after.proc.Up?
    && (!r.Error? ==> !after.proc.mem.poisoned && after.proc.phase.Idle?)
    && var v, w := ViewOf(before), ViewOf(after);
       match r
       case OpenOk(cid, binding, token) =>
         && cid == d.cid && binding == d.binding
         && req.Open? && TheOpen(cfg, v, w, a, req.rec, req.effect, d, token)
       case OutcomeOk => req.WriteOutcome? && Grew(v, w) && ClosedOne(v, w, req.binding, a, req.rec)
       case EmitOk(cid) =>
         && cid == d.cid && req.EmitRecord? && Grew(v, w) && w.opens == v.opens
         && Emitted(Latest(w), req.phase, cid, a, req.rec)
       case CapabilitiesOk => req.AskCapabilities? && after == before
       case RedeemOk(cid) =>
         && req.RedeemToken? && a.uid == 0 && Grew(v, w) && RedeemedOne(v, w, cid)
         && Presented(v.opens, cid, VerifierOf(d.sha, req.token), req.principal, req.plan, d.boot)
       case Error(_) => Failed(before, after, a, req, d)
  }

  /** The line each success is about is in the file, for which there was space. */
  ghost predicate OnDisk(tx: Text, cfg: Config, s: State, s': State, a: Actor, req: Request, d: Draws, env: Env,
                         r: Reply)
  {
    match r
    case OpenOk(_, _, _) =>
      && req.Open? && OpenLodged(tx, cfg, s, s', a, req.rec, req.effect, d, env)
      && env.first.space && (req.effect.Some? ==> env.second.space)
    case OutcomeOk =>
      req.WriteOutcome? && s'.hist != [] && env.first.space &&
      var l := s'.hist[|s'.hist| - 1];
      l.s.Audit? && AuditLodged(tx, cfg, s, s', PHASE_OUTCOME, l.s.cid, None, a, env, req.rec, env.first)
    case EmitOk(cid) =>
      && req.EmitRecord? && AuditLodged(tx, cfg, s, s', req.phase, cid, None, a, env, req.rec, env.first)
      && env.first.space
    case RedeemOk(_) => ReceiptLodged(tx, cfg, s, s', env.first) && env.first.space
    case _ => true
  }

  /** Every error has its reason: nothing is refused that need not be. */
  ghost predicate Explained(b: Broker, s: State, a: Actor, req: Request, d: Draws, env: Env, code: Code)
    requires s.proc.Up?
    reads b
  {
    var opens := s.proc.mem.opens;
    if s.proc.mem.poisoned then code == PersistFailed
    else
      match req
      case Open(rec, effect) => OpenErrorFits(b, opens, a, rec, effect, d, env, code)
      case WriteOutcome(binding, rec) =>
        if code == UnknownIntent then forall c :: c in opens ==> opens[c].binding != binding
        else
          || (code == RateLimited && QuotaFull(b.cfg, b.Snap(), a.uid, 0))
          || exists c :: c in opens && opens[c].binding == binding &&
                         OutcomeErrorFits(b, code, c, opens[c], a, rec, env)
      case EmitRecord(phase, rec) =>
        WhyRefused(b, a.uid, AuditSize(b.tx, phase, d.cid, None, a, env, b.clock, rec), Printable(env, b.clock),
                   env.first, code)
      case AskCapabilities => false
      case RedeemToken(token, principal, plan) =>
        if a.uid != 0 then code == ReceiptUnauthorized
        else if !VerifierInUse(opens, VerifierOf(d.sha, token)) then code == ReceiptInvalid
        else exists c :: c in opens &&
                         RedeemErrorFits(b, code, c, opens[c], VerifierOf(d.sha, token), principal, plan, d.boot,
                                         env.first)
  }

  /** Everything one reply says: of the history, of the file, and of why not. */
  ghost predicate Answered(b: Broker, s: State, a: Actor, req: Request, d: Draws, env: Env, r: Reply)
    reads b
  {
    && Told(b.cfg, s, b.Snap(), a, req, d, r) && OnDisk(b.tx, b.cfg, s, b.Snap(), a, req, d, env, r)
    && s.proc.Up? && (r.Error? ==> Explained(b, s, a, req, d, env, r.code))
  }

  method ServeOpen(b: Broker, a: Actor, req: Request, d: Draws, env: Env) returns (r: Reply)
    requires req.Open? && Ready(b) && ActorOk(a) && RecordValid(req.rec) && ProperRecord(req.rec)
    requires DrawsOk(d, b.hist, b.past, b.mem.opens)
    modifies b
    ensures Reaches(b.tx, b.cfg, old(b.Snap()), b.Snap()) && b.clock < U64_LIMIT && (b.mem.poisoned || b.phase.Idle?)
    ensures Answered(b, old(b.Snap()), a, req, d, env, r)
  {
    hide Inv, Reaches, ActorOk, RecordValid, ProperRecord, FreshCid, IntentsOk, OpenedOne, IssuedTo, TheOpen, Grew;
    hide OpenLodged, OpenErrorFits, StringField, BindsRecord, Faithful, DrawsOk;
    ghost var mid;
    r, mid := HandleOpen(b, a, req.rec, req.effect, d, env);
  }

  method ServeOutcome(b: Broker, a: Actor, req: Request, d: Draws, env: Env) returns (r: Reply)
    requires req.WriteOutcome? && Ready(b) && ActorOk(a) && RecordValid(req.rec) && ProperRecord(req.rec)
    modifies b
    ensures Reaches(b.tx, b.cfg, old(b.Snap()), b.Snap()) && b.clock < U64_LIMIT && (b.mem.poisoned || b.phase.Idle?)
    ensures Answered(b, old(b.Snap()), a, req, d, env, r)
  {
    hide Inv, Reaches, ActorOk, RecordValid, ProperRecord, IntentsOk, AuditRec, Grew, SaysEffect, AuditLodged;
    hide QuotaFull;
    hide OutcomeErrorFits, Faithful;
    r := HandleOutcome(b, a, req.binding, req.rec, env);
  }

  method ServeEmit(b: Broker, a: Actor, req: Request, d: Draws, env: Env) returns (r: Reply)
    requires req.EmitRecord? && Ready(b) && ActorOk(a) && RecordValid(req.rec) && ProperRecord(req.rec)
    requires (req.phase == PHASE_PREVIEW || req.phase == PHASE_NOOP) && DrawsOk(d, b.hist, b.past, b.mem.opens)
    modifies b
    ensures Reaches(b.tx, b.cfg, old(b.Snap()), b.Snap()) && b.clock < U64_LIMIT && (b.mem.poisoned || b.phase.Idle?)
    ensures Answered(b, old(b.Snap()), a, req, d, env, r)
  {
    hide Inv, Reaches, ActorOk, RecordValid, ProperRecord, IntentsOk, AuditRec, Grew, AuditLodged, QuotaFull, FreshCid;
    hide WhyRefused, AuditSize, Printable, Faithful;
    r := HandleEmit(b, a, req.phase, req.rec, d.cid, env);
  }

  method ServeRedeem(b: Broker, a: Actor, req: Request, d: Draws, env: Env) returns (r: Reply)
    requires req.RedeemToken? && Ready(b) && ReadHere(d.boot, b.past)
    modifies b
    ensures Reaches(b.tx, b.cfg, old(b.Snap()), b.Snap()) && b.clock < U64_LIMIT && (b.mem.poisoned || b.phase.Idle?)
    ensures Answered(b, old(b.Snap()), a, req, d, env, r)
  {
    hide Inv, Reaches, IntentsOk, Grew, RedeemedOne, Presented, RedeemErrorFits, ReceiptLodged, VerifierInUse;
    hide VerifierOf;
    hide Faithful;
    r := HandleRedeem(b, a, req.token, req.principal, req.plan, d.boot, d.sha, env.first);
  }

  /** Serve one request. A success reply means that what it names is durable,
      installed and acknowledged. An error reply means nothing happened, or the
      broker is poisoned, or an effect's intent stays open without a receipt. A
      poisoned broker serves nothing. */
  method Handle(b: Broker, a: Actor, req: Request, d: Draws, env: Env) returns (r: Reply)
    requires Valid(b) && ActorOk(a) && WellFormed(req) && ProperRequest(req) && DrawsOk(d, b.hist, b.past, b.mem.opens)
    modifies b
    ensures Valid(b) && Reaches(b.tx, b.cfg, old(b.Snap()), b.Snap())
    ensures old(b.mem.poisoned) ==> r == Error(PersistFailed) && b.Snap() == old(b.Snap())
    ensures Answered(b, old(b.Snap()), a, req, d, env, r)
  {
    hide Inv, Reaches, RecordValid, ProperRecord, ActorOk, FreshCid, IntentsOk, EffectOk, PlanOk, ClaimsEffect;
    hide Faithful;
    ReachesSelf(b.tx, b.cfg, b.Snap());
    if b.mem.poisoned {
      return Error(PersistFailed);
    }
    hide Answered;
    InvIntentsOk(b.tx, b.cfg, b.Snap());
    match req {
      case Open(_, _) => r := ServeOpen(b, a, req, d, env);
      case WriteOutcome(_, _) => r := ServeOutcome(b, a, req, d, env);
      case EmitRecord(_, _) => r := ServeEmit(b, a, req, d, env);
      case AskCapabilities => r := ServeCapabilities(b, a, req, d, env);
      case RedeemToken(_, _, _) => r := ServeRedeem(b, a, req, d, env);
    }
    ReachesKeepsInv(b.tx, b.cfg, old(b.Snap()), b.Snap());
  }

  method ServeCapabilities(b: Broker, a: Actor, req: Request, d: Draws, env: Env) returns (r: Reply)
    requires req.AskCapabilities? && !b.mem.poisoned && b.phase.Idle?
    ensures Answered(b, b.Snap(), a, req, d, env, r) && r.CapabilitiesOk?
  {
    r := CapabilitiesOk;
  }

  // ---- one request body ----

  lemma ParsedIsProper(req: Request)
    requires Proper(Obj(RequestMembers(req)))
    ensures ProperRequest(req)
  {
    hide NameOf;
    if req.Open? || req.WriteOutcome? || req.EmitRecord? { assert Proper(RequestMembers(req)[RecordKey]); }
  }

  datatype Served = Replied(reply: Reply) | BadJson | Rejected(parse: Parse)

  /** Parse the body, then serve it. Every request the parser accepts meets what
      the handlers ask of it; a body that is not a request changes nothing. */
  method ServeBody(b: Broker, a: Actor, body: seq<Byte>, d: Draws, env: Env) returns (r: Served)
    requires Valid(b) && ActorOk(a) && DrawsOk(d, b.hist, b.past, b.mem.opens)
    modifies b
    ensures Valid(b) && Reaches(b.tx, b.cfg, old(b.Snap()), b.Snap())
    ensures r.BadJson? <==> b.tx.load(body).None?
    ensures r.Replied? <==> b.tx.load(body).Some? && ParseRequest(b.tx.load(body).value).Parsed?
    ensures r.Replied? ==>
              Answered(b, old(b.Snap()), a, ParseRequest(b.tx.load(body).value).req, d, env, r.reply)
    ensures !r.Replied? ==> b.Snap() == old(b.Snap())
    ensures r.Rejected? ==> r.parse == ParseRequest(b.tx.load(body).value)
  {
    hide Inv, Reaches, Decode, ActorOk, FreshCid, ParseTyped, DepthAtMost, WellFormed, Answered, ProperRecord;
    ReachesSelf(b.tx, b.cfg, b.Snap());
    var j := b.tx.load(body);
    if j.None? {
      return BadJson;
    }
    var parse := ParseRequest(j.value);
    if !parse.Parsed? {
      return Rejected(parse);
    }
    ParseIsGrammar(j.value, parse.req);
    ParsedIsProper(parse.req);
    var reply := Handle(b, a, parse.req, d, env);
    r := Replied(reply);
  }
}
