/** What a stored line must look like, said of the tree alone: the shape of each
    kind of record, member by member. The strict parser reads exactly these. */
module Shapes {
  import opened Types
  import opened Decimal
  import opened Json
  import opened Records

  // ---- members ----

  predicate IsText(ms: Members, k: Key, s: string) { Get(ms, k) == Some(Str(s)) }

  predicate IsInt(ms: Members, k: Key, i: int) { Get(ms, k) == Some(Int(i)) }

  /** Only these names. */
  predicate Just(ms: Members, names: set<Key>) { forall k :: k in ms ==> k in names }

  /** Decimal text of a 64-bit number, and nothing else. */
  predicate Decimal64(j: Json, n: nat) {
    j.Str? && j.s != "" && AllDigits(j.s) && Number(j.s) == n && n < 0x1_0000_0000_0000_0000
  }

  predicate IsDecimal(ms: Members, k: Key, n: nat) { k in ms && Decimal64(ms[k], n) }

  /** Absent, null, or this text. */
  predicate MayBeText(ms: Members, k: Key, s: string) {
    if k !in ms || ms[k] == Null then s == "" else ms[k] == Str(s)
  }

  /** The low 32 bits, unsigned. */
  predicate Low32(i: int, n: nat) { n < 0x1_0000_0000 && (i - n) % 0x1_0000_0000 == 0 }

  /** The low 32 bits, signed. */
  predicate Signed32(i: int, n: int) { -0x8000_0000 <= n < 0x8000_0000 && (i - n) % 0x1_0000_0000 == 0 }

  // ---- the broker extension ----

  ghost predicate PeerShape(ms: Members, a: Actor) {
    && (exists u, g, p ::
          && IsInt(ms, UidKey, u) && IsInt(ms, Gid, g) && IsInt(ms, Pid, p)
          && u >= 0 && g >= 0 && p > 0 && Low32(u, a.uid) && Low32(g, a.gid) && Signed32(p, a.pid))
    && IsText(ms, BootId, a.bootId) && 0 < |a.bootId| < 40
    && IsText(ms, Starttime, a.starttime) && 0 < |a.starttime| < 24 && AllDigits(a.starttime)
    && Just(ms, {UidKey, Gid, Pid, BootId, Starttime})
  }

  ghost predicate ExtensionShape(ms: Members, a: Actor, time: nat, binding: Option<string>) {
    && IsInt(ms, SchemaVersion, 1) && IsDecimal(ms, AcceptedTimeUs, time)
    && (exists peer :: Get(ms, Peer) == Some(Obj(peer)) && PeerShape(peer, a))
    && match binding
       case None => BindingKey !in ms
       case Some(b) => IsText(ms, BindingKey, b) && 0 < |b| < 33
  }

  predicate MetaShape(ms: Members, operation: string, resource: string, scope: string) {
    && MayBeText(ms, Operation, operation) && |operation| < 128
    && MayBeText(ms, ResourceKey, resource) && |resource| < 128
    && MayBeText(ms, ScopeKey, scope) && |scope| < 32
  }

  // ---- the four kinds ----

  /** Any client members; in the extension nothing but its own; a binding on an
      intent and on nothing else; the pid and the actor those of the peer. */
  ghost predicate AuditShape(ms: Members, s: Stored)
    requires s.Audit?
  {
    && IsText(ms, CorrelationId, s.cid) && 0 < |s.cid| < 64
    && IsText(ms, PhaseKey, s.phase) && 0 < |s.phase| < 16
    && (exists p :: IsInt(ms, Pid, p) && Signed32(p, s.actor.pid))
    && IsText(ms, ActorKey, "uid:" + Digits(s.actor.uid))
    && MetaShape(ms, s.operation, s.resource, s.scope)
    && exists x :: Get(ms, Broker) == Some(Obj(x)) && Just(x, {SchemaVersion, Peer, AcceptedTimeUs, BindingKey}) &&
         if s.phase == "intent" then ExtensionShape(x, s.actor, s.time, Some(s.binding))
         else s.binding == "" && ExtensionShape(x, s.actor, s.time, None)
  }

  ghost predicate CheckpointShape(ms: Members, s: Stored)
    requires s.Checkpoint?
  {
    && IsText(ms, CorrelationId, s.cid) && 0 < |s.cid| < 64
    && Just(ms, {SchemaVersion, RecordType, CorrelationId, Broker})
    && exists x :: Get(ms, Broker) == Some(Obj(x)) && ExtensionShape(x, s.actor, s.time, Some(s.binding)) &&
         MetaShape(x, s.operation, s.resource, s.scope) &&
         Just(x, {SchemaVersion, Peer, AcceptedTimeUs, BindingKey, Operation, ResourceKey, ScopeKey})
  }

  ghost predicate RateShape(ms: Members, s: Stored)
    requires s.Rate?
  {
    && (exists u :: IsInt(ms, UidKey, u) && u >= 0 && Low32(u, s.uid))
    && (exists ts, bs :: Get(ms, TimesUs) == Some(Arr(ts)) && Get(ms, BytesKey) == Some(Arr(bs)) &&
          EntriesShape(ts, bs, s.entries))
    && Just(ms, {SchemaVersion, RecordType, UidKey, TimesUs, BytesKey})
  }

  predicate EntriesShape(ts: seq<Json>, bs: seq<Json>, es: seq<Entry>) {
    && |ts| == |bs| == |es|
    && forall i :: 0 <= i < |es| ==> Decimal64(ts[i], es[i].ts) && Decimal64(bs[i], es[i].bytes)
  }

  predicate HexText(ms: Members, k: Key, s: string) {
    IsText(ms, k, s) && |s| == 64 && forall i :: 0 <= i < |s| ==> '0' <= s[i] <= '9' || 'a' <= s[i] <= 'f'
  }

  predicate ReceiptShape(ms: Members, s: Stored)
    requires s.ReceiptRecord?
  {
    var r := s.receipt;
    && IsInt(ms, StateSchemaVersion, 1) && IsText(ms, CorrelationId, s.cid) && 0 < |s.cid| < 64
    && Get(ms, CheckpointKey) == Some(Bool(s.checkpoint))
    && IsText(ms, State, if r.state.Issued? then "issued" else "redeemed")
    && HexText(ms, Verifier, r.verifier) && HexText(ms, PlanHash, r.planHash)
    && IsInt(ms, ActorUid, r.actorUid) && r.actorUid < 0x1_0000_0000
    && IsText(ms, Verb, r.verb) && 0 < |r.verb| < 128 && IsText(ms, ResourceKey, r.resource) && |r.resource| < 128
    && IsInt(ms, PlanSchema, r.planSchema) && r.planSchema >= 1
    && IsDecimal(ms, IssueBoottimeUs, r.issueUs) && IsDecimal(ms, TtlUs, r.ttlUs)
    && IsText(ms, BootId, r.bootId) && 0 < |r.bootId| < 40 && IsDecimal(ms, AcceptedTimeUs, r.acceptedUs)
    && Just(ms, {SchemaVersion, RecordType, StateSchemaVersion, CorrelationId, CheckpointKey, State, Verifier, ActorUid,
                 Verb, ResourceKey, PlanSchema, PlanHash, IssueBoottimeUs, TtlUs, BootId, AcceptedTimeUs})
  }

  /** The tree is a record of this version and kind, with these facts. */
  ghost predicate Shape(j: Json, s: Stored) {
    j.Obj? && IsInt(j.members, SchemaVersion, 1) &&
    match s
    case Audit(_, _, _, _, _, _, _, _) => IsText(j.members, RecordType, "audit") && AuditShape(j.members, s)
    case Checkpoint(_, _, _, _, _, _, _) =>
      IsText(j.members, RecordType, "broker_checkpoint") && CheckpointShape(j.members, s)
    case Rate(_, _) => IsText(j.members, RecordType, "broker_rate") && RateShape(j.members, s)
    case ReceiptRecord(_, _, _) => IsText(j.members, RecordType, "broker_receipt") && ReceiptShape(j.members, s)
  }

  // ---- the parser reads exactly that ----

  lemma Mod32(i: int, n: nat)
    ensures Low32(i, n) <==> n == ToUid(i)
  {
  }

  lemma ModSigned32(i: int, n: int)
    ensures Signed32(i, n) <==> n == ToPid(i)
  {
  }

  lemma U64Exact(ms: Members, k: Key, n: nat)
    ensures GetU64(ms, k) == Some(n) <==> IsDecimal(ms, k, n)
  {
  }

  lemma OptStrExact(ms: Members, k: Key, cap: nat, s: string)
    requires cap > 0
    ensures GetOptStr(ms, k, cap) == Some(s) <==> MayBeText(ms, k, s) && |s| < cap
  {
  }

  lemma PeerExact(broker: Members, a: Actor)
    ensures ParsePeer(broker) == Some(a) <==> exists peer :: Get(broker, Peer) == Some(Obj(peer)) && PeerShape(peer, a)
  {
    match Get(broker, Peer)
    case Some(Obj(peer)) => PeerMembersExact(broker, peer, a);
    case _ =>
  }

  lemma PeerMembersExact(broker: Members, peer: Members, a: Actor)
    requires Get(broker, Peer) == Some(Obj(peer))
    ensures ParsePeer(broker) == Some(a) <==> PeerShape(peer, a)
  {
    hide AllDigits, ToUid, ToPid, Low32, Signed32;
    forall u, g, p | IsInt(peer, UidKey, u) && IsInt(peer, Gid, g) && IsInt(peer, Pid, p)
      ensures GetInt(peer, UidKey) == Some(u) && GetInt(peer, Gid) == Some(g) && GetInt(peer, Pid) == Some(p)
      ensures Low32(u, a.uid) <==> a.uid == ToUid(u)
      ensures Low32(g, a.gid) <==> a.gid == ToUid(g)
      ensures Signed32(p, a.pid) <==> a.pid == ToPid(p)
    {
      Mod32(u, a.uid);
      Mod32(g, a.gid);
      ModSigned32(p, a.pid);
    }
    if ParsePeer(broker) == Some(a) {
      var u, g, p := peer[UidKey].i, peer[Gid].i, peer[Pid].i;
      assert IsInt(peer, UidKey, u) && IsInt(peer, Gid, g) && IsInt(peer, Pid, p);
    }
  }

  lemma ExtensionExact(root: Members, x: Members, a: Actor, time: nat, binding: Option<string>)
    requires Get(root, Broker) == Some(Obj(x))
    ensures ParseExtension(root) == Some(Extension(x, a, time, binding)) <==> ExtensionShape(x, a, time, binding)
  {
    hide ParsePeer, PeerShape, GetU64, IsDecimal;
    PeerExact(x, a);
    U64Exact(x, AcceptedTimeUs, time);
  }

  lemma ExtensionIs(root: Members)
    ensures ParseExtension(root).Some? ==> Get(root, Broker) == Some(Obj(ParseExtension(root).value.broker))
  {
    hide ParsePeer, GetU64;
  }

  lemma MetaExact(ms: Members, operation: string, resource: string, scope: string)
    ensures MetaShape(ms, operation, resource, scope) <==>
            && GetOptStr(ms, Operation, META_MAX) == Some(operation)
            && GetOptStr(ms, ResourceKey, META_MAX) == Some(resource)
            && GetOptStr(ms, ScopeKey, SCOPE_MAX) == Some(scope)
  {
    OptStrExact(ms, Operation, META_MAX, operation);
    OptStrExact(ms, ResourceKey, META_MAX, resource);
    OptStrExact(ms, ScopeKey, SCOPE_MAX, scope);
  }

  lemma BoundedExact(ms: Members, k: Key, cap: nat, s: string)
    ensures GetBounded(ms, k, cap, true) == Some(s) <==> IsText(ms, k, s) && 0 < |s| < cap
    ensures GetBounded(ms, k, cap, false) == Some(s) <==> IsText(ms, k, s) && |s| < cap
  {
  }

  lemma PidExact(ms: Members, n: int)
    ensures (exists p :: IsInt(ms, Pid, p) && Signed32(p, n)) <==>
            GetInt(ms, Pid).Some? && ToPid(GetInt(ms, Pid).value) == n
  {
    hide Signed32, ToPid;
    if GetInt(ms, Pid).Some? {
      var p := GetInt(ms, Pid).value;
      ModSigned32(p, n);
      assert IsInt(ms, Pid, p);
    }
  }

  lemma AuditExact(ms: Members, s: Stored)
    requires s.Audit?
    ensures ParseAudit(ms) == Some(s) <==> AuditShape(ms, s)
  {
    hide ParseExtension, ExtensionShape, MetaShape, GetOptStr, GetBounded, Signed32, ToPid, IsText, Digits;
    BoundedExact(ms, CorrelationId, CID_MAX, s.cid);
    BoundedExact(ms, PhaseKey, PHASE_MAX, s.phase);
    PidExact(ms, s.actor.pid);
    MetaExact(ms, s.operation, s.resource, s.scope);
    ExtensionIs(ms);
    TextExact(ms, ActorKey, "uid:" + Digits(s.actor.uid));
    assert ActorText(s.actor.uid) == "uid:" + Digits(s.actor.uid);
    match Get(ms, Broker)
    case Some(Obj(x)) =>
      ExtensionExact(ms, x, s.actor, s.time, None);
      ExtensionExact(ms, x, s.actor, s.time, Some(s.binding));
    case _ =>
  }

  lemma TextExact(ms: Members, k: Key, s: string)
    ensures GetStr(ms, k) == Some(s) <==> IsText(ms, k, s)
  {
  }

  lemma CheckpointExact(ms: Members, s: Stored)
    requires s.Checkpoint?
    ensures ParseCheckpoint(ms) == Some(s) <==> CheckpointShape(ms, s)
  {
    hide ParseExtension, ExtensionShape, MetaShape, GetOptStr, GetBounded, IsText;
    BoundedExact(ms, CorrelationId, CID_MAX, s.cid);
    ExtensionIs(ms);
    match Get(ms, Broker)
    case Some(Obj(x)) =>
      ExtensionExact(ms, x, s.actor, s.time, Some(s.binding));
      MetaExact(x, s.operation, s.resource, s.scope);
    case _ =>
  }

  lemma {:induction false} EntriesExact(ts: seq<Json>, bs: seq<Json>, es: seq<Entry>)
    requires |ts| == |bs|
    ensures ParseEntries(ts, bs) == Some(es) <==> EntriesShape(ts, bs, es)
  {
    if ts != [] && es != [] {
      var n := |ts| - 1;
      var v, e := es[..|es| - 1], es[|es| - 1];
      EntriesExact(ts[..n], bs[..n], v);
      assert es == v + [e];
      EntryExact(ts[n], e.ts);
      EntryExact(bs[n], e.bytes);
      EntriesSnoc(ts, bs, es);
    }
  }

  lemma EntryExact(j: Json, n: nat)
    ensures TextU64(j) == Some(n) <==> Decimal64(j, n)
  {
  }

  lemma EntriesSnoc(ts: seq<Json>, bs: seq<Json>, es: seq<Entry>)
    requires |ts| == |bs| && ts != [] && es != []
    ensures EntriesShape(ts, bs, es) <==>
            && EntriesShape(ts[..|ts| - 1], bs[..|bs| - 1], es[..|es| - 1])
            && Decimal64(ts[|ts| - 1], es[|es| - 1].ts) && Decimal64(bs[|bs| - 1], es[|es| - 1].bytes)
  {
    hide Decimal64;
  }

  lemma RateExact(ms: Members, s: Stored)
    requires s.Rate?
    ensures ParseRate(ms) == Some(s) <==> RateShape(ms, s)
  {
    hide ParseEntries, EntriesShape, Low32, ToUid;
    if GetInt(ms, UidKey).Some? {
      Mod32(GetInt(ms, UidKey).value, s.uid);
      assert IsInt(ms, UidKey, GetInt(ms, UidKey).value);
    }
    match (Get(ms, TimesUs), Get(ms, BytesKey))
    case (Some(Arr(ts)), Some(Arr(bs))) =>
      if |ts| == |bs| { EntriesExact(ts, bs, s.entries); } else { UnevenEntries(ts, bs, s.entries); }
    case _ =>
  }

  lemma UnevenEntries(ts: seq<Json>, bs: seq<Json>, es: seq<Entry>)
    requires |ts| != |bs|
    ensures !EntriesShape(ts, bs, es)
  {
  }

  lemma HexExact(ms: Members, k: Key, s: string)
    ensures GetHex64(ms, k) == Some(s) <==> HexText(ms, k, s)
  {
    if HexText(ms, k, s) { assert forall c :: c in s ==> IsHex(c); }
    if GetHex64(ms, k) == Some(s) { assert forall i :: 0 <= i < |s| ==> s[i] in s; }
  }

  lemma StateExact(ms: Members, state: ReceiptState)
    ensures ParseState(ms) == Some(state) <==> IsText(ms, State, if state.Issued? then "issued" else "redeemed")
  {
    assert |"issued"| == 6 && |"redeemed"| == 8;
  }

  lemma ReceiptExact(ms: Members, s: Stored)
    requires s.ReceiptRecord?
    ensures ParseReceipt(ms) == Some(s) <==> ReceiptShape(ms, s)
  {
    hide GetBounded, ParseState, GetHex64, GetU64, IsText, HexText, IsDecimal;
    var r := s.receipt;
    BoundedExact(ms, CorrelationId, CID_MAX, s.cid);
    BoundedExact(ms, Verb, META_MAX, r.verb);
    BoundedExact(ms, ResourceKey, META_MAX, r.resource);
    BoundedExact(ms, BootId, BOOT_ID_MAX, r.bootId);
    StateExact(ms, r.state);
    HexExact(ms, Verifier, r.verifier);
    HexExact(ms, PlanHash, r.planHash);
    U64Exact(ms, IssueBoottimeUs, r.issueUs);
    U64Exact(ms, TtlUs, r.ttlUs);
    U64Exact(ms, AcceptedTimeUs, r.acceptedUs);
  }

  lemma KindsDistinct()
    ensures "audit" != "broker_checkpoint" && "audit" != "broker_rate" && "audit" != "broker_receipt"
    ensures "broker_checkpoint" != "broker_rate" && "broker_checkpoint" != "broker_receipt"
    ensures "broker_rate" != "broker_receipt"
  {
    RecordTypesDistinct();
  }

  lemma KindOf(ms: Members, s: Stored)
    ensures ParseAudit(ms) == Some(s) ==> s.Audit?
    ensures ParseCheckpoint(ms) == Some(s) ==> s.Checkpoint?
    ensures ParseRate(ms) == Some(s) ==> s.Rate?
    ensures ParseReceipt(ms) == Some(s) ==> s.ReceiptRecord?
  {
    hide ParseExtension, GetOptStr, GetBounded, ParseEntries, ParseState, GetHex64, GetU64;
  }

  /** A tree reads as these facts if and only if it is a record of version 1 and
      of their kind with exactly their shape; every other tree, whatever its
      record type, is refused. */
  lemma StoredExact(j: Json, s: Stored)
    ensures ParseStored(j) == Some(s) <==> Shape(j, s)
  {
    hide ParseAudit, ParseCheckpoint, ParseRate, ParseReceipt, AuditShape, CheckpointShape, RateShape, ReceiptShape;
    if j.Obj? {
      KindsDistinct();
      KindOf(j.members, s);
      match s {
        case Audit(_, _, _, _, _, _, _, _) => AuditExact(j.members, s);
        case Checkpoint(_, _, _, _, _, _, _) => CheckpointExact(j.members, s);
        case Rate(_, _) => RateExact(j.members, s);
        case ReceiptRecord(_, _, _) => ReceiptExact(j.members, s);
      }
    }
  }

  // ---- what a client may send ----

  /** The names a client may use, by the type of their values. */
  predicate IsFieldText(k: Key) {
    || k.Operation? || k.OutcomeKey? || k.ResourceKey? || k.ScopeKey? || k.AuditScope? || k.AuthorizedVia?
    || k.CompletionMethod? || k.JobResult? || k.ObservedReason?
  }

  predicate IsFieldFlag(k: Key) {
    k.PreviewKey? || k.EffectIssued? || k.Changed? || k.StateChanged? || k.ObservedFailed?
  }

  predicate FieldShape(k: Key, v: Json) {
    || (IsFieldText(k) && (v.Null? || v.Str?)) || (IsFieldFlag(k) && (v.Null? || v.Bool?))
    || (k.Elapsed? && (v.Null? || (v.Int? && v.i >= 0) || (v.Real? && v.mantissa >= 0)))
    || (k.Observed? && (v.Null? || v.Obj?))
  }

  /** Nothing but the known names, each null or of its type, with an operation
      and an outcome. */
  ghost predicate ClientShape(rec: Members) {
    && (forall k :: k in rec ==> FieldShape(k, rec[k]))
    && (exists s :: IsText(rec, Operation, s)) && (exists s :: IsText(rec, OutcomeKey, s))
  }

  lemma FieldExact(k: Key, v: Json)
    ensures FieldOf(k).Some? && TypeOk(FieldOf(k).value, v) <==> FieldShape(k, v)
  {
    FieldTypes(k);
    hide FieldOf, IsFieldText, IsFieldFlag;
  }

  lemma FieldTypes(k: Key)
    ensures FieldOf(k) == if IsFieldText(k) then Some(TString) else if IsFieldFlag(k) then Some(TBool)
                          else if k.Elapsed? then Some(TNumber) else if k.Observed? then Some(TObject) else None
    ensures !(IsFieldText(k) && IsFieldFlag(k)) && ((k.Elapsed? || k.Observed?) ==> !IsFieldText(k) && !IsFieldFlag(k))
  {
  }

  lemma RequiredExact(rec: Members, k: Key)
    requires IsFieldText(k) && (k in rec ==> FieldShape(k, rec[k]))
    ensures Required(rec, k) <==> exists s :: IsText(rec, k, s)
  {
    if Required(rec, k) { assert IsText(rec, k, rec[k].s); }
  }

  /** The record check accepts exactly these. */
  lemma RecordExact(rec: Members)
    ensures RecordValid(rec) <==> ClientShape(rec)
  {
    hide FieldOf, TypeOk, FieldShape, Required;
    forall k | k in rec ensures FieldOf(k).Some? && TypeOk(FieldOf(k).value, rec[k]) <==> FieldShape(k, rec[k]) {
      FieldExact(k, rec[k]);
    }
    if forall k :: k in rec ==> FieldShape(k, rec[k]) {
      RequiredExact(rec, Operation);
      RequiredExact(rec, OutcomeKey);
    }
  }
}
