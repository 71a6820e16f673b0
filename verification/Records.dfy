/** The stored records: what the broker writes for each kind of line, and the
    strict parser that reads them back at startup. */
module Records {
  import opened Types
  import opened Utf8
  import opened Json
  import opened Decimal

  const AUDIT := "audit"
  const CHECKPOINT := "broker_checkpoint"
  const RATE := "broker_rate"
  const RECEIPT := "broker_receipt"
  const ISSUED := "issued"
  const REDEEMED := "redeemed"

  // ---- what a client may put in a record ----

  datatype FieldType = TString | TBool | TNumber | TObject

  /** The allowlist; no broker-stamped name is on it. */
  function FieldOf(k: Key): Option<FieldType> {
    match k
    case Operation | OutcomeKey | ResourceKey | ScopeKey | AuditScope | AuthorizedVia
       | CompletionMethod | JobResult | ObservedReason => Some(TString)
    case PreviewKey | EffectIssued | Changed | StateChanged | ObservedFailed => Some(TBool)
    case Elapsed => Some(TNumber)
    case Observed => Some(TObject)
    case _ => None
  }

  predicate TypeOk(t: FieldType, v: Json) {
    v.Null? ||
    match t
    case TString => v.Str?
    case TBool => v.Bool?
    case TNumber => (v.Int? && v.i >= 0) || (v.Real? && v.mantissa >= 0)
    case TObject => v.Obj?
  }

  predicate Required(rec: Members, k: Key) { Get(rec, k).Some? && !Get(rec, k).value.Null? }

  predicate RecordValid(rec: Members) {
    && (forall k :: k in rec ==> FieldOf(k).Some? && TypeOk(FieldOf(k).value, rec[k]))
    && Required(rec, Operation) && Required(rec, OutcomeKey)
  }

  function StringField(rec: Members, k: Key): string {
    if Get(rec, k).Some? && Get(rec, k).value.Str? then Get(rec, k).value.s else ""
  }

  predicate ClaimsEffect(ms: Members) { Get(ms, EffectIssued) == Some(Bool(true)) }

  /** A string copied into a buffer of this capacity. */
  function Clip(s: string, cap: nat): (r: string)
    requires cap > 0
    ensures |r| < cap && r <= s && (|s| < cap <==> r == s)
  {
    if |s| < cap then s else s[..cap - 1]
  }

  /** The stored metadata buffers hold these fields without truncation. */
  predicate MetaFits(rec: Members) {
    && |StringField(rec, Operation)| < META_MAX
    && |StringField(rec, ResourceKey)| < META_MAX
    && |StringField(rec, ScopeKey)| < SCOPE_MAX
  }

  // ---- builders ----

  function PeerMembers(a: Actor): Members {
    map[UidKey := Int(a.uid), Gid := Int(a.gid), Pid := Int(a.pid),
        BootId := Str(a.bootId), Starttime := Str(a.starttime)]
  }

  /** The versioned broker extension. */
  function BrokerMembers(a: Actor, binding: Option<string>, time: nat): Members {
    var b := map[SchemaVersion := Int(1), Peer := Obj(PeerMembers(a)), AcceptedTimeUs := Str(Digits(time))];
    if binding.Some? then b[BindingKey := Str(binding.value)] else b
  }

  function ActorText(uid: nat): string { "uid:" + Digits(uid) }

  function AuditStamp(phase: string, cid: string, a: Actor, host: string): Members {
    map[SchemaVersion := Int(1), RecordType := Str(AUDIT), CorrelationId := Str(cid), PhaseKey := Str(phase),
        Host := Str(host), Pid := Int(a.pid), ActorKey := Str(ActorText(a.uid))]
  }

  /** Stamped framing, the client's fields, then the time and the extension.
      `timeText` is the human-readable form of `time`. */
  function AuditJson(phase: string, cid: string, binding: Option<string>, a: Actor, host: string,
                     timeText: string, time: nat, rec: Members): Json {
    Obj((AuditStamp(phase, cid, a, host) + rec)
          [TimeKey := Str(timeText)][Broker := Obj(BrokerMembers(a, binding, time))])
  }

  function CheckpointBroker(binding: string, a: Actor, time: nat,
                            operation: string, resource: string, scope: string): Members {
    BrokerMembers(a, Some(binding), time)
      [Operation := Str(operation)][ResourceKey := Str(resource)][ScopeKey := Str(scope)]
  }

  function CheckpointJson(cid: string, binding: string, a: Actor, time: nat,
                          operation: string, resource: string, scope: string): Json {
    Obj(map[SchemaVersion := Int(1), RecordType := Str(CHECKPOINT), CorrelationId := Str(cid),
            Broker := Obj(CheckpointBroker(binding, a, time, operation, resource, scope))])
  }

  function TimesJson(es: seq<Entry>): seq<Json> { seq(|es|, i requires 0 <= i < |es| => Str(Digits(es[i].ts))) }

  function SizesJson(es: seq<Entry>): seq<Json> { seq(|es|, i requires 0 <= i < |es| => Str(Digits(es[i].bytes))) }

  function RateJson(uid: nat, es: seq<Entry>): Json {
    Obj(map[SchemaVersion := Int(1), RecordType := Str(RATE), UidKey := Int(uid),
            TimesUs := Arr(TimesJson(es)), BytesKey := Arr(SizesJson(es))])
  }

  function StateText(s: ReceiptState): string { if s.Redeemed? then REDEEMED else ISSUED }

  /** The inputs the receipt builder does not refuse. */
  predicate ReceiptBuildable(cid: string, r: Receipt) {
    && cid != "" && |cid| < CID_MAX
    && IsHexString(r.verifier, 64) && IsHexString(r.planHash, 64)
    && r.verb != "" && |r.verb| < META_MAX && |r.resource| < META_MAX
    && r.planSchema >= 1
    && r.bootId != "" && |r.bootId| < BOOT_ID_MAX
    && WellEncoded(cid) && WellEncoded(r.verb) && WellEncoded(r.resource) && WellEncoded(r.bootId)
  }

  function ReceiptJson(cid: string, checkpoint: bool, r: Receipt): Json {
    Obj(map[SchemaVersion := Int(1), RecordType := Str(RECEIPT), StateSchemaVersion := Int(1),
            CorrelationId := Str(cid), CheckpointKey := Bool(checkpoint), State := Str(StateText(r.state)),
            Verifier := Str(r.verifier), ActorUid := Int(r.actorUid), Verb := Str(r.verb),
            ResourceKey := Str(r.resource), PlanSchema := Int(r.planSchema), PlanHash := Str(r.planHash),
            IssueBoottimeUs := Str(Digits(r.issueUs)), TtlUs := Str(Digits(r.ttlUs)), BootId := Str(r.bootId),
            AcceptedTimeUs := Str(Digits(r.acceptedUs))])
  }

  // ---- the strict parser ----

  function GetStr(ms: Members, k: Key): Option<string> {
    match Get(ms, k) case Some(Str(s)) => Some(s) case _ => None
  }

  function GetInt(ms: Members, k: Key): Option<int> {
    match Get(ms, k) case Some(Int(i)) => Some(i) case _ => None
  }

  function GetU64(ms: Members, k: Key): Option<nat> {
    var s :- GetStr(ms, k);
    ParseU64(s)
  }

  /** A string that fits its buffer; optionally it must not be empty. */
  function GetBounded(ms: Members, k: Key, cap: nat, nonEmpty: bool): Option<string> {
    var s :- GetStr(ms, k);
    if |s| >= cap || (nonEmpty && s == "") then None else Some(s)
  }

  /** Absent and null read as the empty string. */
  function GetOptStr(ms: Members, k: Key, cap: nat): Option<string> {
    match Get(ms, k)
    case None => Some("")
    case Some(Null) => Some("")
    case Some(Str(s)) => if |s| < cap then Some(s) else None
    case Some(_) => None
  }

  function ToUid(i: int): nat { i % UID_LIMIT }

  /** A cast to a signed 32-bit pid. */
  function ToPid(i: int): int { (i + UID_LIMIT / 2) % UID_LIMIT - UID_LIMIT / 2 }

  const PEER_KEYS: set<Key> := {UidKey, Gid, Pid, BootId, Starttime}

  function ParsePeer(broker: Members): Option<Actor> {
    match Get(broker, Peer)
    case Some(Obj(peer)) =>
      var uid :- GetInt(peer, UidKey);
      var gid :- GetInt(peer, Gid);
      var pid :- GetInt(peer, Pid);
      var boot :- GetBounded(peer, BootId, BOOT_ID_MAX, true);
      var start :- GetBounded(peer, Starttime, STARTTIME_MAX, true);
      if !OnlyKeys(peer, PEER_KEYS) || uid < 0 || gid < 0 || pid <= 0 || !AllDigits(start) then None
      else Some(Actor(ToUid(uid), ToUid(gid), ToPid(pid), boot, start))
    case _ => None
  }

  const AUDIT_BROKER_KEYS: set<Key> := {SchemaVersion, Peer, AcceptedTimeUs, BindingKey}
  const CHECKPOINT_KEYS: set<Key> := {SchemaVersion, RecordType, CorrelationId, Broker}
  const CHECKPOINT_BROKER_KEYS: set<Key> :=
    {SchemaVersion, Peer, AcceptedTimeUs, BindingKey, Operation, ResourceKey, ScopeKey}

  datatype Extension = Extension(broker: Members, actor: Actor, time: nat, binding: Option<string>)

  function ParseExtension(root: Members): Option<Extension> {
    match Get(root, Broker)
    case Some(Obj(broker)) =>
      var actor :- ParsePeer(broker);
      var time :- GetU64(broker, AcceptedTimeUs);
      if GetInt(broker, SchemaVersion) != Some(1) then None
      else if Get(broker, BindingKey).None? then Some(Extension(broker, actor, time, None))
      else
        var binding :- GetBounded(broker, BindingKey, BINDING_MAX, true);
        Some(Extension(broker, actor, time, Some(binding)))
    case _ => None
  }

  function ParseAudit(root: Members): Option<Stored> {
    var cid :- GetBounded(root, CorrelationId, CID_MAX, true);
    var x :- ParseExtension(root);
    var phase :- GetBounded(root, PhaseKey, PHASE_MAX, true);
    var pid :- GetInt(root, Pid);
    var who :- GetStr(root, ActorKey);
    if !OnlyKeys(x.broker, AUDIT_BROKER_KEYS) || (phase == PHASE_INTENT) != x.binding.Some? ||
       ToPid(pid) != x.actor.pid || who != ActorText(x.actor.uid) then None
    else
      var operation :- GetOptStr(root, Operation, META_MAX);
      var resource :- GetOptStr(root, ResourceKey, META_MAX);
      var scope :- GetOptStr(root, ScopeKey, SCOPE_MAX);
      Some(Audit(phase, cid, if x.binding.Some? then x.binding.value else "", x.actor, x.time,
                 operation, resource, scope))
  }

  function ParseCheckpoint(root: Members): Option<Stored> {
    var cid :- GetBounded(root, CorrelationId, CID_MAX, true);
    var x :- ParseExtension(root);
    var binding :- x.binding;
    if !OnlyKeys(root, CHECKPOINT_KEYS) || !OnlyKeys(x.broker, CHECKPOINT_BROKER_KEYS) then None
    else
      var operation :- GetOptStr(x.broker, Operation, META_MAX);
      var resource :- GetOptStr(x.broker, ResourceKey, META_MAX);
      var scope :- GetOptStr(x.broker, ScopeKey, SCOPE_MAX);
      Some(Checkpoint(cid, binding, x.actor, x.time, operation, resource, scope))
  }

  const RATE_KEYS: set<Key> := {SchemaVersion, RecordType, UidKey, TimesUs, BytesKey}

  function TextU64(j: Json): Option<nat> { if j.Str? then ParseU64(j.s) else None }

  /** Times and sizes pair up one to one, each strictly decimal. */
  function ParseEntries(ts: seq<Json>, bs: seq<Json>): (r: Option<seq<Entry>>)
    requires |ts| == |bs|
  {
    if ts == [] then Some([])
    else
      var es :- ParseEntries(ts[..|ts| - 1], bs[..|bs| - 1]);
      var t :- TextU64(ts[|ts| - 1]);
      var b :- TextU64(bs[|bs| - 1]);
      Some(es + [Entry(t, b)])
  }

  function ParseRate(root: Members): Option<Stored> {
    var uid :- GetInt(root, UidKey);
    match (Get(root, TimesUs), Get(root, BytesKey))
    case (Some(Arr(ts)), Some(Arr(bs))) =>
      if !OnlyKeys(root, RATE_KEYS) || uid < 0 || |ts| != |bs| then None
      else
        var es :- ParseEntries(ts, bs);
        Some(Rate(ToUid(uid), es))
    case _ => None
  }

  const RECEIPT_KEYS: set<Key> :=
    {SchemaVersion, RecordType, StateSchemaVersion, CorrelationId, CheckpointKey, State, Verifier, ActorUid,
     Verb, ResourceKey, PlanSchema, PlanHash, IssueBoottimeUs, TtlUs, BootId, AcceptedTimeUs}

  function ParseState(root: Members): Option<ReceiptState> {
    var s :- GetStr(root, State);
    if s == ISSUED then Some(Issued) else if s == REDEEMED then Some(Redeemed) else None
  }

  function GetHex64(ms: Members, k: Key): Option<string> {
    var s :- GetStr(ms, k);
    if IsHexString(s, 64) then Some(s) else None
  }

  function GetBool(ms: Members, k: Key): Option<bool> {
    match Get(ms, k) case Some(Bool(b)) => Some(b) case _ => None
  }

  function ParseReceipt(root: Members): Option<Stored> {
    var cid :- GetBounded(root, CorrelationId, CID_MAX, true);
    var checkpoint :- GetBool(root, CheckpointKey);
    var state :- ParseState(root);
    var verifier :- GetHex64(root, Verifier);
    var uid :- GetInt(root, ActorUid);
    var verb :- GetBounded(root, Verb, META_MAX, true);
    var resource :- GetBounded(root, ResourceKey, META_MAX, false);
    var schema :- GetInt(root, PlanSchema);
    var hash :- GetHex64(root, PlanHash);
    var issue :- GetU64(root, IssueBoottimeUs);
    var ttl :- GetU64(root, TtlUs);
    var boot :- GetBounded(root, BootId, BOOT_ID_MAX, true);
    var accepted :- GetU64(root, AcceptedTimeUs);
    if !OnlyKeys(root, RECEIPT_KEYS) || GetInt(root, StateSchemaVersion) != Some(1) ||
       uid < 0 || uid >= UID_LIMIT || schema < 1 then None
    else
      Some(ReceiptRecord(cid, checkpoint,
                         Receipt(state, verifier, uid, verb, resource, schema, hash, issue, ttl, boot, accepted)))
  }

  function ParseStored(j: Json): Option<Stored> {
    if !j.Obj? || GetInt(j.members, SchemaVersion) != Some(1) then None
    else
      var t :- GetStr(j.members, RecordType);
      if t == AUDIT then ParseAudit(j.members)
      else if t == CHECKPOINT then ParseCheckpoint(j.members)
      else if t == RATE then ParseRate(j.members)
      else if t == RECEIPT then ParseReceipt(j.members)
      else None
  }

  // ---- well-formed broker inputs ----

  /** What reading the peer's credentials guarantees. */
  predicate ActorOk(a: Actor) {
    && a.uid < UID_LIMIT && a.gid < UID_LIMIT && 0 < a.pid < UID_LIMIT / 2
    && a.bootId != "" && |a.bootId| < BOOT_ID_MAX && WellEncoded(a.bootId)
    && a.starttime != "" && |a.starttime| < STARTTIME_MAX && AllDigits(a.starttime)
  }

  predicate CidOk(cid: string) { cid != "" && |cid| < CID_MAX && WellEncoded(cid) }

  predicate BindingOk(b: string) { b != "" && |b| < BINDING_MAX && WellEncoded(b) }

  predicate EntriesOk(es: seq<Entry>) { forall e :: e in es ==> e.ts < U64_LIMIT && e.bytes < U64_LIMIT }

  predicate ReceiptOk(cid: string, r: Receipt) {
    && ReceiptBuildable(cid, r) && r.actorUid < UID_LIMIT
    && r.issueUs < U64_LIMIT && r.ttlUs < U64_LIMIT && r.acceptedUs < U64_LIMIT
  }

  // ---- round trips ----

  lemma PeerRoundTrip(ms: Members, a: Actor)
    requires ActorOk(a) && Get(ms, Peer) == Some(Obj(PeerMembers(a)))
    ensures ParsePeer(ms) == Some(a)
  {
  }

  /** The four members of the extension that are read from every record. */
  predicate ExtensionReads(broker: Members, a: Actor, binding: Option<string>, time: nat) {
    && Get(broker, SchemaVersion) == Some(Int(1))
    && Get(broker, Peer) == Some(Obj(PeerMembers(a)))
    && Get(broker, AcceptedTimeUs) == Some(Str(Digits(time)))
    && Get(broker, BindingKey) == if binding.Some? then Some(Str(binding.value)) else None
  }

  lemma ExtensionRoundTrip(root: Members, broker: Members, a: Actor, binding: Option<string>, time: nat)
    requires ActorOk(a) && time < U64_LIMIT && (binding.Some? ==> BindingOk(binding.value))
    requires Get(root, Broker) == Some(Obj(broker)) && ExtensionReads(broker, a, binding, time)
    ensures ParseExtension(root) == Some(Extension(broker, a, time, binding))
  {
    PeerRoundTrip(broker, a);
    U64RoundTrip(time);
  }

  lemma RecordTypesDistinct()
    ensures AUDIT != CHECKPOINT && AUDIT != RATE && AUDIT != RECEIPT
    ensures CHECKPOINT != RATE && CHECKPOINT != RECEIPT && RATE != RECEIPT
  {
    assert |AUDIT| == 5 && |CHECKPOINT| == 17 && |RATE| == 11 && |RECEIPT| == 14;
  }

  /** Which parser a record type leads to. */
  lemma Dispatch(root: Members)
    requires Get(root, SchemaVersion) == Some(Int(1))
    ensures Get(root, RecordType) == Some(Str(AUDIT)) ==> ParseStored(Obj(root)) == ParseAudit(root)
    ensures Get(root, RecordType) == Some(Str(CHECKPOINT)) ==> ParseStored(Obj(root)) == ParseCheckpoint(root)
    ensures Get(root, RecordType) == Some(Str(RATE)) ==> ParseStored(Obj(root)) == ParseRate(root)
    ensures Get(root, RecordType) == Some(Str(RECEIPT)) ==> ParseStored(Obj(root)) == ParseReceipt(root)
  {
    RecordTypesDistinct();
  }

  lemma AllowedOnly(rec: Members, k: Key)
    requires RecordValid(rec)
    ensures FieldOf(k).None? ==> Get(rec, k).None?
    ensures FieldOf(k) == Some(TString) && Get(rec, k).Some? ==> Get(rec, k).value.Str? || Get(rec, k).value.Null?
  {
  }

  /** Whatever the client sends, every member off the allowlist reads as if the
      client had sent nothing: no stamped member can be overwritten. */
  lemma ClientCannotOverwriteStamp(phase: string, cid: string, binding: Option<string>, a: Actor, host: string,
                                   timeText: string, time: nat, rec: Members, k: Key)
    requires RecordValid(rec) && FieldOf(k).None?
    ensures Get(AuditJson(phase, cid, binding, a, host, timeText, time, rec).members, k) ==
            Get(AuditJson(phase, cid, binding, a, host, timeText, time, map[]).members, k)
  {
    AllowedOnly(rec, k);
  }

  lemma AuditOptStr(root: Members, rec: Members, k: Key, cap: nat)
    requires RecordValid(rec) && FieldOf(k) == Some(TString) && Get(root, k) == Get(rec, k) && cap > 0
    ensures GetOptStr(root, k, cap) ==
            if |StringField(rec, k)| < cap then Some(StringField(rec, k)) else None
  {
    AllowedOnly(rec, k);
  }

  predicate StampOk(phase: string, cid: string, binding: Option<string>, a: Actor, time: nat) {
    && CidOk(cid) && ActorOk(a) && time < U64_LIMIT
    && phase != "" && |phase| < PHASE_MAX && WellEncoded(phase)
    && (phase == PHASE_INTENT <==> binding.Some?) && (binding.Some? ==> BindingOk(binding.value))
  }

  predicate AuditReads(root: Members, phase: string, cid: string, binding: Option<string>, a: Actor, time: nat) {
    && Get(root, SchemaVersion) == Some(Int(1)) && Get(root, RecordType) == Some(Str(AUDIT))
    && Get(root, CorrelationId) == Some(Str(cid)) && Get(root, PhaseKey) == Some(Str(phase))
    && Get(root, Pid) == Some(Int(a.pid)) && Get(root, ActorKey) == Some(Str(ActorText(a.uid)))
    && Get(root, Broker) == Some(Obj(BrokerMembers(a, binding, time)))
  }

  lemma NoStampedMember(rec: Members)
    requires RecordValid(rec)
    ensures SchemaVersion !in rec && RecordType !in rec && CorrelationId !in rec && PhaseKey !in rec
    ensures Pid !in rec && ActorKey !in rec && TimeKey !in rec && Broker !in rec
  {
  }

  lemma AuditStampRead(phase: string, cid: string, binding: Option<string>, a: Actor, host: string,
                       timeText: string, time: nat, rec: Members, k: Key)
    requires k !in rec && k != TimeKey && k != Broker
    ensures Get(AuditJson(phase, cid, binding, a, host, timeText, time, rec).members, k) ==
            Get(AuditStamp(phase, cid, a, host), k)
  {
    hide AuditStamp, BrokerMembers;
  }

  lemma AuditBrokerRead(phase: string, cid: string, binding: Option<string>, a: Actor, host: string,
                        timeText: string, time: nat, rec: Members)
    ensures Get(AuditJson(phase, cid, binding, a, host, timeText, time, rec).members, Broker) ==
            Some(Obj(BrokerMembers(a, binding, time)))
  {
    hide AuditStamp, BrokerMembers;
  }

  lemma StampReads(phase: string, cid: string, a: Actor, host: string)
    ensures var stamp := AuditStamp(phase, cid, a, host);
            && Get(stamp, SchemaVersion) == Some(Int(1)) && Get(stamp, RecordType) == Some(Str(AUDIT))
            && Get(stamp, CorrelationId) == Some(Str(cid)) && Get(stamp, PhaseKey) == Some(Str(phase))
            && Get(stamp, Pid) == Some(Int(a.pid)) && Get(stamp, ActorKey) == Some(Str(ActorText(a.uid)))
  {
    hide ActorText;
  }

  lemma AuditStampedReads(phase: string, cid: string, binding: Option<string>, a: Actor, host: string,
                          timeText: string, time: nat, rec: Members)
    requires RecordValid(rec)
    ensures AuditReads(AuditJson(phase, cid, binding, a, host, timeText, time, rec).members, phase, cid, binding, a,
                       time)
  {
    hide AuditJson, AuditStamp, RecordValid, BrokerMembers, ActorText;
    NoStampedMember(rec);
    StampReads(phase, cid, a, host);
    AuditBrokerRead(phase, cid, binding, a, host, timeText, time, rec);
    AuditStampRead(phase, cid, binding, a, host, timeText, time, rec, SchemaVersion);
    AuditStampRead(phase, cid, binding, a, host, timeText, time, rec, RecordType);
    AuditStampRead(phase, cid, binding, a, host, timeText, time, rec, CorrelationId);
    AuditStampRead(phase, cid, binding, a, host, timeText, time, rec, PhaseKey);
    AuditStampRead(phase, cid, binding, a, host, timeText, time, rec, Pid);
    AuditStampRead(phase, cid, binding, a, host, timeText, time, rec, ActorKey);
  }

  lemma AuditClientReads(phase: string, cid: string, binding: Option<string>, a: Actor, host: string,
                         timeText: string, time: nat, rec: Members, k: Key)
    requires k in {Operation, ResourceKey, ScopeKey, EffectIssued}
    ensures Get(AuditJson(phase, cid, binding, a, host, timeText, time, rec).members, k) == Get(rec, k)
  {
    assert k !in AuditStamp(phase, cid, a, host);
  }

  lemma AuditClaims(phase: string, cid: string, binding: Option<string>, a: Actor, host: string,
                    timeText: string, time: nat, rec: Members)
    ensures var j := AuditJson(phase, cid, binding, a, host, timeText, time, rec);
            j.Obj? && ClaimsEffect(j.members) == ClaimsEffect(rec)
  {
    AuditClientReads(phase, cid, binding, a, host, timeText, time, rec, EffectIssued);
  }

  lemma BrokerReads(a: Actor, binding: Option<string>, time: nat)
    ensures ExtensionReads(BrokerMembers(a, binding, time), a, binding, time)
    ensures OnlyKeys(BrokerMembers(a, binding, time), AUDIT_BROKER_KEYS)
  {
  }

  lemma AuditParses(root: Members, phase: string, cid: string, binding: Option<string>, a: Actor, time: nat)
    requires StampOk(phase, cid, binding, a, time) && AuditReads(root, phase, cid, binding, a, time)
    ensures ParseAudit(root) ==
            match (GetOptStr(root, Operation, META_MAX), GetOptStr(root, ResourceKey, META_MAX),
                   GetOptStr(root, ScopeKey, SCOPE_MAX))
            case (Some(op), Some(res), Some(scope)) =>
              Some(Audit(phase, cid, if binding.Some? then binding.value else "", a, time, op, res, scope))
            case _ => None
  {
    hide WellEncoded, BrokerMembers, ParseExtension, ActorText, GetOptStr;
    BrokerReads(a, binding, time);
    ExtensionRoundTrip(root, BrokerMembers(a, binding, time), a, binding, time);
  }

  /** Reading an audit line back: the exact inputs if the client's metadata
      fits the buffers, and otherwise a refusal. */
  lemma AuditRoundTrip(phase: string, cid: string, binding: Option<string>, a: Actor, host: string,
                       timeText: string, time: nat, rec: Members)
    requires StampOk(phase, cid, binding, a, time) && RecordValid(rec)
    ensures ParseStored(AuditJson(phase, cid, binding, a, host, timeText, time, rec)) ==
            if MetaFits(rec) then
              Some(Audit(phase, cid, if binding.Some? then binding.value else "", a, time,
                         StringField(rec, Operation), StringField(rec, ResourceKey), StringField(rec, ScopeKey)))
            else None
  {
    AuditStampedReads(phase, cid, binding, a, host, timeText, time, rec);
    AuditClientReads(phase, cid, binding, a, host, timeText, time, rec, Operation);
    AuditClientReads(phase, cid, binding, a, host, timeText, time, rec, ResourceKey);
    AuditClientReads(phase, cid, binding, a, host, timeText, time, rec, ScopeKey);
    AuditRootParses(AuditJson(phase, cid, binding, a, host, timeText, time, rec).members, phase, cid, binding, a, time,
                    rec);
  }

  lemma AuditRootParses(root: Members, phase: string, cid: string, binding: Option<string>, a: Actor, time: nat,
                        rec: Members)
    requires StampOk(phase, cid, binding, a, time) && RecordValid(rec) && AuditReads(root, phase, cid, binding, a, time)
    requires Get(root, Operation) == Get(rec, Operation) && Get(root, ResourceKey) == Get(rec, ResourceKey)
    requires Get(root, ScopeKey) == Get(rec, ScopeKey)
    ensures ParseStored(Obj(root)) ==
            if MetaFits(rec) then
              Some(Audit(phase, cid, if binding.Some? then binding.value else "", a, time,
                         StringField(rec, Operation), StringField(rec, ResourceKey), StringField(rec, ScopeKey)))
            else None
  {
    hide ParseStored, ParseAudit, GetOptStr, StampOk, RecordValid, StringField, BrokerMembers;
    Dispatch(root);
    AuditParses(root, phase, cid, binding, a, time);
    AuditOptStr(root, rec, Operation, META_MAX);
    AuditOptStr(root, rec, ResourceKey, META_MAX);
    AuditOptStr(root, rec, ScopeKey, SCOPE_MAX);
  }

  predicate CheckpointReads(root: Members, broker: Members, cid: string, operation: string, resource: string,
                            scope: string) {
    && Get(root, SchemaVersion) == Some(Int(1)) && Get(root, RecordType) == Some(Str(CHECKPOINT))
    && Get(root, CorrelationId) == Some(Str(cid)) && OnlyKeys(root, CHECKPOINT_KEYS)
    && Get(root, Broker) == Some(Obj(broker)) && OnlyKeys(broker, CHECKPOINT_BROKER_KEYS)
    && Get(broker, Operation) == Some(Str(operation)) && Get(broker, ResourceKey) == Some(Str(resource))
    && Get(broker, ScopeKey) == Some(Str(scope))
  }

  lemma CheckpointJsonReads(cid: string, binding: string, a: Actor, time: nat,
                            operation: string, resource: string, scope: string) returns (broker: Members)
    ensures CheckpointReads(CheckpointJson(cid, binding, a, time, operation, resource, scope).members, broker,
                            cid, operation, resource, scope)
    ensures ExtensionReads(broker, a, Some(binding), time)
  {
    BrokerReads(a, Some(binding), time);
    broker := CheckpointBroker(binding, a, time, operation, resource, scope);
  }

  lemma CheckpointParses(root: Members, broker: Members, cid: string, binding: string, a: Actor, time: nat,
                         operation: string, resource: string, scope: string)
    requires CidOk(cid) && BindingOk(binding) && ActorOk(a) && time < U64_LIMIT
    requires |operation| < META_MAX && |resource| < META_MAX && |scope| < SCOPE_MAX
    requires CheckpointReads(root, broker, cid, operation, resource, scope)
    requires ExtensionReads(broker, a, Some(binding), time)
    ensures ParseStored(Obj(root)) == Some(Checkpoint(cid, binding, a, time, operation, resource, scope))
  {
    Dispatch(root);
    ExtensionRoundTrip(root, broker, a, Some(binding), time);
  }

  lemma CheckpointRoundTrip(cid: string, binding: string, a: Actor, time: nat,
                            operation: string, resource: string, scope: string)
    requires CidOk(cid) && BindingOk(binding) && ActorOk(a) && time < U64_LIMIT
    requires |operation| < META_MAX && |resource| < META_MAX && |scope| < SCOPE_MAX
    ensures ParseStored(CheckpointJson(cid, binding, a, time, operation, resource, scope)) ==
            Some(Checkpoint(cid, binding, a, time, operation, resource, scope))
  {
    var broker := CheckpointJsonReads(cid, binding, a, time, operation, resource, scope);
    CheckpointParses(CheckpointJson(cid, binding, a, time, operation, resource, scope).members, broker,
                     cid, binding, a, time, operation, resource, scope);
  }

  lemma {:induction false} EntriesRoundTrip(es: seq<Entry>)
    requires EntriesOk(es)
    ensures ParseEntries(TimesJson(es), SizesJson(es)) == Some(es)
  {
    if es != [] {
      var v, e := es[..|es| - 1], es[|es| - 1];
      assert TimesJson(es)[..|es| - 1] == TimesJson(v) && SizesJson(es)[..|es| - 1] == SizesJson(v);
      assert e in es;
      EntriesRoundTrip(v);
      U64RoundTrip(e.ts);
      U64RoundTrip(e.bytes);
      assert v + [e] == es;
    }
  }

  predicate RateReads(root: Members, uid: nat, es: seq<Entry>) {
    && Get(root, SchemaVersion) == Some(Int(1)) && Get(root, RecordType) == Some(Str(RATE))
    && Get(root, UidKey) == Some(Int(uid)) && OnlyKeys(root, RATE_KEYS)
    && Get(root, TimesUs) == Some(Arr(TimesJson(es))) && Get(root, BytesKey) == Some(Arr(SizesJson(es)))
  }

  lemma RateJsonReads(uid: nat, es: seq<Entry>)
    ensures RateReads(RateJson(uid, es).members, uid, es)
  {
  }

  lemma RateParses(root: Members, uid: nat, es: seq<Entry>)
    requires uid < UID_LIMIT && EntriesOk(es) && RateReads(root, uid, es)
    ensures ParseStored(Obj(root)) == Some(Rate(uid, es))
  {
    hide ParseStored, ParseEntries, EntriesOk;
    Dispatch(root);
    EntriesRoundTrip(es);
  }

  lemma RateRoundTrip(uid: nat, es: seq<Entry>)
    requires uid < UID_LIMIT && EntriesOk(es)
    ensures ParseStored(RateJson(uid, es)) == Some(Rate(uid, es))
  {
    RateJsonReads(uid, es);
    RateParses(RateJson(uid, es).members, uid, es);
  }

  predicate ReceiptReads(root: Members, cid: string, checkpoint: bool, r: Receipt) {
    && Get(root, SchemaVersion) == Some(Int(1)) && Get(root, RecordType) == Some(Str(RECEIPT))
    && Get(root, StateSchemaVersion) == Some(Int(1)) && Get(root, CorrelationId) == Some(Str(cid))
    && Get(root, CheckpointKey) == Some(Bool(checkpoint)) && Get(root, State) == Some(Str(StateText(r.state)))
    && Get(root, Verifier) == Some(Str(r.verifier)) && Get(root, ActorUid) == Some(Int(r.actorUid))
  }

  predicate ReceiptBoundReads(root: Members, r: Receipt) {
    && Get(root, Verb) == Some(Str(r.verb)) && Get(root, ResourceKey) == Some(Str(r.resource))
    && Get(root, PlanSchema) == Some(Int(r.planSchema)) && Get(root, PlanHash) == Some(Str(r.planHash))
    && Get(root, IssueBoottimeUs) == Some(Str(Digits(r.issueUs))) && Get(root, TtlUs) == Some(Str(Digits(r.ttlUs)))
    && Get(root, BootId) == Some(Str(r.bootId)) && Get(root, AcceptedTimeUs) == Some(Str(Digits(r.acceptedUs)))
  }

  lemma ReceiptJsonReads(cid: string, checkpoint: bool, r: Receipt)
    ensures ReceiptReads(ReceiptJson(cid, checkpoint, r).members, cid, checkpoint, r)
  {
  }

  lemma ReceiptJsonBoundReads(cid: string, checkpoint: bool, r: Receipt)
    ensures ReceiptBoundReads(ReceiptJson(cid, checkpoint, r).members, r)
    ensures OnlyKeys(ReceiptJson(cid, checkpoint, r).members, RECEIPT_KEYS)
  {
  }

  lemma ReceiptParses(root: Members, cid: string, checkpoint: bool, r: Receipt)
    requires ReceiptOk(cid, r) && ReceiptReads(root, cid, checkpoint, r) && ReceiptBoundReads(root, r)
    requires OnlyKeys(root, RECEIPT_KEYS)
    ensures ParseStored(Obj(root)) == Some(ReceiptRecord(cid, checkpoint, r))
  {
    hide ParseStored, ParseU64, Digits, IsHexString;
    Dispatch(root);
    U64RoundTrip(r.issueUs);
    U64RoundTrip(r.ttlUs);
    U64RoundTrip(r.acceptedUs);
    assert |ISSUED| == 6 && |REDEEMED| == 8;
  }

  lemma ReceiptRoundTrip(cid: string, checkpoint: bool, r: Receipt)
    requires ReceiptOk(cid, r)
    ensures ParseStored(ReceiptJson(cid, checkpoint, r)) == Some(ReceiptRecord(cid, checkpoint, r))
  {
    ReceiptJsonReads(cid, checkpoint, r);
    ReceiptJsonBoundReads(cid, checkpoint, r);
    ReceiptParses(ReceiptJson(cid, checkpoint, r).members, cid, checkpoint, r);
  }

  /** The parser accepts a receipt line exactly when the builder would have
      written one for the values it carries. */
  lemma ReceiptParserAsStrictAsBuilder(j: Json, cid: string, checkpoint: bool, r: Receipt)
    requires ParseStored(j) == Some(ReceiptRecord(cid, checkpoint, r)) && Proper(j)
    ensures ReceiptOk(cid, r) && ParseStored(ReceiptJson(cid, checkpoint, r)) == ParseStored(j)
  {
    hide Proper, ParseReceipt, ReceiptOk, ReceiptJson;
    IsReceipt(j, cid, checkpoint, r);
    ReceiptParsesOk(j.members, cid, checkpoint, r);
    ReceiptRoundTrip(cid, checkpoint, r);
  }

  lemma ReceiptParsesOk(root: Members, cid: string, checkpoint: bool, r: Receipt)
    requires ParseReceipt(root) == Some(ReceiptRecord(cid, checkpoint, r)) && Proper(Obj(root))
    ensures ReceiptOk(cid, r)
  {
    hide WellEncoded, Proper, Number, AllDigits, IsHexString;
    ProperText(root, CorrelationId);
    ProperText(root, Verb);
    ProperText(root, ResourceKey);
    ProperText(root, BootId);
  }

  lemma IsReceipt(j: Json, cid: string, checkpoint: bool, r: Receipt)
    requires ParseStored(j) == Some(ReceiptRecord(cid, checkpoint, r))
    ensures j.Obj? && ParseReceipt(j.members) == ParseStored(j)
  {
    hide ParseReceipt;
  }

  lemma ProperText(root: Members, k: Key)
    requires Proper(Obj(root))
    ensures GetStr(root, k).Some? ==> WellEncoded(GetStr(root, k).value)
  {
    hide WellEncoded, NameOf;
  }

  // ---- every record is a proper tree ----

  /** A client record without a name written another way. */
  ghost predicate ProperRecord(rec: Members) { forall k :: k in rec ==> ProperKey(k) && Proper(rec[k]) }

  lemma DigitsAreUtf8(s: string)
    requires AllDigits(s)
    ensures WellEncoded(s)
  {
    AsciiIsUtf8(s);
  }

  lemma HexIsUtf8(s: string, n: nat)
    requires IsHexString(s, n)
    ensures WellEncoded(s)
  {
    AsciiIsUtf8(s);
  }

  lemma ActorTextIsUtf8(uid: nat)
    ensures WellEncoded(ActorText(uid))
  {
    hide Digits;
    AsciiIsUtf8(ActorText(uid));
  }

  /** Whatever time and random bytes ids are made of, they are well-formed and fit:
      twenty digits, a dash and sixteen hex digits; or thirty-two hex digits. */
  lemma MintedIdsFit(time: string, random: string, binding: string)
    requires |time| == 20 && AllDigits(time) && IsHexString(random, 16) && IsHexString(binding, 32)
    ensures CidOk(time + "-" + random) && BindingOk(binding)
  {
    hide WellEncoded;
    AsciiIsUtf8(time + "-" + random);
    AsciiIsUtf8(binding);
  }

  lemma NamesAreUtf8()
    ensures WellEncoded(AUDIT) && WellEncoded(CHECKPOINT) && WellEncoded(RATE) && WellEncoded(RECEIPT)
    ensures WellEncoded(ISSUED) && WellEncoded(REDEEMED) && WellEncoded(PHASE_INTENT) && WellEncoded(PHASE_OUTCOME)
    ensures WellEncoded(PHASE_PREVIEW) && WellEncoded(PHASE_NOOP)
  {
    hide WellEncoded;
    AsciiIsUtf8(AUDIT);
    AsciiIsUtf8(CHECKPOINT);
    AsciiIsUtf8(RATE);
    AsciiIsUtf8(RECEIPT);
    AsciiIsUtf8(ISSUED);
    AsciiIsUtf8(REDEEMED);
    AsciiIsUtf8(PHASE_INTENT);
    AsciiIsUtf8(PHASE_OUTCOME);
    AsciiIsUtf8(PHASE_PREVIEW);
    AsciiIsUtf8(PHASE_NOOP);
  }

  lemma ProperPeer(a: Actor)
    requires ActorOk(a)
    ensures Proper(Obj(PeerMembers(a)))
  {
    hide WellEncoded, NameOf;
    DigitsAreUtf8(a.starttime);
  }

  lemma ProperBroker(a: Actor, binding: Option<string>, time: nat)
    requires ActorOk(a) && (binding.Some? ==> WellEncoded(binding.value))
    ensures Proper(Obj(BrokerMembers(a, binding, time)))
  {
    hide Digits, NameOf, WellEncoded;
    ProperPeer(a);
    DigitsAreUtf8(Digits(time));
  }

  lemma ProperStamp(phase: string, cid: string, a: Actor, host: string)
    requires WellEncoded(phase) && WellEncoded(cid) && WellEncoded(host)
    ensures ProperRecord(AuditStamp(phase, cid, a, host))
  {
    hide Digits, NameOf, WellEncoded;
    NamesAreUtf8();
    ActorTextIsUtf8(a.uid);
  }

  lemma ProperAudit(phase: string, cid: string, binding: Option<string>, a: Actor, host: string,
                    timeText: string, time: nat, rec: Members)
    requires ProperRecord(rec) && StampOk(phase, cid, binding, a, time) && WellEncoded(host) && WellEncoded(timeText)
    ensures Proper(AuditJson(phase, cid, binding, a, host, timeText, time, rec))
  {
    hide AuditStamp, BrokerMembers, NameOf, WellEncoded;
    ProperStamp(phase, cid, a, host);
    ProperBroker(a, binding, time);
  }

  /** A checkpoint can be built exactly when the three kept fields are
      well-formed. */
  lemma ProperCheckpoint(cid: string, binding: string, a: Actor, time: nat,
                         operation: string, resource: string, scope: string)
    requires CidOk(cid) && BindingOk(binding) && ActorOk(a)
    ensures Proper(CheckpointJson(cid, binding, a, time, operation, resource, scope)) <==>
            WellEncoded(operation) && WellEncoded(resource) && WellEncoded(scope)
  {
    hide BrokerMembers, Proper, WellEncoded;
    ProperBroker(a, Some(binding), time);
    NamesAreUtf8();
    var broker := CheckpointBroker(binding, a, time, operation, resource, scope);
    BrokerReads(a, Some(binding), time);
    ProperFields(BrokerMembers(a, Some(binding), time), operation, resource, scope);
    ProperRoot(cid, broker);
  }

  lemma ProperWith(b: Members, k: Key, s: string)
    requires k !in b && !k.Other?
    ensures Proper(Obj(b[k := Str(s)])) <==> Proper(Obj(b)) && WellEncoded(s)
  {
    hide NameOf, WellEncoded;
    var c := b[k := Str(s)];
    if Proper(Obj(c)) {
      assert Proper(c[k]);
      forall q | q in b ensures ProperKey(q) && Proper(b[q]) { assert c[q] == b[q]; }
    }
  }

  lemma ProperFields(b: Members, operation: string, resource: string, scope: string)
    requires Proper(Obj(b)) && OnlyKeys(b, AUDIT_BROKER_KEYS)
    ensures Proper(Obj(b[Operation := Str(operation)][ResourceKey := Str(resource)][ScopeKey := Str(scope)])) <==>
            WellEncoded(operation) && WellEncoded(resource) && WellEncoded(scope)
  {
    hide Proper, WellEncoded;
    ProperWith(b, Operation, operation);
    ProperWith(b[Operation := Str(operation)], ResourceKey, resource);
    ProperWith(b[Operation := Str(operation)][ResourceKey := Str(resource)], ScopeKey, scope);
  }

  lemma ProperRoot(cid: string, broker: Members)
    requires WellEncoded(cid) && WellEncoded(CHECKPOINT)
    ensures var m := map[SchemaVersion := Int(1), RecordType := Str(CHECKPOINT), CorrelationId := Str(cid),
                         Broker := Obj(broker)];
            Proper(Obj(m)) <==> Proper(Obj(broker))
  {
    hide NameOf, WellEncoded;
    var m := map[SchemaVersion := Int(1), RecordType := Str(CHECKPOINT), CorrelationId := Str(cid),
                 Broker := Obj(broker)];
    if Proper(Obj(m)) { assert Proper(m[Broker]); }
  }

  lemma ProperRate(uid: nat, es: seq<Entry>)
    ensures Proper(RateJson(uid, es))
  {
    hide Digits, NameOf, WellEncoded;
    NamesAreUtf8();
    forall i | 0 <= i < |es| ensures WellEncoded(Digits(es[i].ts)) && WellEncoded(Digits(es[i].bytes)) {
      DigitsAreUtf8(Digits(es[i].ts));
      DigitsAreUtf8(Digits(es[i].bytes));
    }
    forall i | 0 <= i < |es| ensures Proper(TimesJson(es)[i]) && Proper(SizesJson(es)[i]) {}
    assert Proper(Arr(TimesJson(es))) && Proper(Arr(SizesJson(es)));
  }

  lemma ProperReceipt(cid: string, checkpoint: bool, r: Receipt)
    requires ReceiptBuildable(cid, r)
    ensures Proper(ReceiptJson(cid, checkpoint, r))
  {
    hide Digits, NameOf, WellEncoded;
    NamesAreUtf8();
    HexIsUtf8(r.verifier, 64);
    HexIsUtf8(r.planHash, 64);
    DigitsAreUtf8(Digits(r.issueUs));
    DigitsAreUtf8(Digits(r.ttlUs));
    DigitsAreUtf8(Digits(r.acceptedUs));
    hide IsHexString;
    var ms := ReceiptJson(cid, checkpoint, r).members;
    forall k | k in ms ensures Proper(ms[k]) {}
  }

  /** Whether a field kept in a buffer can be written again. */
  lemma ClipIsUtf8(s: string, cap: nat)
    requires WellEncoded(s) && cap > 0
    ensures WellEncoded(Clip(s, cap)) <==> |s| < cap || !Cont(s[cap - 1])
  {
    hide WellEncoded;
    if |s| >= cap { CutIsUtf8(s, cap - 1); }
  }

  // ---- the loops ----

  /** One decimal string per entry in each of two parallel arrays. */
  method BuildRate(uid: nat, es: seq<Entry>) returns (j: Json)
    ensures j == RateJson(uid, es)
  {
    hide Digits;
    var times, sizes: seq<Json> := [], [];
    for i := 0 to |es|
      invariant times == TimesJson(es[..i]) && sizes == SizesJson(es[..i])
    {
      assert es[..i + 1] == es[..i] + [es[i]];
      times, sizes := times + [Str(Digits(es[i].ts))], sizes + [Str(Digits(es[i].bytes))];
    }
    assert es[..|es|] == es;
    j := Obj(map[SchemaVersion := Int(1), RecordType := Str(RATE), UidKey := Int(uid), TimesUs := Arr(times),
                 BytesKey := Arr(sizes)]);
  }

  /** A bad pair spoils the whole record. */
  lemma {:induction false} BadPairStays(ts: seq<Json>, bs: seq<Json>, k: nat)
    requires |ts| == |bs| && k <= |ts| && ParseEntries(ts[..k], bs[..k]).None?
    ensures ParseEntries(ts, bs).None?
    decreases |ts|
  {
    if k == |ts| {
      assert ts[..k] == ts && bs[..k] == bs;
    } else {
      assert ts[..|ts| - 1][..k] == ts[..k] && bs[..|bs| - 1][..k] == bs[..k];
      BadPairStays(ts[..|ts| - 1], bs[..|bs| - 1], k);
    }
  }

  /** Pair by pair, stopping at the first that is not two decimal numbers. */
  method ReadEntries(ts: seq<Json>, bs: seq<Json>) returns (r: Option<seq<Entry>>)
    requires |ts| == |bs|
    ensures r == ParseEntries(ts, bs)
  {
    hide TextU64;
    var es: seq<Entry> := [];
    for i := 0 to |ts|
      invariant ParseEntries(ts[..i], bs[..i]) == Some(es)
    {
      assert ts[..i + 1][..i] == ts[..i] && bs[..i + 1][..i] == bs[..i];
      var t, b := TextU64(ts[i]), TextU64(bs[i]);
      if t.None? || b.None? {
        BadPairStays(ts, bs, i + 1);
        return None;
      }
      es := es + [Entry(t.value, b.value)];
    }
    assert ts[..|ts|] == ts && bs[..|bs|] == bs;
    r := Some(es);
  }
}
