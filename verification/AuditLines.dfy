/** The audit lines the broker writes, and what each reads back as. */
module AuditLines {
  import opened Types
  import opened Utf8
  import opened Lines
  import opened Json
  import opened Decimal
  import opened Records
  import opened History
  import opened Recovery
  import opened Carry

  function AuditLine(tx: Text, phase: string, cid: string, binding: Option<string>, a: Actor, host: string,
                     timeText: string, time: nat, rec: Members): Line {
    tx.dump(AuditJson(phase, cid, binding, a, host, timeText, time, rec))
  }

  /** What the live path keeps: the metadata is cut to its buffers. */
  function AuditFacts(phase: string, cid: string, binding: Option<string>, a: Actor, time: nat, rec: Members): Stored {
    Audit(phase, cid, if binding.Some? then binding.value else "", a, time, Clip(StringField(rec, Operation), META_MAX),
          Clip(StringField(rec, ResourceKey), META_MAX), Clip(StringField(rec, ScopeKey), SCOPE_MAX))
  }

  function AuditRec(phase: string, cid: string, binding: Option<string>, a: Actor, time: nat, rec: Members,
                    size: nat): Rec {
    Rec(AuditFacts(phase, cid, binding, a, time, rec), size, ClaimsEffect(rec))
  }

  /** The line reads back as the record it was charged for, effect claim
      included, exactly when nothing had to be cut; otherwise it does not parse. */
  lemma AuditDecodes(tx: Text, phase: string, cid: string, binding: Option<string>, a: Actor, host: string,
                     timeText: string, time: nat, rec: Members)
    requires Faithful(tx) && StampOk(phase, cid, binding, a, time) && RecordValid(rec) && ProperRecord(rec)
    requires WellEncoded(host) && WellEncoded(timeText)
    ensures var line := AuditLine(tx, phase, cid, binding, a, host, timeText, time, rec);
            && line != [] && OneLine(line)
            && Decode(tx, line) == if MetaFits(rec) then Some(AuditRec(phase, cid, binding, a, time, rec, |line| + 1))
                                   else None
  {
    hide ParseStored, AuditJson, StampOk, RecordValid, StringField, ClaimsEffect, OneLine, Proper, ProperRecord;
    AuditClaims(phase, cid, binding, a, host, timeText, time, rec);
    ProperAudit(phase, cid, binding, a, host, timeText, time, rec);
    AuditRoundTrip(phase, cid, binding, a, host, timeText, time, rec);
    var j := AuditJson(phase, cid, binding, a, host, timeText, time, rec);
    assert tx.load(tx.dump(j)) == Some(j);
  }

  // ---- what the line reports ----

  /** The members the broker adds to the client's. */
  const STAMPED: set<Key> :=
    {SchemaVersion, RecordType, CorrelationId, PhaseKey, Host, Pid, ActorKey, TimeKey, Broker}

  /** Every member the client sent, as it was sent; what the broker stamped; and
      nothing else. */
  ghost predicate Reports(ms: Members, phase: string, cid: string, a: Actor, host: string, timeText: string,
                          rec: Members)
  {
    && ms.Keys == rec.Keys + STAMPED && rec.Keys !! STAMPED
    && (forall k :: k in rec ==> ms[k] == rec[k])
    && ms[SchemaVersion] == Int(1) && ms[RecordType] == Str("audit") && ms[CorrelationId] == Str(cid)
    && ms[PhaseKey] == Str(phase) && ms[Host] == Str(host) && ms[TimeKey] == Str(timeText)
    && ms[Pid] == Int(a.pid) && ms[ActorKey] == Str("uid:" + Digits(a.uid))
  }

  /** The extension names the peer, the time and an intent's binding. */
  predicate Extends(j: Json, binding: Option<string>, a: Actor, time: nat) {
    j == Obj(match binding
             case None => map[SchemaVersion := Int(1), Peer := PeerTree(a), AcceptedTimeUs := Str(Digits(time))]
             case Some(b) => map[SchemaVersion := Int(1), Peer := PeerTree(a), AcceptedTimeUs := Str(Digits(time)),
                                 BindingKey := Str(b)])
  }

  function PeerTree(a: Actor): Json {
    Obj(map[UidKey := Int(a.uid), Gid := Int(a.gid), Pid := Int(a.pid), BootId := Str(a.bootId),
            Starttime := Str(a.starttime)])
  }

  /** The line is the text of a record that reports exactly what the client sent. */
  ghost predicate LineReports(tx: Text, line: Line, phase: string, cid: string, binding: Option<string>, a: Actor,
                              host: string, timeText: string, time: nat, rec: Members)
  {
    match tx.load(line)
    case Some(Obj(ms)) =>
      Reports(ms, phase, cid, a, host, timeText, rec) && Broker in ms && Extends(ms[Broker], binding, a, time)
    case _ => false
  }

  lemma TreeReports(phase: string, cid: string, binding: Option<string>, a: Actor, host: string, timeText: string,
                    time: nat, rec: Members)
    requires RecordValid(rec)
    ensures var ms := AuditJson(phase, cid, binding, a, host, timeText, time, rec).members;
            Reports(ms, phase, cid, a, host, timeText, rec) && Extends(ms[Broker], binding, a, time)
  {
    hide Digits, RecordValid, BrokerMembers, Extends, AuditStamp;
    BrokerExtends(a, binding, time);
    StampIs(phase, cid, a, host);
    NoStampedMember(rec);
    assert Host !in rec by { AllowedOnly(rec, Host); }
    Added(AuditStamp(phase, cid, a, host), rec, Str(timeText), Obj(BrokerMembers(a, binding, time)));
  }

  const FIRST: set<Key> := {SchemaVersion, RecordType, CorrelationId, PhaseKey, Host, Pid, ActorKey}

  lemma StampIs(phase: string, cid: string, a: Actor, host: string)
    ensures var s := AuditStamp(phase, cid, a, host);
            && s.Keys == FIRST && s[SchemaVersion] == Int(1) && s[RecordType] == Str("audit")
            && s[CorrelationId] == Str(cid) && s[PhaseKey] == Str(phase) && s[Host] == Str(host)
            && s[Pid] == Int(a.pid) && s[ActorKey] == Str("uid:" + Digits(a.uid))
  {
    hide Digits;
  }

  /** The client's members after the first stamp, then the last two. */
  lemma Added(s: Members, rec: Members, time: Json, x: Json)
    requires s.Keys == FIRST && rec.Keys !! STAMPED
    ensures var ms := (s + rec)[TimeKey := time][Broker := x];
            && ms.Keys == rec.Keys + STAMPED && (forall k :: k in rec ==> ms[k] == rec[k])
            && (forall k :: k in s ==> ms[k] == s[k]) && ms[TimeKey] == time && ms[Broker] == x
  {
    var ms := (s + rec)[TimeKey := time][Broker := x];
    forall k | k in rec ensures ms[k] == rec[k] { assert k !in STAMPED; }
    forall k | k in s ensures ms[k] == s[k] { assert k in STAMPED; }
  }

  lemma BrokerExtends(a: Actor, binding: Option<string>, time: nat)
    ensures Extends(Obj(BrokerMembers(a, binding, time)), binding, a, time)
  {
    hide Digits;
  }

  lemma AuditReports(tx: Text, phase: string, cid: string, binding: Option<string>, a: Actor, host: string,
                     timeText: string, time: nat, rec: Members)
    requires Faithful(tx) && StampOk(phase, cid, binding, a, time) && RecordValid(rec) && ProperRecord(rec)
    requires WellEncoded(host) && WellEncoded(timeText)
    ensures var line := AuditLine(tx, phase, cid, binding, a, host, timeText, time, rec);
            LineReports(tx, line, phase, cid, binding, a, host, timeText, time, rec)
  {
    hide AuditJson, Reports, Extends, Proper, ProperRecord, StampOk, RecordValid, WellEncoded;
    TreeReports(phase, cid, binding, a, host, timeText, time, rec);
    ProperAudit(phase, cid, binding, a, host, timeText, time, rec);
    AuditIsObject(phase, cid, binding, a, host, timeText, time, rec);
    var j := AuditJson(phase, cid, binding, a, host, timeText, time, rec);
    assert tx.load(tx.dump(j)) == Some(j);
  }

  lemma AuditIsObject(phase: string, cid: string, binding: Option<string>, a: Actor, host: string, timeText: string,
                      time: nat, rec: Members)
    ensures AuditJson(phase, cid, binding, a, host, timeText, time, rec).Obj?
    ensures Broker in AuditJson(phase, cid, binding, a, host, timeText, time, rec).members
  {
  }
}
