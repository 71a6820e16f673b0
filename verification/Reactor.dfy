/** The poll loop: a fixed array of connection slots, a running count, and one
    request per connection. What the kernel reports is a free choice. */
module Reactor {
  import opened Types
  import opened Frames

  /** `request` tells whether a body is a request. */
  datatype Limits = Limits(maxConns: nat, maxPerUid: nat, recvMs: nat, sendMs: nat, request: seq<Byte> -> bool)

  datatype Direction = Receiving | Sending

  /** `id` numbers the accepted connections; the slot index is reused. `hears`
      is what everything the peer will send reads as, which is what the receiver
      reports sooner or later. */
  datatype Conn = Free | Busy(id: nat, uid: nat, dir: Direction, deadline: int, hears: Verdict)

  type Slots = seq<Conn>

  datatype Accepted = Accepted(at: int, hears: Verdict)

  /** What has happened so far: when each connection was accepted, which ones
      called the broker, which queued a response and when. */
  datatype Log = Log(accepted: seq<Accepted>, called: seq<nat>, queued: seq<nat>, queuedAt: map<nat, int>)

  /** One whole frame whose body is a request. */
  predicate IsCall(l: Limits, v: Verdict) { v.Frame? && l.request(v.body) }

  /** What gets an answer at all. */
  predicate Answerable(v: Verdict) { v.Frame? || v.BadVersion? || v.TooBig? }

  function BusySlots(s: Slots): set<int> { set i | 0 <= i < |s| && s[i].Busy? }

  function BusyOf(s: Slots, u: nat): set<int> { set i | 0 <= i < |s| && s[i].Busy? && s[i].uid == u }

  ghost predicate Once(ids: seq<nat>, n: nat) {
    (forall i :: 0 <= i < |ids| ==> ids[i] < n) && forall i, j :: 0 <= i < j < |ids| ==> ids[i] != ids[j]
  }

  /** A connection that still receives has done nothing yet, and its deadline
      is where it was when it was accepted; one that sends keeps the deadline
      it got when its response was queued. */
  ghost predicate ConnOk(l: Limits, c: Conn, g: Log) {
    c.Busy? ==>
      && DeadlineOk(l, c, g) && c.hears == g.accepted[c.id].hears
      && (c.dir.Receiving? ==> c.id !in g.called && c.id !in g.queued && c.id !in g.queuedAt)
  }

  predicate DeadlineOk(l: Limits, c: Conn, g: Log)
    requires c.Busy?
  {
    && c.id < |g.accepted|
    && match c.dir
       case Receiving => c.deadline == g.accepted[c.id].at + l.recvMs
       case Sending => c.id in g.queuedAt && c.deadline == g.queuedAt[c.id] + l.sendMs
  }

  /** Only requests reach the broker, and only what can be answered is. */
  ghost predicate Deserved(l: Limits, g: Log) {
    && (forall id :: id in g.called ==> id < |g.accepted| && IsCall(l, g.accepted[id].hears))
    && (forall id :: id in g.queued ==> id < |g.accepted| && Answerable(g.accepted[id].hears))
  }

  /** Nothing recorded is ever changed. */
  ghost predicate Extends(g: Log, g': Log) {
    && g.accepted <= g'.accepted && g.called <= g'.called && g.queued <= g'.queued
    && forall id :: id in g.queuedAt ==> id in g'.queuedAt && g'.queuedAt[id] == g.queuedAt[id]
  }

  ghost predicate OwnIds(s: Slots) {
    forall i, j :: 0 <= i < j < |s| && s[i].Busy? && s[j].Busy? ==> s[i].id != s[j].id
  }

  ghost predicate CapsOk(l: Limits, s: Slots) {
    l.maxPerUid != 0 ==> forall u: nat :: |BusyOf(s, u)| <= l.maxPerUid
  }

  ghost predicate Good(l: Limits, s: Slots, active: int, g: Log) {
    && |s| == l.maxConns && active == |BusySlots(s)| && CapsOk(l, s) && OwnIds(s)
    && Once(g.called, |g.accepted|) && Once(g.queued, |g.accepted|) && Deserved(l, g)
    && (forall id :: id in g.queuedAt ==> id < |g.accepted|)
    && forall i :: 0 <= i < |s| ==> ConnOk(l, s[i], g)
  }

  lemma {:induction false} AtMostAll(s: Slots)
    ensures |BusySlots(s)| <= |s|
    ensures |BusySlots(s)| < |s| ==> exists i :: 0 <= i < |s| && s[i].Free?
  {
    if s != [] {
      var t, n := s[..|s| - 1], |s| - 1;
      AtMostAll(t);
      assert BusySlots(s) == if s[n].Busy? then BusySlots(t) + {n} else BusySlots(t);
      if |BusySlots(t)| < |t| {
        var i :| 0 <= i < |t| && t[i].Free?;
        assert s[i].Free?;
      }
    }
  }

  // ---- what each change does ----

  lemma CloseGood(l: Limits, s: Slots, active: int, g: Log, i: nat)
    requires Good(l, s, active, g) && i < |s| && s[i].Busy?
    ensures Good(l, s[i := Free], active - 1, g)
  {
    var s' := s[i := Free];
    assert BusySlots(s') == BusySlots(s) - {i};
    forall u: nat ensures |BusyOf(s', u)| <= |BusyOf(s, u)| {
      SubsetSize(BusyOf(s', u), BusyOf(s, u));
    }
  }

  lemma AdmitGood(l: Limits, s: Slots, active: int, g: Log, i: nat, u: nat, now: int, v: Verdict)
    requires Good(l, s, active, g) && i < |s| && s[i].Free?
    requires l.maxPerUid != 0 ==> |BusyOf(s, u)| < l.maxPerUid
    ensures Good(l, s[i := Busy(|g.accepted|, u, Receiving, now + l.recvMs, v)], active + 1,
                 g.(accepted := g.accepted + [Accepted(now, v)]))
  {
    hide BusySlots, BusyOf, CapsOk, IsCall, Answerable;
    var c := Busy(|g.accepted|, u, Receiving, now + l.recvMs, v);
    var s', g' := s[i := c], g.(accepted := g.accepted + [Accepted(now, v)]);
    AdmitCounts(l, s, i, c);
    forall j | 0 <= j < |s'| ensures ConnOk(l, s'[j], g') {
      assert ConnOk(l, s[j], g);
    }
    forall j, k | 0 <= j < k < |s'| && s'[j].Busy? && s'[k].Busy? ensures s'[j].id != s'[k].id {
      assert ConnOk(l, s[j], g) && ConnOk(l, s[k], g);
    }
  }

  lemma AdmitCounts(l: Limits, s: Slots, i: nat, c: Conn)
    requires i < |s| && s[i].Free? && c.Busy? && CapsOk(l, s) && (l.maxPerUid != 0 ==> |BusyOf(s, c.uid)| < l.maxPerUid)
    ensures |BusySlots(s[i := c])| == |BusySlots(s)| + 1 && CapsOk(l, s[i := c])
  {
    hide BusyOf;
    var s' := s[i := c];
    assert BusySlots(s') == BusySlots(s) + {i};
    forall v: nat ensures |BusyOf(s', v)| == |BusyOf(s, v)| + if v == c.uid then 1 else 0 {
      AdmitOf(s, i, c, v);
    }
  }

  lemma BusyOfNone(u: nat)
    ensures BusyOf([], u) == {}
  {
  }

  lemma BusyOfNext(s: Slots, i: nat, u: nat)
    requires i < |s|
    ensures |BusyOf(s[..i + 1], u)| == |BusyOf(s[..i], u)| + if s[i].Busy? && s[i].uid == u then 1 else 0
  {
    assert BusyOf(s[..i + 1], u) == if s[i].Busy? && s[i].uid == u then BusyOf(s[..i], u) + {i} else BusyOf(s[..i], u);
  }

  lemma AdmitOf(s: Slots, i: nat, c: Conn, v: nat)
    requires i < |s| && s[i].Free? && c.Busy?
    ensures |BusyOf(s[i := c], v)| == |BusyOf(s, v)| + if v == c.uid then 1 else 0
  {
    assert BusyOf(s[i := c], v) == if v == c.uid then BusyOf(s, v) + {i} else BusyOf(s, v);
  }

  lemma CallGood(l: Limits, s: Slots, active: int, g: Log, i: nat)
    requires Good(l, s, active, g) && i < |s| && s[i].Busy? && s[i].dir.Receiving?
    ensures Once(g.called + [s[i].id], |g.accepted|)
  {
  }

  /** Queueing, with or without a broker call before it. */
  lemma QueueGood(l: Limits, s: Slots, active: int, g: Log, i: nat, now: int, called: seq<nat>)
    requires Good(l, s, active, g) && i < |s| && s[i].Busy? && s[i].dir.Receiving?
    requires called == g.called || (called == g.called + [s[i].id] && IsCall(l, s[i].hears))
    requires Answerable(s[i].hears)
    ensures Good(l, s[i := s[i].(dir := Sending, deadline := now + l.sendMs)], active,
                 Log(g.accepted, called, g.queued + [s[i].id], g.queuedAt[s[i].id := now]))
  {
    var c := s[i];
    var s' := s[i := c.(dir := Sending, deadline := now + l.sendMs)];
    var g' := Log(g.accepted, called, g.queued + [c.id], g.queuedAt[c.id := now]);
    assert BusySlots(s') == BusySlots(s);
    forall v: nat ensures BusyOf(s', v) == BusyOf(s, v) {}
    CallGood(l, s, active, g, i);
    forall j | 0 <= j < |s'| ensures ConnOk(l, s'[j], g') {
      assert ConnOk(l, s[j], g);
    }
  }

  /** A call whose response cannot be queued: the connection is closed. */
  lemma CalledGood(l: Limits, s: Slots, active: int, g: Log, i: nat)
    requires Good(l, s, active, g) && i < |s| && s[i].Busy? && s[i].dir.Receiving? && IsCall(l, s[i].hears)
    ensures Good(l, s[i := Free], active - 1, g.(called := g.called + [s[i].id]))
  {
    CallGood(l, s, active, g, i);
    CloseGood(l, s, active, g, i);
    var s', g' := s[i := Free], g.(called := g.called + [s[i].id]);
    forall j | 0 <= j < |s'| ensures ConnOk(l, s'[j], g') {
      assert ConnOk(l, s[j], g);
    }
  }

  // ---- what poll reports, and what the loop makes of it ----

  /** Everything the environment decides about one ready connection. */
  datatype Event = Event(
    readable: bool, writable: bool, broken: bool,
    more: bool,       // whether receiving stops short, with more to come
    queues: bool,     // whether a response can be queued
    sent: Sent,       // what sending comes to
    now: int)
  {
    predicate Ready() { readable || writable || broken }
  }

  /** What receiving comes to: the resumable receiver reports the verdict of the
      whole stream, or that more is to come. */
  function Received(c: Conn, e: Event): RecvResult
    requires c.Busy?
  {
    if e.more then RMore else Reported(c.hears)
  }

  /** The connection's own receiver says just that. */
  method Hear(rx: Receiver, c: Conn) returns (more: bool, r: RecvResult)
    requires rx.Valid() && c.Busy? && c.hears == Read(rx.stream, rx.sock.end)
    modifies rx, rx.hdr, rx.body, rx.sock
    ensures rx.Valid() && r == if more then RMore else Reported(c.hears)
    ensures r.RDone? ==> c.hears == Frame(rx.body[..rx.bodyLen])
  {
    r := rx.Receive();
    more := r.RMore?;
  }

  /** Does this event call the broker for a receiving connection? */
  predicate Calls(l: Limits, c: Conn, e: Event)
    requires c.Busy?
  {
    c.dir.Receiving? && e.readable && Received(c, e).RDone? && IsCall(l, c.hears)
  }

  /** The connection after its event. */
  function After(l: Limits, c: Conn, e: Event): Conn
    requires c.Busy?
  {
    if c.dir.Receiving? && e.readable then
      var recv := Received(c, e);
      if recv.RMore? then c
      else if (recv.RDone? || recv.RBadVersion? || recv.RTooLarge?) && e.queues then
        c.(dir := Sending, deadline := e.now + l.sendMs)
      else Free
    else if c.dir.Sending? && e.writable then
      if e.sent.SMore? then c else Free
    else if e.broken then Free
    else c
  }

  predicate Queues(l: Limits, c: Conn, e: Event)
    requires c.Busy?
  {
    c.dir.Receiving? && After(l, c, e).Busy? && After(l, c, e).dir.Sending?
  }

  function LogAfter(l: Limits, g: Log, c: Conn, e: Event): Log
    requires c.Busy?
  {
    var called := if Calls(l, c, e) then g.called + [c.id] else g.called;
    if Queues(l, c, e) then Log(g.accepted, called, g.queued + [c.id], g.queuedAt[c.id := e.now])
    else g.(called := called)
  }

  /** Whether one event has the broker called: a whole frame was received, and it
      is a request. */
  predicate CallIsDue(l: Limits, c: Conn, e: Event)
    requires c.Busy?
  {
    c.dir.Receiving? && e.readable && !e.more && c.hears.Frame? && l.request(c.hears.body)
  }

  /** Whether one event has a response queued: to a whole frame, whatever its body,
      or to a header that is refused. */
  predicate ReplyIsDue(c: Conn, e: Event)
    requires c.Busy?
  {
    && c.dir.Receiving? && e.readable && !e.more && e.queues
    && (c.hears.Frame? || c.hears.BadVersion? || c.hears.TooBig?)
  }

  /** What an event does to its connection: it goes on as it is while it receives
      or sends with more to come, it turns to sending with a new deadline when its
      response is queued, and in every other case it is closed, unless nothing was
      reported of it that it waits for. */
  predicate Moves(l: Limits, c: Conn, e: Event, c': Conn)
    requires c.Busy?
  {
    match c.dir
    case Receiving =>
      if !e.readable then c' == (if e.broken then Free else c)
      else if e.more then c' == c
      else if ReplyIsDue(c, e) then c' == Busy(c.id, c.uid, Sending, e.now + l.sendMs, c.hears)
      else c' == Free
    case Sending =>
      if !e.writable then c' == (if e.broken then Free else c)
      else c' == if e.sent.SMore? then c else Free
  }

  /** The same of the log, for this connection. */
  predicate Notes(l: Limits, c: Conn, e: Event, g: Log, g': Log)
    requires c.Busy?
  {
    && (c.id in g'.called <==> c.id in g.called || CallIsDue(l, c, e))
    && (c.id in g'.queued <==> c.id in g.queued || ReplyIsDue(c, e))
    && (ReplyIsDue(c, e) ==> c.id in g'.queuedAt && g'.queuedAt[c.id] == e.now)
  }

  predicate Unnoted(c: Conn, g: Log, g': Log)
    requires c.Busy?
  {
    (c.id in g'.called <==> c.id in g.called) && (c.id in g'.queued <==> c.id in g.queued)
  }

  /** One slot and the log over a turn's events. */
  predicate Dealt(l: Limits, c: Conn, e: Event, c': Conn, g: Log, g': Log)
    requires c.Busy?
  {
    if e.Ready() then Moves(l, c, e, c') && Notes(l, c, e, g, g') else c' == c && Unnoted(c, g, g')
  }

  lemma AfterMoves(l: Limits, c: Conn, e: Event, g: Log)
    requires c.Busy?
    ensures Moves(l, c, e, After(l, c, e)) && Notes(l, c, e, g, LogAfter(l, g, c, e))
    ensures forall d: Conn :: d.Busy? && d.id != c.id ==> Unnoted(d, g, LogAfter(l, g, c, e))
  {
  }

  lemma NothingNew(c: Conn, g: Log)
    requires c.Busy?
    ensures Unnoted(c, g, g)
  {
  }

  lemma StillUnnoted(c: Conn, g: Log, g1: Log, g2: Log)
    requires c.Busy? && Unnoted(c, g, g1) && Unnoted(c, g1, g2)
    ensures Unnoted(c, g, g2)
  {
  }

  lemma DealtFrom(l: Limits, c: Conn, e: Event, c': Conn, g: Log, g1: Log, g2: Log)
    requires c.Busy? && Unnoted(c, g, g1) && Dealt(l, c, e, c', g1, g2)
    ensures Dealt(l, c, e, c', g, g2)
  {
    hide Moves;
  }

  /** Events of other connections change nothing of this. */
  lemma StillDealt(l: Limits, c: Conn, e: Event, c': Conn, g: Log, g1: Log, g2: Log)
    requires c.Busy? && Dealt(l, c, e, c', g, g1) && Unnoted(c, g1, g2) && Extends(g1, g2)
    ensures Dealt(l, c, e, c', g, g2)
  {
    hide Moves;
  }

  lemma ExtendsOn(g: Log, g1: Log, g2: Log)
    requires Extends(g, g1) && Extends(g1, g2)
    ensures Extends(g, g2)
  {
  }

  lemma ExtendsSelf(g: Log)
    ensures Extends(g, g)
  {
  }

  lemma IdsAreOwn(l: Limits, s: Slots, active: int, g: Log)
    requires Good(l, s, active, g)
    ensures OwnIds(s)
  {
  }

  lemma OtherId(s: Slots, i: nat, j: nat)
    requires OwnIds(s) && i < |s| && j < |s| && i != j && s[i].Busy? && s[j].Busy?
    ensures s[i].id != s[j].id
  {
  }

  lemma EventGood(l: Limits, s: Slots, active: int, g: Log, i: nat, e: Event)
    requires Good(l, s, active, g) && i < |s| && s[i].Busy?
    ensures Good(l, s[i := After(l, s[i], e)], if After(l, s[i], e).Free? then active - 1 else active,
                 LogAfter(l, g, s[i], e))
    ensures Extends(g, LogAfter(l, g, s[i], e))
  {
    assert ConnOk(l, s[i], g);
    hide Good;
    var c := s[i];
    if Queues(l, c, e) {
      QueueGood(l, s, active, g, i, e.now, LogAfter(l, g, c, e).called);
    } else if After(l, c, e).Free? {
      if Calls(l, c, e) { CalledGood(l, s, active, g, i); } else { CloseGood(l, s, active, g, i); }
    } else {
      assert s[i := c] == s;
    }
  }

  /** Connecting peers: unidentifiable, over the attempt limit, or admissible. */
  datatype Offer = Unknown | Limited | Peer(uid: nat, hears: Verdict)

  function Asks(o: Offer, u: nat): nat { if o.Peer? && o.uid == u then 1 else 0 }

  /** How many of the offers are from this uid. */
  function Offered(offers: seq<Offer>, u: nat): nat {
    if offers == [] then 0 else Offered(offers[..|offers| - 1], u) + Asks(offers[|offers| - 1], u)
  }

  function Capped(l: Limits, n: nat): nat { if l.maxPerUid != 0 && n > l.maxPerUid then l.maxPerUid else n }

  /** Offers are taken in order until the slots are full, and of those each uid gets
      as many connections as it asks for, up to its cap. */
  ghost predicate TookIn(l: Limits, s: Slots, offers: seq<Offer>, s': Slots) {
    exists seen :: TookFirst(l, s, offers, seen, s')
  }

  ghost predicate TookFirst(l: Limits, s: Slots, offers: seq<Offer>, seen: nat, s': Slots) {
    && seen <= |offers| && (seen < |offers| ==> |BusySlots(s')| == l.maxConns)
    && forall u: nat :: |BusyOf(s', u)| == Capped(l, |BusyOf(s, u)| + Offered(offers[..seen], u))
  }

  lemma OfferedNone(u: nat)
    ensures Offered([], u) == 0
  {
  }

  lemma OfferedNext(offers: seq<Offer>, k: nat, u: nat)
    requires k < |offers|
    ensures Offered(offers[..k + 1], u) == Offered(offers[..k], u) + Asks(offers[k], u)
  {
    assert offers[..k + 1][..k] == offers[..k];
  }

  lemma WithinCaps(l: Limits, s: Slots, active: int, g: Log)
    requires Good(l, s, active, g)
    ensures forall u: nat :: Capped(l, |BusyOf(s, u)|) == |BusyOf(s, u)|
  {
  }

  lemma FullAtMost(l: Limits, s: Slots, active: int, g: Log)
    requires Good(l, s, active, g)
    ensures active == |BusySlots(s)| <= l.maxConns
  {
    AtMostAll(s);
  }

  class Reactor {
    const l: Limits
    const slots: array<Conn>
    var active: int
    var nextId: nat // stands for the descriptor
    ghost var g: Log

    ghost predicate Valid()
      reads this, slots
    {
      slots.Length == l.maxConns && nextId == |g.accepted| && Good(l, slots[..], active, g)
    }

    constructor (l: Limits)
      ensures Valid() && this.l == l && fresh(slots) && active == 0
    {
      this.l, slots, active, nextId, g := l, new Conn[l.maxConns](_ => Free), 0, 0, Log([], [], [], map[]);
      new;
      assert BusySlots(slots[..]) == {};
      assert forall u: nat :: BusyOf(slots[..], u) == {};
    }

    method Close(i: nat)
      requires Valid() && i < slots.Length && slots[i].Busy?
      modifies this`active, slots
      ensures Valid() && slots[..] == old(slots[..])[i := Free]
    {
      hide Good;
      CloseGood(l, slots[..], active, g, i);
      slots[i] := Free;
      assert slots[..] == old(slots[..])[i := Free];
      active := active - 1;
    }

    /** Close exactly what is past its deadline. */
    method Reap(now: int)
      requires Valid()
      modifies this`active, slots
      ensures Valid()
      ensures forall i :: 0 <= i < slots.Length ==>
                slots[i] == if old(slots[i]).Busy? && old(slots[i]).deadline <= now then Free else old(slots[i])
    {
      hide Good;
      for i := 0 to slots.Length
        invariant Valid()
        invariant forall j :: 0 <= j < slots.Length ==>
                    slots[j] == if j < i && old(slots[j]).Busy? && old(slots[j]).deadline <= now then Free
                                else old(slots[j])
      {
        if slots[i].Busy? && slots[i].deadline <= now {
          Close(i);
        }
      }
    }

    method CountUid(u: nat) returns (n: nat)
      requires Valid()
      ensures n == |BusyOf(slots[..], u)|
    {
      hide Good, BusyOf;
      n := 0;
      assert |BusyOf(slots[..0], u)| == 0 by { BusyOfNone(u); }
      for i := 0 to slots.Length
        invariant n == |BusyOf(slots[..i], u)|
      {
        BusyOfNext(slots[..], i, u);
        if slots[i].Busy? && slots[i].uid == u {
          n := n + 1;
        }
      }
      assert slots[..slots.Length] == slots[..];
    }

    /** Below the global cap there is always a free slot. */
    method FindFree() returns (s: nat)
      requires Valid() && active < l.maxConns
      ensures s < slots.Length && slots[s].Free? && forall j :: 0 <= j < s ==> slots[j].Busy?
    {
      AtMostAll(slots[..]);
      var i :| 0 <= i < |slots[..]| && slots[..][i].Free?;
      s := 0;
      while slots[s].Busy?
        invariant s <= i && forall j :: 0 <= j < s ==> slots[j].Busy?
        decreases i - s
      {
        s := s + 1;
      }
    }

    method Admit(u: nat, now: int, v: Verdict)
      requires Valid() && active < l.maxConns && (l.maxPerUid != 0 ==> |BusyOf(slots[..], u)| < l.maxPerUid)
      modifies this`active, this`nextId, this`g, slots
      ensures Valid() && g == old(g).(accepted := old(g).accepted + [Accepted(now, v)]) && active == old(active) + 1
      ensures forall w: nat :: |BusyOf(slots[..], w)| == |BusyOf(old(slots[..]), w)| + if w == u then 1 else 0
      ensures forall i :: 0 <= i < slots.Length && old(slots[i]).Busy? ==> slots[i] == old(slots[i])
      ensures forall i :: 0 <= i < slots.Length && old(slots[i]).Free? ==>
                slots[i].Free? || slots[i].id >= |old(g).accepted|
    {
      hide Good, BusyOf;
      var s := FindFree();
      AdmitGood(l, slots[..], active, g, s, u, now, v);
      ghost var was := slots[..];
      slots[s] := Busy(nextId, u, Receiving, now + l.recvMs, v);
      assert slots[..] == was[s := Busy(nextId, u, Receiving, now + l.recvMs, v)];
      forall w: nat ensures |BusyOf(slots[..], w)| == |BusyOf(was, w)| + if w == u then 1 else 0 {
        AdmitOf(was, s, Busy(nextId, u, Receiving, now + l.recvMs, v), w);
      }
      active, nextId, g := active + 1, nextId + 1, g.(accepted := g.accepted + [Accepted(now, v)]);
    }

    /** Admit pending connections up to the caps; drop the rest. No slot in use
        is touched. */
    method AcceptNew(offers: seq<Offer>, now: int)
      requires Valid()
      modifies this`active, this`nextId, this`g, slots
      ensures Valid() && Extends(old(g), g) && g == old(g).(accepted := g.accepted)
      ensures TookIn(l, old(slots[..]), offers, slots[..])
      ensures forall i :: 0 <= i < slots.Length && old(slots[i]).Busy? ==> slots[i] == old(slots[i])
      ensures forall i :: 0 <= i < slots.Length && old(slots[i]).Free? ==>
                slots[i].Free? || slots[i].id >= |old(g).accepted|
    {
      hide Good, BusyOf, Offered;
      var k := 0;
      WithinCaps(l, slots[..], active, g);
      forall u: nat ensures Offered(offers[..0], u) == 0 { OfferedNone(u); }
      while k < |offers| && active < l.maxConns
        invariant Valid() && Extends(old(g), g) && g == old(g).(accepted := g.accepted) && k <= |offers|
        invariant forall u: nat :: |BusyOf(slots[..], u)| ==
                                   Capped(l, |BusyOf(old(slots[..]), u)| + Offered(offers[..k], u))
        invariant forall i :: 0 <= i < slots.Length && old(slots[i]).Busy? ==> slots[i] == old(slots[i])
        invariant forall i :: 0 <= i < slots.Length && old(slots[i]).Free? ==>
                    slots[i].Free? || slots[i].id >= |old(g).accepted|
        decreases |offers| - k
      {
        forall u: nat ensures Offered(offers[..k + 1], u) == Offered(offers[..k], u) + Asks(offers[k], u) {
          OfferedNext(offers, k, u);
        }
        if offers[k].Peer? {
          var n := CountUid(offers[k].uid);
          if l.maxPerUid == 0 || n < l.maxPerUid {
            Admit(offers[k].uid, now, offers[k].hears);
          }
        }
        k := k + 1;
      }
      FullAtMost(l, slots[..], active, g);
      assert TookFirst(l, old(slots[..]), offers, k, slots[..]);
    }

    /** The poll set: the listener first, while below the cap, then every
        connection in use once. -1 stands for the listener. */
    method BuildPoll() returns (polled: seq<int>)
      requires Valid()
      ensures PollSet(slots[..], polled)
      ensures -1 in polled <==> active < l.maxConns
    {
      polled := if active < l.maxConns then [-1] else [];
      ghost var first := polled;
      for i := 0 to slots.Length
        invariant first <= polled
        invariant forall k :: |first| <= k < |polled| ==> 0 <= polled[k] < i && slots[polled[k]].Busy?
        invariant forall j :: 0 <= j < i && slots[j].Busy? ==> j in polled
        invariant forall j, k :: |first| <= j < k < |polled| ==> polled[j] < polled[k]
      {
        if slots[i].Busy? {
          polled := polled + [i];
        }
      }
      assert -1 in first ==> polled[0] == -1;
    }

    /** One ready connection, as the source handles it. */
    method OnEvent(i: nat, e: Event)
      requires Valid() && i < slots.Length && slots[i].Busy?
      modifies this`active, this`g, slots
      ensures Valid() && slots[..] == old(slots[..])[i := After(l, old(slots[i]), e)]
      ensures g == LogAfter(l, old(g), old(slots[i]), e) && Extends(old(g), g)
      ensures Moves(l, old(slots[i]), e, slots[i]) && Notes(l, old(slots[i]), e, old(g), g)
      ensures forall d: Conn :: d.Busy? && d.id != old(slots[i]).id ==> Unnoted(d, old(g), g)
    {
      hide Good;
      AfterMoves(l, slots[i], e, g);
      EventGood(l, slots[..], active, g, i, e);
      ghost var was := slots[..];
      var c := slots[i];
      g := LogAfter(l, g, c, e);
      slots[i] := After(l, c, e);
      assert slots[..] == was[i := After(l, c, e)];
      if slots[i].Free? {
        active := active - 1;
      }
    }

    /** One poll result: of the listener, or of a connection, which then is the
        only one it touches. */
    method Visit(i: int, e: Event, offers: seq<Offer>, now: int)
      requires Valid() && (i == -1 || (0 <= i < slots.Length && slots[i].Busy?))
      modifies this`active, this`nextId, this`g, slots
      ensures Valid() && Extends(old(g), g) && |old(g).accepted| <= |g.accepted|
      ensures i >= 0 ==> slots[..] == old(slots[..])[i := slots[i]] && Dealt(l, old(slots[i]), e, slots[i], old(g), g)
      ensures forall d: Conn :: d.Busy? && (i >= 0 ==> d.id != old(slots[i]).id) ==> Unnoted(d, old(g), g)
      ensures i == -1 ==> forall j :: 0 <= j < slots.Length ==>
                if old(slots[j]).Busy? then slots[j] == old(slots[j])
                else slots[j].Free? || slots[j].id >= |old(g).accepted|
      ensures i == -1 && e.readable ==> TookIn(l, old(slots[..]), offers, slots[..])
    {
      hide Good, Moves, Notes, Once, TookIn;
      if e.Ready() {
        if i == -1 {
          if e.readable {
            AcceptNew(offers, now);
          }
        } else {
          OnEvent(i, e);
        }
      }
    }

    /** Go through the poll results in order. Each event meets the very
        connection that was polled, unchanged since, and does to it and to the log
        what is due; nothing else is touched but slots that were free, and those
        hold what the listener brought, which is returned. */
    method Process(polled: seq<int>, events: seq<Event>, offers: seq<Offer>, now: int) returns (ghost mid: Slots)
      requires Valid() && PollSet(slots[..], polled) && |events| == |polled|
      modifies this`active, this`nextId, this`g, slots
      ensures Valid() && Extends(old(g), g)
      ensures forall k :: 0 <= k < |polled| && polled[k] >= 0 ==>
                Dealt(l, old(slots[polled[k]]), events[k], slots[polled[k]], old(g), g)
      ensures |mid| == slots.Length && forall i :: 0 <= i < slots.Length ==>
                if old(slots[i]).Busy? then mid[i] == old(slots[i])
                else mid[i] == slots[i] && (slots[i].Free? || slots[i].id >= |old(g).accepted|)
      ensures |polled| > 0 && polled[0] == -1 && events[0].readable ==> TookIn(l, old(slots[..]), offers, mid)
    {
      hide Good, Dealt, Extends, Unnoted, OwnIds, TookIn;
      var k := 0;
      ExtendsSelf(g);
      ghost var was := slots[..];
      mid := was;
      IdsAreOwn(l, was, active, g);
      forall m | 0 <= m < |polled| && polled[m] >= 0 ensures Unnoted(was[polled[m]], g, g) {
        NothingNew(was[polled[m]], g);
      }
      while k < |polled|
        invariant k <= |polled| && Valid() && Extends(old(g), g) && |old(g).accepted| <= |g.accepted|
        invariant forall m :: 0 <= m < k && polled[m] >= 0 ==>
                    Dealt(l, was[polled[m]], events[m], slots[polled[m]], old(g), g)
        invariant forall m :: k <= m < |polled| && polled[m] >= 0 ==>
                    slots[polled[m]] == was[polled[m]] && Unnoted(was[polled[m]], old(g), g)
        invariant k == 0 ==> slots[..] == was
        invariant |mid| == slots.Length && forall i :: 0 <= i < slots.Length ==>
                    if was[i].Busy? then mid[i] == was[i]
                    else mid[i] == slots[i] && (slots[i].Free? || slots[i].id >= |old(g).accepted|)
        invariant k > 0 && polled[0] == -1 && events[0].readable ==> TookIn(l, was, offers, mid)
      {
        var i := polled[k];
        ghost var g0 := g;
        Visit(i, events[k], offers, now);
        if i == -1 { mid := slots[..]; }
        ExtendsOn(old(g), g0, g);
        NextDealt(l, was, polled, events, k, slots[..], old(g), g0, g);
        k := k + 1;
      }
    }

    /** One turn of the loop. What it polls is returned; all of it is within its
        deadline, and is dealt with as its event asks. What the listener brought,
        if there was room, is returned too, and is in the slots that were free. */
    method Turn(turn: Input) returns (ghost polls: seq<Poll>, ghost mid: Slots)
      requires Valid()
      modifies this`active, this`nextId, this`g, slots
      ensures Valid() && Extends(old(g), g) && InTime(l, polls, g)
      ensures forall i :: 0 <= i < slots.Length && old(slots[i]).Busy? ==>
                if old(slots[i]).deadline <= turn.now then !Has(polls, old(slots[i])) && slots[i] != old(slots[i])
                else Has(polls, old(slots[i])) && Dealt(l, old(slots[i]), turn.events(i), slots[i], old(g), g)
      ensures turn.events(-1).readable && |BusySlots(InDate(old(slots[..]), turn.now))| < l.maxConns ==>
                TookIn(l, InDate(old(slots[..]), turn.now), turn.offers, mid)
      ensures |mid| == slots.Length && forall i :: 0 <= i < slots.Length ==>
                if InDate(old(slots[..]), turn.now)[i].Busy? then mid[i] == old(slots[i]) else mid[i] == slots[i]
    {
      hide Good, TookIn;
      Reap(turn.now);
      assert slots[..] == InDate(old(slots[..]), turn.now);
      FullAtMost(l, slots[..], active, g);
      polls := Polls(slots[..], turn.now);
      PollsAre(l, slots[..], active, g, turn.now);
      ghost var reaped, log := slots[..], g;
      Expired(l, old(slots[..]), old(active), reaped, active, g, turn.now, polls);
      var polled := BuildPoll();
      assert forall i :: 0 <= i < slots.Length && reaped[i].Busy? ==> i in polled;
      var events := seq(|polled|, k requires 0 <= k < |polled| => turn.events(polled[k]));
      mid := Process(polled, events, turn.offers, turn.now);
      StillInTime(l, polls, log, g);
      NotBack(l, old(slots[..]), old(active), slots[..], active, log, g, turn.now);
    }

    /** Any number of turns. Every connection any of them polls is before a
        deadline fixed when it was accepted or when its response was queued. */
    method Loop(turns: seq<Input>) returns (ghost polls: seq<Poll>)
      requires Valid()
      modifies this`active, this`nextId, this`g, slots
      ensures Valid() && Extends(old(g), g) && InTime(l, polls, g)
    {
      hide Good;
      polls := [];
      for k := 0 to |turns|
        invariant Valid() && Extends(old(g), g) && InTime(l, polls, g)
      {
        ghost var log := g;
        ghost var more, mid := Turn(turns[k]);
        StillInTime(l, polls, log, g);
        polls := polls + more;
      }
    }
  }

  /** What is left once everything past its deadline is closed. */
  function InDate(s: Slots, now: int): Slots {
    seq(|s|, i requires 0 <= i < |s| => if s[i].Busy? && s[i].deadline <= now then Free else s[i])
  }

  /** What the environment decides about one turn. */
  datatype Input = Input(now: int, events: int -> Event, offers: seq<Offer>)

  /** A connection in the poll set of a turn at this time. */
  datatype Poll = Poll(now: int, conn: Conn)

  ghost predicate InTime(l: Limits, polls: seq<Poll>, g: Log) {
    forall p :: p in polls ==> p.conn.Busy? && DeadlineOk(l, p.conn, g) && p.now < p.conn.deadline
  }

  ghost predicate PollSet(s: Slots, polled: seq<int>) {
    && (forall k :: 0 <= k < |polled| ==> (polled[k] == -1 && k == 0) || (0 <= polled[k] < |s| && s[polled[k]].Busy?))
    && (forall j, k :: 0 <= j < k < |polled| ==> polled[j] != polled[k])
    && forall i :: 0 <= i < |s| && s[i].Busy? ==> i in polled
  }

  /** One more poll result is dealt with, and what was dealt with stays so. */
  lemma NextDealt(l: Limits, was: Slots, polled: seq<int>, events: seq<Event>, k: nat, s: Slots, g: Log, g1: Log,
                  g2: Log)
    requires PollSet(was, polled) && OwnIds(was) && |events| == |polled| && k < |polled| && |s| == |was|
    requires Extends(g1, g2)
    requires forall m :: 0 <= m < k && polled[m] >= 0 ==> Dealt(l, was[polled[m]], events[m], s[polled[m]], g, g1)
    requires forall m :: k <= m < |polled| && polled[m] >= 0 ==> Unnoted(was[polled[m]], g, g1)
    requires polled[k] >= 0 ==> Dealt(l, was[polled[k]], events[k], s[polled[k]], g1, g2)
    requires forall d: Conn :: d.Busy? && (polled[k] >= 0 ==> d.id != was[polled[k]].id) ==> Unnoted(d, g1, g2)
    ensures forall m :: 0 <= m <= k && polled[m] >= 0 ==> Dealt(l, was[polled[m]], events[m], s[polled[m]], g, g2)
    ensures forall m :: k < m < |polled| && polled[m] >= 0 ==> Unnoted(was[polled[m]], g, g2)
  {
    hide Dealt, Extends, Unnoted, OwnIds;
    if polled[k] >= 0 { DealtFrom(l, was[polled[k]], events[k], s[polled[k]], g, g1, g2); }
    forall m | 0 <= m < |polled| && m != k && polled[m] >= 0 ensures Unnoted(was[polled[m]], g1, g2) {
      if polled[k] >= 0 { OtherId(was, polled[k], polled[m]); }
    }
    forall m | 0 <= m < k && polled[m] >= 0 ensures Dealt(l, was[polled[m]], events[m], s[polled[m]], g, g2) {
      StillDealt(l, was[polled[m]], events[m], s[polled[m]], g, g1, g2);
    }
    forall m | k < m < |polled| && polled[m] >= 0 ensures Unnoted(was[polled[m]], g, g2) {
      StillUnnoted(was[polled[m]], g, g1, g2);
    }
  }

  ghost function Polls(s: Slots, now: int): seq<Poll> {
    if s == [] then []
    else
      var c := s[|s| - 1];
      Polls(s[..|s| - 1], now) + if c.Busy? then [Poll(now, c)] else []
  }

  ghost predicate Has(polls: seq<Poll>, c: Conn) { exists p :: p in polls && p.conn == c }

  lemma {:induction false} PollsHold(s: Slots, now: int)
    ensures forall p :: p in Polls(s, now) ==> p.now == now && p.conn.Busy? && p.conn in s
    ensures forall i :: 0 <= i < |s| && s[i].Busy? ==> Poll(now, s[i]) in Polls(s, now)
  {
    if s != [] {
      var t := s[..|s| - 1];
      PollsHold(t, now);
      assert s == t + [s[|s| - 1]];
    }
  }

  lemma PollsAre(l: Limits, s: Slots, active: int, g: Log, now: int)
    requires Good(l, s, active, g) && forall i :: 0 <= i < |s| && s[i].Busy? ==> now < s[i].deadline
    ensures InTime(l, Polls(s, now), g)
  {
    PollsHold(s, now);
    forall p | p in Polls(s, now) ensures p.conn.Busy? && DeadlineOk(l, p.conn, g) && p.now < p.conn.deadline {
      var i :| 0 <= i < |s| && s[i] == p.conn;
      assert ConnOk(l, s[i], g);
    }
  }

  /** A later log keeps every deadline. */
  lemma StillInTime(l: Limits, polls: seq<Poll>, g: Log, g': Log)
    requires InTime(l, polls, g) && Extends(g, g')
    ensures InTime(l, polls, g')
  {
  }

  /** Reaping takes what is past its deadline and nothing else. */
  lemma Expired(l: Limits, s: Slots, active: int, s': Slots, active': int, g: Log, now: int, polls: seq<Poll>)
    requires Good(l, s, active, g) && |s'| == |s| && polls == Polls(s', now)
    requires forall i :: 0 <= i < |s| ==> s'[i] == if s[i].Busy? && s[i].deadline <= now then Free else s[i]
    ensures forall i :: 0 <= i < |s| && s[i].Busy? ==> (Has(polls, s[i]) <==> now < s[i].deadline)
  {
    hide Good;
    PollsHold(s', now);
    forall i | 0 <= i < |s| && s[i].Busy? ensures Has(polls, s[i]) <==> now < s[i].deadline {
      if now < s[i].deadline {
        assert Poll(now, s'[i]) in polls;
      }
    }
  }

  /** A connection that was reaped does not come back: ids are not reused. */
  lemma NotBack(l: Limits, s: Slots, active: int, s': Slots, active': int, g: Log, g': Log, now: int)
    requires Good(l, s, active, g) && Good(l, s', active', g') && Extends(g, g') && |s'| == |s|
    requires forall i :: 0 <= i < |s| && s[i].Busy? && s[i].deadline <= now ==>
               s'[i].Free? || s'[i].id >= |g.accepted|
    ensures forall i :: 0 <= i < |s| && s[i].Busy? && s[i].deadline <= now ==> s'[i] != s[i]
  {
    forall i | 0 <= i < |s| && s[i].Busy? && s[i].deadline <= now ensures s'[i] != s[i] {
      assert ConnOk(l, s[i], g);
    }
  }

  /** What the invariant means at any time: the count and the caps, one broker
      call and one response per connection and only for those that sent what
      deserves it, and a deadline fixed once for each direction. */
  lemma InvariantMeans(r: Reactor)
    requires r.Valid()
    ensures r.active == |BusySlots(r.slots[..])| && r.active <= r.l.maxConns
    ensures forall u: nat :: r.l.maxPerUid != 0 ==> |BusyOf(r.slots[..], u)| <= r.l.maxPerUid
    ensures forall i, j :: 0 <= i < j < |r.g.called| ==> r.g.called[i] != r.g.called[j]
    ensures forall i, j :: 0 <= i < j < |r.g.queued| ==> r.g.queued[i] != r.g.queued[j]
    ensures Deserved(r.l, r.g)
    ensures forall i :: 0 <= i < r.slots.Length && r.slots[i].Busy? ==> DeadlineOk(r.l, r.slots[i], r.g)
  {
    AtMostAll(r.slots[..]);
    forall i | 0 <= i < r.slots.Length && r.slots[i].Busy? ensures DeadlineOk(r.l, r.slots[i], r.g) {
      assert ConnOk(r.l, r.slots[..][i], r.g);
    }
  }
}
