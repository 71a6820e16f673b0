/** Carry-forward: what rotation writes into the new segment, and why that
    segment stands for the history as well as the old one did. */
module Carry {
  import opened Types
  import opened Utf8
  import opened Lines
  import opened Lifecycle
  import opened Rates
  import opened Json
  import opened Records
  import opened History
  import opened Guarantees
  import opened Recovery

  // ---- every open intent can be written and read back ----

  predicate IntentOk(c: string, it: Intent) {
    && CidOk(c) && BindingOk(it.binding) && ActorOk(it.actor) && MetaOk(it.operation, it.resource, it.scope)
    && (it.receipt.Some? ==> ReceiptOk(c, it.receipt.value) && BoundToIntent(it.receipt.value, it))
  }

  /** The fields kept, perhaps cut, are still well-formed. */
  predicate Carriable(it: Intent) {
    WellEncoded(it.operation) && WellEncoded(it.resource) && WellEncoded(it.scope)
  }

  predicate IntentsOk(opens: Opens) { forall c :: c in opens ==> IntentOk(c, opens[c]) }

  lemma InstalledOk(cfg: Config, h: seq<Rec>, opens: Opens, r: Rec)
    requires IntentsOk(opens) && AdmitsStep(cfg, h, opens, r)
    ensures IntentsOk(Installed(opens, r.s))
  {
    PhasesDistinct();
  }

  lemma {:induction false} IntentsOkAt(cfg: Config, h: seq<Rec>, k: nat)
    requires IsHistory(cfg, h) && k <= |h|
    ensures IntentsOk(At(cfg, h, k).opens)
    decreases k
  {
    if k > 0 {
      IntentsOkAt(cfg, h, k - 1);
      AtNext(cfg, h, k - 1);
      AdmittedKind(cfg, h, k - 1);
      InstalledOk(cfg, h[..k - 1], At(cfg, h, k - 1).opens, h[k - 1]);
    }
  }

  /** Of every intent a history leaves open all fields fit, and both caps and
      the uniqueness of ids hold. */
  lemma HistoryIntentsOk(cfg: Config, h: seq<Rec>)
    requires IsHistory(cfg, h)
    ensures Replay(Facts(h)).Ok? && IntentsOk(Replay(Facts(h)).value.opens)
    ensures CapsHold(cfg, Replay(Facts(h)).value.opens)
    ensures IdsUnique(Replay(Facts(h)).value.opens)
  {
    IntentsOkAt(cfg, h, |h|);
    CapsAndIdsHold(cfg, h, |h|);
    assert h == h[..|h|];
    AtIs(cfg, h, |h|, h);
  }

  /** An intent a history leaves open can be written as a checkpoint if and only
      if cutting its fields split no character. */
  lemma CheckpointBuilds(cfg: Config, h: seq<Rec>, c: string, time: nat)
    requires IsHistory(cfg, h) && Replay(Facts(h)).Ok? && c in Replay(Facts(h)).value.opens
    ensures var it := Replay(Facts(h)).value.opens[c];
            var j := CheckpointJson(c, it.binding, it.actor, time, it.operation, it.resource, it.scope);
            Proper(j) <==> Carriable(it)
  {
    hide IsHistory, Replay, Proper, WellEncoded, CheckpointJson;
    HistoryIntentsOk(cfg, h);
    var it := Replay(Facts(h)).value.opens[c];
    ProperCheckpoint(c, it.binding, it.actor, time, it.operation, it.resource, it.scope);
  }

  lemma DecodeDump(tx: Text, j: Json, s: Stored)
    requires Faithful(tx) && Proper(j) && ParseStored(j) == Some(s)
    ensures tx.dump(j) != [] && OneLine(tx.dump(j))
    ensures Decode(tx, tx.dump(j)) == Some(Rec(s, |tx.dump(j)| + 1, j.Obj? && ClaimsEffect(j.members)))
  {
    assert tx.load(tx.dump(j)) == Some(j);
  }

  // ---- intents ----

  function CheckpointLine(tx: Text, c: string, it: Intent, time: nat): Line {
    tx.dump(CheckpointJson(c, it.binding, it.actor, time, it.operation, it.resource, it.scope))
  }

  function CarryBytes(tx: Text, c: string, it: Intent, time: nat): seq<Byte> {
    CheckpointLine(tx, c, it, time) + [NL] +
    (if it.receipt.Some? then tx.dump(ReceiptJson(c, true, it.receipt.value)) + [NL] else [])
  }

  function Flagged(it: Intent): Intent { it.(fromCheckpoint := true) }

  /** Exactly these intents are open, each as carried, and nothing is closed. */
  predicate CarriedLife(l: Life, opens: Opens, done: set<string>) {
    l.closed == {} && l.opens.Keys == done && done <= opens.Keys &&
    forall c :: c in done ==> l.opens[c] == Flagged(opens[c])
  }

  /** As above, with one more intent whose receipt is still to come. */
  predicate HalfCarriedLife(l: Life, opens: Opens, done: set<string>, c: string) {
    c in opens && c !in done && c in l.opens && l.opens[c] == Flagged(opens[c]).(receipt := None) &&
    CarriedLife(l.(opens := l.opens - {c}), opens, done)
  }

  ghost predicate VerifiersUnique(opens: Opens) {
    forall c, d :: c in opens && d in opens && c != d && opens[c].receipt.Some? && opens[d].receipt.Some? ==>
      opens[c].receipt.value.verifier != opens[d].receipt.value.verifier
  }

  function CheckpointOf(c: string, it: Intent, time: nat): Stored {
    Checkpoint(c, it.binding, it.actor, time, it.operation, it.resource, it.scope)
  }

  lemma IntentCarried(l: Life, opens: Opens, done: set<string>, c: string, time: nat)
    requires CarriedLife(l, opens, done) && c in opens && c !in done && IntentOk(c, opens[c])
    ensures Apply(l, CheckpointOf(c, opens[c], time)).Ok?
    ensures HalfCarriedLife(Apply(l, CheckpointOf(c, opens[c], time)).value, opens, done, c)
  {
    var l' := Apply(l, CheckpointOf(c, opens[c], time)).value;
    assert l'.opens - {c} == l.opens;
  }

  lemma HalfIsWhole(l: Life, opens: Opens, done: set<string>, c: string)
    requires HalfCarriedLife(l, opens, done, c) && opens[c].receipt.None?
    ensures CarriedLife(l, opens, done + {c})
  {
    forall d | d in done ensures l.opens[d] == Flagged(opens[d]) {
      assert l.opens[d] == (l.opens - {c})[d];
    }
  }

  lemma ReceiptCarried(l: Life, opens: Opens, done: set<string>, c: string)
    requires HalfCarriedLife(l, opens, done, c) && IntentOk(c, opens[c]) && VerifiersUnique(opens)
    requires opens[c].receipt.Some?
    ensures var s := ReceiptRecord(c, true, opens[c].receipt.value);
            Apply(l, s).Ok? && CarriedLife(Apply(l, s).value, opens, done + {c})
  {
    forall d | d in done ensures l.opens[d] == Flagged(opens[d]) {
      assert l.opens[d] == (l.opens - {c})[d];
    }
    assert l.opens.Keys == done + {c};
  }

  ghost predicate NoWindows(cfg: Config, log: seq<Rec>) { forall u: nat :: RingAfter(cfg, log, u) == [] }

  lemma CarriesNoCharge(cfg: Config, log: seq<Rec>, r: Rec)
    requires !r.s.Rate? && Charge(r).None? && NoWindows(cfg, log)
    ensures NoWindows(cfg, log + [r])
  {
    forall u: nat ensures RingAfter(cfg, log + [r], u) == [] { RingAfterSnoc(cfg, log, r, u); }
  }

  /** Appending one carried record to the pending file. */
  lemma CarryLine(tx: Text, cfg: Config, file: seq<Byte>, log: seq<Rec>, j: Json, s: Stored) returns (log': seq<Rec>)
    requires Faithful(tx) && Holds(tx, file, log) && NoWindows(cfg, log) && Proper(j) && ParseStored(j) == Some(s)
    requires s.Checkpoint? || (s.ReceiptRecord? && s.checkpoint)
    requires Apply(Replay(Facts(log)).value, s).Ok?
    ensures Holds(tx, file + tx.dump(j) + [NL], log') && NoWindows(cfg, log')
    ensures Replay(Facts(log')) == Apply(Replay(Facts(log)).value, s)
  {
    DecodeDump(tx, j, s);
    var r := Decode(tx, tx.dump(j)).value;
    AppendedLine(tx, file, log, tx.dump(j), r);
    CarriesNoCharge(cfg, log, r);
    log' := log + [r];
  }

  /** The pending file so far: these intents and no window. */
  ghost predicate Carried(tx: Text, cfg: Config, file: seq<Byte>, log: seq<Rec>, opens: Opens, done: set<string>) {
    Holds(tx, file, log) && NoWindows(cfg, log) && CarriedLife(Replay(Facts(log)).value, opens, done)
  }

  lemma CarryIntent(tx: Text, cfg: Config, file: seq<Byte>, log: seq<Rec>, opens: Opens, done: set<string>, c: string,
                    time: nat)
    returns (log': seq<Rec>)
    requires Faithful(tx) && time < U64_LIMIT && Carried(tx, cfg, file, log, opens, done)
    requires c in opens && c !in done && IntentOk(c, opens[c]) && Carriable(opens[c])
    ensures Holds(tx, file + CheckpointLine(tx, c, opens[c], time) + [NL], log') && NoWindows(cfg, log')
    ensures HalfCarriedLife(Replay(Facts(log')).value, opens, done, c)
  {
    var it := opens[c];
    CheckpointRoundTrip(c, it.binding, it.actor, time, it.operation, it.resource, it.scope);
    ProperCheckpoint(c, it.binding, it.actor, time, it.operation, it.resource, it.scope);
    IntentCarried(Replay(Facts(log)).value, opens, done, c, time);
    log' := CarryLine(tx, cfg, file, log,
                      CheckpointJson(c, it.binding, it.actor, time, it.operation, it.resource, it.scope),
                      CheckpointOf(c, it, time));
  }

  lemma CarryReceipt(tx: Text, cfg: Config, file: seq<Byte>, log: seq<Rec>, opens: Opens, done: set<string>, c: string)
    returns (log': seq<Rec>)
    requires Faithful(tx) && Holds(tx, file, log) && NoWindows(cfg, log)
    requires HalfCarriedLife(Replay(Facts(log)).value, opens, done, c)
    requires IntentOk(c, opens[c]) && VerifiersUnique(opens) && opens[c].receipt.Some?
    ensures Carried(tx, cfg, file + tx.dump(ReceiptJson(c, true, opens[c].receipt.value)) + [NL], log', opens,
                    done + {c})
  {
    var r := opens[c].receipt.value;
    ReceiptRoundTrip(c, true, r);
    ProperReceipt(c, true, r);
    ReceiptCarried(Replay(Facts(log)).value, opens, done, c);
    log' := CarryLine(tx, cfg, file, log, ReceiptJson(c, true, r), ReceiptRecord(c, true, r));
  }

  /** One open intent, with its receipt if it has one. */
  lemma CarryOne(tx: Text, cfg: Config, file: seq<Byte>, log: seq<Rec>, opens: Opens, done: set<string>, c: string,
                 time: nat)
    returns (log': seq<Rec>)
    requires Faithful(tx) && time < U64_LIMIT && Carried(tx, cfg, file, log, opens, done)
    requires c in opens && c !in done && IntentOk(c, opens[c]) && Carriable(opens[c]) && VerifiersUnique(opens)
    ensures Carried(tx, cfg, file + CarryBytes(tx, c, opens[c], time), log', opens, done + {c})
  {
    CarryBytesSplit(tx, file, c, opens[c], time);
    log' := CarryIntent(tx, cfg, file, log, opens, done, c, time);
    if opens[c].receipt.Some? {
      log' := CarryReceipt(tx, cfg, file + CheckpointLine(tx, c, opens[c], time) + [NL], log', opens, done, c);
    } else {
      HalfIsWhole(Replay(Facts(log')).value, opens, done, c);
    }
  }

  lemma CarryBytesSplit(tx: Text, file: seq<Byte>, c: string, it: Intent, time: nat)
    ensures var mid := file + CheckpointLine(tx, c, it, time) + [NL];
            file + CarryBytes(tx, c, it, time) ==
              if it.receipt.Some? then mid + tx.dump(ReceiptJson(c, true, it.receipt.value)) + [NL] else mid
  {
  }

  // ---- windows ----

  function RingAt(rings: map<nat, seq<Entry>>, u: nat): seq<Entry> { if u in rings then rings[u] else [] }

  function RateBytes(tx: Text, u: nat, ring: seq<Entry>): seq<Byte> { tx.dump(RateJson(u, ring)) + [NL] }

  /** The windows of the uids written so far are in place. */
  ghost predicate RatesCarried(cfg: Config, log: seq<Rec>, rings: map<nat, seq<Entry>>, done: set<nat>) {
    forall u: nat :: RingAfter(cfg, log, u) == if u in done then RingAt(rings, u) else []
  }

  lemma CarryRate(tx: Text, cfg: Config, file: seq<Byte>, log: seq<Rec>, rings: map<nat, seq<Entry>>, done: set<nat>,
                  u: nat)
    returns (log': seq<Rec>)
    requires Faithful(tx) && Holds(tx, file, log) && RatesCarried(cfg, log, rings, done) && u !in done
    requires cfg.rateMaxInWindow != 0 && u < UID_LIMIT
    requires EntriesOk(RingAt(rings, u)) && |RingAt(rings, u)| <= cfg.rateMaxInWindow
    ensures Holds(tx, file + RateBytes(tx, u, RingAt(rings, u)), log')
    ensures RatesCarried(cfg, log', rings, done + {u}) && Replay(Facts(log')) == Replay(Facts(log))
  {
    hide Faithful, Proper, ParseStored, Decode, RateJson, Scan, RecoverLines, Replay, EntriesOk, ClaimsEffect;
    var ring := RingAt(rings, u);
    var j := RateJson(u, ring);
    RateRoundTrip(u, ring);
    ProperRate(u, ring);
    DecodeDump(tx, j, Rate(u, ring));
    var r := Decode(tx, tx.dump(j)).value;
    AppendedLine(tx, file, log, tx.dump(j), r);
    assert file + tx.dump(j) + [NL] == file + RateBytes(tx, u, ring);
    log' := log + [r];
    forall v: nat ensures RingAfter(cfg, log', v) == if v in done + {u} then RingAt(rings, v) else [] {
      RingAfterSnoc(cfg, log, r, v);
      if v == u {
        PushAllFits(cfg.rateMaxInWindow, [], ring);
        assert [] + ring == ring;
      }
    }
  }

  // ---- the finished segment ----

  /** Once every intent and every non-empty window is carried, the new segment
      stands for the history exactly as the old one does. */
  lemma CarriedTracks(cfg: Config, log: seq<Rec>, opens: Opens, rings: map<nat, seq<Entry>>, done: set<nat>,
                      h: seq<Rec>, th: nat)
    requires Replay(Facts(log)).Ok? && Replay(Facts(h)).Ok?
    requires CarriedLife(Replay(Facts(log)).value, opens, opens.Keys)
    requires SameOpens(opens, Replay(Facts(h)).value.opens)
    requires RatesCarried(cfg, log, rings, done) && forall u: nat :: RingAt(rings, u) != [] ==> u in done
    requires forall u: nat :: WindowOk(cfg, RingAt(rings, u), Charges(h, u), th)
    ensures Tracks(cfg, log, h, th)
  {
    var carried, meant := Replay(Facts(log)).value.opens, Replay(Facts(h)).value.opens;
    forall c | c in opens ensures Unflagged(carried[c]) == Unflagged(meant[c]) {
      assert Unflagged(Flagged(opens[c])) == Unflagged(opens[c]);
    }
    forall u: nat ensures RingAfter(cfg, log, u) == RingAt(rings, u) {}
  }
}
