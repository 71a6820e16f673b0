/** The guarantees are not empty: a whole effect lifecycle, from intent to
    claimed outcome, is a history. */
module Witness {
  import opened Types
  import opened Utf8
  import opened Decimal
  import opened Records
  import opened Lifecycle
  import opened Rates
  import opened History
  import opened Guarantees

  const ACTOR := Actor(1000, 1000, 42, "boot", "7")
  const DIGEST: string := seq(64, _ => 'a')
  const RECEIPT := Receipt(Issued, DIGEST, 1000, "restart", "unit", 1, DIGEST, 5, 300, "boot", 11)

  const INTENT := Rec(Audit(PHASE_INTENT, "c", "b", ACTOR, 10, "restart", "unit", ""), 100, false)
  const ISSUE := Rec(ReceiptRecord("c", false, RECEIPT), 100, false)
  const REDEEM := Rec(ReceiptRecord("c", false, RECEIPT.(state := Redeemed, acceptedUs := 12)), 100, false)
  const OUTCOME := Rec(Audit(PHASE_OUTCOME, "c", "", ACTOR, 13, "restart", "unit", ""), 100, true)

  /** Room for one open intent and, where there is a quota, for the four lines. */
  predicate Roomy(cfg: Config) {
    && cfg.maxOpenGlobal > 0 && cfg.maxOpenPerUid > 0
    && (cfg.rateMaxInWindow == 0 || cfg.rateMaxInWindow >= 4)
    && (cfg.rateMaxBytesPerUid == 0 || cfg.rateMaxBytesPerUid >= 400)
  }

  const OPENED := Intent("b", ACTOR, "restart", "unit", "", false, None)

  lemma {:induction false} EvictSmaller(es: seq<Entry>, th: nat)
    ensures |Evict(es, th)| <= |es| && Sum(Evict(es, th)) <= Sum(es)
  {
    if es != [] {
      EvictSmaller(es[1..], th);
      assert es == [es[0]] + es[1..];
      SumConcat([es[0]], es[1..]);
    }
  }

  lemma QuotaLeft(cfg: Config, es: seq<Entry>, e: Entry)
    requires Roomy(cfg) && |es| < 4 && Sum(es) + e.bytes <= 400 && (es != [] ==> es[|es| - 1].ts <= e.ts)
    ensures WithinQuota(cfg, es, e)
  {
    EvictSmaller(es, cfg.Threshold(e.ts));
  }

  /** One more admitted line of 100 bytes. */
  lemma Extend(cfg: Config, h: seq<Rec>, r: Rec, opens: Opens, es: seq<Entry>, ts: nat)
    requires Roomy(cfg) && IsHistory(cfg, h) && Replay(Facts(h)).Ok? && Replay(Facts(h)).value.opens == opens
    requires Charge(r) == Some(Charged(1000, Entry(ts, 100))) && ts < 1000 && AdmitsStep(cfg, h, opens, r)
    requires Charges(h, 1000) == es && |es| < 4 && Sum(es) == 100 * |es| && (es != [] ==> es[|es| - 1].ts <= ts)
    ensures IsHistory(cfg, h + [r]) && Replay(Facts(h + [r])).Ok?
    ensures Replay(Facts(h + [r])).value.opens == Installed(opens, r.s)
    ensures var es' := es + [Entry(ts, 100)];
            Charges(h + [r], 1000) == es' && Sum(es') == 100 * |es'|
  {
    hide AdmitsStep, Replay, Installed, WithinQuota, Sum;
    var e := Entry(ts, 100);
    QuotaLeft(cfg, es, e);
    ChargesSnoc(h, r, 1000);
    SumSnoc(es, e);
    assert (h + [r])[..|h|] == h;
    AdmittedReplays(cfg, h, r);
  }

  lemma WordsAreUtf8()
    ensures WellEncoded("") && WellEncoded("c") && WellEncoded("b") && WellEncoded("boot") && WellEncoded("restart")
    ensures WellEncoded("unit") && WellEncoded("host") && WellEncoded("now") && WellEncoded("ok")
  {
    hide WellEncoded;
    AsciiIsUtf8("");
    AsciiIsUtf8("c");
    AsciiIsUtf8("b");
    AsciiIsUtf8("boot");
    AsciiIsUtf8("restart");
    AsciiIsUtf8("unit");
    AsciiIsUtf8("host");
    AsciiIsUtf8("now");
    AsciiIsUtf8("ok");
  }

  lemma ReceiptIsOk()
    ensures ReceiptOk("c", RECEIPT) && ActorOk(ACTOR) && BoundToIntent(RECEIPT, OPENED)
  {
    hide WellEncoded;
    WordsAreUtf8();
    assert forall ch :: ch in DIGEST ==> ch == 'a';
    assert forall ch :: ch in "7" ==> ch == '7';
    assert |"restart"| == 7 && |"unit"| == 4 && |"boot"| == 4 && |"c"| == 1 && |"7"| == 1;
  }

  const GRANTED: Opens := map["c" := OPENED.(receipt := Some(RECEIPT))]
  const SPENT: Opens := map["c" := OPENED.(receipt := Some(REDEEM.s.receipt))]

  lemma FirstIsAdmitted(cfg: Config)
    requires Roomy(cfg)
    ensures AdmitsStep(cfg, [], map[], INTENT) && Installed(map[], INTENT.s) == map["c" := OPENED]
    ensures IsHistory(cfg, []) && Replay(Facts([])) == Ok(EMPTY) && Charges([], 1000) == [] && Sum([]) == 0
  {
    hide WellEncoded, ReceiptOk;
    ReceiptIsOk();
    WordsAreUtf8();
    assert OpenBy(map[], 1000) == {};
    assert |"restart"| == 7 && |"unit"| == 4 && |"c"| == 1 && |"b"| == 1;
  }

  lemma OthersAreAdmitted(cfg: Config, h: seq<Rec>)
    ensures AdmitsStep(cfg, h, map["c" := OPENED], ISSUE) && Installed(map["c" := OPENED], ISSUE.s) == GRANTED
    ensures AdmitsStep(cfg, h, GRANTED, REDEEM) && Installed(GRANTED, REDEEM.s) == SPENT
    ensures AdmitsStep(cfg, h, SPENT, OUTCOME)
  {
    ReceiptIsOk();
    hide AdmitsIntent, AdmitsEmit, ReceiptOk, ActorOk;
  }

  lemma ChargesAre()
    ensures Charge(INTENT) == Some(Charged(1000, Entry(10, 100)))
    ensures Charge(ISSUE) == Some(Charged(1000, Entry(11, 100)))
    ensures Charge(REDEEM) == Some(Charged(1000, Entry(12, 100)))
    ensures Charge(OUTCOME) == Some(Charged(1000, Entry(13, 100)))
  {
  }

  /** An intent, its receipt issued and redeemed, and the outcome that claims
      the effect. */
  lemma LifecycleIsHistory(cfg: Config) returns (h: seq<Rec>)
    requires Roomy(cfg)
    ensures IsHistory(cfg, h) && |h| == 4
    ensures IntentLine(h[0], "c") && IssuedLine(h[1], "c") && RedeemedLine(h[2], "c") && OutcomeLine(h[3], "c")
    ensures h[3].claim
  {
    hide IsHistory, Replay, AdmitsStep, Installed, Charges, Charge, Facts, Sum;
    FirstIsAdmitted(cfg);
    ChargesAre();
    Extend(cfg, [], INTENT, map[], [], 10);
    var h1, h2, h3 := [INTENT], [INTENT, ISSUE], [INTENT, ISSUE, REDEEM];
    var e1, e2, e3 := Entry(10, 100), Entry(11, 100), Entry(12, 100);
    assert [] + [INTENT] == h1 && h1 + [ISSUE] == h2 && h2 + [REDEEM] == h3;
    assert [] + [e1] == [e1] && [e1] + [e2] == [e1, e2] && [e1, e2] + [e3] == [e1, e2, e3];
    OthersAreAdmitted(cfg, h1);
    Extend(cfg, h1, ISSUE, map["c" := OPENED], [e1], 11);
    OthersAreAdmitted(cfg, h2);
    Extend(cfg, h2, REDEEM, GRANTED, [e1, e2], 12);
    OthersAreAdmitted(cfg, h3);
    Extend(cfg, h3, OUTCOME, SPENT, [e1, e2, e3], 13);
    h := h3 + [OUTCOME];
  }
}
