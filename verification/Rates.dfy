/** Write quotas: the per-uid sliding window kept as a bounded ring with lazy
    eviction, and the global tumbling byte window. Counters are unbounded here;
    only the clock difference is taken modulo 2^64. */
module Rates {
  import opened Types

  // ---- the ring as a sequence ----

  function Evict(ring: seq<Entry>, th: nat): (r: seq<Entry>)
    ensures |r| <= |ring|
  {
    if ring != [] && ring[0].ts < th then Evict(ring[1..], th) else ring
  }

  function Push(cap: nat, ring: seq<Entry>, e: Entry): seq<Entry> {
    (if |ring| == cap && ring != [] then ring[1..] else ring) + [e]
  }

  function Sum(es: seq<Entry>): nat {
    if es == [] then 0 else Sum(es[..|es| - 1]) + es[|es| - 1].bytes
  }

  lemma SumSnoc(es: seq<Entry>, e: Entry)
    ensures Sum(es + [e]) == Sum(es) + e.bytes
  {
    assert (es + [e])[..|es|] == es;
  }

  lemma {:induction false} SumConcat(a: seq<Entry>, b: seq<Entry>)
    ensures Sum(a + b) == Sum(a) + Sum(b)
  {
    if b == [] {
      assert a + b == a;
    } else {
      var c, e := b[..|b| - 1], b[|b| - 1];
      SumConcat(a, c);
      assert a + b == (a + c) + [e] && b == c + [e];
      SumSnoc(a + c, e);
      SumSnoc(c, e);
    }
  }

  predicate RateAllowed(cfg: Config, ring: seq<Entry>, now: nat) {
    cfg.rateMaxInWindow == 0 || |Evict(ring, cfg.Threshold(now))| < cfg.rateMaxInWindow
  }

  predicate UidBytesAllowed(cfg: Config, ring: seq<Entry>, now: nat, n: nat) {
    cfg.rateMaxBytesPerUid == 0 || Sum(Evict(ring, cfg.Threshold(now))) + n <= cfg.rateMaxBytesPerUid
  }

  // ---- a ring that has forgotten only what left the window ----

  /** `ring` is the end of the uid's whole charge history `all`; everything
      forgotten is older than `th`. */
  predicate RingOf(ring: seq<Entry>, all: seq<Entry>, th: nat) {
    && |ring| <= |all|
    && ring == all[|all| - |ring|..]
    && forall i :: 0 <= i < |all| - |ring| ==> all[i].ts < th
  }

  lemma {:induction false} EvictSkips(all: seq<Entry>, d: nat, th: nat)
    requires d <= |all| && forall i :: 0 <= i < d ==> all[i].ts < th
    ensures Evict(all, th) == Evict(all[d..], th)
    decreases d
  {
    if d == 0 {
      assert all[0..] == all;
    } else {
      EvictSkips(all[1..], d - 1, th);
      assert all[1..][d - 1..] == all[d..];
    }
  }

  lemma {:induction false} EvictIsSuffix(ring: seq<Entry>, th: nat)
    ensures RingOf(Evict(ring, th), ring, th)
  {
    if ring != [] && ring[0].ts < th {
      EvictIsSuffix(ring[1..], th);
      var r := Evict(ring[1..], th);
      assert ring[1..][|ring| - 1 - |r|..] == ring[|ring| - |r|..];
      forall i | 0 <= i < |ring| - |r| ensures ring[i].ts < th {
        if i > 0 { assert ring[i] == ring[1..][i - 1]; }
      }
    } else {
      assert ring[0..] == ring;
    }
  }

  /** After eviction a forgetful ring and the whole history cannot be told
      apart, so every quota decision is the same. */
  lemma EvictedRingsAgree(ring: seq<Entry>, all: seq<Entry>, th0: nat, th: nat)
    requires RingOf(ring, all, th0) && th0 <= th
    ensures Evict(ring, th) == Evict(all, th)
  {
    EvictSkips(all, |all| - |ring|, th);
  }

  lemma RingOfLater(ring: seq<Entry>, all: seq<Entry>, th0: nat, th: nat)
    requires RingOf(ring, all, th0) && th0 <= th
    ensures RingOf(ring, all, th) && RingOf(Evict(ring, th), all, th)
  {
    EvictIsSuffix(ring, th);
    var r := Evict(ring, th);
    var d := |all| - |ring|;
    assert ring[|ring| - |r|..] == all[|all| - |r|..];
    forall i | 0 <= i < |all| - |r| ensures all[i].ts < th {
      if i >= d { assert all[i] == ring[i - d]; }
    }
  }

  lemma RingOfPush(cap: nat, ring: seq<Entry>, all: seq<Entry>, th: nat, e: Entry)
    requires RingOf(ring, all, th) && |ring| <= cap && |Evict(all, th)| < cap
    ensures RingOf(Push(cap, ring, e), all + [e], th) && |Push(cap, ring, e)| <= cap
  {
    EvictedRingsAgree(ring, all, th, th);
    var r, al := Push(cap, ring, e), all + [e];
    assert r == al[|al| - |r|..];
    forall i | 0 <= i < |al| - |r| ensures al[i].ts < th {
      if i == |all| - |ring| { assert all[i] == ring[0]; }
    }
  }

  /** Reseeding an empty ring from a carried window gives that window back. */
  function PushAll(cap: nat, ring: seq<Entry>, es: seq<Entry>): (r: seq<Entry>) {
    if es == [] then ring else Push(cap, PushAll(cap, ring, es[..|es| - 1]), es[|es| - 1])
  }

  lemma {:induction false} PushAllFits(cap: nat, ring: seq<Entry>, es: seq<Entry>)
    requires |ring| + |es| <= cap
    ensures PushAll(cap, ring, es) == ring + es
  {
    if es == [] {
      assert ring + es == ring;
    } else {
      PushAllFits(cap, ring, es[..|es| - 1]);
      assert es == es[..|es| - 1] + [es[|es| - 1]];
    }
  }

  // ---- the sliding-window quota ----

  predicate Sorted(es: seq<Entry>) {
    forall i, j :: 0 <= i <= j < |es| ==> es[i].ts <= es[j].ts
  }

  /** Entries stamped in the closed interval [a, b]. */
  function Within(es: seq<Entry>, a: nat, b: nat): seq<Entry> {
    if es == [] then []
    else
      var earlier, e := Within(es[..|es| - 1], a, b), es[|es| - 1];
      if a <= e.ts <= b then earlier + [e] else earlier
  }

  /** Each entry passed the checks made just before it was appended. */
  predicate Passed(cfg: Config, es: seq<Entry>) {
    Sorted(es) &&
    forall i :: 0 <= i < |es| ==>
      RateAllowed(cfg, es[..i], es[i].ts) && UidBytesAllowed(cfg, es[..i], es[i].ts, es[i].bytes)
  }

  lemma PassedSnoc(cfg: Config, es: seq<Entry>, e: Entry)
    requires Passed(cfg, es) && (es != [] ==> es[|es| - 1].ts <= e.ts)
    requires RateAllowed(cfg, es, e.ts) && UidBytesAllowed(cfg, es, e.ts, e.bytes)
    ensures Passed(cfg, es + [e])
  {
    var t := es + [e];
    forall i | 0 <= i < |t|
      ensures RateAllowed(cfg, t[..i], t[i].ts) && UidBytesAllowed(cfg, t[..i], t[i].ts, t[i].bytes)
    {
      if i < |es| { assert t[..i] == es[..i] && t[i] == es[i]; } else { assert t[..i] == es; }
    }
  }

  lemma PassedInit(cfg: Config, es: seq<Entry>)
    requires Passed(cfg, es) && es != []
    ensures Passed(cfg, es[..|es| - 1])
  {
    var v := es[..|es| - 1];
    forall i | 0 <= i < |v|
      ensures RateAllowed(cfg, v[..i], v[i].ts) && UidBytesAllowed(cfg, v[..i], v[i].ts, v[i].bytes)
    {
      assert v[..i] == es[..i] && v[i] == es[i];
    }
  }

  lemma EvictSnoc(es: seq<Entry>, e: Entry, th: nat)
    requires Sorted(es + [e])
    ensures Evict(es + [e], th) == if e.ts < th then [] else Evict(es, th) + [e]
    decreases es
  {
    var t := es + [e];
    if es == [] {
      assert t[1..] == [];
    } else {
      assert t[1..] == es[1..] + [e] && t[0] == es[0];
      assert e == t[|es|];
      if es[0].ts < th { EvictSnoc(es[1..], e, th); }
    }
  }

  /** No interval reaching back at most to the threshold holds more than the
      ring still does. */
  lemma {:induction false} WithinFitsWindow(es: seq<Entry>, a: nat, b: nat, th: nat)
    requires Sorted(es) && th <= a
    ensures |Within(es, a, b)| <= |Evict(es, th)| && Sum(Within(es, a, b)) <= Sum(Evict(es, th))
  {
    if es != [] {
      var v, e := es[..|es| - 1], es[|es| - 1];
      assert es == v + [e];
      WithinFitsWindow(v, a, b, th);
      EvictSnoc(v, e, th);
      if e.ts < th {
        WithinEmpty(es, a, b);
      } else {
        SumSnoc(Evict(v, th), e);
        SumSnoc(Within(v, a, b), e);
      }
    }
  }

  lemma {:induction false} WithinEmpty(es: seq<Entry>, a: nat, b: nat)
    requires Sorted(es) && es != [] && es[|es| - 1].ts < a
    ensures Within(es, a, b) == []
  {
    if |es| > 1 { WithinEmpty(es[..|es| - 1], a, b); }
  }

  lemma WithinSnoc(es: seq<Entry>, e: Entry, a: nat, b: nat)
    ensures Within(es + [e], a, b) == if a <= e.ts <= b then Within(es, a, b) + [e] else Within(es, a, b)
  {
    assert (es + [e])[..|es|] == es;
  }

  lemma SortedInit(es: seq<Entry>)
    requires Sorted(es) && es != []
    ensures Sorted(es[..|es| - 1]) && (|es| > 1 ==> es[|es| - 2].ts <= es[|es| - 1].ts)
  {
  }

  /** What eviction leaves of a sorted history is exactly what is recent. */
  lemma {:induction false} EvictIsWithin(es: seq<Entry>, th: nat, now: nat)
    requires Sorted(es) && (es != [] ==> es[|es| - 1].ts <= now)
    ensures Evict(es, th) == Within(es, th, now)
  {
    assert Evict([], th) == [] && Within([], th, now) == [];
    hide Evict, Within, Sorted;
    if es != [] {
      var v, e := es[..|es| - 1], es[|es| - 1];
      assert es == v + [e];
      SortedInit(es);
      EvictIsWithin(v, th, now);
      EvictSnoc(v, e, th);
      WithinSnoc(v, e, th, now);
      if e.ts < th { WithinEmpty(es, th, now); }
    }
  }

  /** What a uid was charged in the last window, the boundary included. */
  function Recent(cfg: Config, all: seq<Entry>, now: nat): seq<Entry> {
    Within(all, if now >= cfg.rateWindowSec * 1000000 then now - cfg.rateWindowSec * 1000000 else 0, now)
  }

  /** Stamped in order and none after `now`. */
  predicate InOrder(es: seq<Entry>, now: nat) { Sorted(es) && (es != [] ==> es[|es| - 1].ts <= now) }

  /** A check refuses exactly when the last window already holds the configured
      number of appends, or has no room for the bytes. */
  lemma QuotaExact(cfg: Config, all: seq<Entry>, now: nat, n: nat)
    requires InOrder(all, now)
    ensures RateAllowed(cfg, all, now) <==>
            cfg.rateMaxInWindow == 0 || |Recent(cfg, all, now)| < cfg.rateMaxInWindow
    ensures UidBytesAllowed(cfg, all, now, n) <==>
            cfg.rateMaxBytesPerUid == 0 || Sum(Recent(cfg, all, now)) + n <= cfg.rateMaxBytesPerUid
  {
    EvictIsWithin(all, cfg.Threshold(now), now);
  }

  /** In every closed interval one window long: at most the configured number
      of appends and at most the configured bytes. */
  lemma {:induction false} SlidingQuotaHolds(cfg: Config, es: seq<Entry>, a: nat)
    requires Passed(cfg, es)
    ensures cfg.rateMaxInWindow != 0 ==> |Within(es, a, a + cfg.Window())| <= cfg.rateMaxInWindow
    ensures cfg.rateMaxBytesPerUid != 0 ==> Sum(Within(es, a, a + cfg.Window())) <= cfg.rateMaxBytesPerUid
  {
    if es != [] {
      var v, e, b := es[..|es| - 1], es[|es| - 1], a + cfg.Window();
      PassedInit(cfg, es);
      SlidingQuotaHolds(cfg, v, a);
      if a <= e.ts <= b {
        assert RateAllowed(cfg, v, e.ts) && UidBytesAllowed(cfg, v, e.ts, e.bytes);
        WithinFitsWindow(v, a, b, cfg.Threshold(e.ts));
        SumSnoc(Within(v, a, b), e);
      }
    }
  }

  // ---- the global tumbling window ----

  datatype Global = Global(start: nat, bytes: nat)

  /** Unsigned 64-bit difference. */
  function Since(now: nat, start: nat): nat {
    if now >= start then now - start else (now - start) % U64_LIMIT
  }

  predicate GlobalAllowed(cfg: Config, g: Global, now: nat, n: nat) {
    cfg.rateMaxBytesGlobal == 0 ||
    (if Since(now, g.start) >= cfg.Window() then 0 else g.bytes) + n <= cfg.rateMaxBytesGlobal
  }

  function GlobalNote(cfg: Config, g: Global, e: Entry): Global {
    if cfg.rateMaxBytesGlobal == 0 then g
    else if g.start == 0 || Since(e.ts, g.start) >= cfg.Window() then Global(e.ts, e.bytes)
    else Global(g.start, g.bytes + e.bytes)
  }

  function GlobalAfter(cfg: Config, es: seq<Entry>): Global {
    if es == [] then Global(0, 0) else GlobalNote(cfg, GlobalAfter(cfg, es[..|es| - 1]), es[|es| - 1])
  }

  predicate GlobalPassed(cfg: Config, es: seq<Entry>) {
    Sorted(es) &&
    forall i :: 0 <= i < |es| ==> GlobalAllowed(cfg, GlobalAfter(cfg, es[..i]), es[i].ts, es[i].bytes)
  }

  lemma GlobalPassedPrefix(cfg: Config, es: seq<Entry>, k: nat)
    requires GlobalPassed(cfg, es) && k <= |es|
    ensures GlobalPassed(cfg, es[..k])
  {
    forall i | 0 <= i < k ensures GlobalAllowed(cfg, GlobalAfter(cfg, es[..k][..i]), es[..k][i].ts, es[..k][i].bytes) {
      assert es[..k][..i] == es[..i];
    }
  }

  lemma GlobalPassedSnoc(cfg: Config, es: seq<Entry>, e: Entry)
    requires GlobalPassed(cfg, es) && (es != [] ==> es[|es| - 1].ts <= e.ts)
    requires GlobalAllowed(cfg, GlobalAfter(cfg, es), e.ts, e.bytes)
    ensures GlobalPassed(cfg, es + [e])
    ensures GlobalAfter(cfg, es + [e]) == GlobalNote(cfg, GlobalAfter(cfg, es), e)
  {
    var t := es + [e];
    assert t[..|es|] == es;
    forall i | 0 <= i < |t| ensures GlobalAllowed(cfg, GlobalAfter(cfg, t[..i]), t[i].ts, t[i].bytes) {
      if i < |es| { assert t[..i] == es[..i] && t[i] == es[i]; }
    }
  }

  /** Where the tumbling window of the last entry began. A window begins with
      the first entry, with each entry a whole window or more after the current
      one began, and after one that began at time zero. */
  function WindowIndex(cfg: Config, es: seq<Entry>): (w: nat)
    requires es != []
    ensures w < |es|
  {
    if |es| == 1 then 0
    else
      var w := WindowIndex(cfg, es[..|es| - 1]);
      if es[w].ts == 0 || es[|es| - 1].ts >= es[w].ts + cfg.rateWindowSec * 1000000 then |es| - 1 else w
  }

  /** The counter is the byte total of that window. */
  lemma {:induction false} CounterIsWindow(cfg: Config, es: seq<Entry>)
    requires Sorted(es) && es != [] && cfg.rateMaxBytesGlobal != 0
    ensures var w := WindowIndex(cfg, es);
            GlobalAfter(cfg, es) == Global(es[w].ts, Sum(es[w..]))
  {
    var v, e, w := es[..|es| - 1], es[|es| - 1], WindowIndex(cfg, es);
    if w == |es| - 1 {
      assert es[w..] == [] + [e];
      SumSnoc([], e);
    } else {
      assert es[w..] == v[w..] + [e];
      SumSnoc(v[w..], e);
    }
    if v != [] {
      CounterIsWindow(cfg, v);
      assert v[WindowIndex(cfg, v)] == es[WindowIndex(cfg, v)];
    }
  }

  /** The bytes of the tumbling window that an append at `now` would join. */
  function Current(cfg: Config, es: seq<Entry>, now: nat): seq<Entry> {
    if es == [] then []
    else
      var w := WindowIndex(cfg, es);
      if now >= es[w].ts + cfg.rateWindowSec * 1000000 then [] else es[w..]
  }

  /** The global check refuses exactly when that window has no room. */
  lemma GlobalExact(cfg: Config, es: seq<Entry>, now: nat, n: nat)
    requires InOrder(es, now)
    ensures GlobalAllowed(cfg, GlobalAfter(cfg, es), now, n) <==>
            cfg.rateMaxBytesGlobal == 0 || Sum(Current(cfg, es, now)) + n <= cfg.rateMaxBytesGlobal
  {
    if es != [] && cfg.rateMaxBytesGlobal != 0 { CounterIsWindow(cfg, es); }
  }

  /** The counter is the byte total of the window that began at `w`, within the
      quota; the window before it began a whole window earlier. */
  predicate WindowAt(cfg: Config, es: seq<Entry>, w: nat)
    requires w < |es|
  {
    && GlobalAfter(cfg, es) == Global(es[w].ts, Sum(es[w..]))
    && Sum(es[w..]) <= cfg.rateMaxBytesGlobal
    && es[|es| - 1].ts - es[w].ts < cfg.Window()
    && (w > 0 ==> GlobalAfter(cfg, es[..w]).start + cfg.Window() <= es[w].ts)
  }

  predicate Bounded(cfg: Config) { cfg.rateMaxBytesGlobal != 0 && cfg.Window() > 0 }

  lemma NewWindow(cfg: Config, v: seq<Entry>, e: Entry)
    requires Bounded(cfg) && GlobalAllowed(cfg, GlobalAfter(cfg, v), e.ts, e.bytes)
    requires v != [] ==> v[|v| - 1].ts <= e.ts && GlobalAfter(cfg, v).start <= v[|v| - 1].ts
    requires v != [] ==> Since(e.ts, GlobalAfter(cfg, v).start) >= cfg.Window()
    ensures WindowAt(cfg, v + [e], |v|)
  {
    var es := v + [e];
    assert es[..|v|] == v && es[|v|..] == [] + [e];
    SumSnoc([], e);
  }

  lemma SameWindow(cfg: Config, v: seq<Entry>, e: Entry, w: nat)
    requires Bounded(cfg) && GlobalAllowed(cfg, GlobalAfter(cfg, v), e.ts, e.bytes)
    requires w < |v| && WindowAt(cfg, v, w) && 0 < v[w].ts <= v[|v| - 1].ts <= e.ts
    requires Since(e.ts, GlobalAfter(cfg, v).start) < cfg.Window()
    ensures WindowAt(cfg, v + [e], w)
  {
    var es := v + [e];
    assert es[..|v|] == v && es[w..] == v[w..] + [e] && es[..w] == v[..w];
    SumSnoc(v[w..], e);
  }

  lemma {:induction false} TumblingWindowWithinQuota(cfg: Config, es: seq<Entry>)
    requires es != [] && GlobalPassed(cfg, es) && es[0].ts > 0 && Bounded(cfg)
    ensures WindowAt(cfg, es, WindowIndex(cfg, es))
  {
    var v, e := es[..|es| - 1], es[|es| - 1];
    assert es == v + [e];
    assert GlobalAllowed(cfg, GlobalAfter(cfg, es[..|v|]), e.ts, e.bytes);
    if v == [] {
      NewWindow(cfg, v, e);
    } else {
      GlobalPassedPrefix(cfg, es, |v|);
      TumblingWindowWithinQuota(cfg, v);
      NextWindow(cfg, v, e);
    }
  }

  lemma NextWindow(cfg: Config, v: seq<Entry>, e: Entry)
    requires Bounded(cfg) && GlobalAllowed(cfg, GlobalAfter(cfg, v), e.ts, e.bytes)
    requires v != [] && Sorted(v + [e]) && v[0].ts > 0 && WindowAt(cfg, v, WindowIndex(cfg, v))
    ensures WindowAt(cfg, v + [e], WindowIndex(cfg, v + [e]))
  {
    var w, es := WindowIndex(cfg, v), v + [e];
    assert es[..|v|] == v && es[|v|] == e;
    assert es[0] == v[0] && es[w] == v[w] && es[|v| - 1] == v[|v| - 1];
    assert WindowIndex(cfg, es) == if Since(e.ts, v[w].ts) >= cfg.Window() then |v| else w;
    hide WindowIndex, GlobalAfter, Sum;
    if Since(e.ts, v[w].ts) >= cfg.Window() {
      NewWindow(cfg, v, e);
    } else {
      SameWindow(cfg, v, e, w);
    }
  }

  lemma {:induction false} WithinSumBySuffix(es: seq<Entry>, a: nat, b: nat, w: nat)
    requires w <= |es| && forall i :: 0 <= i < w ==> es[i].ts < a
    ensures Sum(Within(es, a, b)) <= Sum(es[w..])
  {
    if |es| > w {
      var v, e := es[..|es| - 1], es[|es| - 1];
      WithinSumBySuffix(v, a, b, w);
      assert es[w..] == v[w..] + [e];
      SumSnoc(v[w..], e);
      SumSnoc(Within(v, a, b), e);
    } else if es != [] {
      WithinSumBySuffix(es[..|es| - 1], a, b, w - 1);
    }
  }

  lemma EarlierWindowsEnded(cfg: Config, p: seq<Entry>, w: nat)
    requires p != [] && GlobalPassed(cfg, p) && p[0].ts > 0
    requires Bounded(cfg)
    requires 0 < w == WindowIndex(cfg, p)
    ensures p[w - 1].ts < p[w].ts
  {
    TumblingWindowWithinQuota(cfg, p);
    GlobalPassedPrefix(cfg, p, w);
    TumblingWindowWithinQuota(cfg, p[..w]);
  }

  /** The two windows from `p` on hold at most twice the quota, and what
      precedes them is more than a window older than the second. */
  predicate TwoWindows(cfg: Config, es: seq<Entry>, p: nat, w: nat) {
    && p < w < |es| && Sum(es[p..]) <= 2 * cfg.rateMaxBytesGlobal
    && forall i :: 0 <= i < p ==> es[i].ts + cfg.Window() < es[w].ts
  }

  lemma ConsecutiveWindows(cfg: Config, es: seq<Entry>, p: nat, w: nat)
    requires Sorted(es) && p < w < |es| && WindowAt(cfg, es, w) && WindowAt(cfg, es[..w], p)
    requires p > 0 ==> es[p - 1].ts < es[p].ts
    ensures TwoWindows(cfg, es, p, w)
  {
    assert es[..w][p] == es[p];
    assert es[..w][p..] + es[w..] == es[p..];
    SumConcat(es[..w][p..], es[w..]);
    forall i | 0 <= i < p ensures es[i].ts + cfg.Window() < es[w].ts {
      assert es[i].ts <= es[p - 1].ts;
    }
  }

  lemma PreviousWindow(cfg: Config, es: seq<Entry>, w: nat) returns (p: nat)
    requires es != [] && GlobalPassed(cfg, es) && es[0].ts > 0 && Bounded(cfg)
    requires 0 < w == WindowIndex(cfg, es)
    ensures TwoWindows(cfg, es, p, w)
  {
    TumblingWindowWithinQuota(cfg, es);
    GlobalPassedPrefix(cfg, es, w);
    TumblingWindowWithinQuota(cfg, es[..w]);
    p := WindowIndex(cfg, es[..w]);
    if p > 0 { EarlierWindowsEnded(cfg, es[..w], p); }
    ConsecutiveWindows(cfg, es, p, w);
  }

  lemma RecentFitsTwoWindows(cfg: Config, es: seq<Entry>, a: nat, p: nat, w: nat)
    requires TwoWindows(cfg, es, p, w) && es[w].ts <= a + cfg.Window()
    ensures Sum(Within(es, a, a + cfg.Window())) <= 2 * cfg.rateMaxBytesGlobal
  {
    WithinSumBySuffix(es, a, a + cfg.Window(), p);
  }

  lemma TwoWindowsCover(cfg: Config, es: seq<Entry>, a: nat)
    requires es != [] && GlobalPassed(cfg, es) && es[0].ts > 0 && Bounded(cfg)
    requires es[|es| - 1].ts <= a + cfg.Window()
    ensures Sum(Within(es, a, a + cfg.Window())) <= 2 * cfg.rateMaxBytesGlobal
  {
    var w := WindowIndex(cfg, es);
    if w == 0 {
      TumblingWindowWithinQuota(cfg, es);
      WithinSumBySuffix(es, a, a + cfg.Window(), 0);
    } else {
      var p := PreviousWindow(cfg, es, w);
      assert es[w].ts <= es[|es| - 1].ts;
      RecentFitsTwoWindows(cfg, es, a, p, w);
    }
  }

  /** Over one lifetime with a positive, non-decreasing clock: any interval one
      window long holds at most twice the global quota. */
  lemma {:induction false} GlobalQuotaTwice(cfg: Config, es: seq<Entry>, a: nat)
    requires GlobalPassed(cfg, es) && (es != [] ==> es[0].ts > 0)
    requires Bounded(cfg)
    ensures Sum(Within(es, a, a + cfg.Window())) <= 2 * cfg.rateMaxBytesGlobal
  {
    if es != [] {
      if es[|es| - 1].ts <= a + cfg.Window() {
        TwoWindowsCover(cfg, es, a);
      } else {
        GlobalPassedPrefix(cfg, es, |es| - 1);
        GlobalQuotaTwice(cfg, es[..|es| - 1], a);
      }
    }
  }

  /** The same line k times over, all stamped zero. */
  function StuckClock(b: nat, k: nat): seq<Entry> { seq(k, _ => Entry(0, b)) }

  /** Zero doubles as "no window yet", so each note forgets the bytes before it. */
  lemma {:induction false} ZeroClockForgets(cfg: Config, b: nat, k: nat)
    requires Bounded(cfg)
    ensures GlobalAfter(cfg, StuckClock(b, k)) == Global(0, if k == 0 then 0 else b)
    ensures Sum(Within(StuckClock(b, k), 0, cfg.Window())) == k * b
  {
    if k > 0 {
      assert StuckClock(b, k)[..k - 1] == StuckClock(b, k - 1);
      ZeroClockForgets(cfg, b, k - 1);
      SumSnoc(Within(StuckClock(b, k - 1), 0, cfg.Window()), Entry(0, b));
    }
  }

  /** With the clock stuck at zero any number of lines of up to half the quota
      is accepted within one window. */
  lemma ZeroClockDefeatsGlobalQuota(cfg: Config, b: nat, k: nat)
    requires Bounded(cfg) && 2 * b <= cfg.rateMaxBytesGlobal
    ensures GlobalPassed(cfg, StuckClock(b, k))
    ensures Sum(Within(StuckClock(b, k), 0, cfg.Window())) == k * b
  {
    var es := StuckClock(b, k);
    ZeroClockForgets(cfg, b, k);
    forall i | 0 <= i < |es| ensures GlobalAllowed(cfg, GlobalAfter(cfg, es[..i]), es[i].ts, es[i].bytes) {
      assert es[..i] == StuckClock(b, i);
      ZeroClockForgets(cfg, b, i);
    }
  }

  predicate LinesFrom(es: seq<Entry>, t0: nat, least: nat) {
    forall i :: 0 <= i < |es| ==> es[i].ts >= t0 && es[i].bytes >= least
  }

  predicate InTwiceQuota(cfg: Config, es: seq<Entry>, a: nat) {
    Sum(Within(es, a, a + cfg.Window())) <= 2 * cfg.rateMaxBytesGlobal
  }

  /** Twice the quota bounds every window of accepted lines of at least `least`
      bytes stamped no earlier than t0. */
  ghost predicate TwiceQuotaFrom(cfg: Config, t0: nat, least: nat) {
    forall es: seq<Entry>, a: nat :: GlobalPassed(cfg, es) && LinesFrom(es, t0, least) ==> InTwiceQuota(cfg, es, a)
  }

  lemma StuckClockExceeds(cfg: Config, b: nat)
    requires Bounded(cfg) && 0 < b && 2 * b <= cfg.rateMaxBytesGlobal
    ensures var es := StuckClock(b, 2 * cfg.rateMaxBytesGlobal + 1);
            GlobalPassed(cfg, es) && LinesFrom(es, 0, b) && !InTwiceQuota(cfg, es, 0)
  {
    hide GlobalPassed, Sum, Within;
    var k := 2 * cfg.rateMaxBytesGlobal + 1;
    ZeroClockDefeatsGlobalQuota(cfg, b, k);
    AtLeastOnce(k, b);
    assert 0 + cfg.Window() == cfg.Window();
  }

  lemma AtLeastOnce(k: nat, b: nat)
    requires b > 0
    ensures k * b >= k
  {
  }

  /** However long the lines, up to half the quota, the bound holds if and only
      if the stamps are positive. */
  lemma TwiceQuotaIffPositiveClock(cfg: Config, t0: nat, least: nat)
    requires Bounded(cfg) && 0 < least && 2 * least <= cfg.rateMaxBytesGlobal
    ensures TwiceQuotaFrom(cfg, t0, least) <==> t0 > 0
  {
    hide GlobalPassed;
    if t0 > 0 {
      forall es: seq<Entry>, a: nat | GlobalPassed(cfg, es) && LinesFrom(es, t0, least)
        ensures InTwiceQuota(cfg, es, a)
      {
        GlobalQuotaTwice(cfg, es, a);
      }
    } else {
      hide InTwiceQuota, LinesFrom;
      StuckClockExceeds(cfg, least);
    }
  }

  /** How many entries are stamped zero; they come first. */
  function Zeros(es: seq<Entry>): (k: nat)
    ensures k <= |es| && (forall i :: 0 <= i < k ==> es[i].ts == 0) && (k < |es| ==> es[k].ts > 0)
  {
    if es == [] || es[0].ts > 0 then 0 else 1 + Zeros(es[1..])
  }

  lemma {:induction false} NoWindowYet(cfg: Config, es: seq<Entry>)
    requires forall i :: 0 <= i < |es| ==> es[i].ts == 0
    ensures GlobalAfter(cfg, es).start == 0
  {
    if es != [] { NoWindowYet(cfg, es[..|es| - 1]); }
  }

  /** The first positive stamp starts over, whatever came before it. */
  lemma {:induction false} PositiveStartsOver(cfg: Config, es: seq<Entry>, k: nat, i: nat)
    requires k == Zeros(es) < i <= |es|
    ensures GlobalAfter(cfg, es[k..i]) == GlobalAfter(cfg, es[..i]) || cfg.rateMaxBytesGlobal == 0
    decreases i
  {
    assert es[..i][..i - 1] == es[..i - 1] && es[k..i][..i - 1 - k] == es[k..i - 1];
    if i == k + 1 {
      NoWindowYet(cfg, es[..k]);
      assert es[k..i] == [es[k]] && [es[k]][..0] == [];
    } else {
      PositiveStartsOver(cfg, es, k, i - 1);
    }
  }

  lemma StillAllowed(cfg: Config, es: seq<Entry>, k: nat, i: nat)
    requires GlobalPassed(cfg, es) && Bounded(cfg) && k == Zeros(es) <= i < |es|
    ensures GlobalAllowed(cfg, GlobalAfter(cfg, es[k..i]), es[i].ts, es[i].bytes)
  {
    assert GlobalAfter(cfg, []) == Global(0, 0);
    hide GlobalAfter, Sorted, Since, Zeros;
    assert GlobalAllowed(cfg, GlobalAfter(cfg, es[..i]), es[i].ts, es[i].bytes);
    if i > k { PositiveStartsOver(cfg, es, k, i); } else { assert es[k..i] == []; }
  }

  lemma PositivePartPassed(cfg: Config, es: seq<Entry>)
    requires GlobalPassed(cfg, es) && Bounded(cfg)
    ensures GlobalPassed(cfg, es[Zeros(es)..])
  {
    hide GlobalAfter, GlobalAllowed, Zeros;
    var k := Zeros(es);
    var t := es[k..];
    forall i | 0 <= i < |t| ensures GlobalAllowed(cfg, GlobalAfter(cfg, t[..i]), t[i].ts, t[i].bytes) {
      assert t[..i] == es[k..k + i];
      StillAllowed(cfg, es, k, k + i);
    }
  }

  lemma {:induction false} WithinSplits(x: seq<Entry>, y: seq<Entry>, a: nat, b: nat)
    ensures Sum(Within(x + y, a, b)) <= Sum(x) + Sum(Within(y, a, b))
  {
    if y == [] {
      assert x + y == x;
      if x != [] {
        var v, e := x[..|x| - 1], x[|x| - 1];
        WithinSplits(v, [], a, b);
        assert v + [] == v;
        SumSnoc(Within(v, a, b), e);
      }
    } else {
      var v, e := y[..|y| - 1], y[|y| - 1];
      WithinSplits(x, v, a, b);
      assert (x + y)[..|x + y| - 1] == x + v;
      SumSnoc(Within(x + v, a, b), e);
      SumSnoc(Within(v, a, b), e);
    }
  }

  /** With any non-decreasing clock: only what is stamped zero escapes. */
  lemma GlobalQuotaAnyClock(cfg: Config, es: seq<Entry>, a: nat)
    requires GlobalPassed(cfg, es) && Bounded(cfg)
    ensures Sum(Within(es, a, a + cfg.Window())) <= 2 * cfg.rateMaxBytesGlobal + Sum(es[..Zeros(es)])
  {
    var k := Zeros(es);
    assert es == es[..k] + es[k..];
    PositivePartPassed(cfg, es);
    GlobalQuotaTwice(cfg, es[k..], a);
    WithinSplits(es[..k], es[k..], a, a + cfg.Window());
  }
}
