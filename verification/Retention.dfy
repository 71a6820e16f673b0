/** Retention: prune the oldest archives until both the segment count and the
    byte budget hold; the active segment is never touched. */
module Retention {
  import opened Types

  type Archives = map<nat, seq<Byte>>

  predicate Ascending(order: seq<nat>) {
    forall i, j :: 0 <= i < j < |order| ==> order[i] < order[j]
  }

  /** Every archive once, oldest first. */
  ghost predicate OldestFirst(order: seq<nat>, archives: Archives) {
    Ascending(order) && forall ts :: ts in order <==> ts in archives
  }

  function Total(order: seq<nat>, archives: Archives): nat
    requires forall ts :: ts in order ==> ts in archives
  {
    if order == [] then 0 else |archives[order[0]]| + Total(order[1..], archives)
  }

  predicate Over(cfg: Config, count: nat, total: nat) {
    (cfg.retainSegments != 0 && count > cfg.retainSegments) || (cfg.retainBytes != 0 && total > cfg.retainBytes)
  }

  /** These archives are more than the segment count allows, or with the active
      segment more than the byte budget does; zero is no limit. */
  predicate TooMuch(cfg: Config, segBytes: nat, archives: Archives, these: seq<nat>)
    requires forall ts :: ts in these ==> ts in archives
  {
    || 0 < cfg.retainSegments < |these|
    || 0 < cfg.retainBytes < segBytes + Total(these, archives)
  }

  /** How many of the oldest archives go. */
  function PruneCount(cfg: Config, segBytes: nat, order: seq<nat>, archives: Archives): (k: nat)
    requires forall ts :: ts in order ==> ts in archives
    ensures k <= |order|
  {
    if order != [] && Over(cfg, |order|, segBytes + Total(order, archives)) then
      1 + PruneCount(cfg, segBytes, order[1..], archives)
    else 0
  }

  /** Pruning stops as soon as both bounds hold. */
  lemma {:induction false} PruneStops(cfg: Config, segBytes: nat, order: seq<nat>, archives: Archives)
    requires forall ts :: ts in order ==> ts in archives
    ensures var k := PruneCount(cfg, segBytes, order, archives);
            k < |order| ==> !Over(cfg, |order| - k, segBytes + Total(order[k..], archives))
  {
    var k := PruneCount(cfg, segBytes, order, archives);
    if k == 0 {
      assert order[0..] == order;
    } else {
      PruneStops(cfg, segBytes, order[1..], archives);
      assert order[1..][k - 1..] == order[k..];
    }
  }

  /** Every deletion was needed: before it some bound was broken. */
  lemma {:induction false} PruneNeeded(cfg: Config, segBytes: nat, order: seq<nat>, archives: Archives, i: nat)
    requires forall ts :: ts in order ==> ts in archives
    requires i < PruneCount(cfg, segBytes, order, archives)
    ensures Over(cfg, |order| - i, segBytes + Total(order[i..], archives))
  {
    if i == 0 {
      assert order[0..] == order;
    } else {
      PruneNeeded(cfg, segBytes, order[1..], archives, i - 1);
      assert order[1..][i - 1..] == order[i..];
    }
  }

  /** What deleting the `k` oldest leaves. */
  function Kept(k: nat, order: seq<nat>, archives: Archives): Archives
    requires k <= |order|
  {
    archives - (set ts | ts in order[..k])
  }

  lemma KeptIsNewest(k: nat, order: seq<nat>, archives: Archives)
    requires OldestFirst(order, archives) && k <= |order|
    ensures forall a, b :: a in archives && a !in Kept(k, order, archives) && b in Kept(k, order, archives) ==> a < b
  {
    var kept := Kept(k, order, archives);
    forall a, b | a in archives && a !in kept && b in kept ensures a < b {
      var i :| 0 <= i < k && order[..k][i] == a;
      var j :| 0 <= j < |order| && order[j] == b;
      assert j >= k by { assert order[..k] + order[k..] == order; }
    }
  }

  /** Retention as a whole, for any configuration: at most the allowed number
      of archives stays, within the byte budget or no archive at all, and
      nothing was deleted that could have stayed. */
  lemma RetentionMeetsItsBounds(cfg: Config, segBytes: nat, order: seq<nat>, archives: Archives)
    requires OldestFirst(order, archives)
    ensures var k := PruneCount(cfg, segBytes, order, archives);
            && (cfg.retainSegments != 0 ==> |order[k..]| <= cfg.retainSegments)
            && (cfg.retainBytes != 0 ==> order[k..] == [] || segBytes + Total(order[k..], archives) <= cfg.retainBytes)
            && (k > 0 ==> TooMuch(cfg, segBytes, archives, order[k - 1..]))
  {
    hide PruneCount, Total, Ascending;
    var k := PruneCount(cfg, segBytes, order, archives);
    PruneStops(cfg, segBytes, order, archives);
    if k > 0 {
      PruneNeeded(cfg, segBytes, order, archives, k - 1);
      assert forall ts :: ts in order[k - 1..] ==> ts in order;
    }
  }

  // ---- sorting the directory listing ----

  /** Insert into an ascending list. */
  method Insert(order: seq<nat>, ts: nat) returns (r: seq<nat>)
    requires Ascending(order) && ts !in order
    ensures Ascending(r) && forall x :: x in r <==> x in order || x == ts
  {
    var i := 0;
    while i < |order| && order[i] < ts
      invariant 0 <= i <= |order| && forall j :: 0 <= j < i ==> order[j] < ts
    {
      i := i + 1;
    }
    r := order[..i] + [ts] + order[i..];
    forall x | x in order || x == ts ensures x in r {
      if x in order {
        assert order == order[..i] + order[i..];
      }
    }
    forall p, q | 0 <= p < q < |r| ensures r[p] < r[q] {
      var u := if p < i then order[p] else if p == i then ts else order[p - 1];
      var v := if q < i then order[q] else if q == i then ts else order[q - 1];
      assert r[p] == u && r[q] == v;
      if i < |order| { assert order[i] in order; }
    }
  }

  method SortArchives(archives: Archives) returns (order: seq<nat>)
    ensures OldestFirst(order, archives)
  {
    order := [];
    var left := archives.Keys;
    while left != {}
      invariant left <= archives.Keys && Ascending(order)
      invariant forall ts :: ts in order <==> ts in archives && ts !in left
    {
      var ts :| ts in left;
      order := Insert(order, ts);
      left := left - {ts};
    }
  }

  // ---- the pruning loop ----

  lemma KeptNext(k: nat, order: seq<nat>, archives: Archives)
    requires OldestFirst(order, archives) && k < |order|
    ensures Kept(k + 1, order, archives) == Kept(k, order, archives) - {order[k]}
  {
    assert order[..k + 1] == order[..k] + [order[k]];
  }

  lemma TotalNext(k: nat, order: seq<nat>, archives: Archives)
    requires OldestFirst(order, archives) && k < |order|
    ensures Total(order[k..], archives) == |archives[order[k]]| + Total(order[k + 1..], archives)
  {
    assert order[k..][1..] == order[k + 1..];
  }

  /** The loop's bookkeeping while every unlink has succeeded. */
  ghost predicate OnTrack(cfg: Config, segBytes: nat, order: seq<nat>, archives: Archives, i: nat, kept: Archives,
                          count: int, total: int)
    requires OldestFirst(order, archives)
  {
    i <= PruneCount(cfg, segBytes, order, archives) && kept == Kept(i, order, archives) &&
    count == |order| - i && total == segBytes + Total(order[i..], archives)
  }

  lemma OnTrackNext(cfg: Config, segBytes: nat, order: seq<nat>, archives: Archives, i: nat, kept: Archives,
                    count: nat, total: nat)
    requires OldestFirst(order, archives) && i < |order| && Over(cfg, count, total)
    requires OnTrack(cfg, segBytes, order, archives, i, kept, count, total)
    ensures OnTrack(cfg, segBytes, order, archives, i + 1, kept - {order[i]}, count - 1, total - |archives[order[i]]|)
  {
    PruneGoesOn(cfg, segBytes, order, archives, i);
    KeptNext(i, order, archives);
    TotalNext(i, order, archives);
  }

  lemma PruneGoesOn(cfg: Config, segBytes: nat, order: seq<nat>, archives: Archives, i: nat)
    requires OldestFirst(order, archives) && i <= PruneCount(cfg, segBytes, order, archives) && i < |order|
    requires Over(cfg, |order| - i, segBytes + Total(order[i..], archives))
    ensures i < PruneCount(cfg, segBytes, order, archives)
  {
    PruneStops(cfg, segBytes, order, archives);
  }

  lemma OnTrackDone(cfg: Config, segBytes: nat, order: seq<nat>, archives: Archives, i: nat, kept: Archives,
                    count: nat, total: nat)
    requires OldestFirst(order, archives) && OnTrack(cfg, segBytes, order, archives, i, kept, count, total)
    requires i == |order| || !Over(cfg, count, total)
    ensures i == PruneCount(cfg, segBytes, order, archives)
  {
    if i < PruneCount(cfg, segBytes, order, archives) { PruneNeeded(cfg, segBytes, order, archives, i); }
  }

  predicate PartOf(kept: Archives, archives: Archives) {
    kept.Keys <= archives.Keys && forall ts :: ts in kept ==> kept[ts] == archives[ts]
  }

  function Left(order: seq<nat>, kept: set<nat>): (r: seq<nat>)
    ensures forall ts :: ts in r ==> ts in order
  {
    if order == [] then []
    else
      var ts := order[|order| - 1];
      Left(order[..|order| - 1], kept) + (if ts in kept then [ts] else [])
  }

  /** What is there when it is the turn of the i-th oldest: of the older ones
      those that stay, and all from it on. */
  function Standing(order: seq<nat>, kept: set<nat>, i: nat): (r: seq<nat>)
    requires i <= |order|
    ensures forall ts :: ts in r ==> ts in order
  {
    Left(order[..i], kept) + order[i..]
  }

  /** In its turn an archive stays if and only if it cannot be unlinked or what
      is there is not too much. */
  ghost predicate Pruned(cfg: Config, segBytes: nat, archives: Archives, order: seq<nat>, stuck: set<nat>,
                         kept: Archives)
    requires OldestFirst(order, archives)
  {
    PartOf(kept, archives) &&
    forall i :: 0 <= i < |order| ==>
      (order[i] in kept <==> order[i] in stuck || !TooMuch(cfg, segBytes, archives, Standing(order, kept.Keys, i)))
  }

  /** The turns before the i-th are as they must be. */
  ghost predicate PrunedTo(cfg: Config, segBytes: nat, archives: Archives, order: seq<nat>, stuck: set<nat>,
                           kept: Archives, i: nat)
    requires OldestFirst(order, archives)
  {
    && i <= |order| && PartOf(kept, archives) && (forall j :: i <= j < |order| ==> order[j] in kept)
    && forall j :: 0 <= j < i ==>
         (order[j] in kept <==> order[j] in stuck || !TooMuch(cfg, segBytes, archives, Standing(order, kept.Keys, j)))
  }

  lemma {:induction false} LeftSame(order: seq<nat>, a: set<nat>, b: set<nat>)
    requires forall ts :: ts in order ==> (ts in a <==> ts in b)
    ensures Left(order, a) == Left(order, b)
  {
    if order != [] {
      assert forall ts :: ts in order[..|order| - 1] ==> ts in order;
      LeftSame(order[..|order| - 1], a, b);
    }
  }

  lemma {:induction false} TotalConcat(a: seq<nat>, b: seq<nat>, archives: Archives)
    requires forall ts :: ts in a + b ==> ts in archives
    ensures (forall ts :: ts in a ==> ts in archives) && (forall ts :: ts in b ==> ts in archives)
    ensures Total(a + b, archives) == Total(a, archives) + Total(b, archives)
  {
    assert forall ts :: ts in a || ts in b ==> ts in a + b;
    if a == [] {
      assert a + b == b;
    } else {
      assert (a + b)[1..] == a[1..] + b;
      TotalConcat(a[1..], b, archives);
    }
  }

  /** Removing later ones changes no earlier turn. */
  lemma TurnSame(order: seq<nat>, archives: Archives, kept: set<nat>, i: nat, j: nat)
    requires OldestFirst(order, archives) && j <= i < |order|
    ensures Standing(order, kept - {order[i]}, j) == Standing(order, kept, j)
  {
    forall ts | ts in order[..j] ensures ts in kept <==> ts in kept - {order[i]} {
      var k :| 0 <= k < j && order[k] == ts;
    }
    LeftSame(order[..j], kept, kept - {order[i]});
  }

  lemma TotalMinus(a: seq<nat>, ts: nat, b: seq<nat>, archives: Archives)
    requires forall x :: x in a + ([ts] + b) ==> x in archives
    ensures ts in archives && forall x :: x in a + b ==> x in archives
    ensures Total(a + b, archives) == Total(a + ([ts] + b), archives) - |archives[ts]|
  {
    assert ts in [ts] + b && forall x :: x in a || x in [ts] + b ==> x in a + ([ts] + b);
    TotalConcat(a, [ts] + b, archives);
    TotalConcat(a, b, archives);
    assert ([ts] + b)[1..] == b;
  }

  /** One turn on: what stood is still there, but for the one unlinked. */
  lemma StandingNext(order: seq<nat>, archives: Archives, kept: set<nat>, i: nat)
    requires OldestFirst(order, archives) && i < |order|
    ensures var now, next := Standing(order, kept, i), Standing(order, kept, i + 1);
            && |next| == |now| - (if order[i] in kept then 0 else 1)
            && Total(next, archives) == Total(now, archives) - (if order[i] in kept then 0 else |archives[order[i]]|)
  {
    var a, b := Left(order[..i], kept), order[i + 1..];
    assert order[..i + 1][..i] == order[..i] && order[i..] == [order[i]] + b;
    assert Left(order[..i + 1], kept) == a + (if order[i] in kept then [order[i]] else []);
    hide Total, Left, OldestFirst;
    assert Standing(order, kept, i) == a + ([order[i]] + b);
    if order[i] in kept {
      assert Standing(order, kept, i + 1) == a + ([order[i]] + b);
    } else {
      assert Standing(order, kept, i + 1) == a + b;
      assert forall x :: x in a + ([order[i]] + b) ==> x in archives by { AllThere(order, archives, kept, i); }
      TotalMinus(a, order[i], b, archives);
    }
  }

  lemma AllThere(order: seq<nat>, archives: Archives, kept: set<nat>, i: nat)
    requires OldestFirst(order, archives) && i <= |order|
    ensures forall ts :: ts in Standing(order, kept, i) ==> ts in archives
  {
  }

  lemma NextTurn(cfg: Config, segBytes: nat, archives: Archives, order: seq<nat>, stuck: set<nat>, kept: Archives,
                 i: nat)
    requires OldestFirst(order, archives) && i < |order| && PrunedTo(cfg, segBytes, archives, order, stuck, kept, i)
    requires TooMuch(cfg, segBytes, archives, Standing(order, kept.Keys, i))
    ensures var kept' := if order[i] in stuck then kept else kept - {order[i]};
            PrunedTo(cfg, segBytes, archives, order, stuck, kept', i + 1)
  {
    hide TooMuch, Standing, Total;
    var kept' := if order[i] in stuck then kept else kept - {order[i]};
    forall j | 0 <= j <= i ensures Standing(order, kept'.Keys, j) == Standing(order, kept.Keys, j) {
      if order[i] !in stuck {
        TurnSame(order, archives, kept.Keys, i, j);
        assert kept'.Keys == kept.Keys - {order[i]};
      }
    }
  }

  /** Once what is there is not too much, it stays so to the end. */
  lemma StopsThere(cfg: Config, segBytes: nat, archives: Archives, order: seq<nat>, stuck: set<nat>, kept: Archives,
                   i: nat)
    requires OldestFirst(order, archives) && PrunedTo(cfg, segBytes, archives, order, stuck, kept, i)
    requires i == |order| || !TooMuch(cfg, segBytes, archives, Standing(order, kept.Keys, i))
    ensures Pruned(cfg, segBytes, archives, order, stuck, kept)
  {
    hide TooMuch, Total, Left;
    forall j | i <= j < |order| ensures Standing(order, kept.Keys, j) == Standing(order, kept.Keys, i) {
      StandsFrom(order, kept.Keys, i, j);
    }
  }

  lemma {:induction false} StandsFrom(order: seq<nat>, kept: set<nat>, i: nat, j: nat)
    requires i <= j <= |order| && forall k :: i <= k < j ==> order[k] in kept
    ensures Standing(order, kept, j) == Standing(order, kept, i)
    decreases j
  {
    if i < j {
      StandsFrom(order, kept, i, j - 1);
      assert order[..j][..j - 1] == order[..j - 1] && order[j - 1..] == [order[j - 1]] + order[j..];
    }
  }

  /** Oldest first, stop when within both bounds. An archive that cannot be
      unlinked still counts and the next oldest is tried. Only archives go, and
      if every unlink succeeds exactly the oldest `PruneCount` of them do. */
  method ApplyRetention(cfg: Config, segBytes: nat, archives: Archives, stuck: set<nat>)
    returns (kept: Archives, order: seq<nat>)
    ensures OldestFirst(order, archives) && Pruned(cfg, segBytes, archives, order, stuck, kept)
    ensures stuck !! archives.Keys ==> kept == Kept(PruneCount(cfg, segBytes, order, archives), order, archives)
  {
    hide PruneCount, Total, TooMuch, Pruned, PrunedTo, Standing;
    order := SortArchives(archives);
    kept := archives;
    var count, total, i := |order|, segBytes + Total(order, archives), 0;
    assert order[0..] == order && Kept(0, order, archives) == archives;
    FirstTurn(cfg, segBytes, archives, order, stuck);
    while i < |order| && Over(cfg, count, total)
      invariant 0 <= i <= |order| && PrunedTo(cfg, segBytes, archives, order, stuck, kept, i)
      invariant count == |Standing(order, kept.Keys, i)|
      invariant total == segBytes + Total(Standing(order, kept.Keys, i), archives)
      invariant stuck !! archives.Keys ==> OnTrack(cfg, segBytes, order, archives, i, kept, count, total)
    {
      if stuck !! archives.Keys { OnTrackNext(cfg, segBytes, order, archives, i, kept, count, total); }
      OverIsTooMuch(cfg, segBytes, archives, Standing(order, kept.Keys, i));
      NextTurn(cfg, segBytes, archives, order, stuck, kept, i);
      ghost var was := kept;
      if order[i] !in stuck {
        kept := kept - {order[i]};
        count, total := count - 1, total - |archives[order[i]]|;
        TurnSame(order, archives, was.Keys, i, i);
        assert kept.Keys == was.Keys - {order[i]};
      }
      StillIn(cfg, segBytes, archives, order, stuck, was, i);
      StandingNext(order, archives, kept.Keys, i);
      i := i + 1;
    }
    if stuck !! archives.Keys { OnTrackDone(cfg, segBytes, order, archives, i, kept, count, total); }
    OverIsTooMuch(cfg, segBytes, archives, Standing(order, kept.Keys, i));
    StopsThere(cfg, segBytes, archives, order, stuck, kept, i);
  }

  lemma FirstTurn(cfg: Config, segBytes: nat, archives: Archives, order: seq<nat>, stuck: set<nat>)
    requires OldestFirst(order, archives)
    ensures PrunedTo(cfg, segBytes, archives, order, stuck, archives, 0) && Standing(order, archives.Keys, 0) == order
  {
    assert order[..0] == [] && [] + order[0..] == order;
  }

  lemma OverIsTooMuch(cfg: Config, segBytes: nat, archives: Archives, these: seq<nat>)
    requires forall ts :: ts in these ==> ts in archives
    ensures TooMuch(cfg, segBytes, archives, these) <==> Over(cfg, |these|, segBytes + Total(these, archives))
  {
  }

  lemma StillIn(cfg: Config, segBytes: nat, archives: Archives, order: seq<nat>, stuck: set<nat>, kept: Archives,
                i: nat)
    requires OldestFirst(order, archives) && i < |order| && PrunedTo(cfg, segBytes, archives, order, stuck, kept, i)
    ensures order[i] in kept
  {
  }
}
