/** Depth lists of a book side, and the snapshot that a fresh engine can be restored from. */
module Depth {
  import opened Domain
  import opened Matching
  import opened Books
  import opened LevelHeap
  import opened MatchingEngine
  import opened OrderBook
  import Sets

  datatype DepthLevel = DepthLevel(price: int, qty: int)

  /** Best price first, no price twice. */
  ghost predicate Ranked(isBid: bool, d: seq<DepthLevel>) {
    forall i, j :: 0 <= i < j < |d| ==> Better(isBid, d[i].price, d[j].price)
  }

  ghost predicate Lists(d: seq<DepthLevel>, price: int) { exists i :: 0 <= i < |d| && d[i].price == price }

  /** The full depth of some totals: every price with a positive total, once, best first. */
  ghost predicate DepthOf(isBid: bool, totals: map<int, int>, d: seq<DepthLevel>) {
    && Ranked(isBid, d)
    && (forall i :: 0 <= i < |d| ==> d[i].price in totals && totals[d[i].price] == d[i].qty > 0)
    && (forall p :: p in totals && totals[p] > 0 ==> Lists(d, p))
  }

  /**
   The depth shown at a limit: prices with their positive totals, best first. A price with a
   positive total is missing only if the limit is positive, exactly so many are shown, and all
   of them are better.
   */
  ghost predicate BestOf(isBid: bool, totals: map<int, int>, limit: int, d: seq<DepthLevel>) {
    && Ranked(isBid, d) && (limit > 0 ==> |d| <= limit)
    && (forall i :: 0 <= i < |d| ==> d[i].price in totals && totals[d[i].price] == d[i].qty > 0)
    && (forall p :: p in totals && totals[p] > 0 && !Lists(d, p) ==>
          limit > 0 && |d| == limit && forall i :: 0 <= i < |d| ==> Better(isBid, d[i].price, p))
  }

  lemma SomeListed(isBid: bool, totals: map<int, int>, d: seq<DepthLevel>, d': seq<DepthLevel>)
    requires DepthOf(isBid, totals, d) && DepthOf(isBid, totals, d') && d' != []
    ensures d != []
  {
    assert Lists(d, d'[0].price);
  }

  /** Totals have one depth, so neither the order of the map nor the sort can matter. */
  lemma {:induction false} DepthUnique(isBid: bool, totals: map<int, int>, d: seq<DepthLevel>, d': seq<DepthLevel>)
    requires DepthOf(isBid, totals, d) && DepthOf(isBid, totals, d')
    ensures d == d'
    decreases |d|
  {
    if d' != [] {
      SomeListed(isBid, totals, d, d');
    }
    if d != [] {
      SomeListed(isBid, totals, d', d);
      assert Lists(d', d[0].price);
      assert Lists(d, d'[0].price);
      var p := d[0].price;
      assert d'[0].price == p;
      var rest := totals - {p};
      TailDepth(isBid, totals, d);
      TailDepth(isBid, totals, d');
      DepthUnique(isBid, rest, d[1..], d'[1..]);
      assert d == [d[0]] + d[1..] && d' == [d'[0]] + d'[1..];
    }
  }

  lemma TailDepth(isBid: bool, totals: map<int, int>, d: seq<DepthLevel>)
    requires DepthOf(isBid, totals, d) && d != []
    ensures DepthOf(isBid, totals - {d[0].price}, d[1..])
  {
  }

  lemma PrefixRanked(isBid: bool, d: seq<DepthLevel>, k: nat)
    requires Ranked(isBid, d) && k <= |d|
    ensures Ranked(isBid, d[..k])
  {
  }

  /** Cutting the full depth shows the best of it. */
  lemma CutIsBest(isBid: bool, totals: map<int, int>, limit: int, full: seq<DepthLevel>)
    requires DepthOf(isBid, totals, full)
    ensures BestOf(isBid, totals, limit, if limit > 0 && |full| > limit then full[..limit] else full)
  {
    if limit > 0 && |full| > limit {
      var d := full[..limit];
      PrefixRanked(isBid, full, limit);
      forall k | 0 <= k < limit
        ensures Lists(d, full[k].price)
      {
        assert d[k].price == full[k].price;
      }
      forall p | p in totals && totals[p] > 0 && !Lists(d, p)
        ensures forall i :: 0 <= i < |d| ==> Better(isBid, d[i].price, p)
      {
        assert Lists(full, p);
        var k :| 0 <= k < |full| && full[k].price == p;
      }
    }
  }

  /** What is shown is the beginning of the full depth, cut to the limit: there is one such list. */
  lemma BestExact(isBid: bool, totals: map<int, int>, limit: int, full: seq<DepthLevel>, d: seq<DepthLevel>)
    requires DepthOf(isBid, totals, full)
    ensures BestOf(isBid, totals, limit, d) <==> d <= full && |d| == if 0 < limit < |full| then limit else |full|
  {
    CutIsBest(isBid, totals, limit, full);
    if BestOf(isBid, totals, limit, d) {
      BestBegins(isBid, totals, limit, full, d);
      if |d| < |full| {
        NextMissing(isBid, totals, limit, full, d);
      }
    }
  }

  /** The first level not shown is missing. */
  lemma NextMissing(isBid: bool, totals: map<int, int>, limit: int, full: seq<DepthLevel>, d: seq<DepthLevel>)
    requires DepthOf(isBid, totals, full) && BestOf(isBid, totals, limit, d) && d < full
    ensures limit > 0 && |d| == limit
  {
    var p := full[|d|].price;
    assert forall i :: 0 <= i < |d| ==> d[i] == full[i] && full[i].price != p;
    assert !Lists(d, p);
  }

  lemma BestBegins(isBid: bool, totals: map<int, int>, limit: int, full: seq<DepthLevel>, d: seq<DepthLevel>)
    requires DepthOf(isBid, totals, full) && BestOf(isBid, totals, limit, d)
    ensures d <= full
  {
    hide DepthOf, BestOf;
    if d != [] {
      BeginsTo(isBid, totals, limit, full, d, |d| - 1);
    }
  }

  lemma BetterFacts(isBid: bool, p: int, q: int)
    ensures Better(isBid, p, q) ==> p != q && !Better(isBid, q, p)
  {
  }

  /** What is shown is in the full depth. */
  lemma ShownInFull(isBid: bool, totals: map<int, int>, limit: int, full: seq<DepthLevel>, d: seq<DepthLevel>, k: nat)
    returns (j: nat)
    requires DepthOf(isBid, totals, full) && BestOf(isBid, totals, limit, d) && k < |d|
    ensures j < |full| && full[j] == d[k] && Ranked(isBid, full) && Ranked(isBid, d)
  {
    assert Lists(full, d[k].price);
    j :| 0 <= j < |full| && full[j].price == d[k].price;
  }

  lemma RankedAt(isBid: bool, d: seq<DepthLevel>, i: nat, j: nat)
    requires Ranked(isBid, d) && i < j < |d|
    ensures Better(isBid, d[i].price, d[j].price) && d[i] != d[j]
  {
  }

  lemma {:induction false} BeginsTo(isBid: bool, totals: map<int, int>, limit: int, full: seq<DepthLevel>,
      d: seq<DepthLevel>, k: nat)
    requires DepthOf(isBid, totals, full) && BestOf(isBid, totals, limit, d) && k < |d|
    ensures k < |full| && forall i :: 0 <= i <= k ==> d[i] == full[i]
  {
    hide Better, DepthOf, BestOf, Ranked;
    if k > 0 {
      BeginsTo(isBid, totals, limit, full, d, k - 1);
    }
    var j := ShownInFull(isBid, totals, limit, full, d, k);
    if j < k {
      RankedAt(isBid, d, j, k);
    } else if j > k {
      RankedAt(isBid, full, k, j);
      NotPassed(isBid, totals, limit, full, d, k);
    }
  }

  /** A better price cannot be passed over. */
  lemma NotPassed(isBid: bool, totals: map<int, int>, limit: int, full: seq<DepthLevel>, d: seq<DepthLevel>, k: nat)
    requires DepthOf(isBid, totals, full) && BestOf(isBid, totals, limit, d) && k < |d| && k < |full|
    requires forall i :: 0 <= i < k ==> d[i] == full[i]
    ensures !Better(isBid, full[k].price, d[k].price)
  {
    hide Better;
    var p := full[k].price;
    BetterFacts(isBid, d[k].price, p);
    if Lists(d, p) {
      var i :| 0 <= i < |d| && d[i].price == p;
      if i < k {
        assert Better(isBid, full[i].price, p);
        BetterFacts(isBid, full[i].price, p);
      } else {
        BetterFacts(isBid, p, p);
      }
    }
  }

  /** Totals with the same depth show the same. */
  lemma BestSame(isBid: bool, totals: map<int, int>, totals': map<int, int>, limit: int, full: seq<DepthLevel>,
      d: seq<DepthLevel>)
    requires DepthOf(isBid, totals, full) && DepthOf(isBid, totals', full)
    ensures BestOf(isBid, totals, limit, d) <==> BestOf(isBid, totals', limit, d)
  {
    BestExact(isBid, totals, limit, full, d);
    BestExact(isBid, totals', limit, full, d);
  }

  // ---- reading the depth of a side ----

  ghost predicate Keyed(levels: map<int, PriceLevel>) {
    forall p :: p in levels ==> levels[p].price == p
  }

  /** The total each level states. */
  ghost function Stated(levels: map<int, PriceLevel>): map<int, int>
    reads levels.Values
  {
    map p | p in levels :: levels[p].totalQty
  }

  /** `d` is what these levels show at the limit. */
  ghost predicate Shows(isBid: bool, levels: map<int, PriceLevel>, limit: int, d: seq<DepthLevel>)
    reads levels.Values
  {
    BestOf(isBid, Stated(levels), limit, d)
  }

  /** Insert one level where its price ranks. */
  method Place(isBid: bool, d0: seq<DepthLevel>, x: DepthLevel) returns (d: seq<DepthLevel>)
    requires Ranked(isBid, d0) && !Lists(d0, x.price)
    ensures Ranked(isBid, d) && |d| == |d0| + 1
    ensures forall y :: y in d <==> y == x || y in d0
  {
    var i := 0;
    while i < |d0| && Better(isBid, d0[i].price, x.price)
      invariant 0 <= i <= |d0|
      invariant forall k :: 0 <= k < i ==> Better(isBid, d0[k].price, x.price)
    {
      i := i + 1;
    }
    d := d0[..i] + [x] + d0[i..];
    PlaceRanked(isBid, d0, x, i);
  }

  lemma PlaceRanked(isBid: bool, d0: seq<DepthLevel>, x: DepthLevel, i: nat)
    requires Ranked(isBid, d0) && !Lists(d0, x.price) && i <= |d0|
    requires forall k :: 0 <= k < i ==> Better(isBid, d0[k].price, x.price)
    requires i < |d0| ==> !Better(isBid, d0[i].price, x.price)
    ensures Ranked(isBid, d0[..i] + [x] + d0[i..])
  {
  }

  /** `depth`: the levels with quantity, best first, cut to the limit. Only what the levels state is read. */
  method LevelsDepth(isBid: bool, levels: map<int, PriceLevel>, limit: int) returns (d: seq<DepthLevel>)
    requires Keyed(levels)
    ensures Shows(isBid, levels, limit, d)
  {
    hide Ranked, Better, Lists;
    ghost var totals := Stated(levels);
    var rest := levels.Keys;
    var all := [];
    RankedNone(isBid);
    while rest != {}
      invariant rest <= levels.Keys && Ranked(isBid, all)
      invariant forall x :: x in all ==> x.price in totals && x.price !in rest && totals[x.price] == x.qty > 0
      invariant forall p :: p in levels && p !in rest && totals[p] > 0 ==> DepthLevel(p, totals[p]) in all
      decreases rest
    {
      ghost var some := Sets.Member(rest);
      var p :| p in rest;
      rest := rest - {p};
      var l := levels[p];
      if l.totalQty > 0 {
        NotIn(all, p);
        all := Place(isBid, all, DepthLevel(l.price, l.totalQty));
      }
    }
    forall p | p in totals && totals[p] > 0
      ensures Lists(all, p)
    {
      IsListed(all, DepthLevel(p, totals[p]));
    }
    assert DepthOf(isBid, totals, all);
    CutIsBest(isBid, totals, limit, all);
    d := all;
    if limit > 0 && |d| > limit {
      d := d[..limit];
    }
  }

  /** Total quantity resting at each price that has a level. */
  ghost function Totals(levels: map<int, PriceLevel>, r: seq<OrderVal>): map<int, int> {
    map p | p in levels :: TotalQty(AtPrice(r, p))
  }

  /** In a book in use, what the levels state is what rests at their prices. */
  lemma StatedIsResting(book: OrderBook)
    requires book.Valid()
    ensures Keyed(book.levels) && Stated(book.levels) == Totals(book.levels, book.abs.Resting())
  {
    hide OrderBook.Valid, TotalQty, AtPrice;
    forall p | p in book.levels
      ensures book.levels[p].price == p && Stated(book.levels)[p] == TotalQty(AtPrice(book.abs.Resting(), p))
    {
      book.LevelTotal(p);
    }
  }

  /** The depth of a book in use: the sums of its resting orders, grouped by price. */
  method BookDepth(book: OrderBook, limit: int) returns (d: seq<DepthLevel>)
    requires book.Valid()
    ensures BestOf(book.isBid, Totals(book.levels, book.abs.Resting()), limit, d)
    ensures Shows(book.isBid, book.levels, limit, d)
  {
    hide OrderBook.Valid, Stated, Totals, BestOf;
    StatedIsResting(book);
    d := LevelsDepth(book.isBid, book.levels, limit);
  }

  lemma NotIn(d: seq<DepthLevel>, p: int)
    requires forall x :: x in d ==> x.price != p
    ensures !Lists(d, p)
  {
  }

  lemma IsListed(d: seq<DepthLevel>, x: DepthLevel)
    requires x in d
    ensures Lists(d, x.price)
  {
  }

  lemma RankedNone(isBid: bool)
    ensures Ranked(isBid, [])
  {
  }

  /** Every resting order counts towards the level of its price, and every level listed has orders. */
  lemma DepthCovers(b: Book, levels: map<int, PriceLevel>, d: seq<DepthLevel>, p: int)
    requires Open(b.Resting()) && (forall o :: o in b.Resting() ==> o.price in levels)
    requires DepthOf(b.isBid, Totals(levels, b.Resting()), d)
    ensures Lists(d, p) <==> AtPrice(b.Resting(), p) != []
  {
    AtPriceOnly(b.Resting(), p);
    OpenAt(b.Resting(), p);
    var q := AtPrice(b.Resting(), p);
    if q != [] {
      assert q[0] in b.Resting();
    }
  }

  lemma OpenAt(r: seq<OrderVal>, p: int)
    requires Open(r)
    ensures Open(AtPrice(r, p)) && (TotalQty(AtPrice(r, p)) > 0 <==> AtPrice(r, p) != [])
  {
  }

  // ---- snapshot and restore ----

  /** What a side holds after restoring a list of levels: totals, without orders. */
  function RestoredTotals(d: seq<DepthLevel>): map<int, int> {
    if d == [] then map[]
    else
      var last := d[|d| - 1];
      var before := RestoredTotals(d[..|d| - 1]);
      if last.qty <= 0 then before else before[last.price := last.qty]
  }

  lemma ListsMore(d: seq<DepthLevel>, i: nat)
    requires i < |d|
    ensures forall p :: Lists(d[..i], p) || p == d[i].price ==> Lists(d[..i + 1], p)
  {
  }

  lemma {:induction false} RestoredAt(isBid: bool, d: seq<DepthLevel>)
    requires Ranked(isBid, d) && forall i :: 0 <= i < |d| ==> d[i].qty > 0
    ensures forall i :: 0 <= i < |d| ==> d[i].price in RestoredTotals(d) && RestoredTotals(d)[d[i].price] == d[i].qty
    ensures forall p :: p in RestoredTotals(d) ==> Lists(d, p)
  {
    if d != [] {
      var front, last := d[..|d| - 1], d[|d| - 1];
      RestoredAt(isBid, front);
      assert d[..|d| - 1 + 1] == d;
      ListsMore(d, |d| - 1);
      forall p | p in RestoredTotals(d)
        ensures Lists(d, p)
      {
        assert p == last.price || p in RestoredTotals(front);
        assert p == last.price || Lists(front, p);
      }
      forall i | 0 <= i < |d|
        ensures d[i].price in RestoredTotals(d) && RestoredTotals(d)[d[i].price] == d[i].qty
      {
        assert i < |front| ==> front[i] == d[i] && d[i].price != last.price;
      }
    }
  }

  /** Restoring a side from its full depth reproduces that depth. */
  lemma RestoreDepth(isBid: bool, totals: map<int, int>, d: seq<DepthLevel>)
    requires DepthOf(isBid, totals, d)
    ensures DepthOf(isBid, RestoredTotals(d), d)
  {
    RestoredAt(isBid, d);
  }

  /** `restoreLevel`. */
  method RestoreLevel(book: OrderBook, ghost d: seq<DepthLevel>, x: DepthLevel)
    requires Restored(book, d) && x.qty > 0 && x.price !in book.levels
    modifies book`levels, book`hp
    ensures Restored(book, d + [x]) && book.levels.Keys == old(book.levels.Keys) + {x.price}
    ensures forall p :: p in book.levels ==>
      (p in old(book.levels) && book.levels[p] == old(book.levels[p])) || fresh(book.levels[p])
  {
    hide HeapOrdered, Distinct;
    assert (d + [x])[..|d|] == d;
    var l := new PriceLevel(x.price);
    l.totalQty := x.qty;
    book.hp := HeapPush(book.isBid, book.hp, l);
    book.levels := book.levels[x.price := l];
  }

  /** `restoreLevel` over a list: one level object a price, pushed into the heap. */
  method RestoreSide(book: OrderBook, d: seq<DepthLevel>)
    requires Ranked(book.isBid, d) && book.levels == map[] && book.hp == []
    modifies book`levels, book`hp
    ensures Restored(book, d) && forall p :: p in book.levels ==> fresh(book.levels[p])
  {
    hide HeapOrdered, Distinct;
    EmptyHeapOk(book.isBid);
    for i := 0 to |d|
      invariant Restored(book, d[..i])
      invariant forall p :: p in book.levels ==> fresh(book.levels[p]) && Lists(d[..i], p)
    {
      assert d[..i + 1] == d[..i] + [d[i]] && d[..i + 1][..i] == d[..i];
      if d[i].qty > 0 {
        NotYetListed(book.isBid, d, i);
        RestoreLevel(book, d[..i], d[i]);
      }
      ListsMore(d, i);
    }
    assert d[..|d|] == d;
  }

  /** The side holds one level a listed price, stating its quantity, and all of them in an ordered heap. */
  ghost predicate Restored(book: OrderBook, d: seq<DepthLevel>)
    reads book, book.levels.Values
  {
    && Keyed(book.levels) && Stated(book.levels) == RestoredTotals(d)
    && HeapOrdered(book.isBid, book.hp) && Distinct(book.hp)
    && (forall l :: l in book.hp ==> l.price in book.levels && book.levels[l.price] == l)
    && (forall p :: p in book.levels ==> book.levels[p] in book.hp)
  }

  lemma EmptyHeapOk(isBid: bool)
    ensures HeapOrdered(isBid, []) && Distinct([])
  {
  }

  lemma NotYetListed(isBid: bool, d: seq<DepthLevel>, i: nat)
    requires Ranked(isBid, d) && i < |d|
    ensures !Lists(d[..i], d[i].price)
  {
  }

  datatype Snapshot = Snapshot(seqNo: nat, bids: seq<DepthLevel>, asks: seq<DepthLevel>, active: map<OrderId, OrderVal>)

  /** The snapshot holds the full depth of both sides, the sequence number and a copy of every active order. */
  ghost predicate Depicts(snap: Snapshot, e: Engine)
    reads e, e.bids, e.asks, e.bids.levels.Values, e.asks.levels.Values, e.active.Values
  {
    && snap.seqNo == e.seqNo
    && DepthOf(true, Stated(e.bids.levels), snap.bids) && DepthOf(false, Stated(e.asks.levels), snap.asks)
    && snap.active == map id | id in e.active :: e.active[id].View()
  }

  /** Without a limit the full depth is shown. */
  lemma AllShown(isBid: bool, totals: map<int, int>, d: seq<DepthLevel>)
    requires BestOf(isBid, totals, 0, d)
    ensures DepthOf(isBid, totals, d)
  {
  }

  /** `Snapshot`. */
  method TakeSnapshot(e: Engine) returns (snap: Snapshot)
    requires e.Valid()
    ensures Depicts(snap, e)
  {
    hide OrderBook.Valid, BestOf, DepthOf, Stated, Totals;
    var bids := BookDepth(e.bids, 0);
    var asks := BookDepth(e.asks, 0);
    AllShown(true, Stated(e.bids.levels), bids);
    AllShown(false, Stated(e.asks.levels), asks);
    snap := Snapshot(e.seqNo, bids, asks, map id | id in e.active :: e.active[id].View());
  }

  /** `Restore` into a new engine. */
  method RestoreEngine(snap: Snapshot) returns (e: Engine)
    requires Ranked(true, snap.bids) && Ranked(false, snap.asks)
    ensures fresh(e) && RestoredFrom(e, snap)
  {
    hide Engine.Valid, Restored, Ranked;
    e := new Engine();
    e.seqNo := snap.seqNo;
    RestoreSide(e.bids, snap.bids);
    RestoreSide(e.asks, snap.asks);
  }

  ghost predicate RestoredFrom(e: Engine, snap: Snapshot)
    reads e, e.bids, e.asks, e.bids.levels.Values, e.asks.levels.Values
  {
    && e.seqNo == snap.seqNo && e.bids.isBid && !e.asks.isBid
    && Restored(e.bids, snap.bids) && Restored(e.asks, snap.asks)
  }

  /** Levels restored from a full depth show the same depth at every limit, and no other. */
  lemma SideRoundTrip(isBid: bool, levels: map<int, PriceLevel>, d: seq<DepthLevel>, restored: map<int, PriceLevel>,
      limit: int, shown: seq<DepthLevel>)
    requires DepthOf(isBid, Stated(levels), d) && Stated(restored) == RestoredTotals(d)
    ensures Shows(isBid, levels, limit, shown) <==> Shows(isBid, restored, limit, shown)
  {
    hide DepthOf, Stated, BestOf;
    RestoreDepth(isBid, Stated(levels), d);
    BestSame(isBid, Stated(levels), RestoredTotals(d), limit, d, shown);
  }

  /**
   An engine restored from a snapshot has the snapshot's sequence number and, at every limit,
   exactly the depth lists of the engine the snapshot was taken of.
   */
  lemma SnapshotRoundTrip(e: Engine, snap: Snapshot, restored: Engine, limit: int, shown: seq<DepthLevel>)
    requires Depicts(snap, e) && RestoredFrom(restored, snap)
    ensures restored.seqNo == e.seqNo
    ensures Shows(true, e.bids.levels, limit, shown) <==> Shows(true, restored.bids.levels, limit, shown)
    ensures Shows(false, e.asks.levels, limit, shown) <==> Shows(false, restored.asks.levels, limit, shown)
  {
    hide DepthOf, Stated, Shows, RestoredTotals, HeapOrdered, Distinct;
    SideRoundTrip(true, e.bids.levels, snap.bids, restored.bids.levels, limit, shown);
    SideRoundTrip(false, e.asks.levels, snap.asks, restored.asks.levels, limit, shown);
  }

  /** `Depth` of an engine, one in use or a restored one. */
  method EngineDepth(e: Engine, limit: int) returns (bids: seq<DepthLevel>, asks: seq<DepthLevel>, seqNo: nat)
    requires Keyed(e.bids.levels) && Keyed(e.asks.levels)
    ensures Shows(true, e.bids.levels, limit, bids) && Shows(false, e.asks.levels, limit, asks) && seqNo == e.seqNo
  {
    bids := LevelsDepth(true, e.bids.levels, limit);
    asks := LevelsDepth(false, e.asks.levels, limit);
    seqNo := e.seqNo;
  }
}
