/**
 The engine of one symbol as objects: two books, the index of active orders, and the
 loops that consume the opposite book level by level.
 */
module MatchingEngine {
  import opened Wrappers
  import opened Domain
  import opened FixedPoint
  import opened Matching
  import opened Books
  import opened BookLevels
  import opened LevelHeap
  import opened OrderBook
  import EngineModel
  import Sets

  function TradesOf(fills: seq<Fill>): seq<Trade> {
    seq(|fills|, i requires 0 <= i < |fills| => fills[i].trade)
  }

  lemma TradesPush(fills: seq<Fill>, f: Fill)
    ensures TradesOf(fills + [f]) == TradesOf(fills) + [f.trade]
  {
  }

  /** Matching `t` against `b` makes `fills` first, and then what is left of both continues. */
  ghost predicate Continues(t0: OrderVal, b0: Book, s0: nat, fills: seq<Fill>, t: OrderVal, b: Book)
    requires BookOk(b0) && BookOk(b)
  {
    var r := MatchBook(t, b, s0 + |fills|);
    MatchBook(t0, b0, s0) == Matched(r.taker, r.book, fills + r.fills)
  }

  lemma ContinuesStart(t: OrderVal, b: Book, s: nat)
    requires BookOk(b)
    ensures Continues(t, b, s, [], t, b)
  {
  }

  lemma ContinuesPopped(t0: OrderVal, b0: Book, s0: nat, fills: seq<Fill>, t: OrderVal, b: Book)
    requires BookOk(b0) && BookOk(b) && Continues(t0, b0, s0, fills, t, b) && !Exhausted(t)
    ensures BookOk(Popped(b)) && Continues(t0, b0, s0, fills, t, Popped(b))
  {
    PoppedOk(b);
  }

  /** Appending runs of fills composes. */
  lemma ContinuesTrans(t0: OrderVal, b0: Book, s0: nat, fs: seq<Fill>, t1: OrderVal, b1: Book, gs: seq<Fill>,
      t2: OrderVal, b2: Book)
    requires BookOk(b0) && BookOk(b1) && BookOk(b2)
    requires Continues(t0, b0, s0, fs, t1, b1) && Continues(t1, b1, s0 + |fs|, gs, t2, b2)
    ensures Continues(t0, b0, s0, fs + gs, t2, b2)
  {
    hide MatchBook;
    var r := MatchBook(t2, b2, s0 + |fs| + |gs|);
    assert fs + (gs + r.fills) == fs + gs + r.fills;
  }

  lemma ContinuesStops(t0: OrderVal, b0: Book, s0: nat, fills: seq<Fill>, t: OrderVal, b: Book)
    requires BookOk(b0) && BookOk(b) && Continues(t0, b0, s0, fills, t, b)
    requires Exhausted(t) || (Popped(b) == b && !CanEat(t, b.queue))
    ensures MatchBook(t0, b0, s0) == Matched(t, b, fills)
  {
  }

  /** One fill of the head, as the reference takes it. */
  function HeadFill(t: OrderVal, b: Book, s: nat, n: int): Fill
    requires b.queue != []
  {
    Fill(TradeOf(t, b.queue[0], n, s + 1), Made(b.queue[0], n))
  }

  lemma ContinuesFill(t0: OrderVal, b0: Book, s0: nat, fs: seq<Fill>, t: OrderVal, b: Book, n: int)
    requires BookOk(b0) && BookOk(b) && Continues(t0, b0, s0, fs, t, b)
    requires Popped(b) == b && CanEat(t, b.queue) && n == FillQty(t, b.queue[0])
    ensures BookOk(FillHead(b, n)) && 0 <= TotalQty(FillHead(b, n).queue) < TotalQty(b.queue)
    ensures Continues(t0, b0, s0, fs + [HeadFill(t, b, s0 + |fs|, n)], Taken(t, b.queue[0].price, n), FillHead(b, n))
  {
    FillHeadOk(b, n);
    ContinuesTrans(t0, b0, s0, fs, t, b, [HeadFill(t, b, s0 + |fs|, n)], Taken(t, b.queue[0].price, n), FillHead(b, n));
  }

  /** While the best level has orders left, it stays the best level. */
  lemma HeadStays(b: Book, n: int)
    requires BookOk(b) && Popped(b) == b && b.queue != [] && 0 < n <= b.queue[0].remaining
    requires AtPrice(FillHead(b, n).Resting(), b.queue[0].price) != []
    ensures var b' := FillHead(b, n);
      b'.queue != [] && b'.queue[0].price == b.queue[0].price && Popped(b') == b'
  {
    var p, b' := b.queue[0].price, FillHead(b, n);
    FillHeadOk(b, n);
    assert b.queue[0] in b.queue;
    LiveIsQueued(b', p);
    if b.queue[0].remaining == n {
      assert b'.queue[0] == b.queue[1];
    }
    AtPriceConcat(b'.queue, b'.hidden, p);
    AtPriceNone(b'.hidden, p);
    NothingStaleAhead(b);
    NothingPopped(b');
  }

  lemma NothingStaleAhead(b: Book)
    requires Popped(b) == b && BookOk(b) && b.queue != []
    ensures forall s :: s in b.stale ==> !Better(b.isBid, s, b.queue[0].price)
  {
  }

  /** A market buy can pay for the quantity, and its budget fits int64. */
  predicate Affords(t: OrderVal, price: int, n: int) {
    t.MarketBuy() ==> QuoteUnits(price, n) <= t.remainingQuote <= MAX_INT64
  }

  /** A positive fill quantity means the head can be eaten and paid for. */
  lemma PositiveFill(t: OrderVal, q: seq<OrderVal>, n: int)
    requires q != [] && Crosses(t, q[0].price) && t.remainingQuote <= MAX_INT64
    requires n == FillQty(t, q[0])
    ensures n > 0 <==> CanEat(t, q)
    ensures n > 0 ==> Affords(t, q[0].price, n) && n <= q[0].remaining
  {
  }

  /** Filling the head of one book: which orders stay active. */
  lemma ActiveAfterFill(e: EngineModel.Eng, side: Side, n: int)
    requires EngineModel.EngOk(e) && e.BookOf(side).queue != [] && 0 < n <= e.BookOf(side).queue[0].remaining
    ensures var m := e.BookOf(side).queue[0];
      var e' := e.WithBook(side, FillHead(e.BookOf(side), n));
      && EngineModel.EngOk(e')
      && forall id :: e'.Active(id) <==> e.Active(id) && !(m.remaining == n && id == m.id)
  {
    var b := e.BookOf(side);
    var m, r := b.queue[0], b.Resting();
    FillHeadOk(b, n);
    assert r[0] == m;
    forall id
      ensures HasId(AfterFill(r, n), id) <==> HasId(r, id) && !(m.remaining == n && id == m.id)
    {
      FilledIds(r, n, id);
    }
    assert HasId(r, m.id);
  }

  lemma FilledIds(r: seq<OrderVal>, n: int, id: OrderId)
    requires r != [] && UniqueIds(r)
    ensures HasId(AfterFill(r, n), id) <==> HasId(r, id) && !(r[0].remaining == n && id == r[0].id)
  {
    var r' := AfterFill(r, n);
    if r[0].remaining == n {
      EngineModel.DropIds(r, 0, id);
      assert r' == r[..0] + r[1..];
    } else {
      assert |r'| == |r| && r'[0].id == r[0].id;
      assert forall i :: 0 < i < |r| ==> r'[i] == r[i];
      assert forall i :: 0 <= i < |r| ==> r'[i].id == r[i].id;
      if HasId(r, id) {
        var i :| 0 <= i < |r| && r[i].id == id;
        assert r'[i].id == id;
      }
    }
  }

  /** Where a match began: the taker, the book, the trade counter, every resting order. */
  datatype Start = Start(t0: OrderVal, b0: Book, s0: nat, views: map<Order, OrderVal>, active0: map<OrderId, Order>)

  predicate WasActive(start: Start, o: Order) {
    o.id in start.active0 && start.active0[o.id] == o
  }

  class Engine {
    const bids: OrderBook
    const asks: OrderBook
    var active: map<OrderId, Order>
    var seqNo: nat

    ghost function Abs(): EngineModel.Eng
      reads this`seqNo, bids`abs, asks`abs
    {
      EngineModel.Eng(bids.abs, asks.abs, seqNo)
    }

    /** No order of the book is shadowed in the index of active orders. */
    ghost predicate Indexes(b: OrderBook)
      reads this`active, b`levels, set p | p in b.levels :: b.levels[p]
    {
      forall p, i :: p in b.levels && 0 <= i < |b.levels[p].orders| && b.levels[p].orders[i].id in active ==>
        active[b.levels[p].orders[i].id] == b.levels[p].orders[i]
    }

    /** The active orders are exactly the resting ones. */
    ghost predicate ActiveOk()
      reads this`active, this`seqNo, bids`abs, asks`abs
    {
      forall id :: id in active <==> Abs().Active(id)
    }

    ghost predicate Valid()
      reads this, bids, asks, bids.made, asks.made, bids.orders, asks.orders
    {
      && bids != asks && bids.isBid && !asks.isBid
      && bids.made !! asks.made && bids.orders !! asks.orders
      && bids.Valid() && asks.Valid()
      && EngineModel.EngOk(Abs()) && ActiveOk()
      && Indexes(bids) && Indexes(asks)
    }

    constructor ()
      ensures Valid() && Abs() == EngineModel.EMPTY_ENGINE
      ensures fresh(bids) && fresh(asks) && bids.made == asks.made == {} && bids.orders == asks.orders == {}
      ensures seqNo == 0 && bids.levels == asks.levels == map[] && bids.hp == asks.hp == []
    {
      bids := new OrderBook(true);
      asks := new OrderBook(false);
      active, seqNo := map[], 0;
    }

    function BookOf(side: Side): OrderBook { if side.Buy? then bids else asks }

    /** The parts of the orders the engine may change. */
    ghost function OrderSet(): set<Order>
      reads bids`orders, asks`orders
    {
      bids.orders + asks.orders
    }

    /** Every order in a level is the active order of its id. */
    lemma RestingIsActive(book: OrderBook, p: int, i: nat)
      requires Valid() && (book == bids || book == asks)
      requires p in book.levels && i < |book.levels[p].orders|
      ensures var o := book.levels[p].orders[i]; o.id in active && active[o.id] == o
    {
      hide AtPrice, EngineModel.EngOk, OrderBook.LevelsHold;
      book.Owns(p, i);
      var v := AtPrice(book.abs.Resting(), p)[i];
      AtPriceOnly(book.abs.Resting(), p);
      var k :| 0 <= k < |book.abs.Resting()| && book.abs.Resting()[k] == v;
      assert HasId(book.abs.Resting(), v.id);
    }

    /** Taking orders out of one level shadows none. */
    twostate lemma IndexesShrinks(at: (OrderBook, PriceLevel))
      requires var (book, level) := at;
        && old(Indexes(book)) && active == old(active) && book.levels == old(book.levels)
        && level.price in book.levels && book.levels[level.price] == level
        && (forall p :: p in book.levels && p != level.price ==> book.levels[p].orders == old(book.levels[p].orders))
        && (forall i :: 0 <= i < |level.orders| ==> level.orders[i] in old(level.orders))
      ensures Indexes(at.0)
    {
    }

    /** The taker's side of one fill. */
    static method TakeFill(taker: Order, price: int, n: int)
      requires Affords(taker.View(), price, n)
      modifies taker`remaining, taker`filled, taker`avg, taker`remainingQuote
      ensures taker.View() == Taken(old(taker.View()), price, n)
    {
      taker.avg := WeightedAvg(taker.avg, taker.filled, price, n);
      taker.remaining := taker.remaining - n;
      taker.filled := taker.filled + n;
      if taker.side.Buy? && taker.typ.Market? {
        var spent := PriceQtyToQuote(price, n);
        if spent.None? || spent.value > taker.remainingQuote {
          assert false;  // the quantity was converted from the budget
        } else {
          taker.remainingQuote := taker.remainingQuote - spent.value;
        }
      }
    }

    /** The book after one fill of its head, seen from the engine. */
    ghost predicate HeadFilled(e: EngineModel.Eng, side: Side, n: int)
      reads this`seqNo, bids`abs, asks`abs
      requires e.BookOf(side).queue != []
    {
      Abs() == e.WithBook(side, FillHead(e.BookOf(side), n))
    }

    /** The level is the best of the book facing the taker, and `maker` its first order. */
    ghost predicate Facing(taker: Order, level: PriceLevel, maker: Order, n: int)
      reads BookOf(taker.side.Opposite())`abs, BookOf(taker.side.Opposite())`levels, level`orders
    {
      var book := BookOf(taker.side.Opposite());
      && book.abs.queue != [] && 0 < n <= book.abs.queue[0].remaining
      && Current(book.levels, level) && level.price == book.abs.queue[0].price
      && level.orders != [] && level.orders[0] == maker
    }

    /** One fill: taker, maker, level and book together, then the index of active orders. */
    method FillOnce(taker: Order, level: PriceLevel, maker: Order, n: int) returns (trade: Trade)
      requires Valid() && taker !in OrderSet() && Facing(taker, level, maker, n)
      requires Affords(taker.View(), level.price, n)
      modifies taker`remaining, taker`filled, taker`avg, taker`remainingQuote
      modifies maker`remaining, maker`filled, maker`avg, maker`status
      modifies this`active, this`seqNo, BookOf(taker.side.Opposite())`abs, level
      ensures Valid() && seqNo == old(seqNo) + 1
      ensures BookOf(taker.side.Opposite()).abs == FillHead(old(BookOf(taker.side.Opposite()).abs), n)
      ensures taker.View() == Taken(old(taker.View()), maker.price, n)
      ensures old(maker.View()) == old(BookOf(taker.side.Opposite()).abs.queue[0])
      ensures maker.View() == Made(old(maker.View()), n)
      ensures trade == TradeOf(old(taker.View()), old(maker.View()), n, old(seqNo) + 1)
      ensures maker in OrderSet() && maker.id in old(active) && old(active)[maker.id] == maker
      ensures active == if maker.remaining == 0 then old(active) - {maker.id} else old(active)
    {
      hide FillHead, BookOk, EngineModel.EngOk, IndexOk, OrderBook.LevelsHold, Indexes, ActiveOk;
      ghost var side := taker.side.Opposite();
      ghost var e := Abs();
      assert forall id :: id in active <==> e.Active(id) by {
        ActiveFacts();
      }
      RestingIsActive(BookOf(side), level.price, 0);
      FillObjects(taker, level, maker, n);
      Retire(maker, e, side, n);
      trade := Trade(level.price, n, maker.id, taker.id, maker.user, taker.user, taker.side, maker.side, seqNo);
    }

    lemma ActiveFacts()
      requires Valid()
      ensures forall id :: id in active <==> Abs().Active(id)
    {
    }

    method FillObjects(taker: Order, level: PriceLevel, maker: Order, n: int)
      requires Valid() && taker !in OrderSet() && Facing(taker, level, maker, n)
      requires Affords(taker.View(), level.price, n)
      modifies taker`remaining, taker`filled, taker`avg, taker`remainingQuote
      modifies maker`remaining, maker`filled, maker`avg, maker`status
      modifies BookOf(taker.side.Opposite())`abs, level
      ensures bids.Valid() && asks.Valid() && Indexes(bids) && Indexes(asks)
      ensures BookOf(taker.side.Opposite()).abs == FillHead(old(BookOf(taker.side.Opposite()).abs), n)
      ensures BookOf(taker.side).abs == old(BookOf(taker.side).abs)
      ensures taker.View() == Taken(old(taker.View()), maker.price, n)
      ensures old(maker.View()) == old(BookOf(taker.side.Opposite()).abs.queue[0])
      ensures maker.View() == Made(old(maker.View()), n)
      ensures maker in OrderSet() && level.price == maker.price
    {
      hide FillHead, BookOk, EngineModel.EngOk, IndexOk, OrderBook.LevelsHold, Indexes, ActiveOk;
      var book := BookOf(taker.side.Opposite());
      book.Owns(level.price, 0);
      bids.LevelFacts();
      asks.LevelFacts();
      TakeFill(taker, level.price, n);
      book.FillFront(level, maker, n);
      IndexesShrinks((book, level));
    }

    /** Count the trade, and drop a maker that is done from the index of active orders. */
    method Retire(maker: Order, ghost e: EngineModel.Eng, ghost side: Side, ghost n: int)
      requires EngineModel.EngOk(e) && e.BookOf(side).queue != [] && 0 < n <= e.BookOf(side).queue[0].remaining
      requires maker.id == e.BookOf(side).queue[0].id
      requires maker.remaining == e.BookOf(side).queue[0].remaining - n
      requires HeadFilled(e, side, n) && e.seqNo == seqNo
      requires forall id :: id in active <==> e.Active(id)
      requires Indexes(bids) && Indexes(asks)
      modifies this`active, this`seqNo
      ensures EngineModel.EngOk(Abs()) && ActiveOk() && Indexes(bids) && Indexes(asks)
      ensures seqNo == old(seqNo) + 1
      ensures active == if maker.remaining == 0 then old(active) - {maker.id} else old(active)
    {
      ActiveAfterFill(e, side, n);
      if maker.remaining == 0 {
        active := active - {maker.id};
      }
      seqNo := seqNo + 1;
      ghost var e' := e.WithBook(side, FillHead(e.BookOf(side), n));
      assert Abs().bids == e'.bids && Abs().asks == e'.asks;
      forall id
        ensures id in active <==> Abs().Active(id)
      {
        assert Abs().Active(id) <==> e'.Active(id);
      }
    }

    /** The fills so far account for the views of all resting orders and for the index. */
    ghost predicate Recorded(start: Start, fills: seq<Fill>)
      reads this`active, start.views.Keys
    {
      && (forall o :: o in start.views ==> (start.views[o].id == o.id
            && o.View() == if WasActive(start, o) then Patched(start.views[o], fills) else start.views[o]))
      && (forall id :: id in active ==> id in start.active0 && start.active0[id] == active[id])
    }

    ghost predicate Progress(start: Start, fills: seq<Fill>, taker: Order)
      reads this`active, this`seqNo, BookOf(taker.side.Opposite())`abs, taker, start.views.Keys
      reads bids`orders, asks`orders
    {
      && start.views.Keys == OrderSet() && taker !in OrderSet()
      && BookOk(start.b0) && BookOk(BookOf(taker.side.Opposite()).abs)
      && Continues(start.t0, start.b0, start.s0, fills, taker.View(), BookOf(taker.side.Opposite()).abs)
      && seqNo == start.s0 + |fills|
      && Recorded(start, fills)
    }

    twostate lemma RecordedStep(step: (Start, seq<Fill>, Fill, Order))
      requires var (start, fs, fill, maker) := step;
        && old(Recorded(start, fs))
        && maker in start.views && maker.id in old(active) && old(active)[maker.id] == maker
        && fill.maker == maker.View()
        && (forall o :: o in start.views && o != maker ==> o.View() == old(o.View()))
        && (forall id :: id in active ==> id in old(active) && active[id] == old(active)[id])
      ensures Recorded(step.0, step.1 + [step.2])
    {
      assert (step.1 + [step.2])[..|step.1|] == step.1;
    }

    /** A fill of the head carries the progress one fill further. */
    method Advance(taker: Order, level: PriceLevel, maker: Order, n: int, ghost start: Start, ghost fs: seq<Fill>)
      returns (trade: Trade, ghost fill: Fill)
      requires Valid() && Facing(taker, level, maker, n) && Affords(taker.View(), level.price, n)
      requires Progress(start, fs, taker)
      requires var b := BookOf(taker.side.Opposite()).abs;
        Popped(b) == b && CanEat(taker.View(), b.queue) && n == FillQty(taker.View(), b.queue[0])
      modifies taker`remaining, taker`filled, taker`avg, taker`remainingQuote
      modifies maker`remaining, maker`filled, maker`avg, maker`status
      modifies this`active, this`seqNo, BookOf(taker.side.Opposite())`abs, level
      ensures Valid() && Progress(start, fs + [fill], taker) && fill.trade == trade
      ensures BookOf(taker.side.Opposite()).abs == FillHead(old(BookOf(taker.side.Opposite()).abs), n)
      ensures 0 <= TotalQty(BookOf(taker.side.Opposite()).abs.queue)
           < TotalQty(old(BookOf(taker.side.Opposite()).abs.queue))
      ensures taker.remainingQuote <= old(taker.remainingQuote)
    {
      hide FillHead, BookOk, EngineModel.EngOk, IndexOk, OrderBook.LevelsHold, Indexes, ActiveOk, MatchBook,
        Continues, Recorded, Popped, CanEat, FillQty, TotalQty, Made;
      ghost var t, b := taker.View(), BookOf(taker.side.Opposite()).abs;
      ContinuesFill(start.t0, start.b0, start.s0, fs, t, b, n);
      fill := HeadFill(t, b, start.s0 + |fs|, n);
      trade := FillOnce(taker, level, maker, n);
      assert fill == Fill(trade, maker.View());
      assert taker.View() == Taken(t, b.queue[0].price, n);
      assert Continues(start.t0, start.b0, start.s0, fs + [fill], taker.View(), BookOf(taker.side.Opposite()).abs);
      RecordedStep((start, fs, fill, maker));
    }

    /** The level is the best of the book facing the taker, which accepts its price. */
    ghost predicate AtLevel(taker: Order, level: PriceLevel)
      reads BookOf(taker.side.Opposite())`abs, BookOf(taker.side.Opposite())`levels
    {
      var book := BookOf(taker.side.Opposite());
      && Popped(book.abs) == book.abs && book.abs.queue != []
      && Current(book.levels, level) && level.price == book.abs.queue[0].price
    }

    lemma LevelMaker(taker: Order, level: PriceLevel)
      requires Valid() && AtLevel(taker, level)
      ensures level.totalQty > 0 && level.orders != []
      ensures level.orders[0].View() == BookOf(taker.side.Opposite()).abs.queue[0] && level.orders[0].remaining > 0
      ensures level in BookOf(taker.side.Opposite()).made && level.orders[0] in OrderSet()
    {
      var book := BookOf(taker.side.Opposite());
      book.LiveLevel(level);
      HeadOfPrice(book.abs);
      book.Owns(level.price, 0);
    }

    lemma StillAtLevel(taker: Order, level: PriceLevel, b: Book, n: int)
      requires Valid() && BookOk(b) && Popped(b) == b && b.queue != [] && 0 < n <= b.queue[0].remaining
      requires Current(BookOf(taker.side.Opposite()).levels, level) && level.price == b.queue[0].price
      requires BookOf(taker.side.Opposite()).abs == FillHead(b, n)
      ensures level.totalQty > 0 ==> AtLevel(taker, level)
    {
      BookOf(taker.side.Opposite()).LiveLevel(level);
      if level.totalQty > 0 {
        HeadStays(b, n);
      }
    }

    /** The quantity of the next fill: bounded by the maker, and by the taker's quantity or budget. */
    static method ChooseQty(taker: Order, maker: Order) returns (n: int)
      requires maker.remaining > 0
      ensures n == FillQty(taker.View(), maker.View())
    {
      if taker.side.Buy? && taker.typ.Market? {
        if maker.price <= 0 {
          return 0;
        }
        n := QuoteToQty(taker.remainingQuote, maker.price);
        if n > maker.remaining {
          n := maker.remaining;
        }
      } else {
        n := if taker.remaining < maker.remaining then taker.remaining else maker.remaining;
      }
    }

    /** `consumeLevel`: fill the level's orders in turn while quantity and budget last. */
    method ConsumeLevel(taker: Order, level: PriceLevel, trades0: seq<Trade>, ghost start: Start,
        ghost fills0: seq<Fill>)
      returns (consumed: bool, trades: seq<Trade>, ghost fills: seq<Fill>)
      requires Valid() && AtLevel(taker, level) && Progress(start, fills0, taker) && trades0 == TradesOf(fills0)
      requires Crosses(taker.View(), level.price) && taker.remainingQuote <= MAX_INT64
      modifies taker`remaining, taker`filled, taker`avg, taker`remainingQuote
      modifies OrderSet()`remaining, OrderSet()`filled, OrderSet()`avg, OrderSet()`status
      modifies this`active, this`seqNo, BookOf(taker.side.Opposite())`abs, BookOf(taker.side.Opposite()).made
      ensures Valid() && Progress(start, fills, taker) && trades == TradesOf(fills)
      ensures taker.remainingQuote <= old(taker.remainingQuote)
      ensures !consumed ==> (AtLevel(taker, level)
        && !CanEat(taker.View(), BookOf(taker.side.Opposite()).abs.queue))
      ensures consumed ==>
        0 <= TotalQty(BookOf(taker.side.Opposite()).abs.queue) < TotalQty(old(BookOf(taker.side.Opposite()).abs.queue))
    {
      hide BookOk, EngineModel.EngOk, IndexOk, OrderBook.LevelsHold, Indexes, ActiveOk,
        Continues, Recorded, Popped, FillQty, CanEat, TotalQty, TradesOf;
      var book := BookOf(taker.side.Opposite());
      consumed, trades, fills := false, trades0, fills0;
      while level.totalQty > 0
        invariant Valid() && Progress(start, fills, taker) && trades == TradesOf(fills)
        invariant Crosses(taker.View(), level.price) && taker.remainingQuote <= old(taker.remainingQuote)
        invariant level.totalQty > 0 ==> AtLevel(taker, level)
        invariant !consumed ==> AtLevel(taker, level)
        invariant consumed ==> 0 <= TotalQty(book.abs.queue) < TotalQty(old(book.abs.queue))
        decreases TotalQty(book.abs.queue)
      {
        var filled;
        filled, trades, fills := ConsumeOne(taker, level, trades, start, fills);
        if !filled {
          break;
        }
        consumed := true;
      }
      if !consumed {
        LevelMaker(taker, level);
      }
    }

    /** One pass of the level loop: a fill, or proof that none is possible. */
    method ConsumeOne(taker: Order, level: PriceLevel, trades0: seq<Trade>, ghost start: Start, ghost fills0: seq<Fill>)
      returns (filled: bool, trades: seq<Trade>, ghost fills: seq<Fill>)
      requires Valid() && AtLevel(taker, level) && Progress(start, fills0, taker) && trades0 == TradesOf(fills0)
      requires Crosses(taker.View(), level.price) && taker.remainingQuote <= MAX_INT64
      modifies taker`remaining, taker`filled, taker`avg, taker`remainingQuote
      modifies OrderSet()`remaining, OrderSet()`filled, OrderSet()`avg, OrderSet()`status
      modifies this`active, this`seqNo, BookOf(taker.side.Opposite())`abs, BookOf(taker.side.Opposite()).made
      ensures Valid() && Progress(start, fills, taker) && trades == TradesOf(fills)
      ensures taker.remainingQuote <= old(taker.remainingQuote)
      ensures level.totalQty > 0 ==> AtLevel(taker, level)
      ensures !filled ==> (AtLevel(taker, level) && !CanEat(taker.View(), BookOf(taker.side.Opposite()).abs.queue)
        && BookOf(taker.side.Opposite()).abs == old(BookOf(taker.side.Opposite()).abs))
      ensures filled ==>
        0 <= TotalQty(BookOf(taker.side.Opposite()).abs.queue) < TotalQty(old(BookOf(taker.side.Opposite()).abs.queue))
    {
      hide FillHead, BookOk, EngineModel.EngOk, IndexOk, OrderBook.LevelsHold, Indexes, ActiveOk, MatchBook,
        Continues, Recorded, Popped, FillQty, CanEat, TotalQty, Made, Affords, TradesOf;
      var book := BookOf(taker.side.Opposite());
      LevelMaker(taker, level);
      var maker := level.orders[0];
      var n := ChooseQty(taker, maker);
      PositiveFill(taker.View(), book.abs.queue, n);
      if n <= 0 {
        return false, trades0, fills0;
      }
      ghost var b := book.abs;
      var trade;
      ghost var fill;
      trade, fill := Advance(taker, level, maker, n, start, fills0);
      StillAtLevel(taker, level, b, n);
      TradesPush(fills0, fill);
      return true, trades0 + [trade], fills0 + [fill];
    }

    /** The taker has nothing left to match with. */
    predicate Done(taker: Order)
      reads taker`remaining, taker`remainingQuote
    {
      if taker.side.Buy? && taker.typ.Market? then taker.remainingQuote <= 0 else taker.remaining <= 0
    }

    /**
     `match`: take the best opposite level while the taker is not exhausted and the price
     crosses. The outcome is the value-level matching loop's, fill for fill.
     */
    method Match(taker: Order, ghost start: Start) returns (trades: seq<Trade>, ghost fills: seq<Fill>)
      requires Valid() && Progress(start, [], taker) && taker.remainingQuote <= MAX_INT64
      modifies taker`remaining, taker`filled, taker`avg, taker`remainingQuote
      modifies OrderSet()`remaining, OrderSet()`filled, OrderSet()`avg, OrderSet()`status
      modifies this`active, this`seqNo, BookOf(taker.side.Opposite())`abs, BookOf(taker.side.Opposite())`hp
      modifies BookOf(taker.side.Opposite()).made
      ensures Valid() && Progress(start, fills, taker) && trades == TradesOf(fills)
      ensures MatchBook(start.t0, start.b0, start.s0) == Matched(taker.View(), BookOf(taker.side.Opposite()).abs, fills)
    {
      hide FillHead, BookOk, EngineModel.EngOk, IndexOk, OrderBook.LevelsHold, Indexes, ActiveOk, MatchBook,
        Continues, Recorded, Popped, FillQty, CanEat, TotalQty, Made, Affords;
      var book := BookOf(taker.side.Opposite());
      trades, fills := [], [];
      while true
        invariant Valid() && Progress(start, fills, taker) && trades == TradesOf(fills)
        invariant taker.remainingQuote <= MAX_INT64
        decreases TotalQty(book.abs.queue)
      {
        if Done(taker) {
          Stop(start, fills, taker);
          break;
        }
        var level := FindBest(taker, start, fills);
        if level == null || !AcceptsPrice(taker, level.price) {
          NoCross(taker.View(), book.abs.queue);
          Stop(start, fills, taker);
          break;
        }
        var consumed;
        consumed, trades, fills := ConsumeLevel(taker, level, trades, start, fills);
        if !consumed {
          Stop(start, fills, taker);
          break;
        }
      }
    }

    predicate AcceptsPrice(taker: Order, price: int) {
      taker.typ.Limit? ==> if taker.side.Buy? then price <= taker.price else price >= taker.price
    }

    lemma Stop(start: Start, fills: seq<Fill>, taker: Order)
      requires Valid() && Progress(start, fills, taker)
      requires var b := BookOf(taker.side.Opposite()).abs;
        Exhausted(taker.View()) || (Popped(b) == b && !CanEat(taker.View(), b.queue))
      ensures MatchBook(start.t0, start.b0, start.s0) == Matched(taker.View(), BookOf(taker.side.Opposite()).abs, fills)
    {
      ContinuesStops(start.t0, start.b0, start.s0, fills, taker.View(), BookOf(taker.side.Opposite()).abs);
    }

    /** Asking for the best level changes only which empty levels the heap still holds. */
    method FindBest(taker: Order, ghost start: Start, ghost fills: seq<Fill>) returns (level: PriceLevel?)
      requires Valid() && Progress(start, fills, taker) && !Exhausted(taker.View())
      modifies BookOf(taker.side.Opposite())`abs, BookOf(taker.side.Opposite())`hp
      ensures Valid() && Progress(start, fills, taker)
      ensures level != null ==> AtLevel(taker, level)
      ensures level == null ==> BookOf(taker.side.Opposite()).abs.queue == []
      ensures Popped(BookOf(taker.side.Opposite()).abs) == BookOf(taker.side.Opposite()).abs
      ensures BookOf(taker.side.Opposite()).abs.queue == old(BookOf(taker.side.Opposite()).abs.queue)
    {
      hide BookOk, EngineModel.EngOk, IndexOk, OrderBook.LevelsHold, Indexes, MatchBook, Continues, Recorded,
        Popped, ActiveOk;
      var book := BookOf(taker.side.Opposite());
      ghost var e, side, b := Abs(), taker.side.Opposite(), book.abs;
      PoppedEngine(e, side);
      ContinuesPopped(start.t0, start.b0, start.s0, fills, taker.View(), b);
      ActiveFacts();
      level := book.Best();
      assert Abs() == e.WithBook(side, Popped(b));
      ActiveSame(e);
    }

    // ---- fill or kill ----

    /**
     `canFullyFill`: visit the levels of the opposite book in any order; the answer is
     always whether all crossing quantity together covers the order.
     */
    method CanFullyFill(o: Order) returns (ok: bool)
      requires Valid() && o.remaining > 0
      ensures ok <==> EngineModel.CrossQty(o.View(), BookOf(o.side.Opposite()).abs.Resting()) >= o.remaining
    {
      hide BookOk, EngineModel.EngOk, IndexOk, OrderBook.LevelsHold, Indexes, ActiveOk, CrossIn, TotalQty, AtPrice,
        EngineModel.CrossQty;
      var book := BookOf(o.side.Opposite());
      var need := o.remaining;
      var rest := book.levels.Keys;
      ghost var v, r, seen := o.View(), book.abs.Resting(), {};
      CrossInNone(v, r);
      while rest != {}
        invariant rest <= book.levels.Keys && seen == book.levels.Keys - rest
        invariant need == o.remaining - CrossIn(v, r, seen) && need > 0
        decreases rest
      {
        ghost var some := Sets.Member(rest);
        var p :| p in rest;
        var l := book.levels[p];
        book.LevelTotal(p);
        CrossInAdd(v, r, seen, p);
        CrossInBound(v, r, seen + {p});
        rest := rest - {p};
        seen := seen + {p};
        if l.totalQty > 0 && AcceptsPrice(o, l.price) {
          need := need - l.totalQty;
          if need <= 0 {
            return true;
          }
        }
      }
      book.AllListed();
      CrossInBound(v, r, seen);
      return false;
    }

    // ---- submit ----

    /** What a submit or cancel may touch, the submitted order aside. */
    ghost function Books(): set<object>
      reads bids`made, asks`made
    {
      {bids, asks} + bids.made + asks.made
    }

    ghost function Beginning(o: Order): Start
      reads this`seqNo, this`active, bids`abs, asks`abs, bids`orders, asks`orders, o, OrderSet()
    {
      Start(o.View(), BookOf(o.side.Opposite()).abs, seqNo, map x | x in OrderSet() :: x.View(), active)
    }

    lemma BeginningIsProgress(o: Order)
      requires Valid() && o !in OrderSet()
      ensures Progress(Beginning(o), [], o)
    {
      ContinuesStart(o.View(), BookOf(o.side.Opposite()).abs, seqNo);
    }

    /** The engine's state after matching and before the order rests. */
    lemma Matched1(e: EngineModel.Eng, v: OrderVal, fills: seq<Fill>, taker: Order)
      requires EngineModel.EngOk(e) && !e.Active(v.id) && EngineModel.Submittable(v)
      requires e.BookOf(v.side) == BookOf(v.side).abs && v.side == taker.side
      requires MatchBook(v, e.BookOf(v.side.Opposite()), e.seqNo)
           == Matched(taker.View(), BookOf(v.side.Opposite()).abs, fills)
      requires seqNo == e.seqNo + |fills|
      ensures Abs() == EngineModel.AfterMatch(e, v) && !Abs().Active(v.id)
      ensures SameOrder(v, taker.View()) && taker.filled == v.qty - taker.remaining
      ensures v.typ.Limit? ==> taker.remaining >= 0
      ensures EngineModel.EngOk(Abs())
    {
      EngineModel.AfterMatchOk(e, v);
      EngineModel.MatchBookFacts(v, e.BookOf(v.side.Opposite()), e.seqNo);
    }

    /** Settle the status of a matched order and let it rest if it may. */
    method Conclude(o: Order) returns (reject: Option<Error>)
      requires Valid() && o !in OrderSet() && !Abs().Active(o.id)
      requires o.typ.Limit? || o.typ.Market?
      requires o.typ.Limit? ==> o.remaining >= 0
      modifies o`status, this`active, BookOf(o.side), BookOf(o.side).made
      ensures Valid()
      ensures var t := old(o.View()).(status := EngineModel.FinalStatus(old(o.View())));
        && o.View() == t && reject == EngineModel.FinalReject(old(o.View()))
        && (if EngineModel.Rests(t)
            then Abs() == old(Abs()).WithBook(o.side, AddOrder(old(BookOf(o.side).abs), t))
              && OrderSet() == old(OrderSet()) + {o}
                 && active == old(active)[o.id := o]
            else Abs() == old(Abs()) && OrderSet() == old(OrderSet()) && active == old(active))
      ensures fresh(Books() - old(Books())) && seqNo == old(seqNo)
    {
      hide BookOk, EngineModel.EngOk, IndexOk, OrderBook.LevelsHold, Indexes, ActiveOk, AddOrder, HasId;
      reject := None;
      if o.typ.Market? {
        o.status := Filled;
        if o.filled == 0 {
          o.status := Rejected;
          reject := Some(InsufficientQty);
        }
      } else if o.remaining == 0 {
        o.status := Filled;
      } else if o.tif.IOC? {
        o.status := Expired;
      } else {
        o.status := if o.filled > 0 then PartiallyFilled else New;
        Rest(o);
      }
    }

    method Rest(o: Order)
      requires Valid() && o !in OrderSet() && !Abs().Active(o.id) && o.typ.Limit? && o.remaining > 0
      modifies this`active, BookOf(o.side), BookOf(o.side).made
      ensures Valid() && OrderSet() == old(OrderSet()) + {o}
      ensures Abs() == old(Abs()).WithBook(o.side, AddOrder(old(BookOf(o.side).abs), o.View()))
      ensures fresh(Books() - old(Books())) && active == old(active)[o.id := o]
    {
      hide BookOk, EngineModel.EngOk, IndexOk, OrderBook.LevelsHold, Indexes, ActiveOk, AddOrder, AllActive;
      ghost var e := Abs();
      var book := BookOf(o.side);
      RestEngine(e, o.View());
      ActiveFacts();
      RestingIds();
      bids.LevelFacts();
      asks.LevelFacts();
      book.Add(o);
      active := active[o.id := o];
      assert Abs() == e.WithBook(o.side, AddOrder(e.BookOf(o.side), o.View()));
      IndexesGrows((bids, o));
      IndexesGrows((asks, o));
      ActiveNow(e, o.id);
    }

    lemma ActiveNow(e: EngineModel.Eng, id0: OrderId)
      requires forall id :: id in active <==> e.Active(id) || id == id0
      requires forall id :: Abs().Active(id) <==> e.Active(id) || id == id0
      ensures ActiveOk()
    {
    }

    /** Every order in a level of the book is the active order of its id. */
    ghost predicate AllActive(b: OrderBook)
      reads this`active, b`levels, set p | p in b.levels :: b.levels[p]
    {
      forall p, i :: p in b.levels && 0 <= i < |b.levels[p].orders| ==>
        b.levels[p].orders[i].id in active && active[b.levels[p].orders[i].id] == b.levels[p].orders[i]
    }

    lemma RestingIds()
      requires Valid()
      ensures AllActive(bids) && AllActive(asks)
    {
      forall p, i | p in bids.levels && 0 <= i < |bids.levels[p].orders| {
        RestingIsActive(bids, p, i);
      }
      forall p, i | p in asks.levels && 0 <= i < |asks.levels[p].orders| {
        RestingIsActive(asks, p, i);
      }
    }

    /** An order with a new id, added to one level and to the index, shadows none. */
    twostate lemma IndexesGrows(added: (OrderBook, Order))
      requires var (b, o) := added;
        && old(AllActive(b)) && o.id !in old(active) && active == old(active)[o.id := o]
        && (forall p :: p in b.levels ==>
              if p in old(b.levels)
              then b.levels[p].orders == old(b.levels[p].orders) || b.levels[p].orders == old(b.levels[p].orders) + [o]
              else b.levels[p].orders == [o])
      ensures Indexes(added.0)
    {
      var (b, o) := added;
      forall p, i | p in b.levels && 0 <= i < |b.levels[p].orders|
        ensures b.levels[p].orders[i] == o
          || (b.levels[p].orders[i].id in old(active) && old(active)[b.levels[p].orders[i].id] == b.levels[p].orders[i])
      {
        if p in old(b.levels) && i < |old(b.levels[p].orders)| {
          assert b.levels[p].orders[i] == old(b.levels[p].orders)[i];
        }
      }
    }

    /**
     `submit`: the whole effect of one order on the objects is the value-level submit, and
     the trades reported are its trades.
     */
    method Submit(o: Order) returns (trades: seq<Trade>, reject: Option<Error>, ghost fills: seq<Fill>)
      requires Valid() && o !in OrderSet()
      requires EngineModel.Submittable(o.View()) && o.remainingQuote <= MAX_INT64
      modifies o`remaining, o`filled, o`avg, o`remainingQuote, o`status
      modifies OrderSet()`remaining, OrderSet()`filled, OrderSet()`avg, OrderSet()`status
      modifies this`active, this`seqNo, Books()
      ensures Valid() && fresh(Books() - old(Books()))
      ensures (Abs(), EngineModel.Outcome(o.View(), fills, reject)) == EngineModel.Submit(old(Abs()), old(o.View()))
      ensures trades == TradesOf(fills)
      ensures old(OrderSet()) <= OrderSet() <= old(OrderSet()) + {o}
      ensures forall x :: x in old(OrderSet()) ==>
        x.View() ==
          if x.id in old(active) && old(active)[x.id] == x then Patched(old(x.View()), fills) else old(x.View())
    {
      hide BookOk, IndexOk, OrderBook.LevelsHold, Indexes, ActiveOk, MatchBook, AddOrder, EngineModel.EngOk,
        EngineModel.CrossQty, HasId, EngineModel.Submit, EngineModel.Submittable;
      ghost var e, v := Abs(), o.View();
      EngOkNow();
      ActiveFacts();
      LimitHasQuantity(v);
      fills := [];
      if o.id in active {
        SubmitRefused(e, v, DuplicateOrder);
        o.status := Rejected;
        return [], Some(DuplicateOrder), [];
      }
      if o.typ.OtherType? {
        SubmitRefused(e, v, InvalidOrder);
        o.status := Rejected;
        return [], Some(InvalidOrder), [];
      }
      if o.typ.Limit? && o.tif.FOK? {
        var enough := CanFullyFill(o);
        if !enough {
          SubmitRefused(e, v, InsufficientQty);
          o.status := Rejected;
          return [], Some(InsufficientQty), [];
        }
      }
      trades, reject, fills := Accept(o);
    }

    lemma ScreenedType(v: OrderVal, crossing: int)
      requires EngineModel.Screen(v, false, crossing).None?
      ensures v.typ.Limit? || v.typ.Market?
    {
    }

    lemma RecordedViews(start: Start, fills: seq<Fill>)
      requires Recorded(start, fills)
      ensures forall x :: x in start.views ==>
        x.View() ==
          if x.id in start.active0 && start.active0[x.id] == x then Patched(start.views[x], fills) else start.views[x]
    {
    }

    lemma LimitHasQuantity(v: OrderVal)
      requires EngineModel.Submittable(v)
      ensures v.typ.Limit? ==> v.remaining > 0
    {
    }

    /** A submit that passed the checks: match, then conclude. */
    method Accept(o: Order) returns (trades: seq<Trade>, reject: Option<Error>, ghost fills: seq<Fill>)
      requires Valid() && o !in OrderSet() && !Abs().Active(o.id)
      requires EngineModel.Submittable(o.View()) && o.remainingQuote <= MAX_INT64
      requires var crossing := EngineModel.CrossQty(o.View(), BookOf(o.side.Opposite()).abs.Resting());
        EngineModel.Screen(o.View(), false, crossing).None?
      modifies o`remaining, o`filled, o`avg, o`remainingQuote, o`status
      modifies OrderSet()`remaining, OrderSet()`filled, OrderSet()`avg, OrderSet()`status
      modifies this`active, this`seqNo, Books()
      ensures Valid() && fresh(Books() - old(Books()))
      ensures (Abs(), EngineModel.Outcome(o.View(), fills, reject)) == EngineModel.Submit(old(Abs()), old(o.View()))
      ensures trades == TradesOf(fills)
      ensures old(OrderSet()) <= OrderSet() <= old(OrderSet()) + {o}
      ensures forall x :: x in old(OrderSet()) ==>
        x.View() ==
          if x.id in old(active) && old(active)[x.id] == x then Patched(old(x.View()), fills) else old(x.View())
    {
      hide BookOk, IndexOk, OrderBook.LevelsHold, Indexes, ActiveOk, MatchBook, AddOrder, EngineModel.EngOk,
        EngineModel.CrossQty, Recorded, HasId, Continues, EngineModel.Submit, EngineModel.AfterMatch,
        EngineModel.Screen;
      ghost var e, v, start := Abs(), o.View(), Beginning(o);
      BeginningIsProgress(o);
      EngOkNow();
      trades, fills := Match(o, start);
      Matched1(e, v, fills, o);
      ScreenedType(v, EngineModel.CrossQty(v, e.BookOf(v.side.Opposite()).Resting()));
      RecordedViews(start, fills);
      label Concluding:
      reject := Conclude(o);
      SubmitIs(e, v, old@Concluding(o.View()), fills);
    }

    lemma EngOkNow()
      requires Valid()
      ensures EngineModel.EngOk(Abs()) && Open(Abs().BookOf(Buy).queue) && Open(Abs().BookOf(Sell).queue)
    {
    }

    // ---- cancel ----

    /** The active order of an id is at rest, in its own side's book, at its own price. */
    lemma ActiveRests(id: OrderId)
      requires Valid() && id in active
      ensures var o := active[id]; var book := BookOf(o.side);
        && o.id == id && o in book.orders && o.price in book.levels && o in book.levels[o.price].orders
        && HasId(book.abs.Resting(), id) && EngineModel.Find(book.abs.Resting(), id) == o.View()
    {
      ActiveFacts();
      if HasId(bids.abs.Resting(), id) {
        RestsIn(bids, id);
      } else {
        RestsIn(asks, id);
      }
    }

    lemma RestsIn(book: OrderBook, id: OrderId)
      requires Valid() && (book == bids || book == asks) && HasId(book.abs.Resting(), id)
      ensures id in active && book == BookOf(active[id].side)
      ensures var o := active[id];
        && o.id == id && o in book.orders && o.price in book.levels && o in book.levels[o.price].orders
        && EngineModel.Find(book.abs.Resting(), id) == o.View()
    {
      var r := book.abs.Resting();
      var k := EngineModel.FindAt(r, id);
      var j := AtPriceHasId(r, k);
      book.AllListed();
      assert r[k] in r;
      book.LevelSize(r[k].price);
      book.Owns(r[k].price, j);
      RestingIsActive(book, r[k].price, j);
      SideOf(book.abs, k);
    }

    /**
     `Cancel`: an active order is always found in its book, so the cancel succeeds exactly
     for active orders; only that order changes.
     */
    method Cancel(id: OrderId) returns (canceled: Order?)
      requires Valid()
      modifies OrderSet()`status, this`active, Books()
      ensures Valid() && Books() <= old(Books()) && OrderSet() == old(OrderSet())
      ensures Abs() == EngineModel.Cancel(old(Abs()), id).0
      ensures canceled == null <==> EngineModel.Cancel(old(Abs()), id).1.None?
      ensures canceled != null ==> (id in old(active) && canceled == old(active)[id]
        && EngineModel.Cancel(old(Abs()), id).1 == Some(canceled.View()))
      ensures forall x :: x in old(OrderSet()) && x != canceled ==> x.View() == old(x.View())
    {
      hide BookOk, EngineModel.EngOk, IndexOk, OrderBook.LevelsHold, Indexes, ActiveOk, HasId, RemoveOrder,
        EngineModel.Find, EngineModel.Cancel;
      ActiveFacts();
      EngOkNow();
      CancelEngine(Abs(), id);
      if id !in active {
        return null;
      }
      canceled := active[id];
      ActiveRests(id);
      CancelIs(Abs(), id, canceled.side);
      CancelActive(canceled);
    }

    /** Take an active order out of its book and out of the index. */
    method TakeOut(o: Order)
      requires Valid() && o.id in active && active[o.id] == o
      modifies this`active, BookOf(o.side)`levels, BookOf(o.side)`abs, BookOf(o.side).made
      ensures Valid() && Abs() == EngineModel.Cancel(old(Abs()), o.id).0 && !Abs().Active(o.id)
    {
      hide BookOk, EngineModel.EngOk, IndexOk, OrderBook.LevelsHold, Indexes, ActiveOk, HasId, RemoveOrder,
        EngineModel.Find, EngineModel.Cancel, OrderBook.Valid;
      ghost var e := Abs();
      EngOkNow();
      ActiveFacts();
      ActiveRests(o.id);
      CancelEngine(e, o.id);
      CancelIs(e, o.id, o.side);
      bids.LevelFacts();
      asks.LevelFacts();
      var book := BookOf(o.side);
      var found := book.Remove(o);
      if !found {
        assert false;  // an active order is always in its book
      }
      active := active - {o.id};
      IndexesSpliced(bids);
      IndexesSpliced(asks);
      assert Abs() == EngineModel.Cancel(e, o.id).0;
      ActiveWithout(Abs());
    }

    method CancelActive(o: Order)
      requires Valid() && o.id in active && active[o.id] == o
      modifies o`status, this`active, BookOf(o.side)`levels, BookOf(o.side)`abs, BookOf(o.side).made
      ensures Valid() && Abs() == EngineModel.Cancel(old(Abs()), o.id).0
      ensures o.View() == old(o.View()).(status := Canceled)
    {
      hide BookOk, EngineModel.EngOk, IndexOk, OrderBook.LevelsHold, Indexes, ActiveOk, HasId, RemoveOrder,
        EngineModel.Find, EngineModel.Cancel, OrderBook.Valid;
      ActiveRests(o.id);
      TakeOut(o);
      BookOf(o.side).MarkCanceled(o);
    }

    lemma ActiveWithout(e: EngineModel.Eng)
      requires forall id :: id in active <==> e.Active(id)
      requires Abs() == e
      ensures ActiveOk()
    {
    }

    /** Taking orders out of levels, and ids out of the index, shadows none. */
    twostate lemma IndexesSpliced(b: OrderBook)
      requires old(Indexes(b))
      requires forall id :: id in active ==> id in old(active) && active[id] == old(active)[id]
      requires forall p :: p in b.levels ==> p in old(b.levels)
      requires forall p, i :: p in b.levels && 0 <= i < |b.levels[p].orders| ==>
        b.levels[p].orders[i] in old(b.levels[p].orders)
      ensures Indexes(b)
    {
    }

    lemma ActiveSame(e: EngineModel.Eng)
      requires forall id :: id in active <==> e.Active(id)
      requires forall id :: Abs().Active(id) <==> e.Active(id)
      ensures ActiveOk()
    {
    }
  }

  lemma NoCross(t: OrderVal, q: seq<OrderVal>)
    requires q != [] ==> !Crosses(t, q[0].price)
    ensures !CanEat(t, q)
  {
  }

  lemma RestEngine(e: EngineModel.Eng, o: OrderVal)
    requires EngineModel.EngOk(e) && !e.Active(o.id) && o.remaining > 0 && o.typ.Limit?
    ensures CanRest(e.BookOf(o.side), o)
    ensures var e' := e.WithBook(o.side, AddOrder(e.BookOf(o.side), o));
      EngineModel.EngOk(e') && forall id :: e'.Active(id) <==> e.Active(id) || id == o.id
  {
    AddOk(e.BookOf(o.side), o);
    forall id {
      EngineModel.AddIds(e.BookOf(o.side), o, id);
    }
  }

  /** A submit that passed the checks, as the match followed by the conclusion. */
  lemma SubmitIs(e: EngineModel.Eng, v: OrderVal, t: OrderVal, fills: seq<Fill>)
    requires EngineModel.EngOk(e) && !e.Active(v.id)
    requires EngineModel.Screen(v, false, EngineModel.CrossQty(v, e.BookOf(v.side.Opposite()).Resting())).None?
    requires var r := MatchBook(v, e.BookOf(v.side.Opposite()), e.seqNo); r.taker == t && r.fills == fills
    ensures var e1 := EngineModel.AfterMatch(e, v);
      var t' := t.(status := EngineModel.FinalStatus(t));
      EngineModel.Submit(e, v) ==
        (if EngineModel.Rests(t') then e1.WithBook(v.side, AddOrder(e1.BookOf(v.side), t')) else e1,
         EngineModel.Outcome(t', fills, EngineModel.FinalReject(t)))
  {
    hide MatchBook, AddOrder, EngineModel.CrossQty;
    EngineModel.BookOkIn(e, v.side.Opposite());
  }

  lemma SubmitRefused(e: EngineModel.Eng, v: OrderVal, err: Error)
    requires EngineModel.EngOk(e)
    requires EngineModel.Screen(v, e.Active(v.id), EngineModel.CrossQty(v, e.BookOf(v.side.Opposite()).Resting()))
           == Some(err)
    ensures EngineModel.Submit(e, v) == (e, EngineModel.Refuse(v, err))
  {
    hide MatchBook, AddOrder, EngineModel.CrossQty;
    EngineModel.BookOkIn(e, v.side.Opposite());
  }

  lemma SideOf(b: Book, k: nat)
    requires BookOk(b) && k < |b.Resting()|
    ensures b.Resting()[k].side.Buy? == b.isBid
  {
  }

  lemma CancelEngine(e: EngineModel.Eng, id: OrderId)
    requires EngineModel.EngOk(e)
    ensures var c := EngineModel.Cancel(e, id);
      && EngineModel.EngOk(c.0) && (c.1.Some? <==> e.Active(id))
      && (forall x :: c.0.Active(x) <==> e.Active(x) && x != id)
      && (!e.Active(id) ==> c.0 == e)
      && !HasId(c.0.bids.Resting(), id) && !HasId(c.0.asks.Resting(), id)
  {
    EngineModel.CancelOk(e, id);
  }

  /** A cancel of an order in one book, as the removal from that book. */
  lemma CancelIs(e: EngineModel.Eng, id: OrderId, side: Side)
    requires EngineModel.EngOk(e) && HasId(e.BookOf(side).Resting(), id)
    ensures var o := EngineModel.Find(e.BookOf(side).Resting(), id);
      EngineModel.Cancel(e, id) ==
        (e.WithBook(side, RemoveOrder(e.BookOf(side), id, o.price)), Some(o.(status := Canceled)))
  {
  }

  lemma PoppedEngine(e: EngineModel.Eng, side: Side)
    requires EngineModel.EngOk(e)
    ensures var b := Popped(e.BookOf(side)); var e' := e.WithBook(side, b);
      && EngineModel.EngOk(e') && Popped(b) == b && b.queue == e.BookOf(side).queue
      && (forall id :: e'.Active(id) <==> e.Active(id))
  {
  }
}
