/**
 The shortest run on which the engine as written leaves the reference: an order comes to
 rest at a price whose level the heap has forgotten, and the next order rests across it.
 */
module Trace {
  import opened Domain
  import opened Matching
  import opened Books
  import opened EngineModel
  import opened Guarantees

  const SELL_90 := Resting(1, Sell, 90, 10)
  const SELL_100 := Resting(2, Sell, 100, 10)
  const SWEEP := Resting(3, Buy, 120, 20)
  const SELL_AGAIN := Resting(4, Sell, 90, 10)
  const BUY_95 := Resting(5, Buy, 95, 5)

  const ONE_ASK := Eng(EmptyBook(true), Book(false, [SELL_90], [], {}, {}), 0)
  const TWO_ASKS := Eng(EmptyBook(true), Book(false, [SELL_90, SELL_100], [], {}, {}), 0)
  // Both levels are empty; the heap has popped 90 but still holds 100.
  const SWEPT := Eng(EmptyBook(true), Book(false, [], [], {100}, {90}), 2)
  // The new ask is in the map but not in the heap.
  const LOST := Eng(EmptyBook(true), Book(false, [], [SELL_AGAIN], {100}, {90}), 2)

  lemma TwoSells()
    ensures Submit(EMPTY_ENGINE, SELL_90).0 == ONE_ASK
    ensures Submit(ONE_ASK, SELL_100).0 == TWO_ASKS
  {
  }

  const HALF_SWEPT := Taken(SWEEP, 90, 10)
  const SPENT := Taken(HALF_SWEPT, 100, 10)
  const ONE_LEFT := Book(false, [SELL_100], [], {90}, {})

  /** The second fill: the heap pops the empty level 90 on the way to 100. */
  lemma SecondHalf()
    ensures var r := MatchBook(HALF_SWEPT, ONE_LEFT, 1);
      r.taker == SPENT && r.book == SWEPT.asks && |r.fills| == 1
  {
  }

  lemma FirstHalf()
    ensures var r := MatchBook(SWEEP, TWO_ASKS.asks, 0);
      r.taker == SPENT && r.book == SWEPT.asks && |r.fills| == 2
  {
    var asks := TWO_ASKS.asks;
    assert asks.queue[1..] == [SELL_100];
    assert AtPrice([SELL_100], 90) == [];
    assert Popped(asks) == asks && FillHead(asks, 10) == ONE_LEFT;
    SecondHalf();
  }

  lemma Sweep()
    ensures Submit(TWO_ASKS, SWEEP).0 == SWEPT
  {
    hide MatchBook;
    FirstHalf();
  }

  lemma RestAgain()
    ensures Submit(SWEPT, SELL_AGAIN).0 == LOST
  {
    assert MatchBook(SELL_AGAIN, SWEPT.bids, 2) == Matched(SELL_AGAIN, SWEPT.bids, []);
  }

  lemma BuyMissesIt()
    ensures !Uncrossed(Submit(LOST, BUY_95).0) && Submit(LOST, BUY_95).1.fills == []
  {
  }

  /** Five submits from the empty engine, after which a bid of 95 rests above an ask of 90. */
  lemma CrossedRun()
    ensures Submit(EMPTY_ENGINE, SELL_90).0 == ONE_ASK
    ensures Submit(ONE_ASK, SELL_100).0 == TWO_ASKS
    ensures Submit(TWO_ASKS, SWEEP).0 == SWEPT
    ensures Submit(SWEPT, SELL_AGAIN).0 == LOST
    ensures !Uncrossed(Submit(LOST, BUY_95).0) && Submit(LOST, BUY_95).1.fills == []
  {
    TwoSells();
    Sweep();
    RestAgain();
    BuyMissesIt();
  }

  // ---- fill or kill ----

  const KILL_95 := OrderVal(5, "trader", Buy, Limit, FOK, 95, 5, 0, 5, 0, 0, 0, New)

  /** The lost ask counts as crossing quantity, and is not reached. */
  lemma KillRests()
    ensures var out := Submit(LOST, KILL_95).1;
      out.reject.None? && out.fills == [] && Rests(out.order) && out.order.remaining == 5
  {
    var asks := LOST.asks;
    assert asks.Resting() == [SELL_AGAIN];
    assert CrossQty(KILL_95, [SELL_AGAIN]) == 10;
    assert MatchBook(KILL_95, asks, 2).taker == KILL_95 && MatchBook(KILL_95, asks, 2).fills == [];
  }

  /** After the same four submits a fill-or-kill order is neither filled nor killed: it rests untouched. */
  lemma FillOrKillRun()
    ensures Submit(EMPTY_ENGINE, SELL_90).0 == ONE_ASK
    ensures Submit(ONE_ASK, SELL_100).0 == TWO_ASKS
    ensures Submit(TWO_ASKS, SWEEP).0 == SWEPT
    ensures Submit(SWEPT, SELL_AGAIN).0 == LOST
    ensures Submittable(KILL_95) && KILL_95.tif.FOK? && Rests(Submit(LOST, KILL_95).1.order)
    ensures Submit(LOST, KILL_95).1.reject.None? && Submit(LOST, KILL_95).1.fills == []
  {
    hide Submit;
    TwoSells();
    Sweep();
    RestAgain();
    KillRests();
  }
}
