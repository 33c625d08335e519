/**
 The shortest runs on which funds come apart. An order is filled as a maker, then cancelled:
 the cancel gives back what the fill already spent, out of the frozen funds of the same
 user's other order, and that order's next trade fails to settle. Told for a bid, where the
 buyer is short and nothing is posted, and for an ask, where the seller is short after the
 buyer's legs are posted. And a user's order that meets another of the same user.
 */
module MakerCancel {
  import opened Wrappers
  import opened Domain
  import opened FixedPoint
  import opened Matching
  import opened Books
  import opened EngineModel
  import opened Ledger
  import opened Conservation
  import opened Settlement
  import opened Exchange
  import opened Solvency
  import opened SolventRuns
  import opened LiveFunds
  import DecimalText

  const PAIR := "BTCUSDT"
  const LOT := 1_000_000
  const BTCUSDT := Market.Market("BTC", "USDT", LOT, 5_000_000_000, true)
  const MARKETS := map[PAIR := BTCUSDT]

  const START := Ex(MARKETS, map[], map[PAIR := EMPTY_ENGINE], EMPTY, map[], map[], 0, map[], 0, {}, map[])

  // Alice places orders on `side`; the user `u` trades against them. All prices are one.
  function Alice(side: Side): Account { Account("alice", BTCUSDT.AssetOf(side)) }

  function Other(side: Side, u: string): Account { Account(u, BTCUSDT.AssetOf(side.Opposite())) }

  /** A limit request for `qty` units at a price of one. */
  function LimitAt(side: Side, qty: int): Request {
    Request(PAIR, side, Limit, GTC, DecimalText.Print(BASE), DecimalText.Print(qty), "")
  }

  function Order(id: OrderId, user: string, side: Side, qty: int): OrderVal {
    OrderVal(id, user, side, Limit, GTC, BASE, qty, 0, qty, 0, 0, 0, New)
  }

  predicate Lots(qty: int) { qty == LOT || qty == 2 * LOT }

  lemma Builds(id: OrderId, user: string, side: Side, qty: int)
    requires Lots(qty)
    ensures Build(BTCUSDT, id, user, LimitAt(side, qty)) == Ok(Order(id, user, side, qty))
  {
    hide DecimalText.Parse, DecimalText.Print;
    DecimalText.RoundTrip(BASE);
    DecimalText.RoundTrip(qty);
  }

  // ---- the engine along the run ----

  function First(side: Side): OrderVal { Order(1, "alice", side, 2 * LOT) }

  function Half(side: Side): OrderVal { Made(First(side), LOT) }

  function Taker(side: Side, u: string): OrderVal { Order(2, u, side.Opposite(), LOT) }

  function Next(side: Side): OrderVal { Order(3, "alice", side, LOT) }

  function LastTaker(side: Side): OrderVal { Order(4, "bob", side.Opposite(), LOT) }

  /** The engine with orders resting on one side only. */
  function Holding(side: Side, q: seq<OrderVal>, n: nat): (e: Eng)
    ensures e.BookOf(side) == Book(side.Buy?, q, [], {}, {})
    ensures e.BookOf(side.Opposite()) == EmptyBook(side.Opposite().Buy?)
  {
    if side.Buy? then Eng(Book(true, q, [], {}, {}), EmptyBook(false), n)
    else Eng(EmptyBook(true), Book(false, q, [], {}, {}), n)
  }

  function FirstFill(side: Side, u: string): Fill {
    Fill(TradeOf(Taker(side, u), First(side), LOT, 1), Half(side))
  }

  function LastFill(side: Side): Fill {
    Fill(TradeOf(LastTaker(side), Next(side), LOT, 2), Made(Next(side), LOT))
  }

  function Completed(o: OrderVal): OrderVal { Taken(o, BASE, LOT).(status := Filled) }

  lemma NothingToMatch(o: OrderVal, isBid: bool, n: nat)
    ensures MatchBook(o, EmptyBook(isBid), n) == Matched(o, EmptyBook(isBid), [])
  {
    assert Popped(EmptyBook(isBid)) == EmptyBook(isBid);
  }

  /** With nothing on the other side, a new order rests behind the orders of its own. */
  lemma RestsBehind(side: Side, q: seq<OrderVal>, n: nat, o: OrderVal)
    requires o.side == side && o.typ.Limit? && o.tif.GTC? && o.status.New? && o.filled == 0 && o.remaining > 0
    requires !HasId(q, o.id)
    ensures Submit(Holding(side, q, n), o) == (Holding(side, Insert(side.Buy?, q, o), n), Outcome(o, [], None))
  {
    hide MatchBook, Insert, HasId;
    NothingToMatch(o, side.Opposite().Buy?, n);
    var e := Holding(side, q, n);
    assert e.bids.Resting() == (if side.Buy? then q else []) && e.asks.Resting() == (if side.Buy? then [] else q);
    NoneIn(o.id);
    assert !e.Active(o.id);
    assert Finish(o, []) == Outcome(o, [], None) && Rests(o);
    assert AddOrder(e.BookOf(side), o) == Book(side.Buy?, Insert(side.Buy?, q, o), [], {}, {});
  }

  lemma NoneIn(id: OrderId)
    ensures !HasId([], id)
  {
  }

  lemma InsertAlone(isBid: bool, o: OrderVal)
    ensures Insert(isBid, [], o) == [o]
  {
    assert [o] + [] == [o];
  }

  lemma InsertBehind(isBid: bool, m: OrderVal, o: OrderVal)
    requires m.price == o.price
    ensures Insert(isBid, [m], o) == [m, o]
  {
    assert [m][1..] == [];
    InsertAlone(isBid, o);
    assert [m] + [o] == [m, o];
  }

  lemma HalfIs(side: Side)
    ensures Half(side).id == 1 && Half(side).price == BASE && Half(side).side == side && Half(side).user == "alice"
    ensures !Half(side).status.Filled? && !Half(side).status.Canceled?
    ensures !HasId([Half(side)], 3)
  {
    hide WeightedAvg;
  }

  lemma FirstRests(side: Side)
    ensures Submit(EMPTY_ENGINE, First(side)) == (Holding(side, [First(side)], 0), Outcome(First(side), [], None))
  {
    hide Submit, HasId, Insert;
    NoneIn(1);
    assert Holding(side, [], 0) == EMPTY_ENGINE;
    InsertAlone(side.Buy?, First(side));
    RestsBehind(side, [], 0, First(side));
  }

  /** A match that the first resting order of a clean book fills at once. */
  lemma MatchesOnce(t: OrderVal, b: Book, n: nat)
    requires Open(b.queue) && b.stale == {} && b.queue != [] && t.typ.Limit? && Crosses(t, b.queue[0].price)
    requires 0 < t.remaining <= b.queue[0].remaining
    ensures var m, k := b.queue[0], t.remaining;
      MatchBook(t, b, n) == Matched(Taken(t, m.price, k), FillHead(b, k), [Fill(TradeOf(t, m, k, n + 1), Made(m, k))])
  {
    var m, k := b.queue[0], t.remaining;
    assert Popped(b) == b;
    AfterFillShrinks(b.queue, k);
    assert MatchBook(Taken(t, m.price, k), FillHead(b, k), n + 1) == Matched(Taken(t, m.price, k), FillHead(b, k), []);
    assert [Fill(TradeOf(t, m, k, n + 1), Made(m, k))] + [] == [Fill(TradeOf(t, m, k, n + 1), Made(m, k))];
  }

  /** A new order filled at once by the only resting one. */
  lemma SubmitFills(side: Side, m: OrderVal, n: nat, t: OrderVal)
    requires t.side == side.Opposite() && t.typ.Limit? && t.tif.GTC? && t.filled == 0 && m.id != t.id
    requires Crosses(t, m.price) && 0 < t.remaining <= m.remaining
    ensures var v := Taken(t, m.price, t.remaining);
      var (e', out) := Submit(Holding(side, [m], n), t);
      && out == Outcome(v.(status := Filled), [Fill(TradeOf(t, m, t.remaining, n + 1), Made(m, t.remaining))], None)
      && (t.remaining < m.remaining ==> e' == Holding(side, [Made(m, t.remaining)], n + 1))
      && (t.remaining == m.remaining ==> forall id :: !e'.Active(id))
  {
    hide MatchBook, Crosses, WeightedAvg;
    var e := Holding(side, [m], n);
    var b := e.BookOf(side);
    assert t.side.Opposite() == side;
    MatchesOnce(t, b, n);
    assert e.bids.Resting() == (if side.Buy? then [m] else []) && e.asks.Resting() == (if side.Buy? then [] else [m]);
    assert !e.Active(t.id);
    var k := t.remaining;
    if k < m.remaining {
      assert AfterFill([m], k) == [Made(m, k)];
      assert FillHead(b, k) == Book(side.Buy?, [Made(m, k)], [], {}, {});
    }
  }

  lemma TakerFills(side: Side, u: string)
    ensures Submit(Holding(side, [First(side)], 0), Taker(side, u))
         == (Holding(side, [Half(side)], 1), Outcome(Completed(Taker(side, u)), [FirstFill(side, u)], None))
  {
    hide Submit, Holding, WeightedAvg;
    SubmitFills(side, First(side), 0, Taker(side, u));
  }

  lemma LastFills(side: Side)
    ensures Submit(Holding(side, [Next(side)], 1), LastTaker(side)).1
         == Outcome(Completed(LastTaker(side)), [LastFill(side)], None)
  {
    hide Submit, Holding, Taken, Made, TradeOf;
    SubmitFills(side, Next(side), 1, LastTaker(side));
  }

  lemma NextRests(side: Side)
    ensures Submit(Holding(side, [Half(side)], 1), Next(side))
         == (Holding(side, [Half(side), Next(side)], 1), Outcome(Next(side), [], None))
  {
    hide Submit, Half, HasId, Insert;
    HalfIs(side);
    InsertBehind(side.Buy?, Half(side), Next(side));
    RestsBehind(side, [Half(side)], 1, Next(side));
  }

  /** Cancelling the first of the resting orders. */
  lemma CancelsFirst(side: Side, o: OrderVal, rest: seq<OrderVal>, n: nat)
    ensures Cancel(Holding(side, [o] + rest, n), o.id) == (Holding(side, rest, n), Some(o.(status := Canceled)))
  {
    var q := [o] + rest;
    var e := Holding(side, q, n);
    assert e.BookOf(side).Resting() == q && e.BookOf(side.Opposite()).Resting() == [];
    assert q[0] == o && q[1..] == rest;
  }

  /** Alice's first order, half filled, leaves whatever rests behind it. */
  lemma FirstCancels(side: Side, rest: seq<OrderVal>)
    ensures Cancel(Holding(side, [Half(side)] + rest, 1), 1)
         == (Holding(side, rest, 1), Some(Half(side).(status := Canceled)))
  {
    hide Cancel, Holding, WeightedAvg;
    CancelsFirst(side, Half(side), rest, 1);
  }

  // ---- the exchange along the run ----

  /** A state of the run: its engine, the two balances that matter, and the last order. */
  ghost predicate At(x: Ex, side: Side, u: string, e: Eng, alice: Balance, other: Balance, last: nat) {
    && ShapeOk(x) && x.markets == MARKETS && PAIR in x.engines && x.engines[PAIR] == e && x.lastOrder == last
    && Get(x.led, Alice(side)) == alice && Get(x.led, Other(side, u)) == other
  }

  function Bal(available: int, frozen: int): Balance { Balance(available * LOT, frozen * LOT) }

  function Stake(user: string, side: Side, frozen: int, spent: int, settled: int): Money {
    Money(user, PAIR, side, true, frozen * LOT, spent * LOT, settled * LOT)
  }

  lemma Unpatched(orders: map<OrderId, OrderVal>)
    ensures PatchAll(orders, []) == orders
  {
  }

  /** The state in which a funded order meets the engine. */
  function Funded(x: Ex, o: OrderVal, a: Account): Ex {
    Store(x.(lastOrder := o.id, led := Freeze(x.led, a, o.qty).0), o, MoneyOf(o, PAIR, true, o.qty))
  }

  lemma Freezes(led: Led, a: Account, qty: int)
    requires 0 < qty <= Get(led, a).available
    ensures Freeze(led, a, qty).1.None?
    ensures forall b :: (Get(Freeze(led, a, qty).0, b) == if b == a
      then Balance(Get(led, a).available - qty, Get(led, a).frozen + qty) else Get(led, b))
  {
  }

  lemma Funds(x: Ex, user: string, side: Side, qty: int, a: Account)
    requires ShapeOk(x) && x.markets == MARKETS && PAIR in x.engines && EngOk(x.engines[PAIR])
    requires Lots(qty) && a == Account(user, BTCUSDT.AssetOf(side)) && Get(x.led, a).available >= qty
    ensures var o := Order(x.lastOrder + 1, user, side, qty);
      && Place(x, user, LimitAt(side, qty)) == Execute(Funded(x, o, a), o, PAIR)
      && (forall b :: (Get(Funded(x, o, a).led, b) == if b == a
            then Balance(Get(x.led, a).available - qty, Get(x.led, a).frozen + qty) else Get(x.led, b)))
  {
    hide Execute, Build, EngOk, ShapeOk, Freeze, Get, Order, Place, FreezeAmount, LimitAt;
    Freezes(x.led, a, qty);
    var o := Order(x.lastOrder + 1, user, side, qty);
    Builds(x.lastOrder + 1, user, side, qty);
    OrderIs(x.lastOrder + 1, user, side, qty);
    LimitAtIs(side, qty);
    PlaceFunds(x, user, LimitAt(side, qty), o, a);
  }

  lemma LimitAtIs(side: Side, qty: int)
    ensures LimitAt(side, qty).market == PAIR && LimitAt(side, qty).typ.Limit?
  {
    hide DecimalText.Print;
  }

  lemma OrderIs(id: OrderId, user: string, side: Side, qty: int)
    requires Lots(qty)
    ensures var o := Order(id, user, side, qty);
      o.id == id && o.user == user && o.side == side && o.qty == qty && FreezeAmount(o) == Some(qty)
  {
    QuotientIs(qty);
  }

  /** A request that builds an order its user can fund is that order's execution. */
  lemma PlaceFunds(x: Ex, user: string, r: Request, o: OrderVal, a: Account)
    requires ShapeOk(x) && x.markets == MARKETS && PAIR in x.engines && EngOk(x.engines[PAIR])
    requires r.market == PAIR && r.typ.Limit? && Build(BTCUSDT, x.lastOrder + 1, user, r) == Ok(o)
    requires o.id == x.lastOrder + 1 && FreezeAmount(o) == Some(o.qty) && a == Account(o.user, BTCUSDT.AssetOf(o.side))
    requires Freeze(x.led, a, o.qty).1.None?
    ensures Place(x, user, r) == Execute(Funded(x, o, a), o, PAIR)
  {
    hide Execute, Build, EngOk, ShapeOk, Freeze, FreezeAmount;
  }

  /** An order that meets no price it accepts only rests. */
  lemma RestsUnfilled(x: Ex, o: OrderVal, e': Eng)
    requires PAIR in x.markets && PAIR in x.engines && EngOk(x.engines[PAIR]) && o.id in x.purse && o.status.New?
    requires o.id in x.orders && x.orders[o.id] == o
    requires Submit(x.engines[PAIR], o) == (e', Outcome(o, [], None))
    ensures Execute(x, o, PAIR) == (x.(engines := x.engines[PAIR := e']), Done(o, []))
  {
    hide Submit, EngOk;
    Unpatched(x.orders);
    assert x.orders[o.id := o] == x.orders;
  }

  /** Alice's order freezes its cost and rests untouched. */
  lemma OrderRests(x: Ex, side: Side, u: string, e: Eng, e': Eng, alice: Balance, other: Balance, qty: int)
    requires At(x, side, u, e, alice, other, x.lastOrder) && Lots(qty) && alice.available >= qty && EngOk(e)
    requires var o := Order(x.lastOrder + 1, "alice", side, qty); Submit(e, o) == (e', Outcome(o, [], None))
    ensures var x', o := Place(x, "alice", LimitAt(side, qty)).0, Order(x.lastOrder + 1, "alice", side, qty);
      && At(x', side, u, e', Balance(alice.available - qty, alice.frozen + qty), other, x.lastOrder + 1)
      && x'.orders == x.orders[o.id := o]
      && x'.purse == x.purse[o.id := Money("alice", PAIR, side, true, qty, 0, 0)]
  {
    hide Submit, Build, ShapeOk, EngOk, Place, Execute, Freeze, Get, LimitAt;
    var o := Order(x.lastOrder + 1, "alice", side, qty);
    PlaceShape(x, "alice", LimitAt(side, qty));
    Funds(x, "alice", side, qty, Alice(side));
    RestsUnfilled(Funded(x, o, Alice(side)), o, e');
  }

  /** A lot for a lot costs both sides a lot. */
  lemma LotCost(t: Trade)
    requires t.price == BASE && t.qty == LOT
    ensures QuoteUnits(t.price, t.qty) == LOT && PriceQtyToQuote(t.price, t.qty) == Some(LOT)
    ensures Cost(Buy, t) == LOT && Cost(Sell, t) == LOT
  {
    QuotientIs(LOT);
  }

  lemma FillTrades(side: Side, u: string)
    ensures var t := FirstFill(side, u).trade;
      && t.price == BASE && t.qty == LOT && t.maker == 1 && t.taker == 2
      && t.makerUser == "alice" && t.takerUser == u && t.makerSide == side && t.takerSide == side.Opposite()
    ensures var t := LastFill(side).trade;
      && t.price == BASE && t.qty == LOT && t.makerUser == "alice" && t.takerUser == "bob"
      && t.makerSide == side && t.takerSide == side.Opposite()
  {
    hide Made, Half, WeightedAvg;
  }

  /** A lot between Alice's and Bob's frozen funds. */
  lemma Settles(led: Led, side: Side, t: Trade)
    requires t.price == BASE && t.qty == LOT && t.makerUser == "alice" && t.takerUser == "bob"
    requires t.makerSide == side && t.takerSide == side.Opposite()
    ensures var (led', err) := SettleTrade(led, t, "BTC", "USDT");
      var a, b := Alice(side), Other(side, "bob");
      && (Get(led, a).frozen >= LOT && Get(led, b).frozen >= LOT ==>
            && err.None?
            && Get(led', a) == Balance(Get(led, a).available, Get(led, a).frozen - LOT)
            && Get(led', b) == Balance(Get(led, b).available, Get(led, b).frozen - LOT))
      && (Get(led, a).frozen < LOT && Get(led, b).frozen >= LOT ==>
            err == Some(SettlementFailed) && (HalfSettles(led, t, "BTC", "USDT") <==> side.Sell?))
  {
    LotCost(t);
  }

  lemma OneFill(led: Led, p: Purse, f: Fill, tf: OrderVal, mk: Market)
    ensures SettleFills(led, p, [f], tf, mk) == SettleOne(led, p, f.trade, tf, mk)
  {
  }

  lemma TakerDone(side: Side, u: string)
    ensures var o := Completed(Taker(side, u)); o.filled == LOT && o.side == side.Opposite() && o.id == 2 && o.user == u
  {
  }

  lemma OneFails(led: Led, p: Purse, t: Trade, tf: OrderVal)
    requires SettleTrade(led, t, "BTC", "USDT").1.Some?
    ensures var (led', err) := SettleTrade(led, t, "BTC", "USDT");
      SettleOne(led, p, t, tf, BTCUSDT) == Settled(led', p, err)
  {
    hide SettleTrade, Cost;
  }

  lemma OneSettles(led: Led, p: Purse, t: Trade, tf: OrderVal)
    requires 1 in p && 2 in p && t.maker == 1 && t.taker == 2 && tf.id == 2 && tf.filled == LOT
    requires tf.side == t.takerSide
    requires Cost(t.makerSide, t) == LOT && Cost(t.takerSide, t) == LOT && p[2].spent == 0
    requires SettleTrade(led, t, "BTC", "USDT").1.None?
    ensures var s := SettleOne(led, p, t, tf, BTCUSDT);
      && s.err.None? && s.led == SettleTrade(led, t, "BTC", "USDT").0
      && s.purse == p[1 := p[1].(settled := p[1].settled + LOT)]
                     [2 := p[2].(settled := p[2].settled + LOT, spent := LOT)]
  {
    hide SettleTrade, Cost;
  }

  /** What settling the first trade does to the money of its two orders. */
  lemma FirstSettles(led: Led, p: Purse, side: Side)
    requires 1 in p && 2 in p && Get(led, Alice(side)).frozen >= LOT && Get(led, Other(side, "bob")).frozen >= LOT
    requires p[2].spent == 0
    ensures var s := SettleOne(led, p, FirstFill(side, "bob").trade, Completed(Taker(side, "bob")), BTCUSDT);
      && s.err.None? && s.led == SettleTrade(led, FirstFill(side, "bob").trade, "BTC", "USDT").0
      && s.purse == p[1 := p[1].(settled := p[1].settled + LOT)]
                     [2 := p[2].(settled := p[2].settled + LOT, spent := LOT)]
  {
    hide SettleTrade, SettleOne, Cost, Completed, FirstFill, Get, Taker;
    var f, tf := FirstFill(side, "bob"), Completed(Taker(side, "bob"));
    FillTrades(side, "bob");
    TakerDone(side, "bob");
    LotCost(f.trade);
    Settles(led, side, f.trade);
    OneSettles(led, p, f.trade, tf);
  }

  function FirstMoney(side: Side): Money { Stake("alice", side, 2, 0, 0) }

  function HalfSpent(side: Side): Money { Stake("alice", side, 2, 0, 1) }

  function TakerMoney(side: Side, u: string): Money { Stake(u, side.Opposite(), 1, 0, 0) }

  function TakerSpent(side: Side): Money { Stake("bob", side.Opposite(), 1, 1, 1) }

  lemma FirstPatched(side: Side, u: string)
    ensures PatchAll(map[1 := First(side), 2 := Taker(side, u)], [FirstFill(side, u)])[2 := Completed(Taker(side, u))]
         == map[1 := Half(side), 2 := Completed(Taker(side, u))]
  {
  }

  lemma TakerReleases(led: Led, p: Purse, side: Side)
    requires 2 in p && p[2] == TakerSpent(side)
    ensures Release(led, p, 2, Other(side, "bob")) == (led, p)
  {
  }

  /** An order with one fill: what executing it comes to. */
  lemma ExecutesFill(y: Ex, o: OrderVal, e': Eng, v: OrderVal, f: Fill)
    requires y.markets == MARKETS && PAIR in y.engines && EngOk(y.engines[PAIR]) && o.id in y.purse
    requires Open(y.engines[PAIR].BookOf(o.side.Opposite()).queue)
    requires Submit(y.engines[PAIR], o) == (e', Outcome(v, [f], None)) && v.status.Filled?
    ensures var s := SettleOne(y.led, y.purse, f.trade, v, BTCUSDT);
      var y' := y.(engines := y.engines[PAIR := e'], orders := PatchAll(y.orders, [f])[o.id := v]);
      var (led, p) := Release(s.led, s.purse, o.id, Account(o.user, BTCUSDT.AssetOf(o.side)));
      Execute(y, o, PAIR) ==
        if s.err.Some? then (y'.(led := s.led, purse := s.purse), Unsettled(v, [f], s.err.value))
        else (y'.(led := led, purse := p), Done(v, [f]))
  {
    hide Submit, EngOk, Execute, SettleOne, SettleFills, Release, PatchAll;
    ExecuteCloses(y, o, PAIR);
    OneFill(y.led, y.purse, f, v, BTCUSDT);
  }

  /** An order whose only fill cannot be settled. */
  lemma ExecutesFails(y: Ex, o: OrderVal, e': Eng, v: OrderVal, f: Fill, led: Led, err: Error)
    requires y.markets == MARKETS && PAIR in y.engines && EngOk(y.engines[PAIR]) && o.id in y.purse
    requires Open(y.engines[PAIR].BookOf(o.side.Opposite()).queue)
    requires Submit(y.engines[PAIR], o) == (e', Outcome(v, [f], None)) && v.status.Filled?
    requires SettleTrade(y.led, f.trade, "BTC", "USDT") == (led, Some(err))
    ensures Execute(y, o, PAIR).0.led == led && Execute(y, o, PAIR).1 == Unsettled(v, [f], err)
  {
    hide Submit, EngOk, Execute, SettleOne, SettleTrade, Release, PatchAll;
    OneFails(y.led, y.purse, f.trade, v);
    ExecutesFill(y, o, e', v, f);
  }

  lemma OpenSides(x: Ex, side: Side)
    requires PAIR in x.engines && EngOk(x.engines[PAIR])
    ensures Open(x.engines[PAIR].BookOf(side).queue)
  {
  }

  lemma TakerIs(side: Side, u: string)
    ensures Taker(side, u).id == 2 && Taker(side, u).user == u && Taker(side, u).side == side.Opposite()
    ensures LastTaker(side).id == 4 && LastTaker(side).user == "bob" && LastTaker(side).side == side.Opposite()
    ensures Taker(side, u).side.Opposite() == side == LastTaker(side).side.Opposite()
    ensures Completed(Taker(side, u)).status.Filled? && Completed(LastTaker(side)).status.Filled?
  {
    hide WeightedAvg;
  }

  lemma TradeExecutes(y: Ex, side: Side)
    requires y.markets == MARKETS && PAIR in y.engines && y.engines[PAIR] == Holding(side, [First(side)], 0)
    requires EngOk(y.engines[PAIR])
    requires y.purse == map[1 := FirstMoney(side), 2 := TakerMoney(side, "bob")]
    requires y.orders == map[1 := First(side), 2 := Taker(side, "bob")]
    requires Get(y.led, Alice(side)).frozen >= LOT && Get(y.led, Other(side, "bob")).frozen >= LOT
    ensures var x' := Execute(y, Taker(side, "bob"), PAIR).0;
      && x'.led == SettleTrade(y.led, FirstFill(side, "bob").trade, "BTC", "USDT").0
      && x'.engines == y.engines[PAIR := Holding(side, [Half(side)], 1)]
      && x'.purse == map[1 := HalfSpent(side), 2 := TakerSpent(side)]
      && x'.orders == map[1 := Half(side), 2 := Completed(Taker(side, "bob"))]
      && x'.lastOrder == y.lastOrder && x'.markets == y.markets
  {
    hide Submit, EngOk, Execute, SettleOne, SettleTrade, Release, PatchAll, Get, Holding, FirstFill, Completed, Taker,
      First, Half,
      Open;
    TakerFills(side, "bob");
    TakerIs(side, "bob");
    OpenSides(y, side);
    FirstSettles(y.led, y.purse, side);
    FirstPatched(side, "bob");
    ExecutesFill(y, Taker(side, "bob"), Holding(side, [Half(side)], 1), Completed(Taker(side, "bob")), FirstFill(side,
      "bob"));
    var s := SettleOne(y.led, y.purse, FirstFill(side, "bob").trade, Completed(Taker(side, "bob")), BTCUSDT);
    TakerReleases(s.led, s.purse, side);
  }

  /** Bob's order fills half of Alice's. */
  lemma TradeFills(x: Ex, side: Side)
    requires At(x, side, "bob", Holding(side, [First(side)], 0), Bal(1, 2), Bal(2, 0), 1)
    requires x.purse == map[1 := FirstMoney(side)] && x.orders == map[1 := First(side)]
    ensures var x' := Place(x, "bob", LimitAt(side.Opposite(), LOT)).0;
      && At(x', side, "bob", Holding(side, [Half(side)], 1), Bal(1, 1), Bal(1, 0), 2)
      && x'.purse == map[1 := HalfSpent(side), 2 := TakerSpent(side)]
      && x'.orders == map[1 := Half(side), 2 := Completed(Taker(side, "bob"))]
  {
    hide Submit, Build, ShapeOk, EngOk, Place, Execute, Freeze, SettleTrade, Get, LimitAt, Made, Taken, Holding,
      FirstFill;
    PlaceShape(x, "bob", LimitAt(side.Opposite(), LOT));
    EngineSound(x);
    Funds(x, "bob", side.Opposite(), LOT, Other(side, "bob"));
    var y := Funded(x, Taker(side, "bob"), Other(side, "bob"));
    assert y.purse == map[1 := FirstMoney(side), 2 := TakerMoney(side, "bob")];
    assert y.orders == map[1 := First(side), 2 := Taker(side, "bob")];
    TradeExecutes(y, side);
    FillTrades(side, "bob");
    Settles(y.led, side, FirstFill(side, "bob").trade);
  }

  lemma EngineSound(x: Ex)
    requires ShapeOk(x) && PAIR in x.engines
    ensures EngOk(x.engines[PAIR])
  {
  }

  /** The cancel gives back both lots of an order that already spent one of them. */
  lemma CancelOverpays(x: Ex, side: Side)
    requires At(x, side, "bob", Holding(side, [Half(side), Next(side)], 1), Bal(0, 2), Bal(1, 0), 3)
    requires 1 in x.purse && x.purse[1] == HalfSpent(side) && 1 in x.orders && x.orders[1] == Half(side)
    ensures var (x', r) := CancelOrder(x, "alice", 1);
      && At(x', side, "bob", Holding(side, [Next(side)], 1), Bal(2, 0), Bal(1, 0), 3) && r.Ok?
      && !Careful(x, CancelCall("alice", 1))
  {
    hide Cancel, ShapeOk, EngOk, Holding, Half, Next, CancelOrder, Release;
    CancelShape(x, "alice", 1);
    assert [Half(side)] + [Next(side)] == [Half(side), Next(side)];
    FirstCancels(side, [Next(side)]);
    HalfIs(side);
    Cancels(x, "alice", 1, Holding(side, [Next(side)], 1), Half(side).(status := Canceled));
    Releases(x.led, x.purse, side);
  }

  lemma Cancels(x: Ex, user: string, id: OrderId, e': Eng, v: OrderVal)
    requires ShapeOk(x) && id in x.purse && id in x.orders && x.orders[id].user == user && x.purse[id].market == PAIR
    requires !x.orders[id].status.Filled? && !x.orders[id].status.Canceled?
    requires PAIR in x.engines && x.markets == MARKETS && Cancel(x.engines[PAIR], id) == (e', Some(v))
    ensures var (led, p) := Release(x.led, x.purse, id, x.AccountOf(x.purse[id]));
      CancelOrder(x, user, id) ==
        (x.(engines := x.engines[PAIR := e'], led := led, purse := p, orders := x.orders[id := v]), Ok(v))
  {
    hide Cancel, ShapeOk, Release;
  }

  /** The release of two lots, where two lots are frozen. */
  lemma Releases(led: Led, p: Purse, side: Side)
    requires 1 in p && p[1] == HalfSpent(side) && Get(led, Alice(side)) == Bal(0, 2)
    ensures var led' := Release(led, p, 1, Alice(side)).0;
      Get(led', Alice(side)) == Bal(2, 0) && Get(led', Other(side, "bob")) == Get(led, Other(side, "bob"))
  {
    hide Unfreeze;
    Unfreezes(led, side);
  }

  lemma Unfreezes(led: Led, side: Side)
    requires Get(led, Alice(side)) == Bal(0, 2)
    ensures Get(Unfreeze(led, Alice(side), 2 * LOT).0, Alice(side)) == Bal(2, 0)
    ensures Get(Unfreeze(led, Alice(side), 2 * LOT).0, Other(side, "bob")) == Get(led, Other(side, "bob"))
  {
  }

  /** The other order's fill finds no frozen funds left; an ask stops half-way, after the buyer's legs. */
  lemma LastTradeFails(x: Ex, side: Side)
    requires At(x, side, "bob", Holding(side, [Next(side)], 1), Bal(2, 0), Bal(1, 0), 3) && LedgerOk(x.led)
    ensures var (z, r) := Place(x, "bob", LimitAt(side.Opposite(), LOT));
      && r == Unsettled(Completed(LastTaker(side)), [LastFill(side)], SettlementFailed)
      && (Conserved(z.led) <==> side.Buy?)
  {
    hide Submit, Build, ShapeOk, EngOk, Place, Execute, Get, LimitAt, Made, Taken, Holding, HalfSettles, SettleTrade,
      Reconciled, Conserved, Freeze, LastFill, Completed;
    EngineSound(x);
    Funds(x, "bob", side.Opposite(), LOT, Other(side, "bob"));
    var y := Funded(x, LastTaker(side), Other(side, "bob"));
    FreezeFacts(x.led, Other(side, "bob"), LOT);
    FillTrades(side, "bob");
    Settles(y.led, side, LastFill(side).trade);
    LastFills(side);
    TakerIs(side, "bob");
    OpenSides(y, LastTaker(side).side.Opposite());
    ExecutesFails(y, LastTaker(side), Submit(y.engines[PAIR], LastTaker(side)).0, Completed(LastTaker(side)),
      LastFill(side),
      SettleTrade(y.led, LastFill(side).trade, "BTC", "USDT").0, SettlementFailed);
    SettleConservesExact(y.led, LastFill(side).trade, "BTC", "USDT");
  }

  // ---- the run ----

  function AlicePays(side: Side): Call { DepositCall("alice", BTCUSDT.AssetOf(side), 3 * LOT) }

  function OtherPays(side: Side, u: string): Call { DepositCall(u, BTCUSDT.AssetOf(side.Opposite()), 2 * LOT) }

  function FirstCall(side: Side): Call { PlaceCall("alice", LimitAt(side, 2 * LOT)) }

  function TradeCall(side: Side): Call { PlaceCall("bob", LimitAt(side.Opposite(), LOT)) }

  function NextCall(side: Side): Call { PlaceCall("alice", LimitAt(side, LOT)) }

  const CANCEL := CancelCall("alice", 1)

  lemma Deposits(x: Ex, a: Account, qty: int)
    requires qty > 0
    ensures Get(Deposit(x.led, a, qty).0, a) == Balance(Get(x.led, a).available + qty, Get(x.led, a).frozen)
    ensures forall b :: b != a ==> Get(Deposit(x.led, a, qty).0, b) == Get(x.led, b)
  {
  }

  /** Both users' deposits. */
  lemma Opens(side: Side, u: string)
    ensures Opening(START) && ShapeOk(START)
    ensures var x1 := Step(START, AlicePays(side));
      && ShapeOk(x1)
      && At(Step(x1, OtherPays(side, u)), side, u, EMPTY_ENGINE, Bal(3, 0), Bal(2, 0), 0)
      && Step(x1, OtherPays(side, u)).purse == map[] && Step(x1, OtherPays(side, u)).orders == map[]
  {
    EmptyOk();
    hide EngOk, Deposit, Get;
    var x1 := Step(START, AlicePays(side));
    StepShape(START, AlicePays(side));
    StepShape(x1, OtherPays(side, u));
    EmptyBalances(START.led);
    Deposits(START, Alice(side), 3 * LOT);
    Deposits(x1, Other(side, u), 2 * LOT);
  }

  lemma EmptyBalances(led: Led)
    requires led == EMPTY
    ensures forall a :: Get(led, a) == ZERO
  {
  }

  lemma StepIs(x: Ex, c: Call)
    requires ShapeOk(x)
    ensures c.PlaceCall? ==> Step(x, c) == Place(x, c.user, c.req).0
    ensures c.CancelCall? ==> Step(x, c) == CancelOrder(x, c.user, c.id).0
  {
    hide Place, CancelOrder, ShapeOk, EngOk;
  }

  lemma FirstPlaced(x: Ex, side: Side, u: string)
    requires At(x, side, u, EMPTY_ENGINE, Bal(3, 0), Bal(2, 0), 0) && x.purse == map[] && x.orders == map[]
    ensures var x' := Step(x, FirstCall(side));
      && At(x', side, u, Holding(side, [First(side)], 0), Bal(1, 2), Bal(2, 0), 1)
      && x'.purse == map[1 := FirstMoney(side)] && x'.orders == map[1 := First(side)]
  {
    hide Place, Step, EngOk, ShapeOk, Submit, Holding, Made, LimitAt, Get;
    EngineSound(x);
    StepIs(x, FirstCall(side));
    FirstRests(side);
    assert Order(x.lastOrder + 1, "alice", side, 2 * LOT) == First(side);
    OrderRests(x, side, u, EMPTY_ENGINE, Holding(side, [First(side)], 0), Bal(3, 0), Bal(2, 0), 2 * LOT);
  }

  lemma NextPlaced(x: Ex, side: Side)
    requires HalfFilled(x, side)
    ensures var x' := Step(x, NextCall(side));
      && At(x', side, "bob", Holding(side, [Half(side), Next(side)], 1), Bal(0, 2), Bal(1, 0), 3)
      && 1 in x'.purse && x'.purse[1] == HalfSpent(side) && 1 in x'.orders && x'.orders[1] == Half(side)
  {
    hide Place, Step, EngOk, ShapeOk, Submit, Holding, Made, LimitAt, Get;
    EngineSound(x);
    StepIs(x, NextCall(side));
    NextRests(side);
    assert Order(x.lastOrder + 1, "alice", side, LOT) == Next(side);
    OrderRests(x, side, "bob", Holding(side, [Half(side)], 1), Holding(side, [Half(side), Next(side)], 1),
      Bal(1, 1), Bal(1, 0),
      LOT);
  }

  /** A run of one call more. */
  lemma RunFirst(x: Ex, c: Call, calls: seq<Call>)
    requires ShapeOk(x)
    ensures ShapeOk(Step(x, c))
    ensures Run(x, [c] + calls) == Run(Step(x, c), calls)
    ensures PrudentRun(x, [c] + calls) <==> Careful(x, c) && PrudentRun(Step(x, c), calls)
  {
    StepShape(x, c);
    assert ([c] + calls)[1..] == calls;
  }

  /** Deposits, Alice's order, and Bob's that fills half of it. */
  function FourCalls(side: Side): seq<Call> {
    [AlicePays(side)] + ([OtherPays(side, "bob")] + ([FirstCall(side)] + ([TradeCall(side)] + [])))
  }

  /** Half of Alice's order is filled, and nothing else rests. */
  ghost predicate HalfFilled(x: Ex, side: Side) {
    && At(x, side, "bob", Holding(side, [Half(side)], 1), Bal(1, 1), Bal(1, 0), 2)
    && 1 in x.purse && x.purse[1] == HalfSpent(side) && 1 in x.orders && x.orders[1] == Half(side)
  }

  lemma RunNone(x: Ex)
    requires ShapeOk(x)
    ensures Run(x, []) == x && PrudentRun(x, [])
  {
    hide ShapeOk;
  }

  lemma RunFour(side: Side)
    ensures Opening(START) && ShapeOk(START) && PrudentRun(START, FourCalls(side))
    ensures HalfFilled(Run(START, FourCalls(side)), side)
  {
    hide Place, CancelOrder, Step, EngOk, ShapeOk, Opening, Made, Holding, Bal, HalfSpent, TakerSpent, FirstMoney,
      First,
      Run, PrudentRun, Half, Taker, Completed, At;
    Opens(side, "bob");
    RunFirst(START, AlicePays(side), [OtherPays(side, "bob")] + ([FirstCall(side)] + ([TradeCall(side)] + [])));
    var x1 := Step(START, AlicePays(side));
    RunFirst(x1, OtherPays(side, "bob"), [FirstCall(side)] + ([TradeCall(side)] + []));
    var x2 := Step(x1, OtherPays(side, "bob"));
    FirstPlaced(x2, side, "bob");
    RunFirst(x2, FirstCall(side), [TradeCall(side)] + []);
    var x3 := Step(x2, FirstCall(side));
    StepIs(x3, TradeCall(side));
    TradeFills(x3, side);
    RunFirst(x3, TradeCall(side), []);
    RunNone(Step(x3, TradeCall(side)));
  }

  /**
   Cancelling the half-filled order at once is careless, but harmless: the ledger refuses to
   give back two lots where one is frozen, and everything live stays covered.
   */
  lemma HarmlessCancel(side: Side)
    ensures Opening(START) && ShapeOk(START)
    ensures var x := Run(START, FourCalls(side));
      && CancelOrder(x, "alice", 1).1.Ok? && !Careful(x, CANCEL) && !Inv(Step(x, CANCEL))
      && LiveSound(x) && LiveSound(Step(x, CANCEL))
      && forall a :: Get(Step(x, CANCEL).led, a) == Get(x.led, a)
  {
    hide Run, ShapeOk, Inv, Opening, FourCalls, At, Holding, Bal, HalfSpent, TakerSpent, Half, Careful, LiveSound,
      Step, Get,
      CancelOrder, PrudentRun, Completed, Taker, HalfFilled;
    RunFour(side);
    OpeningSound(START);
    PrudentRunSound(START, FourCalls(side));
    HarmlessAt(Run(START, FourCalls(side)), side);
  }

  lemma HarmlessAt(x: Ex, side: Side)
    requires Inv(x) && HalfFilled(x, side)
    ensures CancelOrder(x, "alice", 1).1.Ok? && !Careful(x, CANCEL) && !Inv(Step(x, CANCEL))
    ensures LiveSound(x) && LiveSound(Step(x, CANCEL)) && forall a :: Get(Step(x, CANCEL).led, a) == Get(x.led, a)
  {
    hide ShapeOk, Inv, LiveSound, Holding, Cancel, CancelOrder, Affordable, Careful, Half, HalfSpent, Bal, Get, Step;
    assert [Half(side)] + [] == [Half(side)];
    FirstCancels(side, []);
    CancelRefusedBack(x, side);
    StepExact(x, CANCEL);
    SoundIsLive(x);
    CancelCovers(x, "alice", 1);
  }

  lemma SoundIsLive(x: Ex)
    requires Inv(x)
    ensures LiveSound(x)
  {
    hide Inv, LiveSound;
    SameFlags(x);
    LiveFrom(x, x);
  }

  lemma CancelRefusedBack(x: Ex, side: Side)
    requires HalfFilled(x, side)
    requires Cancel(Holding(side, [Half(side)], 1), 1).1 == Some(Half(side).(status := Canceled))
    ensures var (x', r) := CancelOrder(x, "alice", 1);
      && r.Ok? && !Careful(x, CANCEL) && Step(x, CANCEL) == x' && x.purse[1].market in x.markets
      && Affordable(x, x.purse[1]) && forall a :: Get(x'.led, a) == Get(x.led, a)
  {
    hide Cancel, ShapeOk, EngOk, Holding, Spare, Half, CancelOrder;
    HalfIs(side);
    Cancels(x, "alice", 1, Cancel(x.engines[PAIR], 1).0, Half(side).(status := Canceled));
    StepIs(x, CANCEL);
  }

  function SixCalls(side: Side): seq<Call> {
    FourCalls(side) + ([NextCall(side)] + ([CANCEL] + []))
  }

  lemma {:induction false} RunAppend(x: Ex, calls: seq<Call>, more: seq<Call>)
    requires ShapeOk(x)
    ensures Run(x, calls + more) == Run(Run(x, calls), more)
    decreases |calls|
  {
    hide ShapeOk, Step;
    if calls == [] {
      assert calls + more == more;
    } else {
      StepShape(x, calls[0]);
      assert (calls + more)[1..] == calls[1..] + more && (calls + more)[0] == calls[0];
      RunAppend(Step(x, calls[0]), calls[1..], more);
    }
  }

  lemma RunSix(side: Side)
    ensures Opening(START) && ShapeOk(START)
    ensures var x := Run(START, SixCalls(side));
      At(x, side, "bob", Holding(side, [Next(side)], 1), Bal(2, 0), Bal(1, 0), 3) && LedgerOk(x.led)
  {
    hide Place, CancelOrder, Step, EngOk, ShapeOk, Opening, Made, Holding, Bal, HalfSpent, TakerSpent, Inv, LiveSound,
      LedgerOk, FourCalls;
    RunFour(side);
    RunAppend(START, FourCalls(side), [NextCall(side)] + ([CANCEL] + []));
    var x4 := Run(START, FourCalls(side));
    OpeningSound(START);
    PrudentRunSound(START, FourCalls(side));
    NextPlaced(x4, side);
    RunFirst(x4, NextCall(side), [CANCEL] + []);
    var x5 := Step(x4, NextCall(side));
    StepExact(x4, NextCall(side));
    SoundIsLive(x5);
    StepIs(x5, CANCEL);
    CancelOverpays(x5, side);
    RunFirst(x5, CANCEL, []);
    CancelKeepsRest(x5, "alice", 1);
  }

  /**
   Two deposits, three orders and a cancel lead from the empty exchange to a state in which
   an ordinary trade between two different users fails to settle, because the cancel gave
   back funds its order had already spent. That state does not cover its live orders. If
   Alice sells, the failed settlement stops half-way, and base is no longer conserved.
   */
  lemma MakerCancelBreaks(side: Side)
    ensures Opening(START) && ShapeOk(START)
    ensures var x := Run(START, SixCalls(side));
      var (z, r) := Place(x, "bob", LimitAt(side.Opposite(), LOT));
      && r == Unsettled(Completed(LastTaker(side)), [LastFill(side)], SettlementFailed)
      && NoSelfTrade([LastFill(side)]) && !Inv(x) && !LiveSound(x)
      && Conserved(x.led) && (Conserved(z.led) <==> side.Buy?)
  {
    hide Place, Run, ShapeOk, Inv, Opening, LiveSound, LastFill, Completed, LastTaker, LimitAt, Holding, At, SixCalls,
      Conserved,
      Reconciled, NoSelfTrade, Bal, Next;
    RunSix(side);
    var x := Run(START, SixCalls(side));
    LastTradeFails(x, side);
    LastDiffer(side);
    FailureUncovers(x, "bob", LimitAt(side.Opposite(), LOT));
  }

  lemma LastDiffer(side: Side)
    ensures NoSelfTrade([LastFill(side)])
  {
    hide LastFill;
    FillTrades(side, "bob");
  }

  /** In a covered exchange no settlement fails for want of funds. */
  lemma FailureUncovers(x: Ex, user: string, r: Request)
    requires ShapeOk(x) && Place(x, user, r).1.Unsettled? && Place(x, user, r).1.err == SettlementFailed
    ensures !LiveSound(x) && !Inv(x)
  {
    hide Place, ShapeOk, Inv, LiveSound, Step;
    if Inv(x) {
      SoundIsLive(x);
    }
    if LiveSound(x) {
      StepCovers(x, PlaceCall(user, r));
    }
  }

  // ---- a user meets itself ----

  function ThreeCalls(side: Side): seq<Call> {
    [AlicePays(side)] + ([OtherPays(side, "alice")] + ([FirstCall(side)] + []))
  }

  lemma RunThree(side: Side)
    ensures Opening(START) && ShapeOk(START) && PrudentRun(START, ThreeCalls(side))
    ensures var x := Run(START, ThreeCalls(side));
      && At(x, side, "alice", Holding(side, [First(side)], 0), Bal(1, 2), Bal(2, 0), 1)
      && x.purse == map[1 := FirstMoney(side)]
  {
    hide Place, CancelOrder, Step, EngOk, ShapeOk, Opening, Made, Holding, Bal, FirstMoney, First;
    Opens(side, "alice");
    RunFirst(START, AlicePays(side), [OtherPays(side, "alice")] + ([FirstCall(side)] + []));
    var x1 := Step(START, AlicePays(side));
    RunFirst(x1, OtherPays(side, "alice"), [FirstCall(side)] + []);
    var x2 := Step(x1, OtherPays(side, "alice"));
    FirstPlaced(x2, side, "alice");
    RunFirst(x2, FirstCall(side), []);
  }

  lemma SelfExecutes(y: Ex, side: Side)
    requires y.markets == MARKETS && PAIR in y.engines && y.engines[PAIR] == Holding(side, [First(side)], 0)
    requires EngOk(y.engines[PAIR]) && 2 in y.purse
    ensures Execute(y, Taker(side, "alice"), PAIR).1
         == Unsettled(Completed(Taker(side, "alice")), [FirstFill(side, "alice")], InvalidOrder)
  {
    hide Submit, EngOk, Execute, SettleTrade, SettleOne, Release, PatchAll, Holding, FirstFill, Get, Completed, Taker,
      First, Half,
      Open;
    TakerFills(side, "alice");
    TakerIs(side, "alice");
    OpenSides(y, Taker(side, "alice").side.Opposite());
    FillTrades(side, "alice");
    SelfRefused(y.led, FirstFill(side, "alice").trade);
    ExecutesFails(y, Taker(side, "alice"), Holding(side, [Half(side)], 1), Completed(Taker(side, "alice")),
      FirstFill(side, "alice"), y.led, InvalidOrder);
  }

  lemma SelfRefused(led: Led, t: Trade)
    requires t.price == BASE && t.qty == LOT && t.makerUser == t.takerUser
    ensures SettleTrade(led, t, "BTC", "USDT") == (led, Some(InvalidOrder))
  {
    LotCost(t);
  }

  /** Alice's second order matches her first; the trade is made and never settles. */
  lemma SelfTradeUnsettled(side: Side)
    ensures Opening(START) && ShapeOk(START)
    ensures var x := Run(START, ThreeCalls(side));
      && Inv(x)
      && Place(x, "alice", LimitAt(side.Opposite(), LOT)).1
           == Unsettled(Completed(Taker(side, "alice")), [FirstFill(side, "alice")], InvalidOrder)
  {
    hide Place, Execute, Run, ShapeOk, EngOk, Inv, Opening, FirstFill, Holding, Freeze, Get, LimitAt;
    RunThree(side);
    OpeningSound(START);
    PrudentRunSound(START, ThreeCalls(side));
    var x := Run(START, ThreeCalls(side));
    EngineSound(x);
    Funds(x, "alice", side.Opposite(), LOT, Other(side, "alice"));
    SelfExecutes(Funded(x, Taker(side, "alice"), Other(side, "alice")), side);
  }
}
