/**
 The order service as the program runs it: order objects shared with the engines, one
 object engine a market, and the asset service it shares with the wallet. Every method is
 proved to take the exchange where the functions of `Exchange` say.
 */
module OrderService {
  import opened Wrappers
  import opened Domain
  import opened FixedPoint
  import opened Matching
  import opened EngineModel
  import opened Ledger
  import opened Settlement
  import opened Exchange
  import opened AssetService
  import opened LevelHeap
  import opened MatchingEngine
  import opened EngineRoom
  import Books
  import DecimalText
  import Solvency
  import SolventRuns

  class OrderService {
    const assets: AssetService
    const room: EngineRoom
    const markets: map<string, Market>
    var orders: map<OrderId, Order>
    var purse: Purse
    var lastOrder: nat

    /** `NewService`, over the engines and the ledger of the opening state. */
    constructor (assets: AssetService, room: EngineRoom, markets: map<string, Market>, ghost x: Ex)
      requires SolventRuns.Opening(x) && x.markets == markets && x.lastOrder == 0
      requires room.Running(x.engines) && room.AllOrders() == {} && assets.Valid() && assets.Abs() == x.led
      requires assets !in room.AllParts() && assets.Cells() == {}
      ensures this.assets == assets && this.room == room && At(x) && room.AllParts() == old(room.AllParts())
    {
      hide EngineRoom.Running, EngineRoom.AllParts, EngineRoom.AllOrders, EngineRoom.AllBooks, AssetService.Valid,
        AssetService.Abs;
      room.BooksIn();
      room.AllAllocated();
      this.assets, this.room, this.markets := assets, room, markets;
      orders, purse, lastOrder := map[], map[], 0;
    }

    /** The wiring of the services: empty ledger, one empty engine a market, and the order service over them. */
    static method Start(markets: map<string, Market>, ghost x: Ex) returns (service: OrderService)
      requires SolventRuns.Opening(x) && x.markets == markets && x.lastOrder == 0
      ensures fresh(service) && fresh(service.assets) && fresh(service.room.AllParts()) && service.At(x)
    {
      hide Empty, Parts, EngineRoom.Running, AssetService.Valid, AssetService.Abs;
      var assets := new AssetService();
      var room := EngineRoom.Build(markets.Keys);
      assert (map s | s in room.engines :: EMPTY_ENGINE) == x.engines;
      service := new OrderService(assets, room, markets, x);
    }

    ghost function OrderObjects(): set<Order>
      reads this`orders
    {
      set id | id in orders :: orders[id]
    }

    /** Every order an engine ever held is a stored one. */
    ghost predicate Stored()
      reads this`orders, room.AllBooks()
    {
      forall y :: y in room.AllOrders() ==> y.id in orders && orders[y.id] == y
    }

    /** The stored orders are where `xs` says. */
    ghost predicate Views(xs: map<OrderId, OrderVal>)
      reads this`orders, OrderObjects()
    {
      orders.Keys == xs.Keys && forall id :: id in orders ==> orders[id].id == id && orders[id].View() == xs[id]
    }

    /** The engines share no object with the service or its ledger. */
    ghost predicate Detached()
      reads assets, room.AllBooks()
    {
      && this !in room.AllParts() && assets !in room.AllParts()
      && forall c :: c in assets.Cells() ==> c !in room.AllParts()
    }

    /** Orders and engines are where the state `x` says. */
    ghost predicate OrdersAt(x: Ex)
      reads this`orders, this`lastOrder, OrderObjects(), room.AllBooks(), room.AllParts()
    {
      markets == x.markets && lastOrder == x.lastOrder && room.Running(x.engines) && Stored() && Views(x.orders)
    }

    /** The money is where the state `x` says. */
    ghost predicate MoneyAt(x: Ex)
      reads this`purse, assets, assets.Cells()
    {
      purse == x.purse && assets.Valid() && assets.Abs() == x.led
    }

    /** The service, its engines and its ledger are where the state `x` says. */
    ghost predicate At(x: Ex)
      reads this, OrderObjects(), room.AllBooks(), room.AllParts(), assets, assets.Cells()
    {
      OrdersAt(x) && MoneyAt(x) && Detached()
    }

    /** `storeOrder`. */
    method StoreOrder(o: Order, m: Money)
      modifies this`orders, this`purse
      ensures orders == old(orders)[o.id := o] && purse == old(purse)[o.id := m]
    {
      orders, purse := orders[o.id := o], purse[o.id := m];
    }

    /** What the caller of a place call is handed, as the reply describes it. */
    ghost predicate Told(placed: Order?, trades: seq<Trade>, err: Option<Error>, reply: PlaceReply)
      reads if placed == null then {} else {placed}
    {
      match reply
      case Refused(None, e) => placed == null && trades == [] && err == Some(e)
      case Refused(Some(v), e) => placed != null && placed.View() == v && trades == [] && err == Some(e)
      case Unsettled(v, fills, e) => placed != null && placed.View() == v && trades == TradesOf(fills) && err == Some(e)
      case Done(v, fills) => placed != null && placed.View() == v && trades == TradesOf(fills) && err == None
    }

    // ---- matching ----

    /** An active order of an engine is the stored order of its id. */
    lemma ActiveStored(s: string, id: OrderId)
      requires s in room.engines && room.engines[s].Valid() && Stored() && room.engines[s].Abs().Active(id)
      ensures var e := room.engines[s];
        id in e.active && e.active[id] in e.OrderSet() && id in orders && orders[id] == e.active[id]
    {
      hide Engine.Valid, Engine.Abs, Eng.Active;
      var e := room.engines[s];
      e.ActiveFacts();
      EngineRoom.KnownActive(e, id);
      room.PartsIn(s);
    }

    /** The stored order of an id that the engine's index does not give is named by no fill. */
    lemma NotNamed(s: string, o: OrderVal, id: OrderId)
      requires s in room.engines && room.engines[s].Valid() && Stored() && Submittable(o)
      requires EngOk(room.engines[s].Abs())
      requires id in orders && !EngineRoom.WasActiveIn(room.engines[s], orders[id]) && orders[id].id == id
      ensures var fills := Submit(room.engines[s].Abs(), o).1.fills;
        forall i :: 0 <= i < |fills| ==> fills[i].maker.id != id
    {
      hide Engine.Valid, Engine.Abs, Submit, EngOk, Submittable, Eng.Active;
      var e := room.engines[s].Abs();
      FillsActive(e, o);
      if e.Active(id) {
        ActiveStored(s, id);
      }
    }

    /** What fills leave of a stored order that none of them names. */
    lemma Unpatched(v: OrderVal, fills: seq<Fill>)
      requires forall i :: 0 <= i < |fills| ==> fills[i].maker.id != v.id
      ensures Patched(v, fills) == v
    {
    }

    /** The stored orders an engine keeps, and those of them its index gives. */
    lemma Bystanders(s: string, o: Order, x: Ex)
      requires OrdersAt(x) && s in room.engines && Submittable(o.View()) && EngOk(room.engines[s].Abs())
      ensures var e, fills := room.engines[s], Submit(room.engines[s].Abs(), o.View()).1.fills;
        forall id :: id in orders && !EngineRoom.WasActiveIn(e, orders[id]) ==>
          orders[id].id == id && Patched(x.orders[id], fills) == x.orders[id]
      ensures var e := room.engines[s];
        forall id :: id in orders && orders[id] !in e.OrderSet() ==>
          orders[id] !in Parts(e) && !EngineRoom.WasActiveIn(e, orders[id])
    {
      hide Engine.Valid, Engine.Abs, Submit, EngOk, Submittable, Eng.Active;
      room.SoundIn(s);
      BookOkIn(room.engines[s].Abs(), o.side.Opposite());
      var e, fills := room.engines[s], Submit(room.engines[s].Abs(), o.View()).1.fills;
      forall id | id in orders && !EngineRoom.WasActiveIn(e, orders[id])
        ensures Patched(x.orders[id], fills) == x.orders[id]
      {
        NotNamed(s, o.View(), id);
        Unpatched(x.orders[id], fills);
      }
      EngineRoom.OrdersOfParts(e);
      forall id | id in orders && orders[id] !in e.OrderSet()
        ensures !EngineRoom.WasActiveIn(e, orders[id])
      {
        EngineRoom.KnownActive(e, id);
      }
    }

    twostate lemma StillStored(o: Order)
      requires old(Stored()) && orders == old(orders) && o.id in orders && orders[o.id] == o
      requires forall y :: y in room.AllOrders() ==> y in old(room.AllOrders()) || y == o
      ensures Stored()
    {
    }

    lemma PatchedViews(xs: map<OrderId, OrderVal>, o: Order, fills: seq<Fill>)
      requires orders.Keys == xs.Keys && o.id in orders && orders[o.id] == o
      requires forall id :: id in orders ==> orders[id].id == id
      requires forall id :: id in orders && id != o.id ==> orders[id].View() == Patched(xs[id], fills)
      ensures Views(PatchAll(xs, fills)[o.id := o.View()])
    {
      hide Patched;
    }

    /** Submit to the market's engine, and follow what happens to every stored order. */
    method SubmitOrder(o: Order, market: string, ghost x: Ex)
      returns (trades: seq<Trade>, reject: Option<Error>, ghost fills: seq<Fill>)
      requires OrdersAt(x) && Detached() && market in x.engines
      requires o.id in orders && orders[o.id] == o && o !in room.AllParts()
      requires Submittable(o.View()) && o.remainingQuote <= MAX_INT64 && EngOk(x.engines[market])
      modifies o, Parts(room.engines[market])
      ensures Outcome(o.View(), fills, reject) == Submit(x.engines[market], old(o.View())).1
      ensures trades == TradesOf(fills)
      ensures OrdersAt(x.(engines := x.engines[market := Submit(x.engines[market], old(o.View())).0],
          orders := PatchAll(x.orders, fills)[o.id := o.View()]))
      ensures fresh(room.AllParts() - old(room.AllParts()) - {o})
    {
      hide Engine.Valid, Engine.Abs, Submit, EngOk, Submittable, Eng.Active, Patched, Parts, EngineRoom.AllParts,
        EngineRoom.AllBooks, EngineRoom.AllOrders, EngineRoom.WasActiveIn, PatchAll, Stored;
      var e := room.engines[market];
      room.PartsIn(market);
      Bystanders(market, o, x);
      EngineRoom.OwnOrders(e);
      trades, reject, fills := room.SubmitApart(market, e, o);
      forall id | id in orders && id != o.id
        ensures orders[id].View() == Patched(x.orders[id], fills)
      {
        assert orders[id] in old(e.OrderSet()) || orders[id] !in old(Parts(e));
      }
      room.Resumes((market, x.engines));
      room.RoomGrew(market);
      StillStored(o);
      PatchedViews(x.orders, o, fills);
    }

    // ---- settling ----

    /** Settle one trade, and record what it cost the taker. */
    method SettleFill(t: Trade, taker: Order, mk: Market) returns (err: Option<Error>)
      requires assets.Valid() && taker.id in purse
      modifies this`purse, assets, assets.Cells()
      ensures assets.Valid() && fresh(assets.Cells() - old(assets.Cells())) && taker.id in purse
      ensures Settled(assets.Abs(), purse, err) == SettleOne(old(assets.Abs()), old(purse), t, taker.View(), mk)
    {
      hide AssetService.Valid, AssetService.Abs, Ledger.SettleTrade, QuoteUnits;
      ghost var led := assets.Abs();
      err := assets.SettleTrade(t, mk.base, mk.quote);
      if err.Some? {
        return;
      }
      SettledAmount(led, t, mk);
      // What was settled against the two orders: kept by the model, not by the program.
      purse := Charge(Charge(purse, t.maker, Cost(t.makerSide, t)), t.taker, Cost(t.takerSide, t));
      RecordSpent(t, taker);
    }

    /** `SpentUnits`: a buyer adds the trade's amount, a seller takes what the engine filled. */
    method RecordSpent(t: Trade, taker: Order)
      requires taker.id in purse && PriceQtyToQuote(t.price, t.qty).Some?
      modifies this`purse
      ensures purse == Record(old(purse), taker.View(), Cost(taker.side, t))
    {
      var m := purse[taker.id];
      if taker.side.Buy? {
        var spent := PriceQtyToQuote(t.price, t.qty);
        purse := purse[taker.id := m.(spent := m.spent + spent.value)];
      } else {
        purse := purse[taker.id := m.(spent := taker.filled)];
      }
    }

    lemma SettledAmount(led: Led, t: Trade, mk: Market)
      requires Ledger.SettleTrade(led, t, mk.base, mk.quote).1.None?
      ensures PriceQtyToQuote(t.price, t.qty) == Some(QuoteUnits(t.price, t.qty))
    {
    }

    /** The settlement loop: one trade at a time, until one fails. */
    method SettleAll(trades: seq<Trade>, taker: Order, mk: Market, ghost fills: seq<Fill>) returns (err: Option<Error>)
      requires assets.Valid() && taker.id in purse && trades == TradesOf(fills)
      modifies this`purse, assets, assets.Cells()
      ensures assets.Valid() && fresh(assets.Cells() - old(assets.Cells()))
      ensures Settled(assets.Abs(), purse, err) == SettleFills(old(assets.Abs()), old(purse), fills, taker.View(), mk)
    {
      hide AssetService.Valid, AssetService.Abs, SettleOne;
      for i := 0 to |trades|
        invariant assets.Valid() && fresh(assets.Cells() - old(assets.Cells())) && taker.id in purse
        invariant SettleFills(assets.Abs(), purse, fills[i..], taker.View(), mk)
               == SettleFills(old(assets.Abs()), old(purse), fills, taker.View(), mk)
      {
        assert fills[i..][0].trade == trades[i] && fills[i..][1..] == fills[i + 1..];
        var failed := SettleFill(trades[i], taker, mk);
        if failed.Some? {
          return failed;
        }
      }
      return None;
    }

    /** `unfreezeRemaining`. */
    method ReleaseOrder(id: OrderId, a: Account)
      requires assets.Valid() && id in purse
      modifies this`purse, assets, assets.Cells()
      ensures assets.Valid() && fresh(assets.Cells() - old(assets.Cells()))
      ensures (assets.Abs(), purse) == Release(old(assets.Abs()), old(purse), id, a)
    {
      var rest := purse[id].frozen - purse[id].spent;
      if rest <= 0 {
        return;
      }
      var ignored := assets.Unfreeze(a, rest);
      purse := purse[id := purse[id].(frozen := purse[id].frozen - rest)];
    }

    /** Settle an accepted order's trades; one that does not rest gets back what it did not spend. */
    method SettleOrder(o: Order, trades: seq<Trade>, market: string, ghost fills: seq<Fill>)
      returns (err: Option<Error>)
      requires assets.Valid() && o.id in purse && market in markets && trades == TradesOf(fills)
      modifies this`purse, assets, assets.Cells()
      ensures assets.Valid() && fresh(assets.Cells() - old(assets.Cells()))
      ensures var s := SettleFills(old(assets.Abs()), old(purse), fills, o.View(), markets[market]);
        && err == s.err
        && (assets.Abs(), purse) == (if s.err.Some? || Rests(o.View()) then (s.led, s.purse)
             else Release(s.led, s.purse, o.id, Account(o.user, markets[market].AssetOf(o.side))))
    {
      hide SettleFills, Release, AssetService.Valid, AssetService.Abs;
      err := SettleAll(trades, o, markets[market], fills);
      if err.None? && !(o.status.New? || o.status.PartiallyFilled?) {
        ReleaseOrder(o.id, Account(o.user, markets[market].AssetOf(o.side)));
      }
    }

    // ---- placing ----

    lemma RefusedUnfilled(e: Eng, o: OrderVal)
      requires EngOk(e) && o.filled == 0
      ensures Open(e.BookOf(o.side.Opposite()).queue)
      ensures var out := Submit(e, o).1;
        && out.order.id == o.id && out.order.user == o.user && out.order.side == o.side
        && (out.reject.Some? ==> out.fills == [] && out.order.status.Rejected?)
    {
      hide Books.MatchBook, Books.AddOrder;
      MatchBookFacts(o, e.BookOf(o.side.Opposite()), e.seqNo);
    }

    lemma PatchedNone(xs: map<OrderId, OrderVal>)
      ensures PatchAll(xs, []) == xs
    {
    }

    /** What the state says of the markets and the purse. */
    lemma Known(x: Ex)
      requires At(x)
      ensures markets == x.markets && purse == x.purse && room.engines.Keys == x.engines.Keys && assets.Valid()
      ensures assets.Abs() == x.led
    {
      hide EngineRoom.Sound, Views, Stored, AssetService.Valid, AssetService.Abs;
    }

    lemma Arrives(x: Ex, y: Ex)
      requires OrdersAt(x) && Detached() && assets.Valid() && y == x.(led := assets.Abs(), purse := purse)
      ensures At(y)
    {
      hide EngineRoom.Running, Views, Stored, AssetService.Valid, AssetService.Abs;
    }

    /**
     What the engine's answer `out` leaves to do: release if it refused, else settle, and
     release unless the order rests.
     */
    ghost predicate Closes(x: Ex, out: Outcome, market: string, led: Led, p: Purse, err: Option<Error>)
      requires market in x.markets && out.order.id in x.purse
    {
      var a := Account(out.order.user, x.markets[market].AssetOf(out.order.side));
      if out.reject.Some? then err == out.reject && (led, p) == Release(x.led, x.purse, out.order.id, a)
      else
        var s := SettleFills(x.led, x.purse, out.fills, out.order, x.markets[market]);
        && err == s.err
        && (led, p) == if s.err.Some? || Rests(out.order) then (s.led, s.purse)
                       else Release(s.led, s.purse, out.order.id, a)
    }

    /** The state after matching, and before any money moves. */
    ghost function Matched(x: Ex, o: OrderVal, market: string): (y: Ex)
      requires market in x.engines && EngOk(x.engines[market])
      ensures y.markets == x.markets && y.purse == x.purse && y.led == x.led
    {
      var (e, out) := Submit(x.engines[market], o);
      x.(engines := x.engines[market := e], orders := PatchAll(x.orders, out.fills)[o.id := out.order])
    }

    ghost function ReplyOf(out: Outcome, err: Option<Error>): PlaceReply
    {
      if out.reject.Some? then Refused(Some(out.order), out.reject.value)
      else if err.Some? then Unsettled(out.order, out.fills, err.value)
      else Done(out.order, out.fills)
    }

    lemma Executes(x: Ex, o: OrderVal, market: string, led: Led, p: Purse, err: Option<Error>)
      requires market in x.markets && market in x.engines && EngOk(x.engines[market]) && o.id in x.purse
      requires o.filled == 0
      requires Submit(x.engines[market], o).1.order.id == o.id
      requires Closes(Matched(x, o, market), Submit(x.engines[market], o).1, market, led, p, err)
      ensures Execute(x, o, market)
           == (Matched(x, o, market).(led := led, purse := p), ReplyOf(Submit(x.engines[market], o).1, err))
    {
      hide Submit, EngOk, Release, SettleFills, PatchAll;
      RefusedUnfilled(x.engines[market], o);
      PatchedNone(x.orders);
    }

    /** After matching: settle the trades, or give back what a refused order froze. */
    method CloseOrder(o: Order, market: string, trades: seq<Trade>, reject: Option<Error>, ghost fills: seq<Fill>,
        ghost x: Ex)
      returns (err: Option<Error>)
      requires At(x) && o.id in x.purse && market in x.markets && trades == TradesOf(fills)
      modifies this`purse, assets, assets.Cells()
      ensures fresh(assets.Cells() - old(assets.Cells())) && At(x.(led := assets.Abs(), purse := purse))
      ensures Closes(x, Outcome(o.View(), fills, reject), market, assets.Abs(), purse, err)
    {
      hide SettleFills, Release, AssetService.Valid, AssetService.Abs, OrdersAt, Parts, EngineRoom.AllParts,
        EngineRoom.AllBooks;
      room.BooksIn();
      room.AllAllocated();
      Known(x);
      ghost var parts, stored := room.AllParts(), OrderObjects();
      if reject.Some? {
        ReleaseOrder(o.id, Account(o.user, markets[market].AssetOf(o.side)));
        err := reject;
      } else {
        err := SettleOrder(o, trades, market, fills);
      }
      assert unchanged(parts) && unchanged(stored);
      Arrives(x, x.(led := assets.Abs(), purse := purse));
    }

    /** Submit to the market's engine; the money stays where it was. */
    method MatchOrder(o: Order, market: string, ghost x: Ex)
      returns (trades: seq<Trade>, reject: Option<Error>, ghost fills: seq<Fill>)
      requires At(x) && market in x.engines && o.id in orders && orders[o.id] == o && o !in room.AllParts()
      requires Submittable(o.View()) && o.remainingQuote <= MAX_INT64 && EngOk(x.engines[market])
      modifies o, Parts(room.engines[market])
      ensures Outcome(o.View(), fills, reject) == Submit(x.engines[market], old(o.View())).1
      ensures trades == TradesOf(fills) && assets.Cells() == old(assets.Cells())
      ensures At(Matched(x, old(o.View()), market))
    {
      hide EngOk, Submit, PatchAll, AssetService.Valid, AssetService.Abs, OrdersAt, Parts, EngineRoom.AllParts,
        EngineRoom.AllBooks, Submittable;
      Known(x);
      room.PartsIn(market);
      ghost var cells := assets.Cells();
      trades, reject, fills := SubmitOrder(o, market, x);
      assert unchanged(assets) && unchanged(cells);
    }

    /** Match, settle, and release what a finished order did not spend. */
    method ExecuteOrder(o: Order, market: string, ghost x: Ex)
      returns (trades: seq<Trade>, err: Option<Error>, ghost reply: PlaceReply)
      requires At(x) && market in x.markets && market in x.engines && EngOk(x.engines[market])
      requires o.id in x.purse && o.id in orders && orders[o.id] == o && o !in room.AllParts()
      requires Submittable(o.View()) && o.remainingQuote <= MAX_INT64
      modifies this, o, Parts(room.engines[market]), assets, assets.Cells()
      ensures At(Execute(x, old(o.View()), market).0) && reply == Execute(x, old(o.View()), market).1
      ensures Told(o, trades, err, reply) && fresh(assets.Cells() - old(assets.Cells()))
    {
      hide EngOk, Submit, Execute, Matched, SettleFills, Release, AssetService.Valid, AssetService.Abs, At, Parts;
      ghost var v, cells := o.View(), assets.Cells();
      var reject;
      ghost var fills;
      RefusedUnfilled(x.engines[market], v);
      trades, reject, fills := MatchOrder(o, market, x);
      err := CloseOrder(o, market, trades, reject, fills, Matched(x, v, market));
      assert fresh(assets.Cells() - cells);
      // A refused order the engine has already marked as rejected.
      Executes(x, v, market, assets.Abs(), purse, err);
      reply := ReplyOf(Outcome(o.View(), fills, reject), err);
      assert reject.Some? ==> trades == [];
    }

    /** Store an order no engine has, with its money. */
    method KeepOrder(o: Order, m: Money, ghost x: Ex)
      requires At(x) && o !in OrderObjects() && o.id !in orders
      modifies this`orders, this`purse
      ensures At(Store(x, o.View(), m)) && orders == old(orders)[o.id := o] && room.AllParts() == old(room.AllParts())
    {
      hide EngineRoom.Running, EngineRoom.AllOrders, EngineRoom.AllParts, EngineRoom.AllBooks, AssetService.Valid,
        AssetService.Abs;
      room.BooksIn();
      room.AllAllocated();
      ghost var parts, cells := room.AllParts(), assets.Cells();
      StoreOrder(o, m);
      assert unchanged(parts) && unchanged(assets) && unchanged(cells);
    }

    /** Freeze funds; orders and engines stay where they were. */
    method FreezeFunds(a: Account, qty: int, ghost x: Ex) returns (err: Option<Error>)
      requires At(x)
      modifies assets, assets.Cells()
      ensures fresh(assets.Cells() - old(assets.Cells()))
      ensures room.AllParts() == old(room.AllParts()) && OrderObjects() == old(OrderObjects())
      ensures At(x.(led := Ledger.Freeze(x.led, a, qty).0)) && err == Ledger.Freeze(x.led, a, qty).1
    {
      hide AssetService.Valid, AssetService.Abs, OrdersAt, Parts, EngineRoom.AllParts, EngineRoom.AllBooks,
        Ledger.Freeze;
      room.BooksIn();
      room.AllAllocated();
      Known(x);
      ghost var parts, stored := room.AllParts(), OrderObjects();
      err := assets.Freeze(a, qty);
      assert unchanged(parts) && unchanged(stored);
      Arrives(x, x.(led := Ledger.Freeze(x.led, a, qty).0));
    }

    /** Store a funded order and execute it. */
    method EnterOrder(o: Order, m: Money, market: string, ghost x: Ex)
      returns (trades: seq<Trade>, err: Option<Error>, ghost reply: PlaceReply)
      requires At(x) && market in x.markets && market in x.engines && EngOk(x.engines[market])
      requires o !in OrderObjects() && o.id !in orders && o !in room.AllParts()
      requires Submittable(o.View()) && o.remainingQuote <= MAX_INT64
      modifies this, o, room.AllParts(), assets, assets.Cells()
      ensures Executed(Store(x, old(o.View()), m), old(o.View()), market, o, trades, err, reply)
      ensures fresh(assets.Cells() - old(assets.Cells()))
    {
      hide EngOk, Execute, AssetService.Valid, AssetService.Abs, At, Submittable, Parts, EngineRoom.AllParts, Told;
      Known(x);
      ghost var v, cells := o.View(), assets.Cells();
      KeepOrder(o, m, x);
      room.PartsIn(market);
      assert assets.Cells() == cells;
      trades, err, reply := ExecuteOrder(o, market, Store(x, v, m));
      assert fresh(assets.Cells() - cells);
    }

    /** Executing the order took the service where the specified execution goes, and told so. */
    ghost predicate Executed(x: Ex, v: OrderVal, market: string, o: Order, trades: seq<Trade>, err: Option<Error>,
        reply: PlaceReply)
      requires market in x.markets && market in x.engines && v.id in x.purse && EngOk(x.engines[market])
      reads this, OrderObjects(), room.AllBooks(), room.AllParts(), assets, assets.Cells(), o
    {
      At(Execute(x, v, market).0) && reply == Execute(x, v, market).1 && Told(o, trades, err, reply)
    }

    /** Freeze the order's funds, or refuse it. */
    method FundOrder(o: Order, market: string, ghost x: Ex)
      returns (trades: seq<Trade>, err: Option<Error>, ghost reply: PlaceReply)
      requires At(x) && market in x.markets && market in x.engines && EngOk(x.engines[market])
      requires o !in OrderObjects() && o.id !in orders && o !in room.AllParts()
      requires Submittable(o.View()) && o.remainingQuote <= MAX_INT64
      modifies this, o, room.AllParts(), assets, assets.Cells()
      ensures At(Fund(x, old(o.View()), market).0) && reply == Fund(x, old(o.View()), market).1
      ensures Told(o, trades, err, reply) && fresh(assets.Cells() - old(assets.Cells()))
    {
      hide EngOk, Execute, Ledger.Freeze, AssetService.Valid, AssetService.Abs, At, Submittable, Parts,
        EngineRoom.AllParts, EngineRoom.AllBooks, FreezeAmount;
      Known(x);
      ghost var cells := assets.Cells();
      var amount := FreezeAmount(o.View());
      if amount.None? {
        RefuseOrder(o, MoneyOf(o.View(), market, false, 0), x);
        assert fresh(assets.Cells() - cells);
        return [], Some(InvalidOrder), Refused(Some(o.View()), InvalidOrder);
      }
      var a := Account(o.user, markets[market].AssetOf(o.side));
      ghost var led := Ledger.Freeze(x.led, a, amount.value).0;
      err := FreezeFunds(a, amount.value, x);
      assert fresh(assets.Cells() - cells);
      if err.Some? {
        ghost var cells1 := assets.Cells();
        RefuseOrder(o, MoneyOf(o.View(), market, false, amount.value), x.(led := led));
        assert assets.Cells() == cells1;
        assert fresh(assets.Cells() - cells);
        return [], err, Refused(Some(o.View()), err.value);
      }
      ghost var cells2 := assets.Cells();
      trades, err, reply := EnterOrder(o, MoneyOf(o.View(), market, true, amount.value), market, x.(led := led));
      ghost var cells3 := assets.Cells();
      assert fresh(cells3 - cells2) && fresh(cells2 - cells);
      assert cells3 - cells <= (cells3 - cells2) + (cells2 - cells);
      assert fresh(assets.Cells() - cells);
    }

    /** Mark an order as rejected and store it. */
    method RefuseOrder(o: Order, m: Money, ghost x: Ex)
      requires At(x) && o !in OrderObjects() && o.id !in orders && o !in room.AllParts()
      modifies this`orders, this`purse, o`status
      ensures o.View() == old(o.View()).(status := Rejected) && At(Store(x, o.View(), m))
    {
      hide OrdersAt, AssetService.Valid, AssetService.Abs, Parts, EngineRoom.AllParts, EngineRoom.AllBooks;
      room.BooksIn();
      ghost var cells := assets.Cells();
      o.status := Rejected;
      assert unchanged(assets) && unchanged(cells);
      KeepOrder(o, m, x);
    }

    lemma BuildFresh(mk: Market, id: OrderId, user: string, r: Request)
      requires mk.minQty > 0 && mk.minNotional > 0 && !r.typ.OtherType? && Build(mk, id, user, r).Ok?
      ensures var v := Build(mk, id, user, r).value;
        && v.id == id && Submittable(v) && v.remainingQuote <= MAX_INT64 && Untouched(v)
    {
      hide DecimalText.Parse;
      Solvency.BuildStakes(mk, id, user, r);
    }

    /** An order as a constructor leaves it. */
    ghost predicate Untouched(v: OrderVal) {
      v == OrderVal(v.id, v.user, v.side, v.typ, v.tif, v.price, v.qty, v.amountQuote, v.qty, v.amountQuote, 0, 0, New)
    }

    /** The order object of a validated request. */
    method MakeOrder(v: OrderVal, ghost x: Ex) returns (o: Order)
      requires At(x) && Untouched(v)
      ensures fresh(o) && o.View() == v && At(x) && o !in OrderObjects() && o !in room.AllParts()
      ensures room.AllParts() == old(room.AllParts()) && assets.Cells() == old(assets.Cells())
    {
      hide OrdersAt, EngineRoom.AllParts, EngineRoom.AllBooks, AssetService.Valid, AssetService.Abs;
      room.BooksIn();
      room.AllAllocated();
      ghost var parts, cells, stored := room.AllParts(), assets.Cells(), OrderObjects();
      o := new Order(v.id, v.user, v.side, v.typ, v.tif, v.price, v.qty, v.amountQuote);
      assert unchanged(this) && unchanged(parts) && unchanged(stored) && unchanged(assets) && unchanged(cells);
    }

    lemma KnownOrders(x: Ex, market: string)
      requires ShapeOk(x) && At(x)
      ensures markets == x.markets && purse == x.purse && lastOrder == x.lastOrder
      ensures room.engines.Keys == x.engines.Keys
      ensures orders.Keys == purse.Keys && lastOrder + 1 !in orders
      ensures market in markets ==>
        market in x.engines && EngOk(x.engines[market]) && markets[market].minQty > 0 && markets[market].minNotional > 0
    {
      hide EngineRoom.Sound, EngOk, Stored, AssetService.Valid, AssetService.Abs;
    }

    /** `nextOrderID`. */
    method NextOrder(ghost x: Ex) returns (id: OrderId)
      requires At(x)
      modifies this`lastOrder
      ensures id == x.lastOrder + 1 && At(x.(lastOrder := id)) && room.AllParts() == old(room.AllParts())
    {
      hide Stored, Views, EngineRoom.Running, EngineRoom.AllParts, EngineRoom.AllBooks, AssetService.Valid,
        AssetService.Abs;
      room.BooksIn();
      room.AllAllocated();
      ghost var parts, stored, cells := room.AllParts(), OrderObjects(), assets.Cells();
      lastOrder := lastOrder + 1;
      assert unchanged(parts) && unchanged(stored) && unchanged(assets) && unchanged(cells);
      id := lastOrder;
    }

    /** `PlaceOrder`: validate, freeze, match, settle, release. */
    method PlaceOrder(user: string, r: Request, ghost x: Ex)
      returns (placed: Order?, trades: seq<Trade>, err: Option<Error>, ghost reply: PlaceReply)
      requires ShapeOk(x) && At(x)
      modifies this, room.AllParts(), assets, assets.Cells()
      ensures At(Place(x, user, r).0) && reply == Place(x, user, r).1 && Told(placed, trades, err, reply)
      ensures fresh(assets.Cells() - old(assets.Cells()))
    {
      hide ShapeOk, EngOk, Build, Fund, AssetService.Valid, AssetService.Abs, At, Submittable, EngineRoom.AllParts,
        EngineRoom.AllBooks;
      KnownOrders(x, r.market);
      ghost var cells := assets.Cells();
      if r.market !in markets {
        return null, [], Some(SymbolNotFound), Refused(None, SymbolNotFound);
      }
      if !markets[r.market].enabled {
        return null, [], Some(SymbolDisabled), Refused(None, SymbolDisabled);
      }
      if r.typ.OtherType? {
        return null, [], Some(InvalidOrder), Refused(None, InvalidOrder);
      }
      var id := NextOrder(x);
      var built := Build(markets[r.market], id, user, r);
      if built.Err? {
        return null, [], Some(built.error), Refused(None, built.error);
      }
      BuildFresh(markets[r.market], id, user, r);
      var o := MakeOrder(built.value, x.(lastOrder := id));
      placed := o;
      assert assets.Cells() == cells;
      trades, err, reply := FundOrder(o, r.market, x.(lastOrder := id));
      assert fresh(assets.Cells() - cells);
    }

    // ---- cancelling ----

    lemma WithdrawnViews(x: Ex, id: OrderId, market: string, canceled: Order?)
      requires market in x.engines && id in orders && orders.Keys == x.orders.Keys
      requires EngineRoom.TakenOut(canceled, id, Cancel(x.engines[market], id).1)
      requires forall i :: i in orders ==>
        orders[i].id == i && (orders[i] != canceled ==> orders[i].View() == x.orders[i])
      requires canceled != null ==> orders[id] == canceled
      ensures Views(Withdrawn(x, id, market).orders)
    {
      hide Cancel;
    }

    lemma EngineOrdersStored(market: string)
      requires Stored() && market in room.engines
      ensures forall y :: y in room.engines[market].OrderSet() ==> y.id in orders && orders[y.id] == y
    {
      room.PartsIn(market);
    }

    /** Take an order out of its market's engine, and follow what happens to every stored order. */
    method RemoveOrder(id: OrderId, market: string, ghost x: Ex) returns (canceled: Order?)
      requires OrdersAt(x) && Detached() && market in x.engines && id in orders
      modifies Parts(room.engines[market])
      ensures EngineRoom.TakenOut(canceled, id, Cancel(x.engines[market], id).1)
      ensures OrdersAt(Withdrawn(x, id, market)) && room.AllParts() <= old(room.AllParts())
    {
      hide Engine.Valid, Engine.Abs, Cancel, Eng.Active, Parts, EngineRoom.AllParts, EngineRoom.AllBooks,
        EngineRoom.AllOrders, Stored, EngineRoom.Sound, EngineRoom.OthersStay, EngineRoom.Apart;
      var e := room.engines[market];
      room.PartsIn(market);
      EngineRoom.OrdersOfParts(e);
      EngineOrdersStored(market);
      canceled := room.CancelApart(market, e, id);
      room.Resumes((market, x.engines));
      room.RoomGrew(market);
      StillStored(orders[id]);
      assert canceled != null ==> orders[id] == canceled;
      forall i | i in orders && orders[i] != canceled
        ensures orders[i].View() == x.orders[i]
      {
        assert orders[i] in old(e.OrderSet()) || orders[i] !in old(Parts(e));
      }
      WithdrawnViews(x, id, market, canceled);
    }

    /** The state after the engine's cancel, and before any money moves. */
    ghost function Withdrawn(x: Ex, id: OrderId, market: string): (y: Ex)
      requires market in x.engines
      ensures y.markets == x.markets && y.purse == x.purse && y.led == x.led
      ensures Cancel(x.engines[market], id).1.None? ==> y == x
    {
      var (e, found) := Cancel(x.engines[market], id);
      x.(engines := x.engines[market := e], orders := if found.None? then x.orders else x.orders[id := found.value])
    }

    /** The engine's cancel; the money stays where it was. */
    method WithdrawOrder(id: OrderId, market: string, ghost x: Ex) returns (canceled: Order?)
      requires At(x) && market in x.engines && id in orders
      modifies Parts(room.engines[market])
      ensures EngineRoom.TakenOut(canceled, id, Cancel(x.engines[market], id).1)
      ensures At(Withdrawn(x, id, market)) && assets.Cells() == old(assets.Cells()) && unchanged(this)
    {
      hide Cancel, AssetService.Valid, AssetService.Abs, OrdersAt, Parts, EngineRoom.AllParts, EngineRoom.AllBooks;
      Known(x);
      room.PartsIn(market);
      ghost var cells := assets.Cells();
      canceled := RemoveOrder(id, market, x);
      assert unchanged(assets) && unchanged(cells);
    }

    /** `unfreezeRemaining`; orders and engines stay where they were. */
    method ReleaseFunds(id: OrderId, a: Account, ghost x: Ex)
      requires At(x) && id in x.purse
      modifies this`purse, assets, assets.Cells()
      ensures fresh(assets.Cells() - old(assets.Cells()))
      ensures var (led, p) := Release(x.led, x.purse, id, a); At(x.(led := led, purse := p))
    {
      hide Release, AssetService.Valid, AssetService.Abs, OrdersAt, Parts, EngineRoom.AllParts, EngineRoom.AllBooks;
      room.BooksIn();
      room.AllAllocated();
      Known(x);
      ghost var parts, stored := room.AllParts(), OrderObjects();
      ReleaseOrder(id, a);
      assert unchanged(parts) && unchanged(stored);
      Arrives(x, x.(led := assets.Abs(), purse := purse));
    }

    /** Cancel in the engine; if it held the order, release what the order did not record as spent. */
    method TakeBack(id: OrderId, market: string, ghost x: Ex) returns (canceled: Order?)
      requires At(x) && id in orders && id in x.purse && market == x.purse[id].market
      requires market in x.markets && market in x.engines
      modifies this`purse, Parts(room.engines[market]), assets, assets.Cells()
      ensures EngineRoom.TakenOut(canceled, id, Cancel(x.engines[market], id).1)
      ensures var (led, p) := Release(x.led, x.purse, id, x.AccountOf(x.purse[id]));
        At(if canceled == null then x else Withdrawn(x, id, market).(led := led, purse := p))
      ensures fresh(assets.Cells() - old(assets.Cells()))
    {
      hide Cancel, Release, AssetService.Valid, AssetService.Abs, Parts, EngineRoom.AllParts, EngineRoom.AllBooks, At,
        Withdrawn;
      Known(x);
      ghost var cells := assets.Cells();
      canceled := WithdrawOrder(id, market, x);
      if canceled != null {
        ReleaseFunds(id, Account(purse[id].user, markets[market].AssetOf(purse[id].side)), Withdrawn(x, id, market));
        assert fresh(assets.Cells() - cells);
      }
    }

    /** What the caller of a cancel is handed. */
    ghost predicate Answered(canceled: Order?, err: Option<Error>, r: Result<OrderVal, Error>)
      reads if canceled == null then {} else {canceled}
    {
      match r
      case Err(e) => canceled == null && err == Some(e)
      case Ok(v) => canceled != null && canceled.View() == v && err == None
    }

    /** `CancelOrder`: take the order out of its engine and release what it did not record as spent. */
    method CancelOrder(user: string, id: OrderId, ghost x: Ex) returns (canceled: Order?, err: Option<Error>)
      requires ShapeOk(x) && At(x)
      modifies this, room.AllParts(), assets, assets.Cells()
      ensures At(Exchange.CancelOrder(x, user, id).0) && Answered(canceled, err, Exchange.CancelOrder(x, user, id).1)
      ensures fresh(assets.Cells() - old(assets.Cells()))
    {
      hide ShapeOk, Cancel, Release, AssetService.Valid, AssetService.Abs, At, Parts, EngineRoom.AllParts,
        EngineRoom.AllBooks;
      KnownStored(x, id);
      if id !in orders || orders[id].user != user {
        return null, Some(OrderNotFound);
      }
      if orders[id].status.Filled? || orders[id].status.Canceled? {
        return null, Some(OrderAlreadyFilled);
      }
      room.PartsIn(purse[id].market);
      canceled := TakeBack(id, purse[id].market, x);
      err := if canceled == null then Some(OrderNotFound) else None;
    }

    lemma KnownStored(x: Ex, id: OrderId)
      requires ShapeOk(x) && At(x)
      ensures markets == x.markets && purse == x.purse && room.engines.Keys == x.engines.Keys
      ensures orders.Keys == purse.Keys == x.orders.Keys
      ensures id in orders ==>
        orders[id].View() == x.orders[id] && purse[id].market in markets && purse[id].market in x.engines
    {
      hide EngineRoom.Sound, EngOk, Stored, AssetService.Valid, AssetService.Abs;
    }
  }
}
