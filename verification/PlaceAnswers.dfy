/**
 What a place call answers, told by its request: the terms of the order it replies with, the
 reason it refuses one, and what becomes of orders that must not wait.
 */
module PlaceAnswers {
  import opened Wrappers
  import opened Domain
  import opened FixedPoint
  import opened Matching
  import opened EngineModel
  import opened Guarantees
  import opened Reference
  import opened Ledger
  import opened Settlement
  import opened Exchange
  import opened SubmitAnswers
  import opened Solvency
  import opened SolventRuns
  import opened LiveFunds
  import opened StoredOrders
  import DecimalText

  // ---- the terms of the request ----

  /** The text denotes a positive number of units. */
  ghost predicate Positive(text: string) { DecimalText.Parse(text).Some? && DecimalText.Parse(text).value > 0 }

  /** The units are those the text denotes, exactly if int64 holds them. */
  ghost predicate Denotes(text: string, units: int) {
    Positive(text) && (units == DecimalText.Parse(text).value <==> DecimalText.Parse(text).value <= MAX_INT64)
  }

  /** The order has the terms of the request. */
  ghost predicate Carries(o: OrderVal, user: string, r: Request) {
    && o.user == user && o.side == r.side && o.typ == r.typ
    && (r.typ.Limit? ==> o.tif == r.tif && Denotes(r.price, o.price) && Denotes(r.quantity, o.qty))
    && (r.typ.Market? ==> o.tif.GTC? && o.price == 0)
    && (r.typ.Market? && r.side.Buy? ==> Denotes(r.amountQuote, o.amountQuote) && o.qty == 0)
    && (r.typ.Market? && r.side.Sell? ==> Denotes(r.quantity, o.qty))
    && (r.typ.Limit? || r.side.Sell? ==> o.amountQuote == 0)
  }

  /** The order a reply carries. */
  function OrderIn(reply: PlaceReply): Option<OrderVal> {
    match reply
    case Refused(o, _) => o
    case Unsettled(o, _, _) => Some(o)
    case Done(o, _) => Some(o)
  }

  lemma WrapsExactly(n: int)
    requires n > 0
    ensures WrapInt64(n) == n <==> n <= MAX_INT64
  {
  }

  lemma BuildCarries(mk: Market, id: OrderId, user: string, r: Request)
    requires !r.typ.OtherType? && Build(mk, id, user, r).Ok?
    ensures Carries(Build(mk, id, user, r).value, user, r) && Build(mk, id, user, r).value.id == id
  {
    hide DecimalText.Parse, WrapInt64;
    if r.typ.Limit? {
      WrapsExactly(DecimalText.Parse(r.price).value);
      WrapsExactly(DecimalText.Parse(r.quantity).value);
    } else if r.side.Buy? {
      WrapsExactly(DecimalText.Parse(r.amountQuote).value);
    } else {
      WrapsExactly(DecimalText.Parse(r.quantity).value);
    }
  }

  /** A price of more units than int64 holds is taken for another: two to the 64 more is the same price. */
  lemma LargePrice(mk: Market, id: OrderId, user: string, side: Side, price: int, qty: int)
    requires 0 < price <= MAX_INT64 && mk.minQty <= qty <= MAX_INT64 && 0 < qty
    ensures var text := DecimalText.Print(price + 2 * (MAX_INT64 + 1));
      var r := Request("", side, Limit, GTC, text, DecimalText.Print(qty), "");
      Build(mk, id, user, r).Ok? && Build(mk, id, user, r).value.price == price
  {
    hide DecimalText.Parse, DecimalText.Print;
    DecimalText.RoundTrip(price + 2 * (MAX_INT64 + 1));
    DecimalText.RoundTrip(qty);
    WrapsAround(price);
  }

  lemma WrapsAround(price: int)
    requires 0 < price <= MAX_INT64
    ensures WrapInt64(price + 2 * (MAX_INT64 + 1)) == price
  {
  }

  lemma SameCarries(o: OrderVal, v: OrderVal, user: string, r: Request)
    requires SameOrder(o, v) && Carries(o, user, r)
    ensures Carries(v, user, r)
  {
    hide Denotes;
  }

  /** What a reply says of the order it carries. */
  ghost predicate Replied(o: OrderVal, reply: PlaceReply) {
    match reply
    case Refused(None, _) => false
    case Refused(Some(v), _) => SameOrder(o, v) && v.status.Rejected?
    case Unsettled(v, fills, _) => TakesFills(o, v, fills) && StatusTells(v) && !v.status.Rejected?
    case Done(v, fills) => TakesFills(o, v, fills) && StatusTells(v) && !v.status.Rejected?
  }

  lemma ExecuteReplies(x: Ex, o: OrderVal, market: string)
    requires market in x.markets && market in x.engines && EngOk(x.engines[market]) && o.id in x.purse && Submittable(o)
    ensures Replied(o, Execute(x, o, market).1)
  {
    hide EngOk, Submit, Closing, Execute, Passes, TakesFills, StatusTells;
    var e := x.engines[market];
    OutcomeFacts(e, o);
    ExecuteCloses(x, o, market);
    var out := Submit(e, o).1;
    if Passes(e, o) {
      Answered(e, o);
      TakenFills(o, out.order, out.fills);
      AcceptedTells(e, o);
    } else {
      TurnedDown(e, o);
    }
  }

  /** Only refused orders are marked as rejected. */
  lemma AcceptedTells(e: Eng, o: OrderVal)
    requires EngOk(e) && Submittable(o) && Passes(e, o)
    ensures Open(e.BookOf(o.side.Opposite()).queue)
    ensures Submit(e, o).1.reject.None? ==> !Submit(e, o).1.order.status.Rejected?
  {
    hide EngOk, Submit, Passes;
    Answered(e, o);
    FilledSome(Submit(e, o).1.fills);
    PassedIsNew(e, o);
  }

  lemma FundReplies(x: Ex, o: OrderVal, market: string)
    requires market in x.markets && market in x.engines && EngOk(x.engines[market]) && Submittable(o)
    ensures Replied(o, Fund(x, o, market).1)
  {
    hide EngOk, Execute, Freeze, FreezeAmount, Submittable, TakesFills, StatusTells;
    match FreezeAmount(o)
    case None =>
    case Some(amount) =>
      var led := Freeze(x.led, Account(o.user, x.markets[market].AssetOf(o.side)), amount).0;
      ExecuteReplies(Store(x.(led := led), o, MoneyOf(o, market, true, amount)), o, market);
  }

  /**
   Every order a reply carries has the number the call drew and the terms of its request; it is
   rejected if it was refused, and otherwise its status tells what its fills made of it.
   */
  lemma PlaceCarries(x: Ex, user: string, r: Request)
    requires ShapeOk(x)
    ensures var reply := Place(x, user, r).1;
      OrderIn(reply).Some? ==>
        && OrderIn(reply).value.id == x.lastOrder + 1 && Carries(OrderIn(reply).value, user, r)
        && (reply.Refused? <==> OrderIn(reply).value.status.Rejected?)
        && (!reply.Refused? ==>
              StatusTells(OrderIn(reply).value) && OrderIn(reply).value.filled == FilledQty(reply.fills))
  {
    hide EngOk, Fund, Build, Submittable, Carries, StatusTells, ShapeOk;
    if r.market in x.markets && x.markets[r.market].enabled && !r.typ.OtherType? {
      var n := x.lastOrder + 1;
      var mk := x.markets[r.market];
      MarketEngine(x, r.market);
      MarketLimits(x, r.market);
      var o := Build(mk, n, user, r);
      if o.Ok? {
        BuildStakes(mk, n, user, r);
        StakedSubmits(o.value);
        BuildCarries(mk, n, user, r);
        FundReplies(x.(lastOrder := n), o.value, r.market);
        SameCarries(o.value, OrderIn(Place(x, user, r).1).value, user, r);
      }
    }
  }

  lemma MarketLimits(x: Ex, market: string)
    requires ShapeOk(x) && market in x.markets
    ensures x.markets[market].minQty > 0 && x.markets[market].minNotional > 0
  {
  }

  lemma StakedSubmits(o: OrderVal)
    requires Staked(o)
    ensures Submittable(o)
  {
  }

  // ---- requests that become no order ----

  /** The number of units the service reads off a text, as int64 holds it. */
  ghost function Units(text: string): int
    requires Positive(text)
  {
    WrapInt64(DecimalText.Parse(text).value)
  }

  /** The market exists and is open, and the request is of a known type. */
  ghost predicate Tradable(x: Ex, r: Request) {
    r.market in x.markets && x.markets[r.market].enabled && !r.typ.OtherType?
  }

  /** The text that says how much: a budget for market buys, a quantity for all others. */
  function SizeText(r: Request): string { if r.typ.Market? && r.side.Buy? then r.amountQuote else r.quantity }

  /** What is wrong with a request, if that is what the call complains of. */
  ghost predicate Faulty(x: Ex, r: Request, err: Error) {
    var sized := Tradable(x, r) && (r.typ.Limit? ==> Positive(r.price));
    match err
    case SymbolNotFound => r.market !in x.markets
    case SymbolDisabled => r.market in x.markets && !x.markets[r.market].enabled
    case InvalidPrice => Tradable(x, r) && r.typ.Limit? && !Positive(r.price)
    case InvalidOrder =>
      (r.market in x.markets && x.markets[r.market].enabled && r.typ.OtherType?) || (sized && !Positive(SizeText(r)))
    case InsufficientQty =>
      sized && !(r.typ.Market? && r.side.Buy?) && Positive(r.quantity) && Units(r.quantity) < x.markets[r.market].minQty
    case InsufficientNotional =>
      && sized && r.typ.Market? && r.side.Buy? && Positive(r.amountQuote)
      && Units(r.amountQuote) < x.markets[r.market].minNotional
    case _ => false
  }

  lemma BuildFaults(x: Ex, id: OrderId, user: string, r: Request, err: Error)
    requires Tradable(x, r) && x.markets[r.market].minQty > 0 && x.markets[r.market].minNotional > 0
    ensures Build(x.markets[r.market], id, user, r) == Err(err) <==> Faulty(x, r, err)
  {
    hide DecimalText.Parse, WrapInt64;
  }

  /** A tradable request is an order to be funded, or what is wrong with it. */
  lemma PlaceBuilds(x: Ex, user: string, r: Request)
    requires ShapeOk(x) && Tradable(x, r)
    ensures r.market in x.engines && EngOk(x.engines[r.market])
    ensures var n := x.lastOrder + 1;
      var o := Build(x.markets[r.market], n, user, r);
      && Place(x, user, r) ==
           (if o.Ok? then Fund(x.(lastOrder := n), o.value, r.market)
            else (x.(lastOrder := n), Refused(None, o.error)))
      && (o.Ok? ==> Submittable(o.value) && o.value.id == n && o.value.user == user && o.value.side == r.side)
  {
    hide EngOk, Fund, ShapeOk, Build, Submittable;
    var n := x.lastOrder + 1;
    MarketEngine(x, r.market);
    MarketLimits(x, r.market);
    if Build(x.markets[r.market], n, user, r).Ok? {
      BuildStakes(x.markets[r.market], n, user, r);
      StakedSubmits(Build(x.markets[r.market], n, user, r).value);
    }
  }

  /** Exactly which requests become no order, with which complaint; they only may use up a number. */
  lemma RefusedExact(x: Ex, user: string, r: Request, err: Error)
    requires ShapeOk(x)
    ensures var (x', reply) := Place(x, user, r);
      && (reply == Refused(None, err) <==> Faulty(x, r, err))
      && (reply == Refused(None, err) ==> x'.(lastOrder := x.lastOrder) == x)
  {
    hide EngOk, Fund, ShapeOk, Build, Submittable, Replied, Place, Faulty;
    var n := x.lastOrder + 1;
    if Tradable(x, r) {
      MarketLimits(x, r.market);
      PlaceBuilds(x, user, r);
      BuildFaults(x, n, user, r, err);
      var o := Build(x.markets[r.market], n, user, r);
      if o.Ok? {
        FundReplies(x.(lastOrder := n), o.value, r.market);
        RepliedOrder(o.value, Fund(x.(lastOrder := n), o.value, r.market).1);
      }
    } else {
      Untradable(x, user, r, err);
    }
  }

  lemma Untradable(x: Ex, user: string, r: Request, err: Error)
    requires ShapeOk(x) && !Tradable(x, r)
    ensures Place(x, user, r).0 == x && (Place(x, user, r).1 == Refused(None, err) <==> Faulty(x, r, err))
  {
    hide ShapeOk, Fund, Build, Positive;
  }

  lemma RepliedOrder(o: OrderVal, reply: PlaceReply)
    requires Replied(o, reply)
    ensures OrderIn(reply).Some? && SameOrder(o, OrderIn(reply).value)
  {
  }

  // ---- orders that must not wait ----

  lemma ImmediateTells(v: OrderVal)
    requires v.typ.Limit? && v.tif.IOC? && (v.status.Rejected? || StatusTells(v))
    ensures !Rests(v)
  {
  }

  /** An immediate-or-cancel order never rests, neither in the reply nor in the books. */
  lemma ImmediateGone(x: Ex, user: string, r: Request)
    requires ShapeOk(x) && Filed(x) && r.typ.Limit? && r.tif.IOC?
    ensures var (x', reply) := Place(x, user, r);
      OrderIn(reply).Some? ==> !Rests(OrderIn(reply).value) && !Live(x', OrderIn(reply).value.id)
  {
    hide Place, ShapeOk, Filed, Live, StatusTells, Denotes;
    PlaceCarries(x, user, r);
    var (x', reply) := Place(x, user, r);
    if OrderIn(reply).Some? {
      ImmediateTells(OrderIn(reply).value);
      PlaceFiled(x, user, r);
      PlaceShape(x, user, r);
      PlaceStores(x, user, r);
      LiveExact(x', OrderIn(reply).value.id);
    }
  }

  /** The record of the order is what the reply carries. */
  lemma PlaceStores(x: Ex, user: string, r: Request)
    requires ShapeOk(x) && OrderIn(Place(x, user, r).1).Some?
    ensures var (x', reply) := Place(x, user, r);
      OrderIn(reply).value.id in x'.orders && x'.orders[OrderIn(reply).value.id] == OrderIn(reply).value
  {
    hide EngOk, Fund, Build, Submittable, ShapeOk;
    var n := x.lastOrder + 1;
    MarketEngine(x, r.market);
    MarketLimits(x, r.market);
    var o := Build(x.markets[r.market], n, user, r).value;
    BuildStakes(x.markets[r.market], n, user, r);
    StakedSubmits(o);
    FundStores(x.(lastOrder := n), o, r.market);
  }

  lemma FundStores(x: Ex, o: OrderVal, market: string)
    requires market in x.markets && market in x.engines && EngOk(x.engines[market]) && Submittable(o)
    ensures var (x', reply) := Fund(x, o, market);
      && OrderIn(reply).Some? && OrderIn(reply).value.id in x'.orders
      && x'.orders[OrderIn(reply).value.id] == OrderIn(reply).value
  {
    hide EngOk, Execute, Freeze, FreezeAmount, Submittable;
    match FreezeAmount(o)
    case None =>
    case Some(amount) =>
      var led := Freeze(x.led, Account(o.user, x.markets[market].AssetOf(o.side)), amount).0;
      ExecuteStores(Store(x.(led := led), o, MoneyOf(o, market, true, amount)), o, market);
  }

  lemma ExecuteStores(x: Ex, o: OrderVal, market: string)
    requires market in x.markets && market in x.engines && EngOk(x.engines[market]) && o.id in x.purse && Submittable(o)
    ensures var (x', reply) := Execute(x, o, market);
      && OrderIn(reply).Some? && OrderIn(reply).value.id in x'.orders
      && x'.orders[OrderIn(reply).value.id] == OrderIn(reply).value
  {
    hide EngOk, Submit, Closing, Execute, PatchAll;
    OutcomeFacts(x.engines[market], o);
    ExecuteCloses(x, o, market);
  }

  lemma FundRefuses(x: Ex, o: OrderVal, market: string)
    requires market in x.markets && market in x.engines && EngOk(x.engines[market])
    ensures var reply, amount := Fund(x, o, market).1, FreezeAmount(o);
      var a := Account(o.user, x.markets[market].AssetOf(o.side));
      && (amount.None? || amount.value <= 0 ==> reply.Refused? && reply.err == InvalidOrder)
      && (amount.Some? && 0 < amount.value && Get(x.led, a).available < amount.value ==>
            reply.Refused? && reply.err == InsufficientFunds && Unfunded(Fund(x, o, market).0, o.id, amount.value))
  {
    hide EngOk, Execute, FreezeAmount;
  }

  /** The record of an order whose freeze failed states the amount all the same. */
  ghost predicate Unfunded(x: Ex, id: OrderId, amount: int) {
    id in x.purse && !x.purse[id].funded && x.purse[id].frozen == amount
    && x.purse[id].spent == 0 == x.purse[id].settled
  }

  lemma FundFunds(x: Ex, o: OrderVal, market: string)
    requires market in x.markets && market in x.engines && EngOk(x.engines[market])
    requires FreezeAmount(o).Some?
    requires 0 < FreezeAmount(o).value <= Get(x.led, Account(o.user, x.markets[market].AssetOf(o.side))).available
    ensures var led := Freeze(x.led, Account(o.user, x.markets[market].AssetOf(o.side)), FreezeAmount(o).value).0;
      var m := MoneyOf(o, market, true, FreezeAmount(o).value);
      Fund(x, o, market) == Execute(Store(x.(led := led), o, m), o, market)
  {
    hide EngOk, Execute, FreezeAmount;
  }

  lemma ExecuteRefusal(x: Ex, o: OrderVal, market: string)
    requires market in x.markets && market in x.engines && EngOk(x.engines[market]) && o.id in x.purse && Submittable(o)
    requires !o.typ.OtherType?
    ensures var reply := Execute(x, o, market).1;
      reply.Refused? ==> reply.err == DuplicateOrder || reply.err == InsufficientQty
  {
    hide EngOk, Submit, Closing, Execute, PatchAll, Passes;
    var e := x.engines[market];
    OutcomeFacts(e, o);
    ExecuteCloses(x, o, market);
    if Passes(e, o) {
      Answered(e, o);
    } else {
      TurnedDown(e, o);
    }
  }

  lemma SameReserve(o: OrderVal, v: OrderVal)
    requires SameOrder(o, v)
    ensures FreezeAmount(v) == FreezeAmount(o)
  {
    hide PriceQtyToQuote;
  }

  lemma FundExactly(x: Ex, o: OrderVal, market: string)
    requires market in x.markets && market in x.engines && EngOk(x.engines[market])
    requires Submittable(o) && !o.typ.OtherType?
    ensures var reply, amount := Fund(x, o, market).1, FreezeAmount(o);
      var a := Account(o.user, x.markets[market].AssetOf(o.side));
      && (reply.Refused? && reply.err == InvalidOrder <==> amount.None? || amount.value <= 0)
      && (reply.Refused? && reply.err == InsufficientFunds <==>
            amount.Some? && 0 < amount.value && Get(x.led, a).available < amount.value)
      && (reply.Refused? && reply.err == InsufficientFunds ==> Unfunded(Fund(x, o, market).0, o.id, amount.value))
  {
    hide EngOk, Execute, FreezeAmount, Fund, Freeze, Get, Submittable, Unfunded;
    FundRefuses(x, o, market);
    var a := Account(o.user, x.markets[market].AssetOf(o.side));
    var amount := FreezeAmount(o);
    if amount.Some? && 0 < amount.value <= Get(x.led, a).available {
      FundFunds(x, o, market);
      var led := Freeze(x.led, a, amount.value).0;
      ExecuteRefusal(Store(x.(led := led), o, MoneyOf(o, market, true, amount.value)), o, market);
    }
  }

  /** Exactly when an order is refused for its funds: its reserve is nothing or too large to hold, or not available. */
  lemma FundsExact(x: Ex, user: string, r: Request)
    requires ShapeOk(x) && OrderIn(Place(x, user, r).1).Some?
    ensures r.market in x.markets
    ensures var reply := Place(x, user, r).1;
      var v := OrderIn(reply).value;
      var amount, a := FreezeAmount(v), Account(user, x.markets[r.market].AssetOf(r.side));
      && (reply.Refused? && reply.err == InvalidOrder <==> amount.None? || amount.value <= 0)
      && (reply.Refused? && reply.err == InsufficientFunds <==>
            amount.Some? && 0 < amount.value && Get(x.led, a).available < amount.value)
      && (reply.Refused? && reply.err == InsufficientFunds ==>
            Unfunded(Place(x, user, r).0, v.id, amount.value))
  {
    hide EngOk, Fund, ShapeOk, Build, Submittable, Replied, FreezeAmount, Get, Place, Denotes, Unfunded;
    OrderedTradable(x, user, r);
    PlaceBuilds(x, user, r);
    var n := x.lastOrder + 1;
    var o := Build(x.markets[r.market], n, user, r).value;
    FundReplies(x.(lastOrder := n), o, r.market);
    RepliedOrder(o, Place(x, user, r).1);
    SameReserve(o, OrderIn(Place(x, user, r).1).value);
    BuildCarries(x.markets[r.market], n, user, r);
    FundExactly(x.(lastOrder := n), o, r.market);
  }

  lemma OrderedTradable(x: Ex, user: string, r: Request)
    requires ShapeOk(x) && OrderIn(Place(x, user, r).1).Some?
    ensures Tradable(x, r)
    ensures Build(x.markets[r.market], x.lastOrder + 1, user, r).Ok?
  {
    hide ShapeOk, Fund, Build;
  }

  /** The lost orders keep a fill-or-kill order from being filled, and from being killed. */
  ghost predicate CoveredByLost(e: Eng, v: OrderVal) {
    var b := e.BookOf(v.side.Opposite());
    CrossQty(v, b.queue) < v.qty <= CrossQty(v, b.queue) + CrossQty(v, b.hidden)
  }

  lemma SameCovered(e: Eng, o: OrderVal, v: OrderVal)
    requires SameOrder(o, v)
    ensures CoveredByLost(e, o) <==> CoveredByLost(e, v)
  {
    var b := e.BookOf(v.side.Opposite());
    CrossSame(o, v, b.queue);
    CrossSame(o, v, b.hidden);
  }

  lemma KillSubmits(e: Eng, o: OrderVal)
    requires EngOk(e) && Submittable(o) && o.typ.Limit? && o.tif.FOK?
    ensures Open(e.BookOf(o.side.Opposite()).queue)
    ensures Rests(Submit(e, o).1.order) ==> CoveredByLost(e, o)
  {
    hide EngOk, Submit, CrossQty, Eng.Active;
    OutcomeFacts(e, o);
    if Passes(e, o) {
      FillOrKillExact(e, o);
    } else {
      TurnedDown(e, o);
    }
  }

  lemma FundKills(x: Ex, o: OrderVal, market: string)
    requires market in x.markets && market in x.engines && EngOk(x.engines[market])
    requires Submittable(o) && o.typ.Limit? && o.tif.FOK?
    ensures OrderIn(Fund(x, o, market).1).Some?
    ensures Rests(OrderIn(Fund(x, o, market).1).value) ==> CoveredByLost(x.engines[market], o)
  {
    hide EngOk, Execute, FreezeAmount, Freeze, Submittable, CoveredByLost;
    match FreezeAmount(o)
    case None =>
    case Some(amount) =>
      var (led, err) := Freeze(x.led, Account(o.user, x.markets[market].AssetOf(o.side)), amount);
      if err.None? {
        ExecuteKills(Store(x.(led := led), o, MoneyOf(o, market, true, amount)), o, market);
      }
  }

  lemma ExecuteKills(x: Ex, o: OrderVal, market: string)
    requires market in x.markets && market in x.engines && EngOk(x.engines[market]) && o.id in x.purse
    requires Submittable(o) && o.typ.Limit? && o.tif.FOK?
    ensures OrderIn(Execute(x, o, market).1).Some?
    ensures Rests(OrderIn(Execute(x, o, market).1).value) ==> CoveredByLost(x.engines[market], o)
  {
    hide EngOk, Submit, Closing, Execute, PatchAll, Submittable, CoveredByLost;
    OutcomeFacts(x.engines[market], o);
    ExecuteCloses(x, o, market);
    KillSubmits(x.engines[market], o);
  }

  /** A fill-or-kill order rests only where orders at buried prices make up what it could not reach. */
  lemma FillOrKillWaits(x: Ex, user: string, r: Request)
    requires ShapeOk(x) && r.typ.Limit? && r.tif.FOK?
    ensures var reply := Place(x, user, r).1;
      OrderIn(reply).Some? && Rests(OrderIn(reply).value) ==>
        r.market in x.engines && CoveredByLost(x.engines[r.market], OrderIn(reply).value)
  {
    hide EngOk, Fund, ShapeOk, Build, Submittable, Replied, Place, CoveredByLost, Rests, Denotes;
    var reply := Place(x, user, r).1;
    if OrderIn(reply).Some? {
      OrderedTradable(x, user, r);
      PlaceBuilds(x, user, r);
      var n := x.lastOrder + 1;
      var o := Build(x.markets[r.market], n, user, r).value;
      BuildCarries(x.markets[r.market], n, user, r);
      FundReplies(x.(lastOrder := n), o, r.market);
      RepliedOrder(o, reply);
      SameCovered(x.engines[r.market], o, OrderIn(reply).value);
      FundKills(x.(lastOrder := n), o, r.market);
    }
  }
}
