/**
 A trade with one user on both sides is matched but never settled. Which orders run into one,
 told before they are matched.
 */
module SelfTrades {
  import opened Wrappers
  import opened Domain
  import opened Matching
  import opened Books
  import opened EngineModel
  import opened Ledger
  import opened Settlement
  import opened Exchange
  import opened Solvency
  import opened LiveFunds
  import opened FixedPoint
  import opened Guarantees
  import opened MarketBuys

  /** Matched against the orders ahead of `q[i]` alone, the taker uses them up and still trades with `q[i]`. */
  ghost predicate Reaches(t: OrderVal, q: seq<OrderVal>, i: nat)
    requires Open(q) && i < |q|
  {
    var r := Eat(t, q[..i], 0);
    r.rest == [] && CanEat(r.taker, q[i..])
  }

  /** The order reaches a resting order of its own user. */
  ghost predicate MeetsOwn(t: OrderVal, q: seq<OrderVal>)
    requires Open(q)
  {
    exists i :: 0 <= i < |q| && q[i].user == t.user && Reaches(t, q, i)
  }

  lemma {:induction false} NumberFree(t: OrderVal, q: seq<OrderVal>, s: nat, s': nat)
    requires Open(q)
    ensures Eat(t, q, s).rest == Eat(t, q, s').rest && Eat(t, q, s).taker == Eat(t, q, s').taker
    decreases TotalQty(q)
  {
    if CanEat(t, q) {
      var n := FillQty(t, q[0]);
      AfterFillShrinks(q, n);
      NumberFree(Taken(t, q[0].price, n), AfterFill(q, n), s + 1, s' + 1);
    }
  }

  /** Nothing is reached when the first order is not. */
  lemma ReachesNothing(t: OrderVal, q: seq<OrderVal>, i: nat)
    requires Open(q) && i < |q| && !CanEat(t, q)
    ensures !Reaches(t, q, i)
  {
    if i == 0 {
      assert Eat(t, q[..0], 0) == Eaten(t, [], []);
      assert q[0..] == q;
    } else {
      assert q[..i][0] == q[0];
    }
  }

  /** Filling the first order and looking ahead of a later one commute. */
  lemma AheadFilled(q: seq<OrderVal>, n: int, i: nat)
    requires 0 < i < |q|
    ensures var j := if q[0].remaining == n then i - 1 else i;
      var q' := AfterFill(q, n);
      j < |q'| && AfterFill(q[..i], n) == q'[..j] && q[i..] == q'[j..] && q'[j] == q[i]
  {
    var j := if q[0].remaining == n then i - 1 else i;
    var q' := AfterFill(q, n);
    assert q[..i][0] == q[0];
    if q[0].remaining == n {
      assert q[..i][1..] == q'[..j];
    } else {
      assert [Made(q[0], n)] + q[..i][1..] == q'[..j];
    }
  }

  /** What is reached behind the first order is what the taker still reaches after filling it. */
  lemma ReachesOn(t: OrderVal, q: seq<OrderVal>, i: nat)
    requires Open(q) && 0 < i < |q| && CanEat(t, q)
    ensures var n := FillQty(t, q[0]);
      var t', q' := Taken(t, q[0].price, n), AfterFill(q, n);
      var j := if q[0].remaining == n then i - 1 else i;
      && Open(q') && j < |q'| && q'[j] == q[i] && (Reaches(t, q, i) <==> Reaches(t', q', j))
  {
    var n := FillQty(t, q[0]);
    var t', q' := Taken(t, q[0].price, n), AfterFill(q, n);
    var j := if q[0].remaining == n then i - 1 else i;
    AfterFillShrinks(q, n);
    var ahead := q[..i];
    assert ahead[0] == q[0] && Open(ahead);
    AfterFillShrinks(ahead, n);
    AheadFilled(q, n, i);
    NumberFree(t', q'[..j], 1, 0);
  }

  lemma ReachesFirst(t: OrderVal, q: seq<OrderVal>)
    requires Open(q) && q != []
    ensures Reaches(t, q, 0) <==> CanEat(t, q)
  {
    assert q[..0] == [] && q[0..] == q;
    assert Eat(t, [], 0) == Eaten(t, [], []);
  }

  lemma MeetsOwnStep(t: OrderVal, q: seq<OrderVal>)
    requires Open(q) && CanEat(t, q)
    ensures var n := FillQty(t, q[0]);
      var t', q' := Taken(t, q[0].price, n), AfterFill(q, n);
      Open(q') && (MeetsOwn(t, q) <==> q[0].user == t.user || MeetsOwn(t', q'))
  {
    hide Reaches, CanEat, FillQty;
    FillSize(t, q);
    var n := FillQty(t, q[0]);
    var t', q' := Taken(t, q[0].price, n), AfterFill(q, n);
    AfterFillShrinks(q, n);
    ReachesFirst(t, q);
    var whole := q[0].remaining == n;
    if i :| 0 <= i < |q| && q[i].user == t.user && Reaches(t, q, i) && i > 0 {
      ReachesOn(t, q, i);
      assert MeetsOwn(t', q');
    }
    if MeetsOwn(t', q') && q[0].user != t.user {
      var j :| 0 <= j < |q'| && q'[j].user == t'.user && Reaches(t', q', j);
      var i := if whole then j + 1 else j;
      assert i > 0;
      ReachesOn(t, q, i);
    }
  }

  /** A match trades a user with itself exactly when the order reaches an order of its own user. */
  lemma {:induction false} SelfTradeExact(t: OrderVal, q: seq<OrderVal>, s: nat)
    requires Open(q)
    ensures NoSelfTrade(Eat(t, q, s).fills) <==> !MeetsOwn(t, q)
    decreases TotalQty(q)
  {
    hide Reaches, MeetsOwn;
    if CanEat(t, q) {
      var n := FillQty(t, q[0]);
      AfterFillShrinks(q, n);
      MeetsOwnStep(t, q);
      var t', q' := Taken(t, q[0].price, n), AfterFill(q, n);
      SelfTradeExact(t', q', s + 1);
      HeadSelf(Eat(t, q, s).fills, Eat(t', q', s + 1).fills);
    } else {
      NothingMet(t, q);
    }
  }

  lemma NothingMet(t: OrderVal, q: seq<OrderVal>)
    requires Open(q) && !CanEat(t, q)
    ensures !MeetsOwn(t, q)
  {
    hide Reaches;
    forall i | 0 <= i < |q|
      ensures !Reaches(t, q, i)
    {
      ReachesNothing(t, q, i);
    }
  }

  lemma HeadSelf(fills: seq<Fill>, rest: seq<Fill>)
    requires fills != [] && fills[1..] == rest
    ensures NoSelfTrade(fills) <==> fills[0].trade.makerUser != fills[0].trade.takerUser && NoSelfTrade(rest)
  {
    assert forall i :: 0 <= i < |rest| ==> rest[i] == fills[i + 1];
  }

  lemma StopsShort(t: OrderVal, q: seq<OrderVal>, i: nat)
    requires Sorted(t.side.Opposite().Buy?, q) && Open(q) && i < |q| && !t.MarketBuy()
    ensures !CanEat(t, q) ==> !(Crosses(t, q[i].price) && TotalQty(q[..i]) < t.remaining)
    ensures CanEat(t, q) ==> Crosses(t, q[0].price) && 0 < t.remaining && TotalQty(q[..0]) == 0
  {
    TotalQtyPositive(q[..i]);
    if !CanEat(t, q) && i > 0 {
      assert !Better(t.side.Opposite().Buy?, q[i].price, q[0].price);
    }
  }

  lemma AheadQty(q: seq<OrderVal>, n: int, i: nat)
    requires Open(q) && 0 < i < |q| && 0 < n <= q[0].remaining
    ensures TotalQty(AfterFill(q[..i], n)) == TotalQty(q[..i]) - n
  {
    assert q[..i][0] == q[0];
    AfterFillShrinks(q[..i], n);
  }

  /**
   For all but market buys: an order is reached exactly if its price crosses and the quantity
   ahead of it does not suffice.
   */
  lemma {:induction false} ReachesExact(t: OrderVal, q: seq<OrderVal>, i: nat)
    requires Sorted(t.side.Opposite().Buy?, q) && Restable(t.side.Opposite().Buy?, q) && i < |q|
    requires !t.MarketBuy()
    ensures Reaches(t, q, i) <==> Crosses(t, q[i].price) && TotalQty(q[..i]) < t.remaining
    decreases TotalQty(q)
  {
    hide Reaches, Sorted, TotalQty, CanEat, FillQty, AfterFill, Better;
    StopsShort(t, q, i);
    if !CanEat(t, q) {
      ReachesNothing(t, q, i);
    } else if i == 0 {
      ReachesFirst(t, q);
    } else {
      FillSize(t, q);
      var n := FillQty(t, q[0]);
      AfterFillShrinks(q, n);
      AfterFillKeeps(t.side.Opposite().Buy?, q, n);
      AheadFilled(q, n, i);
      AheadQty(q, n, i);
      ReachesOn(t, q, i);
      ReachesExact(Taken(t, q[0].price, n), AfterFill(q, n), if q[0].remaining == n then i - 1 else i);
    }
  }

  /**
   For market buys: an order is reached exactly if the budget buys up all orders ahead of it
   and what is left then buys some of it.
   */
  lemma ReachesBudget(t: OrderVal, q: seq<OrderVal>, i: nat)
    requires Open(q) && i < |q| && t.MarketBuy()
    ensures var left := LeftAfter(t.remainingQuote, q[..i]);
      Reaches(t, q, i) <==> left.Some? && left.value > 0 && QuoteToQty(left.value, q[i].price) > 0
  {
    hide Eat, LeftAfter, QuoteToQty;
    BudgetExact(t, q[..i], 0);
    EatConserves(t, q[..i], 0);
  }

  // ---- placed orders left unsettled ----

  /** In books kept to the unit, the trades of a funded order stay unsettled exactly when it reaches its own user. */
  lemma ExecuteUnsettled(x: Ex, o: OrderVal, market: string)
    requires Entering(x, o, market)
    ensures EngOk(x.engines[market]) && Open(x.engines[market].BookOf(o.side.Opposite()).queue)
    ensures Execute(x, o, market).1.Unsettled? <==>
      !Screened(x.engines[market], o) && MeetsOwn(o, x.engines[market].BookOf(o.side.Opposite()).queue)
  {
    hide Submit, MatchBook, SettleFills, EngOk, Inv, NoSelfTrade, Idle, AfterMatch, AddOrder, Eng.Active, Release,
      PatchAll,
      MeetsOwn, Eat, Backed;
    var e := x.engines[market];
    var b := e.BookOf(o.side.Opposite());
    EngOkIn(x, market);
    BookOkIn(e, o.side.Opposite());
    QueueUnique(b);
    SubmitCases(e, o);
    if !Screened(e, o) {
      ServedKeeps(x, o, market);
      MatchBookIsEat(o, b, e.seqNo);
      SelfTradeExact(o, b.queue, e.seqNo);
      NothingSelf();
    }
  }

  lemma NothingSelf()
    ensures NoSelfTrade([])
  {
  }

  /** The service funds the request, the engine lets the order trade, and it reaches an order of its own user. */
  ghost predicate RunsIntoOwn(x: Ex, user: string, r: Request)
    requires ShapeOk(x)
  {
    && r.market in x.markets && x.markets[r.market].enabled && !r.typ.OtherType?
    && var mk, e := x.markets[r.market], x.engines[r.market];
    && var built := Build(mk, x.lastOrder + 1, user, r);
    && built.Ok?
    && var o := built.value;
    && FreezeAmount(o).Some? && Freeze(x.led, Account(user, mk.AssetOf(o.side)), FreezeAmount(o).value).1.None?
    && !Screened(e, o)
    && Open(e.BookOf(o.side.Opposite()).queue) && MeetsOwn(o, e.BookOf(o.side.Opposite()).queue)
  }

  lemma FundUnsettled(x: Ex, o: OrderVal, market: string)
    requires Inv(x) && Staked(o) && o.id !in x.purse && o.id <= x.lastOrder
    requires market in x.markets && market in x.engines && EngOk(x.engines[market])
    ensures Open(x.engines[market].BookOf(o.side.Opposite()).queue)
    ensures Fund(x, o, market).1.Unsettled? <==>
      && FreezeAmount(o).Some?
      && Freeze(x.led, Account(o.user, x.markets[market].AssetOf(o.side)), FreezeAmount(o).value).1.None?
      && !Screened(x.engines[market], o) && MeetsOwn(o, x.engines[market].BookOf(o.side.Opposite()).queue)
  {
    hide Execute, Inv, EngOk, Freeze, Staked, Screened, MeetsOwn;
    BookOkIn(x.engines[market], o.side.Opposite());
    QueueUnique(x.engines[market].BookOf(o.side.Opposite()));
    var a := Account(o.user, x.markets[market].AssetOf(o.side));
    if FreezeAmount(o).Some? && Freeze(x.led, a, FreezeAmount(o).value).1.None? {
      var amount := FreezeAmount(o).value;
      FundedKeeps(x, o, market, amount);
      var led := Freeze(x.led, a, amount).0;
      ExecuteUnsettled(Store(x.(led := led), o, MoneyOf(o, market, true, amount)), o, market);
    }
  }

  lemma PlaceUnsettled(x: Ex, user: string, r: Request)
    requires Inv(x)
    ensures ShapeOk(x) && (Place(x, user, r).1.Unsettled? <==> RunsIntoOwn(x, user, r))
  {
    hide Fund, EngOk, Build, Staked, Freeze, Screened, MeetsOwn;
    if r.market in x.markets && x.markets[r.market].enabled && !r.typ.OtherType? {
      var id := x.lastOrder + 1;
      NumberingKeeps(x);
      var o := Build(x.markets[r.market], id, user, r);
      if o.Ok? {
        BuildStakes(x.markets[r.market], id, user, r);
        FundUnsettled(x.(lastOrder := id), o.value, r.market);
      }
    }
  }

  /**
   While live orders are covered, the trades of a placed order stay unsettled exactly when the
   service funds it, the engine lets it trade, and it reaches an order of its own user.
   */
  lemma UnsettledExact(x: Ex, user: string, r: Request)
    requires LiveSound(x)
    ensures ShapeOk(x) && (Place(x, user, r).1.Unsettled? <==> RunsIntoOwn(x, user, r))
  {
    hide LiveSound, Inv, ShapeOk, Place, Build, Freeze, Screened, MeetsOwn, Flagged;
    ShapeIn(x);
    var y := View(x);
    ViewSound(x);
    ViewAlike(x);
    ReadsAlike(x, y);
    PlaceUnsettled(y, user, r);
    PlaceAlike(x, y, user, r);
  }
}
