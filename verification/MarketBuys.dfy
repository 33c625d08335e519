/**
 What a market buy gets for its budget. Its next quantity is converted from what is left of
 the budget, rounded down, and so is its cost; the two roundings can leave enough to go on.
 */
module MarketBuys {
  import opened Wrappers
  import opened Domain
  import opened FixedPoint
  import opened Matching
  import opened Books
  import opened EngineModel
  import opened Guarantees

  // ---- the arithmetic of one price ----

  /** What a budget leaves when all it converts to is multiplied back: less than the price. */
  function Over(budget: int, price: int): (r: int)
    requires price > 0
    ensures 0 <= r < price
  {
    budget * BASE - Quotient(budget * BASE, price) * price
  }

  /** Budget units left after buying all the budget converts to. */
  function Change(budget: int, price: int): (c: nat)
    requires price > 0
  {
    Quotient(Over(budget, price) + (BASE - 1), BASE)
  }

  /** The budget converts to a part of the quantity, and what is left after paying for that part buys the rest. */
  predicate Stretches(budget: int, price: int, qty: int)
    requires price > 0
  {
    && Over(budget, price) > 0
    && (price < BASE
        || (price > BASE && qty == QuoteToQty(budget, price) + 1 && Change(budget, price) * BASE >= price))
  }

  /** The budget buys the whole quantity at this price. */
  predicate BuysUp(budget: int, price: int, qty: int) {
    && 0 < QuoteToQty(budget, price) && budget > 0
    && (qty <= QuoteToQty(budget, price) || Stretches(budget, price, qty))
  }

  /** What is then left of the budget. */
  function Leftover(budget: int, price: int, qty: int): int
    requires price > 0
  {
    if qty <= QuoteToQty(budget, price) then budget - QuoteUnits(price, qty)
    else if price < BASE then 1
    else Change(budget, price) - QuoteUnits(price, 1)
  }

  lemma PaysForAll(budget: int, price: int)
    requires budget > 0 && 0 < QuoteToQty(budget, price)
    ensures price > 0
    ensures budget - QuoteUnits(price, QuoteToQty(budget, price)) == Change(budget, price)
  {
    var n, o := Quotient(budget * BASE, price), Over(budget, price);
    var c := Change(budget, price);
    assert price * n == budget * BASE - o;
    QuotientIsExact(price * n, BASE, budget - c);
  }

  /** The inequalities of a quotient determine it. */
  lemma QuotientIsExact(x: int, d: int, k: int)
    requires d > 0 && k * d <= x < k * d + d
    ensures Quotient(x, d) == k
  {
    QuotientLargest(x, d, k);
    assert (k + 1) * d == k * d + d;
    QuotientSmallest(x, d, k + 1);
  }

  lemma {:induction false} MultipleOver(budget: nat, price: int, k: int)
    requires price > 0 && BASE == k * price
    ensures Over(budget, price) == 0
  {
    assert budget * BASE == (budget * k) * price;
    QuotientIsExact(budget * BASE, price, budget * k);
  }

  /** Below one, change of one unit buys a part that costs nothing, and stays one unit. */
  lemma FreeStep(budget: int, price: int, qty: int)
    requires budget > 0 && 0 < QuoteToQty(budget, price) && 0 < price < BASE && Over(budget, price) > 0 && qty > 0
    ensures Change(budget, price) == 1 && BuysUp(1, price, qty) && Leftover(1, price, qty) == 1
  {
    QuotientIsExact(Over(budget, price) + (BASE - 1), BASE, 1);
    var n := Quotient(BASE, price);
    QuotientLargest(BASE, price, 1);
    QuotientSmallest(BASE, price, BASE + 1);
    if Over(1, price) == 0 {
      MultipleOver(budget, price, n);
    }
    if qty <= n {
      MulMono(qty, n, price);
      QuotientIsExact(price * qty, BASE, 0);
    }
  }

  /** Above one, the change buys at most one unit more. */
  lemma LastUnit(budget: int, price: int, qty: int)
    requires budget > 0 && 0 < QuoteToQty(budget, price) && BASE < price && qty > 0
    ensures var c := Change(budget, price);
      && (BuysUp(c, price, qty) <==> Over(budget, price) > 0 && qty == 1 && c * BASE >= price)
      && (BuysUp(c, price, qty) ==> Leftover(c, price, qty) == c - QuoteUnits(price, 1))
  {
    var o, c := Over(budget, price), Change(budget, price);
    if o == 0 {
      QuotientIsExact(BASE - 1, BASE, 0);
    } else if c * BASE < price {
      QuotientIsExact(c * BASE, price, 0);
    } else {
      assert c * BASE < price + BASE;
      QuotientIsExact(c * BASE, price, 1);
      var o' := Over(c, price);
      assert o' == c * BASE - price < BASE;
      if o' > 0 {
        QuotientIsExact(o' + (BASE - 1), BASE, 1);
      }
    }
  }

  /** Buying all the budget converts to first, and the rest with the change, is buying it all. */
  lemma BuysUpStep(budget: int, price: int, qty: int)
    requires budget > 0 && 0 < QuoteToQty(budget, price) < qty
    ensures price > 0
    ensures var n := QuoteToQty(budget, price);
      var left := budget - QuoteUnits(price, n);
      && (BuysUp(budget, price, qty) <==> BuysUp(left, price, qty - n))
      && (BuysUp(budget, price, qty) ==> Leftover(budget, price, qty) == Leftover(left, price, qty - n))
  {
    hide QuoteToQty, QuoteUnits, Change, Over;
    PaysForAll(budget, price);
    var n := QuoteToQty(budget, price);
    if price < BASE {
      if Over(budget, price) > 0 {
        FreeStep(budget, price, qty - n);
      } else {
        NoChange(budget, price);
      }
    } else if price == BASE {
      MultipleOver(budget, price, 1);
      NoChange(budget, price);
    } else {
      LastUnit(budget, price, qty - n);
    }
  }

  lemma NoChange(budget: int, price: int)
    requires price > 0 && Over(budget, price) == 0
    ensures Change(budget, price) == 0
  {
    QuotientIsExact(BASE - 1, BASE, 0);
  }

  // ---- a list of resting orders ----

  /** What a budget leaves after buying up all orders of the list, if it does. */
  function LeftAfter(budget: int, q: seq<OrderVal>): Option<int>
    decreases |q|
  {
    if q == [] then Some(budget)
    else if !BuysUp(budget, q[0].price, q[0].remaining) then None
    else LeftAfter(Leftover(budget, q[0].price, q[0].remaining), q[1..])
  }

  lemma LeftHead(budget: int, q: seq<OrderVal>)
    requires q != []
    ensures var p, r := q[0].price, q[0].remaining;
      LeftAfter(budget, q) ==
        if BuysUp(budget, p, r) then (PaysForAll(budget, p); LeftAfter(Leftover(budget, p, r), q[1..])) else None
  {
    hide BuysUp, Leftover;
  }

  lemma PartlyFilled(q: seq<OrderVal>, n: int)
    requires q != [] && q[0].remaining != n
    ensures var q' := AfterFill(q, n);
      q' != [] && q'[0].price == q[0].price && q'[0].remaining == q[0].remaining - n && q'[1..] == q[1..]
  {
    hide WeightedAvg;
    assert AfterFill(q, n)[1..] == q[1..];
  }

  lemma LeftStep(t: OrderVal, q: seq<OrderVal>)
    requires Open(q) && t.MarketBuy() && CanEat(t, q)
    ensures var n := FillQty(t, q[0]);
      LeftAfter(t.remainingQuote, q) == LeftAfter(Taken(t, q[0].price, n).remainingQuote, AfterFill(q, n))
  {
    hide BuysUp, Leftover, LeftAfter, QuoteToQty, QuoteUnits, WeightedAvg, AfterFill, Open;
    var n, b, m := FillQty(t, q[0]), t.remainingQuote, q[0];
    LeftHead(b, q);
    if n == m.remaining {
      WholeAtOnce(b, m.price, n);
      WholeFilled(q);
    } else {
      BuysUpStep(b, m.price, m.remaining);
      PartlyFilled(q, n);
      LeftHead(b - QuoteUnits(m.price, n), AfterFill(q, n));
    }
  }

  lemma WholeFilled(q: seq<OrderVal>)
    requires q != []
    ensures AfterFill(q, q[0].remaining) == q[1..]
  {
  }

  lemma WholeAtOnce(budget: int, price: int, qty: int)
    requires budget > 0 && 0 < qty <= QuoteToQty(budget, price)
    ensures price > 0 && BuysUp(budget, price, qty) && Leftover(budget, price, qty) == budget - QuoteUnits(price, qty)
  {
  }

  /**
   Exactly which lists of orders a market buy uses up, and what it then has left, read off
   its budget and the prices and quantities of the orders one by one.
   */
  lemma {:induction false} BudgetExact(t: OrderVal, q: seq<OrderVal>, s: nat)
    requires Open(q) && t.MarketBuy()
    ensures var r := Eat(t, q, s);
      LeftAfter(t.remainingQuote, q) == if r.rest == [] then Some(r.taker.remainingQuote) else None
    decreases TotalQty(q)
  {
    hide BuysUp, Leftover, LeftAfter;
    if CanEat(t, q) {
      var n := FillQty(t, q[0]);
      AfterFillShrinks(q, n);
      LeftStep(t, q);
      BudgetExact(Taken(t, q[0].price, n), AfterFill(q, n), s + 1);
    } else {
      LeftStuck(t, q);
    }
  }

  lemma LeftStuck(t: OrderVal, q: seq<OrderVal>)
    requires Open(q) && t.MarketBuy() && !CanEat(t, q)
    ensures LeftAfter(t.remainingQuote, q) == if q == [] then Some(t.remainingQuote) else None
  {
  }

  /**
   One resting order: exactly when a market buy takes all of it, and for how much. Below a
   price of one, a budget that does not convert evenly takes any quantity, for one unit less.
   */
  lemma StretchExact(t: OrderVal, m: OrderVal, s: nat)
    requires t.MarketBuy() && t.remainingQuote >= 0 && m.remaining > 0
    ensures var b, r := t.remainingQuote, Eat(t, [m], s);
      && (r.rest == [] <==> BuysUp(b, m.price, m.remaining))
      && (r.rest == [] ==> FillCost(r.fills) == b - Leftover(b, m.price, m.remaining))
  {
    hide BuysUp, Leftover, Eat;
    BudgetExact(t, [m], s);
    BudgetKept(t, [m], s);
    assert [m][1..] == [];
  }

  // ---- two submits that show it ----

  /** A price of 0.3. */
  const CHEAP := 30_000_000

  function CheapAsk(qty: int): OrderVal { OrderVal(1, "alice", Sell, Limit, GTC, CHEAP, qty, 0, qty, 0, 0, 0, New) }

  function Budget(quote: int): OrderVal { OrderVal(2, "bob", Buy, Market, GTC, 0, 0, quote, 0, quote, 0, 0, New) }

  lemma AskRests(qty: int)
    requires qty > 0
    ensures Submit(EMPTY_ENGINE, CheapAsk(qty)).0 == Eng(EmptyBook(true), Book(false, [CheapAsk(qty)], [], {}, {}), 0)
  {
    assert Popped(EmptyBook(true)) == EmptyBook(true);
    assert [CheapAsk(qty)] + [] == [CheapAsk(qty)];
  }

  /** An ask of any size at 0.3 is bought whole for one unit less than a budget that converts to less of it. */
  lemma FreeRun(quote: int, qty: int)
    requires quote > 0 && 0 < QuoteToQty(quote, CHEAP) < qty && Over(quote, CHEAP) > 0
    ensures var e := Submit(EMPTY_ENGINE, CheapAsk(qty)).0;
      && Open(e.asks.queue)
      && var (e', out) := Submit(e, Budget(quote));
      && out.reject.None? && FilledQty(out.fills) == qty && FillCost(out.fills) == quote - 1
      && !e'.Active(1)
  {
    hide MatchBook, Eat, QuoteToQty, Over, CheapAsk, TotalQty, CrossQty, HasId, FilledQty, FillCost, Sorted, UniqueIds,
      Placed;
    var ask, t := CheapAsk(qty), Budget(quote);
    AskRests(qty);
    var asks := Book(false, [ask], [], {}, {});
    AskOk(qty);
    MatchBookIsEat(t, asks, 0);
    AskTaken(quote, qty);
    var e := Submit(EMPTY_ENGINE, ask).0;
    assert e.bids.Resting() == [] && e.asks.Resting() == [ask];
    assert !HasId([], 2) && !HasId([], 1) by { NoneHere(); }
    var r := MatchBook(t, asks, 0);
    assert r.book.Resting() == [];
    assert !Rests(Finish(r.taker, r.fills).order);
  }

  lemma NoneHere()
    ensures !HasId([], 1) && !HasId([], 2)
  {
  }

  lemma AskTaken(quote: int, qty: int)
    requires quote > 0 && 0 < QuoteToQty(quote, CHEAP) < qty && Over(quote, CHEAP) > 0
    ensures CheapAsk(qty).remaining > 0
    ensures var r := Eat(Budget(quote), [CheapAsk(qty)], 0);
      && r.rest == [] && FilledQty(r.fills) == qty && FillCost(r.fills) == quote - 1
      && r.taker.typ.Market? && r.taker.side.Buy? && r.taker.filled == qty
  {
    hide Eat, QuoteToQty, Over, TotalQty;
    var ask, t := CheapAsk(qty), Budget(quote);
    AskOk(qty);
    StretchExact(t, ask, 0);
    EatConserves(t, [ask], 0);
    NoQty();
  }

  lemma NoQty()
    ensures TotalQty([]) == 0
  {
  }

  /** With a budget of one unit, all of it for nothing. */
  lemma BoughtForNothing(qty: int)
    requires qty > 3
    ensures var e := Submit(EMPTY_ENGINE, CheapAsk(qty)).0;
      && Open(e.asks.queue)
      && var (e', out) := Submit(e, Budget(1));
      && out.reject.None? && FilledQty(out.fills) == qty && FillCost(out.fills) == 0 && !e'.Active(1)
  {
    hide Submit, CheapAsk;
    QuotientIsExact(BASE, CHEAP, 3);
    FreeRun(1, qty);
  }

  lemma AskOk(qty: int)
    requires qty > 0
    ensures var b := Book(false, [CheapAsk(qty)], [], {}, {});
      && BookOk(b) && b.Resting() == [CheapAsk(qty)] && !HasId(b.Resting(), 2)
      && TotalQty([CheapAsk(qty)]) == qty
    ensures CheapAsk(qty).remaining == qty && CheapAsk(qty).price == CHEAP
  {
  }
}
