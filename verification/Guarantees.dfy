/**
 What traders are promised: the book never crosses, fill-or-kill orders are all or
 nothing, and the exact conditions under which the engine as written keeps this.
 */
module Guarantees {
  import opened Domain
  import opened FixedPoint
  import opened Matching
  import opened Books
  import opened EngineModel
  import opened Reference

  // ---- the book never crosses ----

  ghost predicate Below(bids: seq<OrderVal>, asks: seq<OrderVal>) {
    forall b, a :: b in bids && a in asks ==> b.price < a.price
  }

  /** The highest resting bid is strictly below the lowest resting ask. */
  ghost predicate Uncrossed(e: Eng) { Below(e.bids.Resting(), e.asks.Resting()) }

  /** Once matching has stopped with quantity left, no order left in the list crosses. */
  lemma NothingCrosses(t: OrderVal, q: seq<OrderVal>, s: nat)
    requires Sorted(t.side.Opposite().Buy?, q) && Restable(t.side.Opposite().Buy?, q) && UniqueIds(q)
    requires t.typ.Limit? && Eat(t, q, s).taker.remaining > 0
    ensures forall m :: m in Eat(t, q, s).rest ==> !Crosses(t, m.price)
  {
    var r := Eat(t, q, s);
    EatStops(t, q, s);
    EatConserves(t, q, s);
    EatKeeps(t, q, s, t.side.Opposite().Buy?);
    forall i | 0 <= i < |r.rest|
      ensures !Crosses(t, r.rest[i].price)
    {
      assert i > 0 ==> !Better(t.side.Opposite().Buy?, r.rest[i].price, r.rest[0].price);
    }
  }

  /** Every price of `r` is a price of `q`. */
  ghost predicate PricesWithin(r: seq<OrderVal>, q: seq<OrderVal>) {
    forall m :: m in r ==> exists m' :: m' in q && m'.price == m.price
  }

  lemma {:induction false} EatPrices(t: OrderVal, q: seq<OrderVal>, s: nat)
    requires Open(q)
    ensures PricesWithin(Eat(t, q, s).rest, q)
    decreases TotalQty(q)
  {
    if CanEat(t, q) {
      var n := FillQty(t, q[0]);
      AfterFillShrinks(q, n);
      EatPrices(Taken(t, q[0].price, n), AfterFill(q, n), s + 1);
      AfterFillPrices(q, n);
    }
  }

  lemma AfterFillPrices(q: seq<OrderVal>, n: int)
    requires q != []
    ensures PricesWithin(AfterFill(q, n), q)
  {
  }

  lemma InsertMembers(isBid: bool, q: seq<OrderVal>, o: OrderVal)
    requires Sorted(isBid, q)
    ensures forall x :: x in Insert(isBid, q, o) <==> x == o || x in q
  {
  }

  /** The reference book never crosses, whatever is submitted. */
  lemma RefUncrossed(r: Ref, o: OrderVal)
    requires RefOk(r) && Submittable(o) && Below(r.bids, r.asks)
    ensures Below(RefSubmit(r, o).0.bids, RefSubmit(r, o).0.asks)
  {
    var opp := r.ListOf(o.side.Opposite());
    if Screen(o, HasId(r.bids, o.id) || HasId(r.asks, o.id), CrossQty(o, opp)).None? {
      var m := Eat(o, opp, r.seqNo);
      EatPrices(o, opp, r.seqNo);
      EatConserves(o, opp, r.seqNo);
      var out := Finish(m.taker, m.fills);
      if Rests(out.order) {
        NothingCrosses(o, opp, r.seqNo);
        InsertMembers(o.side.Buy?, r.ListOf(o.side), out.order);
      }
    }
  }

  lemma {:induction false} WithoutMembers(q: seq<OrderVal>, id: OrderId)
    ensures forall x :: x in Without(q, id) ==> x in q
  {
    if q != [] && q[0].id != id {
      WithoutMembers(q[1..], id);
    }
  }

  lemma RefCancelUncrossed(r: Ref, id: OrderId)
    requires Below(r.bids, r.asks)
    ensures Below(RefCancel(r, id).0.bids, RefCancel(r, id).0.asks)
  {
    WithoutMembers(r.bids, id);
    WithoutMembers(r.asks, id);
  }

  ghost function RunEngine(e: Eng, ops: seq<Op>): Eng
    requires EngOk(e) && forall i :: 0 <= i < |ops| ==> OpOk(ops[i])
    decreases |ops|
  {
    if ops == [] then e else RunEngine(Step(e, ops[0]).0, ops[1..])
  }

  /** Runs that bury nothing keep the book uncrossed. */
  lemma {:induction false} CleanRunUncrossed(e: Eng, r: Ref, ops: seq<Op>)
    requires Matches(e, r) && Uncrossed(e)
    requires (forall i :: 0 <= i < |ops| ==> OpOk(ops[i])) && Clean(e, ops)
    ensures Uncrossed(RunEngine(e, ops))
    decreases |ops|
  {
    IndexedResting(e.bids);
    IndexedResting(e.asks);
    if ops != [] {
      StepRefines(e, r, ops[0]);
      match ops[0] {
        case SubmitOp(o) => RefUncrossed(r, o);
        case CancelOp(id) => RefCancelUncrossed(r, id);
      }
      var e', r' := Step(e, ops[0]).0, RefStep(r, ops[0]).0;
      IndexedResting(e'.bids);
      IndexedResting(e'.asks);
      assert forall i :: 0 <= i < |ops[1..]| ==> ops[1..][i] == ops[i + 1];
      CleanRunUncrossed(e', r', ops[1..]);
    }
  }

  /** Every submit, burying or not, leaves an indexed uncrossed book uncrossed. */
  lemma SubmitUncrossed(e: Eng, r: Ref, o: OrderVal)
    requires Matches(e, r) && Submittable(o) && Uncrossed(e)
    ensures Uncrossed(Submit(e, o).0)
  {
    hide MatchBook, Eat, Insert;
    IndexedResting(e.bids);
    IndexedResting(e.asks);
    var opp := e.BookOf(o.side.Opposite());
    if Screen(o, e.Active(o.id), CrossQty(o, opp.Resting())).None? {
      MatchBookIsEat(o, opp, e.seqNo);
      var m := Eat(o, opp.queue, e.seqNo);
      EatPrices(o, opp.queue, e.seqNo);
      EatConserves(o, opp.queue, e.seqNo);
      AfterMatchOk(e, o);
      IndexedResting(AfterMatch(e, o).BookOf(o.side.Opposite()));
      var out := Finish(m.taker, m.fills);
      if Rests(out.order) {
        NothingCrosses(o, opp.queue, e.seqNo);
        InsertMembers(o.side.Buy?, e.BookOf(o.side).queue, out.order);
      }
    }
  }

  /** A good-till-cancelled limit order. */
  function Resting(id: OrderId, side: Side, price: int, qty: int): OrderVal {
    OrderVal(id, "trader", side, Limit, GTC, price, qty, 0, qty, 0, 0, 0, New)
  }

  /** After a burying submit, one more order at the same price crosses the book. */
  lemma BuryingCrosses(e: Eng, r: Ref, o: OrderVal) returns (x: OrderVal)
    requires Matches(e, r) && Submittable(o) && Buries(e, o)
    ensures EngOk(Submit(e, o).0) && Submittable(x)
    ensures !Uncrossed(Submit(Submit(e, o).0, x).0)
  {
    SubmitOk(e, o);
    BuriedState(e, r, o);
    var hidden := Submit(e, o).1.order;
    assert hidden in Submit(e, o).0.BookOf(o.side).hidden;
    x := HiddenCrosses(Submit(e, o).0, o.side, hidden);
  }

  /** Against a hidden order, an order at its price too large for the queue rests crossed. */
  lemma HiddenCrosses(e: Eng, side: Side, hidden: OrderVal) returns (x: OrderVal)
    requires EngOk(e) && hidden in e.BookOf(side).hidden
    ensures Submittable(x) && !Uncrossed(Submit(e, x).0)
  {
    var b := e.BookOf(side);
    var id := FreshId(e.bids.Resting() + e.asks.Resting() + [] + []);
    FreshIsInactive(e, Ref([], [], 0), id);
    TotalQtyPositive(b.queue);
    x := Resting(id, side.Opposite(), hidden.price, TotalQty(b.queue) + 1);
    MatchBookIsEat(x, b, e.seqNo);
    SweepLeaves(x, b.queue, e.seqNo);
    var y := UnfilledRests(e, x, side);
    var e' := Submit(e, x).0;
    assert hidden in e'.BookOf(side).Resting();
  }

  lemma UnfilledRests(e: Eng, x: OrderVal, side: Side) returns (y: OrderVal)
    requires EngOk(e) && !e.Active(x.id) && Submittable(x)
    requires x.side == side.Opposite() && x.typ.Limit? && x.tif.GTC?
    requires MatchBook(x, e.BookOf(side), e.seqNo).taker.remaining > 0
    ensures Submit(e, x).0.BookOf(side).hidden == e.BookOf(side).hidden
    ensures y in Submit(e, x).0.BookOf(x.side).Resting() && y.price == x.price
  {
    assert x.side.Opposite() == side;
    var r := MatchBook(x, e.BookOf(side), e.seqNo);
    MatchBookFacts(x, e.BookOf(side), e.seqNo);
    MatchBookIsEat(x, e.BookOf(side), e.seqNo);
    y := Finish(r.taker, r.fills).order;
    AddMembers(e.BookOf(x.side), y);
    SubmitMatched(e, x);
  }

  /**
   Exactly when the uncrossed book survives: a submit leaves the book uncrossed for every
   further order if and only if it does not bury the order it rests.
   */
  lemma UncrossedExact(e: Eng, r: Ref, o: OrderVal)
    requires Matches(e, r) && Uncrossed(e) && Submittable(o)
    ensures EngOk(Submit(e, o).0)
    ensures (forall x :: Submittable(x) ==> Uncrossed(Submit(Submit(e, o).0, x).0)) <==> !Buries(e, o)
  {
    SubmitOk(e, o);
    if Buries(e, o) {
      var x := BuryingCrosses(e, r, o);
    } else {
      SubmitRefines(e, r, o);
      SubmitUncrossed(e, r, o);
      forall x | Submittable(x)
        ensures Uncrossed(Submit(Submit(e, o).0, x).0)
      {
        SubmitUncrossed(Submit(e, o).0, RefSubmit(r, o).0, x);
      }
    }
  }

  // ---- fill or kill ----

  /** A fill-or-kill limit order with an id of its own. */
  ghost predicate FillOrKill(e: Eng, o: OrderVal) {
    Submittable(o) && o.typ.Limit? && o.tif.FOK? && !e.Active(o.id)
  }

  /**
   Fill or kill, exactly: the order is filled completely iff the reachable crossing
   quantity suffices, refused with nothing changed iff all crossing quantity does not,
   and otherwise (only ever through a buried price) it wrongly rests, filled as far as it reached.
   */
  lemma FillOrKillExact(e: Eng, o: OrderVal)
    requires EngOk(e) && FillOrKill(e, o)
    ensures FillOrKillVerdict(e, o, Submit(e, o).0, Submit(e, o).1)
  {
    var opp := e.BookOf(o.side.Opposite());
    CrossConcat(o, opp.queue, opp.hidden);
    CrossNonNegative(o, opp.queue);
    CrossNonNegative(o, opp.hidden);
    if CrossQty(o, opp.Resting()) >= o.qty {
      FillOrKillMatched(e, o);
    } else {
      assert Submit(e, o) == (e, Refuse(o, InsufficientQty));
    }
  }

  ghost predicate FillOrKillVerdict(e: Eng, o: OrderVal, e': Eng, out: Outcome) {
    var opp := e.BookOf(o.side.Opposite());
    var reach, all := CrossQty(o, opp.queue), CrossQty(o, opp.queue) + CrossQty(o, opp.hidden);
    && (out.order.status.Filled? <==> reach >= o.qty)
    && (out.reject.Some? <==> all < o.qty)
    && (out.reject.Some? ==> e' == e && out.fills == [] && out.order == o.(status := Rejected))
    && (out.order.status.Filled? ==> out.order.remaining == 0 && FilledQty(out.fills) == o.qty)
    && (Rests(out.order) <==> reach < o.qty <= all)
  }

  lemma FillOrKillMatched(e: Eng, o: OrderVal)
    requires EngOk(e) && FillOrKill(e, o)
    requires CrossQty(o, e.BookOf(o.side.Opposite()).Resting()) >= o.qty
    ensures FillOrKillVerdict(e, o, Submit(e, o).0, Submit(e, o).1)
  {
    hide MatchBook, Eat, CrossQty, AddOrder, TotalQty, Submit;
    var opp := e.BookOf(o.side.Opposite());
    CrossConcat(o, opp.queue, opp.hidden);
    SubmitMatched(e, o);
    MatchBookIsEat(o, opp, e.seqNo);
    EatTakesCrossing(o, opp.queue, e.seqNo);
    EatConserves(o, opp.queue, e.seqNo);
    var r := Eat(o, opp.queue, e.seqNo);
    assert Submit(e, o).1 == Finish(r.taker, r.fills);
    assert r.taker.remaining == o.qty - Min(o.qty, CrossQty(o, opp.queue));
  }

  /** With both heaps complete a fill-or-kill order is all or nothing and never rests. */
  lemma FillOrKillAllOrNothing(e: Eng, o: OrderVal)
    requires EngOk(e) && e.Indexed() && FillOrKill(e, o)
    ensures var (e', out) := Submit(e, o);
      || (out.reject.Some? && e' == e && out.fills == [])
      || (out.reject.None? && out.order.status.Filled? && FilledQty(out.fills) == o.qty)
  {
    FillOrKillExact(e, o);
  }

  // ---- market buys ----

  /**
   A market buy spends exactly the rounded cost of its fills and never more than its
   budget, so the engine's defensive check cannot fire.
   */
  lemma {:induction false} BudgetKept(t: OrderVal, q: seq<OrderVal>, s: nat)
    requires Open(q) && t.MarketBuy() && t.remainingQuote >= 0
    ensures var r := Eat(t, q, s);
      && r.taker.remainingQuote == t.remainingQuote - FillCost(r.fills)
      && 0 <= r.taker.remainingQuote
    decreases TotalQty(q)
  {
    if CanEat(t, q) {
      var n := FillQty(t, q[0]);
      AfterFillShrinks(q, n);
      WithinBudget(t.remainingQuote, q[0].price, n);
      BudgetKept(Taken(t, q[0].price, n), AfterFill(q, n), s + 1);
    }
  }

  /**
   When a market buy cannot go on, exactly: its budget is spent, no reachable order is left,
   the best order is unpriced, the leftover cannot pay for one unit at the best price, or
   converts to a quantity that does not fit int64.
   */
  lemma BudgetStops(t: OrderVal, q: seq<OrderVal>)
    requires Open(q) && t.MarketBuy() && t.remainingQuote >= 0
    ensures !CanEat(t, q) <==>
      || t.remainingQuote == 0 || q == [] || q[0].price <= 0
      || t.remainingQuote * BASE < q[0].price
      || t.remainingQuote * BASE >= (MAX_INT64 + 1) * q[0].price
  {
    if q != [] && q[0].price > 0 {
      NothingAffordable(t.remainingQuote, q[0].price);
    }
  }

  /** A market buy goes on until it cannot: it ends in exactly one of those cases. */
  lemma BudgetUsed(t: OrderVal, q: seq<OrderVal>, s: nat)
    requires Open(q) && t.MarketBuy() && t.remainingQuote >= 0
    ensures var r := Eat(t, q, s);
      || r.taker.remainingQuote == 0 || r.rest == [] || r.rest[0].price <= 0
      || r.taker.remainingQuote * BASE < r.rest[0].price
      || r.taker.remainingQuote * BASE >= (MAX_INT64 + 1) * r.rest[0].price
  {
    hide CanEat;
    var r := Eat(t, q, s);
    EatStops(t, q, s);
    EatConserves(t, q, s);
    BudgetKept(t, q, s);
    BudgetStops(r.taker, r.rest);
  }

  // ---- rounding of the reserve ----

  /** Every fill has a positive quantity and a price no higher than `price`. */
  ghost predicate FilledWithin(fills: seq<Fill>, price: int) {
    forall i :: 0 <= i < |fills| ==> 0 < fills[i].trade.qty && fills[i].trade.price <= price
  }

  lemma {:induction false} FilledQtyAtLeast(fills: seq<Fill>, price: int)
    requires FilledWithin(fills, price)
    ensures FilledQty(fills) >= |fills|
  {
    if fills != [] {
      assert forall i :: 0 <= i < |fills[1..]| ==> fills[1..][i] == fills[i + 1];
      FilledQtyAtLeast(fills[1..], price);
    }
  }

  /**
   What a limit buy freezes covers its fills one by one: floors of parts at prices within
   the limit never add up to more than the floor of the whole.
   */
  lemma {:induction false} ReserveCovers(fills: seq<Fill>, price: int, qty: int)
    requires FilledWithin(fills, price) && FilledQty(fills) <= qty
    ensures FillCost(fills) <= QuoteUnits(price, qty)
  {
    if fills != [] {
      var t := fills[0].trade;
      assert forall i :: 0 <= i < |fills[1..]| ==> fills[1..][i] == fills[i + 1];
      FilledQtyAtLeast(fills[1..], price);
      ReserveCovers(fills[1..], price, qty - t.qty);
      QuoteMonotone(t.price, price, t.qty);
      QuoteSuperAdditive(price, t.qty, qty - t.qty);
    }
  }

  /** Filled in `n` parts, all at its limit, a buy leaves less than `n` units of its reserve unspent. */
  lemma {:induction false} DustBound(fills: seq<Fill>, price: int)
    requires fills != [] && FilledWithin(fills, price)
    requires forall i :: 0 <= i < |fills| ==> fills[i].trade.price == price
    ensures FillCost(fills) <= QuoteUnits(price, FilledQty(fills)) <= FillCost(fills) + |fills| - 1
  {
    ReserveCovers(fills, price, FilledQty(fills));
    var t, rest := fills[0].trade, fills[1..];
    if rest == [] {
      assert FilledQty(rest) == 0 && FillCost(rest) == 0;
    } else {
      assert forall i :: 0 <= i < |rest| ==> rest[i] == fills[i + 1];
      FilledQtyAtLeast(rest, price);
      DustBound(rest, price);
      QuoteSplitLoss(price, t.qty, FilledQty(rest));
    }
  }
}
