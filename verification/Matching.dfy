/**
 The matching rule, stated on one list of resting orders sorted by price and then
 by arrival, and what one order is allowed to do to that list.
 */
module Matching {
  import opened Domain
  import opened FixedPoint

  /** Strictly better price for a resting order: higher for bids, lower for asks. */
  predicate Better(isBid: bool, p: int, q: int) {
    if isBid then p > q else p < q
  }

  /** Sorted by price; orders of one price keep their arrival order. */
  ghost predicate Sorted(isBid: bool, q: seq<OrderVal>) {
    forall i, j :: 0 <= i < j < |q| ==> !Better(isBid, q[j].price, q[i].price)
  }

  /** Every order has something left to fill. */
  ghost predicate Open(q: seq<OrderVal>) {
    forall i :: 0 <= i < |q| ==> q[i].remaining > 0
  }

  ghost predicate UniqueIds(q: seq<OrderVal>) {
    forall i, j :: 0 <= i < j < |q| ==> q[i].id != q[j].id
  }

  predicate HasId(q: seq<OrderVal>, id: OrderId) {
    exists i :: 0 <= i < |q| && q[i].id == id
  }

  function TotalQty(q: seq<OrderVal>): int {
    if q == [] then 0 else q[0].remaining + TotalQty(q[1..])
  }

  /** The part of the list resting at one price, in arrival order. */
  function AtPrice(q: seq<OrderVal>, p: int): seq<OrderVal> {
    if q == [] then []
    else if q[0].price == p then [q[0]] + AtPrice(q[1..], p)
    else AtPrice(q[1..], p)
  }

  // ---- one fill ----

  predicate Exhausted(t: OrderVal) {
    if t.MarketBuy() then t.remainingQuote <= 0 else t.remaining <= 0
  }

  /** Whether the taker accepts a resting price. */
  predicate Crosses(t: OrderVal, p: int) {
    t.typ.Limit? ==> if t.side.Buy? then p <= t.price else p >= t.price
  }

  /** Quantity of the next fill; market buys convert what is left of their budget. */
  function FillQty(t: OrderVal, m: OrderVal): (n: int)
    ensures n <= m.remaining
    ensures !t.MarketBuy() ==> n <= t.remaining
  {
    if t.MarketBuy()
    then Min(QuoteToQty(t.remainingQuote, m.price), m.remaining)
    else Min(t.remaining, m.remaining)
  }

  function Taken(t: OrderVal, p: int, n: int): OrderVal {
    t.(avg := WeightedAvg(t.avg, t.filled, p, n),
       remaining := t.remaining - n,
       filled := t.filled + n,
       remainingQuote := if t.MarketBuy() then t.remainingQuote - QuoteUnits(p, n) else t.remainingQuote)
  }

  function Made(m: OrderVal, n: int): OrderVal {
    m.(avg := WeightedAvg(m.avg, m.filled, m.price, n),
       remaining := m.remaining - n,
       filled := m.filled + n,
       status := if m.remaining == n then Filled else PartiallyFilled)
  }

  function TradeOf(t: OrderVal, m: OrderVal, n: int, seqNo: nat): Trade {
    Trade(m.price, n, m.id, t.id, m.user, t.user, t.side, m.side, seqNo)
  }

  /** A trade together with the maker as the trade left it. */
  datatype Fill = Fill(trade: Trade, maker: OrderVal)

  /** What is left of the list once its head has been filled by `n`. */
  function AfterFill(q: seq<OrderVal>, n: int): seq<OrderVal>
    requires q != []
  {
    if q[0].remaining == n then q[1..] else [Made(q[0], n)] + q[1..]
  }

  // ---- the matching rule ----

  /** The next fill exists: both sides have something left and agree on the price. */
  predicate CanEat(t: OrderVal, q: seq<OrderVal>) {
    !Exhausted(t) && q != [] && Crosses(t, q[0].price) && FillQty(t, q[0]) > 0
  }

  lemma FillSize(t: OrderVal, q: seq<OrderVal>)
    requires CanEat(t, q)
    ensures q != [] && 0 < FillQty(t, q[0]) <= q[0].remaining
  {
  }

  datatype Eaten = Eaten(taker: OrderVal, rest: seq<OrderVal>, fills: seq<Fill>)

  /** The reference matcher: eat the head of the sorted list while both sides agree. */
  function Eat(t: OrderVal, q: seq<OrderVal>, seqNo: nat): (r: Eaten)
    requires Open(q)
    decreases TotalQty(q)
  {
    if !CanEat(t, q) then Eaten(t, q, [])
    else
      var n := FillQty(t, q[0]);
      AfterFillShrinks(q, n);
      var r := Eat(Taken(t, q[0].price, n), AfterFill(q, n), seqNo + 1);
      Eaten(r.taker, r.rest, [Fill(TradeOf(t, q[0], n, seqNo + 1), Made(q[0], n))] + r.fills)
  }

  lemma {:induction false} TotalQtyPositive(q: seq<OrderVal>)
    requires Open(q)
    ensures TotalQty(q) >= |q|
  {
    if q != [] {
      TotalQtyPositive(q[1..]);
    }
  }

  /** Every fill, even one that costs nothing, strictly lowers the resting quantity. */
  lemma AfterFillShrinks(q: seq<OrderVal>, n: int)
    requires Open(q) && q != [] && 0 < n <= q[0].remaining
    ensures Open(AfterFill(q, n))
    ensures TotalQty(AfterFill(q, n)) == TotalQty(q) - n
    ensures 0 <= TotalQty(AfterFill(q, n)) < TotalQty(q)
  {
    var q' := AfterFill(q, n);
    if q[0].remaining != n {
      assert q'[1..] == q[1..];
    }
    TotalQtyPositive(q');
  }

  /** An order as the fills leave it, if it was the maker of some. */
  function Patched(v: OrderVal, fills: seq<Fill>): OrderVal {
    if fills == [] then v
    else
      var last := fills[|fills| - 1];
      if last.maker.id == v.id then last.maker else Patched(v, fills[..|fills| - 1])
  }

  // ---- what a match may do to the list ----

  function FilledQty(fills: seq<Fill>): int {
    if fills == [] then 0 else fills[0].trade.qty + FilledQty(fills[1..])
  }

  function FillCost(fills: seq<Fill>): nat {
    if fills == [] then 0
    else QuoteUnits(fills[0].trade.price, fills[0].trade.qty) + FillCost(fills[1..])
  }

  /** Parts of the taker no fill can change. */
  ghost predicate SameOrder(a: OrderVal, b: OrderVal) {
    a.id == b.id && a.user == b.user && a.side == b.side && a.typ == b.typ && a.tif == b.tif
    && a.price == b.price && a.qty == b.qty && a.amountQuote == b.amountQuote
  }

  /**
   Quantity is conserved by a match: what the taker gained, the list lost, and the fills
   add up to both.
   */
  lemma {:induction false} EatConserves(t: OrderVal, q: seq<OrderVal>, s: nat)
    requires Open(q)
    ensures var r := Eat(t, q, s);
      && SameOrder(t, r.taker)
      && r.taker.filled - t.filled == t.remaining - r.taker.remaining == FilledQty(r.fills)
      && TotalQty(r.rest) == TotalQty(q) - FilledQty(r.fills)
      && Open(r.rest)
      && (!t.MarketBuy() && t.remaining >= 0 ==> r.taker.remaining >= 0)
      && FilledQty(r.fills) >= |r.fills|
    decreases TotalQty(q)
  {
    if CanEat(t, q) {
      var n := FillQty(t, q[0]);
      AfterFillShrinks(q, n);
      EatConserves(Taken(t, q[0].price, n), AfterFill(q, n), s + 1);
    }
  }

  /** `rest` is `q` without its first `k` orders, the next one possibly reduced. */
  ghost predicate PrefixEaten(q: seq<OrderVal>, rest: seq<OrderVal>, k: nat) {
    k <= |q| && |rest| == |q| - k
    && (rest != [] ==> rest[1..] == q[k + 1..])
    && (rest != [] ==> SameOrder(rest[0], q[k]) && 0 < rest[0].remaining <= q[k].remaining)
  }

  /** Number of resting orders a match fills completely. */
  ghost function EatenWhole(fills: seq<Fill>): nat {
    if fills == [] then 0
    else (if fills[0].maker.remaining == 0 then 1 else 0) + EatenWhole(fills[1..])
  }

  /** Only the first `k` orders of the list, or the one after them, are named by the fills. */
  ghost predicate MakersWithin(fills: seq<Fill>, q: seq<OrderVal>, k: nat) {
    forall i :: 0 <= i < |fills| ==> IdWithin(q, k, fills[i].maker.id)
  }

  ghost predicate IdWithin(q: seq<OrderVal>, k: nat, id: OrderId) {
    exists j :: 0 <= j < |q| && j <= k && q[j].id == id
  }

  lemma IdWithinTail(q: seq<OrderVal>, q': seq<OrderVal>, k: nat, k': nat, id: OrderId)
    requires q != [] && IdWithin(q', k', id)
    requires (q' == q[1..] && k == k' + 1) || (|q'| == |q| && q'[0].id == q[0].id && q'[1..] == q[1..] && k == k')
    ensures IdWithin(q, k, id)
  {
  }

  /**
   Full price-time priority: the resting orders touched by a match form a prefix of the
   sorted list, all of it filled completely except possibly its last order. Hence no
   better-placed crossing order is ever left behind.
   */
  lemma {:induction false} EatPriority(t: OrderVal, q: seq<OrderVal>, s: nat)
    requires Open(q)
    ensures var r := Eat(t, q, s); var k := EatenWhole(r.fills);
      PrefixEaten(q, r.rest, k) && MakersWithin(r.fills, q, k)
    decreases TotalQty(q)
  {
    if CanEat(t, q) {
      var n := FillQty(t, q[0]);
      AfterFillShrinks(q, n);
      var t', q' := Taken(t, q[0].price, n), AfterFill(q, n);
      EatPriority(t', q', s + 1);
      var r, r' := Eat(t, q, s), Eat(t', q', s + 1);
      var k, k' := EatenWhole(r.fills), EatenWhole(r'.fills);
      assert r.fills[1..] == r'.fills;
      PrefixStep(q, n, r.rest, k', k);
      forall i | 0 <= i < |r.fills|
        ensures IdWithin(q, k, r.fills[i].maker.id)
      {
        if i == 0 {
          assert q[0].id == r.fills[i].maker.id;
        } else {
          assert r.fills[i] == r'.fills[i - 1];
          IdWithinTail(q, q', k, k', r.fills[i].maker.id);
        }
      }
    }
  }

  lemma PrefixStep(q: seq<OrderVal>, n: int, rest: seq<OrderVal>, k': nat, k: nat)
    requires q != [] && 0 < n <= q[0].remaining
    requires k == if q[0].remaining == n then k' + 1 else k'
    requires PrefixEaten(AfterFill(q, n), rest, k')
    ensures PrefixEaten(q, rest, k)
  {
  }

  /**
   A match stops only when the taker is exhausted, the best remaining price does not
   cross, nothing is left to match, or (market buys only) the leftover budget converts
   to no quantity at the best price.
   */
  lemma {:induction false} EatStops(t: OrderVal, q: seq<OrderVal>, s: nat)
    requires Open(q)
    ensures var r := Eat(t, q, s);
      !CanEat(r.taker, r.rest)
      && (Exhausted(r.taker) || r.rest == [] || !Crosses(t, r.rest[0].price)
          || (t.MarketBuy() && QuoteToQty(r.taker.remainingQuote, r.rest[0].price) <= 0))
    decreases TotalQty(q)
  {
    if CanEat(t, q) {
      var n := FillQty(t, q[0]);
      AfterFillShrinks(q, n);
      EatStops(Taken(t, q[0].price, n), AfterFill(q, n), s + 1);
    }
  }
}
