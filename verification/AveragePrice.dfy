/** How far the iterated, rounded-down average price of an order can drift. */
module AveragePrice {
  import opened Domain
  import opened FixedPoint
  import opened Matching

  /** Exact value traded. */
  function Notional(fills: seq<Fill>): int {
    if fills == [] then 0 else fills[0].trade.price * fills[0].trade.qty + Notional(fills[1..])
  }

  /**
   After `n` fills worth `notional`, the recorded average never exceeds the exact one and
   is less than `n` units below it.
   */
  ghost predicate Tracks(o: OrderVal, notional: int, n: nat) {
    && o.filled >= 0
    && (o.filled == 0 ==> notional == 0)
    && (o.filled > 0 ==> o.avg * o.filled <= notional < o.avg * o.filled + n * o.filled)
  }

  ghost predicate AvgWithin(o: OrderVal, lo: int, hi: int) {
    o.filled > 0 ==> lo <= o.avg <= hi
  }

  /** One more fill keeps the average within one more unit of the exact mean. */
  lemma AverageStep(avg: int, filled: int, notional: int, n: nat, p: int, q: int)
    requires filled >= 0 && q > 0
    requires filled == 0 ==> notional == 0
    requires filled > 0 ==> avg * filled <= notional < avg * filled + n * filled
    ensures var a := WeightedAvg(avg, filled, p, q);
      a * (filled + q) <= notional + p * q < a * (filled + q) + (n + 1) * (filled + q)
  {
  }

  lemma AverageBetween(avg: int, filled: int, p: int, q: int, lo: int, hi: int)
    requires filled >= 0 && q > 0 && lo <= p <= hi
    requires filled > 0 ==> lo <= avg <= hi
    ensures lo <= WeightedAvg(avg, filled, p, q) <= hi
  {
    var total := filled + q;
    var x := avg * filled + p * q;
    MulMono(lo, p, q);
    MulMono(p, hi, q);
    if filled > 0 {
      MulMono(lo, avg, filled);
      MulMono(avg, hi, filled);
    } else {
      assert avg * filled == 0 && lo * filled == 0 && hi * filled == 0;
    }
    assert lo * total == lo * filled + lo * q;
    assert hi * total == hi * filled + hi * q;
    QuotientLargest(x, total, lo);
    assert (hi + 1) * total == hi * total + total;
    QuotientSmallest(x, total, hi + 1);
  }

  /** Rounding over a whole match: one unit per fill at most, never upwards. */
  lemma {:induction false} TakerAverage(t: OrderVal, q: seq<OrderVal>, s: nat, notional: int, n: nat)
    requires Open(q) && Tracks(t, notional, n)
    ensures var r := Eat(t, q, s);
      Tracks(r.taker, notional + Notional(r.fills), n + |r.fills|)
    decreases TotalQty(q)
  {
    if CanEat(t, q) {
      var k := FillQty(t, q[0]);
      AfterFillShrinks(q, k);
      AverageStep(t.avg, t.filled, notional, n, q[0].price, k);
      var t', q' := Taken(t, q[0].price, k), AfterFill(q, k);
      TakerAverage(t', q', s + 1, notional + q[0].price * k, n + 1);
      assert Eat(t, q, s).fills[1..] == Eat(t', q', s + 1).fills;
    }
  }

  /** The average stays between the cheapest and the dearest price met. */
  lemma {:induction false} TakerAverageWithin(t: OrderVal, q: seq<OrderVal>, s: nat, lo: int, hi: int)
    requires Open(q) && t.filled >= 0 && AvgWithin(t, lo, hi)
    requires forall i :: 0 <= i < |q| && Crosses(t, q[i].price) ==> lo <= q[i].price <= hi
    ensures AvgWithin(Eat(t, q, s).taker, lo, hi)
    decreases TotalQty(q)
  {
    if CanEat(t, q) {
      var k := FillQty(t, q[0]);
      AfterFillShrinks(q, k);
      AverageBetween(t.avg, t.filled, q[0].price, k, lo, hi);
      var t', q' := Taken(t, q[0].price, k), AfterFill(q, k);
      assert forall i :: 0 <= i < |q'| ==> q'[i] in q || q'[i] == Made(q[0], k);
      TakerAverageWithin(t', q', s + 1, lo, hi);
    }
  }

  /** A limit order is never recorded at an average beyond its own limit. */
  lemma {:induction false} LimitKept(t: OrderVal, q: seq<OrderVal>, s: nat)
    requires Open(q) && t.typ.Limit? && t.filled >= 0
    requires t.filled > 0 ==> if t.side.Buy? then t.avg <= t.price else t.avg >= t.price
    ensures var r := Eat(t, q, s);
      r.taker.filled > 0 ==> if t.side.Buy? then r.taker.avg <= t.price else r.taker.avg >= t.price
    decreases TotalQty(q)
  {
    if CanEat(t, q) {
      var k := FillQty(t, q[0]);
      AfterFillShrinks(q, k);
      var p, a := q[0].price, t.avg;
      if t.filled == 0 {
        AverageBetween(a, t.filled, p, k, p, p);
      } else {
        AverageBetween(a, t.filled, p, k, Min(a, p), if a < p then p else a);
      }
      LimitKept(Taken(t, p, k), AfterFill(q, k), s + 1);
    }
  }
}
