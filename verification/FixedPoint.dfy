/**
 Fixed-point arithmetic of the exchange: prices, quantities and amounts are integers
 in units of 1e-8, products are rounded down, and a result that does not fit int64
 is refused.
 */
module FixedPoint {
  import opened Wrappers

  const BASE := 100_000_000
  const MAX_INT64 := 0x7fff_ffff_ffff_ffff

  function Min(a: int, b: int): int { if a < b then a else b }

  function Max(a: int, b: int): int { if a > b then a else b }

  /** Two's-complement reading of the low 64 bits, as `big.Int.Int64` gives it. */
  function WrapInt64(x: int): (r: int)
    ensures -MAX_INT64 - 1 <= r <= MAX_INT64
    ensures -MAX_INT64 - 1 <= x <= MAX_INT64 ==> r == x
  {
    (x + (MAX_INT64 + 1)) % (2 * (MAX_INT64 + 1)) - (MAX_INT64 + 1)
  }

  /** What is dropped is a whole number of times two to the 64. */
  lemma WrapsWhole(x: int)
    ensures (x - WrapInt64(x)) % (2 * (MAX_INT64 + 1)) == 0
  {
  }

  /** Quote amount of `qty` at `price`, rounded down; zero when either is not positive. */
  function QuoteUnits(price: int, qty: int): (r: nat)
  {
    if price <= 0 || qty <= 0 then 0 else Quotient(price * qty, BASE)
  }

  /** The conversion used to freeze, match and settle; refuses what int64 cannot hold. */
  function PriceQtyToQuote(price: int, qty: int): (r: Option<nat>)
    ensures r.Some? ==> r.value <= MAX_INT64
  {
    var n := QuoteUnits(price, qty);
    if n > MAX_INT64 then None else Some(n)
  }

  /** Largest quantity `quote` can buy at `price`, or 0 if that does not fit int64. */
  function QuoteToQty(quote: int, price: int): (r: int)
    ensures r <= MAX_INT64
  {
    if price <= 0 then 0
    else
      var n := Quotient(quote * BASE, price);
      if -MAX_INT64 - 1 <= n <= MAX_INT64 then n else 0
  }

  /** Quantity-weighted mean of two prices, rounded down. */
  function WeightedAvg(curAvg: int, curQty: int, price: int, addQty: int): (r: int)
  {
    if curQty + addQty <= 0 then 0
    else Quotient(curAvg * curQty + price * addQty, curQty + addQty)
  }

  /** Euclidean division with its defining inequalities. */
  function Quotient(x: int, d: int): (k: int)
    requires d > 0
    ensures k * d <= x < k * d + d
    ensures x >= 0 ==> k >= 0
  {
    DivBounds(x, d);
    x / d
  }

  lemma DivBounds(x: int, d: int)
    requires d > 0
    ensures (x / d) * d <= x < (x / d) * d + d
    ensures x >= 0 ==> x / d >= 0
  {
  }

  lemma MulMono(x: int, y: int, k: int)
    requires x <= y && k >= 0
    ensures x * k <= y * k && k * x <= k * y
  {
  }

  /** A quotient is the largest multiple below: anything whose multiple fits is no larger. */
  lemma QuotientLargest(x: int, d: int, k: int)
    requires d > 0 && k * d <= x
    ensures k <= Quotient(x, d)
  {
    var n := Quotient(x, d);
    assert (n + 1) * d == n * d + d;
    if k > n {
      MulMono(n + 1, k, d);
    }
  }

  /** Anything whose multiple exceeds `x` is strictly larger than the quotient. */
  lemma QuotientSmallest(x: int, d: int, k: int)
    requires d > 0 && x < k * d
    ensures Quotient(x, d) < k
  {
  }

  /** Rounding down a split never costs more than rounding down the whole. */
  lemma QuoteSuperAdditive(price: int, q: int, r: int)
    requires q >= 0 && r >= 0
    ensures QuoteUnits(price, q) + QuoteUnits(price, r) <= QuoteUnits(price, q + r)
  {
  }

  /** A cheaper price never costs more. */
  lemma QuoteMonotone(p: int, p': int, q: int)
    requires p <= p'
    ensures QuoteUnits(p, q) <= QuoteUnits(p', q)
  {
  }

  /** Splitting a quantity in two loses at most one unit to rounding. */
  lemma QuoteSplitLoss(price: int, q: int, r: int)
    requires q >= 0 && r >= 0
    ensures QuoteUnits(price, q + r) <= QuoteUnits(price, q) + QuoteUnits(price, r) + 1
  {
  }

  /** Every quantity the budget conversion admits is within the budget. */
  lemma WithinBudget(quote: int, price: int, q: int)
    requires 0 < q <= QuoteToQty(quote, price)
    ensures QuoteUnits(price, q) <= quote
  {
    var n := Quotient(quote * BASE, price);
    MulMono(q, n, price);
    assert price * q == q * price;
    assert (quote + 1) * BASE == quote * BASE + BASE;
    if QuoteUnits(price, q) > quote {
      MulMono(quote + 1, QuoteUnits(price, q), BASE);
    }
  }

  /** A budget admits nothing exactly if it cannot pay for one unit, or converts to more than int64 holds. */
  lemma NothingAffordable(quote: int, price: int)
    requires price > 0 && quote >= 0
    ensures QuoteToQty(quote, price) <= 0 <==> quote * BASE < price || quote * BASE >= (MAX_INT64 + 1) * price
  {
    var x := quote * BASE;
    var n := Quotient(x, price);
    if x >= (MAX_INT64 + 1) * price {
      QuotientLargest(x, price, MAX_INT64 + 1);
    } else {
      QuotientSmallest(x, price, MAX_INT64 + 1);
    }
    if x < price {
      QuotientSmallest(x, price, 1);
    } else {
      QuotientLargest(x, price, 1);
    }
  }
}
