/**
 Candles: trades folded into one candle per interval bucket, for every interval at once,
 keeping the newest thousand.
 */
module Candles {
  import opened FixedPoint

  /** A trade as the aggregator sees it: the clock, the price, the quantity. */
  datatype Tick = Tick(time: nat, price: int, qty: int)

  datatype Candle = Candle(
    openTime: int, open: int, high: int, low: int, close: int, volume: int, closeTime: int, closed: bool
  )

  /** The supported intervals, finest first. */
  const INTERVALS: seq<nat> := [60_000, 300_000, 900_000, 3_600_000, 14_400_000, 86_400_000]

  predicate Supported(ms: nat): (yes: bool)
    ensures yes ==> ms > 0
  {
    ms in INTERVALS
  }

  const KEPT := 1000

  function Bucket(time: nat, ms: nat): nat
    requires ms > 0
  {
    time - time % ms
  }

  /** The candle a first trade opens. */
  function Opened(t: Tick, ms: nat): Candle
    requires ms > 0
  {
    Candle(Bucket(t.time, ms), t.price, t.price, t.price, t.price, t.qty, Bucket(t.time, ms) + ms, false)
  }

  /** A further trade of the same bucket. */
  function Hit(c: Candle, t: Tick): Candle {
    c.(high := Max(t.price, c.high), low := Min(t.price, c.low), close := t.price, volume := c.volume + t.qty)
  }

  function Close(cs: seq<Candle>): seq<Candle> {
    if cs == [] then [] else cs[..|cs| - 1] + [cs[|cs| - 1].(closed := true)]
  }

  /** Whether the newest candle is open and is the one the trade belongs to. */
  predicate Current(cs: seq<Candle>, t: Tick, ms: nat)
    requires ms > 0
  {
    cs != [] && !cs[|cs| - 1].closed && cs[|cs| - 1].openTime == Bucket(t.time, ms)
  }

  /** One trade, before old candles are dropped. */
  function Step(cs: seq<Candle>, t: Tick, ms: nat): seq<Candle>
    requires ms > 0
  {
    if Current(cs, t, ms) then cs[..|cs| - 1] + [Hit(cs[|cs| - 1], t)]
    else Close(cs) + [Opened(t, ms)]
  }

  /** All candles of a sequence of trades. */
  function Folded(ts: seq<Tick>, ms: nat): seq<Candle>
    requires ms > 0
  {
    if ts == [] then [] else Step(Folded(ts[..|ts| - 1], ms), ts[|ts| - 1], ms)
  }

  /** The newest candles, as many as are kept. */
  function Newest(cs: seq<Candle>): (r: seq<Candle>)
    ensures |r| <= KEPT && (cs != [] ==> r != [] && r[|r| - 1] == cs[|cs| - 1])
  {
    if |cs| > KEPT then cs[|cs| - KEPT..] else cs
  }

  // ---- dropping old candles changes nothing else ----

  /** The newest of a list are the newest of any tail of it long enough. */
  lemma NewestTail(cs: seq<Candle>, d: nat)
    requires d <= |cs| && (d == 0 || |cs| - d >= KEPT)
    ensures Newest(cs[d..]) == Newest(cs)
  {
    if d == 0 {
      assert cs[0..] == cs;
    } else if |cs| - d > KEPT {
      assert cs[d..][|cs| - d - KEPT..] == cs[|cs| - KEPT..];
    }
  }

  /** Changing the last candle, or closing it and adding one, commutes with dropping the oldest. */
  lemma DropFirst(cs: seq<Candle>, d: nat, c: Candle)
    requires d < |cs|
    ensures cs[d..][..|cs| - d - 1] + [c] == (cs[..|cs| - 1] + [c])[d..]
    ensures Close(cs[d..]) == Close(cs)[d..] && |Close(cs)| == |cs|
    ensures Close(cs[d..]) + [c] == (Close(cs) + [c])[d..]
  {
    var last := cs[|cs| - 1].(closed := true);
    assert cs[d..][..|cs| - d - 1] + [last] == (cs[..|cs| - 1] + [last])[d..];
  }

  /** Closing the newest candle where it stands. */
  lemma CloseInPlace(cs: seq<Candle>)
    ensures Close(cs) ==
      if cs != [] && !cs[|cs| - 1].closed then cs[|cs| - 1 := cs[|cs| - 1].(closed := true)] else cs
  {
  }

  /** Which candle comes last does not matter to the others kept. */
  lemma NewestLast(front: seq<Candle>, c: Candle, c': Candle)
    ensures var kept := Newest(front + [c]); kept[..|kept| - 1] + [c'] == Newest(front + [c'])
  {
  }

  lemma StepTail(cs: seq<Candle>, d: nat, t: Tick, ms: nat)
    requires ms > 0 && d < |cs|
    ensures |Step(cs, t, ms)| >= |cs| && Step(cs[d..], t, ms) == Step(cs, t, ms)[d..]
  {
    hide Bucket, Hit, Opened, Close;
    assert cs[d..][|cs[d..]| - 1] == cs[|cs| - 1];
    if Current(cs, t, ms) {
      DropFirst(cs, d, Hit(cs[|cs| - 1], t));
    } else {
      DropFirst(cs, d, Opened(t, ms));
    }
  }

  /** Folding one more trade into the kept candles keeps the newest of all candles. */
  lemma NewestStep(cs: seq<Candle>, t: Tick, ms: nat)
    requires ms > 0
    ensures Newest(Step(Newest(cs), t, ms)) == Newest(Step(cs, t, ms))
  {
    hide Step;
    if |cs| > KEPT {
      var d := |cs| - KEPT;
      StepTail(cs, d, t, ms);
      NewestTail(Step(cs, t, ms), d);
    }
  }

  /** What one trade does to candles of which no more than are kept. */
  lemma KeptStep(cs: seq<Candle>, t: Tick, ms: nat)
    requires ms > 0 && |cs| <= KEPT
    ensures Current(cs, t, ms) ==> Newest(Step(cs, t, ms)) == cs[..|cs| - 1] + [Hit(cs[|cs| - 1], t)]
    ensures !Current(cs, t, ms) ==> Newest(Step(cs, t, ms)) == Newest(Close(cs) + [Opened(t, ms)])
  {
  }

  // ---- what a candle says ----

  /** The trades of one bucket, in order. */
  function Within(ts: seq<Tick>, ms: nat, open: int): seq<Tick>
    requires ms > 0
  {
    if ts == [] then []
    else Within(ts[..|ts| - 1], ms, open) + if Bucket(ts[|ts| - 1].time, ms) == open then [ts[|ts| - 1]] else []
  }

  function Highest(ts: seq<Tick>): int
    requires ts != []
  {
    if |ts| == 1 then ts[0].price else Max(ts[|ts| - 1].price, Highest(ts[..|ts| - 1]))
  }

  function Lowest(ts: seq<Tick>): int
    requires ts != []
  {
    if |ts| == 1 then ts[0].price else Min(ts[|ts| - 1].price, Lowest(ts[..|ts| - 1]))
  }

  function Volume(ts: seq<Tick>): int {
    if ts == [] then 0 else Volume(ts[..|ts| - 1]) + ts[|ts| - 1].qty
  }

  /** The candle says first and last price, extremes and volume of these trades. */
  ghost predicate Tells(c: Candle, ts: seq<Tick>, ms: nat) {
    && ts != [] && c.open == ts[0].price && c.close == ts[|ts| - 1].price
    && c.high == Highest(ts) && c.low == Lowest(ts) && c.volume == Volume(ts) && c.closeTime == c.openTime + ms
  }

  ghost predicate Ticking(ts: seq<Tick>) {
    forall i, j :: 0 <= i < j < |ts| ==> ts[i].time <= ts[j].time
  }

  /** The candles of these trades: in order, each telling its bucket, every bucket with a trade told. */
  ghost predicate Grouped(cs: seq<Candle>, ts: seq<Tick>, ms: nat)
    requires ms > 0
  {
    && (forall i, j :: 0 <= i < j < |cs| ==> cs[i].openTime < cs[j].openTime)
    && (forall i :: 0 <= i < |cs| ==>
          Tells(cs[i], Within(ts, ms, cs[i].openTime), ms) && (cs[i].closed <==> i < |cs| - 1))
    && (forall k :: 0 <= k < |ts| ==> Starts(cs, Bucket(ts[k].time, ms)))
  }

  ghost predicate Starts(cs: seq<Candle>, b: int) { exists i :: 0 <= i < |cs| && cs[i].openTime == b }

  lemma StartsAt(cs: seq<Candle>, i: nat)
    requires i < |cs|
    ensures Starts(cs, cs[i].openTime)
  {
  }

  /** All buckets of earlier trades, and of one more, have their candles. */
  lemma AllStart(cs: seq<Candle>, cs': seq<Candle>, ts: seq<Tick>, t: Tick, ms: nat)
    requires ms > 0 && forall k :: 0 <= k < |ts| ==> Starts(cs, Bucket(ts[k].time, ms))
    requires |cs| <= |cs'| && forall i :: 0 <= i < |cs| ==> cs'[i].openTime == cs[i].openTime
    requires Starts(cs', Bucket(t.time, ms))
    ensures forall k :: 0 <= k < |ts + [t]| ==> Starts(cs', Bucket((ts + [t])[k].time, ms))
  {
  }

  lemma BucketMonotone(a: nat, b: nat, ms: nat)
    requires ms > 0 && a <= b
    ensures Bucket(a, ms) <= Bucket(b, ms) && Bucket(a, ms) >= 0
  {
    DivBounds(a, ms);
    DivBounds(b, ms);
    QuotientLargest(b, ms, a / ms);
    MulMono(a / ms, b / ms, ms);
    assert a % ms == a - (a / ms) * ms && b % ms == b - (b / ms) * ms;
  }

  lemma {:induction false} WithinMember(ts: seq<Tick>, ms: nat, open: int) returns (k: nat)
    requires ms > 0 && Within(ts, ms, open) != []
    ensures k < |ts| && Bucket(ts[k].time, ms) == open
  {
    var n := |ts| - 1;
    if Bucket(ts[n].time, ms) == open {
      k := n;
    } else {
      k := WithinMember(ts[..n], ms, open);
    }
  }

  lemma {:induction false} WithinNone(ts: seq<Tick>, ms: nat, open: int)
    requires ms > 0 && forall k :: 0 <= k < |ts| ==> Bucket(ts[k].time, ms) != open
    ensures Within(ts, ms, open) == []
  {
    if ts != [] {
      WithinNone(ts[..|ts| - 1], ms, open);
    }
  }

  /** One more trade of the bucket told. */
  lemma HitTells(c: Candle, ts: seq<Tick>, t: Tick, ms: nat)
    requires Tells(c, ts, ms)
    ensures Tells(Hit(c, t), ts + [t], ms)
  {
  }

  lemma WithinLast(ts: seq<Tick>, t: Tick, ms: nat, open: int)
    requires ms > 0
    ensures Within(ts + [t], ms, open) == Within(ts, ms, open) + if Bucket(t.time, ms) == open then [t] else []
  {
  }

  /** No candle of earlier trades starts after the bucket of a later one. */
  lemma NoneAhead(cs: seq<Candle>, ts: seq<Tick>, t: Tick, ms: nat, i: nat)
    requires ms > 0 && Grouped(cs, ts, ms) && i < |cs|
    requires forall k :: 0 <= k < |ts| ==> ts[k].time <= t.time
    ensures cs[i].openTime <= Bucket(t.time, ms)
  {
    var k := WithinMember(ts, ms, cs[i].openTime);
    BucketMonotone(ts[k].time, t.time, ms);
  }

  lemma GroupedHit(cs: seq<Candle>, ts: seq<Tick>, t: Tick, ms: nat)
    requires ms > 0 && Grouped(cs, ts, ms) && Current(cs, t, ms)
    ensures Grouped(Step(cs, t, ms), ts + [t], ms)
  {
    hide Tells, Within, Bucket, Hit, Starts;
    var cs', n := Step(cs, t, ms), |cs| - 1;
    HitOpens(cs[n], t);
    forall i | 0 <= i < |cs|
      ensures Tells(cs'[i], Within(ts + [t], ms, cs'[i].openTime), ms)
    {
      WithinLast(ts, t, ms, cs[i].openTime);
      if i == n {
        HitTells(cs[n], Within(ts, ms, cs[n].openTime), t, ms);
      } else {
        assert cs[i].openTime < cs[n].openTime;
        assert Within(ts, ms, cs[i].openTime) + [] == Within(ts, ms, cs[i].openTime);
      }
    }
    StartsAt(cs', n);
    AllStart(cs, cs', ts, t, ms);
  }

  lemma HitOpens(c: Candle, t: Tick)
    ensures Hit(c, t).openTime == c.openTime && Hit(c, t).closed == c.closed
  {
  }

  lemma OpenedTells(t: Tick, ms: nat)
    requires ms > 0
    ensures Tells(Opened(t, ms), [t], ms) && Opened(t, ms).openTime == Bucket(t.time, ms) && !Opened(t, ms).closed
  {
  }

  /** Closing the newest candle changes its flag alone. */
  lemma CloseIs(cs: seq<Candle>)
    ensures |Close(cs)| == |cs|
    ensures forall i :: 0 <= i < |cs| - 1 ==> Close(cs)[i] == cs[i]
    ensures cs != [] ==> Close(cs)[|cs| - 1] == cs[|cs| - 1].(closed := true)
  {
  }

  /** A bucket after all candles has no trades yet. */
  lemma NoneYet(cs: seq<Candle>, ts: seq<Tick>, ms: nat, b: int)
    requires ms > 0 && Grouped(cs, ts, ms) && forall i :: 0 <= i < |cs| ==> cs[i].openTime < b
    ensures Within(ts, ms, b) == []
  {
    hide Tells, Within, Bucket;
    forall k | 0 <= k < |ts|
      ensures Bucket(ts[k].time, ms) != b
    {
      assert Starts(cs, Bucket(ts[k].time, ms));
    }
    WithinNone(ts, ms, b);
  }

  lemma OpenTells(cs: seq<Candle>, ts: seq<Tick>, t: Tick, ms: nat, i: nat)
    requires ms > 0 && Grouped(cs, ts, ms) && i <= |cs|
    requires forall i :: 0 <= i < |cs| ==> cs[i].openTime < Bucket(t.time, ms)
    ensures var c := (Close(cs) + [Opened(t, ms)])[i]; Tells(c, Within(ts + [t], ms, c.openTime), ms)
  {
    hide Within, Bucket, Opened, Close, Starts;
    CloseIs(cs);
    OpenedTells(t, ms);
    if i < |cs| {
      var c := cs[i];
      WithinLast(ts, t, ms, c.openTime);
      assert Tells(c, Within(ts, ms, c.openTime), ms);
      assert Within(ts, ms, c.openTime) + [] == Within(ts, ms, c.openTime);
    } else {
      NoneYet(cs, ts, ms, Bucket(t.time, ms));
      WithinLast(ts, t, ms, Bucket(t.time, ms));
      assert [] + [t] == [t];
    }
  }

  lemma GroupedOpen(cs: seq<Candle>, ts: seq<Tick>, t: Tick, ms: nat)
    requires ms > 0 && Grouped(cs, ts, ms) && !Current(cs, t, ms)
    requires forall k :: 0 <= k < |ts| ==> ts[k].time <= t.time
    ensures Grouped(Step(cs, t, ms), ts + [t], ms)
  {
    hide Within, Bucket, Opened, Close, Starts, Tells;
    var cs', b := Step(cs, t, ms), Bucket(t.time, ms);
    CloseIs(cs);
    OpenedTells(t, ms);
    forall i | 0 <= i < |cs|
      ensures cs[i].openTime < b
    {
      NoneAhead(cs, ts, t, ms, |cs| - 1);
      assert i < |cs| - 1 ==> cs[i].openTime < cs[|cs| - 1].openTime;
    }
    forall i | 0 <= i < |cs'|
      ensures Tells(cs'[i], Within(ts + [t], ms, cs'[i].openTime), ms)
    {
      OpenTells(cs, ts, t, ms, i);
    }
    StartsAt(cs', |cs|);
    AllStart(cs, cs', ts, t, ms);
  }

  /**
   For a clock that never goes back, the candles of an interval are exactly the trades
   grouped by bucket: strictly increasing, each telling its bucket, none missing, only the
   newest open.
   */
  lemma {:induction false} FoldedGroups(ts: seq<Tick>, ms: nat)
    requires ms > 0 && Ticking(ts)
    ensures Grouped(Folded(ts, ms), ts, ms)
    decreases |ts|
  {
    hide Step, Bucket, Tells, Within, Current, Starts;
    if ts != [] {
      var front, t := ts[..|ts| - 1], ts[|ts| - 1];
      FoldedGroups(front, ms);
      assert ts == front + [t];
      if Current(Folded(front, ms), t, ms) {
        GroupedHit(Folded(front, ms), front, t, ms);
      } else {
        GroupedOpen(Folded(front, ms), front, t, ms);
      }
    }
  }

  // ---- rolling up ----

  /** Two candles, one after the other, as one. */
  function Merged(c: Candle, d: Candle): Candle {
    c.(high := Max(d.high, c.high), low := Min(d.low, c.low), close := d.close, volume := c.volume + d.volume)
  }

  /** A candle as the only one of a coarser bucket. */
  function Widened(c: Candle, ms: nat): Candle
    requires ms > 0 && c.openTime >= 0
  {
    c.(openTime := Bucket(c.openTime, ms), closeTime := Bucket(c.openTime, ms) + ms, closed := false)
  }

  ghost predicate Timed(cs: seq<Candle>) { forall i :: 0 <= i < |cs| ==> cs[i].openTime >= 0 }

  function Absorb(cs: seq<Candle>, d: Candle, ms: nat): seq<Candle>
    requires ms > 0 && d.openTime >= 0
  {
    var w := Widened(d, ms);
    if cs != [] && cs[|cs| - 1].openTime == w.openTime then cs[..|cs| - 1] + [Merged(cs[|cs| - 1], w)]
    else Close(cs) + [w]
  }

  /** Candles merged into the buckets of a coarser interval. */
  function Coarsen(cs: seq<Candle>, ms: nat): seq<Candle>
    requires ms > 0 && Timed(cs)
  {
    if cs == [] then [] else Absorb(Coarsen(cs[..|cs| - 1], ms), cs[|cs| - 1], ms)
  }

  lemma BucketNests(t: nat, fine: nat, k: nat)
    requires fine > 0 && k > 0
    ensures Bucket(Bucket(t, fine), fine * k) == Bucket(t, fine * k)
  {
    var g := fine * k;
    var q, n := t / g, t / fine;
    DivBounds(t, g);
    DivBounds(t, fine);
    assert Bucket(t, fine) == n * fine && Bucket(t, g) == q * g;
    assert q * g == (q * k) * fine;
    QuotientLargest(t, fine, q * k);
    MulMono(q * k, n, fine);
    BucketIs(n * fine, g, q);
  }

  lemma BucketIs(t: nat, ms: nat, q: nat)
    requires ms > 0 && q * ms <= t < q * ms + ms
    ensures Bucket(t, ms) == q * ms
  {
    QuotientLargest(t, ms, q);
    assert (q + 1) * ms == q * ms + ms;
    QuotientSmallest(t, ms, q + 1);
    assert t % ms == t - (t / ms) * ms;
  }

  ghost predicate LastOpen(cs: seq<Candle>) { cs != [] ==> !cs[|cs| - 1].closed }

  ghost predicate OnTime(cs: seq<Candle>, ms: nat) {
    forall i :: 0 <= i < |cs| ==> cs[i].closeTime == cs[i].openTime + ms
  }

  lemma StepTimed(cs: seq<Candle>, t: Tick, ms: nat)
    requires ms > 0 && Timed(cs) && LastOpen(cs) && OnTime(cs, ms)
    ensures Timed(Step(cs, t, ms)) && LastOpen(Step(cs, t, ms)) && OnTime(Step(cs, t, ms), ms)
  {
  }

  lemma {:induction false} FoldedTimed(ts: seq<Tick>, ms: nat)
    requires ms > 0
    ensures Timed(Folded(ts, ms)) && LastOpen(Folded(ts, ms)) && OnTime(Folded(ts, ms), ms)
    decreases |ts|
  {
    if ts != [] {
      hide Step;
      FoldedTimed(ts[..|ts| - 1], ms);
      StepTimed(Folded(ts[..|ts| - 1], ms), ts[|ts| - 1], ms);
    }
  }

  lemma AbsorbOpen(cs: seq<Candle>, d: Candle, ms: nat)
    requires ms > 0 && d.openTime >= 0 && LastOpen(cs)
    ensures var r := Absorb(cs, d, ms);
      r != [] && LastOpen(r) && r[|r| - 1].openTime == Bucket(d.openTime, ms)
  {
  }

  lemma CoarsenOpen(cs: seq<Candle>, ms: nat)
    requires ms > 0 && Timed(cs)
    ensures LastOpen(Coarsen(cs, ms))
    decreases |cs|
  {
  }

  lemma CoarsenLast(cs: seq<Candle>, c: Candle, ms: nat)
    requires ms > 0 && Timed(cs) && c.openTime >= 0
    ensures Coarsen(cs + [c], ms) == Absorb(Coarsen(cs, ms), c, ms)
  {
  }

  /** A trade of the newest fine candle belongs to the newest coarse one. */
  lemma AbsorbHit(cs: seq<Candle>, c: Candle, t: Tick, ms: nat)
    requires ms > 0 && c.openTime >= 0 && LastOpen(cs) && Bucket(t.time, ms) == Bucket(c.openTime, ms)
    ensures Absorb(cs, Hit(c, t), ms) == Step(Absorb(cs, c, ms), t, ms)
  {
    hide Bucket, Close;
    AbsorbOpen(cs, c, ms);
  }

  /** A trade that opens a fine candle goes where the coarse fold puts it. */
  lemma AbsorbOpened(cs: seq<Candle>, t: Tick, fine: nat, k: nat)
    requires fine > 0 && k > 0 && LastOpen(cs)
    ensures Opened(t, fine).openTime >= 0
    ensures Absorb(cs, Opened(t, fine), fine * k) == Step(cs, t, fine * k)
  {
    BucketNests(t.time, fine, k);
    hide Bucket, Close;
  }

  lemma CoarsenClose(cs: seq<Candle>, ms: nat)
    requires ms > 0 && Timed(cs)
    ensures Timed(Close(cs)) && Coarsen(Close(cs), ms) == Coarsen(cs, ms)
  {
  }

  lemma RollUpStep(cs: seq<Candle>, t: Tick, fine: nat, k: nat)
    requires fine > 0 && k > 0 && Timed(cs) && LastOpen(cs) && Timed(Step(cs, t, fine))
    ensures Coarsen(Step(cs, t, fine), fine * k) == Step(Coarsen(cs, fine * k), t, fine * k)
  {
    hide Absorb, Hit, Opened, Bucket, Close, Coarsen;
    var g := fine * k;
    CoarsenOpen(cs, g);
    if Current(cs, t, fine) {
      var n := |cs| - 1;
      BucketNests(t.time, fine, k);
      CoarsenLast(cs[..n], cs[n], g);
      HitOpens(cs[n], t);
      CoarsenLast(cs[..n], Hit(cs[n], t), g);
      CoarsenOpen(cs[..n], g);
      AbsorbHit(Coarsen(cs[..n], g), cs[n], t, g);
      assert cs == cs[..n] + [cs[n]];
    } else {
      CoarsenClose(cs, g);
      AbsorbOpened(Coarsen(cs, g), t, fine, k);
      CoarsenLast(Close(cs), Opened(t, fine), g);
    }
  }

  /**
   The candles of an interval are the candles of any interval dividing it, merged bucket by
   bucket: open of the first, close of the last, the extremes, the sum of the volumes. This
   asks nothing of the clock.
   */
  lemma {:induction false} RollUp(ts: seq<Tick>, fine: nat, k: nat)
    requires fine > 0 && k > 0
    ensures Timed(Folded(ts, fine)) && Coarsen(Folded(ts, fine), fine * k) == Folded(ts, fine * k)
    decreases |ts|
  {
    hide Step, Coarsen;
    FoldedTimed(ts, fine);
    if ts == [] {
      NoneToCoarsen(fine * k);
    } else {
      var front, t := ts[..|ts| - 1], ts[|ts| - 1];
      RollUp(front, fine, k);
      FoldedTimed(front, fine);
      RollUpStep(Folded(front, fine), t, fine, k);
    }
  }

  lemma NoneToCoarsen(ms: nat)
    requires ms > 0
    ensures Coarsen([], ms) == []
  {
  }

  /** Each supported interval is a whole number of the one before, so each rolls up into the next. */
  lemma IntervalsRollUp(ts: seq<Tick>, i: nat)
    requires i < |INTERVALS| - 1
    ensures Timed(Folded(ts, INTERVALS[i]))
    ensures INTERVALS[i + 1] > 0 && Coarsen(Folded(ts, INTERVALS[i]), INTERVALS[i + 1]) == Folded(ts, INTERVALS[i + 1])
  {
    hide Coarsen, Folded, Timed;
    var k := INTERVALS[i + 1] / INTERVALS[i];
    assert INTERVALS[i + 1] == INTERVALS[i] * k;
    RollUp(ts, INTERVALS[i], k);
  }
}
