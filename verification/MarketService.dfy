/**
 The market data service: for each symbol the newest trades and, for each interval, the
 newest candles, updated trade by trade.
 */
module MarketService {
  import opened Candles
  import Sets

  const TRADES_KEPT := 200

  /** The newest trades, newest first. */
  function Recent(ts: seq<Tick>): (r: seq<Tick>)
    ensures |r| == if |ts| < TRADES_KEPT then |ts| else TRADES_KEPT
    ensures forall i :: 0 <= i < |r| ==> r[i] == ts[|ts| - 1 - i]
  {
    seq(if |ts| < TRADES_KEPT then |ts| else TRADES_KEPT, i requires 0 <= i < |ts| => ts[|ts| - 1 - i])
  }

  class MarketService {
    var klines: map<(string, nat), seq<Candle>>
    var lastTrades: map<string, seq<Tick>>
    /** Every trade ever aggregated, by symbol. */
    ghost var history: map<string, seq<Tick>>

    ghost function History(symbol: string): seq<Tick>
      reads this`history
    {
      if symbol in history then history[symbol] else []
    }

    function Klines(symbol: string, ms: nat): seq<Candle>
      reads this`klines
    {
      if (symbol, ms) in klines then klines[(symbol, ms)] else []
    }

    function RecentTrades(symbol: string): seq<Tick>
      reads this`lastTrades
    {
      if symbol in lastTrades then lastTrades[symbol] else []
    }

    /** The candles kept for a symbol are the newest of its history. */
    ghost predicate Kept(symbol: string, ts: seq<Tick>)
      reads this`klines
    {
      forall ms :: Supported(ms) ==> Klines(symbol, ms) == Newest(Folded(ts, ms))
    }

    /** What is kept are the newest candles and trades of the whole history. */
    ghost predicate Valid()
      reads this
    {
      && (forall symbol :: Kept(symbol, History(symbol)))
      && (forall symbol :: RecentTrades(symbol) == Recent(History(symbol)))
    }

    constructor ()
      ensures Valid() && forall symbol :: History(symbol) == []
    {
      klines, lastTrades, history := map[], map[], map[];
    }

    /** `aggregate`: the recent trades, then every interval, in whatever order. */
    method Aggregate(symbol: string, t: Tick)
      requires Valid()
      modifies this
      ensures Valid()
      ensures History(symbol) == old(History(symbol)) + [t]
      ensures forall s :: s != symbol ==> History(s) == old(History(s))
    {
      hide Newest, Folded, Recent, Supported, Kept;
      ghost var before := History(symbol);
      AddRecent(symbol, t);
      AddToAll(symbol, t, before);
      history := history[symbol := before + [t]];
      forall s
        ensures Kept(s, History(s)) && RecentTrades(s) == Recent(History(s))
      {
        if s != symbol {
          assert old(RecentTrades(s)) == Recent(old(History(s)));
          assert old(Kept(s, History(s)));
          KeptSame(s);
        }
      }
    }

    /** The candles of one symbol depend on no other's. */
    twostate lemma KeptSame(s: string)
      requires old(Kept(s, History(s))) && History(s) == old(History(s))
      requires forall ms :: Klines(s, ms) == old(Klines(s, ms))
      ensures Kept(s, History(s))
    {
    }

    /** Every interval, in whatever order. */
    method AddToAll(symbol: string, t: Tick, ghost before: seq<Tick>)
      requires Kept(symbol, before)
      modifies this`klines
      ensures Kept(symbol, before + [t])
      ensures forall s, ms :: s != symbol ==> Klines(s, ms) == old(Klines(s, ms))
    {
      hide Newest, Folded, Supported;
      var rest := AllIntervals();
      while rest != {}
        invariant forall ms :: ms in rest ==> Supported(ms)
        invariant forall ms :: Supported(ms) && ms !in rest ==> Klines(symbol, ms) == Newest(Folded(before + [t], ms))
        invariant forall ms :: ms in rest ==> Klines(symbol, ms) == Newest(Folded(before, ms))
        invariant forall s, ms :: s != symbol ==> Klines(s, ms) == old(Klines(s, ms))
        decreases rest
      {
        ghost var some := Sets.Member(rest);
        var ms :| ms in rest;
        rest := rest - {ms};
        AddToInterval(symbol, ms, t, before);
      }
    }

    static function AllIntervals(): (r: set<nat>)
      ensures forall ms :: ms in r <==> Supported(ms)
    {
      set ms | ms in INTERVALS
    }

    /** Raise the high, lower the low, move the close, add the volume. */
    static method Touch(c: Candle, t: Tick, closeTime: int) returns (cur: Candle)
      requires c.closeTime == closeTime
      ensures cur == Hit(c, t)
    {
      cur := c;
      if t.price > cur.high {
        cur := cur.(high := t.price);
      }
      if t.price < cur.low {
        cur := cur.(low := t.price);
      }
      cur := cur.(close := t.price, volume := cur.volume + t.qty, closeTime := closeTime);
    }

    static lemma BlankHit(t: Tick, ms: nat)
      requires ms > 0
      ensures var open := Bucket(t.time, ms);
        Hit(Candle(open, t.price, t.price, t.price, t.price, 0, open + ms, false), t) == Opened(t, ms)
    {
    }

    /** Mark the newest candle as closed. */
    static method CloseNewest(arr: seq<Candle>) returns (next: seq<Candle>)
      ensures next == Close(arr)
    {
      hide Close;
      CloseInPlace(arr);
      next := arr;
      if arr != [] && !arr[|arr| - 1].closed {
        next := arr[|arr| - 1 := arr[|arr| - 1].(closed := true)];
      }
    }

    /** Close the newest candle, start the next, and drop the oldest. */
    static method StartNext(arr: seq<Candle>, t: Tick, ms: nat) returns (next: seq<Candle>)
      requires ms > 0 && |arr| <= KEPT
      ensures |next| > 0 && next[|next| - 1].closeTime == Bucket(t.time, ms) + ms
      ensures next[..|next| - 1] + [Hit(next[|next| - 1], t)] == Newest(Close(arr) + [Opened(t, ms)])
    {
      hide Bucket, Hit, Opened, Close;
      var open := Bucket(t.time, ms);
      var blank := Candle(open, t.price, t.price, t.price, t.price, 0, open + ms, false);
      BlankHit(t, ms);
      next := CloseNewest(arr);
      NewestLast(next, blank, Opened(t, ms));
      next := next + [blank];
      if |next| > KEPT {
        next := next[|next| - KEPT..];
      }
    }

    /** One interval: extend the current candle, or start the next. */
    method AddToInterval(symbol: string, ms: nat, t: Tick, ghost before: seq<Tick>)
      requires Supported(ms) && Klines(symbol, ms) == Newest(Folded(before, ms))
      modifies this`klines
      ensures Klines(symbol, ms) == Newest(Folded(before + [t], ms))
      ensures klines == old(klines)[(symbol, ms) := Klines(symbol, ms)]
    {
      hide Bucket, Hit, Opened, Close, Folded, Supported, Step, Newest;
      var arr := Klines(symbol, ms);
      KeptOnTime(before, ms);
      NewestStep(Folded(before, ms), t, ms);
      KeptStep(arr, t, ms);
      FoldedNext(before, t, ms);
      var open := Bucket(t.time, ms);
      if arr == [] || arr[|arr| - 1].closed || arr[|arr| - 1].openTime != open {
        arr := StartNext(arr, t, ms);
      }
      var cur := Touch(arr[|arr| - 1], t, open + ms);
      arr := arr[..|arr| - 1] + [cur];
      klines := klines[(symbol, ms) := arr];
    }

    static lemma FoldedNext(before: seq<Tick>, t: Tick, ms: nat)
      requires ms > 0
      ensures Folded(before + [t], ms) == Step(Folded(before, ms), t, ms)
    {
    }

    static lemma KeptOnTime(before: seq<Tick>, ms: nat)
      requires ms > 0
      ensures OnTime(Newest(Folded(before, ms)), ms)
    {
      FoldedTimed(before, ms);
    }

    /** Prepend the trade, and keep the newest. */
    method AddRecent(symbol: string, t: Tick)
      requires RecentTrades(symbol) == Recent(History(symbol))
      modifies this`lastTrades
      ensures RecentTrades(symbol) == Recent(History(symbol) + [t])
      ensures lastTrades == old(lastTrades)[symbol := RecentTrades(symbol)]
    {
      var trades := [t] + RecentTrades(symbol);
      if |trades| > TRADES_KEPT {
        trades := trades[..TRADES_KEPT];
      }
      lastTrades := lastTrades[symbol := trades];
    }
  }
}
