/**
 Books kept to the unit: the frozen funds of every account are exactly what its orders hold
 and its pending withdrawals reserve, no order is given more than it holds, and every
 resting order holds enough for the rest of its life.
 */
module Solvency {
  import opened Wrappers
  import opened Domain
  import opened FixedPoint
  import opened Matching
  import opened Books
  import opened EngineModel
  import opened Ledger
  import opened Conservation
  import opened Settlement
  import opened Exchange
  import opened Guarantees
  import opened Sums

  /** What a pending withdrawal reserves in one account. */
  function ReservedIn(a: Account): (nat, Withdrawal) -> int {
    (id: nat, w: Withdrawal) => if w.user == a.user && w.asset == a.asset then w.Reserved() else 0
  }

  /** Every resting order of every market is backed. */
  ghost predicate BooksBacked(engines: map<string, Eng>, p: Purse) {
    forall s :: s in engines ==>
      AllBacked(p, s, engines[s].bids.Resting()) && AllBacked(p, s, engines[s].asks.Resting())
  }

  function LooseIn(loose: map<Account, nat>, a: Account): nat { if a in loose then loose[a] else 0 }

  /** Frozen funds are what orders hold plus what pending withdrawals reserve, plus what is loose. */
  ghost predicate Pooled(led: Led, p: Purse, markets: map<string, Market>, ws: map<nat, Withdrawal>,
      loose: map<Account, nat>)
  {
    forall a :: Slack(led, p, markets, a) == Sum(ws, ReservedIn(a)) + LooseIn(loose, a)
  }

  ghost predicate WithdrawalsOk(ws: map<nat, Withdrawal>) {
    forall id :: id in ws && ws[id].stage.Pending? ==> ws[id].amount > 0
  }

  /** The books of account balance and conserve every asset. */
  ghost predicate LedgerOk(led: Led) { Reconciled(led) && Conserved(led) }

  ghost predicate Inv(x: Ex) {
    && ShapeOk(x)
    && LedgerOk(x.led)
    && HeldOk(x.purse)
    && Pooled(x.led, x.purse, x.markets, x.withdrawals, x.loose)
    && WithdrawalsOk(x.withdrawals)
    && BooksBacked(x.engines, x.purse)
  }

  // ---- the pool ----

  lemma ReservedCovers(ws: map<nat, Withdrawal>, a: Account)
    requires WithdrawalsOk(ws)
    ensures Sum(ws, ReservedIn(a)) >= 0
  {
  }

  lemma PooledIsOk(led: Led, p: Purse, markets: map<string, Market>, ws: map<nat, Withdrawal>, loose: map<Account, nat>)
    requires Pooled(led, p, markets, ws, loose) && HeldOk(p) && WithdrawalsOk(ws)
    ensures PoolOk(led, p, markets)
  {
    hide Slack;
    forall a
      ensures Slack(led, p, markets, a) >= 0
    {
      ReservedCovers(ws, a);
    }
  }

  lemma SlackKeepsPool(led: Led, p: Purse, led': Led, p': Purse, markets: map<string, Market>, ws: map<nat, Withdrawal>,
      loose: map<Account, nat>)
    requires Pooled(led, p, markets, ws, loose) && SameSlack(led, p, led', p', markets)
    ensures Pooled(led', p', markets, ws, loose)
  {
  }

  lemma BooksKept(led: Led, led': Led)
    requires LedgerOk(led) && SameBooks(led, led')
    ensures LedgerOk(led')
  {
    hide Reconciled;
    forall asset
      ensures Owned(led', asset) == External(led'.entries, asset)
    {
      assert Gap(led', asset) == Gap(led, asset);
      assert Owned(led, asset) == External(led.entries, asset);
    }
  }

  /** Every ledger operation except settlement keeps the books. */
  lemma OpKeepsBooks(led: Led, op: Ledger.Op)
    requires !op.SettleOp? && Reconciled(led)
    ensures SameBooks(led, Perform(led, op))
  {
    hide Reconciled, Gap, Perform;
    SimpleOpConserves(led, op);
    StepReconciles(led, op);
  }

  // ---- releasing ----

  /** Releasing one order's unspent funds: the slack moves by what was settled but not recorded. */
  lemma ReleaseSlack(led: Led, p: Purse, markets: map<string, Market>, id: OrderId)
    requires PoolOk(led, p, markets) && id in p && p[id].market in markets && p[id].funded
    requires p[id].settled <= p[id].spent
    ensures var a := Account(p[id].user, markets[p[id].market].AssetOf(p[id].side));
      var (led', p') := Release(led, p, id, a);
      && SameSlack(led, p, led', p', markets) && HeldOk(p')
      && (p[id].frozen - p[id].spent > 0 ==> Unfreeze(led, a, p[id].frozen - p[id].spent).1.None?)
  {
    var m := p[id];
    var a := Account(m.user, markets[m.market].AssetOf(m.side));
    var rest := m.frozen - m.spent;
    PoolCovers(led, p, markets, id);
    if rest > 0 {
      var m' := m.(frozen := m.frozen - rest);
      var led' := Unfreeze(led, a, rest).0;
      forall b
        ensures Slack(led', p[id := m'], markets, b) == Slack(led, p, markets, b)
      {
        SlackWrite(led', p, markets, id, m', b);
      }
    }
  }

  /**
   Exactly when a release gives an order no more than it held: when everything settled
   against the order has been recorded in its spending.
   */
  lemma ReleaseExact(led: Led, p: Purse, markets: map<string, Market>, id: OrderId)
    requires PoolOk(led, p, markets) && id in p && p[id].market in markets && p[id].funded
    ensures var a := Account(p[id].user, markets[p[id].market].AssetOf(p[id].side));
      var (led', p') := Release(led, p, id, a);
      HeldOk(p') <==> p[id].settled <= p[id].spent
  {
    var m := p[id];
    if m.settled <= m.spent {
      ReleaseSlack(led, p, markets, id);
    } else {
      var a := Account(m.user, markets[m.market].AssetOf(m.side));
      var p' := Release(led, p, id, a).1;
      assert m.frozen - m.settled >= 0;
      assert p'[id].Held() < 0;
    }
  }

  lemma ReleaseBooks(led: Led, p: Purse, id: OrderId, a: Account)
    requires id in p && LedgerOk(led)
    ensures LedgerOk(Release(led, p, id, a).0)
  {
    var rest := p[id].frozen - p[id].spent;
    if rest > 0 {
      OpKeepsBooks(led, UnfreezeOp(a, rest));
      BooksKept(led, Release(led, p, id, a).0);
    }
  }

  // ---- funding an order ----

  /** What a validated request becomes: a fresh order with a positive, int64-sized stake. */
  ghost predicate Staked(o: OrderVal) {
    && Submittable(o) && (o.typ.Limit? || o.typ.Market?)
    && (if o.MarketBuy() then 0 < o.amountQuote <= MAX_INT64 else 0 < o.qty <= MAX_INT64)
    && o.remainingQuote <= MAX_INT64
  }

  lemma BuildStakes(mk: Market, id: OrderId, user: string, r: Request)
    requires mk.minQty > 0 && mk.minNotional > 0 && !r.typ.OtherType? && Build(mk, id, user, r).Ok?
    ensures var o := Build(mk, id, user, r).value; Staked(o) && o.id == id && o.user == user && o.side == r.side
  {
    hide DecimalText.Parse;
  }

  /** A trade a new order would accept on its own. */
  predicate Admits(o: OrderVal, t: Trade) {
    0 < t.qty && if o.MarketBuy() then 0 < t.price && t.qty <= QuoteToQty(o.amountQuote, t.price)
                 else Crosses(o, t.price) && t.qty <= o.qty
  }

  function TradeAt(price: int, qty: int): Trade { Trade(price, qty, 0, 0, "", "", Buy, Sell, 0) }

  /** What an order freezes is exactly the most a trade can cost it: never exceeded, and reached. */
  lemma ReserveExact(o: OrderVal)
    requires Staked(o) && FreezeAmount(o).Some?
    ensures forall t :: Admits(o, t) ==> Cost(o.side, t) <= FreezeAmount(o).value
    ensures exists t :: Admits(o, t) && Cost(o.side, t) == FreezeAmount(o).value
  {
    forall t | Admits(o, t)
      ensures Cost(o.side, t) <= FreezeAmount(o).value
    {
      AdmittedCost(o, t);
    }
    if o.MarketBuy() {
      var t := TradeAt(BASE, o.amountQuote);
      QuotientIs(o.amountQuote);
      assert Admits(o, t);
    } else {
      var t := TradeAt(o.price, o.qty);
      assert Admits(o, t);
    }
  }

  lemma AdmittedCost(o: OrderVal, t: Trade)
    requires Staked(o) && FreezeAmount(o).Some? && Admits(o, t)
    ensures Cost(o.side, t) <= FreezeAmount(o).value
  {
    if o.MarketBuy() {
      WithinBudget(o.amountQuote, t.price, t.qty);
    } else if o.side.Buy? {
      QuoteMonotone(t.price, o.price, t.qty);
      QuoteSuperAdditive(o.price, t.qty, o.qty - t.qty);
    }
  }

  lemma QuotientIs(n: nat)
    ensures Quotient(n * BASE, BASE) == n && Quotient(BASE * n, BASE) == n
  {
    QuotientLargest(n * BASE, BASE, n);
    QuotientSmallest(n * BASE, BASE, n + 1);
  }

  /** A new order takes no resting order's id, and its money leaves the others backed. */
  lemma BooksBackedAdd(engines: map<string, Eng>, p: Purse, id: OrderId, m: Money)
    requires BooksBacked(engines, p) && id !in p
    ensures BooksBacked(engines, p[id := m])
    ensures forall s :: s in engines ==> !engines[s].Active(id)
  {
    forall s | s in engines
      ensures !engines[s].Active(id)
      ensures AllBacked(p[id := m], s, engines[s].bids.Resting()) && AllBacked(p[id := m], s, engines[s].asks.Resting())
    {
      BackedAdd(p, s, engines[s].bids.Resting(), id, m);
      BackedAdd(p, s, engines[s].asks.Resting(), id, m);
    }
  }

  lemma BackedAdd(p: Purse, market: string, q: seq<OrderVal>, id: OrderId, m: Money)
    requires AllBacked(p, market, q) && id !in p
    ensures AllBacked(p[id := m], market, q) && !HasId(q, id)
  {
  }

  /** The state with one more stored order whose money is `m`. */
  lemma StoreKeeps(x: Ex, led: Led, o: OrderVal, m: Money)
    requires Inv(x) && o.id !in x.purse && o.id <= x.lastOrder && m.market in x.markets
    requires LedgerOk(led) && 0 <= m.Held() <= MAX_INT64
    requires forall a :: Get(led, a).frozen == Get(x.led, a).frozen + HeldIn(x.markets, a)(o.id, m)
    ensures Inv(Store(x.(led := led), o, m))
  {
    hide LedgerOk, EngOk, AllBacked;
    var p := x.purse[o.id := m];
    BooksBackedAdd(x.engines, x.purse, o.id, m);
    forall a
      ensures Slack(led, p, x.markets, a) == Sum(x.withdrawals, ReservedIn(a)) + LooseIn(x.loose, a)
    {
      SlackWrite(led, x.purse, x.markets, o.id, m, a);
      assert Slack(x.led, x.purse, x.markets, a) == Sum(x.withdrawals, ReservedIn(a)) + LooseIn(x.loose, a);
    }
  }

  lemma FreezeFacts(led: Led, a: Account, qty: int)
    requires LedgerOk(led)
    ensures var (led', err) := Freeze(led, a, qty);
      && LedgerOk(led')
      && (err.Some? ==> forall b :: Get(led', b) == Get(led, b))
      && (err.None? ==> qty > 0 && forall b :: (Get(led', b) == if b == a
            then Balance(Get(led, b).available - qty, Get(led, b).frozen + qty) else Get(led, b)))
  {
    OpKeepsBooks(led, FreezeOp(a, qty));
    BooksKept(led, Freeze(led, a, qty).0);
  }

  /** A funded order is stored with exactly the funds it may cost, and is backed by them. */
  lemma FundedKeeps(x: Ex, o: OrderVal, market: string, amount: int)
    requires Inv(x) && Staked(o) && o.id !in x.purse && o.id <= x.lastOrder && market in x.markets
    requires FreezeAmount(o) == Some(amount)
    requires Freeze(x.led, Account(o.user, x.markets[market].AssetOf(o.side)), amount).1.None?
    ensures var led := Freeze(x.led, Account(o.user, x.markets[market].AssetOf(o.side)), amount).0;
      var x' := Store(x.(led := led), o, MoneyOf(o, market, true, amount));
      Inv(x') && Backed(x'.purse, market, o) && !x'.engines[market].Active(o.id)
  {
    hide LedgerOk, Pooled, BooksBacked, EngOk, HeldOk;
    var a := Account(o.user, x.markets[market].AssetOf(o.side));
    var m := MoneyOf(o, market, true, amount);
    FreezeFacts(x.led, a, amount);
    var led := Freeze(x.led, a, amount).0;
    hide Freeze;
    forall b
      ensures Get(led, b).frozen == Get(x.led, b).frozen + HeldIn(x.markets, b)(o.id, m)
    {
    }
    StoreKeeps(x, led, o, m);
    BooksBackedAdd(x.engines, x.purse, o.id, m);
  }

  /** A refused order changes no funds. */
  lemma RefusedKeeps(x: Ex, led: Led, o: OrderVal, market: string, amount: int)
    requires Inv(x) && o.id !in x.purse && o.id <= x.lastOrder && market in x.markets
    requires LedgerOk(led) && forall b :: Get(led, b) == Get(x.led, b)
    ensures Inv(Store(x.(led := led), o, MoneyOf(o, market, false, amount)))
  {
    hide LedgerOk, Pooled, BooksBacked, EngOk;
    StoreKeeps(x, led, o, MoneyOf(o, market, false, amount));
  }

  // ---- executing a funded order ----

  /** An order about to be matched: stored, fully funded, nothing settled, not resting. */
  ghost predicate Entering(x: Ex, o: OrderVal, market: string) {
    && Inv(x) && market in x.markets && market in x.engines && Staked(o) && o.id in x.purse
    && Backed(x.purse, market, o) && x.purse[o.id].spent == 0 && x.purse[o.id].settled == 0
    && !x.engines[market].Active(o.id)
  }

  lemma QueueUnique(b: Book)
    requires BookOk(b)
    ensures UniqueIds(b.queue) && Open(b.queue)
    ensures forall id :: HasId(b.queue, id) ==> HasId(b.Resting(), id)
    ensures forall i :: 0 <= i < |b.hidden| ==> !HasId(b.queue, b.hidden[i].id)
  {
    var r := b.Resting();
    forall i | 0 <= i < |b.queue|
      ensures b.queue[i] == r[i]
    {
    }
    forall i | 0 <= i < |b.hidden|
      ensures b.hidden[i] == r[|b.queue| + i]
    {
    }
  }

  lemma EnteringPool(x: Ex)
    requires Inv(x)
    ensures PoolOk(x.led, x.purse, x.markets)
  {
    InvParts(x);
    WithdrawalsIn(x);
    hide Inv, ShapeOk, LedgerOk, Pooled, PoolOk, HeldOk;
    PooledIsOk(x.led, x.purse, x.markets, x.withdrawals, x.loose);
  }

  lemma WithdrawalsIn(x: Ex)
    requires Inv(x)
    ensures WithdrawalsOk(x.withdrawals)
  {
  }

  lemma QueueBacked(b: Book, p: Purse, market: string, side: Side)
    requires BookOk(b) && AllBacked(p, market, b.Resting()) && b.isBid == side.Buy?
    ensures AllBacked(p, market, b.queue)
    ensures forall i :: 0 <= i < |b.queue| ==> b.queue[i].side == side && b.queue[i].typ.Limit?
  {
    hide Sorted, UniqueIds, Placed, Backed;
    forall i | 0 <= i < |b.queue|
      ensures Backed(p, market, b.queue[i])
    {
      assert b.Resting()[i] == b.queue[i];
    }
  }

  lemma EnteringMatches(x: Ex, o: OrderVal, market: string)
    requires Entering(x, o, market)
    ensures MatchReady(o, x.engines[market].BookOf(o.side.Opposite()).queue, x.purse, market)
    ensures PoolOk(x.led, x.purse, x.markets)
  {
    hide Inv, AllBacked, PoolOk, EngOk, BookOk, Backed, Open, UniqueIds;
    var b := x.engines[market].BookOf(o.side.Opposite());
    EngOkIn(x, market);
    BookOkIn(x.engines[market], o.side.Opposite());
    QueueUnique(b);
    QueueBacked(b, x.purse, market, o.side.Opposite());
    EnteringPool(x);
  }

  /** Being backed only depends on which orders there are. */
  lemma BackedMembers(p: Purse, market: string, q: seq<OrderVal>, q': seq<OrderVal>)
    requires AllBacked(p, market, q) && forall v :: v in q' ==> v in q || Backed(p, market, v)
    ensures AllBacked(p, market, q')
  {
  }

  /** Orders outside a match stay backed by the purse the match leaves. */
  lemma BackedOutside(p: Purse, p': Purse, market: string, l: seq<OrderVal>, tid: OrderId, q: seq<OrderVal>)
    requires AllBacked(p, market, l) && OnlyMatch(p, p', tid, q)
    requires forall i :: 0 <= i < |l| ==> l[i].id != tid && !HasId(q, l[i].id)
    ensures AllBacked(p', market, l)
  {
  }

  /** A book of a side the match does not face stays backed. */
  lemma UnfacedBacked(e: Eng, p: Purse, p': Purse, other: string, market: string, q: seq<OrderVal>,
      t: OrderVal, side: Side)
    requires MatchReady(t, q, p, market) && OnlyMatch(p, p', t.id, q) && EngOk(e)
    requires AllBacked(p, other, e.BookOf(side).Resting()) && !HasId(e.BookOf(side).Resting(), t.id)
    requires other != market || side == t.side
    ensures AllBacked(p', other, e.BookOf(side).Resting())
  {
  }

  /** The book a match faces: what is left of its queue, and its hidden orders, stay backed. */
  lemma FacedBacked(b: Book, p: Purse, p': Purse, market: string, t: OrderVal, b': Book)
    requires BookOk(b) && OnlyMatch(p, p', t.id, b.queue)
    requires AllBacked(p, market, b.Resting()) && !HasId(b.Resting(), t.id)
    requires AllBacked(p', market, b'.queue) && b'.hidden == b.hidden
    ensures AllBacked(p', market, b'.Resting())
  {
    QueueUnique(b);
    forall i | 0 <= i < |b.hidden|
      ensures b.hidden[i].id != t.id && Backed(p, market, b.hidden[i])
    {
      assert b.Resting()[|b.queue| + i] == b.hidden[i];
    }
    BackedOutside(p, p', market, b.hidden, t.id, b.queue);
    forall v | v in b'.Resting()
      ensures Backed(p', market, v)
    {
      if v in b'.queue {
        var i :| 0 <= i < |b'.queue| && b'.queue[i] == v;
      } else {
        var i :| 0 <= i < |b'.hidden| && b'.hidden[i] == v;
      }
    }
    BackedMembers(p', market, [], b'.Resting());
  }

  lemma NotBackedElsewhere(p: Purse, market: string, other: string, q: seq<OrderVal>, id: OrderId)
    requires AllBacked(p, other, q) && id in p && p[id].market == market && other != market
    ensures !HasId(q, id)
  {
  }

  /** The id of a funded order is active in no other market. */
  lemma ActiveNowhereElse(x: Ex, o: OrderVal, market: string, s: string)
    requires Entering(x, o, market) && s in x.engines
    ensures !x.engines[s].Active(o.id)
  {
    if s != market {
      ActiveInOne(x, market, s, o.id);
    }
  }

  /** A market the match does not touch stays backed. */
  lemma OtherMarketBacked(x: Ex, o: OrderVal, market: string, p': Purse, s: string)
    requires Entering(x, o, market) && s in x.engines && s != market
    requires OnlyMatch(x.purse, p', o.id, x.engines[market].BookOf(o.side.Opposite()).queue)
    ensures AllBacked(p', s, x.engines[s].bids.Resting()) && AllBacked(p', s, x.engines[s].asks.Resting())
  {
    hide MatchReady, OnlyMatch, EngOk, BookOk, AllBacked;
    EnteringMatches(x, o, market);
    ActiveNowhereElse(x, o, market, s);
    EngOkIn(x, s);
    hide Entering, Inv;
    var q := x.engines[market].BookOf(o.side.Opposite()).queue;
    UnfacedBacked(x.engines[s], x.purse, p', s, market, q, o, Buy);
    UnfacedBacked(x.engines[s], x.purse, p', s, market, q, o, Sell);
  }

  /** Both books of the matched market stay backed. */
  lemma OwnMarketBacked(x: Ex, o: OrderVal, market: string, p': Purse)
    requires Entering(x, o, market)
    requires var q := x.engines[market].BookOf(o.side.Opposite()).queue;
      && OnlyMatch(x.purse, p', o.id, q)
      && AllBacked(p', market, Eat(o, q, x.engines[market].seqNo).rest)
    ensures var e' := AfterMatch(x.engines[market], o);
      AllBacked(p', market, e'.bids.Resting()) && AllBacked(p', market, e'.asks.Resting())
  {
    hide MatchBook, Eat, MatchReady, OnlyMatch, EngOk, BookOk, AllBacked;
    var e := x.engines[market];
    var b := e.BookOf(o.side.Opposite());
    EngOkIn(x, market);
    BookOkIn(e, o.side.Opposite());
    QueueUnique(b);
    var e' := AfterMatch(e, o);
    AfterMatchOk(e, o);
    MatchBookIsEat(o, b, e.seqNo);
    EnteringMatches(x, o, market);
    UnfacedBacked(e, x.purse, p', market, market, b.queue, o, o.side);
    FacedBacked(b, x.purse, p', market, o, e'.BookOf(o.side.Opposite()));
  }

  /** After matching, with the purse settlement leaves, every book of every market is backed. */
  lemma MatchKeepsBacked(x: Ex, o: OrderVal, market: string, p': Purse)
    requires Entering(x, o, market)
    requires var q := x.engines[market].BookOf(o.side.Opposite()).queue;
      && OnlyMatch(x.purse, p', o.id, q)
      && AllBacked(p', market, Eat(o, q, x.engines[market].seqNo).rest)
    ensures var e' := AfterMatch(x.engines[market], o);
      && EngOk(e') && !e'.Active(o.id)
      && BooksBacked(x.engines[market := e'], p')
  {
    hide AfterMatch, Eat, OnlyMatch, EngOk, AllBacked;
    AfterMatchOk(x.engines[market], o);
    OwnMarketBacked(x, o, market, p');
    forall s | s in x.engines && s != market
      ensures AllBacked(p', s, x.engines[s].bids.Resting()) && AllBacked(p', s, x.engines[s].asks.Resting())
    {
      OtherMarketBacked(x, o, market, p', s);
    }
  }

  lemma EngOkIn(x: Ex, s: string)
    requires Inv(x) && s in x.engines
    ensures EngOk(x.engines[s]) && s in x.markets
    ensures AllBacked(x.purse, s, x.engines[s].bids.Resting()) && AllBacked(x.purse, s, x.engines[s].asks.Resting())
  {
  }

  // ---- resting the remainder ----

  lemma AddBacked(b: Book, p: Purse, market: string, o: OrderVal)
    requires BookOk(b) && AllBacked(p, market, b.Resting()) && Backed(p, market, o)
    ensures AllBacked(p, market, AddOrder(b, o).Resting())
  {
    hide AddOrder, AllBacked, Backed;
    forall v | v in AddOrder(b, o).Resting()
      ensures v in b.Resting() || Backed(p, market, v)
    {
      AddMembers(b, o);
    }
    BackedMembers(p, market, b.Resting(), AddOrder(b, o).Resting());
  }

  /** The state once a backed order joins its book. */
  function Rested(x: Ex, o: OrderVal, market: string): Ex
    requires market in x.engines
  {
    var e := x.engines[market];
    x.(engines := x.engines[market := e.WithBook(o.side, AddOrder(e.BookOf(o.side), o))])
  }

  /** Replacing one market's engine by another whose orders are backed. */
  lemma EngineKeeps(x: Ex, market: string, e: Eng)
    requires Inv(x) && market in x.markets && EngOk(e)
    requires AllBacked(x.purse, market, e.bids.Resting()) && AllBacked(x.purse, market, e.asks.Resting())
    ensures Inv(x.(engines := x.engines[market := e]))
  {
    hide LedgerOk, Pooled, HeldOk, AllBacked, EngOk, BooksBacked;
    EnginesBacked(x.engines, x.purse, market, e);
  }

  lemma EnginesBacked(engines: map<string, Eng>, p: Purse, market: string, e: Eng)
    requires BooksBacked(engines, p)
    requires AllBacked(p, market, e.bids.Resting()) && AllBacked(p, market, e.asks.Resting())
    ensures BooksBacked(engines[market := e], p)
  {
  }

  lemma RestKeeps(x: Ex, o: OrderVal, market: string)
    requires Inv(x) && market in x.markets && Backed(x.purse, market, o)
    requires !x.engines[market].Active(o.id) && o.remaining > 0 && o.typ.Limit?
    ensures Inv(Rested(x, o, market))
  {
    hide AllBacked, AddOrder, EngOk, Backed;
    var e := x.engines[market];
    EngOkIn(x, market);
    BookOkIn(e, o.side);
    RestOk(e, o);
    AddBacked(e.BookOf(o.side), x.purse, market, o);
    EngineKeeps(x, market, e.WithBook(o.side, AddOrder(e.BookOf(o.side), o)));
  }

  // ---- matching and settling ----

  /** The state after a match and the settlement of its fills, before anything rests. */
  function MatchedState(x: Ex, o: OrderVal, market: string, tf: OrderVal): Ex
    requires market in x.engines && market in x.markets && Open(x.engines[market].BookOf(o.side.Opposite()).queue)
  {
    var e := x.engines[market];
    var fills := MatchBook(o, e.BookOf(o.side.Opposite()), e.seqNo).fills;
    var s := SettleFills(x.led, x.purse, fills, tf, x.markets[market]);
    x.(engines := x.engines[market := AfterMatch(e, o)], led := s.led, purse := s.purse)
  }

  lemma InvParts(x: Ex)
    requires Inv(x)
    ensures ShapeOk(x) && LedgerOk(x.led) && HeldOk(x.purse)
    ensures Pooled(x.led, x.purse, x.markets, x.withdrawals, x.loose)
  {
  }

  /** A sound state with one engine, the ledger and the purse replaced by sound ones. */
  lemma Assemble(x: Ex, market: string, e: Eng, s: Settled)
    requires Inv(x) && market in x.markets && EngOk(e) && LedgerOk(s.led) && HeldOk(s.purse)
    requires s.purse.Keys == x.purse.Keys && forall id :: id in s.purse ==> s.purse[id].market == x.purse[id].market
    requires Pooled(s.led, s.purse, x.markets, x.withdrawals, x.loose)
    requires BooksBacked(x.engines[market := e], s.purse)
    ensures Inv(x.(engines := x.engines[market := e], led := s.led, purse := s.purse))
  {
    hide EngOk, LedgerOk, HeldOk, Pooled, BooksBacked;
  }

  /** Settling a match never fails for want of funds, and keeps the exchange sound. */
  lemma MatchedKeeps(x: Ex, o: OrderVal, market: string, tf: OrderVal)
    requires Entering(x, o, market) && tf.id == o.id
    requires Open(x.engines[market].BookOf(o.side.Opposite()).queue)
    ensures var e := x.engines[market];
      var r := MatchBook(o, e.BookOf(o.side.Opposite()), e.seqNo);
      var x' := MatchedState(x, o, market, tf);
      var err := SettleFills(x.led, x.purse, r.fills, tf, x.markets[market]).err;
      && Inv(x') && Backed(x'.purse, market, r.taker) && !x'.engines[market].Active(o.id)
      && (err.None? <==> NoSelfTrade(r.fills)) && (err.Some? ==> err == Some(InvalidOrder))
  {
    hide MatchBook, Eat, AfterMatch, SettleFills, LedgerOk, SameBooks, SameSlack, Pooled, PoolOk, MatchReady, OnlyMatch,
      EngOk, AllBacked, Inv, ShapeOk, HeldOk, BooksBacked, Open, Eng.Active, Staked, NoSelfTrade;
    var e := x.engines[market];
    var b := e.BookOf(o.side.Opposite());
    EngOkIn(x, market);
    BookOkIn(e, o.side.Opposite());
    MatchBookIsEat(o, b, e.seqNo);
    EnteringMatches(x, o, market);
    var fills := Eat(o, b.queue, e.seqNo).fills;
    var s := SettleFills(x.led, x.purse, fills, tf, x.markets[market]);
    SettleAlong(o, b.queue, e.seqNo, x.led, x.purse, x.markets, market, tf);
    MatchKeepsBacked(x, o, market, s.purse);
    InvParts(x);
    SlackKeepsPool(x.led, x.purse, s.led, s.purse, x.markets, x.withdrawals, x.loose);
    BooksKept(x.led, s.led);
    OwnersKept(x, o, b.queue, s);
    Assemble(x, market, AfterMatch(e, o), s);
  }

  lemma OwnersKept(x: Ex, o: OrderVal, q: seq<OrderVal>, s: Settled)
    requires ShapeOk(x) && OnlyMatch(x.purse, s.purse, o.id, q) && PoolOk(s.led, s.purse, x.markets)
    ensures s.purse.Keys == x.purse.Keys && HeldOk(s.purse)
    ensures forall id :: id in s.purse ==> s.purse[id].market == x.purse[id].market
  {
  }

  // ---- releasing an order that rests nowhere ----

  ghost predicate Idle(engines: map<string, Eng>, id: OrderId) {
    forall s :: s in engines ==> !engines[s].Active(id)
  }

  lemma IdleBooksBacked(engines: map<string, Eng>, p: Purse, id: OrderId, m: Money)
    requires BooksBacked(engines, p) && Idle(engines, id)
    ensures BooksBacked(engines, p[id := m])
  {
  }

  /** The state after an order's unspent funds went back to its owner. */
  function Released(x: Ex, id: OrderId): Ex
    requires id in x.purse && x.purse[id].market in x.markets
  {
    var (led, p) := Release(x.led, x.purse, id, x.AccountOf(x.purse[id]));
    x.(led := led, purse := p)
  }

  /**
   Giving a finished order's unspent funds back keeps the exchange sound exactly when
   everything settled against the order was recorded as spent.
   */
  lemma ReleasedKeeps(x: Ex, id: OrderId)
    requires Inv(x) && id in x.purse && x.purse[id].funded && Idle(x.engines, id)
    ensures Inv(Released(x, id)) <==> x.purse[id].settled <= x.purse[id].spent
  {
    hide EngOk, Slack, LedgerOk, BooksBacked, HeldOk, Pooled, Release, Idle, PoolOk, SameSlack;
    var m := x.purse[id];
    var x' := Released(x, id);
    ReleaseOnly(x.led, x.purse, id, x.AccountOf(m));
    PooledIsOk(x.led, x.purse, x.markets, x.withdrawals, x.loose);
    ReleaseExact(x.led, x.purse, x.markets, id);
    if m.settled <= m.spent {
      ReleaseSlack(x.led, x.purse, x.markets, id);
      ReleaseBooks(x.led, x.purse, id, x.AccountOf(m));
      SlackKeepsPool(x.led, x.purse, x'.led, x'.purse, x.markets, x.withdrawals, x.loose);
      IdleBooksBacked(x.engines, x.purse, id, x'.purse[id]);
    }
  }

  lemma ReleaseOnly(led: Led, p: Purse, id: OrderId, a: Account)
    requires id in p
    ensures var p' := Release(led, p, id, a).1; id in p' && p' == p[id := p'[id]] && p'[id].market == p[id].market
  {
  }

  /** The stored texts of orders play no part in solvency. */
  lemma OrdersFree(x: Ex, orders: map<OrderId, OrderVal>)
    requires Inv(x) && orders.Keys == x.orders.Keys
    ensures Inv(x.(orders := orders))
  {
    hide EngOk, LedgerOk, BooksBacked, HeldOk, Pooled;
  }

  // ---- executing ----

  lemma FillsTakenBy(x: Ex, o: OrderVal, market: string)
    requires Entering(x, o, market)
    requires Open(x.engines[market].BookOf(o.side.Opposite()).queue)
    ensures var e := x.engines[market];
      var fills := MatchBook(o, e.BookOf(o.side.Opposite()), e.seqNo).fills;
      MakersKnown(fills, x.purse) && forall tf: OrderVal :: tf.id == o.id && tf.side == o.side ==> TakenBy(fills, tf)
  {
    hide Eat, MatchBook, EngOk, Inv, BookOk, MakersKnown;
    var e := x.engines[market];
    var b := e.BookOf(o.side.Opposite());
    EngOkIn(x, market);
    BookOkIn(e, o.side.Opposite());
    MatchBookIsEat(o, b, e.seqNo);
    EnteringMatches(x, o, market);
    EatTakenBy(o, b.queue, e.seqNo);
    forall i | 0 <= i < |b.queue|
      ensures b.queue[i].id in x.purse
    {
      assert Backed(x.purse, market, b.queue[i]);
    }
    EatMakersKnown(o, b.queue, e.seqNo, x.purse);
  }

  /** What settlement records for the taker is exactly what was settled against it. */
  lemma TakerExact(x: Ex, o: OrderVal, market: string, tf: OrderVal)
    requires Entering(x, o, market) && tf.id == o.id && tf.side == o.side
    requires Open(x.engines[market].BookOf(o.side.Opposite()).queue)
    requires var e := x.engines[market];
      tf.filled == MatchBook(o, e.BookOf(o.side.Opposite()), e.seqNo).taker.filled
    ensures var e := x.engines[market];
      var fills := MatchBook(o, e.BookOf(o.side.Opposite()), e.seqNo).fills;
      var s := SettleFills(x.led, x.purse, fills, tf, x.markets[market]);
      s.err.None? ==> s.purse[o.id].settled == s.purse[o.id].spent == CostOf(o.side, fills)
  {
    hide Eat, MatchBook, SettleFills, EngOk, BookOk, Inv, AllBacked, Eng.Active;
    var e := x.engines[market];
    var b := e.BookOf(o.side.Opposite());
    EngOkIn(x, market);
    BookOkIn(e, o.side.Opposite());
    MatchBookIsEat(o, b, e.seqNo);
    EatConserves(o, b.queue, e.seqNo);
    FillsTakenBy(x, o, market);
    var fills := Eat(o, b.queue, e.seqNo).fills;
    if SettleFills(x.led, x.purse, fills, tf, x.markets[market]).err.None? {
      TakerRecorded(x.led, x.purse, fills, tf, x.markets[market]);
    }
  }

  lemma MatchedIdle(x: Ex, o: OrderVal, market: string, e': Eng)
    requires Entering(x, o, market) && !e'.Active(o.id)
    ensures Idle(x.engines, o.id) && Idle(x.engines[market := e'], o.id)
  {
    hide Inv, Backed;
    forall s | s in x.engines
      ensures !x.engines[s].Active(o.id)
    {
      ActiveNowhereElse(x, o, market, s);
    }
  }

  /** What submitting comes to: refused unseen, or matched, with the remainder rested or not. */
  lemma SubmitCases(e: Eng, o: OrderVal)
    requires EngOk(e) && Submittable(o)
    ensures var b := e.BookOf(o.side.Opposite());
      var (e', out) := Submit(e, o);
      var r := MatchBook(o, b, e.seqNo);
      && out.order.id == o.id && out.order.side == o.side && out.order.user == o.user && out.order.typ == o.typ
      && (Screen(o, e.Active(o.id), CrossQty(o, b.Resting())).Some? ==> e' == e && out.reject.Some?)
      && (Screen(o, e.Active(o.id), CrossQty(o, b.Resting())).None? ==>
            && out.order == r.taker.(status := out.order.status) && out.fills == r.fills
            && (out.reject.Some? ==> e' == AfterMatch(e, o) && out.fills == [] && !Rests(out.order))
            && (if Rests(out.order) then
                  out.order.typ.Limit? && out.order.remaining > 0
                  && e' == AfterMatch(e, o).WithBook(o.side, AddOrder(AfterMatch(e, o).BookOf(o.side), out.order))
                else e' == AfterMatch(e, o)))
  {
    hide MatchBook, AddOrder;
    MatchBookFacts(o, e.BookOf(o.side.Opposite()), e.seqNo);
  }

  /** Whether the engine refuses an order before matching it. */
  ghost predicate Screened(e: Eng, o: OrderVal) {
    Screen(o, e.Active(o.id), CrossQty(o, e.BookOf(o.side.Opposite()).Resting())).Some?
  }

  /** The state once the engine and the settlement are done with an accepted order. */
  function Served(x: Ex, o: OrderVal, market: string, out: OrderVal): Ex
    requires market in x.engines && market in x.markets && Open(x.engines[market].BookOf(o.side.Opposite()).queue)
  {
    var y := MatchedState(x, o, market, out);
    if Rests(out) then Rested(y, out, market) else y
  }

  /** An accepted order leaves the exchange sound, and is settled unless it met its own user. */
  ghost predicate ServedWell(x: Ex, o: OrderVal, market: string)
    requires market in x.engines && market in x.markets && Open(x.engines[market].BookOf(o.side.Opposite()).queue)
  {
    var (e', out) := Submit(x.engines[market], o);
    var s := SettleFills(x.led, x.purse, out.fills, out.order, x.markets[market]);
    var y := Served(x, o, market, out.order);
    && Inv(y) && y == x.(engines := x.engines[market := e'], led := s.led, purse := s.purse)
    && Backed(y.purse, market, out.order) && (!Rests(out.order) ==> Idle(y.engines, o.id))
    && (s.err.None? <==> NoSelfTrade(out.fills)) && (s.err.Some? ==> s.err == Some(InvalidOrder))
    && o.id in s.purse
    && (s.err.None? ==> s.purse[o.id].settled == s.purse[o.id].spent == CostOf(o.side, out.fills))
  }

  lemma ServedKeeps(x: Ex, o: OrderVal, market: string)
    requires Entering(x, o, market) && Open(x.engines[market].BookOf(o.side.Opposite()).queue)
    requires EngOk(x.engines[market]) && !Screened(x.engines[market], o)
    ensures ServedWell(x, o, market)
  {
    hide Submit, MatchBook, SettleFills, EngOk, Inv, NoSelfTrade, Idle, AfterMatch, AddOrder, Eng.Active;
    var e := x.engines[market];
    BookOkIn(e, o.side.Opposite());
    QueueUnique(e.BookOf(o.side.Opposite()));
    SubmitCases(e, o);
    var (e', out) := Submit(e, o);
    MatchedKeeps(x, o, market, out.order);
    TakerExact(x, o, market, out.order);
    var y := MatchedState(x, o, market, out.order);
    MatchedIdle(x, o, market, y.engines[market]);
    if Rests(out.order) {
      RestKeeps(y, out.order, market);
      assert y.engines[market := e'] == x.engines[market := e'];
    }
  }

  /** Releasing a settled-up order that rests nowhere leaves it exactly what it spent. */
  lemma ReleasedFunds(x: Ex, id: OrderId)
    requires Inv(x) && id in x.purse && x.purse[id].funded && x.purse[id].settled == x.purse[id].spent
    ensures var m := Released(x, id).purse[id]; m.frozen == m.spent == x.purse[id].spent == m.settled
  {
    hide Inv, ShapeOk, LedgerOk, Pooled, Release;
    InvParts(x);
    ReleaseLeaves(x.led, x.purse, id, x.AccountOf(x.purse[id]));
  }

  lemma ReleaseLeaves(led: Led, p: Purse, id: OrderId, a: Account)
    requires id in p && p[id].funded && p[id].settled == p[id].spent && p[id].Held() >= 0
    ensures var m := Release(led, p, id, a).1[id]; m.frozen == m.spent == p[id].spent == m.settled
  {
  }

  /** The records of a place call once it has run to its end. */
  ghost predicate Accounted(x: Ex, reply: PlaceReply) {
    match reply
    case Refused(None, _) => true
    case Refused(Some(o), _) =>
      o.id in x.purse && o.status.Rejected? && x.purse[o.id].settled == x.purse[o.id].spent == 0
      && (x.purse[o.id].funded ==> x.purse[o.id].frozen == 0)
    case Unsettled(_, fills, err) => !NoSelfTrade(fills) && err == InvalidOrder
    case Done(o, fills) =>
      && NoSelfTrade(fills) && o.id in x.purse
      && x.purse[o.id].settled == x.purse[o.id].spent == CostOf(o.side, fills)
      && (!Rests(o) ==> x.purse[o.id].frozen == x.purse[o.id].spent)
  }

  /** An order the engine refuses gets everything back. */
  lemma ExecuteRefused(x: Ex, o: OrderVal, market: string)
    requires Entering(x, o, market) && EngOk(x.engines[market])
    requires Submit(x.engines[market], o).1.reject.Some?
    ensures Inv(Execute(x, o, market).0) && Accounted(Execute(x, o, market).0, Execute(x, o, market).1)
  {
    hide Submit, MatchBook, EngOk, Inv, NoSelfTrade, Idle, AfterMatch, AddOrder, Eng.Active, Release;
    var e := x.engines[market];
    BookOkIn(e, o.side.Opposite());
    QueueUnique(e.BookOf(o.side.Opposite()));
    SubmitCases(e, o);
    var (e', out) := Submit(e, o);
    var y := x.(engines := x.engines[market := e']);
    if Screened(e, o) {
      assert y == x;
      MatchedIdle(x, o, market, e);
    } else {
      ServedKeeps(x, o, market);
      assert Served(x, o, market, out.order) == y;
    }
    ReleaseWhole(y, o.id);
    var x' := Execute(x, o, market).0;
    var z := Released(y, o.id);
    assert x' == z.(orders := x'.orders);
    OrdersKnown(x, o.id);
    OrdersFree(z, x'.orders);
  }

  lemma OrdersKnown(x: Ex, id: OrderId)
    requires Inv(x) && id in x.purse
    ensures id in x.orders
  {
  }

  lemma ReleaseWhole(y: Ex, id: OrderId)
    requires Inv(y) && id in y.purse && y.purse[id].funded && Idle(y.engines, id)
    requires y.purse[id].settled == y.purse[id].spent && y.purse[id].market in y.markets
    ensures var z := Released(y, id);
      && Inv(z) && z.orders == y.orders && id in z.purse
      && z.purse[id].settled == y.purse[id].settled == z.purse[id].spent == z.purse[id].frozen
  {
    ReleasedKeeps(y, id);
    ReleasedFunds(y, id);
  }

  lemma PatchKeys(orders: map<OrderId, OrderVal>, fills: seq<Fill>)
    ensures PatchAll(orders, fills).Keys == orders.Keys
  {
  }

  /** An accepted order is settled in full, or its settlement stops at a self-trade. */
  lemma ExecuteServed(x: Ex, o: OrderVal, market: string)
    requires Entering(x, o, market) && EngOk(x.engines[market])
    requires Submit(x.engines[market], o).1.reject.None?
    ensures Inv(Execute(x, o, market).0) && Accounted(Execute(x, o, market).0, Execute(x, o, market).1)
  {
    hide Submit, MatchBook, SettleFills, EngOk, Inv, NoSelfTrade, Idle, AfterMatch, AddOrder, Eng.Active, Release,
      PatchAll;
    var e := x.engines[market];
    BookOkIn(e, o.side.Opposite());
    QueueUnique(e.BookOf(o.side.Opposite()));
    SubmitCases(e, o);
    var (e', out) := Submit(e, o);
    ServedKeeps(x, o, market);
    var y := Served(x, o, market, out.order);
    PatchKeys(x.orders, out.fills);
    OrdersKnown(x, o.id);
    var x' := Execute(x, o, market).0;
    if NoSelfTrade(out.fills) && !Rests(out.order) {
      ReleaseWhole(y, o.id);
      var z := Released(y, o.id);
      assert x' == z.(orders := x'.orders);
      OrdersFree(z, x'.orders);
    } else {
      assert x' == y.(orders := x'.orders);
      OrdersFree(y, x'.orders);
    }
  }

  lemma ExecuteKeeps(x: Ex, o: OrderVal, market: string)
    requires Entering(x, o, market) && EngOk(x.engines[market])
    ensures Inv(Execute(x, o, market).0) && Accounted(Execute(x, o, market).0, Execute(x, o, market).1)
  {
    if Submit(x.engines[market], o).1.reject.Some? {
      ExecuteRefused(x, o, market);
    } else {
      ExecuteServed(x, o, market);
    }
  }

  // ---- placing ----

  lemma FundKeeps(x: Ex, o: OrderVal, market: string)
    requires Inv(x) && Staked(o) && o.id !in x.purse && o.id <= x.lastOrder
    requires market in x.markets && market in x.engines && EngOk(x.engines[market])
    ensures Inv(Fund(x, o, market).0) && Accounted(Fund(x, o, market).0, Fund(x, o, market).1)
  {
    hide Execute, Inv, EngOk, Freeze, Staked;
    var refused := o.(status := Rejected);
    LedgerOkIn(x);
    match FreezeAmount(o)
    case None => RefusedKeeps(x, x.led, refused, market, 0);
    case Some(amount) =>
      var a := Account(o.user, x.markets[market].AssetOf(o.side));
      FreezeFacts(x.led, a, amount);
      var (led, err) := Freeze(x.led, a, amount);
      if err.Some? {
        RefusedKeeps(x, led, refused, market, amount);
      } else {
        FundedKeeps(x, o, market, amount);
        var y := Store(x.(led := led), o, MoneyOf(o, market, true, amount));
        ExecuteKeeps(y, o, market);
      }
  }

  lemma LedgerOkIn(x: Ex)
    requires Inv(x)
    ensures LedgerOk(x.led) && x.engines.Keys == x.markets.Keys
    ensures forall s :: s in x.markets ==> x.markets[s].minQty > 0 && x.markets[s].minNotional > 0
  {
  }

  /**
   Placing an order keeps the exchange sound whatever the order and the books are. The
   call fails to settle only when the order met an order of the same user; otherwise what
   was settled against it is what it records as spent, and a finished order keeps no more.
   */
  lemma PlaceKeeps(x: Ex, user: string, r: Request)
    requires Inv(x)
    ensures Inv(Place(x, user, r).0) && Accounted(Place(x, user, r).0, Place(x, user, r).1)
  {
    hide Fund, EngOk, Build, Staked;
    if r.market in x.markets && x.markets[r.market].enabled && !r.typ.OtherType? {
      var id := x.lastOrder + 1;
      var x1 := x.(lastOrder := id);
      NumberingKeeps(x);
      var o := Build(x.markets[r.market], id, user, r);
      if o.Ok? {
        BuildStakes(x.markets[r.market], id, user, r);
        FundKeeps(x1, o.value, r.market);
      }
    }
  }

  lemma NumberingKeeps(x: Ex)
    requires Inv(x)
    ensures Inv(x.(lastOrder := x.lastOrder + 1)) && x.lastOrder + 1 !in x.purse
  {
    hide EngOk, LedgerOk, BooksBacked, HeldOk, Pooled;
  }

  lemma ExecuteRecords(x: Ex, o: OrderVal, market: string, id: OrderId)
    requires Entering(x, o, market) && EngOk(x.engines[market]) && id in x.purse && id != o.id
    requires Execute(x, o, market).1.Done?
    ensures var (x', r) := Execute(x, o, market);
      id in x'.purse && x'.purse[id] == x.purse[id].(settled := x.purse[id].settled + MakerCost(r.fills, id))
  {
    hide Submit, MatchBook, SettleFills, EngOk, Inv, AddOrder, Unfreeze, PatchAll, MakerCost;
    var e := x.engines[market];
    BookOkIn(e, o.side.Opposite());
    QueueUnique(e.BookOf(o.side.Opposite()));
    SubmitCases(e, o);
    var out := Submit(e, o).1;
    FillsTakenBy(x, o, market);
    MakersUnrecorded(x.led, x.purse, out.fills, out.order, x.markets[market], id);
  }

  /**
   A placed order's fills charge every earlier order what they cost it as a maker, and
   leave everything it has recorded alone: this is how settled and recorded cost part.
   */
  lemma PlaceRecords(x: Ex, user: string, r: Request, id: OrderId)
    requires Inv(x) && id in x.purse && Place(x, user, r).1.Done?
    ensures var (x', reply) := Place(x, user, r);
      id in x'.purse && x'.purse[id] == x.purse[id].(settled := x.purse[id].settled + MakerCost(reply.fills, id))
  {
    hide Execute, EngOk, Build, Staked, Freeze, Inv, MakerCost;
    var n := x.lastOrder + 1;
    var x1 := x.(lastOrder := n);
    NumberingKeeps(x);
    LedgerOkIn(x);
    BuildStakes(x.markets[r.market], n, user, r);
    var o := Build(x.markets[r.market], n, user, r).value;
    var amount := FreezeAmount(o).value;
    var led := Freeze(x.led, Account(o.user, x.markets[r.market].AssetOf(o.side)), amount).0;
    var y := Store(x1.(led := led), o, MoneyOf(o, r.market, true, amount));
    FundedKeeps(x1, o, r.market, amount);
    EngOkIn(y, r.market);
    ExecuteRecords(y, o, r.market, id);
  }

  lemma ExecuteOwn(x: Ex, o: OrderVal, market: string)
    requires Entering(x, o, market) && EngOk(x.engines[market]) && Execute(x, o, market).1.Done?
    ensures var r := Execute(x, o, market).1;
      TakenBy(r.fills, r.order) && r.order.id == o.id && MakersKnown(r.fills, x.purse)
  {
    hide Submit, MatchBook, SettleFills, EngOk, Inv, AddOrder, Release, PatchAll, Backed, TakenBy, MakersKnown;
    BookOkIn(x.engines[market], o.side.Opposite());
    QueueUnique(x.engines[market].BookOf(o.side.Opposite()));
    SubmitCases(x.engines[market], o);
    FillsTakenBy(x, o, market);
  }

  /** A placed order is the taker of all its fills; their makers are earlier orders. */
  lemma PlaceOwn(x: Ex, user: string, r: Request)
    requires Inv(x) && Place(x, user, r).1.Done?
    ensures var reply := Place(x, user, r).1;
      TakenBy(reply.fills, reply.order) && reply.order.id == x.lastOrder + 1 && MakersKnown(reply.fills, x.purse)
  {
    hide Execute, EngOk, Build, Staked, Freeze, Inv, TakenBy, MakersKnown;
    var n := x.lastOrder + 1;
    var x1 := x.(lastOrder := n);
    NumberingKeeps(x);
    LedgerOkIn(x);
    BuildStakes(x.markets[r.market], n, user, r);
    var o := Build(x.markets[r.market], n, user, r).value;
    var amount := FreezeAmount(o).value;
    var led := Freeze(x.led, Account(o.user, x.markets[r.market].AssetOf(o.side)), amount).0;
    var y := Store(x1.(led := led), o, MoneyOf(o, r.market, true, amount));
    FundedKeeps(x1, o, r.market, amount);
    EngOkIn(y, r.market);
    ExecuteOwn(y, o, r.market);
    InvParts(x);
    OthersKnown(Place(x, user, r).1.fills, Place(x, user, r).1.order, x.purse, y.purse[n]);
  }

  lemma OthersKnown(fills: seq<Fill>, t: OrderVal, p: Purse, m: Money)
    requires TakenBy(fills, t) && MakersKnown(fills, p[t.id := m])
    ensures MakersKnown(fills, p)
  {
  }

  lemma ExecuteRefusedOthers(x: Ex, o: OrderVal, market: string, id: OrderId)
    requires market in x.markets && market in x.engines && EngOk(x.engines[market])
    requires o.id in x.purse && id in x.purse && Execute(x, o, market).1.Refused?
    ensures var x' := Execute(x, o, market).0;
      && id in x'.purse && (id != o.id ==> x'.purse[id] == x.purse[id])
      && x'.purse[id].settled == x.purse[id].settled && x'.purse[id].spent == x.purse[id].spent
  {
    hide EngOk, Submit, SettleFills, PatchAll, Unfreeze;
  }

  lemma FundRefusedOthers(x: Ex, o: OrderVal, market: string, id: OrderId)
    requires market in x.markets && market in x.engines && EngOk(x.engines[market])
    requires (id in x.purse || id == o.id) && Fund(x, o, market).1.Refused?
    ensures var x' := Fund(x, o, market).0;
      id in x'.purse && (if id == o.id then x'.purse[id].settled == 0 == x'.purse[id].spent
                         else x'.purse[id] == x.purse[id])
  {
    hide EngOk, Execute, Freeze;
    match FreezeAmount(o)
    case None =>
    case Some(amount) =>
      var (led, err) := Freeze(x.led, Account(o.user, x.markets[market].AssetOf(o.side)), amount);
      if err.None? {
        ExecuteRefusedOthers(Store(x.(led := led), o, MoneyOf(o, market, true, amount)), o, market, id);
      }
  }

  /** A refused order has nothing settled or spent, and leaves every other order's money alone. */
  lemma RefusedRecords(x: Ex, user: string, r: Request, id: OrderId)
    requires Inv(x) && Place(x, user, r).1.Refused?
    ensures var x' := Place(x, user, r).0;
      && (id in x.purse ==> id in x'.purse && x'.purse[id] == x.purse[id])
      && (id !in x.purse && id in x'.purse ==> x'.purse[id].settled == 0 == x'.purse[id].spent)
  {
    hide EngOk, Build, Fund, Inv, Staked;
    NumberingKeeps(x);
    LedgerOkIn(x);
    var n := x.lastOrder + 1;
    if r.market in x.markets && x.markets[r.market].enabled && !r.typ.OtherType? {
      EngOkIn(x, r.market);
      var o := Build(x.markets[r.market], n, user, r);
      if o.Ok? {
        BuildStakes(x.markets[r.market], n, user, r);
        FundKeys(x.(lastOrder := n), o.value, r.market);
        if id in x.purse || id == n {
          FundRefusedOthers(x.(lastOrder := n), o.value, r.market, id);
        }
      }
    }
  }

  lemma ExecuteKeys(x: Ex, o: OrderVal, market: string)
    requires market in x.markets && market in x.engines && EngOk(x.engines[market]) && o.id in x.purse
    ensures Execute(x, o, market).0.purse.Keys == x.purse.Keys
  {
    hide EngOk, Submit, SettleFills, PatchAll, Unfreeze;
  }

  lemma FundKeys(x: Ex, o: OrderVal, market: string)
    requires market in x.markets && market in x.engines && EngOk(x.engines[market])
    ensures Fund(x, o, market).0.purse.Keys == x.purse.Keys + {o.id}
  {
    hide EngOk, Execute, Freeze;
    match FreezeAmount(o)
    case None =>
    case Some(amount) =>
      var (led, err) := Freeze(x.led, Account(o.user, x.markets[market].AssetOf(o.side)), amount);
      if err.None? {
        ExecuteKeys(Store(x.(led := led), o, MoneyOf(o, market, true, amount)), o, market);
      }
  }

  /** Only the numbered order is new. */
  lemma PlaceAdds(x: Ex, user: string, r: Request, id: OrderId)
    requires Inv(x) && id !in x.purse && id in Place(x, user, r).0.purse
    ensures id == x.lastOrder + 1
  {
    hide EngOk, Build, Fund, Inv, Staked;
    LedgerOkIn(x);
    var n := x.lastOrder + 1;
    if r.market in x.markets && x.markets[r.market].enabled && !r.typ.OtherType? {
      EngOkIn(x, r.market);
      var o := Build(x.markets[r.market], n, user, r);
      if o.Ok? {
        BuildStakes(x.markets[r.market], n, user, r);
        FundKeys(x.(lastOrder := n), o.value, r.market);
      }
    }
  }

  /** A settled match of a market buy, spent and left in the engine's and in the service's terms. */
  lemma SettledBudget(led: Led, p: Purse, e: Eng, o: OrderVal, mk: Market)
    requires EngOk(e) && Staked(o) && o.MarketBuy() && o.id in p && p[o.id].spent == 0 && !Screened(e, o)
    requires Open(e.BookOf(o.side.Opposite()).queue)
    ensures var out := Submit(e, o).1;
      var s := SettleFills(led, p, out.fills, out.order, mk);
      && out.order.id == o.id && out.order.amountQuote == o.amountQuote
      && out.order.remainingQuote == o.amountQuote - FillCost(out.fills)
      && (s.err.None? ==> s.purse[o.id].spent == FillCost(out.fills))
  {
    hide Submit, MatchBook, Eat, SettleFills, EngOk, AddOrder, FillCost, TakenBy, HasId;
    var b := e.BookOf(o.side.Opposite());
    BookOkIn(e, o.side.Opposite());
    NotQueued(e, o);
    SubmitCases(e, o);
    MatchBookIsEat(o, b, e.seqNo);
    BudgetKept(o, b.queue, e.seqNo);
    EatConserves(o, b.queue, e.seqNo);
    EatTakenBy(o, b.queue, e.seqNo);
    var out := Submit(e, o).1;
    SameTaker(out.fills, o, out.order);
    if SettleFills(led, p, out.fills, out.order, mk).err.None? {
      TakerRecorded(led, p, out.fills, out.order, mk);
    }
  }

  /** An order that passes the engine's checks is in no queue. */
  lemma NotQueued(e: Eng, o: OrderVal)
    requires EngOk(e) && !Screened(e, o)
    ensures !HasId(e.BookOf(o.side.Opposite()).queue, o.id)
  {
    hide EngOk, CrossQty;
    QueueWithin(e.BookOf(o.side.Opposite()), o.id);
  }

  lemma QueueWithin(b: Book, id: OrderId)
    ensures HasId(b.queue, id) ==> HasId(b.Resting(), id)
  {
    assert forall i :: 0 <= i < |b.queue| ==> b.queue[i] == b.Resting()[i];
  }

  lemma SameTaker(fills: seq<Fill>, t: OrderVal, t': OrderVal)
    requires TakenBy(fills, t) && t'.id == t.id && t'.side == t.side
    ensures TakenBy(fills, t')
  {
  }

  lemma ReleaseKeepsSpent(led: Led, p: Purse, id: OrderId, a: Account)
    requires id in p
    ensures id in Release(led, p, id, a).1 && Release(led, p, id, a).1[id].spent == p[id].spent
  {
  }

  lemma ExecuteBudget(x: Ex, o: OrderVal, market: string)
    requires market in x.markets && market in x.engines && EngOk(x.engines[market]) && Staked(o) && o.MarketBuy()
    requires o.id in x.purse && x.purse[o.id].spent == 0 && Execute(x, o, market).1.Done?
    ensures var (x', r) := Execute(x, o, market);
      && r.order.id == o.id && o.id in x'.purse
      && x'.purse[o.id].spent == r.order.amountQuote - r.order.remainingQuote
  {
    hide Submit, SettleFills, EngOk, Release, PatchAll, FillCost, Rests, Screen;
    var e, mk := x.engines[market], x.markets[market];
    var a := Account(o.user, mk.AssetOf(o.side));
    BookOkIn(e, o.side.Opposite());
    SubmitCases(e, o);
    SettledBudget(x.led, x.purse, e, o, mk);
    var out := Submit(e, o).1;
    var s := SettleFills(x.led, x.purse, out.fills, out.order, mk);
    ReleaseKeepsSpent(s.led, s.purse, o.id, a);
  }

  /**
   What the service records a market buy to have spent is its budget less what the engine left
   of it, in every state of the exchange.
   */
  lemma BudgetRecorded(x: Ex, user: string, r: Request)
    requires ShapeOk(x) && Place(x, user, r).1.Done? && Place(x, user, r).1.order.MarketBuy()
    ensures var (x', reply) := Place(x, user, r);
      reply.order.id in x'.purse
      && x'.purse[reply.order.id].spent == reply.order.amountQuote - reply.order.remainingQuote
  {
    hide Execute, EngOk, Build, Staked, Freeze;
    var n := x.lastOrder + 1;
    BuildStakes(x.markets[r.market], n, user, r);
    var o := Build(x.markets[r.market], n, user, r).value;
    var amount := FreezeAmount(o).value;
    var led := Freeze(x.led, Account(o.user, x.markets[r.market].AssetOf(o.side)), amount).0;
    var y := Store(x.(lastOrder := n, led := led), o, MoneyOf(o, r.market, true, amount));
    ExecuteOrderKind(y, o, r.market);
    ExecuteBudget(y, o, r.market);
  }

  lemma ExecuteOrderKind(x: Ex, o: OrderVal, market: string)
    requires market in x.markets && market in x.engines && EngOk(x.engines[market]) && Staked(o) && o.id in x.purse
    requires Execute(x, o, market).1.Done?
    ensures var r := Execute(x, o, market).1.order; r.side == o.side && r.typ == o.typ
  {
    hide Submit, MatchBook, SettleFills, EngOk, AddOrder, Release, PatchAll;
    BookOkIn(x.engines[market], o.side.Opposite());
    SubmitCases(x.engines[market], o);
  }

  // ---- cancelling ----

  /** The books without a cancelled order are still backed. */
  lemma RemovedBacked(b: Book, p: Purse, market: string, id: OrderId)
    requires BookOk(b) && HasId(b.Resting(), id) && AllBacked(p, market, b.Resting())
    ensures AllBacked(p, market, RemoveOrder(b, id, Find(b.Resting(), id).price).Resting())
  {
    var r, price := b.Resting(), Find(b.Resting(), id).price;
    var i := FindRests(b, id);
    RemoveOk(b, i, id, price);
    forall v | v in r[..i] + r[i + 1..]
      ensures v in r
    {
    }
    BackedMembers(p, market, r, RemoveOrder(b, id, price).Resting());
  }

  lemma CancelledBacked(e: Eng, p: Purse, market: string, id: OrderId)
    requires EngOk(e) && e.Active(id) && AllBacked(p, market, e.bids.Resting())
    requires AllBacked(p, market, e.asks.Resting())
    ensures var e' := Cancel(e, id).0;
      AllBacked(p, market, e'.bids.Resting()) && AllBacked(p, market, e'.asks.Resting())
    ensures id in p && p[id].funded && p[id].market == market
  {
    hide RemoveOrder, BookOk, AllBacked;
    if HasId(e.bids.Resting(), id) {
      RemovedBacked(e.bids, p, market, id);
      BackedAt(p, market, e.bids.Resting(), id);
    } else {
      RemovedBacked(e.asks, p, market, id);
      BackedAt(p, market, e.asks.Resting(), id);
    }
  }

  lemma BackedAt(p: Purse, market: string, q: seq<OrderVal>, id: OrderId)
    requires AllBacked(p, market, q) && HasId(q, id)
    ensures id in p && p[id].funded && p[id].market == market
  {
  }

  /** The state with an active order taken out of its engine, before its funds go back. */
  lemma WithdrawnKeeps(x: Ex, id: OrderId)
    requires Inv(x) && id in x.purse && x.purse[id].market in x.engines && x.engines[x.purse[id].market].Active(id)
    ensures var market := x.purse[id].market;
      var y := x.(engines := x.engines[market := Cancel(x.engines[market], id).0]);
      Inv(y) && Idle(y.engines, id) && x.purse[id].funded
  {
    hide AllBacked, EngOk, Cancel, Eng.Active;
    var market := x.purse[id].market;
    var e := x.engines[market];
    EngOkIn(x, market);
    CancelOk(e, id);
    CancelledBacked(e, x.purse, market, id);
    EngineKeeps(x, market, Cancel(e, id).0);
    forall s | s in x.engines && s != market
      ensures !x.engines[s].Active(id)
    {
      ActiveInOne(x, market, s, id);
    }
  }

  lemma ActiveInOne(x: Ex, market: string, s: string, id: OrderId)
    requires Inv(x) && id in x.purse && x.purse[id].market == market && s in x.engines && s != market
    ensures !x.engines[s].Active(id)
  {
    hide AllBacked;
    EngOkIn(x, s);
    NotBackedElsewhere(x.purse, market, s, x.engines[s].bids.Resting(), id);
    NotBackedElsewhere(x.purse, market, s, x.engines[s].asks.Resting(), id);
  }

  /**
   Cancelling in a sound exchange: a refused cancel changes nothing, and a successful one
   keeps the exchange sound exactly when nothing was settled against the order beyond what
   it records as spent, that is, when no costly fill reached it as a maker.
   */
  lemma CancelExact(x: Ex, user: string, id: OrderId)
    requires Inv(x)
    ensures var (x', r) := CancelOrder(x, user, id);
      && (r.Err? ==> x' == x)
      && (r.Ok? ==> id in x.purse && (Inv(x') <==> x.purse[id].settled <= x.purse[id].spent))
  {
    hide EngOk, Cancel, LedgerOk, BooksBacked, HeldOk, Pooled, Release, Eng.Active;
    var (x', r) := CancelOrder(x, user, id);
    if r.Ok? {
      var market := x.purse[id].market;
      EngOkIn(x, market);
      CancelOk(x.engines[market], id);
      WithdrawnKeeps(x, id);
      var y := x.(engines := x.engines[market := Cancel(x.engines[market], id).0]);
      ReleasedKeeps(y, id);
      var z := Released(y, id);
      assert x' == z.(orders := x'.orders);
      if Inv(z) {
        OrdersFree(z, x'.orders);
      }
      if Inv(x') {
        OrdersFree(x', z.orders);
        assert x'.(orders := z.orders) == z;
      }
    }
  }

  /** An order's unspent funds went back to its owner, and no other balance moved. */
  ghost predicate Returned(x: Ex, x': Ex, id: OrderId)
    requires id in x.purse && x.purse[id].market in x.markets
  {
    var m, a := x.purse[id], x.AccountOf(x.purse[id]);
    var back := if m.frozen > m.spent then m.frozen - m.spent else 0;
    && id in x'.purse && x'.purse[id] == m.(frozen := m.frozen - back)
    && forall b :: (Get(x'.led, b) == if b == a
         then Balance(Get(x.led, a).available + back, Get(x.led, a).frozen - back) else Get(x.led, b))
  }

  lemma ReleasedReturns(x: Ex, id: OrderId)
    requires Inv(x) && id in x.purse && x.purse[id].funded && x.purse[id].market in x.markets
    requires x.purse[id].settled <= x.purse[id].spent
    ensures Returned(x, Released(x, id), id)
  {
    hide Inv, PoolOk, Slack, HeldOk;
    EnteringPool(x);
    ReleaseSlack(x.led, x.purse, x.markets, id);
  }

  /** A careful cancel gives back everything its order had frozen and not spent. */
  lemma CancelReturns(x: Ex, user: string, id: OrderId)
    requires Inv(x) && CancelOrder(x, user, id).1.Ok?
    ensures id in x.purse && x.purse[id].market in x.markets
    ensures x.purse[id].settled <= x.purse[id].spent ==> Returned(x, CancelOrder(x, user, id).0, id)
  {
    hide EngOk, Cancel, LedgerOk, BooksBacked, HeldOk, Pooled, Release, Eng.Active;
    var market := x.purse[id].market;
    EngOkIn(x, market);
    CancelOk(x.engines[market], id);
    WithdrawnKeeps(x, id);
    if x.purse[id].settled <= x.purse[id].spent {
      ReleasedReturns(x, id);
    }
  }
}
