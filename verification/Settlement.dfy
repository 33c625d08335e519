/**
 Settling a match against the pooled frozen funds. Each order holds part of its owner's
 frozen balance; what it holds always covers the most it can still cost.
 */
module Settlement {
  import opened Wrappers
  import opened Domain
  import opened FixedPoint
  import opened Matching
  import opened Books
  import opened Sums
  import opened Ledger
  import opened Conservation

  datatype Market = Market(base: string, quote: string, minQty: int, minNotional: int, enabled: bool) {
    function AssetOf(side: Side): string { if side.Buy? then quote else base }
  }

  /**
   The money side of an order. `frozen` and `spent` are the order's own fields; `settled`
   is everything settled against it so far, as taker and as maker; `funded` says its
   freeze succeeded.
   */
  datatype Money = Money(
    user: string, market: string, side: Side,
    funded: bool, frozen: int, spent: int, settled: int
  ) {
    function Held(): int { if funded then frozen - settled else 0 }

    predicate SameOwner(m: Money) {
      user == m.user && market == m.market && side == m.side && funded == m.funded && frozen == m.frozen
    }
  }

  type Purse = map<OrderId, Money>

  /** What a fill costs the order on one side of it. */
  function Cost(side: Side, t: Trade): int {
    if side.Buy? then QuoteUnits(t.price, t.qty) else t.qty
  }

  /** The most an order can still cost. */
  function Need(o: OrderVal): int {
    if o.MarketBuy() then o.remainingQuote
    else if o.side.Buy? then QuoteUnits(o.price, o.remaining)
    else o.remaining
  }

  function Charge(p: Purse, id: OrderId, cost: int): Purse {
    if id in p then p[id := p[id].(settled := p[id].settled + cost)] else p
  }

  /** The service records spending for the taker only. */
  function Record(p: Purse, taker: OrderVal, cost: int): Purse {
    if taker.id in p
    then p[taker.id := p[taker.id].(spent := if taker.side.Buy? then p[taker.id].spent + cost else taker.filled)]
    else p
  }

  datatype Settled = Settled(led: Led, purse: Purse, err: Option<Error>)

  function SettleOne(led: Led, p: Purse, t: Trade, taker: OrderVal, mk: Market): (r: Settled)
    ensures r.purse.Keys == p.Keys
  {
    var (l, err) := SettleTrade(led, t, mk.base, mk.quote);
    if err.Some? then Settled(l, p, err)
    else
      var p1 := Charge(Charge(p, t.maker, Cost(t.makerSide, t)), t.taker, Cost(t.takerSide, t));
      Settled(l, Record(p1, taker, Cost(taker.side, t)), None)
  }

  /** Settle the fills in order, stopping at the first that fails. */
  function SettleFills(led: Led, p: Purse, fills: seq<Fill>, taker: OrderVal, mk: Market): (r: Settled)
    ensures r.purse.Keys == p.Keys
    decreases |fills|
  {
    if fills == [] then Settled(led, p, None)
    else
      var s := SettleOne(led, p, fills[0].trade, taker, mk);
      if s.err.Some? then s else SettleFills(s.led, s.purse, fills[1..], taker, mk)
  }

  // ---- the pool ----

  /** What an order holds in one account. */
  function HeldIn(markets: map<string, Market>, a: Account): (OrderId, Money) -> int {
    (id: OrderId, m: Money) =>
      if m.market in markets && m.user == a.user && markets[m.market].AssetOf(m.side) == a.asset then m.Held() else 0
  }

  /** Frozen funds of an account that no order holds. */
  ghost function Slack(led: Led, p: Purse, markets: map<string, Market>, a: Account): int {
    Get(led, a).frozen - Sum(p, HeldIn(markets, a))
  }

  /** Every order holds a non-negative amount that fits int64. */
  ghost predicate HeldOk(p: Purse) {
    forall id :: id in p ==> 0 <= p[id].Held() <= MAX_INT64
  }

  /** Frozen funds cover what all orders hold, in every account. */
  ghost predicate PoolOk(led: Led, p: Purse, markets: map<string, Market>) {
    HeldOk(p) && forall a :: Slack(led, p, markets, a) >= 0
  }

  ghost predicate SameSlack(led: Led, p: Purse, led': Led, p': Purse, markets: map<string, Market>) {
    forall a :: Slack(led', p', markets, a) == Slack(led, p, markets, a)
  }

  /** No asset is made or lost between two ledgers, and balanced books stay balanced. */
  ghost predicate SameBooks(led: Led, led': Led) {
    && (forall asset :: Gap(led', asset) == Gap(led, asset))
    && (Reconciled(led) ==> Reconciled(led'))
  }

  /** The order is backed: its money is known, and covers what it can still cost. */
  ghost predicate Backed(p: Purse, market: string, o: OrderVal) {
    && o.id in p && p[o.id].user == o.user && p[o.id].market == market && p[o.id].side == o.side
    && p[o.id].funded && p[o.id].Held() >= Need(o)
  }

  ghost predicate AllBacked(p: Purse, market: string, q: seq<OrderVal>) {
    forall i :: 0 <= i < |q| ==> Backed(p, market, q[i])
  }

  /** Writing one order's money moves the slack of its own account only. */
  lemma SlackWrite(led: Led, p: Purse, markets: map<string, Market>, id: OrderId, m: Money, a: Account)
    ensures Slack(led, p[id := m], markets, a) == Slack(led, p, markets, a)
      + (if id in p then HeldIn(markets, a)(id, p[id]) else 0) - HeldIn(markets, a)(id, m)
  {
    SumWrite(p, HeldIn(markets, a), id, m);
  }

  /** The pool covers any one order. */
  lemma PoolCovers(led: Led, p: Purse, markets: map<string, Market>, id: OrderId)
    requires PoolOk(led, p, markets) && id in p && p[id].market in markets
    ensures Get(led, Account(p[id].user, markets[p[id].market].AssetOf(p[id].side))).frozen >= p[id].Held()
  {
    var a := Account(p[id].user, markets[p[id].market].AssetOf(p[id].side));
    assert Slack(led, p, markets, a) >= 0;
    SumCovers(p, HeldIn(markets, a));
    assert HeldIn(markets, a)(id, p[id]) == p[id].Held();
  }

  // ---- one fill ----

  /** A fill of `m` by `t` costs each no more than it needed, and leaves enough for the rest. */
  lemma FillNeeds(t: OrderVal, m: OrderVal, n: int)
    requires 0 < n == FillQty(t, m) && Crosses(t, m.price) && m.typ.Limit? && m.side == t.side.Opposite()
    requires t.typ.Limit? || t.typ.Market?
    ensures var tr := TradeOf(t, m, n, 0);
      && 0 <= Cost(t.side, tr) && Need(Taken(t, m.price, n)) <= Need(t) - Cost(t.side, tr)
      && 0 <= Cost(m.side, tr) && Need(Made(m, n)) <= Need(m) - Cost(m.side, tr)
      && 0 <= Need(Made(m, n)) && 0 <= Need(Taken(t, m.price, n))
  {
    QuoteSuperAdditive(m.price, n, m.remaining - n);
    if t.MarketBuy() {
      WithinBudget(t.remainingQuote, m.price, n);
    } else if t.side.Buy? {
      QuoteSuperAdditive(t.price, n, t.remaining - n);
      QuoteMonotone(m.price, t.price, n);
    }
  }

  /** The two orders of a fill, ready to settle. */
  ghost predicate Ready(led: Led, p: Purse, markets: map<string, Market>, market: string, tr: Trade) {
    && PoolOk(led, p, markets) && market in markets && tr.qty > 0
    && tr.maker in p && tr.taker in p && tr.maker != tr.taker && tr.makerSide == tr.takerSide.Opposite()
    && p[tr.maker].market == market && p[tr.maker].side == tr.makerSide && p[tr.maker].user == tr.makerUser
    && p[tr.taker].market == market && p[tr.taker].side == tr.takerSide && p[tr.taker].user == tr.takerUser
    && p[tr.maker].funded && p[tr.taker].funded
    && p[tr.maker].Held() >= Cost(tr.makerSide, tr) && p[tr.taker].Held() >= Cost(tr.takerSide, tr)
  }

  /** What the purse becomes when a fill settles. */
  function Paid(p: Purse, tr: Trade, taker: OrderVal): Purse {
    Record(Charge(Charge(p, tr.maker, Cost(tr.makerSide, tr)), tr.taker, Cost(tr.takerSide, tr)), taker,
      Cost(taker.side, tr))
  }

  /** A ready fill settles exactly when its two sides are different users. */
  lemma ReadySettles(led: Led, p: Purse, markets: map<string, Market>, market: string, tr: Trade)
    requires Ready(led, p, markets, market, tr)
    ensures var r := SettleTrade(led, tr, markets[market].base, markets[market].quote);
      && (r.1.None? <==> tr.makerUser != tr.takerUser)
      && (r.1.Some? ==> r.0 == led && r.1 == Some(InvalidOrder))
  {
    PoolCovers(led, p, markets, tr.maker);
    PoolCovers(led, p, markets, tr.taker);
    var mk := markets[market];
    var cost := QuoteUnits(tr.price, tr.qty);
    if tr.makerUser != tr.takerUser {
      OthersKept(led, Account(Buyer(tr), mk.quote), cost, Account(Buyer(tr), mk.base), tr.qty, Account(Seller(tr),
        mk.base));
    }
  }

  /** A ready fill settles completely or not at all, so it keeps the books. */
  lemma ReadyKeepsBooks(led: Led, p: Purse, markets: map<string, Market>, market: string, tr: Trade)
    requires Ready(led, p, markets, market, tr)
    ensures SameBooks(led, SettleTrade(led, tr, markets[market].base, markets[market].quote).0)
  {
    var mk := markets[market];
    ReadyNotHalf(led, p, markets, market, tr);
    hide *;
    if Reconciled(led) {
      SettleReconciles(led, tr, mk.base, mk.quote);
    }
    WholeKeepsBooks(led, tr, mk.base, mk.quote);
  }

  lemma ReadyNotHalf(led: Led, p: Purse, markets: map<string, Market>, market: string, tr: Trade)
    requires Ready(led, p, markets, market, tr)
    ensures !HalfSettles(led, tr, markets[market].base, markets[market].quote) && tr.qty > 0
  {
    PoolCovers(led, p, markets, tr.maker);
    PoolCovers(led, p, markets, tr.taker);
  }

  lemma WholeKeepsBooks(led: Led, tr: Trade, base: string, quote: string)
    requires !HalfSettles(led, tr, base, quote)
    requires Reconciled(led) ==> Reconciled(SettleTrade(led, tr, base, quote).0)
    ensures SameBooks(led, SettleTrade(led, tr, base, quote).0)
  {
    hide Gap, SettleTrade, HalfSettles, Reconciled;
    forall asset {
      SettleGap(led, tr, base, quote, asset);
    }
  }

  /** Settling moves frozen funds and holdings together: the slack of every account stays. */
  lemma ReadyKeepsSlack(led: Led, p: Purse, markets: map<string, Market>, market: string, tr: Trade, taker: OrderVal)
    requires Ready(led, p, markets, market, tr) && tr.makerUser != tr.takerUser && taker.id == tr.taker
    ensures var r := SettleTrade(led, tr, markets[market].base, markets[market].quote);
      SameSlack(led, p, r.0, Paid(p, tr, taker), markets)
  {
    hide SettleTrade, Cost, Paid, Need, HeldOk, Sum, HeldIn, Get;
    ReadySettles(led, p, markets, market, tr);
    var led' := SettleTrade(led, tr, markets[market].base, markets[market].quote).0;
    forall a
      ensures Slack(led', Paid(p, tr, taker), markets, a) == Slack(led, p, markets, a)
    {
      PaidSlack(led', p, markets, market, tr, taker, a);
      SettledFrozen(led, markets[market], tr, a);
    }
  }

  lemma PaidSlack(led: Led, p: Purse, markets: map<string, Market>, market: string, tr: Trade, taker: OrderVal,
      a: Account)
    requires market in markets && tr.maker in p && tr.taker in p && tr.maker != tr.taker && taker.id == tr.taker
    requires p[tr.maker].market == market && p[tr.maker].side == tr.makerSide && p[tr.maker].user == tr.makerUser
    requires p[tr.taker].market == market && p[tr.taker].side == tr.takerSide && p[tr.taker].user == tr.takerUser
    requires p[tr.maker].funded && p[tr.taker].funded
    ensures Slack(led, Paid(p, tr, taker), markets, a) == Slack(led, p, markets, a)
      + (if a == Account(tr.makerUser, markets[market].AssetOf(tr.makerSide)) then Cost(tr.makerSide, tr) else 0)
      + (if a == Account(tr.takerUser, markets[market].AssetOf(tr.takerSide)) then Cost(tr.takerSide, tr) else 0)
  {
    hide Slack, Cost;
    var m := p[tr.maker].(settled := p[tr.maker].settled + Cost(tr.makerSide, tr));
    SlackWrite(led, p, markets, tr.maker, m, a);
    var p1 := p[tr.maker := m];
    var t := p[tr.taker].(settled := p[tr.taker].settled + Cost(tr.takerSide, tr));
    SlackWrite(led, p1, markets, tr.taker, t, a);
    var p2 := p1[tr.taker := t];
    var t' := t.(spent := if taker.side.Buy? then t.spent + Cost(taker.side, tr) else taker.filled);
    SlackWrite(led, p2, markets, tr.taker, t', a);
    assert Paid(p, tr, taker) == p2[tr.taker := t'];
  }

  /** A complete settlement lowers the frozen funds of the two paying accounts, and no other. */
  lemma SettledFrozen(led: Led, mk: Market, tr: Trade, a: Account)
    requires SettleTrade(led, tr, mk.base, mk.quote).1.None? && tr.makerSide == tr.takerSide.Opposite()
    ensures Get(SettleTrade(led, tr, mk.base, mk.quote).0, a).frozen == Get(led, a).frozen
      - (if a == Account(tr.makerUser, mk.AssetOf(tr.makerSide)) then Cost(tr.makerSide, tr) else 0)
      - (if a == Account(tr.takerUser, mk.AssetOf(tr.takerSide)) then Cost(tr.takerSide, tr) else 0)
  {
    hide SettleTrade, PayIn, PayOut, Get, QuoteUnits;
    SettleLegs(led, tr, mk.base, mk.quote);
    var b, s := Buyer(tr), Seller(tr);
    var cost := QuoteUnits(tr.price, tr.qty);
    FourLegs(led, Account(b, mk.quote), cost, Account(b, mk.base), tr.qty, Account(s, mk.base), Account(s, mk.quote),
      a);
  }

  /** A settlement that succeeds is its four legs. */
  lemma SettleLegs(led: Led, tr: Trade, base: string, quote: string)
    requires SettleTrade(led, tr, base, quote).1.None?
    ensures Buyer(tr) != Seller(tr)
    ensures var (b, s, cost) := (Buyer(tr), Seller(tr), QuoteUnits(tr.price, tr.qty));
      SettleTrade(led, tr, base, quote).0 == PayIn(PayOut(PayIn(PayOut(led,
        Account(b, quote), cost), Account(b, base), tr.qty), Account(s, base), tr.qty), Account(s, quote), cost)
  {
    hide PayIn, PayOut, Get, QuoteUnits;
  }

  lemma FourLegs(l: Led, bq: Account, cost: int, bb: Account, qty: int, sb: Account, sq: Account, a: Account)
    ensures Get(PayIn(PayOut(PayIn(PayOut(l, bq, cost), bb, qty), sb, qty), sq, cost), a).frozen == Get(l, a).frozen
      - (if a == bq then cost else 0) - (if a == sb then qty else 0)
  {
  }

  // ---- a whole match ----

  /** Taker and list as a match of one market finds them, every order backed. */
  ghost predicate MatchReady(t: OrderVal, q: seq<OrderVal>, p: Purse, market: string) {
    && Open(q) && UniqueIds(q) && !HasId(q, t.id)
    && (forall i :: 0 <= i < |q| ==> q[i].side == t.side.Opposite() && q[i].typ.Limit?)
    && (t.typ.Limit? || t.typ.Market?)
    && Backed(p, market, t) && AllBacked(p, market, q)
  }

  /** Owners never change, and orders outside the match keep their money. */
  ghost predicate OnlyMatch(p: Purse, p': Purse, tid: OrderId, q: seq<OrderVal>) {
    && p'.Keys == p.Keys
    && (forall id :: id in p ==> p'[id].SameOwner(p[id]) && (id != tid && !HasId(q, id) ==> p'[id] == p[id]))
  }

  /** No fill has one user on both sides. */
  ghost predicate NoSelfTrade(fills: seq<Fill>) {
    forall i :: 0 <= i < |fills| ==> fills[i].trade.makerUser != fills[i].trade.takerUser
  }

  /** Where each order left after a fill comes from. */
  lemma AfterFillOrigin(q: seq<OrderVal>, n: int, i: nat)
    requires q != [] && i < |AfterFill(q, n)|
    ensures var (v, k) := (AfterFill(q, n)[i], if q[0].remaining == n then i + 1 else i);
      && HasId(q, v.id) && (k == 0 ==> v == Made(q[0], n)) && (k > 0 ==> k < |q| && v == q[k])
  {
  }

  lemma AfterFillBacked(t: OrderVal, q: seq<OrderVal>, p: Purse, p': Purse, market: string, n: int)
    requires UniqueIds(q) && !HasId(q, t.id) && q != [] && AllBacked(p, market, q) && p'.Keys == p.Keys
    requires forall id :: id in p ==> p'[id].SameOwner(p[id]) && (id != t.id && id != q[0].id ==> p'[id] == p[id])
    requires q[0].id in p && p'[q[0].id].Held() >= Need(Made(q[0], n))
    ensures AllBacked(p', market, AfterFill(q, n))
  {
  }

  /** A filled head, with the holdings `p'`, leaves the rest of the match backed. */
  lemma AfterFillReady(t: OrderVal, q: seq<OrderVal>, p: Purse, p': Purse, market: string, n: int)
    requires MatchReady(t, q, p, market) && CanEat(t, q) && n == FillQty(t, q[0])
    requires p'.Keys == p.Keys
    requires forall id :: id in p ==> p'[id].SameOwner(p[id]) && (id != t.id && id != q[0].id ==> p'[id] == p[id])
    requires p'[t.id].Held() >= Need(Taken(t, q[0].price, n))
    requires p'[q[0].id].Held() >= Need(Made(q[0], n))
    ensures MatchReady(Taken(t, q[0].price, n), AfterFill(q, n), p', market)
    ensures OnlyMatch(p, p', t.id, q)
  {
    hide AfterFill, Need, FillQty, UniqueIds, Open;
    AfterFillShrinks(q, n);
    assert HasId(q, q[0].id);
    AfterFillBacked(t, q, p, p', market, n);
    AfterFillUnique(q, n);
    forall i | 0 <= i < |AfterFill(q, n)| {
      AfterFillOrigin(q, n, i);
    }
  }

  lemma OnlyMatchTrans(p: Purse, p1: Purse, p2: Purse, tid: OrderId, q: seq<OrderVal>, n: int)
    requires q != [] && OnlyMatch(p, p1, tid, q) && OnlyMatch(p1, p2, tid, AfterFill(q, n))
    ensures OnlyMatch(p, p2, tid, q)
  {
    forall id | HasId(AfterFill(q, n), id)
      ensures HasId(q, id)
    {
      var q' := AfterFill(q, n);
      var i :| 0 <= i < |q'| && q'[i].id == id;
      if q[0].remaining == n {
        assert q[i + 1].id == id;
      } else {
        assert i > 0 ==> q'[i] == q[i];
        assert q[i].id == id;
      }
    }
  }

  /** A match whose settlement never starts still leaves every order backed. */
  lemma {:induction false} MatchStaysBacked(t: OrderVal, q: seq<OrderVal>, s: nat, p: Purse, market: string)
    requires MatchReady(t, q, p, market)
    ensures Backed(p, market, Eat(t, q, s).taker) && AllBacked(p, market, Eat(t, q, s).rest)
    decreases TotalQty(q)
  {
    if CanEat(t, q) {
      var n := FillQty(t, q[0]);
      AfterFillShrinks(q, n);
      FillNeeds(t, q[0], n);
      AfterFillReady(t, q, p, p, market, n);
      MatchStaysBacked(Taken(t, q[0].price, n), AfterFill(q, n), s + 1, p, market);
    }
  }

  /** The head of a match is ready to settle. */
  lemma HeadReady(t: OrderVal, q: seq<OrderVal>, s: nat, led: Led, p: Purse, markets: map<string, Market>,
      market: string)
    requires MatchReady(t, q, p, market) && CanEat(t, q) && PoolOk(led, p, markets) && market in markets
    ensures Ready(led, p, markets, market, TradeOf(t, q[0], FillQty(t, q[0]), s))
  {
    var n := FillQty(t, q[0]);
    FillNeeds(t, q[0], n);
    assert HasId(q, q[0].id);
  }

  /** What the purse becomes when the head settles still covers both orders of the fill. */
  lemma HeadPaid(t: OrderVal, q: seq<OrderVal>, s: nat, p: Purse, market: string, tf: OrderVal)
    requires MatchReady(t, q, p, market) && CanEat(t, q) && HeldOk(p) && tf.id == t.id
    ensures var n := FillQty(t, q[0]);
      var p' := Paid(p, TradeOf(t, q[0], n, s), tf);
      && HeldOk(p') && p'.Keys == p.Keys && q[0].id in p && t.id in p
      && (forall id :: id in p ==> p'[id].SameOwner(p[id]) && (id != t.id && id != q[0].id ==> p'[id] == p[id]))
      && p'[t.id].Held() >= Need(Taken(t, q[0].price, n))
      && p'[q[0].id].Held() >= Need(Made(q[0], n))
  {
    FillNeeds(t, q[0], FillQty(t, q[0]));
    hide Need, FillQty, CanEat, Cost;
    assert HasId(q, q[0].id);
    assert Backed(p, market, q[0]);
  }

  lemma SlackKeepsPoolOk(led: Led, p: Purse, led': Led, p': Purse, markets: map<string, Market>)
    requires PoolOk(led, p, markets) && SameSlack(led, p, led', p', markets) && HeldOk(p')
    ensures PoolOk(led', p', markets)
  {
  }

  /** After the head settles, the pool and every holding of the match are still sound. */
  lemma HeadSettled(t: OrderVal, q: seq<OrderVal>, s: nat, led: Led, p: Purse, markets: map<string, Market>,
      market: string, tf: OrderVal)
    requires MatchReady(t, q, p, market) && CanEat(t, q) && PoolOk(led, p, markets) && market in markets
    requires t.user != q[0].user && tf.id == t.id
    ensures var n := FillQty(t, q[0]);
      var tr := TradeOf(t, q[0], n, s);
      var r := SettleOne(led, p, tr, tf, markets[market]);
      && r.err.None? && r.purse == Paid(p, tr, tf)
      && PoolOk(r.led, r.purse, markets) && SameSlack(led, p, r.led, r.purse, markets) && SameBooks(led, r.led)
      && MatchReady(Taken(t, q[0].price, n), AfterFill(q, n), r.purse, market)
      && OnlyMatch(p, r.purse, t.id, q)
  {
    hide SettleTrade, FillQty, SameBooks, SameSlack, Cost, Need, AfterFill, AllBacked, Open, UniqueIds, OnlyMatch;
    var n := FillQty(t, q[0]);
    var tr := TradeOf(t, q[0], n, s);
    HeadReady(t, q, s, led, p, markets, market);
    ReadySettles(led, p, markets, market, tr);
    ReadyKeepsSlack(led, p, markets, market, tr, tf);
    ReadyKeepsBooks(led, p, markets, market, tr);
    HeadPaid(t, q, s, p, market, tf);
    var p' := Paid(p, tr, tf);
    SlackKeepsPoolOk(led, p, SettleOne(led, p, tr, tf, markets[market]).led, p', markets);
    AfterFillReady(t, q, p, p', market, n);
  }

  /**
   Settlement never fails for want of funds: settling the fills of a match keeps the slack
   of every account and every order backed, and it stops early exactly at a trade between
   an order and its own user.
   */
  lemma {:induction false} SettleAlong(t: OrderVal, q: seq<OrderVal>, s: nat, led: Led, p: Purse,
      markets: map<string, Market>, market: string, tf: OrderVal)
    requires MatchReady(t, q, p, market) && PoolOk(led, p, markets) && market in markets && tf.id == t.id
    ensures var e := Eat(t, q, s);
      var r := SettleFills(led, p, e.fills, tf, markets[market]);
      && PoolOk(r.led, r.purse, markets) && SameSlack(led, p, r.led, r.purse, markets) && SameBooks(led, r.led)
      && Backed(r.purse, market, e.taker) && AllBacked(r.purse, market, e.rest)
      && OnlyMatch(p, r.purse, t.id, q)
      && (r.err.None? <==> NoSelfTrade(e.fills)) && (r.err.Some? ==> r.err == Some(InvalidOrder))
    decreases TotalQty(q)
  {
    if CanEat(t, q) {
      var n := FillQty(t, q[0]);
      var tr := TradeOf(t, q[0], n, s + 1);
      AfterFillShrinks(q, n);
      var e := Eat(t, q, s);
      var t', q' := Taken(t, q[0].price, n), AfterFill(q, n);
      var e' := Eat(t', q', s + 1);
      assert e.fills[0].trade == tr && e.fills[1..] == e'.fills;
      if t.user == q[0].user {
        HeadReady(t, q, s + 1, led, p, markets, market);
        ReadySettles(led, p, markets, market, tr);
        MatchStaysBacked(t, q, s, p, market);
      } else {
        HeadSettled(t, q, s + 1, led, p, markets, market, tf);
        var r := SettleOne(led, p, tr, tf, markets[market]);
        SettleAlong(t', q', s + 1, r.led, r.purse, markets, market, tf);
        Along(led, p, r, SettleFills(r.led, r.purse, e'.fills, tf, markets[market]), markets, t, q, n, e.fills);
      }
    }
  }

  /** Chaining one settled fill with the rest. */
  lemma Along(led: Led, p: Purse, r1: Settled, r2: Settled, markets: map<string, Market>, t: OrderVal,
      q: seq<OrderVal>, n: int, fills: seq<Fill>)
    requires q != [] && SameSlack(led, p, r1.led, r1.purse, markets)
    requires SameSlack(r1.led, r1.purse, r2.led, r2.purse, markets)
    requires OnlyMatch(p, r1.purse, t.id, q) && OnlyMatch(r1.purse, r2.purse, t.id, AfterFill(q, n))
    requires SameBooks(led, r1.led) && SameBooks(r1.led, r2.led)
    requires fills != [] && fills[0].trade.makerUser != fills[0].trade.takerUser
    ensures SameSlack(led, p, r2.led, r2.purse, markets)
    ensures OnlyMatch(p, r2.purse, t.id, q) && SameBooks(led, r2.led)
    ensures NoSelfTrade(fills) <==> NoSelfTrade(fills[1..])
  {
    hide Slack, Gap, Reconciled;
    forall asset
      ensures Gap(r2.led, asset) == Gap(led, asset)
    {
      assert Gap(r1.led, asset) == Gap(led, asset);
    }
    OnlyMatchTrans(p, r1.purse, r2.purse, t.id, q, n);
    forall a
      ensures Slack(r2.led, r2.purse, markets, a) == Slack(led, p, markets, a)
    {
      assert Slack(r1.led, r1.purse, markets, a) == Slack(led, p, markets, a);
    }
    assert forall i :: 0 <= i < |fills[1..]| ==> fills[1..][i] == fills[i + 1];
    if NoSelfTrade(fills[1..]) {
      forall i | 0 <= i < |fills|
        ensures fills[i].trade.makerUser != fills[i].trade.takerUser
      {
        assert i > 0 ==> fills[i] == fills[1..][i - 1];
      }
    }
  }

  // ---- what the taker is recorded to have spent ----

  function CostOf(side: Side, fills: seq<Fill>): int {
    if side.Buy? then FillCost(fills) else FilledQty(fills)
  }

  /** Every fill names this taker, and another order as maker. */
  ghost predicate TakenBy(fills: seq<Fill>, t: OrderVal) {
    forall i :: 0 <= i < |fills| ==>
      fills[i].trade.taker == t.id && fills[i].trade.takerSide == t.side && fills[i].trade.maker != t.id
  }

  lemma {:induction false} EatTakenBy(t: OrderVal, q: seq<OrderVal>, s: nat)
    requires Open(q) && !HasId(q, t.id)
    ensures TakenBy(Eat(t, q, s).fills, t)
    decreases TotalQty(q)
  {
    if CanEat(t, q) {
      var n := FillQty(t, q[0]);
      var q' := AfterFill(q, n);
      AfterFillShrinks(q, n);
      forall i | 0 <= i < |q'|
        ensures q'[i].id != t.id
      {
        if q[0].remaining == n {
          assert q'[i] == q[i + 1];
        } else {
          assert i > 0 ==> q'[i] == q[i];
          assert q[i].id != t.id;
        }
      }
      EatTakenBy(Taken(t, q[0].price, n), q', s + 1);
      assert q[0].id != t.id;
    }
  }

  /** Every fill's maker is known to the purse. */
  ghost predicate MakersKnown(fills: seq<Fill>, p: Purse) {
    forall i :: 0 <= i < |fills| ==> fills[i].trade.maker in p
  }

  lemma {:induction false} EatMakersKnown(t: OrderVal, q: seq<OrderVal>, s: nat, p: Purse)
    requires Open(q) && forall i :: 0 <= i < |q| ==> q[i].id in p
    ensures MakersKnown(Eat(t, q, s).fills, p)
    decreases TotalQty(q)
  {
    if CanEat(t, q) {
      var n := FillQty(t, q[0]);
      AfterFillShrinks(q, n);
      forall i | 0 <= i < |AfterFill(q, n)|
        ensures AfterFill(q, n)[i].id in p
      {
        AfterFillOrigin(q, n, i);
      }
      EatMakersKnown(Taken(t, q[0].price, n), AfterFill(q, n), s + 1, p);
    }
  }

  /** What one settled fill does to its taker. */
  lemma TakerOnce(led: Led, p: Purse, t: Trade, tf: OrderVal, mk: Market)
    requires tf.id in p && t.taker == tf.id && t.takerSide == tf.side && t.maker != tf.id
    requires SettleOne(led, p, t, tf, mk).err.None?
    ensures var cost := Cost(tf.side, t);
      SettleOne(led, p, t, tf, mk).purse[tf.id] ==
        p[tf.id].(settled := p[tf.id].settled + cost,
                  spent := if tf.side.Buy? then p[tf.id].spent + cost else tf.filled)
  {
    hide SettleTrade, Cost;
  }

  /** When all fills settle, the taker's recorded spending is its settled cost. */
  lemma {:induction false} TakerRecorded(led: Led, p: Purse, fills: seq<Fill>, tf: OrderVal, mk: Market)
    requires tf.id in p && TakenBy(fills, tf)
    requires SettleFills(led, p, fills, tf, mk).err.None?
    ensures SettleFills(led, p, fills, tf, mk).purse[tf.id] == p[tf.id].(
      settled := p[tf.id].settled + CostOf(tf.side, fills),
      spent := if tf.side.Buy? then p[tf.id].spent + CostOf(tf.side, fills)
               else if fills == [] then p[tf.id].spent else tf.filled)
    decreases |fills|
  {
    hide SettleOne;
    if fills != [] {
      var r := SettleOne(led, p, fills[0].trade, tf, mk);
      TakerOnce(led, p, fills[0].trade, tf, mk);
      assert forall i :: 0 <= i < |fills[1..]| ==> fills[1..][i] == fills[i + 1];
      TakerRecorded(r.led, r.purse, fills[1..], tf, mk);
    }
  }

  /** What the fills cost one order as their maker. */
  function MakerCost(fills: seq<Fill>, id: OrderId): int {
    if fills == [] then 0
    else (if fills[0].trade.maker == id then Cost(fills[0].trade.makerSide, fills[0].trade) else 0)
         + MakerCost(fills[1..], id)
  }

  lemma SettledOnce(led: Led, p: Purse, t: Trade, tf: OrderVal, mk: Market, id: OrderId)
    requires tf.id in p && t.taker == tf.id && t.maker != tf.id && id in p && id != tf.id
    requires SettleOne(led, p, t, tf, mk).err.None?
    ensures SettleOne(led, p, t, tf, mk).purse[id]
         == p[id].(settled := p[id].settled + if t.maker == id then Cost(t.makerSide, t) else 0)
  {
  }

  /** Settling charges every other order what it cost it as a maker, and records none of it as spent. */
  lemma {:induction false} MakersUnrecorded(led: Led, p: Purse, fills: seq<Fill>, tf: OrderVal, mk: Market, id: OrderId)
    requires tf.id in p && TakenBy(fills, tf) && id in p && id != tf.id
    requires SettleFills(led, p, fills, tf, mk).err.None?
    ensures SettleFills(led, p, fills, tf, mk).purse[id] == p[id].(settled := p[id].settled + MakerCost(fills, id))
    decreases |fills|
  {
    hide SettleOne, Cost;
    if fills != [] {
      var r := SettleOne(led, p, fills[0].trade, tf, mk);
      SettledOnce(led, p, fills[0].trade, tf, mk, id);
      assert forall i :: 0 <= i < |fills[1..]| ==> fills[1..][i] == fills[i + 1];
      MakersUnrecorded(r.led, r.purse, fills[1..], tf, mk, id);
    }
  }
}
