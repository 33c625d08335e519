/**
 What the frozen funds of an account must cover at any moment: its resting orders and its
 pending withdrawals, nothing else. Which cancels keep them covered, exactly.
 */
module LiveFunds {
  import opened Wrappers
  import opened Domain
  import opened Matching
  import opened EngineModel
  import opened Ledger
  import opened Settlement
  import opened Exchange
  import opened Solvency
  import opened Withdrawals
  import opened SolventRuns
  import opened TradeHistory
  import opened Sums

  /** The order rests in the engine of its market. */
  ghost predicate Live(x: Ex, id: OrderId) {
    id in x.purse && x.purse[id].market in x.engines && x.engines[x.purse[id].market].Active(id)
  }

  /** The money of all orders, of which only the live ones hold funds. */
  ghost function LivePurse(x: Ex): Purse {
    map id | id in x.purse :: if Live(x, id) then x.purse[id] else x.purse[id].(funded := false)
  }

  /** Frozen funds of an account beyond what its live orders hold and its pending withdrawals reserve. */
  ghost function Spare(x: Ex, a: Account): int {
    Slack(x.led, LivePurse(x), x.markets, a) - Sum(x.withdrawals, ReservedIn(a))
  }

  /**
   Every live order holds enough for the rest of its life, and in every account the frozen
   funds cover all live orders and pending withdrawals together.
   */
  ghost predicate LiveSound(x: Ex) {
    && ShapeOk(x) && LedgerOk(x.led) && WithdrawalsOk(x.withdrawals)
    && BooksBacked(x.engines, x.purse) && HeldOk(LivePurse(x))
    && forall a :: Spare(x, a) >= 0
  }

  // ---- the same state with only live orders holding funds ----

  /** `q` is `p`, some orders of which hold nothing. */
  ghost predicate Flagged(p: Purse, q: Purse) {
    q.Keys == p.Keys && forall id :: id in p ==> q[id] == p[id] || q[id] == p[id].(funded := false)
  }

  /** States that differ in which orders count as holding funds, and in nothing a call reads. */
  ghost predicate Alike(x: Ex, y: Ex) {
    y == x.(purse := y.purse, loose := y.loose) && Flagged(x.purse, y.purse)
  }

  ghost function View(x: Ex): Ex
    requires LiveSound(x)
  {
    x.(purse := LivePurse(x), loose := map a | a in x.led.accounts :: Spare(x, a))
  }

  lemma ViewAlike(x: Ex)
    requires LiveSound(x)
    ensures Alike(x, View(x))
  {
  }

  /** An order backed by a purse holds funds there. */
  lemma BackedLive(x: Ex, s: string, q: seq<OrderVal>)
    requires s in x.engines && AllBacked(x.purse, s, q)
    requires forall i :: 0 <= i < |q| ==> x.engines[s].Active(q[i].id)
    ensures AllBacked(LivePurse(x), s, q)
  {
    hide Eng.Active;
    forall i | 0 <= i < |q|
      ensures Backed(LivePurse(x), s, q[i])
    {
      assert Backed(x.purse, s, q[i]);
    }
  }

  lemma RestingActive(e: Eng)
    ensures forall i :: 0 <= i < |e.bids.Resting()| ==> e.Active(e.bids.Resting()[i].id)
    ensures forall i :: 0 <= i < |e.asks.Resting()| ==> e.Active(e.asks.Resting()[i].id)
  {
  }

  lemma BooksLive(x: Ex)
    requires BooksBacked(x.engines, x.purse)
    ensures BooksBacked(x.engines, LivePurse(x))
  {
    hide AllBacked, Eng.Active, LivePurse;
    forall s | s in x.engines
      ensures AllBacked(LivePurse(x), s, x.engines[s].bids.Resting())
      ensures AllBacked(LivePurse(x), s, x.engines[s].asks.Resting())
    {
      RestingActive(x.engines[s]);
      BackedLive(x, s, x.engines[s].bids.Resting());
      BackedLive(x, s, x.engines[s].asks.Resting());
    }
  }

  /** An account without a balance backs nothing. */
  lemma NothingSpare(x: Ex, a: Account)
    requires LiveSound(x) && a !in x.led.accounts
    ensures Spare(x, a) == 0
  {
    hide LivePurse, BooksBacked, LedgerOk, ShapeOk;
    SumCovers(LivePurse(x), HeldIn(x.markets, a));
    ReservedCovers(x.withdrawals, a);
  }

  lemma ViewPooled(x: Ex)
    requires LiveSound(x)
    ensures Pooled(x.led, LivePurse(x), x.markets, x.withdrawals, View(x).loose)
  {
    hide LivePurse, BooksBacked, LedgerOk, ShapeOk, HeldOk, WithdrawalsOk;
    forall a
      ensures Slack(x.led, LivePurse(x), x.markets, a) == Sum(x.withdrawals, ReservedIn(a)) + LooseIn(View(x).loose, a)
    {
      if a !in x.led.accounts {
        NothingSpare(x, a);
      }
    }
  }

  lemma ViewShape(x: Ex, q: Purse, loose: map<Account, nat>)
    requires ShapeOk(x) && Flagged(x.purse, q)
    ensures ShapeOk(x.(purse := q, loose := loose))
  {
    hide EngOk;
  }

  lemma ViewSound(x: Ex)
    requires LiveSound(x)
    ensures Inv(View(x))
  {
    hide LivePurse, BooksBacked, LedgerOk, ShapeOk, HeldOk, WithdrawalsOk, Spare, Pooled;
    ViewAlike(x);
    ViewShape(x, LivePurse(x), View(x).loose);
    ViewPooled(x);
    BooksLive(x);
  }

  // ---- and back ----

  lemma {:induction false} SumMono<K(!new), V(!new)>(m: map<K, V>, m': map<K, V>, f: (K, V) -> int)
    requires m'.Keys == m.Keys && forall k :: k in m ==> f(k, m'[k]) <= f(k, m[k])
    ensures Sum(m', f) <= Sum(m, f)
    decreases |m|
  {
    if m == map[] {
      assert m' == map[];
    } else {
      var k :| k in m;
      SumOut(m, f, k);
      SumOut(m', f, k);
      SumMono(m - {k}, m' - {k}, f);
    }
  }

  /** What a purse backs, it backs also where more orders hold funds. */
  lemma BackedMore(p: Purse, q: Purse, s: string, l: seq<OrderVal>)
    requires Flagged(p, q) && AllBacked(q, s, l)
    ensures AllBacked(p, s, l)
  {
    forall i | 0 <= i < |l|
      ensures Backed(p, s, l[i])
    {
      assert Backed(q, s, l[i]);
    }
  }

  lemma BooksMore(engines: map<string, Eng>, p: Purse, q: Purse)
    requires Flagged(p, q) && BooksBacked(engines, q)
    ensures BooksBacked(engines, p)
  {
    hide AllBacked, Flagged;
    forall s | s in engines
      ensures AllBacked(p, s, engines[s].bids.Resting()) && AllBacked(p, s, engines[s].asks.Resting())
    {
      BackedMore(p, q, s, engines[s].bids.Resting());
      BackedMore(p, q, s, engines[s].asks.Resting());
    }
  }

  /** A live order counts in every purse that backs the books. */
  lemma LiveCounts(x: Ex, q: Purse)
    requires Flagged(x.purse, q) && BooksBacked(x.engines, q)
    ensures Flagged(q, LivePurse(x))
  {
    hide AllBacked, Eng.Active;
    forall id | id in x.purse
      ensures LivePurse(x)[id] == q[id] || LivePurse(x)[id] == q[id].(funded := false)
    {
      if Live(x, id) {
        ActiveFunded(x.engines[x.purse[id].market], q, x.purse[id].market, id);
      }
    }
  }

  lemma ActiveFunded(e: Eng, q: Purse, s: string, id: OrderId)
    requires e.Active(id) && AllBacked(q, s, e.bids.Resting()) && AllBacked(q, s, e.asks.Resting())
    ensures id in q && q[id].funded
  {
    if HasId(e.bids.Resting(), id) {
      BackedAt(q, s, e.bids.Resting(), id);
    } else {
      BackedAt(q, s, e.asks.Resting(), id);
    }
  }

  lemma FlaggedSlack(led: Led, p: Purse, q: Purse, markets: map<string, Market>, a: Account)
    requires Flagged(p, q) && HeldOk(p)
    ensures Slack(led, q, markets, a) >= Slack(led, p, markets, a)
  {
    SumMono(p, q, HeldIn(markets, a));
  }

  lemma FlaggedHeld(p: Purse, q: Purse)
    requires Flagged(p, q) && HeldOk(p)
    ensures HeldOk(q)
  {
  }

  /** A sound state in which some orders count for nothing leaves the live ones covered. */
  lemma LiveFrom(x: Ex, y: Ex)
    requires Alike(x, y) && Inv(y)
    ensures LiveSound(x)
  {
    hide LivePurse, BooksBacked, LedgerOk, ShapeOk, HeldOk, WithdrawalsOk, Slack, Flagged;
    BooksMore(x.engines, x.purse, y.purse);
    LiveCounts(x, y.purse);
    FlaggedHeld(y.purse, LivePurse(x));
    ShapeBack(x, y);
    forall a
      ensures Spare(x, a) >= 0
    {
      FlaggedSlack(x.led, y.purse, LivePurse(x), x.markets, a);
    }
  }

  lemma ShapeBack(x: Ex, y: Ex)
    requires Alike(x, y) && ShapeOk(y)
    ensures ShapeOk(x)
  {
    hide EngOk;
  }

  // ---- no call reads who counts ----

  lemma SettleOneFlags(led: Led, p: Purse, q: Purse, t: Trade, taker: OrderVal, mk: Market)
    requires Flagged(p, q)
    ensures var r, r' := SettleOne(led, p, t, taker, mk), SettleOne(led, q, t, taker, mk);
      r'.led == r.led && r'.err == r.err && Flagged(r.purse, r'.purse)
  {
    hide SettleTrade, Cost, Charge, Record, Flagged;
    var c, c' := Cost(t.makerSide, t), Cost(t.takerSide, t);
    ChargeFlags(p, q, t.maker, c);
    ChargeFlags(Charge(p, t.maker, c), Charge(q, t.maker, c), t.taker, c');
    RecordFlags(Charge(Charge(p, t.maker, c), t.taker, c'), Charge(Charge(q, t.maker, c), t.taker, c'), taker,
      Cost(taker.side, t));
  }

  lemma ChargeFlags(p: Purse, q: Purse, id: OrderId, cost: int)
    requires Flagged(p, q)
    ensures Flagged(Charge(p, id, cost), Charge(q, id, cost))
  {
  }

  lemma RecordFlags(p: Purse, q: Purse, taker: OrderVal, cost: int)
    requires Flagged(p, q)
    ensures Flagged(Record(p, taker, cost), Record(q, taker, cost))
  {
  }

  lemma {:induction false} SettleFlags(led: Led, p: Purse, q: Purse, fills: seq<Fill>, taker: OrderVal, mk: Market)
    requires Flagged(p, q)
    ensures var r, r' := SettleFills(led, p, fills, taker, mk), SettleFills(led, q, fills, taker, mk);
      r'.led == r.led && r'.err == r.err && Flagged(r.purse, r'.purse)
    decreases |fills|
  {
    hide SettleOne, Flagged;
    if fills != [] {
      SettleOneFlags(led, p, q, fills[0].trade, taker, mk);
      var r, r' := SettleOne(led, p, fills[0].trade, taker, mk), SettleOne(led, q, fills[0].trade, taker, mk);
      SettleFlags(r.led, r.purse, r'.purse, fills[1..], taker, mk);
    }
  }

  lemma ReleaseFlags(led: Led, p: Purse, q: Purse, id: OrderId, a: Account)
    requires Flagged(p, q) && id in p
    ensures Release(led, q, id, a).0 == Release(led, p, id, a).0
    ensures Flagged(Release(led, p, id, a).1, Release(led, q, id, a).1)
  {
    hide Unfreeze;
  }

  /** The same engines, ledger and orders written over two states. */
  lemma Rewritten(x: Ex, y: Ex, engines: map<string, Eng>, led: Led, p: Purse, q: Purse, orders: map<OrderId, OrderVal>)
    requires Alike(x, y) && Flagged(p, q)
    ensures Alike(x.(engines := engines, led := led, purse := p, orders := orders),
                  y.(engines := engines, led := led, purse := q, orders := orders))
  {
    hide Flagged;
  }

  lemma ReadsAlike(x: Ex, y: Ex)
    requires Alike(x, y)
    ensures y.markets == x.markets && y.engines == x.engines && y.led == x.led && y.orders == x.orders
    ensures Flagged(x.purse, y.purse) && y.purse.Keys == x.purse.Keys
  {
  }

  /** What an execution does to the ledger and the purse once the engine has answered. */
  function Closing(led: Led, p: Purse, out: Outcome, o: OrderVal, mk: Market): Settled
    requires o.id in p
  {
    var a := Account(o.user, mk.AssetOf(o.side));
    if out.reject.Some? then
      var (l, q) := Release(led, p, o.id, a);
      Settled(l, q, None)
    else
      var s := SettleFills(led, p, out.fills, out.order, mk);
      if s.err.Some? || Rests(out.order) then s
      else
        var (l, q) := Release(s.led, s.purse, o.id, a);
        Settled(l, q, None)
  }

  lemma ClosingFlags(led: Led, p: Purse, q: Purse, out: Outcome, o: OrderVal, mk: Market)
    requires Flagged(p, q) && o.id in p
    ensures o.id in q
    ensures var r, r' := Closing(led, p, out, o, mk), Closing(led, q, out, o, mk);
      r'.led == r.led && r'.err == r.err && Flagged(r.purse, r'.purse)
  {
    hide SettleFills, Release, Flagged, Rests;
    KeysAlike(p, q);
    var a := Account(o.user, mk.AssetOf(o.side));
    ReleaseFlags(led, p, q, o.id, a);
    SettleFlags(led, p, q, out.fills, out.order, mk);
    var s, s' := SettleFills(led, p, out.fills, out.order, mk), SettleFills(led, q, out.fills, out.order, mk);
    ReleaseFlags(s.led, s.purse, s'.purse, o.id, a);
  }

  /** An execution is the engine's answer and the closing. */
  lemma ExecuteCloses(x: Ex, o: OrderVal, market: string)
    requires market in x.markets && market in x.engines && o.id in x.purse && EngOk(x.engines[market])
    requires Open(x.engines[market].BookOf(o.side.Opposite()).queue)
    ensures var (e, out) := Submit(x.engines[market], o);
      var c := Closing(x.led, x.purse, out, o, x.markets[market]);
      var orders := if out.reject.Some? then x.orders[o.id := out.order.(status := Rejected)]
                    else PatchAll(x.orders, out.fills)[o.id := out.order];
      Execute(x, o, market) ==
        (x.(engines := x.engines[market := e], led := c.led, purse := c.purse, orders := orders),
         if out.reject.Some? then Refused(Some(out.order.(status := Rejected)), out.reject.value)
         else if c.err.Some? then Unsettled(out.order, out.fills, c.err.value)
         else Done(out.order, out.fills))
  {
    hide EngOk, Submit, SettleFills, Release, PatchAll, Rests;
  }

  lemma ExecuteAlike(x: Ex, y: Ex, o: OrderVal, market: string)
    requires Alike(x, y) && market in x.markets && market in x.engines && o.id in x.purse && EngOk(x.engines[market])
    ensures o.id in y.purse && market in y.markets && market in y.engines && EngOk(y.engines[market])
    ensures Alike(Execute(x, o, market).0, Execute(y, o, market).0)
    ensures Execute(y, o, market).1 == Execute(x, o, market).1
  {
    hide EngOk, Submit, Closing, PatchAll, Flagged, Alike, Execute;
    ReadsAlike(x, y);
    BookOkIn(x.engines[market], o.side.Opposite());
    QueueUnique(x.engines[market].BookOf(o.side.Opposite()));
    ExecuteCloses(x, o, market);
    ExecuteCloses(y, o, market);
    var mk, out := x.markets[market], Submit(x.engines[market], o).1;
    ClosingFlags(x.led, x.purse, y.purse, out, o, mk);
    var x', y' := Execute(x, o, market).0, Execute(y, o, market).0;
    Rewritten(x, y, x'.engines, x'.led, x'.purse, y'.purse, x'.orders);
  }

  lemma KeysAlike(p: Purse, q: Purse)
    requires Flagged(p, q)
    ensures p.Keys == q.Keys
  {
  }

  lemma StoreFlags(p: Purse, q: Purse, id: OrderId, m: Money)
    requires Flagged(p, q)
    ensures Flagged(p[id := m], q[id := m])
  {
  }

  lemma FundAlike(x: Ex, y: Ex, o: OrderVal, market: string)
    requires Alike(x, y) && market in x.markets && market in x.engines && EngOk(x.engines[market])
    ensures Alike(Fund(x, o, market).0, Fund(y, o, market).0) && Fund(y, o, market).1 == Fund(x, o, market).1
  {
    hide EngOk, Execute, Freeze, Flagged, FreezeAmount;
    var refused := o.(status := Rejected);
    match FreezeAmount(o)
    case None =>
      StoreFlags(x.purse, y.purse, o.id, MoneyOf(o, market, false, 0));
    case Some(amount) =>
      StoreFlags(x.purse, y.purse, o.id, MoneyOf(o, market, false, amount));
      StoreFlags(x.purse, y.purse, o.id, MoneyOf(o, market, true, amount));
      var led := Freeze(x.led, Account(o.user, x.markets[market].AssetOf(o.side)), amount).0;
      var m := MoneyOf(o, market, true, amount);
      ExecuteAlike(Store(x.(led := led), o, m), Store(y.(led := led), o, m), o, market);
  }

  lemma PlaceAlike(x: Ex, y: Ex, user: string, r: Request)
    requires Alike(x, y) && ShapeOk(x) && ShapeOk(y)
    ensures Alike(Place(x, user, r).0, Place(y, user, r).0) && Place(y, user, r).1 == Place(x, user, r).1
  {
    hide Fund, Build, Flagged, EngOk;
    if r.market in x.markets && x.markets[r.market].enabled && !r.typ.OtherType? {
      var id := x.lastOrder + 1;
      var o := Build(x.markets[r.market], id, user, r);
      if o.Ok? {
        FundAlike(x.(lastOrder := id), y.(lastOrder := id), o.value, r.market);
      }
    }
  }

  lemma WithdrawAlike(x: Ex, y: Ex, user: string, asset: string, address: string, amount: int)
    requires Alike(x, y)
    ensures var (x', r) := SubmitWithdrawal(x, user, asset, address, amount);
      SubmitWithdrawal(y, user, asset, address, amount) == (x'.(purse := y.purse, loose := y.loose), r)
      && x'.purse == x.purse
  {
    hide SubmitWithdrawal, Flagged;
    SubmitOnly(x, user, asset, address, amount);
    SubmitBlind(x, user, asset, address, amount, y.purse, y.loose);
  }

  lemma SubmitBlind(x: Ex, user: string, asset: string, address: string, amount: int, p: Purse,
      loose: map<Account, nat>)
    ensures var (x', r) := SubmitWithdrawal(x, user, asset, address, amount);
      SubmitWithdrawal(x.(purse := p, loose := loose), user, asset, address, amount)
        == (x'.(purse := p, loose := loose), r)
  {
    hide FreezeBoth;
  }

  lemma ApproveAlike(x: Ex, y: Ex, id: nat, answer: Chain)
    requires Alike(x, y)
    ensures var (x', r) := Approve(x, id, answer);
      Approve(y, id, answer) == (x'.(purse := y.purse, loose := y.loose), r)
      && x'.purse == x.purse && x'.loose == x.loose
  {
    hide Approve, Flagged, Advanced;
    ApproveOnly(x, id, answer);
    ApproveMoves(x, id, answer);
    ApproveBlind(x, id, answer, y.purse, y.loose);
  }

  lemma ApproveBlind(x: Ex, id: nat, answer: Chain, p: Purse, loose: map<Account, nat>)
    ensures var (x', r) := Approve(x, id, answer);
      Approve(x.(purse := p, loose := loose), id, answer) == (x'.(purse := p, loose := loose), r)
  {
    hide ConsumeFrozen;
  }

  lemma RejectAlike(x: Ex, y: Ex, id: nat)
    requires Alike(x, y)
    ensures var (x', r) := Reject(x, id);
      Reject(y, id) == (x'.(purse := y.purse, loose := y.loose), r) && x'.purse == x.purse
  {
    hide Unfreeze, Flagged;
  }

  lemma ConfirmAlike(x: Ex, y: Ex, id: nat, confirmations: Option<nat>)
    requires Alike(x, y)
    ensures var (x', r) := Confirm(x, id, confirmations);
      Confirm(y, id, confirmations) == (x'.(purse := y.purse, loose := y.loose), r) && x'.purse == x.purse
  {
    hide Flagged;
  }

  lemma CreditAlike(x: Ex, y: Ex, user: string, asset: string, amount: int, tx: string)
    requires Alike(x, y)
    ensures var (x', r) := Credit(x, user, asset, amount, tx);
      Credit(y, user, asset, amount, tx) == (x'.(purse := y.purse, loose := y.loose), r) && x'.purse == x.purse
  {
    hide Deposit, Flagged;
  }

  lemma StepAlike(x: Ex, y: Ex, c: Call)
    requires Alike(x, y) && ShapeOk(x) && ShapeOk(y) && !c.CancelCall?
    ensures Alike(Step(x, c), Step(y, c))
  {
    hide ShapeOk, EngOk, Place, Deposit, SubmitWithdrawal, Approve, Reject, Confirm, Credit, Flagged;
    match c
    case PlaceCall(u, r) => PlaceAlike(x, y, u, r);
    case WithdrawCall(u, a, to, q) => WithdrawAlike(x, y, u, a, to, q);
    case ApproveCall(id, answer) => ApproveAlike(x, y, id, answer);
    case RejectCall(id) => RejectAlike(x, y, id);
    case ConfirmCall(id, n) => ConfirmAlike(x, y, id, n);
    case CreditCall(u, a, q, tx) => CreditAlike(x, y, u, a, q, tx);
    case DepositCall(_, _, _) =>
    case CancelCall(_, _) =>
  }

  // ---- cancelling ----

  /** What a release takes out of an account's frozen funds: nothing if the ledger refuses it. */
  function Moved(led: Led, m: Money, a: Account): int {
    if 0 < m.frozen - m.spent <= Get(led, a).frozen then m.frozen - m.spent else 0
  }

  /**
   The cancelled order stops counting: the slack of its account moves by what it held less
   what is given back, and no other account's slack moves.
   */
  lemma ReleaseSlackExact(led: Led, p: Purse, q: Purse, markets: map<string, Market>, id: OrderId, b: Account)
    requires id in p && id in q && p[id].market in markets && q[id] == p[id] && p[id].funded
    ensures var m := p[id];
      var a := Account(m.user, markets[m.market].AssetOf(m.side));
      var (led', p') := Release(led, p, id, a);
      && id in p'
      && Slack(led', q[id := p'[id].(funded := false)], markets, b)
           == Slack(led, q, markets, b) + if b == a then m.frozen - m.settled - Moved(led, m, a) else 0
  {
    hide Slack;
    var m := p[id];
    var a := Account(m.user, markets[m.market].AssetOf(m.side));
    var (led', p') := Release(led, p, id, a);
    SlackWrite(led', q, markets, id, p'[id].(funded := false), b);
    LedgerSlack(led, led', q, markets, b);
  }

  lemma LedgerSlack(led: Led, led': Led, q: Purse, markets: map<string, Market>, b: Account)
    ensures Slack(led', q, markets, b) == Slack(led, q, markets, b) + Get(led', b).frozen - Get(led, b).frozen
  {
  }

  /** A successful cancel is the engine's cancel and the release. */
  lemma CancelIs(x: Ex, user: string, id: OrderId)
    requires ShapeOk(x) && CancelOrder(x, user, id).1.Ok?
    ensures id in x.purse && x.purse[id].market in x.engines && x.purse[id].market in x.markets
    ensures x.engines[x.purse[id].market].Active(id)
    ensures var m := x.purse[id];
      var x' := CancelOrder(x, user, id).0;
      var (led', p') := Release(x.led, x.purse, id, x.AccountOf(m));
      x' == x.(engines := x.engines[m.market := Cancel(x.engines[m.market], id).0], led := led', purse := p',
               orders := x'.orders)
  {
    hide Cancel, Release, EngOk;
    CancelOk(x.engines[x.purse[id].market], id);
  }

  /** After a cancel every other live order is still live, with the same money. */
  lemma CancelLive(x: Ex, user: string, id: OrderId)
    requires ShapeOk(x) && CancelOrder(x, user, id).1.Ok?
    ensures var x' := CancelOrder(x, user, id).0;
      && Live(x, id) && id in x'.purse
      && LivePurse(x') == LivePurse(x)[id := x'.purse[id].(funded := false)]
      && forall i :: Live(x', i) <==> Live(x, i) && i != id
  {
    hide Cancel, CancelOrder, EngOk, Eng.Active;
    CancelIs(x, user, id);
    var x' := CancelOrder(x, user, id).0;
    var market := x.purse[id].market;
    EngineIn(x, market);
    CancelOk(x.engines[market], id);
    forall i | i in x.purse
      ensures Live(x', i) <==> Live(x, i) && i != id
    {
    }
  }

  lemma EngineIn(x: Ex, market: string)
    requires ShapeOk(x) && market in x.engines
    ensures EngOk(x.engines[market])
  {
  }

  /** A live order of a live-sound state is funded and holds a non-negative amount. */
  lemma LiveFunded(x: Ex, id: OrderId)
    requires LiveSound(x) && Live(x, id)
    ensures x.purse[id].funded && 0 <= x.purse[id].frozen - x.purse[id].settled
    ensures LivePurse(x)[id] == x.purse[id]
  {
    hide LedgerOk, ShapeOk, AllBacked, Eng.Active;
    ActiveFunded(x.engines[x.purse[id].market], x.purse, x.purse[id].market, id);
    assert LivePurse(x)[id].Held() >= 0;
  }

  /** What a cancel does to the spare funds of every account. */
  lemma CancelSpare(x: Ex, user: string, id: OrderId, b: Account)
    requires LiveSound(x) && CancelOrder(x, user, id).1.Ok?
    ensures id in x.purse && x.purse[id].market in x.markets
    ensures var m := x.purse[id];
      var a := x.AccountOf(m);
      Spare(CancelOrder(x, user, id).0, b)
        == Spare(x, b) + if b == a then m.frozen - m.settled - Moved(x.led, m, a) else 0
  {
    hide ShapeOk, LedgerOk, BooksBacked, HeldOk, Slack, LivePurse, Live, CancelOrder, Cancel;
    CancelIs(x, user, id);
    CancelLive(x, user, id);
    LiveFunded(x, id);
    LiveKeys(x);
    ReleaseSlackExact(x.led, x.purse, LivePurse(x), x.markets, id, b);
  }

  lemma LiveKeys(x: Ex)
    ensures LivePurse(x).Keys == x.purse.Keys
  {
  }

  /** What a caller can check before a cancel: what is given back, beyond what the order held, is spare. */
  ghost predicate Affordable(x: Ex, m: Money)
    requires m.market in x.markets
  {
    var a := x.AccountOf(m);
    0 < m.frozen - m.spent <= Get(x.led, a).frozen ==> m.settled - m.spent <= Spare(x, a)
  }

  /** Everything but the cover of the accounts survives any cancel. */
  lemma CancelKeepsRest(x: Ex, user: string, id: OrderId)
    requires LiveSound(x) && CancelOrder(x, user, id).1.Ok?
    ensures var x' := CancelOrder(x, user, id).0;
      && ShapeOk(x') && LedgerOk(x'.led) && WithdrawalsOk(x'.withdrawals)
      && BooksBacked(x'.engines, x'.purse) && HeldOk(LivePurse(x'))
  {
    hide ShapeOk, LedgerOk, BooksBacked, HeldOk, Slack, LivePurse, Live, CancelOrder, Cancel, Release, Spare, View,
      Idle;
    CancelIs(x, user, id);
    CancelShape(x, user, id);
    ReleaseBooks(x.led, x.purse, id, x.AccountOf(x.purse[id]));
    CancelBooks(x, id);
    CancelLive(x, user, id);
    HeldWithout(LivePurse(x), id, CancelOrder(x, user, id).0.purse[id]);
  }

  lemma HeldWithout(p: Purse, id: OrderId, m: Money)
    requires HeldOk(p)
    ensures HeldOk(p[id := m.(funded := false)])
  {
  }

  lemma CancelBooks(x: Ex, id: OrderId)
    requires LiveSound(x) && id in x.purse && x.purse[id].market in x.engines && x.purse[id].market in x.markets
    requires x.engines[x.purse[id].market].Active(id)
    ensures var m := x.purse[id];
      BooksBacked(x.engines[m.market := Cancel(x.engines[m.market], id).0],
        Release(x.led, x.purse, id, x.AccountOf(m)).1)
  {
    hide Inv, ShapeOk, LedgerOk, BooksBacked, HeldOk, Cancel, Release, Flagged, Idle, LivePurse;
    var m, y := x.purse[id], View(x);
    ViewSound(x);
    ViewAlike(x);
    SameMarket(x.purse, y.purse, id);
    WithdrawnKeeps(y, id);
    var engines := x.engines[m.market := Cancel(x.engines[m.market], id).0];
    BooksIn(y.(engines := engines));
    BooksMore(engines, x.purse, y.purse);
    ReleaseOnly(x.led, x.purse, id, x.AccountOf(m));
    IdleBooksBacked(engines, x.purse, id, Release(x.led, x.purse, id, x.AccountOf(m)).1[id]);
  }

  lemma SameMarket(p: Purse, q: Purse, id: OrderId)
    requires Flagged(p, q) && id in p
    ensures id in q && q[id].market == p[id].market
  {
  }

  lemma BooksIn(y: Ex)
    requires Inv(y)
    ensures BooksBacked(y.engines, y.purse)
  {
  }

  /**
   Exactly when a cancel leaves all live orders and pending withdrawals covered: when what it
   gives back beyond what its order still held was spare, or the ledger refuses to give it back.
   */
  lemma CancelCovers(x: Ex, user: string, id: OrderId)
    requires LiveSound(x) && CancelOrder(x, user, id).1.Ok?
    ensures id in x.purse && x.purse[id].market in x.markets
    ensures LiveSound(CancelOrder(x, user, id).0) <==> Affordable(x, x.purse[id])
  {
    hide ShapeOk, LedgerOk, BooksBacked, HeldOk, LivePurse, Live, CancelOrder, Spare, Get;
    CancelKeepsRest(x, user, id);
    CancelIs(x, user, id);
    var x', m := CancelOrder(x, user, id).0, x.purse[id];
    var a := x.AccountOf(m);
    CancelHeld(x, user, id);
    CancelSpare(x, user, id, a);
    if Affordable(x, m) {
      forall b
        ensures Spare(x', b) >= 0
      {
        CancelSpare(x, user, id, b);
        assert Spare(x, b) >= 0;
      }
    }
  }

  lemma CancelHeld(x: Ex, user: string, id: OrderId)
    requires LiveSound(x) && CancelOrder(x, user, id).1.Ok?
    ensures id in x.purse && x.purse[id].frozen - x.purse[id].settled >= 0
  {
    hide LiveSound, CancelOrder;
    ShapeIn(x);
    CancelLive(x, user, id);
    LiveFunded(x, id);
  }

  lemma ShapeIn(x: Ex)
    requires LiveSound(x)
    ensures ShapeOk(x)
  {
  }

  // ---- runs ----

  /** A cancel that goes through is affordable. */
  ghost predicate Frugal(x: Ex, c: Call)
    requires ShapeOk(x)
  {
    c.CancelCall? && CancelOrder(x, c.user, c.id).1.Ok? ==> (CancelIs(x, c.user, c.id); Affordable(x, x.purse[c.id]))
  }

  /** A placed order's trades settle, unless one of them has a single user on both sides. */
  ghost predicate SettlesUnlessSelf(reply: PlaceReply) {
    match reply
    case Refused(_, _) => true
    case Unsettled(_, fills, err) => !NoSelfTrade(fills) && err == InvalidOrder
    case Done(_, fills) => NoSelfTrade(fills)
  }

  /** What a caller is promised while live orders and pending withdrawals are covered. */
  ghost predicate LiveHonoured(x: Ex, c: Call)
    requires ShapeOk(x)
  {
    match c
    case PlaceCall(u, r) => SettlesUnlessSelf(Place(x, u, r).1)
    case ApproveCall(id, answer) =>
      var (x', r) := Approve(x, id, answer);
      if r.Ok? then Drawn(x.led, x'.led, x.withdrawals[id], 0) else x' == x
    case RejectCall(id) =>
      var (x', r) := Reject(x, id);
      r.Ok? ==> Drawn(x.led, x'.led, x.withdrawals[id], x.withdrawals[id].Reserved())
    case _ => true
  }

  /** A call that is no cancel keeps live orders and pending withdrawals covered, and its promise. */
  lemma StepCovers(x: Ex, c: Call)
    requires LiveSound(x) && !c.CancelCall?
    ensures ShapeOk(x) && LiveSound(Step(x, c)) && LiveHonoured(x, c)
  {
    hide LiveSound, Inv, ShapeOk, Flagged, Step, Drawn, NoSelfTrade;
    ShapeIn(x);
    var y := View(x);
    ViewSound(x);
    ViewAlike(x);
    InvParts(y);
    StepExact(y, c);
    StepAlike(x, y, c);
    LiveFrom(Step(x, c), Step(y, c));
    HonouredAlike(x, y, c);
  }

  lemma HonouredAlike(x: Ex, y: Ex, c: Call)
    requires ShapeOk(x) && ShapeOk(y) && Alike(x, y) && Honoured(y, c) && !c.CancelCall?
    ensures LiveHonoured(x, c)
  {
    hide ShapeOk, Place, Approve, Reject, Drawn, NoSelfTrade, Flagged;
    match c
    case PlaceCall(u, r) => PlaceAlike(x, y, u, r);
    case ApproveCall(id, answer) =>
      ApproveAlike(x, y, id, answer);
      SameBack(x, y, Approve(x, id, answer).0);
    case RejectCall(id) => RejectAlike(x, y, id);
    case _ =>
  }

  lemma SameBack(x: Ex, y: Ex, x': Ex)
    requires Alike(x, y) && x'.purse == x.purse && x'.loose == x.loose
    ensures x'.(purse := y.purse, loose := y.loose) == y ==> x' == x
  {
  }

  /** One call: covered before, all is covered after exactly when the call was frugal. */
  lemma StepCoversExact(x: Ex, c: Call)
    requires LiveSound(x)
    ensures ShapeOk(x) && LiveHonoured(x, c)
    ensures LiveSound(Step(x, c)) <==> Frugal(x, c)
  {
    hide LiveSound, ShapeOk, CancelOrder, Affordable;
    ShapeIn(x);
    if c.CancelCall? {
      if CancelOrder(x, c.user, c.id).1.Ok? {
        CancelCovers(x, c.user, c.id);
      } else {
        RefusedCancel(x, c.user, c.id);
      }
    } else {
      StepCovers(x, c);
    }
  }

  lemma RefusedCancel(x: Ex, user: string, id: OrderId)
    requires ShapeOk(x) && CancelOrder(x, user, id).1.Err?
    ensures CancelOrder(x, user, id).0 == x
  {
    hide ShapeOk, Cancel, Release;
  }

  ghost predicate FrugalRun(x: Ex, calls: seq<Call>)
    requires ShapeOk(x)
    decreases |calls|
  {
    calls == [] || (Frugal(x, calls[0]) && (StepShape(x, calls[0]); FrugalRun(Step(x, calls[0]), calls[1..])))
  }

  /** In every state of the run live orders and pending withdrawals are covered, and every call keeps its promise. */
  ghost predicate CoveredRun(x: Ex, calls: seq<Call>)
    requires ShapeOk(x)
    decreases |calls|
  {
    && LiveSound(x)
    && (calls == []
        || (LiveHonoured(x, calls[0]) && (StepShape(x, calls[0]); CoveredRun(Step(x, calls[0]), calls[1..]))))
  }

  /**
   Solvency over whole runs, exactly: frozen funds cover every live order and every pending
   withdrawal in every state of a run, and every settlement goes through except where a user
   meets itself, if and only if each cancel gives back no more than its order held plus what
   is spare at that moment.
   */
  lemma {:induction false} CoveredExact(x: Ex, calls: seq<Call>)
    requires LiveSound(x)
    ensures ShapeOk(x) && (CoveredRun(x, calls) <==> FrugalRun(x, calls))
    decreases |calls|
  {
    hide LiveSound, ShapeOk, Step, Frugal, LiveHonoured;
    ShapeIn(x);
    if calls != [] {
      StepCoversExact(x, calls[0]);
      StepShape(x, calls[0]);
      if Frugal(x, calls[0]) {
        CoveredExact(Step(x, calls[0]), calls[1..]);
      }
    }
  }

  /** Before the first call everything is covered. */
  lemma OpeningCovered(x: Ex)
    requires Opening(x)
    ensures LiveSound(x)
  {
    hide Inv;
    OpeningSound(x);
    SameFlags(x);
    LiveFrom(x, x);
  }

  lemma SameFlags(x: Ex)
    ensures Alike(x, x)
  {
  }

  /** A cancel that finds all settled cost recorded is always affordable. */
  lemma CarefulIsFrugal(x: Ex, c: Call)
    requires LiveSound(x)
    ensures ShapeOk(x) && (Careful(x, c) ==> Frugal(x, c))
  {
    hide ShapeOk, CancelOrder, Spare, LedgerOk, BooksBacked, HeldOk;
    if c.CancelCall? && CancelOrder(x, c.user, c.id).1.Ok? {
      CancelIs(x, c.user, c.id);
      assert Spare(x, x.AccountOf(x.purse[c.id])) >= 0;
    }
  }

  /** A prudent run is frugal: recording what is settled is more than covering what is live needs. */
  lemma {:induction false} PrudentIsFrugal(x: Ex, calls: seq<Call>)
    requires LiveSound(x)
    ensures ShapeOk(x) && (PrudentRun(x, calls) ==> FrugalRun(x, calls))
    decreases |calls|
  {
    hide LiveSound, ShapeOk, Step, Frugal, Careful, LiveHonoured;
    ShapeIn(x);
    if calls != [] && PrudentRun(x, calls) {
      CarefulIsFrugal(x, calls[0]);
      StepCoversExact(x, calls[0]);
      StepShape(x, calls[0]);
      PrudentIsFrugal(Step(x, calls[0]), calls[1..]);
    }
  }

  // ---- told by the trades ----

  /** Every call adds to an order's unrecorded cost what its reported trades cost the order as their maker. */
  lemma StepUnrecordedLive(x: Ex, c: Call, id: OrderId)
    requires LiveSound(x) && ShapeOk(x) && (c.PlaceCall? ==> !Place(x, c.user, c.req).1.Unsettled?)
    ensures Unrecorded(Step(x, c), id) == Unrecorded(x, id) + MakerCost(FillsOf(x, c), id)
  {
    hide LiveSound, Inv, ShapeOk, Flagged, Step, Place, Unrecorded, MakerCost;
    if c.CancelCall? {
      NoCost(id);
      CancelUnrecorded(x, c.user, c.id, id);
      StepOfCancel(x, c);
    } else {
      var y := View(x);
      ViewSound(x);
      ViewAlike(x);
      InvParts(y);
      if c.PlaceCall? {
        PlaceAlike(x, y, c.user, c.req);
      }
      StepUnrecorded(y, c, id);
      StepAlike(x, y, c);
      UnrecordedAlike(x, y, id);
      UnrecordedAlike(Step(x, c), Step(y, c), id);
    }
  }

  lemma StepOfCancel(x: Ex, c: Call)
    requires ShapeOk(x) && c.CancelCall?
    ensures Step(x, c) == CancelOrder(x, c.user, c.id).0
  {
    hide ShapeOk, CancelOrder;
  }

  lemma UnrecordedAlike(x: Ex, y: Ex, id: OrderId)
    requires Alike(x, y)
    ensures Unrecorded(y, id) == Unrecorded(x, id)
  {
  }

  /**
   Along a frugal run without self-trades, an order's unrecorded cost is what the reported
   trades cost it as their maker.
   */
  lemma {:induction false} RunUnrecordedLive(x: Ex, calls: seq<Call>, id: OrderId)
    requires LiveSound(x) && ShapeOk(x) && FrugalRun(x, calls) && NoSelfTrades(x, calls)
    ensures LiveSound(Run(x, calls))
    ensures Unrecorded(Run(x, calls), id) == Unrecorded(x, id) + MakerCost(History(x, calls), id)
    decreases |calls|
  {
    hide LiveSound, ShapeOk, MakerCost, Unrecorded, Step, FillsOf, Frugal;
    if calls == [] {
      NoCost(id);
    } else {
      StepUnrecordedLive(x, calls[0], id);
      StepCoversExact(x, calls[0]);
      StepShape(x, calls[0]);
      RunUnrecordedLive(Step(x, calls[0]), calls[1..], id);
      MakerCostConcat(FillsOf(x, calls[0]), History(Step(x, calls[0]), calls[1..]), id);
    }
  }

  /**
   What a caller can check before a cancel, in terms of trades: after a frugal run from the
   opening state without self-trades, the cancel leaves everything live covered exactly when
   the ledger refuses to give back, or the trades reported so far cost the order no more as
   their maker than its account has to spare.
   */
  lemma CoverByHistory(x: Ex, calls: seq<Call>, user: string, id: OrderId)
    requires Opening(x) && ShapeOk(x) && FrugalRun(x, calls) && NoSelfTrades(x, calls)
    requires CancelOrder(Run(x, calls), user, id).1.Ok?
    ensures id in Run(x, calls).purse && Run(x, calls).purse[id].market in Run(x, calls).markets
    ensures var y := Run(x, calls);
      var m := y.purse[id];
      var a := y.AccountOf(m);
      LiveSound(CancelOrder(y, user, id).0) <==>
        (0 < m.frozen - m.spent <= Get(y.led, a).frozen ==> MakerCost(History(x, calls), id) <= Spare(y, a))
  {
    hide LiveSound, ShapeOk, Run, FrugalRun, NoSelfTrades, History, CancelOrder, MakerCost, Opening, Spare, Get;
    OpeningCovered(x);
    RunUnrecordedLive(x, calls, id);
    NothingYet(x, id);
    CancelCovers(Run(x, calls), user, id);
  }
}
