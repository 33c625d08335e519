/**
 What an order leaves frozen once a trade of another user has finished it: no call ever gives
 it back.
 */
module Leftovers {
  import opened Wrappers
  import opened Domain
  import opened Matching
  import opened Books
  import opened EngineModel
  import opened Ledger
  import opened Settlement
  import opened Exchange
  import opened Solvency
  import opened SolventRuns
  import opened TradeHistory
  import opened LiveFunds
  import opened SubmitAnswers
  import opened Sums

  // ---- a finished order stays as it is ----

  /** The order was filled completely and rests nowhere. */
  ghost predicate Finished(x: Ex, id: OrderId) {
    && id in x.purse && id in x.orders && x.orders[id].id == id && x.orders[id].status.Filled?
    && Idle(x.engines, id)
  }

  /** Still finished, with the same record and the same money. */
  ghost predicate Kept(x: Ex, x': Ex, id: OrderId)
    requires Finished(x, id)
  {
    Finished(x', id) && x'.purse[id] == x.purse[id] && x'.orders[id] == x.orders[id]
  }

  lemma FillsApart(e: Eng, o: OrderVal, id: OrderId)
    requires EngOk(e) && !e.Active(id)
    ensures Open(e.BookOf(o.side.Opposite()).queue) && Apart(Submit(e, o).1.fills, o.id, id)
  {
    hide MatchBook, AddOrder, Eat, CrossQty, HasId;
    var b := e.BookOf(o.side.Opposite());
    BookOkIn(e, o.side.Opposite());
    QueueWithout(b, id);
    MatchBookIsEat(o, b, e.seqNo);
    EatApart(o, b.queue, e.seqNo, id);
  }

  /** A submit makes no other order active, and fills none that was not. */
  lemma SubmitOthers(e: Eng, o: OrderVal, id: OrderId)
    requires EngOk(e) && Submittable(o) && !e.Active(id) && id != o.id
    ensures var (e', out) := Submit(e, o);
      Apart(out.fills, o.id, id) && out.order.id == o.id && !e'.Active(id)
  {
    hide EngOk, MatchBook, AddOrder, Submit, HasId, Apart;
    var b := e.BookOf(o.side.Opposite());
    BookOkIn(e, o.side.Opposite());
    BookOkIn(e, o.side);
    SubmitCases(e, o);
    FillsApart(e, o, id);
    if HasId(MatchBook(o, b, e.seqNo).book.Resting(), id) {
      MatchBookIds(o, b, e.seqNo, id);
    }
    SortedIn(e.BookOf(o.side));
    AddIds(e.BookOf(o.side), Submit(e, o).1.order, id);
  }

  lemma SortedIn(b: Book)
    requires BookOk(b)
    ensures Sorted(b.isBid, b.queue)
  {
  }

  lemma {:induction false} SettleApart(led: Led, p: Purse, fills: seq<Fill>, taker: OrderVal, mk: Market, id: OrderId)
    requires Apart(fills, taker.id, id) && id in p && id != taker.id
    ensures SettleFills(led, p, fills, taker, mk).purse[id] == p[id]
    decreases |fills|
  {
    hide SettleTrade, Cost;
    if fills != [] {
      var s := SettleOne(led, p, fills[0].trade, taker, mk);
      assert forall i :: 0 <= i < |fills[1..]| ==> fills[1..][i] == fills[i + 1];
      SettleApart(s.led, s.purse, fills[1..], taker, mk, id);
    }
  }

  lemma ClosingApart(led: Led, p: Purse, out: Outcome, o: OrderVal, mk: Market, id: OrderId)
    requires o.id in p && id in p && id != o.id && out.order.id == o.id && Apart(out.fills, o.id, id)
    ensures id in Closing(led, p, out, o, mk).purse && Closing(led, p, out, o, mk).purse[id] == p[id]
  {
    hide SettleFills, Unfreeze, Rests, Apart;
    SettleApart(led, p, out.fills, out.order, mk, id);
  }

  lemma ExecuteKept(x: Ex, o: OrderVal, market: string, id: OrderId)
    requires market in x.markets && market in x.engines && EngOk(x.engines[market]) && Submittable(o)
    requires o.id in x.purse && Finished(x, id) && id != o.id
    ensures Kept(x, Execute(x, o, market).0, id)
  {
    hide EngOk, Submit, Closing, Execute, Apart, Eng.Active;
    BookOkIn(x.engines[market], o.side.Opposite());
    QueueUnique(x.engines[market].BookOf(o.side.Opposite()));
    ExecuteCloses(x, o, market);
    SubmitOthers(x.engines[market], o, id);
    var out := Submit(x.engines[market], o).1;
    ClosingApart(x.led, x.purse, out, o, x.markets[market], id);
    PatchedApart(x.orders[id], out.fills, o.id);
  }

  lemma FundKept(x: Ex, o: OrderVal, market: string, id: OrderId)
    requires market in x.markets && market in x.engines && EngOk(x.engines[market]) && Submittable(o)
    requires Finished(x, id) && id != o.id
    ensures Kept(x, Fund(x, o, market).0, id)
  {
    hide EngOk, Execute, Freeze, FreezeAmount, Eng.Active;
    match FreezeAmount(o)
    case None =>
    case Some(amount) =>
      var led := Freeze(x.led, Account(o.user, x.markets[market].AssetOf(o.side)), amount).0;
      ExecuteKept(Store(x.(led := led), o, MoneyOf(o, market, true, amount)), o, market, id);
  }

  lemma PlaceKept(x: Ex, user: string, r: Request, id: OrderId)
    requires ShapeOk(x) && Finished(x, id)
    ensures Kept(x, Place(x, user, r).0, id)
  {
    hide EngOk, Fund, Build, Submittable, Eng.Active;
    if r.market in x.markets && x.markets[r.market].enabled && !r.typ.OtherType? {
      var n := x.lastOrder + 1;
      var o := Build(x.markets[r.market], n, user, r);
      if o.Ok? {
        BuildStakes(x.markets[r.market], n, user, r);
        FundKept(x.(lastOrder := n), o.value, r.market, id);
      }
    }
  }

  /** What a user who cancels it is told. */
  function Refusal(x: Ex, user: string, id: OrderId): Error
    requires id in x.orders
  {
    if x.orders[id].user == user then OrderAlreadyFilled else OrderNotFound
  }

  /** No user's cancel reaches a finished order. */
  lemma CancelRefused(x: Ex, user: string, id: OrderId)
    requires ShapeOk(x) && Finished(x, id)
    ensures CancelOrder(x, user, id) == (x, Err(Refusal(x, user, id)))
  {
    hide ShapeOk, Idle;
  }

  lemma CancelKept(x: Ex, user: string, id': OrderId, id: OrderId)
    requires ShapeOk(x) && Finished(x, id)
    ensures Kept(x, CancelOrder(x, user, id').0, id)
  {
    hide ShapeOk, EngOk, Cancel, Release, Eng.Active, CancelOrder;
    CancelRefused(x, user, id);
    if CancelOrder(x, user, id').1.Ok? {
      CancelIs(x, user, id');
      CancelOrders(x, user, id');
      var m := x.purse[id'];
      EngineIn(x, m.market);
      CancelOk(x.engines[m.market], id');
      ReleaseOnly(x.led, x.purse, id', x.AccountOf(m));
    } else {
      RefusedCancel(x, user, id');
    }
  }

  lemma CancelOrders(x: Ex, user: string, id: OrderId)
    requires ShapeOk(x) && CancelOrder(x, user, id).1.Ok?
    ensures var x' := CancelOrder(x, user, id).0;
      forall i :: i in x.orders && i != id ==> i in x'.orders && x'.orders[i] == x.orders[i]
  {
    hide ShapeOk, Cancel, Release;
  }

  lemma StepKept(x: Ex, c: Call, id: OrderId)
    requires ShapeOk(x) && Finished(x, id)
    ensures Kept(x, Step(x, c), id)
  {
    hide ShapeOk, Place, CancelOrder, Deposit, Credit, SubmitWithdrawal, Approve, Reject, Confirm, Idle;
    match c
    case PlaceCall(u, r) => PlaceKept(x, u, r, id);
    case CancelCall(u, id') => CancelKept(x, u, id', id);
    case _ => WalletCalls(x, c);
  }

  /**
   Whatever is called after an order was filled, its record and its money stay as they are,
   and every cancel of it is refused with nothing changed.
   */
  lemma {:induction false} FinishedStays(x: Ex, calls: seq<Call>, id: OrderId, user: string)
    requires ShapeOk(x) && Finished(x, id)
    ensures Kept(x, Run(x, calls), id)
    ensures var y := Run(x, calls);
      CancelOrder(y, user, id) == (y, Err(Refusal(x, user, id)))
    decreases |calls|
  {
    hide ShapeOk, Step, Finished, CancelOrder;
    if calls == [] {
      KeptSame(x, id);
      CancelRefused(x, user, id);
    } else {
      StepKept(x, calls[0], id);
      StepShape(x, calls[0]);
      FinishedStays(Step(x, calls[0]), calls[1..], id, user);
    }
  }

  lemma KeptSame(x: Ex, id: OrderId)
    requires Finished(x, id)
    ensures Kept(x, x, id)
  {
  }

  // ---- what is spare is what such orders hold ----

  /** What an order that is not live still holds in one account. */
  ghost function IdleIn(x: Ex, a: Account): (OrderId, Money) -> int {
    (id: OrderId, m: Money) => if Live(x, id) then 0 else HeldIn(x.markets, a)(id, m)
  }

  lemma {:induction false} SumSplits<K(!new), V(!new)>(m: map<K, V>, m': map<K, V>, f: (K, V) -> int, g: (K, V) -> int)
    requires m'.Keys == m.Keys && forall k :: k in m ==> f(k, m[k]) == f(k, m'[k]) + g(k, m[k])
    ensures Sum(m, f) == Sum(m', f) + Sum(m, g)
    decreases |m|
  {
    if m == map[] {
      assert m' == map[];
    } else {
      var k :| k in m;
      SumOut(m, f, k);
      SumOut(m, g, k);
      SumOut(m', f, k);
      SumSplits(m - {k}, m' - {k}, f, g);
    }
  }

  lemma SpareIsIdle(x: Ex, a: Account)
    requires Inv(x)
    ensures Spare(x, a) == Sum(x.purse, IdleIn(x, a)) + LooseIn(x.loose, a)
  {
    hide ShapeOk, LedgerOk, HeldOk, WithdrawalsOk, BooksBacked, Live, LooseIn;
    SumSplits(x.purse, LivePurse(x), HeldIn(x.markets, a), IdleIn(x, a));
  }

  /**
   After a prudent run what an account has to spare is exactly what its filled and refused
   orders still hold: nothing else is frozen beyond live orders and pending withdrawals.
   */
  lemma SpareOfRun(x: Ex, calls: seq<Call>, a: Account)
    requires Opening(x) && ShapeOk(x) && PrudentRun(x, calls)
    ensures var y := Run(x, calls); Spare(y, a) == Sum(y.purse, IdleIn(y, a))
  {
    hide Inv, ShapeOk, Run, PrudentRun, Spare;
    OpeningSound(x);
    PrudentRunSound(x, calls);
    LooseStays(x, calls);
    NothingLoose(x);
    SpareIsIdle(Run(x, calls), a);
  }

  lemma NothingLoose(x: Ex)
    requires Opening(x)
    ensures x.loose == map[]
  {
  }

  // ---- when a finished order leaves nothing ----

  /**
   After a prudent run without self-trades a finished order still holds what it froze less
   what it spent as a taker and what the reported trades cost it as their maker. It leaves
   nothing exactly when these use up what it froze.
   */
  lemma FinishedLeaves(x: Ex, calls: seq<Call>, id: OrderId)
    requires Opening(x) && ShapeOk(x) && PrudentRun(x, calls) && NoSelfTrades(x, calls)
    requires Finished(Run(x, calls), id) && Run(x, calls).purse[id].funded
    ensures var m := Run(x, calls).purse[id];
      && m.Held() == m.frozen - m.spent - MakerCost(History(x, calls), id) >= 0
      && (m.Held() == 0 <==> m.frozen == m.spent + MakerCost(History(x, calls), id))
  {
    hide Inv, ShapeOk, Run, PrudentRun, NoSelfTrades, History, MakerCost, Opening;
    OpeningSound(x);
    PrudentRunSound(x, calls);
    RunUnrecorded(x, calls, id);
    NothingYet(x, id);
    HeldInside(Run(x, calls), id);
  }

  lemma HeldInside(x: Ex, id: OrderId)
    requires Inv(x) && id in x.purse
    ensures x.purse[id].Held() >= 0
  {
  }

  /** What a finished order still holds stays frozen and spare in its account along every prudent run. */
  lemma LeftoverStays(x: Ex, calls: seq<Call>, id: OrderId)
    requires Inv(x) && Finished(x, id) && PrudentRun(x, calls)
    ensures var y := Run(x, calls);
      && id in y.purse && y.purse[id] == x.purse[id] && y.purse[id].market in y.markets
      && Spare(y, y.AccountOf(y.purse[id])) >= x.purse[id].Held() >= 0
  {
    hide Inv, ShapeOk, Run, PrudentRun, Spare, Idle;
    InvParts(x);
    FinishedStays(x, calls, id, "");
    PrudentRunSound(x, calls);
    var y := Run(x, calls);
    MarketKnown(y, id);
    var a := y.AccountOf(y.purse[id]);
    SpareIsIdle(y, a);
    HeldInside(x, id);
    IdleCovers(y, a, id);
  }

  lemma MarketKnown(x: Ex, id: OrderId)
    requires Inv(x) && id in x.purse
    ensures x.purse[id].market in x.markets
  {
    hide EngOk, LedgerOk, HeldOk, Pooled, BooksBacked;
  }

  lemma IdleIsNotLive(x: Ex, id: OrderId)
    requires Finished(x, id)
    ensures !Live(x, id)
  {
  }

  lemma IdleTerm(x: Ex, a: Account, id: OrderId)
    requires Inv(x) && id in x.purse
    ensures IdleIn(x, a)(id, x.purse[id]) == (if Live(x, id) then 0 else HeldIn(x.markets, a)(id, x.purse[id])) >= 0
  {
    hide ShapeOk, LedgerOk, WithdrawalsOk, BooksBacked, Pooled, Live;
    assert x.purse[id].Held() >= 0;
  }

  lemma IdleCovers(x: Ex, a: Account, id: OrderId)
    requires Inv(x) && Finished(x, id)
    ensures Sum(x.purse, IdleIn(x, a)) >= IdleIn(x, a)(id, x.purse[id]) == HeldIn(x.markets, a)(id, x.purse[id])
  {
    hide ShapeOk, LedgerOk, WithdrawalsOk, BooksBacked, Pooled, Live, Idle;
    IdleIsNotLive(x, id);
    forall k | k in x.purse
      ensures IdleIn(x, a)(k, x.purse[k]) >= 0
    {
      IdleTerm(x, a, k);
    }
    SumCovers(x.purse, IdleIn(x, a));
  }
}
