/**
 The shortest run that leaves funds frozen for good: a bid is filled in two parts, each of
 which costs its rounded-down price, and one unit stays frozen behind the finished order.
 */
module LeftoverRun {
  import opened Wrappers
  import opened Domain
  import opened FixedPoint
  import opened Matching
  import opened Books
  import opened EngineModel
  import opened Ledger
  import opened Settlement
  import opened Exchange
  import opened Solvency
  import opened SolventRuns
  import opened MakerCancel
  import opened Leftovers
  import DecimalText

  /** A price at which a lot costs half a unit more than can be charged. */
  const PRICE := BASE + 50

  function RequestFor(side: Side, qty: int): Request {
    Request(PAIR, side, Limit, GTC, DecimalText.Print(PRICE), DecimalText.Print(qty), "")
  }

  function OrderFor(id: OrderId, user: string, side: Side, qty: int): OrderVal {
    OrderVal(id, user, side, Limit, GTC, PRICE, qty, 0, qty, 0, 0, 0, New)
  }

  const BID := OrderFor(1, "alice", Buy, 2 * LOT)

  function Ask(id: OrderId): OrderVal { OrderFor(id, "bob", Sell, LOT) }

  lemma BuildsAt(id: OrderId, user: string, side: Side, qty: int)
    requires Lots(qty)
    ensures RequestFor(side, qty).market == PAIR && RequestFor(side, qty).typ.Limit?
    ensures Build(BTCUSDT, id, user, RequestFor(side, qty)) == Ok(OrderFor(id, user, side, qty))
  {
    hide DecimalText.Parse, DecimalText.Print;
    DecimalText.RoundTrip(PRICE);
    DecimalText.RoundTrip(qty);
  }

  /** Two lots at once cost a unit more than one lot twice. */
  lemma Costs(id: OrderId)
    ensures FreezeAmount(BID) == Some(2 * LOT + 1) && QuoteUnits(PRICE, LOT) == LOT
    ensures FreezeAmount(Ask(id)) == Some(LOT)
  {
  }

  // ---- the exchange along the run ----

  /** Alice's bid rests alone. */
  ghost predicate Standing(x: Ex, m: OrderVal, n: nat, last: nat) {
    && Inv(x) && x.markets == MARKETS && PAIR in x.engines && x.engines[PAIR] == Holding(Buy, [m], n)
    && x.lastOrder == last && 1 in x.orders && x.orders[1] == m && 1 in x.purse
  }

  function Entered(x: Ex, o: OrderVal, a: Account, amount: int): Ex {
    Store(x.(lastOrder := o.id, led := Freeze(x.led, a, amount).0), o, MoneyOf(o, PAIR, true, amount))
  }

  lemma PlaceEnters(x: Ex, user: string, side: Side, qty: int, amount: int)
    requires ShapeOk(x) && x.markets == MARKETS && PAIR in x.engines && EngOk(x.engines[PAIR]) && Lots(qty)
    requires FreezeAmount(OrderFor(x.lastOrder + 1, user, side, qty)) == Some(amount)
    requires 0 < amount <= Get(x.led, Account(user, BTCUSDT.AssetOf(side))).available
    ensures var o := OrderFor(x.lastOrder + 1, user, side, qty);
      Place(x, user, RequestFor(side, qty))
        == Execute(Entered(x, o, Account(user, BTCUSDT.AssetOf(side)), amount), o, PAIR)
  {
    hide Execute, Build, EngOk, ShapeOk, Freeze, FreezeAmount, RequestFor, Get;
    BuildsAt(x.lastOrder + 1, user, side, qty);
    Freezes(x.led, Account(user, BTCUSDT.AssetOf(side)), amount);
  }

  lemma BidRests(x: Ex)
    requires Inv(x) && x.markets == MARKETS && PAIR in x.engines && x.engines[PAIR] == EMPTY_ENGINE && x.lastOrder == 0
    requires Get(x.led, Account("alice", "USDT")).available >= 3 * LOT
    ensures ShapeOk(x)
    ensures var x' := Place(x, "alice", RequestFor(Buy, 2 * LOT)).0;
      Standing(x', BID, 0, 1) && x'.purse[1] == Money("alice", PAIR, Buy, true, 2 * LOT + 1, 0, 0)
    ensures !Place(x, "alice", RequestFor(Buy, 2 * LOT)).1.Unsettled?
  {
    hide Inv, ShapeOk, EngOk, Place, Execute, Freeze, RequestFor, Get, Submit, FreezeAmount, Insert, Holding;
    InvParts(x);
    EngineSound(x);
    Costs(1);
    PlaceEnters(x, "alice", Buy, 2 * LOT, 2 * LOT + 1);
    PlaceKeeps(x, "alice", RequestFor(Buy, 2 * LOT));
    FirstStands();
    RestsUnfilled(Entered(x, BID, Account("alice", "USDT"), 2 * LOT + 1), BID, Holding(Buy, [BID], 0));
  }

  lemma FirstStands()
    ensures Submit(EMPTY_ENGINE, BID) == (Holding(Buy, [BID], 0), Outcome(BID, [], None))
  {
    hide Submit, HasId, Insert;
    NoneIn(1);
    assert Holding(Buy, [], 0) == EMPTY_ENGINE;
    InsertAlone(true, BID);
    RestsBehind(Buy, [], 0, BID);
  }

  function Sale(m: OrderVal, n: nat, id: OrderId): Fill { Fill(TradeOf(Ask(id), m, LOT, n + 1), Made(m, LOT)) }

  /** Bob sells a lot to the bid. */
  lemma BobSells(x: Ex, m: OrderVal, n: nat, last: nat)
    requires Standing(x, m, n, last) && last > 0 && m.id == 1 && m.user == "alice" && m.side.Buy? && m.price == PRICE
    requires m.remaining >= LOT && Get(x.led, Account("bob", "BTC")).available >= LOT
    ensures ShapeOk(x)
    ensures var (x', r) := Place(x, "bob", RequestFor(Sell, LOT));
      && r.Done? && Inv(x') && 1 in x'.orders && x'.orders[1] == Made(m, LOT)
      && 1 in x'.purse && x'.purse[1] == x.purse[1].(settled := x.purse[1].settled + LOT)
      && (m.remaining > LOT ==> Standing(x', Made(m, LOT), n + 1, last + 1))
      && (m.remaining == LOT ==> Idle(x'.engines, 1))
  {
    hide Inv, ShapeOk, EngOk, Place, Execute, Freeze, RequestFor, Get, Submit, FreezeAmount, Holding, Made;
    InvParts(x);
    EngineSound(x);
    Costs(last + 1);
    PlaceEnters(x, "bob", Sell, LOT, LOT);
    PlaceKeeps(x, "bob", RequestFor(Sell, LOT));
    SubmitFills(Buy, m, n, Ask(last + 1));
    SaleExecutes(Entered(x, Ask(last + 1), Account("bob", "BTC"), LOT), m, n, Ask(last + 1));
    SaleCost(m, n, last + 1);
    PlaceRecords(x, "bob", RequestFor(Sell, LOT), 1);
  }

  lemma SaleCost(m: OrderVal, n: nat, id: OrderId)
    requires m.id == 1 && m.user == "alice" && m.side.Buy? && m.price == PRICE
    ensures MakerCost([Sale(m, n, id)], 1) == LOT && NoSelfTrade([Sale(m, n, id)])
  {
    hide Made;
    Costs(id);
    assert [Sale(m, n, id)][1..] == [];
  }

  lemma MadePatches(m: OrderVal)
    ensures forall t :: Patched(m, [Fill(t, Made(m, LOT))]) == Made(m, LOT)
  {
    hide WeightedAvg;
  }

  lemma SaleExecutes(y: Ex, m: OrderVal, n: nat, o: OrderVal)
    requires y.markets == MARKETS && PAIR in y.engines && y.engines[PAIR] == Holding(Buy, [m], n)
    requires EngOk(y.engines[PAIR]) && o == Ask(o.id) && o.id in y.purse && o.id != 1
    requires 1 in y.orders && y.orders[1] == m && m.id == 1 && m.price == PRICE && m.remaining >= LOT
    ensures var (x', r) := Execute(y, o, PAIR);
      && !r.Refused? && r.fills == [Sale(m, n, o.id)]
      && x'.markets == y.markets && x'.engines == y.engines[PAIR := Submit(y.engines[PAIR], o).0]
      && x'.lastOrder == y.lastOrder && 1 in x'.orders && x'.orders[1] == Made(m, LOT)
  {
    hide EngOk, Execute, SettleOne, Release, Submit, Holding, Made, TradeOf, Taken, Open;
    SubmitFills(Buy, m, n, o);
    OpenSides(y, Buy);
    var (e', out) := Submit(y.engines[PAIR], o);
    MadePatches(m);
    ExecutesFill(y, o, e', out.order, out.fills[0]);
  }

  // ---- the run ----

  const SALE := PlaceCall("bob", RequestFor(Sell, LOT))
  const BOB_PAYS := DepositCall("bob", "BTC", LOT)
  const ALICE_PAYS := DepositCall("alice", "USDT", 3 * LOT)
  const ALICE_BIDS := PlaceCall("alice", RequestFor(Buy, 2 * LOT))

  /** A deposit and Alice's bid, and twice a deposit of Bob's and his sale. */
  const SIX_CALLS := [ALICE_PAYS] + ([ALICE_BIDS] + ([BOB_PAYS] + ([SALE] + ([BOB_PAYS] + ([SALE] + [])))))

  lemma BobPays(x: Ex, m: OrderVal, n: nat, last: nat)
    requires Standing(x, m, n, last)
    ensures ShapeOk(x)
    ensures var x' := Step(x, BOB_PAYS);
      Standing(x', m, n, last) && x'.purse == x.purse && Get(x'.led, Account("bob", "BTC")).available >= LOT
  {
    hide Inv, ShapeOk, EngOk, Deposit, Get, Holding;
    InvParts(x);
    StepExact(x, BOB_PAYS);
    Deposits(x, Account("bob", "BTC"), LOT);
    NoDebt(x, Account("bob", "BTC"));
  }

  lemma NoDebt(x: Ex, a: Account)
    requires Inv(x)
    ensures Get(x.led, a).available >= 0
  {
  }

  lemma Opened()
    ensures Opening(START) && ShapeOk(START) && Inv(START)
    ensures var x := Step(START, ALICE_PAYS);
      && Inv(x) && x.markets == MARKETS && PAIR in x.engines && x.engines[PAIR] == EMPTY_ENGINE && x.lastOrder == 0
      && Get(x.led, Account("alice", "USDT")).available >= 3 * LOT
  {
    hide Inv, ShapeOk, EngOk, Deposit, Get, LedgerOk;
    OpeningSound(START);
    InvParts(START);
    StepExact(START, ALICE_PAYS);
    Deposits(START, Account("alice", "USDT"), 3 * LOT);
    NoDebt(START, Account("alice", "USDT"));
  }

  lemma HalvesMade()
    ensures var m := Made(BID, LOT);
      && m.id == 1 && m.user == "alice" && m.side.Buy? && m.price == PRICE && m.remaining == LOT
      && Made(m, LOT).status.Filled? && Made(m, LOT).id == 1
  {
    hide WeightedAvg;
  }

  /**
   After six ordinary calls Alice's bid is filled and still holds one unit, which no call
   gives back: it stays frozen and backs nothing.
   */
  lemma FinishedBidLeaves(calls: seq<Call>, user: string)
    ensures ShapeOk(START) && Opening(START) && PrudentRun(START, SIX_CALLS)
    ensures var x := Run(START, SIX_CALLS);
      && Finished(x, 1) && x.purse[1].funded && x.purse[1].Held() == 1
      && var y := Run(x, calls);
      && Kept(x, y, 1) && CancelOrder(y, user, 1).1.Err? && CancelOrder(y, user, 1).0 == y
  {
    hide Inv, ShapeOk, EngOk, Place, Step, Run, PrudentRun, RequestFor, Standing, Made, CancelOrder, Opening, Kept;
    SixCalls();
    FinishedStays(Run(START, SIX_CALLS), calls, 1, user);
  }

  lemma SixCalls()
    ensures ShapeOk(START) && Opening(START) && PrudentRun(START, SIX_CALLS)
    ensures var x := Run(START, SIX_CALLS);
      Finished(x, 1) && x.purse[1].funded && x.purse[1].Held() == 1
  {
    hide Inv, ShapeOk, EngOk, Place, Step, Run, PrudentRun, RequestFor, Standing, Made, CancelOrder, Opening, Get;
    Opened();
    RunFirst(START, ALICE_PAYS, [ALICE_BIDS] + ([BOB_PAYS] + ([SALE] + ([BOB_PAYS] + ([SALE] + [])))));
    var x1 := Step(START, ALICE_PAYS);
    BidRests(x1);
    RunFirst(x1, ALICE_BIDS, [BOB_PAYS] + ([SALE] + ([BOB_PAYS] + ([SALE] + []))));
    StepIs(x1, ALICE_BIDS);
    var x2 := Step(x1, ALICE_BIDS);
    BobPays(x2, BID, 0, 1);
    RunFirst(x2, BOB_PAYS, [SALE] + ([BOB_PAYS] + ([SALE] + [])));
    var x3 := Step(x2, BOB_PAYS);
    HalvesMade();
    BobSells(x3, BID, 0, 1);
    RunFirst(x3, SALE, [BOB_PAYS] + ([SALE] + []));
    StepIs(x3, SALE);
    var x4 := Step(x3, SALE);
    BobPays(x4, Made(BID, LOT), 1, 2);
    RunFirst(x4, BOB_PAYS, [SALE] + []);
    var x5 := Step(x4, BOB_PAYS);
    BobSells(x5, Made(BID, LOT), 1, 2);
    RunFirst(x5, SALE, []);
    StepIs(x5, SALE);
    RunNone(Step(x5, SALE));
  }
}
