/**
 Whole runs of the exchange: which sequences of service calls keep it solvent.
 */
module SolventRuns {
  import opened Wrappers
  import opened Domain
  import opened Matching
  import opened EngineModel
  import opened Ledger
  import opened LedgerMoves
  import opened Conservation
  import opened Settlement
  import opened Exchange
  import opened Solvency
  import opened Withdrawals
  import opened Sums

  // ---- every call keeps the shape of the state ----

  lemma SubmitShape(x: Ex, o: OrderVal, market: string)
    requires ShapeOk(x) && market in x.markets && Submittable(o)
    ensures EngOk(Submit(x.engines[market], o).0)
  {
    SubmitOk(x.engines[market], o);
  }

  /** The purse names the same orders, with the same users, markets and sides. */
  ghost predicate SameOwners(p: Purse, p': Purse) {
    && p'.Keys == p.Keys
    && forall id :: id in p ==>
      p'[id].user == p[id].user && p'[id].market == p[id].market && p'[id].side == p[id].side
  }

  lemma ReleaseOwners(led: Led, p: Purse, id: OrderId, a: Account)
    requires id in p
    ensures SameOwners(p, Release(led, p, id, a).1)
  {
  }

  lemma ShapeKept(x: Ex, x': Ex, market: string)
    requires ShapeOk(x) && market in x.markets && x'.markets == x.markets
    requires x'.engines.Keys == x.engines.Keys && EngOk(x'.engines[market])
    requires forall s :: s in x.engines && s != market ==> x'.engines[s] == x.engines[s]
    requires x'.orders.Keys == x.orders.Keys && SameOwners(x.purse, x'.purse)
    requires x'.lastOrder == x.lastOrder && x'.withdrawals == x.withdrawals && x'.lastWithdrawal == x.lastWithdrawal
    ensures ShapeOk(x')
  {
    hide EngOk;
  }

  lemma SubmitKeepsId(e: Eng, o: OrderVal)
    requires EngOk(e) && Submittable(o)
    ensures Submit(e, o).1.order.id == o.id
  {
    SubmitCases(e, o);
  }

  /** Executing an order writes one engine, the ledger, the orders and their money. */
  lemma ExecuteForm(x: Ex, o: OrderVal, market: string) returns (led: Led, p: Purse, orders: map<OrderId, OrderVal>)
    requires ShapeOk(x) && market in x.markets && market in x.engines && o.id in x.purse && o.id in x.orders
    requires EngOk(x.engines[market]) && Open(x.engines[market].BookOf(o.side.Opposite()).queue) && Submittable(o)
    ensures var e := Submit(x.engines[market], o).0;
      Execute(x, o, market).0 == x.(engines := x.engines[market := e], led := led, purse := p, orders := orders)
    ensures SameOwners(x.purse, p) && orders.Keys == x.orders.Keys
  {
    hide EngOk, Submit, Release, SettleFills, PatchAll, ShapeOk, SameOwners;
    var out := Submit(x.engines[market], o).1;
    var a := Account(o.user, x.markets[market].AssetOf(o.side));
    var s := SettleFills(x.led, x.purse, out.fills, out.order, x.markets[market]);
    PatchKeys(x.orders, out.fills);
    SubmitKeepsId(x.engines[market], o);
    SettleOwners(x.led, x.purse, out.fills, out.order, x.markets[market]);
    ReleaseOwners(x.led, x.purse, o.id, a);
    ReleaseOwners(s.led, s.purse, o.id, a);
    SameOwnersTrans(x.purse, s.purse, Release(s.led, s.purse, o.id, a).1);
    var x' := Execute(x, o, market).0;
    led, p, orders := x'.led, x'.purse, x'.orders;
  }

  lemma ExecuteShape(x: Ex, o: OrderVal, market: string)
    requires ShapeOk(x) && market in x.markets && o.id in x.purse && Submittable(o)
    ensures ShapeOk(Execute(x, o, market).0)
  {
    hide EngOk, Submit, ShapeOk, SameOwners, Execute;
    SubmitShape(x, o, market);
    KnownOrder(x, o.id, market);
    var led, p, orders := ExecuteForm(x, o, market);
    ShapeKept(x, Execute(x, o, market).0, market);
  }

  lemma KnownOrder(x: Ex, id: OrderId, market: string)
    requires ShapeOk(x) && id in x.purse && market in x.markets
    ensures id in x.orders && market in x.engines && EngOk(x.engines[market])
    ensures forall side :: Open(x.engines[market].BookOf(side).queue)
  {
  }

  lemma SameOwnersTrans(p: Purse, p1: Purse, p2: Purse)
    requires SameOwners(p, p1) && SameOwners(p1, p2)
    ensures SameOwners(p, p2)
  {
  }

  lemma ChargeOwners(p: Purse, id: OrderId, cost: int)
    ensures SameOwners(p, Charge(p, id, cost))
  {
  }

  lemma RecordOwners(p: Purse, taker: OrderVal, cost: int)
    ensures SameOwners(p, Record(p, taker, cost))
  {
  }

  lemma SettleOneOwners(led: Led, p: Purse, t: Trade, taker: OrderVal, mk: Market)
    ensures SameOwners(p, SettleOne(led, p, t, taker, mk).purse)
  {
    hide SettleTrade, Cost, Charge, Record, SameOwners;
    SameOwnersAll(p);
    var p1 := Charge(p, t.maker, Cost(t.makerSide, t));
    var p2 := Charge(p1, t.taker, Cost(t.takerSide, t));
    var p3 := Record(p2, taker, Cost(taker.side, t));
    ChargeOwners(p, t.maker, Cost(t.makerSide, t));
    ChargeOwners(p1, t.taker, Cost(t.takerSide, t));
    RecordOwners(p2, taker, Cost(taker.side, t));
    SameOwnersTrans(p, p1, p2);
    SameOwnersTrans(p, p2, p3);
  }

  lemma SameOwnersAll(p: Purse)
    ensures SameOwners(p, p)
  {
  }

  lemma {:induction false} SettleOwners(led: Led, p: Purse, fills: seq<Fill>, taker: OrderVal, mk: Market)
    ensures SameOwners(p, SettleFills(led, p, fills, taker, mk).purse)
    decreases |fills|
  {
    if fills != [] {
      hide SettleOne;
      var s := SettleOne(led, p, fills[0].trade, taker, mk);
      SettleOneOwners(led, p, fills[0].trade, taker, mk);
      SettleOwners(s.led, s.purse, fills[1..], taker, mk);
    }
  }

  lemma FundShape(x: Ex, o: OrderVal, market: string)
    requires ShapeOk(x) && market in x.markets && o.id <= x.lastOrder && Submittable(o)
    ensures ShapeOk(Fund(x, o, market).0)
  {
    hide EngOk, Execute, Freeze, Submittable;
    var a := Account(o.user, x.markets[market].AssetOf(o.side));
    match FreezeAmount(o)
    case None =>
    case Some(amount) =>
      var (led, err) := Freeze(x.led, a, amount);
      if err.None? {
        ExecuteShape(Store(x.(led := led), o, MoneyOf(o, market, true, amount)), o, market);
      }
  }

  lemma PlaceShape(x: Ex, user: string, r: Request)
    requires ShapeOk(x)
    ensures ShapeOk(Place(x, user, r).0)
  {
    hide EngOk, Fund, Build, Submittable;
    if r.market in x.markets && x.markets[r.market].enabled && !r.typ.OtherType? {
      var id := x.lastOrder + 1;
      var o := Build(x.markets[r.market], id, user, r);
      if o.Ok? {
        BuildStakes(x.markets[r.market], id, user, r);
        FundShape(x.(lastOrder := id), o.value, r.market);
      }
    }
  }

  lemma CancelShape(x: Ex, user: string, id: OrderId)
    requires ShapeOk(x)
    ensures ShapeOk(CancelOrder(x, user, id).0)
  {
    hide EngOk, Cancel, Unfreeze;
    if id in x.purse {
      CancelOk(x.engines[x.purse[id].market], id);
    }
  }

  /** Wallet calls and deposits touch neither orders nor engines. */
  ghost predicate WalletOnly(x: Ex, x': Ex) {
    && x'.markets == x.markets && x'.engines == x.engines && x'.orders == x.orders
    && x'.purse == x.purse && x'.lastOrder == x.lastOrder
    && x'.withdrawals.Keys <= x.withdrawals.Keys + {x'.lastWithdrawal}
    && x.lastWithdrawal <= x'.lastWithdrawal
  }

  lemma WalletShape(x: Ex, x': Ex)
    requires ShapeOk(x) && WalletOnly(x, x')
    ensures ShapeOk(x')
  {
    hide EngOk;
  }

  /** A submission changes the ledger, and with it at most the newest withdrawal. */
  lemma SubmitForm(x: Ex, user: string, asset: string, address: string, amount: int) returns (led: Led, w: Withdrawal)
    ensures var x', id := SubmitWithdrawal(x, user, asset, address, amount).0, x.lastWithdrawal + 1;
      || x' == x.(led := led)
      || x' == x.(led := led, withdrawals := x.withdrawals[id := w], lastWithdrawal := id)
  {
    hide FreezeBoth;
    led := SubmitWithdrawal(x, user, asset, address, amount).0.led;
    w := Withdrawal(user, asset, amount, if asset in x.coins then x.coins[asset].fee else 0, Pending, "");
  }

  lemma SubmitOnly(x: Ex, user: string, asset: string, address: string, amount: int)
    ensures WalletOnly(x, SubmitWithdrawal(x, user, asset, address, amount).0)
  {
    hide SubmitWithdrawal;
    var led, w := SubmitForm(x, user, asset, address, amount);
  }

  lemma ApproveOnly(x: Ex, id: nat, answer: Chain)
    ensures WalletOnly(x, Approve(x, id, answer).0)
  {
    hide Approve, Get, Shifted, Untouched;
    ApproveExact(x, id, answer);
  }

  lemma RejectOnly(x: Ex, id: nat)
    ensures WalletOnly(x, Reject(x, id).0)
  {
    hide Reject, Get, Shifted, GivenBack;
    RejectExact(x, id);
  }

  lemma ConfirmOnly(x: Ex, id: nat, confirmations: Option<nat>)
    ensures WalletOnly(x, Confirm(x, id, confirmations).0)
  {
    hide Confirm;
    ConfirmExact(x, id, confirmations);
  }

  lemma CreditOnly(x: Ex, user: string, asset: string, amount: int, tx: string)
    ensures WalletOnly(x, Credit(x, user, asset, amount, tx).0)
  {
    hide Deposit;
    var x' := Credit(x, user, asset, amount, tx).0;
    MoneyOnly(x, x'.led, x'.credited);
  }

  lemma MoneyOnly(x: Ex, led: Led, credited: set<(string, string)>)
    ensures WalletOnly(x, x.(led := led, credited := credited))
  {
  }

  lemma WalletCalls(x: Ex, c: Call)
    requires ShapeOk(x) && !c.PlaceCall? && !c.CancelCall?
    ensures WalletOnly(x, Step(x, c))
  {
    hide EngOk, ShapeOk, Deposit, SubmitWithdrawal, Approve, Reject, Confirm, Credit;
    match c
    case WithdrawCall(u, a, to, q) => SubmitOnly(x, u, a, to, q);
    case ApproveCall(id, answer) => ApproveOnly(x, id, answer);
    case RejectCall(id) => RejectOnly(x, id);
    case ConfirmCall(id, n) => ConfirmOnly(x, id, n);
    case CreditCall(u, a, q, tx) => CreditOnly(x, u, a, q, tx);
    case DepositCall(_, _, _) =>
  }

  lemma StepShape(x: Ex, c: Call)
    requires ShapeOk(x)
    ensures ShapeOk(Step(x, c))
  {
    hide EngOk, Place, CancelOrder, Deposit, Credit, SubmitWithdrawal, Approve, Reject, Confirm, ShapeOk, WalletOnly;
    match c
    case PlaceCall(u, r) => PlaceShape(x, u, r);
    case CancelCall(u, id) => CancelShape(x, u, id);
    case _ =>
      WalletCalls(x, c);
      WalletShape(x, Step(x, c));
  }

  // ---- runs ----

  function Run(x: Ex, calls: seq<Call>): (r: Ex)
    requires ShapeOk(x)
    ensures ShapeOk(r)
    decreases |calls|
  {
    if calls == [] then x
    else
      StepShape(x, calls[0]);
      Run(Step(x, calls[0]), calls[1..])
  }

  /** A cancel that goes through finds everything settled against its order recorded as spent. */
  ghost predicate Careful(x: Ex, c: Call)
    requires ShapeOk(x)
  {
    c.CancelCall? && CancelOrder(x, c.user, c.id).1.Ok? ==> x.purse[c.id].settled <= x.purse[c.id].spent
  }

  /** What a caller is promised about the funds a call moves. */
  ghost predicate Honoured(x: Ex, c: Call)
    requires ShapeOk(x)
  {
    match c
    case PlaceCall(u, r) => Accounted(Place(x, u, r).0, Place(x, u, r).1)
    case CancelCall(u, id) =>
      var (x', r) := CancelOrder(x, u, id);
      r.Ok? && x.purse[id].settled <= x.purse[id].spent ==> Returned(x, x', id)
    case ApproveCall(id, answer) =>
      var (x', r) := Approve(x, id, answer);
      if r.Ok? then Drawn(x.led, x'.led, x.withdrawals[id], 0) else x' == x
    case RejectCall(id) =>
      var (x', r) := Reject(x, id);
      r.Ok? ==> Drawn(x.led, x'.led, x.withdrawals[id], x.withdrawals[id].Reserved())
    case _ => true
  }

  ghost predicate PrudentRun(x: Ex, calls: seq<Call>)
    requires ShapeOk(x)
    decreases |calls|
  {
    calls == [] || (Careful(x, calls[0]) && (StepShape(x, calls[0]); PrudentRun(Step(x, calls[0]), calls[1..])))
  }

  /** Every state of the run is sound, and every call keeps its promise. */
  ghost predicate SolventRun(x: Ex, calls: seq<Call>)
    requires ShapeOk(x)
    decreases |calls|
  {
    && Inv(x)
    && (calls == []
        || (Honoured(x, calls[0]) && (StepShape(x, calls[0]); SolventRun(Step(x, calls[0]), calls[1..]))))
  }

  lemma CancelIsReturned(x: Ex, u: string, id: OrderId)
    requires Inv(x)
    ensures Honoured(x, CancelCall(u, id))
  {
    hide Inv, CancelOrder, Returned;
    InvParts(x);
    if CancelOrder(x, u, id).1.Ok? {
      CancelReturns(x, u, id);
    }
  }

  /** One call: sound before, it is sound after exactly when it was careful. */
  lemma StepExact(x: Ex, c: Call)
    requires Inv(x)
    ensures Inv(Step(x, c)) <==> Careful(x, c)
    ensures Honoured(x, c)
  {
    hide Inv, Drawn, Place, CancelOrder, Deposit, Approve, Reject, Confirm, Credit, SubmitWithdrawal;
    match c
    case DepositCall(u, a, q) => DepositKeeps(x, Account(u, a), q);
    case CreditCall(u, a, q, tx) => CreditKeeps(x, u, a, q, tx);
    case PlaceCall(u, r) => PlaceKeeps(x, u, r);
    case CancelCall(u, id) =>
      CancelExact(x, u, id);
      CancelIsReturned(x, u, id);
    case WithdrawCall(u, a, to, q) => SubmitKeeps(x, u, a, to, q);
    case ApproveCall(id, answer) => ApproveKeeps(x, id, answer);
    case RejectCall(id) => RejectKeeps(x, id);
    case ConfirmCall(id, n) => ConfirmKeeps(x, id, n);
  }

  /**
   Books kept to the unit over whole runs, as the code is written: from a sound state, a run
   stays sound and keeps every promise exactly when each cancel that goes through finds its
   order's settled cost recorded.
   */
  lemma {:induction false} SolventExact(x: Ex, calls: seq<Call>)
    requires Inv(x)
    ensures SolventRun(x, calls) <==> PrudentRun(x, calls)
    decreases |calls|
  {
    if calls != [] {
      StepExact(x, calls[0]);
      StepShape(x, calls[0]);
      if Careful(x, calls[0]) {
        SolventExact(Step(x, calls[0]), calls[1..]);
      }
    }
  }

  /** Before the first call: no orders, no funds, empty books. */
  ghost predicate Opening(x: Ex) {
    && x.engines.Keys == x.markets.Keys
    && (forall s :: s in x.markets ==>
          x.engines[s] == EMPTY_ENGINE && x.markets[s].minQty > 0 && x.markets[s].minNotional > 0)
    && x.led == Ledger.EMPTY && x.orders == map[] && x.purse == map[] && x.withdrawals == map[]
    && x.loose == map[]
  }

  lemma OpeningSound(x: Ex)
    requires Opening(x)
    ensures Inv(x)
  {
    EmptyOk();
  }

  /**
   Nothing is made or lost: after any prudent run from the opening state, what all users
   own of each asset is what was deposited less what was withdrawn, every balance is what
   its entries rebuild, and the frozen funds of every account are exactly what its orders
   hold and its pending withdrawals reserve.
   */
  lemma PrudentRunConserves(x: Ex, calls: seq<Call>, asset: string, a: Account)
    requires Opening(x)
    ensures Inv(x)
    ensures PrudentRun(x, calls) ==>
      var y := Run(x, calls);
      && Owned(y.led, asset) == External(y.led.entries, asset)
      && Get(y.led, a) == Replay(y.led.entries, a)
      && Get(y.led, a).frozen == Sum(y.purse, HeldIn(y.markets, a)) + Sum(y.withdrawals, ReservedIn(a))
  {
    OpeningSound(x);
    if PrudentRun(x, calls) {
      PrudentRunSound(x, calls);
      SoundStateFunds(Run(x, calls), asset, a);
      LooseStays(x, calls);
    }
  }

  lemma SoundStateFunds(y: Ex, asset: string, a: Account)
    requires Inv(y)
    ensures Owned(y.led, asset) == External(y.led.entries, asset)
    ensures Get(y.led, a) == Replay(y.led.entries, a)
    ensures Get(y.led, a).frozen
         == Sum(y.purse, HeldIn(y.markets, a)) + Sum(y.withdrawals, ReservedIn(a)) + LooseIn(y.loose, a)
  {
  }

  lemma {:induction false} PrudentRunSound(x: Ex, calls: seq<Call>)
    requires Inv(x) && PrudentRun(x, calls)
    ensures Inv(Run(x, calls))
    decreases |calls|
  {
    if calls != [] {
      StepExact(x, calls[0]);
      StepShape(x, calls[0]);
      PrudentRunSound(Step(x, calls[0]), calls[1..]);
    }
  }

  // ---- the wallet over runs ----

  /** Where a withdrawal may go from each stage. */
  predicate Follows(s: Stage, s': Stage) {
    s == s' || (s.Pending? && !s'.Pending?) || (s.Broadcast? && s'.Succeeded?)
  }

  /** The request is the same, and its stage only moved forward. */
  predicate Advanced(w: Withdrawal, w': Withdrawal) {
    && w'.user == w.user && w'.asset == w.asset && w'.amount == w.amount && w'.fee == w.fee
    && Follows(w.stage, w'.stage)
  }

  /** No withdrawal, no credited transaction and no loose funds changed. */
  ghost predicate SameWallet(x: Ex, x': Ex) {
    x'.withdrawals == x.withdrawals && x'.credited == x.credited && x'.loose == x.loose
  }

  lemma ExecuteWallet(x: Ex, o: OrderVal, market: string)
    requires market in x.markets && market in x.engines && o.id in x.purse && EngOk(x.engines[market])
    ensures SameWallet(x, Execute(x, o, market).0)
  {
    hide EngOk, Submit, Release, SettleFills, PatchAll;
  }

  lemma FundWallet(x: Ex, o: OrderVal, market: string)
    requires market in x.markets && market in x.engines && EngOk(x.engines[market])
    ensures SameWallet(x, Fund(x, o, market).0)
  {
    hide EngOk, Execute, Freeze;
    match FreezeAmount(o)
    case None =>
    case Some(amount) =>
      var (led, err) := Freeze(x.led, Account(o.user, x.markets[market].AssetOf(o.side)), amount);
      if err.None? {
        ExecuteWallet(Store(x.(led := led), o, MoneyOf(o, market, true, amount)), o, market);
      }
  }

  lemma PlaceWallet(x: Ex, user: string, r: Request)
    requires ShapeOk(x)
    ensures SameWallet(x, Place(x, user, r).0)
  {
    hide EngOk, Fund, Build;
    if r.market in x.markets && x.markets[r.market].enabled && !r.typ.OtherType? {
      var id := x.lastOrder + 1;
      var o := Build(x.markets[r.market], id, user, r);
      if o.Ok? {
        FundWallet(x.(lastOrder := id), o.value, r.market);
      }
    }
  }

  lemma CancelWallet(x: Ex, user: string, id: OrderId)
    requires ShapeOk(x)
    ensures SameWallet(x, CancelOrder(x, user, id).0)
  {
    hide EngOk, Cancel, Release;
  }

  ghost predicate WalletMoves(x: Ex, x': Ex) {
    && x.credited <= x'.credited && x'.loose == x.loose
    && forall id :: id in x.withdrawals ==> id in x'.withdrawals && Advanced(x.withdrawals[id], x'.withdrawals[id])
  }

  lemma SubmitMoves(x: Ex, user: string, asset: string, address: string, amount: int)
    requires forall w :: w in x.withdrawals ==> w <= x.lastWithdrawal
    ensures WalletMoves(x, SubmitWithdrawal(x, user, asset, address, amount).0)
  {
    hide SubmitWithdrawal;
    var led, w := SubmitForm(x, user, asset, address, amount);
  }

  lemma ApproveMoves(x: Ex, id: nat, answer: Chain)
    ensures WalletMoves(x, Approve(x, id, answer).0)
  {
    hide Approve, Get, Shifted, Untouched;
    ApproveExact(x, id, answer);
  }

  lemma RejectMoves(x: Ex, id: nat)
    ensures WalletMoves(x, Reject(x, id).0)
  {
    hide Reject, Get, Shifted, GivenBack;
    RejectExact(x, id);
  }

  lemma WithdrawalNumbers(x: Ex)
    requires ShapeOk(x)
    ensures forall w :: w in x.withdrawals ==> w <= x.lastWithdrawal
  {
  }

  lemma ConfirmMoves(x: Ex, id: nat, confirmations: Option<nat>)
    ensures WalletMoves(x, Confirm(x, id, confirmations).0)
  {
    hide Confirm;
    ConfirmExact(x, id, confirmations);
  }

  /** One call moves a withdrawal at most one stage, and forgets no credited transaction. */
  lemma StepWallet(x: Ex, c: Call)
    requires ShapeOk(x)
    ensures WalletMoves(x, Step(x, c))
  {
    hide EngOk, ShapeOk, Place, CancelOrder, Deposit, SubmitWithdrawal, Approve, Reject, Confirm;
    WithdrawalNumbers(x);
    match c
    case PlaceCall(u, r) => PlaceWallet(x, u, r);
    case CancelCall(u, id) => CancelWallet(x, u, id);
    case WithdrawCall(u, a, to, q) => SubmitMoves(x, u, a, to, q);
    case ApproveCall(id, answer) => ApproveMoves(x, id, answer);
    case RejectCall(id) => RejectMoves(x, id);
    case ConfirmCall(id, n) => ConfirmMoves(x, id, n);
    case _ =>
  }

  /**
   Over any run a withdrawal keeps its terms and only moves forward: declined and finished
   requests are final, so no request is both given back and paid out, or paid out twice.
   */
  lemma {:induction false} WithdrawalsAdvance(x: Ex, calls: seq<Call>, id: nat)
    requires ShapeOk(x) && id in x.withdrawals
    ensures id in Run(x, calls).withdrawals && Advanced(x.withdrawals[id], Run(x, calls).withdrawals[id])
    decreases |calls|
  {
    hide ShapeOk;
    if calls != [] {
      StepShape(x, calls[0]);
      StepWallet(x, calls[0]);
      WithdrawalsAdvance(Step(x, calls[0]), calls[1..], id);
    }
  }

  lemma {:induction false} LooseStays(x: Ex, calls: seq<Call>)
    requires ShapeOk(x)
    ensures Run(x, calls).loose == x.loose
    decreases |calls|
  {
    hide ShapeOk;
    if calls != [] {
      StepShape(x, calls[0]);
      StepWallet(x, calls[0]);
      LooseStays(Step(x, calls[0]), calls[1..]);
    }
  }

  lemma {:induction false} CreditedGrows(x: Ex, calls: seq<Call>)
    requires ShapeOk(x)
    ensures x.credited <= Run(x, calls).credited
    decreases |calls|
  {
    hide ShapeOk;
    if calls != [] {
      StepShape(x, calls[0]);
      StepWallet(x, calls[0]);
      CreditedGrows(Step(x, calls[0]), calls[1..]);
    }
  }

  /**
   A chain transaction is credited at most once per asset, whatever happens in between and
   whoever it is claimed for. That holds for a credit that failed, too: it is not retried.
   */
  lemma CreditedOnce(x: Ex, user: string, asset: string, amount: int, tx: string, calls: seq<Call>,
      user': string, amount': int)
    requires ShapeOk(x)
    ensures var x1 := Credit(x, user, asset, amount, tx).0;
      && ShapeOk(x1)
      && Credit(Run(x1, calls), user', asset, amount', tx) == (Run(x1, calls), None)
  {
    hide Deposit, ShapeOk, Run;
    StepShape(x, CreditCall(user, asset, amount, tx));
    CreditedGrows(Credit(x, user, asset, amount, tx).0, calls);
  }
}
