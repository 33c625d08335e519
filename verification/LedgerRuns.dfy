/**
 The ledger over runs of the whole exchange, whatever the calls are and whether they succeed:
 its books stay reconciled, its entries are only ever added to, and what came in is what was
 deposited and what was credited, each credit once.
 */
module LedgerRuns {
  import opened Wrappers
  import opened Domain
  import opened FixedPoint
  import opened Matching
  import opened Books
  import opened EngineModel
  import opened Ledger
  import opened Settlement
  import opened Exchange
  import opened SolventRuns
  import opened LedgerMoves
  import opened LiveFunds

  // ---- what every operation but a deposit keeps ----

  /** What deposits have brought to an account. */
  function DepositsIn(es: seq<Entry>, a: Account): int {
    if es == [] then 0
    else
      var e := es[|es| - 1];
      DepositsIn(es[..|es| - 1], a) + if e.account == a && e.typ.Deposited? then e.amount else 0
  }

  /** Reconciled books stay so, entries are only added, and none of the new ones is a deposit. */
  ghost predicate Follows(l: Led, l': Led) {
    && (Reconciled(l) ==> Reconciled(l'))
    && l.entries <= l'.entries && forall a :: DepositsIn(l'.entries, a) == DepositsIn(l.entries, a)
  }

  lemma FollowsSame(l: Led)
    ensures Follows(l, l)
  {
  }

  lemma FollowsOn(l: Led, l1: Led, l2: Led)
    requires Follows(l, l1) && Follows(l1, l2)
    ensures Follows(l, l2)
  {
    hide Reconciled, DepositsIn;
  }

  lemma OneEntry(es: seq<Entry>, e: Entry, a: Account)
    ensures DepositsIn(es + [e], a) == DepositsIn(es, a) + if e.account == a && e.typ.Deposited? then e.amount else 0
  {
    assert (es + [e])[..|es|] == es;
  }

  lemma EntryFollows(l: Led, l': Led, a: Account, amount: int, typ: EntryType)
    requires (Reconciled(l) ==> Reconciled(l')) && !typ.Deposited?
    requires Entered(l, l', a, amount, typ) || l'.entries == l.entries
    ensures Follows(l, l')
  {
    hide Reconciled, DepositsIn, Get;
    forall b
      ensures DepositsIn(l'.entries, b) == DepositsIn(l.entries, b)
    {
      OneEntry(l.entries, Entry(a, amount, Get(l', a).Total(), typ), b);
    }
  }

  lemma OpFollows(l: Led, op: Ledger.Op)
    requires !op.SettleOp? && !op.DepositOp?
    ensures Follows(l, Perform(l, op))
  {
    hide Reconciled, DepositsIn, Freeze, Unfreeze, ConsumeFrozen, Follows, Get;
    var l' := Perform(l, op);
    if Reconciled(l) {
      StepReconciles(l, op);
    }
    match op
    case FreezeOp(a, q) =>
      FreezeExact(l, a, q);
      EntryFollows(l, l', a, -q, Frozen);
    case UnfreezeOp(a, q) =>
      UnfreezeExact(l, a, q);
      EntryFollows(l, l', a, q, Unfrozen);
    case ConsumeOp(a, q) =>
      ConsumeExact(l, a, q);
      EntryFollows(l, l', a, -q, Withdrawn);
  }

  /** Entries of a settlement are legs of a trade. */
  lemma LegsAdd(l: Led, a: Account, qty: int)
    ensures forall b :: DepositsIn(PayOut(l, a, qty).entries, b) == DepositsIn(l.entries, b)
    ensures forall b :: DepositsIn(PayIn(l, a, qty).entries, b) == DepositsIn(l.entries, b)
    ensures l.entries <= PayOut(l, a, qty).entries && l.entries <= PayIn(l, a, qty).entries
  {
    hide DepositsIn, Get;
    forall b
      ensures DepositsIn(PayOut(l, a, qty).entries, b) == DepositsIn(l.entries, b)
      ensures DepositsIn(PayIn(l, a, qty).entries, b) == DepositsIn(l.entries, b)
    {
      OneEntry(l.entries, PayOut(l, a, qty).entries[|l.entries|], b);
      OneEntry(l.entries, PayIn(l, a, qty).entries[|l.entries|], b);
    }
  }

  lemma SettleFollows(l: Led, t: Trade, base: string, quote: string)
    requires t.qty > 0
    ensures Follows(l, SettleTrade(l, t, base, quote).0)
  {
    hide Reconciled, DepositsIn, PayIn, PayOut, Get;
    var cost := PriceQtyToQuote(t.price, t.qty);
    var buyer := if t.takerSide.Buy? then t.takerUser else t.makerUser;
    var seller := if t.takerSide.Buy? then t.makerUser else t.takerUser;
    if Reconciled(l) {
      SettleReconciles(l, t, base, quote);
    }
    if cost.Some? {
      LegsAdd(l, Account(buyer, quote), cost.value);
      var l0 := PayOut(l, Account(buyer, quote), cost.value);
      LegsAdd(l0, Account(buyer, base), t.qty);
      var l1 := PayIn(l0, Account(buyer, base), t.qty);
      LegsAdd(l1, Account(seller, base), t.qty);
      LegsAdd(PayOut(l1, Account(seller, base), t.qty), Account(seller, quote), cost.value);
    }
  }

  /** Every fill of a match has a positive quantity. */
  ghost predicate Positive(fills: seq<Fill>) {
    forall i :: 0 <= i < |fills| ==> fills[i].trade.qty > 0
  }

  lemma {:induction false} EatPositive(t: OrderVal, q: seq<OrderVal>, s: nat)
    requires Open(q)
    ensures Positive(Eat(t, q, s).fills)
    decreases TotalQty(q)
  {
    if CanEat(t, q) {
      var n := FillQty(t, q[0]);
      AfterFillShrinks(q, n);
      EatPositive(Taken(t, q[0].price, n), AfterFill(q, n), s + 1);
      assert forall i :: 0 < i < |Eat(t, q, s).fills| ==>
        Eat(t, q, s).fills[i] == Eat(Taken(t, q[0].price, n), AfterFill(q, n), s + 1).fills[i - 1];
    }
  }

  lemma SubmitPositive(e: Eng, o: OrderVal)
    requires EngOk(e)
    ensures Open(e.BookOf(o.side.Opposite()).queue) && Positive(Submit(e, o).1.fills)
  {
    hide MatchBook, Eat, AddOrder, CrossQty;
    var b := e.BookOf(o.side.Opposite());
    BookOkIn(e, o.side.Opposite());
    MatchBookIsEat(o, b, e.seqNo);
    EatPositive(o, b.queue, e.seqNo);
  }

  lemma {:induction false} FillsFollow(led: Led, p: Purse, fills: seq<Fill>, taker: OrderVal, mk: Market)
    requires Positive(fills)
    ensures Follows(led, SettleFills(led, p, fills, taker, mk).led)
    decreases |fills|
  {
    hide Follows, SettleTrade;
    if fills == [] {
      FollowsSame(led);
    } else {
      SettleFollows(led, fills[0].trade, mk.base, mk.quote);
      var s := SettleOne(led, p, fills[0].trade, taker, mk);
      assert forall i :: 0 <= i < |fills[1..]| ==> fills[1..][i] == fills[i + 1];
      if s.err.None? {
        FillsFollow(s.led, s.purse, fills[1..], taker, mk);
        FollowsOn(led, s.led, SettleFills(led, p, fills, taker, mk).led);
      }
    }
  }

  lemma ReleaseFollows(led: Led, p: Purse, id: OrderId, a: Account)
    requires id in p
    ensures Follows(led, Release(led, p, id, a).0)
  {
    hide Follows, Unfreeze;
    FollowsSame(led);
    OpFollows(led, UnfreezeOp(a, p[id].frozen - p[id].spent));
  }

  lemma ClosingFollows(led: Led, p: Purse, out: Outcome, o: OrderVal, mk: Market)
    requires o.id in p && Positive(out.fills)
    ensures Follows(led, Closing(led, p, out, o, mk).led)
  {
    hide Follows, SettleFills, Release, Rests, Positive;
    var a := Account(o.user, mk.AssetOf(o.side));
    ReleaseFollows(led, p, o.id, a);
    FillsFollow(led, p, out.fills, out.order, mk);
    var s := SettleFills(led, p, out.fills, out.order, mk);
    ReleaseFollows(s.led, s.purse, o.id, a);
    FollowsOn(led, s.led, Release(s.led, s.purse, o.id, a).0);
  }

  lemma ExecuteFollows(x: Ex, o: OrderVal, market: string)
    requires market in x.markets && market in x.engines && EngOk(x.engines[market])
    requires o.id in x.purse
    ensures Follows(x.led, Execute(x, o, market).0.led)
  {
    hide Follows, EngOk, Submit, Closing, Execute, PatchAll, Positive;
    SubmitPositive(x.engines[market], o);
    ExecuteCloses(x, o, market);
    ClosingFollows(x.led, x.purse, Submit(x.engines[market], o).1, o, x.markets[market]);
  }

  lemma FundFollows(x: Ex, o: OrderVal, market: string)
    requires market in x.markets && market in x.engines && EngOk(x.engines[market])
    ensures Follows(x.led, Fund(x, o, market).0.led)
  {
    hide Follows, EngOk, Execute, Freeze, FreezeAmount;
    FollowsSame(x.led);
    match FreezeAmount(o)
    case None =>
    case Some(amount) =>
      var a := Account(o.user, x.markets[market].AssetOf(o.side));
      OpFollows(x.led, FreezeOp(a, amount));
      var led := Freeze(x.led, a, amount).0;
      ExecuteFollows(Store(x.(led := led), o, MoneyOf(o, market, true, amount)), o, market);
      FollowsOn(x.led, led, Execute(Store(x.(led := led), o, MoneyOf(o, market, true, amount)), o, market).0.led);
  }

  lemma PlaceFollows(x: Ex, user: string, r: Request)
    requires ShapeOk(x)
    ensures Follows(x.led, Place(x, user, r).0.led)
  {
    hide Follows, EngOk, Fund, Build;
    FollowsSame(x.led);
    if r.market in x.markets && x.markets[r.market].enabled && !r.typ.OtherType? {
      var id := x.lastOrder + 1;
      var o := Build(x.markets[r.market], id, user, r);
      if o.Ok? {
        FundFollows(x.(lastOrder := id), o.value, r.market);
      }
    }
  }

  lemma CancelFollows(x: Ex, user: string, id: OrderId)
    requires ShapeOk(x)
    ensures Follows(x.led, CancelOrder(x, user, id).0.led)
  {
    hide Follows, ShapeOk, CancelOrder, Release;
    FollowsSame(x.led);
    if CancelOrder(x, user, id).1.Ok? {
      CancelIs(x, user, id);
      ReleaseFollows(x.led, x.purse, id, x.AccountOf(x.purse[id]));
    } else {
      RefusedCancel(x, user, id);
    }
  }

  lemma WithdrawFollows(x: Ex, user: string, asset: string, address: string, amount: int)
    ensures Follows(x.led, SubmitWithdrawal(x, user, asset, address, amount).0.led)
  {
    hide Follows, Freeze, Unfreeze;
    FollowsSame(x.led);
    if asset in x.coins {
      var a, fee := Account(user, asset), x.coins[asset].fee;
      OpFollows(x.led, FreezeOp(a, amount));
      var l1 := Freeze(x.led, a, amount).0;
      OpFollows(l1, FreezeOp(a, fee));
      var l2 := if fee > 0 then Freeze(l1, a, fee).0 else l1;
      OpFollows(l2, UnfreezeOp(a, amount));
      FollowsSame(l1);
      FollowsOn(x.led, l1, l2);
      FollowsOn(x.led, l2, Unfreeze(l2, a, amount).0);
    }
  }

  lemma ApproveFollows(x: Ex, id: nat, answer: Chain)
    ensures Follows(x.led, Approve(x, id, answer).0.led)
  {
    hide Follows, ConsumeFrozen;
    FollowsSame(x.led);
    if id in x.withdrawals {
      var w := x.withdrawals[id];
      var a := Account(w.user, w.asset);
      OpFollows(x.led, ConsumeOp(a, w.amount));
      var l1 := ConsumeFrozen(x.led, a, w.amount).0;
      OpFollows(l1, ConsumeOp(a, w.fee));
      FollowsOn(x.led, l1, ConsumeFrozen(l1, a, w.fee).0);
    }
  }

  lemma RejectFollows(x: Ex, id: nat)
    ensures Follows(x.led, Reject(x, id).0.led)
  {
    hide Follows, Unfreeze;
    FollowsSame(x.led);
    if id in x.withdrawals {
      var w := x.withdrawals[id];
      var a := Account(w.user, w.asset);
      OpFollows(x.led, UnfreezeOp(a, w.amount));
      var l1 := Unfreeze(x.led, a, w.amount).0;
      OpFollows(l1, UnfreezeOp(a, w.fee));
      FollowsOn(x.led, l1, Unfreeze(l1, a, w.fee).0);
    }
  }

  /** Every call that brings in nothing. */
  lemma StepFollows(x: Ex, c: Call)
    requires ShapeOk(x) && !c.DepositCall? && !c.CreditCall?
    ensures Follows(x.led, Step(x, c).led)
  {
    hide Follows, ShapeOk, Place, CancelOrder, SubmitWithdrawal, Approve, Reject;
    match c
    case PlaceCall(u, r) => PlaceFollows(x, u, r);
    case CancelCall(u, id) => CancelFollows(x, u, id);
    case WithdrawCall(u, a, to, q) => WithdrawFollows(x, u, a, to, q);
    case ApproveCall(id, answer) => ApproveFollows(x, id, answer);
    case RejectCall(id) => RejectFollows(x, id);
    case ConfirmCall(id, n) => FollowsSame(x.led);
  }

  // ---- credits ----

  /**
   A credit of a transaction and asset not seen before adds its amount to the user's available
   funds and to no other balance, with one entry; one that is no amount is an error and adds
   nothing. Either way the pair is remembered, and a remembered pair is not credited again.
   */
  lemma CreditExact(x: Ex, user: string, asset: string, amount: int, tx: string)
    ensures var (x', err) := Credit(x, user, asset, amount, tx);
      var a := Account(user, asset);
      && x' == x.(led := x'.led, credited := x.credited + {(tx, asset)})
      && (if (tx, asset) in x.credited then err.None? && x'.led == x.led
          else if amount > 0 then
            err.None? && Shifted(x.led, x'.led, a, amount, 0) && Entered(x.led, x'.led, a, amount, Deposited)
          else err == Some(InvalidOrder) && x'.led == x.led)
  {
    hide Deposit, Shifted, Entered;
    DepositExact(x.led, Account(user, asset), amount);
    if (tx, asset) in x.credited {
      assert x.credited + {(tx, asset)} == x.credited;
    }
  }

  /** What one call brings to an account. */
  function Brings(credited: set<(string, string)>, c: Call, a: Account): int {
    match c
    case DepositCall(u, asset, q) => if Account(u, asset) == a && q > 0 then q else 0
    case CreditCall(u, asset, q, tx) =>
      if (tx, asset) !in credited && Account(u, asset) == a && q > 0 then q else 0
    case _ => 0
  }

  /** What deposits and first credits of a run bring to an account, told by the calls alone. */
  function Received(credited: set<(string, string)>, calls: seq<Call>, a: Account): int
    decreases |calls|
  {
    if calls == [] then 0
    else
      var c := calls[0];
      Brings(credited, c, a) + Received(credited + (if c.CreditCall? then {(c.tx, c.asset)} else {}), calls[1..], a)
  }

  lemma DepositEnters(l: Led, b: Account, qty: int, a: Account)
    ensures var l' := Deposit(l, b, qty).0;
      && l.entries <= l'.entries && (Reconciled(l) ==> Reconciled(l'))
      && DepositsIn(l'.entries, a) == DepositsIn(l.entries, a) + if b == a && qty > 0 then qty else 0
  {
    hide Deposit, DepositsIn, Reconciled, Get;
    DepositExact(l, b, qty);
    if Reconciled(l) {
      StepReconciles(l, DepositOp(b, qty));
    }
    var l' := Deposit(l, b, qty).0;
    if qty > 0 {
      OneEntry(l.entries, l'.entries[|l.entries|], a);
    }
  }

  lemma CreditEnters(x: Ex, user: string, asset: string, qty: int, tx: string, a: Account)
    ensures var x' := Credit(x, user, asset, qty, tx).0;
      && (Reconciled(x.led) ==> Reconciled(x'.led)) && x.led.entries <= x'.led.entries
      && DepositsIn(x'.led.entries, a)
           == DepositsIn(x.led.entries, a) + Brings(x.credited, CreditCall(user, asset, qty, tx), a)
      && x'.credited == x.credited + {(tx, asset)}
  {
    hide Reconciled, DepositsIn, Deposit;
    if (tx, asset) in x.credited {
      assert x.credited + {(tx, asset)} == x.credited;
    } else {
      DepositEnters(x.led, Account(user, asset), qty, a);
    }
  }

  lemma CreditReceives(x: Ex, c: Call, a: Account)
    requires ShapeOk(x) && c.CreditCall?
    ensures (Reconciled(x.led) ==> Reconciled(Step(x, c).led)) && x.led.entries <= Step(x, c).led.entries
    ensures DepositsIn(Step(x, c).led.entries, a) == DepositsIn(x.led.entries, a) + Brings(x.credited, c, a)
    ensures Step(x, c).credited == x.credited + {(c.tx, c.asset)}
  {
    hide Reconciled, DepositsIn, Credit, ShapeOk, Brings;
    CreditEnters(x, c.user, c.asset, c.qty, c.tx, a);
  }

  lemma DepositReceives(x: Ex, c: Call, a: Account)
    requires ShapeOk(x) && c.DepositCall?
    ensures (Reconciled(x.led) ==> Reconciled(Step(x, c).led)) && x.led.entries <= Step(x, c).led.entries
    ensures DepositsIn(Step(x, c).led.entries, a) == DepositsIn(x.led.entries, a) + Brings(x.credited, c, a)
    ensures Step(x, c).credited == x.credited
  {
    hide Reconciled, DepositsIn, Deposit, ShapeOk;
    DepositEnters(x.led, Account(c.user, c.asset), c.qty, a);
  }

  lemma StepReceives(x: Ex, c: Call, a: Account)
    requires ShapeOk(x)
    ensures (Reconciled(x.led) ==> Reconciled(Step(x, c).led)) && x.led.entries <= Step(x, c).led.entries
    ensures DepositsIn(Step(x, c).led.entries, a) == DepositsIn(x.led.entries, a) + Brings(x.credited, c, a)
    ensures Step(x, c).credited == x.credited + if c.CreditCall? then {(c.tx, c.asset)} else {}
  {
    hide Reconciled, DepositsIn, ShapeOk, Step;
    if c.DepositCall? {
      DepositReceives(x, c, a);
    } else if c.CreditCall? {
      CreditReceives(x, c, a);
    } else {
      StepFollows(x, c);
      StepCredits(x, c);
    }
  }

  lemma StepCredits(x: Ex, c: Call)
    requires ShapeOk(x) && !c.DepositCall? && !c.CreditCall?
    ensures Step(x, c).credited == x.credited
  {
    hide ShapeOk, EngOk, Place, CancelOrder, SubmitWithdrawal, Approve, Reject, Confirm;
    match c
    case PlaceCall(u, r) => PlaceWallet(x, u, r);
    case CancelCall(u, id) => CancelWallet(x, u, id);
    case WithdrawCall(u, a, to, q) =>
      var led, w := SubmitForm(x, u, a, to, q);
    case ApproveCall(id, answer) => ApproveCredits(x, id, answer);
    case RejectCall(id) => RejectCredits(x, id);
    case ConfirmCall(id, n) => ConfirmCredits(x, id, n);
  }

  lemma ApproveCredits(x: Ex, id: nat, answer: Chain)
    ensures Approve(x, id, answer).0.credited == x.credited
  {
    hide ConsumeFrozen;
  }

  lemma RejectCredits(x: Ex, id: nat)
    ensures Reject(x, id).0.credited == x.credited
  {
    hide Unfreeze;
  }

  lemma ConfirmCredits(x: Ex, id: nat, confirmations: Option<nat>)
    ensures Confirm(x, id, confirmations).0.credited == x.credited
  {
  }

  /**
   Over every run of the exchange, careless cancels and failed settlements included, every
   balance is what its entries rebuild, every entry states the total of its account at that
   point, and no balance is negative. Entries are only added, and what entered an account from
   outside is exactly what was deposited there and credited there, each transaction once.
   */
  lemma {:induction false} RunReconciled(x: Ex, calls: seq<Call>, a: Account)
    requires ShapeOk(x) && Reconciled(x.led)
    ensures var y := Run(x, calls);
      && Reconciled(y.led) && x.led.entries <= y.led.entries
      && DepositsIn(y.led.entries, a) == DepositsIn(x.led.entries, a) + Received(x.credited, calls, a)
    decreases |calls|
  {
    hide Reconciled, ShapeOk, Step, DepositsIn;
    if calls != [] {
      StepShape(x, calls[0]);
      StepReceives(x, calls[0], a);
      RunReconciled(Step(x, calls[0]), calls[1..], a);
    }
  }
}
