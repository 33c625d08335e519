/**
 The exchange as one state machine: order service, matching engines, asset ledger and
 wallet. Each service call is one step.
 */
module Exchange {
  import opened Wrappers
  import opened Domain
  import opened FixedPoint
  import opened Matching
  import opened EngineModel
  import opened Ledger
  import opened Settlement
  import DecimalText

  // ---- withdrawals ----

  datatype Coin = Coin(enabled: bool, minWithdraw: int, fee: int, adapter: bool)

  datatype Stage = Pending | Declined | Broadcast | Succeeded

  datatype Withdrawal = Withdrawal(user: string, asset: string, amount: int, fee: int, stage: Stage, hash: string) {
    /** What the request keeps frozen. */
    function Reserved(): int {
      if stage.Pending? then amount + (if fee > 0 then fee else 0) else 0
    }
  }

  // ---- the state ----

  datatype Ex = Ex(
    markets: map<string, Market>,
    coins: map<string, Coin>,
    engines: map<string, Eng>,
    led: Led,
    orders: map<OrderId, OrderVal>,
    purse: Purse,
    lastOrder: nat,
    withdrawals: map<nat, Withdrawal>,
    lastWithdrawal: nat,
    credited: set<(string, string)>,
    loose: map<Account, nat>  // frozen funds that back no order and no withdrawal; no call moves them
  ) {
    /** The account an order draws on. */
    function AccountOf(m: Money): Account
      requires m.market in markets
    {
      Account(m.user, markets[m.market].AssetOf(m.side))
    }
  }

  /** Every market has its engine, every stored order its money and its market. */
  ghost predicate ShapeOk(x: Ex) {
    && x.engines.Keys == x.markets.Keys
    && (forall s :: s in x.markets ==> EngOk(x.engines[s]) && x.markets[s].minQty > 0 && x.markets[s].minNotional > 0)
    && x.orders.Keys == x.purse.Keys
    && (forall id :: id in x.purse ==> id <= x.lastOrder && x.purse[id].market in x.markets)
    && (forall w :: w in x.withdrawals ==> w <= x.lastWithdrawal)
  }

  // ---- placing an order ----

  datatype Request = Request(
    market: string, side: Side, typ: OrderType, tif: TimeInForce,
    price: string, quantity: string, amountQuote: string
  )

  datatype PlaceReply =
    | Refused(rejected: Option<OrderVal>, err: Error)
    | Unsettled(order: OrderVal, fills: seq<Fill>, err: Error)
    | Done(order: OrderVal, fills: seq<Fill>)

  function Fresh(id: OrderId, user: string, r: Request, price: int, qty: int, quote: int): OrderVal {
    OrderVal(id, user, r.side, r.typ, if r.typ.Market? then GTC else r.tif, price, qty, quote, qty, quote, 0, 0, New)
  }

  /** Validate a request of a known type and turn its texts into units. */
  function Build(mk: Market, id: OrderId, user: string, r: Request): Result<OrderVal, Error>
    requires !r.typ.OtherType?
  {
    if r.typ.Limit? then
      var price, qty := DecimalText.Parse(r.price), DecimalText.Parse(r.quantity);
      if price.None? || price.value <= 0 then Err(InvalidPrice)
      else if qty.None? || qty.value <= 0 then Err(InvalidOrder)
      else if WrapInt64(qty.value) < mk.minQty then Err(InsufficientQty)
      else Ok(Fresh(id, user, r, WrapInt64(price.value), WrapInt64(qty.value), 0))
    else if r.side.Buy? then
      var amount := DecimalText.Parse(r.amountQuote);
      if amount.None? || amount.value <= 0 then Err(InvalidOrder)
      else if WrapInt64(amount.value) < mk.minNotional then Err(InsufficientNotional)
      else Ok(Fresh(id, user, r, 0, 0, WrapInt64(amount.value)))
    else
      var qty := DecimalText.Parse(r.quantity);
      if qty.None? || qty.value <= 0 then Err(InvalidOrder)
      else if WrapInt64(qty.value) < mk.minQty then Err(InsufficientQty)
      else Ok(Fresh(id, user, r, 0, WrapInt64(qty.value), 0))
  }

  /** What an order freezes: its budget, its worst cost, or its quantity. */
  function FreezeAmount(o: OrderVal): Option<int> {
    if o.MarketBuy() then Some(o.amountQuote)
    else if o.side.Buy? then PriceQtyToQuote(o.price, o.qty)
    else Some(o.qty)
  }

  /** Give back what an order has frozen and not spent. */
  function Release(led: Led, p: Purse, id: OrderId, a: Account): (Led, Purse)
    requires id in p
  {
    var rest := p[id].frozen - p[id].spent;
    if rest <= 0 then (led, p)
    else (Unfreeze(led, a, rest).0, p[id := p[id].(frozen := p[id].frozen - rest)])
  }

  /** The stored orders after a match: the makers' records follow the fills. */
  function PatchAll(orders: map<OrderId, OrderVal>, fills: seq<Fill>): map<OrderId, OrderVal> {
    map id | id in orders :: Patched(orders[id], fills)
  }

  function Store(x: Ex, o: OrderVal, m: Money): Ex {
    x.(orders := x.orders[o.id := o], purse := x.purse[o.id := m])
  }

  function MoneyOf(o: OrderVal, market: string, funded: bool, frozen: int): Money {
    Money(o.user, market, o.side, funded, frozen, 0, 0)
  }

  function Place(x: Ex, user: string, r: Request): (Ex, PlaceReply)
    requires ShapeOk(x)
  {
    if r.market !in x.markets then (x, Refused(None, SymbolNotFound))
    else if !x.markets[r.market].enabled then (x, Refused(None, SymbolDisabled))
    else if r.typ.OtherType? then (x, Refused(None, InvalidOrder))
    else
      var id := x.lastOrder + 1;
      var x1 := x.(lastOrder := id);
      match Build(x.markets[r.market], id, user, r)
      case Err(e) => (x1, Refused(None, e))
      case Ok(o) => Fund(x1, o, r.market)
  }

  /** Freeze the order's funds, or refuse it. */
  function Fund(x: Ex, o: OrderVal, market: string): (Ex, PlaceReply)
    requires market in x.markets && market in x.engines
    requires EngOk(x.engines[market])
  {
    var refused := o.(status := Rejected);
    match FreezeAmount(o)
    case None => (Store(x, refused, MoneyOf(o, market, false, 0)), Refused(Some(refused), InvalidOrder))
    case Some(amount) =>
      var (led, err) := Freeze(x.led, Account(o.user, x.markets[market].AssetOf(o.side)), amount);
      match err
      case Some(e) =>
        (Store(x.(led := led), refused, MoneyOf(o, market, false, amount)), Refused(Some(refused), e))
      case None =>
        Execute(Store(x.(led := led), o, MoneyOf(o, market, true, amount)), o, market)
  }

  /** Match a funded order, settle its fills, and release what a finished order did not spend. */
  function Execute(x: Ex, o: OrderVal, market: string): (Ex, PlaceReply)
    requires market in x.markets && market in x.engines && o.id in x.purse
    requires EngOk(x.engines[market])
  {
    var mk := x.markets[market];
    var a := Account(o.user, mk.AssetOf(o.side));
    var (e, out) := Submit(x.engines[market], o);
    var x1 := x.(engines := x.engines[market := e]);
    if out.reject.Some? then
      var (led, p) := Release(x.led, x.purse, o.id, a);
      var refused := out.order.(status := Rejected);
      (x1.(led := led, purse := p, orders := x.orders[o.id := refused]), Refused(Some(refused), out.reject.value))
    else
      var x2 := x1.(orders := PatchAll(x.orders, out.fills)[o.id := out.order]);
      var s := SettleFills(x.led, x.purse, out.fills, out.order, mk);
      if s.err.Some? then
        (x2.(led := s.led, purse := s.purse), Unsettled(out.order, out.fills, s.err.value))
      else if Rests(out.order) then
        (x2.(led := s.led, purse := s.purse), Done(out.order, out.fills))
      else
        var (led, p) := Release(s.led, s.purse, o.id, a);
        (x2.(led := led, purse := p), Done(out.order, out.fills))
  }

  // ---- cancelling ----

  /** The checks the service makes before it asks the engine. */
  function CancelScreen(x: Ex, user: string, id: OrderId): Option<Error> {
    if id !in x.orders || x.orders[id].user != user then Some(OrderNotFound)
    else if x.orders[id].status.Filled? || x.orders[id].status.Canceled? then Some(OrderAlreadyFilled)
    else None
  }

  function CancelOrder(x: Ex, user: string, id: OrderId): (Ex, Result<OrderVal, Error>)
    requires ShapeOk(x)
  {
    match CancelScreen(x, user, id)
    case Some(err) => (x, Err(err))
    case None =>
      var market := x.purse[id].market;
      var (e, o) := Cancel(x.engines[market], id);
      match o
      case None => (x, Err(OrderNotFound))
      case Some(v) =>
        var (led, p) := Release(x.led, x.purse, id, x.AccountOf(x.purse[id]));
        (x.(engines := x.engines[market := e], led := led, purse := p, orders := x.orders[id := v]), Ok(v))
  }

  // ---- withdrawing ----

  /** Freeze amount and fee; a fee that cannot be frozen gives the amount back. */
  function FreezeBoth(led: Led, a: Account, amount: int, fee: int): (Led, Option<Error>) {
    var (l1, e1) := Freeze(led, a, amount);
    if e1.Some? then (l1, e1)
    else
      var (l2, e2) := if fee > 0 then Freeze(l1, a, fee) else (l1, None);
      if e2.Some? then (Unfreeze(l2, a, amount).0, e2) else (l2, None)
  }

  function SubmitWithdrawal(x: Ex, user: string, asset: string, address: string, amount: int)
    : (Ex, Result<nat, Error>)
  {
    if asset !in x.coins then (x, Err(SymbolNotFound))
    else if !x.coins[asset].enabled then (x, Err(InvalidOrder))
    else if amount < x.coins[asset].minWithdraw then (x, Err(InsufficientNotional))
    else if address == "" then (x, Err(InvalidOrder))
    else
      var fee := x.coins[asset].fee;
      var (led, err) := FreezeBoth(x.led, Account(user, asset), amount, fee);
      if err.Some? then (x.(led := led), Err(err.value))
      else
        var id := x.lastWithdrawal + 1;
        var w := Withdrawal(user, asset, amount, fee, Pending, "");
        (x.(led := led, withdrawals := x.withdrawals[id := w], lastWithdrawal := id), Ok(id))
  }

  /** What the chain adapter answers to signing and broadcasting. */
  datatype Chain = SignFails | BroadcastFails | Sent(hash: string)

  function Approve(x: Ex, id: nat, answer: Chain): (Ex, Result<nat, Error>) {
    if id !in x.withdrawals then (x, Err(OrderNotFound))
    else
      var w := x.withdrawals[id];
      if !w.stage.Pending? then (x, Err(NotPending))
      else if w.asset !in x.coins || !x.coins[w.asset].adapter then (x, Err(NoAdapter))
      else if !answer.Sent? then (x, Err(AdapterFailed))
      else
        var x1 := x.(withdrawals := x.withdrawals[id := w.(stage := Broadcast, hash := answer.hash)]);
        var a := Account(w.user, w.asset);
        var (l1, err) := ConsumeFrozen(x.led, a, w.amount);
        if err.Some? then (x1.(led := l1), Err(err.value))
        else (x1.(led := if w.fee > 0 then ConsumeFrozen(l1, a, w.fee).0 else l1), Ok(id))
  }

  function Reject(x: Ex, id: nat): (Ex, Result<nat, Error>) {
    if id !in x.withdrawals then (x, Err(OrderNotFound))
    else
      var w := x.withdrawals[id];
      if !w.stage.Pending? then (x, Err(NotPending))
      else
        var a := Account(w.user, w.asset);
        var l1 := Unfreeze(x.led, a, w.amount).0;
        var l2 := if w.fee > 0 then Unfreeze(l1, a, w.fee).0 else l1;
        (x.(led := l2, withdrawals := x.withdrawals[id := w.(stage := Declined)]), Ok(id))
  }

  /** Track a broadcast withdrawal; `confirmations` is nothing when the adapter fails. */
  function Confirm(x: Ex, id: nat, confirmations: Option<nat>): (Ex, Result<nat, Error>) {
    if id !in x.withdrawals then (x, Err(OrderNotFound))
    else
      var w := x.withdrawals[id];
      if !w.stage.Broadcast? || w.hash == "" then (x, Ok(id))
      else if confirmations.None? then (x, Err(AdapterFailed))
      else if confirmations.value > 0 then
        (x.(withdrawals := x.withdrawals[id := w.(stage := Succeeded)]), Ok(id))
      else (x, Ok(id))
  }

  /** Credit a chain deposit once per transaction and asset. */
  function Credit(x: Ex, user: string, asset: string, amount: int, tx: string): (Ex, Option<Error>) {
    if (tx, asset) in x.credited then (x, None)
    else
      var (l, err) := Deposit(x.led, Account(user, asset), amount);
      (x.(led := l, credited := x.credited + {(tx, asset)}), err)
  }

  // ---- runs ----

  datatype Call =
    | DepositCall(user: string, asset: string, qty: int)
    | CreditCall(user: string, asset: string, qty: int, tx: string)
    | PlaceCall(user: string, req: Request)
    | CancelCall(user: string, id: OrderId)
    | WithdrawCall(user: string, asset: string, address: string, qty: int)
    | ApproveCall(wid: nat, answer: Chain)
    | RejectCall(wid: nat)
    | ConfirmCall(wid: nat, confirmations: Option<nat>)

  function Step(x: Ex, c: Call): Ex
    requires ShapeOk(x)
  {
    match c
    case DepositCall(u, a, q) => x.(led := Deposit(x.led, Account(u, a), q).0)
    case CreditCall(u, a, q, tx) => Credit(x, u, a, q, tx).0
    case PlaceCall(u, r) => Place(x, u, r).0
    case CancelCall(u, id) => CancelOrder(x, u, id).0
    case WithdrawCall(u, a, to, q) => SubmitWithdrawal(x, u, a, to, q).0
    case ApproveCall(id, answer) => Approve(x, id, answer).0
    case RejectCall(id) => Reject(x, id).0
    case ConfirmCall(id, n) => Confirm(x, id, n).0
  }
}
