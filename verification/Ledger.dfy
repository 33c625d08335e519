/**
 The asset ledger: available and frozen balances per user and asset, and an append-only
 list of entries from which every balance can be rebuilt.
 */
module Ledger {
  import opened Wrappers
  import opened Domain
  import opened FixedPoint

  datatype Account = Account(user: string, asset: string)

  datatype Balance = Balance(available: int, frozen: int) {
    function Total(): int { available + frozen }
  }

  datatype EntryType = Deposited | Withdrawn | Frozen | Unfrozen | TradeOut | TradeIn

  datatype Entry = Entry(account: Account, amount: int, balance: int, typ: EntryType)

  datatype Led = Led(accounts: map<Account, Balance>, entries: seq<Entry>)

  const EMPTY := Led(map[], [])

  const ZERO := Balance(0, 0)

  function Get(l: Led, a: Account): Balance {
    if a in l.accounts then l.accounts[a] else ZERO
  }

  /** Looking an account up for writing creates it. */
  function Ensure(l: Led, a: Account): Led {
    if a in l.accounts then l else l.(accounts := l.accounts[a := ZERO])
  }

  /** Move an account to a new balance and record the movement. */
  function Post(l: Led, a: Account, b: Balance, amount: int, typ: EntryType): Led {
    Led(l.accounts[a := b], l.entries + [Entry(a, amount, b.Total(), typ)])
  }

  // ---- the operations ----

  function Deposit(l: Led, a: Account, qty: int): (Led, Option<Error>) {
    if qty <= 0 then (l, Some(InvalidOrder))
    else
      var b := Get(l, a);
      (Post(l, a, Balance(b.available + qty, b.frozen), qty, Deposited), None)
  }

  function Freeze(l: Led, a: Account, qty: int): (Led, Option<Error>) {
    if qty <= 0 then (l, Some(InvalidOrder))
    else
      var b := Get(l, a);
      if b.available < qty then (Ensure(l, a), Some(InsufficientFunds))
      else (Post(l, a, Balance(b.available - qty, b.frozen + qty), -qty, Frozen), None)
  }

  function Unfreeze(l: Led, a: Account, qty: int): (Led, Option<Error>) {
    if qty <= 0 then (l, Some(InvalidOrder))
    else
      var b := Get(l, a);
      if b.frozen < qty then (Ensure(l, a), Some(InsufficientFunds))
      else (Post(l, a, Balance(b.available + qty, b.frozen - qty), qty, Unfrozen), None)
  }

  function ConsumeFrozen(l: Led, a: Account, qty: int): (Led, Option<Error>) {
    if qty <= 0 then (l, Some(InvalidOrder))
    else
      var b := Get(l, a);
      if b.frozen < qty then (Ensure(l, a), Some(InsufficientFunds))
      else (Post(l, a, Balance(b.available, b.frozen - qty), -qty, Withdrawn), None)
  }

  /** Pay out of the frozen funds of a trade. */
  function PayOut(l: Led, a: Account, qty: int): Led {
    var b := Get(l, a);
    Post(l, a, Balance(b.available, b.frozen - qty), -qty, TradeOut)
  }

  /** Receive the proceeds of a trade. */
  function PayIn(l: Led, a: Account, qty: int): Led {
    var b := Get(l, a);
    Post(l, a, Balance(b.available + qty, b.frozen), qty, TradeIn)
  }

  /**
   The four legs of a trade. The buyer's two legs are posted before the seller is
   checked, so a failure there leaves them posted.
   */
  function SettleTrade(l: Led, t: Trade, base: string, quote: string): (Led, Option<Error>) {
    var cost := PriceQtyToQuote(t.price, t.qty);
    var buyer := if t.takerSide.Buy? then t.takerUser else t.makerUser;
    var seller := if t.takerSide.Buy? then t.makerUser else t.takerUser;
    if cost.None? then (l, Some(InvalidAmount))
    else if buyer == seller then (l, Some(InvalidOrder))
    else if Get(l, Account(buyer, quote)).frozen < cost.value then
      (Ensure(l, Account(buyer, quote)), Some(SettlementFailed))
    else
      var l1 := PayIn(PayOut(l, Account(buyer, quote), cost.value), Account(buyer, base), t.qty);
      if Get(l1, Account(seller, base)).frozen < t.qty then
        (Ensure(l1, Account(seller, base)), Some(SettlementFailed))
      else
        (PayIn(PayOut(l1, Account(seller, base), t.qty), Account(seller, quote), cost.value), None)
  }

  // ---- replay ----

  /** What one entry does to the balance of its account, told by its type alone. */
  function Apply(b: Balance, amount: int, typ: EntryType): Balance {
    match typ
    case Deposited => Balance(b.available + amount, b.frozen)
    case Withdrawn => Balance(b.available, b.frozen + amount)
    case Frozen => Balance(b.available + amount, b.frozen - amount)
    case Unfrozen => Balance(b.available + amount, b.frozen - amount)
    case TradeOut => Balance(b.available, b.frozen + amount)
    case TradeIn => Balance(b.available + amount, b.frozen)
  }

  /** The balance of an account rebuilt from the entries. */
  function Replay(es: seq<Entry>, a: Account): Balance {
    if es == [] then ZERO
    else
      var e := es[|es| - 1];
      var b := Replay(es[..|es| - 1], a);
      if e.account == a then Apply(b, e.amount, e.typ) else b
  }

  /**
   The books balance: every balance is what its entries rebuild, every entry states the
   total of its account at that point, and nothing is negative.
   */
  ghost predicate Reconciled(l: Led) {
    && (forall a :: Get(l, a) == Replay(l.entries, a))
    && (forall i :: 0 <= i < |l.entries| ==>
          l.entries[i].balance == Replay(l.entries[..i + 1], l.entries[i].account).Total())
    && (forall a :: Get(l, a).available >= 0 && Get(l, a).frozen >= 0)
  }

  lemma NonNegative(l: Led, a: Account)
    requires Reconciled(l)
    ensures Get(l, a).available >= 0 && Get(l, a).frozen >= 0
  {
  }

  /** A movement told truthfully by its entry keeps the books balanced. */
  lemma PostReplays(l: Led, a: Account, b: Balance, amount: int, typ: EntryType, x: Account)
    requires Get(l, x) == Replay(l.entries, x) && b == Apply(Get(l, a), amount, typ)
    ensures Get(Post(l, a, b, amount, typ), x) == Replay(Post(l, a, b, amount, typ).entries, x)
  {
  }

  lemma PostTotals(l: Led, a: Account, b: Balance, amount: int, typ: EntryType, i: nat)
    requires Reconciled(l) && b == Apply(Get(l, a), amount, typ) && i <= |l.entries|
    ensures var es := Post(l, a, b, amount, typ).entries;
      es[i].balance == Replay(es[..i + 1], es[i].account).Total()
  {
    hide Apply, Replay;
    var es := Post(l, a, b, amount, typ).entries;
    if i < |l.entries| {
      assert es[..i + 1] == l.entries[..i + 1];
    } else {
      assert es[..i + 1] == es;
      PostReplays(l, a, b, amount, typ, a);
    }
  }

  lemma PostReconciles(l: Led, a: Account, b: Balance, amount: int, typ: EntryType)
    requires Reconciled(l) && b == Apply(Get(l, a), amount, typ)
    requires b.available >= 0 && b.frozen >= 0
    ensures Reconciled(Post(l, a, b, amount, typ))
  {
    hide Apply, Replay;
    var l' := Post(l, a, b, amount, typ);
    forall x
      ensures Get(l', x) == Replay(l'.entries, x)
    {
      PostReplays(l, a, b, amount, typ, x);
    }
    forall i | 0 <= i < |l'.entries|
      ensures l'.entries[i].balance == Replay(l'.entries[..i + 1], l'.entries[i].account).Total()
    {
      PostTotals(l, a, b, amount, typ, i);
    }
    forall x
      ensures Get(l', x).available >= 0 && Get(l', x).frozen >= 0
    {
      NonNegative(l, x);
    }
  }

  lemma EnsureReconciles(l: Led, a: Account)
    requires Reconciled(l)
    ensures Reconciled(Ensure(l, a))
  {
  }

  datatype Op =
    | DepositOp(account: Account, qty: int)
    | FreezeOp(account: Account, qty: int)
    | UnfreezeOp(account: Account, qty: int)
    | ConsumeOp(account: Account, qty: int)
    | SettleOp(trade: Trade, base: string, quote: string)

  function Perform(l: Led, op: Op): Led {
    match op
    case DepositOp(a, q) => Deposit(l, a, q).0
    case FreezeOp(a, q) => Freeze(l, a, q).0
    case UnfreezeOp(a, q) => Unfreeze(l, a, q).0
    case ConsumeOp(a, q) => ConsumeFrozen(l, a, q).0
    case SettleOp(t, base, quote) => SettleTrade(l, t, base, quote).0
  }

  function PerformAll(l: Led, ops: seq<Op>): Led
    decreases |ops|
  {
    if ops == [] then l else PerformAll(Perform(l, ops[0]), ops[1..])
  }

  /** Every operation keeps the books balanced, also one that fails half-way. */
  lemma StepReconciles(l: Led, op: Op)
    requires Reconciled(l) && (op.SettleOp? ==> op.trade.qty >= 0)
    ensures Reconciled(Perform(l, op))
  {
    hide Reconciled;
    match op
    case DepositOp(a, q) =>
      NonNegative(l, a);
      if q > 0 {
        PostReconciles(l, a, Apply(Get(l, a), q, Deposited), q, Deposited);
      }
    case FreezeOp(a, q) =>
      EnsureReconciles(l, a);
      NonNegative(l, a);
      if 0 < q <= Get(l, a).available {
        PostReconciles(l, a, Apply(Get(l, a), -q, Frozen), -q, Frozen);
      }
    case UnfreezeOp(a, q) =>
      EnsureReconciles(l, a);
      NonNegative(l, a);
      if 0 < q <= Get(l, a).frozen {
        PostReconciles(l, a, Apply(Get(l, a), q, Unfrozen), q, Unfrozen);
      }
    case ConsumeOp(a, q) =>
      EnsureReconciles(l, a);
      NonNegative(l, a);
      if 0 < q <= Get(l, a).frozen {
        PostReconciles(l, a, Apply(Get(l, a), -q, Withdrawn), -q, Withdrawn);
      }
    case SettleOp(t, base, quote) => SettleReconciles(l, t, base, quote);
  }

  lemma PayOutReconciles(l: Led, a: Account, qty: int)
    requires Reconciled(l) && 0 <= qty <= Get(l, a).frozen
    ensures Reconciled(PayOut(l, a, qty))
  {
    hide Reconciled;
    NonNegative(l, a);
    PostReconciles(l, a, Apply(Get(l, a), -qty, TradeOut), -qty, TradeOut);
  }

  lemma PayInReconciles(l: Led, a: Account, qty: int)
    requires Reconciled(l) && 0 <= qty
    ensures Reconciled(PayIn(l, a, qty))
  {
    hide Reconciled;
    NonNegative(l, a);
    PostReconciles(l, a, Apply(Get(l, a), qty, TradeIn), qty, TradeIn);
  }

  lemma SettleReconciles(l: Led, t: Trade, base: string, quote: string)
    requires Reconciled(l) && t.qty >= 0
    ensures Reconciled(SettleTrade(l, t, base, quote).0)
  {
    hide Reconciled, PayIn, PayOut;
    var cost := PriceQtyToQuote(t.price, t.qty);
    var buyer := if t.takerSide.Buy? then t.takerUser else t.makerUser;
    var seller := if t.takerSide.Buy? then t.makerUser else t.takerUser;
    if cost.Some? && buyer != seller {
      EnsureReconciles(l, Account(buyer, quote));
      if Get(l, Account(buyer, quote)).frozen >= cost.value {
        PayOutReconciles(l, Account(buyer, quote), cost.value);
        var l0 := PayOut(l, Account(buyer, quote), cost.value);
        PayInReconciles(l0, Account(buyer, base), t.qty);
        var l1 := PayIn(l0, Account(buyer, base), t.qty);
        EnsureReconciles(l1, Account(seller, base));
        if Get(l1, Account(seller, base)).frozen >= t.qty {
          PayOutReconciles(l1, Account(seller, base), t.qty);
          PayInReconciles(PayOut(l1, Account(seller, base), t.qty), Account(seller, quote), cost.value);
        }
      }
    }
  }

  /** From an empty ledger, any sequence of operations leaves the books balanced. */
  lemma {:induction false} RunReconciles(l: Led, ops: seq<Op>)
    requires Reconciled(l)
    requires forall i :: 0 <= i < |ops| && ops[i].SettleOp? ==> ops[i].trade.qty >= 0
    ensures Reconciled(PerformAll(l, ops))
    decreases |ops|
  {
    if ops != [] {
      StepReconciles(l, ops[0]);
      assert forall i :: 0 <= i < |ops[1..]| ==> ops[1..][i] == ops[i + 1];
      RunReconciles(Perform(l, ops[0]), ops[1..]);
    }
  }
}
