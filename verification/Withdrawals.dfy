/**
 Withdrawals and deposits against the frozen pool that open orders share: a pending
 withdrawal keeps its amount and fee frozen until it is broadcast or declined.
 */
module Withdrawals {
  import opened Wrappers
  import opened EngineModel
  import opened Domain
  import opened Ledger
  import opened LedgerMoves
  import opened Settlement
  import opened Exchange
  import opened Solvency
  import opened Sums

  lemma PoolFollows(x: Ex, led: Led, id: nat, w: Withdrawal)
    requires Pooled(x.led, x.purse, x.markets, x.withdrawals, x.loose)
    requires forall a :: (Get(led, a).frozen == Get(x.led, a).frozen + ReservedIn(a)(id, w)
      - if id in x.withdrawals then ReservedIn(a)(id, x.withdrawals[id]) else 0)
    ensures Pooled(led, x.purse, x.markets, x.withdrawals[id := w], x.loose)
  {
    forall a
      ensures Slack(led, x.purse, x.markets, a) == Sum(x.withdrawals[id := w], ReservedIn(a)) + LooseIn(x.loose, a)
    {
      SumWrite(x.withdrawals, ReservedIn(a), id, w);
      assert Slack(x.led, x.purse, x.markets, a) == Sum(x.withdrawals, ReservedIn(a)) + LooseIn(x.loose, a);
    }
  }

  /** The withdrawal state changes with the frozen funds that pay for it. */
  lemma WalletKeeps(x: Ex, led: Led, id: nat, w: Withdrawal, last: nat)
    requires Inv(x) && LedgerOk(led) && id <= last && x.lastWithdrawal <= last
    requires w.stage.Pending? ==> w.amount > 0
    requires forall a :: (Get(led, a).frozen == Get(x.led, a).frozen + ReservedIn(a)(id, w)
      - if id in x.withdrawals then ReservedIn(a)(id, x.withdrawals[id]) else 0)
    ensures Inv(x.(led := led, withdrawals := x.withdrawals[id := w], lastWithdrawal := last))
  {
    hide LedgerOk, HeldOk, BooksBacked, EngOk, Pooled, ReservedIn, Get;
    PoolFollows(x, led, id, w);
  }

  /** Movements of available funds alone. */
  lemma LedgerKeeps(x: Ex, led: Led)
    requires Inv(x) && LedgerOk(led)
    requires forall a :: Get(led, a).frozen == Get(x.led, a).frozen
    ensures Inv(x.(led := led))
  {
    hide LedgerOk, HeldOk, BooksBacked, WithdrawalsOk, ShapeOk, Pooled, Get;
    SameFrozen(x, led);
    ShapeFree(x, led);
  }

  lemma SameFrozen(x: Ex, led: Led)
    requires Pooled(x.led, x.purse, x.markets, x.withdrawals, x.loose)
    requires forall a :: Get(led, a).frozen == Get(x.led, a).frozen
    ensures Pooled(led, x.purse, x.markets, x.withdrawals, x.loose)
  {
    forall a
      ensures Slack(led, x.purse, x.markets, a) == Sum(x.withdrawals, ReservedIn(a)) + LooseIn(x.loose, a)
    {
      assert Slack(x.led, x.purse, x.markets, a) == Sum(x.withdrawals, ReservedIn(a)) + LooseIn(x.loose, a);
    }
  }

  lemma ShapeFree(x: Ex, led: Led)
    requires ShapeOk(x)
    ensures ShapeOk(x.(led := led))
  {
    hide EngOk;
  }

  lemma DepositFacts(led: Led, a: Account, qty: int)
    requires LedgerOk(led)
    ensures LedgerOk(Deposit(led, a, qty).0)
    ensures forall b :: Get(Deposit(led, a, qty).0, b).frozen == Get(led, b).frozen
  {
    OpKeepsBooks(led, DepositOp(a, qty));
    BooksKept(led, Deposit(led, a, qty).0);
  }

  lemma UnfreezeFacts(led: Led, a: Account, qty: int)
    requires LedgerOk(led)
    ensures var (led', err) := Unfreeze(led, a, qty);
      && LedgerOk(led')
      && (err.None? <==> 0 < qty <= Get(led, a).frozen)
      && (forall b :: Get(led', b) == if b == a && err.None?
            then Balance(Get(led, b).available + qty, Get(led, b).frozen - qty) else Get(led, b))
  {
    OpKeepsBooks(led, UnfreezeOp(a, qty));
    BooksKept(led, Unfreeze(led, a, qty).0);
  }

  lemma ConsumeFacts(led: Led, a: Account, qty: int)
    requires LedgerOk(led)
    ensures var (led', err) := ConsumeFrozen(led, a, qty);
      && LedgerOk(led')
      && (err.None? <==> 0 < qty <= Get(led, a).frozen)
      && (forall b :: Get(led', b) == if b == a && err.None?
            then Balance(Get(led, b).available, Get(led, b).frozen - qty) else Get(led, b))
  {
    OpKeepsBooks(led, ConsumeOp(a, qty));
    BooksKept(led, ConsumeFrozen(led, a, qty).0);
  }

  /** Frozen funds cover any one pending withdrawal. */
  lemma PoolCoversWithdrawal(x: Ex, id: nat)
    requires Inv(x) && id in x.withdrawals
    ensures Get(x.led, Account(x.withdrawals[id].user, x.withdrawals[id].asset)).frozen >= x.withdrawals[id].Reserved()
    ensures Get(x.led, Account(x.withdrawals[id].user, x.withdrawals[id].asset)).frozen >= 0
  {
    hide BooksBacked;
    var w := x.withdrawals[id];
    var a := Account(w.user, w.asset);
    assert Slack(x.led, x.purse, x.markets, a) == Sum(x.withdrawals, ReservedIn(a)) + LooseIn(x.loose, a);
    SumCovers(x.purse, HeldIn(x.markets, a));
    SumCovers(x.withdrawals, ReservedIn(a));
    assert ReservedIn(a)(id, w) == w.Reserved();
  }

  // ---- submitting ----

  lemma FrozenAtLeast(led: Led, a: Account)
    requires LedgerOk(led)
    ensures Get(led, a).frozen >= 0
  {
  }

  /** What a request is told before its funds are looked at. */
  ghost predicate Requestable(x: Ex, asset: string, address: string, amount: int) {
    && asset in x.coins && x.coins[asset].enabled && amount >= x.coins[asset].minWithdraw && address != ""
  }

  /** What a withdrawal keeps frozen until it is decided. */
  function Reservation(amount: int, fee: int): int { amount + if fee > 0 then fee else 0 }

  lemma FreezesBoth(led: Led, a: Account, amount: int, fee: int)
    requires LedgerOk(led)
    ensures var (led', err) := FreezeBoth(led, a, amount, fee);
      && LedgerOk(led')
      && (err.None? <==> 0 < amount && Reservation(amount, fee) <= Get(led, a).available)
      && (err.None? ==> Shifted(led, led', a, -Reservation(amount, fee), Reservation(amount, fee)))
      && (err.Some? ==> err.value == if amount <= 0 then InvalidOrder else InsufficientFunds)
      && (err.Some? ==> forall b :: Get(led', b) == Get(led, b))
  {
    hide LedgerOk, Freeze, Unfreeze, Get, Entered;
    FrozenAtLeast(led, a);
    FreezeExact(led, a, amount);
    FreezeFacts(led, a, amount);
    var (l1, e1) := Freeze(led, a, amount);
    FreezeExact(l1, a, fee);
    FreezeFacts(l1, a, fee);
    var l2 := if fee > 0 then Freeze(l1, a, fee).0 else l1;
    UnfreezeExact(l2, a, amount);
    UnfreezeFacts(l2, a, amount);
  }

  /** A withdrawal request freezes its amount and fee, or leaves all funds alone. */
  lemma SubmitKeeps(x: Ex, user: string, asset: string, address: string, amount: int)
    requires Inv(x)
    ensures Inv(SubmitWithdrawal(x, user, asset, address, amount).0)
    ensures var (x', r) := SubmitWithdrawal(x, user, asset, address, amount);
      if r.Ok? then
        && r.value !in x.withdrawals && asset in x.coins
        && x'.withdrawals == x.withdrawals[r.value := Withdrawal(user, asset, amount, x.coins[asset].fee, Pending, "")]
      else x'.withdrawals == x.withdrawals && forall a :: Get(x'.led, a) == Get(x.led, a)
  {
    hide Inv, FreezeBoth, LedgerOk, Get;
    if asset in x.coins {
      var fee := x.coins[asset].fee;
      LedgerOkIn(x);
      FreezesBoth(x.led, Account(user, asset), amount, fee);
      var (led, err) := FreezeBoth(x.led, Account(user, asset), amount, fee);
      if err.Some? {
        LedgerKeeps(x, led);
      } else {
        NewWithdrawal(x);
        var w := Withdrawal(user, asset, amount, fee, Pending, "");
        WalletKeeps(x, led, x.lastWithdrawal + 1, w, x.lastWithdrawal + 1);
      }
    }
  }

  /**
   A request goes through exactly if it is acceptable and amount and fee are available
   together. They are then frozen and the request is stored under a new number; otherwise it
   is told why, and no balance and no request changes.
   */
  lemma SubmitExact(x: Ex, user: string, asset: string, address: string, amount: int)
    requires Inv(x)
    ensures var (x', r) := SubmitWithdrawal(x, user, asset, address, amount);
      var a := Account(user, asset);
      if Requestable(x, asset, address, amount) then
        var fee := x.coins[asset].fee;
        var all := Reservation(amount, fee);
        if 0 < amount && all <= Get(x.led, a).available then
          && r == Ok(x.lastWithdrawal + 1) && x'.lastWithdrawal == x.lastWithdrawal + 1
          && x'.withdrawals
               == x.withdrawals[x.lastWithdrawal + 1 := Withdrawal(user, asset, amount, fee, Pending, "")]
          && Shifted(x.led, x'.led, a, -all, all)
        else
          && r == Err(if amount <= 0 then InvalidOrder else InsufficientFunds)
          && x' == x.(led := x'.led) && forall b :: Get(x'.led, b) == Get(x.led, b)
      else
        && x' == x
        && r == Err(if asset !in x.coins then SymbolNotFound
                    else if x.coins[asset].enabled && amount < x.coins[asset].minWithdraw then InsufficientNotional
                    else InvalidOrder)
  {
    hide Inv, FreezeBoth, LedgerOk, Get, Shifted;
    LedgerOkIn(x);
    if Requestable(x, asset, address, amount) {
      var fee := x.coins[asset].fee;
      FreezesBoth(x.led, Account(user, asset), amount, fee);
      var (led, err) := FreezeBoth(x.led, Account(user, asset), amount, fee);
      assert SubmitWithdrawal(x, user, asset, address, amount).1 ==
        if err.Some? then Err(err.value) else Ok(x.lastWithdrawal + 1);
    }
  }

  lemma NewWithdrawal(x: Ex)
    requires Inv(x)
    ensures x.lastWithdrawal + 1 !in x.withdrawals
  {
  }

  // ---- deciding ----

  /** Consuming a reservation in its two parts takes all of it from the frozen funds. */
  lemma ConsumeBoth(led: Led, a: Account, amount: int, fee: int)
    requires LedgerOk(led) && amount > 0
    requires Get(led, a).frozen >= amount + if fee > 0 then fee else 0
    ensures var (l1, err) := ConsumeFrozen(led, a, amount);
      var l2 := if fee > 0 then ConsumeFrozen(l1, a, fee).0 else l1;
      && err.None? && LedgerOk(l2)
      && forall b :: (Get(l2, b) == if b == a
           then Balance(Get(led, a).available, Get(led, a).frozen - amount - if fee > 0 then fee else 0)
           else Get(led, b))
  {
    ConsumeFacts(led, a, amount);
    var l1 := ConsumeFrozen(led, a, amount).0;
    ConsumeFacts(l1, a, fee);
    hide LedgerOk;
  }

  /** Giving a reservation back in its two parts makes all of it available. */
  lemma UnfreezeBoth(led: Led, a: Account, amount: int, fee: int)
    requires LedgerOk(led) && amount > 0
    requires Get(led, a).frozen >= amount + if fee > 0 then fee else 0
    ensures var l1 := Unfreeze(led, a, amount).0;
      var l2 := if fee > 0 then Unfreeze(l1, a, fee).0 else l1;
      var back := amount + if fee > 0 then fee else 0;
      && LedgerOk(l2)
      && forall b :: (Get(l2, b) == if b == a
           then Balance(Get(led, a).available + back, Get(led, a).frozen - back) else Get(led, b))
  {
    UnfreezeFacts(led, a, amount);
    var l1 := Unfreeze(led, a, amount).0;
    UnfreezeFacts(l1, a, fee);
    hide LedgerOk;
  }

  lemma PendingAmount(x: Ex, id: nat)
    requires Inv(x) && id in x.withdrawals && x.withdrawals[id].stage.Pending?
    ensures x.withdrawals[id].amount > 0 && id <= x.lastWithdrawal
  {
  }

  /** A withdrawal's reservation left the frozen funds, `back` of it for the available ones. */
  ghost predicate Drawn(led: Led, led': Led, w: Withdrawal, back: int) {
    forall b :: (Get(led', b) == if b == Account(w.user, w.asset)
      then Balance(Get(led, b).available + back, Get(led, b).frozen - w.Reserved()) else Get(led, b))
  }

  /**
   Approving never fails for want of funds: once the transaction is out, amount and fee
   leave the frozen funds. Any other answer leaves the exchange as it was.
   */
  lemma ApproveKeeps(x: Ex, id: nat, answer: Chain)
    requires Inv(x)
    ensures var (x', r) := Approve(x, id, answer);
      && Inv(x') && (r.Err? ==> x' == x)
      && (r.Ok? ==> && id in x.withdrawals && x.withdrawals[id].stage.Pending?
                    && x'.withdrawals == x.withdrawals[id := x'.withdrawals[id]] && x'.withdrawals[id].stage.Broadcast?
                    && Drawn(x.led, x'.led, x.withdrawals[id], 0))
  {
    hide Inv, ConsumeFrozen, LedgerOk;
    if id in x.withdrawals && x.withdrawals[id].stage.Pending? {
      var w := x.withdrawals[id];
      LedgerOkIn(x);
      PendingAmount(x, id);
      PoolCoversWithdrawal(x, id);
      ConsumeBoth(x.led, Account(w.user, w.asset), w.amount, w.fee);
      var x' := Approve(x, id, answer).0;
      if w.asset in x.coins && x.coins[w.asset].adapter && answer.Sent? {
        WalletKeeps(x, x'.led, id, x'.withdrawals[id], x.lastWithdrawal);
        assert x' == x.(led := x'.led, withdrawals := x.withdrawals[id := x'.withdrawals[id]],
        lastWithdrawal := x.lastWithdrawal);
      }
    }
  }

  /** The request is pending, and the adapter of its chain sent the transaction. */
  ghost predicate Sends(x: Ex, id: nat, answer: Chain) {
    && id in x.withdrawals && x.withdrawals[id].stage.Pending?
    && x.withdrawals[id].asset in x.coins && x.coins[x.withdrawals[id].asset].adapter && answer.Sent?
  }

  /**
   An approval marks its request as broadcast, with the hash of the transaction, exactly if it
   was pending and was sent; otherwise it is told why, and nothing changes. What it then takes
   out of the frozen funds is the amount, if they hold it, and with it the fee, if they still
   hold that.
   */
  lemma ApproveExact(x: Ex, id: nat, answer: Chain)
    ensures var (x', r) := Approve(x, id, answer);
      if !Sends(x, id, answer) then
        && x' == x
        && r == Err(if id !in x.withdrawals then OrderNotFound
                    else if !x.withdrawals[id].stage.Pending? then NotPending
                    else if x.withdrawals[id].asset in x.coins && x.coins[x.withdrawals[id].asset].adapter
                    then AdapterFailed
                    else NoAdapter)
      else
        var w := x.withdrawals[id];
        var a := Account(w.user, w.asset);
        && x' == x.(led := x'.led,
                    withdrawals := x.withdrawals[id := w.(stage := Broadcast, hash := answer.hash)])
        && (r.Ok? <==> 0 < w.amount <= Get(x.led, a).frozen) && (r.Ok? ==> r.value == id)
        && (r.Err? ==> Untouched(x.led, x'.led))
        && (r.Ok? ==> Shifted(x.led, x'.led, a, 0,
              if 0 < w.fee <= Get(x.led, a).frozen - w.amount then -w.amount - w.fee else -w.amount))
  {
    hide ConsumeFrozen, Entered, Get;
    if Sends(x, id, answer) {
      var w := x.withdrawals[id];
      var a := Account(w.user, w.asset);
      ConsumeExact(x.led, a, w.amount);
      ConsumeExact(ConsumeFrozen(x.led, a, w.amount).0, a, w.fee);
    }
  }

  /** Declining gives amount and fee back, in full. */
  lemma RejectKeeps(x: Ex, id: nat)
    requires Inv(x)
    ensures var (x', r) := Reject(x, id);
      && Inv(x') && (r.Err? ==> x' == x)
      && (r.Ok? ==> && id in x.withdrawals && x.withdrawals[id].stage.Pending?
                    && x'.withdrawals == x.withdrawals[id := x.withdrawals[id].(stage := Declined)]
                    && Drawn(x.led, x'.led, x.withdrawals[id], x.withdrawals[id].Reserved()))
  {
    hide Inv, Unfreeze, LedgerOk;
    if id in x.withdrawals && x.withdrawals[id].stage.Pending? {
      var w := x.withdrawals[id];
      LedgerOkIn(x);
      PendingAmount(x, id);
      PoolCoversWithdrawal(x, id);
      UnfreezeBoth(x.led, Account(w.user, w.asset), w.amount, w.fee);
      var x' := Reject(x, id).0;
      WalletKeeps(x, x'.led, id, x'.withdrawals[id], x.lastWithdrawal);
      assert x' == x.(led := x'.led, withdrawals := x.withdrawals[id := x'.withdrawals[id]],
        lastWithdrawal := x.lastWithdrawal);
    }
  }

  /** What giving an amount back adds to the available funds, if the frozen ones hold it. */
  function GivenBack(frozen: int, amount: int): int { if 0 < amount <= frozen then amount else 0 }

  /**
   A rejection goes through exactly for a pending request, and gives back its amount and its
   fee, each if the frozen funds still hold it.
   */
  lemma RejectExact(x: Ex, id: nat)
    ensures var (x', r) := Reject(x, id);
      if id !in x.withdrawals then (x', r) == (x, Err(OrderNotFound))
      else
        var w := x.withdrawals[id];
        if !w.stage.Pending? then (x', r) == (x, Err(NotPending))
        else
          var a := Account(w.user, w.asset);
          var back := GivenBack(Get(x.led, a).frozen, w.amount);
          var all := back + GivenBack(Get(x.led, a).frozen - back, w.fee);
          && r == Ok(id) && Shifted(x.led, x'.led, a, all, -all)
          && x' == x.(led := x'.led, withdrawals := x.withdrawals[id := w.(stage := Declined)])
  {
    hide Unfreeze, Entered, Get;
    if id in x.withdrawals {
      var w := x.withdrawals[id];
      var a := Account(w.user, w.asset);
      UnfreezeExact(x.led, a, w.amount);
      UnfreezeExact(Unfreeze(x.led, a, w.amount).0, a, w.fee);
    }
  }

  /** Exactly which confirmations finish a withdrawal: those of a transaction that was sent and has been confirmed. */
  ghost predicate Confirmed(x: Ex, id: nat, confirmations: Option<nat>) {
    && id in x.withdrawals && x.withdrawals[id].stage.Broadcast? && x.withdrawals[id].hash != ""
    && confirmations.Some? && confirmations.value > 0
  }

  lemma ConfirmExact(x: Ex, id: nat, confirmations: Option<nat>)
    ensures var (x', r) := Confirm(x, id, confirmations);
      && x' == (if Confirmed(x, id, confirmations)
                then x.(withdrawals := x.withdrawals[id := x.withdrawals[id].(stage := Succeeded)]) else x)
      && (r.Err? <==> (id in x.withdrawals ==>
            x.withdrawals[id].stage.Broadcast? && x.withdrawals[id].hash != "" && confirmations.None?))
      && (r.Ok? ==> r.value == id)
      && (r.Err? ==> r.error == if id in x.withdrawals then AdapterFailed else OrderNotFound)
  {
  }

  /** Confirmation only ever turns a broadcast withdrawal into a finished one. */
  lemma ConfirmKeeps(x: Ex, id: nat, confirmations: Option<nat>)
    requires Inv(x)
    ensures var (x', r) := Confirm(x, id, confirmations);
      && Inv(x') && x'.led == x.led
      && (x'.withdrawals != x.withdrawals ==>
            && id in x.withdrawals && x.withdrawals[id].stage.Broadcast? && confirmations.Some?
            && confirmations.value > 0
            && x'.withdrawals == x.withdrawals[id := x.withdrawals[id].(stage := Succeeded)])
  {
    hide Inv;
    if id in x.withdrawals && x.withdrawals[id].stage.Broadcast? {
      LedgerOkIn(x);
      KnownWithdrawal(x, id);
      var w' := x.withdrawals[id].(stage := Succeeded);
      WalletKeeps(x, x.led, id, w', x.lastWithdrawal);
      assert x.(led := x.led, withdrawals := x.withdrawals[id := w'], lastWithdrawal := x.lastWithdrawal)
          == x.(withdrawals := x.withdrawals[id := w']);
    }
  }

  lemma KnownWithdrawal(x: Ex, id: nat)
    requires Inv(x) && id in x.withdrawals
    ensures id <= x.lastWithdrawal
  {
  }

  // ---- deposits ----

  lemma DepositKeeps(x: Ex, a: Account, qty: int)
    requires Inv(x)
    ensures Inv(x.(led := Deposit(x.led, a, qty).0))
  {
    hide Inv, Deposit, LedgerOk;
    LedgerOkIn(x);
    DepositFacts(x.led, a, qty);
    LedgerKeeps(x, Deposit(x.led, a, qty).0);
  }

  lemma CreditFree(x: Ex, credited: set<(string, string)>)
    requires Inv(x)
    ensures Inv(x.(credited := credited))
  {
    hide EngOk, LedgerOk, BooksBacked, HeldOk, Pooled;
  }

  lemma CreditKeeps(x: Ex, user: string, asset: string, amount: int, tx: string)
    requires Inv(x)
    ensures Inv(Credit(x, user, asset, amount, tx).0)
  {
    hide Inv, Deposit;
    DepositKeeps(x, Account(user, asset), amount);
    CreditFree(x.(led := Deposit(x.led, Account(user, asset), amount).0), x.credited + {(tx, asset)});
  }
}
