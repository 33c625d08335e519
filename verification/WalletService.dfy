/**
 The wallet service as the program runs it, over the asset service it shares with the
 order service. What the chain adapter answers is a parameter. Every method is proved to
 take the exchange where the functions of `Exchange` say.
 */
module WalletService {
  import opened Wrappers
  import opened Domain
  import opened Ledger
  import opened Exchange
  import opened AssetService

  class WalletService {
    const assets: AssetService
    const coins: map<string, Coin>
    var withdrawals: map<nat, Withdrawal>
    var lastWithdrawal: nat
    var credited: set<(string, string)>

    constructor (assets: AssetService, coins: map<string, Coin>)
      ensures this.assets == assets && this.coins == coins
      ensures withdrawals == map[] && lastWithdrawal == 0 && credited == {}
    {
      this.assets, this.coins := assets, coins;
      withdrawals, lastWithdrawal, credited := map[], 0, {};
    }

    /** The service and its ledger are where the state `x` says. */
    ghost predicate At(x: Ex)
      reads this, assets, assets.Cells()
    {
      && coins == x.coins && withdrawals == x.withdrawals && lastWithdrawal == x.lastWithdrawal
      && credited == x.credited && assets.Valid() && assets.Abs() == x.led
    }

    /** `CreditDeposit`: mark the transaction first, then deposit. */
    method CreditDeposit(user: string, asset: string, amount: int, tx: string, ghost x: Ex) returns (err: Option<Error>)
      requires At(x)
      modifies this`credited, assets, assets.Cells()
      ensures At(Credit(x, user, asset, amount, tx).0) && err == Credit(x, user, asset, amount, tx).1
      ensures fresh(assets.Cells() - old(assets.Cells()))
    {
      hide AssetService.Valid, AssetService.Abs, Ledger.Deposit;
      if (tx, asset) in credited {
        return None;
      }
      credited := credited + {(tx, asset)};
      err := assets.Deposit(Account(user, asset), amount);
    }

    /** The two freezes of a submission. */
    method FreezeBoth(a: Account, amount: int, fee: int) returns (err: Option<Error>)
      requires assets.Valid()
      modifies assets, assets.Cells()
      ensures assets.Valid() && fresh(assets.Cells() - old(assets.Cells()))
      ensures (assets.Abs(), err) == Exchange.FreezeBoth(old(assets.Abs()), a, amount, fee)
    {
      hide AssetService.Valid, AssetService.Abs, Ledger.Freeze, Ledger.Unfreeze;
      err := assets.Freeze(a, amount);
      if err.Some? {
        return;
      }
      if fee > 0 {
        err := assets.Freeze(a, fee);
        if err.Some? {
          var ignored := assets.Unfreeze(a, amount);
        }
      }
    }

    /** `SubmitWithdrawal`. */
    method Submit(user: string, asset: string, address: string, amount: int,
        ghost x: Ex) returns (r: Result<nat, Error>)
      requires At(x)
      modifies this`withdrawals, this`lastWithdrawal, assets, assets.Cells()
      ensures var (x', answer) := SubmitWithdrawal(x, user, asset, address, amount); At(x') && r == answer
      ensures fresh(assets.Cells() - old(assets.Cells()))
    {
      hide AssetService.Valid, AssetService.Abs, Exchange.FreezeBoth;
      if asset !in coins {
        return Err(SymbolNotFound);
      }
      var coin := coins[asset];
      if !coin.enabled {
        return Err(InvalidOrder);
      }
      if amount < coin.minWithdraw {
        return Err(InsufficientNotional);
      }
      if address == "" {
        return Err(InvalidOrder);
      }
      var err := FreezeBoth(Account(user, asset), amount, coin.fee);
      if err.Some? {
        return Err(err.value);
      }
      lastWithdrawal := lastWithdrawal + 1;
      withdrawals := withdrawals[lastWithdrawal := Withdrawal(user, asset, amount, coin.fee, Pending, "")];
      return Ok(lastWithdrawal);
    }

    /** `ApproveWithdrawal`: sign and broadcast, then consume what was frozen. */
    method ApproveWithdrawal(id: nat, answer: Chain, ghost x: Ex) returns (r: Result<nat, Error>)
      requires At(x)
      modifies this`withdrawals, assets, assets.Cells()
      ensures At(Approve(x, id, answer).0) && r == Approve(x, id, answer).1
      ensures fresh(assets.Cells() - old(assets.Cells()))
    {
      hide AssetService.Valid, AssetService.Abs, Ledger.ConsumeFrozen;
      if id !in withdrawals {
        return Err(OrderNotFound);
      }
      var w := withdrawals[id];
      if !w.stage.Pending? {
        return Err(NotPending);
      }
      if w.asset !in coins || !coins[w.asset].adapter {
        return Err(NoAdapter);
      }
      if !answer.Sent? {
        return Err(AdapterFailed);
      }
      withdrawals := withdrawals[id := w.(stage := Broadcast, hash := answer.hash)];
      var a := Account(w.user, w.asset);
      var err := assets.ConsumeFrozen(a, w.amount);
      if err.Some? {
        return Err(err.value);
      }
      if w.fee > 0 {
        var ignored := assets.ConsumeFrozen(a, w.fee);
      }
      return Ok(id);
    }

    /** `RejectWithdrawal`: give amount and fee back. */
    method RejectWithdrawal(id: nat, ghost x: Ex) returns (r: Result<nat, Error>)
      requires At(x)
      modifies this`withdrawals, assets, assets.Cells()
      ensures At(Reject(x, id).0) && r == Reject(x, id).1
      ensures fresh(assets.Cells() - old(assets.Cells()))
    {
      hide AssetService.Valid, AssetService.Abs, Ledger.Unfreeze;
      if id !in withdrawals {
        return Err(OrderNotFound);
      }
      var w := withdrawals[id];
      if !w.stage.Pending? {
        return Err(NotPending);
      }
      var a := Account(w.user, w.asset);
      var ignored := assets.Unfreeze(a, w.amount);
      if w.fee > 0 {
        var ignoredToo := assets.Unfreeze(a, w.fee);
      }
      withdrawals := withdrawals[id := w.(stage := Declined)];
      return Ok(id);
    }

    /** `ConfirmWithdrawal`: a broadcast withdrawal with a confirmation is finished. */
    method ConfirmWithdrawal(id: nat, confirmations: Option<nat>, ghost x: Ex) returns (r: Result<nat, Error>)
      requires At(x)
      modifies this`withdrawals
      ensures At(Confirm(x, id, confirmations).0) && r == Confirm(x, id, confirmations).1
    {
      if id !in withdrawals {
        return Err(OrderNotFound);
      }
      var w := withdrawals[id];
      if !w.stage.Broadcast? || w.hash == "" {
        return Ok(id);
      }
      if confirmations.None? {
        return Err(AdapterFailed);
      }
      if confirmations.value > 0 {
        withdrawals := withdrawals[id := w.(stage := Succeeded)];
      }
      return Ok(id);
    }
  }
}
