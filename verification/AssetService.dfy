/**
 The asset ledger service as the program keeps it: one balance object per account, updated
 in place, and an append-only list of entries. Every operation is proved to do what its
 function in `Ledger` says.
 */
module AssetService {
  import opened Wrappers
  import opened Domain
  import opened FixedPoint
  import opened Ledger

  lemma PostEnsured(l: Led, a: Account, b: Balance, amount: int, typ: EntryType)
    ensures Post(Ensure(l, a), a, b, amount, typ) == Post(l, a, b, amount, typ)
  {
  }

  class Cell {
    var available: int
    var frozen: int

    constructor ()
      ensures available == 0 && frozen == 0
    {
      available, frozen := 0, 0;
    }

    function Value(): Balance
      reads this
    {
      Balance(available, frozen)
    }
  }

  function CellsOf(m: map<Account, Cell>): set<Cell> {
    set a | a in m :: m[a]
  }

  lemma CellsGrow(m: map<Account, Cell>, a: Account, b: Cell)
    requires a !in m
    ensures CellsOf(m[a := b]) == CellsOf(m) + {b}
  {
    var m' := m[a := b];
    forall x | x in m
      ensures m[x] in CellsOf(m')
    {
      assert m'[x] == m[x];
    }
    assert m'[a] == b;
  }

  class AssetService {
    var cells: map<Account, Cell>
    var entries: seq<Entry>

    ghost function Cells(): set<Cell>
      reads this
    {
      CellsOf(cells)
    }

    /** No two accounts share a balance object. */
    ghost predicate Valid()
      reads this
    {
      forall a, b :: a in cells && b in cells && a != b ==> cells[a] != cells[b]
    }

    ghost function Abs(): Led
      reads this, Cells()
    {
      Led(map a | a in cells :: cells[a].Value(), entries)
    }

    constructor ()
      ensures Valid() && Abs() == EMPTY && Cells() == {}
    {
      cells, entries := map[], [];
    }

    /** `get`: a copy of the balance, zero when there is none. */
    method GetBalance(a: Account) returns (b: Balance)
      ensures b == Get(Abs(), a)
    {
      if a in cells {
        return cells[a].Value();
      }
      return ZERO;
    }

    /** `ensure`: the balance object of an account, created on first use. */
    method EnsureCell(a: Account) returns (b: Cell)
      requires Valid()
      modifies this`cells
      ensures Valid() && a in cells && cells[a] == b && entries == old(entries)
      ensures b in old(Cells()) || fresh(b)
      ensures Cells() == old(Cells()) + {b}
      ensures Abs() == Ensure(old(Abs()), a)
      ensures b.Value() == Get(old(Abs()), a)
    {
      if a in cells {
        b := cells[a];
        assert Cells() == Cells() + {b};
        return;
      }
      ghost var before := Cells();
      b := new Cell();
      cells := cells[a := b];
      CellsGrow(old(cells), a, b);
      assert Abs().accounts == old(Abs()).accounts[a := ZERO];
    }

    /** `entry`: append one line stating the account's total after the movement. */
    method Append(a: Account, amount: int, typ: EntryType)
      modifies this`entries
      ensures cells == old(cells)
      ensures Abs() == Led(old(Abs()).accounts,
        old(Abs()).entries + [Entry(a, amount, Get(old(Abs()), a).Total(), typ)])
    {
      var b := GetBalance(a);
      entries := entries + [Entry(a, amount, b.available + b.frozen, typ)];
    }

    /** Move one account's balance and record the movement. */
    method Move(a: Account, b: Cell, available: int, frozen: int, amount: int, typ: EntryType)
      requires Valid() && a in cells && cells[a] == b
      modifies this`entries, b
      ensures Valid() && cells == old(cells)
      ensures Abs() == Post(old(Abs()), a, Balance(available, frozen), amount, typ)
    {
      b.available, b.frozen := available, frozen;
      assert forall x :: x in cells && x != a ==> cells[x] != b;
      assert Abs().accounts == old(Abs()).accounts[a := Balance(available, frozen)];
      Append(a, amount, typ);
    }

    method Deposit(a: Account, qty: int) returns (err: Option<Error>)
      requires Valid()
      modifies this, Cells()
      ensures Valid() && fresh(Cells() - old(Cells()))
      ensures (Abs(), err) == Ledger.Deposit(old(Abs()), a, qty)
    {
      hide Valid;
      if qty <= 0 {
        return Some(InvalidOrder);
      }
      var b := EnsureCell(a);
      PostEnsured(old(Abs()), a, Balance(b.available + qty, b.frozen), qty, Deposited);
      Move(a, b, b.available + qty, b.frozen, qty, Deposited);
      return None;
    }

    method Freeze(a: Account, qty: int) returns (err: Option<Error>)
      requires Valid()
      modifies this, Cells()
      ensures Valid() && fresh(Cells() - old(Cells()))
      ensures (Abs(), err) == Ledger.Freeze(old(Abs()), a, qty)
    {
      hide Valid;
      if qty <= 0 {
        return Some(InvalidOrder);
      }
      var b := EnsureCell(a);
      if b.available < qty {
        return Some(InsufficientFunds);
      }
      PostEnsured(old(Abs()), a, Balance(b.available - qty, b.frozen + qty), -qty, Frozen);
      Move(a, b, b.available - qty, b.frozen + qty, -qty, Frozen);
      return None;
    }

    method Unfreeze(a: Account, qty: int) returns (err: Option<Error>)
      requires Valid()
      modifies this, Cells()
      ensures Valid() && fresh(Cells() - old(Cells()))
      ensures (Abs(), err) == Ledger.Unfreeze(old(Abs()), a, qty)
    {
      hide Valid;
      if qty <= 0 {
        return Some(InvalidOrder);
      }
      var b := EnsureCell(a);
      if b.frozen < qty {
        return Some(InsufficientFunds);
      }
      PostEnsured(old(Abs()), a, Balance(b.available + qty, b.frozen - qty), qty, Unfrozen);
      Move(a, b, b.available + qty, b.frozen - qty, qty, Unfrozen);
      return None;
    }

    method ConsumeFrozen(a: Account, qty: int) returns (err: Option<Error>)
      requires Valid()
      modifies this, Cells()
      ensures Valid() && fresh(Cells() - old(Cells()))
      ensures (Abs(), err) == Ledger.ConsumeFrozen(old(Abs()), a, qty)
    {
      hide Valid;
      if qty <= 0 {
        return Some(InvalidOrder);
      }
      var b := EnsureCell(a);
      if b.frozen < qty {
        return Some(InsufficientFunds);
      }
      PostEnsured(old(Abs()), a, Balance(b.available, b.frozen - qty), -qty, Withdrawn);
      Move(a, b, b.available, b.frozen - qty, -qty, Withdrawn);
      return None;
    }

    /** Pay out of an account's frozen funds, if they cover it. */
    method PayLeg(a: Account, qty: int) returns (ok: bool)
      requires Valid()
      modifies this, Cells()
      ensures Valid() && fresh(Cells() - old(Cells()))
      ensures ok <==> Get(old(Abs()), a).frozen >= qty
      ensures Abs() == if ok then PayOut(old(Abs()), a, qty) else Ensure(old(Abs()), a)
    {
      hide Valid;
      var b := EnsureCell(a);
      if b.frozen < qty {
        return false;
      }
      PostEnsured(old(Abs()), a, Balance(b.available, b.frozen - qty), -qty, TradeOut);
      Move(a, b, b.available, b.frozen - qty, -qty, TradeOut);
      return true;
    }

    /** Receive into an account's available funds. */
    method EarnLeg(a: Account, qty: int)
      requires Valid()
      modifies this, Cells()
      ensures Valid() && fresh(Cells() - old(Cells()))
      ensures Abs() == PayIn(old(Abs()), a, qty)
    {
      hide Valid;
      var b := EnsureCell(a);
      PostEnsured(old(Abs()), a, Balance(b.available + qty, b.frozen), qty, TradeIn);
      Move(a, b, b.available + qty, b.frozen, qty, TradeIn);
    }

    /** The four legs of a trade, in the program's order: the buyer pays before the seller is checked. */
    method SettleTrade(t: Trade, base: string, quote: string) returns (err: Option<Error>)
      requires Valid()
      modifies this, Cells()
      ensures Valid() && fresh(Cells() - old(Cells()))
      ensures (Abs(), err) == Ledger.SettleTrade(old(Abs()), t, base, quote)
    {
      hide Valid, Abs, PayIn, PayOut, Get;
      var cost := PriceQtyToQuote(t.price, t.qty);
      if cost.None? {
        return Some(InvalidAmount);
      }
      var buyer, seller := t.makerUser, t.takerUser;
      if t.takerSide.Buy? {
        buyer, seller := t.takerUser, t.makerUser;
      }
      if buyer == seller {
        return Some(InvalidOrder);
      }
      var paid := PayLeg(Account(buyer, quote), cost.value);
      if !paid {
        return Some(SettlementFailed);
      }
      EarnLeg(Account(buyer, base), t.qty);
      var delivered := PayLeg(Account(seller, base), t.qty);
      if !delivered {
        return Some(SettlementFailed);
      }
      EarnLeg(Account(seller, quote), cost.value);
      return None;
    }
  }
}
