/** Money is neither made nor lost: what all users own is what came in less what went out. */
module Conservation {
  import opened Domain
  import opened FixedPoint
  import opened Sums
  import opened Ledger

  function OwnedOf(asset: string): (Account, Balance) -> int {
    (a: Account, b: Balance) => if a.asset == asset then b.Total() else 0
  }

  /** Everything all users own of an asset, available and frozen. */
  ghost function Owned(l: Led, asset: string): int { Sum(l.accounts, OwnedOf(asset)) }

  /** Deposits less consumed withdrawals of an asset. */
  function External(es: seq<Entry>, asset: string): int {
    if es == [] then 0
    else
      var e := es[|es| - 1];
      External(es[..|es| - 1], asset)
      + if e.account.asset == asset && (e.typ.Deposited? || e.typ.Withdrawn?) then e.amount else 0
  }

  ghost predicate Conserved(l: Led) {
    forall asset :: Owned(l, asset) == External(l.entries, asset)
  }

  /** How far an asset is from being conserved. */
  ghost function Gap(l: Led, asset: string): int { Owned(l, asset) - External(l.entries, asset) }

  lemma PostGap(l: Led, a: Account, b: Balance, amount: int, typ: EntryType, asset: string)
    ensures Gap(Post(l, a, b, amount, typ), asset) == Gap(l, asset)
      + (if a.asset != asset then 0
         else b.Total() - Get(l, a).Total() - if typ.Deposited? || typ.Withdrawn? then amount else 0)
  {
    SumWrite(l.accounts, OwnedOf(asset), a, b);
    var l' := Post(l, a, b, amount, typ);
    assert l'.entries[..|l.entries|] == l.entries;
  }

  lemma EnsureGap(l: Led, a: Account, asset: string)
    ensures Gap(Ensure(l, a), asset) == Gap(l, asset)
  {
    if a !in l.accounts {
      SumWrite(l.accounts, OwnedOf(asset), a, ZERO);
    }
  }

  /** Deposits, freezes, unfreezes and consumed withdrawals conserve every asset. */
  lemma SimpleOpConserves(l: Led, op: Op)
    requires !op.SettleOp?
    ensures forall asset :: Gap(Perform(l, op), asset) == Gap(l, asset)
  {
    hide Gap, Perform;
    forall asset
      ensures Gap(Perform(l, op), asset) == Gap(l, asset)
    {
      OpGap(l, op, asset);
    }
  }

  lemma OpGap(l: Led, op: Op, asset: string)
    requires !op.SettleOp?
    ensures Gap(Perform(l, op), asset) == Gap(l, asset)
  {
    hide Gap, Get, Post, Ensure;
    var b, a, q := Get(l, op.account), op.account, op.qty;
    EnsureGap(l, a, asset);
    match op
    case DepositOp(_, _) => PostGap(l, a, Balance(b.available + q, b.frozen), q, Deposited, asset);
    case FreezeOp(_, _) => PostGap(l, a, Balance(b.available - q, b.frozen + q), -q, Frozen, asset);
    case UnfreezeOp(_, _) => PostGap(l, a, Balance(b.available + q, b.frozen - q), q, Unfrozen, asset);
    case ConsumeOp(_, _) => PostGap(l, a, Balance(b.available, b.frozen - q), -q, Withdrawn, asset);
  }

  lemma PayGap(l: Led, a: Account, qty: int, asset: string)
    ensures Gap(PayOut(l, a, qty), asset) == Gap(l, asset) - if a.asset == asset then qty else 0
    ensures Gap(PayIn(l, a, qty), asset) == Gap(l, asset) + if a.asset == asset then qty else 0
  {
    hide Gap, Get, Post;
    var b := Get(l, a);
    PostGap(l, a, Balance(b.available, b.frozen - qty), -qty, TradeOut, asset);
    PostGap(l, a, Balance(b.available + qty, b.frozen), qty, TradeIn, asset);
  }

  function Buyer(t: Trade): string { if t.takerSide.Buy? then t.takerUser else t.makerUser }

  function Seller(t: Trade): string { if t.takerSide.Buy? then t.makerUser else t.takerUser }

  /** The settlement that fails only when it reaches the seller. */
  predicate HalfSettles(l: Led, t: Trade, base: string, quote: string) {
    var cost := PriceQtyToQuote(t.price, t.qty);
    && cost.Some? && Buyer(t) != Seller(t)
    && Get(l, Account(Buyer(t), quote)).frozen >= cost.value
    && Get(l, Account(Seller(t), base)).frozen < t.qty
  }

  /** What a settlement does to the gap of an asset: nothing, or the two legs of the buyer. */
  lemma SettleGap(l: Led, t: Trade, base: string, quote: string, asset: string)
    ensures Gap(SettleTrade(l, t, base, quote).0, asset) == Gap(l, asset)
      + if HalfSettles(l, t, base, quote)
        then (if asset == base then t.qty else 0) - (if asset == quote then QuoteUnits(t.price, t.qty) else 0)
        else 0
  {
    hide Gap, PayIn, PayOut;
    var cost := PriceQtyToQuote(t.price, t.qty);
    var buyer, seller := Buyer(t), Seller(t);
    if cost.Some? && buyer != seller {
      EnsureGap(l, Account(buyer, quote), asset);
      PayGap(l, Account(buyer, quote), cost.value, asset);
      var l0 := PayOut(l, Account(buyer, quote), cost.value);
      PayGap(l0, Account(buyer, base), t.qty, asset);
      var l1 := PayIn(l0, Account(buyer, base), t.qty);
      EnsureGap(l1, Account(seller, base), asset);
      PayGap(l1, Account(seller, base), t.qty, asset);
      var l2 := PayOut(l1, Account(seller, base), t.qty);
      PayGap(l2, Account(seller, quote), cost.value, asset);
      OthersKept(l, Account(buyer, quote), cost.value, Account(buyer, base), t.qty, Account(seller, base));
    }
  }

  /** Paying one user's accounts leaves another account alone. */
  lemma OthersKept(l: Led, a: Account, x: int, b: Account, y: int, c: Account)
    requires c != a && c != b
    ensures Get(PayIn(PayOut(l, a, x), b, y), c) == Get(l, c)
  {
  }

  /**
   Settling a trade between different assets conserves every asset exactly when it does
   not stop half-way, with the buyer's legs posted and the seller unable to deliver.
   */
  lemma SettleConservesExact(l: Led, t: Trade, base: string, quote: string)
    requires Conserved(l) && t.qty > 0 && base != quote
    ensures Conserved(SettleTrade(l, t, base, quote).0) <==> !HalfSettles(l, t, base, quote)
  {
    forall asset
      ensures Gap(SettleTrade(l, t, base, quote).0, asset) == Gap(l, asset)
        + if HalfSettles(l, t, base, quote)
          then (if asset == base then t.qty else 0) - (if asset == quote then QuoteUnits(t.price, t.qty) else 0)
          else 0
    {
      SettleGap(l, t, base, quote, asset);
    }
    hide SettleTrade, HalfSettles;
    var l' := SettleTrade(l, t, base, quote).0;
    forall asset
      ensures Gap(l, asset) == 0
    {
      assert Owned(l, asset) == External(l.entries, asset);
    }
    if HalfSettles(l, t, base, quote) {
      assert Gap(l', base) != 0;
    } else {
      forall asset
        ensures Owned(l', asset) == External(l'.entries, asset)
      {
        assert Gap(l', asset) == 0;
      }
    }
  }
}
