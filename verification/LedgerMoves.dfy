/**
 What each ledger operation does to every balance and to the entries, and when it is refused.
 */
module LedgerMoves {
  import opened Wrappers
  import opened Domain
  import opened FixedPoint
  import opened Ledger

  /** One account's available and frozen funds move by these amounts, and no other account's. */
  ghost predicate Shifted(l: Led, l': Led, a: Account, available: int, frozen: int) {
    forall b :: (Get(l', b) == if b == a
      then Balance(Get(l, b).available + available, Get(l, b).frozen + frozen) else Get(l, b))
  }

  /** No balance and no entry changed. */
  ghost predicate Untouched(l: Led, l': Led) {
    l'.entries == l.entries && forall b :: Get(l', b) == Get(l, b)
  }

  /** One entry is added, stating the account's new total. */
  ghost predicate Entered(l: Led, l': Led, a: Account, amount: int, typ: EntryType) {
    l'.entries == l.entries + [Entry(a, amount, Get(l', a).Total(), typ)]
  }

  /** A deposit adds its amount to the available funds of its account, unless it is no amount. */
  lemma DepositExact(l: Led, a: Account, qty: int)
    ensures var (l', err) := Deposit(l, a, qty);
      if qty > 0 then err.None? && Shifted(l, l', a, qty, 0) && Entered(l, l', a, qty, Deposited)
      else err == Some(InvalidOrder) && l' == l
  {
  }

  /** What an operation that needs funds is told. */
  ghost predicate Needs(qty: int, funds: int, err: Option<Error>) {
    err == if qty <= 0 then Some(InvalidOrder) else if funds < qty then Some(InsufficientFunds) else None
  }

  /** A freeze moves available funds to the frozen ones, exactly if there are enough. */
  lemma FreezeExact(l: Led, a: Account, qty: int)
    ensures var (l', err) := Freeze(l, a, qty);
      && Needs(qty, Get(l, a).available, err)
      && (if err.None? then Shifted(l, l', a, -qty, qty) && Entered(l, l', a, -qty, Frozen) else Untouched(l, l'))
  {
  }

  /** An unfreeze moves frozen funds back. */
  lemma UnfreezeExact(l: Led, a: Account, qty: int)
    ensures var (l', err) := Unfreeze(l, a, qty);
      && Needs(qty, Get(l, a).frozen, err)
      && (if err.None? then Shifted(l, l', a, qty, -qty) && Entered(l, l', a, qty, Unfrozen) else Untouched(l, l'))
  {
  }

  /** Consuming takes frozen funds out of the account. */
  lemma ConsumeExact(l: Led, a: Account, qty: int)
    ensures var (l', err) := ConsumeFrozen(l, a, qty);
      && Needs(qty, Get(l, a).frozen, err)
      && (if err.None? then Shifted(l, l', a, 0, -qty) && Entered(l, l', a, -qty, Withdrawn) else Untouched(l, l'))
  {
  }

  // ---- settlement ----

  /** Who buys and who sells, whichever side took. */
  ghost predicate Parties(t: Trade, buyer: string, seller: string) {
    if t.takerSide.Buy? then buyer == t.takerUser && seller == t.makerUser
    else buyer == t.makerUser && seller == t.takerUser
  }

  /** Frozen quote leaves the buyer and becomes available to the seller; base goes the other way. */
  ghost predicate Exchanged(l: Led, l': Led, t: Trade, buyer: string, seller: string, base: string, quote: string) {
    var cost := QuoteUnits(t.price, t.qty);
    forall b :: Get(l', b) == Balance(
      Get(l, b).available + (if b == Account(buyer, base) then t.qty else 0)
                          + (if b == Account(seller, quote) then cost else 0),
      Get(l, b).frozen - (if b == Account(buyer, quote) then cost else 0)
                       - (if b == Account(seller, base) then t.qty else 0))
  }

  /** Why a settlement is refused, if it is: at the amount, at a self-trade, at the buyer or at the seller. */
  ghost predicate Refusal(l: Led, t: Trade, buyer: string, seller: string, base: string, quote: string,
      err: Option<Error>)
  {
    err ==
      if QuoteUnits(t.price, t.qty) > MAX_INT64 then Some(InvalidAmount)
      else if buyer == seller then Some(InvalidOrder)
      else if Get(l, Account(buyer, quote)).frozen < QuoteUnits(t.price, t.qty) then Some(SettlementFailed)
      else if Get(l, Account(seller, base)).frozen < t.qty then Some(SettlementFailed)
      else None
  }

  lemma LegGets(l: Led, a: Account, qty: int)
    ensures Shifted(l, PayOut(l, a, qty), a, 0, -qty) && Entered(l, PayOut(l, a, qty), a, -qty, TradeOut)
    ensures Shifted(l, PayIn(l, a, qty), a, qty, 0) && Entered(l, PayIn(l, a, qty), a, qty, TradeIn)
  {
  }

  /** A settlement moves exactly what was traded between the two users, or says why not. */
  lemma SettleExact(l: Led, t: Trade, base: string, quote: string, buyer: string, seller: string)
    requires Parties(t, buyer, seller)
    ensures var (l', err) := SettleTrade(l, t, base, quote);
      && Refusal(l, t, buyer, seller, base, quote, err)
      && (err.None? ==> Exchanged(l, l', t, buyer, seller, base, quote))
      && (err.Some? && err.value != SettlementFailed ==> l' == l)
  {
    hide PayIn, PayOut, Get, Entered;
    var cost := QuoteUnits(t.price, t.qty);
    if cost <= MAX_INT64 && buyer != seller && Get(l, Account(buyer, quote)).frozen >= cost {
      LegGets(l, Account(buyer, quote), cost);
      var l0 := PayOut(l, Account(buyer, quote), cost);
      LegGets(l0, Account(buyer, base), t.qty);
      var l1 := PayIn(l0, Account(buyer, base), t.qty);
      LegGets(l1, Account(seller, base), t.qty);
      var l2 := PayOut(l1, Account(seller, base), t.qty);
      LegGets(l2, Account(seller, quote), cost);
    }
  }
}
