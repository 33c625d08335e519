/** Orders, trades and errors as the services exchange them. */
module Domain {
  // Order ids are drawn from one counter; only their uniqueness matters here.
  type OrderId = nat

  datatype Side = Buy | Sell {
    function Opposite(): Side { if Buy? then Sell else Buy }
  }

  datatype OrderType = Limit | Market | OtherType

  datatype TimeInForce = GTC | IOC | FOK | OtherTif

  datatype Status = New | PartiallyFilled | Filled | Canceled | Rejected | Expired

  datatype Error =
    | DuplicateOrder
    | InsufficientQty
    | InvalidOrder
    | OrderNotFound
    | OrderAlreadyFilled
    | InsufficientFunds
    | InsufficientNotional
    | InvalidPrice
    | SymbolNotFound
    | SymbolDisabled
    | InvalidAmount
    | SettlementFailed
    | NotPending
    | NoAdapter
    | AdapterFailed

  /** The value of an order object at one moment. */
  datatype OrderVal = OrderVal(
    id: OrderId,
    user: string,
    side: Side,
    typ: OrderType,
    tif: TimeInForce,
    price: int,
    qty: int,
    amountQuote: int,
    remaining: int,
    remainingQuote: int,
    filled: int,
    avg: int,
    status: Status
  ) {
    predicate MarketBuy() { side.Buy? && typ.Market? }
  }

  datatype Trade = Trade(
    price: int,
    qty: int,
    maker: OrderId,
    taker: OrderId,
    makerUser: string,
    takerUser: string,
    takerSide: Side,
    makerSide: Side,
    seqNo: nat
  )
}
