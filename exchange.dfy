/**
 * The records the order-following clients receive from the exchange and the
 * requests they send to it. The exchange itself is not modelled: whatever it
 * answers is a parameter of the client's methods, and what the client asks of
 * it is recorded as a `Call`.
 *
 * Prices and quantities are fixed-point integers in units of 1e-8 of the
 * quote or base asset. The clients round new prices and the sizes and gaps
 * they compare to 8 decimals, so there float equality and ordering become
 * integer comparisons.
 */
module Exchange {

  /** 8 decimals: the value 1.0 in model units. */
  const Decimals: nat := 8
  const Unit: int := 100_000_000

  datatype Option<T> = None | Some(value: T)

  datatype Side = Buy | Sell

  datatype OrderStatus =
    | New
    | PartiallyFilled
    | Filled
    | Canceled
    | PendingCancel
    | Rejected
    | Expired

  /**
   * An order as the exchange reports it (from get_order, order_limit_sell,
   * order_limit_buy, or the limit leg of an OCO report). `cumQuoteQty` is the
   * quote amount executed so far ("cummulativeQuoteQty").
   */
  datatype Order = Order(
    orderId: int,
    side: Side,
    price: int,
    origQty: int,
    executedQty: int,
    cumQuoteQty: int,
    status: OrderStatus)

  /** One order-book level: a price and the total quantity resting at it. */
  datatype Level = Level(price: int, qty: int)

  /** An order-book snapshot, best level first on each side (depth 5 is asked for). */
  datatype Book = Book(asks: seq<Level>, bids: seq<Level>)

  /**
   * One entry of a symbol's filter list. `tickSize` / `stepSize` are None when
   * the record has no such key.
   */
  datatype Filter = Filter(filterType: string, tickSize: Option<int>, stepSize: Option<int>)

  /** The part of get_symbol_info the clients read. */
  datatype SymbolInfo = SymbolInfo(filters: seq<Filter>, quotePrecision: int)

  /** The exchange endpoint a placement goes to. */
  datatype Api =
    | LimitSell
    | LimitBuy
    | OcoSell(stopPrice: int, stopLimitPrice: int)

  /**
   * A request that changes the exchange's state. `issuer` records which side's
   * logic issued a placement, which need not match the endpoint: the buy path
   * of an OCO order goes to order_oco_sell.
   */
  datatype Call =
    | Cancel(orderId: int)
    | Place(issuer: Side, api: Api, quantity: int, price: int)
}
