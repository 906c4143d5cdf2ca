/**
 * The order-following clients of follow_orderbook.py.
 *
 * A client keeps one limit (or OCO) order resting one tick better than the
 * best opposing quote, never past the user's bound (minask when selling,
 * maxbid when buying). Each tick it refreshes its tracked order, folds a fill
 * into its running balances, and then keeps the order, or cancels it and
 * places a new one.
 *
 * The price and sizing arithmetic is lifted into pure functions (the
 * decision tables SellDecision and BuyDecision, NewAsk, NewBid, BuyQuantity,
 * SettleFill, ResolveIncrements); the client itself is a class whose methods
 * update its fields as the source's do, and record every cancel and
 * placement they send to the exchange in the ghost log `calls`.
 */
module FollowOrderbook {
  import opened Exchange
  import Utils

  /** The exceptions the core can raise. */
  datatype Error =
    | BookTooShallow   // the book side lacks a level the rule reads (IndexError)
    | DivisionByZero   // quote_quantity / price with price 0, or % step_size with step_size 0
    | StepSizeUnset    // no LOT_SIZE stepSize, so step_size was never set (AttributeError)
    | NoSizingBasis    // "Either quantity_to_buy or quote_quantity should be > 0"
    | TickBelowUnit    // 10^-quotePrecision is finer than 1e-8, the unit of this model

  datatype Result<T> = Ok(value: T) | Err(error: Error)

  /** How a method of the client ends: it returns, or it raises. */
  datatype Outcome = Returned | Raised(error: Error)

  // ---------------------------------------------------------------------------
  // Tick size resolver (_init_symbol)
  // ---------------------------------------------------------------------------

  /** The price increment (tick_size) and, if known, the quantity increment (step_size). */
  datatype Increments = Increments(tick: int, step: Option<int>)

  /** `i` is the position of the first filter of type `t`. */
  ghost predicate IsFirstOfType(fs: seq<Filter>, i: int, t: string) {
    0 <= i < |fs| && fs[i].filterType == t && forall j :: 0 <= j < i ==> fs[j].filterType != t
  }

  /** Position of the first filter of type `t`, or -1 (the head of the filtered list comprehension). */
  function FirstOfType(fs: seq<Filter>, t: string): (i: int)
    ensures -1 <= i < |fs|
    ensures i == -1 <==> forall j :: 0 <= j < |fs| ==> fs[j].filterType != t
    ensures i >= 0 ==> IsFirstOfType(fs, i, t)
  {
    if |fs| == 0 then -1
    else if fs[0].filterType == t then 0
    else
      var j := FirstOfType(fs[1..], t);
      if j < 0 then -1 else j + 1
  }

  /** Python's `str(c) * n`: n copies of `c`, none when n is not positive. */
  function Repeat(c: char, n: int): (s: string)
    ensures |s| == if n <= 0 then 0 else n
    ensures forall i :: 0 <= i < |s| ==> s[i] == c
  {
    if n <= 0 then [] else [c] + Repeat(c, n - 1)
  }

  /**
   * The decimal string built when the price filter gives no tick size: "0."
   * followed by max(quotePrecision, 1) - 1 zeros and a final "1".
   */
  function SynthesizedTick(quotePrecision: int): (s: string)
    ensures |s| == 2 + (if quotePrecision < 1 then 1 else quotePrecision)
    ensures s[..2] == "0." && s[|s| - 1] == '1'
    ensures forall i :: 2 <= i < |s| - 1 ==> s[i] == '0'
  {
    "0." + Repeat('0', quotePrecision - 1) + "1"
  }

  /**
   * The synthesized string is "0.0...01" with max(quotePrecision, 1) digits
   * after the point, so its value is the unit of its last digit,
   * 10^-max(quotePrecision, 1).
   */
  lemma SynthesizedTickDigits(quotePrecision: int)
    ensures Utils.FindMinDelta(SynthesizedTick(quotePrecision)) == if quotePrecision < 1 then 1 else quotePrecision
  {
  }

  function Pow10(n: nat): (p: nat)
    ensures p >= 1
  {
    if n == 0 then 1 else 10 * Pow10(n - 1)
  }

  lemma {:induction false} Pow10Add(a: nat, b: nat)
    ensures Pow10(a) * Pow10(b) == Pow10(a + b)
  {
    if a > 0 {
      Pow10Add(a - 1, b);
      assert Pow10(a) * Pow10(b) == 10 * (Pow10(a - 1) * Pow10(b));
    }
  }

  /**
   * tick_size: the first PRICE_FILTER's tickSize if that filter has one,
   * otherwise 10^-quotePrecision (10^-1 when quotePrecision < 1); step_size:
   * the first LOT_SIZE filter's stepSize if that filter has one, otherwise unset.
   */
  function ResolveIncrements(info: SymbolInfo): (r: Result<Increments>)
    ensures forall i :: IsFirstOfType(info.filters, i, "PRICE_FILTER") && info.filters[i].tickSize.Some? ==>
      r.Ok? && r.value.tick == info.filters[i].tickSize.value
    ensures (forall i :: IsFirstOfType(info.filters, i, "PRICE_FILTER") ==> info.filters[i].tickSize.None?) ==>
      var k := if info.quotePrecision < 1 then 1 else info.quotePrecision;
      (r.Ok? <==> k <= Decimals) && (r.Ok? ==> r.value.tick * Pow10(k) == Unit)
    ensures r.Ok? ==> forall i :: IsFirstOfType(info.filters, i, "LOT_SIZE") ==> r.value.step == info.filters[i].stepSize
    ensures r.Ok? && (forall j :: 0 <= j < |info.filters| ==> info.filters[j].filterType != "LOT_SIZE") ==>
      r.value.step.None?
  {
    var fs := info.filters;
    var p := FirstOfType(fs, "PRICE_FILTER");
    var l := FirstOfType(fs, "LOT_SIZE");
    var step := if l >= 0 then fs[l].stepSize else None;
    if p >= 0 && fs[p].tickSize.Some? then
      Ok(Increments(fs[p].tickSize.value, step))
    else
      var k := if info.quotePrecision < 1 then 1 else info.quotePrecision;
      if k <= Decimals then
        Pow10Add(Decimals - k, k);
        Ok(Increments(Pow10(Decimals - k), step))
      else
        Err(TickBelowUnit)
  }

  // ---------------------------------------------------------------------------
  // Order state tracker (fill accounting of fetch_order)
  // ---------------------------------------------------------------------------

  /** The running balances: base `quantity` and `quote_quantity`. */
  datatype Balances = Balances(base: int, quote: int)

  /**
   * How a refreshed order changes the balances: only a FILLED order counts;
   * a sell fill replaces the quote balance by the proceeds and removes the
   * executed base, a buy fill pays the quote spent and adds the base bought.
   */
  function SettleFill(o: Order, b: Balances): (r: Balances)
    ensures o.status != Filled ==> r == b
    ensures o.status == Filled && o.side == Sell ==> r.quote == o.cumQuoteQty && r.base == b.base - o.executedQty
    ensures o.status == Filled && o.side == Buy ==> r.quote == b.quote - o.cumQuoteQty && r.base == b.base + o.executedQty
  {
    if o.status != Filled then b
    else match o.side
      case Sell => Balances(b.base - o.executedQty, o.cumQuoteQty)
      case Buy => Balances(b.base + o.executedQty, b.quote - o.cumQuoteQty)
  }

  /**
   * A buy fill followed by a sell fill of the same base amount gives the base
   * balance back, and leaves exactly the sell's proceeds as quote balance.
   */
  lemma SettleBuyThenSell(buy: Order, sell: Order, b: Balances)
    requires buy.status == Filled && buy.side == Buy
    requires sell.status == Filled && sell.side == Sell
    requires sell.executedQty == buy.executedQty
    ensures SettleFill(sell, SettleFill(buy, b)) == Balances(b.base, sell.cumQuoteQty)
  {
  }

  /** Example: a sell of 1.0 filled for 100.0 sets the quote balance to exactly 100.0. */
  lemma SettleSellExample(b: Balances)
    ensures var o := Order(1, Sell, 100 * Unit, Unit, Unit, 100 * Unit, Filled);
      SettleFill(o, b) == Balances(b.base - Unit, 100 * Unit)
  {
  }

  // ---------------------------------------------------------------------------
  // Repricing decision engine (orderbook_sell / orderbook_buy)
  // ---------------------------------------------------------------------------

  /** What is left to execute of an order: origQty - executedQty. */
  function Remaining(o: Order): int {
    o.origQty - o.executedQty
  }

  /** The new ask: one tick below the best ask, raised to minask when that is lower. */
  function NewAsk(bestAsk: int, tick: int, minask: int): (p: int)
    ensures p >= minask && p >= bestAsk - tick
    ensures p == minask || p == bestAsk - tick
  {
    var candidate := bestAsk - tick;
    if candidate < minask then minask else candidate
  }

  /** The new bid: one tick above the best bid, lowered to maxbid when that is higher. */
  function NewBid(bestBid: int, tick: int, maxbid: int): (p: int)
    ensures p <= maxbid && p <= bestBid + tick
    ensures p == maxbid || p == bestBid + tick
  {
    var candidate := bestBid + tick;
    if candidate > maxbid then maxbid else candidate
  }

  /**
   * For an order already at the best price: it is replaced only when its
   * remaining size equals the whole first level and the second level's price
   * is more than one tick from the first. Both sides compute the gap as
   * second price minus first price.
   */
  predicate ReplaceAtBest(levels: seq<Level>, remaining: int, tick: int)
    requires |levels| >= 2
  {
    levels[0].qty == remaining && levels[1].price - levels[0].price > tick
  }

  /** The outcome of one repricing step. */
  datatype Decision =
    | Keep                                       // leave the tracked order alone
    | PlaceNew(price: int)                       // nothing tracked: place at price
    | CancelAndReplace(orderId: int, price: int) // cancel the tracked order, then place at price
    | TooShallow                                 // a level the rule reads is missing

  /** The sell-side decision table of orderbook_sell. */
  function SellDecision(tracked: Option<Order>, asks: seq<Level>, minask: int, tick: int): (d: Decision)
    ensures |asks| == 0 ==> d == TooShallow
    ensures |asks| > 0 && tracked.None? ==> d == PlaceNew(NewAsk(asks[0].price, tick, minask))
    ensures |asks| > 0 && tracked.Some? && tracked.value.price == minask ==> d == Keep
    ensures |asks| > 0 && tracked.Some? && tracked.value.price != minask && tracked.value.price != asks[0].price ==>
      d == CancelAndReplace(tracked.value.orderId, NewAsk(asks[0].price, tick, minask))
    ensures |asks| == 1 && tracked.Some? && tracked.value.price != minask && tracked.value.price == asks[0].price ==>
      d == TooShallow
    ensures |asks| >= 2 && tracked.Some? && tracked.value.price != minask && tracked.value.price == asks[0].price ==>
      (d.CancelAndReplace? <==> asks[0].qty == Remaining(tracked.value) && asks[1].price - asks[0].price > tick) &&
      (d.CancelAndReplace? || d == Keep) &&
      (d.CancelAndReplace? ==> d == CancelAndReplace(tracked.value.orderId, NewAsk(asks[0].price, tick, minask)))
    ensures d.PlaceNew? || d.CancelAndReplace? ==> d.price >= minask
    ensures d.CancelAndReplace? ==> tracked.Some? && d.orderId == tracked.value.orderId
  {
    if |asks| == 0 then TooShallow
    else
      var best := asks[0].price;
      match tracked
      case None => PlaceNew(NewAsk(best, tick, minask))
      case Some(o) =>
        if o.price == minask then Keep
        else if best == o.price && |asks| < 2 then TooShallow
        else if best == o.price && !ReplaceAtBest(asks, Remaining(o), tick) then Keep
        else CancelAndReplace(o.orderId, NewAsk(best, tick, minask))
  }

  /** The buy-side decision table of orderbook_buy. */
  function BuyDecision(tracked: Option<Order>, bids: seq<Level>, maxbid: int, tick: int): (d: Decision)
    ensures |bids| == 0 ==> d == TooShallow
    ensures |bids| > 0 && tracked.None? ==> d == PlaceNew(NewBid(bids[0].price, tick, maxbid))
    ensures |bids| > 0 && tracked.Some? && tracked.value.price == maxbid ==> d == Keep
    ensures |bids| > 0 && tracked.Some? && tracked.value.price != maxbid && tracked.value.price != bids[0].price ==>
      d == CancelAndReplace(tracked.value.orderId, NewBid(bids[0].price, tick, maxbid))
    ensures |bids| == 1 && tracked.Some? && tracked.value.price != maxbid && tracked.value.price == bids[0].price ==>
      d == TooShallow
    ensures |bids| >= 2 && tracked.Some? && tracked.value.price != maxbid && tracked.value.price == bids[0].price ==>
      (d.CancelAndReplace? <==> bids[0].qty == Remaining(tracked.value) && bids[1].price - bids[0].price > tick) &&
      (d.CancelAndReplace? || d == Keep) &&
      (d.CancelAndReplace? ==> d == CancelAndReplace(tracked.value.orderId, NewBid(bids[0].price, tick, maxbid)))
    ensures d.PlaceNew? || d.CancelAndReplace? ==> d.price <= maxbid
    ensures d.CancelAndReplace? ==> tracked.Some? && d.orderId == tracked.value.orderId
  {
    if |bids| == 0 then TooShallow
    else
      var best := bids[0].price;
      match tracked
      case None => PlaceNew(NewBid(best, tick, maxbid))
      case Some(o) =>
        if o.price == maxbid then Keep
        else if best == o.price && |bids| < 2 then TooShallow
        else if best == o.price && !ReplaceAtBest(bids, Remaining(o), tick) then Keep
        else CancelAndReplace(o.orderId, NewBid(best, tick, maxbid))
  }

  /** Only the first two ask levels take part in the sell decision. */
  lemma SellReadsTopTwoLevels(tracked: Option<Order>, asks: seq<Level>, minask: int, tick: int)
    requires |asks| >= 2
    ensures SellDecision(tracked, asks, minask, tick) == SellDecision(tracked, asks[..2], minask, tick)
  {
  }

  /**
   * No churn after an undercut: once the order placed at NewAsk is alone at
   * the front of the book, with the old best ask behind it, the next tick keeps it.
   */
  lemma SellUndercutIsKept(o: Order, bestAsk: int, qty: int, rest: seq<Level>, minask: int, tick: int)
    requires o.price == NewAsk(bestAsk, tick, minask)
    ensures SellDecision(Some(o), [Level(o.price, Remaining(o)), Level(bestAsk, qty)] + rest, minask, tick) == Keep
  {
  }

  /** The buy-side counterpart of SellUndercutIsKept. */
  lemma BuyUndercutIsKept(o: Order, bestBid: int, qty: int, rest: seq<Level>, maxbid: int, tick: int)
    requires tick >= 0
    requires o.price == NewBid(bestBid, tick, maxbid)
    ensures BuyDecision(Some(o), [Level(o.price, Remaining(o)), Level(bestBid, qty)] + rest, maxbid, tick) == Keep
  {
  }

  /**
   * On the bid side the second level is below the first, so the gap
   * bids[1].price - bids[0].price is negative and never exceeds a tick: an
   * order at the best bid is kept whatever the sizes are.
   */
  lemma BuyKeepsOrderAtBestBid(o: Order, bids: seq<Level>, maxbid: int, tick: int)
    requires |bids| >= 2 && tick >= 0 && bids[1].price <= bids[0].price
    requires o.price == bids[0].price
    ensures BuyDecision(Some(o), bids, maxbid, tick) == Keep
  {
  }

  /**
   * On the ask side the same situation (the order alone at the best ask, the
   * next ask more than one tick away) cancels the order and reposts it one
   * tick lower.
   */
  lemma SellRepostsOrderAloneAtBestAsk(o: Order, asks: seq<Level>, minask: int, tick: int)
    requires |asks| >= 2 && o.price != minask
    requires o.price == asks[0].price && asks[0].qty == Remaining(o)
    requires asks[1].price - asks[0].price > tick
    ensures SellDecision(Some(o), asks, minask, tick) == CancelAndReplace(o.orderId, NewAsk(o.price, tick, minask))
  {
  }

  /** Example: asks 100.00 x 1 and 100.05 x 2, tick 0.01, minask 99.00: place at 99.99. */
  lemma SellPlacesExample()
    ensures SellDecision(None, [Level(100 * Unit, Unit), Level(10005 * Unit / 100, 2 * Unit)], 99 * Unit, Unit / 100)
      == PlaceNew(9999 * Unit / 100)
  {
  }

  /** The same book with an order of 1.0 resting at 99.99, not at the best ask: it is reposted at 99.99. */
  lemma SellRepostsExample(id: int)
    ensures var o := Order(id, Sell, 9999 * Unit / 100, Unit, 0, 0, New);
      SellDecision(Some(o), [Level(100 * Unit, Unit), Level(10005 * Unit / 100, 2 * Unit)], 99 * Unit, Unit / 100)
        == CancelAndReplace(id, 9999 * Unit / 100)
  {
  }

  // ---------------------------------------------------------------------------
  // Buy sizing (_buy_order)
  // ---------------------------------------------------------------------------

  /** Python's `a // b`: the floor of a / b, for either sign of b. */
  function FloorDiv(a: int, b: int): (q: int)
    requires b != 0
    ensures b > 0 ==> q * b <= a < (q + 1) * b
    ensures b < 0 ==> (q + 1) * b < a <= q * b
  {
    if b > 0 then a / b else (-a) / (-b)
  }

  /**
   * How many steps of `step` the quote amount `amount` pays for at `price`,
   * rounded down (all in 1e-8 units): the largest n whose cost does not exceed it.
   */
  function StepsAffordable(amount: int, price: int, step: int): (n: int)
    requires price != 0 && step != 0
    ensures price > 0 && step > 0 ==> (n * step) * price <= amount * Unit < (n * step + step) * price
    ensures price * step > 0 ==> n * (price * step) <= amount * Unit < (n + 1) * (price * step)
    ensures price * step < 0 ==> (n + 1) * (price * step) < amount * Unit <= n * (price * step)
  {
    var n := FloorDiv(amount * Unit, price * step);
    assert (n * step) * price == n * (price * step);
    assert (n * step + step) * price == (n + 1) * (price * step);
    n
  }

  /**
   * The quantity _buy_order places at `price`: quantity_to_buy when positive;
   * otherwise the quote balance's worth at that price, rounded down to a
   * multiple of the step size (quote / price - (quote / price) % step).
   */
  function BuyQuantity(quantityToBuy: int, quote: int, price: int, step: Option<int>): (r: Result<int>)
    ensures quantityToBuy > 0 ==> r == Ok(quantityToBuy)
    ensures quantityToBuy <= 0 && quote == 0 ==> r == Err(NoSizingBasis)
    ensures quantityToBuy <= 0 && quote != 0 && price == 0 ==> r == Err(DivisionByZero)
    ensures quantityToBuy <= 0 && quote != 0 && price != 0 && step.None? ==> r == Err(StepSizeUnset)
    ensures quantityToBuy <= 0 && quote != 0 && price != 0 && step == Some(0) ==> r == Err(DivisionByZero)
    ensures quantityToBuy <= 0 && quote != 0 && price != 0 && step.Some? && step.value != 0 ==> r.Ok?
    ensures quantityToBuy <= 0 && r.Ok? ==>
      price != 0 && step.Some? && step.value != 0 && r.value == step.value * StepsAffordable(quote, price, step.value)
    ensures quantityToBuy <= 0 && r.Ok? && price > 0 && step.Some? && step.value > 0 ==>
      r.value * price <= quote * Unit < (r.value + step.value) * price
  {
    if quantityToBuy > 0 then Ok(quantityToBuy)
    else if quote != 0 then
      if price == 0 then Err(DivisionByZero)
      else if step.None? then Err(StepSizeUnset)
      else if step.value == 0 then Err(DivisionByZero)
      else
        var n := StepsAffordable(quote, price, step.value);
        assert step.value * n == n * step.value;
        Ok(step.value * n)
    else Err(NoSizingBasis)
  }

  /** Example: 100.0 quote at a price of 30.0 with step 0.001 buys 3.333. */
  lemma BuyQuantityExample()
    ensures BuyQuantity(0, 100 * Unit, 30 * Unit, Some(Unit / 1000)) == Ok(3333 * Unit / 1000)
  {
    var n := StepsAffordable(100 * Unit, 30 * Unit, Unit / 1000);
    assert n == 3333;
  }

  // ---------------------------------------------------------------------------
  // Effects of a decision on the tracked order and on the exchange
  // ---------------------------------------------------------------------------

  /** The tracked order afterwards, the calls sent (in order) and how the step ended. */
  datatype Effect = Effect(order: Option<Order>, calls: seq<Call>, outcome: Outcome)

  function DecisionPrice(d: Decision): int {
    if d.PlaceNew? || d.CancelAndReplace? then d.price else 0
  }

  /**
   * Carries out decision `d`: a cancel always comes first and clears the
   * tracked order; a placement then tracks the exchange's answer `placed`. A
   * sizing error raised after the cancel leaves no order tracked.
   */
  function Enact(d: Decision, tracked: Option<Order>, issuer: Side, api: Api, size: Result<int>, placed: Order): Effect {
    match d
    case Keep => Effect(tracked, [], Returned)
    case TooShallow => Effect(tracked, [], Raised(BookTooShallow))
    case PlaceNew(p) =>
      if size.Err? then Effect(tracked, [], Raised(size.error))
      else Effect(Some(placed), [Place(issuer, api, size.value, p)], Returned)
    case CancelAndReplace(id, p) =>
      if size.Err? then Effect(None, [Cancel(id)], Raised(size.error))
      else Effect(Some(placed), [Cancel(id), Place(issuer, api, size.value, p)], Returned)
  }

  /** Every sell placement is at or above minask, every buy placement at or below maxbid. */
  ghost predicate WithinBounds(calls: seq<Call>, minask: int, maxbid: int) {
    forall i :: 0 <= i < |calls| ==>
      (calls[i].Place? && calls[i].issuer == Sell ==> calls[i].price >= minask) &&
      (calls[i].Place? && calls[i].issuer == Buy ==> calls[i].price <= maxbid)
  }

  // ---------------------------------------------------------------------------
  // The clients
  // ---------------------------------------------------------------------------

  /** AutoSellClient, AutoBuyClient or AutoTradeClient. */
  datatype Kind = SellClient | BuyClient | TradeClient

  /** The exchange's answers during one tick: the refreshed order, the book, the placed order. */
  datatype Tick = Tick(fetched: Order, book: Book, placed: Order)

  /** What a client holds between two ticks: the tracked order, the balances, the flags and the call log. */
  datatype State = State(order: Option<Order>, held: Balances, completed: bool, side: Side, calls: seq<Call>)

  /** One run of `execute`: the tick it was given, the state before, how it ended, and the state after. */
  datatype TickRun = TickRun(tick: Tick, before: State, outcome: Outcome, after: State)

  function Flip(s: Side): Side {
    match s
    case Sell => Buy
    case Buy => Sell
  }

  /**
   * One client. The fields of the three client classes live together; `kind`
   * says which `execute` runs. The constructors set the fields a kind does not
   * use to 0 or false.
   */
  class Client {
    const kind: Kind
    const tickSize: int
    const stepSize: Option<int>
    const minask: int
    const maxbid: int
    const quantityToBuy: int
    const ocoSell: bool
    const sellStopPrice: int
    const sellStopLimit: int
    const ocoBuy: bool
    const buyStopPrice: int
    const buyStopLimit: int

    var order: Option<Order>
    var quantity: int
    var quoteQuantity: int
    var completed: bool
    var side: Side

    /** Every cancel and placement sent to the exchange, oldest first. */
    ghost var calls: seq<Call>

    /** Every run of `execute`, oldest first. */
    ghost var runs: seq<TickRun>

    ghost predicate Valid()
      reads this
    {
      WithinBounds(calls, minask, maxbid)
    }

    function Held(): Balances
      reads this
    {
      Balances(quantity, quoteQuantity)
    }

    /** The endpoint _sell_order uses. */
    function SellApi(): Api {
      if ocoSell then OcoSell(sellStopPrice, sellStopLimit) else LimitSell
    }

    /** The endpoint _buy_order uses: its OCO path calls order_oco_sell. */
    function BuyApi(): Api {
      if ocoBuy then OcoSell(buyStopPrice, buyStopLimit) else LimitBuy
    }

    /** The client's state, without the run log. */
    ghost function Snapshot(): State
      reads this
    {
      State(order, Held(), completed, side, calls)
    }

    /** What orderbook_sell does with `tracked` as the tracked order and balances `b`. */
    function SellEffect(tracked: Option<Order>, asks: seq<Level>, placed: Order, b: Balances): Effect {
      Enact(SellDecision(tracked, asks, minask, tickSize), tracked, Sell, SellApi(), Ok(b.base), placed)
    }

    /** What orderbook_buy does with `tracked` as the tracked order and balances `b`. */
    function BuyEffect(tracked: Option<Order>, bids: seq<Level>, placed: Order, b: Balances): Effect {
      var d := BuyDecision(tracked, bids, maxbid, tickSize);
      Enact(d, tracked, Buy, BuyApi(), BuyQuantity(quantityToBuy, b.quote, DecisionPrice(d), stepSize), placed)
    }

    /** The tracked order after fetch_order: refreshed when there was one. */
    function Refreshed(before: Option<Order>, fetched: Order): Option<Order> {
      if before.Some? then Some(fetched) else None
    }

    constructor Seller(info: SymbolInfo, quantity: int, minask: int, sellStopPrice: int, sellStopLimit: int)
      requires ResolveIncrements(info).Ok?
      ensures Valid()
      ensures kind == SellClient
      ensures tickSize == ResolveIncrements(info).value.tick && stepSize == ResolveIncrements(info).value.step
      ensures this.minask == minask && this.quantity == quantity && quoteQuantity == 0 && quantityToBuy == 0
      ensures ocoSell == (sellStopPrice != 0 && sellStopLimit != 0) && !ocoBuy
      ensures ocoSell ==> this.sellStopPrice == sellStopPrice && this.sellStopLimit == sellStopLimit
      ensures order == None && !completed && calls == [] && runs == []
    {
      kind := SellClient;
      var inc := ResolveIncrements(info).value;
      tickSize, stepSize := inc.tick, inc.step;
      this.minask, maxbid := minask, 0;
      quantityToBuy := 0;
      ocoSell := sellStopPrice != 0 && sellStopLimit != 0;
      this.sellStopPrice, this.sellStopLimit := sellStopPrice, sellStopLimit;
      ocoBuy, buyStopPrice, buyStopLimit := false, 0, 0;
      order := None;
      this.quantity, quoteQuantity := quantity, 0;
      completed, side := false, Sell;
      calls, runs := [], [];
    }

    constructor Buyer(info: SymbolInfo, quantity: int, maxbid: int, buyStopPrice: int, buyStopLimit: int)
      requires ResolveIncrements(info).Ok?
      ensures Valid()
      ensures kind == BuyClient
      ensures tickSize == ResolveIncrements(info).value.tick && stepSize == ResolveIncrements(info).value.step
      ensures this.maxbid == maxbid && quantityToBuy == quantity && this.quantity == 0 && quoteQuantity == 0
      ensures ocoBuy == (buyStopPrice != 0 && buyStopLimit != 0) && !ocoSell
      ensures ocoBuy ==> this.buyStopPrice == buyStopPrice && this.buyStopLimit == buyStopLimit
      ensures order == None && !completed && calls == [] && runs == []
    {
      kind := BuyClient;
      var inc := ResolveIncrements(info).value;
      tickSize, stepSize := inc.tick, inc.step;
      minask, this.maxbid := 0, maxbid;
      quantityToBuy := quantity;
      ocoSell, sellStopPrice, sellStopLimit := false, 0, 0;
      ocoBuy := buyStopPrice != 0 && buyStopLimit != 0;
      this.buyStopPrice, this.buyStopLimit := buyStopPrice, buyStopLimit;
      order := None;
      this.quantity, quoteQuantity := 0, 0;
      completed, side := false, Buy;
      calls, runs := [], [];
    }

    /** AutoTradeClient: the starting side's quantity is set; the OCO flags are never set. */
    constructor Trader(info: SymbolInfo, side: Side, quantity: int, minask: int, maxbid: int,
                       sellStopPrice: int, sellStopLimit: int, buyStopPrice: int, buyStopLimit: int)
      requires ResolveIncrements(info).Ok?
      ensures Valid()
      ensures kind == TradeClient && this.side == side
      ensures tickSize == ResolveIncrements(info).value.tick && stepSize == ResolveIncrements(info).value.step
      ensures this.minask == minask && this.maxbid == maxbid
      ensures quantityToBuy == (if side == Buy then quantity else 0)
      ensures this.quantity == (if side == Sell then quantity else 0) && quoteQuantity == 0
      ensures !ocoSell && !ocoBuy
      ensures order == None && !completed && calls == [] && runs == []
    {
      kind := TradeClient;
      var inc := ResolveIncrements(info).value;
      tickSize, stepSize := inc.tick, inc.step;
      this.minask, this.maxbid := minask, maxbid;
      quantityToBuy := if side == Buy then quantity else 0;
      ocoSell, this.sellStopPrice, this.sellStopLimit := false, sellStopPrice, sellStopLimit;
      ocoBuy, this.buyStopPrice, this.buyStopLimit := false, buyStopPrice, buyStopLimit;
      order := None;
      this.quantity, quoteQuantity := if side == Sell then quantity else 0, 0;
      completed, this.side := false, side;
      calls, runs := [], [];
    }

    /** fetch_order: refresh the tracked order, if any, and settle a fill into the balances. */
    method FetchOrder(fetched: Order)
      modifies this`order, this`quantity, this`quoteQuantity
      ensures order == Refreshed(old(order), fetched)
      ensures Held() == if old(order).Some? then SettleFill(fetched, old(Held())) else old(Held())
    {
      if order.Some? {
        order := Some(fetched);
        if fetched.status == Filled {
          match fetched.side
          case Sell =>
            quoteQuantity := fetched.cumQuoteQty;
            quantity := quantity - fetched.executedQty;
          case Buy =>
            quoteQuantity := quoteQuantity - fetched.cumQuoteQty;
            quantity := quantity + fetched.executedQty;
        }
      }
    }

    /** cancel_order: cancel the tracked order, if any; nothing is tracked afterwards. */
    method CancelOrder()
      modifies this`order, this`calls
      ensures order == None
      ensures calls == old(calls) + if old(order).Some? then [Cancel(old(order).value.orderId)] else []
    {
      if order.Some? {
        calls := calls + [Cancel(order.value.orderId)];
      }
      order := None;
    }

    /** _sell_order: place `quantity` at `price` and track the exchange's answer. */
    method SellOrder(price: int, placed: Order)
      modifies this`order, this`calls
      ensures order == Some(placed)
      ensures calls == old(calls) + [Place(Sell, SellApi(), quantity, price)]
    {
      calls := calls + [Place(Sell, SellApi(), quantity, price)];
      order := Some(placed);
    }

    /** _buy_order: size the buy, place it at `price` and track the exchange's answer. */
    method BuyOrder(price: int, placed: Order) returns (r: Outcome)
      modifies this`order, this`calls
      ensures var size := BuyQuantity(quantityToBuy, quoteQuantity, price, stepSize);
        if size.Err? then r == Raised(size.error) && order == old(order) && calls == old(calls)
        else r == Returned && order == Some(placed) && calls == old(calls) + [Place(Buy, BuyApi(), size.value, price)]
    {
      var size := BuyQuantity(quantityToBuy, quoteQuantity, price, stepSize);
      if size.Err? {
        return Raised(size.error);
      }
      calls := calls + [Place(Buy, BuyApi(), size.value, price)];
      order := Some(placed);
      r := Returned;
    }

    /** orderbook_sell: keep the tracked order, or cancel it, and place a new ask. */
    method OrderbookSell(asks: seq<Level>, placed: Order) returns (r: Outcome)
      requires Valid()
      modifies this`order, this`calls
      ensures Valid()
      ensures var e := SellEffect(old(order), asks, placed, Held());
        order == e.order && calls == old(calls) + e.calls && r == e.outcome
    {
      if |asks| == 0 {
        return Raised(BookTooShallow);
      }
      var bestPrice := asks[0].price;
      if order.Some? {
        var o := order.value;
        if o.price == minask {
          return Returned;
        } else if bestPrice == o.price {
          if |asks| < 2 {
            return Raised(BookTooShallow);
          }
          if !ReplaceAtBest(asks, Remaining(o), tickSize) {
            return Returned;
          }
        }
        CancelOrder();
      }
      var newAsk := NewAsk(bestPrice, tickSize, minask);
      SellOrder(newAsk, placed);
      r := Returned;
    }

    /** orderbook_buy: keep the tracked order, or cancel it, and place a new bid. */
    method OrderbookBuy(bids: seq<Level>, placed: Order) returns (r: Outcome)
      requires Valid()
      modifies this`order, this`calls
      ensures Valid()
      ensures var e := BuyEffect(old(order), bids, placed, Held());
        order == e.order && calls == old(calls) + e.calls && r == e.outcome
    {
      if |bids| == 0 {
        return Raised(BookTooShallow);
      }
      var bestPrice := bids[0].price;
      if order.Some? {
        var o := order.value;
        if o.price == maxbid {
          return Returned;
        } else if bestPrice == o.price {
          if |bids| < 2 {
            return Raised(BookTooShallow);
          }
          if !ReplaceAtBest(bids, Remaining(o), tickSize) {
            return Returned;
          }
        }
        CancelOrder();
      }
      var newBid := NewBid(bestPrice, tickSize, maxbid);
      r := BuyOrder(newBid, placed);
    }

    /** The balances after fetch_order on state `s` with the refreshed record `fetched`. */
    static function Settled(s: State, fetched: Order): Balances {
      if s.order.Some? then SettleFill(fetched, s.held) else s.held
    }

    /** The whole effect of AutoSellClient.execute on one tick, from state `s` to state `s2`. */
    ghost predicate SellTicked(s: State, t: Tick, r: Outcome, s2: State) {
      var tracked := Refreshed(s.order, t.fetched);
      && s2.held == Settled(s, t.fetched)
      && s2.side == s.side
      && (if tracked.Some? && t.fetched.status in {Filled, Expired} then
            s2.completed && s2.order == tracked && s2.calls == s.calls && r == Returned
          else if tracked.Some? && t.fetched.status == PartiallyFilled then
            s2.completed == s.completed && s2.order == tracked && s2.calls == s.calls && r == Returned
          else
            var e := SellEffect(tracked, t.book.asks, t.placed, s2.held);
            s2.completed == s.completed && s2.order == e.order && s2.calls == s.calls + e.calls && r == e.outcome)
    }

    /** The whole effect of AutoBuyClient.execute on one tick, from state `s` to state `s2`. */
    ghost predicate BuyTicked(s: State, t: Tick, r: Outcome, s2: State) {
      var tracked := Refreshed(s.order, t.fetched);
      && s2.held == Settled(s, t.fetched)
      && s2.side == s.side
      && (if tracked.Some? && t.fetched.status in {Filled, Expired} then
            s2.completed && s2.order == tracked && s2.calls == s.calls && r == Returned
          else if tracked.Some? && t.fetched.status == PartiallyFilled then
            s2.completed == s.completed && s2.order == tracked && s2.calls == s.calls && r == Returned
          else
            var e := BuyEffect(tracked, t.book.bids, t.placed, s2.held);
            s2.completed == s.completed && s2.order == e.order && s2.calls == s.calls + e.calls && r == e.outcome)
    }

    /**
     * The whole effect of AutoTradeClient.execute on one tick, from state `s`
     * to state `s2`: only EXPIRED completes; a fill clears the order and flips
     * the side, and the new side is repriced on the same tick.
     */
    ghost predicate TradeTicked(s: State, t: Tick, r: Outcome, s2: State) {
      var tracked := Refreshed(s.order, t.fetched);
      && s2.held == Settled(s, t.fetched)
      && (if tracked.Some? && t.fetched.status == Expired then
            s2.completed && s2.side == s.side && s2.order == tracked && s2.calls == s.calls && r == Returned
          else if tracked.Some? && t.fetched.status == PartiallyFilled then
            s2.completed == s.completed && s2.side == s.side && s2.order == tracked && s2.calls == s.calls && r == Returned
          else
            var filled := tracked.Some? && t.fetched.status == Filled;
            var current := if filled then None else tracked;
            var side := if filled then Flip(s.side) else s.side;
            var e := if side == Sell then SellEffect(current, t.book.asks, t.placed, s2.held)
                     else BuyEffect(current, t.book.bids, t.placed, s2.held);
            s2.completed == s.completed && s2.side == side &&
            s2.order == e.order && s2.calls == s.calls + e.calls && r == e.outcome)
    }

    /** `x` is one step of this client's `execute`. */
    ghost predicate IsRun(x: TickRun) {
      Ticked(x.before, x.tick, x.outcome, x.after)
    }

    /**
     * `rs` is a chain of `execute` steps leading from state `s0` to state
     * `s1`: each run starts where the previous one ended.
     */
    ghost predicate Chain(rs: seq<TickRun>, s0: State, s1: State)
      decreases |rs|
    {
      if |rs| == 0 then s0 == s1
      else rs[0].before == s0 && IsRun(rs[0]) && Chain(rs[1..], rs[0].after, s1)
    }

    /** A step from the end of a chain extends the chain. */
    lemma {:induction false} ChainSnoc(rs: seq<TickRun>, s0: State, s1: State, x: TickRun)
      requires Chain(rs, s0, s1) && x.before == s1 && IsRun(x)
      ensures Chain(rs + [x], s0, x.after)
      decreases |rs|
    {
      if |rs| == 0 {
        assert [x][1..] == [];
      } else {
        ChainSnoc(rs[1..], rs[0].after, s1, x);
        assert (rs + [x])[1..] == rs[1..] + [x];
      }
    }

    /** The effect of this client's `execute` on one tick, from state `s` to state `s2`. */
    ghost predicate Ticked(s: State, t: Tick, r: Outcome, s2: State) {
      match kind
      case SellClient => SellTicked(s, t, r, s2)
      case BuyClient => BuyTicked(s, t, r, s2)
      case TradeClient => TradeTicked(s, t, r, s2)
    }

    /** AutoSellClient.execute. */
    method ExecuteSell(t: Tick) returns (r: Outcome)
      requires Valid()
      modifies this
      ensures Valid() && SellTicked(old(Snapshot()), t, r, Snapshot())
      ensures runs == old(runs)
    {
      FetchOrder(t.fetched);
      if order.Some? {
        if order.value.status in {Filled, Expired} {
          completed := true;
          return Returned;
        } else if order.value.status == PartiallyFilled {
          return Returned;
        }
      }
      r := OrderbookSell(t.book.asks, t.placed);
    }

    /** AutoBuyClient.execute. */
    method ExecuteBuy(t: Tick) returns (r: Outcome)
      requires Valid()
      modifies this
      ensures Valid() && BuyTicked(old(Snapshot()), t, r, Snapshot())
      ensures runs == old(runs)
    {
      FetchOrder(t.fetched);
      if order.Some? {
        if order.value.status in {Filled, Expired} {
          completed := true;
          return Returned;
        } else if order.value.status == PartiallyFilled {
          return Returned;
        }
      }
      r := OrderbookBuy(t.book.bids, t.placed);
    }

    /** AutoTradeClient.execute. */
    method ExecuteTrade(t: Tick) returns (r: Outcome)
      requires Valid()
      modifies this
      ensures Valid() && TradeTicked(old(Snapshot()), t, r, Snapshot())
      ensures runs == old(runs)
    {
      FetchOrder(t.fetched);
      if order.Some? {
        if order.value.status == Expired {
          completed := true;
          return Returned;
        } else if order.value.status == PartiallyFilled {
          return Returned;
        } else if order.value.status == Filled {
          order := None;
          side := Flip(side);
        }
      }
      if side == Sell {
        r := OrderbookSell(t.book.asks, t.placed);
      } else {
        r := OrderbookBuy(t.book.bids, t.placed);
      }
    }

    /** The `execute` of this client's kind. */
    method Execute(t: Tick) returns (r: Outcome)
      requires Valid()
      modifies this
      ensures Valid()
      ensures IsRun(TickRun(t, old(Snapshot()), r, Snapshot()))
      ensures old(calls) <= calls
      ensures runs == old(runs) + [TickRun(t, old(Snapshot()), r, Snapshot())]
    {
      ghost var before := Snapshot();
      match kind {
        case SellClient => r := ExecuteSell(t);
        case BuyClient => r := ExecuteBuy(t);
        case TradeClient => r := ExecuteTrade(t);
      }
      runs := runs + [TickRun(t, before, r, Snapshot())];
    }

    /**
     * start: run `execute` on the ticks in order while the client is not
     * completed, stopping when a tick raises or the ticks run out. Returns
     * how many ticks ran and how the last one ended. The logged runs form a
     * chain of `execute` steps from the old state to the new one, and every
     * run but the last returned without completing the client.
     */
    method Start(ticks: seq<Tick>) returns (n: nat, r: Outcome)
      requires Valid()
      modifies this
      ensures Valid() && n <= |ticks|
      ensures old(calls) <= calls
      ensures |runs| == |old(runs)| + n && old(runs) <= runs
      ensures forall i :: 0 <= i < n ==> runs[|old(runs)| + i].tick == ticks[i]
      ensures Chain(runs[|old(runs)|..], old(Snapshot()), Snapshot())
      ensures forall i :: |old(runs)| <= i < |runs| - 1 ==> runs[i].outcome == Returned && !runs[i].after.completed
      ensures n > 0 ==> runs[|runs| - 1].outcome == r
      ensures n == 0 ==> r == Returned && (old(completed) || |ticks| == 0)
      ensures old(completed) ==> n == 0
      ensures r.Returned? ==> completed || n == |ticks|
    {
      n, r := 0, Returned;
      while r.Returned? && !completed && n < |ticks|
        invariant Valid() && n <= |ticks|
        invariant old(calls) <= calls
        invariant |runs| == |old(runs)| + n && old(runs) <= runs
        invariant forall i :: 0 <= i < n ==> runs[|old(runs)| + i].tick == ticks[i]
        invariant Chain(runs[|old(runs)|..], old(Snapshot()), Snapshot())
        invariant forall i :: |old(runs)| <= i < |runs| - 1 ==> runs[i].outcome == Returned && !runs[i].after.completed
        invariant n > 0 ==> runs[|runs| - 1].outcome == r && runs[|runs| - 1].after.completed == completed
        invariant n == 0 ==> r == Returned && completed == old(completed)
        invariant old(completed) ==> n == 0
        decreases |ticks| - n
      {
        ghost var mine, pre := runs[|old(runs)|..], Snapshot();
        r := Execute(ticks[n]);
        ChainSnoc(mine, old(Snapshot()), pre, runs[|runs| - 1]);
        assert runs[|old(runs)|..] == mine + [runs[|runs| - 1]];
        n := n + 1;
      }
    }
  }
}
