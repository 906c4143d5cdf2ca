# Order-following limit trader, modelled in Dafny

This project models the core of an automated order-repricing agent for a
cryptocurrency exchange. The agent keeps one limit (or OCO) order resting one
tick better than the best opposing quote. It never prices past the user's
bound: `minask` when selling, `maxbid` when buying. It stops when the order
fills or expires.

The model has three files:

- `utils.dfy` (module `Utils`) models `find_min_delta`. That function maps a
  decimal string to the unit of its last fractional digit. The value is always
  10^-k, so the model returns the exponent k.
- `exchange.dfy` (module `Exchange`) holds the records exchanged with the
  exchange: orders, order-book levels, symbol filters, and the cancel and
  place requests (`Call`).
- `follow_orderbook.dfy` (module `FollowOrderbook`) holds the clients.
  - Pure functions model the tick-size resolver, fill accounting, the sell-side
    and buy-side decision tables, the new-price clamp and buy sizing.
  - `Client` is a class whose methods change the fields `order`, `quantity`,
    `quoteQuantity`, `completed` and `side`, as `fetch_order`, `cancel_order`,
    `orderbook_sell`, `orderbook_buy`, `_sell_order`, `_buy_order` and the
    three `execute` methods do.
  - Every cancel and placement goes into the ghost log `calls`. The object
    invariant `Valid()` says that every sell placement in the log is at or
    above `minask`, and every buy placement at or below `maxbid`. The
    constructors establish it. `OrderbookSell`, `OrderbookBuy`, the `Execute`
    methods and `Start`, the polling loop, keep it. `SellOrder` and `BuyOrder`
    place at whatever price they are given, so they neither need nor keep it.
    Every caller of theirs passes a clamped price.
  - A `State` is a snapshot of what the client holds between ticks: the
    tracked order, the balances, `completed`, `side` and `calls`. The
    predicates `SellTicked`, `BuyTicked` and `TradeTicked` relate the state
    before a tick, the tick, the outcome and the state after it. Each states
    the whole effect of one `execute` call.
  - The ghost log `runs` records every call of `execute`: the tick it was
    given, the state before, the outcome and the state after. `Chain` says
    that a sequence of runs are all `execute` steps, each starting where the
    previous one ended.

Numbers are fixed point. Every price and quantity is an integer in units of
1e-8. The source rounds the new ask, the new bid and the crowding test's size
and gap to 8 decimals, so there float `==`, `<` and `<=` become integer
comparisons. The source does not round buy sizing or the balance updates;
there the model computes exactly, where the source uses floats (see
`FollowOrderbook.BuyQuantity` under "Left out").
Python's `x - x % step` on a float is modelled with floor division, which
matches Python for either sign.

Exchange calls are inputs or outputs:

- The order returned by `get_order`, the order-book snapshot, and the order
  returned by a placement arrive together as a `Tick`, one per call of
  `execute`.
- Cancels and placements are recorded as `Call` values.
- An exception is returned as `Raised(error)`. Any state change made before
  the exception stays, as in the source. For example, a buy-sizing error
  raised after a cancel leaves no order tracked.

The three Python classes `AutoSellClient`, `AutoBuyClient` and
`AutoTradeClient` become one class `Client`. Its `kind` field says which
`execute` runs. The three `__init__` methods become the named constructors
`Seller`, `Buyer` and `Trader`. Fields that a kind does not use are set to 0
or false by the constructors themselves. The source either leaves such fields
undefined (`AutoSellClient` has no `maxbid`, `quantity_to_buy` or `oco_buy`,
and `AutoBuyClient` only annotates `minask`) or gives them class defaults.

These points of the code are easy to misread; the model follows the code as
written:

- When no tick size is given, the synthesized tick is
  `"0." + "0" * (quotePrecision - 1) + "1"`. Its value is 10^-quotePrecision,
  not 10^-(quotePrecision - 1). When quotePrecision < 1 the value is 10^-1
  (lemma `SynthesizedTickDigits`).
- An order at the best price is cancelled and replaced only when two things
  hold: its remaining size equals the first level's size, and the second level
  is more than one tick away. Otherwise it is kept.
- The buy side computes that gap the same way as the sell side:
  `bids[1].price - bids[0].price`. On a normal bid book this is negative, so
  the buy side never replaces an order that sits at the best bid. Lemma
  `BuyKeepsOrderAtBestBid` proves this. Lemma `SellRepostsOrderAloneAtBestAsk`
  shows the sell side doing the opposite.
- Buy sizing by quote balance runs whenever `quote_quantity` is non-zero, so a
  negative balance also qualifies. It does not require the balance to be
  positive.
- The OCO buy path sends its order to `order_oco_sell`. The model records
  this as a `Place` with issuer `Buy` and endpoint `OcoSell`.
- `AutoTradeClient.__init__` never sets `oco_sell` or `oco_buy`, so a trade
  client always places plain limit orders. The `Trader` constructor ensures it.

## Model

| member | source | states |
|---|---|---|
| `Utils.Find` | utils.py:2 | Returns -1 exactly when the character is absent. Otherwise returns the index of its first occurrence. |
| `Utils.FindMinDelta` | utils.py:1-8 | The exponent is 0 (value 1.0) when the string has no '.'. Otherwise it is the number of characters after the first '.', which is 0 when the '.' is last. |
| `Utils.DeltaIgnoresDigits` | utils.py:5-8 | The result depends only on the length and the position of the first dot (or its absence), never on the digits or on later dots. |
| `Utils.DeltaOfOnePointFifty` | utils.py:5-8 | "1.50" gives exponent 2, that is 0.01. |
| `FollowOrderbook.FirstOfType` | follow_orderbook.py:46-48 | Returns the index of the first filter of the given type, or -1 exactly when no filter has that type. |
| `FollowOrderbook.Repeat` | follow_orderbook.py:52 | Python's `"0" * n`: n copies of the character, and the empty string when n <= 0. |
| `FollowOrderbook.SynthesizedTick` | follow_orderbook.py:51-52 | The synthesized tick string is "0." followed by max(quotePrecision, 1) - 1 zeros and a final "1". |
| `FollowOrderbook.SynthesizedTickDigits` | follow_orderbook.py:51-52 | The synthesized tick string has max(quotePrecision, 1) fractional digits, so its unit is 10^-max(quotePrecision, 1). |
| `FollowOrderbook.Pow10Add` | follow_orderbook.py:51-52 | A proof helper for ResolveIncrements: 10^a * 10^b = 10^(a+b). It shows that the synthesized tick, scaled into 1e-8 units, is 1.0 / 10^max(quotePrecision, 1). |
| `FollowOrderbook.ResolveIncrements` | follow_orderbook.py:44-56 | tick_size is the first PRICE_FILTER's tickSize when that filter has one. Otherwise tick * 10^max(quotePrecision, 1) = 1.0. step_size is the first LOT_SIZE filter's stepSize, and is unset when there is no LOT_SIZE filter. |
| `FollowOrderbook.SettleFill` | follow_orderbook.py:62-71 | Only a FILLED order changes the balances. A sell fill sets quote to cumQuoteQty and subtracts executedQty from base. A buy fill subtracts cumQuoteQty from quote and adds executedQty to base. |
| `FollowOrderbook.SettleBuyThenSell` | follow_orderbook.py:64-71 | A buy fill followed by a sell fill of the same base amount restores the base balance and leaves exactly the sale's proceeds as the quote balance. |
| `FollowOrderbook.SettleSellExample` | follow_orderbook.py:64-67 | A sell of 1.0 filled for 100.0 sets the quote balance to exactly 100.0 and lowers the base by 1.0. |
| `FollowOrderbook.NewAsk` | follow_orderbook.py:160-163 | The new ask is max(bestAsk - tick, minask): never below minask, and equal to one of the two. |
| `FollowOrderbook.NewBid` | follow_orderbook.py:243-246 | The new bid is min(bestBid + tick, maxbid): never above maxbid, and equal to one of the two. |
| `FollowOrderbook.SellDecision` | follow_orderbook.py:138-164 | The full sell table. An empty ask book raises. With no tracked order, place at NewAsk. An order at minask is kept whatever the book holds. An order at the best ask is cancelled and replaced exactly when its remaining size equals level 0's size and the gap to level 1 is more than one tick; otherwise it is kept, and a missing level 1 raises. Any other order is cancelled and replaced. Every placed price is >= minask, and a cancel names the tracked order. |
| `FollowOrderbook.BuyDecision` | follow_orderbook.py:221-248 | The mirror table for bids: NewBid, maxbid as the bound, the same crowding test, and every placed price <= maxbid. |
| `FollowOrderbook.SellReadsTopTwoLevels` | follow_orderbook.py:139-153 | Only the first two ask levels affect the decision. |
| `FollowOrderbook.SellUndercutIsKept` | follow_orderbook.py:147-157 | Once the ask placed at NewAsk is alone at the front of the book, with the old best ask behind it, the next tick keeps it. There is no churn. |
| `FollowOrderbook.BuyUndercutIsKept` | follow_orderbook.py:230-240 | The bid-side counterpart: a bid placed at NewBid and alone at the front is kept. |
| `FollowOrderbook.BuyKeepsOrderAtBestBid` | follow_orderbook.py:234-237 | With a best-first bid book and tick >= 0, a bid at the best bid is always kept. The gap second minus best is never more than a tick. |
| `FollowOrderbook.SellRepostsOrderAloneAtBestAsk` | follow_orderbook.py:147-158 | An ask alone at the best ask, with the next ask more than a tick away, is cancelled and reposted at NewAsk of its own price. |
| `FollowOrderbook.SellPlacesExample` | follow_orderbook.py:139-164 | Asks 100.00 x 1 and 100.05 x 2, tick 0.01, minask 99.00, nothing tracked: the client places at 99.99. |
| `FollowOrderbook.SellRepostsExample` | follow_orderbook.py:141-164 | The same book with an order resting at 99.99, which is below the best ask: the client cancels it and places again at 99.99. |
| `FollowOrderbook.FloorDiv` | follow_orderbook.py:254-255 | Python's floor division for either sign of the divisor: q * b <= a < (q + 1) * b when b > 0, and mirrored when b < 0. |
| `FollowOrderbook.StepsAffordable` | follow_orderbook.py:254-255 | Python's floor of quote / (price * step) for either sign. For positive price and step it is the largest number of steps whose cost at the given price does not exceed the quote amount. |
| `FollowOrderbook.BuyQuantity` | follow_orderbook.py:250-258 | A positive quantity_to_buy is used as is. Otherwise a non-zero quote balance, with a non-zero price and a set, non-zero step, always succeeds and buys a whole number of steps: the largest quantity whose cost at the price does not exceed the balance. Price 0 or step 0 raises division by zero. An unset step raises. Neither basis raises NoSizingBasis. |
| `FollowOrderbook.BuyQuantityExample` | follow_orderbook.py:251-255 | 100.0 of quote at price 30.0 with step 0.001 buys 3.333. |
| `FollowOrderbook.Client.Seller` | follow_orderbook.py:111-119 | A sell client: the given quantity and minask, quote balance 0, OCO exactly when both stop values are non-zero, nothing tracked, and the increments from ResolveIncrements. |
| `FollowOrderbook.Client.Buyer` | follow_orderbook.py:195-202 | A buy client: quantity_to_buy and maxbid as given, both balances 0, OCO exactly when both stop values are non-zero. |
| `FollowOrderbook.Client.Trader` | follow_orderbook.py:281-296 | A trade client: the quantity goes to quantity_to_buy when starting on buy, otherwise to quantity. Both bounds are stored and both OCO flags stay false. |
| `FollowOrderbook.Client.FetchOrder` | follow_orderbook.py:58-76 | With no tracked order nothing changes. Otherwise the fetched record replaces the tracked order, and the balances become SettleFill of the old balances. |
| `FollowOrderbook.Client.CancelOrder` | follow_orderbook.py:78-83 | Logs a cancel of the tracked order if there is one, and always leaves no order tracked. |
| `FollowOrderbook.Client.SellOrder` | follow_orderbook.py:166-183 | Logs one placement of `quantity` at the price on the sell endpoint (limit or OCO) and tracks the exchange's answer. |
| `FollowOrderbook.Client.BuyOrder` | follow_orderbook.py:250-275 | Sizes with BuyQuantity. On an error it raises and changes nothing. Otherwise it logs one buy placement and tracks the answer. |
| `FollowOrderbook.Client.OrderbookSell` | follow_orderbook.py:138-164 | Carries out SellDecision on the tracked order: Keep changes nothing, and cancel-and-replace logs the cancel before the placement. It keeps the bound invariant. |
| `FollowOrderbook.Client.OrderbookBuy` | follow_orderbook.py:221-248 | Carries out BuyDecision in the same way. A sizing error after the cancel leaves no order tracked and only the cancel logged. |
| `FollowOrderbook.Client.ExecuteSell` | follow_orderbook.py:121-129 | Refreshes the order and settles any fill. FILLED or EXPIRED completes the client with no call. PARTIALLY_FILLED returns with no call. Otherwise it runs OrderbookSell on the refreshed order. SellTicked relates the states before and after. The run log is unchanged. |
| `FollowOrderbook.Client.ExecuteBuy` | follow_orderbook.py:204-212 | The same steps with OrderbookBuy, stated by BuyTicked. The run log is unchanged. |
| `FollowOrderbook.Client.ExecuteTrade` | follow_orderbook.py:298-312 | Only EXPIRED completes. PARTIALLY_FILLED returns. FILLED clears the order and flips the side, and the new side is repriced in the same tick with the balances just settled. TradeTicked relates the states before and after. The run log is unchanged. |
| `FollowOrderbook.Client.Execute` | follow_orderbook.py:97-98 | Runs the `execute` of the client's kind. It appends one run to `runs`, from the state before to the state after, and that run satisfies the kind's Ticked predicate. The call log only grows. |
| `FollowOrderbook.Client.Start` | follow_orderbook.py:94-101 | Runs `execute` on the ticks in order, one log entry per tick. The new runs form a chain of `execute` steps from the state at entry to the state at exit. Every run but the last returned without completing the client, and the last one's outcome is returned. The loop stops at completion, at a raised error, or when the ticks run out. It runs nothing, and changes nothing, when the client starts completed. The call log only grows, and the bound invariant holds throughout. |
| `FollowOrderbook.Client.ChainSnoc` | follow_orderbook.py:97-98 | A proof helper for Start: a chain of `execute` steps extended by one more step from its end state is again a chain. |

## Left out

- The exchange API calls (`get_symbol_info`, `get_order`, `get_order_book`, `cancel_order`, `order_limit_sell`, `order_limit_buy`, `order_oco_sell`) are a network service. Their answers are parameters and their requests are logged `Call` values.
- `get_orderbook` (lines 85-86) only wraps `get_order_book`. The snapshot it returns is the `book` of a `Tick`.
- Selecting the limit leg of an OCO report (lines 176-178, 268-270) only picks one record from an exchange response. The chosen leg is the `placed` order of a `Tick`.
- Exchange errors have no model, because exchange calls are inputs. In the source, `start` catches such errors, logs them and leaves the loop. The errors the core raises itself are modelled as `Raised`; `Start` stops on them.
- Credential loading (lines 34-38), `logging`, `log_start`, `time.sleep` and the wait interval are left out: they are I/O and timing.
- `configure_args`, the sell/buy/trade entry functions and the argparse block (lines 325-417) are command-line glue.
- `round_decimals_down` (lines 15-20) is never called.
- `FollowOrderbook.BuyQuantity`: computes `quote / price - (quote / price) % step` exactly, in whole steps. The source computes it in floats, and `%` there can lose a whole step. For example, quote 30.0, price 100.0 and step 0.1 give 0.2 in the source, but 0.3 in the model.
- `FollowOrderbook.SettleFill`: the balance updates of `fetch_order` are exact, where the source adds and subtracts unrounded floats.
- IEEE float rounding: all values are exact integers in 1e-8 units, and decimal strings from the exchange arrive already converted to that unit. A bound given with more than 8 decimals has no counterpart.
- A symbol unknown to the exchange (`get_symbol_info` returning nothing) has no model.
- `FollowOrderbook.ResolveIncrements`: when no tick size is given and quotePrecision > 8, the synthesized tick is finer than 1e-8 and cannot be represented in this model. The function then returns `TickBelowUnit`, whereas the source uses that small float.
- `FollowOrderbook.Client.Seller`: requires ResolveIncrements to succeed, because a Dafny constructor cannot raise. The failure cases are modelled by ResolveIncrements itself.
- `FollowOrderbook.Client.Buyer`: requires ResolveIncrements to succeed, for the same reason as `Seller`.
- `FollowOrderbook.Client.Trader`: requires ResolveIncrements to succeed, for the same reason as `Seller`.
- `FollowOrderbook.Client.Trader` takes the side as an already-validated `Side`. Lower-casing the side string, rejecting a side other than buy or sell (lines 282-284), and the unlowered comparison at line 287 are not modelled. That comparison differs from the lowered one only for upper-case input, which the command line never passes.
- Stop prices are integers in which 0 stands for "not given". The source tests stop values for truthiness, under which None and 0.0 agree.
- Concurrency: none exists (one thread, one tick at a time).
