# Bybit trading bot: conversation workflows and portfolio metrics

`bot.py` is a Telegram bot that drives a Bybit account. Two pieces of its logic are modelled here.

**The two multi-step workflows the chat library runs for each user.**
- *Place order* goes through SYMBOL, ORDER_TYPE, SIDE, QUANTITY and, for a limit order, PRICE.
- *Set leverage* goes through SYMBOL and LEVERAGE.

Each step's handler does three things:
- stores one field in the per-user `user_data` dictionary;
- returns the next state or END;
- at the end, makes one exchange call (`place_order` or `set_leverage`).

**The figures computed by the wallet and positions views.**
- The portfolio value in USDT.
- For each position, the PnL percentage and the return on equity (ROE).
- The total unrealised PnL.

## How the model is organised

| file | module | models |
|---|---|---|
| `wrappers.dfy` | `Wrappers` | `Option` |
| `strings.dfy` | `Strings` | the string operations the handlers use: `startswith`, `split('_')`, `upper()` and `str(int)` |
| `metrics.dfy` | `Metrics` | the PnL-percentage and ROE formulas of `get_positions` |
| `positions.dfy` | `Positions` | the loop of `get_positions` over the position list, with a method and its reference function `TotalPnl` |
| `balance.dfy` | `Balance` | the nested loops of `get_balance`, with a method and its reference function `PortfolioValue` |
| `conversation.dfy` | `Conversation` | the handlers as functions over `user_data`, the two `ConversationHandler` tables, the application's dispatch of one update, the session invariant, and the workflow properties |
| `session.dfy` | `Sessions` | class `UserContext`: `user_data` and the two conversation states as fields the handler methods update in place, each proved equal to its function in `Conversation` |

### Modelling choices

- **Inputs supplied from outside.** Python's `float()` and `int()` are the functions `parseFloat` and `parseInt` of `Conversation.Env`; so is the exchange's reply to the call just made, which is a `retCode`/`retMsg` body or an exception.
- **Decimal arithmetic** is exact `real` arithmetic.
- **Exceptions.**
  - When a handler lets an exception escape, the result is `Raised`, and the conversation keeps its state. This is what python-telegram-bot does when a callback raises.
  - In the views, an exception that ends the view becomes `None` in place of the total.

## Behaviour of the code worth knowing

- `get_positions` reads `float(position.get('size', 0))` outside the inner `try` (bot.py:127). A size that is not a number therefore fails the whole view instead of skipping the record.
- `decimal.InvalidOperation` is not among the exceptions the inner handler catches. A malformed price, PnL or margin therefore also fails the view.
- A record with no `symbol` is skipped (a caught `KeyError`).
- A USDT coin sets the running portfolio total to its balance, discarding everything added before it (bot.py:85).
- `user_data` is never cleared. What the model proves instead is that a stale field cannot reach a request: the price is sent exactly for a limit order, a market order's quantity is the one just typed, and a limit order's price is the one just typed.
- The two workflows are separate conversations. Both can be active at once (`Conversation.BothWorkflowsActive`).
- The two workflows share `user_data['symbol']` (bot.py:270 and 449). Suppose a market buy of BTCUSDT is waiting for its quantity, and the user sets up leverage for ETHUSDT. The quantity typed next goes to the order workflow, which places a market buy of **ETHUSDT**; the leverage workflow is left waiting (`Conversation.LeverageSymbolLeaksIntoOrder`).
- The class `Sessions.UserContext` runs the corrected registration (`Conversation.Dispatch`), in which the conversations see `/start` and `/cancel` before the global command handlers. The registration as written is `Conversation.DispatchAsWritten`; the two differ only on those two commands.
- A quantity or price of zero or below is accepted as typed.
- For a losing position with a missing, blank or non-positive margin, the ROE is 0 (bot.py:147-150). The PnL indicator is then 🔴 while the ROE indicator is 🟢 (bot.py:154-155; `Metrics.LossWithoutMarginShowsGreenRoe`).
- `coin['coin']` is read outside the inner `try` (bot.py:81), and so is `account['coin']` (bot.py:79). A shown coin with no name, or an account with no coin list, fails the whole wallet view.
- `/cancel` does not end a workflow as registered (see Findings).

## Model

| member | source | states |
|---|---|---|
| Strings.Split | bot.py:269 | `split('_')` yields at least one piece, no piece contains the separator, and joining the pieces with it gives the input back |
| Strings.SplitJoin | bot.py:269 | round trip: splitting the join of separator-free pieces gives the pieces back |
| Strings.SplitTagged | bot.py:269 | an id `tag_rest` with a separator-free tag has a second piece (so `split('_')[1]` does not raise), and that piece is the part of `rest` before its first `_` |
| Strings.Upper | bot.py:366-367 | `upper()` keeps the length and maps each character through the ASCII upper-case map |
| Strings.UpperIdempotent | bot.py:366-367 | no lower-case letter remains after `upper()`, and applying it twice changes nothing |
| Strings.DecimalString | bot.py:468-469 | `str(n)` is a non-empty digit string with no leading zero |
| Strings.DecimalStringRoundTrip | bot.py:468-469 | reading back the digits of `str(n)` gives `n` |
| Strings.DecimalStringInjective | bot.py:468-469 | different leverages are sent as different strings |
| Metrics.PnlPercent | bot.py:138-144 | with a positive entry price, percent × entry = (mark − entry) × 100 when the side is exactly "Buy" and (entry − mark) × 100 for any other side; 0 when entry ≤ 0 |
| Metrics.MarkFromPnlPercent | bot.py:138-142 | inverse: the mark price is recovered from the entry price, the side and the percentage |
| Metrics.PnlPercentSign | bot.py:138-142 | the percentage is positive iff the position is in profit on its side, and zero iff the price did not move |
| Metrics.PnlPercentSidesOpposite | bot.py:139-142 | any side other than "Buy" shows the negation of the "Buy" percentage |
| Metrics.PnlPercentExamples | bot.py:138-144 | a move from 100 to 110 shows +10% for "Buy" and −10% for "Sell"; an entry of 0 shows 0 |
| Metrics.Roe | bot.py:147-150 | with a positive margin amount, ROE × margin = PnL × 100; a missing, blank or non-positive margin gives 0; a margin that is not a decimal raises |
| Metrics.PnlFromRoe | bot.py:147-148 | inverse: ROE × margin / 100 gives the PnL back |
| Metrics.RoeSignFollowsPnl | bot.py:147-155 | for a positive margin amount, the ROE indicator and the PnL indicator agree: ROE ≥ 0 iff PnL ≥ 0 |
| Metrics.LossWithoutMarginShowsGreenRoe | bot.py:147-155 | for a missing, blank or non-positive margin, a loss has ROE 0: the PnL indicator is red while the ROE indicator is green |
| Metrics.RoeExamples | bot.py:147-150 | 50 on a 500 margin is 10%; a zero margin gives 0 |
| Positions.Assess | bot.py:127-176 | per record, each case an iff. Closed iff size ≤ 0. Counted iff open, with numeric prices and PnL, a margin that is not malformed, a symbol and a non-blank margin; it counts its `unrealisedPnl` with the `PnlPercent` and `Roe` values. Skipped iff the same holds except the symbol is missing. Aborted iff the size is not a number, or the record is open and has a non-numeric field, a malformed margin, or a symbol with a blank margin |
| Positions.PositionsTotal | bot.py:125-178 | the loop's `total_pnl` equals the reference `TotalPnl`: the sum of the counted records' PnL, or no total when a record aborts |
| Positions.SkippedRecordIgnored | bot.py:127-178 | a closed or skipped record leaves the total exactly as it would be without it, and the records after it are still processed |
| Positions.AbortingRecordFailsView | bot.py:116-213 | a record whose processing raises an exception the inner handler does not catch leaves the view with no total, wherever that record stands |
| Positions.TotalIsSumOverCounted | bot.py:125-178 | when nothing aborts, the total is the sum of `unrealisedPnl` over exactly the open records processed without error; it is 0 for an empty list |
| Positions.NonNumericSizeFailsView | bot.py:127 | a size that is not a number fails the whole view, because it is read outside the inner `try` |
| Positions.OpenBesideClosedAndSkipped | bot.py:125-178 | a closed record, an open record and a record without a symbol total exactly the open record's PnL |
| Balance.Visit | bot.py:80-99 | one coin: aborts iff its balance is missing or not a number, or is positive while the coin has no name or a non-numeric available amount; a non-positive balance changes nothing; a USDT coin sets the total to its balance; any other coin adds its converted value |
| Balance.TotalUsdt | bot.py:77-99 | the nested loops' `total_usdt` equals the reference `PortfolioValue` over all accounts' coins in order |
| Balance.FailsFromHere | bot.py:69-114 | any aborting coin, in any account, fails the whole view |
| Balance.RunAppend | bot.py:78-79 | the walk over a concatenation of coin lists is the walk over the first list continued over the second |
| Balance.NoUsdtTotalIsSum | bot.py:77-97 | with no shown USDT coin, the portfolio value is the sum of balance × last price over the coins whose lookup succeeded |
| Balance.RunSucceeds | bot.py:77-99 | a wallet with no aborting coin always produces a total: failed price lookups never stop the loop |
| Balance.UsdtResetsTotal | bot.py:84-85 | the USDT quirk: the value is the last shown USDT balance plus the converted values of the coins after it; everything before is forgotten |
| Balance.ZeroBalanceCoinIgnored | bot.py:80 | a coin whose balance is not positive changes nothing |
| Balance.FailedLookupCostsItsValue | bot.py:88-99 | when no USDT coin follows, a failed price lookup lowers the total by exactly balance × price and changes nothing else |
| Balance.FailedLookupMaskedByLaterUsdt | bot.py:85-99 | a failed lookup followed later by a shown USDT coin does not change the total |
| Balance.MissingCoinListFailsView | bot.py:78-79 | an account without a `coin` list fails the whole view, wherever it stands |
| Balance.NamelessCoinFailsView | bot.py:80-81 | a shown coin without a `coin` name fails the whole view, wherever it stands |
| Balance.UsdtAfterBtcExample | bot.py:77-99 | 1 BTC at 100 followed by 50 USDT is valued at 50; in the other order it is valued at 150 |
| Conversation.StartPlaceOrder | bot.py:245-260 | moves to SYMBOL with no call and `user_data` unchanged |
| Conversation.StartSetLeverage | bot.py:429-442 | moves to SYMBOL with no call and `user_data` unchanged |
| Conversation.BackToMainMenu | bot.py:500-528 | ends the conversation with no call; `user_data` is not cleared |
| Conversation.Cancel | bot.py:491-498 | ends the conversation with no call; `user_data` is not cleared |
| Conversation.StoreChoice | bot.py:269-270 | writes at most one key; moves on iff the id has a second `_` piece, storing exactly that piece; otherwise raises with `user_data` unchanged |
| Conversation.SelectOrderType | bot.py:262-285 | `back_to_menu` ends; any other id with a second piece stores the symbol and moves to ORDER_TYPE; only the symbol is written |
| Conversation.SelectSide | bot.py:287-310 | `back_to_menu` ends; any other id with a second piece stores the order type and moves to SIDE; only that key is written |
| Conversation.EnterQuantity | bot.py:312-329 | `back_to_menu` ends; any other id with a second piece stores the side, and moves to QUANTITY iff a symbol string is stored (the prompt reads it) |
| Conversation.BuildRequest | bot.py:362-372 | a request exists iff every key it reads is present with the right type; category "linear"; the stored symbol and quantity; side and type upper-cased; a price exactly for a limit order, equal to the stored price |
| Conversation.OrderReport | bot.py:376-403 | success iff `retCode == 0`; any other code reports `retMsg` verbatim; an exception reports an error |
| Conversation.PlaceOrder | bot.py:361-405 | always ends; the call is made iff the request can be built, and it is exactly that request; the notice classifies the reply |
| Conversation.HandleQuantity | bot.py:331-348 | a parse failure keeps QUANTITY with nothing changed; otherwise the quantity is stored, then a limit order moves to PRICE with no call, any other type places the order, and a missing type raises |
| Conversation.HandlePrice | bot.py:350-359 | a parse failure keeps PRICE with nothing changed; otherwise the price is stored and the order placed |
| Conversation.EnterLeverage | bot.py:444-454 | stores the symbol and moves to LEVERAGE; only that key is written |
| Conversation.HandleLeverage | bot.py:456-489 | a parse failure or an integer outside [1, 100] keeps LEVERAGE with no call; a call is made iff the integer is in range and a symbol is stored, with `str(leverage)` for both legs; a reply ends the conversation and reports success iff `retCode == 0`; it raises iff in range and there is no symbol or the call raises |
| Conversation.BackMatchesNoPattern | bot.py:541-585 | `back_to_menu` matches none of the per-state callback patterns |
| Conversation.OrderStep | bot.py:538-566 | idle, the conversation takes only `place_order`. In a state it takes an update iff that state's own pattern matches it (`OrderAccepts`), or it is `back_to_menu` or `/cancel`, and it declines everything else. A matched update runs that state's handler; `back_to_menu` and `/cancel` end the conversation. An exchange call comes only from a text message in QUANTITY or PRICE |
| Conversation.LeverageStep | bot.py:570-586 | idle, the conversation takes only `set_leverage`. In a state it takes an update iff that state's pattern matches it (`LeverageAccepts`), or it is `back_to_menu` or `/cancel`, and it declines everything else. A matched update runs that state's handler; `back_to_menu` and `/cancel` end the conversation. An exchange call comes only from a text message in LEVERAGE |
| Conversation.CancelAllOrders | bot.py:407-427 | one `cancel_all_orders` call for linear USDT orders; reports success iff `retCode == 0`, otherwise `retMsg` verbatim; an exception is reported |
| Conversation.Elsewhere | bot.py:530-594 | the handlers outside the conversations change neither conversation state nor `user_data`; a state-changing exchange call is made iff the update is the `cancel_orders` button, and it is `cancel_all_orders` |
| Conversation.Dispatch | bot.py:538-594 | only the conversation that takes an update changes its state. An order or leverage call comes only from a text message taken by a conversation; a `cancel_all_orders` call comes only from the `cancel_orders` button |
| Conversation.DispatchToLeverage | bot.py:570-587 | unfolding step for the path lemmas: when the order conversation declines an update and the leverage conversation takes it, only the leverage state and `user_data` change |
| Conversation.DispatchAsWritten | bot.py:534-594 | as registered, `/cancel` is always taken by the global command handler, which changes nothing; every update other than `/start` and `/cancel` is dispatched as in `Dispatch` |
| Conversation.DispatchOnlyAddsKeys | bot.py:262-489 | no update removes a key from `user_data`, and the leverage conversation writes at most the symbol |
| Conversation.InitialWellFormed | bot.py:538-587 | a fresh user satisfies the session invariant |
| Conversation.PatternsHaveSecondPiece | bot.py:542-574 | every id matched by `^symbol_`, `^type_`, `^side_` or `^leverage_` has a second `_` piece |
| Conversation.OrderStepDoesNotRaise | bot.py:262-405 | in a well-formed session no place-order callback raises: each key it reads was stored by an earlier step |
| Conversation.LeverageStepRaisesOnlyFromCall | bot.py:444-489 | in a well-formed session a set-leverage callback raises only when the `set_leverage` call itself raises |
| Conversation.OrderStepKeepsWellFormed | bot.py:538-566 | every step of the place-order conversation keeps the session invariant |
| Conversation.SymbolChosen | bot.py:542 | choosing a pair in SYMBOL keeps the invariant |
| Conversation.TypeChosen | bot.py:546 | choosing a type in ORDER_TYPE keeps the invariant |
| Conversation.SideChosen | bot.py:550 | choosing a side in SIDE keeps the invariant |
| Conversation.QuantityTyped | bot.py:554 | a text in QUANTITY keeps the invariant |
| Conversation.PriceTyped | bot.py:558 | a text in PRICE keeps the invariant |
| Conversation.LeverageStepKeepsWellFormed | bot.py:570-586 | every step of the set-leverage conversation keeps the session invariant |
| Conversation.DispatchKeepsWellFormed | bot.py:534-594 | every update keeps the session invariant, under either registration order |
| Conversation.OrderRequestFromThisWorkflow | bot.py:331-372 | an order is placed only by the text message that completes the workflow, in QUANTITY or PRICE; the request carries the stored symbol, upper-cased side and type, and a price exactly for a limit order; a market order's quantity is the one just typed; a limit order's price is the one just typed |
| Conversation.PlaceOrderPath | bot.py:245-329 | from idle, the entry button, a pair, a type and a side lead through SYMBOL, ORDER_TYPE and SIDE to QUANTITY; each step stores its id's second piece, and no call is made |
| Conversation.EnterOrder | bot.py:539 | unfolding step for the path lemmas: the entry button starts the place-order conversation |
| Conversation.ChoosePair | bot.py:262-285 | a pair button in SYMBOL stores the pair and moves to ORDER_TYPE |
| Conversation.ChooseType | bot.py:287-310 | a type button in ORDER_TYPE stores the type and moves to SIDE |
| Conversation.ChooseSide | bot.py:312-329 | a side button in SIDE stores the side and moves to QUANTITY |
| Conversation.TaggedId | bot.py:269 | `tag_payload` matches the tag's pattern, and its second piece is the payload's first piece |
| Conversation.SetLeveragePath | bot.py:429-454 | from idle, the entry button and a pair lead through SYMBOL to LEVERAGE, storing the pair with no call; the order workflow's state is untouched |
| Conversation.ChooseLeveragePair | bot.py:444-454 | a pair button in the set-leverage SYMBOL state stores the pair and moves to LEVERAGE with no call, whatever the order workflow's state |
| Conversation.OrderIgnoresLeverageChoice | bot.py:538-566 | no state of the place-order conversation takes a `leverage_` button |
| Conversation.NavigationEndsWorkflow | bot.py:538-586 | `back_to_menu`, and `/cancel` once the conversations see it, end the active workflow from every state, with no call and `user_data` kept |
| Conversation.IdleSessionIgnoresInput | bot.py:538-594 | with no workflow active, every update other than the two entry buttons changes nothing, under either registration order; it makes a state-changing exchange call iff it is the `cancel_orders` button |
| Conversation.TypeQuantity | bot.py:554 | unfolding step for the path lemmas: a text in QUANTITY goes to `handle_quantity` |
| Conversation.TypePrice | bot.py:558 | unfolding step for the path lemmas: a text in PRICE goes to `handle_price` |
| Conversation.TypeLeverage | bot.py:578 | unfolding step for the path lemmas: a text in LEVERAGE goes to `handle_leverage` unless the order workflow is waiting for text |
| Conversation.StandardSidesUpperCase | bot.py:366 | the side buttons' `buy` and `sell` are sent as `BUY` and `SELL` |
| Conversation.StandardTypesUpperCase | bot.py:367 | the type buttons' `market` and `limit` are sent as `MARKET` and `LIMIT` |
| Conversation.MarketBuyRequest | bot.py:362-372 | the request for a market buy of the stored pair, with no price |
| Conversation.LimitBuyRequest | bot.py:362-372 | the request for a limit buy of BTCUSDT, with its price |
| Conversation.OrderButtons | bot.py:538-551 | the four buttons lead from a fresh user to QUANTITY, with exactly pair, type and side stored |
| Conversation.LimitQuantityWaits | bot.py:331-340 | for a limit order, the parsed quantity is stored and the workflow moves to PRICE with no call |
| Conversation.LimitPricePlaces | bot.py:350-405 | the parsed price sends the limit request and ends the workflow |
| Conversation.MarketQuantityPlaces | bot.py:331-405 | for a market order, the parsed quantity sends the market request for the stored symbol at once and ends the workflow; the set-leverage conversation's state is untouched |
| Conversation.LimitBuyTrace | bot.py:331-405 | "0.01" then "50000" place exactly the limit request for 0.01 BTCUSDT at 50000; success is reported iff `retCode == 0` |
| Conversation.LeverageTrace | bot.py:456-489 | 150 is refused and the workflow keeps waiting; 25 sends one call with "25" for both legs and ends it |
| Conversation.BothWorkflowsActive | bot.py:538-587 | the leverage button, pressed while an order is under way in any state, starts the second workflow alongside the first |
| Conversation.LeveragePairOverwritesSymbol | bot.py:444-449 | a leverage pair button pressed while a BTCUSDT market buy waits for its quantity replaces the order's stored symbol |
| Conversation.LeverageSymbolLeaksIntoOrder | bot.py:270-449 | with a BTCUSDT market buy waiting, `set_leverage`, `leverage_ETHUSDT` and `1` place a market buy of ETHUSDT, and leave the leverage workflow waiting in LEVERAGE |
| Conversation.OrderIgnoresLeverageButton | bot.py:538-566 | no state of the place-order conversation takes the `set_leverage` button |
| Conversation.OrderButtonsAsWritten | bot.py:534-551 | under the registration as written, the four buttons also lead to QUANTITY |
| Conversation.CancelIgnoredAsWritten | bot.py:534-566 | as registered, `/cancel` in QUANTITY is answered as cancelled, yet the workflow stays in QUANTITY and the next number places the order |
| Conversation.CancelEndsWorkflow | bot.py:491-498 | with the conversations consulted first, `/cancel` ends the workflow and the next number places nothing |
| Sessions.UserContext.constructor | bot.py:538-587 | a new user: no conversation, empty `user_data`, the invariant holds |
| Sessions.UserContext.StoreChoice | bot.py:269-270 | updates `user_data` in place exactly as `Conversation.StoreChoice` specifies |
| Sessions.UserContext.SelectOrderType | bot.py:262-285 | the in-place `select_order_type`, equal to its function |
| Sessions.UserContext.SelectSide | bot.py:287-310 | the in-place `select_side`, equal to its function |
| Sessions.UserContext.EnterQuantity | bot.py:312-329 | the in-place `enter_quantity`, equal to its function |
| Sessions.UserContext.PlaceOrder | bot.py:361-405 | builds the request step by step and changes nothing; always ends; calls iff the stored fields are complete; the request is `BuildRequest`'s, with a price iff the type is limit |
| Sessions.UserContext.HandleQuantity | bot.py:331-348 | the in-place `handle_quantity`, equal to its function |
| Sessions.UserContext.HandlePrice | bot.py:350-359 | the in-place `handle_price`, equal to its function |
| Sessions.UserContext.EnterLeverage | bot.py:444-454 | the in-place `enter_leverage`, equal to its function |
| Sessions.UserContext.HandleLeverage | bot.py:456-489 | equal to its function: a call iff the parsed integer is in [1, 100] and a symbol is stored; without a call, a return that is not a raise stays in LEVERAGE |
| Sessions.UserContext.Navigate | bot.py:491-528 | the navigation handlers take exactly `back_to_menu` and `/cancel`, and both end the conversation |
| Sessions.UserContext.OrderCallback | bot.py:538-566 | the place-order conversation on the context: takes the update iff `OrderStep` does, with the same outcome, and otherwise leaves `user_data` untouched |
| Sessions.UserContext.LeverageCallback | bot.py:570-586 | the same for the set-leverage conversation and `LeverageStep` |
| Sessions.UserContext.Handle | bot.py:538-594 | one update changes the context exactly as the corrected `Dispatch` does (conversations before the `/start` and `/cancel` commands), and a well-formed context stays well formed |

## Left out

- Telegram transport, inline keyboards, message wording, Markdown, and the `:.2f`/`:.8f` display conversions. A handler's message is reduced to a `Notice`.
- The pybit client. Each state-changing exchange call (`place_order`, `set_leverage`, `cancel_all_orders`) becomes an outgoing `Call` value, and its reply an input (`Reply`). The read-only queries (`get_wallet_balance`, `get_tickers`, `get_positions`, `get_open_orders`) are not `Call`s: their answers are inputs, namely the `Balance.Account` and `Balance.Coin` values, the per-coin `lastPrice`, and the `Positions.PositionRecord` sequences.
- Reading the ticker reply (bot.py:87-94) becomes the per-coin `lastPrice` input, which is `None` when the lookup yields no price.
- `get_orders` (bot.py:215-243) only echoes fields verbatim, so it holds no logic to model.
- `/start` (bot.py:32-67) and the read-only menu buttons are modelled only as handlers that do not touch the session (`Conversation.Elsewhere`).
- The `'result'`/`'list'` checks of the two views (bot.py:76 and 124): the account and position lists are inputs. When the checks fail, the view shows no total, which the model does not represent.
- The Total PnL line is displayed only when the total is not zero (bot.py:180). The model reports the total itself.
- `float()`, `int()` and Python's number grammar are the inputs `parseFloat`/`parseInt`.
- The float comparisons at bot.py:80 and bot.py:127 are comparisons of reals.
- The `Decimal` context (precision and rounding) is not modelled; arithmetic is exact.
- Strings.Upper: upper-cases ASCII letters only. Python's `str.upper` also maps other Unicode letters.
- Conversation.HandleLeverage: an exception from `reply_text` after the call is not distinguished from the call raising; both keep LEVERAGE.
- Conversation.PlaceOrder: an exception raised while sending the report is absorbed like any other, as the code's `except Exception` does; it is not separately represented.
- Balance.FailedLookupCostsItsValue: states the cost of a failed lookup only when no shown USDT coin follows it. When one does follow, `Balance.FailedLookupMaskedByLaterUsdt` states that the total is unchanged.
- The worked traces (`Conversation.LimitBuyTrace`, `Conversation.CancelIgnoredAsWritten`, `Conversation.CancelEndsWorkflow`) start from the session that `Conversation.OrderButtons` and `Conversation.OrderButtonsAsWritten` prove the four buttons reach. They do not repeat that chain themselves.
- Logging, `asyncio` scheduling, loading credentials from the environment, `run_polling`, and the unused module-level `user_data = {}` (bot.py:30).
- Concurrency between users: each user's context is independent, and the model covers one.

## Findings

| source | as written | input that shows it | evidently intended | confidence | as-written member | corrected member |
|---|---|---|---|---|---|---|
| bot.py:534-535, 563, 583 | `CommandHandler("cancel", cancel)` is registered in the default group before both ConversationHandlers. The library gives an update to the first matching handler of a group, so the global handler answers every `/cancel`, and the conversations' `/cancel` fallback never runs. The user is told "Operation cancelled." while the workflow stays in its state. | Press `place_order`, `symbol_BTCUSDT`, `type_market`, `side_buy`; send `/cancel`; then send `1`. The reply says the operation was cancelled, yet the `1` places a market buy of 1 BTCUSDT. | `/cancel` ends the active workflow (the fallbacks at lines 563 and 583), so the `1` that follows places nothing. | not executed; relies on python-telegram-bot's first-match-per-group dispatch | Conversation.CancelIgnoredAsWritten | Conversation.CancelEndsWorkflow |
