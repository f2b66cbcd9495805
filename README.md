# Moving-average crossover bots, modelled in Dafny

The repository holds two bots for the LTCUSDT perpetual future. Both follow the
same 5-minute kline stream and keep a rolling window of at most 30 closing
prices. Once the window is full they compare the mean of the last 7 closes (the
fast average) with the mean of all 30 (the slow average). The signal is Long
when the fast average is strictly above the slow one and Short otherwise, so a
tie gives Short.

- The trading bot (`main.py`) acts on every kline update. When the signal
  differs from the last one it acted on, it turns the signal and the position
  reported by the exchange into market orders: open from flat, close then open
  when the position points the other way, nothing when it is already aligned.
  When the websocket loop is interrupted (Ctrl-C) or raises, its fail-safe
  flattens whatever position the exchange reports; a normal end of the loop
  exits without flattening.
  Its order size is 95% of the USDT balance divided by the last price, rounded
  to three decimals.
- The notification bot (`telegram_bot.py`) acts on closed candles only. A change
  of signal sends one message that carries the new signal and both averages.

The model has three modules:

- `Crossover` (`crossover.dfy`): the parameters, the feed message, the window
  slice `Recent` (Python's `s[-n:]`), `Sum`, `Mean` and `Classify`. It also holds
  lemmas about which windows are classified Long or Short. Both bots repeat the
  classification in the source; here it is defined once and both bots call it.
  Each bot's class keeps its own window update, as each source file does.
- `Trading` (`trading.dfy`): the position query, the sizing arithmetic, the
  order decisions as functions, and the class `Trader`. `Trader` holds the
  bot's global state (`prices`, `lastSignal`) and a log of placed orders.
- `TelegramBot` (`telegram_bot.dfy`): the class `Notifier`, with `prices`,
  `lastSignal` and a log of sent notices.

Answers from the exchange are method parameters. A `Reply<T>` is either the
answer or `Raised`, for a call that threw. Prices are exact reals. Each class
carries a ghost history `received` of every close it accepted. Its invariant
`Valid()` says that `prices` is the last `min(n, 30)` of those closes, oldest
first, and that a signal exists only once the window is full.

## Model

| member | source | states |
|---|---|---|
| `Crossover.Recent` | main.py:66-68 | the result holds the last n elements of `s` (all of them when `s` is shorter), in order |
| `Crossover.RecentAppend` | main.py:63-68 | appending a close and then truncating to the window keeps exactly the last `n` closes of the whole history |
| `Crossover.Mean` | main.py:72-73 | the mean times the number of closes equals their sum |
| `Crossover.MeanBetween` | main.py:72-73 | the mean lies between any lower and any upper bound of the closes |
| `Crossover.Classify` | main.py:72-82 | on a full window the signal is Long exactly when 30 × (sum of the last 7) > 7 × (sum of all 30); with `TieIsShort`, equal averages give Short |
| `Crossover.TieIsShort` | main.py:82 | equal fast and slow averages give Short |
| `Crossover.BreakoutIsLong` | main.py:72-82 | if the last 7 closes are all at or above a level that every earlier close is below, the signal is Long |
| `Crossover.SettleIsShort` | main.py:72-82 | if the last 7 closes are all at or below a level that every earlier close reaches, the signal is Short |
| `Crossover.RisingWindowIsLong` | telegram_bot.py:43-47 | a window of strictly rising closes is classified Long |
| `Crossover.ConstantWindowIsShort` | telegram_bot.py:43-47 | a window of one repeated close is classified Short |
| `Trading.GetPosition` | main.py:121-130 | the position is the first reported `positionAmt`; an empty answer or a failed call reads as 0 (flat) |
| `Trading.UsdtBalance` | main.py:43 | the balance is 0 or the balance of some USDT entry of the account |
| `Trading.UsdtBalanceIsFirstUsdt` | main.py:43 | the balance used is that of the first USDT entry of the account |
| `Trading.UsdtBalanceWithoutUsdt` | main.py:43 | an account without a USDT entry gives a balance of 0 |
| `Trading.RoundTo3` | main.py:51 | the result is a multiple of 0.001, within 0.0005 of the input, and non-negative for a non-negative input |
| `Trading.RoundTo3Nearest` | main.py:51 | no multiple of 0.001 is closer to the input than the rounded value |
| `Trading.PositionSize` | main.py:39-54 | a failed balance or price call, or a zero price, gives 0; otherwise the size is within 0.0005 of balance × 0.95 / price and a multiple of 0.001, and it is non-negative when balance ≥ 0 and price > 0 |
| `Trading.CrossoverOrders` | main.py:86-98 | at most two orders, all on the signal's side; none exactly when the position is already aligned; the last one opens `quantity` |
| `Trading.FlipIsFlattenThenOpen` | main.py:86-98 | for a flat or opposite position, the orders are the fail-safe's closing order followed by the opening order |
| `Trading.CrossoverReachesSignal` | main.py:86-98 | once the orders fill, an aligned position is kept and any other becomes exactly `quantity` on the signal's side |
| `Trading.CrossoverSymmetric` | main.py:93-98 | the Short branch is the Long branch with the position and every side reversed |
| `Trading.FailedQueryOpensFromFlat` | main.py:121-130 | when the position query fails, a signal change opens `quantity` as if the account were flat |
| `Trading.FlattenOrders` | main.py:144-154 | one order when the position is non-zero, none when flat; it is on the opposite side and its quantity is the position's absolute value |
| `Trading.FlattenLeavesFlat` | main.py:144-154 | once the flattening order fills the position is 0 |
| `Trading.Trader.constructor` | main.py:24-25 | the bot starts with an empty window, no signal and no orders |
| `Trading.Trader.PlaceOrder` | main.py:132-142 | an order is appended to the log whether or not the exchange accepts it |
| `Trading.Trader.Slide` | main.py:64-68 | the window becomes the last 30 of its old contents plus the new close, and the invariant is kept |
| `Trading.Trader.PlaceCrossoverOrders` | main.py:86-98 | the orders placed are exactly `CrossoverOrders` of the signal, position and quantity, in order |
| `Trading.Trader.OnMessage` | main.py:56-102 | a message without a kline changes nothing; otherwise the window slides; with fewer than 30 closes nothing else changes; with 30 the last signal becomes the window's signal, and orders are placed only when it differs from the previous one; a signal is never reset to none |
| `Trading.Trader.Evaluate` | main.py:71-101 | with fewer than 30 closes nothing changes; with 30 the last signal becomes the window's signal, and exactly the crossover orders for the reported position and computed size are placed when it differs from the previous signal, none otherwise |
| `Trading.Trader.CloseAllPositions` | main.py:144-156 | the orders placed are exactly `FlattenOrders` of the reported position; the program calls it only from the interrupt and error handlers around the websocket loop |
| `TelegramBot.ClosedCandle` | telegram_bot.py:36 | a message is evaluated exactly when it has a kline and that candle is closed |
| `TelegramBot.SignalNotice` | telegram_bot.py:44-50 | the notice carries the window's signal, the symbol, the mean of the last 7 closes and the mean of the whole window, and its signal is Long exactly when the first mean exceeds the second |
| `TelegramBot.Notifier.constructor` | telegram_bot.py:17-18 | the bot starts with an empty window, no signal and nothing sent |
| `TelegramBot.Notifier.Slide` | telegram_bot.py:38-41 | the window becomes the last 30 of its old contents plus the new close, and the invariant is kept |
| `TelegramBot.Notifier.Evaluate` | telegram_bot.py:43-53 | with fewer than 30 closes nothing changes; with 30 the last signal becomes the window's signal, and one notice with that signal and both averages is sent when it differs from the previous signal, none otherwise |
| `TelegramBot.Notifier.OnMessage` | telegram_bot.py:31-53 | a message that is not a closed candle changes nothing; otherwise the window slides; with fewer than 30 closes nothing else changes; with 30 the last signal becomes the window's signal, and exactly one notice is sent when it differs from the previous one, none otherwise |

## Left out

- Exchange calls (`futures_*`), `setup_leverage`, the websocket set-up, `run_forever`, `on_open`, `on_error` and `on_close`: they are I/O. Their answers are parameters, and placed orders are log entries.
- The connect and disconnect notices sent by the notification bot's `on_open` and `on_close`: they are outside the crossover logic.
- The HTTP call in `send_telegram_message`: a notice is logged as sent whether or not the call succeeds.
- JSON parsing and `float(...)` conversion: a message is modelled as an optional candle holding a close and a closed flag. A malformed close is not modelled.
- The trading bot does not check the closed flag. A message without a kline makes it raise before any state changes, and the websocket library reports that error. The model keeps the state unchanged in that case.
- `main()`'s handlers: only the `close_all_positions` decision they call is modelled.
- Logging with `print`, and the message text with its four-decimal formatting: a notice holds the values, not the text.
- Trading.RoundTo3: rounds exact reals half to even. Python rounds the binary float, so results can differ from it at exact ties and in the last bit.
- Trading.PositionSize: works on exact reals. IEEE rounding of `balance * 0.95 / price` is not modelled.
- Crossover.Classify: compares exact means. The floating-point rounding of `np.mean` is not modelled, so a near-tie may classify differently in the program.
- Trading.Trader.OnMessage: takes the position and sizing answers as parameters for every full-window message. The program queries the exchange at that point even when the signal is unchanged. The model does not count those queries.
- Safeguards the code does not implement are not modelled either:
  - There are no stop-loss orders.
  - There is no leverage in sizing.
  - Sizing rounds to the nearest 0.001 rather than toward zero, so the size can exceed balance × 0.95 / price by up to 0.0005, and its notional value can exceed 95% of the balance by up to 0.0005 × price.
  - A zero quantity is still ordered.
  - There is no timeout reconciliation.
  - There is no feed-staleness supervisor.
  - There is no lock or queue.
  - Non-positive prices are not rejected.
