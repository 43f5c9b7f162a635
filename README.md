# Stock trader game: the ledger engine in Dafny

This project models the engine of a single-player stock-trading game (`game.py`, class `Game`).
A player starts with cash on a simulated day partway into the price history. They can buy and
sell shares of a fixed set of stocks at historical closing prices. They can advance the
simulated day, and every salary period they are paid a salary. Each player is known only by
name. The engine keeps four per-player tables: cash, shares held per stock, the simulated day
and the salary anchor. Each table gives a default for a name it has never seen.

Layout:

- `rounding.dfy`, module `Rounding`: numpy's `floor` and `ceil` on exact reals.
- `ledger.dfy`, module `Ledger`: one player's ledger as a value (`Ledger`). It holds the price
  lookup, the pure transitions `BuyLedger`, `SellLedger` and `ProgressLedger`, and the queries
  `StockValue`, `TotalValue`, `MaxOrder` and `AvailableStockData`.
- `ledger_properties.dfy`, module `LedgerProperties`: lemmas that relate the operations to one
  another. They cover the buy/sell round trip, the `MaxOrder` bound, valuations after trades,
  the available history window and salary accrual.
- `game.dfy`, module `StockGame`: class `Game`. Its map fields `dayProgress`, `funds`,
  `stockAmount` and `lastSalaryAt` are the source's four dictionaries. `LedgerOf` reads a player
  through them with the defaults applied. The methods `Buy`, `Sell` and `ProgressDays` update
  the maps in place. Each method's `ensures` ties the player's new ledger to the matching pure
  transition, and also states that no other player's ledger changes. `Valid()` is the class
  invariant. It requires every player's cash to be non-negative, every holding to be
  non-negative and the day to be no earlier than the salary anchor.

The queries of the source (`stock_price`, `get_stock_value`, `get_total_value`, `max_order`,
`get_available_stock_data`) are functions of the price table and `LedgerOf(player)`.

Funds are an `int`. The starting cash is an integer. Every later change is `np.ceil` of a cost,
`np.floor` of proceeds, or a whole number of integer salaries, so the cash is always a whole
number. Prices are exact positive reals.

The model follows game.py as written. In particular:

- `progress_days` never moves `last_salary_at` (game.py:80-83). Salaries are therefore counted
  from the starting day on every call, and periods already paid are paid again. From day 30 with
  a 30-day period, two advances of 30 days credit 1000 and then 2000. A 65-day jump credits 2000,
  and the 5 days after it credit 2000 more, not 1000 (`DefaultSalarySchedule`). From a day
  on the salary anchor (a fresh player), after k one-period advances the player has been paid
  1 + 2 + ... + k salaries (`PeriodAdvancesRepaySalary`).
- The salary is always the starting cash (game.py:62). It cannot be configured on its own.
- Day 0 does not raise an out-of-range error in the code. Python's `iloc[-1]` wraps to the last
  bar. The model admits only days `1 <= day <= |series|`.
- An advance of 0 days is not a no-op in the code: it credits the owed salaries again. The model
  takes `n >= 1`, which is what the screen passes (app.py:65, app.py:83).
- The code does not check at construction that the series are long enough. Data loading is not
  part of this model (see below).

## Model

| member | source | states |
|---|---|---|
| `Rounding.Floor` | game.py:77 | np.floor: the result is the greatest integer not above x |
| `Rounding.Ceil` | game.py:66 | np.ceil: the result is the least integer not below x |
| `Ledger.NewLedger` | game.py:58-63 | a first reference yields funds = initial_funds, day = initial_days, salary anchor = initial_days and no shares of any stock |
| `StockGame.Game.LedgerOf` | game.py:58-63 | a player absent from all four tables gets exactly the starting ledger; otherwise each field comes from its own table, with that table's default |
| `StockGame.Game.constructor` | game.py:56-63 | the price table holds exactly the given stocks with their loaded series; salary = initial_funds; every player name reads as the starting ledger; the invariant holds |
| `Ledger.StockPrice` | game.py:85-86 | day d reads the bar at index d - 1; the price is positive when the table's prices are |
| `LedgerProperties.FirstDayReadsFirstBar` | game.py:85-86 | day 1 trades at the first bar |
| `Ledger.BuyLedger` | game.py:65-71 | refused (NotEnoughFunds) exactly when ceil(price * n) exceeds the cash; otherwise cash falls by exactly that ceiling, the stock's holding rises by n, other holdings, the day and the anchor are unchanged, and a valid ledger stays valid |
| `Ledger.SellLedger` | game.py:73-78 | refused (NotEnoughStocks) exactly when n exceeds the holding, for any stock name and day, with no price needed; otherwise cash rises by exactly floor(n * price), the holding falls by n, nothing else changes, and a valid ledger stays valid |
| `Ledger.SalariesOwed` | game.py:82 | the number of whole salary periods between the anchor and the day (floor division, non-negative) |
| `Ledger.ProgressLedger` | game.py:80-83 | the day grows by exactly n; cash grows by the whole periods since the (unmoved) anchor times the salary; holdings and the anchor are unchanged; validity and non-decreasing cash are preserved |
| `StockGame.Game.Buy` | game.py:65-71 | on refusal returns NotEnoughFunds and the player's ledger is unchanged; otherwise the player's new ledger is `BuyLedger` of the old; no other player's ledger changes; the invariant is kept |
| `StockGame.Game.Sell` | game.py:73-78 | on refusal returns NotEnoughStocks and the player's ledger is unchanged; otherwise the new ledger is `SellLedger` of the old; no other player changes; the invariant is kept |
| `StockGame.Game.ProgressDays` | game.py:80-83 | the player's new ledger is `ProgressLedger` of the old; the salary-anchor table is left untouched; no other player changes; the invariant is kept |
| `LedgerProperties.SellWithoutPriceRefused` | game.py:73-75 | selling shares not held is refused with NotEnoughStocks even for a stock or day without a price, since the holding is checked before the price is read |
| `LedgerProperties.ZeroOrdersChangeNothing` | game.py:65-78 | a buy or a sell of 0 shares is accepted and leaves the cash and every holding as they were |
| `LedgerProperties.BuyThenSellNoProfit` | game.py:65-78 | buying n shares and selling them on the same day restores the holdings, day and anchor, and leaves the cash between one unit below the original and the original |
| `Ledger.MaxOrder` | game.py:95-101 | for "buy" in any letter case: the largest n whose rounded-up cost the cash covers; for "sell": the holding; any other order: UnknownOrder |
| `LedgerProperties.MaxBuyIsExact` | game.py:95-97 | buying the buy maximum is accepted, and buying one share more is refused |
| `LedgerProperties.MaxSellIsExact` | game.py:98-99 | selling the sell maximum is accepted, and selling one share more is refused |
| `LedgerProperties.ScreenOrdersRecognised` | game.py:96-98 | the upper-case orders "BUY" and "SELL" are handled as "buy" and "sell" |
| `Ledger.StockValue` | game.py:88-90 | the sum of holding × current price is non-negative for a valid ledger and positive prices |
| `LedgerProperties.NoSharesNoStockValue` | game.py:88-90 | a player holding no shares has a stock value of 0 |
| `LedgerProperties.StockValueAfterHoldingChange` | game.py:88-90 | changing one listed stock's holding by delta changes the stock value by exactly delta × its current price, and leaves it unchanged if the stock is not listed |
| `LedgerProperties.BuyKeepsTotalValue` | game.py:92-93 | after a buy the total value (stock value + cash) is at most what it was and less than one unit below it |
| `LedgerProperties.SellKeepsTotalValue` | game.py:92-93 | after a sell the total value is at most what it was and less than one unit below it |
| `Ledger.TotalValue` | game.py:92-93 | stock value plus cash; never negative for a valid ledger with positive prices |
| `Ledger.AvailableStockData` | game.py:103-105 | the same stocks as the table; each series is cut to its first min(day, length) bars |
| `LedgerProperties.AvailableDataEndsAtCurrentPrice` | game.py:103-105 | when the day has a bar, the window has exactly `day` bars, its last bar is the current price, and it holds the price of every day up to now |
| `LedgerProperties.PeriodAdvancesRepaySalary` | game.py:80-83 | from a day on the anchor, k advances of one period each add (1 + 2 + ... + k) salaries to the cash, because the anchor never moves |
| `LedgerProperties.RepeatedSalaryExceedsPeriods` | game.py:80-83 | from a day on the salary anchor (a fresh player), after two or more one-period advances with a positive salary, the cash has grown by more than one salary per period |
| `LedgerProperties.DefaultSalarySchedule` | game.py:80-83 | with the defaults (1000, day 30, period 30): 30 + 30 days credit 1000 then 2000; 65 days credit 2000 and the next 5 days 2000 more |

## Left out

- `load_data` (game.py:25-37) and the `TICKERS` table are left out. They fetch history over the network and normalise it with pandas floating point. The constructor takes each stock's relative closing series as an input (`loaded`), and the history length `period` is not modelled.
- `combine_data` (game.py:40-48) is left out. It only concatenates data frames, and the engine never calls it.
- app.py (the Streamlit screen) and plotly_display.py (charts) are left out as presentation. app.py only supplies the positive quantities and day counts that the `requires` clauses assume.
- Floating point is not modelled. Prices, costs and stock values are exact reals. numpy's float products and `//` can round in ways the exact model does not, for example at the edge of `max_order`.
- A `defaultdict` read also inserts the default entry. This is not modelled, so a failed buy or sell and `max_order` do not add table entries here. What `LedgerOf` returns is the same either way.
- Ledger.StockValue and Ledger.TotalValue: `StockValue` sums over the game's stock list, not over the names in the player's `stock_amount` table. That table holds every name ever read for the player, including names read by a refused `sell` (game.py:74) or by `max_order(..., 'sell')` (game.py:99), which store a 0 entry even for a name that is not a stock of the game. Listed stocks absent from the table hold 0 and exact sums do not depend on order, so for names of the game the value is the same. Both the model's `StockValue` and `TotalValue`, which adds the cash to it, ask for a price on the player's day for every listed stock, so a listed stock the player never traded whose series ends before that day is excluded. The source needs one for every name in the table, and raises `KeyError` once an unknown name has been stored there; the model does not capture that failure.
- Buying, valuing, successfully selling, or asking `max_order(..., 'buy')` for an unknown stock name (a `KeyError` in the source, game.py:86) or on a day past the end of a series (an `IndexError`) is outside the model, excluded by `HasPrice` / `AllPriced` preconditions. The screen only offers stocks from the table (app.py:70). A sell of more shares than held is modelled for any name and day: it raises NotEnoughStocks before reading a price (game.py:74-75).
- StockGame.Game.Buy: negative quantities are excluded by `n >= 0`, as the screen filters them (app.py:75, app.py:90). The source has no guard.
- StockGame.Game.Sell: negative quantities are excluded by `n >= 0`, as the screen filters them (app.py:75, app.py:90).
- StockGame.Game.ProgressDays: advances of fewer than one day are excluded by `n >= 1`, as the screen filters them (app.py:65, app.py:83). In the source, a 0-day advance pays the owed salaries again, and a negative one can take cash away.
- StockGame.Game.constructor: asks for distinct stock names, a non-negative starting cash, a starting day of at least 1 and a positive salary period. The source accepts anything. Duplicate names collapse into one dictionary entry, and a zero period fails with `ZeroDivisionError` at the first advance.
- Ledger.MaxOrder: lower-cases ASCII letters only; other characters are kept as they are. Python's `str.lower` maps every Unicode upper-case letter.
- Concurrency: the engine is single-threaded and has none.
