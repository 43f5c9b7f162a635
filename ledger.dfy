/**
 * The per-player ledger of the trading game and the operations on it, as
 * values. `Game` in `StockGame` keeps one such ledger per player name and
 * its methods are specified by the functions here.
 *
 * Prices are the relative closing values of each stock, one per trading day,
 * taken as exact positive reals. A player on day `d` trades and is valued at
 * the bar at index `d - 1`.
 */
module Ledger {
  import opened Rounding

  /** Closing price series per stock name, index 0 the oldest bar. */
  type StockData = map<string, seq<real>>

  /** The two `NotEnoughException` raises, and the unknown-order error of `max_order`. */
  datatype Failure = NotEnoughFunds | NotEnoughStocks | UnknownOrder(order: string)

  datatype Result<T> = Ok(value: T) | Err(failure: Failure)

  /**
   * What the game knows about one player: cash, shares held per stock
   * (a missing stock holds 0), the simulated day and the day salaries are
   * counted from.
   */
  datatype Ledger = Ledger(funds: int, holdings: map<string, int>, day: int, lastSalaryAt: int)

  /** Shares of `stock` held; a stock never traded holds none. */
  function Holding(l: Ledger, stock: string): int
  {
    if stock in l.holdings then l.holdings[stock] else 0
  }

  /** The ledger a player gets on first reference. */
  function NewLedger(initialFunds: int, initialDays: int): (l: Ledger)
    ensures l.funds == initialFunds && l.day == initialDays && l.lastSalaryAt == initialDays
    ensures forall stock :: Holding(l, stock) == 0
  {
    Ledger(initialFunds, map[], initialDays, initialDays)
  }

  /** Cash never negative, no short positions, day never behind the salary anchor. */
  predicate ValidLedger(l: Ledger)
  {
    && l.funds >= 0
    && (forall stock :: stock in l.holdings ==> l.holdings[stock] >= 0)
    && 1 <= l.lastSalaryAt <= l.day
  }

  /** Every closing price in the table is positive. */
  predicate PricesPositive(data: StockData)
  {
    forall stock, i :: stock in data && 0 <= i < |data[stock]| ==> data[stock][i] > 0.0
  }

  /** `stock` has a bar for simulated day `day`. */
  predicate HasPrice(data: StockData, stock: string, day: int)
  {
    stock in data && 1 <= day <= |data[stock]|
  }

  /**
   * The price of `stock` on simulated day `day`: the bar before the nominal
   * day, so day 1 reads the first bar.
   */
  function StockPrice(data: StockData, stock: string, day: int): (price: real)
    requires HasPrice(data, stock, day)
    ensures price == data[stock][day - 1]
    ensures PricesPositive(data) ==> price > 0.0
  {
    data[stock][day - 1]
  }

  /**
   * Buying `n` shares of `stock` at the player's current price. The cost is
   * rounded up; when it exceeds the cash the purchase is refused as a whole.
   */
  function BuyLedger(data: StockData, l: Ledger, stock: string, n: int): (r: Result<Ledger>)
    requires n >= 0 && HasPrice(data, stock, l.day)
    ensures r.Err? <==> Ceil(StockPrice(data, stock, l.day) * n as real) > l.funds
    ensures r.Err? ==> r.failure == NotEnoughFunds
    ensures r.Ok? ==> && r.value.funds == l.funds - Ceil(StockPrice(data, stock, l.day) * n as real)
                      && Holding(r.value, stock) == Holding(l, stock) + n
                      && (forall other :: other != stock ==> Holding(r.value, other) == Holding(l, other))
                      && r.value.day == l.day && r.value.lastSalaryAt == l.lastSalaryAt
    ensures r.Ok? && ValidLedger(l) ==> ValidLedger(r.value)
  {
    var requiredFunds := Ceil(StockPrice(data, stock, l.day) * n as real);
    if requiredFunds > l.funds then
      Err(NotEnoughFunds)
    else
      Ok(l.(funds := l.funds - requiredFunds,
            holdings := l.holdings[stock := Holding(l, stock) + n]))
  }

  /**
   * Selling `n` shares of `stock` at the player's current price. The proceeds
   * are rounded down; selling more than is held is refused as a whole,
   * before any price is read, so a refusal needs no price for `stock`.
   */
  function SellLedger(data: StockData, l: Ledger, stock: string, n: int): (r: Result<Ledger>)
    requires n >= 0 && (n <= Holding(l, stock) ==> HasPrice(data, stock, l.day))
    ensures r.Err? <==> n > Holding(l, stock)
    ensures r.Err? ==> r.failure == NotEnoughStocks
    ensures r.Ok? ==> && r.value.funds == l.funds + Floor(n as real * StockPrice(data, stock, l.day))
                      && Holding(r.value, stock) == Holding(l, stock) - n
                      && (forall other :: other != stock ==> Holding(r.value, other) == Holding(l, other))
                      && r.value.day == l.day && r.value.lastSalaryAt == l.lastSalaryAt
    ensures r.Ok? && ValidLedger(l) && PricesPositive(data) ==> ValidLedger(r.value)
  {
    if n > Holding(l, stock) then
      Err(NotEnoughStocks)
    else
      var proceeds := Floor(n as real * StockPrice(data, stock, l.day));
      assert PricesPositive(data) ==> proceeds >= 0 by {
        if PricesPositive(data) {
          assert n as real * StockPrice(data, stock, l.day) >= 0.0;
        }
      }
      Ok(l.(funds := l.funds + proceeds,
            holdings := l.holdings[stock := Holding(l, stock) - n]))
  }

  /** Salaries owed on `day`, counted from `lastSalaryAt` (Python's `//` with a positive divisor). */
  function SalariesOwed(day: int, lastSalaryAt: int, salaryPeriod: int): (periods: int)
    requires salaryPeriod >= 1
    ensures lastSalaryAt <= day ==> 0 <= periods && periods * salaryPeriod <= day - lastSalaryAt < (periods + 1) * salaryPeriod
  {
    (day - lastSalaryAt) / salaryPeriod
  }

  /**
   * Advancing the player `n` days: the day moves on by `n` and one salary is
   * credited for every whole period between the salary anchor and the new
   * day. The anchor itself is not moved.
   */
  function ProgressLedger(l: Ledger, n: int, salaryPeriod: int, salary: int): (r: Ledger)
    requires n >= 1 && salaryPeriod >= 1
    ensures r.day == l.day + n
    ensures r.funds == l.funds + SalariesOwed(l.day + n, l.lastSalaryAt, salaryPeriod) * salary
    ensures r.holdings == l.holdings && r.lastSalaryAt == l.lastSalaryAt
    ensures ValidLedger(l) && salary >= 0 ==> ValidLedger(r) && r.funds >= l.funds
  {
    var day := l.day + n;
    var owed := SalariesOwed(day, l.lastSalaryAt, salaryPeriod);
    assert ValidLedger(l) && salary >= 0 ==> owed * salary >= 0;
    l.(day := day, funds := l.funds + owed * salary)
  }

  /** `stocks` names no stock twice. */
  predicate Distinct(stocks: seq<string>)
  {
    forall i, j :: 0 <= i < j < |stocks| ==> stocks[i] != stocks[j]
  }

  /** Every stock of `stocks` has a bar for `day`. */
  predicate AllPriced(stocks: seq<string>, data: StockData, day: int)
  {
    forall stock :: stock in stocks ==> HasPrice(data, stock, day)
  }

  /** Market value of the shares held, each stock at the player's current price. */
  function StockValue(stocks: seq<string>, data: StockData, l: Ledger): (v: real)
    requires AllPriced(stocks, data, l.day)
    ensures ValidLedger(l) && PricesPositive(data) ==> v >= 0.0
    decreases |stocks|
  {
    if stocks == [] then
      0.0
    else
      var rest := StockValue(stocks[1..], data, l);
      var here := Holding(l, stocks[0]) as real * StockPrice(data, stocks[0], l.day);
      assert ValidLedger(l) && PricesPositive(data) ==> here >= 0.0 by {
        if ValidLedger(l) && PricesPositive(data) {
          assert Holding(l, stocks[0]) >= 0;
        }
      }
      here + rest
  }

  /** Market value of the shares plus cash. */
  function TotalValue(stocks: seq<string>, data: StockData, l: Ledger): (v: real)
    requires AllPriced(stocks, data, l.day)
    ensures ValidLedger(l) && PricesPositive(data) ==> v >= 0.0
  {
    StockValue(stocks, data, l) + l.funds as real
  }

  /** ASCII lower-casing of one character; other characters are kept. */
  function LowerChar(c: char): char
  {
    if 'A' <= c <= 'Z' then (c as int + 32) as char else c
  }

  /** ASCII lower-casing of a string, character by character (`str.lower`). */
  function Lower(s: string): string
  {
    seq(|s|, i requires 0 <= i < |s| => LowerChar(s[i]))
  }

  /**
   * The largest order the player can place: for a buy (in any letter case)
   * the most shares the cash covers at the current price, for a sell the
   * shares held; any other order kind is an error.
   */
  function MaxOrder(data: StockData, l: Ledger, stock: string, order: string): (r: Result<int>)
    requires Lower(order) == "buy" ==> HasPrice(data, stock, l.day) && PricesPositive(data)
    ensures r.Err? <==> Lower(order) != "buy" && Lower(order) != "sell"
    ensures r.Err? ==> r.failure == UnknownOrder(order)
    ensures Lower(order) == "buy" ==> (
      && r.Ok?
      && Ceil(StockPrice(data, stock, l.day) * r.value as real) <= l.funds
      && Ceil(StockPrice(data, stock, l.day) * (r.value + 1) as real) > l.funds)
    ensures Lower(order) == "sell" ==> r == Ok(Holding(l, stock))
  {
    if Lower(order) == "buy" then
      var price := StockPrice(data, stock, l.day);
      var m := Floor(l.funds as real / price);
      FloorAtLeast(l.funds as real / price, m);
      BelowQuotient(m as real, l.funds as real, price);
      BelowQuotient((m + 1) as real, l.funds as real, price);
      CeilAtMost(price * m as real, l.funds);
      CeilAtMost(price * (m + 1) as real, l.funds);
      Ok(m)
    else if Lower(order) == "sell" then
      Ok(Holding(l, stock))
    else
      Err(UnknownOrder(order))
  }

  /**
   * The price history the player has lived through: each series cut after
   * the bar of the player's current day (Python slicing, so a series shorter
   * than `day` is returned whole).
   */
  function AvailableStockData(data: StockData, day: int): (r: StockData)
    requires day >= 0
    ensures r.Keys == data.Keys
    ensures forall stock :: stock in data ==>
      && |r[stock]| == (if day <= |data[stock]| then day else |data[stock]|)
      && r[stock] == data[stock][..|r[stock]|]
  {
    map stock | stock in data :: data[stock][..if day <= |data[stock]| then day else |data[stock]|]
  }
}
