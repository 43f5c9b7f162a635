/**
 * What the ledger operations promise when taken together: trading round
 * trips, the bound `MaxOrder` gives, valuations that agree with trade prices,
 * and the way salaries pile up because their anchor never moves.
 */
module LedgerProperties {
  import opened Rounding
  import opened Ledger

  /** Day 1 trades at the first bar of the series. */
  lemma FirstDayReadsFirstBar(data: StockData, stock: string)
    requires stock in data && |data[stock]| >= 1
    ensures StockPrice(data, stock, 1) == data[stock][0]
  {
  }

  /** Orders of zero shares change neither the cash nor any holding. */
  lemma ZeroOrdersChangeNothing(data: StockData, l: Ledger, stock: string)
    requires HasPrice(data, stock, l.day) && ValidLedger(l)
    ensures BuyLedger(data, l, stock, 0).Ok? && SellLedger(data, l, stock, 0).Ok?
    ensures BuyLedger(data, l, stock, 0).value.funds == l.funds
    ensures SellLedger(data, l, stock, 0).value.funds == l.funds
    ensures forall s :: Holding(BuyLedger(data, l, stock, 0).value, s) == Holding(l, s)
    ensures forall s :: Holding(SellLedger(data, l, stock, 0).value, s) == Holding(l, s)
  {
  }

  /**
   * Buying `n` shares and selling them again on the same day restores the
   * holdings and the day, and costs between nothing and one unit of cash:
   * the purchase is rounded up and the sale rounded down.
   */
  lemma BuyThenSellNoProfit(data: StockData, l: Ledger, stock: string, n: int)
    requires n >= 0 && HasPrice(data, stock, l.day) && ValidLedger(l)
    requires BuyLedger(data, l, stock, n).Ok?
    ensures var bought := BuyLedger(data, l, stock, n).value;
      && SellLedger(data, bought, stock, n).Ok?
      && var sold := SellLedger(data, bought, stock, n).value;
      && l.funds - 1 <= sold.funds <= l.funds
      && (forall s :: Holding(sold, s) == Holding(l, s))
      && sold.day == l.day && sold.lastSalaryAt == l.lastSalaryAt
  {
    var price := StockPrice(data, stock, l.day);
    var cost := price * n as real;
    var bought := BuyLedger(data, l, stock, n).value;
    assert bought.funds == l.funds - Ceil(cost);
    assert Holding(bought, stock) == Holding(l, stock) + n >= n;
    assert n as real * StockPrice(data, stock, bought.day) == cost;
    var sold := SellLedger(data, bought, stock, n).value;
    assert sold.funds == bought.funds + Floor(cost);
    FloorCeilGap(cost);
  }

  /**
   * Buying exactly the `MaxOrder` of a buy always goes through, and buying
   * one share more is always refused.
   */
  lemma MaxBuyIsExact(data: StockData, l: Ledger, stock: string)
    requires HasPrice(data, stock, l.day) && PricesPositive(data) && ValidLedger(l)
    ensures var m := MaxOrder(data, l, stock, "buy");
      && m.Ok? && m.value >= 0
      && BuyLedger(data, l, stock, m.value).Ok?
      && BuyLedger(data, l, stock, m.value + 1).Err?
  {
  }

  /**
   * Selling shares of a stock the player does not hold is refused with
   * NotEnoughStocks even when the stock has no price for the day, or is not
   * in the table at all: the holding is checked before the price is read.
   */
  lemma SellWithoutPriceRefused(data: StockData, l: Ledger, stock: string, n: int)
    requires n >= 1 && Holding(l, stock) == 0 && !HasPrice(data, stock, l.day)
    ensures SellLedger(data, l, stock, n) == Err(NotEnoughStocks)
  {
  }

  /**
   * Selling exactly the `MaxOrder` of a sell always goes through, and selling
   * one share more is always refused.
   */
  lemma MaxSellIsExact(data: StockData, l: Ledger, stock: string)
    requires HasPrice(data, stock, l.day) && ValidLedger(l)
    ensures var m := MaxOrder(data, l, stock, "sell");
      && m.Ok? && m.value >= 0
      && SellLedger(data, l, stock, m.value).Ok?
      && SellLedger(data, l, stock, m.value + 1).Err?
  {
  }

  /** The order kinds the trading screen offers, "BUY" and "SELL", are both recognised. */
  lemma ScreenOrdersRecognised(data: StockData, l: Ledger, stock: string)
    requires HasPrice(data, stock, l.day) && PricesPositive(data)
    ensures MaxOrder(data, l, stock, "BUY") == MaxOrder(data, l, stock, "buy")
    ensures MaxOrder(data, l, stock, "SELL") == Ok(Holding(l, stock))
  {
    assert Lower("BUY") == "buy";
    assert Lower("SELL") == "sell";
  }

  /** A player with no shares has no stock value. */
  lemma {:induction false} NoSharesNoStockValue(stocks: seq<string>, data: StockData, l: Ledger)
    requires AllPriced(stocks, data, l.day)
    requires forall s :: Holding(l, s) == 0
    ensures StockValue(stocks, data, l) == 0.0
    decreases |stocks|
  {
    if stocks != [] {
      NoSharesNoStockValue(stocks[1..], data, l);
    }
  }

  /**
   * Changing the holding of one listed stock by `delta`, on the same day,
   * changes the stock value by `delta` times that stock's price.
   */
  lemma {:induction false} StockValueAfterHoldingChange(
    stocks: seq<string>, data: StockData, l: Ledger, l': Ledger, stock: string, delta: int)
    requires Distinct(stocks) && AllPriced(stocks, data, l.day) && l'.day == l.day
    requires Holding(l', stock) == Holding(l, stock) + delta
    requires forall s :: s != stock ==> Holding(l', s) == Holding(l, s)
    ensures StockValue(stocks, data, l') ==
      StockValue(stocks, data, l) + (if stock in stocks then delta as real * StockPrice(data, stock, l.day) else 0.0)
    decreases |stocks|
  {
    if stocks != [] {
      var tail := stocks[1..];
      assert Distinct(tail);
      assert stock in stocks ==> (stock == stocks[0] <==> stock !in tail);
      StockValueAfterHoldingChange(tail, data, l, l', stock, delta);
      var p := StockPrice(data, stocks[0], l.day);
      if stocks[0] == stock {
        assert Holding(l', stock) as real * p == Holding(l, stock) as real * p + delta as real * p;
      }
    }
  }

  /**
   * A purchase of a listed stock never raises the total value, and loses less
   * than one unit of it: the shares are valued at the price paid, and only
   * the rounding up of the cost is lost.
   */
  lemma BuyKeepsTotalValue(stocks: seq<string>, data: StockData, l: Ledger, stock: string, n: int)
    requires Distinct(stocks) && AllPriced(stocks, data, l.day) && stock in stocks && n >= 0
    requires BuyLedger(data, l, stock, n).Ok?
    ensures var after := BuyLedger(data, l, stock, n).value;
      TotalValue(stocks, data, l) - 1.0 < TotalValue(stocks, data, after) <= TotalValue(stocks, data, l)
  {
    var after := BuyLedger(data, l, stock, n).value;
    var price := StockPrice(data, stock, l.day);
    StockValueAfterHoldingChange(stocks, data, l, after, stock, n);
    assert n as real * price == price * n as real;
  }

  /**
   * A sale of a listed stock never raises the total value, and loses less
   * than one unit of it: only the rounding down of the proceeds is lost.
   */
  lemma SellKeepsTotalValue(stocks: seq<string>, data: StockData, l: Ledger, stock: string, n: int)
    requires Distinct(stocks) && AllPriced(stocks, data, l.day) && stock in stocks && n >= 0
    requires SellLedger(data, l, stock, n).Ok?
    ensures var after := SellLedger(data, l, stock, n).value;
      TotalValue(stocks, data, l) - 1.0 < TotalValue(stocks, data, after) <= TotalValue(stocks, data, l)
  {
    var after := SellLedger(data, l, stock, n).value;
    var price := StockPrice(data, stock, l.day);
    StockValueAfterHoldingChange(stocks, data, l, after, stock, -n);
    assert (-n) as real * price == -(n as real * price);
  }

  /** The current price is the last bar of the player's available history. */
  lemma AvailableDataEndsAtCurrentPrice(data: StockData, stock: string, day: int)
    requires HasPrice(data, stock, day)
    ensures var window := AvailableStockData(data, day)[stock];
      && |window| == day
      && window[day - 1] == StockPrice(data, stock, day)
      && forall d :: 1 <= d <= day ==> window[d - 1] == StockPrice(data, stock, d)
  {
  }

  /** The ledger after `k` advances of `n` days each. */
  function AdvanceRepeatedly(l: Ledger, n: int, k: nat, salaryPeriod: int, salary: int): (r: Ledger)
    requires n >= 1 && salaryPeriod >= 1
    ensures r.day == l.day + k * n && r.lastSalaryAt == l.lastSalaryAt && r.holdings == l.holdings
    decreases k
  {
    if k == 0 then l else ProgressLedger(AdvanceRepeatedly(l, n, k - 1, salaryPeriod, salary), n, salaryPeriod, salary)
  }

  /** 1 + 2 + ... + k. */
  function Triangle(k: nat): nat
  {
    if k == 0 then 0 else Triangle(k - 1) + k
  }

  /**
   * Because the salary anchor never moves, a player who advances one salary
   * period at a time is paid 1, 2, 3, ... salaries on successive advances:
   * after `k` advances the cash has grown by `Triangle(k)` salaries rather
   * than `k`.
   */
  lemma {:induction false} PeriodAdvancesRepaySalary(l: Ledger, k: nat, salaryPeriod: int, salary: int)
    requires salaryPeriod >= 1 && l.day == l.lastSalaryAt
    ensures AdvanceRepeatedly(l, salaryPeriod, k, salaryPeriod, salary).funds == l.funds + Triangle(k) * salary
    decreases k
  {
    if k > 0 {
      PeriodAdvancesRepaySalary(l, k - 1, salaryPeriod, salary);
      var before := AdvanceRepeatedly(l, salaryPeriod, k - 1, salaryPeriod, salary);
      assert before.day == l.day + (k - 1) * salaryPeriod;
      WholePeriods(k, salaryPeriod);
      assert before.day + salaryPeriod - before.lastSalaryAt == k * salaryPeriod;
      assert SalariesOwed(before.day + salaryPeriod, before.lastSalaryAt, salaryPeriod) == k;
      assert Triangle(k) * salary == (Triangle(k - 1) + k) * salary == Triangle(k - 1) * salary + k * salary;
    }
  }

  /** `k` whole periods are `k` periods past the anchor. */
  lemma WholePeriods(k: nat, salaryPeriod: int)
    requires salaryPeriod >= 1 && k >= 1
    ensures (k - 1) * salaryPeriod + salaryPeriod == k * salaryPeriod
    ensures (k * salaryPeriod) / salaryPeriod == k
  {
    var q := (k * salaryPeriod) / salaryPeriod;
    assert q * salaryPeriod <= k * salaryPeriod < (q + 1) * salaryPeriod;
    if q < k {
      MulMonotone(q + 1, k, salaryPeriod);
    } else if q > k {
      MulMonotone(k + 1, q, salaryPeriod);
    }
  }

  lemma MulMonotone(a: int, b: int, c: int)
    requires a <= b && c >= 0
    ensures a * c <= b * c
  {
    assert b * c - a * c == (b - a) * c;
  }

  /**
   * From two one-period advances on, the player has been paid more than one
   * salary per period passed.
   */
  lemma RepeatedSalaryExceedsPeriods(l: Ledger, k: nat, salaryPeriod: int, salary: int)
    requires salaryPeriod >= 1 && l.day == l.lastSalaryAt && k >= 2 && salary > 0
    ensures AdvanceRepeatedly(l, salaryPeriod, k, salaryPeriod, salary).funds > l.funds + k * salary
  {
    PeriodAdvancesRepaySalary(l, k, salaryPeriod, salary);
    TriangleExceeds(k);
    assert Triangle(k) * salary - k * salary == (Triangle(k) - k) * salary > 0;
  }

  /** From 2 on, 1 + 2 + ... + k exceeds k. */
  lemma {:induction false} TriangleExceeds(k: nat)
    requires k >= 2
    ensures Triangle(k) > k
    decreases k
  {
    if k > 2 {
      TriangleExceeds(k - 1);
    }
  }

  /**
   * With the default settings (1000 to start, day 30, a 1000 salary every 30
   * days): advancing 30 days twice credits 1000 and then 2000; jumping 65
   * days credits 2000, and the next 5 days credit 2000 again.
   */
  lemma DefaultSalarySchedule()
    ensures var start := NewLedger(1000, 30);
      var once := ProgressLedger(start, 30, 30, 1000);
      var twice := ProgressLedger(once, 30, 30, 1000);
      once.funds == 2000 && twice.funds == 4000
    ensures var start := NewLedger(1000, 30);
      var jump := ProgressLedger(start, 65, 30, 1000);
      var next := ProgressLedger(jump, 5, 30, 1000);
      jump.funds == 3000 && next.day == 100 && next.funds == 5000
  {
  }
}
