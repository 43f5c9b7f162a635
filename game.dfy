/**
 * The trading game engine: a fixed table of closing prices per stock and,
 * per player name, cash, shares held, the simulated day and the salary
 * anchor. Each of the four per-player tables yields its default for a name
 * it has never seen, so a player springs into existence on first reference.
 */
module StockGame {
  import opened Rounding
  import opened Ledger

  const DefaultInitialFunds := 1000
  const DefaultInitialDays := 30
  const DefaultSalaryPeriod := 30

  class Game {
    /** The stocks of the game, in the order they were given. */
    const stocks: seq<string>
    /** Closing price series per stock, loaded once at construction. */
    const stockData: StockData
    const salaryPeriod: int
    /** Credited once per salary period; equal to the starting cash. */
    const salary: int
    const initialFunds: int
    const initialDays: int

    var dayProgress: map<string, int>
    var funds: map<string, int>
    var stockAmount: map<string, map<string, int>>
    var lastSalaryAt: map<string, int>

    function DayOf(player: string): int
      reads this
    {
      if player in dayProgress then dayProgress[player] else initialDays
    }

    function FundsOf(player: string): int
      reads this
    {
      if player in funds then funds[player] else initialFunds
    }

    function AmountsOf(player: string): map<string, int>
      reads this
    {
      if player in stockAmount then stockAmount[player] else map[]
    }

    function AmountOf(player: string, stock: string): int
      reads this
    {
      var held := AmountsOf(player);
      if stock in held then held[stock] else 0
    }

    function LastSalaryOf(player: string): int
      reads this
    {
      if player in lastSalaryAt then lastSalaryAt[player] else initialDays
    }

    /**
     * The ledger of `player` as the four tables give it, defaults included:
     * a name none of the tables has seen gets the starting ledger.
     */
    function LedgerOf(player: string): (l: Ledger)
      reads this
      ensures l.funds == FundsOf(player) && l.day == DayOf(player) && l.lastSalaryAt == LastSalaryOf(player)
      ensures forall stock :: Holding(l, stock) == AmountOf(player, stock)
      ensures player !in dayProgress && player !in funds && player !in stockAmount && player !in lastSalaryAt
        ==> l == NewLedger(initialFunds, initialDays)
    {
      Ledger(FundsOf(player), AmountsOf(player), DayOf(player), LastSalaryOf(player))
    }

    ghost predicate Valid()
      reads this
    {
      && Distinct(stocks)
      && (forall stock :: stock in stocks <==> stock in stockData)
      && PricesPositive(stockData)
      && initialFunds >= 0 && initialDays >= 1 && salaryPeriod >= 1
      && salary == initialFunds
      && forall player :: ValidLedger(LedgerOf(player))
    }

    /**
     * A game over `stocks`, each with the closing series `loaded[stock]`.
     * No player has been seen yet.
     */
    constructor (stocks: seq<string>, loaded: StockData,
                 initialFunds: int := DefaultInitialFunds,
                 initialDays: int := DefaultInitialDays,
                 salaryPeriod: int := DefaultSalaryPeriod)
      requires Distinct(stocks) && (forall stock :: stock in stocks ==> stock in loaded)
      requires PricesPositive(loaded)
      requires initialFunds >= 0 && initialDays >= 1 && salaryPeriod >= 1
      ensures Valid()
      ensures this.stocks == stocks
      ensures forall stock :: stock in stocks ==> stock in stockData && stockData[stock] == loaded[stock]
      ensures this.salaryPeriod == salaryPeriod && salary == initialFunds
      ensures forall player :: LedgerOf(player) == NewLedger(initialFunds, initialDays)
    {
      this.stocks := stocks;
      stockData := map stock | stock in stocks :: loaded[stock];
      this.initialFunds := initialFunds;
      this.initialDays := initialDays;
      this.salaryPeriod := salaryPeriod;
      salary := initialFunds;
      dayProgress := map[];
      funds := map[];
      stockAmount := map[];
      lastSalaryAt := map[];
    }

    /**
     * Buys `n` shares of `stock` for `player` at the current price, the cost
     * rounded up. Raises NotEnoughFunds, changing nothing, when the cost
     * exceeds the cash.
     */
    method Buy(player: string, stock: string, n: int) returns (r: Result<()>)
      requires Valid() && n >= 0 && HasPrice(stockData, stock, DayOf(player))
      modifies this
      ensures Valid()
      ensures var expected := BuyLedger(stockData, old(LedgerOf(player)), stock, n);
        && (expected.Err? ==> r == Err(expected.failure) && LedgerOf(player) == old(LedgerOf(player)))
        && (expected.Ok? ==> r == Ok(()) && LedgerOf(player) == expected.value)
      ensures forall other :: other != player ==> LedgerOf(other) == old(LedgerOf(other))
    {
      ghost var before := LedgerOf(player);
      ghost var expected := BuyLedger(stockData, before, stock, n);
      var price := StockPrice(stockData, stock, DayOf(player));
      var requiredFunds := Ceil(price * n as real);
      assert before.day == DayOf(player) && before.funds == FundsOf(player);
      if requiredFunds > FundsOf(player) {
        assert expected.Err?;
        r := Err(NotEnoughFunds);
      } else {
        assert expected.Ok?;
        var held := AmountsOf(player);
        funds := funds[player := FundsOf(player) - requiredFunds];
        stockAmount := stockAmount[player := held[stock := AmountOf(player, stock) + n]];
        r := Ok(());
        assert LedgerOf(player) == expected.value;
        OnlyOneLedgerChanged(player);
      }
    }

    /**
     * Sells `n` shares of `stock` for `player` at the current price, the
     * proceeds rounded down. Raises NotEnoughStocks, changing nothing, when
     * fewer than `n` shares are held; that check comes before the price is
     * read, so it also answers for a stock or a day without a price.
     */
    method Sell(player: string, stock: string, n: int) returns (r: Result<()>)
      requires Valid() && n >= 0 && (n <= AmountOf(player, stock) ==> HasPrice(stockData, stock, DayOf(player)))
      modifies this
      ensures Valid()
      ensures var expected := SellLedger(stockData, old(LedgerOf(player)), stock, n);
        && (expected.Err? ==> r == Err(expected.failure) && LedgerOf(player) == old(LedgerOf(player)))
        && (expected.Ok? ==> r == Ok(()) && LedgerOf(player) == expected.value)
      ensures forall other :: other != player ==> LedgerOf(other) == old(LedgerOf(other))
    {
      ghost var before := LedgerOf(player);
      ghost var expected := SellLedger(stockData, before, stock, n);
      assert expected.Err? <==> n > AmountOf(player, stock);
      if n > AmountOf(player, stock) {
        r := Err(NotEnoughStocks);
      } else {
        var proceeds := Floor(n as real * StockPrice(stockData, stock, DayOf(player)));
        var held := AmountsOf(player);
        funds := funds[player := FundsOf(player) + proceeds];
        stockAmount := stockAmount[player := held[stock := AmountOf(player, stock) - n]];
        r := Ok(());
        assert LedgerOf(player) == expected.value;
        OnlyOneLedgerChanged(player);
      }
    }

    /**
     * Moves `player` on by `n` days and credits one salary for every whole
     * salary period since the anchor, which stays where it is.
     */
    method ProgressDays(player: string, n: int)
      requires Valid() && n >= 1
      modifies this
      ensures Valid()
      ensures LedgerOf(player) == ProgressLedger(old(LedgerOf(player)), n, salaryPeriod, salary)
      ensures lastSalaryAt == old(lastSalaryAt)
      ensures forall other :: other != player ==> LedgerOf(other) == old(LedgerOf(other))
    {
      ghost var expected := ProgressLedger(LedgerOf(player), n, salaryPeriod, salary);
      dayProgress := dayProgress[player := DayOf(player) + n];
      var salariesOwed := (DayOf(player) - LastSalaryOf(player)) / salaryPeriod;
      funds := funds[player := FundsOf(player) + salariesOwed * salary];
      assert LedgerOf(player) == expected;
      OnlyOneLedgerChanged(player);
    }

    /**
     * When an update touched only the tables' entries for `player` and left
     * that player with a valid ledger, the game is still valid and every
     * other player's ledger is as it was.
     */
    twostate lemma OnlyOneLedgerChanged(player: string)
      requires old(Valid())
      requires forall other :: other != player ==>
        && (other in dayProgress <==> other in old(dayProgress)) && (other in dayProgress ==> dayProgress[other] == old(dayProgress[other]))
        && (other in funds <==> other in old(funds)) && (other in funds ==> funds[other] == old(funds[other]))
        && (other in stockAmount <==> other in old(stockAmount)) && (other in stockAmount ==> stockAmount[other] == old(stockAmount[other]))
      requires lastSalaryAt == old(lastSalaryAt)
      requires ValidLedger(LedgerOf(player))
      ensures Valid()
      ensures forall other :: other != player ==> LedgerOf(other) == old(LedgerOf(other))
    {
      forall other | other != player
        ensures LedgerOf(other) == old(LedgerOf(other))
      {
      }
      forall other
        ensures ValidLedger(LedgerOf(other))
      {
        if other != player {
          assert LedgerOf(other) == old(LedgerOf(other));
        }
      }
    }
  }
}
