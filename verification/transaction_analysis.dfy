/** The transaction summariser of app/api/analyze/route.ts: one pass over
    a bank account's transactions totals income and expenses and collects
    the large transactions; a base score of 600 then gains an
    income-to-expense factor and a balance factor, each capped at 100, and
    is rounded and clamped into [300, 850]. */
module TransactionAnalysis {
  import opened Prelude

  // ---------------------------------------------------------------- data

  /** A Financial Connections transaction; only `amount` is read. Positive
      amounts are money in, the others money out. */
  datatype FcTransaction = FcTransaction(id: string, amount: real, description: string)

  /** One entry of `cash.available`; `amount` is `None` when it is absent. */
  datatype CashEntry = CashEntry(amount: Option<real>)

  /** `cash.available` is `None` when the account reports no available cash. */
  datatype Cash = Cash(available: Option<seq<CashEntry>>)

  datatype Balance = Balance(cash: Cash)

  datatype TransactionSummary = TransactionSummary(
    totalIncome: real,
    totalExpenses: real,
    averageBalance: real,
    recurringPayments: seq<FcTransaction>,
    largeTransactions: seq<FcTransaction>)

  datatype CreditScore = CreditScore(score: int, factors: seq<string>)

  datatype Analysis = Analysis(transactionSummary: TransactionSummary, creditScore: CreditScore)

  // ----------------------------------------------------------- constants

  const BaseScore: real := 600.0
  const LargeAmount: real := 1000.0
  const FactorCap: real := 100.0
  const MinScore: int := 300
  const MaxScore: int := 850

  // ------------------------------------------------------- the balance

  /** `balance.cash.available?.[0]?.amount || 0`: the first available cash
      amount, or 0 when the list, its first entry or its amount is missing. */
  function AverageBalance(balance: Balance): (r: real)
    ensures balance.cash.available == None ==> r == 0.0
    ensures balance.cash.available == Some([]) ==> r == 0.0
    ensures (balance.cash.available.Some? && |balance.cash.available.value| > 0
             && balance.cash.available.value[0].amount == None) ==> r == 0.0
    ensures (balance.cash.available.Some? && |balance.cash.available.value| > 0
             && balance.cash.available.value[0].amount.Some?)
            ==> r == balance.cash.available.value[0].amount.value
  {
    match balance.cash.available
    case None => 0.0
    case Some(entries) =>
      if |entries| == 0 then 0.0
      else
        match entries[0].amount
        case None => 0.0
        case Some(a) => a
  }

  // ---------------------------------------------- folds over the ledger

  predicate IsLarge(t: FcTransaction)
  {
    Abs(t.amount) > LargeAmount
  }

  /** Sum of the strictly positive amounts. */
  function TotalIncome(ts: seq<FcTransaction>): (r: real)
    ensures r >= 0.0
  {
    if ts == [] then 0.0
    else
      var a := ts[|ts| - 1].amount;
      TotalIncome(ts[..|ts| - 1]) + (if a > 0.0 then a else 0.0)
  }

  /** Sum of the magnitudes of the other amounts. */
  function TotalExpenses(ts: seq<FcTransaction>): (r: real)
    ensures r >= 0.0
  {
    if ts == [] then 0.0
    else
      var a := ts[|ts| - 1].amount;
      TotalExpenses(ts[..|ts| - 1]) + (if a > 0.0 then 0.0 else Abs(a))
  }

  /** The transactions of magnitude above 1000, in input order. */
  function LargeTransactions(ts: seq<FcTransaction>): (r: seq<FcTransaction>)
    ensures |r| <= |ts|
  {
    if ts == [] then []
    else
      var t := ts[|ts| - 1];
      LargeTransactions(ts[..|ts| - 1]) + (if IsLarge(t) then [t] else [])
  }

  /** The signed amounts, for stating what the two totals split. */
  function Amounts(ts: seq<FcTransaction>): (s: seq<real>)
    ensures |s| == |ts|
    ensures forall i :: 0 <= i < |ts| ==> s[i] == ts[i].amount
  {
    if ts == [] then [] else Amounts(ts[..|ts| - 1]) + [ts[|ts| - 1].amount]
  }

  /** Each fold takes one step per appended transaction. */
  lemma FoldsStep(ts: seq<FcTransaction>, t: FcTransaction)
    ensures TotalIncome(ts + [t]) == TotalIncome(ts) + (if t.amount > 0.0 then t.amount else 0.0)
    ensures TotalExpenses(ts + [t]) == TotalExpenses(ts) + (if t.amount > 0.0 then 0.0 else Abs(t.amount))
    ensures LargeTransactions(ts + [t]) == LargeTransactions(ts) + (if IsLarge(t) then [t] else [])
  {
    assert (ts + [t])[..|ts|] == ts;
  }

  // ----------------------------------------------------------- the score

  /** `totalExpenses || 1`: the expenses, or 1 when there are none. */
  function ExpenseDivisor(totalExpenses: real): (d: real)
    ensures totalExpenses >= 0.0 ==> d > 0.0
  {
    if totalExpenses != 0.0 then totalExpenses else 1.0
  }

  /** `Math.min(100, income / (expenses || 1) * 50)`. */
  function IncomeExpenseFactor(totalIncome: real, totalExpenses: real): (f: real)
    ensures f <= FactorCap
  {
    Min(100.0, totalIncome / ExpenseDivisor(totalExpenses) * 50.0)
  }

  /** `Math.min(100, averageBalance / 10000 * 50)`. */
  function BalanceFactor(averageBalance: real): (f: real)
    ensures f <= FactorCap
  {
    Min(100.0, averageBalance / 10000.0 * 50.0)
  }

  /** `Math.min(850, Math.max(300, Math.round(baseScore)))`. */
  function FinalScore(baseScore: real): (s: int)
    ensures MinScore <= s <= MaxScore
    ensures MinScore <= Round(baseScore) <= MaxScore ==> s == Round(baseScore)
  {
    MinInt(850, MaxInt(300, Round(baseScore)))
  }

  /** The score for given totals and balance. */
  function ScoreOf(totalIncome: real, totalExpenses: real, averageBalance: real): (s: int)
    ensures MinScore <= s <= MaxScore
  {
    FinalScore(BaseScore + IncomeExpenseFactor(totalIncome, totalExpenses)
               + BalanceFactor(averageBalance))
  }

  /** What the summariser returns for a ledger and a balance. */
  function Analyze(transactions: seq<FcTransaction>, balance: Balance): (r: Analysis)
    ensures r.transactionSummary.totalIncome >= 0.0 && r.transactionSummary.totalExpenses >= 0.0
    ensures |r.transactionSummary.largeTransactions| <= |transactions|
    ensures r.transactionSummary.recurringPayments == [] && r.creditScore.factors == []
    ensures MinScore <= r.creditScore.score <= MaxScore
  {
    var income := TotalIncome(transactions);
    var expenses := TotalExpenses(transactions);
    var averageBalance := AverageBalance(balance);
    Analysis(
      TransactionSummary(income, expenses, averageBalance, [], LargeTransactions(transactions)),
      CreditScore(ScoreOf(income, expenses, averageBalance), []))
  }

  // --------------------------------------------------------- the method

  /** The source's `forEach`: income and expenses by sign, and the large
      transactions in the order met. */
  method ScanTransactions(transactions: seq<FcTransaction>)
    returns (totalIncome: real, totalExpenses: real, largeTransactions: seq<FcTransaction>)
    ensures totalIncome == TotalIncome(transactions)
    ensures totalExpenses == TotalExpenses(transactions)
    ensures largeTransactions == LargeTransactions(transactions)
  {
    totalIncome := 0.0;
    totalExpenses := 0.0;
    largeTransactions := [];

    var i := 0;
    while i < |transactions|
      invariant 0 <= i <= |transactions|
      invariant totalIncome == TotalIncome(transactions[..i])
      invariant totalExpenses == TotalExpenses(transactions[..i])
      invariant largeTransactions == LargeTransactions(transactions[..i])
    {
      var transaction := transactions[i];
      assert transactions[..i + 1] == transactions[..i] + [transaction];
      FoldsStep(transactions[..i], transaction);
      if transaction.amount > 0.0 {
        totalIncome := totalIncome + transaction.amount;
      } else {
        totalExpenses := totalExpenses + Abs(transaction.amount);
      }
      if Abs(transaction.amount) > 1000.0 {
        largeTransactions := largeTransactions + [transaction];
      }
      i := i + 1;
    }
    assert transactions[..i] == transactions;
  }

  /** The score arithmetic: the base score grows by the two capped factors
      and is then rounded and clamped. */
  method ComputeScore(totalIncome: real, totalExpenses: real, averageBalance: real)
    returns (score: int)
    ensures score == ScoreOf(totalIncome, totalExpenses, averageBalance)
  {
    var baseScore := 600.0;
    var incomeToExpenseRatio := totalIncome / (if totalExpenses != 0.0 then totalExpenses else 1.0);
    baseScore := baseScore + Min(100.0, incomeToExpenseRatio * 50.0);
    baseScore := baseScore + Min(100.0, averageBalance / 10000.0 * 50.0);
    score := MinInt(850, MaxInt(300, Round(baseScore)));
  }

  /** The whole summariser; the `analysis` record it fills in is built from
      the results of the two steps. */
  method AnalyzeTransactions(transactions: seq<FcTransaction>, balance: Balance)
    returns (analysis: Analysis)
    ensures analysis == Analyze(transactions, balance)
    ensures MinScore <= analysis.creditScore.score <= MaxScore
    ensures analysis.transactionSummary.recurringPayments == []
    ensures analysis.creditScore.factors == []
  {
    var averageBalance := AverageBalance(balance);
    var totalIncome, totalExpenses, largeTransactions := ScanTransactions(transactions);
    var score := ComputeScore(totalIncome, totalExpenses, averageBalance);
    analysis := Analysis(
      TransactionSummary(totalIncome, totalExpenses, averageBalance, [], largeTransactions),
      CreditScore(score, []));
  }
}
