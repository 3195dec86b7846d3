/** What the transaction summariser promises about its totals, its list of
    large transactions and its score, proved about the specification
    functions of `TransactionAnalysis`. */
module TransactionAnalysisLemmas {
  import opened Prelude
  import opened TransactionAnalysis

  // ------------------------------------------------------------- ledger

  /** A transaction is reported as large exactly when it is in the ledger
      and its magnitude is above 1000. */
  lemma {:induction false} LargeTransactionsMembership(ts: seq<FcTransaction>, t: FcTransaction)
    ensures t in LargeTransactions(ts) <==> t in ts && IsLarge(t)
    decreases |ts|
  {
    if ts != [] {
      var init := ts[..|ts| - 1];
      LargeTransactionsMembership(init, t);
      assert ts == init + [ts[|ts| - 1]];
    }
  }

  /** Collecting distributes over concatenation, so the large transactions
      keep their input order. */
  lemma {:induction false} LargeTransactionsAppend(a: seq<FcTransaction>, b: seq<FcTransaction>)
    ensures LargeTransactions(a + b) == LargeTransactions(a) + LargeTransactions(b)
    decreases |b|
  {
    if b == [] {
      assert a + b == a;
    } else {
      var init, t := b[..|b| - 1], b[|b| - 1];
      assert b == init + [t];
      assert a + b == (a + init) + [t];
      FoldsStep(a + init, t);
      FoldsStep(init, t);
      LargeTransactionsAppend(a, init);
    }
  }

  /** Income minus expenses is the signed sum of all amounts. */
  lemma {:induction false} NetIsSignedSum(ts: seq<FcTransaction>)
    ensures TotalIncome(ts) - TotalExpenses(ts) == Sum(Amounts(ts))
    decreases |ts|
  {
    if ts != [] {
      var init := ts[..|ts| - 1];
      NetIsSignedSum(init);
      assert Amounts(ts)[..|ts| - 1] == Amounts(init);
    }
  }

  // ------------------------------------------------------------ factors

  /** For non-negative totals the income factor is never negative, and it
      reaches its cap exactly when the income is at least twice the
      divisor (the expenses, or 1 when there are none). */
  lemma IncomeExpenseFactorBounds(income: real, expenses: real)
    requires income >= 0.0 && expenses >= 0.0
    ensures 0.0 <= IncomeExpenseFactor(income, expenses)
    ensures IncomeExpenseFactor(income, expenses) == FactorCap
            <==> income >= 2.0 * ExpenseDivisor(expenses)
  {
    var d := ExpenseDivisor(expenses);
    var ratio := income / d;
    DivCompare(income, d, 0.0);
    DivCompare(income, d, 2.0);
    assert ratio >= 2.0 <==> income >= 2.0 * d;
    assert IncomeExpenseFactor(income, expenses) == Min(100.0, ratio * 50.0);
  }

  /** The income factor does not decrease as income grows. */
  lemma IncomeExpenseFactorMonotone(i1: real, i2: real, expenses: real)
    requires i1 <= i2 && expenses >= 0.0
    ensures IncomeExpenseFactor(i1, expenses) <= IncomeExpenseFactor(i2, expenses)
  {
    var d := ExpenseDivisor(expenses);
    DivMonotone(i1, i2, d);
  }

  /** A non-negative balance never lowers the score; the balance factor
      grows linearly, 1 point per 200, up to its cap at 20000. */
  lemma BalanceFactorBounds(averageBalance: real)
    ensures averageBalance >= 0.0 ==> BalanceFactor(averageBalance) >= 0.0
    ensures averageBalance >= 20000.0 ==> BalanceFactor(averageBalance) == FactorCap
    ensures averageBalance <= 20000.0 ==> BalanceFactor(averageBalance) == averageBalance / 200.0
  {
  }

  // -------------------------------------------------------------- score

  /** Both factors are capped at 100, so the score never exceeds 800 and
      the upper clamp at 850 never applies. */
  lemma ScoreAtMost800(income: real, expenses: real, averageBalance: real)
    ensures ScoreOf(income, expenses, averageBalance) <= 800
  {
    var base := BaseScore + IncomeExpenseFactor(income, expenses) + BalanceFactor(averageBalance);
    RoundMonotone(base, 800.0);
    RoundOfInt(800);
  }

  /** Non-negative totals and balance never score below the base of 600. */
  lemma ScoreAtLeast600(income: real, expenses: real, averageBalance: real)
    requires income >= 0.0 && expenses >= 0.0 && averageBalance >= 0.0
    ensures ScoreOf(income, expenses, averageBalance) >= 600
  {
    IncomeExpenseFactorBounds(income, expenses);
    BalanceFactorBounds(averageBalance);
    var base := BaseScore + IncomeExpenseFactor(income, expenses) + BalanceFactor(averageBalance);
    RoundMonotone(600.0, base);
    RoundOfInt(600);
  }

  /** A balance of -80000 or less outweighs both factors: the score is
      clamped to the minimum of 300. */
  lemma DeepOverdraftScoresMinimum(income: real, expenses: real, averageBalance: real)
    requires averageBalance <= -80000.0
    ensures ScoreOf(income, expenses, averageBalance) == MinScore
  {
    BalanceFactorBounds(averageBalance);
    var base := BaseScore + IncomeExpenseFactor(income, expenses) + BalanceFactor(averageBalance);
    RoundMonotone(base, 300.0);
    RoundOfInt(300);
  }

  /** A larger balance never lowers the score. */
  lemma ScoreMonotoneInBalance(income: real, expenses: real, b1: real, b2: real)
    requires b1 <= b2
    ensures ScoreOf(income, expenses, b1) <= ScoreOf(income, expenses, b2)
  {
    var f := BaseScore + IncomeExpenseFactor(income, expenses);
    RoundMonotone(f + BalanceFactor(b1), f + BalanceFactor(b2));
  }

  /** More income, with the same expenses, never lowers the score. */
  lemma ScoreMonotoneInIncome(i1: real, i2: real, expenses: real, averageBalance: real)
    requires i1 <= i2 && expenses >= 0.0
    ensures ScoreOf(i1, expenses, averageBalance) <= ScoreOf(i2, expenses, averageBalance)
  {
    IncomeExpenseFactorMonotone(i1, i2, expenses);
    var b := BalanceFactor(averageBalance);
    RoundMonotone(BaseScore + IncomeExpenseFactor(i1, expenses) + b,
                  BaseScore + IncomeExpenseFactor(i2, expenses) + b);
  }

  /** No transactions and no available cash: every total is 0, nothing is
      large and the score is the base of 600. */
  lemma EmptyLedgerWithoutCash(balance: Balance)
    requires balance.cash.available == None
    ensures Analyze([], balance)
         == Analysis(TransactionSummary(0.0, 0.0, 0.0, [], []), CreditScore(600, []))
  {
    RoundOfInt(600);
  }
}
