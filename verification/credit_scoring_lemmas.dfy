/** What the credit-risk scorer promises about its window, its folds and its
    score, proved about the specification functions of `CreditScoring`. */
module CreditScoringLemmas {
  import opened Prelude
  import opened Text
  import opened CreditScoring

  // -------------------------------------------------------------- window

  /** An entry is in the window exactly when it is in the ledger and is not
      dated before the window start. */
  lemma {:induction false} WindowMembership(ts: seq<Transaction>, start: int, t: Transaction)
    ensures t in Window(ts, start) <==> t in ts && InWindow(t, start)
    decreases |ts|
  {
    if ts != [] {
      var init := ts[..|ts| - 1];
      WindowMembership(init, start, t);
      assert ts == init + [ts[|ts| - 1]];
    }
  }

  /** The window start itself belongs to the window; the millisecond before it does not. */
  lemma WindowBoundary(ts: seq<Transaction>, now: int, t: Transaction)
    requires t in ts
    ensures t.date == WindowStart(now) ==> t in Window(ts, WindowStart(now))
    ensures t.date == WindowStart(now) - 1 ==> t !in Window(ts, WindowStart(now))
  {
    WindowMembership(ts, WindowStart(now), t);
  }

  lemma {:induction false} WindowAppend(a: seq<Transaction>, b: seq<Transaction>, start: int)
    ensures Window(a + b, start) == Window(a, start) + Window(b, start)
    decreases |b|
  {
    if b == [] {
      assert a + b == a;
    } else {
      var init := b[..|b| - 1];
      assert (a + b)[..|a + b| - 1] == a + init;
      WindowAppend(a, init, start);
    }
  }

  /** Inserting an entry dated before the window start, anywhere in the
      ledger, leaves the window unchanged. */
  lemma WindowIgnoresStale(ts: seq<Transaction>, k: nat, t: Transaction, start: int)
    requires k <= |ts| && t.date < start
    ensures Window(ts[..k] + [t] + ts[k..], start) == Window(ts, start)
  {
    WindowAppend(ts[..k] + [t], ts[k..], start);
    WindowAppend(ts[..k], [t], start);
    assert Window([t], start) == [] by {
      assert [t][..0] == [];
    }
    WindowAppend(ts[..k], ts[k..], start);
    assert ts[..k] + ts[k..] == ts;
  }

  /** So such an entry changes no total, no list, no count and no score. */
  lemma EvaluateIgnoresStale(account: Account, now: int, k: nat, t: Transaction)
    requires k <= |Ledger(account)| && t.date < WindowStart(now)
    ensures var ts := Ledger(account);
      Evaluate(account.(transactions := Some(ts[..k] + [t] + ts[k..])), now) == Evaluate(account, now)
  {
    WindowIgnoresStale(Ledger(account), k, t, WindowStart(now));
  }

  // --------------------------------------------------------------- folds

  /** Income and expenditure split the signed total of the window. */
  lemma {:induction false} NetIncomeIsSignedSum(w: seq<Transaction>)
    ensures Income(w) - Expenditure(w) == Sum(Values(w))
    decreases |w|
  {
    if w != [] {
      NetIncomeIsSignedSum(w[..|w| - 1]);
    }
  }

  /** A value is a salary credit exactly when some entry of the window is a
      positive entry worded as a salary and carries that value. */
  lemma {:induction false} SalaryCreditsExact(w: seq<Transaction>, v: real)
    ensures v in SalaryCredits(w) <==> exists t :: t in w && t.value == v && v > 0.0 && IsSalary(t)
    decreases |w|
  {
    if w != [] {
      var init := w[..|w| - 1];
      SalaryCreditsExact(init, v);
      assert w == init + [w[|w| - 1]];
    }
  }

  /** A mean lies between any lower and upper bound of its elements. */
  lemma MeanBounds(s: seq<real>, lo: real, hi: real)
    requires s != []
    requires forall i :: 0 <= i < |s| ==> lo <= s[i] <= hi
    ensures lo <= Mean(s) <= hi
  {
    SumBounds(s, lo, hi);
    var n := |s| as real;
    var m := Mean(s);
    assert (m - lo) * n == Sum(s) - n * lo;
    ProductSign(m - lo, n);
    assert (hi - m) * n == n * hi - Sum(s);
    ProductSign(hi - m, n);
  }

  /** The average salary is positive as soon as there is one salary credit,
      and lies between the smallest and the largest salary. */
  lemma AverageSalaryBounds(w: seq<Transaction>, lo: real, hi: real)
    requires forall i :: 0 <= i < |SalaryCredits(w)| ==> lo <= SalaryCredits(w)[i] <= hi
    ensures SalaryCredits(w) != [] ==> Mean(SalaryCredits(w)) > 0.0
    ensures SalaryCredits(w) != [] ==> lo <= Mean(SalaryCredits(w)) <= hi
  {
    var s := SalaryCredits(w);
    if s != [] {
      SumPositive(s);
      MeanBounds(s, lo, hi);
      QuotientBounds(Sum(s), |s| as real);
    }
  }

  /** A zero-valued entry takes the expenditure branch: it adds nothing to
      either total, is never a salary credit, and is counted when worded as
      a fee or an overdraft. */
  lemma ZeroValueEntry(w: seq<Transaction>, t: Transaction)
    requires t.value == 0.0
    ensures Income(w + [t]) == Income(w) && Expenditure(w + [t]) == Expenditure(w)
    ensures SalaryCredits(w + [t]) == SalaryCredits(w)
    ensures FeeCount(w + [t]) == FeeCount(w) + (if IsFeeOrOverdraft(t) then 1 else 0)
  {
    FoldsStep(w, t);
  }

  // ------------------------------------------------------------- wording

  /** A wording matches a pattern wherever, and in whatever case, the
      pattern occurs inside it. */
  lemma WordingMatches(a: string, word: string, b: string, pat: string)
    requires ToUpper(word) == pat
    ensures Contains(ToUpper(a + word + b), pat)
  {
    ToUpperAppend(a + word, b);
    ToUpperAppend(a, word);
    ContainsInside(ToUpper(a), pat, ToUpper(b));
  }

  /** Lower-case wording is recognised as a salary. */
  lemma LowerCaseSalary(t: Transaction, a: string, b: string)
    requires t.originalWording == a + "salary" + b
    ensures IsSalary(t)
  {
    assert ToUpper("salary") == "SALARY";
    WordingMatches(a, "salary", b, "SALARY");
  }

  /** The fee test is a bare substring test: a debit for a coffee counts as
      a fee event. */
  lemma CoffeeIsFee(t: Transaction, a: string, b: string)
    requires t.originalWording == a + "Coffee" + b
    ensures IsFeeOrOverdraft(t)
  {
    assert ToUpper("Coffee") == "COFFEE";
    assert a + "Coffee" + b == (a + "Cof") + "fee" + b;
    assert ToUpper("fee") == "FEE";
    WordingMatches(a + "Cof", "fee", b, "FEE");
  }

  /** A wording with neither an F nor an R, in either case, can name no fee
      and no overdraft. */
  lemma NoFeeWording(t: Transaction)
    requires 'F' !in t.originalWording && 'f' !in t.originalWording
    requires 'R' !in t.originalWording && 'r' !in t.originalWording
    ensures !IsFeeOrOverdraft(t)
  {
    var w := t.originalWording;
    assert !Contains(ToUpper(w), "FEE") by {
      UpperAbsent(w, 'F');
      AbsentChar(ToUpper(w), "FEE", 0);
    }
    assert !Contains(ToUpper(w), "OVERDRAFT") by {
      UpperAbsent(w, 'R');
      AbsentChar(ToUpper(w), "OVERDRAFT", 3);
    }
  }

  // --------------------------------------------------------------- score

  /** Given the same totals, salaries and fee events, an overdrawn balance
      never yields a lower risk score than a non-negative one. */
  lemma OverdrawnAssessment(income: real, expenditure: real, salaries: seq<real>, fees: nat,
                            balance: real, overdrawn: real)
    requires balance >= 0.0 && overdrawn < 0.0
    ensures Assess(income, expenditure, salaries, fees, overdrawn).creditScore
         >= Assess(income, expenditure, salaries, fees, balance).creditScore
  {
    var n1 := Normalize(income - expenditure, -5000.0, 5000.0);
    var n2 := Normalize(SalaryFrequency(|salaries|), 0.0, 2.0);
    var n4 := OverdraftPenalty(fees);
    RiskScoreAntitone(Composite(n1, n2, 0.0, n4), Composite(n1, n2, 1.0, n4));
  }

  /** An overdrawn balance never yields a lower risk score than a
      non-negative one, all else being equal. */
  lemma OverdrawnNeverLowersRisk(account: Account, now: int, overdrawn: real)
    requires account.balance >= 0.0 && overdrawn < 0.0
    ensures Evaluate(account.(balance := overdrawn), now).creditScore >= Evaluate(account, now).creditScore
  {
    var overdrawnAccount := account.(balance := overdrawn);
    assert Ledger(overdrawnAccount) == Ledger(account);
    var w := Window(Ledger(account), WindowStart(now));
    OverdrawnAssessment(Income(w), Expenditure(w), SalaryCredits(w), FeeCount(w), account.balance, overdrawn);
  }

  /** A healthy ledger — net income of at least 5000, at least six salary
      credits, no fee events, no overdraft — scores 0. */
  lemma HealthiestScore(account: Account, now: int)
    requires var w := Window(Ledger(account), WindowStart(now));
      Income(w) - Expenditure(w) >= 5000.0 && |SalaryCredits(w)| >= 6 && FeeCount(w) == 0
    requires account.balance >= 0.0
    ensures Evaluate(account, now).creditScore == 0
  {
  }

  /** Three fee events already take the whole overdraft term away. */
  lemma ThreeFeesSaturate(a: nat, b: nat)
    requires 3 <= a <= b
    ensures OverdraftPenalty(a) == OverdraftPenalty(b) == 0.0
  {
  }

  // ----------------------------------------------------------- scenarios

  /** Scoring nothing: no income, no expenditure, no salary, no fee and a
      zero balance. The composite is 0.4 * 0.5 + 0.3 * 0 + 0.2 * 1 + 0.1 * 1 = 0.5. */
  lemma NothingToScore(income: real, expenditure: real, salaries: seq<real>, fees: nat, balance: real)
    requires income == 0.0 && expenditure == 0.0 && salaries == [] && fees == 0 && balance == 0.0
    ensures Assess(income, expenditure, salaries, fees, balance).creditScore == 5
    ensures Assess(income, expenditure, salaries, fees, balance).metrics.expenditureRatio == 1.0
    ensures Assess(income, expenditure, salaries, fees, balance).metrics.salaryFrequency == 0.0
    ensures Assess(income, expenditure, salaries, fees, balance).metrics.averageSalary == 0.0
  {
    var n1 := Normalize(income - expenditure, -5000.0, 5000.0);
    var n2 := Normalize(SalaryFrequency(|salaries|), 0.0, 2.0);
    assert n1 == 0.5;
    assert n2 == 0.0;
    var c := Composite(n1, n2, BalanceTerm(balance), OverdraftPenalty(fees));
    assert c == 0.5;
    assert (1.0 - c) * 10.0 == 5.0;
    RoundOfInt(5);
  }

  /** An account with no ledger and a zero balance: both totals are 0, the
      expenditure ratio falls back to 1, salary frequency is 0, and the risk
      score is 5. */
  lemma EmptyLedgerScore(account: Account, now: int)
    requires Ledger(account) == [] && account.balance == 0.0
    ensures var r := Evaluate(account, now);
      r.metrics.totalIncome == 0.0 && r.metrics.totalExpenditure == 0.0
      && r.metrics.expenditureRatio == 1.0 && r.metrics.salaryFrequency == 0.0
      && r.metrics.averageSalary == 0.0 && r.metrics.overdraftCount == 0
      && r.creditScore == 5
  {
    var w := Window(Ledger(account), WindowStart(now));
    assert w == [];
    NothingToScore(Income(w), Expenditure(w), SalaryCredits(w), FeeCount(w), account.balance);
  }

  /** The arithmetic of the sample ledger below: net income 988.53, one
      salary credit, one fee event and an overdrawn balance give the
      composite 0.4 * 0.598853 + 0.3 / 6 + 0.2 * 0 + 0.1 * 2 / 3, about
      0.356, and so the risk score 6. */
  lemma SampleAssessment(income: real, expenditure: real, salaries: seq<real>, fees: nat, balance: real)
    requires income == 1356.53 && expenditure == 368.0 && salaries == [1356.53]
    requires fees == 1 && balance == -362.05
    ensures Assess(income, expenditure, salaries, fees, balance).creditScore == 6
    ensures Assess(income, expenditure, salaries, fees, balance).metrics.averageSalary == 1356.53
    ensures Assess(income, expenditure, salaries, fees, balance).metrics.salaryFrequency * 3.0 == 1.0
  {
    var n1 := Normalize(income - expenditure, -5000.0, 5000.0);
    var n2 := Normalize(SalaryFrequency(|salaries|), 0.0, 2.0);
    assert n1 == 0.598853;
    assert SalaryFrequency(|salaries|) * 3.0 == 1.0;
    assert n2 * 6.0 == 1.0;
    var c := Composite(n1, n2, BalanceTerm(balance), OverdraftPenalty(fees));
    assert OverdraftPenalty(fees) * 3.0 == 2.0;
    assert 5.9 < (1.0 - c) * 10.0 - 0.5 && (1.0 - c) * 10.0 + 0.5 < 7.0;
    assert Sum(salaries) == 1356.53;
  }

  /** The wordings of three entries of `banking_data` in lib/creditScoring.ts. */
  lemma SampleSalaryWording(t: Transaction)
    requires t.originalWording == "ALGOAN SALARY 00000005532BCKRD"
    ensures IsSalary(t)
  {
    assert t.originalWording == "ALGOAN " + "SALARY" + " 00000005532BCKRD";
    assert ToUpper("SALARY") == "SALARY";
    WordingMatches("ALGOAN ", "SALARY", " 00000005532BCKRD", "SALARY");
  }

  lemma SampleCasinoWording(t: Transaction)
    requires t.originalWording == "LeoVegas CD 4130"
    ensures !IsFeeOrOverdraft(t)
  {
    var w := t.originalWording;
    assert 'F' !in w;
    assert 'f' !in w;
    assert 'R' !in w;
    assert 'r' !in w;
    NoFeeWording(t);
  }

  lemma SampleFeeWording(t: Transaction)
    requires t.originalWording == "UNARRANGED OVERDRAFT USAGE FEE"
    ensures IsFeeOrOverdraft(t)
  {
    assert t.originalWording == "UNARRANGED OVERDRAFT USAGE " + "FEE" + "";
    assert ToUpper("FEE") == "FEE";
    WordingMatches("UNARRANGED OVERDRAFT USAGE ", "FEE", "", "FEE");
  }

  /** A ledger whose every entry is in the window is its own window. */
  lemma {:induction false} AllInWindow(ts: seq<Transaction>, start: int)
    requires forall i :: 0 <= i < |ts| ==> ts[i].date >= start
    ensures Window(ts, start) == ts
    decreases |ts|
  {
    if ts != [] {
      AllInWindow(ts[..|ts| - 1], start);
      assert ts == ts[..|ts| - 1] + [ts[|ts| - 1]];
    }
  }

  /** Three entries of `banking_data` in lib/creditScoring.ts, all inside the window
      that ends on 2025-01-01T00:00Z, with the sample's overdrawn balance:
      the salary credit is found, the casino debit is not a fee, the
      overdraft usage fee is, and the risk score is 6. */
  lemma SampleLedgerScore(account: Account, ts: seq<Transaction>)
    requires Ledger(account) == ts && |ts| == 3 && account.balance == -362.05
    requires ts[0].date == 1732017600000 && ts[0].value == 1356.53
    requires ts[0].originalWording == "ALGOAN SALARY 00000005532BCKRD"
    requires ts[1].date == 1731240000000 && ts[1].value == -350.0
    requires ts[1].originalWording == "LeoVegas CD 4130"
    requires ts[2].date == 1734177600000 && ts[2].value == -18.0
    requires ts[2].originalWording == "UNARRANGED OVERDRAFT USAGE FEE"
    ensures var r := Evaluate(account, 1735689600000);
      r.metrics.totalIncome == 1356.53 && r.metrics.totalExpenditure == 368.0
      && r.metrics.averageSalary == 1356.53 && r.metrics.salaryFrequency * 3.0 == 1.0
      && r.metrics.overdraftCount == 1 && r.creditScore == 6
  {
    var start := WindowStart(1735689600000);
    assert start == 1727913600000;
    AllInWindow(ts, start);
    SampleSalaryWording(ts[0]);
    SampleCasinoWording(ts[1]);
    SampleFeeWording(ts[2]);
    assert ts == [ts[0]] + [ts[1]] + [ts[2]];
    FoldsStep([], ts[0]);
    FoldsStep([ts[0]], ts[1]);
    FoldsStep([ts[0], ts[1]], ts[2]);
    SampleAssessment(Income(ts), Expenditure(ts), SalaryCredits(ts), FeeCount(ts), account.balance);
  }
}
