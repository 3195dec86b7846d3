/** The banking credit-risk scorer of lib/creditScoring.ts: one account's
    ledger, restricted to a 90-day window that ends at "now", is folded into
    income, expenditure, salary credits and fee events; four clamped signals
    are then combined with weights 0.4/0.3/0.2/0.1 into a risk score from
    0 (healthy) to 10 (risky). */
module CreditScoring {
  import opened Prelude
  import opened Text

  // ---------------------------------------------------------------- data

  /** A ledger entry; `date` and `rdate` are millisecond timestamps. */
  datatype Transaction = Transaction(
    date: int,
    rdate: int,
    currency: string,
    value: real,
    originalWording: string,
    id: int)

  /** `transactions` is `None` when the feed omits the list. */
  datatype Account = Account(
    transactions: Option<seq<Transaction>>,
    balance: real,
    lastUpdate: int,
    iban: string,
    bic: string,
    currency: string,
    kind: string,
    usage: string,
    id: int)

  datatype Connection = Connection(accounts: seq<Account>)

  datatype BankingData = BankingData(format: string, connections: seq<Connection>)

  datatype Metrics = Metrics(
    totalIncome: real,
    totalExpenditure: real,
    netIncome: real,
    averageSalary: real,
    salaryFrequency: real,
    expenditureRatio: real,
    overdraftCount: nat,
    currentBalance: real)

  datatype CreditEvaluationResult = CreditEvaluationResult(creditScore: int, metrics: Metrics)

  // ----------------------------------------------------------- constants

  const EvaluationPeriodDays: int := 90
  const MillisPerDay: int := 24 * 60 * 60 * 1000
  /** The window length in months, `90 / 30`. */
  const Months: real := 3.0

  const WeightNetIncome: real := 0.4
  const WeightSalaryStability: real := 0.3
  const WeightBalance: real := 0.2
  const WeightOverdraft: real := 0.1

  // ------------------------------------------------------- normalisation

  /** Linear clamp-normalisation of `value` over `[min, max]`; a degenerate
      range yields 0 instead of dividing by zero. */
  function Normalize(value: real, min: real, max: real): (r: real)
    ensures 0.0 <= r <= 1.0
    ensures max == min ==> r == 0.0
    ensures max > min && value <= min ==> r == 0.0
    ensures max > min && value >= max ==> r == 1.0
  {
    if max == min then 0.0
    else
      var ratio := (value - min) / (max - min);
      assert max > min ==> (value >= max ==> ratio >= 1.0) && (value <= min ==> ratio <= 0.0) by {
        if max > min {
          QuotientBounds(value - min, max - min);
        }
      }
      Max(0.0, Min(1.0, ratio))
  }

  /** Over a proper range, normalisation never decreases as the value grows. */
  lemma NormalizeMonotone(v1: real, v2: real, min: real, max: real)
    requires max > min && v1 <= v2
    ensures Normalize(v1, min, max) <= Normalize(v2, min, max)
  {
    var d := max - min;
    QuotientBounds(v2 - v1, d);
    assert (v2 - min) / d - (v1 - min) / d == (v2 - v1) / d;
  }

  // -------------------------------------------------------------- window

  function WindowStart(now: int): int
  {
    now - EvaluationPeriodDays * MillisPerDay
  }

  /** A transaction counts unless it is dated strictly before the window start. */
  predicate InWindow(t: Transaction, start: int)
  {
    !(t.date < start)
  }

  /** The in-window transactions, in ledger order. */
  function Window(ts: seq<Transaction>, start: int): (w: seq<Transaction>)
    ensures |w| <= |ts|
  {
    if ts == [] then []
    else
      var t := ts[|ts| - 1];
      Window(ts[..|ts| - 1], start) + (if InWindow(t, start) then [t] else [])
  }

  // ---------------------------------------------- classification of entries

  predicate IsSalary(t: Transaction)
  {
    Contains(ToUpper(t.originalWording), "SALARY")
  }

  predicate IsFeeOrOverdraft(t: Transaction)
  {
    var description := ToUpper(t.originalWording);
    Contains(description, "OVERDRAFT") || Contains(description, "FEE")
  }

  // ------------------------------------------------- folds over the window

  /** Sum of the strictly positive values. */
  function Income(w: seq<Transaction>): (r: real)
    ensures r >= 0.0
  {
    if w == [] then 0.0
    else
      var v := w[|w| - 1].value;
      Income(w[..|w| - 1]) + (if v > 0.0 then v else 0.0)
  }

  /** Sum of the magnitudes of the non-positive values. */
  function Expenditure(w: seq<Transaction>): (r: real)
    ensures r >= 0.0
  {
    if w == [] then 0.0
    else
      var v := w[|w| - 1].value;
      Expenditure(w[..|w| - 1]) + (if v > 0.0 then 0.0 else Abs(v))
  }

  /** The values of the salary credits, in ledger order. */
  function SalaryCredits(w: seq<Transaction>): (s: seq<real>)
    ensures |s| <= |w|
    ensures forall i :: 0 <= i < |s| ==> s[i] > 0.0
  {
    if w == [] then []
    else
      var t := w[|w| - 1];
      SalaryCredits(w[..|w| - 1]) + (if t.value > 0.0 && IsSalary(t) then [t.value] else [])
  }

  /** Number of non-positive entries worded as an overdraft or a fee. */
  function FeeCount(w: seq<Transaction>): (n: nat)
    ensures n <= |w|
  {
    if w == [] then 0
    else
      var t := w[|w| - 1];
      FeeCount(w[..|w| - 1]) + (if !(t.value > 0.0) && IsFeeOrOverdraft(t) then 1 else 0)
  }

  /** The signed values of a ledger, for stating what the two totals split. */
  function Values(w: seq<Transaction>): (s: seq<real>)
    ensures |s| == |w|
    ensures forall i :: 0 <= i < |w| ==> s[i] == w[i].value
  {
    if w == [] then [] else Values(w[..|w| - 1]) + [w[|w| - 1].value]
  }

  /** Extending a ledger by one entry extends its window by that entry or by nothing. */
  lemma WindowStep(ts: seq<Transaction>, i: nat, start: int)
    requires i < |ts|
    ensures Window(ts[..i + 1], start)
         == Window(ts[..i], start) + (if InWindow(ts[i], start) then [ts[i]] else [])
  {
    assert ts[..i + 1][..i] == ts[..i];
  }

  /** Each fold takes one step per appended entry. */
  lemma FoldsStep(w: seq<Transaction>, t: Transaction)
    ensures Income(w + [t]) == Income(w) + (if t.value > 0.0 then t.value else 0.0)
    ensures Expenditure(w + [t]) == Expenditure(w) + (if t.value > 0.0 then 0.0 else Abs(t.value))
    ensures SalaryCredits(w + [t])
         == SalaryCredits(w) + (if t.value > 0.0 && IsSalary(t) then [t.value] else [])
    ensures FeeCount(w + [t])
         == FeeCount(w) + (if !(t.value > 0.0) && IsFeeOrOverdraft(t) then 1 else 0)
  {
    assert (w + [t])[..|w|] == w;
  }

  // ------------------------------------------------------ derived metrics

  /** Expenditure per unit of income, or 1 when there is no income. */
  function ExpenditureRatio(income: real, expenditure: real): (r: real)
    ensures income > 0.0 ==> r * income == expenditure
    ensures !(income > 0.0) ==> r == 1.0
    ensures income >= 0.0 && expenditure >= 0.0 ==> r >= 0.0
  {
    if income > 0.0 then expenditure / income else 1.0
  }

  /** Arithmetic mean, or 0 for an empty list. */
  function Mean(s: seq<real>): (r: real)
    ensures s == [] ==> r == 0.0
    ensures s != [] ==> r * |s| as real == Sum(s)
  {
    if |s| > 0 then Sum(s) / |s| as real else 0.0
  }

  /** Salary credits per month of the window. */
  function SalaryFrequency(count: nat): (r: real)
    ensures r * Months == count as real
  {
    count as real / Months
  }

  /** A step, not a slope: any overdrawn balance scores 0. */
  function BalanceTerm(balance: real): (r: real)
    ensures r == 0.0 || r == 1.0
    ensures r == 1.0 <==> balance >= 0.0
  {
    if balance >= 0.0 then 1.0 else 0.0
  }

  /** Each of the first three fee events removes a third; more change nothing. */
  function OverdraftPenalty(count: nat): (r: real)
    ensures 0.0 <= r <= 1.0
    ensures r == 0.0 <==> count >= 3
    ensures count == 0 ==> r == 1.0
  {
    1.0 - Min(count as real / 3.0, 1.0)
  }

  lemma OverdraftPenaltyAntitone(c1: nat, c2: nat)
    requires c1 <= c2
    ensures OverdraftPenalty(c2) <= OverdraftPenalty(c1)
    ensures c1 < 3 && c1 < c2 ==> OverdraftPenalty(c2) < OverdraftPenalty(c1)
  {
  }

  /** The weighted sum of the four normalised signals. */
  function Composite(netIncomeTerm: real, salaryTerm: real, balanceTerm: real, overdraftTerm: real): (c: real)
    requires 0.0 <= netIncomeTerm <= 1.0 && 0.0 <= salaryTerm <= 1.0
    requires 0.0 <= balanceTerm <= 1.0 && 0.0 <= overdraftTerm <= 1.0
    ensures 0.0 <= c <= 1.0
    ensures netIncomeTerm == 1.0 && salaryTerm == 1.0 && balanceTerm == 1.0 && overdraftTerm == 1.0 ==> c == 1.0
  {
    WeightNetIncome * netIncomeTerm + WeightSalaryStability * salaryTerm
      + WeightBalance * balanceTerm + WeightOverdraft * overdraftTerm
  }

  lemma WeightsSumToOne()
    ensures WeightNetIncome + WeightSalaryStability + WeightBalance + WeightOverdraft == 1.0
  {
  }

  /** `Math.round((1 - composite) * 10)`: a healthier composite means lower risk. */
  function RiskScore(composite: real): (r: int)
    requires 0.0 <= composite <= 1.0
    ensures 0 <= r <= 10
  {
    Round((1.0 - composite) * 10.0)
  }

  lemma RiskScoreAntitone(c1: real, c2: real)
    requires 0.0 <= c1 <= c2 <= 1.0
    ensures RiskScore(c2) <= RiskScore(c1)
  {
    RoundMonotone((1.0 - c2) * 10.0, (1.0 - c1) * 10.0);
  }

  // ----------------------------------------------------------- evaluation

  /** The ledger of an account, `[]` when the feed omits it. */
  function Ledger(account: Account): seq<Transaction>
  {
    match account.transactions
    case Some(ts) => ts
    case None => []
  }

  /** The scoring arithmetic that follows the pass over the ledger: derived
      metrics, the four normalised signals, their weighted composite and the
      rounded risk score. */
  function Assess(totalIncome: real, totalExpenditure: real, salaryTransactions: seq<real>,
                  overdraftCount: nat, currentBalance: real): (r: CreditEvaluationResult)
    ensures 0 <= r.creditScore <= 10
    ensures r.metrics.currentBalance == currentBalance
    ensures r.metrics.netIncome == totalIncome - totalExpenditure
    ensures r.metrics.overdraftCount == overdraftCount
  {
    var netIncome := totalIncome - totalExpenditure;
    var salaryFrequency := SalaryFrequency(|salaryTransactions|);
    var compositeScore := Composite(
      Normalize(netIncome, -5000.0, 5000.0),
      Normalize(salaryFrequency, 0.0, 2.0),
      BalanceTerm(currentBalance),
      OverdraftPenalty(overdraftCount));
    CreditEvaluationResult(
      RiskScore(compositeScore),
      Metrics(totalIncome, totalExpenditure, netIncome, Mean(salaryTransactions), salaryFrequency,
              ExpenditureRatio(totalIncome, totalExpenditure), overdraftCount, currentBalance))
  }

  /** The metrics and score of one account, evaluated at time `now`. */
  function Evaluate(account: Account, now: int): (r: CreditEvaluationResult)
    ensures 0 <= r.creditScore <= 10
    ensures r.metrics.currentBalance == account.balance
    ensures r.metrics.totalIncome >= 0.0 && r.metrics.totalExpenditure >= 0.0
    ensures r.metrics.netIncome == r.metrics.totalIncome - r.metrics.totalExpenditure
  {
    var w := Window(Ledger(account), WindowStart(now));
    Assess(Income(w), Expenditure(w), SalaryCredits(w), FeeCount(w), account.balance)
  }

  /** The first account of the first connection. */
  predicate HasAccount(data: BankingData)
  {
    |data.connections| > 0 && |data.connections[0].accounts| > 0
  }

  /** The body of the source's `forEach` for an entry inside the window: by
      sign, the value goes to income or expenditure, and the wording decides
      whether it is also a salary credit or a fee event. Applied to the folds
      of `w`, it yields the folds of `w + [txn]`. */
  method Accumulate(txn: Transaction, ghost w: seq<Transaction>,
                    totalIncome: real, totalExpenditure: real, salaryTransactions: seq<real>, overdraftCount: nat)
    returns (income: real, expenditure: real, salaries: seq<real>, count: nat)
    requires totalIncome == Income(w) && totalExpenditure == Expenditure(w)
    requires salaryTransactions == SalaryCredits(w) && overdraftCount == FeeCount(w)
    ensures income == Income(w + [txn]) && expenditure == Expenditure(w + [txn])
    ensures salaries == SalaryCredits(w + [txn]) && count == FeeCount(w + [txn])
  {
    FoldsStep(w, txn);
    income, expenditure, salaries, count := totalIncome, totalExpenditure, salaryTransactions, overdraftCount;
    var value := txn.value;
    var description := ToUpper(txn.originalWording);
    if value > 0.0 {
      income := income + value;
      if Contains(description, "SALARY") {
        salaries := salaries + [value];
      }
    } else {
      expenditure := expenditure + Abs(value);
      if Contains(description, "OVERDRAFT") || Contains(description, "FEE") {
        count := count + 1;
      }
    }
  }

  /** The source's `forEach` over the ledger: skips entries dated before
      `evaluationPeriodStart` and accumulates the rest by sign. */
  method ScanLedger(transactions: seq<Transaction>, evaluationPeriodStart: int)
    returns (totalIncome: real, totalExpenditure: real, salaryTransactions: seq<real>, overdraftCount: nat)
    ensures totalIncome == Income(Window(transactions, evaluationPeriodStart))
    ensures totalExpenditure == Expenditure(Window(transactions, evaluationPeriodStart))
    ensures salaryTransactions == SalaryCredits(Window(transactions, evaluationPeriodStart))
    ensures overdraftCount == FeeCount(Window(transactions, evaluationPeriodStart))
  {
    totalIncome := 0.0;
    totalExpenditure := 0.0;
    salaryTransactions := [];
    overdraftCount := 0;

    var i := 0;
    ghost var w: seq<Transaction> := [];
    while i < |transactions|
      invariant 0 <= i <= |transactions|
      invariant w == Window(transactions[..i], evaluationPeriodStart)
      invariant totalIncome == Income(w)
      invariant totalExpenditure == Expenditure(w)
      invariant salaryTransactions == SalaryCredits(w)
      invariant overdraftCount == FeeCount(w)
    {
      var txn := transactions[i];
      WindowStep(transactions, i, evaluationPeriodStart);
      if !(txn.date < evaluationPeriodStart) {
        totalIncome, totalExpenditure, salaryTransactions, overdraftCount :=
          Accumulate(txn, w, totalIncome, totalExpenditure, salaryTransactions, overdraftCount);
        w := w + [txn];
      }
      i := i + 1;
    }
    assert transactions[..i] == transactions;
  }

  /** Scores the first account of the first connection at time `now`. */
  method EvaluateCreditRisk(data: BankingData, now: int) returns (result: CreditEvaluationResult)
    requires HasAccount(data)
    ensures result == Evaluate(data.connections[0].accounts[0], now)
    ensures 0 <= result.creditScore <= 10
    ensures result.metrics.currentBalance == data.connections[0].accounts[0].balance
  {
    var account := data.connections[0].accounts[0];
    var transactions := Ledger(account);
    var currentBalance := account.balance;
    var evaluationPeriodStart := WindowStart(now);
    var totalIncome, totalExpenditure, salaryTransactions, overdraftCount :=
      ScanLedger(transactions, evaluationPeriodStart);
    result := Assess(totalIncome, totalExpenditure, salaryTransactions, overdraftCount, currentBalance);
  }
}
