# Credit and channel scorers, modelled in Dafny

This project models the three scoring routines of a small lending
application.

- **Banking credit risk** (`lib/creditScoring.ts`, `evaluateCreditRisk`). It
  takes the first account of the first bank connection and keeps the ledger
  entries of the last 90 days. Income, expenditure, salary credits and
  fee/overdraft events are folded out of that window. Four signals, each
  clamped to [0, 1], are then weighted 0.4/0.3/0.2/0.1. The result is a risk
  score from 0 (healthy) to 10 (risky).
- **YouTube channel score** (`service/youTube/algorithm.ts`,
  `getCreditScore`). An over-performance modifier is built from three capped
  ratio boosts and a clamped views-per-subscriber factor. It scales a
  weighted sum of log-normalised subscribers and views and of a capped
  engagement ratio. The capped average becomes a score from 0 (best) to 10
  (worst).
- **Transaction summary** (`app/api/analyze/route.ts`,
  `analyzeTransactions`). One pass totals income and expenses and collects
  the transactions of magnitude above 1000. A base score of 600 gains an
  income-to-expense factor and a balance factor, each capped at 100. The
  result is rounded and clamped into [300, 850].

Modules:

- `Prelude` (`prelude.dfy`): `Math.min`/`max`/`abs`/`round`, sums, and the
  real-arithmetic lemmas the proofs share.
- `Text` (`text.dfy`): `toUpperCase` on ASCII letters and `includes` as a
  substring scan.
- `CreditScoring` (`credit_scoring.dfy`) and `CreditScoringLemmas`
  (`credit_scoring_lemmas.dfy`).
- `ChannelScoring` (`channel_scoring.dfy`).
- `TransactionAnalysis` (`transaction_analysis.dfy`) and
  `TransactionAnalysisLemmas` (`transaction_analysis_lemmas.dfy`).

Each loop and each step-by-step update of the source is a `method`. Its
contract ties the result to a pure specification function, for example
`ScanLedger` to the folds `Income`, `Expenditure`, `SalaryCredits` and
`FeeCount` over `Window`. The lemmas then prove the promised properties of
those functions. The folds run from the back, so one loop iteration extends
them by one step.

Conventions:

- "Now" is a parameter (`now`, in milliseconds), and dates are integer
  timestamps.
- `Math.log` is a parameter `ln`, constrained by `IsLog`: `ln(1) = 0` and
  `ln` is strictly increasing on the positive reals.
- Numbers are exact reals.

## Model

| member | source | states |
|---|---|---|
| Prelude.Round | lib/creditScoring.ts:114 | `Math.round`: the result lies within half a unit of its argument, with halves rounded up; `RoundMonotone` and `RoundOfInt` are its partners |
| Text.Contains | lib/creditScoring.ts:77 | `includes` as a left-to-right scan; `Text.ContainsIff` proves it finds a pattern exactly when the pattern occurs at some offset |
| CreditScoring.Normalize | lib/creditScoring.ts:45-48 | result in [0, 1]; 0 when max = min; 0 at or below min and 1 at or above max on a proper range |
| CreditScoring.NormalizeMonotone | lib/creditScoring.ts:47 | on a proper range, normalisation is non-decreasing in the value |
| CreditScoring.WindowStart | lib/creditScoring.ts:58-61 | the window opens 90 days of milliseconds before `now`; `WindowBoundary` pins both sides of that instant |
| CreditScoring.InWindow | lib/creditScoring.ts:70 | an entry counts unless it is dated strictly before the start, as the early return does; `WindowMembership` lifts it to the window |
| CreditScoring.Ledger | lib/creditScoring.ts:55 | `account.transactions \|\| []`: the account's ledger, empty when the feed omits it; `EmptyLedgerScore` covers the empty case |
| CreditScoring.IsSalary | lib/creditScoring.ts:73-77 | the upper-cased wording contains SALARY; `LowerCaseSalary` and `SampleSalaryWording` exercise it |
| CreditScoring.IsFeeOrOverdraft | lib/creditScoring.ts:73-82 | the upper-cased wording contains OVERDRAFT or FEE; `CoffeeIsFee`, `NoFeeWording` and the sample-wording lemmas pin both directions |
| CreditScoring.Window | lib/creditScoring.ts:68-70 | the in-window sub-ledger is no longer than the ledger |
| CreditScoring.Income | lib/creditScoring.ts:75-76 | the sum of positive in-window values is non-negative |
| CreditScoring.Expenditure | lib/creditScoring.ts:80-81 | the sum of magnitudes of non-positive values is non-negative |
| CreditScoring.SalaryCredits | lib/creditScoring.ts:75-79 | at most one salary credit per entry, every one positive |
| CreditScoring.FeeCount | lib/creditScoring.ts:80-84 | the fee/overdraft count is at most the number of entries |
| CreditScoring.Values | lib/creditScoring.ts:72 | the signed values, one per entry, in ledger order |
| CreditScoring.WindowStep | lib/creditScoring.ts:68-70 | a one-entry longer ledger has the same window, plus that entry when it is not before the start |
| CreditScoring.FoldsStep | lib/creditScoring.ts:75-85 | appending an entry moves each fold by exactly the branch the loop body takes for it |
| CreditScoring.Accumulate | lib/creditScoring.ts:72-85 | the loop body for an in-window entry turns the folds of a window into the folds of that window extended by the entry |
| CreditScoring.ExpenditureRatio | lib/creditScoring.ts:89 | ratio times income equals expenditure when income is positive; 1 otherwise; non-negative for non-negative totals |
| CreditScoring.Mean | lib/creditScoring.ts:90-93 | 0 for no salaries, otherwise mean times count equals the sum |
| CreditScoring.SalaryFrequency | lib/creditScoring.ts:95-96 | frequency times 3 months equals the salary count |
| CreditScoring.BalanceTerm | lib/creditScoring.ts:100 | the term is 0 or 1, and 1 exactly when the balance is non-negative |
| CreditScoring.OverdraftPenalty | lib/creditScoring.ts:101 | in [0, 1]; 0 exactly from 3 events on; 1 with none |
| CreditScoring.OverdraftPenaltyAntitone | lib/creditScoring.ts:101 | more fee events never raise the term, and each of the first three lowers it |
| CreditScoring.Composite | lib/creditScoring.ts:103-112 | terms in [0, 1] give a composite in [0, 1], and 1 when all terms are 1 |
| CreditScoring.WeightsSumToOne | lib/creditScoring.ts:103-106 | the four weights sum to 1 |
| CreditScoring.RiskScore | lib/creditScoring.ts:114 | the rounded risk is an integer in [0, 10] |
| CreditScoring.RiskScoreAntitone | lib/creditScoring.ts:114 | a larger composite never gives a larger risk score |
| CreditScoring.Assess | lib/creditScoring.ts:88-128 | score in [0, 10]; balance and fee count echoed; net income is income minus expenditure |
| CreditScoring.Evaluate | lib/creditScoring.ts:50-129 | score in [0, 10]; balance echoed; both totals non-negative; net income is their difference |
| CreditScoring.ScanLedger | lib/creditScoring.ts:63-86 | the loop's totals, salary list and count are the folds over the 90-day window |
| CreditScoring.EvaluateCreditRisk | lib/creditScoring.ts:50-129 | the result is `Evaluate` of the first account at `now`; score in [0, 10]; balance echoed |
| CreditScoringLemmas.WindowMembership | lib/creditScoring.ts:68-70 | an entry is in the window iff it is in the ledger and not dated before the start |
| CreditScoringLemmas.WindowBoundary | lib/creditScoring.ts:59-61 | an entry exactly at now − 90 days is kept; one a millisecond earlier is dropped |
| CreditScoringLemmas.WindowAppend | lib/creditScoring.ts:68-70 | the window of a concatenation is the concatenation of the windows |
| CreditScoringLemmas.WindowIgnoresStale | lib/creditScoring.ts:70 | inserting a stale entry anywhere leaves the window unchanged |
| CreditScoringLemmas.EvaluateIgnoresStale | lib/creditScoring.ts:68-70 | so a stale entry changes no total, list, count or score |
| CreditScoringLemmas.NetIncomeIsSignedSum | lib/creditScoring.ts:75-88 | income minus expenditure is the signed sum of the window's values |
| CreditScoringLemmas.SalaryCreditsExact | lib/creditScoring.ts:75-79 | a value is a salary credit iff some in-window positive entry worded as a salary carries it |
| CreditScoringLemmas.MeanBounds | lib/creditScoring.ts:90-93 | a mean lies between any bounds of its elements |
| CreditScoringLemmas.AverageSalaryBounds | lib/creditScoring.ts:90-93 | the average salary is positive once there is a salary credit, and between the bounds of the salaries |
| CreditScoringLemmas.ZeroValueEntry | lib/creditScoring.ts:75-85 | a zero-valued entry takes the expenditure branch: it changes neither total nor the salary list, and it counts as a fee event exactly when its wording says so |
| CreditScoringLemmas.WordingMatches | lib/creditScoring.ts:73-82 | a wording holding a word whose upper case is the pattern matches that pattern |
| CreditScoringLemmas.LowerCaseSalary | lib/creditScoring.ts:73-77 | lower-case "salary" is recognised |
| CreditScoringLemmas.CoffeeIsFee | lib/creditScoring.ts:82 | a wording containing "Coffee" counts as a fee event, because the test is a bare substring test |
| CreditScoringLemmas.NoFeeWording | lib/creditScoring.ts:82 | a wording with no F and no R in either case is never a fee or overdraft |
| CreditScoringLemmas.OverdrawnAssessment | lib/creditScoring.ts:100-114 | with the same totals, salaries and fee events, an overdrawn balance never gives a lower risk score than a non-negative one |
| CreditScoringLemmas.OverdrawnNeverLowersRisk | lib/creditScoring.ts:100-114 | an overdrawn balance never gives a lower risk score than a non-negative one |
| CreditScoringLemmas.HealthiestScore | lib/creditScoring.ts:98-114 | net income ≥ 5000, six or more salary credits, no fee event and a non-negative balance give risk 0 |
| CreditScoringLemmas.ThreeFeesSaturate | lib/creditScoring.ts:101 | from three fee events on, the term is 0 |
| CreditScoringLemmas.NothingToScore | lib/creditScoring.ts:88-114 | with no activity and a zero balance: ratio 1, frequency 0, average salary 0, risk 5 |
| CreditScoringLemmas.EmptyLedgerScore | lib/creditScoring.ts:55-114 | a missing ledger with a zero balance gives zero totals, ratio 1 and risk 5 |
| CreditScoringLemmas.SampleAssessment | lib/creditScoring.ts:88-114 | the sample figures (net 988.53, one salary, one fee, overdrawn) give risk 6 |
| CreditScoringLemmas.SampleSalaryWording | lib/creditScoring.ts:159 | the sample salary wording is a salary |
| CreditScoringLemmas.SampleCasinoWording | lib/creditScoring.ts:151 | the sample casino debit is not a fee |
| CreditScoringLemmas.SampleFeeWording | lib/creditScoring.ts:360 | the sample overdraft-usage fee is a fee |
| CreditScoringLemmas.AllInWindow | lib/creditScoring.ts:70 | a ledger with no stale entry is its own window |
| CreditScoringLemmas.SampleLedgerScore | lib/creditScoring.ts:146-160 | the casino debit, the salary credit, the overdraft-usage fee of 2024-12-14 and the balance −362.05, scored at 2025-01-01, give income 1356.53, expenditure 368, one fee event and risk 6 |
| Text.UpperChar | lib/creditScoring.ts:73 | ASCII lower-case letters map to their upper case; every other character is kept |
| Text.ToUpper | lib/creditScoring.ts:73 | same length, and each character is upper-cased on its own |
| Text.ToUpperAppend | lib/creditScoring.ts:73 | upper-casing distributes over concatenation |
| Text.ContainsIff | lib/creditScoring.ts:77 | the scan finds a pattern iff it occurs at some offset |
| Text.ContainsInside | lib/creditScoring.ts:77 | a pattern placed inside any text is found |
| Text.AbsentChar | lib/creditScoring.ts:82 | a pattern with a character the text lacks is not found |
| Text.UpperAbsent | lib/creditScoring.ts:73 | a letter absent in both cases stays absent after upper-casing |
| ChannelScoring.LogSign | service/youTube/algorithm.ts:48 | the logarithm is non-negative from 1 on and positive above 1 |
| ChannelScoring.PowMonotone | service/youTube/algorithm.ts:49 | cubing non-negative reals is non-negative and monotone |
| ChannelScoring.PowOne | service/youTube/algorithm.ts:49 | 1 cubed is 1 |
| ChannelScoring.NormalizeLog | service/youTube/algorithm.ts:47-50 | never above 1; 0 at value 0; non-negative for non-negative values; 1 at or above the reference |
| ChannelScoring.NormalizeLogMonotone | service/youTube/algorithm.ts:47-50 | for non-negative values the normalisation is non-decreasing |
| ChannelScoring.Boosted | service/youTube/algorithm.ts:59-67 | one conditional `*=` step; `BoostedBounds` and `BoostedOfMetric` prove it multiplies by a factor in (1, 1.2] exactly when the ratio exceeds 1 |
| ChannelScoring.BoostedBounds | service/youTube/algorithm.ts:59-67 | a step keeps a non-negative modifier between itself and 1.2 times itself; unchanged at ratio ≤ 1, exactly 1.2 times at ratio ≥ 1.2; raises a positive modifier iff the ratio is above 1 |
| ChannelScoring.BoostedOfMetric | service/youTube/algorithm.ts:59-67 | a metric raises the modifier iff it exceeds its reference; a metric equal to its reference leaves it unchanged; 1.2 times the reference gives the full 1.2 |
| ChannelScoring.ApplyOverPerformance | service/youTube/algorithm.ts:59-67 | the conditional `*=` step computes `Boosted` |
| ChannelScoring.ViewsPerSubscriberFactor | service/youTube/algorithm.ts:68 | the factor is in [0.8, 1.2]: 0.8 at or below 0.8, 1.2 at or above 1.2, the ratio itself in between, so at least 1 for a ratio of at least 1 |
| ChannelScoring.Scaled | service/youTube/algorithm.ts:68 | the unconditional `*=` by the clamped views-per-subscriber factor; `ScaledBounds` bounds it |
| ChannelScoring.ApplyViewsPerSubscriber | service/youTube/algorithm.ts:68 | the unconditional `*=` step computes `Scaled` |
| ChannelScoring.BoostChainBounds | service/youTube/algorithm.ts:58-67 | three steps from 1 give a value in [1, 1.2³], and 1 when no ratio exceeds 1 |
| ChannelScoring.FactorBounds | service/youTube/algorithm.ts:68 | a factor in [0.8, 1.2] keeps a value of [1, 1.2³] within [0.8, 1.2⁴] |
| ChannelScoring.ScaledBounds | service/youTube/algorithm.ts:68 | the last step keeps the modifier in [0.8, 1.2⁴] and does not lower it for a ratio ≥ 1 |
| ChannelScoring.Boost | service/youTube/algorithm.ts:58-67 | the three conditional steps from 1, one per metric over its reference; `BoostBounds` bounds it |
| ChannelScoring.Modifier | service/youTube/algorithm.ts:58-68 | the boosts times the views-per-subscriber factor; `ModifierBounds` bounds it and `ComputeModifier` computes it |
| ChannelScoring.BoostBounds | service/youTube/algorithm.ts:58-67 | the boosts lie in [1, 1.2³], and are exactly 1 when no metric exceeds its reference |
| ChannelScoring.ModifierBounds | service/youTube/algorithm.ts:58-68 | the modifier lies in [0.8, 1.2⁴]; it is ≥ 1 when views per video are at least half the subscribers |
| ChannelScoring.ComputeModifier | service/youTube/algorithm.ts:58-68 | the step-by-step modifier equals the specification `Modifier` |
| ChannelScoring.NormEngagement | service/youTube/algorithm.ts:77 | at most 1; non-negative for non-negative engagement; 1 at or above the reference |
| ChannelScoring.Normalize | service/youTube/algorithm.ts:71-77 | each normalised metric is at most 1 and 1 at or above its reference; subscribers always, views and engagement for non-negative inputs, normalise to a non-negative value |
| ChannelScoring.WeightedSum | service/youTube/algorithm.ts:79-82 | the weighted sum of the three normalised metrics; `WeightedSumBounds` and `WeightedSumAtCap` are its partners |
| ChannelScoring.TotalWeight | service/youTube/algorithm.ts:85 | the sum of the three weights, the divisor of the average |
| ChannelScoring.WeightedTerm | service/youTube/algorithm.ts:79-82 | a non-negative weight times a value in [0, 1] lies between 0 and the weight |
| ChannelScoring.ThreeTermBounds | service/youTube/algorithm.ts:79-85 | three terms, each a non-negative weight times a value in [0, 1], sum to between 0 and the sum of the weights |
| ChannelScoring.WeightedSumBounds | service/youTube/algorithm.ts:79-85 | with non-negative weights the weighted sum lies between 0 and the total weight |
| ChannelScoring.AverageScore | service/youTube/algorithm.ts:88 | the average is capped at 1 |
| ChannelScoring.AverageScoreBounds | service/youTube/algorithm.ts:88 | non-negative for a non-negative raw score; at the cap iff the raw score reaches the total weight |
| ChannelScoring.WeightedSumAtCap | service/youTube/algorithm.ts:79-85 | with every metric at its cap the weighted sum is the total weight |
| ChannelScoring.ScoreOf | service/youTube/algorithm.ts:88-91 | `10 - averageScore * 10` for a raw score and a total weight; `ScoreOfBounds` bounds it |
| ChannelScoring.ScoreFor | service/youTube/algorithm.ts:87-91 | the score for a weighted sum scaled by the modifier; `ScoreForBounds` bounds it |
| ChannelScoring.ScoreOfBounds | service/youTube/algorithm.ts:88-91 | the score is ≥ 0; 0 iff the raw score reaches the total weight; ≤ 10 for a non-negative raw score |
| ChannelScoring.ScoreForBounds | service/youTube/algorithm.ts:85-91 | the score is ≥ 0; ≤ 10 for a non-negative sum and modifier; 0 once the sum reaches the total weight with a modifier ≥ 1 |
| ChannelScoring.ComputeScore | service/youTube/algorithm.ts:79-91 | the step-by-step score equals `ScoreFor` of the weighted sum, the modifier and the total weight |
| ChannelScoring.ChannelScore | service/youTube/algorithm.ts:53-92 | the scorer's result as one expression; `GetCreditScore` computes it and `ChannelScoreBounds`/`FullyCappedScoresZero` bound it |
| ChannelScoring.ChannelScoreBounds | service/youTube/algorithm.ts:53-92 | the score is never negative, and at most 10 for non-negative metrics and weights of positive total |
| ChannelScoring.FullyCappedScoresZero | service/youTube/algorithm.ts:53-92 | a channel at or above every reference, with views per video at least half its subscribers, scores exactly 0 |
| ChannelScoring.GetCreditScore | service/youTube/algorithm.ts:53-92 | the returned score is `ChannelScore`; it lies in [0, 10] under the conditions above |
| TransactionAnalysis.AverageBalance | app/api/analyze/route.ts:89 | the first cash entry's amount when there is one; 0 when the cash list is missing or empty or its first entry has no amount |
| TransactionAnalysis.IsLarge | app/api/analyze/route.ts:108 | a transaction is large when its magnitude exceeds 1000; `LargeTransactionsMembership` lifts it to the report |
| TransactionAnalysis.TotalIncome | app/api/analyze/route.ts:101-102 | the sum of positive amounts is non-negative |
| TransactionAnalysis.TotalExpenses | app/api/analyze/route.ts:103-104 | the sum of magnitudes of the other amounts is non-negative |
| TransactionAnalysis.LargeTransactions | app/api/analyze/route.ts:108-110 | at most one reported transaction per input transaction |
| TransactionAnalysis.Amounts | app/api/analyze/route.ts:100 | the signed amounts, one per transaction, in input order |
| TransactionAnalysis.FoldsStep | app/api/analyze/route.ts:100-111 | appending a transaction moves each fold by exactly the branch the loop body takes |
| TransactionAnalysis.ExpenseDivisor | app/api/analyze/route.ts:119 | `expenses \|\| 1` is positive for non-negative expenses |
| TransactionAnalysis.IncomeExpenseFactor | app/api/analyze/route.ts:117-120 | the factor never exceeds 100 |
| TransactionAnalysis.BalanceFactor | app/api/analyze/route.ts:123-126 | the factor never exceeds 100 |
| TransactionAnalysis.FinalScore | app/api/analyze/route.ts:128-131 | the score is an integer in [300, 850], and the rounded base score itself whenever that lies in the range |
| TransactionAnalysis.ScoreOf | app/api/analyze/route.ts:114-131 | the score for given totals and balance lies in [300, 850]; the score lemmas below sharpen it |
| TransactionAnalysis.Analyze | app/api/analyze/route.ts:83-134 | both totals non-negative; at most one large transaction per input; recurring payments and factors empty; score in [300, 850] |
| TransactionAnalysis.ScanTransactions | app/api/analyze/route.ts:100-111 | the loop's totals and large-transaction list are the folds over the whole input |
| TransactionAnalysis.ComputeScore | app/api/analyze/route.ts:114-131 | the `+=` steps and the clamp compute `ScoreOf` |
| TransactionAnalysis.AnalyzeTransactions | app/api/analyze/route.ts:83-134 | the result is `Analyze`; score in [300, 850]; recurring payments and factors stay empty |
| TransactionAnalysisLemmas.LargeTransactionsMembership | app/api/analyze/route.ts:107-110 | a transaction is reported iff it is in the input and its magnitude is above 1000 |
| TransactionAnalysisLemmas.LargeTransactionsAppend | app/api/analyze/route.ts:107-110 | the report of a concatenation is the concatenation of the reports, so input order is kept |
| TransactionAnalysisLemmas.NetIsSignedSum | app/api/analyze/route.ts:100-105 | income minus expenses is the signed sum of all amounts |
| TransactionAnalysisLemmas.IncomeExpenseFactorBounds | app/api/analyze/route.ts:117-120 | for non-negative totals the factor is ≥ 0, and at its cap iff income is at least twice the divisor |
| TransactionAnalysisLemmas.IncomeExpenseFactorMonotone | app/api/analyze/route.ts:117-120 | more income never lowers the factor |
| TransactionAnalysisLemmas.BalanceFactorBounds | app/api/analyze/route.ts:123-126 | ≥ 0 for a non-negative balance; 100 from 20000 on; balance / 200 below that |
| TransactionAnalysisLemmas.ScoreAtMost800 | app/api/analyze/route.ts:114-131 | the score never exceeds 800, so the clamp at 850 never applies |
| TransactionAnalysisLemmas.ScoreAtLeast600 | app/api/analyze/route.ts:114-131 | non-negative totals and balance never score below 600 |
| TransactionAnalysisLemmas.DeepOverdraftScoresMinimum | app/api/analyze/route.ts:123-131 | a balance of −80000 or less is clamped to the minimum score of 300 |
| TransactionAnalysisLemmas.ScoreMonotoneInBalance | app/api/analyze/route.ts:123-131 | a larger balance never lowers the score |
| TransactionAnalysisLemmas.ScoreMonotoneInIncome | app/api/analyze/route.ts:117-131 | more income with the same expenses never lowers the score |
| TransactionAnalysisLemmas.EmptyLedgerWithoutCash | app/api/analyze/route.ts:85-131 | no transactions and no cash list give zero totals, no large transactions and the score 600 |

## Left out

- Console output (`console.log(data)`, lib/creditScoring.ts:53) and the wall clock: `Date.now()` is the parameter `now`.
- ISO date-string parsing: dates are integer millisecond timestamps. The NaN comparison of an unparsable date is not modelled.
- IEEE-754 floating point: all numbers are exact reals, so rounding error, NaN and Infinity are not modelled.
- `Math.log` is a parameter constrained only by `ln(1) = 0` and strict monotonicity. `Math.pow(x, 3)` is an exact cube.
- `toUpperCase` covers ASCII letters only. Other characters, including non-ASCII case mappings, are left unchanged.
- CreditScoring.EvaluateCreditRisk: requires a first connection with a first account. The source throws on an empty list there (lib/creditScoring.ts:54), and the exception is not modelled.
- ChannelScoring.GetCreditScore: requires positive references and a positive subscriber count, which the source divides by unguarded. The precondition thereby excludes inputs for which the source still returns a finite score. With zero subscribers and positive views, the `Infinity` ratio at service/youTube/algorithm.ts:68 is clamped to 1.2 and `normalizeLog(0, ·)` is 0. A zero reference with a positive metric gives an `Infinity` ratio that the boost caps at 1.2 and the normalisations cap at 1. A zero over a zero gives NaN. The member also requires a non-zero total weight and views per video above −1, where `Math.log` is defined.
- ChannelScoring.NormalizeLog: requires `maxValue > 0` and `value > -1`, so that both logarithms are defined and the divisor is positive.
- The analysis record of `analyzeTransactions` is a fresh local object that is only filled in and returned. It is modelled as local variables assembled into a datatype at the end, not as an object updated in place.
- TransactionAnalysis.AverageBalance: `cash` is assumed present. app/api/analyze/route.ts:89 reads `balance.cash` without a guard: only the accesses after `available` are optional. A `balance` without `cash` therefore makes `analyzeTransactions` throw a TypeError before any total is computed. That error path is not modelled. The caller (route.ts:41, 58) passes the account object retrieved from the payment provider. Whether that object carries `cash` at its top level cannot be decided from the files modelled here. If it does not, this throw is the path every call takes.
- TransactionAnalysis.ExpenseDivisor: `|| 1` also replaces NaN, which exact reals do not have.
- The `GET` route handler and its Stripe and Supabase calls are not part of this model.
- The example-usage block of service/youTube/algorithm.ts (lines 94-163) and the `banking_data` fixture are not part of this model, apart from the three sample entries the sample lemmas use.
