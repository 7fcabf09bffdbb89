# Credit decision endpoint of the Intelligent Credit Scoring System

This project models the `/predict` endpoint of the bank's credit scoring
back end, `predict_credit_score`. It takes one loan application and returns
either a fixed rule rejection or a decision made by a trained classifier.

1. Four business-rule gates run in order, and the first one that fails
   decides the response:
   - minimum income: annual income below 12 × 3,000,000 VND;
   - debt to income: the monthly repayment is more than 70% of monthly income;
   - loan to income: the loan is more than 15 annual incomes;
   - age: the age is outside 20–60 years.
   Each gate returns a fixed probability/score pair: (1.0, 300), (0.95, 350),
   (0.99, 320) and (0.80, 400).
2. A single-row feature table is built. It holds the five raw fields and
   four engineered ratios. Every other column the classifier expects is set
   to 0, and the columns are taken in the classifier's declared order.
3. The classifier returns a probability of default `p`. In the model the
   classifier is a parameter: a total function from the feature vector to
   `Probability(p)` or `Raised`.
4. The status is REJECT when `p >= 0.15` and APPROVE otherwise. The credit
   score is `int(850 - (p / 0.15) * 250)`, raised to 300 when it falls below.

Modules:
- `Policy` (policy.dfy) holds the constants.
- `CreditTypes` (types.dfy) holds the application, the feature values, the
  messages and the decision record.
- `RuleGates` (rule_gates.dfy) holds the gate chain.
- `Scoring` (scoring.dfy) holds the status rule and the score map.
- `Features` (features.dfy) models the table as a class `Frame` whose
  map of cells is updated in place. The method `BuildFeatures` has the column-filling loop;
  it is proved equal to the function `FeatureVector`.
- `Pipeline` (pipeline.dfy) holds the endpoint. The function `Decide`
  specifies it, and the method `PredictCreditScore` follows the code's
  early returns step by step.

Facts about the code that the proofs pin down:
- The score map is one linear segment; it gives 600 at the threshold.
- The only gates are the four above; employment length and loan term are
  never checked, and no per-feature reasons are produced.
- An annual income of 24,000,000 is stopped by the income gate (score 300)
  before the debt-to-income gate can fire (score 350).
- An example application with income 60,000,000 and p = 0.08 is approved
  with score 716.

## Model

| member | source | states |
|---|---|---|
| `RuleGates.IncomeGateRejects` | Credit-Scoring-System/backend/main.py:55-61 | an annual income below 36,000,000 gives REJECT with probability 1.0 and score 300, whatever the other fields are |
| `RuleGates.PassedIncomeGateMeansPositiveIncome` | Credit-Scoring-System/backend/main.py:55-79 | after the income gate, income ≥ 36,000,000 and monthly income ≥ 3,000,000, so the ratio divisors are never zero |
| `RuleGates.DtiGateRejects` | Credit-Scoring-System/backend/main.py:66-75 | once income passes, `annuity/(income/12) > 0.7` gives probability 0.95 and score 350, and the message carries the ratio and 0.7 |
| `RuleGates.LoanToIncomeGateRejects` | Credit-Scoring-System/backend/main.py:79-86 | once income and burden pass, `credit/income > 15` gives probability 0.99 and score 320, and the message carries the ratio and 15 |
| `RuleGates.AgeGateRejects` | Credit-Scoring-System/backend/main.py:89-96 | once the money gates pass, an age below 20 or above 60 years gives probability 0.80 and score 400, and the message carries the age and the bounds |
| `RuleGates.AgeWindowInDays` | Credit-Scoring-System/backend/main.py:89-90 | the age gate passes iff 7300 ≤ \|daysBirth\| ≤ 21900, so exactly 20 and exactly 60 years pass |
| `RuleGates.NoViolationIffAllGatesPass` | Credit-Scoring-System/backend/main.py:55-96 | no gate fires iff all four conditions hold, with the age condition in days |
| `RuleGates.RejectionNamesEarliestFailure` | Credit-Scoring-System/backend/main.py:55-96 | a rejection names gate G iff G failed and every earlier gate passed (first failure wins), with G's fixed probability/score pair |
| `Scoring.Truncate` | Credit-Scoring-System/backend/main.py:132 | Python `int()`: the integer between the value and zero, less than one away from the value |
| `Scoring.NormalizedScore` | Credit-Scoring-System/backend/main.py:132-133 | the clamped score is never below 300 |
| `Scoring.TruncateMonotone` | Credit-Scoring-System/backend/main.py:132 | truncation toward zero is monotone |
| `Scoring.ScoreNonIncreasing` | Credit-Scoring-System/backend/main.py:132-133 | `p1 <= p2` implies score(p1) ≥ score(p2) |
| `Scoring.ScoreBounds` | Credit-Scoring-System/backend/main.py:132-133 | for p in [0, 1] the score lies in [300, 850] |
| `Scoring.ScoreAnchors` | Credit-Scoring-System/backend/main.py:126-133 | the score is 850 at p = 0, 600 at p = 0.15 and 300 at p = 1 |
| `Scoring.ApprovalScoresAtLeast600` | Credit-Scoring-System/backend/main.py:126-133 | an APPROVE probability scores at least 600 |
| `Scoring.RejectionScoresAtMost600` | Credit-Scoring-System/backend/main.py:126-133 | a probability the model stage rejects scores at most 600 |
| `Scoring.TruncationIrrelevantUnderFloor` | Credit-Scoring-System/backend/main.py:132-133 | flooring instead of truncating would give the same clamped score for every p |
| `Features.FeatureVector` | Credit-Scoring-System/backend/main.py:101-121 | one feature per expected name, in the expected order, each holding that column's value in the finished table |
| `Features.FeatureNamesAreExpected` | Credit-Scoring-System/backend/main.py:116-121 | the vector's names are exactly the expected names, in order |
| `Features.ComputedColumnNames` | Credit-Scoring-System/backend/main.py:101-113 | the pipeline computes exactly the five raw and the four engineered columns |
| `Features.ColumnFilling` | Credit-Scoring-System/backend/main.py:116-118 | an expected column the pipeline computed keeps its computed value, and any other expected column is 0 |
| `Features.EngineeredRatiosAfterGates` | Credit-Scoring-System/backend/main.py:110-113 | after the gates, the ratios are `credit/income`, `annuity/(income/12)` and `daysEmployed/daysBirth`, all finite; the credit term is finite iff annuity ≠ 0, and then it is `credit/annuity` |
| `Features.Frame.constructor` | Credit-Scoring-System/backend/main.py:101-107 | the new table holds exactly the five raw fields of the application |
| `Features.Frame.SetColumn` | Credit-Scoring-System/backend/main.py:110-118 | assigning a column sets that column's value and leaves every other column as it was |
| `Features.Frame.Select` | Credit-Scoring-System/backend/main.py:121 | selecting by a list of names fails iff some name is missing (KeyError); otherwise it gives the named values in list order |
| `Features.EngineeredFrame` | Credit-Scoring-System/backend/main.py:101-113 | the table after the four ratio assignments holds exactly the computed cells |
| `Features.BuildFeatures` | Credit-Scoring-System/backend/main.py:101-121 | the zero-filling loop followed by the selection yields exactly `FeatureVector` |
| `Pipeline.PredictCreditScore` | Credit-Scoring-System/backend/main.py:53-147 | the step-by-step endpoint returns exactly `Decide` |
| `Pipeline.OneStageDecides` | Credit-Scoring-System/backend/main.py:55-147 | the response is a rule rejection iff a gate fails; otherwise it is an internal error iff the classifier raises on the feature vector |
| `Pipeline.RejectionIgnoresOracle` | Credit-Scoring-System/backend/main.py:55-121 | when a gate fails, neither the classifier nor the expected columns affect the response |
| `Pipeline.OracleSeesOnlyFeatureVector` | Credit-Scoring-System/backend/main.py:121 | two classifiers that agree on the feature vector give the same response |
| `Pipeline.ModelDecisionProperties` | Credit-Scoring-System/backend/main.py:126-143 | a model decision is REJECT iff p ≥ 0.15 and returns probability p and threshold 0.15; APPROVE scores ≥ 600, REJECT ≤ 600, and p in [0, 1] scores in [300, 850] |
| `Pipeline.DecisionScoreInRange` | Credit-Scoring-System/backend/main.py:55-143 | with a classifier whose results lie in [0, 1], a rule score lies in [300, 400] and a model score in [300, 850] |
| `Pipeline.RuleRejectionScoresBelowApprovals` | Credit-Scoring-System/backend/main.py:55-133 | every rule rejection scores strictly below every model approval |
| `Pipeline.GateResponses` | Credit-Scoring-System/backend/main.py:55-96 | the endpoint's response for each failing gate, earlier gates passed: (1.0, 300), (0.95, 350), (0.99, 320) or (0.80, 400), with the interpolated ratio and limit, whatever the classifier |
| `Pipeline.ExampleApprovedScores716` | Credit-Scoring-System/backend/main.py:53-143 | income 60,000,000, loan 50,000,000, repayment 2,000,000, age 30 and p = 0.08 are approved with score 716 |
| `Pipeline.LowIncomeExampleRejectedByIncomeGate` | Credit-Scoring-System/backend/main.py:55-61 | income 24,000,000 with repayment 1,800,000 is rejected by the income gate with score 300, whatever the classifier says |
| `Pipeline.IgnoresGenderAndEducation` | Credit-Scoring-System/backend/main.py:101-107 | gender and education never change the response, because they are not table columns |

## Left out

- The classifier (`model.predict_proba`) is a foreign call. It is a
  function parameter, and its range [0, 1] is the assumption
  `OracleInRange`. A NaN probability is not modelled.
- Start-up loading of the model and its metadata is file I/O, and so is the
  fallback threshold 0.5; that threshold is never used by the decision. A
  failed load makes every scoring attempt raise, which is the same as a
  classifier that always returns `Raised`.
- The HTTP layer is left out: FastAPI, CORS, pydantic type coercion and the
  form defaults. The HTTP 500 raised on an exception is the decision
  `InternalError`.
- Message text is left out: the Vietnamese strings and their `:.1%` and
  `:,.0f` formatting. A message is a variant that carries the numbers it
  interpolates.
- RuleGates.PassedIncomeGateMeansPositiveIncome: holds for the model's
  finite reals only. The application's money fields are finite reals here,
  while the request parser also accepts NaN and infinities; in the code a
  NaN income, repayment or loan passes the money gates (every comparison
  with NaN is false), and so does an infinite income (both ratios become 0).
  Such inputs are not modelled.
- Floating-point rounding is left out. Money and ratios are exact reals.
  Division by zero in the table gives an infinity or NaN, as floating point
  does, but a negative zero divisor is not distinguished.
- The insertion order of the table's columns is not kept. The table is a
  map from column name to value, because the selection by the expected
  names alone fixes the order the classifier sees.
- Logging of the exception is left out, because it is output only.
- The training scripts and the React front end are not part of this model.
