/** The four hard business-rule gates of the credit decision
    (backend/main.py:55-96). They run in order and the first one that fails
    decides the response on its own. */
module RuleGates {
  import opened Policy
  import opened CreditTypes

  function Abs(n: int): nat { if n < 0 then -n else n }

  /** Gate 1: annual income below twelve months of the minimum income. */
  predicate FailsIncome(a: Application) {
    a.income < (MIN_INCOME * 12) as real
  }

  function MonthlyIncome(a: Application): real {
    a.income / 12.0
  }

  /** Monthly repayment over monthly income. Only computed once the income
      gate has passed, which keeps the divisor positive. */
  function DtiRatio(a: Application): real
    requires !FailsIncome(a)
  {
    a.annuity / MonthlyIncome(a)
  }

  /** Gate 2: the repayment burden exceeds MAX_DTI. */
  predicate FailsDti(a: Application)
    requires !FailsIncome(a)
  {
    DtiRatio(a) > MAX_DTI
  }

  /** Loan amount over annual income. */
  function LoanIncomeRatio(a: Application): real
    requires !FailsIncome(a)
  {
    a.credit / a.income
  }

  /** Gate 3: the loan exceeds MAX_LOAN_TO_INCOME annual incomes. */
  predicate FailsLoanToIncome(a: Application)
    requires !FailsIncome(a)
  {
    LoanIncomeRatio(a) > MAX_LOAN_TO_INCOME as real
  }

  /** Age in (fractional) years, from the magnitude of the day count. */
  function Age(a: Application): real {
    Abs(a.daysBirth) as real / 365.0
  }

  /** Gate 4: the age lies outside [MIN_AGE, MAX_AGE]. */
  predicate FailsAge(a: Application) {
    Age(a) < MIN_AGE as real || Age(a) > MAX_AGE as real
  }

  /** The rejection of the earliest failing gate, or None when the
      application passes all four. */
  function FirstViolation(a: Application): Option<Rejection> {
    if FailsIncome(a) then
      Some(Rejection(MinIncome, 1.0, 300, IncomeBelowMinimum(MIN_INCOME)))
    else if FailsDti(a) then
      Some(Rejection(DebtToIncome, 0.95, 350, DebtBurdenTooHigh(DtiRatio(a), MAX_DTI)))
    else if FailsLoanToIncome(a) then
      Some(Rejection(LoanToIncome, 0.99, 320, LoanTooLarge(LoanIncomeRatio(a), MAX_LOAN_TO_INCOME)))
    else if FailsAge(a) then
      Some(Rejection(AgeWindow, 0.80, 400, AgeOutsideWindow(Age(a), MIN_AGE, MAX_AGE)))
    else
      None
  }

  /** Passing the income gate makes income at least 36,000,000, so neither
      the monthly income nor the annual income can be a zero divisor. */
  lemma PassedIncomeGateMeansPositiveIncome(a: Application)
    requires !FailsIncome(a)
    ensures a.income >= 36_000_000.0
    ensures MonthlyIncome(a) >= 3_000_000.0 > 0.0
  {
  }

  /** An income below the minimum is rejected with probability 1.0 and score
      300, whatever the other fields say. */
  lemma IncomeGateRejects(a: Application)
    requires a.income < 36_000_000.0
    ensures FirstViolation(a) == Some(Rejection(MinIncome, 1.0, 300, IncomeBelowMinimum(3_000_000)))
  {
  }

  /** Once income passes, a repayment burden above 70% is rejected with
      probability 0.95 and score 350, whatever the later gates say. */
  lemma DtiGateRejects(a: Application)
    requires a.income >= 36_000_000.0
    requires a.annuity / (a.income / 12.0) > 0.7
    ensures FirstViolation(a) == Some(Rejection(DebtToIncome, 0.95, 350,
                                       DebtBurdenTooHigh(a.annuity / (a.income / 12.0), 0.7)))
  {
  }

  /** Once income and burden pass, a loan above 15 annual incomes is rejected
      with probability 0.99 and score 320, whatever the age. */
  lemma LoanToIncomeGateRejects(a: Application)
    requires a.income >= 36_000_000.0
    requires a.annuity / (a.income / 12.0) <= 0.7
    requires a.credit / a.income > 15.0
    ensures FirstViolation(a) == Some(Rejection(LoanToIncome, 0.99, 320,
                                       LoanTooLarge(a.credit / a.income, 15)))
  {
  }

  /** Once the three money gates pass, an age outside [20, 60] years is
      rejected with probability 0.80 and score 400. */
  lemma AgeGateRejects(a: Application)
    requires a.income >= 36_000_000.0
    requires a.annuity / (a.income / 12.0) <= 0.7
    requires a.credit / a.income <= 15.0
    requires Age(a) < 20.0 || Age(a) > 60.0
    ensures FirstViolation(a) == Some(Rejection(AgeWindow, 0.80, 400,
                                       AgeOutsideWindow(Age(a), 20, 60)))
  {
  }

  /** The age gate in whole days: it passes exactly when the magnitude of
      the day count lies in [20 * 365, 60 * 365], so ages of exactly 20 and
      exactly 60 years pass. */
  lemma AgeWindowInDays(a: Application)
    ensures !FailsAge(a) <==> 7300 <= Abs(a.daysBirth) <= 21900
  {
    var d := Abs(a.daysBirth) as real;
    assert Age(a) == d / 365.0;
    assert Age(a) < 20.0 <==> d < 7300.0;
    assert Age(a) > 60.0 <==> d > 21900.0;
  }

  /** No gate fires exactly when all four conditions hold. */
  lemma NoViolationIffAllGatesPass(a: Application)
    ensures FirstViolation(a) == None <==>
              a.income >= 36_000_000.0
              && a.annuity / (a.income / 12.0) <= 0.7
              && a.credit / a.income <= 15.0
              && 7300 <= Abs(a.daysBirth) <= 21900
  {
    AgeWindowInDays(a);
  }

  /** A rejection names the earliest failing gate: that gate failed and all
      the gates before it passed; its probability/score pair is the gate's
      fixed one. */
  lemma RejectionNamesEarliestFailure(a: Application, r: Rejection)
    requires FirstViolation(a) == Some(r)
    ensures r.gate == MinIncome <==> FailsIncome(a)
    ensures r.gate == DebtToIncome <==> !FailsIncome(a) && FailsDti(a)
    ensures r.gate == LoanToIncome <==> !FailsIncome(a) && !FailsDti(a) && FailsLoanToIncome(a)
    ensures r.gate == AgeWindow <==>
              !FailsIncome(a) && !FailsDti(a) && !FailsLoanToIncome(a) && FailsAge(a)
    ensures r.gate == MinIncome ==> r.probability == 1.0 && r.score == 300
    ensures r.gate == DebtToIncome ==> r.probability == 0.95 && r.score == 350
    ensures r.gate == LoanToIncome ==> r.probability == 0.99 && r.score == 320
    ensures r.gate == AgeWindow ==> r.probability == 0.80 && r.score == 400
  {
  }
}
