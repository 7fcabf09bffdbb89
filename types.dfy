/** The values that flow through the credit decision pipeline. */
module CreditTypes {

  datatype Option<T> = None | Some(value: T)

  /** One loan application, as the prediction endpoint receives it.
      Money is in VND; day counts are negative when they lie in the past,
      as the front end sends them. */
  datatype Application = Application(
    income: real,       // annual income (AMT_INCOME_TOTAL)
    credit: real,       // requested loan amount (AMT_CREDIT)
    annuity: real,      // monthly repayment (AMT_ANNUITY)
    daysBirth: int,     // DAYS_BIRTH
    daysEmployed: int,  // DAYS_EMPLOYED
    gender: string,     // CODE_GENDER, "M" when the caller omits it
    education: string)  // EDUCATION, "University" when the caller omits it

  /** A numeric cell of the feature table. Division in the table follows
      floating-point rules, so a zero divisor yields an infinity or NaN
      instead of an error. */
  datatype Value = Num(x: real) | PosInf | NegInf | NaN

  /** One named column of the single-row table handed to the classifier. */
  datatype Feature = Feature(name: string, value: Value)

  /** What a call of the classifier gives back: the probability of default,
      or an exception. */
  datatype OracleOutcome = Probability(p: real) | Raised

  datatype Status = Approve | Reject

  /** The four business-rule gates, in the order they are evaluated. */
  datatype Gate = MinIncome | DebtToIncome | LoanToIncome | AgeWindow

  /** The message of a decision, as the numbers it interpolates. */
  datatype Message =
    | IncomeBelowMinimum(monthlyMinimum: int)
    | DebtBurdenTooHigh(dtiRatio: real, maxDti: real)
    | LoanTooLarge(loanIncomeRatio: real, maxLoanToIncome: int)
    | AgeOutsideWindow(age: real, minAge: int, maxAge: int)
    | GoodProfile(probability: real)
    | HighRiskProfile(probability: real)

  /** The terminal outcome of a failed gate. */
  datatype Rejection = Rejection(gate: Gate, probability: real, score: int, message: Message)

  /** The response of the endpoint. A rule rejection always has status
      REJECT and carries no threshold; a model decision carries both;
      InternalError is the HTTP 500 raised when scoring throws. */
  datatype Decision =
    | RuleRejection(rejection: Rejection)
    | ModelDecision(status: Status, probability: real, threshold: real, score: int, message: Message)
    | InternalError
}
