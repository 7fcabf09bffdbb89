/** Bank policy constants of the credit decision endpoint (backend/main.py).
    They are process-wide and never change after start-up. */
module Policy {
  /** Minimum monthly income in VND; the income gate compares the annual
      income against twelve times this value. */
  const MIN_INCOME: int := 3_000_000

  /** Largest admissible monthly repayment as a fraction of monthly income. */
  const MAX_DTI: real := 0.7

  /** Largest admissible loan amount as a multiple of annual income. */
  const MAX_LOAN_TO_INCOME: int := 15

  /** Admissible age window in years, both ends included. */
  const MIN_AGE: int := 20
  const MAX_AGE: int := 60

  /** The hand-set default-probability threshold of the model stage; the
      threshold stored with the trained model is not used by the decision. */
  const REALISTIC_THRESHOLD: real := 0.15
}
