/** The prediction endpoint as a whole (backend/main.py:53-147): the gate
    chain, the feature table, the classifier call, the status rule and the
    score map. The trained classifier is a parameter: a total function from
    the feature vector to a probability of default or an exception. */
module Pipeline {
  import opened Policy
  import opened CreditTypes
  import opened RuleGates
  import opened Scoring
  import opened Features

  /** The message of a model decision. */
  function ModelMessage(status: Status, p: real): Message {
    if status == Approve then GoodProfile(p) else HighRiskProfile(p)
  }

  /** The decision made from a probability of default. */
  function ModelOutcome(p: real): Decision {
    var status := StatusFor(p);
    ModelDecision(status, p, REALISTIC_THRESHOLD, NormalizedScore(p), ModelMessage(status, p))
  }

  /** The response the endpoint gives to one application. */
  function Decide(a: Application, expected: seq<string>, oracle: seq<Feature> -> OracleOutcome): Decision {
    match FirstViolation(a)
    case Some(r) => RuleRejection(r)
    case None =>
      match oracle(FeatureVector(a, expected))
      case Raised => InternalError
      case Probability(p) => ModelOutcome(p)
  }

  /** The classifier's contract: every probability it returns lies in [0, 1]. */
  ghost predicate OracleInRange(oracle: seq<Feature> -> OracleOutcome) {
    forall fv :: oracle(fv).Probability? ==> 0.0 <= oracle(fv).p <= 1.0
  }

  /** The endpoint body, step by step: early returns for the four gates,
      then the feature table, the classifier call, the status and the
      clamped score. */
  method PredictCreditScore(a: Application, expected: seq<string>, oracle: seq<Feature> -> OracleOutcome)
    returns (d: Decision)
    ensures d == Decide(a, expected, oracle)
  {
    if a.income < (MIN_INCOME * 12) as real {
      return RuleRejection(Rejection(MinIncome, 1.0, 300, IncomeBelowMinimum(MIN_INCOME)));
    }

    var monthlyIncome := a.income / 12.0;
    var dtiRatio := a.annuity / monthlyIncome;
    if dtiRatio > MAX_DTI {
      return RuleRejection(Rejection(DebtToIncome, 0.95, 350, DebtBurdenTooHigh(dtiRatio, MAX_DTI)));
    }

    var loanIncomeRatio := a.credit / a.income;
    if loanIncomeRatio > MAX_LOAN_TO_INCOME as real {
      return RuleRejection(Rejection(LoanToIncome, 0.99, 320, LoanTooLarge(loanIncomeRatio, MAX_LOAN_TO_INCOME)));
    }

    var age := Abs(a.daysBirth) as real / 365.0;
    if age < MIN_AGE as real || age > MAX_AGE as real {
      return RuleRejection(Rejection(AgeWindow, 0.80, 400, AgeOutsideWindow(age, MIN_AGE, MAX_AGE)));
    }

    var features := BuildFeatures(a, expected);
    var outcome := oracle(features);
    if outcome.Raised? {
      return InternalError;
    }
    var probDefault := outcome.p;

    var status := if probDefault >= REALISTIC_THRESHOLD then Reject else Approve;
    var normalizedScore := Truncate(850.0 - (probDefault / REALISTIC_THRESHOLD) * 250.0);
    if normalizedScore < 300 {
      normalizedScore := 300;
    }
    var msg := if status == Approve then GoodProfile(probDefault) else HighRiskProfile(probDefault);
    d := ModelDecision(status, probDefault, REALISTIC_THRESHOLD, normalizedScore, msg);
  }

  /** Exactly one stage decides: a failed gate gives a rule rejection and
      nothing else; otherwise the classifier's answer on the expected
      feature vector decides, an exception giving the internal error. */
  lemma OneStageDecides(a: Application, expected: seq<string>, oracle: seq<Feature> -> OracleOutcome)
    ensures Decide(a, expected, oracle).RuleRejection? <==> FirstViolation(a).Some?
    ensures FirstViolation(a).Some? ==> Decide(a, expected, oracle) == RuleRejection(FirstViolation(a).value)
    ensures FirstViolation(a).None? ==>
              (Decide(a, expected, oracle).InternalError? <==> oracle(FeatureVector(a, expected)).Raised?)
  {
  }

  /** The classifier is not consulted when a gate fails: neither the
      classifier nor the expected columns change the response. */
  lemma RejectionIgnoresOracle(a: Application, e1: seq<string>, e2: seq<string>,
                               o1: seq<Feature> -> OracleOutcome, o2: seq<Feature> -> OracleOutcome)
    requires FirstViolation(a).Some?
    ensures Decide(a, e1, o1) == Decide(a, e2, o2)
  {
  }

  /** The classifier sees exactly the feature vector: two classifiers that
      agree on it lead to the same response. */
  lemma OracleSeesOnlyFeatureVector(a: Application, expected: seq<string>,
                                    o1: seq<Feature> -> OracleOutcome, o2: seq<Feature> -> OracleOutcome)
    requires o1(FeatureVector(a, expected)) == o2(FeatureVector(a, expected))
    ensures Decide(a, expected, o1) == Decide(a, expected, o2)
  {
  }

  /** A model decision: REJECT exactly when p reaches the threshold, the
      returned probability is p, the returned threshold is 0.15, an
      approval scores at least 600 and a rejection at most 600, and for p
      in [0, 1] the score lies in [300, 850]. */
  lemma ModelDecisionProperties(a: Application, expected: seq<string>,
                                oracle: seq<Feature> -> OracleOutcome, p: real)
    requires FirstViolation(a) == None
    requires oracle(FeatureVector(a, expected)) == Probability(p)
    ensures Decide(a, expected, oracle).ModelDecision?
    ensures Decide(a, expected, oracle).status == Reject <==> p >= 0.15
    ensures Decide(a, expected, oracle).probability == p
    ensures Decide(a, expected, oracle).threshold == 0.15
    ensures Decide(a, expected, oracle).status == Approve ==> Decide(a, expected, oracle).score >= 600
    ensures Decide(a, expected, oracle).status == Reject ==> Decide(a, expected, oracle).score <= 600
    ensures 0.0 <= p <= 1.0 ==> 300 <= Decide(a, expected, oracle).score <= 850
  {
    if StatusFor(p) == Approve {
      ApprovalScoresAtLeast600(p);
    } else {
      RejectionScoresAtMost600(p);
    }
    if 0.0 <= p <= 1.0 {
      ScoreBounds(p);
    }
  }

  /** Every score the endpoint returns lies in [300, 850] when the
      classifier keeps to its contract. */
  lemma DecisionScoreInRange(a: Application, expected: seq<string>, oracle: seq<Feature> -> OracleOutcome)
    requires OracleInRange(oracle)
    ensures Decide(a, expected, oracle).RuleRejection? ==>
              300 <= Decide(a, expected, oracle).rejection.score <= 400
    ensures Decide(a, expected, oracle).ModelDecision? ==>
              300 <= Decide(a, expected, oracle).score <= 850
  {
    match FirstViolation(a)
    case Some(r) =>
    case None =>
      var fv := FeatureVector(a, expected);
      if oracle(fv).Probability? {
        ModelDecisionProperties(a, expected, oracle, oracle(fv).p);
      }
  }

  /** The response of the endpoint when a gate fails: the gate's fixed
      probability/score pair and message, whatever the classifier and the
      expected columns. */
  lemma GateResponses(a: Application, expected: seq<string>, oracle: seq<Feature> -> OracleOutcome)
    ensures a.income < 36_000_000.0 ==>
              Decide(a, expected, oracle) ==
                RuleRejection(Rejection(MinIncome, 1.0, 300, IncomeBelowMinimum(3_000_000)))
    ensures a.income >= 36_000_000.0 && a.annuity / (a.income / 12.0) > 0.7 ==>
              Decide(a, expected, oracle) ==
                RuleRejection(Rejection(DebtToIncome, 0.95, 350,
                                        DebtBurdenTooHigh(a.annuity / (a.income / 12.0), 0.7)))
    ensures a.income >= 36_000_000.0 && a.annuity / (a.income / 12.0) <= 0.7
            && a.credit / a.income > 15.0 ==>
              Decide(a, expected, oracle) ==
                RuleRejection(Rejection(LoanToIncome, 0.99, 320, LoanTooLarge(a.credit / a.income, 15)))
    ensures a.income >= 36_000_000.0 && a.annuity / (a.income / 12.0) <= 0.7
            && a.credit / a.income <= 15.0 && (Abs(a.daysBirth) < 7300 || Abs(a.daysBirth) > 21900) ==>
              Decide(a, expected, oracle) ==
                RuleRejection(Rejection(AgeWindow, 0.80, 400, AgeOutsideWindow(Age(a), 20, 60)))
  {
    AgeWindowInDays(a);
  }

  /** Every rule rejection scores strictly below every model approval:
      gate scores are at most 400, approval scores at least 600. */
  lemma RuleRejectionScoresBelowApprovals(a: Application, b: Application, expected: seq<string>,
                                          oracle: seq<Feature> -> OracleOutcome)
    requires Decide(a, expected, oracle).RuleRejection?
    requires Decide(b, expected, oracle).ModelDecision? && Decide(b, expected, oracle).status == Approve
    ensures Decide(a, expected, oracle).rejection.score < Decide(b, expected, oracle).score
  {
    var fv := FeatureVector(b, expected);
    ModelDecisionProperties(b, expected, oracle, oracle(fv).p);
  }

  /** An example application: income 60,000,000,
      loan 50,000,000, repayment 2,000,000, age 30 years and 1,000 days
      employed. */
  const ExampleApproved := Application(60_000_000.0, 50_000_000.0, 2_000_000.0, -10950, -1000, "M", "University")

  function ConstantOracle(p: real): seq<Feature> -> OracleOutcome {
    _ => Probability(p)
  }

  /** The example application, with a classifier that answers 0.08,
      passes every gate and is approved with score
      int(850 - 0.08 / 0.15 * 250) = int(716.67) = 716. */
  lemma ExampleApprovedScores716(expected: seq<string>)
    ensures Decide(ExampleApproved, expected, ConstantOracle(0.08)) ==
              ModelDecision(Approve, 0.08, 0.15, 716, GoodProfile(0.08))
  {
    assert Abs(ExampleApproved.daysBirth) == 10950;
    NoViolationIffAllGatesPass(ExampleApproved);
    assert LinearScore(0.08) == 850.0 - 400.0 / 3.0;
    assert Truncate(LinearScore(0.08)) == 716;
  }

  /** An annual income of 24,000,000 with a repayment of 1,800,000 is
      rejected by the income gate (score 300) before the burden gate is
      reached, whatever the classifier says. */
  lemma LowIncomeExampleRejectedByIncomeGate(credit: real, days: int, employed: int,
                                             expected: seq<string>, oracle: seq<Feature> -> OracleOutcome)
    ensures Decide(Application(24_000_000.0, credit, 1_800_000.0, days, employed, "M", "University"),
                   expected, oracle)
            == RuleRejection(Rejection(MinIncome, 1.0, 300, IncomeBelowMinimum(3_000_000)))
  {
  }

  /** Gender and education never influence the response: they are not
      columns of the feature table. */
  lemma IgnoresGenderAndEducation(a: Application, g: string, ed: string,
                                  expected: seq<string>, oracle: seq<Feature> -> OracleOutcome)
    ensures Decide(a, expected, oracle) == Decide(a.(gender := g, education := ed), expected, oracle)
  {
    var b := a.(gender := g, education := ed);
    assert ComputedCells(a) == ComputedCells(b);
    assert FeatureVector(a, expected) == FeatureVector(b, expected);
  }
}
