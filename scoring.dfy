/** The model stage's status rule and probability-to-score map
    (backend/main.py:126-133). */
module Scoring {
  import opened Policy
  import opened CreditTypes

  /** Python's int() of a float: truncation toward zero. */
  function Truncate(x: real): (r: int)
    ensures 0.0 <= x ==> r as real <= x < r as real + 1.0
    ensures x < 0.0 ==> r as real - 1.0 < x <= r as real
  {
    if x >= 0.0 then x.Floor else -((-x).Floor)
  }

  /** APPROVE below the threshold, REJECT at or above it. */
  function StatusFor(p: real): Status {
    if p >= REALISTIC_THRESHOLD then Reject else Approve
  }

  /** The linear map before truncation: 850 at p = 0, falling by 250
      points per threshold's worth of probability. */
  function LinearScore(p: real): real {
    850.0 - (p / REALISTIC_THRESHOLD) * 250.0
  }

  /** The credit score: the truncated linear map, raised to 300 when it
      falls below. */
  function NormalizedScore(p: real): (s: int)
    ensures s >= 300
  {
    var raw := Truncate(LinearScore(p));
    if raw < 300 then 300 else raw
  }

  lemma TruncateMonotone(x: real, y: real)
    requires x <= y
    ensures Truncate(x) <= Truncate(y)
  {
    if 0.0 <= x {
      assert Truncate(x) as real <= x <= y < Truncate(y) as real + 1.0;
    } else if y < 0.0 {
      assert Truncate(x) as real - 1.0 < x <= y <= Truncate(y) as real;
    } else {
      assert Truncate(x) <= 0 <= Truncate(y);
    }
  }

  lemma LinearScoreAntitone(p1: real, p2: real)
    requires p1 <= p2
    ensures LinearScore(p1) >= LinearScore(p2)
  {
    assert p1 / REALISTIC_THRESHOLD <= p2 / REALISTIC_THRESHOLD;
  }

  /** A higher probability of default never gives a higher score. */
  lemma ScoreNonIncreasing(p1: real, p2: real)
    requires p1 <= p2
    ensures NormalizedScore(p1) >= NormalizedScore(p2)
  {
    LinearScoreAntitone(p1, p2);
    TruncateMonotone(LinearScore(p2), LinearScore(p1));
  }

  /** The score of a probability in [0, 1] lies in [300, 850]. */
  lemma ScoreBounds(p: real)
    requires 0.0 <= p <= 1.0
    ensures 300 <= NormalizedScore(p) <= 850
  {
    ScoreNonIncreasing(0.0, p);
    assert NormalizedScore(0.0) == 850 by { assert LinearScore(0.0) == 850.0; }
  }

  /** The map's anchor points: 850 at p = 0, 600 at the threshold, and the floor of 300 at p = 1. */
  lemma ScoreAnchors()
    ensures NormalizedScore(0.0) == 850
    ensures NormalizedScore(REALISTIC_THRESHOLD) == 600
    ensures NormalizedScore(1.0) == 300
  {
    assert LinearScore(0.0) == 850.0;
    assert LinearScore(REALISTIC_THRESHOLD) == 600.0;
    assert LinearScore(1.0) < 0.0;
  }

  /** An approved probability scores at least 600. */
  lemma ApprovalScoresAtLeast600(p: real)
    requires StatusFor(p) == Approve
    ensures NormalizedScore(p) >= 600
  {
    ScoreAnchors();
    ScoreNonIncreasing(p, REALISTIC_THRESHOLD);
  }

  /** A probability the model stage rejects scores at most 600. */
  lemma RejectionScoresAtMost600(p: real)
    requires StatusFor(p) == Reject
    ensures NormalizedScore(p) <= 600
  {
    ScoreAnchors();
    ScoreNonIncreasing(REALISTIC_THRESHOLD, p);
  }

  /** Truncation toward zero and flooring give the same score: wherever
      they differ the value is negative and the floor of 300 applies. */
  lemma TruncationIrrelevantUnderFloor(p: real)
    ensures NormalizedScore(p) == (if LinearScore(p).Floor < 300 then 300 else LinearScore(p).Floor)
  {
    var x := LinearScore(p);
    if x < 0.0 {
      assert Truncate(x) <= 0;
      assert x.Floor as real <= x < 0.0;
    }
  }
}
