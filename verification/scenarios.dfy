/** Worked drawings, each scored from its measurement through to the
    message, tier and tips. */
module Scenarios {
  import opened Shape
  import opened Scoring
  import opened Feedback

  /** A thin upright stroke for "I": coverage 0.2, solidity 0.8, one
      contour. 50 + 20 + 15 + 10 = 95, which the cap leaves at 95. */
  lemma TallStrokeForI()
    ensures Similarity(Measured(20, 100, [ContourStats(8, 10, 1, 10)]), "I") == 95
    ensures AccuracyLevel(95) == Excellent
    ensures Message(95) == Messages[0]
  {
  }

  /** A square ring for "O": coverage 0.3, solidity 0.6. 50 + 20 + 10 + 10. */
  lemma SquareRingForO()
    ensures Similarity(Measured(30, 100, [ContourStats(6, 10, 10, 10)]), "O") == 90
    ensures AccuracyLevel(90) == Excellent
  {
  }

  /** An "i" drawn as a thin stem and a separate dot: coverage 0.08,
      solidity 0.4. The stem is the main contour, and because "i" upper-cases
      to "I" it also earns the tall-class bonus: 50 + 10 + 0 + 10 + 15. */
  lemma StemAndDotForI()
    ensures Similarity(Measured(8, 100, [ContourStats(4, 10, 1, 10), ContourStats(1, 2, 1, 1)]), "i") == 85
    ensures AccuracyLevel(85) == Good
  {
  }

  /** The same "i" with a stem at least half as wide as high gets no class
      bonus: 50 + 10 + 0 + 15. */
  lemma SquatStemAndDotForI()
    ensures Similarity(Measured(8, 100, [ContourStats(4, 10, 5, 10), ContourStats(1, 2, 1, 1)]), "i") == 75
    ensures AccuracyLevel(75) == Good
  {
  }

  /** A blank canvas for "A": no contour, score 0, the lowest tier, the
      fallback message and all four tips, the first naming the letter. */
  lemma BlankCanvasForA()
    ensures Similarity(Measured(0, 100, []), "A") == 0
    ensures AccuracyLevel(0) == NeedsPractice
    ensures Message(0) == Messages[5]
    ensures Tips(0, "A") == [FollowTip("A"), SlowerTip, LookTip, TimeTip]
  {
  }
}
