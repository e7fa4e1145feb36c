/** The additive similarity score: a base of fifty, a coverage bonus, a
    solidity bonus and the letter bonus, capped at ninety-five; zero when
    nothing was drawn and fifty when measuring raised. */
module Scoring {
  import opened Shape
  import opened Letters
  import Reference

  /** The score every drawing starts from. */
  const Base: int := 50

  /** No score exceeds this. */
  const Cap: int := 95

  /** The score when no contour was traced. */
  const NothingDrawn: int := 0

  /** The score when a step of the measurement raised. */
  const OnError: int := 50

  /** The coverage bonus. The narrow band (a tenth to a half) wins over the
      wide band (a twentieth to seven tenths); the two are never added. */
  function CoverageBonus(coverage: real): (b: nat)
    ensures b == 0 || b == 10 || b == 20
    ensures b == 20 <==> 0.1 < coverage < 0.5
    ensures b > 0 ==> 0.05 < coverage < 0.7
    ensures 0.05 < coverage < 0.7 ==> b >= 10
  {
    if 0.1 < coverage < 0.5 then 20
    else if 0.05 < coverage < 0.7 then 10
    else 0
  }

  /** The solidity bonus. Above seven tenths wins over above a half; the
      two are never added. */
  function SolidityBonus(solidity: real): (b: nat)
    ensures b == 0 || b == 10 || b == 15
    ensures b == 15 <==> solidity > 0.7
    ensures b > 0 <==> solidity > 0.5
  {
    if solidity > 0.7 then 15
    else if solidity > 0.5 then 10
    else 0
  }

  /** The score of a drawing for a target symbol. */
  function Similarity(m: Measurement, symbol: string): (r: int)
    ensures 0 <= r <= Cap
    ensures r == NothingDrawn <==> m.Measured? && m.pixels > 0 && |m.contours| == 0
    ensures m.Failed? || m.pixels == 0 ==> r == OnError
    ensures m.Measured? && |m.contours| > 0 ==> r >= Base
  {
    match m
    case Failed => OnError
    case Measured(ink, pixels, contours) =>
      // the coverage ratio is computed first, so an empty canvas raises
      if pixels == 0 then OnError
      else if |contours| == 0 then NothingDrawn
      else
        var main := contours[MainIndex(contours)];
        var total := Base + CoverageBonus(Coverage(ink, pixels))
                          + SolidityBonus(Solidity(main))
                          + LetterBonus(symbol, AspectRatio(main), |contours|);
        if total < Cap then total else Cap
  }

  /** The coverage bonus of ink/pixels agrees with the cross-multiplied
      bands. */
  lemma CoverageBonusMatchesCounts(ink: nat, pixels: nat)
    requires pixels > 0
    ensures CoverageBonus(Coverage(ink, pixels)) == Reference.CoverageBonus(ink, pixels)
  {
    var n, d := ink as real, pixels as real;
    CompareRatio(n, d, 0.1);
    CompareRatio(n, d, 0.5);
    CompareRatio(n, d, 0.05);
    CompareRatio(n, d, 0.7);
  }

  /** The solidity bonus of area/hull agrees with the cross-multiplied bands,
      and an empty hull earns nothing. */
  lemma SolidityBonusMatchesAreas(s: ContourStats)
    ensures SolidityBonus(Solidity(s)) == Reference.SolidityBonus(s)
  {
    if s.hullArea2 > 0 {
      var n, d := s.area2 as real, s.hullArea2 as real;
      CompareRatio(n, d, 0.7);
      CompareRatio(n, d, 0.5);
    }
  }

  /** The aspect ratio of a box suits a class exactly when the box does, by
      the cross-multiplied test; a box with no height is treated as square. */
  lemma FitsMatchesBox(c: ShapeClass, s: ContourStats)
    ensures Fits(c, AspectRatio(s)) <==> Reference.BoxFits(c, s)
  {
    if s.height > 0 {
      var n, d := s.width as real, s.height as real;
      CompareRatio(n, d, 0.5);
      CompareRatio(n, d, 0.7);
      CompareRatio(n, d, 1.3);
      CompareRatio(n, d, 1.2);
    }
  }

  /** Comparing a quotient with a constant is comparing the numerator with
      the constant times the denominator. */
  lemma CompareRatio(n: real, d: real, q: real)
    requires d > 0.0
    ensures q < n / d <==> q * d < n
    ensures n / d < q <==> n < q * d
  {
  }

  /** For a measured, non-empty drawing, the score is the capped sum of the
      whole-number bands for whichever contour is the first largest. */
  lemma ScoreFromFirstLargest(ink: nat, pixels: nat, cs: seq<ContourStats>, k: int, symbol: string)
    requires pixels > 0
    requires IsFirstLargest(cs, k)
    ensures Similarity(Measured(ink, pixels, cs), symbol)
            == Reference.CappedScore(ink, pixels, cs[k], symbol, |cs|)
  {
    FirstLargestIsUnique(cs, k, MainIndex(cs));
    CoverageBonusMatchesCounts(ink, pixels);
    SolidityBonusMatchesAreas(cs[k]);
    FitsMatchesBox(ClassOf(symbol), cs[k]);
  }
}
