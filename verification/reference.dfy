/** The scoring bands restated over whole numbers only: every comparison of
    a ratio with a decimal constant is cross-multiplied, and each division
    guard becomes a case of its own. This is the independent definition the
    ratio-based score is proved equal to. */
module Reference {
  import opened Shape
  import opened Letters

  /** 20 when a tenth < ink/pixels < a half, else 10 when a twentieth <
      ink/pixels < seven tenths, else 0. */
  function CoverageBonus(ink: nat, pixels: nat): nat
  {
    if pixels < 10 * ink && 2 * ink < pixels then 20
    else if pixels < 20 * ink && 10 * ink < 7 * pixels then 10
    else 0
  }

  /** 15 when area/hull > seven tenths, else 10 when area/hull > a half,
      else 0; an empty hull earns nothing. */
  function SolidityBonus(s: ContourStats): nat
  {
    if s.hullArea2 == 0 then 0
    else if 10 * s.area2 > 7 * s.hullArea2 then 15
    else if 2 * s.area2 > s.hullArea2 then 10
    else 0
  }

  /** Whether a bounding box suits a class; a box with no height counts as
      square. */
  predicate BoxFits(c: ShapeClass, s: ContourStats)
  {
    if s.height == 0 then c == Round
    else match c
      case Tall => 2 * s.width < s.height
      case Round => 7 * s.height < 10 * s.width && 10 * s.width < 13 * s.height
      case Wide => 10 * s.width > 12 * s.height
      case Unclassed => false
  }

  /** The capped score of a drawing whose main contour is `main`. */
  function CappedScore(ink: nat, pixels: nat, main: ContourStats, symbol: string, regions: nat): int
  {
    var classBonus := if BoxFits(ClassOf(symbol), main) then 10 else 0;
    var dotBonus := if symbol in DottedSymbols && regions > 1 then 15 else 0;
    var total := 50 + CoverageBonus(ink, pixels) + SolidityBonus(main) + classBonus + dotBonus;
    if total < 95 then total else 95
  }
}
