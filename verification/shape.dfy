/** The shape measurements the score is computed from: per-contour
    statistics, the choice of the main contour, and the three ratios
    (coverage, solidity, aspect ratio) with their division guards. */
module Shape {
  import Mask

  /** What the contour library reports about one external contour. Areas
      are kept doubled: a polygon with integer vertices has a doubled area
      that is a whole number. */
  datatype ContourStats = ContourStats(area2: nat, hullArea2: nat, width: nat, height: nat)

  /** The result of the measuring stage: either one of the library calls
      raised, or the ink count, the number of cells and the external
      contours in trace order. */
  datatype Measurement =
    | Failed
    | Measured(ink: nat, pixels: nat, contours: seq<ContourStats>)

  /** Measures a grey drawing, given the contours traced from its mask. */
  function Measure(img: Mask.Image, contours: seq<ContourStats>): (m: Measurement)
    ensures m.Measured? && m.contours == contours
    ensures m.pixels == Mask.Size(img) && m.ink == Mask.InkCount(img)
    ensures m.ink <= m.pixels
    ensures m.ink == 0 <==>
            forall i, j :: 0 <= i < |img| && 0 <= j < |img[i]| ==> img[i][j] > Mask.Threshold
  {
    Mask.NoInkIffBlank(img);
    Measured(Mask.InkCount(img), Mask.Size(img), contours)
  }

  /** k is where a left-to-right scan that only replaces its candidate on a
      strictly larger area stops: the first contour of maximal area. */
  ghost predicate IsFirstLargest(cs: seq<ContourStats>, k: int)
  {
    && 0 <= k < |cs|
    && (forall j :: 0 <= j < |cs| ==> cs[j].area2 <= cs[k].area2)
    && (forall j :: 0 <= j < k ==> cs[j].area2 < cs[k].area2)
  }

  /** The index of the main contour: the largest by area, ties going to the
      contour traced first. */
  function MainIndex(cs: seq<ContourStats>): (k: nat)
    requires |cs| > 0
    ensures k < |cs|
    ensures forall j :: 0 <= j < |cs| ==> cs[j].area2 <= cs[k].area2
    ensures forall j :: 0 <= j < k ==> cs[j].area2 < cs[k].area2
  {
    if |cs| == 1 then 0
    else
      var k := MainIndex(cs[..|cs| - 1]);
      if cs[|cs| - 1].area2 > cs[k].area2 then |cs| - 1 else k
  }

  /** There is only one first largest contour. */
  lemma FirstLargestIsUnique(cs: seq<ContourStats>, k: int, k': int)
    requires IsFirstLargest(cs, k) && IsFirstLargest(cs, k')
    ensures k == k'
  {
    var a, a' := cs[k].area2, cs[k'].area2;
    assert k < k' ==> a < a';
    assert k' < k ==> a' < a;
  }

  /** The fraction of the canvas covered by ink. */
  function Coverage(ink: nat, pixels: nat): (c: real)
    requires pixels > 0
    ensures c * (pixels as real) == ink as real
    ensures 0.0 <= c
    ensures ink <= pixels ==> c <= 1.0
  {
    ink as real / pixels as real
  }

  /** Contour area over hull area; zero, not a division, when the hull has
      no area. */
  function Solidity(s: ContourStats): (r: real)
    ensures 0.0 <= r
    ensures s.hullArea2 == 0 ==> r == 0.0
    ensures s.hullArea2 > 0 ==> r * (s.hullArea2 as real) == s.area2 as real
    ensures s.area2 <= s.hullArea2 ==> r <= 1.0
  {
    if s.hullArea2 > 0 then s.area2 as real / s.hullArea2 as real else 0.0
  }

  /** Bounding-box width over height; exactly one, not a division, when the
      box has no height. */
  function AspectRatio(s: ContourStats): (a: real)
    ensures 0.0 <= a
    ensures s.height == 0 ==> a == 1.0
    ensures s.height > 0 ==> a * (s.height as real) == s.width as real
  {
    if s.height > 0 then s.width as real / s.height as real else 1.0
  }
}
