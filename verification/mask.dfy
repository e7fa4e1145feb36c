/** The inverted global threshold that turns a grey drawing into an ink mask,
    and the ink count that the coverage ratio is built from. */
module Mask {

  /** An 8-bit grey level. */
  type Grey = g: int | 0 <= g < 256

  /** A grey image or a mask, as a sequence of rows. */
  type Image = seq<seq<Grey>>

  /** Grey levels strictly above the threshold are paper; the rest are ink. */
  const Threshold: Grey := 127

  /** The value an ink cell takes in the mask. */
  const InkValue: Grey := 255

  /** One cell of an inverted binary threshold. */
  function Binarize(g: Grey): Grey
  {
    if g > Threshold then 0 else InkValue
  }

  /** The inverted binary threshold of a whole image. The mask has the same
      shape as the image, holds only two values, and a cell is ink exactly
      when its grey level is at most the threshold. */
  function ToMask(img: Image): (mask: Image)
    ensures |mask| == |img|
    ensures forall i :: 0 <= i < |img| ==> |mask[i]| == |img[i]|
    ensures forall i, j :: 0 <= i < |img| && 0 <= j < |img[i]| ==>
              (mask[i][j] == InkValue <==> img[i][j] <= Threshold) &&
              (mask[i][j] == 0 <==> img[i][j] > Threshold)
  {
    seq(|img|, i requires 0 <= i < |img| =>
      seq(|img[i]|, j requires 0 <= j < |img[i]| => Binarize(img[i][j])))
  }

  /** The number of cells of an image: every row fits in it, and it is zero
      exactly when every row is empty. */
  function Size(mask: Image): (n: nat)
    ensures forall i :: 0 <= i < |mask| ==> |mask[i]| <= n
    ensures n == 0 <==> forall i :: 0 <= i < |mask| ==> |mask[i]| == 0
  {
    if |mask| == 0 then 0 else Size(mask[..|mask| - 1]) + |mask[|mask| - 1]|
  }

  /** The number of non-zero cells of one row. */
  function RowNonZero(row: seq<Grey>): (n: nat)
    ensures n <= |row|
  {
    if |row| == 0 then 0
    else RowNonZero(row[..|row| - 1]) + (if row[|row| - 1] != 0 then 1 else 0)
  }

  /** The number of non-zero cells of an image: never more than its size,
      so the coverage ratio never exceeds one. */
  function NonZero(mask: Image): (n: nat)
    ensures n <= Size(mask)
  {
    if |mask| == 0 then 0
    else NonZero(mask[..|mask| - 1]) + RowNonZero(mask[|mask| - 1])
  }

  /** The ink count of a grey image: the non-zero cells of its mask. */
  function InkCount(img: Image): (n: nat)
    ensures n <= Size(img)
  {
    var mask := ToMask(img);
    SameShapeSameSize(img, mask);
    NonZero(mask)
  }

  /** Two images whose rows have the same lengths have the same size. */
  lemma {:induction false} SameShapeSameSize(a: Image, b: Image)
    requires |a| == |b|
    requires forall i :: 0 <= i < |a| ==> |a[i]| == |b[i]|
    ensures Size(a) == Size(b)
  {
    if |a| > 0 {
      SameShapeSameSize(a[..|a| - 1], b[..|b| - 1]);
    }
  }

  /** An image of equal-length rows has rows times width cells. */
  lemma {:induction false} SizeOfRectangle(img: Image, width: nat)
    requires forall i :: 0 <= i < |img| ==> |img[i]| == width
    ensures Size(img) == |img| * width
  {
    if |img| > 0 {
      SizeOfRectangle(img[..|img| - 1], width);
    }
  }

  /** A row has no non-zero cell exactly when every cell is zero. */
  lemma {:induction false} RowNonZeroIsZero(row: seq<Grey>)
    ensures RowNonZero(row) == 0 <==> forall j :: 0 <= j < |row| ==> row[j] == 0
  {
    if |row| > 0 {
      RowNonZeroIsZero(row[..|row| - 1]);
    }
  }

  /** An image has no non-zero cell exactly when every cell is zero. */
  lemma {:induction false} NonZeroIsZero(mask: Image)
    ensures NonZero(mask) == 0 <==>
            forall i, j :: 0 <= i < |mask| && 0 <= j < |mask[i]| ==> mask[i][j] == 0
  {
    if |mask| > 0 {
      var init := mask[..|mask| - 1];
      NonZeroIsZero(init);
      RowNonZeroIsZero(mask[|mask| - 1]);
      assert forall i :: 0 <= i < |init| ==> init[i] == mask[i];
    }
  }

  /** A drawing has zero ink exactly when every grey level is above the
      threshold: a blank canvas, and nothing else, has coverage zero. */
  lemma NoInkIffBlank(img: Image)
    ensures InkCount(img) == 0 <==>
            forall i, j :: 0 <= i < |img| && 0 <= j < |img[i]| ==> img[i][j] > Threshold
  {
    NonZeroIsZero(ToMask(img));
  }

  /** Counting the non-zero cells of two pieces of a row separately gives
      the count of the whole row. */
  lemma {:induction false} RowNonZeroSplits(a: seq<Grey>, b: seq<Grey>)
    ensures RowNonZero(a + b) == RowNonZero(a) + RowNonZero(b)
  {
    if |b| > 0 {
      assert (a + b)[..|a + b| - 1] == a + b[..|b| - 1];
      RowNonZeroSplits(a, b[..|b| - 1]);
    } else {
      assert a + b == a;
    }
  }

  /** Counting the non-zero cells of two bands of rows separately gives the
      count of the whole image. */
  lemma {:induction false} NonZeroSplits(a: Image, b: Image)
    ensures NonZero(a + b) == NonZero(a) + NonZero(b)
  {
    if |b| > 0 {
      assert (a + b)[..|a + b| - 1] == a + b[..|b| - 1];
      NonZeroSplits(a, b[..|b| - 1]);
    } else {
      assert a + b == a;
    }
  }

  /** The ink of an image stacked from two bands of rows is the ink of the
      two bands. */
  lemma InkCountSplitsRows(a: Image, b: Image)
    ensures InkCount(a + b) == InkCount(a) + InkCount(b)
  {
    assert ToMask(a + b) == ToMask(a) + ToMask(b);
    NonZeroSplits(ToMask(a), ToMask(b));
  }

  /** The ink of a row made of two pieces is the ink of the two pieces. */
  lemma InkCountSplitsColumns(a: seq<Grey>, b: seq<Grey>)
    ensures InkCount([a + b]) == InkCount([a]) + InkCount([b])
  {
    var ma, mb := ToMask([a])[0], ToMask([b])[0];
    var m := ToMask([a + b]);
    assert forall j :: 0 <= j < |a| + |b| ==> m[0][j] == (ma + mb)[j];
    assert m[0] == ma + mb;
    assert m == [ma + mb];
    RowNonZeroSplits(ma, mb);
    NonZeroOfRow(ma + mb);
    NonZeroOfRow(ma);
    NonZeroOfRow(mb);
  }

  /** An image of one row has that row's count. */
  lemma NonZeroOfRow(row: seq<Grey>)
    ensures NonZero([row]) == RowNonZero(row)
  {
  }

  /** A single cell is one unit of ink exactly when its grey level is at
      most the threshold. Together with the two splitting lemmas and the
      empty image, this fixes the ink count of every image: it is the number
      of cells whose grey level is at most the threshold. */
  lemma InkCountOfCell(g: Grey)
    ensures InkCount([[g]]) == if g <= Threshold then 1 else 0
  {
  }
}
