/** `detectEdges`: a 3x3 Sobel operator over the grey levels of the
    interior pixels (a one-pixel border is skipped), counting the pixels
    whose gradient magnitude is strictly above 30.

    The grey level of a pixel is its channel sum divided by 3, so both
    Sobel sums are the sums over channel sums divided by 3, and
    `sqrt(gx*gx + gy*gy) > 30` holds exactly when `Sx*Sx + Sy*Sy > 8100`
    for the sums `Sx`, `Sy` over channel sums. The model uses that exact
    integer form. */
module Edges {
  import opened Pixels

  /** Three times the grey level of a pixel. */
  function Intensity(img: Image, x: nat, y: nat): int
    requires WellFormed(img) && x < img.width && y < img.height
  {
    Sum3(At(img, x, y))
  }

  predicate Interior(img: Image, x: int, y: int) {
    1 <= x < img.width - 1 && 1 <= y < img.height - 1
  }

  /** Horizontal Sobel sum: right column minus left column, middle row doubled. */
  function SobelX(img: Image, x: nat, y: nat): int
    requires WellFormed(img) && Interior(img, x, y)
  {
    Intensity(img, x + 1, y - 1) + 2 * Intensity(img, x + 1, y) + Intensity(img, x + 1, y + 1)
    - Intensity(img, x - 1, y - 1) - 2 * Intensity(img, x - 1, y) - Intensity(img, x - 1, y + 1)
  }

  /** Vertical Sobel sum: bottom row minus top row, middle column doubled. */
  function SobelY(img: Image, x: nat, y: nat): int
    requires WellFormed(img) && Interior(img, x, y)
  {
    Intensity(img, x - 1, y + 1) + 2 * Intensity(img, x, y + 1) + Intensity(img, x + 1, y + 1)
    - Intensity(img, x - 1, y - 1) - 2 * Intensity(img, x, y - 1) - Intensity(img, x + 1, y - 1)
  }

  /** The gradient magnitude of the grey levels exceeds 30. */
  predicate IsEdge(img: Image, x: nat, y: nat)
    requires WellFormed(img) && Interior(img, x, y)
  {
    var sx := SobelX(img, x, y);
    var sy := SobelY(img, x, y);
    sx * sx + sy * sy > 8100
  }

  /** Edge pixels among columns 1 .. x-1 of interior row y. */
  function RowEdges(img: Image, y: nat, x: nat): (n: nat)
    requires WellFormed(img) && 1 <= y < img.height - 1 && 1 <= x <= img.width - 1
    ensures n <= x - 1
    decreases x
  {
    if x == 1 then 0
    else RowEdges(img, y, x - 1) + (if IsEdge(img, x - 1, y) then 1 else 0)
  }

  /** Edge pixels among interior rows 1 .. y-1. */
  function EdgesAbove(img: Image, y: nat): (n: nat)
    requires WellFormed(img) && img.width >= 2 && 1 <= y <= img.height - 1
    ensures n <= (y - 1) * (img.width - 2)
    decreases y
  {
    if y == 1 then 0
    else
      var n := EdgesAbove(img, y - 1) + RowEdges(img, y - 1, img.width - 1);
      assert (y - 2) * (img.width - 2) + (img.width - 2) == (y - 1) * (img.width - 2);
      n
  }

  /** The number of edge pixels of the whole image. */
  function EdgeCount(img: Image): nat
    requires WellFormed(img)
  {
    if img.width < 3 || img.height < 3 then 0 else EdgesAbove(img, img.height - 1)
  }

  /** The double loop of `detectEdges` over the interior pixels. */
  method DetectEdges(img: Image) returns (count: nat)
    requires WellFormed(img)
    ensures count == EdgeCount(img)
  {
    count := 0;
    var y := 1;
    while y < img.height - 1
      invariant 1 <= y
      invariant img.height >= 3 ==> y <= img.height - 1
      invariant img.height < 3 ==> count == 0
      invariant img.height >= 3 && img.width >= 3 ==> count == EdgesAbove(img, y)
      invariant img.width < 3 ==> count == 0
      decreases img.height - 1 - y
    {
      var x := 1;
      ghost var above := count;
      while x < img.width - 1
        invariant 1 <= x
        invariant img.width >= 3 ==> x <= img.width - 1
        invariant img.width >= 3 ==> count == above + RowEdges(img, y, x)
        invariant img.width < 3 ==> count == above
        decreases img.width - 1 - x
      {
        if IsEdge(img, x, y) {
          count := count + 1;
        }
        x := x + 1;
      }
      y := y + 1;
    }
  }

  /** Only interior pixels are counted: at most (width-2)*(height-2)
      edges, and none when the image is narrower or shorter than 3. */
  lemma EdgeCountBound(img: Image)
    requires WellFormed(img)
    ensures img.width < 3 || img.height < 3 ==> EdgeCount(img) == 0
    ensures img.width >= 3 && img.height >= 3 ==>
      EdgeCount(img) <= (img.width - 2) * (img.height - 2)
    ensures PixelCount(img) > 0 ==> EdgeCount(img) < PixelCount(img)
  {
    var w, h := img.width, img.height;
    if w >= 3 && h >= 3 {
      var n := EdgesAbove(img, h - 1);
      assert n <= (h - 2) * (w - 2);
      InteriorSmaller(w, h);
      assert n <= (w - 2) * (h - 2) < |img.pixels|;
    }
  }

  lemma InteriorSmaller(w: nat, h: nat)
    requires w >= 3 && h >= 3
    ensures (h - 2) * (w - 2) == (w - 2) * (h - 2) < w * h
  {
    var a, b := w - 2, h - 2;
    assert w * h == (a + 2) * (b + 2) == a * b + 2 * a + 2 * b + 4;
    assert b * a == a * b;
  }

  /** In a single-colour image every Sobel sum is zero, so nothing is an edge. */
  lemma {:induction false} UniformHasNoEdges(img: Image)
    requires WellFormed(img) && Uniform(img)
    ensures EdgeCount(img) == 0
  {
    if img.width >= 3 && img.height >= 3 {
      forall x: nat, y: nat | Interior(img, x, y)
        ensures !IsEdge(img, x, y)
      {
        UniformAt(img, x - 1, y - 1);
        UniformAt(img, x, y - 1);
        UniformAt(img, x + 1, y - 1);
        UniformAt(img, x - 1, y);
        UniformAt(img, x + 1, y);
        UniformAt(img, x - 1, y + 1);
        UniformAt(img, x, y + 1);
        UniformAt(img, x + 1, y + 1);
      }
      NoEdgesAbove(img, img.height - 1);
    }
  }

  lemma UniformAt(img: Image, x: nat, y: nat)
    requires WellFormed(img) && Uniform(img) && x < img.width && y < img.height
    ensures At(img, x, y) == img.pixels[0]
  {
    IndexInBounds(img.width, img.height, x, y);
  }

  lemma {:induction false} NoEdgesAbove(img: Image, y: nat)
    requires WellFormed(img) && img.width >= 3 && 1 <= y <= img.height - 1
    requires forall x: nat, y': nat | Interior(img, x, y') :: !IsEdge(img, x, y')
    ensures EdgesAbove(img, y) == 0
    decreases y
  {
    if y > 1 {
      NoEdgesAbove(img, y - 1);
      NoRowEdges(img, y - 1, img.width - 1);
    }
  }

  lemma {:induction false} NoRowEdges(img: Image, y: nat, x: nat)
    requires WellFormed(img) && 1 <= y < img.height - 1 && 1 <= x <= img.width - 1
    requires forall x: nat, y': nat | Interior(img, x, y') :: !IsEdge(img, x, y')
    ensures RowEdges(img, y, x) == 0
    decreases x
  {
    if x > 1 {
      NoRowEdges(img, y, x - 1);
    }
  }
}
