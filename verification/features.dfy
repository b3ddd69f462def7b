/** Feature extraction in `analyzeImage`: per-channel averages, brightness,
    a texture measure and five colour flags, plus the edge density.

    In `analyzeImage`, `variance` is `sqrt(S / (3n))` where S is the pooled sum of
    squared deviations of every channel sample from its channel mean. The
    model keeps the radicand, `meanSquare = S / (3n)`; the rule cascade
    compares it with squared thresholds, which is equivalent because both
    sides are non-negative. */
module Features {
  import opened Pixels
  import opened Edges

  datatype FeatureVector = FeatureVector(
    avgR: real, avgG: real, avgB: real,
    brightness: real,
    meanSquare: real,
    edgeDensity: real,
    isDark: bool, isGreen: bool, isBlue: bool, isBrown: bool, isGray: bool)

  function SumR(ps: seq<Pixel>): (s: nat)
    ensures s <= 255 * |ps|
  {
    if |ps| == 0 then 0 else ps[0].r + SumR(ps[1..])
  }

  function SumG(ps: seq<Pixel>): (s: nat)
    ensures s <= 255 * |ps|
  {
    if |ps| == 0 then 0 else ps[0].g + SumG(ps[1..])
  }

  function SumB(ps: seq<Pixel>): (s: nat)
    ensures s <= 255 * |ps|
  {
    if |ps| == 0 then 0 else ps[0].b + SumB(ps[1..])
  }

  function Sq(x: real): (r: real)
    ensures r >= 0.0
  {
    x * x
  }

  /** Sum over the pixels of the squared deviations of the three channels
      from the given means. */
  function SquaredDeviation(ps: seq<Pixel>, mr: real, mg: real, mb: real): (s: real)
    ensures s >= 0.0
  {
    if |ps| == 0 then 0.0
    else
      Sq(ps[0].r as real - mr) + Sq(ps[0].g as real - mg) + Sq(ps[0].b as real - mb)
      + SquaredDeviation(ps[1..], mr, mg, mb)
  }

  function Abs(x: real): real {
    if x < 0.0 then -x else x
  }

  lemma AverageBound(sum: nat, n: nat)
    requires n > 0 && sum <= 255 * n
    ensures 0.0 <= sum as real / n as real <= 255.0
  {
    assert sum as real <= 255.0 * n as real;
  }

  lemma RatioBelowOne(k: nat, n: nat)
    requires k < n
    ensures 0.0 <= k as real / n as real < 1.0
  {
  }

  lemma NonNegativeRatio(s: real, n: nat)
    requires s >= 0.0 && n > 0
    ensures s / (n as real * 3.0) >= 0.0
  {
  }

  /** The features of a non-empty image. */
  function Extract(img: Image): (f: FeatureVector)
    requires WellFormed(img) && PixelCount(img) > 0
    ensures 0.0 <= f.avgR <= 255.0 && 0.0 <= f.avgG <= 255.0 && 0.0 <= f.avgB <= 255.0
    ensures 0.0 <= f.brightness <= 255.0
    ensures f.meanSquare >= 0.0
    ensures 0.0 <= f.edgeDensity < 1.0
    ensures f.isBrown ==> !f.isGreen && !f.isBlue
  {
    var n := PixelCount(img);
    var ps := img.pixels;
    AverageBound(SumR(ps), n);
    AverageBound(SumG(ps), n);
    AverageBound(SumB(ps), n);
    var avgR := SumR(ps) as real / n as real;
    var avgG := SumG(ps) as real / n as real;
    var avgB := SumB(ps) as real / n as real;
    var brightness := (avgR + avgG + avgB) / 3.0;
    var dev := SquaredDeviation(ps, avgR, avgG, avgB);
    NonNegativeRatio(dev, n);
    EdgeCountBound(img);
    RatioBelowOne(EdgeCount(img), n);
    FeatureVector(
      avgR, avgG, avgB,
      brightness,
      dev / (n as real * 3.0),
      EdgeCount(img) as real / n as real,
      brightness < 128.0,
      avgG > avgR && avgG > avgB,
      avgB > avgR && avgB > avgG,
      avgR > avgG && avgG > avgB && avgR > 128.0 && avgG > 64.0 && avgB < 100.0,
      Abs(avgR - avgG) < 20.0 && Abs(avgG - avgB) < 20.0 && Abs(avgR - avgB) < 20.0)
  }

  // ---------------------------------------------------------------------
  // Single-colour images
  // ---------------------------------------------------------------------

  lemma {:induction false} UniformSums(ps: seq<Pixel>, p: Pixel)
    requires forall i :: 0 <= i < |ps| ==> ps[i] == p
    ensures SumR(ps) == |ps| * p.r && SumG(ps) == |ps| * p.g && SumB(ps) == |ps| * p.b
  {
    if |ps| > 0 {
      UniformSums(ps[1..], p);
      var m := |ps| - 1;
      assert |ps| * p.r == p.r + m * p.r;
      assert |ps| * p.g == p.g + m * p.g;
      assert |ps| * p.b == p.b + m * p.b;
    }
  }

  lemma {:induction false} UniformDeviation(ps: seq<Pixel>, p: Pixel)
    requires forall i :: 0 <= i < |ps| ==> ps[i] == p
    ensures SquaredDeviation(ps, p.r as real, p.g as real, p.b as real) == 0.0
  {
    if |ps| > 0 {
      UniformDeviation(ps[1..], p);
    }
  }

  lemma MeanOfConstant(k: nat, n: nat)
    requires n > 0
    ensures (n * k) as real / n as real == k as real
  {
    assert (n * k) as real == n as real * k as real;
  }

  lemma UniformAverages(img: Image)
    requires WellFormed(img) && PixelCount(img) > 0 && Uniform(img)
    ensures var p, f := img.pixels[0], Extract(img);
      f.avgR == p.r as real && f.avgG == p.g as real && f.avgB == p.b as real
  {
    var p, n, ps := img.pixels[0], PixelCount(img), img.pixels;
    UniformSums(ps, p);
    MeanOfConstant(p.r, n);
    MeanOfConstant(p.g, n);
    MeanOfConstant(p.b, n);
  }

  /** A single-colour image has the averages of its colour, no texture and
      no edges. */
  lemma UniformFeatures(img: Image)
    requires WellFormed(img) && PixelCount(img) > 0 && Uniform(img)
    ensures var p, f := img.pixels[0], Extract(img);
      f.avgR == p.r as real && f.avgG == p.g as real && f.avgB == p.b as real
      && f.meanSquare == 0.0 && f.edgeDensity == 0.0
  {
    var p, n, ps := img.pixels[0], PixelCount(img), img.pixels;
    var f := Extract(img);
    UniformAverages(img);
    UniformDeviation(ps, p);
    assert f.meanSquare == SquaredDeviation(ps, f.avgR, f.avgG, f.avgB) / (n as real * 3.0);
    UniformHasNoEdges(img);
    assert f.edgeDensity == EdgeCount(img) as real / n as real;
  }
}
