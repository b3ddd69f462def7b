/** The decoded image the classifier works on: the RGBA buffer of a
    canvas `ImageData`, one record per pixel in row-major order. The alpha
    channel is never read and is left out. */
module Pixels {

  /** One channel sample of a `Uint8ClampedArray`. */
  type Byte = x: int | 0 <= x < 256

  datatype Pixel = Pixel(r: Byte, g: Byte, b: Byte)

  datatype Image = Image(width: nat, height: nat, pixels: seq<Pixel>)

  /** A canvas buffer always holds exactly width * height pixels. */
  predicate WellFormed(img: Image) {
    |img.pixels| == img.width * img.height
  }

  /** `data.length / 4`. */
  function PixelCount(img: Image): nat {
    |img.pixels|
  }

  lemma IndexInBounds(w: nat, h: nat, x: nat, y: nat)
    requires x < w && y < h
    ensures y * w + x < w * h
  {
    assert (y + 1) * w == y * w + w;
    MulMonotone(y + 1, h, w);
    assert h * w == w * h;
  }

  lemma MulMonotone(a: nat, b: nat, w: nat)
    requires a <= b
    ensures a * w <= b * w
  {
    var d := b - a;
    assert b * w == a * w + d * w;
    assert d * w >= 0;
  }

  /** The pixel in column `x` of row `y` (buffer offset `(y * width + x) * 4`). */
  function At(img: Image, x: nat, y: nat): Pixel
    requires WellFormed(img) && x < img.width && y < img.height
  {
    IndexInBounds(img.width, img.height, x, y);
    img.pixels[y * img.width + x]
  }

  /** Sum of the three colour channels of a pixel. */
  function Sum3(p: Pixel): int {
    p.r + p.g + p.b
  }

  /** Every pixel has the colour of the first. */
  predicate Uniform(img: Image) {
    forall i :: 0 <= i < |img.pixels| ==> img.pixels[i] == img.pixels[0]
  }
}
