/** The `Pixelize` image transformer: blows every pixel up into a block of pure red, green
    and blue pixels, like the phosphors of an old screen. */
module PixelizeTransform {
  import opened DotNet
  import opened Bitmaps

  /** `PixelType`: three stripes per pixel, or a two-by-two square. */
  datatype PixelType = Stripes | Squares

  // ---------------------------------------------------------------- stripes

  /** Output pixel `(i, j)` of the stripe mode: the red, green or blue channel, by the column
      within its three-wide block, of input pixel `(i / 3, j / 3)`, fully opaque. */
  function StripesPixel(image: Bitmap, i: nat, j: nat): Argb
    reads image
    requires i < image.Length0 * 3 && j < image.Length1 * 3
  {
    var p := image[i / 3, j / 3];
    if i % 3 == 0 then Argb(255, p.r, 0, 0)
    else if i % 3 == 1 then Argb(255, 0, p.g, 0)
    else Argb(255, 0, 0, p.b)
  }

  /** The output so far when the pass stands at column `x`, row `y` and has written the
      first `k` columns of that pixel's block: every block of an input pixel handled so far
      is in place. */
  ghost predicate StripesSoFar(result: Bitmap, image: Bitmap, x: int, y: int, k: int)
    reads result, image
  {
    result.Length0 == image.Length0 * 3 && result.Length1 == image.Length1 * 3
    && forall i, j :: 0 <= i < result.Length0 && 0 <= j < result.Length1
                      && (Done(i / 3, j / 3, x, y) || (i / 3 == x && j / 3 == y && i % 3 < k)) ==>
         result[i, j] == StripesPixel(image, i, j)
  }

  /** One column of the block of input pixel `(x, y)`. */
  method PlaceStripe(result: Bitmap, image: Bitmap, x: nat, y: nat, k: nat)
    requires x < image.Length0 && y < image.Length1 && k < 3 && result != image
    requires StripesSoFar(result, image, x, y, k)
    modifies result
    ensures StripesSoFar(result, image, x, y, k + 1)
  {
    var p := image[x, y];
    var c := if k == 0 then Argb(255, p.r, 0, 0) else if k == 1 then Argb(255, 0, p.g, 0) else Argb(255, 0, 0, p.b);
    result[x * 3 + k, y * 3] := c;
    result[x * 3 + k, y * 3 + 1] := c;
    result[x * 3 + k, y * 3 + 2] := c;
  }

  /** One step of the stripe pass: the three-by-three block of input pixel `(x, y)`. */
  method PlaceStripes(result: Bitmap, image: Bitmap, x: nat, y: nat)
    requires x < image.Length0 && y < image.Length1 && result != image
    requires StripesSoFar(result, image, x, y, 0)
    modifies result
    ensures StripesSoFar(result, image, x, y + 1, 0)
  {
    PlaceStripe(result, image, x, y, 0);
    PlaceStripe(result, image, x, y, 1);
    PlaceStripe(result, image, x, y, 2);
  }

  /** `PixelizeStripes`: a new image three times as wide and as high made of the stripe
      blocks of the input pixels. */
  method PixelizeStripes(image: Bitmap) returns (result: Bitmap)
    ensures fresh(result)
    ensures result.Length0 == image.Length0 * 3 && result.Length1 == image.Length1 * 3
    ensures forall i, j :: 0 <= i < result.Length0 && 0 <= j < result.Length1 ==>
              result[i, j] == StripesPixel(image, i, j)
  {
    result := new Argb[image.Length0 * 3, image.Length1 * 3]((i, j) => Transparent);
    for x := 0 to image.Length0
      invariant StripesSoFar(result, image, x, 0, 0)
    {
      for y := 0 to image.Length1
        invariant StripesSoFar(result, image, x, y, 0)
      {
        PlaceStripes(result, image, x, y);
      }
    }
  }

  /** Each block of the stripe mode is a red column, a green column and a blue column, each
      three pixels high, carrying that one channel of its input pixel. */
  lemma StripesBlock(image: Bitmap, x: nat, y: nat, k: nat)
    requires x < image.Length0 && y < image.Length1 && k < 3
    ensures 3 * x + 2 < image.Length0 * 3 && 3 * y + k < image.Length1 * 3
    ensures StripesPixel(image, 3 * x, 3 * y + k) == Argb(255, image[x, y].r, 0, 0)
    ensures StripesPixel(image, 3 * x + 1, 3 * y + k) == Argb(255, 0, image[x, y].g, 0)
    ensures StripesPixel(image, 3 * x + 2, 3 * y + k) == Argb(255, 0, 0, image[x, y].b)
  {
  }

  // ---------------------------------------------------------------- squares

  /** Output pixel `(i, j)` of the square mode, from input pixel `(i / 2, j / 2)`: red on
      the top left, blue on the bottom right, and half the green on the other two, fully
      opaque. */
  function SquaresPixel(image: Bitmap, i: nat, j: nat): Argb
    reads image
    requires i < image.Length0 * 2 && j < image.Length1 * 2
  {
    var p := image[i / 2, j / 2];
    if i % 2 == 0 && j % 2 == 0 then Argb(255, p.r, 0, 0)
    else if i % 2 == 1 && j % 2 == 1 then Argb(255, 0, 0, p.b)
    else Argb(255, 0, p.g / 2, 0)
  }

  ghost predicate SquaresSoFar(result: Bitmap, image: Bitmap, x: int, y: int)
    reads result, image
  {
    result.Length0 == image.Length0 * 2 && result.Length1 == image.Length1 * 2
    && forall i, j :: 0 <= i < result.Length0 && 0 <= j < result.Length1 && Done(i / 2, j / 2, x, y) ==>
         result[i, j] == SquaresPixel(image, i, j)
  }

  /** One step of the square pass: the two-by-two block of input pixel `(x, y)`. */
  method PlaceSquares(result: Bitmap, image: Bitmap, x: nat, y: nat)
    requires x < image.Length0 && y < image.Length1 && result != image
    requires SquaresSoFar(result, image, x, y)
    modifies result
    ensures SquaresSoFar(result, image, x, y + 1)
  {
    var p := image[x, y];
    result[x * 2, y * 2] := Argb(255, p.r, 0, 0);
    result[x * 2, y * 2 + 1] := Argb(255, 0, p.g * 1 / 2, 0);
    result[x * 2 + 1, y * 2] := Argb(255, 0, p.g * 1 / 2, 0);
    result[x * 2 + 1, y * 2 + 1] := Argb(255, 0, 0, p.b);
  }

  /** `PixelizeSquares`: a new image twice as wide and as high made of the square blocks
      of the input pixels. */
  method PixelizeSquares(image: Bitmap) returns (result: Bitmap)
    ensures fresh(result)
    ensures result.Length0 == image.Length0 * 2 && result.Length1 == image.Length1 * 2
    ensures forall i, j :: 0 <= i < result.Length0 && 0 <= j < result.Length1 ==>
              result[i, j] == SquaresPixel(image, i, j)
  {
    result := new Argb[image.Length0 * 2, image.Length1 * 2]((i, j) => Transparent);
    for x := 0 to image.Length0
      invariant SquaresSoFar(result, image, x, 0)
    {
      for y := 0 to image.Length1
        invariant SquaresSoFar(result, image, x, y)
      {
        PlaceSquares(result, image, x, y);
      }
    }
  }

  /** Each block of the square mode: red on the top left, blue on the bottom right, half
      the green (rounded down) on the two others. */
  lemma SquaresBlock(image: Bitmap, x: nat, y: nat)
    requires x < image.Length0 && y < image.Length1
    ensures 2 * x + 1 < image.Length0 * 2 && 2 * y + 1 < image.Length1 * 2
    ensures SquaresPixel(image, 2 * x, 2 * y) == Argb(255, image[x, y].r, 0, 0)
    ensures SquaresPixel(image, 2 * x + 1, 2 * y + 1) == Argb(255, 0, 0, image[x, y].b)
    ensures SquaresPixel(image, 2 * x, 2 * y + 1) == SquaresPixel(image, 2 * x + 1, 2 * y)
            == Argb(255, 0, image[x, y].g / 2, 0)
  {
  }

  /** Every output pixel of either mode is fully opaque, and carries at most one channel
      of its input pixel, never brighter than there. */
  lemma PixelsOpaque(image: Bitmap, i: nat, j: nat)
    ensures i < image.Length0 * 3 && j < image.Length1 * 3 ==>
              StripesPixel(image, i, j).a == 255
              && StripesPixel(image, i, j).r + StripesPixel(image, i, j).g + StripesPixel(image, i, j).b
                 <= Max3(image[i / 3, j / 3])
    ensures i < image.Length0 * 2 && j < image.Length1 * 2 ==>
              SquaresPixel(image, i, j).a == 255
              && SquaresPixel(image, i, j).r + SquaresPixel(image, i, j).g + SquaresPixel(image, i, j).b
                 <= Max3(image[i / 2, j / 2])
  {
  }

  /** The brightest channel of a colour. */
  function Max3(p: Argb): (m: int)
    ensures m >= p.r && m >= p.g && m >= p.b && (m == p.r || m == p.g || m == p.b)
  {
    if p.r >= p.g && p.r >= p.b then p.r else if p.g >= p.b then p.g else p.b
  }

  class Pixelize {
    var pixelType: PixelType

    /** The parameterless constructor: the pixel type keeps the enum's default, the
        stripes. */
    constructor Empty()
      ensures pixelType == Stripes
    {
      pixelType := Stripes;
    }

    constructor Init(pixelType: PixelType)
      ensures this.pixelType == pixelType
    {
      this.pixelType := pixelType;
    }

    /** `TransformImage`: the stripe mode for `Stripes`, the square mode otherwise; the
        input image is left as it was. */
    method TransformImage(image: Bitmap) returns (result: Bitmap)
      ensures fresh(result)
      ensures pixelType == Stripes ==>
                result.Length0 == image.Length0 * 3 && result.Length1 == image.Length1 * 3
                && forall i, j :: 0 <= i < result.Length0 && 0 <= j < result.Length1 ==>
                     result[i, j] == StripesPixel(image, i, j)
      ensures pixelType != Stripes ==>
                result.Length0 == image.Length0 * 2 && result.Length1 == image.Length1 * 2
                && forall i, j :: 0 <= i < result.Length0 && 0 <= j < result.Length1 ==>
                     result[i, j] == SquaresPixel(image, i, j)
    {
      if pixelType == Stripes {
        result := PixelizeStripes(image);
      } else {
        result := PixelizeSquares(image);
      }
    }
  }
}
