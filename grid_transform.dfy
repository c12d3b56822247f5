/** The `Grid` image transformer: spreads the pixels of an image apart, leaving transparent
    pixels between them. */
module GridTransform {
  import opened Errors
  import opened DotNet
  import opened Bitmaps
  import Arguments

  /** Pixel `(i, j)` of the output for scale factor `s`: the input pixel `(i / s, j / s)`
      where both coordinates are multiples of `s`, transparent elsewhere. */
  function GridPixel(image: Bitmap, s: nat, i: nat, j: nat): Argb
    reads image
    requires s > 0 && i < image.Length0 * s && j < image.Length1 * s
  {
    DivBelow(i, s, image.Length0);
    DivBelow(j, s, image.Length1);
    if i % s == 0 && j % s == 0 then image[i / s, j / s] else Transparent
  }

  lemma DivBelow(i: nat, s: nat, n: nat)
    requires s > 0 && i < n * s
    ensures i / s < n
  {
  }

  /** Multiples of `s` and their quotients. */
  lemma Multiple(i: nat, s: nat, x: nat)
    requires s > 0
    ensures (i % s == 0 && i / s == x) <==> i == x * s
  {
    var q, m := i / s, i % s;
    assert i == q * s + m && 0 <= m < s;
    if i == x * s {
      if q > x {
        MulAtLeast(q - x, s);
      } else if q < x {
        MulAtLeast(x - q, s);
      }
    }
  }

  lemma MulAtLeast(a: int, s: int)
    requires a >= 1 && s > 0
    ensures a * s >= s
  {
  }

  /** Input pixel `(x, y)` lands on output pixel `(x * s, y * s)`. */
  lemma GridSamples(image: Bitmap, s: nat, x: nat, y: nat)
    requires s > 0 && x < image.Length0 && y < image.Length1
    ensures x * s < image.Length0 * s && y * s < image.Length1 * s
    ensures GridPixel(image, s, x * s, y * s) == image[x, y]
  {
    Multiple(x * s, s, x);
    Multiple(y * s, s, y);
  }

  /** Every output pixel that is not transparent black is an input pixel put at a multiple
      of `s` in both directions. */
  lemma GridOnlySamples(image: Bitmap, s: nat, i: nat, j: nat)
    requires s > 0 && i < image.Length0 * s && j < image.Length1 * s
    requires GridPixel(image, s, i, j) != Transparent
    ensures i / s < image.Length0 && j / s < image.Length1
    ensures i == (i / s) * s && j == (j / s) * s && GridPixel(image, s, i, j) == image[i / s, j / s]
  {
    DivBelow(i, s, image.Length0);
    DivBelow(j, s, image.Length1);
  }

  /** The output so far when the pass stands at column `x`, row `y`: the pixels of the
      input handled so far are in place, and the rest of the output is still transparent. */
  ghost predicate GridSoFar(result: Bitmap, image: Bitmap, s: nat, x: int, y: int)
    reads result, image
    requires s > 0
  {
    result.Length0 == image.Length0 * s && result.Length1 == image.Length1 * s
    && forall i, j :: 0 <= i < result.Length0 && 0 <= j < result.Length1 ==>
         result[i, j] == if i % s == 0 && j % s == 0 && Done(i / s, j / s, x, y)
                         then GridPixel(image, s, i, j) else Transparent
  }

  /** One step of the pass: input pixel `(x, y)` goes to `(x * s, y * s)`. */
  method Place(result: Bitmap, image: Bitmap, s: nat, x: nat, y: nat)
    requires s > 0 && x < image.Length0 && y < image.Length1 && result != image
    requires GridSoFar(result, image, s, x, y)
    modifies result
    ensures GridSoFar(result, image, s, x, y + 1)
  {
    GridSamples(image, s, x, y);
    forall i, j | 0 <= i < result.Length0 && 0 <= j < result.Length1
      ensures (i % s == 0 && j % s == 0 && i / s == x && j / s == y) <==> (i == x * s && j == y * s)
    {
      Multiple(i, s, x);
      Multiple(j, s, y);
    }
    result[x * s, y * s] := image[x, y];
  }

  /** A finished column hands over to the top of the next one. */
  lemma ColumnDone(result: Bitmap, image: Bitmap, s: nat, x: int)
    requires s > 0 && GridSoFar(result, image, s, x, image.Length1)
    ensures GridSoFar(result, image, s, x + 1, 0)
  {
    forall i, j | 0 <= i < result.Length0 && 0 <= j < result.Length1
      ensures Done(i / s, j / s, x, image.Length1) == Done(i / s, j / s, x + 1, 0)
    {
      DivBelow(j, s, image.Length1);
    }
  }

  class Grid {
    var scaleFactor: uint32

    /** The parameterless constructor: the scale factor keeps its default of 0. */
    constructor Empty()
      ensures scaleFactor == 0
    {
      scaleFactor := 0;
    }

    constructor Init(scaleFactor: uint32)
      ensures this.scaleFactor == scaleFactor
    {
      this.scaleFactor := scaleFactor;
    }

    /** The constructor taking a scale factor: 0 is an ArgumentException. */
    static method Create(scaleFactor: uint32) returns (r: Result<Grid>)
      ensures r.Err? <==> scaleFactor == 0
      ensures r.Err? ==> r.error == ArgumentException
      ensures r.Ok? ==> fresh(r.value) && r.value.scaleFactor == scaleFactor
    {
      if scaleFactor == 0 {
        return Err(ArgumentException);
      }
      var g := new Grid.Init(scaleFactor);
      return Ok(g);
    }

    /** `TransformImage`: scale factor 1 returns the input image itself; otherwise a new
        image `s` times as wide and as high holds each input pixel `(x, y)` at
        `(x * s, y * s)` and is transparent elsewhere. With scale factor 0 (a grid made by
        the parameterless constructor) the new image would be empty, which `Bitmap`
        refuses with an ArgumentException. */
    method TransformImage(image: Bitmap) returns (r: Result<Bitmap>)
      requires image.Length0 > 0 && image.Length1 > 0
      ensures scaleFactor == 1 ==> r == Ok(image)
      ensures scaleFactor == 0 ==> r == Err(ArgumentException)
      ensures scaleFactor > 1 ==> r.Ok? && fresh(r.value)
      ensures scaleFactor > 1 ==> r.value.Length0 == image.Length0 * scaleFactor
                                  && r.value.Length1 == image.Length1 * scaleFactor
      ensures scaleFactor > 1 ==> forall i, j :: 0 <= i < r.value.Length0 && 0 <= j < r.value.Length1 ==>
                                    r.value[i, j] == GridPixel(image, scaleFactor, i, j)
    {
      var s := scaleFactor;
      if s == 1 {
        return Ok(image);
      }
      var width := image.Length0 * s;
      var height := image.Length1 * s;
      if width == 0 || height == 0 {
        return Err(ArgumentException);
      }
      var result := new Argb[width, height]((i, j) => Transparent);
      for x := 0 to image.Length0
        invariant result.Length0 == width && result.Length1 == height
        invariant GridSoFar(result, image, s, x, 0)
      {
        for y := 0 to image.Length1
          invariant GridSoFar(result, image, s, x, y)
        {
          Place(result, image, s, x, y);
        }
        ColumnDone(result, image, s, x);
      }
      forall i, j | 0 <= i < width && 0 <= j < height
        ensures result[i, j] == GridPixel(image, s, i, j)
      {
        DivBelow(i, s, image.Length0);
        DivBelow(j, s, image.Length1);
      }
      return Ok(result);
    }
  }

  /** The settings let the scale factor be anything from 0 to 100, 0 included, although the
      constructor they call refuses 0. */
  lemma SettingsAdmitZero()
    ensures Arguments.ParseUInteger("0", 0, 100) == Ok(0)
  {
    ShowParses(0);
    assert Show(0) == "0";
  }
}
