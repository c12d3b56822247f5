/** The `ColorReduce` image transformer: clears, in every colour channel, the bits that are
    set in the reduce level, in place, to leave fewer colours. */
module ColorReduceTransform {
  import opened DotNet
  import opened Bitmaps

  /** `Math.Max(Math.Min(level, 128), 0)`. */
  function Clamp(level: int): (r: int)
    ensures 0 <= r <= 128
    ensures 0 <= level <= 128 ==> r == level
    ensures level < 0 ==> r == 0
    ensures level > 128 ==> r == 128
  {
    if level > 128 then 128 else if level < 0 then 0 else level
  }

  /** `c & ~level`, bit by bit from the least significant: a bit of `c` survives exactly
      when the same bit of `level` is clear. */
  function ClearBits(c: nat, level: nat): nat
    decreases c
  {
    if c == 0 then 0
    else 2 * ClearBits(c / 2, level / 2) + (if c % 2 == 1 && level % 2 == 0 then 1 else 0)
  }

  /** Bit `i` of `x`, counting from the least significant. */
  predicate Bit(x: nat, i: nat)
    decreases i
  {
    if i == 0 then x % 2 == 1 else Bit(x / 2, i - 1)
  }

  /** The meaning of `ClearBits`: bit `i` of the result is set exactly when bit `i` of the
      channel is set and bit `i` of the level is clear. */
  lemma {:induction false} ClearBitsBit(c: nat, level: nat, i: nat)
    ensures Bit(ClearBits(c, level), i) <==> Bit(c, i) && !Bit(level, i)
    decreases i
  {
    var d := ClearBits(c, level);
    if c == 0 {
      ZeroNoBits(i);
    } else {
      assert d / 2 == ClearBits(c / 2, level / 2);
      if i != 0 {
        ClearBitsBit(c / 2, level / 2, i - 1);
      }
    }
  }

  lemma {:induction false} ZeroNoBits(i: nat)
    ensures !Bit(0, i)
    decreases i
  {
    if i != 0 {
      ZeroNoBits(i - 1);
    }
  }

  /** Clearing bits never raises a channel, so a cleared byte is still a byte. */
  lemma {:induction false} ClearBitsBelow(c: nat, level: nat)
    ensures ClearBits(c, level) <= c
    decreases c
  {
    if c != 0 {
      ClearBitsBelow(c / 2, level / 2);
    }
  }

  /** Clearing the same bits twice clears nothing more. */
  lemma {:induction false} ClearBitsIdempotent(c: nat, level: nat)
    ensures ClearBits(ClearBits(c, level), level) == ClearBits(c, level)
    decreases c
  {
    if c != 0 {
      var h := ClearBits(c / 2, level / 2);
      ClearBitsIdempotent(c / 2, level / 2);
      var d := ClearBits(c, level);
      assert d / 2 == h && d % 2 == (if c % 2 == 1 && level % 2 == 0 then 1 else 0);
      if d == 0 {
        assert h == 0;
      }
    }
  }

  /** A level with no bits set keeps the channel. */
  lemma {:induction false} ClearNoBits(c: nat)
    ensures ClearBits(c, 0) == c
    decreases c
  {
    if c != 0 {
      ClearNoBits(c / 2);
    }
  }

  /** Clearing the single bit `2^k` of a number below `2^(k+1)` takes that bit away when it
      is set and changes nothing otherwise. */
  lemma {:induction false} ClearTopBit(c: nat, k: nat)
    requires c < 2 * Pow2(k)
    ensures ClearBits(c, Pow2(k)) == if c < Pow2(k) then c else c - Pow2(k)
    decreases k
  {
    if k == 0 {
      if c == 1 {
        assert ClearBits(c, 1) == 2 * ClearBits(0, 0) + 0;
      }
    } else if c != 0 {
      var p, q := Pow2(k - 1), c / 2;
      ClearTopBit(q, k - 1);
      ClearNoBits(0);
      assert ClearBits(c, Pow2(k)) == 2 * ClearBits(q, p) + c % 2;
    }
  }

  function Pow2(k: nat): (r: nat)
    ensures r >= 1
  {
    if k == 0 then 1 else 2 * Pow2(k - 1)
  }

  /** What a pixel becomes: `Color.FromArgb(r, g, b)` of the cleared channels, which is
      fully opaque whatever the pixel's alpha was. */
  function Reduced(p: Argb, level: nat): Argb
  {
    ClearBitsBelow(p.r, level);
    ClearBitsBelow(p.g, level);
    ClearBitsBelow(p.b, level);
    Argb(255, ClearBits(p.r, level), ClearBits(p.g, level), ClearBits(p.b, level))
  }

  /** Reducing a reduced pixel changes nothing: the transform is idempotent. */
  lemma ReducedIdempotent(p: Argb, level: nat)
    ensures Reduced(Reduced(p, level), level) == Reduced(p, level)
  {
    ClearBitsIdempotent(p.r, level);
    ClearBitsIdempotent(p.g, level);
    ClearBitsIdempotent(p.b, level);
  }

  /** Every channel of a reduced pixel is at most what it was. */
  lemma ReducedDarker(p: Argb, level: nat)
    ensures Reduced(p, level).r <= p.r && Reduced(p, level).g <= p.g && Reduced(p, level).b <= p.b
  {
    ClearBitsBelow(p.r, level);
    ClearBitsBelow(p.g, level);
    ClearBitsBelow(p.b, level);
  }

  /** Level 0 keeps the colour channels and only makes the pixel opaque. */
  lemma ReducedLevelZero(p: Argb)
    ensures Reduced(p, 0) == p.(a := 255)
  {
    ClearNoBits(p.r);
    ClearNoBits(p.g);
    ClearNoBits(p.b);
  }

  /** Level 128, the largest the constructor allows, drops only the most significant bit
      of each channel. */
  lemma ReducedLevel128(p: Argb)
    ensures Reduced(p, 128) == Argb(255, TopBitCleared(p.r), TopBitCleared(p.g), TopBitCleared(p.b))
  {
    assert Pow2(7) == 128 by {
      assert Pow2(1) == 2 && Pow2(2) == 4 && Pow2(3) == 8 && Pow2(4) == 16 && Pow2(5) == 32 && Pow2(6) == 64;
    }
    ClearTopBit(p.r, 7);
    ClearTopBit(p.g, 7);
    ClearTopBit(p.b, 7);
  }

  /** A byte without its most significant bit. */
  function TopBitCleared(c: byte): byte {
    if c < 128 then c else c - 128
  }

  /** At level 128, as written, a white pixel keeps seven of its eight bits per channel,
      where the level's description promises that all but the most significant are lost. */
  lemma ReducedLevel128KeepsLowBits()
    ensures Reduced(Argb(255, 255, 255, 255), 128) == Argb(255, 127, 127, 127)
    ensures ReducedIntended(Argb(255, 255, 255, 255), 128) == Argb(255, 128, 128, 128)
  {
    ReducedLevel128(Argb(255, 255, 255, 255));
  }

  /** A channel rounded down to a multiple of the level: whole levels are taken from it
      while they fit. Level 0 keeps it. */
  function Quantized(c: nat, level: nat): (r: nat)
    ensures r <= c
    ensures level == 0 ==> r == c
    ensures level >= 1 ==> c - r < level
    decreases c
  {
    if level == 0 || c < level then (if level == 0 then c else 0)
    else level + Quantized(c - level, level)
  }

  /** Rounding down a channel that is already a multiple of the level keeps it. */
  lemma {:induction false} QuantizedIdempotent(c: nat, level: nat)
    ensures Quantized(Quantized(c, level), level) == Quantized(c, level)
    decreases c
  {
    if level >= 1 && c >= level {
      QuantizedIdempotent(c - level, level);
    }
  }

  /** At level 128 a byte keeps only its most significant bit. */
  lemma QuantizedTop(c: byte)
    ensures Quantized(c, 128) == TopBitOnly(c)
  {
    if c >= 128 {
      assert Quantized(c - 128, 128) == 0;
    }
  }

  /** The reduction the level's description promises: level 0 loses nothing, each level
      loses less than the level from every channel, down to a multiple of it, so that
      level 128 keeps only the most significant bit, and reducing twice changes nothing
      more. */
  function ReducedIntended(p: Argb, level: nat): (q: Argb)
    ensures level == 0 ==> q == p.(a := 255)
    ensures level == 128 ==> q == Argb(255, TopBitOnly(p.r), TopBitOnly(p.g), TopBitOnly(p.b))
    ensures q.a == 255 && q.r <= p.r && q.g <= p.g && q.b <= p.b
    ensures q == Argb(255, Quantized(q.r, level), Quantized(q.g, level), Quantized(q.b, level))
  {
    QuantizedTop(p.r);
    QuantizedTop(p.g);
    QuantizedTop(p.b);
    QuantizedIdempotent(p.r, level);
    QuantizedIdempotent(p.g, level);
    QuantizedIdempotent(p.b, level);
    Argb(255, Quantized(p.r, level), Quantized(p.g, level), Quantized(p.b, level))
  }

  /** A byte with only its most significant bit kept. */
  function TopBitOnly(c: byte): byte {
    if c < 128 then 0 else 128
  }

  class ColorReduce {
    var reduceLevel: nat

    /** The parameterless constructor: level 0. */
    constructor Empty()
      ensures reduceLevel == 0
    {
      reduceLevel := 0;
    }

    /** The constructor: the level is clamped into 0..128. */
    constructor (reduceLevel: int32)
      ensures this.reduceLevel == Clamp(reduceLevel)
    {
      this.reduceLevel := Clamp(reduceLevel);
    }

    /** `TransformImage`: every pixel of the image is reduced in place, and the image itself
        is returned. */
    method TransformImage(image: Bitmap) returns (r: Bitmap)
      modifies image
      ensures r == image
      ensures forall i, j :: 0 <= i < image.Length0 && 0 <= j < image.Length1 ==>
                image[i, j] == Reduced(old(image[i, j]), reduceLevel)
    {
      for x := 0 to image.Length0
        invariant forall i, j :: 0 <= i < image.Length0 && 0 <= j < image.Length1 ==>
                    image[i, j] == if Done(i, j, x, 0) then Reduced(old(image[i, j]), reduceLevel) else old(image[i, j])
      {
        for y := 0 to image.Length1
          invariant forall i, j :: 0 <= i < image.Length0 && 0 <= j < image.Length1 ==>
                      image[i, j] == if Done(i, j, x, y) then Reduced(old(image[i, j]), reduceLevel) else old(image[i, j])
        {
          var c := image[x, y];
          image[x, y] := Reduced(c, reduceLevel);
        }
      }
      return image;
    }
  }
}
