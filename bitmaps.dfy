/** `System.Drawing` as the image transformers use it: a colour is four byte channels and a
    bitmap is a grid of colours indexed by column and row. */
module Bitmaps {
  import opened DotNet

  /** A `Color`: alpha, red, green and blue. */
  datatype Argb = Argb(a: byte, r: byte, g: byte, b: byte)

  /** The colour every pixel of a new `Bitmap` starts with: transparent black. */
  const Transparent: Argb := Argb(0, 0, 0, 0)

  /** A `Bitmap`: pixel `[x, y]` is column `x` and row `y`, `Length0` is the width and
      `Length1` the height. */
  type Bitmap = array2<Argb>

  /** Whether a pass over the columns, each column from the top, has handled pixel `(p, q)`
      when it stands at column `x`, row `y`. */
  predicate Done(p: int, q: int, x: int, y: int) {
    p < x || (p == x && q < y)
  }
}
