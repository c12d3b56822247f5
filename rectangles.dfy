/** The `Rectangles` generator: the image size it derives from its grid, and the occupancy
    grid that hands out random free rectangles until every cell is covered. Colours, the
    palette and the drawing are not modelled; `System.Random` is an oracle passed in. */
module RectanglesGenerator {
  import opened DotNet

  /** A grid cell, column `x` and row `y`. */
  datatype Point = Point(x: int, y: int)

  /** A rectangle of cells from corner `a` to corner `b`, both included. */
  datatype Rect = Rect(a: Point, b: Point)

  /** One chance in `END_CHANCE` that a growing rectangle stops at each step. */
  const END_CHANCE: int := 8

  function Min(a: int, b: int): int { if a <= b then a else b }
  function Max(a: int, b: int): int { if a <= b then b else a }

  /** Whether cell `(x, y)` lies between corners `p` and `q`, in whatever order they come. */
  predicate Between(p: Point, q: Point, x: int, y: int) {
    Min(p.x, q.x) <= x <= Max(p.x, q.x) && Min(p.y, q.y) <= y <= Max(p.y, q.y)
  }

  // ---------------------------------------------------------------- image size

  /** The pixel length of a side of `cells` cells of `ppu` pixels with `gap` pixels between
      neighbours. */
  function SideLength(cells: int, ppu: int, gap: int): int {
    cells * ppu + (cells - 1) * gap
  }

  /** Cell `x` of a side covers pixels `x * (ppu + gap)` up to, not including,
      `x * (ppu + gap) + ppu`: the span lies inside the side, and the next cell starts
      `gap` pixels after it ends. */
  lemma CellSpan(cells: int, ppu: int, gap: int, x: int)
    requires 0 <= x < cells && ppu >= 0 && gap >= 0
    ensures 0 <= x * (ppu + gap)
    ensures x * (ppu + gap) + ppu <= SideLength(cells, ppu, gap)
    ensures (x + 1) * (ppu + gap) - (x * (ppu + gap) + ppu) == gap
  {
    var u := ppu + gap;
    assert SideLength(cells, ppu, gap) == (cells - 1) * u + ppu;
    assert x * u <= (cells - 1) * u by {
      assert (cells - 1) * u - x * u == (cells - 1 - x) * u;
    }
    assert (x + 1) * u == x * u + u;
  }

  class Rectangles {
    var width: int32
    var height: int32
    var seed: int32
    var gridWidth: int32
    var gridHeight: int32
    var pixelsPerUnit: int32
    var gapThickness: int32

    /** The parameterless constructor: the property defaults. */
    constructor Empty()
      ensures width == 128 && height == 128 && seed == 0
      ensures gridWidth == 8 && gridHeight == 8 && pixelsPerUnit == 8 && gapThickness == 4
    {
      width, height, seed := 128, 128, 0;
      gridWidth, gridHeight, pixelsPerUnit, gapThickness := 8, 8, 8, 4;
    }

    /** The constructor: the image size follows from the grid, in unchecked 32-bit
        arithmetic. */
    constructor (gridWidth: int32, gridHeight: int32, pixelsPerUnit: int32, gapThickness: int32, seed: int32)
      ensures this.gridWidth == gridWidth && this.gridHeight == gridHeight
      ensures this.pixelsPerUnit == pixelsPerUnit && this.gapThickness == gapThickness && this.seed == seed
      ensures width == ToInt32(SideLength(gridWidth, pixelsPerUnit, gapThickness))
      ensures height == ToInt32(SideLength(gridHeight, pixelsPerUnit, gapThickness))
    {
      this.gridWidth, this.gridHeight := gridWidth, gridHeight;
      this.pixelsPerUnit, this.gapThickness, this.seed := pixelsPerUnit, gapThickness, seed;
      width := ToInt32(SideLength(gridWidth, pixelsPerUnit, gapThickness));
      height := ToInt32(SideLength(gridHeight, pixelsPerUnit, gapThickness));
    }

    /** `GetNextGenerator`: a member-wise copy whose seed is `i`. */
    method GetNextGenerator(i: int32) returns (copy: Rectangles)
      ensures fresh(copy)
      ensures copy.seed == i
      ensures copy.width == width && copy.height == height
      ensures copy.gridWidth == gridWidth && copy.gridHeight == gridHeight
      ensures copy.pixelsPerUnit == pixelsPerUnit && copy.gapThickness == gapThickness
    {
      copy := new Rectangles.Empty();
      copy.width, copy.height, copy.seed := width, height, i;
      copy.gridWidth, copy.gridHeight := gridWidth, gridHeight;
      copy.pixelsPerUnit, copy.gapThickness := pixelsPerUnit, gapThickness;
    }
  }

  /** A proper subset is smaller. */
  lemma StrictSubsetSmaller(a: set<Point>, b: set<Point>)
    requires a < b
    ensures |a| < |b|
  {
    var x :| x in b && x !in a;
    var rest := b - a;
    assert b == a + rest && a * rest == {};
    assert x in rest;
  }

  // ---------------------------------------------------------------- occupancy grid

  /** The `Grid` helper: `grid[x, y]` says whether cell `(x, y)` is already covered. */
  class Grid {
    const grid: array2<bool>
    const width: int
    const height: int
    const seed: int32

    predicate Valid() {
      grid.Length0 == width && grid.Length1 == height
    }

    predicate InBounds(p: Point) {
      0 <= p.x < width && 0 <= p.y < height
    }

    /** Every cell between `p` and `q` is still free. */
    predicate Free(p: Point, q: Point)
      requires Valid()
      reads grid
    {
      forall x, y :: 0 <= x < width && 0 <= y < height && Between(p, q, x, y) ==> !grid[x, y]
    }

    /** The free cells. */
    ghost function Unmarked(): set<Point>
      requires Valid()
      reads grid
    {
      set x, y | 0 <= x < width && 0 <= y < height && !grid[x, y] :: Point(x, y)
    }

    /** The free cells of column `x` above row `m`, top first. */
    function UnmarkedColumn(x: int, m: int): seq<Point>
      requires Valid() && 0 <= x < width && 0 <= m <= height
      reads grid
      decreases m
    {
      if m == 0 then [] else UnmarkedColumn(x, m - 1) + (if !grid[x, m - 1] then [Point(x, m - 1)] else [])
    }

    /** The free cells of the columns left of `n`, column by column: the order in which
        `GetRandomFirst` lists them. */
    function UnmarkedColumns(n: int): seq<Point>
      requires Valid() && 0 <= n <= width
      reads grid
      decreases n
    {
      if n == 0 then [] else UnmarkedColumns(n - 1) + UnmarkedColumn(n - 1, height)
    }

    lemma {:induction false} UnmarkedColumnMembers(x: int, m: int, p: Point)
      requires Valid() && 0 <= x < width && 0 <= m <= height
      ensures p in UnmarkedColumn(x, m) <==> p.x == x && 0 <= p.y < m && !grid[p.x, p.y]
      decreases m
    {
      if m != 0 {
        UnmarkedColumnMembers(x, m - 1, p);
      }
    }

    /** The listed cells are exactly the free cells of the first `n` columns. */
    lemma {:induction false} UnmarkedColumnsMembers(n: int, p: Point)
      requires Valid() && 0 <= n <= width
      ensures p in UnmarkedColumns(n) <==> 0 <= p.x < n && 0 <= p.y < height && !grid[p.x, p.y]
      decreases n
    {
      if n != 0 {
        UnmarkedColumnsMembers(n - 1, p);
        UnmarkedColumnMembers(n - 1, height, p);
      }
    }

    /** `IsFull`: every cell is covered. */
    predicate IsFull()
      requires Valid()
      reads grid
    {
      forall x, y :: 0 <= x < width && 0 <= y < height ==> grid[x, y]
    }

    /** The grid is full exactly when no free cell is left to list. */
    lemma FullIffNothingListed()
      requires Valid()
      ensures IsFull() <==> UnmarkedColumns(width) == []
      ensures IsFull() <==> Unmarked() == {}
    {
      if !IsFull() {
        var x, y :| 0 <= x < width && 0 <= y < height && !grid[x, y];
        UnmarkedColumnsMembers(width, Point(x, y));
        assert Point(x, y) in Unmarked();
      } else if UnmarkedColumns(width) != [] {
        var p := UnmarkedColumns(width)[0];
        UnmarkedColumnsMembers(width, p);
      }
    }

    /** The constructor: a `width` by `height` grid with no cell covered. */
    constructor (width: int32, height: int32, seed: int32)
      requires width >= 0 && height >= 0
      ensures Valid() && this.width == width && this.height == height && this.seed == seed
      ensures fresh(grid)
      ensures forall x, y :: 0 <= x < width && 0 <= y < height ==> !grid[x, y]
    {
      this.width, this.height, this.seed := width, height, seed;
      grid := new bool[width, height]((_, _) => false);
    }

    /** `GetRandomFirst`: lists the free cells column by column and returns one of them,
        never the last of two or more, since `Next(0, count - 1)` excludes its upper
        bound. */
    method GetRandomFirst(rnd: Random) returns (position: Point)
      requires Valid() && !IsFull()
      ensures InBounds(position) && !grid[position.x, position.y]
      ensures exists i :: 0 <= i < |UnmarkedColumns(width)| && (i == 0 || i < |UnmarkedColumns(width)| - 1) &&
                          position == UnmarkedColumns(width)[i]
    {
      var points: seq<Point> := [];
      for x := 0 to width
        invariant points == UnmarkedColumns(x)
      {
        for y := 0 to height
          invariant points == UnmarkedColumns(x) + UnmarkedColumn(x, y)
        {
          if !grid[x, y] {
            points := points + [Point(x, y)];
          }
        }
      }
      FullIffNothingListed();
      var i := rnd.Next(0, |points| - 1);
      position := points[i];
      UnmarkedColumnsMembers(width, position);
    }

    /** `GetSecond1`: grows right along the start row while cells are free, then down row
        by row while the whole span is free; the rectangle from the start is free. */
    method GetSecond1(startX: int, startY: int, rnd: Random) returns (r: Point)
      requires Valid() && InBounds(Point(startX, startY)) && !grid[startX, startY]
      ensures InBounds(r) && startX <= r.x && startY <= r.y
      ensures Free(Point(startX, startY), r)
    {
      var maxX := startX;
      while true
        invariant startX <= maxX < width
        invariant forall x :: startX <= x < maxX ==> !grid[x, startY]
        decreases width - maxX
      {
        if grid[maxX, startY] {
          maxX := maxX - 1;
          break;
        }
        if maxX == width - 1 {
          break;
        }
        var c := rnd.Next(0, END_CHANCE);
        if c == 0 {
          break;
        }
        maxX := maxX + 1;
      }
      var y := startY;
      while y < height
        invariant startY <= y <= height
        invariant forall x, yy :: startX <= x <= maxX && startY <= yy < y ==> !grid[x, yy]
        invariant forall x :: startX <= x <= maxX ==> !grid[x, startY]
      {
        var x := startX;
        while x <= maxX
          invariant startX <= x <= maxX + 1
          invariant forall xx :: startX <= xx < x ==> !grid[xx, y]
        {
          if grid[x, y] {
            return Point(x, y - 1);
          }
          x := x + 1;
        }
        var c := rnd.Next(0, END_CHANCE);
        if c == 0 {
          return Point(maxX, y);
        }
        y := y + 1;
      }
      return Point(maxX, height - 1);
    }

    /** `GetSecond2`: grows left, then down. */
    method GetSecond2(startX: int, startY: int, rnd: Random) returns (r: Point)
      requires Valid() && InBounds(Point(startX, startY)) && !grid[startX, startY]
      ensures InBounds(r) && r.x <= startX && startY <= r.y
      ensures Free(Point(startX, startY), r)
    {
      var maxX := startX;
      while true
        invariant 0 <= maxX <= startX
        invariant forall x :: maxX < x <= startX ==> !grid[x, startY]
        decreases maxX
      {
        if grid[maxX, startY] {
          maxX := maxX + 1;
          break;
        }
        if maxX == 0 {
          break;
        }
        var c := rnd.Next(0, END_CHANCE);
        if c == 0 {
          break;
        }
        maxX := maxX - 1;
      }
      var y := startY;
      while y < height
        invariant startY <= y <= height
        invariant forall x, yy :: maxX <= x <= startX && startY <= yy < y ==> !grid[x, yy]
        invariant forall x :: maxX <= x <= startX ==> !grid[x, startY]
      {
        var x := startX;
        while x >= maxX
          invariant maxX - 1 <= x <= startX
          invariant forall xx :: x < xx <= startX ==> !grid[xx, y]
        {
          if grid[x, y] {
            return Point(x, y - 1);
          }
          x := x - 1;
        }
        var c := rnd.Next(0, END_CHANCE);
        if c == 0 {
          return Point(maxX, y);
        }
        y := y + 1;
      }
      return Point(maxX, height - 1);
    }

    /** `GetSecond3`: grows right, then up. */
    method GetSecond3(startX: int, startY: int, rnd: Random) returns (r: Point)
      requires Valid() && InBounds(Point(startX, startY)) && !grid[startX, startY]
      ensures InBounds(r) && startX <= r.x && r.y <= startY
      ensures Free(Point(startX, startY), r)
    {
      var maxX := startX;
      while true
        invariant startX <= maxX < width
        invariant forall x :: startX <= x < maxX ==> !grid[x, startY]
        decreases width - maxX
      {
        if grid[maxX, startY] {
          maxX := maxX - 1;
          break;
        }
        if maxX == width - 1 {
          break;
        }
        var c := rnd.Next(0, END_CHANCE);
        if c == 0 {
          break;
        }
        maxX := maxX + 1;
      }
      var y := startY;
      while y >= 0
        invariant -1 <= y <= startY
        invariant forall x, yy :: startX <= x <= maxX && y < yy <= startY ==> !grid[x, yy]
        invariant forall x :: startX <= x <= maxX ==> !grid[x, startY]
      {
        var x := startX;
        while x <= maxX
          invariant startX <= x <= maxX + 1
          invariant forall xx :: startX <= xx < x ==> !grid[xx, y]
        {
          if grid[x, y] {
            return Point(x, y + 1);
          }
          x := x + 1;
        }
        var c := rnd.Next(0, END_CHANCE);
        if c == 0 {
          return Point(maxX, y);
        }
        y := y - 1;
      }
      return Point(maxX, 0);
    }

    /** `GetSecond4` as written: grows left, then means to grow up, but its row loop starts
        at the start row and runs only while the row is at least the height, so it never
        runs and the corner is always on the top row, whatever the rows above hold. */
    method GetSecond4(startX: int, startY: int, rnd: Random) returns (r: Point)
      requires Valid() && InBounds(Point(startX, startY)) && !grid[startX, startY]
      ensures InBounds(r) && r.x <= startX && r.y == 0
      ensures forall x :: r.x <= x <= startX ==> !grid[x, startY]
    {
      var maxX := startX;
      while true
        invariant 0 <= maxX <= startX
        invariant forall x :: maxX < x <= startX ==> !grid[x, startY]
        decreases maxX
      {
        if grid[maxX, startY] {
          maxX := maxX + 1;
          break;
        }
        if maxX == 0 {
          break;
        }
        var c := rnd.Next(0, END_CHANCE);
        if c == 0 {
          break;
        }
        maxX := maxX - 1;
      }
      // The row loop starts at the start row and runs while the row is at least the
      // height; the start row is inside the grid, so its body, which would read past the
      // last row, never runs.
      var y := startY;
      assert !(y >= height);
      return Point(maxX, 0);
    }

    /** The rectangle `GetSecond4` spans can cover a cell that is already covered: when the
        cell in the start column on the top row is covered and the start is below it. */
    lemma GetSecond4Overlaps(startX: int, startY: int, r: Point)
      requires Valid() && InBounds(Point(startX, startY)) && startY > 0 && grid[startX, 0]
      requires r.x <= startX && r.y == 0
      ensures !Free(Point(startX, startY), r)
    {
      assert Between(Point(startX, startY), r, startX, 0);
    }

    /** `GetSecond4` with its row loop running while the row is at least 0, as in
        `GetSecond3`: grows left, then up, and the rectangle is free. */
    method GetSecond4Fixed(startX: int, startY: int, rnd: Random) returns (r: Point)
      requires Valid() && InBounds(Point(startX, startY)) && !grid[startX, startY]
      ensures InBounds(r) && r.x <= startX && r.y <= startY
      ensures Free(Point(startX, startY), r)
    {
      var maxX := startX;
      while true
        invariant 0 <= maxX <= startX
        invariant forall x :: maxX < x <= startX ==> !grid[x, startY]
        decreases maxX
      {
        if grid[maxX, startY] {
          maxX := maxX + 1;
          break;
        }
        if maxX == 0 {
          break;
        }
        var c := rnd.Next(0, END_CHANCE);
        if c == 0 {
          break;
        }
        maxX := maxX - 1;
      }
      var y := startY;
      while y >= 0
        invariant -1 <= y <= startY
        invariant forall x, yy :: maxX <= x <= startX && y < yy <= startY ==> !grid[x, yy]
        invariant forall x :: maxX <= x <= startX ==> !grid[x, startY]
      {
        var x := startX;
        while x >= maxX
          invariant maxX - 1 <= x <= startX
          invariant forall xx :: x < xx <= startX ==> !grid[xx, y]
        {
          if grid[x, y] {
            return Point(x, y + 1);
          }
          x := x - 1;
        }
        var c := rnd.Next(0, END_CHANCE);
        if c == 0 {
          return Point(maxX, y);
        }
        y := y - 1;
      }
      return Point(maxX, 0);
    }

    /** The `switch` of `GetRandomSecond` on a direction: 1 to 4 pick `GetSecond1` to
        `GetSecond4`, anything else `GetSecond1`. Direction 4 takes the corrected
        `GetSecond4Fixed`. */
    method GetSecondBy(direction: int, startX: int, startY: int, rnd: Random) returns (r: Point)
      requires Valid() && InBounds(Point(startX, startY)) && !grid[startX, startY]
      ensures InBounds(r) && Free(Point(startX, startY), r)
    {
      if direction == 2 {
        r := GetSecond2(startX, startY, rnd);
      } else if direction == 3 {
        r := GetSecond3(startX, startY, rnd);
      } else if direction == 4 {
        r := GetSecond4Fixed(startX, startY, rnd);
      } else {
        r := GetSecond1(startX, startY, rnd);
      }
    }

    /** `GetRandomSecond`: draws a direction with `Next(1, 4)`, which never yields 4, and
        grows a free rectangle from the start in that direction. */
    method GetRandomSecond(startX: int, startY: int, rnd: Random) returns (direction: int, r: Point)
      requires Valid() && InBounds(Point(startX, startY)) && !grid[startX, startY]
      ensures 1 <= direction <= 3
      ensures InBounds(r) && Free(Point(startX, startY), r)
    {
      direction := rnd.Next(1, 4);
      r := GetSecondBy(direction, startX, startY, rnd);
    }

    /** Covers every cell of `r`, whose corners are ordered and inside the grid. */
    method Mark(r: Rect)
      requires Valid() && r.a.x <= r.b.x && r.a.y <= r.b.y && InBounds(r.a) && InBounds(r.b)
      modifies grid
      ensures forall x, y :: 0 <= x < width && 0 <= y < height ==>
                grid[x, y] == (old(grid[x, y]) || Between(r.a, r.b, x, y))
    {
      for cx := r.a.x to r.b.x + 1
        invariant forall x, y :: 0 <= x < width && 0 <= y < height ==>
                    grid[x, y] == (old(grid[x, y]) || (r.a.x <= x < cx && r.a.y <= y <= r.b.y))
      {
        for cy := r.a.y to r.b.y + 1
          invariant forall x, y :: 0 <= x < width && 0 <= y < height ==>
                      grid[x, y] == (old(grid[x, y]) || (r.a.x <= x < cx && r.a.y <= y <= r.b.y) ||
                                     (x == cx && r.a.y <= y < cy))
        {
          grid[cx, cy] := true;
        }
      }
    }

    /** `GetRandomRectangle`: picks a free first corner and a second corner, orders the
        corners on each axis, covers every cell between them and returns the rectangle.
        The rectangle was free, so the free cells strictly shrink. */
    method GetRandomRectangle(rnd: Random) returns (r: Rect)
      requires Valid() && !IsFull()
      modifies grid
      ensures r.a.x <= r.b.x && r.a.y <= r.b.y && InBounds(r.a) && InBounds(r.b)
      ensures old(Free(r.a, r.b))
      ensures forall x, y :: 0 <= x < width && 0 <= y < height ==>
                grid[x, y] == (old(grid[x, y]) || Between(r.a, r.b, x, y))
      ensures Unmarked() < old(Unmarked())
    {
      var first := GetRandomFirst(rnd);
      var direction, second := GetRandomSecond(first.x, first.y, rnd);
      var left, right := first.x, second.x;
      if left > right {
        left, right := right, left;
      }
      var top, bottom := first.y, second.y;
      if top > bottom {
        top, bottom := bottom, top;
      }
      r := Rect(Point(left, top), Point(right, bottom));
      assert Free(r.a, r.b);
      Mark(r);
      forall p | p in Unmarked()
        ensures p in old(Unmarked())
      {
        var x, y :| 0 <= x < width && 0 <= y < height && !grid[x, y] && p == Point(x, y);
      }
      assert first in old(Unmarked());
      assert first !in Unmarked();
    }

    /** The fill loop of `GenerateImage`: rectangles are handed out until the grid is
        full; each covers a free cell, so the loop ends. */
    method Fill(rnd: Random) returns (rects: seq<Rect>)
      requires Valid()
      modifies grid
      ensures IsFull()
      ensures forall i :: 0 <= i < |rects| ==> InBounds(rects[i].a) && InBounds(rects[i].b)
    {
      rects := [];
      while !IsFull()
        invariant forall i :: 0 <= i < |rects| ==> InBounds(rects[i].a) && InBounds(rects[i].b)
        decreases |Unmarked()|
      {
        ghost var before := Unmarked();
        var r := GetRandomRectangle(rnd);
        StrictSubsetSmaller(Unmarked(), before);
        rects := rects + [r];
      }
    }
  }
}
