/** Mosaic geometry: the grid of tiles on the screen and the level bars drawn into each tile. */
module Geometry {
  import opened Arithmetic
  import opened Decimal
  import opened Wrappers

  const CHANNELS: nat := 2
  const COUNT_CHUNKS: nat := 10

  /** A rectangle of pixels: `x <= px < x + width`, `y <= py < y + height`. */
  datatype Rect = Rect(x: int, y: int, width: nat, height: nat) {
    predicate Has(px: int, py: int) {
      x <= px < x + width && y <= py < y + height
    }

    predicate Inside(other: Rect) {
      && other.x <= x && x + width <= other.x + other.width
      && other.y <= y && y + height <= other.y + other.height
    }
  }

  /** Rows and columns for the accepted numbers of inputs. */
  function Grid(inputs: nat): (g: Option<(nat, nat)>)
    ensures g.Some? ==> g.value.0 * g.value.1 == inputs && g.value.0 > 0 && g.value.1 > 0
  {
    if inputs == 1 then Some((1, 1))
    else if inputs == 2 then Some((2, 1))
    else if inputs == 4 then Some((2, 2))
    else if inputs == 9 then Some((3, 3))
    else if inputs == 16 then Some((4, 4))
    else None
  }

  /** The accepted numbers are the squares up to four by four, and two inputs in one column. */
  lemma GridIff(inputs: nat, rows: nat, columns: nat)
    ensures Grid(inputs) == Some((rows, columns))
            <==> inputs == rows * columns && ((rows == columns && 1 <= rows <= 4) || (rows == 2 && columns == 1))
  {
    assert Grid(inputs) == Some((rows, columns)) ==> rows <= 4 && columns <= 4;
    if rows == columns && rows <= 4 {
      assert rows * columns == if rows == 0 then 0
                               else if rows == 1 then 1 else if rows == 2 then 4 else if rows == 3 then 9 else 16;
    }
  }

  /** The tile in row `r` and column `c` of a `rows` by `columns` grid. */
  function Tile(screen: (nat, nat), rows: nat, columns: nat, r: nat, c: nat): Rect
    requires rows > 0 && columns > 0
  {
    var w, h := screen.0 / columns, screen.1 / rows;
    Rect(c * w, r * h, w, h)
  }

  /** The tile of input `k`: the grid is filled row by row. */
  function TileOf(screen: (nat, nat), rows: nat, columns: nat, k: nat): Rect
    requires rows > 0 && columns > 0
  {
    Tile(screen, rows, columns, k / columns, k % columns)
  }

  // ----------------------------------------------------------------- tiles

  lemma NextMultiple(c: nat, w: nat)
    ensures (c + 1) * w == c * w + w
  {
  }

  /** One axis: `n` spans of the quotient fit into the extent, and what is left is smaller than `n`. */
  lemma SpansFit(extent: nat, n: nat)
    requires n > 0
    ensures n * (extent / n) <= extent < n * (extent / n) + n
  {
  }

  predicate InSpan(p: int, k: nat, w: nat) {
    k * w <= p < k * w + w
  }

  /** One axis: a position below `n * w` lies in exactly one span. */
  lemma SpanOf(p: nat, n: nat, w: nat) returns (c: nat)
    requires p < n * w
    ensures c < n && InSpan(p, c, w)
  {
    c := p / w;
    if c >= n {
      ScaleMonotone(n, c, w);
    }
  }

  lemma SpanIsUnique(p: nat, w: nat, a: nat, b: nat)
    requires InSpan(p, a, w) && InSpan(p, b, w)
    ensures a == b
  {
    if a < b {
      NextMultiple(a, w);
      ScaleMonotone(a + 1, b, w);
    } else if b < a {
      NextMultiple(b, w);
      ScaleMonotone(b + 1, a, w);
    }
  }

  lemma TileHas(screen: (nat, nat), rows: nat, columns: nat, r: nat, c: nat, px: int, py: int)
    requires rows > 0 && columns > 0
    ensures Tile(screen, rows, columns, r, c).Has(px, py)
            <==> InSpan(px, c, screen.0 / columns) && InSpan(py, r, screen.1 / rows)
  {
  }

  /** Every tile lies on the screen, and fewer than `columns` (`rows`) pixels stay unused per axis. */
  lemma TileIsOnScreen(screen: (nat, nat), rows: nat, columns: nat, r: nat, c: nat)
    requires r < rows && c < columns
    ensures Tile(screen, rows, columns, r, c).Inside(Rect(0, 0, screen.0, screen.1))
    ensures screen.0 - columns < columns * Tile(screen, rows, columns, r, c).width <= screen.0
    ensures screen.1 - rows < rows * Tile(screen, rows, columns, r, c).height <= screen.1
  {
    var w, h := screen.0 / columns, screen.1 / rows;
    SpansFit(screen.0, columns);
    SpansFit(screen.1, rows);
    NextMultiple(c, w);
    NextMultiple(r, h);
    ScaleMonotone(c + 1, columns, w);
    ScaleMonotone(r + 1, rows, h);
  }

  /** The tiles are disjoint and together cover the grid's area: each of its pixels is in exactly one tile. */
  lemma PixelIsInOneTile(screen: (nat, nat), rows: nat, columns: nat, px: nat, py: nat) returns (r: nat, c: nat)
    requires rows > 0 && columns > 0
    requires px < columns * (screen.0 / columns) && py < rows * (screen.1 / rows)
    ensures r < rows && c < columns && Tile(screen, rows, columns, r, c).Has(px, py)
    ensures forall r': nat, c': nat :: r' < rows && c' < columns && Tile(screen, rows, columns, r', c').Has(px, py)
                                       ==> r' == r && c' == c
  {
    hide InSpan, Tile;
    var w, h := screen.0 / columns, screen.1 / rows;
    c := SpanOf(px, columns, w);
    r := SpanOf(py, rows, h);
    TileHas(screen, rows, columns, r, c, px, py);
    forall r': nat, c': nat | r' < rows && c' < columns && Tile(screen, rows, columns, r', c').Has(px, py)
      ensures r' == r && c' == c
    {
      TileHas(screen, rows, columns, r', c', px, py);
      SpanIsUnique(px, w, c, c');
      SpanIsUnique(py, h, r, r');
    }
  }

  lemma TileAtIndex(screen: (nat, nat), rows: nat, columns: nat, r: nat, c: nat)
    requires rows > 0 && c < columns
    ensures TileOf(screen, rows, columns, r * columns + c) == Tile(screen, rows, columns, r, c)
  {
    hide Tile;
    ModIs(r * columns + c, columns, r, c);
  }

  /** The first tile is in the corner, and each next column or row begins where the one before it ends. */
  lemma TilesAbut(screen: (nat, nat), rows: nat, columns: nat, r: nat, c: nat)
    requires rows > 0 && columns > 0
    ensures Tile(screen, rows, columns, 0, 0) == Rect(0, 0, screen.0 / columns, screen.1 / rows)
    ensures var a, b := Tile(screen, rows, columns, r, c), Tile(screen, rows, columns, r, c + 1);
            b.x == a.x + a.width && b.y == a.y && b.width == a.width && b.height == a.height
    ensures var a, b := Tile(screen, rows, columns, r, c), Tile(screen, rows, columns, r + 1, c);
            b.x == a.x && b.y == a.y + a.height && b.width == a.width && b.height == a.height
  {
    NextMultiple(c, screen.0 / columns);
    NextMultiple(r, screen.1 / rows);
  }

  /** The tiles of two different inputs share no pixel. */
  lemma TilesAreDisjoint(screen: (nat, nat), rows: nat, columns: nat, k: nat, k': nat, px: nat, py: nat)
    requires k < rows * columns && k' < rows * columns && rows > 0 && columns > 0
    requires TileOf(screen, rows, columns, k).Has(px, py) && TileOf(screen, rows, columns, k').Has(px, py)
    ensures k == k'
  {
    hide Tile, InSpan;
    TileHas(screen, rows, columns, k / columns, k % columns, px, py);
    TileHas(screen, rows, columns, k' / columns, k' % columns, px, py);
    SpanIsUnique(px, screen.0 / columns, k % columns, k' % columns);
    SpanIsUnique(py, screen.1 / rows, k / columns, k' / columns);
    SameQuotientAndRemainder(k, k', columns);
  }

  lemma SameQuotientAndRemainder(a: nat, b: nat, m: nat)
    requires m > 0 && a / m == b / m && a % m == b % m
    ensures a == b
  {
  }

  // ----------------------------------------------------------------- level bars

  /** Unsigned arithmetic: a negative left edge wraps before it is drawn. */
  function Wrapped(x: int): nat {
    x % TWO64
  }

  /** One drawn rectangle, from the left edge `x0` of the padding and the top of the tile. */
  function Rectangle(x0: int, y0: int, w: nat, h: nat, i: nat, j: nat): Rect {
    Rect(Wrapped(x0 + w + w * j + w / 2 * j), Wrapped(y0 + h + h * i), w, h)
  }

  /** The bar of step `i` (even, counted in half chunks) and channel `j` of a tile. */
  function Bar(tile: Rect, rightPadding: nat, i: nat, j: nat): Rect {
    var w := rightPadding / (2 * CHANNELS);
    var h := tile.height / (COUNT_CHUNKS * 2);
    var x0 := tile.x + tile.width - rightPadding;
    Rectangle(x0, tile.y, w, h, i, j)
  }

  predicate BarOf(i: nat, j: nat) {
    i < COUNT_CHUNKS * 2 && i % 2 == 0 && j < CHANNELS
  }

  predicate FitsInt(tile: Rect) {
    0 <= tile.x && 0 <= tile.y && tile.x + tile.width <= INT_MAX && tile.y + tile.height <= INT_MAX
  }

  lemma WrappedIs(x: int)
    requires 0 - TWO64 <= x < TWO64
    ensures Wrapped(x) == if x >= 0 then x else x + TWO64
  {
  }

  lemma ChannelOffset(w: nat, j: nat)
    requires j < CHANNELS
    ensures w * j + w / 2 * j == if j == 0 then 0 else w + w / 2
  {
  }

  lemma StepOffset(h: nat, i: nat)
    requires i <= 2 * COUNT_CHUNKS - 2
    ensures 0 <= h * i <= 18 * h
  {
    assert h * i <= h * 18;
  }

  /** Where a bar is when nothing wraps. */
  lemma BarPlace(tile: Rect, rightPadding: nat, i: nat, j: nat)
    requires FitsInt(tile) && rightPadding <= INT_MAX && BarOf(i, j)
    ensures var b := Bar(tile, rightPadding, i, j);
            var w := rightPadding / 4;
            var x := tile.x + tile.width - rightPadding + w + (if j == 0 then 0 else w + w / 2);
            && b.width == w && b.height == tile.height / 20
            && b.x == (if x >= 0 then x else x + TWO64)
            && b.y == tile.y + b.height + b.height * i
  {
    var w, h := rightPadding / 4, tile.height / 20;
    ChannelOffset(w, j);
    StepOffset(h, i);
    WrappedIs(tile.x + tile.width - rightPadding + w + w * j + w / 2 * j);
    WrappedIs(tile.y + h + h * i);
  }

  /**
    All the bars of a tile lie inside it exactly when three quarters of the padding, rounded up, fit its
    width; a padding up to the tile's width always does.
  */
  lemma BarsAreInTileIff(tile: Rect, rightPadding: nat)
    requires FitsInt(tile) && rightPadding <= INT_MAX
    ensures (forall i, j :: BarOf(i, j) ==> Bar(tile, rightPadding, i, j).Inside(tile))
            <==> rightPadding - rightPadding / 4 <= tile.width
    ensures rightPadding <= tile.width ==> rightPadding - rightPadding / 4 <= tile.width
  {
    hide Bar;
    if rightPadding - rightPadding / 4 <= tile.width {
      forall i, j | BarOf(i, j)
        ensures Bar(tile, rightPadding, i, j).Inside(tile)
      {
        BarPlace(tile, rightPadding, i, j);
        StepOffset(tile.height / 20, i);
      }
    } else {
      BarPlace(tile, rightPadding, 0, 0);
      assert BarOf(0, 0);
    }
  }

  /** No two bars of a tile share a pixel. */
  lemma BarsAreDisjoint(tile: Rect, rightPadding: nat, i: nat, j: nat, i': nat, j': nat, px: int, py: int)
    requires FitsInt(tile) && rightPadding <= INT_MAX && BarOf(i, j) && BarOf(i', j')
    requires Bar(tile, rightPadding, i, j).Has(px, py) && Bar(tile, rightPadding, i', j').Has(px, py)
    ensures i == i' && j == j'
  {
    hide Bar;
    BarPlace(tile, rightPadding, i, j);
    BarPlace(tile, rightPadding, i', j');
    var h := tile.height / 20;
    if i < i' {
      StepApart(h, i, i');
    } else if i' < i {
      StepApart(h, i', i);
    }
  }

  lemma StepApart(h: nat, a: nat, b: nat)
    requires a + 1 <= b
    ensures h * a + h <= h * b
  {
    NextMultiple(a, h);
    ScaleMonotone(a + 1, b, h);
    assert h * a == a * h && h * b == b * h;
  }

  /** The drawing loops of one frame; a screen without an extent draws nothing. */
  method HandleCairoDraw(screen: (nat, nat), tiles: seq<Rect>, rightPadding: nat) returns (drawn: seq<Rect>)
    ensures |drawn| == if screen.0 == 0 || screen.1 == 0 then 0 else 20 * |tiles|
    ensures drawn != [] ==> forall t, i, j :: 0 <= t < |tiles| && BarOf(i, j) ==>
                              drawn[20 * t + i + j] == Bar(tiles[t], rightPadding, i, j)
  {
    drawn := [];
    if screen.0 == 0 || screen.1 == 0 {
      return;
    }
    for t := 0 to |tiles|
      invariant |drawn| == 20 * t
      invariant forall t', i, j :: 0 <= t' < t && BarOf(i, j) ==> drawn[20 * t' + i + j] == Bar(tiles[t'], rightPadding, i, j)
    {
      var bars := DrawTile(tiles[t], rightPadding);
      ghost var before := drawn;
      drawn := drawn + bars;
      forall t', i, j | 0 <= t' < t + 1 && BarOf(i, j)
        ensures drawn[20 * t' + i + j] == Bar(tiles[t'], rightPadding, i, j)
      {
        if t' < t {
          assert drawn[20 * t' + i + j] == before[20 * t' + i + j];
        } else {
          assert drawn[20 * t + i + j] == bars[i + j];
        }
      }
    }
  }

  method DrawTile(tile: Rect, rightPadding: nat) returns (bars: seq<Rect>)
    ensures |bars| == 20 && forall i, j :: BarOf(i, j) ==> bars[i + j] == Bar(tile, rightPadding, i, j)
  {
    hide Rectangle;
    var w := rightPadding / (2 * CHANNELS);
    var h := tile.height / (COUNT_CHUNKS * 2);
    var x0 := tile.x + tile.width - rightPadding;
    bars := [];
    var i := 0;
    while i < COUNT_CHUNKS * 2
      invariant i <= 20 && i % 2 == 0 && |bars| == i
      invariant forall i': nat, j: nat :: i' < i && BarOf(i', j) ==> bars[i' + j] == Bar(tile, rightPadding, i', j)
    {
      for j := 0 to CHANNELS
        invariant |bars| == i + j
        invariant forall i': nat, j': nat :: i' < i && BarOf(i', j') ==> bars[i' + j'] == Bar(tile, rightPadding, i', j')
        invariant forall j': nat :: j' < j ==> bars[i + j'] == Bar(tile, rightPadding, i, j')
      {
        bars := bars + [Rectangle(x0, tile.y, w, h, i, j)];
      }
      i := i + 2;
    }
  }
}
