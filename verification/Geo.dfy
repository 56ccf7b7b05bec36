/**
 The equal-size grid: a cell's packed key and its centre both determine the cell, except in a last
 row that starts above 89.999999 degrees.
 */
module Geo {
  import opened Basics

  const TWO_31 := 0x8000_0000
  const TWO_32 := 0x1_0000_0000

  newtype int32 = x: int | -0x8000_0000 <= x < 0x8000_0000
  newtype uint64 = x: int | 0 <= x < 0x1_0000_0000_0000_0000

  datatype Cell = Cell(row: int32, col: int32)

  // ---------------------------------------------------------------------
  // Packed keys
  // ---------------------------------------------------------------------

  /** Conversion of a signed 32-bit integer to unsigned: negative values wrap. */
  function ToUnsigned(x: int32): (r: nat)
    ensures r < TWO_32
  {
    if x < 0 then x as int + TWO_32 else x as int
  }

  /** Conversion of the low 32 bits back to a signed integer. */
  function ToSigned(x: nat): int32 {
    var low := x % TWO_32;
    if low < TWO_31 then low as int32 else (low - TWO_32) as int32
  }

  /** Row in the high half, column in the low half. */
  function Key(c: Cell): uint64 {
    (ToUnsigned(c.row) * TWO_32 + ToUnsigned(c.col)) as uint64
  }

  function CellFromKey(k: uint64): Cell {
    Cell(ToSigned(k as int / TWO_32), ToSigned(k as int))
  }

  /** Keys and cells are in bijection over all 32-bit pairs and all 64-bit keys. */
  lemma KeyRoundTrip(c: Cell, k: uint64)
    ensures CellFromKey(Key(c)) == c
    ensures Key(CellFromKey(k)) == k
  {
    var r, l := ToUnsigned(c.row), ToUnsigned(c.col);
    assert (r * TWO_32 + l) / TWO_32 == r && (r * TWO_32 + l) % TWO_32 == l;
    assert k as int == (k as int / TWO_32) * TWO_32 + k as int % TWO_32;
  }

  lemma KeyInjective(c: Cell, d: Cell)
    requires Key(c) == Key(d)
    ensures c == d
  {
    KeyRoundTrip(c, Key(c));
    KeyRoundTrip(d, Key(d));
  }

  // ---------------------------------------------------------------------
  // The grid
  // ---------------------------------------------------------------------

  /** dLat is the latitude height of a row; cols gives each row's number of columns. */
  datatype Grid = Grid(dLat: real, cols: int32 -> int32)

  function Floor(x: real): int { x.Floor }

  /** Rows fit 32 bits and every row has at least one column. */
  ghost predicate ValidGrid(g: Grid) {
    g.dLat > 0.0 && 180.0 / g.dLat <= (TWO_31 - 1) as real && forall r :: g.cols(r) >= 1
  }

  function Rows(g: Grid): int32
    requires ValidGrid(g)
  {
    CeilBounds(180.0 / g.dLat, TWO_31 - 1);
    Ceil(180.0 / g.dLat) as int32
  }

  lemma CeilBounds(x: real, n: int)
    requires 0.0 <= x <= n as real
    ensures 0 <= Ceil(x) <= n && Ceil(x) as real >= x && Ceil(x) as real < x + 1.0
    ensures x > 0.0 ==> Ceil(x) > 0
  {
  }

  /** Truncated remainder: the sign follows the dividend. */
  function Mod(x: real, y: real): real
    requires y > 0.0
  {
    if x >= 0.0 then x - Floor(x / y) as real * y else -((-x) - Floor((-x) / y) as real * y)
  }

  function Valid(g: Grid, c: Cell): bool
    requires ValidGrid(g)
  {
    0 <= c.row < Rows(g) && 0 <= c.col < g.cols(c.row)
  }

  /** k steps of size d. */
  function Steps(k: real, d: real): real { k * d }

  lemma StepsOrder(a: real, b: real, d: real)
    requires d > 0.0
    ensures a <= b <==> Steps(a, d) <= Steps(b, d)
    ensures a < b <==> Steps(a, d) < Steps(b, d)
    ensures Steps(0.0, d) == 0.0
  {
    if a < b {
      ProductPositive(b - a, d);
      assert (b - a) * d == b * d - a * d;
    } else if b < a {
      ProductPositive(a - b, d);
      assert (a - b) * d == a * d - b * d;
    }
  }

  lemma StepsDivide(a: real, d: real)
    requires d > 0.0
    ensures Steps(a, d) / d == a && Steps(a / d, d) == a
  {
  }

  function Center(g: Grid, c: Cell): (real, real)
    requires ValidGrid(g)
  {
    (-90.0 + Steps(c.row as real + 0.5, g.dLat), -180.0 + Steps(c.col as real + 0.5, 360.0 / g.cols(c.row) as real))
  }

  /** The row of a latitude, clamped to the grid. */
  function RowOf(g: Grid, lat0: real): (r: int32)
    requires ValidGrid(g)
    ensures 0 <= r < Rows(g)
  {
    var lat := if lat0 >= 90.0 then 89.999999 else if lat0 < -90.0 then -90.0 else lat0;
    var q := (lat + 90.0) / g.dLat;
    RowBounds(g, lat);
    var max := Rows(g) - 1;
    var row := Floor(q) as int32;
    if row > max then max else row
  }

  lemma RowBounds(g: Grid, lat: real)
    requires ValidGrid(g) && -90.0 <= lat < 90.0
    ensures 0.0 <= (lat + 90.0) / g.dLat < 180.0 / g.dLat
    ensures Rows(g) >= 1
  {
    var u := 1.0 / g.dLat;
    assert u > 0.0;
    assert (lat + 90.0) / g.dLat == (lat + 90.0) * u && 180.0 / g.dLat == 180.0 * u;
    assert (lat + 90.0) * u >= 0.0;
    assert (90.0 - lat) * u > 0.0;
    CeilBounds(180.0 / g.dLat, TWO_31 - 1);
  }

  /** The column of a longitude among n, wrapped and clamped. */
  function ColOf(n: int32, lng0: real): (r: int32)
    requires n >= 1
    ensures 0 <= r < n
  {
    var lng := Mod(lng0 + 540.0, 360.0) - 180.0;
    var q := Floor((lng + 180.0) / (360.0 / n as real));
    if q >= n as int then n - 1 else if q < 0 then 0 else q as int32
  }

  /** Every latitude and longitude lands in a valid cell. */
  function CellOf(g: Grid, lat: real, lng: real): (c: Cell)
    requires ValidGrid(g)
    ensures Valid(g, c)
  {
    var row := RowOf(g, lat);
    Cell(row, ColOf(g.cols(row), lng))
  }

  /** A longitude inside the circle survives the wrap-around. */
  lemma WrapInside(x: real)
    requires 0.0 < x < 360.0
    ensures Mod(-180.0 + x + 540.0, 360.0) == x
  {
    assert Floor((x + 360.0) / 360.0) == 1;
  }

  lemma ColumnRestored(n: int32, col: int32)
    requires n >= 1 && 0 <= col < n
    ensures ColOf(n, -180.0 + Steps(col as real + 0.5, 360.0 / n as real)) == col
  {
    var m, w := col as real + 0.5, 360.0 / n as real;
    assert w > 0.0;
    StepsOrder(0.0, m, w);
    StepsOrder(m, n as real, w);
    StepsDivide(m, w);
    assert Steps(n as real, w) == 360.0;
    WrapInside(Steps(m, w));
    assert Floor(m) == col as int;
    hide Mod, Steps;
  }

  lemma RowRestored(g: Grid, row: int32)
    requires ValidGrid(g) && 0 <= row < Rows(g)
    requires Steps(row as real + 0.5, g.dLat) < 180.0
    ensures RowOf(g, -90.0 + Steps(row as real + 0.5, g.dLat)) == row
  {
    var m := row as real + 0.5;
    StepsOrder(0.0, m, g.dLat);
    StepsDivide(m, g.dLat);
    assert Floor(m) == row as int;
    hide Steps, Rows;
  }

  /** The last row keeps its own centre unless that centre is past the pole and the row starts above 89.999999. */
  predicate LastRowKept(g: Grid)
    requires ValidGrid(g)
  {
    var last := (Rows(g) - 1) as real;
    Steps(last + 0.5, g.dLat) < 180.0 || Steps(last, g.dLat) <= 179.999999
  }

  /** The last row begins below the pole and ends at or beyond it. */
  lemma LastRowSpan(g: Grid)
    requires ValidGrid(g)
    ensures Rows(g) >= 1
    ensures Steps((Rows(g) - 1) as real, g.dLat) < 180.0 <= Steps(Rows(g) as real, g.dLat)
  {
    RowBounds(g, 0.0);
    var x := 180.0 / g.dLat;
    CeilBounds(x, TWO_31 - 1);
    StepsDivide(180.0, g.dLat);
    StepsOrder((Rows(g) - 1) as real, x, g.dLat);
    StepsOrder(x, Rows(g) as real, g.dLat);
  }

  /** A centre past the pole is looked up at 89.999999. */
  lemma ClampedRow(g: Grid)
    requires ValidGrid(g) && Rows(g) >= 1 && Steps((Rows(g) - 1) as real + 0.5, g.dLat) >= 180.0
    ensures RowOf(g, -90.0 + Steps((Rows(g) - 1) as real + 0.5, g.dLat)) == Rows(g) - 1
            <==> Steps((Rows(g) - 1) as real, g.dLat) <= 179.999999
  {
    var last := (Rows(g) - 1) as real;
    var q := (89.999999 + 90.0) / g.dLat;
    LastRowSpan(g);
    StepsDivide(179.999999, g.dLat);
    StepsOrder(last, q, g.dLat);
    StepsOrder(q, last + 1.0, g.dLat);
    assert Rows(g) as real == last + 1.0;
    hide Steps, Rows;
    assert q < last + 1.0;
    assert last <= q ==> Floor(q) == last.Floor;
    assert q < last ==> Floor(q) < last.Floor;
  }

  lemma LastRowExactly(g: Grid)
    requires ValidGrid(g)
    ensures Rows(g) >= 1
    ensures RowOf(g, -90.0 + Steps((Rows(g) - 1) as real + 0.5, g.dLat)) == Rows(g) - 1 <==> LastRowKept(g)
  {
    LastRowSpan(g);
    hide Steps, RowOf, Rows;
    if Steps((Rows(g) - 1) as real + 0.5, g.dLat) < 180.0 {
      RowRestored(g, Rows(g) - 1);
    } else {
      ClampedRow(g);
    }
  }

  /** Every cell is restored from its centre, on every row below the last without condition. */
  lemma CenterRoundTrip(g: Grid, c: Cell)
    requires ValidGrid(g) && Valid(g, c)
    requires c.row < Rows(g) - 1 || LastRowKept(g)
    ensures CellOf(g, Center(g, c).0, Center(g, c).1) == c
  {
    hide Steps, RowOf, ColOf, Rows;
    LastRowExactly(g);
    if c.row < Rows(g) - 1 {
      LastRowSpan(g);
      StepsOrder(c.row as real + 0.5, (Rows(g) - 1) as real, g.dLat);
      RowRestored(g, c.row);
    }
    ColumnRestored(g.cols(c.row), c.col);
  }

  /** Exactly when importing a cell by its centre is faithful for the whole grid. */
  lemma CenterRoundTripExactly(g: Grid)
    requires ValidGrid(g)
    ensures (forall c :: Valid(g, c) ==> CellOf(g, Center(g, c).0, Center(g, c).1) == c) <==> LastRowKept(g)
  {
    hide Steps, RowOf, ColOf, Rows;
    LastRowExactly(g);
    if LastRowKept(g) {
      forall c | Valid(g, c) ensures CellOf(g, Center(g, c).0, Center(g, c).1) == c { CenterRoundTrip(g, c); }
    } else {
      var c := Cell(Rows(g) - 1, 0);
      assert Valid(g, c) && CellOf(g, Center(g, c).0, Center(g, c).1).row != c.row;
    }
  }

  /** n rows of height 179.9999995 / n leave a sliver below the pole, which becomes a row of its own. */
  lemma SliverRow(n: int, d: real)
    requires 1 <= n <= 100_000_000 && d == 179.9999995 / n as real
    ensures d > 0.000001
    ensures Steps(n as real, d) == 179.9999995 && 180.0 <= Steps((n + 1) as real, d)
            && 180.0 <= Steps(n as real + 0.5, d)
  {
    var m := n as real;
    assert m * d == 179.9999995;
    var e := 0.000001 - d;
    assert m * e == m * 0.000001 - m * d;
    if e >= 0.0 { ProductNotNegative(m, e); }
  }

  /** For any number of rows there is a valid grid whose last row does not keep its centres. */
  lemma LastRowLost(n: int, cols: int32 -> int32) returns (g: Grid, c: Cell)
    requires 1 <= n <= 100_000_000 && forall r :: cols(r) >= 1
    ensures g == Grid(179.9999995 / n as real, cols) && c.row as int == n && c.col == 0
    ensures ValidGrid(g) && Rows(g) as int == n + 1 && !LastRowKept(g)
    ensures Valid(g, c) && CellOf(g, Center(g, c).0, Center(g, c).1) != c
  {
    hide Steps, RowOf, ColOf, Rows;
    var d := 179.9999995 / n as real;
    g, c := Grid(d, cols), Cell(n as int32, 0);
    SliverRow(n, d);
    StepsDivide(180.0, d);
    StepsOrder(180.0 / d, (n + 1) as real, d);
    LastRowSpan(g);
    StepsOrder(n as real, Rows(g) as real, d);
    StepsOrder((Rows(g) - 1) as real, (n + 1) as real, d);
    LastRowExactly(g);
  }
}
