/** A model of the token layout engine of the Owlbear Rodeo extension: given a token
    count and a scene type it produces one pixel position per token, and it converts
    between grid cells and pixel coordinates. The engine keeps no state: its class holds
    three read-only grid constants, which become module constants here. */
module SceneBuilder {

  /** Grid cell size in pixels. */
  const GridSize: int := 140
  /** Grid extent in cells; the engine never clamps a position to it. */
  const GridCols: int := 40
  const GridRows: int := 30

  /** A point in pixel space. */
  datatype Position = Position(x: real, y: real)

  /** A cell of the logical grid. */
  datatype GridCell = GridCell(gridX: int, gridY: int)

  function Sq(r: real): real { r * r }

  /* ---------------------------------------------------------------------------
     Coordinate helpers
     ------------------------------------------------------------------------- */

  /** The centre of cell (gridX, gridY): strictly inside the cell, equally far from
      its left and right edges, and from its top and bottom edges. */
  function GridToPixels(gridX: int, gridY: int): (p: Position)
    ensures (gridX * GridSize) as real < p.x < ((gridX + 1) * GridSize) as real
    ensures (gridY * GridSize) as real < p.y < ((gridY + 1) * GridSize) as real
    ensures p.x - (gridX * GridSize) as real == ((gridX + 1) * GridSize) as real - p.x
    ensures p.y - (gridY * GridSize) as real == ((gridY + 1) * GridSize) as real - p.y
  {
    Position((gridX * GridSize) as real + GridSize as real / 2.0,
             (gridY * GridSize) as real + GridSize as real / 2.0)
  }

  /** The cell that contains pixel (x, y): its left edge is at or before x and its
      right edge is after x, and likewise vertically. */
  function PixelsToGrid(x: real, y: real): (c: GridCell)
    ensures (c.gridX * GridSize) as real <= x < ((c.gridX + 1) * GridSize) as real
    ensures (c.gridY * GridSize) as real <= y < ((c.gridY + 1) * GridSize) as real
  {
    GridCell((x / GridSize as real).Floor, (y / GridSize as real).Floor)
  }

  /** Exactly the pixels of the half-open strip [c*S, (c+1)*S) map to column c, and
      likewise for rows; so every pixel of a cell maps back to that one cell. */
  lemma PixelsToGridCell(x: real, y: real, col: int, row: int)
    ensures PixelsToGrid(x, y).gridX == col
            <==> (col * GridSize) as real <= x < ((col + 1) * GridSize) as real
    ensures PixelsToGrid(x, y).gridY == row
            <==> (row * GridSize) as real <= y < ((row + 1) * GridSize) as real
  {
    var c := PixelsToGrid(x, y);
    if (col * GridSize) as real <= x < ((col + 1) * GridSize) as real {
      StripUnique(x, col, c.gridX);
    }
    if (row * GridSize) as real <= y < ((row + 1) * GridSize) as real {
      StripUnique(y, row, c.gridY);
    }
  }

  /** Two half-open strips [a*S, (a+1)*S) that share a point are the same strip. */
  lemma StripUnique(v: real, a: int, b: int)
    requires (a * GridSize) as real <= v < ((a + 1) * GridSize) as real
    requires (b * GridSize) as real <= v < ((b + 1) * GridSize) as real
    ensures a == b
  {
    assert a * GridSize < (b + 1) * GridSize && b * GridSize < (a + 1) * GridSize;
  }

  /** Taking the centre of a cell and asking which cell contains it gives the cell back. */
  lemma GridRoundTrip(gridX: int, gridY: int)
    ensures PixelsToGrid(GridToPixels(gridX, gridY).x, GridToPixels(gridX, gridY).y)
            == GridCell(gridX, gridY)
  {
    var p := GridToPixels(gridX, gridY);
    PixelsToGridCell(p.x, p.y, gridX, gridY);
  }

  /** The other round trip loses the offset inside the cell: two different pixels of
      one cell go to the same centre. */
  lemma PixelRoundTripIsLossy()
    ensures PixelsToGrid(0.0, 0.0) == PixelsToGrid(139.0, 139.0) == GridCell(0, 0)
    ensures GridToPixels(0, 0) == Position(70.0, 70.0)
  {
    PixelsToGridCell(0.0, 0.0, 0, 0);
    PixelsToGridCell(139.0, 139.0, 0, 0);
  }

  /* ---------------------------------------------------------------------------
     Dungeon layout: a 6-wide grid anchored at (5S, 5S) with pitch 3S
     ------------------------------------------------------------------------- */

  /** Position of token i in the dungeon layout. */
  function DungeonAt(i: nat): Position
  {
    Position((GridSize * 5 + (i % 6) * GridSize * 3) as real,
             (GridSize * 5 + (i / 6) * GridSize * 3) as real)
  }

  predicate IsDungeonLayout(ps: seq<Position>, count: nat)
  {
    |ps| == count && forall k :: 0 <= k < count ==> ps[k] == DungeonAt(k)
  }

  method GenerateDungeonLayout(count: nat) returns (positions: seq<Position>)
    ensures IsDungeonLayout(positions, count)
  {
    positions := [];
    var startX := GridSize * 5;
    var startY := GridSize * 5;
    for i := 0 to count
      invariant |positions| == i
      invariant forall k :: 0 <= k < i ==> positions[k] == DungeonAt(k)
    {
      positions := positions + [Position((startX + (i % 6) * GridSize * 3) as real,
                                         (startY + (i / 6) * GridSize * 3) as real)];
    }
  }

  /** Token i sits at column i mod 6 and row i div 6 of a grid with corner (700, 700)
      and pitch 420; every x lies in [700, 2800]. */
  lemma DungeonCoordinates(ps: seq<Position>, count: nat, i: nat)
    requires IsDungeonLayout(ps, count)
    requires i < count
    ensures ps[i] == Position((700 + (i % 6) * 420) as real, (700 + (i / 6) * 420) as real)
    ensures 700.0 <= ps[i].x <= 2800.0
  {
    assert ps[i] == DungeonAt(i);
  }

  /** Within a row of six, the next token is 3S to the right on the same row; after
      the sixth, the next row starts 3S lower at the left edge. */
  lemma DungeonRowStep(ps: seq<Position>, count: nat, i: nat)
    requires IsDungeonLayout(ps, count)
    requires i + 1 < count
    ensures i % 6 != 5 ==> ps[i + 1] == Position(ps[i].x + 420.0, ps[i].y)
    ensures i % 6 == 5 ==> ps[i + 1] == Position(700.0, ps[i].y + 420.0)
  {
    assert ps[i] == DungeonAt(i) && ps[i + 1] == DungeonAt(i + 1);
    if i % 6 != 5 {
      assert (i + 1) % 6 == i % 6 + 1 && (i + 1) / 6 == i / 6;
    } else {
      assert (i + 1) % 6 == 0 && (i + 1) / 6 == i / 6 + 1;
    }
  }

  /** No two tokens of a dungeon layout share a position. */
  lemma DungeonDistinct(ps: seq<Position>, count: nat)
    requires IsDungeonLayout(ps, count)
    ensures forall i, j :: 0 <= i < j < count ==> ps[i] != ps[j]
  {
    forall i, j | 0 <= i < j < count
      ensures ps[i] != ps[j]
    {
      assert ps[i] == DungeonAt(i) && ps[j] == DungeonAt(j);
      RowMajorDistinct(i, j, 6);
    }
  }

  /** Distinct indices of a row-major grid of the given width differ in column or row. */
  lemma RowMajorDistinct(i: nat, j: nat, width: nat)
    requires width > 0 && i != j
    ensures i % width != j % width || i / width != j / width
  {
    assert i == (i / width) * width + i % width;
    assert j == (j / width) * width + j % width;
  }

  /** Positions are never clamped to the canvas: with 55 tokens or more the 55th
      already lies below the bottom edge of the 30-row grid. */
  lemma DungeonOverflowsCanvas(ps: seq<Position>, count: nat)
    requires IsDungeonLayout(ps, count)
    requires count >= 55
    ensures ps[54].y > (GridRows * GridSize) as real
  {
    assert ps[54] == DungeonAt(54);
  }

  /** The dungeon layout is a function of the count alone. */
  lemma DungeonDeterministic(ps: seq<Position>, qs: seq<Position>, count: nat)
    requires IsDungeonLayout(ps, count) && IsDungeonLayout(qs, count)
    ensures ps == qs
  {
  }

  /* ---------------------------------------------------------------------------
     Default layout: a square-ish grid of ceil(sqrt(count)) columns anchored at
     (10S, 10S) with pitch 2S
     ------------------------------------------------------------------------- */

  /** The least c with c*c >= n, searched upwards from a c whose predecessor is
      already too small. */
  function CeilSqrtFrom(n: nat, c: nat): (r: nat)
    requires c == 0 || (c - 1) * (c - 1) < n
    ensures r * r >= n
    ensures r == 0 || (r - 1) * (r - 1) < n
    decreases n - c
  {
    if c * c >= n then c
    else
      assert c <= c * c;
      CeilSqrtFrom(n, c + 1)
  }

  /** Exact integer ceiling of the square root: the least c with c*c >= n. */
  function CeilSqrt(n: nat): (c: nat)
    ensures c * c >= n
    ensures c == 0 || (c - 1) * (c - 1) < n
  {
    CeilSqrtFrom(n, 0)
  }

  /** CeilSqrt(n) is below every d whose square reaches n. */
  lemma CeilSqrtLeast(n: nat, d: nat)
    requires d * d >= n
    ensures CeilSqrt(n) <= d
  {
    var c := CeilSqrt(n);
    if c > 0 {
      SquareLess(c - 1, d);
    }
  }

  /** Squares of naturals preserve strict order backwards. */
  lemma SquareLess(a: nat, b: nat)
    requires a * a < b * b
    ensures a < b
  {
    if b <= a {
      MulMono(b, a);
    }
  }

  lemma MulMono(a: nat, b: nat)
    requires a <= b
    ensures a * a <= b * b
  {
    assert a * a <= a * b <= b * b;
  }

  /** Position of token i in the default layout of count tokens. */
  function DefaultAt(count: nat, i: nat): Position
    requires i < count
  {
    var cols := CeilSqrt(count);
    Position((GridSize * 10 + (i % cols) * GridSize * 2) as real,
             (GridSize * 10 + (i / cols) * GridSize * 2) as real)
  }

  predicate IsDefaultLayout(ps: seq<Position>, count: nat)
  {
    |ps| == count && forall k :: 0 <= k < count ==> ps[k] == DefaultAt(count, k)
  }

  method GenerateDefaultLayout(count: nat) returns (positions: seq<Position>)
    ensures IsDefaultLayout(positions, count)
  {
    positions := [];
    var cols := CeilSqrt(count);
    var startX := GridSize * 10;
    var startY := GridSize * 10;
    for i := 0 to count
      invariant |positions| == i
      invariant forall k :: 0 <= k < i ==> positions[k] == DefaultAt(count, k)
    {
      positions := positions + [Position((startX + (i % cols) * GridSize * 2) as real,
                                         (startY + (i / cols) * GridSize * 2) as real)];
    }
  }

  /** Token i of the default layout sits at column i mod cols and row i div cols of a
      grid with corner (1400, 1400) and pitch 280, where cols = ceil(sqrt(count)). */
  lemma DefaultCoordinates(ps: seq<Position>, count: nat, i: nat)
    requires IsDefaultLayout(ps, count)
    requires i < count
    ensures ps[i] == Position((1400 + (i % CeilSqrt(count)) * 280) as real,
                              (1400 + (i / CeilSqrt(count)) * 280) as real)
  {
    assert ps[i] == DefaultAt(count, i);
  }

  /** Every token of the default layout lies in the cols-by-cols block of cells with
      corner (1400, 1400) and pitch 280. */
  lemma DefaultSquare(ps: seq<Position>, count: nat, i: nat)
    requires IsDefaultLayout(ps, count)
    requires i < count
    ensures 1400.0 <= ps[i].x <= (1400 + (CeilSqrt(count) - 1) * 280) as real
    ensures 1400.0 <= ps[i].y <= (1400 + (CeilSqrt(count) - 1) * 280) as real
  {
    var cols := CeilSqrt(count);
    var col, row := i % cols, i / cols;
    DefaultCoordinates(ps, count, i);
    DivBelow(i, cols, cols);
    assert 0 <= col <= cols - 1 && 0 <= row <= cols - 1;
    assert col * 280 <= (cols - 1) * 280 && row * 280 <= (cols - 1) * 280;
  }

  /** The default layout is square-ish: count tokens in rows of cols = ceil(sqrt(count))
      fill either cols - 1 or cols rows. */
  lemma DefaultRowCount(count: nat)
    requires count > 0
    ensures var cols := CeilSqrt(count);
            var rows := (count + cols - 1) / cols;
            cols - 1 <= rows <= cols
  {
    var cols := CeilSqrt(count);
    var rows := (count + cols - 1) / cols;
    assert count + cols - 1 < (cols + 1) * cols;
    DivBelow(count + cols - 1, cols, cols + 1);
    assert (cols - 1) * cols <= count + cols - 1 by {
      assert (cols - 1) * cols == (cols - 1) * (cols - 1) + (cols - 1);
    }
    DivAtLeast(count + cols - 1, cols, cols - 1);
  }

  /** a < q * c implies a / c < q. */
  lemma DivBelow(a: nat, c: nat, q: nat)
    requires c > 0 && a < q * c
    ensures a / c < q
  {
    assert (a / c) * c <= a;
    MulReflectsLess(a / c, q, c);
  }

  /** q * c <= a implies q <= a / c. */
  lemma DivAtLeast(a: nat, c: nat, q: nat)
    requires c > 0 && q * c <= a
    ensures q <= a / c
  {
    assert a < (a / c + 1) * c;
    MulReflectsLess(q, a / c + 1, c);
  }

  /** Multiplication by a positive factor reflects strict order. */
  lemma MulReflectsLess(x: nat, y: nat, c: nat)
    requires c > 0 && x * c < y * c
    ensures x < y
  {
    assert (y - x) * c == y * c - x * c;
  }

  /** No two tokens of a default layout share a position. */
  lemma DefaultDistinct(ps: seq<Position>, count: nat)
    requires IsDefaultLayout(ps, count)
    ensures forall i, j :: 0 <= i < j < count ==> ps[i] != ps[j]
  {
    forall i, j | 0 <= i < j < count
      ensures ps[i] != ps[j]
    {
      assert ps[i] == DefaultAt(count, i) && ps[j] == DefaultAt(count, j);
      RowMajorDistinct(i, j, CeilSqrt(count));
    }
  }

  /** Nine tokens form a 3-by-3 block. */
  lemma DefaultNine(ps: seq<Position>)
    requires IsDefaultLayout(ps, 9)
    ensures CeilSqrt(9) == 3
    ensures ps == [Position(1400.0, 1400.0), Position(1680.0, 1400.0), Position(1960.0, 1400.0),
                   Position(1400.0, 1680.0), Position(1680.0, 1680.0), Position(1960.0, 1680.0),
                   Position(1400.0, 1960.0), Position(1680.0, 1960.0), Position(1960.0, 1960.0)]
  {
    CeilSqrtLeast(9, 3);
    var c := CeilSqrt(9);
    assert c >= 3 by {
      if c < 3 { MulMono(c, 2); }
    }
  }

  /* ---------------------------------------------------------------------------
     Encounter layout: the first floor(count/2) tokens in a 2-wide party column at
     x = 5S, the rest in a 3-wide enemy column at x = 35S, both centred on row 15
     ------------------------------------------------------------------------- */

  /** Centre row of the canvas, in pixels. */
  function CenterY(): real { (GridRows as real / 2.0) * GridSize as real }

  /** Position of party token i among half party tokens. */
  function PartyAt(half: nat, i: nat): Position
  {
    Position((GridSize * 5 + (i % 2) * GridSize * 2) as real,
             CenterY() + ((i / 2) as real - half as real / 4.0) * (GridSize * 2) as real)
  }

  /** Position of enemy token j among enemies enemy tokens. */
  function EnemyAt(enemies: nat, j: nat): Position
  {
    Position((GridSize * 35 + (j % 3) * GridSize * 2) as real,
             CenterY() + ((j / 3) as real - enemies as real / 6.0) * (GridSize * 2) as real)
  }

  /** Position of token i in the encounter layout of count tokens. */
  function EncounterAt(count: nat, i: nat): Position
    requires i < count
  {
    var half := count / 2;
    if i < half then PartyAt(half, i) else EnemyAt(count - half, i - half)
  }

  predicate IsEncounterLayout(ps: seq<Position>, count: nat)
  {
    |ps| == count && forall k :: 0 <= k < count ==> ps[k] == EncounterAt(count, k)
  }

  method GenerateEncounterLayout(count: nat) returns (positions: seq<Position>)
    ensures IsEncounterLayout(positions, count)
  {
    positions := [];
    var leftX := GridSize * 5;
    var rightX := GridSize * 35;
    var centerY := (GridRows as real / 2.0) * GridSize as real;
    var halfCount := count / 2;
    for i := 0 to halfCount
      invariant |positions| == i
      invariant forall k :: 0 <= k < i ==> positions[k] == EncounterAt(count, k)
    {
      positions := positions + [Position(
        (leftX + (i % 2) * GridSize * 2) as real,
        centerY + ((i / 2) as real - halfCount as real / 4.0) * (GridSize * 2) as real)];
    }
    for i := 0 to count - halfCount
      invariant |positions| == halfCount + i
      invariant forall k :: 0 <= k < halfCount + i ==> positions[k] == EncounterAt(count, k)
    {
      positions := positions + [Position(
        (rightX + (i % 3) * GridSize * 2) as real,
        centerY + ((i / 3) as real - (count - halfCount) as real / 6.0) * (GridSize * 2) as real)];
    }
  }

  /** The formation of the encounter layout, with half = floor(count/2): party tokens
      alternate between x = 700 and x = 980 and fill rows of two; enemy token j = i - half
      cycles through x = 4900, 5180, 5460 and fills rows of three; both columns are
      shifted up from y = 2100 by a quarter of the party size resp. a sixth of the enemy
      count, in pitches of 280. */
  lemma EncounterFormation(ps: seq<Position>, count: nat, i: nat)
    requires IsEncounterLayout(ps, count)
    requires i < count
    ensures i < count / 2 ==>
      ps[i].x == (if i % 2 == 0 then 700.0 else 980.0) &&
      ps[i].y == 2100.0 + ((i / 2) as real - (count / 2) as real / 4.0) * 280.0
    ensures i >= count / 2 ==>
      var j := i - count / 2;
      ps[i].x == (if j % 3 == 0 then 4900.0 else if j % 3 == 1 then 5180.0 else 5460.0) &&
      ps[i].y == 2100.0 + ((j / 3) as real - (count - count / 2) as real / 6.0) * 280.0
  {
    assert ps[i] == EncounterAt(count, i);
  }

  /** Party tokens come first: token i is in the left column (x below the canvas
      centre 2800) exactly when i < floor(count/2). */
  lemma EncounterPartyFirst(ps: seq<Position>, count: nat, i: nat)
    requires IsEncounterLayout(ps, count)
    requires i < count
    ensures ps[i].x < (GridCols / 2 * GridSize) as real <==> i < count / 2
  {
    EncounterFormation(ps, count, i);
  }

  /** No two tokens of an encounter layout share a position. */
  lemma EncounterDistinct(ps: seq<Position>, count: nat)
    requires IsEncounterLayout(ps, count)
    ensures forall i, j :: 0 <= i < j < count ==> ps[i] != ps[j]
  {
    var half := count / 2;
    forall i, j | 0 <= i < j < count
      ensures ps[i] != ps[j]
    {
      assert ps[i] == EncounterAt(count, i) && ps[j] == EncounterAt(count, j);
      if j < half {
        RowMajorDistinct(i, j, 2);
      } else if half <= i {
        RowMajorDistinct(i - half, j - half, 3);
      } else {
        assert ps[i].x <= 980.0 < 4900.0 <= ps[j].x;
      }
    }
  }

  /** Seven tokens: three party tokens then four enemies, with the party alternating
      between 5S and 7S and the enemies cycling through 35S, 37S, 39S. */
  lemma EncounterSeven(ps: seq<Position>)
    requires IsEncounterLayout(ps, 7)
    ensures [ps[0].x, ps[1].x, ps[2].x, ps[3].x, ps[4].x, ps[5].x, ps[6].x]
            == [700.0, 980.0, 700.0, 4900.0, 5180.0, 5460.0, 4900.0]
  {
    assert ps[0] == EncounterAt(7, 0) && ps[1] == EncounterAt(7, 1);
    assert ps[2] == EncounterAt(7, 2) && ps[3] == EncounterAt(7, 3);
    assert ps[4] == EncounterAt(7, 4) && ps[5] == EncounterAt(7, 5);
    assert ps[6] == EncounterAt(7, 6);
  }

  /* ---------------------------------------------------------------------------
     Tavern layout: tokens at evenly spaced angles around the canvas centre, each
     at a random radius between 3S and 8S.
     The random source and the trigonometry are parameters: random(k) is the k-th
     value Math.random returns, and cosTurn(t), sinTurn(t) are the cosine and sine of
     the angle t * 2 * pi, that is, of t full turns.
     ------------------------------------------------------------------------- */

  /** Centre column of the canvas, in pixels. */
  function CenterX(): real { (GridCols as real / 2.0) * GridSize as real }

  /** The angle of token i, in full turns: the tokens split the circle evenly. */
  function TavernTurn(count: nat, i: nat): (t: real)
    requires i < count
    ensures 0.0 <= t < 1.0
    ensures t * count as real == i as real
  {
    i as real / count as real
  }

  /** The radius drawn from one random value u. */
  function TavernRadius(u: real): (r: real)
    ensures 0.0 <= u < 1.0 ==> 3.0 * GridSize as real <= r < 8.0 * GridSize as real
  {
    GridSize as real * (3.0 + u * 5.0)
  }

  /** Position of token i in the tavern layout of count tokens. */
  function TavernAt(count: nat, i: nat, random: nat -> real,
                    cosTurn: real -> real, sinTurn: real -> real): Position
    requires i < count
  {
    var angle := TavernTurn(count, i);
    var radius := TavernRadius(random(i));
    Position(CenterX() + cosTurn(angle) * radius, CenterY() + sinTurn(angle) * radius)
  }

  predicate IsTavernLayout(ps: seq<Position>, count: nat, random: nat -> real,
                           cosTurn: real -> real, sinTurn: real -> real)
  {
    |ps| == count &&
    forall k :: 0 <= k < count ==> ps[k] == TavernAt(count, k, random, cosTurn, sinTurn)
  }

  method GenerateTavernLayout(count: nat, random: nat -> real,
                              cosTurn: real -> real, sinTurn: real -> real)
    returns (positions: seq<Position>)
    ensures IsTavernLayout(positions, count, random, cosTurn, sinTurn)
  {
    positions := [];
    var centerX := (GridCols as real / 2.0) * GridSize as real;
    var centerY := (GridRows as real / 2.0) * GridSize as real;
    for i := 0 to count
      invariant |positions| == i
      invariant forall k :: 0 <= k < i ==>
        positions[k] == TavernAt(count, k, random, cosTurn, sinTurn)
    {
      var angle := i as real / count as real;
      var radius := GridSize as real * (3.0 + random(i) * 5.0);
      positions := positions + [Position(centerX + cosTurn(angle) * radius,
                                         centerY + sinTurn(angle) * radius)];
    }
  }

  /** When the trigonometric parameters lie on the unit circle and every draw lies in
      [0, 1), each tavern token's squared distance from the canvas centre (2800, 2100)
      lies in [(3S)^2, (8S)^2). */
  lemma TavernRing(ps: seq<Position>, count: nat, random: nat -> real,
                   cosTurn: real -> real, sinTurn: real -> real, i: nat)
    requires IsTavernLayout(ps, count, random, cosTurn, sinTurn)
    requires i < count
    requires 0.0 <= random(i) < 1.0
    requires Sq(cosTurn(TavernTurn(count, i))) + Sq(sinTurn(TavernTurn(count, i))) == 1.0
    ensures Sq(3.0 * GridSize as real)
            <= Sq(ps[i].x - CenterX()) + Sq(ps[i].y - CenterY())
            < Sq(8.0 * GridSize as real)
  {
    var t := TavernTurn(count, i);
    var r := TavernRadius(random(i));
    var c, s := cosTurn(t), sinTurn(t);
    assert ps[i] == TavernAt(count, i, random, cosTurn, sinTurn);
    assert ps[i].x - CenterX() == c * r && ps[i].y - CenterY() == s * r;
    calc {
      Sq(c * r) + Sq(s * r);
      (c * c + s * s) * (r * r);
      { assert Sq(c) + Sq(s) == 1.0; }
      r * r;
    }
    SqStrictMono(3.0 * GridSize as real, r);
    SqStrictMono(r, 8.0 * GridSize as real);
  }

  lemma SqStrictMono(a: real, b: real)
    requires 0.0 <= a <= b
    ensures Sq(a) <= Sq(b)
    ensures a < b ==> Sq(a) < Sq(b)
  {
    var d, e := b - a, b + a;
    assert Sq(b) - Sq(a) == d * e;
    if a < b {
      PositiveProduct(d, e);
    }
  }

  lemma PositiveProduct(d: real, e: real)
    requires d > 0.0 && e > 0.0
    ensures d * e > 0.0
  {
  }

  /* ---------------------------------------------------------------------------
     Dispatch
     ------------------------------------------------------------------------- */

  /** A position per token, laid out by scene type: "tavern", "encounter" and
      "dungeon" each have their own layout; every other tag, "outdoor" included, gets
      the default grid. */
  method GeneratePositions(tokenCount: nat, sceneType: string, random: nat -> real,
                           cosTurn: real -> real, sinTurn: real -> real)
    returns (positions: seq<Position>)
    ensures |positions| == tokenCount
    ensures sceneType == "tavern" ==>
      IsTavernLayout(positions, tokenCount, random, cosTurn, sinTurn)
    ensures sceneType == "encounter" ==> IsEncounterLayout(positions, tokenCount)
    ensures sceneType == "dungeon" ==> IsDungeonLayout(positions, tokenCount)
    ensures sceneType != "tavern" && sceneType != "encounter" && sceneType != "dungeon" ==>
      IsDefaultLayout(positions, tokenCount)
  {
    if sceneType == "tavern" {
      positions := GenerateTavernLayout(tokenCount, random, cosTurn, sinTurn);
    } else if sceneType == "encounter" {
      positions := GenerateEncounterLayout(tokenCount);
    } else if sceneType == "dungeon" {
      positions := GenerateDungeonLayout(tokenCount);
    } else {
      positions := GenerateDefaultLayout(tokenCount);
    }
  }
}
