/** The engine's side-effect-free queries on the fixed maze: the five-point traversal test,
    cell centres, the intersection test, and the parsing of a layout into items and start cells. */
module Maze {
  import opened Wrappers
  import opened GameConstants
  import opened Entities

  /** The grid index of a canvas coordinate. */
  function CellIndex(v: real): int {
    (v / CELL_SIZE).Floor
  }

  /** The canvas coordinate of the centre of grid index i. */
  function CellCentre(i: int): real {
    (i as real + 0.5) * CELL_SIZE
  }

  /** The centre of cell (col, row). */
  function Centre(col: int, row: int): Point {
    Point(CellCentre(col), CellCentre(row))
  }

  /** The coordinate snapped to the centre of its cell. */
  function Snap(v: real): real {
    CellCentre(CellIndex(v))
  }

  /** Offset of the four outer sample points from the centre: CELL_SIZE / 2 - 1. */
  const RADIUS: real := CELL_SIZE / 2.0 - 1.0

  /** Whether cell (col, row) lies inside the grid (bounded by the length of the maze and of its
      first row) and is not a wall. */
  predicate CellOpen(col: int, row: int) {
    MazeShape();
    0 <= row < |MAZE_LAYOUT| && 0 <= col < |MAZE_LAYOUT[0]| && MAZE_LAYOUT[row][col] != '#'
  }

  /** Whether a point lies in an open cell. */
  predicate OpenPoint(p: Point) {
    CellOpen(CellIndex(p.x), CellIndex(p.y))
  }

  /** The body's footprint, in the order the traversal test tries them: its centre, then the
      points RADIUS to the right, left, below and above. */
  function SamplePoints(x: real, y: real): seq<Point> {
    [Point(x, y), Point(x + RADIUS, y), Point(x - RADIUS, y), Point(x, y + RADIUS), Point(x, y - RADIUS)]
  }

  /** The traversal test: a position is passable exactly when all five footprint points lie in
      open cells; spaces, items and start letters are open. */
  predicate CanMove(x: real, y: real) {
    && OpenPoint(Point(x, y))
    && OpenPoint(Point(x + RADIUS, y)) && OpenPoint(Point(x - RADIUS, y))
    && OpenPoint(Point(x, y + RADIUS)) && OpenPoint(Point(x, y - RADIUS))
  }

  /** The traversal test as the engine runs it: the footprint points in order, giving up at the
      first one that is out of bounds or in a wall. */
  method MoveAllowed(x: real, y: real) returns (ok: bool)
    ensures ok <==> CanMove(x, y)
    ensures ok <==> forall i :: 0 <= i < |SamplePoints(x, y)| ==> OpenPoint(SamplePoints(x, y)[i])
  {
    var points := SamplePoints(x, y);
    var i := 0;
    while i < |points|
      invariant 0 <= i <= |points|
      invariant forall k :: 0 <= k < i ==> OpenPoint(points[k])
    {
      var gridX := CellIndex(points[i].x);
      var gridY := CellIndex(points[i].y);
      MazeShape();
      if gridY < 0 || gridY >= |MAZE_LAYOUT| || gridX < 0 || gridX >= |MAZE_LAYOUT[0]| {
        return false;
      }
      if MAZE_LAYOUT[gridY][gridX] == '#' {
        return false;
      }
      i := i + 1;
    }
    assert OpenPoint(points[0]) && OpenPoint(points[1]) && OpenPoint(points[2]);
    assert OpenPoint(points[3]) && OpenPoint(points[4]);
    return true;
  }

  /** Points within 10 units of a centre, on the low side less than 10, belong to its cell. */
  lemma CellOfNearCentre(i: int, k: real)
    requires -10.0 <= k < 10.0
    ensures CellIndex(CellCentre(i) + k) == i
  {
    var v := CellCentre(i) + k;
    assert v == i as real * 20.0 + (k + 10.0);
    assert v / CELL_SIZE == i as real + (k + 10.0) / 20.0;
  }

  /** A cell centre passes the traversal test exactly when the cell is inside the grid and not a wall. */
  lemma CentreCanMove(col: int, row: int)
    ensures CanMove(CellCentre(col), CellCentre(row)) <==> CellOpen(col, row)
  {
    CellOfNearCentre(col, 0.0);
    CellOfNearCentre(col, 9.0);
    CellOfNearCentre(col, -9.0);
    CellOfNearCentre(row, 0.0);
    CellOfNearCentre(row, 9.0);
    CellOfNearCentre(row, -9.0);
    assert CellCentre(col) + 0.0 == CellCentre(col) && CellCentre(row) + 0.0 == CellCentre(row);
    assert CellCentre(col) - 9.0 == CellCentre(col) + -9.0 && CellCentre(row) - 9.0 == CellCentre(row) + -9.0;
  }

  /** Snapping a position that passes the traversal test to its cell centre keeps it passing:
      the centre point already showed the cell open, and all five points of the centre lie in it. */
  lemma SnapKeepsCanMove(x: real, y: real)
    requires CanMove(x, y)
    ensures CanMove(Snap(x), Snap(y))
  {
    CentreCanMove(CellIndex(x), CellIndex(y));
  }

  function Abs(v: real): real {
    if v < 0.0 then -v else v
  }

  /** Whether a body moving at `speed` is within speed / 2 of its cell centre on both axes. */
  predicate IsAtIntersection(x: real, y: real, speed: real) {
    var tolerance := speed / 2.0;
    Abs(x - Snap(x)) < tolerance && Abs(y - Snap(y)) < tolerance
  }

  /** The snap at an intersection is short: both coordinates move by less than half a step, so
      the jump to the centre is shorter than the step itself. Only a moving body is ever at one. */
  lemma IntersectionSnapIsShort(x: real, y: real, speed: real)
    requires IsAtIntersection(x, y, speed)
    ensures speed > 0.0
    ensures Dist2(x, y, Snap(x), Snap(y)) < speed * speed / 2.0
  {
    var t := speed / 2.0;
    SquareMonotone(Abs(x - Snap(x)), t);
    SquareMonotone(Abs(y - Snap(y)), t);
    assert (x - Snap(x)) * (x - Snap(x)) == Abs(x - Snap(x)) * Abs(x - Snap(x));
    assert (y - Snap(y)) * (y - Snap(y)) == Abs(y - Snap(y)) * Abs(y - Snap(y));
  }

  /** A body passing the traversal test lies inside the board with its whole footprint: at
      least RADIUS from every edge of the 400 by 400 canvas. */
  lemma CanMoveInsideBoard(x: real, y: real)
    requires CanMove(x, y)
    ensures RADIUS <= x < CELL_SIZE * 20.0 - RADIUS
    ensures RADIUS <= y < CELL_SIZE * 20.0 - RADIUS
  {
    MazeShape();
    IndexInGrid(x - RADIUS);
    IndexInGrid(x + RADIUS);
    IndexInGrid(y - RADIUS);
    IndexInGrid(y + RADIUS);
  }

  /** A coordinate whose grid index is inside the 20-cell grid lies on the canvas. */
  lemma IndexInGrid(v: real)
    requires 0 <= CellIndex(v) < 20
    ensures 0.0 <= v < CELL_SIZE * 20.0
  {
  }

  /** A body exactly at a cell centre is at an intersection whenever it moves at all. */
  lemma CentreIsIntersection(col: int, row: int, speed: real)
    requires speed > 0.0
    ensures IsAtIntersection(CellCentre(col), CellCentre(row), speed)
    ensures Snap(CellCentre(col)) == CellCentre(col)
  {
    CellOfNearCentre(col, 0.0);
    CellOfNearCentre(row, 0.0);
    assert CellCentre(col) + 0.0 == CellCentre(col) && CellCentre(row) + 0.0 == CellCentre(row);
  }

  // ---- Parsing the layout ----

  /** The centres of the first n cells of a row that hold ch, left to right. */
  function RowCentres(row: string, r: int, ch: char, n: nat): seq<Point>
    requires n <= |row|
  {
    if n == 0 then [] else RowCentres(row, r, ch, n - 1) + (if row[n - 1] == ch then [Centre(n - 1, r)] else [])
  }

  /** The centres of the cells of the first m rows that hold ch, in row-major order. */
  function GridCentres(layout: seq<string>, ch: char, m: nat): seq<Point>
    requires m <= |layout|
  {
    if m == 0 then [] else GridCentres(layout, ch, m - 1) + RowCentres(layout[m - 1], m - 1, ch, |layout[m - 1]|)
  }

  /** The centres of all cells that hold ch, in row-major order. */
  function CentresOf(layout: seq<string>, ch: char): seq<Point> {
    GridCentres(layout, ch, |layout|)
  }

  /** Whether some cell of the layout holds ch. */
  predicate HasCell(layout: seq<string>, ch: char) {
    exists r, c :: 0 <= r < |layout| && 0 <= c < |layout[r]| && layout[r][c] == ch
  }

  lemma {:induction false} RowCentresMembership(row: string, r: int, ch: char, n: nat, p: Point)
    requires n <= |row|
    ensures p in RowCentres(row, r, ch, n) <==> exists c :: 0 <= c < n && row[c] == ch && p == Centre(c, r)
  {
    if n > 0 {
      RowCentresMembership(row, r, ch, n - 1, p);
      if row[n - 1] == ch && p == Centre(n - 1, r) {
        assert p in RowCentres(row, r, ch, n);
      }
    }
  }

  lemma {:induction false} GridCentresMembership(layout: seq<string>, ch: char, m: nat, p: Point)
    requires m <= |layout|
    ensures p in GridCentres(layout, ch, m) <==>
      exists r, c :: 0 <= r < m && 0 <= c < |layout[r]| && layout[r][c] == ch && p == Centre(c, r)
  {
    if m > 0 {
      GridCentresMembership(layout, ch, m - 1, p);
      RowCentresMembership(layout[m - 1], m - 1, ch, |layout[m - 1]|, p);
      if p in RowCentres(layout[m - 1], m - 1, ch, |layout[m - 1]|) {
        var c :| 0 <= c < |layout[m - 1]| && layout[m - 1][c] == ch && p == Centre(c, m - 1);
        assert 0 <= m - 1 < m && layout[m - 1][c] == ch;
      }
    }
  }

  /** The parsed item lists are exactly the centres of the cells holding that item. */
  lemma CentresOfMembership(layout: seq<string>, ch: char, p: Point)
    ensures p in CentresOf(layout, ch) <==>
      exists r, c :: 0 <= r < |layout| && 0 <= c < |layout[r]| && layout[r][c] == ch && p == Centre(c, r)
  {
    GridCentresMembership(layout, ch, |layout|, p);
  }

  /** The last element, if any. */
  function Last(s: seq<Point>): Option<Point> {
    if s == [] then None else Some(s[|s| - 1])
  }

  /** The marker letter of each ghost's start cell: never a wall, a space, an item or Pacman's
      letter, so each cell is read as at most one kind of thing. */
  function Marker(t: GhostType): (c: char)
    ensures c != '#' && c != ' ' && c != '.' && c != 'o' && c != 'P'
  {
    match t
    case Blinky => 'B'
    case Inky => 'I'
    case Pinky => 'K'
    case Clyde => 'C'
  }

  /** Distinct ghost types have distinct markers. */
  lemma MarkersDistinct(t: GhostType, u: GhostType)
    requires t != u
    ensures Marker(t) != Marker(u)
  {
  }

  /** What one pass over the layout collects: the dots, the power pellets, and the start
      positions found (a later marker overwrites an earlier one). */
  datatype MazeScan = MazeScan(dots: seq<Point>, pellets: seq<Point>, pacmanStart: Option<Point>,
                               ghostStarts: map<GhostType, Point>)

  /** The start position recorded for ghost type t, if any. */
  function Lookup(m: map<GhostType, Point>, t: GhostType): Option<Point> {
    if t in m then Some(m[t]) else None
  }

  /** The outcome of a full scan of the layout, stated per letter. */
  function ScanOf(layout: seq<string>): MazeScan {
    MazeScan(CentresOf(layout, '.'), CentresOf(layout, 'o'), Last(CentresOf(layout, 'P')),
             map t: GhostType | Last(CentresOf(layout, Marker(t))).Some? :: Last(CentresOf(layout, Marker(t))).value)
  }

  /** The collection before any cell is seen. */
  const EMPTY_SCAN: MazeScan := MazeScan([], [], None, map[])

  /** What visiting one cell holding `cell`, centred at p, adds to the collection. */
  function Absorb(s: MazeScan, cell: char, p: Point): MazeScan {
    if cell == '.' then s.(dots := s.dots + [p])
    else if cell == 'o' then s.(pellets := s.pellets + [p])
    else if cell == 'P' then s.(pacmanStart := Some(p))
    else if cell == 'B' then s.(ghostStarts := s.ghostStarts[Blinky := p])
    else if cell == 'I' then s.(ghostStarts := s.ghostStarts[Inky := p])
    else if cell == 'K' then s.(ghostStarts := s.ghostStarts[Pinky := p])
    else if cell == 'C' then s.(ghostStarts := s.ghostStarts[Clyde := p])
    else s
  }

  /** The collection after visiting the first n cells of row r, starting from s. */
  function ScanRow(s: MazeScan, row: string, r: int, n: nat): MazeScan
    requires n <= |row|
  {
    if n == 0 then s else Absorb(ScanRow(s, row, r, n - 1), row[n - 1], Centre(n - 1, r))
  }

  /** The collection after visiting the first m rows. */
  function ScanRows(layout: seq<string>, m: nat): MazeScan
    requires m <= |layout|
  {
    if m == 0 then EMPTY_SCAN else ScanRow(ScanRows(layout, m - 1), layout[m - 1], m - 1, |layout[m - 1]|)
  }

  /** The nested forEach over rows and cells that collects dots, pellets and start positions. */
  method ScanLayout(layout: seq<string>) returns (scan: MazeScan)
    ensures scan.dots == CentresOf(layout, '.') && scan.pellets == CentresOf(layout, 'o')
    ensures scan.pacmanStart == Last(CentresOf(layout, 'P'))
    ensures forall t :: Lookup(scan.ghostStarts, t) == Last(CentresOf(layout, Marker(t)))
    ensures scan == ScanOf(layout)
  {
    scan := EMPTY_SCAN;
    var y := 0;
    while y < |layout|
      invariant 0 <= y <= |layout|
      invariant scan == ScanRows(layout, y)
    {
      var row := layout[y];
      var x := 0;
      while x < |row|
        invariant 0 <= x <= |row|
        invariant scan == ScanRow(ScanRows(layout, y), row, y, x)
      {
        var cell := row[x];
        var centre := Centre(x, y);
        if cell == '.' {
          scan := scan.(dots := scan.dots + [centre]);
        } else if cell == 'o' {
          scan := scan.(pellets := scan.pellets + [centre]);
        } else if cell == 'P' {
          scan := scan.(pacmanStart := Some(centre));
        } else if cell == 'B' {
          scan := scan.(ghostStarts := scan.ghostStarts[Blinky := centre]);
        } else if cell == 'I' {
          scan := scan.(ghostStarts := scan.ghostStarts[Inky := centre]);
        } else if cell == 'K' {
          scan := scan.(ghostStarts := scan.ghostStarts[Pinky := centre]);
        } else if cell == 'C' {
          scan := scan.(ghostStarts := scan.ghostStarts[Clyde := centre]);
        }
        x := x + 1;
      }
      y := y + 1;
    }
    ScanRowsMeaning(layout, |layout|);
    LookupExtensional(scan.ghostStarts, ScanOf(layout).ghostStarts);
  }

  /** Two start tables that agree on every ghost type are equal. */
  lemma LookupExtensional(m1: map<GhostType, Point>, m2: map<GhostType, Point>)
    requires forall t :: Lookup(m1, t) == Lookup(m2, t)
    ensures m1 == m2
  {
    assert forall t :: t in m1 <==> Lookup(m1, t).Some?;
    assert forall t :: t in m2 <==> Lookup(m2, t).Some?;
    assert m1.Keys == m2.Keys;
  }

  /** The first of two optional values that is present, preferring the later one b. */
  function Override(a: Option<Point>, b: Option<Point>): Option<Point> {
    if b.Some? then b else a
  }

  lemma LastConcat(a: seq<Point>, b: seq<Point>)
    ensures Last(a + b) == Override(Last(a), Last(b))
  {
  }

  /** Visiting a prefix of a row appends the row's centres of each letter to that letter's list,
      and each start marker seen overrides the earlier ones. */
  lemma ScanRowMeaning(s: MazeScan, row: string, r: int, n: nat)
    requires n <= |row|
    ensures ScanRow(s, row, r, n).dots == s.dots + RowCentres(row, r, '.', n)
    ensures ScanRow(s, row, r, n).pellets == s.pellets + RowCentres(row, r, 'o', n)
    ensures ScanRow(s, row, r, n).pacmanStart == Override(s.pacmanStart, Last(RowCentres(row, r, 'P', n)))
    ensures forall t :: Lookup(ScanRow(s, row, r, n).ghostStarts, t) ==
                        Override(Lookup(s.ghostStarts, t), Last(RowCentres(row, r, Marker(t), n)))
  {
    ScanRowItems(s, row, r, n);
    ScanRowPacman(s, row, r, n);
    forall t {
      ScanRowGhost(s, row, r, n, t);
    }
  }

  /** RowCentres grows by the centre of the next cell exactly when that cell holds the letter. */
  lemma RowCentresStep(row: string, r: int, ch: char, n: nat)
    requires 0 < n <= |row|
    ensures RowCentres(row, r, ch, n) == RowCentres(row, r, ch, n - 1) + (if row[n - 1] == ch then [Centre(n - 1, r)] else [])
    ensures Last(RowCentres(row, r, ch, n)) ==
              Override(Last(RowCentres(row, r, ch, n - 1)), if row[n - 1] == ch then Some(Centre(n - 1, r)) else None)
  {
    LastConcat(RowCentres(row, r, ch, n - 1), if row[n - 1] == ch then [Centre(n - 1, r)] else []);
  }

  lemma {:induction false} ScanRowItems(s: MazeScan, row: string, r: int, n: nat)
    requires n <= |row|
    ensures ScanRow(s, row, r, n).dots == s.dots + RowCentres(row, r, '.', n)
    ensures ScanRow(s, row, r, n).pellets == s.pellets + RowCentres(row, r, 'o', n)
  {
    if n > 0 {
      ScanRowItems(s, row, r, n - 1);
      RowCentresStep(row, r, '.', n);
      RowCentresStep(row, r, 'o', n);
    }
  }

  lemma {:induction false} ScanRowPacman(s: MazeScan, row: string, r: int, n: nat)
    requires n <= |row|
    ensures ScanRow(s, row, r, n).pacmanStart == Override(s.pacmanStart, Last(RowCentres(row, r, 'P', n)))
  {
    if n > 0 {
      ScanRowPacman(s, row, r, n - 1);
      RowCentresStep(row, r, 'P', n);
    }
  }

  lemma {:induction false} ScanRowGhost(s: MazeScan, row: string, r: int, n: nat, t: GhostType)
    requires n <= |row|
    ensures Lookup(ScanRow(s, row, r, n).ghostStarts, t) ==
            Override(Lookup(s.ghostStarts, t), Last(RowCentres(row, r, Marker(t), n)))
  {
    if n > 0 {
      ScanRowGhost(s, row, r, n - 1, t);
      RowCentresStep(row, r, Marker(t), n);
      AbsorbGhost(ScanRow(s, row, r, n - 1), row[n - 1], Centre(n - 1, r), t);
    }
  }

  /** A cell changes ghost t's recorded start only when it holds t's marker. */
  /** A '.' cell appends its centre to the dots, an 'o' cell to the pellets, and a 'P' cell
      records Pacman's start (a later one overwriting an earlier one); every other cell leaves
      these alone. */
  lemma AbsorbItems(s: MazeScan, cell: char, p: Point)
    ensures Absorb(s, cell, p).dots == if cell == '.' then s.dots + [p] else s.dots
    ensures Absorb(s, cell, p).pellets == if cell == 'o' then s.pellets + [p] else s.pellets
    ensures Absorb(s, cell, p).pacmanStart == if cell == 'P' then Some(p) else s.pacmanStart
  {
  }

  lemma AbsorbGhost(s: MazeScan, cell: char, p: Point, t: GhostType)
    ensures Lookup(Absorb(s, cell, p).ghostStarts, t) ==
            if cell == Marker(t) then Some(p) else Lookup(s.ghostStarts, t)
  {
  }

  /** Visiting the first m rows yields, per letter, what the declarative scan describes for them. */
  lemma {:induction false} ScanRowsMeaning(layout: seq<string>, m: nat)
    requires m <= |layout|
    ensures ScanRows(layout, m).dots == GridCentres(layout, '.', m)
    ensures ScanRows(layout, m).pellets == GridCentres(layout, 'o', m)
    ensures ScanRows(layout, m).pacmanStart == Last(GridCentres(layout, 'P', m))
    ensures forall t :: Lookup(ScanRows(layout, m).ghostStarts, t) == Last(GridCentres(layout, Marker(t), m))
  {
    if m > 0 {
      var prev := ScanRows(layout, m - 1);
      var row := layout[m - 1];
      ScanRowsMeaning(layout, m - 1);
      ScanRowMeaning(prev, row, m - 1, |row|);
      forall ch | true
        ensures Last(GridCentres(layout, ch, m)) ==
                  Override(Last(GridCentres(layout, ch, m - 1)), Last(RowCentres(row, m - 1, ch, |row|)))
      {
        LastConcat(GridCentres(layout, ch, m - 1), RowCentres(row, m - 1, ch, |row|));
      }
    }
  }

  /** Where the parse found every start marker. */
  datatype StartPositions = StartPositions(pacman: Point, ghosts: seq<Point>)

  /** The start positions of the ghosts of the given types, in order; the first missing one is an error. */
  function GhostStarts(ghostStarts: map<GhostType, Point>, types: seq<GhostType>): (r: Result<seq<Point>>)
    ensures r.Success? <==> forall i :: 0 <= i < |types| ==> types[i] in ghostStarts
    ensures r.Success? ==> |r.value| == |types| && forall i :: 0 <= i < |types| ==> r.value[i] == ghostStarts[types[i]]
    ensures r.Failure? ==> exists i :: (0 <= i < |types| && types[i] !in ghostStarts &&
                                        r.error == "Start position for ghost " + types[i].Name() + " not found.")
  {
    if types == [] then Success([])
    else if types[0] !in ghostStarts then Failure("Start position for ghost " + types[0].Name() + " not found.")
    else
      match GhostStarts(ghostStarts, types[1..])
      case Failure(e) => Failure(e)
      case Success(rest) => Success([ghostStarts[types[0]]] + rest)
  }

  /** Every ghost type has an entry exactly when every entry of GHOST_TYPES has one. */
  lemma TypesCover(m: map<GhostType, Point>)
    ensures (forall i :: 0 <= i < |GHOST_TYPES| ==> GHOST_TYPES[i] in m) <==> (forall t: GhostType :: t in m)
  {
    if forall i :: 0 <= i < |GHOST_TYPES| ==> GHOST_TYPES[i] in m {
      forall t: GhostType
        ensures t in m
      {
        assert GHOST_TYPES[t.Index()] == t;
      }
    }
  }

  /** The checks after the scan: Pacman's start first, then each ghost's in enumeration order. */
  function ResolveStarts(scan: MazeScan): (r: Result<StartPositions>)
    ensures scan.pacmanStart.None? ==> r == Failure("Pacman start position not found in maze layout.")
    ensures r.Success? <==> scan.pacmanStart.Some? && forall t :: t in scan.ghostStarts
    ensures r.Success? ==> (r.value.pacman == scan.pacmanStart.value && |r.value.ghosts| == |GHOST_TYPES| &&
                            forall i :: 0 <= i < |GHOST_TYPES| ==> r.value.ghosts[i] == scan.ghostStarts[GHOST_TYPES[i]])
  {
    if scan.pacmanStart.None? then Failure("Pacman start position not found in maze layout.")
    else
      TypesCover(scan.ghostStarts);
      match GhostStarts(scan.ghostStarts, GHOST_TYPES)
      case Failure(e) => Failure(e)
      case Success(gs) => Success(StartPositions(scan.pacmanStart.value, gs))
  }

  /** Parsing fails exactly when the layout lacks the 'P' marker or one of the ghost markers. */
  lemma ParseFailsIffMarkerMissing(layout: seq<string>)
    ensures ResolveStarts(ScanOf(layout)).Failure? <==>
      !HasCell(layout, 'P') || exists t :: !HasCell(layout, Marker(t))
  {
    forall ch | true
      ensures Last(CentresOf(layout, ch)).Some? <==> HasCell(layout, ch)
    {
      if HasCell(layout, ch) {
        var r, c :| 0 <= r < |layout| && 0 <= c < |layout[r]| && layout[r][c] == ch;
        CentresOfMembership(layout, ch, Centre(c, r));
      } else if CentresOf(layout, ch) != [] {
        CentresOfMembership(layout, ch, CentresOf(layout, ch)[0]);
      }
    }
    var scan := ScanOf(layout);
    assert scan.pacmanStart.Some? <==> HasCell(layout, 'P');
    forall t: GhostType
      ensures t in scan.ghostStarts <==> HasCell(layout, Marker(t))
    {
    }
  }

  /** When ch occurs in exactly one cell, the parse records that cell's centre. */
  lemma LastOfOnlyCell(layout: seq<string>, ch: char, col: int, row: int)
    requires OnlyAt(layout, ch, col, row)
    ensures Last(CentresOf(layout, ch)) == Some(Centre(col, row))
  {
    var s := CentresOf(layout, ch);
    CentresOfMembership(layout, ch, Centre(col, row));
    CentresOfMembership(layout, ch, s[|s| - 1]);
    var r, c :| 0 <= r < |layout| && 0 <= c < |layout[r]| && layout[r][c] == ch && s[|s| - 1] == Centre(c, r);
  }

  /** Pacman's start on the game's layout: the centre of cell (1, 1). */
  const PACMAN_START: Point := Centre(1, 1)

  /** The ghosts' starts on the game's layout, in GHOST_TYPES order (Blinky, Pinky, Inky, Clyde). */
  const GHOST_STARTS: seq<Point> := [Centre(11, 8), Centre(13, 8), Centre(12, 8), Centre(14, 8)]

  /** The game's own layout parses: Pacman starts in cell (1, 1), and Blinky, Pinky, Inky and
      Clyde in cells (11, 8), (13, 8), (12, 8) and (14, 8) of row 8. */
  lemma MazeLayoutParses()
    ensures ResolveStarts(ScanOf(MAZE_LAYOUT)) == Success(StartPositions(PACMAN_START, GHOST_STARTS))
  {
    PacmanMarker();
    GhostMarkers();
    LastOfOnlyCell(MAZE_LAYOUT, 'P', 1, 1);
    LastOfOnlyCell(MAZE_LAYOUT, 'B', 11, 8);
    LastOfOnlyCell(MAZE_LAYOUT, 'K', 13, 8);
    LastOfOnlyCell(MAZE_LAYOUT, 'I', 12, 8);
    LastOfOnlyCell(MAZE_LAYOUT, 'C', 14, 8);
    var gs := ScanOf(MAZE_LAYOUT).ghostStarts;
    assert gs[Blinky] == Centre(11, 8) && gs[Pinky] == Centre(13, 8);
    assert gs[Inky] == Centre(12, 8) && gs[Clyde] == Centre(14, 8);
    assert forall t: GhostType :: t in gs;
    var r := ResolveStarts(ScanOf(MAZE_LAYOUT));
    assert r.Success?;
    var g := r.value.ghosts;
    assert g[0] == Centre(11, 8) && g[1] == Centre(13, 8) && g[2] == Centre(12, 8) && g[3] == Centre(14, 8);
    assert g == [Centre(11, 8), Centre(13, 8), Centre(12, 8), Centre(14, 8)];
  }

  /** Every start position passes the traversal test. */
  lemma StartCellsOpen()
    ensures CanMove(PACMAN_START.x, PACMAN_START.y)
    ensures forall i :: 0 <= i < |GHOST_STARTS| ==> CanMove(GHOST_STARTS[i].x, GHOST_STARTS[i].y)
  {
    OpenCell(1, 1);
    OpenCell(11, 8);
    OpenCell(12, 8);
    OpenCell(13, 8);
    OpenCell(14, 8);
  }

  /** A marker cell that is not a wall passes the traversal test at its centre. */
  lemma OpenCell(col: nat, row: nat)
    requires row < 20 && col < 20 && MAZE_LAYOUT[row][col] != '#'
    ensures CanMove(CellCentre(col), CellCentre(row))
  {
    CentreCanMove(col, row);
  }
}
