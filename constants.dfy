/** Enumerations, scoring constants, the maze layout and the level table of the game. */
module GameConstants {

  /** The states of the game's state machine. */
  datatype GameState = Ready | Playing | Paused | LevelComplete | GameOver

  /** The four headings; the source stores them as the angles 0, 90, 180 and 270 degrees. */
  datatype Direction = Right | Down | Left | Up {

    /** The angle in degrees that stands for this heading. */
    function Degrees(): int {
      match this
      case Right => 0
      case Down => 90
      case Left => 180
      case Up => 270
    }

    /** The exact value of cos(angle): the x offset of a unit step along this heading. */
    function Dx(): int {
      match this
      case Right => 1
      case Left => -1
      case _ => 0
    }

    /** The exact value of sin(angle): the y offset of a unit step (the y axis points down). */
    function Dy(): int {
      match this
      case Down => 1
      case Up => -1
      case _ => 0
    }

    /** The heading whose angle is (angle + 180) % 360. */
    function Opposite(): (r: Direction)
      ensures r.Degrees() == (Degrees() + 180) % 360
    {
      OfDegrees((Degrees() + 180) % 360)
    }

    /** Position of this heading in the order right, down, left, up. */
    function Index(): nat {
      match this
      case Right => 0
      case Down => 1
      case Left => 2
      case Up => 3
    }
  }

  /** Whether an angle is one of the four heading values. */
  predicate IsHeadingAngle(a: int) {
    a == 0 || a == 90 || a == 180 || a == 270
  }

  /** The heading for one of the four angle values. */
  function OfDegrees(a: int): (d: Direction)
    requires IsHeadingAngle(a)
    ensures d.Degrees() == a
  {
    if a == 0 then Right else if a == 90 then Down else if a == 180 then Left else Up
  }

  /** The four ghost identities, in declaration order. */
  datatype GhostType = Blinky | Pinky | Inky | Clyde {
    /** The enumeration's string value, used in error messages. */
    function Name(): string {
      match this
      case Blinky => "Blinky"
      case Pinky => "Pinky"
      case Inky => "Inky"
      case Clyde => "Clyde"
    }

    /** Position of this type in declaration order. */
    function Index(): nat {
      match this
      case Blinky => 0
      case Pinky => 1
      case Inky => 2
      case Clyde => 3
    }
  }

  /** The values of the GhostType enumeration in declaration order. */
  const GHOST_TYPES: seq<GhostType> := [Blinky, Pinky, Inky, Clyde]

  /** Side of a maze cell, in canvas units. */
  const CELL_SIZE: real := 20.0

  /** Length of power mode in milliseconds. */
  const POWER_MODE_DURATION: int := 8000

  const POINTS_DOT: int := 10
  const POINTS_POWER_PELLET: int := 50
  const POINTS_GHOST: int := 200

  /** The maze: '#' wall, '.' dot, 'o' power pellet, 'P' Pacman's start,
      'B', 'K', 'I', 'C' the starts of Blinky, Pinky, Inky and Clyde. */
  const MAZE_LAYOUT: seq<string> := [
    "####################",
    "#P...........#.....#",
    "#.####.#####.#.###.#",
    "#o####.#####.#.###o#",
    "#.####.#####.#.###.#",
    "#..................#",
    "#.####.#.######.##.#",
    "#.####.#.######.##.#",
    "#......#...BIKC#...#",
    "######.### # ###.###",
    "     #.#   #   #.#  ",
    "     #.# ##### #.#  ",
    "######.### ###.#####",
    "#............#.....#",
    "#.####.#####.#.###.#",
    "#o..##.......##..o.#",
    "###.##.#####.##.####",
    "###.##.#####.##.####",
    "#......#.....#.....#",
    "####################"
  ]

  /** One row of the level table. */
  datatype LevelSetting = LevelSetting(level: int, ghostSpeed: real)

  const LEVEL_SETTINGS: seq<LevelSetting> := [
    LevelSetting(1, 1.5),
    LevelSetting(2, 1.7),
    LevelSetting(3, 1.9),
    LevelSetting(4, 2.1),
    LevelSetting(5, 2.3)
  ]

  /** Adding 180 degrees modulo 360 pairs right with left and down with up, and is an involution. */
  lemma OppositePairs()
    ensures Right.Opposite() == Left && Left.Opposite() == Right
    ensures Down.Opposite() == Up && Up.Opposite() == Down
    ensures forall d: Direction :: d.Opposite() != d && d.Opposite().Opposite() == d
    ensures forall d: Direction :: d.Opposite().Dx() == -d.Dx() && d.Opposite().Dy() == -d.Dy()
  {
  }

  /** The direction values are exactly the four angles 0, 90, 180 and 270, one per heading. */
  lemma DirectionAngles()
    ensures forall d: Direction :: IsHeadingAngle(d.Degrees()) && OfDegrees(d.Degrees()) == d
    ensures forall a :: IsHeadingAngle(a) ==> OfDegrees(a).Degrees() == a
    ensures forall d: Direction :: d.Dx() * d.Dx() + d.Dy() * d.Dy() == 1
  {
  }

  /** Whether every row of a layout has the length of row 0. */
  predicate Rectangular(layout: seq<string>) {
    |layout| > 0 && forall r :: 0 <= r < |layout| ==> |layout[r]| == |layout[0]|
  }

  /** Whether cell (col, row) holds ch and no other cell of the layout does. */
  predicate OnlyAt(layout: seq<string>, ch: char, col: int, row: int) {
    && 0 <= row < |layout| && 0 <= col < |layout[row]| && layout[row][col] == ch
    && forall r, c :: 0 <= r < |layout| && 0 <= c < |layout[r]| && layout[r][c] == ch ==> r == row && c == col
  }

  /** The maze is a 20 by 20 rectangle, as the bounds check of the traversal test assumes. */
  lemma MazeShape()
    ensures |MAZE_LAYOUT| == 20 && |MAZE_LAYOUT[0]| == 20
    ensures Rectangular(MAZE_LAYOUT)
  {
  }

  /** A letter occurs only at (col, row) when no other row contains it and the row holds it at
      col and nowhere before or after. */
  lemma OnlyAtByRows(layout: seq<string>, ch: char, col: int, row: int)
    requires 0 <= row < |layout| && 0 <= col < |layout[row]| && layout[row][col] == ch
    requires forall r :: 0 <= r < |layout| && r != row ==> ch !in layout[r]
    requires ch !in layout[row][..col] && ch !in layout[row][col + 1..]
    ensures OnlyAt(layout, ch, col, row)
  {
  }

  /** Pacman's start marker occurs exactly once, in row 1, column 1. */
  lemma PacmanMarker()
    ensures OnlyAt(MAZE_LAYOUT, 'P', 1, 1)
  {
    MazeShape();
    assert forall r :: 0 <= r < 20 && r != 1 ==> 'P' !in MAZE_LAYOUT[r];
    OnlyAtByRows(MAZE_LAYOUT, 'P', 1, 1);
  }

  /** Each ghost start marker occurs exactly once, side by side in row 8. */
  lemma GhostMarkers()
    ensures OnlyAt(MAZE_LAYOUT, 'B', 11, 8)
    ensures OnlyAt(MAZE_LAYOUT, 'I', 12, 8)
    ensures OnlyAt(MAZE_LAYOUT, 'K', 13, 8)
    ensures OnlyAt(MAZE_LAYOUT, 'C', 14, 8)
  {
    BlinkyMarker();
    InkyMarker();
    PinkyMarker();
    ClydeMarker();
  }

  lemma BlinkyMarker()
    ensures OnlyAt(MAZE_LAYOUT, 'B', 11, 8)
  {
    MazeShape();
    assert forall r :: 0 <= r < 20 && r != 8 ==> 'B' !in MAZE_LAYOUT[r];
    OnlyAtByRows(MAZE_LAYOUT, 'B', 11, 8);
  }

  lemma InkyMarker()
    ensures OnlyAt(MAZE_LAYOUT, 'I', 12, 8)
  {
    MazeShape();
    assert forall r :: 0 <= r < 20 && r != 8 ==> 'I' !in MAZE_LAYOUT[r];
    OnlyAtByRows(MAZE_LAYOUT, 'I', 12, 8);
  }

  lemma PinkyMarker()
    ensures OnlyAt(MAZE_LAYOUT, 'K', 13, 8)
  {
    MazeShape();
    assert forall r :: 0 <= r < 20 && r != 8 ==> 'K' !in MAZE_LAYOUT[r];
    OnlyAtByRows(MAZE_LAYOUT, 'K', 13, 8);
  }

  lemma ClydeMarker()
    ensures OnlyAt(MAZE_LAYOUT, 'C', 14, 8)
  {
    MazeShape();
    assert forall r :: 0 <= r < 20 && r != 8 ==> 'C' !in MAZE_LAYOUT[r];
    OnlyAtByRows(MAZE_LAYOUT, 'C', 14, 8);
  }

  /** The level table has five rows, row i is level i + 1, and ghost speed strictly increases. */
  lemma LevelTable()
    ensures |LEVEL_SETTINGS| == 5
    ensures forall i :: 0 <= i < |LEVEL_SETTINGS| ==> LEVEL_SETTINGS[i].level == i + 1
    ensures forall i, j :: 0 <= i < j < |LEVEL_SETTINGS| ==> LEVEL_SETTINGS[i].ghostSpeed < LEVEL_SETTINGS[j].ghostSpeed
  {
  }
}
