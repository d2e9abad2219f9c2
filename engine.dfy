/** The game engine: the board state, the state machine, the per-frame update and the
    collision rules. Time is explicit: `now` is the engine's clock, and the two delayed
    continuations (the respawn after a death, the next level after a cleared board) are
    pending counters fired by their own methods. */
module Engine {
  import opened Wrappers
  import opened GameConstants
  import opened Entities
  import opened Player
  import opened Ghosts
  import opened Maze

  function Min(a: int, b: int): int {
    if a < b then a else b
  }

  /** The ghost speed of a level: its row of the level table, or the last row past the table. */
  function LevelGhostSpeed(level: int): (s: real)
    requires level >= 1
    ensures LEVEL_SETTINGS[0].ghostSpeed <= s <= LEVEL_SETTINGS[|LEVEL_SETTINGS| - 1].ghostSpeed
  {
    LEVEL_SETTINGS[Min(level - 1, |LEVEL_SETTINGS| - 1)].ghostSpeed
  }

  /** Level n of the table sets the speed of its row; every later level keeps the last row's
      speed; and a higher level is never slower. */
  lemma LevelSpeeds(l1: int, l2: int)
    requires 1 <= l1 <= l2
    ensures l1 <= |LEVEL_SETTINGS| ==> LEVEL_SETTINGS[l1 - 1].level == l1 && LevelGhostSpeed(l1) == LEVEL_SETTINGS[l1 - 1].ghostSpeed
    ensures l1 >= |LEVEL_SETTINGS| ==> LevelGhostSpeed(l1) == 2.3
    ensures LevelGhostSpeed(l1) <= LevelGhostSpeed(l2)
  {
    LevelTable();
  }

  /** The heading a key buffers: the arrow keys and w, a, s, d. */
  function BufferedDirection(key: string): (d: Option<Direction>)
    ensures d == Some(Left) <==> key == "ArrowLeft" || key == "a"
    ensures d == Some(Right) <==> key == "ArrowRight" || key == "d"
    ensures d == Some(Up) <==> key == "ArrowUp" || key == "w"
    ensures d == Some(Down) <==> key == "ArrowDown" || key == "s"
  {
    if key == "ArrowLeft" || key == "a" then Some(Left)
    else if key == "ArrowRight" || key == "d" then Some(Right)
    else if key == "ArrowUp" || key == "w" then Some(Up)
    else if key == "ArrowDown" || key == "s" then Some(Down)
    else None
  }

  /** The pause key is not a movement key. */
  lemma PauseKeyIsNotMovement()
    ensures BufferedDirection("p") == None
  {
  }

  /** Whether an item lies inside Pacman's pickup radius, CELL_SIZE / 2, around (px, py). */
  predicate Touches(item: Point, px: real, py: real) {
    DistanceBelow(Dist2(item.x, item.y, px, py), CELL_SIZE / 2.0)
  }

  /** The pickup test is "Euclidean distance below 10". */
  lemma TouchesMeansWithinReach(item: Point, px: real, py: real, dist: real)
    requires dist >= 0.0 && dist * dist == Dist2(item.x, item.y, px, py)
    ensures Touches(item, px, py) <==> dist < 10.0
  {
    DistanceComparisons(dist, CELL_SIZE / 2.0);
  }

  /** The items the filter keeps, in their original order. */
  function Uneaten(items: seq<Point>, px: real, py: real): (r: seq<Point>)
    ensures |r| <= |items|
    ensures forall i :: 0 <= i < |r| ==> !Touches(r[i], px, py)
  {
    if items == [] then []
    else
      var last := items[|items| - 1];
      Uneaten(items[..|items| - 1], px, py) + (if Touches(last, px, py) then [] else [last])
  }

  /** How many items the filter removes. */
  function EatenCount(items: seq<Point>, px: real, py: real): (n: nat)
    ensures n + |Uneaten(items, px, py)| == |items|
  {
    if items == [] then 0
    else
      var last := items[|items| - 1];
      EatenCount(items[..|items| - 1], px, py) + (if Touches(last, px, py) then 1 else 0)
  }

  /** The filter keeps exactly the items out of reach. */
  lemma {:induction false} UneatenMembers(items: seq<Point>, px: real, py: real)
    ensures forall q :: q in Uneaten(items, px, py) <==> q in items && !Touches(q, px, py)
  {
    if items != [] {
      var init, last := items[..|items| - 1], items[|items| - 1];
      UneatenMembers(init, px, py);
      assert items == init + [last];
    }
  }

  /** Nothing is eaten exactly when no item is in reach. */
  lemma {:induction false} NothingEatenIff(items: seq<Point>, px: real, py: real)
    ensures EatenCount(items, px, py) == 0 <==> forall i :: 0 <= i < |items| ==> !Touches(items[i], px, py)
  {
    if items != [] {
      var init := items[..|items| - 1];
      NothingEatenIff(init, px, py);
      assert forall i :: 0 <= i < |init| ==> init[i] == items[i];
    }
  }

  /** Filtering again at the same position removes nothing more and awards nothing more. */
  lemma UneatenIdempotent(items: seq<Point>, px: real, py: real)
    ensures Uneaten(Uneaten(items, px, py), px, py) == Uneaten(items, px, py)
    ensures EatenCount(Uneaten(items, px, py), px, py) == 0
  {
    var r := Uneaten(items, px, py);
    UneatenMembers(items, px, py);
    assert forall i :: 0 <= i < |r| ==> r[i] in r;
    NoneTouchingKept(r, px, py);
  }

  /** A list none of whose items is in reach passes the filter whole. */
  lemma {:induction false} NoneTouchingKept(items: seq<Point>, px: real, py: real)
    requires forall i :: 0 <= i < |items| ==> !Touches(items[i], px, py)
    ensures Uneaten(items, px, py) == items
  {
    if items != [] {
      NoneTouchingKept(items[..|items| - 1], px, py);
      assert items[..|items| - 1] + [items[|items| - 1]] == items;
    }
  }

  /** One more item examined by the filter. */
  lemma FilterStep(items: seq<Point>, i: nat, px: real, py: real)
    requires i < |items|
    ensures Uneaten(items[..i + 1], px, py) ==
      Uneaten(items[..i], px, py) + (if Touches(items[i], px, py) then [] else [items[i]])
    ensures EatenCount(items[..i + 1], px, py) ==
      EatenCount(items[..i], px, py) + (if Touches(items[i], px, py) then 1 else 0)
  {
    assert items[..i + 1][..i] == items[..i];
  }

  /** The array filter of the collision phase: one pass over the items, keeping those out of
      Pacman's reach and counting those within it. */
  method Filter(items: seq<Point>, px: real, py: real) returns (kept: seq<Point>, eaten: nat)
    ensures kept == Uneaten(items, px, py) && eaten == EatenCount(items, px, py)
  {
    kept, eaten := [], 0;
    var i := 0;
    while i < |items|
      invariant 0 <= i <= |items|
      invariant kept == Uneaten(items[..i], px, py) && eaten == EatenCount(items[..i], px, py)
    {
      FilterStep(items, i, px, py);
      if Touches(items[i], px, py) {
        eaten := eaten + 1;
      } else {
        kept := kept + [items[i]];
      }
      i := i + 1;
    }
    assert items[..|items|] == items;
  }

  /** The traversal test as a callback value. */
  method BindCanMove() returns (f: (real, real) -> bool)
    ensures forall x, y {:trigger CanMove(x, y)} :: f(x, y) == CanMove(x, y)
  {
    f := CanMove;
  }

  /** A new game at time `startTime`: the engine's constructor, which ends by parsing the maze. */
  method NewGame(startTime: int) returns (e: GameEngine)
    ensures fresh(e) && e.Valid() && e.Initialised() && e.Linked()
    ensures e.score == 0 && e.level == 1 && e.lives == 3 && e.gameState == Ready && e.nextDirection == None
    ensures e.now == startTime && e.pendingRespawns == 0 && e.pendingLevelStarts == 0
  {
    e := new GameEngine(startTime);
    e.InitializeMaze();
  }

  /** Scan the game's layout for dots, pellets and start positions; on this layout every
      start marker is present, so the start-position checks succeed. */
  method ParseLayout() returns (dots: seq<Point>, pellets: seq<Point>, pacmanStart: Point, ghostStarts: seq<Point>)
    ensures dots == CentresOf(MAZE_LAYOUT, '.') && pellets == CentresOf(MAZE_LAYOUT, 'o')
    ensures pacmanStart == PACMAN_START && ghostStarts == GHOST_STARTS
  {
    var scan := ScanLayout(MAZE_LAYOUT);
    MazeLayoutParses();
    var starts := ResolveStarts(scan);
    assert starts == Success(StartPositions(PACMAN_START, GHOST_STARTS));
    dots, pellets := scan.dots, scan.pellets;
    pacmanStart, ghostStarts := starts.value.pacman, starts.value.ghosts;
  }

  /** One new ghost per type, in type order, each at its start position at time `now`. */
  method SpawnGhosts(starts: seq<Point>, now: int) returns (roster: seq<Ghost>)
    requires |starts| == |GHOST_TYPES|
    ensures |roster| == |GHOST_TYPES|
    ensures forall k :: 0 <= k < |roster| ==>
      && fresh(roster[k].body) && roster[k].ghostType == GHOST_TYPES[k]
      && roster[k].initialX == starts[k].x && roster[k].initialY == starts[k].y
      && roster[k].body.x == starts[k].x && roster[k].body.y == starts[k].y
      && roster[k].body.direction == Right && !roster[k].scared && roster[k].cycleStart == now
    ensures forall k, l :: 0 <= k < l < |roster| ==> roster[k].body != roster[l].body
  {
    roster := [];
    var i := 0;
    while i < |GHOST_TYPES|
      invariant 0 <= i <= |GHOST_TYPES| && |roster| == i
      invariant forall k :: 0 <= k < i ==>
        && fresh(roster[k].body) && roster[k].ghostType == GHOST_TYPES[k]
        && roster[k].initialX == starts[k].x && roster[k].initialY == starts[k].y
        && roster[k].body.x == starts[k].x && roster[k].body.y == starts[k].y
        && roster[k].body.direction == Right && !roster[k].scared && roster[k].cycleStart == now
      invariant forall k, l :: 0 <= k < l < i ==> roster[k].body != roster[l].body
    {
      var g := new Ghost(starts[i].x, starts[i].y, CELL_SIZE, GHOST_TYPES[i], now);
      roster := roster + [g];
      i := i + 1;
    }
  }

  class GameEngine {
    /** The engine's traversal test, bound once and handed to every move as a callback. */
    const canMove: (real, real) -> bool
    const pacman: Pacman
    var ghosts: seq<Ghost>
    var dots: seq<Point>
    var powerPellets: seq<Point>
    var pacmanStartPosition: Point
    /** The buffered heading, applied at the next intersection. */
    var nextDirection: Option<Direction>
    var score: int
    var level: int
    var lives: int
    var gameState: GameState
    /** The engine's clock in milliseconds. */
    var now: int
    /** Respawns scheduled 1000 ms after a death and not yet fired. */
    var pendingRespawns: nat
    /** Level starts scheduled 2000 ms after a cleared board and not yet fired. */
    var pendingLevelStarts: nat

    /** The ghosts' bodies. */
    ghost function Bodies(): set<Entity>
      reads this`ghosts
    {
      set i | 0 <= i < |ghosts| :: ghosts[i].body
    }

    /** The counters and Pacman's own invariants. */
    ghost predicate Basics()
      reads this`level, this`score, pacman, pacman.body
    {
      && level >= 1 && score >= 0
      && pacman.body.speed == PACMAN_SPEED
      && pacman.PowerConsistent()
      && MouthWave(pacman.mouthAngle, pacman.mouthDirection)
    }

    /** One ghost per type, in GHOST_TYPES order, on bodies distinct from each other and from Pacman's. */
    ghost predicate Roster()
      reads this`ghosts, ghosts
    {
      && |ghosts| == |GHOST_TYPES|
      && (forall i :: 0 <= i < |ghosts| ==> ghosts[i].ghostType == GHOST_TYPES[i])
      && (forall i :: 0 <= i < |ghosts| ==> ghosts[i].body != pacman.body)
      && pacman.body !in Bodies()
      && (forall i, j :: 0 <= i < j < |ghosts| ==> ghosts[i].body != ghosts[j].body)
    }

    /** Every body and every spawn point passes the traversal test: nothing stands in a wall. */
    ghost predicate Placed()
      reads this`ghosts, this`pacmanStartPosition, pacman.body, Bodies()
    {
      && canMove(pacman.body.x, pacman.body.y)
      && canMove(pacmanStartPosition.x, pacmanStartPosition.y)
      && (forall i :: 0 <= i < |ghosts| ==> canMove(ghosts[i].body.x, ghosts[i].body.y))
      && (forall i :: 0 <= i < |ghosts| ==> canMove(ghosts[i].initialX, ghosts[i].initialY))
    }

    /** The bound callback is the maze's traversal test. */
    ghost predicate Linked() {
      forall x, y {:trigger CanMove(x, y)} :: canMove(x, y) == CanMove(x, y)
    }

    /** A ghost is scared only during power mode, and then it moves at the scared speed. */
    ghost predicate ScaredOnlyWhenPowered()
      reads this`ghosts, pacman, ghosts, Bodies()
    {
      forall i :: 0 <= i < |ghosts| ==> ghosts[i].scared ==> pacman.isPowered && ghosts[i].body.speed == SCARED_SPEED
    }

    /** Everything Valid requires except the tie between scared ghosts and power mode. */
    ghost predicate Core()
      reads this`level, this`score, this`ghosts, this`pacmanStartPosition, pacman, pacman.body, ghosts, Bodies()
    {
      Basics() && Roster() && Placed()
    }

    ghost predicate Valid()
      reads this`level, this`score, this`ghosts, this`pacmanStartPosition, pacman, pacman.body, ghosts, Bodies()
    {
      Core() && ScaredOnlyWhenPowered()
    }

    /** The board as a fresh parse of the layout leaves it. */
    ghost predicate Initialised()
      reads this`dots, this`powerPellets, this`pacmanStartPosition, this`level, this`now, this`ghosts, pacman, pacman.body, ghosts, Bodies()
      requires level >= 1
    {
      && dots == CentresOf(MAZE_LAYOUT, '.') && powerPellets == CentresOf(MAZE_LAYOUT, 'o')
      && pacmanStartPosition == PACMAN_START
      && pacman.body.x == PACMAN_START.x && pacman.body.y == PACMAN_START.y && pacman.body.direction == Right
      && !pacman.isPowered
      && |ghosts| == |GHOST_STARTS|
      && forall i :: 0 <= i < |ghosts| ==>
           && ghosts[i].initialX == GHOST_STARTS[i].x && ghosts[i].initialY == GHOST_STARTS[i].y
           && ghosts[i].body.x == GHOST_STARTS[i].x && ghosts[i].body.y == GHOST_STARTS[i].y
           && ghosts[i].body.direction == Right && !ghosts[i].scared
           && ghosts[i].body.speed == LevelGhostSpeed(level) && ghosts[i].cycleStart == now
    }

    /** The field initialisers of a new engine at time `startTime`: score 0, level 1, three
        lives, READY, an empty board; NewGame then parses the maze. */
    constructor (startTime: int)
      ensures Basics() && Linked() && fresh(pacman) && fresh(pacman.body)
      ensures score == 0 && level == 1 && lives == 3 && gameState == Ready && nextDirection == None
      ensures now == startTime && pendingRespawns == 0 && pendingLevelStarts == 0
      ensures ghosts == [] && dots == [] && powerPellets == []
    {
      score, level, lives := 0, 1, 3;
      gameState := Ready;
      nextDirection := None;
      now := startTime;
      pendingRespawns, pendingLevelStarts := 0, 0;
      pacmanStartPosition := Point(0.0, 0.0);
      pacman := new Pacman(0.0, 0.0, CELL_SIZE);
      var traversal := BindCanMove();
      canMove := traversal;
      ghosts, dots, powerPellets := [], [], [];
    }

    /** The bound callback accepts every start position of the game's layout. */
    lemma StartsPlaced()
      requires Linked()
      ensures canMove(PACMAN_START.x, PACMAN_START.y)
      ensures forall i :: 0 <= i < |GHOST_STARTS| ==> canMove(GHOST_STARTS[i].x, GHOST_STARTS[i].y)
    {
      StartCellsOpen();
    }

    /** A freshly parsed board with a proper roster is valid: every body stands on a start
        position, and those pass the traversal test. */
    lemma InitialisedValid()
      requires Basics() && Linked() && Initialised() && Roster()
      ensures Valid()
    {
      StartsPlaced();
    }

    /** Parse the layout into dots and pellets, put Pacman at his start, create one ghost per
        type at its start, and apply the level's ghost speed. On the game's layout the
        start-position checks never fail (MazeLayoutParses). */
    method InitializeMaze()
      requires Basics() && Linked()
      modifies this, pacman, pacman.body
      ensures Valid() && Initialised()
      ensures fresh(Bodies())
      ensures score == old(score) && level == old(level) && lives == old(lives) && gameState == old(gameState)
      ensures nextDirection == old(nextDirection) && now == old(now)
      ensures pendingRespawns == old(pendingRespawns) && pendingLevelStarts == old(pendingLevelStarts)
    {
      var ghostStarts;
      dots, powerPellets, pacmanStartPosition, ghostStarts := ParseLayout();
      pacman.Reset(pacmanStartPosition.x, pacmanStartPosition.y);
      var roster := SpawnGhosts(ghostStarts, now);
      ghosts := roster;
      ApplyLevelSettings();
      InitialisedValid();
    }

    /** Every ghost takes the ghost speed of the current level; nothing else changes. */
    method ApplyLevelSettings()
      requires level >= 1
      requires forall i, j :: 0 <= i < j < |ghosts| ==> ghosts[i].body != ghosts[j].body
      modifies Bodies()
      ensures forall i :: 0 <= i < |ghosts| ==> ghosts[i].body.speed == LevelGhostSpeed(level)
      ensures forall i :: 0 <= i < |ghosts| ==>
        ghosts[i].body.x == old(ghosts[i].body.x) && ghosts[i].body.y == old(ghosts[i].body.y)
        && ghosts[i].body.direction == old(ghosts[i].body.direction)
    {
      var speed := LevelGhostSpeed(level);
      var i := 0;
      while i < |ghosts|
        invariant 0 <= i <= |ghosts|
        invariant forall k :: 0 <= k < i ==> ghosts[k].body.speed == speed
        invariant forall k :: 0 <= k < |ghosts| ==>
          ghosts[k].body.x == old(ghosts[k].body.x) && ghosts[k].body.y == old(ghosts[k].body.y)
          && ghosts[k].body.direction == old(ghosts[k].body.direction)
      {
        ghosts[i].body.speed := speed;
        i := i + 1;
      }
    }

    /** READY or LEVEL_COMPLETE or PAUSED becomes PLAYING; PLAYING and GAME_OVER stay. */
    method Start()
      modifies this`gameState
      ensures old(gameState) in {Ready, LevelComplete, Paused} ==> gameState == Playing
      ensures old(gameState) in {Playing, GameOver} ==> gameState == old(gameState)
    {
      if gameState == Ready || gameState == LevelComplete {
        gameState := Playing;
      } else if gameState == Paused {
        gameState := Playing;
      }
    }

    /** PLAYING becomes PAUSED; every other state stays. */
    method Pause()
      modifies this`gameState
      ensures old(gameState) == Playing ==> gameState == Paused
      ensures old(gameState) != Playing ==> gameState == old(gameState)
    {
      if gameState == Playing {
        gameState := Paused;
      }
    }

    /** Score 0, level 1, three lives, READY, and the maze parsed afresh. */
    method Reset()
      requires Valid() && Linked()
      modifies this, pacman, pacman.body
      ensures Valid() && Initialised()
      ensures score == 0 && level == 1 && lives == 3 && gameState == Ready
      ensures nextDirection == old(nextDirection) && now == old(now)
      ensures pendingRespawns == old(pendingRespawns) && pendingLevelStarts == old(pendingLevelStarts)
    {
      score, level, lives := 0, 1, 3;
      gameState := Ready;
      InitializeMaze();
    }

    /** 'p' toggles between PLAYING and PAUSED; while PLAYING a movement key buffers its
        heading; every other key, and every key outside PLAYING, is ignored. */
    method HandleKeyDown(key: string)
      modifies this`gameState, this`nextDirection
      ensures key == "p" ==> nextDirection == old(nextDirection)
      ensures key == "p" && old(gameState) == Playing ==> gameState == Paused
      ensures key == "p" && old(gameState) == Paused ==> gameState == Playing
      ensures key == "p" && old(gameState) !in {Playing, Paused} ==> gameState == old(gameState)
      ensures key != "p" ==> gameState == old(gameState)
      ensures key != "p" ==>
        nextDirection == if old(gameState) == Playing && BufferedDirection(key).Some? then BufferedDirection(key) else old(nextDirection)
    {
      if key == "p" {
        if gameState == Playing {
          Pause();
        } else if gameState == Paused {
          Start();
        }
        return;
      }
      if gameState != Playing {
        return;
      }
      var d := BufferedDirection(key);
      if d.Some? {
        nextDirection := d;
      }
    }

    /** Apply the buffered heading: a reversal at once, any other turn only at an intersection
        and only if the cell one unit along the new heading is open, snapping to the cell centre. */
    method UpdatePacmanDirection()
      requires Valid() && Linked()
      modifies this`nextDirection, pacman.body
      ensures Valid()
      ensures pacman.body.speed == old(pacman.body.speed)
      ensures old(nextDirection).None? ==>
        && nextDirection == None && pacman.body.direction == old(pacman.body.direction)
        && pacman.body.x == old(pacman.body.x) && pacman.body.y == old(pacman.body.y)
      ensures old(nextDirection).Some? ==>
        var nd, x0, y0 := old(nextDirection).value, old(pacman.body.x), old(pacman.body.y);
        if nd == old(pacman.body.direction).Opposite() then
          pacman.body.direction == nd && nextDirection == None && pacman.body.x == x0 && pacman.body.y == y0
        else if IsAtIntersection(x0, y0, pacman.body.speed) && CanMove(StepX(x0, 1.0, nd), StepY(y0, 1.0, nd)) then
          pacman.body.direction == nd && nextDirection == None && pacman.body.x == Snap(x0) && pacman.body.y == Snap(y0)
        else
          pacman.body.direction == old(pacman.body.direction) && nextDirection == old(nextDirection)
          && pacman.body.x == x0 && pacman.body.y == y0
    {
      if nextDirection.None? {
        return;
      }
      var nd := nextDirection.value;
      var body := pacman.body;
      if nd == body.direction.Opposite() {
        body.direction := nd;
        nextDirection := None;
        return;
      }
      if IsAtIntersection(body.x, body.y, body.speed) {
        if canMove(StepX(body.x, 1.0, nd), StepY(body.y, 1.0, nd)) {
          SnapKeepsCanMove(body.x, body.y);
          body.x := Snap(body.x);
          body.y := Snap(body.y);
          body.direction := nd;
          nextDirection := None;
        }
      }
    }

    /** Every ghost scared and slowed; positions and headings unchanged. */
    method ScareAll()
      requires Core() && pacman.isPowered
      modifies ghosts, Bodies()
      ensures Valid()
      ensures forall i :: 0 <= i < |ghosts| ==> ghosts[i].scared && ghosts[i].body.speed == SCARED_SPEED
      ensures forall i :: 0 <= i < |ghosts| ==>
        ghosts[i].body.x == old(ghosts[i].body.x) && ghosts[i].body.y == old(ghosts[i].body.y)
        && ghosts[i].body.direction == old(ghosts[i].body.direction)
    {
      var i := 0;
      while i < |ghosts|
        invariant 0 <= i <= |ghosts|
        invariant forall k :: 0 <= k < i ==> ghosts[k].scared && ghosts[k].body.speed == SCARED_SPEED
        invariant forall k :: 0 <= k < |ghosts| ==>
          ghosts[k].body.x == old(ghosts[k].body.x) && ghosts[k].body.y == old(ghosts[k].body.y)
          && ghosts[k].body.direction == old(ghosts[k].body.direction)
      {
        ghosts[i].Scare();
        i := i + 1;
      }
    }

    /** Every ghost unscared at the normal ghost speed; positions and headings unchanged. */
    method UnScareAll()
      requires Core()
      modifies ghosts, Bodies()
      ensures Valid()
      ensures forall i :: 0 <= i < |ghosts| ==> !ghosts[i].scared && ghosts[i].body.speed == GHOST_SPEED
      ensures forall i :: 0 <= i < |ghosts| ==>
        ghosts[i].body.x == old(ghosts[i].body.x) && ghosts[i].body.y == old(ghosts[i].body.y)
        && ghosts[i].body.direction == old(ghosts[i].body.direction)
    {
      var i := 0;
      while i < |ghosts|
        invariant 0 <= i <= |ghosts|
        invariant forall k :: 0 <= k < i ==> !ghosts[k].scared && ghosts[k].body.speed == GHOST_SPEED
        invariant forall k :: 0 <= k < |ghosts| ==>
          ghosts[k].body.x == old(ghosts[k].body.x) && ghosts[k].body.y == old(ghosts[k].body.y)
          && ghosts[k].body.direction == old(ghosts[k].body.direction)
      {
        ghosts[i].UnScare();
        i := i + 1;
      }
    }

    /** Every ghost back at its spawn point, facing right, unscared at the normal ghost speed. */
    method ResetGhosts()
      requires Core()
      modifies ghosts, Bodies()
      ensures Valid()
      ensures forall i :: 0 <= i < |ghosts| ==>
        && ghosts[i].body.x == ghosts[i].initialX && ghosts[i].body.y == ghosts[i].initialY
        && ghosts[i].body.direction == Right && !ghosts[i].scared && ghosts[i].body.speed == GHOST_SPEED
    {
      var i := 0;
      while i < |ghosts|
        invariant 0 <= i <= |ghosts|
        invariant forall k :: 0 <= k < i ==>
          && ghosts[k].body.x == ghosts[k].initialX && ghosts[k].body.y == ghosts[k].initialY
          && ghosts[k].body.direction == Right && !ghosts[k].scared && ghosts[k].body.speed == GHOST_SPEED
      {
        ghosts[i].Reset();
        i := i + 1;
      }
    }

    /** The clock moves to t. A power-mode deadline that has passed fires: power mode ends and
        every ghost is unscared. */
    method AdvanceClock(t: int)
      requires Valid() && t >= now
      modifies this`now, pacman, ghosts, Bodies()
      ensures Valid() && now == t
      ensures var due := old(pacman.powerModeEndTime).Some? && old(pacman.powerModeEndTime).value <= t;
        && (due ==> && !pacman.isPowered && pacman.powerModeEndTime == None
                    && forall i :: 0 <= i < |ghosts| ==> !ghosts[i].scared && ghosts[i].body.speed == GHOST_SPEED)
        && (!due ==> PowerKept())
      ensures GhostsStayPut() && unchanged(pacman.body)
      ensures pacman.mouthAngle == old(pacman.mouthAngle) && pacman.mouthDirection == old(pacman.mouthDirection)
    {
      now := t;
      var expired := pacman.ExpirePowerMode(t);
      if expired {
        UnScareAll();
      }
    }

    /** The delayed continuation of a death fires: the game is PLAYING again, whatever state it was in. */
    method FireRespawnTimer()
      requires pendingRespawns > 0
      modifies this`gameState, this`pendingRespawns
      ensures gameState == Playing && pendingRespawns == old(pendingRespawns) - 1
    {
      gameState := Playing;
      pendingRespawns := pendingRespawns - 1;
    }

    /** The delayed continuation of a cleared board fires: the maze is parsed afresh and the game is PLAYING. */
    method FireLevelTimer()
      requires Valid() && Linked() && pendingLevelStarts > 0
      modifies this, pacman, pacman.body
      ensures Valid() && Initialised()
      ensures gameState == Playing && pendingLevelStarts == old(pendingLevelStarts) - 1
      ensures score == old(score) && level == old(level) && lives == old(lives) && pendingRespawns == old(pendingRespawns)
    {
      InitializeMaze();
      gameState := Playing;
      pendingLevelStarts := pendingLevelStarts - 1;
    }

    /** One life lost. With none left the game is over and nothing moves; otherwise Pacman and
        the ghosts go back to their spawn points, the game pauses, and a respawn is scheduled. */
    method HandlePacmanDeath()
      requires Valid()
      modifies this`lives, this`gameState, this`pendingRespawns, pacman, pacman.body, ghosts, Bodies()
      ensures Valid()
      ensures lives == old(lives) - 1
      ensures score == old(score) && level == old(level) && ghosts == old(ghosts)
      ensures dots == old(dots) && powerPellets == old(powerPellets) && pacmanStartPosition == old(pacmanStartPosition)
      ensures pendingLevelStarts == old(pendingLevelStarts) && now == old(now) && nextDirection == old(nextDirection)
      ensures lives <= 0 ==> && gameState == GameOver && pendingRespawns == old(pendingRespawns)
                             && unchanged(pacman, pacman.body) && unchanged(ghosts) && unchanged(Bodies())
      ensures lives > 0 ==> && gameState == Paused && pendingRespawns == old(pendingRespawns) + 1
                            && pacman.body.x == pacmanStartPosition.x && pacman.body.y == pacmanStartPosition.y
                            && pacman.body.direction == Right && !pacman.isPowered
                            && forall i :: 0 <= i < |ghosts| ==>
                                 && ghosts[i].body.x == ghosts[i].initialX && ghosts[i].body.y == ghosts[i].initialY
                                 && ghosts[i].body.direction == Right && !ghosts[i].scared && ghosts[i].body.speed == GHOST_SPEED
    {
      lives := lives - 1;
      if lives <= 0 {
        gameState := GameOver;
      } else {
        SendHome();
        PauseForRespawn();
      }
    }

    /** The game pauses and the respawn continuation is scheduled. */
    method PauseForRespawn()
      modifies this`gameState, this`pendingRespawns
      ensures gameState == Paused && pendingRespawns == old(pendingRespawns) + 1
    {
      gameState := Paused;
      pendingRespawns := pendingRespawns + 1;
    }

    /** Pacman and every ghost back to their spawn points, Pacman's power mode off. */
    method SendHome()
      requires Valid()
      modifies pacman, pacman.body, ghosts, Bodies()
      ensures Valid()
      ensures pacman.body.x == pacmanStartPosition.x && pacman.body.y == pacmanStartPosition.y
      ensures pacman.body.direction == Right && !pacman.isPowered
      ensures forall i :: 0 <= i < |ghosts| ==>
        && ghosts[i].body.x == ghosts[i].initialX && ghosts[i].body.y == ghosts[i].initialY
        && ghosts[i].body.direction == Right && !ghosts[i].scared && ghosts[i].body.speed == GHOST_SPEED
    {
      pacman.Reset(pacmanStartPosition.x, pacmanStartPosition.y);
      ResetGhosts();
    }

    /** The board is cleared: next level, LEVEL_COMPLETE, and a level start scheduled. */
    method HandleLevelComplete()
      requires Valid()
      modifies this`level, this`gameState, this`pendingLevelStarts
      ensures Valid()
      ensures level == old(level) + 1 && gameState == LevelComplete
      ensures pendingLevelStarts == old(pendingLevelStarts) + 1
    {
      level := level + 1;
      gameState := LevelComplete;
      pendingLevelStarts := pendingLevelStarts + 1;
    }

    /** Remove the dots within Pacman's reach, 10 points each. */
    method EatDots()
      requires Valid()
      modifies this`dots, this`score
      ensures Valid()
      ensures dots == Uneaten(old(dots), pacman.body.x, pacman.body.y)
      ensures score == old(score) + POINTS_DOT * EatenCount(old(dots), pacman.body.x, pacman.body.y)
    {
      var kept, eaten := Filter(dots, pacman.body.x, pacman.body.y);
      dots := kept;
      score := score + POINTS_DOT * eaten;
    }

    /** Power mode runs until POWER_MODE_DURATION from now and every ghost is scared. */
    ghost predicate PoweredAllScared()
      reads this`now, this`ghosts, pacman, ghosts, Bodies()
    {
      && pacman.isPowered && pacman.powerModeEndTime == Some(now + POWER_MODE_DURATION)
      && forall k :: 0 <= k < |ghosts| ==> ghosts[k].scared && ghosts[k].body.speed == SCARED_SPEED
    }

    /** Power mode and every ghost's scared state and speed are as they were. */
    twostate predicate PowerKept()
      reads this`ghosts, pacman, ghosts, Bodies()
    {
      && ghosts == old(ghosts)
      && pacman.isPowered == old(pacman.isPowered) && pacman.powerModeEndTime == old(pacman.powerModeEndTime)
      && forall k :: 0 <= k < |ghosts| ==> ghosts[k].scared == old(ghosts[k].scared) && ghosts[k].body.speed == old(ghosts[k].body.speed)
    }

    /** The roster is the same and every ghost keeps its position and heading. */
    twostate predicate GhostsStayPut()
      reads this`ghosts, Bodies()
    {
      && ghosts == old(ghosts)
      && forall k :: 0 <= k < |ghosts| ==>
           ghosts[k].body.x == old(ghosts[k].body.x) && ghosts[k].body.y == old(ghosts[k].body.y)
           && ghosts[k].body.direction == old(ghosts[k].body.direction)
    }

    /** The effect of one power pellet: 50 points, power mode restarted for its full duration
        from now, and every ghost scared. */
    method PowerUp()
      requires Valid()
      modifies this`score, pacman, ghosts, Bodies()
      ensures Valid() && score == old(score) + POINTS_POWER_PELLET
      ensures PoweredAllScared() && GhostsStayPut()
    {
      score := score + POINTS_POWER_PELLET;
      pacman.ActivatePowerMode(now, POWER_MODE_DURATION);
      ScareAll();
    }

    /** Remove the power pellets within Pacman's reach; each one eaten has the effect of
        PowerUp. Pacman does not move meanwhile, so the pellets eaten are decided by the filter
        alone and their effects may be applied after it. */
    method EatPowerPellets()
      requires Valid()
      modifies this`powerPellets, this`score, pacman, ghosts, Bodies()
      ensures Valid()
      ensures powerPellets == Uneaten(old(powerPellets), pacman.body.x, pacman.body.y)
      ensures score == old(score) + POINTS_POWER_PELLET * EatenCount(old(powerPellets), pacman.body.x, pacman.body.y)
      ensures EatenCount(old(powerPellets), pacman.body.x, pacman.body.y) > 0 ==> PoweredAllScared()
      ensures EatenCount(old(powerPellets), pacman.body.x, pacman.body.y) == 0 ==> PowerKept()
      ensures GhostsStayPut()
    {
      var kept, eaten := Filter(powerPellets, pacman.body.x, pacman.body.y);
      powerPellets := kept;
      var k := 0;
      while k < eaten
        invariant 0 <= k <= eaten && powerPellets == kept
        invariant Valid()
        invariant score == old(score) + POINTS_POWER_PELLET * k
        invariant k > 0 ==> PoweredAllScared()
        invariant k == 0 ==> PowerKept()
        invariant GhostsStayPut()
      {
        PowerUp();
        k := k + 1;
      }
    }

    /** Pacman against ghost i: a scared ghost is eaten (200 points, back to its spawn point);
        any other ghost costs a life. */
    method ResolveGhostContact(i: nat)
      requires Valid() && i < |ghosts|
      modifies this, pacman, pacman.body, ghosts, Bodies()
      ensures Valid()
      ensures ghosts == old(ghosts) && dots == old(dots) && powerPellets == old(powerPellets)
      ensures level == old(level) && pendingLevelStarts == old(pendingLevelStarts) && now == old(now)
      ensures !old(pacman.body.CollidesWith(ghosts[i].body, 1.0)) ==>
        unchanged(this) && unchanged(pacman, pacman.body) && unchanged(ghosts) && unchanged(Bodies())
      ensures old(pacman.body.CollidesWith(ghosts[i].body, 1.0)) && old(ghosts[i].scared) ==>
        && score == old(score) + POINTS_GHOST && lives == old(lives) && gameState == old(gameState)
        && pendingRespawns == old(pendingRespawns) && nextDirection == old(nextDirection)
        && unchanged(pacman, pacman.body)
        && ghosts[i].body.x == ghosts[i].initialX && ghosts[i].body.y == ghosts[i].initialY
        && ghosts[i].body.direction == Right && !ghosts[i].scared && ghosts[i].body.speed == GHOST_SPEED
        && (forall j :: 0 <= j < |ghosts| && j != i ==> unchanged(ghosts[j], ghosts[j].body))
      ensures old(pacman.body.CollidesWith(ghosts[i].body, 1.0)) && !old(ghosts[i].scared) ==>
        && score == old(score) && lives == old(lives) - 1 && nextDirection == old(nextDirection)
        && (lives <= 0 ==> && gameState == GameOver && pendingRespawns == old(pendingRespawns)
                           && unchanged(pacman, pacman.body) && unchanged(ghosts) && unchanged(Bodies()))
        && (lives > 0 ==> && gameState == Paused && pendingRespawns == old(pendingRespawns) + 1
                          && pacman.body.x == pacmanStartPosition.x && pacman.body.y == pacmanStartPosition.y
                          && pacman.body.direction == Right && !pacman.isPowered
                          && forall j :: 0 <= j < |ghosts| ==>
                               && ghosts[j].body.x == ghosts[j].initialX && ghosts[j].body.y == ghosts[j].initialY
                               && ghosts[j].body.direction == Right && !ghosts[j].scared && ghosts[j].body.speed == GHOST_SPEED)
    {
      var g := ghosts[i];
      if pacman.body.CollidesWith(g.body, 1.0) {
        if g.scared {
          score := score + POINTS_GHOST;
          g.Reset();
        } else {
          HandlePacmanDeath();
        }
      }
    }

    /** Pacman against each ghost in turn. */
    method ResolveGhostContacts()
      requires Valid()
      modifies this, pacman, pacman.body, ghosts, Bodies()
      ensures Valid()
      ensures ghosts == old(ghosts) && dots == old(dots) && powerPellets == old(powerPellets)
      ensures score >= old(score) && lives <= old(lives)
      ensures level == old(level) && pendingLevelStarts == old(pendingLevelStarts)
    {
      var i := 0;
      while i < |ghosts|
        invariant 0 <= i <= |ghosts|
        invariant Valid()
        invariant ghosts == old(ghosts) && dots == old(dots) && powerPellets == old(powerPellets)
        invariant score >= old(score) && lives <= old(lives)
        invariant level == old(level) && pendingLevelStarts == old(pendingLevelStarts)
      {
        ResolveGhostContact(i);
        i := i + 1;
      }
    }

    /** The collision phase of a frame: dots, then power pellets (both against Pacman's position
        at the start of the phase), then each ghost in turn, then the cleared-board check. */
    method CheckCollisions()
      requires Valid()
      modifies this, pacman, pacman.body, ghosts, Bodies()
      ensures Valid()
      ensures ghosts == old(ghosts)
      ensures dots == Uneaten(old(dots), old(pacman.body.x), old(pacman.body.y))
      ensures powerPellets == Uneaten(old(powerPellets), old(pacman.body.x), old(pacman.body.y))
      ensures score >= old(score) + POINTS_DOT * EatenCount(old(dots), old(pacman.body.x), old(pacman.body.y))
                                  + POINTS_POWER_PELLET * EatenCount(old(powerPellets), old(pacman.body.x), old(pacman.body.y))
      ensures lives <= old(lives)
      ensures |dots| == 0 && |powerPellets| == 0 ==>
        level == old(level) + 1 && gameState == LevelComplete && pendingLevelStarts == old(pendingLevelStarts) + 1
      ensures |dots| > 0 || |powerPellets| > 0 ==>
        level == old(level) && pendingLevelStarts == old(pendingLevelStarts)
    {
      ghost var px, py := pacman.body.x, pacman.body.y;
      EatDots();
      EatPowerPellets();
      assert pacman.body.x == px && pacman.body.y == py;
      ghost var eaten := score;
      ResolveGhostContacts();
      assert score >= eaten;
      if |dots| == 0 && |powerPellets| == 0 {
        HandleLevelComplete();
      }
    }

    /** Pacman's part of a frame: the buffered turn, one step along the heading if the target
        point is open, and one frame of the mouth animation. */
    method MovePacman()
      requires Valid() && Linked()
      modifies this`nextDirection, pacman, pacman.body
      ensures Valid()
      ensures (pacman.mouthAngle, pacman.mouthDirection) == MouthStep(old(pacman.mouthAngle), old(pacman.mouthDirection))
      ensures pacman.isPowered == old(pacman.isPowered) && pacman.powerModeEndTime == old(pacman.powerModeEndTime)
    {
      UpdatePacmanDirection();
      pacman.body.Move(canMove);
      pacman.UpdateMouth();
      MouthStepKeepsWave(old(pacman.mouthAngle), old(pacman.mouthDirection));
    }

    /** Ghost i's part of a frame: it picks a heading other than back the way it came, then
        steps along it if the target point is open. */
    method MoveGhost(i: nat, roll: real)
      requires Valid() && i < |ghosts| && 0.0 <= roll < 1.0
      modifies ghosts[i].body
      ensures Valid()
      ensures ghosts[i].body.direction != old(ghosts[i].body.direction).Opposite()
    {
      var g := ghosts[i];
      g.CalculateNextMove(pacman.body.x, pacman.body.y, pacman.body.direction, canMove, now, roll);
      g.body.Move(canMove);
    }

    /** One frame of the game loop, with one random number per ghost. Outside PLAYING nothing
        happens. Otherwise Pacman turns and moves, each ghost picks a heading and moves, and the
        collisions are resolved; no body ever ends a frame in a wall. */
    method Tick(rolls: seq<real>)
      requires Valid() && Linked()
      requires |rolls| == |ghosts| && forall i :: 0 <= i < |rolls| ==> 0.0 <= rolls[i] < 1.0
      modifies this, pacman, pacman.body, ghosts, Bodies()
      ensures Valid()
      ensures ghosts == old(ghosts)
      ensures score >= old(score) && lives <= old(lives) && level >= old(level)
      ensures old(gameState) != Playing ==> unchanged(this, pacman, pacman.body) && unchanged(ghosts) && unchanged(Bodies())
    {
      if gameState != Playing {
        return;
      }
      MovePacman();
      var i := 0;
      while i < |ghosts|
        invariant 0 <= i <= |ghosts|
        invariant Valid()
        invariant ghosts == old(ghosts)
        invariant score == old(score) && lives == old(lives) && level == old(level)
      {
        MoveGhost(i, rolls[i]);
        i := i + 1;
      }
      CheckCollisions();
    }
  }
}
