/** The ghosts: scatter corners, the scatter/chase clock, per-type chase targets, the greedy
    and the random choice of heading, and the scared state. */
module Ghosts {
  import opened GameConstants
  import opened Entities

  const GHOST_SPEED: real := 3.0
  const SCARED_SPEED: real := 2.0

  /** The behaviour cycle: 7 s of scatter, then 20 s of chase, repeated. */
  const SCATTER_MS: int := 7000
  const CHASE_MS: int := 20000
  const CYCLE_MS: int := SCATTER_MS + CHASE_MS

  /** The headings in the order the ghost examines them. */
  const DIRECTIONS: seq<Direction> := [Right, Down, Left, Up]

  /** The corner each ghost type retreats to in scatter mode. */
  function ScatterTarget(t: GhostType): (p: Point)
    ensures p.x == 0.0 || p.x == CELL_SIZE * 20.0
    ensures p.y == 0.0 || p.y == CELL_SIZE * 20.0
  {
    match t
    case Blinky => Point(400.0, 0.0)
    case Pinky => Point(0.0, 0.0)
    case Inky => Point(400.0, 400.0)
    case Clyde => Point(0.0, 400.0)
  }

  /** The scatter targets are the four corners of the 20 by 20 cell board, one per ghost. */
  lemma ScatterTargetsAreCorners()
    ensures forall t: GhostType ::
      var p := ScatterTarget(t);
      (p.x == 0.0 || p.x == CELL_SIZE * |MAZE_LAYOUT[0]| as real) &&
      (p.y == 0.0 || p.y == CELL_SIZE * |MAZE_LAYOUT| as real)
    ensures forall t, u: GhostType :: t != u ==> ScatterTarget(t) != ScatterTarget(u)
  {
    MazeShape();
  }

  /** Whether a cycle started at `start` is in its scatter phase at time `now`. */
  function InScatter(start: int, now: int): (r: bool)
    ensures start <= now < start + SCATTER_MS ==> r
    ensures start + SCATTER_MS <= now < start + CYCLE_MS ==> !r
  {
    (now - start) % CYCLE_MS < SCATTER_MS
  }

  /** A new cycle scatters for 7000 ms, chases for the next 20000 ms, and then repeats. */
  lemma BehaviourCycle(start: int, k: nat)
    ensures k < SCATTER_MS ==> InScatter(start, start + k)
    ensures SCATTER_MS <= k < CYCLE_MS ==> !InScatter(start, start + k)
    ensures InScatter(start, start + k + CYCLE_MS) == InScatter(start, start + k)
  {
    assert (start + k + CYCLE_MS - start) % CYCLE_MS == (k + CYCLE_MS) % CYCLE_MS == k % CYCLE_MS;
  }

  /** The chase-mode target of each ghost type, given Pacman's position and heading. */
  function ChaseTarget(t: GhostType, gx: real, gy: real, size: real, px: real, py: real, pdir: Direction): (p: Point)
    ensures t == Blinky ==> p == Point(px, py)
    ensures t == Pinky ==> p == Point(StepX(px, 4.0 * CELL_SIZE, pdir), StepY(py, 4.0 * CELL_SIZE, pdir))
    ensures t == Inky ==> p == Point(StepX(px, 2.0 * CELL_SIZE, pdir), StepY(py, 2.0 * CELL_SIZE, pdir))
    ensures t == Clyde && size >= 0.0 ==>
      p == if Dist2(gx, gy, px, py) > (8.0 * size) * (8.0 * size) then Point(px, py) else ScatterTarget(Clyde)
  {
    match t
    case Blinky => Point(px, py)
    case Pinky => Point(px + pdir.Dx() as real * 80.0, py + pdir.Dy() as real * 80.0)
    case Inky => Point(px + pdir.Dx() as real * 40.0, py + pdir.Dy() as real * 40.0)
    case Clyde =>
      if DistanceAbove(Dist2(gx, gy, px, py), 8.0 * size) then Point(px, py) else ScatterTarget(Clyde)
  }

  /** A heading the ghost may take: not the reversal of `cur`, and its step passes `canMove`. */
  predicate Candidate(canMove: (real, real) -> bool, x: real, y: real, speed: real, cur: Direction, d: Direction) {
    d != cur.Opposite() && canMove(StepX(x, speed, d), StepY(y, speed, d))
  }

  /** Squared distance from the one-step position along d to the target (tx, ty). */
  function StepDist(x: real, y: real, speed: real, d: Direction, tx: real, ty: real): real {
    Dist2(StepX(x, speed, d), StepY(y, speed, d), tx, ty)
  }

  /** The greedy choice: a candidate whose step is nearest the target, the earliest of
      right, down, left, up among equals; the current heading when there is no candidate. */
  predicate IsBestDirection(canMove: (real, real) -> bool, x: real, y: real, speed: real, cur: Direction,
                            tx: real, ty: real, d: Direction) {
    if exists e :: Candidate(canMove, x, y, speed, cur, e) then
      && Candidate(canMove, x, y, speed, cur, d)
      && (forall e :: Candidate(canMove, x, y, speed, cur, e) ==> StepDist(x, y, speed, d, tx, ty) <= StepDist(x, y, speed, e, tx, ty))
      && (forall e :: Candidate(canMove, x, y, speed, cur, e) && e.Index() < d.Index() ==>
            StepDist(x, y, speed, e, tx, ty) > StepDist(x, y, speed, d, tx, ty))
    else d == cur
  }

  /** The greedy choice never reverses, and at most one heading is the greedy choice. */
  lemma BestDirectionProperties(canMove: (real, real) -> bool, x: real, y: real, speed: real, cur: Direction,
                                tx: real, ty: real, d1: Direction, d2: Direction)
    requires IsBestDirection(canMove, x, y, speed, cur, tx, ty, d1)
    requires IsBestDirection(canMove, x, y, speed, cur, tx, ty, d2)
    ensures d1 != cur.Opposite()
    ensures d1 == d2
  {
  }

  /** Whether the headings of ds are in the order right, down, left, up, each at most once. */
  predicate InDirectionOrder(ds: seq<Direction>) {
    forall i, j :: 0 <= i < j < |ds| ==> ds[i].Index() < ds[j].Index()
  }

  /** The candidates among ds, in the order of ds. */
  function CandidatesIn(canMove: (real, real) -> bool, x: real, y: real, speed: real, cur: Direction,
                        ds: seq<Direction>): (r: seq<Direction>)
    ensures forall d :: d in r <==> d in ds && Candidate(canMove, x, y, speed, cur, d)
    ensures |r| <= |ds|
  {
    if ds == [] then [] else
      CandidatesIn(canMove, x, y, speed, cur, ds[..|ds| - 1])
      + (if Candidate(canMove, x, y, speed, cur, ds[|ds| - 1]) then [ds[|ds| - 1]] else [])
  }

  /** The candidates keep the order of ds. */
  lemma {:induction false} CandidatesInOrder(canMove: (real, real) -> bool, x: real, y: real, speed: real, cur: Direction,
                                             ds: seq<Direction>)
    requires InDirectionOrder(ds)
    ensures InDirectionOrder(CandidatesIn(canMove, x, y, speed, cur, ds))
  {
    if ds != [] {
      var init, last := ds[..|ds| - 1], ds[|ds| - 1];
      var r := CandidatesIn(canMove, x, y, speed, cur, init);
      CandidatesInOrder(canMove, x, y, speed, cur, init);
      forall k | 0 <= k < |r|
        ensures r[k].Index() < last.Index()
      {
        assert r[k] in r;
        var m :| 0 <= m < |init| && init[m] == r[k];
        assert ds[m] == r[k];
      }
    }
  }

  /** The headings the random choice picks from: the legal non-reversing ones. */
  function ValidDirections(canMove: (real, real) -> bool, x: real, y: real, speed: real, cur: Direction): (r: seq<Direction>)
    ensures forall d :: d in r <==> Candidate(canMove, x, y, speed, cur, d)
    ensures cur.Opposite() !in r
  {
    assert forall d: Direction :: DIRECTIONS[d.Index()] == d;
    CandidatesIn(canMove, x, y, speed, cur, DIRECTIONS)
  }

  /** The random choice's pool lists the headings in the order right, down, left, up, so the
      roll selects the same heading as a scan of the four headings in that order. */
  lemma ValidDirectionsInOrder(canMove: (real, real) -> bool, x: real, y: real, speed: real, cur: Direction)
    ensures InDirectionOrder(ValidDirections(canMove, x, y, speed, cur))
  {
    assert InDirectionOrder(DIRECTIONS);
    CandidatesInOrder(canMove, x, y, speed, cur, DIRECTIONS);
  }

  /** Math.floor(Math.random() * n) for a random number `roll` in [0, 1). */
  function RandomIndex(roll: real, n: nat): (i: nat)
    requires 0.0 <= roll < 1.0 && n > 0
    ensures i < n
  {
    var scaled := roll * n as real;
    assert scaled < n as real;
    scaled.Floor
  }

  class Ghost {
    const body: Entity
    const ghostType: GhostType
    const initialX: real
    const initialY: real
    const scatterTarget: Point
    /** The time at which this ghost's behaviour cycle started (its construction). */
    const cycleStart: int
    var scared: bool

    constructor (x: real, y: real, size: real, t: GhostType, now: int)
      ensures fresh(body)
      ensures body.x == x && body.y == y && body.speed == GHOST_SPEED && body.size == size
      ensures body.direction == Right
      ensures ghostType == t && initialX == x && initialY == y
      ensures scatterTarget == ScatterTarget(t) && cycleStart == now && !scared
      ensures ScatterMode(now)
    {
      body := new Entity(x, y, GHOST_SPEED, size);
      ghostType := t;
      initialX, initialY := x, y;
      scatterTarget := ScatterTarget(t);
      cycleStart := now;
      scared := false;
    }

    /** Whether the ghost is in scatter mode at time `now`. */
    function ScatterMode(now: int): (r: bool)
      ensures cycleStart <= now < cycleStart + SCATTER_MS ==> r
      ensures cycleStart + SCATTER_MS <= now < cycleStart + CYCLE_MS ==> !r
    {
      InScatter(cycleStart, now)
    }

    /** The target the ghost heads for when it is not scared. */
    function Target(now: int, px: real, py: real, pdir: Direction): (p: Point)
      reads body
      ensures ScatterMode(now) ==> p == scatterTarget
      ensures !ScatterMode(now) && ghostType == Blinky ==> p == Point(px, py)
      ensures !ScatterMode(now) && (ghostType == Pinky || ghostType == Inky) ==>
        (p.x == px || p.y == py) && p != Point(px, py)
      ensures !ScatterMode(now) && ghostType == Clyde ==> p == Point(px, py) || p == ScatterTarget(Clyde)
    {
      if ScatterMode(now) then scatterTarget else ChaseTarget(ghostType, body.x, body.y, body.size, px, py, pdir)
    }

    /** Choose the heading for this frame: a random legal one when scared, otherwise the greedy
        choice towards the scatter corner or the chase target. */
    method CalculateNextMove(px: real, py: real, pdir: Direction, canMove: (real, real) -> bool, now: int, roll: real)
      requires 0.0 <= roll < 1.0
      modifies body
      ensures body.x == old(body.x) && body.y == old(body.y) && body.speed == old(body.speed)
      ensures scared ==> RandomChoice(canMove, roll, old(body.direction), body.direction)
      ensures !scared ==> var target := old(Target(now, px, py, pdir));
        IsBestDirection(canMove, body.x, body.y, body.speed, old(body.direction), target.x, target.y, body.direction)
      ensures body.direction != old(body.direction).Opposite()
    {
      if scared {
        CalculateRandomMove(canMove, roll);
        return;
      }
      var tx: real;
      var ty: real;
      if ScatterMode(now) {
        tx, ty := scatterTarget.x, scatterTarget.y;
      } else {
        var target := ChaseTarget(ghostType, body.x, body.y, body.size, px, py, pdir);
        tx, ty := target.x, target.y;
      }
      CalculateBestDirection(tx, ty, canMove);
      BestDirectionProperties(canMove, body.x, body.y, body.speed, old(body.direction), tx, ty, body.direction, body.direction);
    }

    /** The outcome of the random choice from heading `cur`, for random number `roll`. */
    predicate RandomChoice(canMove: (real, real) -> bool, roll: real, cur: Direction, d: Direction)
      requires 0.0 <= roll < 1.0
      reads body
    {
      var valid := ValidDirections(canMove, body.x, body.y, body.speed, cur);
      if |valid| > 0 then d == valid[RandomIndex(roll, |valid|)] else d == cur
    }

    /** Turn to the legal non-reversing heading whose step lands nearest (tx, ty). */
    method CalculateBestDirection(tx: real, ty: real, canMove: (real, real) -> bool)
      modifies body
      ensures body.x == old(body.x) && body.y == old(body.y) && body.speed == old(body.speed)
      ensures IsBestDirection(canMove, body.x, body.y, body.speed, old(body.direction), tx, ty, body.direction)
    {
      var cur := body.direction;
      var best := cur;
      var shortest: real := 0.0;
      var found := false;
      var opposite := cur.Opposite();
      var i := 0;
      while i < |DIRECTIONS|
        invariant 0 <= i <= |DIRECTIONS|
        invariant body.direction == cur
        invariant !found ==> best == cur && forall e: Direction :: e.Index() < i ==> !Candidate(canMove, body.x, body.y, body.speed, cur, e)
        invariant found ==> && Candidate(canMove, body.x, body.y, body.speed, cur, best)
                            && best.Index() < i
                            && shortest == StepDist(body.x, body.y, body.speed, best, tx, ty)
                            && (forall e: Direction :: e.Index() < i && Candidate(canMove, body.x, body.y, body.speed, cur, e) ==>
                                  shortest <= StepDist(body.x, body.y, body.speed, e, tx, ty))
                            && (forall e: Direction :: e.Index() < best.Index() && Candidate(canMove, body.x, body.y, body.speed, cur, e) ==>
                                  StepDist(body.x, body.y, body.speed, e, tx, ty) > shortest)
      {
        var direction := DIRECTIONS[i];
        assert direction.Index() == i;
        if direction != opposite {
          var newX := StepX(body.x, body.speed, direction);
          var newY := StepY(body.y, body.speed, direction);
          if canMove(newX, newY) {
            var distance := Dist2(newX, newY, tx, ty);
            if !found || distance < shortest {
              shortest := distance;
              best := direction;
              found := true;
            }
          }
        }
        i := i + 1;
      }
      body.direction := best;
    }

    /** Turn to a random legal non-reversing heading, if there is one. */
    method CalculateRandomMove(canMove: (real, real) -> bool, roll: real)
      requires 0.0 <= roll < 1.0
      modifies body
      ensures body.x == old(body.x) && body.y == old(body.y) && body.speed == old(body.speed)
      ensures RandomChoice(canMove, roll, old(body.direction), body.direction)
      ensures body.direction == old(body.direction) || Candidate(canMove, body.x, body.y, body.speed, old(body.direction), body.direction)
      ensures body.direction != old(body.direction).Opposite()
    {
      var x, y, speed, cur := body.x, body.y, body.speed, body.direction;
      var validDirections: seq<Direction> := [];
      var opposite := cur.Opposite();
      var i := 0;
      while i < |DIRECTIONS|
        invariant 0 <= i <= |DIRECTIONS|
        invariant validDirections == CandidatesIn(canMove, x, y, speed, cur, DIRECTIONS[..i])
      {
        var direction := DIRECTIONS[i];
        assert DIRECTIONS[..i + 1][..i] == DIRECTIONS[..i];
        var newX := StepX(x, speed, direction);
        var newY := StepY(y, speed, direction);
        if direction != opposite && canMove(newX, newY) {
          validDirections := validDirections + [direction];
        }
        i := i + 1;
      }
      assert DIRECTIONS[..i] == DIRECTIONS;
      assert validDirections == ValidDirections(canMove, x, y, speed, cur);
      if |validDirections| > 0 {
        var k := RandomIndex(roll, |validDirections|);
        body.direction := validDirections[k];
      }
    }

    /** Power mode: scared and slowed down. */
    method Scare()
      modifies this, body
      ensures scared && body.speed == SCARED_SPEED
      ensures body.x == old(body.x) && body.y == old(body.y) && body.direction == old(body.direction)
    {
      scared := true;
      body.speed := SCARED_SPEED;
    }

    /** End of power mode: back to normal speed. */
    method UnScare()
      modifies this, body
      ensures !scared && body.speed == GHOST_SPEED
      ensures body.x == old(body.x) && body.y == old(body.y) && body.direction == old(body.direction)
    {
      scared := false;
      body.speed := GHOST_SPEED;
    }

    /** Back to the spawn position, facing right, unscared at normal speed. */
    method Reset()
      modifies this, body
      ensures body.x == initialX && body.y == initialY && body.direction == Right
      ensures !scared && body.speed == GHOST_SPEED
    {
      body.x := initialX;
      body.y := initialY;
      body.direction := Right;
      scared := false;
      body.speed := GHOST_SPEED;
    }
  }
}
