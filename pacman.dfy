/** The player character: a body, a cosmetic mouth animation and a power-mode deadline. */
module Player {
  import opened GameConstants
  import opened Entities
  import opened Wrappers

  /** Pacman's speed. */
  const PACMAN_SPEED: real := 5.0

  /** The mouth angle is kept in hundredths of a radian: it starts at 20 (0.2) and
      moves by 2 (0.02) per frame. */
  const MOUTH_START: int := 20
  const MOUTH_STEP: int := 2
  const MOUTH_OPEN: int := 50

  /** The mouth animation state after one frame, from (angle, direction). */
  function MouthStep(angle: int, dir: int): (r: (int, int))
    ensures r.0 == angle + MOUTH_STEP * dir
    ensures r.0 >= MOUTH_OPEN ==> r.1 == -1
    ensures r.0 <= 0 ==> r.1 == 1
    ensures 0 < r.0 < MOUTH_OPEN ==> r.1 == dir
  {
    var a := angle + MOUTH_STEP * dir;
    if a >= MOUTH_OPEN then (a, -1) else if a <= 0 then (a, 1) else (a, dir)
  }

  /** The mouth animation state after n frames from the initial state. */
  function MouthAfter(n: nat): (int, int) {
    if n == 0 then (MOUTH_START, 1) else
      var prev := MouthAfter(n - 1);
      MouthStep(prev.0, prev.1)
  }

  /** The states the triangle wave moves through: an even angle in [0, 50], turning at both ends. */
  predicate MouthWave(angle: int, dir: int) {
    && 0 <= angle <= MOUTH_OPEN && angle % 2 == 0
    && (dir == 1 || dir == -1)
    && (angle == MOUTH_OPEN ==> dir == -1)
    && (angle == 0 ==> dir == 1)
  }

  /** One frame keeps the mouth on the wave. */
  lemma MouthStepKeepsWave(angle: int, dir: int)
    requires MouthWave(angle, dir)
    ensures MouthWave(MouthStep(angle, dir).0, MouthStep(angle, dir).1)
  {
  }

  /** From the initial state the mouth angle stays within [0, 0.5] forever. */
  lemma {:induction false} MouthStaysInRange(n: nat)
    ensures MouthWave(MouthAfter(n).0, MouthAfter(n).1)
    ensures 0 <= MouthAfter(n).0 <= MOUTH_OPEN
  {
    if n > 0 {
      MouthStaysInRange(n - 1);
      MouthStepKeepsWave(MouthAfter(n - 1).0, MouthAfter(n - 1).1);
    }
  }

  class Pacman {
    const body: Entity
    /** Mouth angle in hundredths of a radian. */
    var mouthAngle: int
    /** 1 while opening, -1 while closing. */
    var mouthDirection: int
    var isPowered: bool
    /** The time at which the pending power-mode timer fires; None when no timer is pending. */
    var powerModeEndTime: Option<int>

    /** The power flag is set exactly while an expiry is pending. */
    predicate PowerConsistent()
      reads this
    {
      isPowered <==> powerModeEndTime.Some?
    }

    constructor (x: real, y: real, size: real)
      ensures fresh(body)
      ensures body.x == x && body.y == y && body.speed == PACMAN_SPEED && body.size == size
      ensures body.direction == Right
      ensures mouthAngle == MOUTH_START && mouthDirection == 1
      ensures !isPowered && powerModeEndTime == None
      ensures PowerConsistent() && MouthWave(mouthAngle, mouthDirection)
    {
      body := new Entity(x, y, PACMAN_SPEED, size);
      mouthAngle := MOUTH_START;
      mouthDirection := 1;
      isPowered := false;
      powerModeEndTime := None;
    }

    /** Advance the mouth animation by one frame. */
    method UpdateMouth()
      modifies this
      ensures (mouthAngle, mouthDirection) == MouthStep(old(mouthAngle), old(mouthDirection))
      ensures mouthAngle == old(mouthAngle) + MOUTH_STEP * old(mouthDirection)
      ensures mouthAngle >= MOUTH_OPEN ==> mouthDirection == -1
      ensures 0 < mouthAngle < MOUTH_OPEN ==> mouthDirection == old(mouthDirection)
      ensures mouthAngle <= 0 ==> mouthDirection == 1
      ensures MouthWave(old(mouthAngle), old(mouthDirection)) ==> MouthWave(mouthAngle, mouthDirection)
      ensures isPowered == old(isPowered) && powerModeEndTime == old(powerModeEndTime)
    {
      mouthAngle := mouthAngle + MOUTH_STEP * mouthDirection;
      if mouthAngle >= MOUTH_OPEN {
        mouthDirection := -1;
      } else if mouthAngle <= 0 {
        mouthDirection := 1;
      }
    }

    /** Power mode for `duration` ms from time `now`: the deadline is replaced, never extended. */
    method ActivatePowerMode(now: int, duration: int)
      modifies this
      ensures isPowered && powerModeEndTime == Some(now + duration)
      ensures PowerConsistent()
      ensures mouthAngle == old(mouthAngle) && mouthDirection == old(mouthDirection)
    {
      isPowered := true;
      powerModeEndTime := Some(now + duration);
    }

    /** Fire the power-mode timer if it is pending and due at `now`; `expired` says
        whether it fired, in which case the engine un-scares the ghosts. */
    method ExpirePowerMode(now: int) returns (expired: bool)
      modifies this
      ensures expired <==> old(powerModeEndTime).Some? && old(powerModeEndTime).value <= now
      ensures expired ==> !isPowered && powerModeEndTime == None
      ensures !expired ==> isPowered == old(isPowered) && powerModeEndTime == old(powerModeEndTime)
      ensures old(PowerConsistent()) ==> PowerConsistent()
      ensures mouthAngle == old(mouthAngle) && mouthDirection == old(mouthDirection)
    {
      expired := powerModeEndTime.Some? && powerModeEndTime.value <= now;
      if expired {
        isPowered := false;
        powerModeEndTime := None;
      }
    }

    /** Back to (x, y) facing right, power mode off and its pending expiry cancelled. */
    method Reset(x: real, y: real)
      modifies this, body
      ensures body.x == x && body.y == y && body.direction == Right
      ensures body.speed == old(body.speed)
      ensures !isPowered && powerModeEndTime == None && PowerConsistent()
      ensures mouthAngle == old(mouthAngle) && mouthDirection == old(mouthDirection)
    {
      body.x := x;
      body.y := y;
      body.direction := Right;
      isPowered := false;
      powerModeEndTime := None;
    }
  }

  /** A second power pellet halfway through power mode restarts the full duration: still powered
      when the first deadline passes, and powered no more once the second one has; the timer
      fires once. */
  method PowerRefreshScenario(start: int) returns (atFirstDeadline: bool, afterSecondDeadline: bool, firedTwice: bool)
    ensures atFirstDeadline && !afterSecondDeadline && !firedTwice
  {
    var d := POWER_MODE_DURATION;
    var p := new Pacman(30.0, 30.0, CELL_SIZE);
    p.ActivatePowerMode(start, d);
    var fired := p.ExpirePowerMode(start + d / 2);
    p.ActivatePowerMode(start + d / 2, d);
    fired := p.ExpirePowerMode(start + d);
    atFirstDeadline := !fired && p.isPowered;
    fired := p.ExpirePowerMode(start + d + d / 2);
    afterSecondDeadline := p.isPowered;
    firedTwice := p.ExpirePowerMode(start + 2 * d);
  }

  /** A reset cancels a pending expiry: its callback never runs afterwards. */
  method ResetCancelsExpiry(start: int, later: int) returns (fired: bool, powered: bool)
    requires later >= start
    ensures !fired && !powered
  {
    var p := new Pacman(30.0, 30.0, CELL_SIZE);
    p.ActivatePowerMode(start, POWER_MODE_DURATION);
    p.Reset(30.0, 30.0);
    fired := p.ExpirePowerMode(later);
    powered := p.isPowered;
  }
}
