/** The touch controls: the swipe classification, the swipe start point it keeps, and the
    visibility flag of the on-screen buttons. */
module Touch {
  import opened Wrappers
  import opened GameConstants
  import opened Entities

  /** A swipe must move more than this many pixels along some axis to count. */
  const SWIPE_THRESHOLD: real := 30.0

  function Abs(v: real): real {
    if v < 0.0 then -v else v
  }

  /** Whether a displacement is large enough to count as a swipe. */
  predicate Significant(dx: real, dy: real) {
    Abs(dx) > SWIPE_THRESHOLD || Abs(dy) > SWIPE_THRESHOLD
  }

  /** The heading of a displacement (dx, dy) from the touch start, if it is a swipe at all: the
      horizontal heading when the horizontal part is strictly larger, the vertical one otherwise. */
  function SwipeDirection(dx: real, dy: real): (d: Option<Direction>)
    ensures d.None? <==> !Significant(dx, dy)
  {
    if !Significant(dx, dy) then None
    else if Abs(dx) > Abs(dy) then (if dx > 0.0 then Some(Right) else Some(Left))
    else if dy > 0.0 then Some(Down)
    else Some(Up)
  }

  /** The projection of (dx, dy) on the unit step of heading d. */
  function Projection(d: Direction, dx: real, dy: real): real {
    d.Dx() as real * dx + d.Dy() as real * dy
  }

  /** A swipe picks the heading the displacement points along most: its projection is the
      larger of |dx| and |dy| and no heading projects further; a horizontal heading is chosen
      only when the horizontal part strictly dominates, so a diagonal goes vertical. */
  lemma SwipeIsDominantAxis(dx: real, dy: real)
    requires Significant(dx, dy)
    ensures SwipeDirection(dx, dy).Some?
    ensures var d := SwipeDirection(dx, dy).value;
      && Projection(d, dx, dy) == (if Abs(dx) > Abs(dy) then Abs(dx) else Abs(dy))
      && (forall e: Direction :: Projection(e, dx, dy) <= Projection(d, dx, dy))
      && (d.Dx() != 0 <==> Abs(dx) > Abs(dy))
  {
  }

  /** Below the threshold on both axes nothing is emitted; past it, the four headings are
      emitted exactly on these four regions of the plane. */
  lemma SwipeRegions(dx: real, dy: real)
    ensures (Abs(dx) <= 30.0 && Abs(dy) <= 30.0) ==> SwipeDirection(dx, dy) == None
    ensures SwipeDirection(dx, dy) == Some(Right) <==> Abs(dx) > 30.0 && Abs(dx) > Abs(dy) && dx > 0.0
    ensures SwipeDirection(dx, dy) == Some(Left) <==> Abs(dx) > 30.0 && Abs(dx) > Abs(dy) && dx <= 0.0
    ensures SwipeDirection(dx, dy) == Some(Down) <==> Abs(dy) > 30.0 && Abs(dx) <= Abs(dy) && dy > 0.0
    ensures SwipeDirection(dx, dy) == Some(Up) <==> Abs(dy) > 30.0 && Abs(dx) <= Abs(dy) && dy <= 0.0
  {
  }

  /** Swiping the opposite way emits the opposite heading. */
  lemma SwipeReversed(dx: real, dy: real)
    requires Significant(dx, dy)
    ensures SwipeDirection(-dx, -dy) == Some(SwipeDirection(dx, dy).value.Opposite())
  {
    OppositePairs();
  }

  class MobileControls {
    var touchStartX: real
    var touchStartY: real
    /** Whether on-screen buttons were created (only on touch devices). */
    const hasControls: bool
    var controlsVisible: bool

    /** On a touch device the buttons are created and shown; elsewhere there are none. */
    constructor (touchDevice: bool)
      ensures touchStartX == 0.0 && touchStartY == 0.0
      ensures hasControls == touchDevice && controlsVisible == touchDevice
    {
      touchStartX, touchStartY := 0.0, 0.0;
      hasControls := touchDevice;
      controlsVisible := touchDevice;
    }

    /** A touch begins at (x, y): the swipe is measured from there. */
    method HandleTouchStart(x: real, y: real)
      modifies this`touchStartX, this`touchStartY
      ensures touchStartX == x && touchStartY == y
    {
      touchStartX := x;
      touchStartY := y;
    }

    /** The finger moves to `touch` (None when the event carries no touch point). A swipe emits
        its heading and starts the next swipe at the current point; a small move emits nothing
        and keeps the start point. */
    method HandleTouchMove(touch: Option<Point>) returns (emitted: Option<Direction>)
      modifies this`touchStartX, this`touchStartY
      ensures touch.None? ==> emitted.None?
      ensures touch.Some? ==> emitted == SwipeDirection(touch.value.x - old(touchStartX), touch.value.y - old(touchStartY))
      ensures emitted.Some? ==> touchStartX == touch.value.x && touchStartY == touch.value.y
      ensures emitted.None? ==> touchStartX == old(touchStartX) && touchStartY == old(touchStartY)
    {
      if touch.None? {
        return None;
      }
      var diffX := touch.value.x - touchStartX;
      var diffY := touch.value.y - touchStartY;
      emitted := None;
      if Abs(diffX) > SWIPE_THRESHOLD || Abs(diffY) > SWIPE_THRESHOLD {
        if Abs(diffX) > Abs(diffY) {
          if diffX > 0.0 {
            emitted := Some(Right);
          } else {
            emitted := Some(Left);
          }
        } else {
          if diffY > 0.0 {
            emitted := Some(Down);
          } else {
            emitted := Some(Up);
          }
        }
        touchStartX := touch.value.x;
        touchStartY := touch.value.y;
      }
    }

    /** Show or hide the buttons; without buttons nothing changes. Returns the resulting flag. */
    method ToggleControls() returns (visible: bool)
      modifies this`controlsVisible
      ensures hasControls ==> controlsVisible == !old(controlsVisible)
      ensures !hasControls ==> controlsVisible == old(controlsVisible)
      ensures visible == controlsVisible
    {
      if hasControls {
        controlsVisible := !controlsVisible;
      }
      visible := controlsVisible;
    }
  }

  /** A swipe emits one heading and moves the start point to the finger, so a second move
      event at the same point emits nothing. */
  method SwipeThenHold(x0: real, y0: real, x: real, y: real) returns (first: Option<Direction>, second: Option<Direction>)
    ensures first == SwipeDirection(x - x0, y - y0)
    ensures first.Some? ==> second.None?
    ensures first.None? ==> second == first
  {
    var controls := new MobileControls(true);
    controls.HandleTouchStart(x0, y0);
    first := controls.HandleTouchMove(Some(Point(x, y)));
    second := controls.HandleTouchMove(Some(Point(x, y)));
  }

  /** Toggling twice restores the visibility of the buttons. */
  method ToggleTwice(touchDevice: bool) returns (before: bool, after: bool)
    ensures before == touchDevice && after == before
  {
    var controls := new MobileControls(touchDevice);
    before := controls.controlsVisible;
    var shown := controls.ToggleControls();
    shown := controls.ToggleControls();
    after := shown;
  }
}
