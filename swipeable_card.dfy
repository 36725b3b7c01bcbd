/** The swipe gesture of components/ui/SwipeableCard.tsx: a horizontal drag of a card that
    reveals a left action (dragging to the right) or a right action (dragging to the left), with
    resistance past the threshold, a haptic tick when the threshold is crossed, and the action
    committed when the finger is lifted beyond it. Distances are exact reals. */
module Swipeable {
  import opened Wrappers
  import opened RealMath

  /** `isHorizontalSwipe`: `null` until the first significant movement, then `true` or
      `false` for the rest of the gesture. */
  datatype Axis = Undecided | Horizontal | Vertical

  /** The two actions: `Left` is revealed by a positive offset, `Right` by a negative one. */
  datatype Side = Left | Right

  /** The component's props that the gesture reads. */
  datatype Props = Props(hasLeft: bool, hasRight: bool, threshold: real, disabled: bool)

  /** The state and refs of the component: `offsetX`, `isDragging`, `startX`, `startY`,
      `isHorizontalSwipe`, `hasTriggeredHaptic`. */
  datatype CardState = CardState(offset: real, dragging: bool, startX: real, startY: real,
                                 axis: Axis, hapticFired: bool)

  /** A touch sample. */
  datatype Point = Point(x: real, y: real)

  /** The state after a move, and whether the medium haptic fired. */
  datatype MoveResult = MoveResult(card: CardState, buzz: bool)

  /** The state after the finger is lifted, and the action triggered, if any. */
  datatype EndResult = EndResult(card: CardState, fired: Option<Side>)

  /** The default threshold, 80. */
  const DefaultThreshold: real := 80.0

  const InitialState := CardState(0.0, false, 0.0, 0.0, Undecided, false)

  function HasAction(p: Props, side: Side): bool {
    match side
    case Left => p.hasLeft
    case Right => p.hasRight
  }

  /** The action an offset points at: the left one for a positive offset, else the right. */
  function SideOf(offset: real): Side {
    if offset > 0.0 then Left else Right
  }

  /** A drag of `dx` is toward a side that has an action (a drag of 0 counts as one). */
  predicate TowardAction(dx: real, hasLeft: bool, hasRight: bool) {
    (dx > 0.0 ==> hasLeft) && (dx < 0.0 ==> hasRight)
  }

  /** The offset curve: toward a side without an action, a fifth of the drag capped at 20;
      toward a side with one, the drag itself up to the threshold, then the threshold plus
      three tenths of the excess, clamped to the threshold plus 20. The offset keeps the sign
      of the drag. */
  function Offset(dx: real, threshold: real, hasLeft: bool, hasRight: bool): (r: real)
    ensures !TowardAction(dx, hasLeft, hasRight) ==>
              Abs(r) <= 20.0 && (Abs(dx) <= 100.0 ==> r == dx * 0.2)
    ensures TowardAction(dx, hasLeft, hasRight) && Abs(dx) <= threshold ==> r == dx
    ensures TowardAction(dx, hasLeft, hasRight) && 0.0 <= threshold < Abs(dx) ==>
              Abs(r) == Min(threshold + (Abs(dx) - threshold) * 0.3, threshold + 20.0)
    ensures threshold >= 0.0 ==> Abs(r) <= threshold + 20.0 && Sign(r) == Sign(dx)
  {
    var maxOffset := threshold + 20.0;
    if dx > 0.0 && !hasLeft then
      Min(dx * 0.2, 20.0)
    else if dx < 0.0 && !hasRight then
      Max(dx * 0.2, -20.0)
    else
      var resisted :=
        if Abs(dx) > threshold then Sign(dx) * (threshold + (Abs(dx) - threshold) * 0.3)
        else dx;
      Max(-maxOffset, Min(maxOffset, resisted))
  }

  /** Toward a side with an action, the offset reaches the threshold exactly when the drag
      does. */
  lemma OffsetReachesThreshold(dx: real, threshold: real, hasLeft: bool, hasRight: bool)
    requires threshold >= 0.0 && TowardAction(dx, hasLeft, hasRight)
    ensures Abs(Offset(dx, threshold, hasLeft, hasRight)) >= threshold <==> Abs(dx) >= threshold
  {
  }

  /** A longer drag never gives a smaller offset. */
  lemma OffsetMonotone(dx1: real, dx2: real, threshold: real, hasLeft: bool, hasRight: bool)
    requires threshold >= 0.0 && dx1 <= dx2
    ensures Offset(dx1, threshold, hasLeft, hasRight) <= Offset(dx2, threshold, hasLeft, hasRight)
  {
  }

  /** The axis of the gesture: decided at the first sample that moves more than 10 in either
      direction, horizontal iff the horizontal movement is the larger, and kept once decided. */
  function DecideAxis(axis: Axis, dx: real, dy: real): (r: Axis)
    ensures axis != Undecided ==> r == axis
    ensures axis == Undecided ==>
              (r == Undecided <==> Abs(dx) <= 10.0 && Abs(dy) <= 10.0)
              && (r == Horizontal <==> (Abs(dx) > 10.0 || Abs(dy) > 10.0) && Abs(dx) > Abs(dy))
  {
    if axis == Undecided && (Abs(dx) > 10.0 || Abs(dy) > 10.0) then
      if Abs(dx) > Abs(dy) then Horizontal else Vertical
    else
      axis
  }

  /** `handleTouchStart`: unless disabled, records the start point, forgets the axis, re-arms
      the haptic and starts dragging; the offset is left as it was. */
  function Start(p: Props, c: CardState, x: real, y: real): (r: CardState)
    ensures p.disabled ==> r == c
    ensures !p.disabled ==> r.dragging && r.axis == Undecided && !r.hapticFired
                            && r.startX == x && r.startY == y && r.offset == c.offset
  {
    if p.disabled then c
    else c.(startX := x, startY := y, axis := Undecided, hapticFired := false, dragging := true)
  }

  /** `handleTouchMove` on a sample at (`x`, `y`). */
  function Move(p: Props, c: CardState, x: real, y: real): (r: MoveResult)
    ensures p.disabled || !c.dragging ==> r == MoveResult(c, false)
    ensures r.card.dragging == c.dragging && r.card.startX == c.startX && r.card.startY == c.startY
    ensures !p.disabled && c.dragging ==> r.card.axis == DecideAxis(c.axis, x - c.startX, y - c.startY)
    ensures r.card.axis != Horizontal ==>
              r.card.offset == c.offset && r.card.hapticFired == c.hapticFired && !r.buzz
    ensures !p.disabled && c.dragging && r.card.axis == Horizontal ==>
              r.card.offset == Offset(x - c.startX, p.threshold, p.hasLeft, p.hasRight)
    ensures r.buzz <==> !c.hapticFired && r.card.hapticFired
    ensures r.buzz ==> HasAction(p, SideOf(r.card.offset)) && Abs(r.card.offset) >= p.threshold
    ensures c.hapticFired && !r.card.hapticFired ==> Abs(r.card.offset) < p.threshold
  {
    if p.disabled || !c.dragging then MoveResult(c, false)
    else
      var dx, dy := x - c.startX, y - c.startY;
      var axis := DecideAxis(c.axis, dx, dy);
      if axis != Horizontal then MoveResult(c.(axis := axis), false)
      else
        ShowOffset(p, c.(axis := axis, offset := Offset(dx, p.threshold, p.hasLeft, p.hasRight)))
  }

  /** The haptic edge rule once a horizontal move has set the offset of `moved`: the haptic
      fires when the offset reaches the threshold on a side with an action and it has not yet
      fired, and re-arms when the offset drops back below the threshold. */
  function ShowOffset(p: Props, moved: CardState): MoveResult {
    var o := moved.offset;
    if HasAction(p, SideOf(o)) && Abs(o) >= p.threshold && !moved.hapticFired then
      MoveResult(moved.(hapticFired := true), true)
    else if Abs(o) < p.threshold && moved.hapticFired then
      MoveResult(moved.(hapticFired := false), false)
    else
      MoveResult(moved, false)
  }

  /** `handleTouchEnd`: unless disabled or not dragging, stops dragging, triggers the action
      the offset points at when the offset has reached the threshold and that action exists,
      and puts the card back with the axis forgotten. */
  function End(p: Props, c: CardState): (r: EndResult)
    ensures p.disabled || !c.dragging ==> r == EndResult(c, None)
    ensures !p.disabled && c.dragging ==>
              r.card == c.(dragging := false, offset := 0.0, axis := Undecided)
    ensures r.fired.Some? <==>
              !p.disabled && c.dragging && Abs(c.offset) >= p.threshold && HasAction(p, SideOf(c.offset))
    ensures r.fired.Some? ==> r.fired.value == SideOf(c.offset)
  {
    if p.disabled || !c.dragging then EndResult(c, None)
    else
      var fired := if Abs(c.offset) >= p.threshold && HasAction(p, SideOf(c.offset))
                   then Some(SideOf(c.offset)) else None;
      EndResult(c.(dragging := false, offset := 0.0, axis := Undecided), fired)
  }

  /** How far the left action is revealed: 0 without a left action, else the offset over the
      threshold, kept within 0 to 1. */
  function LeftProgress(p: Props, offset: real): (r: real)
    requires p.threshold > 0.0
    ensures 0.0 <= r <= 1.0
    ensures !p.hasLeft ==> r == 0.0
    ensures p.hasLeft ==> (r == 1.0 <==> offset >= p.threshold) && (r == 0.0 <==> offset <= 0.0)
    ensures p.hasLeft && 0.0 <= offset <= p.threshold ==> r * p.threshold == offset
  {
    if p.hasLeft then Min(Max(offset / p.threshold, 0.0), 1.0) else 0.0
  }

  /** How far the right action is revealed, for negative offsets. */
  function RightProgress(p: Props, offset: real): (r: real)
    requires p.threshold > 0.0
    ensures 0.0 <= r <= 1.0
    ensures !p.hasRight ==> r == 0.0
    ensures p.hasRight ==> (r == 1.0 <==> -offset >= p.threshold) && (r == 0.0 <==> offset >= 0.0)
    ensures p.hasRight && 0.0 <= -offset <= p.threshold ==> r * p.threshold == -offset
  {
    if p.hasRight then Min(Max(-offset / p.threshold, 0.0), 1.0) else 0.0
  }

  // ---------------------------------------------------------------------------------------
  // Gestures: a start, a run of moves, an end

  /** The state after a run of moves, with the number of haptic ticks and of re-armings (moves
      that cleared the haptic flag). */
  datatype Trace = Trace(card: CardState, buzzes: nat, rearms: nat)

  function Moves(p: Props, c: CardState, pts: seq<Point>): (t: Trace)
    decreases |pts|
  {
    if pts == [] then Trace(c, 0, 0)
    else
      var m := Move(p, c, pts[0].x, pts[0].y);
      var rest := Moves(p, m.card, pts[1..]);
      Trace(rest.card, rest.buzzes + (if m.buzz then 1 else 0),
            rest.rearms + (if c.hapticFired && !m.card.hapticFired then 1 else 0))
  }

  /** The axis a run of samples settles on, read off the samples alone: that of the first
      sample moving more than 10 from the start point. */
  function FirstAxis(startX: real, startY: real, pts: seq<Point>): Axis
    decreases |pts|
  {
    if pts == [] then Undecided
    else
      var axis := DecideAxis(Undecided, pts[0].x - startX, pts[0].y - startY);
      if axis != Undecided then axis else FirstAxis(startX, startY, pts[1..])
  }

  /** Moves do not start or stop a drag, nor move the start point. */
  lemma {:induction false} MovesKeepDrag(p: Props, c: CardState, pts: seq<Point>)
    ensures var t := Moves(p, c, pts).card;
      t.dragging == c.dragging && t.startX == c.startX && t.startY == c.startY
    ensures p.disabled || !c.dragging ==> Moves(p, c, pts) == Trace(c, 0, 0)
    decreases |pts|
  {
    if pts != [] {
      MovesKeepDrag(p, Move(p, c, pts[0].x, pts[0].y).card, pts[1..]);
    }
  }

  /** During a drag the axis is decided once, by the first significant sample, and never
      re-decided. */
  lemma {:induction false} AxisDecidedOnce(p: Props, c: CardState, pts: seq<Point>)
    requires !p.disabled && c.dragging
    ensures Moves(p, c, pts).card.axis
         == if c.axis != Undecided then c.axis else FirstAxis(c.startX, c.startY, pts)
    decreases |pts|
  {
    if pts != [] {
      var m := Move(p, c, pts[0].x, pts[0].y);
      AxisDecidedOnce(p, m.card, pts[1..]);
    }
  }

  /** While the axis is not horizontal the offset stays where it was. */
  lemma {:induction false} NoOffsetOffAxis(p: Props, c: CardState, pts: seq<Point>)
    requires Moves(p, c, pts).card.axis != Horizontal
    ensures Moves(p, c, pts).card.offset == c.offset
    decreases |pts|
  {
    if pts != [] {
      var m := Move(p, c, pts[0].x, pts[0].y);
      if m.card.axis == Horizontal {
        AxisKept(p, m.card, pts[1..]);
      }
      NoOffsetOffAxis(p, m.card, pts[1..]);
    }
  }

  /** A decided axis is never changed by later moves. */
  lemma {:induction false} AxisKept(p: Props, c: CardState, pts: seq<Point>)
    requires c.axis != Undecided
    ensures Moves(p, c, pts).card.axis == c.axis
    decreases |pts|
  {
    if pts != [] {
      AxisKept(p, Move(p, c, pts[0].x, pts[0].y).card, pts[1..]);
    }
  }

  /** The haptic ticks once per excursion beyond the threshold: every tick after the first
      needs a re-arming, which only a move back below the threshold does. Exactly: ticks plus
      "the flag is clear at the end" equals "the flag was clear at the start" plus
      re-armings. */
  lemma {:induction false} HapticBalance(p: Props, c: CardState, pts: seq<Point>)
    ensures var t := Moves(p, c, pts);
      t.buzzes + (if t.card.hapticFired then 0 else 1) == (if c.hapticFired then 0 else 1) + t.rearms
    decreases |pts|
  {
    if pts != [] {
      HapticBalance(p, Move(p, c, pts[0].x, pts[0].y).card, pts[1..]);
    }
  }

  /** A gesture that never comes back below the threshold ticks at most once. */
  lemma HapticAtMostOnce(p: Props, c: CardState, x: real, y: real, pts: seq<Point>)
    requires Moves(p, Start(p, c, x, y), pts).rearms == 0
    ensures !p.disabled ==> Moves(p, Start(p, c, x, y), pts).buzzes <= 1
  {
    HapticBalance(p, Start(p, c, x, y), pts);
  }

  /** After a whole gesture, the card is back in place, not dragging, with the axis forgotten;
      at most the one action the last offset points at was triggered, and a second lift of
      the finger triggers nothing. */
  lemma GestureEnds(p: Props, c: CardState, x: real, y: real, pts: seq<Point>)
    requires !p.disabled
    ensures var last := Moves(p, Start(p, c, x, y), pts).card;
      var e := End(p, last);
      e.card.offset == 0.0 && !e.card.dragging && e.card.axis == Undecided
      && (e.fired.Some? <==> Abs(last.offset) >= p.threshold && HasAction(p, SideOf(last.offset)))
      && End(p, e.card).fired == None
      && Moves(p, e.card, pts).card == e.card
  {
    var s := Start(p, c, x, y);
    MovesKeepDrag(p, s, pts);
    var e := End(p, Moves(p, s, pts).card);
    MovesKeepDrag(p, e.card, pts);
  }

  // ---------------------------------------------------------------------------------------
  // The component

  /** The component with its state and refs as fields; each handler updates them as the
      corresponding function says. */
  class SwipeableCard {
    const props: Props
    var offsetX: real
    var isDragging: bool
    var startX: real
    var startY: real
    var isHorizontalSwipe: Axis
    var hasTriggeredHaptic: bool

    function State(): CardState
      reads this
    {
      CardState(offsetX, isDragging, startX, startY, isHorizontalSwipe, hasTriggeredHaptic)
    }

    constructor (hasLeft: bool, hasRight: bool, threshold: real, disabled: bool)
      ensures props == Props(hasLeft, hasRight, threshold, disabled)
      ensures State() == InitialState
    {
      props := Props(hasLeft, hasRight, threshold, disabled);
      offsetX, isDragging, startX, startY := 0.0, false, 0.0, 0.0;
      isHorizontalSwipe, hasTriggeredHaptic := Undecided, false;
    }

    method TouchStart(x: real, y: real)
      modifies this
      ensures State() == Start(props, old(State()), x, y)
    {
      if props.disabled {
        return;
      }
      startX := x;
      startY := y;
      isHorizontalSwipe := Undecided;
      hasTriggeredHaptic := false;
      isDragging := true;
    }

    /** Returns whether the medium haptic fired. */
    method TouchMove(x: real, y: real) returns (medium: bool)
      modifies this
      ensures MoveResult(State(), medium) == Move(props, old(State()), x, y)
    {
      medium := false;
      if props.disabled || !isDragging {
        return;
      }
      ghost var before := State();
      var diffX := x - startX;
      var diffY := y - startY;
      if isHorizontalSwipe == Undecided {
        if Abs(diffX) > 10.0 || Abs(diffY) > 10.0 {
          isHorizontalSwipe := if Abs(diffX) > Abs(diffY) then Horizontal else Vertical;
        }
      }
      assert isHorizontalSwipe == DecideAxis(before.axis, diffX, diffY);
      if isHorizontalSwipe != Horizontal {
        assert State() == before.(axis := isHorizontalSwipe);
        return;
      }
      var newOffset := Offset(diffX, props.threshold, props.hasLeft, props.hasRight);
      offsetX := newOffset;
      assert Move(props, before, x, y) == ShowOffset(props, State());
      medium := Haptic();
    }

    /** The haptic part of `handleTouchMove`, after the offset has been set. */
    method Haptic() returns (medium: bool)
      modifies this
      ensures MoveResult(State(), medium) == ShowOffset(props, old(State()))
    {
      medium := false;
      var action := if offsetX > 0.0 then props.hasLeft else props.hasRight;
      if action && Abs(offsetX) >= props.threshold && !hasTriggeredHaptic {
        hasTriggeredHaptic := true;
        medium := true;
      } else if Abs(offsetX) < props.threshold && hasTriggeredHaptic {
        hasTriggeredHaptic := false;
      }
    }

    /** Returns the action triggered, if any. */
    method TouchEnd() returns (triggered: Option<Side>)
      modifies this
      ensures EndResult(State(), triggered) == End(props, old(State()))
    {
      triggered := None;
      if props.disabled || !isDragging {
        return;
      }
      isDragging := false;
      if Abs(offsetX) >= props.threshold {
        var side := if offsetX > 0.0 then Left else Right;
        if HasAction(props, side) {
          triggered := Some(side);
        }
      }
      offsetX := 0.0;
      isHorizontalSwipe := Undecided;
    }
  }
}
