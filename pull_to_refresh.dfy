/** The pull-to-refresh gesture of components/ui/PullToRefresh.tsx: a downward pull that starts
    at the top of the scrolled content, follows the finger at half speed up to a maximum, ticks
    the haptic when it crosses the threshold, and starts a refresh when released beyond it. The
    refresh itself is two steps: it begins on release, and finishes when `onRefresh` settles,
    fulfilled or rejected. Distances are exact reals. */
module PullRefresh {
  import opened Wrappers
  import opened RealMath

  /** The component's props: the distance that triggers a refresh (80 by default) and the
      largest distance shown (120 by default). */
  datatype Props = Props(threshold: real, maxPull: real)

  const DefaultProps := Props(80.0, 120.0)

  /** The state and refs of the component: `pullDistance`, `isRefreshing`, `isPulling`,
      `startY`, `hasTriggeredHaptic`. */
  datatype PullState = PullState(distance: real, refreshing: bool, pulling: bool, startY: real,
                                 hapticFired: bool)

  const InitialState := PullState(0.0, false, false, 0.0, false)

  /** The state after a move, and whether the medium haptic fired. */
  datatype MoveResult = MoveResult(state: PullState, buzz: bool)

  /** The state after the finger is lifted, and whether a refresh began. */
  datatype EndResult = EndResult(state: PullState, refresh: bool)

  /** `handleTouchStart`: only with the container mounted (`scrollTop` present) and scrolled to
      the very top does a pull begin, recording the start and re-arming the haptic. */
  function Start(c: PullState, scrollTop: Option<real>, y: real): (r: PullState)
    ensures scrollTop != Some(0.0) ==> r == c
    ensures scrollTop == Some(0.0) ==>
              r.pulling && r.startY == y && !r.hapticFired
              && r.distance == c.distance && r.refreshing == c.refreshing
  {
    if scrollTop == Some(0.0) then c.(startY := y, pulling := true, hapticFired := false) else c
  }

  /** `handleTouchMove` on a sample at height `y`. */
  function Move(p: Props, c: PullState, y: real): (r: MoveResult)
    ensures !c.pulling || c.refreshing || y - c.startY <= 0.0 ==> r == MoveResult(c, false)
    ensures c.pulling && !c.refreshing && y - c.startY > 0.0 ==>
              r.state.distance == Min((y - c.startY) * 0.5, p.maxPull)
              && (p.maxPull >= 0.0 ==> 0.0 <= r.state.distance <= p.maxPull)
    ensures r.state.pulling == c.pulling && r.state.refreshing == c.refreshing
            && r.state.startY == c.startY
    ensures r.buzz <==> !c.hapticFired && r.state.hapticFired
    ensures r.buzz ==> r.state.distance >= p.threshold
    ensures c.hapticFired && !r.state.hapticFired ==> r.state.distance < p.threshold
  {
    if !c.pulling || c.refreshing then MoveResult(c, false)
    else
      var diff := y - c.startY;
      if diff > 0.0 then
        var distance := Min(diff * 0.5, p.maxPull);
        var moved := c.(distance := distance);
        if distance >= p.threshold && !c.hapticFired then
          MoveResult(moved.(hapticFired := true), true)
        else if distance < p.threshold && c.hapticFired then
          MoveResult(moved.(hapticFired := false), false)
        else
          MoveResult(moved, false)
      else
        MoveResult(c, false)
  }

  /** `handleTouchEnd`: when pulling, stops pulling; a pull that reached the threshold while no
      refresh is running begins one and keeps its distance until the refresh finishes; any other
      pull springs back to 0 at once. */
  function End(p: Props, c: PullState): (r: EndResult)
    ensures !c.pulling ==> r == EndResult(c, false)
    ensures c.pulling ==> !r.state.pulling && r.state.startY == c.startY
                          && r.state.hapticFired == c.hapticFired
    ensures r.refresh <==> c.pulling && c.distance >= p.threshold && !c.refreshing
    ensures r.refresh ==> r.state.refreshing && r.state.distance == c.distance
    ensures c.pulling && !r.refresh ==> r.state.distance == 0.0 && r.state.refreshing == c.refreshing
  {
    if !c.pulling then EndResult(c, false)
    else
      var c' := c.(pulling := false);
      if c.distance >= p.threshold && !c.refreshing then EndResult(c'.(refreshing := true), true)
      else EndResult(c'.(distance := 0.0), false)
  }

  /** The `finally` after `onRefresh` settles: the refresh is over and the indicator is back
      at 0, whether the refresh succeeded or failed. */
  function Finish(c: PullState): (r: PullState)
    ensures !r.refreshing && r.distance == 0.0
    ensures r.pulling == c.pulling && r.startY == c.startY && r.hapticFired == c.hapticFired
  {
    c.(refreshing := false, distance := 0.0)
  }

  /** The indicator's progress: the distance over the threshold, at most 1. */
  function Progress(p: Props, distance: real): (r: real)
    requires p.threshold > 0.0
    ensures 0.0 <= distance ==> 0.0 <= r
    ensures r <= 1.0 && (r == 1.0 <==> distance >= p.threshold)
    ensures distance <= p.threshold ==> r * p.threshold == distance
  {
    Min(distance / p.threshold, 1.0)
  }

  // ---------------------------------------------------------------------------------------
  // Properties over whole gestures

  /** Every reachable state shows a distance from 0 to the maximum. */
  ghost predicate InRange(p: Props, c: PullState) {
    0.0 <= c.distance <= p.maxPull
  }

  /** Each step keeps the distance from 0 to the maximum. */
  lemma StepsKeepRange(p: Props, c: PullState, scrollTop: Option<real>, y: real)
    requires p.maxPull >= 0.0 && InRange(p, c)
    ensures InRange(p, Start(c, scrollTop, y)) && InRange(p, Move(p, c, y).state)
    ensures InRange(p, End(p, c).state) && InRange(p, Finish(c))
    ensures InRange(p, InitialState)
  {
  }

  datatype Trace = Trace(state: PullState, buzzes: nat, rearms: nat)

  /** The state after a run of samples, with the number of haptic ticks and of re-armings
      (moves that cleared the haptic flag). */
  function Moves(p: Props, c: PullState, ys: seq<real>): Trace
    decreases |ys|
  {
    if ys == [] then Trace(c, 0, 0)
    else
      var m := Move(p, c, ys[0]);
      var rest := Moves(p, m.state, ys[1..]);
      Trace(rest.state, rest.buzzes + (if m.buzz then 1 else 0),
            rest.rearms + (if c.hapticFired && !m.state.hapticFired then 1 else 0))
  }

  /** The haptic ticks once per excursion beyond the threshold: ticks plus "the flag is clear
      at the end" equals "the flag was clear at the start" plus re-armings, and a re-arming is
      a move back below the threshold. */
  lemma {:induction false} HapticBalance(p: Props, c: PullState, ys: seq<real>)
    ensures var t := Moves(p, c, ys);
      t.buzzes + (if t.state.hapticFired then 0 else 1) == (if c.hapticFired then 0 else 1) + t.rearms
    decreases |ys|
  {
    if ys != [] {
      HapticBalance(p, Move(p, c, ys[0]).state, ys[1..]);
    }
  }

  /** Moves never start or stop a pull or a refresh. */
  lemma {:induction false} MovesKeepPhase(p: Props, c: PullState, ys: seq<real>)
    ensures var s := Moves(p, c, ys).state;
      s.pulling == c.pulling && s.refreshing == c.refreshing && s.startY == c.startY
    ensures !c.pulling || c.refreshing ==> Moves(p, c, ys) == Trace(c, 0, 0)
    decreases |ys|
  {
    if ys != [] {
      MovesKeepPhase(p, Move(p, c, ys[0]).state, ys[1..]);
    }
  }

  /** While a refresh runs, a second pull neither moves the indicator nor begins another
      refresh: releasing it only sets the distance back to 0. */
  lemma NoRefreshWhileRefreshing(p: Props, c: PullState, scrollTop: Option<real>, y: real,
                                 ys: seq<real>)
    requires c.refreshing
    ensures var s := Moves(p, Start(c, scrollTop, y), ys).state;
      var e := End(p, s);
      !e.refresh && e.state.refreshing && s.distance == c.distance
  {
    MovesKeepPhase(p, Start(c, scrollTop, y), ys);
  }

  /** A gesture that begins a refresh, followed by its finish, leaves the component idle with
      the indicator at 0. */
  lemma RefreshCycle(p: Props, c: PullState, y: real, ys: seq<real>)
    requires !c.refreshing
    ensures var s := Moves(p, Start(c, Some(0.0), y), ys).state;
      var e := End(p, s);
      (e.refresh <==> s.distance >= p.threshold)
      && !Finish(e.state).refreshing && !Finish(e.state).pulling && Finish(e.state).distance == 0.0
  {
    MovesKeepPhase(p, Start(c, Some(0.0), y), ys);
  }

  // ---------------------------------------------------------------------------------------
  // The component

  class PullToRefresh {
    const props: Props
    var pullDistance: real
    var isRefreshing: bool
    var isPulling: bool
    var startY: real
    var hasTriggeredHaptic: bool

    function State(): PullState
      reads this
    {
      PullState(pullDistance, isRefreshing, isPulling, startY, hasTriggeredHaptic)
    }

    constructor (threshold: real, maxPull: real)
      ensures props == Props(threshold, maxPull) && State() == InitialState
    {
      props := Props(threshold, maxPull);
      pullDistance, isRefreshing, isPulling, startY, hasTriggeredHaptic := 0.0, false, false, 0.0, false;
    }

    /** `scrollTop` is `None` while the container is not mounted. */
    method TouchStart(scrollTop: Option<real>, y: real)
      modifies this
      ensures State() == Start(old(State()), scrollTop, y)
    {
      if scrollTop.Some? && scrollTop.value == 0.0 {
        startY := y;
        isPulling := true;
        hasTriggeredHaptic := false;
      }
    }

    /** Returns whether the medium haptic fired. */
    method TouchMove(y: real) returns (medium: bool)
      modifies this
      ensures MoveResult(State(), medium) == Move(props, old(State()), y)
    {
      medium := false;
      if !isPulling || isRefreshing {
        return;
      }
      var diff := y - startY;
      if diff > 0.0 {
        var distance := Min(diff * 0.5, props.maxPull);
        pullDistance := distance;
        if distance >= props.threshold && !hasTriggeredHaptic {
          hasTriggeredHaptic := true;
          medium := true;
        } else if distance < props.threshold && hasTriggeredHaptic {
          hasTriggeredHaptic := false;
        }
      }
    }

    /** Returns whether a refresh began; the caller then runs `onRefresh` and calls
        `FinishRefresh` when it settles. */
    method TouchEnd() returns (refresh: bool)
      modifies this
      ensures EndResult(State(), refresh) == End(props, old(State()))
    {
      refresh := false;
      if !isPulling {
        return;
      }
      isPulling := false;
      if pullDistance >= props.threshold && !isRefreshing {
        isRefreshing := true;
        refresh := true;
      } else {
        pullDistance := 0.0;
      }
    }

    method FinishRefresh()
      modifies this
      ensures State() == Finish(old(State()))
    {
      isRefreshing := false;
      pullDistance := 0.0;
    }
  }
}
