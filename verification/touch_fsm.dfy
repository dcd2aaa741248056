/** The gesture state machine of the touch event thread. Each wake of the
    thread's loop (a notification from the touch interrupt, or expiry of the
    armed wait) is one pure `Step`: it yields the next tracking state, the next
    wait timeout and at most one event for the channel. */
module TouchFsm {
  import opened TouchGeometry

  /** Kind of a gesture event. `None` is declared but no transition sends it. */
  datatype TouchEventKind = None | Tap | Hold | SwipeLeft | SwipeRight | PinchEnlarge | PinchReduce | Release

  /** A gesture event: `x` and `y` (u32) carry the position of a tap, `dist`
      the change of finger distance of a pinch; other events leave them 0. */
  datatype TouchEvent = TouchEvent(kind: TouchEventKind, x: U32, y: U32, dist: real)

  /** An event of the given kind with position and distance zeroed. */
  function NewEvent(kind: TouchEventKind): (e: TouchEvent)
    ensures e.kind == kind
    // a fresh event reports no position and no distance
    ensures e.x == 0 && e.y == 0 && e.dist == 0.0
  {
    TouchEvent(kind, 0, 0, 0.0)
  }

  /** What the machine is tracking: nothing, a single touch (its first point),
      a confirmed hold, a swipe (start point and latest point), or a pinch (the
      finger distance last reported). */
  datatype TouchEventState =
    | None
    | WaitNext(track1: Tracking1Position)
    | Holding
    | Swiping(track2: Tracking2Position)
    | Pinching(dist: real)

  /** Wait armed after the first touch: expiry turns the touch into a hold. */
  const TAP_WINDOW_MS: nat := 500
  /** Wait armed while holding: expiry releases the hold. */
  const HOLD_RELEASE_MS: nat := 1000
  /** Wait armed when no shorter deadline is pending. */
  const IDLE_WAIT_MS: nat := 100_000

  /** The tracking state together with the wait timeout armed for the next wake. */
  datatype Machine = Machine(state: TouchEventState, timeout: nat)

  /** The machine as the thread enters its loop. */
  const INITIAL: Machine := Machine(TouchEventState.None, IDLE_WAIT_MS)

  /** A task notification value (a non-zero u32). */
  type NonZeroU32 = n: int | 0 < n < 0x1_0000_0000 witness 1

  /** What ended one wait: a notification with its value, paired with the
      reading the touch controller reports if it is asked, or expiry of the
      armed timeout. */
  datatype Wake = Notified(notice: NonZeroU32, pos: TouchSensorPosition) | TimedOut

  /** The channel traffic of one wake: nothing, or exactly one event. */
  datatype Emission = Silent | Sent(event: TouchEvent)

  datatype StepResult = StepResult(next: Machine, emitted: Emission)

  /** What the loop fixes before it starts: the coordinate transform and the
      distance function. */
  datatype Context = Context(transform: CoordTransform, distance: Metric)

  const U32_MAX: nat := 0xFFFF_FFFF

  /** An unsigned 32-bit integer. */
  type U32 = n: nat | n <= U32_MAX

  /** Rust's `f as u32`: rounds toward zero and saturates at both ends. */
  function AsU32(v: real): (n: U32)
    ensures n <= U32_MAX
    ensures 0.0 <= v < U32_MAX as real + 1.0 ==> n as real <= v < n as real + 1.0
    ensures v < 0.0 ==> n == 0
    ensures v >= U32_MAX as real ==> n == U32_MAX
  {
    if v < 0.0 then 0 else if v >= U32_MAX as real then U32_MAX else v.Floor
  }

  function Abs(a: real): real {
    if a < 0.0 then -a else a
  }

  /** The tap reported for a touch that started at `p`. */
  function TapAt(p: Tracking1Position): (e: TouchEvent)
    ensures e.kind == Tap && e.dist == 0.0
    // the position is a u32 pair; inside the u32 range it is `p` truncated
    ensures e.x <= U32_MAX && e.y <= U32_MAX
    ensures 0.0 <= p.x < U32_MAX as real + 1.0 ==> e.x as real <= p.x < e.x as real + 1.0
    ensures 0.0 <= p.y < U32_MAX as real + 1.0 ==> e.y as real <= p.y < e.y as real + 1.0
    // off the display's negative side the tap clamps to 0
    ensures p.x < 0.0 ==> e.x == 0
    ensures p.y < 0.0 ==> e.y == 0
  {
    NewEvent(Tap).(x := AsU32(p.x), y := AsU32(p.y))
  }

  /** The swipe reported for a swipe tracked from slot 0 to slot 1. */
  function SwipeEvent(track2: Tracking2Position): (e: TouchEvent)
    ensures e.kind == SwipeRight <==> track2.x0 < track2.x1
    ensures e.kind == SwipeLeft <==> !(track2.x0 < track2.x1)
    ensures e.x == 0 && e.y == 0 && e.dist == 0.0
  {
    var event := NewEvent(SwipeLeft);
    if track2.x0 < track2.x1 then event.(kind := SwipeRight) else event
  }

  /** A reading while nothing is tracked: one finger starts a touch with the
      short hold deadline, two fingers start a pinch; any other count changes
      nothing, not even the timeout. */
  function SampleInNone(ctx: Context, timeout: nat, pos: TouchSensorPosition): (r: StepResult)
    ensures r.emitted == Silent
    ensures pos.numFingers == 1 ==> r.next == Machine(WaitNext(Track1(ctx.transform, pos)), TAP_WINDOW_MS)
    ensures pos.numFingers == 2 ==>
      var t := Track2(ctx.transform, pos);
      r.next == Machine(Pinching(ctx.distance(t.x0, t.y0, t.x1, t.y1)), IDLE_WAIT_MS)
    ensures pos.numFingers != 1 && pos.numFingers != 2 ==> r.next == Machine(TouchEventState.None, timeout)
  {
    if pos.numFingers == 1 then
      StepResult(Machine(WaitNext(Track1(ctx.transform, pos)), TAP_WINDOW_MS), Silent)
    else if pos.numFingers == 2 then
      var t := Track2(ctx.transform, pos);
      StepResult(Machine(Pinching(ctx.distance(t.x0, t.y0, t.x1, t.y1)), IDLE_WAIT_MS), Silent)
    else
      StepResult(Machine(TouchEventState.None, timeout), Silent)
  }

  /** A reading while a single touch that started at `p` is tracked. */
  function SampleInWaitNext(ctx: Context, p: Tracking1Position, pos: TouchSensorPosition): (r: StepResult)
    // every reading arms the long wait, and only a lift is reported
    ensures r.next.timeout == IDLE_WAIT_MS
    ensures r.emitted.Sent? <==> pos.numFingers == 0
    // a lift is a tap at the start point
    ensures pos.numFingers == 0 ==> r.next.state == TouchEventState.None && r.emitted == Sent(TapAt(p))
    // one finger within the threshold keeps tracking the same start point,
    // beyond it becomes a swipe from the start point to the new point
    ensures pos.numFingers == 1 ==>
      var q := Track1(ctx.transform, pos);
      && (ctx.distance(p.x, p.y, q.x, q.y) <= DISTANCE_THRESHOLD <==> r.next.state == WaitNext(p))
      && (ctx.distance(p.x, p.y, q.x, q.y) > DISTANCE_THRESHOLD ==>
            r.next.state == Swiping(Tracking2Position(p.x, p.y, q.x, q.y)))
    ensures pos.numFingers == 2 ==>
      var t := Track2(ctx.transform, pos);
      r.next.state == Pinching(ctx.distance(t.x1, t.y1, t.x0, t.y0))
    ensures pos.numFingers > 2 ==> r.next.state == WaitNext(p)
  {
    var state :=
      if pos.numFingers == 0 then TouchEventState.None
      else if pos.numFingers == 1 then
        var q := Track1(ctx.transform, pos);
        if ctx.distance(p.x, p.y, q.x, q.y) > DISTANCE_THRESHOLD
        then Swiping(Tracking2Position(p.x, p.y, q.x, q.y))
        else WaitNext(p)
      else if pos.numFingers == 2 then
        var t := Track2(ctx.transform, pos);
        Pinching(ctx.distance(t.x1, t.y1, t.x0, t.y0))
      else WaitNext(p);
    StepResult(Machine(state, IDLE_WAIT_MS), if pos.numFingers == 0 then Sent(TapAt(p)) else Silent)
  }

  /** A reading while a hold is confirmed: a lift releases it; every reading,
      the lift included, re-arms the release deadline. */
  function SampleInHolding(pos: TouchSensorPosition): (r: StepResult)
    ensures r.next.timeout == HOLD_RELEASE_MS
    ensures r.emitted.Sent? <==> pos.numFingers == 0
    ensures r.emitted.Sent? ==> r.emitted.event == NewEvent(Release) && r.next.state == TouchEventState.None
    ensures r.emitted == Silent ==> r.next.state == Holding
  {
    if pos.numFingers == 0 then
      StepResult(Machine(TouchEventState.None, HOLD_RELEASE_MS), Sent(NewEvent(Release)))
    else
      StepResult(Machine(Holding, HOLD_RELEASE_MS), Silent)
  }

  /** A reading while a swipe is tracked from slot 0 to slot 1 of `track2`. */
  function SampleInSwiping(ctx: Context, track2: Tracking2Position, pos: TouchSensorPosition): (r: StepResult)
    ensures r.next.timeout == IDLE_WAIT_MS
    ensures r.emitted.Sent? <==> pos.numFingers == 0
    // a lift reports the swipe's direction and ends it
    ensures pos.numFingers == 0 ==>
      r.next.state == TouchEventState.None && r.emitted == Sent(SwipeEvent(track2))
    // a moving finger keeps the start point and replaces only the end point
    ensures pos.numFingers == 1 ==>
      var q := Track1(ctx.transform, pos);
      r.next.state == Swiping(track2.(x1 := q.x, y1 := q.y))
    ensures pos.numFingers == 2 ==>
      var t := Track2(ctx.transform, pos);
      r.next.state == Pinching(ctx.distance(t.x0, t.y0, t.x1, t.y1))
    ensures pos.numFingers > 2 ==> r.next.state == Swiping(track2)
  {
    if pos.numFingers == 0 then
      StepResult(Machine(TouchEventState.None, IDLE_WAIT_MS), Sent(SwipeEvent(track2)))
    else if pos.numFingers == 1 then
      var q := Track1(ctx.transform, pos);
      StepResult(Machine(Swiping(Tracking2Position(track2.x0, track2.y0, q.x, q.y)), IDLE_WAIT_MS), Silent)
    else if pos.numFingers == 2 then
      var t := Track2(ctx.transform, pos);
      StepResult(Machine(Pinching(ctx.distance(t.x0, t.y0, t.x1, t.y1)), IDLE_WAIT_MS), Silent)
    else
      StepResult(Machine(Swiping(track2), IDLE_WAIT_MS), Silent)
  }

  /** The pinch reported when the finger distance moves from `dist` to `now`. */
  function PinchEvent(dist: real, now: real): (e: TouchEvent)
    ensures e.kind == PinchEnlarge <==> dist < now
    ensures e.kind == PinchReduce <==> !(dist < now)
    ensures e.dist == Abs(dist - now) && e.dist >= 0.0
    ensures e.x == 0 && e.y == 0
  {
    var event := NewEvent(PinchReduce);
    var event := if dist < now then event.(kind := PinchEnlarge) else event;
    event.(dist := Abs(dist - now))
  }

  /** The finger distance of a two-finger reading, as measured while pinching. */
  function PinchDistance(ctx: Context, pos: TouchSensorPosition): (d: real)
    // for a Euclidean distance: the length of the segment between the two
    // fingers, and the same value the other argument order (used when a pinch
    // starts) measures
    ensures IsEuclidean(ctx.distance) ==>
      var t := Track2(ctx.transform, pos);
      && 0.0 <= d && d * d == Sq(t.x1 - t.x0) + Sq(t.y1 - t.y0)
      && d == ctx.distance(t.x0, t.y0, t.x1, t.y1)
  {
    var t := Track2(ctx.transform, pos);
    assert IsEuclidean(ctx.distance) ==> ctx.distance(t.x1, t.y1, t.x0, t.y0) == ctx.distance(t.x0, t.y0, t.x1, t.y1) by {
      if IsEuclidean(ctx.distance) {
        DistanceSymmetric(ctx.distance, t.x0, t.y0, t.x1, t.y1);
      }
    }
    ctx.distance(t.x1, t.y1, t.x0, t.y0)
  }

  /** A reading while a pinch with last reported finger distance `dist` is tracked. */
  function SampleInPinching(ctx: Context, dist: real, pos: TouchSensorPosition): (r: StepResult)
    ensures r.next.timeout == IDLE_WAIT_MS
    ensures pos.numFingers == 0 ==>
      r.next.state == TouchEventState.None && r.emitted == Sent(NewEvent(Release))
    // two fingers report only a change of more than one unit, and the stored
    // distance moves to the new one exactly when they report
    ensures pos.numFingers == 2 ==>
      var now := PinchDistance(ctx, pos);
      && (r.emitted.Sent? <==> Abs(dist - now) > 1.0)
      && (r.emitted.Sent? ==> r.emitted.event == PinchEvent(dist, now) && r.next.state == Pinching(now))
      && (r.emitted == Silent ==> r.next.state == Pinching(dist))
    // one finger, or more than two, only re-arm the wait
    ensures pos.numFingers != 0 && pos.numFingers != 2 ==>
      r.next.state == Pinching(dist) && r.emitted == Silent
  {
    if pos.numFingers == 0 then
      StepResult(Machine(TouchEventState.None, IDLE_WAIT_MS), Sent(NewEvent(Release)))
    else if pos.numFingers == 2 then
      var now := PinchDistance(ctx, pos);
      if Abs(dist - now) > 1.0 then
        StepResult(Machine(Pinching(now), IDLE_WAIT_MS), Sent(PinchEvent(dist, now)))
      else
        StepResult(Machine(Pinching(dist), IDLE_WAIT_MS), Silent)
    else
      StepResult(Machine(Pinching(dist), IDLE_WAIT_MS), Silent)
  }

  /** A wake by notification value 1: read the controller and dispatch on the state. */
  function OnSample(ctx: Context, m: Machine, pos: TouchSensorPosition): (r: StepResult)
    // a lift always ends tracking, and reports exactly when something was tracked
    ensures pos.numFingers == 0 ==> r.next.state.None? && (r.emitted.Sent? <==> !m.state.None?)
    // one finger never reports
    ensures pos.numFingers == 1 ==> r.emitted == Silent
    // two fingers keep a hold and otherwise end up pinching; they report only
    // a pinch already under way
    ensures pos.numFingers == 2 ==>
      && (m.state.Holding? <==> r.next.state.Holding?)
      && (!m.state.Holding? ==> r.next.state.Pinching?)
      && (r.emitted.Sent? ==> m.state.Pinching?)
    // a count above two takes no branch: the state stays and nothing is reported
    ensures pos.numFingers > 2 ==> r.next.state == m.state && r.emitted == Silent
  {
    match m.state
    case None => SampleInNone(ctx, m.timeout, pos)
    case WaitNext(track1) => SampleInWaitNext(ctx, track1, pos)
    case Holding => SampleInHolding(pos)
    case Swiping(track2) => SampleInSwiping(ctx, track2, pos)
    case Pinching(dist) => SampleInPinching(ctx, dist, pos)
  }

  /** Expiry of the armed wait: a pending touch becomes a hold, a hold or a
      pinch is released, a swipe is reported; with nothing tracked nothing
      happens, and the timeout stays as it was. */
  function OnTimeout(m: Machine): (r: StepResult)
    ensures r.emitted.Sent? <==> !m.state.None?
    ensures m.state.None? ==> r.next == m
    ensures m.state.WaitNext? ==> r == StepResult(Machine(Holding, HOLD_RELEASE_MS), Sent(NewEvent(Hold)))
    ensures m.state.Holding? || m.state.Pinching? ==>
      r == StepResult(Machine(TouchEventState.None, IDLE_WAIT_MS), Sent(NewEvent(Release)))
    ensures m.state.Swiping? ==>
      r == StepResult(Machine(TouchEventState.None, IDLE_WAIT_MS), Sent(SwipeEvent(m.state.track2)))
  {
    match m.state
    case WaitNext(_) => StepResult(Machine(Holding, HOLD_RELEASE_MS), Sent(NewEvent(Hold)))
    case Holding => StepResult(Machine(TouchEventState.None, IDLE_WAIT_MS), Sent(NewEvent(Release)))
    case Pinching(_) => StepResult(Machine(TouchEventState.None, IDLE_WAIT_MS), Sent(NewEvent(Release)))
    case Swiping(track2) => StepResult(Machine(TouchEventState.None, IDLE_WAIT_MS), Sent(SwipeEvent(track2)))
    case None => StepResult(m, Silent)
  }

  /** The timeout is one of the three the thread arms. */
  predicate Armed(timeout: nat) {
    timeout == TAP_WINDOW_MS || timeout == HOLD_RELEASE_MS || timeout == IDLE_WAIT_MS
  }

  /** Which timeouts can be armed in each state. */
  predicate ArmedFor(m: Machine) {
    match m.state
    case None => m.timeout == HOLD_RELEASE_MS || m.timeout == IDLE_WAIT_MS
    case WaitNext(_) => m.timeout == TAP_WINDOW_MS || m.timeout == IDLE_WAIT_MS
    case Holding => m.timeout == HOLD_RELEASE_MS
    case Swiping(_) => m.timeout == IDLE_WAIT_MS
    case Pinching(_) => m.timeout == IDLE_WAIT_MS
  }

  /** When the thread sends: an expiry while something is tracked, a lift
      while something is tracked, or a pinch whose distance moved by more
      than one unit. */
  predicate SendsOn(ctx: Context, m: Machine, w: Wake) {
    match w
    case TimedOut => !m.state.None?
    case Notified(notice, pos) =>
      && notice == 1
      && (|| (pos.numFingers == 0 && !m.state.None?)
          || (pos.numFingers == 2 && m.state.Pinching? && Abs(m.state.dist - PinchDistance(ctx, pos)) > 1.0))
  }

  /** One wake of the loop. A notification other than 1 is spurious: the
      controller is not read and nothing changes. */
  function Step(ctx: Context, m: Machine, w: Wake): (r: StepResult)
    // a spurious wake changes neither state nor timeout and sends nothing
    ensures w.Notified? && w.notice != 1 ==> r == StepResult(m, Silent)
    // an event is sent exactly on the wakes `SendsOn` names
    ensures r.emitted.Sent? <==> SendsOn(ctx, m, w)
    // no event of kind None is ever sent
    ensures r.emitted.Sent? ==> r.emitted.event.kind != TouchEventKind.None
    // only a tap and a pinch report a position or a distance
    ensures r.emitted.Sent? && r.emitted.event.kind != Tap ==> r.emitted.event.x == 0 && r.emitted.event.y == 0
    ensures r.emitted.Sent? && r.emitted.event.kind !in {PinchEnlarge, PinchReduce} ==> r.emitted.event.dist == 0.0
    // the state/timeout pairing is preserved, so only the three timeouts are ever armed
    ensures ArmedFor(m) ==> ArmedFor(r.next) && Armed(r.next.timeout)
  {
    match w
    case TimedOut => OnTimeout(m)
    case Notified(notice, pos) =>
      if notice == 1 then OnSample(ctx, m, pos) else StepResult(m, Silent)
  }

  /** The loop starts in a consistent pairing of state and timeout. */
  lemma InitialArmed()
    ensures ArmedFor(INITIAL) && Armed(INITIAL.timeout) && INITIAL.timeout == IDLE_WAIT_MS
  {
  }
}
