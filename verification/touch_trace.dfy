/** The touch event thread's loop as a run of `Step` over a sequence of wakes,
    and the gestures that sequences of readings produce. */
module TouchTrace {
  import opened TouchGeometry
  import opened TouchFsm

  /** The machine after a run, and the events it sent, in channel order. */
  datatype Trace = Trace(final: Machine, events: seq<TouchEvent>)

  /** The events one wake puts on the channel. */
  function EventsOf(e: Emission): (s: seq<TouchEvent>)
    ensures |s| <= 1
    ensures e.Sent? <==> |s| == 1
    ensures e.Sent? ==> s[0] == e.event
  {
    if e.Sent? then [e.event] else []
  }

  /** The loop run from `m` over the wakes `ws`, in order. Each wake adds its
      `Emission`, which by its type is at most one event (`EventsOf`); the
      contract states the resulting bound over the whole run. */
  function Run(ctx: Context, m: Machine, ws: seq<Wake>): (r: Trace)
    // at most one event per wake
    ensures |r.events| <= |ws|
    decreases |ws|
  {
    if ws == [] then Trace(m, [])
    else
      var s := Step(ctx, m, ws[0]);
      var rest := Run(ctx, s.next, ws[1..]);
      Trace(rest.final, EventsOf(s.emitted) + rest.events)
  }

  /** Over any run from a consistent state/timeout pairing, the pairing stays
      consistent, so only the three timeouts are ever armed. */
  lemma {:induction false} RunKeepsArmed(ctx: Context, m: Machine, ws: seq<Wake>)
    requires ArmedFor(m)
    ensures ArmedFor(Run(ctx, m, ws).final) && Armed(Run(ctx, m, ws).final.timeout)
    decreases |ws|
  {
    if ws != [] {
      RunKeepsArmed(ctx, Step(ctx, m, ws[0]).next, ws[1..]);
    }
  }

  /** No run ever sends an event of kind `None`. */
  lemma {:induction false} RunSendsNoNone(ctx: Context, m: Machine, ws: seq<Wake>)
    ensures forall i :: 0 <= i < |Run(ctx, m, ws).events| ==> Run(ctx, m, ws).events[i].kind != TouchEventKind.None
    decreases |ws|
  {
    if ws != [] {
      var s := Step(ctx, m, ws[0]);
      var rest := Run(ctx, s.next, ws[1..]);
      RunSendsNoNone(ctx, s.next, ws[1..]);
      var es := EventsOf(s.emitted) + rest.events;
      forall i | 0 <= i < |es| ensures es[i].kind != TouchEventKind.None {
        if i >= |EventsOf(s.emitted)| {
          assert es[i] == rest.events[i - |EventsOf(s.emitted)|];
        }
      }
    }
  }

  /** Readings delivered by notifications of value 1, in order. */
  function Samples(ps: seq<TouchSensorPosition>): (ws: seq<Wake>)
    ensures |ws| == |ps|
    decreases |ps|
  {
    if ps == [] then [] else [Notified(1, ps[0])] + Samples(ps[1..])
  }

  /** Running over two stretches of wakes is running over the first, then
      over the second from where the first stopped. */
  lemma {:induction false} RunAppend(ctx: Context, m: Machine, a: seq<Wake>, b: seq<Wake>)
    ensures var r1 := Run(ctx, m, a);
      var r2 := Run(ctx, r1.final, b);
      Run(ctx, m, a + b) == Trace(r2.final, r1.events + r2.events)
    decreases |a|
  {
    if a == [] {
      assert a + b == b;
    } else {
      var s := Step(ctx, m, a[0]);
      assert (a + b)[0] == a[0];
      assert (a + b)[1..] == a[1..] + b;
      RunAppend(ctx, s.next, a[1..], b);
      var r1 := Run(ctx, s.next, a[1..]);
      var r2 := Run(ctx, r1.final, b);
      assert EventsOf(s.emitted) + (r1.events + r2.events) == (EventsOf(s.emitted) + r1.events) + r2.events;
    }
  }

  /** One wake followed by the rest. */
  lemma RunCons(ctx: Context, m: Machine, w: Wake, ws: seq<Wake>)
    ensures var s := Step(ctx, m, w);
      var r := Run(ctx, s.next, ws);
      Run(ctx, m, [w] + ws) == Trace(r.final, EventsOf(s.emitted) + r.events)
  {
    assert ([w] + ws)[0] == w;
    assert ([w] + ws)[1..] == ws;
  }

  /** A spurious wake, or expiry of the wait with nothing tracked. */
  predicate Quiet(m: Machine, w: Wake) {
    (w.Notified? && w.notice != 1) || (w.TimedOut? && m.state.None?)
  }

  /** Wakes that are spurious, or expiries while nothing is tracked, change
      neither state nor timeout and send nothing, however many arrive. */
  lemma {:induction false} QuietWakesChangeNothing(ctx: Context, m: Machine, ws: seq<Wake>)
    requires forall i :: 0 <= i < |ws| ==> Quiet(m, ws[i])
    ensures Run(ctx, m, ws) == Trace(m, [])
    decreases |ws|
  {
    if ws != [] {
      assert Quiet(m, ws[0]);
      assert Step(ctx, m, ws[0]) == StepResult(m, Silent);
      assert forall i :: 0 <= i < |ws[1..]| ==> Quiet(m, ws[1..][i]) by {
        forall i | 0 <= i < |ws[1..]| ensures Quiet(m, ws[1..][i]) {
          assert ws[1..][i] == ws[i + 1];
        }
      }
      QuietWakesChangeNothing(ctx, m, ws[1..]);
    }
  }

  /** A one-finger reading within the swipe threshold of the touch start `p`. */
  predicate Jitter(ctx: Context, p: Tracking1Position, pos: TouchSensorPosition) {
    var q := Track1(ctx.transform, pos);
    pos.numFingers == 1 && ctx.distance(p.x, p.y, q.x, q.y) <= DISTANCE_THRESHOLD
  }

  /** Readings that stay within the threshold keep tracking the same start
      point and send nothing; the first of them replaces the 500 ms hold
      deadline by the long wait. */
  lemma {:induction false} JitterKeepsTouch(ctx: Context, p: Tracking1Position, timeout: nat, ps: seq<TouchSensorPosition>)
    requires forall i :: 0 <= i < |ps| ==> Jitter(ctx, p, ps[i])
    ensures Run(ctx, Machine(WaitNext(p), timeout), Samples(ps))
         == Trace(Machine(WaitNext(p), if ps == [] then timeout else IDLE_WAIT_MS), [])
    decreases |ps|
  {
    if ps != [] {
      assert Jitter(ctx, p, ps[0]);
      RunCons(ctx, Machine(WaitNext(p), timeout), Notified(1, ps[0]), Samples(ps[1..]));
      assert forall i :: 0 <= i < |ps[1..]| ==> Jitter(ctx, p, ps[1..][i]) by {
        forall i | 0 <= i < |ps[1..]| ensures Jitter(ctx, p, ps[1..][i]) {
          assert ps[1..][i] == ps[i + 1];
        }
      }
      JitterKeepsTouch(ctx, p, IDLE_WAIT_MS, ps[1..]);
    }
  }

  /** A tap: a finger that touches, wanders no further than the threshold from
      where it touched and lifts before any wait expires yields exactly one
      `Tap`, at the display position where it first touched, and the machine
      is idle again with the long wait armed. */
  lemma TapGesture(ctx: Context, timeout: nat, touch: TouchSensorPosition, ps: seq<TouchSensorPosition>, lift: TouchSensorPosition)
    requires touch.numFingers == 1 && lift.numFingers == 0
    requires forall i :: 0 <= i < |ps| ==> Jitter(ctx, Track1(ctx.transform, touch), ps[i])
    ensures Run(ctx, Machine(TouchEventState.None, timeout), [Notified(1, touch)] + Samples(ps) + [Notified(1, lift)])
         == Trace(Machine(TouchEventState.None, IDLE_WAIT_MS), [TapAt(Track1(ctx.transform, touch))])
  {
    var p := Track1(ctx.transform, touch);
    var m0 := Machine(TouchEventState.None, timeout);
    var m1 := Machine(WaitNext(p), TAP_WINDOW_MS);
    RunCons(ctx, m0, Notified(1, touch), Samples(ps) + [Notified(1, lift)]);
    assert [Notified(1, touch)] + Samples(ps) + [Notified(1, lift)] == [Notified(1, touch)] + (Samples(ps) + [Notified(1, lift)]);
    RunAppend(ctx, m1, Samples(ps), [Notified(1, lift)]);
    JitterKeepsTouch(ctx, p, TAP_WINDOW_MS, ps);
    var m2 := Machine(WaitNext(p), if ps == [] then TAP_WINDOW_MS else IDLE_WAIT_MS);
    RunCons(ctx, m2, Notified(1, lift), []);
  }

  /** Readings with a finger still down leave a confirmed hold in place, each
      re-arming the release deadline. */
  lemma {:induction false} HoldingIgnoresContact(ctx: Context, ps: seq<TouchSensorPosition>)
    requires forall i :: 0 <= i < |ps| ==> ps[i].numFingers != 0
    ensures Run(ctx, Machine(Holding, HOLD_RELEASE_MS), Samples(ps)) == Trace(Machine(Holding, HOLD_RELEASE_MS), [])
    decreases |ps|
  {
    if ps != [] {
      RunCons(ctx, Machine(Holding, HOLD_RELEASE_MS), Notified(1, ps[0]), Samples(ps[1..]));
      assert forall i :: 0 <= i < |ps[1..]| ==> ps[1..][i].numFingers != 0 by {
        forall i | 0 <= i < |ps[1..]| ensures ps[1..][i].numFingers != 0 {
          assert ps[1..][i] == ps[i + 1];
        }
      }
      HoldingIgnoresContact(ctx, ps[1..]);
    }
  }

  /** The wake that ends a hold, alone: one `Release`, and the timeout that wake arms. */
  lemma HoldEnds(ctx: Context, fin: Wake)
    requires fin.TimedOut? || (fin.Notified? && fin.notice == 1 && fin.pos.numFingers == 0)
    ensures Run(ctx, Machine(Holding, HOLD_RELEASE_MS), [fin])
         == Trace(Machine(TouchEventState.None, if fin.TimedOut? then IDLE_WAIT_MS else HOLD_RELEASE_MS),
                  [NewEvent(Release)])
  {
    RunCons(ctx, Machine(Holding, HOLD_RELEASE_MS), fin, []);
  }

  /** A hold: a finger that stays down past the 500 ms deadline yields `Hold`;
      whatever it reports meanwhile, the hold ends with exactly one `Release`,
      either when the 1000 ms deadline expires (`fin` a timeout) or when the
      finger lifts (`fin` a lift reading). Only the expiry arms the long wait:
      a lift leaves the idle machine with the 1000 ms wait. */
  lemma HoldGesture(ctx: Context, timeout: nat, touch: TouchSensorPosition, ps: seq<TouchSensorPosition>, fin: Wake)
    requires touch.numFingers == 1
    requires forall i :: 0 <= i < |ps| ==> ps[i].numFingers != 0
    requires fin.TimedOut? || (fin.Notified? && fin.notice == 1 && fin.pos.numFingers == 0)
    ensures Run(ctx, Machine(TouchEventState.None, timeout), [Notified(1, touch), TimedOut] + Samples(ps) + [fin])
         == Trace(Machine(TouchEventState.None, if fin.TimedOut? then IDLE_WAIT_MS else HOLD_RELEASE_MS),
                  [NewEvent(Hold), NewEvent(Release)])
  {
    var p := Track1(ctx.transform, touch);
    var m0 := Machine(TouchEventState.None, timeout);
    var m1 := Machine(WaitNext(p), TAP_WINDOW_MS);
    var m2 := Machine(Holding, HOLD_RELEASE_MS);
    var m3 := Machine(TouchEventState.None, if fin.TimedOut? then IDLE_WAIT_MS else HOLD_RELEASE_MS);
    var ws := [Notified(1, touch), TimedOut] + Samples(ps) + [fin];
    assert ws == [Notified(1, touch)] + ([TimedOut] + (Samples(ps) + [fin]));
    assert Step(ctx, m0, Notified(1, touch)) == StepResult(m1, Silent);
    assert Step(ctx, m1, TimedOut) == StepResult(m2, Sent(NewEvent(Hold)));
    HoldEnds(ctx, fin);
    HoldingIgnoresContact(ctx, ps);
    RunAppend(ctx, m2, Samples(ps), [fin]);
    assert Run(ctx, m2, Samples(ps) + [fin]) == Trace(m3, [NewEvent(Release)]);
    RunCons(ctx, m1, TimedOut, Samples(ps) + [fin]);
    RunCons(ctx, m0, Notified(1, touch), [TimedOut] + (Samples(ps) + [fin]));
  }

  /** Readings with one finger while swiping keep the swipe's start point and
      move its end point to the latest reading. */
  lemma {:induction false} SwipeTracksEnd(ctx: Context, track2: Tracking2Position, timeout: nat, ps: seq<TouchSensorPosition>)
    requires forall i :: 0 <= i < |ps| ==> ps[i].numFingers == 1
    ensures Run(ctx, Machine(Swiping(track2), timeout), Samples(ps))
      == if ps == [] then Trace(Machine(Swiping(track2), timeout), [])
         else var q := Track1(ctx.transform, ps[|ps| - 1]);
           Trace(Machine(Swiping(track2.(x1 := q.x, y1 := q.y)), IDLE_WAIT_MS), [])
    decreases |ps|
  {
    if ps != [] {
      var q0 := Track1(ctx.transform, ps[0]);
      var next := track2.(x1 := q0.x, y1 := q0.y);
      RunCons(ctx, Machine(Swiping(track2), timeout), Notified(1, ps[0]), Samples(ps[1..]));
      assert forall i :: 0 <= i < |ps[1..]| ==> ps[1..][i].numFingers == 1 by {
        forall i | 0 <= i < |ps[1..]| ensures ps[1..][i].numFingers == 1 {
          assert ps[1..][i] == ps[i + 1];
        }
      }
      SwipeTracksEnd(ctx, next, IDLE_WAIT_MS, ps[1..]);
      if ps[1..] != [] {
        assert ps[1..][|ps[1..]| - 1] == ps[|ps| - 1];
      }
    }
  }

  /** The wake that ends a swipe, a lift or an expiry of the long wait,
      reports its direction and leaves the machine idle with the long wait. */
  lemma SwipeEnds(ctx: Context, track2: Tracking2Position, fin: Wake)
    requires fin.TimedOut? || (fin.Notified? && fin.notice == 1 && fin.pos.numFingers == 0)
    ensures Run(ctx, Machine(Swiping(track2), IDLE_WAIT_MS), [fin])
         == Trace(Machine(TouchEventState.None, IDLE_WAIT_MS), [SwipeEvent(track2)])
  {
    RunCons(ctx, Machine(Swiping(track2), IDLE_WAIT_MS), fin, []);
  }

  /** A swipe under way, any further one-finger movement, then a lift or an
      expiry: one swipe event from the swipe's start to the last point. */
  lemma SwipeFinishes(ctx: Context, track2: Tracking2Position, ps: seq<TouchSensorPosition>, fin: Wake)
    requires forall i :: 0 <= i < |ps| ==> ps[i].numFingers == 1
    requires fin.TimedOut? || (fin.Notified? && fin.notice == 1 && fin.pos.numFingers == 0)
    ensures var last := if ps == [] then track2
                        else var q := Track1(ctx.transform, ps[|ps| - 1]); track2.(x1 := q.x, y1 := q.y);
      Run(ctx, Machine(Swiping(track2), IDLE_WAIT_MS), Samples(ps) + [fin])
      == Trace(Machine(TouchEventState.None, IDLE_WAIT_MS), [SwipeEvent(last)])
  {
    var last := if ps == [] then track2
                else var q := Track1(ctx.transform, ps[|ps| - 1]); track2.(x1 := q.x, y1 := q.y);
    SwipeTracksEnd(ctx, track2, IDLE_WAIT_MS, ps);
    SwipeEnds(ctx, last, fin);
    RunAppend(ctx, Machine(Swiping(track2), IDLE_WAIT_MS), Samples(ps), [fin]);
  }

  /** A swipe: a touch at `p` whose next reading `q` lies beyond the threshold,
      followed by any one-finger movement, yields exactly one event when the
      finger lifts or the long wait expires: `SwipeRight` when the last point
      lies right of `p`, `SwipeLeft` otherwise. */
  lemma SwipeGesture(ctx: Context, p: Tracking1Position, timeout: nat, ps: seq<TouchSensorPosition>, fin: Wake)
    requires |ps| > 0 && forall i :: 0 <= i < |ps| ==> ps[i].numFingers == 1
    requires var q := Track1(ctx.transform, ps[0]); ctx.distance(p.x, p.y, q.x, q.y) > DISTANCE_THRESHOLD
    requires fin.TimedOut? || (fin.Notified? && fin.notice == 1 && fin.pos.numFingers == 0)
    ensures var last := Track1(ctx.transform, ps[|ps| - 1]);
      var r := Run(ctx, Machine(WaitNext(p), timeout), Samples(ps) + [fin]);
      && r.final == Machine(TouchEventState.None, IDLE_WAIT_MS)
      && |r.events| == 1
      && r.events[0] == SwipeEvent(Tracking2Position(p.x, p.y, last.x, last.y))
      && (r.events[0].kind == SwipeRight <==> p.x < last.x)
      && (r.events[0].kind == SwipeLeft <==> !(p.x < last.x))
  {
    var q := Track1(ctx.transform, ps[0]);
    var last := Track1(ctx.transform, ps[|ps| - 1]);
    var m0 := Machine(WaitNext(p), timeout);
    var t0 := Tracking2Position(p.x, p.y, q.x, q.y);
    assert Step(ctx, m0, Notified(1, ps[0])) == StepResult(Machine(Swiping(t0), IDLE_WAIT_MS), Silent);
    assert forall i :: 0 <= i < |ps[1..]| ==> ps[1..][i].numFingers == 1 by {
      forall i | 0 <= i < |ps[1..]| ensures ps[1..][i].numFingers == 1 {
        assert ps[1..][i] == ps[i + 1];
      }
    }
    SwipeFinishes(ctx, t0, ps[1..], fin);
    if ps[1..] != [] {
      assert ps[1..][|ps[1..]| - 1] == ps[|ps| - 1];
    }
    assert Samples(ps) + [fin] == [Notified(1, ps[0])] + (Samples(ps[1..]) + [fin]);
    RunCons(ctx, m0, Notified(1, ps[0]), Samples(ps[1..]) + [fin]);
  }

  /** The signed distance change a pinch event reports: positive when enlarging. */
  function Signed(e: TouchEvent): real {
    if e.kind == PinchEnlarge then e.dist else -e.dist
  }

  /** The sum of the signed distance changes of a run of events. */
  function NetChange(es: seq<TouchEvent>): real
    decreases |es|
  {
    if es == [] then 0.0 else Signed(es[0]) + NetChange(es[1..])
  }

  /** Every event is a pinch of more than one unit, and the stored distance
      at the end is `dist` plus the sum of their signed changes. */
  predicate PinchBalanced(dist: real, r: Trace) {
    && r.final.state.Pinching?
    && r.final.state.dist == dist + NetChange(r.events)
    && (forall i :: 0 <= i < |r.events| ==>
          (r.events[i].kind == PinchEnlarge || r.events[i].kind == PinchReduce) && r.events[i].dist > 1.0)
  }

  /** A pinch: over any run of two-finger readings the machine stays in
      `Pinching`, every event it sends is a pinch whose change exceeds one
      unit, and the events account exactly for the tracked distance: the
      stored distance at the end is the start distance plus the sum of the
      reported signed changes. */
  lemma {:induction false} PinchAccounts(ctx: Context, dist: real, timeout: nat, ps: seq<TouchSensorPosition>)
    requires forall i :: 0 <= i < |ps| ==> ps[i].numFingers == 2
    ensures PinchBalanced(dist, Run(ctx, Machine(Pinching(dist), timeout), Samples(ps)))
    decreases |ps|
  {
    if ps != [] {
      var m := Machine(Pinching(dist), timeout);
      var s := Step(ctx, m, Notified(1, ps[0]));
      PinchStep(ctx, dist, timeout, ps[0]);
      RunCons(ctx, m, Notified(1, ps[0]), Samples(ps[1..]));
      assert forall i :: 0 <= i < |ps[1..]| ==> ps[1..][i].numFingers == 2 by {
        forall i | 0 <= i < |ps[1..]| ensures ps[1..][i].numFingers == 2 {
          assert ps[1..][i] == ps[i + 1];
        }
      }
      PinchAccounts(ctx, s.next.state.dist, IDLE_WAIT_MS, ps[1..]);
      PinchBalancedCons(dist, s, Run(ctx, s.next, Samples(ps[1..])));
    }
  }

  /** Prefixing the events of one balanced pinch step keeps a run balanced. */
  lemma PinchBalancedCons(dist: real, s: StepResult, rest: Trace)
    requires s.next.state.Pinching?
    requires s.emitted.Sent? ==> s.next.state.dist == dist + Signed(s.emitted.event)
    requires s.emitted.Sent? ==> (s.emitted.event.kind == PinchEnlarge || s.emitted.event.kind == PinchReduce)
                                 && s.emitted.event.dist > 1.0
    requires s.emitted == Silent ==> s.next.state.dist == dist
    requires PinchBalanced(s.next.state.dist, rest)
    ensures PinchBalanced(dist, Trace(rest.final, EventsOf(s.emitted) + rest.events))
  {
    var es := EventsOf(s.emitted) + rest.events;
    if s.emitted.Sent? {
      assert es[1..] == rest.events;
      assert NetChange(es) == Signed(es[0]) + NetChange(rest.events);
    } else {
      assert es == rest.events;
    }
  }

  /** One two-finger reading while pinching: the machine keeps pinching with
      the long wait, and the stored distance moves by exactly the signed change
      the reading reports, a pinch above one unit if it reports at all. */
  lemma PinchStep(ctx: Context, dist: real, timeout: nat, pos: TouchSensorPosition)
    requires pos.numFingers == 2
    ensures var s := Step(ctx, Machine(Pinching(dist), timeout), Notified(1, pos));
      && s.next.state.Pinching?
      && s.next.timeout == IDLE_WAIT_MS
      && (s.emitted.Sent? ==> s.next.state.dist == dist + Signed(s.emitted.event))
      && (s.emitted.Sent? ==> (s.emitted.event.kind == PinchEnlarge || s.emitted.event.kind == PinchReduce)
                              && s.emitted.event.dist > 1.0)
      && (s.emitted == Silent ==> s.next.state.dist == dist)
  {
  }

  /** The thread's loop over the wakes `ws`, from the initial machine: each
      wake is stepped and its event, if any, appended to the channel. */
  method EventLoop(ctx: Context, ws: seq<Wake>) returns (m: Machine, events: seq<TouchEvent>)
    ensures Trace(m, events) == Run(ctx, INITIAL, ws)
    ensures |events| <= |ws| && ArmedFor(m) && Armed(m.timeout)
    ensures forall i :: 0 <= i < |events| ==> events[i].kind != TouchEventKind.None
  {
    m := INITIAL;
    events := [];
    var i := 0;
    while i < |ws|
      invariant 0 <= i <= |ws|
      invariant Run(ctx, INITIAL, ws)
             == Trace(Run(ctx, m, ws[i..]).final, events + Run(ctx, m, ws[i..]).events)
    {
      var r := Step(ctx, m, ws[i]);
      ghost var rest := Run(ctx, r.next, ws[i + 1..]);
      assert ws[i..] == [ws[i]] + ws[i + 1..];
      RunCons(ctx, m, ws[i], ws[i + 1..]);
      assert Run(ctx, m, ws[i..]) == Trace(rest.final, EventsOf(r.emitted) + rest.events);
      assert events + (EventsOf(r.emitted) + rest.events) == (events + EventsOf(r.emitted)) + rest.events;
      events := events + EventsOf(r.emitted);
      m := r.next;
      i := i + 1;
    }
    assert ws[i..] == [];
    LoopOutcome(ctx, ws, m, events);
  }

  /** What the loop's result inherits from being the run from the initial machine. */
  lemma LoopOutcome(ctx: Context, ws: seq<Wake>, m: Machine, events: seq<TouchEvent>)
    requires Trace(m, events) == Run(ctx, INITIAL, ws)
    ensures |events| <= |ws| && ArmedFor(m) && Armed(m.timeout)
    ensures forall i :: 0 <= i < |events| ==> events[i].kind != TouchEventKind.None
  {
    RunKeepsArmed(ctx, INITIAL, ws);
    RunSendsNoNone(ctx, INITIAL, ws);
  }
}
