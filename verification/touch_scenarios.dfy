/** Concrete runs of the gesture machine for the display the platform
    configures, 1024 x 758 turned by 270 degrees, over a touch controller whose
    resolution is assumed to be 1000 x 1000 units. The firmware reads the
    resolution from the controller at run time and does not fix its value. */
module TouchScenarios {
  import opened TouchGeometry
  import opened TouchFsm
  import opened TouchTrace

  /** The transform the thread builds for this display and the assumed resolution. */
  function ScenarioTransform(): (t: CoordTransform)
    ensures t == CoordTransform(1.024, 0.758, Rotate270)
  {
    MakeTransform(1024, 758, 1000, 1000, Rotate270)
  }

  function One(x: nat, y: nat): TouchSensorPosition { TouchSensorPosition(1, x, y, 0, 0) }
  function Two(x0: nat, y0: nat, x1: nat, y1: nat): TouchSensorPosition { TouchSensorPosition(2, x0, y0, x1, y1) }
  function Lift(): TouchSensorPosition { TouchSensorPosition(0, 0, 0, 0, 0) }

  /** A touch at (500, 500) lifted before the hold deadline is one tap at
      display position (512, 379). */
  lemma TapScenario(ctx: Context)
    requires ctx.transform == ScenarioTransform()
    ensures Run(ctx, INITIAL, [Notified(1, One(500, 500)), Notified(1, Lift())])
         == Trace(INITIAL, [TouchEvent(Tap, 512, 379, 0.0)])
  {
    var p := Tracking1Position(512.0, 379.0);
    assert Track1(ctx.transform, One(500, 500)) == p;
    var m1 := Machine(WaitNext(p), TAP_WINDOW_MS);
    assert Step(ctx, INITIAL, Notified(1, One(500, 500))) == StepResult(m1, Silent);
    assert TapAt(p) == TouchEvent(Tap, 512, 379, 0.0);
    RunCons(ctx, m1, Notified(1, Lift()), []);
    RunCons(ctx, INITIAL, Notified(1, One(500, 500)), [Notified(1, Lift())]);
  }

  /** A touch at (500, 500) moved to (540, 500) travels 40.96 display units,
      beyond the threshold: lifting it is one `SwipeRight`. */
  lemma SwipeScenario(ctx: Context)
    requires ctx.transform == ScenarioTransform() && IsEuclidean(ctx.distance)
    ensures Run(ctx, INITIAL, [Notified(1, One(500, 500)), Notified(1, One(540, 500)), Notified(1, Lift())])
         == Trace(INITIAL, [NewEvent(SwipeRight)])
  {
    var p := Tracking1Position(512.0, 379.0);
    var q := Tracking1Position(552.96, 379.0);
    assert Track1(ctx.transform, One(500, 500)) == p;
    assert Track1(ctx.transform, One(540, 500)) == q;
    BeyondThresholdIffSquared(ctx.distance, p.x, p.y, q.x, q.y);
    var m1 := Machine(WaitNext(p), TAP_WINDOW_MS);
    var t := Tracking2Position(p.x, p.y, q.x, q.y);
    var m2 := Machine(Swiping(t), IDLE_WAIT_MS);
    assert Step(ctx, INITIAL, Notified(1, One(500, 500))) == StepResult(m1, Silent);
    assert Step(ctx, m1, Notified(1, One(540, 500))) == StepResult(m2, Silent);
    assert Step(ctx, m2, Notified(1, Lift())) == StepResult(INITIAL, Sent(NewEvent(SwipeRight)));
    RunCons(ctx, m2, Notified(1, Lift()), []);
    RunCons(ctx, m1, Notified(1, One(540, 500)), [Notified(1, Lift())]);
    RunCons(ctx, INITIAL, Notified(1, One(500, 500)), [Notified(1, One(540, 500)), Notified(1, Lift())]);
  }

  /** Two fingers 200 units apart pulled to 260 units apart: the display
      distance grows from 204.8 to 266.24, one `PinchEnlarge` of 61.44; the
      lift then releases. */
  lemma PinchScenario(ctx: Context)
    requires ctx.transform == ScenarioTransform() && IsEuclidean(ctx.distance)
    ensures Run(ctx, INITIAL, [Notified(1, Two(400, 500, 600, 500)), Notified(1, Two(370, 500, 630, 500)), Notified(1, Lift())])
         == Trace(INITIAL, [TouchEvent(PinchEnlarge, 0, 0, 61.44), NewEvent(Release)])
  {
    var a := Track2(ctx.transform, Two(400, 500, 600, 500));
    var b := Track2(ctx.transform, Two(370, 500, 630, 500));
    assert a == Tracking2Position(409.6, 379.0, 614.4, 379.0);
    assert b == Tracking2Position(378.88, 379.0, 645.12, 379.0);
    DistanceIs(ctx.distance, a.x0, a.y0, a.x1, a.y1, 204.8);
    DistanceIs(ctx.distance, b.x1, b.y1, b.x0, b.y0, 266.24);
    var m1 := Machine(Pinching(204.8), IDLE_WAIT_MS);
    var m2 := Machine(Pinching(266.24), IDLE_WAIT_MS);
    var pinch := TouchEvent(PinchEnlarge, 0, 0, 61.44);
    assert Step(ctx, INITIAL, Notified(1, Two(400, 500, 600, 500))) == StepResult(m1, Silent);
    assert Step(ctx, m1, Notified(1, Two(370, 500, 630, 500))) == StepResult(m2, Sent(pinch));
    assert Step(ctx, m2, Notified(1, Lift())) == StepResult(INITIAL, Sent(NewEvent(Release)));
    RunCons(ctx, m2, Notified(1, Lift()), []);
    RunCons(ctx, m1, Notified(1, Two(370, 500, 630, 500)), [Notified(1, Lift())]);
    RunCons(ctx, INITIAL, Notified(1, Two(400, 500, 600, 500)), [Notified(1, Two(370, 500, 630, 500)), Notified(1, Lift())]);
  }

  /** A touch held past the 500 ms deadline is a `Hold`; held 1000 ms more it
      is released, and the machine is back where it started. */
  lemma HoldScenario(ctx: Context)
    ensures Run(ctx, INITIAL, [Notified(1, One(500, 500)), TimedOut, TimedOut])
         == Trace(INITIAL, [NewEvent(Hold), NewEvent(Release)])
  {
    HoldGesture(ctx, IDLE_WAIT_MS, One(500, 500), [], TimedOut);
    assert [Notified(1, One(500, 500)), TimedOut] + Samples([]) + [TimedOut]
        == [Notified(1, One(500, 500)), TimedOut, TimedOut];
  }
}
