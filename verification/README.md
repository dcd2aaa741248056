# Touch gesture state machine of the Inkplate e-reader firmware

The firmware runs one thread, `touch_event_thread`, that turns readings of
the capacitive touch controller into gesture events for the reader's UI. The
readings are a finger count and up to two raw points. The events are `Tap`,
`Hold`, `SwipeLeft`, `SwipeRight`, `PinchEnlarge`, `PinchReduce` and
`Release`. The thread blocks on a task notification with a timeout. Each wake
is either a notification from the touch interrupt or expiry of the timeout.
A notification whose value is not 1 is spurious and changes nothing. Every
other wake runs one arm of a `match` on the tracking state
`None | WaitNext | Holding | Swiping | Pinching`: the match on a new reading
after a notification, or the match on expiry.

This project models that machine as a pure function and proves what it does.

- `touch_geometry.dfy` (module `TouchGeometry`): the raw reading, the
  sensor-to-display transform (per-axis scale, rotation carried but not
  applied), the tracked positions, the 30-unit swipe threshold and the
  distance function.
- `touch_fsm.dfy` (module `TouchFsm`): events, tracking state, wakes, and
  `Step(ctx, machine, wake)`. `Step` returns the next state, the next timeout
  and at most one event. There is one function per arm of the reading match
  (`SampleInNone` to `SampleInPinching`), joined by `OnSample`, and one
  function, `OnTimeout`, for all arms of the expiry match. The module also
  has the event constructors (`NewEvent`, `TapAt`, `SwipeEvent`,
  `PinchEvent`), the pinch distance measure `PinchDistance`, and the
  saturating `as u32` cast used for tap coordinates.
- `touch_trace.dfy` (module `TouchTrace`): `Run`, which folds `Step` over a
  sequence of wakes. Also `EventLoop`, the thread's loop as a method, and the
  gestures as properties of runs: tap, hold and release, swipe direction,
  pinch accounting, and quiet wakes.
- `touch_scenarios.dfy` (module `TouchScenarios`): concrete runs for the
  display the platform configures, 1024 x 758 with `Rotate270`
  (src/inkplate_platform/inkplate.rs:206-211). The touch controller's
  resolution is read at run time (src/inkplate_platform/touch_event.rs:155),
  so the scenarios assume a resolution of 1000 x 1000.

Coordinates, scales and distances are `real`. `distance` is a square root,
which Dafny cannot compute over the reals. So the machine takes the distance
function as a parameter (`Context.distance`, called with the same argument
order as each call site in the firmware). Lemmas that need its value assume
`IsEuclidean`: the result is non-negative and squares to dx² + dy².

The model follows the code where a plain transition table for this machine
would suggest otherwise:

- After any reading in `Holding`, the timeout is 1000 ms. This includes the
  lift that returns the machine to `None`.
- Once that 1000 ms timeout is armed in `None`, it stays armed: expiries in
  `None` change nothing (`QuietWakesChangeNothing`).
- A reading with no fingers while in `None` leaves the timeout as it was.
- In `Holding`, a reading with one or two fingers keeps the hold. It re-arms
  the 1000 ms release deadline.
- In `Pinching`, a one-finger reading only re-arms the long wait.
- Any reading in `WaitNext` arms the 100000 ms wait. After a small movement
  (jitter), the hold can only come 100 s later (`JitterKeepsTouch`).
- A finger count other than 0, 1 or 2 takes no branch. The state is
  unchanged, but the timeout is whatever that state's arm assigns.

## Model

| member | source | states |
|---|---|---|
| TouchGeometry.MakeTransform | src/inkplate_platform/touch_event.rs:155-160 | each scale times the sensor resolution gives the display extent on that axis; the scales are non-negative; the configured rotation is kept |
| TouchGeometry.From1 | src/inkplate_platform/touch_event.rs:110-117 | slot 0 of a reading becomes a tracked point without loss: both coordinates are whole and give back the raw values |
| TouchGeometry.From2 | src/inkplate_platform/touch_event.rs:119-126 | slot 0 of the two-point conversion is the one-point conversion; slot 1 is converted without loss too |
| TouchGeometry.Transform1 | src/inkplate_platform/touch_event.rs:70-82 | dividing a display coordinate by its axis' non-zero scale gives back the sensor coordinate; non-negative points and scales stay non-negative |
| TouchGeometry.Transform2 | src/inkplate_platform/touch_event.rs:91-105 | dividing each display coordinate by its axis' non-zero scale gives back both sensor coordinates; non-negative points and scales stay non-negative |
| TouchGeometry.TransformActsPerSlot | src/inkplate_platform/touch_event.rs:93-104 | the two-point transform scales each slot exactly as the one-point transform does, each axis by its own factor |
| TouchGeometry.TransformIgnoresRotation | src/inkplate_platform/touch_event.rs:72-81 | changing the rotation changes neither the one-point nor the two-point transform |
| TouchGeometry.TransformProportional | src/inkplate_platform/touch_event.rs:155-160 | a point's display coordinate over the display extent equals its raw coordinate over the sensor resolution, on both axes |
| TouchGeometry.DistanceSymmetric | src/inkplate_platform/touch_event.rs:128-133 | a Euclidean distance does not depend on argument order, so the two orders the firmware uses for pinch distances agree |
| TouchGeometry.BeyondThresholdIffSquared | src/inkplate_platform/touch_event.rs:107-108 | a Euclidean distance exceeds the 30-unit threshold exactly when the squared displacement exceeds 900 |
| TouchFsm.NewEvent | src/inkplate_platform/touch_event.rs:41-50 | a new event has the given kind and reports no position and no distance |
| TouchFsm.TapAt | src/inkplate_platform/touch_event.rs:186-190 | a tap reports kind `Tap` and no distance; its position is a u32 pair which, in range, is the start point truncated, and is 0 on a negative coordinate |
| TouchFsm.AsU32 | src/inkplate_platform/touch_event.rs:188-189 | the cast result is a u32; in range it is the floor of the value (largest integer not above it); it saturates to 0 below and u32::MAX above |
| TouchFsm.SwipeEvent | src/inkplate_platform/touch_event.rs:222-227 | a swipe is `SwipeRight` exactly when the start x lies left of the end x, `SwipeLeft` otherwise, with no position or distance |
| TouchFsm.PinchEvent | src/inkplate_platform/touch_event.rs:259-267 | a pinch is `PinchEnlarge` exactly when the old distance is below the new one, else `PinchReduce`; its `dist` is the absolute change |
| TouchFsm.SampleInNone | src/inkplate_platform/touch_event.rs:170-183 | idle: one finger starts tracking its transformed point with the 500 ms deadline; two fingers start a pinch at their distance with the long wait; other counts change nothing, timeout included; never an event |
| TouchFsm.SampleInWaitNext | src/inkplate_platform/touch_event.rs:184-210 | every reading arms 100000 ms; an event is sent exactly on a lift, and it is the tap at the start point; one finger keeps the state iff within 30 units, else swipes from the start to the new point; two fingers start a pinch |
| TouchFsm.SampleInHolding | src/inkplate_platform/touch_event.rs:211-220 | every reading arms 1000 ms; an event is sent exactly on a lift, it is `Release` and the machine goes idle; otherwise the hold stays |
| TouchFsm.SampleInSwiping | src/inkplate_platform/touch_event.rs:221-244 | every reading arms 100000 ms; a lift sends the swipe event and goes idle, and only a lift sends; one finger keeps the start and replaces the end point; two fingers start a pinch |
| TouchFsm.PinchDistance | src/inkplate_platform/touch_event.rs:253-258 | for a Euclidean distance, the finger distance of a pinch reading is the length of the segment between the two fingers, equal to the value the other argument order gives when a pinch starts |
| TouchFsm.SampleInPinching | src/inkplate_platform/touch_event.rs:245-272 | every reading arms 100000 ms; a lift releases; two fingers send exactly when the distance changes by more than 1, the pinch event of that change, and the stored distance moves to the new one exactly then; one finger changes nothing else |
| TouchFsm.OnSample | src/inkplate_platform/touch_event.rs:169-273 | a lift always leaves the machine idle and reports exactly when something was tracked; one finger never reports; two fingers keep a hold, otherwise lead to a pinch, and report only a pinch under way; more than two fingers change no state and report nothing |
| TouchFsm.OnTimeout | src/inkplate_platform/touch_event.rs:279-310 | an expiry sends exactly when something is tracked: a pending touch becomes `Hold` with 1000 ms; a hold or pinch sends `Release`, a swipe its direction, and go idle with 100000 ms; when idle nothing changes |
| TouchFsm.Step | src/inkplate_platform/touch_event.rs:163-311 | a notification other than 1 changes nothing; an event is sent exactly on an expiry while tracking, a lift while tracking, or a pinch change above 1 (`SendsOn`); no event of kind `None` is sent; only taps carry a position and only pinches a distance; the state/timeout pairing is preserved, so only 500, 1000 and 100000 ms are armed |
| TouchFsm.InitialArmed | src/inkplate_platform/touch_event.rs:161-162 | the loop starts idle with the 100000 ms wait, a consistent pairing |
| TouchTrace.Run | src/inkplate_platform/touch_event.rs:163-312 | over any sequence of wakes, no more events than wakes (each wake's `Emission` holds at most one event by its type) |
| TouchTrace.RunKeepsArmed | src/inkplate_platform/touch_event.rs:162-311 | from a consistent state/timeout pairing, every run ends consistent, so the armed timeout is always 500, 1000 or 100000 ms |
| TouchTrace.RunSendsNoNone | src/inkplate_platform/touch_event.rs:169-310 | no run sends an event of kind `None` |
| TouchTrace.EventLoop | src/inkplate_platform/touch_event.rs:161-312 | the imperative loop sends exactly the events of `Run` from the initial machine, in order: at most one per wake, none of kind `None`, ending in a consistent state/timeout pairing |
| TouchTrace.QuietWakesChangeNothing | src/inkplate_platform/touch_event.rs:274-310 | any number of spurious wakes, or expiries while idle, leave state and timeout unchanged and send nothing |
| TouchTrace.JitterKeepsTouch | src/inkplate_platform/touch_event.rs:192-209 | one-finger readings within 30 units of the start keep tracking the same start and send nothing; the first one replaces the 500 ms deadline with 100000 ms |
| TouchTrace.TapGesture | src/inkplate_platform/touch_event.rs:170-191 | touch, any jitter within 30 units, lift: exactly one `Tap`, at the truncated display point of the first touch, then idle with the long wait |
| TouchTrace.HoldingIgnoresContact | src/inkplate_platform/touch_event.rs:211-219 | readings with fingers down keep a hold, with the 1000 ms deadline, and send nothing |
| TouchTrace.HoldEnds | src/inkplate_platform/touch_event.rs:288-293 | in a hold, an expiry or a lift sends one `Release` and goes idle, with 100000 ms after the expiry and 1000 ms after the lift (the lift arm is touch_event.rs:211-219) |
| TouchTrace.HoldGesture | src/inkplate_platform/touch_event.rs:282-292 | touch then expiry is `Hold`; whatever the finger reports meanwhile, an expiry or a lift then sends exactly one `Release`; idle afterwards with 100000 ms after an expiry but 1000 ms after a lift |
| TouchTrace.SwipeTracksEnd | src/inkplate_platform/touch_event.rs:229-236 | one-finger readings while swiping keep the start point and leave the last reading as the end point |
| TouchTrace.SwipeEnds | src/inkplate_platform/touch_event.rs:300-307 | in a swipe, a lift or an expiry sends the swipe's direction and leaves the machine idle with 100000 ms (the lift arm is touch_event.rs:222-228) |
| TouchTrace.SwipeFinishes | src/inkplate_platform/touch_event.rs:221-236 | a swipe under way, any one-finger movement, then a lift or expiry: one swipe event from the start to the last point |
| TouchTrace.SwipeGesture | src/inkplate_platform/touch_event.rs:196-236 | a move beyond 30 units and further movement end, on lift or expiry, in exactly one event: `SwipeRight` iff the start x is left of the last x, else `SwipeLeft` |
| TouchTrace.PinchStep | src/inkplate_platform/touch_event.rs:250-271 | one two-finger reading while pinching keeps pinching with 100000 ms; if it sends, the event is a pinch above 1 and the stored distance moves by its signed change, otherwise the distance stays |
| TouchTrace.PinchAccounts | src/inkplate_platform/touch_event.rs:250-269 | over two-finger readings the machine keeps pinching, every event is a pinch with change above 1, and the stored distance ends at the start distance plus the sum of the signed reported changes |
| TouchScenarios.TapScenario | src/inkplate_platform/touch_event.rs:170-191 | with the assumed resolution: touch (500,500) and lift is one `Tap` at (512,379) |
| TouchScenarios.SwipeScenario | src/inkplate_platform/touch_event.rs:192-228 | with the assumed resolution: (500,500) moved to (540,500) and lifted is one `SwipeRight` |
| TouchScenarios.PinchScenario | src/inkplate_platform/touch_event.rs:176-269 | with the assumed resolution: fingers 200 apart pulled to 260 apart is one `PinchEnlarge` of 61.44 display units; the lift is `Release` |
| TouchScenarios.HoldScenario | src/inkplate_platform/touch_event.rs:282-292 | touch held through two expiries is `Hold` then `Release`, ending idle with the long wait |

## Left out

- The blocking `task::wait_notification`, `enable_interrupt` and
  `register_touch_task` are RTOS plumbing. Their outcome is the `Wake` given
  to `Step`: a notification with its value, or expiry. The model does not
  relate an expiry to elapsed time.
- Errors from `touch_sensor.get_position()`, `touch_sensor.resolution()` and
  the channel's `send` end the thread through `?`. The model assumes reads
  and sends succeed. A `Notified` wake carries the reading that
  `get_position` returns.
- IEEE f32 arithmetic (rounding, infinities, NaN) is not modelled: all values
  are reals. `distance` is a parameter, assumed Euclidean where a lemma needs
  its value, because real square roots cannot be computed here.
- TouchGeometry.MakeTransform: requires a non-zero sensor resolution, because
  the f32 division by zero the firmware would perform yields an infinite
  scale that reals cannot express.
- Logging (`info!`, `trace!`) is output only.
- Peripheral bring-up and the global task-id slot
  (src/inkplate_platform/inkplate.rs), logging, thread spawning and the event
  receive loop (src/main.rs), the battery ADC read
  (src/inkplate_platform/battery.rs) and the SD-card and task-statistics C++
  code (src/sdcard/) are hardware, concurrency or I/O. They are not part of
  this model.
