/** Touch-to-scroll gesture recognition for the WPE port: a controller that turns raw
    down/motion/up touch events into two-dimensional smooth-scroll axis events, with
    axis locking so that a mostly vertical (or horizontal) drag scrolls along one axis only.
    Only the WPE >= 1.5 variant (two-dimensional axis events) is modelled. */
module ScrollGesture {

  /** Touch time that must elapse before a press turns into a scroll (milliseconds). */
  const ScrollCaptureThreshold: int := 200
  /** Both axes must have moved at least this far for the diagonal rule to apply. */
  const AxisLockMovementThreshold: int := 8
  /** Movement on the other axis from which an unbroken axis lock suppresses an axis. */
  const AxisLockActivationThreshold: int := 15
  /** Movement along an axis from which that axis's lock is broken for the gesture. */
  const AxisLockReleaseThreshold: int := 30

  const UInt32Modulus: int := 0x1_0000_0000

  type UInt32 = x: int | 0 <= x < 0x1_0000_0000
  type Int32 = x: int | -0x8000_0000 <= x < 0x8000_0000

  datatype TouchEventType = TouchNull | TouchDown | TouchMotion | TouchUp

  /** A raw touch event: its type, timestamp and position. */
  datatype TouchPoint = TouchPoint(kind: TouchEventType, time: UInt32, x: Int32, y: Int32)

  /** The wheel-event phases of the engine; the controller uses None, Changed and Ended. */
  datatype Phase = PhaseNone | PhaseBegan | PhaseStationary | PhaseChanged | PhaseEnded
                 | PhaseCancelled | PhaseMayBegin

  /** The axis event's type: zero until the first scroll, then "2D mask | smooth motion". */
  datatype AxisEventType = AxisEventNull | AxisEventMotionSmooth2D

  /** The two-dimensional axis event handed to the page: the base event (type, time,
      position, axis, value, modifiers) and the two per-axis deltas. */
  datatype AxisEvent = AxisEvent(eventType: AxisEventType, time: UInt32, x: Int32, y: Int32,
                                 axis: int, value: int, modifiers: int,
                                 xAxis: int, yAxis: int)

  datatype Start = Start(active: bool, time: UInt32, x: Int32, y: Int32)
  datatype Offset = Offset(x: Int32, y: Int32)

  /** Everything the controller remembers between events. */
  datatype GestureState = GestureState(start: Start, offset: Offset, handling: bool,
                                       xAxisLockBroken: bool, yAxisLockBroken: bool,
                                       axisEvent: AxisEvent, phase: Phase)

  /** The new state after one event, and the value handleEvent returns for it. */
  datatype StepResult = StepResult(state: GestureState, handled: bool)

  const ZeroAxisEvent: AxisEvent := AxisEvent(AxisEventNull, 0, 0, 0, 0, 0, 0, 0, 0)

  /** The state of a freshly constructed controller (the header's default initialisers;
      the axis event, which the header leaves without an initialiser, is taken as zero). */
  function InitialState(): GestureState
  {
    GestureState(Start(false, 0, 0, 0), Offset(0, 0), false, false, false, ZeroAxisEvent, PhaseNone)
  }

  function Abs(x: int): nat
  {
    if x < 0 then -x else x
  }

  /** Unsigned 32-bit subtraction: the time elapsed since `from`, wrapping like uint32_t. */
  function Elapsed(from: UInt32, to: UInt32): (d: UInt32)
    ensures (from + d) % UInt32Modulus == to
    ensures to >= from ==> d == to - from
    ensures to < from ==> d == UInt32Modulus - (from - to)
  {
    (to - from) % UInt32Modulus
  }

  /** A pressed touch point turns into a scroll once it has moved a line step on either
      axis or has been held for the capture threshold. */
  predicate StartsScrolling(start: Start, e: TouchPoint, pixelsPerLineStep: int)
  {
    || Abs(e.x - start.x) >= pixelsPerLineStep
    || Abs(e.y - start.y) >= pixelsPerLineStep
    || Elapsed(start.time, e.time) >= ScrollCaptureThreshold
  }

  /** A short diagonal movement: both axes moved at least the movement threshold and
      neither reached the activation threshold. */
  predicate InDiagonalBand(xOffset: int, yOffset: int)
  {
    xOffset >= AxisLockMovementThreshold && yOffset >= AxisLockMovementThreshold
    && xOffset < AxisLockActivationThreshold && yOffset < AxisLockActivationThreshold
  }

  /** The controller's standing invariant: a gesture is handled only while a touch is down. */
  ghost predicate Inv(s: GestureState)
  {
    s.handling ==> s.start.active
  }

  /** The motion case of one handleEvent call. */
  function Motion(s: GestureState, e: TouchPoint, pixelsPerLineStep: int): StepResult
  {
    var handling := if s.start.active && !s.handling
                    then StartsScrolling(s.start, e, pixelsPerLineStep) else s.handling;
    if handling then
      var xOffset := Abs(e.x - s.start.x);
      var yOffset := Abs(e.y - s.start.y);
      var xBroken := s.xAxisLockBroken || xOffset >= AxisLockReleaseThreshold || InDiagonalBand(xOffset, yOffset);
      var yBroken := s.yAxisLockBroken || yOffset >= AxisLockReleaseThreshold || InDiagonalBand(xOffset, yOffset);
      var event := AxisEvent(AxisEventMotionSmooth2D, e.time, s.start.x, s.start.y, 0, 0, 0,
                             if xBroken || yOffset < AxisLockActivationThreshold then e.x - s.offset.x else 0,
                             if yBroken || xOffset < AxisLockActivationThreshold then e.y - s.offset.y else 0);
      StepResult(s.(handling := true, xAxisLockBroken := xBroken, yAxisLockBroken := yBroken,
                    axisEvent := event, offset := Offset(e.x, e.y), phase := PhaseChanged), true)
    else
      StepResult(s, false)
  }

  /** One call of handleEvent on state `s`. */
  function Step(s: GestureState, e: TouchPoint, pixelsPerLineStep: int): (r: StepResult)
    // down: a new press is remembered and both axis locks are re-armed
    ensures e.kind == TouchDown ==>
      && r.state.start == Start(true, e.time, e.x, e.y)
      && r.state.offset == Offset(e.x, e.y)
      && !r.state.xAxisLockBroken && !r.state.yAxisLockBroken
      && r.state.handling == s.handling && r.state.phase == s.phase
      && r.state.axisEvent == s.axisEvent
      && !r.handled
    // motion: handling starts only for an active press that moved or was held long enough,
    // and once started it stays on
    ensures e.kind == TouchMotion ==>
      (r.state.handling <==> s.handling || (s.start.active && StartsScrolling(s.start, e, pixelsPerLineStep)))
    ensures e.kind == TouchMotion ==> r.handled == r.state.handling
    ensures e.kind == TouchMotion && r.handled ==>
      && r.state.phase == PhaseChanged
      && r.state.offset == Offset(e.x, e.y)
      && r.state.start == s.start
      && r.state.axisEvent.eventType == AxisEventMotionSmooth2D
      && r.state.axisEvent.time == e.time
      && r.state.axisEvent.x == s.start.x && r.state.axisEvent.y == s.start.y
      && r.state.axisEvent.axis == 0 && r.state.axisEvent.value == 0 && r.state.axisEvent.modifiers == 0
    ensures e.kind == TouchMotion && !r.handled ==> r.state == s
    // axis locks: a handled motion breaks a lock exactly when the lock was already broken,
    // its axis reached the release threshold, or the movement is a short diagonal one;
    // nothing but a down event re-arms a lock
    ensures e.kind == TouchMotion ==>
      (r.state.xAxisLockBroken <==>
         s.xAxisLockBroken
         || (r.handled && (Abs(e.x - s.start.x) >= AxisLockReleaseThreshold
                           || InDiagonalBand(Abs(e.x - s.start.x), Abs(e.y - s.start.y)))))
    ensures e.kind == TouchMotion ==>
      (r.state.yAxisLockBroken <==>
         s.yAxisLockBroken
         || (r.handled && (Abs(e.y - s.start.y) >= AxisLockReleaseThreshold
                           || InDiagonalBand(Abs(e.x - s.start.x), Abs(e.y - s.start.y)))))
    ensures e.kind != TouchDown ==>
      (s.xAxisLockBroken ==> r.state.xAxisLockBroken) && (s.yAxisLockBroken ==> r.state.yAxisLockBroken)
    // the locked axis is suppressed, the other reports the movement since the last event
    ensures r.handled ==>
      r.state.axisEvent.xAxis ==
        (if r.state.xAxisLockBroken || Abs(e.y - s.start.y) < AxisLockActivationThreshold
         then e.x - s.offset.x else 0)
    ensures r.handled ==>
      r.state.axisEvent.yAxis ==
        (if r.state.yAxisLockBroken || Abs(e.x - s.start.x) < AxisLockActivationThreshold
         then e.y - s.offset.y else 0)
    // up: ends a handled gesture and zeroes the deltas; otherwise nothing happens
    ensures e.kind == TouchUp && s.handling ==>
      && !r.state.start.active && !r.state.handling
      && r.state.axisEvent.xAxis == 0 && r.state.axisEvent.yAxis == 0
      && r.state.axisEvent.eventType == s.axisEvent.eventType
      && r.state.axisEvent.time == e.time
      && r.state.axisEvent.x == s.start.x && r.state.axisEvent.y == s.start.y
      && r.state.axisEvent.axis == 0 && r.state.axisEvent.value == 0 && r.state.axisEvent.modifiers == 0
      && r.state.start.time == s.start.time && r.state.start.x == s.start.x && r.state.start.y == s.start.y
      && r.state.xAxisLockBroken == s.xAxisLockBroken && r.state.yAxisLockBroken == s.yAxisLockBroken
      && r.state.offset == Offset(0, 0)
      && r.state.phase == PhaseEnded
    ensures e.kind == TouchUp && !s.handling ==> r.state == s
    ensures e.kind == TouchNull ==> r.state == s
    // only motion events are consumed, and the invariant is kept
    ensures r.handled ==> e.kind == TouchMotion
    ensures Inv(s) ==> Inv(r.state)
  {
    match e.kind
    case TouchDown =>
      StepResult(s.(start := Start(true, e.time, e.x, e.y), offset := Offset(e.x, e.y),
                    xAxisLockBroken := false, yAxisLockBroken := false), false)
    case TouchMotion =>
      Motion(s, e, pixelsPerLineStep)
    case TouchUp =>
      if s.handling then
        StepResult(s.(start := s.start.(active := false), handling := false,
                      axisEvent := AxisEvent(s.axisEvent.eventType, e.time, s.start.x, s.start.y, 0, 0, 0, 0, 0),
                      offset := Offset(0, 0), phase := PhaseEnded), false)
      else
        StepResult(s, false)
    case TouchNull =>
      StepResult(s, false)
  }

  /** The results of feeding a sequence of events to the controller. */
  datatype RunResult = RunResult(state: GestureState, handled: seq<bool>)

  function Run(s: GestureState, events: seq<TouchPoint>, pixelsPerLineStep: int): (r: RunResult)
    ensures |r.handled| == |events|
    // only motion events are ever turned into scrolls
    ensures forall i :: 0 <= i < |events| && r.handled[i] ==> events[i].kind == TouchMotion
    decreases |events|
  {
    if events == [] then RunResult(s, [])
    else
      var first := Step(s, events[0], pixelsPerLineStep);
      var rest := Run(first.state, events[1..], pixelsPerLineStep);
      RunResult(rest.state, [first.handled] + rest.handled)
  }

  /** Axis locking: while the horizontal lock holds, a handled motion that has moved the
      touch at least the activation threshold vertically but less than that horizontally
      scrolls vertically only, by the vertical movement since the last event. */
  lemma VerticalDragScrollsVerticallyOnly(s: GestureState, e: TouchPoint, pixelsPerLineStep: int)
    requires e.kind == TouchMotion && !s.xAxisLockBroken
    requires Step(s, e, pixelsPerLineStep).handled
    requires Abs(e.y - s.start.y) >= AxisLockActivationThreshold
    requires Abs(e.x - s.start.x) < AxisLockActivationThreshold
    ensures Step(s, e, pixelsPerLineStep).state.axisEvent.xAxis == 0
    ensures Step(s, e, pixelsPerLineStep).state.axisEvent.yAxis == e.y - s.offset.y
  {
  }

  /** The same for a mostly horizontal drag while the vertical lock holds. */
  lemma HorizontalDragScrollsHorizontallyOnly(s: GestureState, e: TouchPoint, pixelsPerLineStep: int)
    requires e.kind == TouchMotion && !s.yAxisLockBroken
    requires Step(s, e, pixelsPerLineStep).handled
    requires Abs(e.x - s.start.x) >= AxisLockActivationThreshold
    requires Abs(e.y - s.start.y) < AxisLockActivationThreshold
    ensures Step(s, e, pixelsPerLineStep).state.axisEvent.yAxis == 0
    ensures Step(s, e, pixelsPerLineStep).state.axisEvent.xAxis == e.x - s.offset.x
  {
  }

  predicate NoneOfKind(events: seq<TouchPoint>, kind: TouchEventType)
  {
    forall i :: 0 <= i < |events| ==> events[i].kind != kind
  }

  /** Once a gesture is being handled it stays handled until an up event arrives. */
  lemma {:induction false} HandlingPersistsUntilUp(s: GestureState, events: seq<TouchPoint>, pixelsPerLineStep: int)
    requires s.handling
    requires NoneOfKind(events, TouchUp)
    ensures Run(s, events, pixelsPerLineStep).state.handling
    decreases |events|
  {
    if events != [] {
      HandlingPersistsUntilUp(Step(s, events[0], pixelsPerLineStep).state, events[1..], pixelsPerLineStep);
    }
  }

  /** A broken axis lock is re-armed only by a down event. */
  lemma {:induction false} AxisLocksResetOnlyByDown(s: GestureState, events: seq<TouchPoint>, pixelsPerLineStep: int)
    requires NoneOfKind(events, TouchDown)
    ensures s.xAxisLockBroken ==> Run(s, events, pixelsPerLineStep).state.xAxisLockBroken
    ensures s.yAxisLockBroken ==> Run(s, events, pixelsPerLineStep).state.yAxisLockBroken
    decreases |events|
  {
    if events != [] {
      AxisLocksResetOnlyByDown(Step(s, events[0], pixelsPerLineStep).state, events[1..], pixelsPerLineStep);
    }
  }

  /** Every reachable state keeps the invariant that handling implies an active press. */
  lemma {:induction false} RunKeepsInvariant(s: GestureState, events: seq<TouchPoint>, pixelsPerLineStep: int)
    requires Inv(s)
    ensures Inv(Run(s, events, pixelsPerLineStep).state)
    decreases |events|
  {
    if events != [] {
      RunKeepsInvariant(Step(s, events[0], pixelsPerLineStep).state, events[1..], pixelsPerLineStep);
    }
  }

  /** With no press active (after construction or after an up ended a gesture), every
      event other than a down is ignored: nothing is scrolled and nothing changes. */
  lemma {:induction false} IdleIgnoresAllButDown(s: GestureState, events: seq<TouchPoint>, pixelsPerLineStep: int)
    requires !s.start.active && !s.handling
    requires NoneOfKind(events, TouchDown)
    ensures Run(s, events, pixelsPerLineStep).state == s
    ensures forall i :: 0 <= i < |events| ==> !Run(s, events, pixelsPerLineStep).handled[i]
    decreases |events|
  {
    if events != [] {
      IdleIgnoresAllButDown(s, events[1..], pixelsPerLineStep);
    }
  }

  /** The controller object: the mutable fields of the source, updated in place. */
  class ScrollGestureController {
    const pixelsPerLineStep: int

    var start: Start
    var offset: Offset
    var handling: bool
    var xAxisLockBroken: bool
    var yAxisLockBroken: bool
    var axisEvent: AxisEvent
    var phase: Phase

    /** The controller's fields as one value. */
    function State(): GestureState
      reads this
    {
      GestureState(start, offset, handling, xAxisLockBroken, yAxisLockBroken, axisEvent, phase)
    }

    /** The accessors of the header; being functions, they change nothing. */
    function IsHandling(): bool
      reads this
    {
      handling
    }

    function CurrentPhase(): Phase
      reads this
    {
      phase
    }

    function CurrentAxisEvent(): AxisEvent
      reads this
    {
      axisEvent
    }

    /** Scrollbar's line step is the one platform constant the controller consults. */
    constructor (pixelsPerLineStep: int)
      requires pixelsPerLineStep > 0
      ensures this.pixelsPerLineStep == pixelsPerLineStep
      ensures State() == InitialState()
      ensures !IsHandling() && CurrentPhase() == PhaseNone
      ensures start.time == 0 && start.x == 0 && start.y == 0 && offset == Offset(0, 0)
    {
      this.pixelsPerLineStep := pixelsPerLineStep;
      start := Start(false, 0, 0, 0);
      offset := Offset(0, 0);
      handling := false;
      xAxisLockBroken := false;
      yAxisLockBroken := false;
      axisEvent := ZeroAxisEvent;
      phase := PhaseNone;
    }

    /** handleEvent: updates the fields as Step says and returns whether the event was
        turned into a scroll. */
    method HandleEvent(touchPoint: TouchPoint) returns (handled: bool)
      modifies this
      ensures State() == Step(old(State()), touchPoint, pixelsPerLineStep).state
      ensures handled == Step(old(State()), touchPoint, pixelsPerLineStep).handled
    {
      match touchPoint.kind {
        case TouchDown =>
          start := Start(true, touchPoint.time, touchPoint.x, touchPoint.y);
          offset := Offset(touchPoint.x, touchPoint.y);
          xAxisLockBroken := false;
          yAxisLockBroken := false;
          return false;
        case TouchMotion =>
          handled := HandleMotion(touchPoint);
        case TouchUp =>
          if handling {
            start := start.(active := false);
            handling := false;
            axisEvent := AxisEvent(axisEvent.eventType, touchPoint.time, start.x, start.y, 0, 0, 0, 0, 0);
            offset := Offset(0, 0);
            phase := PhaseEnded;
          }
          return false;
        case TouchNull =>
          return false;
      }
    }

    /** The motion case of handleEvent: decide whether scrolling starts, then, while
        handling, update the axis locks and emit the scroll deltas. */
    method HandleMotion(touchPoint: TouchPoint) returns (handled: bool)
      modifies this
      ensures State() == Motion(old(State()), touchPoint, pixelsPerLineStep).state
      ensures handled == Motion(old(State()), touchPoint, pixelsPerLineStep).handled
    {
      UpdateHandling(touchPoint);
      if !handling {
        return false;
      }
      var xOffset := Abs(touchPoint.x - start.x);
      var yOffset := Abs(touchPoint.y - start.y);
      UpdateAxisLocks(xOffset, yOffset);
      var xAxis := if xAxisLockBroken || yOffset < AxisLockActivationThreshold then -(offset.x - touchPoint.x) else 0;
      var yAxis := if yAxisLockBroken || xOffset < AxisLockActivationThreshold then -(offset.y - touchPoint.y) else 0;
      axisEvent := AxisEvent(AxisEventMotionSmooth2D, touchPoint.time, start.x, start.y, 0, 0, 0, xAxis, yAxis);
      offset := Offset(touchPoint.x, touchPoint.y);
      phase := PhaseChanged;
      return true;
    }

    /** Starts handling the gesture once an active press has moved a line step on either
        axis or has been held for the capture threshold; a started gesture stays handled. */
    method UpdateHandling(touchPoint: TouchPoint)
      modifies this`handling
      ensures handling == (if start.active && !old(handling)
                           then StartsScrolling(start, touchPoint, pixelsPerLineStep) else old(handling))
    {
      if start.active && !handling {
        var deltaX := touchPoint.x - start.x;
        var deltaY := touchPoint.y - start.y;
        var deltaTime := Elapsed(start.time, touchPoint.time);
        handling := Abs(deltaX) >= pixelsPerLineStep
          || Abs(deltaY) >= pixelsPerLineStep
          || deltaTime >= ScrollCaptureThreshold;
      }
    }

    /** Breaks the axis locks that this movement away from the press releases: an axis
        moved past the release threshold, or both axes after a short diagonal movement. */
    method UpdateAxisLocks(xOffset: nat, yOffset: nat)
      modifies this`xAxisLockBroken, this`yAxisLockBroken
      ensures xAxisLockBroken == (old(xAxisLockBroken) || xOffset >= AxisLockReleaseThreshold || InDiagonalBand(xOffset, yOffset))
      ensures yAxisLockBroken == (old(yAxisLockBroken) || yOffset >= AxisLockReleaseThreshold || InDiagonalBand(xOffset, yOffset))
    {
      if xOffset >= AxisLockReleaseThreshold {
        xAxisLockBroken := true;
      }
      if yOffset >= AxisLockReleaseThreshold {
        yAxisLockBroken := true;
      }
      if xOffset >= AxisLockMovementThreshold && yOffset >= AxisLockMovementThreshold
         && xOffset < AxisLockActivationThreshold && yOffset < AxisLockActivationThreshold {
        xAxisLockBroken := true;
        yAxisLockBroken := true;
      }
    }
  }
}
