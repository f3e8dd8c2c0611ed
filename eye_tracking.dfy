/**
 * The Tobii eye tracker wrapper: connection lifecycle, the handlers for the
 * tracker's state and gaze streams, and the gaze point with its window-centre
 * fallback. The class-level `_instance` singleton is the registry object below.
 */
module EyeTracking {
  import opened Wrappers
  import opened Geometry

  /** Tobii's gaze tracking state. */
  datatype GazeTracking = GazeTracked | GazeNotTracked

  /** A state change reported by the tracker: its value is meaningful only when valid. */
  datatype StateChange<T> = StateChange(isValid: bool, value: T)

  /** The screen bounds the tracker reports, in its own units. */
  datatype ScreenBounds = ScreenBounds(width: real, height: real)

  /** A raw gaze sample: tracker coordinates and timestamp. */
  datatype GazeSample = GazeSample(x: real, y: real, timestamp: real)

  /** How a screen-bounds change was handled: applied, ignored as invalid, or raised on a zero extent. */
  datatype HandlerOutcome = Applied | Ignored | DivisionByZero

  /**
   * The mouse target `move_to_gaze_point` computes: each coordinate truncated
   * toward zero, offset, and raised to zero if negative.
   */
  function MoveTarget(gaze: Point, offsetX: int, offsetY: int): (target: (int, int))
    ensures target.0 >= 0 && target.1 >= 0
    ensures target.0 >= Trunc(gaze.x) + offsetX && target.1 >= Trunc(gaze.y) + offsetY
    ensures target.0 == 0 || target.0 == Trunc(gaze.x) + offsetX
    ensures target.1 == 0 || target.1 == Trunc(gaze.y) + offsetY
  {
    var x := Trunc(gaze.x) + offsetX;
    var y := Trunc(gaze.y) + offsetY;
    (if x > 0 then x else 0, if y > 0 then y else 0)
  }

  /** A gaze point on the screen with no offset is moved to exactly its whole-pixel part. */
  lemma MoveTargetOnScreen(gaze: Point)
    requires gaze.x >= 0.0 && gaze.y >= 0.0
    ensures MoveTarget(gaze, 0, 0) == (gaze.x.Floor, gaze.y.Floor)
  {
  }

  class EyeTracker {
    /** Whether the Tobii libraries failed to load. */
    const isMock: bool
    /** Whether a Tobii host connection is held (`_host` is not `None`). */
    var hasHost: bool
    var gazePoint: Option<GazeSample>
    var gazeState: Option<GazeTracking>
    var screenScale: Point
    var monitorSize: Point
    var isConnected: bool
    /** The mouse moves issued so far, oldest first. */
    var mouse: seq<MouseEvent>

    /** A connected tracker holds a host, and a mock tracker is never connected. */
    ghost predicate Valid()
      reads this
    {
      hasHost == isConnected && (isMock ==> !isConnected)
    }

    /**
     * A fresh, disconnected tracker. `librariesAvailable` says whether the
     * Tobii libraries loaded; `monitorSize` is what the window system reports.
     */
    constructor (librariesAvailable: bool, monitorSize: Point)
      ensures Valid()
      ensures isMock == !librariesAvailable
      ensures !hasHost && gazePoint == None && gazeState == None
      ensures screenScale == Point(1.0, 1.0) && this.monitorSize == monitorSize
      ensures !isConnected && mouse == []
    {
      isMock := !librariesAvailable;
      hasHost := false;
      gazePoint := None;
      gazeState := None;
      screenScale := Point(1.0, 1.0);
      this.monitorSize := monitorSize;
      isConnected := false;
      mouse := [];
    }

    /** `connect`: does nothing in mock mode; otherwise opens a host and marks the tracker connected. */
    method Connect()
      requires Valid()
      modifies this
      ensures Valid()
      ensures isMock ==> unchanged(this)
      ensures !isMock ==> hasHost && isConnected
      ensures gazePoint == old(gazePoint) && gazeState == old(gazeState)
      ensures screenScale == old(screenScale) && monitorSize == old(monitorSize) && mouse == old(mouse)
    {
      if isMock {
        return;
      }
      hasHost := true;
      isConnected := true;
    }

    /**
     * `disconnect`: does nothing on a disconnected tracker; otherwise drops the
     * host, forgets the gaze point and the gaze state and marks it disconnected.
     */
    method Disconnect()
      requires Valid()
      modifies this
      ensures Valid()
      ensures !old(isConnected) ==> unchanged(this)
      ensures old(isConnected) ==> !hasHost && gazePoint == None && gazeState == None && !isConnected
      ensures old(isConnected) ==> forall c :: GetGazePointOrDefault(c) == c
      ensures screenScale == old(screenScale) && monitorSize == old(monitorSize) && mouse == old(mouse)
    {
      if !isConnected {
        return;
      }
      hasHost := false;
      gazePoint := None;
      gazeState := None;
      isConnected := false;
    }

    /**
     * `_handle_screen_bounds`: ignore an invalid state; otherwise scale tracker
     * coordinates to the monitor size (read afresh from the window system).
     */
    method HandleScreenBounds(state: StateChange<ScreenBounds>, currentMonitorSize: Point)
      returns (outcome: HandlerOutcome)
      requires Valid()
      modifies this
      ensures Valid()
      ensures outcome == Ignored <==> !state.isValid
      ensures outcome == DivisionByZero <==> state.isValid && (state.value.width == 0.0 || state.value.height == 0.0)
      ensures outcome != Applied ==> unchanged(this)
      ensures outcome == Applied ==>
        && screenScale == Point(currentMonitorSize.x / state.value.width, currentMonitorSize.y / state.value.height)
        && monitorSize == currentMonitorSize
      ensures hasHost == old(hasHost) && gazePoint == old(gazePoint) && gazeState == old(gazeState)
      ensures isConnected == old(isConnected) && mouse == old(mouse)
    {
      if !state.isValid {
        return Ignored;
      }
      var bounds := state.value;
      if bounds.width == 0.0 || bounds.height == 0.0 {
        return DivisionByZero;
      }
      screenScale := Point(currentMonitorSize.x / bounds.width, currentMonitorSize.y / bounds.height);
      monitorSize := currentMonitorSize;
      outcome := Applied;
    }

    /** `_handle_gaze_state`: ignore an invalid state; otherwise record the tracking state. */
    method HandleGazeState(state: StateChange<GazeTracking>)
      requires Valid()
      modifies this
      ensures Valid()
      ensures !state.isValid ==> unchanged(this)
      ensures state.isValid ==> gazeState == Some(state.value)
      ensures state.isValid && state.value == GazeNotTracked ==> forall c :: GetGazePointOrDefault(c) == c
      ensures hasHost == old(hasHost) && gazePoint == old(gazePoint) && screenScale == old(screenScale)
      ensures monitorSize == old(monitorSize) && isConnected == old(isConnected) && mouse == old(mouse)
    {
      if !state.isValid {
        return;
      }
      gazeState := Some(state.value);
    }

    /** `_handle_gaze_point`: record the latest gaze sample. */
    method HandleGazePoint(x: real, y: real, timestamp: real)
      requires Valid()
      modifies this
      ensures Valid()
      ensures gazePoint == Some(GazeSample(x, y, timestamp))
      ensures !isMock && gazeState == Some(GazeTracked) ==>
        forall c :: GetGazePointOrDefault(c) == Point(x * screenScale.x, y * screenScale.y)
      ensures isMock ==> forall c :: GetGazePointOrDefault(c) == c
      ensures hasHost == old(hasHost) && gazeState == old(gazeState) && screenScale == old(screenScale)
      ensures monitorSize == old(monitorSize) && isConnected == old(isConnected) && mouse == old(mouse)
    {
      gazePoint := Some(GazeSample(x, y, timestamp));
    }

    /** `has_gaze_point`: a real tracker that is tracking the gaze and has received a sample. */
    predicate HasGazePoint()
      reads this`gazeState, this`gazePoint
      ensures isMock ==> !HasGazePoint()
    {
      !isMock && gazeState == Some(GazeTracked) && gazePoint.Some?
    }

    /**
     * `get_gaze_point_or_default`: the latest sample scaled to the monitor when
     * there is a gaze point, otherwise the centre of the foreground window. A
     * mock tracker answers with the window centre whatever its handlers did.
     */
    function GetGazePointOrDefault(windowCenter: Point): (p: Point)
      reads this`gazeState, this`gazePoint, this`screenScale
      ensures isMock ==> p == windowCenter
    {
      if HasGazePoint() then
        Point(gazePoint.value.x * screenScale.x, gazePoint.value.y * screenScale.y)
      else
        windowCenter
    }

    /** `move_to_gaze_point`: move the mouse to the gaze point plus an offset, never to a negative coordinate. */
    method MoveToGazePoint(offsetX: int, offsetY: int, windowCenter: Point)
      requires Valid()
      modifies this
      ensures Valid()
      ensures var target := MoveTarget(GetGazePointOrDefault(windowCenter), offsetX, offsetY);
        mouse == old(mouse) + [Move(Point(target.0 as real, target.1 as real))]
      ensures mouse[|mouse| - 1].to.x >= 0.0 && mouse[|mouse| - 1].to.y >= 0.0
      ensures hasHost == old(hasHost) && gazePoint == old(gazePoint) && gazeState == old(gazeState)
      ensures screenScale == old(screenScale) && monitorSize == old(monitorSize) && isConnected == old(isConnected)
    {
      var target := MoveTarget(GetGazePointOrDefault(windowCenter), offsetX, offsetY);
      mouse := mouse + [Move(Point(target.0 as real, target.1 as real))];
    }
  }

  /** The `EyeTracker` class object, whose `_instance` attribute holds the shared tracker. */
  class EyeTrackerRegistry {
    var instance: EyeTracker?

    ghost predicate Valid()
      reads this, instance
    {
      instance != null ==> instance.Valid()
    }

    constructor ()
      ensures Valid() && instance == null
    {
      instance := null;
    }

    /**
     * `get_connected_instance`: build the tracker on first use only, connect it
     * if it is not connected, and return it. The arguments matter only on the
     * first call. A mock tracker stays disconnected.
     */
    method GetConnectedInstance(librariesAvailable: bool, monitorSize: Point) returns (tracker: EyeTracker)
      requires Valid()
      modifies this, instance
      ensures Valid() && instance == tracker
      ensures old(instance) != null ==> tracker == old(instance)
      ensures old(instance) == null ==> fresh(tracker) && tracker.isMock == !librariesAvailable
      ensures tracker.isConnected <==> !tracker.isMock
      ensures old(instance) != null && old(instance.isConnected) ==> unchanged(tracker)
      ensures old(instance) != null ==>
        && tracker.screenScale == old(instance.screenScale)
        && tracker.monitorSize == old(instance.monitorSize)
        && tracker.mouse == old(instance.mouse)
      ensures old(instance) == null ==>
        && tracker.screenScale == Point(1.0, 1.0)
        && tracker.monitorSize == monitorSize
        && tracker.mouse == []
      ensures tracker.hasHost == !tracker.isMock
      ensures tracker.gazePoint == old(if instance != null then instance.gazePoint else None)
      ensures tracker.gazeState == old(if instance != null then instance.gazeState else None)
    {
      if instance == null {
        instance := new EyeTracker(librariesAvailable, monitorSize);
      }
      tracker := instance;
      if !tracker.isConnected {
        tracker.Connect();
      }
    }
  }

  /**
   * A real tracker that has been connected, told the screen bounds, and is
   * tracking the gaze answers with the latest sample scaled from the tracker's
   * bounds to the monitor; zero bounds raise in the handler and keep the
   * initial 1:1 scale.
   */
  method TrackedGazeIsScaled(monitorSize: Point, bounds: ScreenBounds, x: real, y: real, timestamp: real,
                             windowCenter: Point) returns (p: Point)
    ensures bounds.width != 0.0 && bounds.height != 0.0 ==>
      p == Point(x * (monitorSize.x / bounds.width), y * (monitorSize.y / bounds.height))
    ensures bounds.width == 0.0 || bounds.height == 0.0 ==> p == Point(x, y)
  {
    var tracker := new EyeTracker(true, monitorSize);
    tracker.Connect();
    var outcome := tracker.HandleScreenBounds(StateChange(true, bounds), monitorSize);
    tracker.HandleGazeState(StateChange(true, GazeTracked));
    tracker.HandleGazePoint(x, y, timestamp);
    p := tracker.GetGazePointOrDefault(windowCenter);
  }

  /** Once a tracking tracker is disconnected it forgets its gaze and falls back to the window centre. */
  method DisconnectForgetsGaze(monitorSize: Point, x: real, y: real, timestamp: real, windowCenter: Point)
    returns (before: Point, after: Point)
    ensures before == Point(x, y)
    ensures after == windowCenter
  {
    var tracker := new EyeTracker(true, monitorSize);
    tracker.Connect();
    tracker.HandleGazeState(StateChange(true, GazeTracked));
    tracker.HandleGazePoint(x, y, timestamp);
    before := tracker.GetGazePointOrDefault(windowCenter);
    tracker.Disconnect();
    after := tracker.GetGazePointOrDefault(windowCenter);
  }
}
