/**
 * The drag-only look controller of lib/camera.js: while the left button is held, mouse movement
 * is recorded as a delta from an anchor, and each `update` turns the view by that delta and
 * re-anchors at the mouse.
 */
module DragCamera {
  import opened Wrappers
  import opened Look

  /** The fields of a controller that its handlers change. An anchor is `None` (`null`) until the
      first press. */
  datatype ControlState = ControlState(mouseX: real, mouseY: real, anchorX: Option<real>, anchorY: Option<real>,
                         deltaX: real, deltaY: real, lat: real, lon: real, mouseDragOn: bool)

  const Initial: ControlState := ControlState(0.0, 0.0, None, None, 0.0, 0.0, -66.59, -31.8, false)

  /** `mouseX === anchorx && mouseY === anchory`; a `null` anchor equals no position. */
  predicate AtAnchor(s: ControlState)
  {
    Some(s.mouseX) == s.anchorX && Some(s.mouseY) == s.anchorY
  }

  /** `setDelta(x, y)` */
  function WithDelta(s: ControlState, x: real, y: real): ControlState
  {
    s.(deltaX := x, deltaY := y)
  }

  /** `setMouse(x, y)`: the mouse moves to (x, y) and the delta is measured from the anchor. */
  function WithMouse(s: ControlState, x: real, y: real): ControlState
  {
    WithDelta(s.(mouseX := x, mouseY := y), x - JsNumber(s.anchorX), y - JsNumber(s.anchorY))
  }

  /** `onMouseDown(event)` */
  function MouseDown(s: ControlState, e: MouseEvent): (r: ControlState)
    ensures !IsLeftButton(e) ==> r == s
    ensures IsLeftButton(e) ==>
      r == s.(mouseX := e.pageX, mouseY := e.pageY, anchorX := Some(e.pageX), anchorY := Some(e.pageY),
              deltaX := 0.0, deltaY := 0.0, mouseDragOn := true)
    ensures IsLeftButton(e) ==> AtAnchor(r)
  {
    if !IsLeftButton(e) then s
    else WithMouse(s.(anchorX := Some(e.pageX), anchorY := Some(e.pageY)), e.pageX, e.pageY).(mouseDragOn := true)
  }

  /** `onMouseUp(event)` */
  function MouseUp(s: ControlState): ControlState
  {
    s.(mouseDragOn := false)
  }

  /** `onMouserEnter(event)`: entering the element with the left button up ends a drag. */
  function MouseEnter(s: ControlState, e: MouseEvent): (r: ControlState)
    ensures r.mouseDragOn <==> s.mouseDragOn && IsLeftButtonDown(e)
    ensures r.(mouseDragOn := s.mouseDragOn) == s
  {
    if IsLeftButtonDown(e) then s else MouseUp(s)
  }

  /** `onMouseMove(event)` */
  function MouseMove(s: ControlState, e: MouseEvent): (r: ControlState)
    ensures !s.mouseDragOn ==> r == s
    ensures s.mouseDragOn ==>
      r.mouseX == e.pageX && r.mouseY == e.pageY &&
      r.deltaX == e.pageX - JsNumber(s.anchorX) && r.deltaY == e.pageY - JsNumber(s.anchorY) &&
      r.(mouseX := s.mouseX, mouseY := s.mouseY, deltaX := s.deltaX, deltaY := s.deltaY) == s
  {
    if s.mouseDragOn then WithMouse(s, e.pageX, e.pageY) else s
  }

  /** `update()`. The repeated anchor test of lib/camera.js:130-131 is the one of lines 124-126
      again, so it never returns and is not written twice. */
  function Updated(s: ControlState): (r: ControlState)
    ensures !s.mouseDragOn ==> r == s
    ensures AtAnchor(s) ==> r == s
    ensures s.mouseDragOn && !AtAnchor(s) ==>
      AtAnchor(r) && r.mouseDragOn &&
      r.lon == s.lon + s.deltaX * LookSpeed && r.lat == ClampLat(s.lat - s.deltaY * LookSpeed)
    ensures s.mouseDragOn && !AtAnchor(s) ==> LatInRange(r.lat)
    ensures r.(anchorX := s.anchorX, anchorY := s.anchorY, lat := s.lat, lon := s.lon) == s
  {
    if !s.mouseDragOn then s
    else if AtAnchor(s) then s
    else
      var anchored := s.(anchorX := Some(s.mouseX), anchorY := Some(s.mouseY));
      anchored.(lon := s.lon + s.deltaX * LookSpeed, lat := ClampLat(s.lat - s.deltaY * LookSpeed))
  }

  /** An `update` right after another one, without a mouse move between them, changes nothing. */
  lemma UpdateIdempotent(s: ControlState)
    ensures Updated(Updated(s)) == Updated(s)
  {
  }

  function DirectionOf(s: ControlState): Direction { Direction(s.lat, s.lon) }

  /** `setDirection(dir)`: the view turns to `dir` as given, without clamping the latitude. */
  function WithDirection(s: ControlState, dir: Direction): (r: ControlState)
    ensures DirectionOf(r) == dir
    ensures r.(lat := s.lat, lon := s.lon) == s
  {
    s.(lat := dir.lat, lon := dir.lon)
  }

  /** Setting the direction a controller already has changes nothing. */
  lemma SetCurrentDirection(s: ControlState)
    ensures WithDirection(s, DirectionOf(s)) == s
  {
  }

  /** The inputs the controller reacts to, and `update` (`Tick`), called once per frame. */
  datatype Event = Down(e: MouseEvent) | Up | Enter(e: MouseEvent) | Move(e: MouseEvent) | Tick

  function Step(s: ControlState, ev: Event): ControlState
  {
    match ev
    case Down(e) => MouseDown(s, e)
    case Up => MouseUp(s)
    case Enter(e) => MouseEnter(s, e)
    case Move(e) => MouseMove(s, e)
    case Tick => Updated(s)
  }

  function Run(s: ControlState, evs: seq<Event>): ControlState
    decreases |evs|
  {
    if evs == [] then s else Run(Step(s, evs[0]), evs[1..])
  }

  /** No sequence of inputs takes the latitude out of [-85, 85] once it is inside. */
  lemma {:induction false} RunKeepsLatInRange(s: ControlState, evs: seq<Event>)
    requires LatInRange(s.lat)
    ensures LatInRange(Run(s, evs).lat)
    decreases |evs|
  {
    if evs != [] {
      RunKeepsLatInRange(Step(s, evs[0]), evs[1..]);
    }
  }

  /** While a drag is on, the anchor is set, and the delta is the mouse offset from it unless the
      mouse sits on the anchor. */
  predicate Tracking(s: ControlState)
  {
    s.mouseDragOn ==>
      s.anchorX.Some? && s.anchorY.Some? &&
      (AtAnchor(s) || (s.deltaX == s.mouseX - s.anchorX.value && s.deltaY == s.mouseY - s.anchorY.value))
  }

  /** Every input keeps `Tracking`. */
  lemma StepKeepsTracking(s: ControlState, ev: Event)
    requires Tracking(s)
    ensures Tracking(Step(s, ev))
  {
  }

  lemma {:induction false} RunKeepsTracking(s: ControlState, evs: seq<Event>)
    requires Tracking(s)
    ensures Tracking(Run(s, evs))
    decreases |evs|
  {
    if evs != [] {
      StepKeepsTracking(s, evs[0]);
      RunKeepsTracking(Step(s, evs[0]), evs[1..]);
    }
  }

  /** Every state a fresh controller reaches keeps the latitude in range and tracks the mouse. */
  lemma Reachable(evs: seq<Event>)
    ensures LatInRange(Run(Initial, evs).lat) && Tracking(Run(Initial, evs))
  {
    RunKeepsLatInRange(Initial, evs);
    RunKeepsTracking(Initial, evs);
  }

  class Controls {
    var mouseX: real
    var mouseY: real
    var anchorX: Option<real>
    var anchorY: Option<real>
    var deltaX: real
    var deltaY: real
    var lat: real
    var lon: real
    var mouseDragOn: bool

    function State(): ControlState
      reads this
    {
      ControlState(mouseX, mouseY, anchorX, anchorY, deltaX, deltaY, lat, lon, mouseDragOn)
    }

    constructor ()
      ensures State() == Initial
    {
      mouseX, mouseY := 0.0, 0.0;
      lat, lon := -66.59, -31.8;
      deltaX, deltaY := 0.0, 0.0;
      mouseDragOn := false;
      anchorX, anchorY := None, None;
    }

    method OnMouserEnter(e: MouseEvent)
      modifies this
      ensures State() == MouseEnter(old(State()), e)
    {
      if IsLeftButtonDown(e) {
        return;
      }
      OnMouseUp();
    }

    method OnMouseDown(e: MouseEvent)
      modifies this
      ensures State() == MouseDown(old(State()), e)
    {
      if !IsLeftButton(e) {
        return;
      }
      anchorX := Some(e.pageX);
      anchorY := Some(e.pageY);
      SetMouse(e.pageX, e.pageY);
      mouseDragOn := true;
    }

    method OnMouseUp()
      modifies this
      ensures State() == MouseUp(old(State()))
    {
      mouseDragOn := false;
    }

    method SetMouse(x: real, y: real)
      modifies this
      ensures State() == WithMouse(old(State()), x, y)
    {
      mouseX := x;
      mouseY := y;
      SetDelta(x - JsNumber(anchorX), y - JsNumber(anchorY));
    }

    method SetDelta(x: real, y: real)
      modifies this
      ensures State() == WithDelta(old(State()), x, y)
    {
      deltaX := x;
      deltaY := y;
    }

    method SetDirection(dir: Direction)
      modifies this
      ensures State() == WithDirection(old(State()), dir) && GetDirection() == dir
    {
      lat := dir.lat;
      lon := dir.lon;
    }

    function GetDirection(): (r: Direction)
      reads this
      ensures r == DirectionOf(State())
      ensures WithDirection(State(), r) == State()
    {
      SetCurrentDirection(State());
      Direction(lat, lon)
    }

    method OnMouseMove(e: MouseEvent)
      modifies this
      ensures State() == MouseMove(old(State()), e)
    {
      if mouseDragOn {
        SetMouse(e.pageX, e.pageY);
      }
    }

    method Update()
      modifies this
      ensures State() == Updated(old(State()))
    {
      if !mouseDragOn {
        return;
      }
      if mouseDragOn && Some(mouseX) == anchorX && Some(mouseY) == anchorY {
        return;
      }
      anchorX := Some(mouseX);
      anchorY := Some(mouseY);
      lon := lon + deltaX * LookSpeed;
      lat := lat - deltaY * LookSpeed;
      lat := ClampLat(lat);
    }
  }
}
