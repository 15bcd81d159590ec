/**
 * The look controller of src/lib/camera.js. Besides dragging with the left button it has a
 * locked-pointer mode, in which the browser reports relative movement that `update` turns into
 * a view change once per distinct delta, re-anchoring at the centre of the window.
 */
module LockCamera {
  import opened Wrappers
  import opened Look

  /** The fields the handlers change. Anchors are `None` (`null`) until set; the previous delta
      is `None` (`undefined`) until the first locked update. */
  datatype ControlState = ControlState(
    mouseX: real, mouseY: real, anchorX: Option<real>, anchorY: Option<real>,
    deltaX: real, deltaY: real, previousDeltaX: Option<real>, previousDeltaY: Option<real>,
    lat: real, lon: real, mouseDragOn: bool, mouseLocked: bool)

  const Initial: ControlState :=
    ControlState(0.0, 0.0, None, None, 0.0, 0.0, None, None, -66.59, -31.8, false, false)

  predicate AtAnchor(s: ControlState)
  {
    Some(s.mouseX) == s.anchorX && Some(s.mouseY) == s.anchorY
  }

  /** The delta has already been applied by an earlier locked update. */
  predicate DeltaSeen(s: ControlState)
  {
    Some(s.deltaX) == s.previousDeltaX && Some(s.deltaY) == s.previousDeltaY
  }

  /** `e.movementX || e.mozMovementX || e.webkitMovementX` as written: JavaScript's `||` skips a
      field that is absent or 0 and yields the last operand when all are skipped. */
  function MovementAsWritten(m: Movement): (r: Option<real>)
    ensures r == m.standard || r == m.moz || r == m.webkit
    ensures m.standard.Some? && m.standard.value != 0.0 ==> r == m.standard
    ensures r.Some? && r.value == 0.0 ==> r == m.webkit
    ensures r.None? ==> m.webkit.None?
  {
    if m.standard.Some? && m.standard.value != 0.0 then m.standard
    else if m.moz.Some? && m.moz.value != 0.0 then m.moz
    else m.webkit
  }

  /** The movement the locked branch evidently means: the first field the browser reports, even
      when it is 0, and no movement when it reports none. */
  function MovementOf(m: Movement): (r: real)
    ensures m.standard.Some? ==> r == m.standard.value
    ensures r == 0.0 || Some(r) in {m.standard, m.moz, m.webkit}
  {
    if m.standard.Some? then m.standard.value
    else if m.moz.Some? then m.moz.value
    else JsNumber(m.webkit)
  }

  /** A browser with only the standard field reporting no horizontal movement turns the delta
      into `undefined` as written; the intended delta is 0. */
  lemma ZeroMovementIsLost()
    ensures MovementAsWritten(Movement(Some(0.0), None, None)) == None
    ensures MovementOf(Movement(Some(0.0), None, None)) == 0.0
  {
  }

  /** Whenever the standard field reports a movement, the two readings agree; and the written one
      is undefined only when the intended movement is 0. */
  lemma MovementAgreement(m: Movement)
    ensures m.standard.Some? && m.standard.value != 0.0 ==> MovementAsWritten(m) == Some(MovementOf(m))
    ensures MovementAsWritten(m) == None ==> MovementOf(m) == 0.0
  {
  }

  function WithDelta(s: ControlState, x: real, y: real): ControlState
  {
    s.(deltaX := x, deltaY := y)
  }

  function WithMouse(s: ControlState, x: real, y: real): ControlState
  {
    WithDelta(s.(mouseX := x, mouseY := y), x - JsNumber(s.anchorX), y - JsNumber(s.anchorY))
  }

  /** `onMouseDown(event)`; focusing the element is not modelled. */
  function MouseDown(s: ControlState, e: MouseEvent): (r: ControlState)
    ensures !IsLeftButton(e) ==> r == s
    ensures IsLeftButton(e) ==>
      r == s.(mouseX := e.pageX, mouseY := e.pageY, anchorX := Some(e.pageX), anchorY := Some(e.pageY),
              deltaX := 0.0, deltaY := 0.0, mouseDragOn := true)
  {
    if !IsLeftButton(e) then s
    else WithMouse(s.(anchorX := Some(e.pageX), anchorY := Some(e.pageY)), e.pageX, e.pageY).(mouseDragOn := true)
  }

  function MouseUp(s: ControlState): ControlState
  {
    s.(mouseDragOn := false)
  }

  /** `onMouserEnter(event)` */
  function MouseEnter(s: ControlState, e: MouseEvent): (r: ControlState)
    ensures r.mouseDragOn <==> s.mouseDragOn && IsLeftButtonDown(e)
    ensures r.(mouseDragOn := s.mouseDragOn) == s
  {
    if IsLeftButtonDown(e) then s else MouseUp(s)
  }

  /** `onMouseMove(event)`: a drag follows the page position; otherwise a locked pointer takes
      the reported movement as the delta. */
  function MouseMove(s: ControlState, e: MouseEvent): (r: ControlState)
    ensures !s.mouseDragOn && !s.mouseLocked ==> r == s
    ensures s.mouseDragOn ==>
      r == s.(mouseX := e.pageX, mouseY := e.pageY,
              deltaX := e.pageX - JsNumber(s.anchorX), deltaY := e.pageY - JsNumber(s.anchorY))
    ensures !s.mouseDragOn && s.mouseLocked ==>
      r == s.(deltaX := MovementOf(e.movementX), deltaY := MovementOf(e.movementY))
  {
    if s.mouseDragOn then WithMouse(s, e.pageX, e.pageY)
    else if s.mouseLocked then WithDelta(s, MovementOf(e.movementX), MovementOf(e.movementY))
    else s
  }

  /** The condition under which `update()` turns the view. */
  predicate Acts(s: ControlState)
  {
    (s.mouseDragOn || s.mouseLocked) && !(s.mouseDragOn && AtAnchor(s)) && !(s.mouseLocked && DeltaSeen(s))
  }

  /** `update()`, for a window of the given inner size. The repeated anchor test of
      src/lib/camera.js:156-157 is the one of lines 141-143 again, so it never returns and is
      not written twice. */
  function Updated(s: ControlState, innerWidth: real, innerHeight: real): (r: ControlState)
    ensures !Acts(s) ==> r == s
    ensures Acts(s) ==>
      r.lon == s.lon + s.deltaX * LookSpeed && r.lat == ClampLat(s.lat - s.deltaY * LookSpeed) &&
      LatInRange(r.lat)
    ensures Acts(s) && s.mouseLocked ==>
      DeltaSeen(r) && r.anchorX == Some(innerWidth / 2.0) && r.anchorY == Some(innerHeight / 2.0)
    ensures Acts(s) && !s.mouseLocked ==> AtAnchor(r)
    ensures !s.mouseLocked ==> r.previousDeltaX == s.previousDeltaX && r.previousDeltaY == s.previousDeltaY
    ensures r.(anchorX := s.anchorX, anchorY := s.anchorY, previousDeltaX := s.previousDeltaX,
               previousDeltaY := s.previousDeltaY, lat := s.lat, lon := s.lon) == s
  {
    if !s.mouseDragOn && !s.mouseLocked then s
    else if s.mouseDragOn && AtAnchor(s) then s
    else if s.mouseLocked && DeltaSeen(s) then s
    else
      var anchored :=
        if s.mouseLocked then
          s.(previousDeltaX := Some(s.deltaX), previousDeltaY := Some(s.deltaY),
             anchorX := Some(innerWidth / 2.0), anchorY := Some(innerHeight / 2.0))
        else
          s.(anchorX := Some(s.mouseX), anchorY := Some(s.mouseY));
      anchored.(lon := s.lon + s.deltaX * LookSpeed, lat := ClampLat(s.lat - s.deltaY * LookSpeed))
  }

  /** A second `update` with no input in between changes nothing, in drag mode and in locked
      mode alike, even if the window was resized in between. */
  lemma UpdateIdempotent(s: ControlState, w: real, h: real, w': real, h': real)
    ensures Updated(Updated(s, w, h), w', h') == Updated(s, w, h)
  {
  }

  function DirectionOf(s: ControlState): Direction { Direction(s.lat, s.lon) }

  /** `setDirection(dir)` takes the direction as given, without clamping the latitude. */
  function WithDirection(s: ControlState, dir: Direction): (r: ControlState)
    ensures DirectionOf(r) == dir
    ensures r.(lat := s.lat, lon := s.lon) == s
  {
    s.(lat := dir.lat, lon := dir.lon)
  }

  lemma SetCurrentDirection(s: ControlState)
    ensures WithDirection(s, DirectionOf(s)) == s
  {
  }

  /** The inputs the controller reacts to: mouse events, `enableMouseLocked` / `disableMouseLocked`,
      and `update` (`Tick`) with the window size at that frame. */
  datatype Event =
    | Down(e: MouseEvent) | Up | Enter(e: MouseEvent) | Move(e: MouseEvent)
    | Lock | Unlock | Tick(innerWidth: real, innerHeight: real)

  function Step(s: ControlState, ev: Event): ControlState
  {
    match ev
    case Down(e) => MouseDown(s, e)
    case Up => MouseUp(s)
    case Enter(e) => MouseEnter(s, e)
    case Move(e) => MouseMove(s, e)
    case Lock => s.(mouseLocked := true)
    case Unlock => s.(mouseLocked := false)
    case Tick(w, h) => Updated(s, w, h)
  }

  function Run(s: ControlState, evs: seq<Event>): ControlState
    decreases |evs|
  {
    if evs == [] then s else Run(Step(s, evs[0]), evs[1..])
  }

  /** No sequence of inputs takes the latitude out of [-85, 85] once it is inside. */
  lemma {:induction false} RunKeepsLatInRange(s: ControlState, evs: seq<Event>)
    requires LatInRange(s.lat)
    ensures LatInRange(Run(s, evs).lat)
    decreases |evs|
  {
    if evs != [] {
      RunKeepsLatInRange(Step(s, evs[0]), evs[1..]);
    }
  }

  /** A fresh controller starts inside the range, so it never leaves it. */
  lemma ReachableLatInRange(evs: seq<Event>)
    ensures LatInRange(Run(Initial, evs).lat)
  {
    RunKeepsLatInRange(Initial, evs);
  }

  class Controls {
    var mouseX: real
    var mouseY: real
    var anchorX: Option<real>
    var anchorY: Option<real>
    var deltaX: real
    var deltaY: real
    var previousDeltaX: Option<real>
    var previousDeltaY: Option<real>
    var lat: real
    var lon: real
    var mouseDragOn: bool
    var mouseLocked: bool

    function State(): ControlState
      reads this
    {
      ControlState(mouseX, mouseY, anchorX, anchorY, deltaX, deltaY, previousDeltaX, previousDeltaY,
                   lat, lon, mouseDragOn, mouseLocked)
    }

    constructor ()
      ensures State() == Initial
    {
      mouseX, mouseY := 0.0, 0.0;
      lat, lon := -66.59, -31.8;
      deltaX, deltaY := 0.0, 0.0;
      mouseDragOn := false;
      anchorX, anchorY := None, None;
      mouseLocked := false;
      previousDeltaX, previousDeltaY := None, None;
    }

    method EnableMouseLocked()
      modifies this
      ensures State() == old(State()).(mouseLocked := true)
    {
      mouseLocked := true;
    }

    method DisableMouseLocked()
      modifies this
      ensures State() == old(State()).(mouseLocked := false)
    {
      mouseLocked := false;
    }

    method OnMouserEnter(e: MouseEvent)
      modifies this
      ensures State() == MouseEnter(old(State()), e)
    {
      if IsLeftButtonDown(e) {
        return;
      }
      OnMouseUp();
    }

    method OnMouseDown(e: MouseEvent)
      modifies this
      ensures State() == MouseDown(old(State()), e)
    {
      if !IsLeftButton(e) {
        return;
      }
      anchorX := Some(e.pageX);
      anchorY := Some(e.pageY);
      SetMouse(e.pageX, e.pageY);
      mouseDragOn := true;
    }

    method OnMouseUp()
      modifies this
      ensures State() == MouseUp(old(State()))
    {
      mouseDragOn := false;
    }

    method SetMouse(x: real, y: real)
      modifies this
      ensures State() == WithMouse(old(State()), x, y)
    {
      mouseX := x;
      mouseY := y;
      SetDelta(x - JsNumber(anchorX), y - JsNumber(anchorY));
    }

    method SetDelta(x: real, y: real)
      modifies this
      ensures State() == WithDelta(old(State()), x, y)
    {
      deltaX := x;
      deltaY := y;
    }

    /** `setDirection(dir)`, which also hands `dir` back. */
    method SetDirection(dir: Direction) returns (r: Direction)
      modifies this
      ensures State() == WithDirection(old(State()), dir) && GetDirection() == dir && r == dir
    {
      lat := dir.lat;
      lon := dir.lon;
      r := dir;
    }

    function GetDirection(): (r: Direction)
      reads this
      ensures r == DirectionOf(State())
      ensures WithDirection(State(), r) == State()
    {
      SetCurrentDirection(State());
      Direction(lat, lon)
    }

    method OnMouseMove(e: MouseEvent)
      modifies this
      ensures State() == MouseMove(old(State()), e)
    {
      if mouseDragOn {
        SetMouse(e.pageX, e.pageY);
      } else if mouseLocked {
        var x := MovementOf(e.movementX);
        var y := MovementOf(e.movementY);
        SetDelta(x, y);
      }
    }

    method Update(innerWidth: real, innerHeight: real)
      modifies this
      ensures State() == Updated(old(State()), innerWidth, innerHeight)
    {
      if !mouseDragOn && !mouseLocked {
        return;
      }
      if mouseDragOn && Some(mouseX) == anchorX && Some(mouseY) == anchorY {
        return;
      }
      if mouseLocked {
        if Some(deltaX) == previousDeltaX && Some(deltaY) == previousDeltaY {
          return;
        }
        previousDeltaX := Some(deltaX);
        previousDeltaY := Some(deltaY);
        anchorX := Some(innerWidth / 2.0);
        anchorY := Some(innerHeight / 2.0);
      } else if mouseDragOn {
        anchorX := Some(mouseX);
        anchorY := Some(mouseY);
      }
      lon := lon + deltaX * LookSpeed;
      lat := lat - deltaY * LookSpeed;
      lat := ClampLat(lat);
    }
  }
}
