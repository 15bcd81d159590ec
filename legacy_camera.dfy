/**
 * The legacy look controller of public/camera.js: any button starts a drag, the handlers only
 * record the mouse position, and `update` turns the view by the offset of the mouse from the
 * anchor before re-anchoring. The spherical angles `phi`/`theta` and the look target it derives
 * with `sin`/`cos` are not modelled.
 */
module LegacyCamera {
  import opened Wrappers
  import opened Look

  datatype ControlState = ControlState(mouseX: real, mouseY: real,
                                       anchorX: Option<real>, anchorY: Option<real>,
                                       lat: real, lon: real, mouseDragOn: bool)

  const Initial: ControlState := ControlState(0.0, 0.0, None, None, 0.0, 220.0, false)

  predicate AtAnchor(s: ControlState)
  {
    Some(s.mouseX) == s.anchorX && Some(s.mouseY) == s.anchorY
  }

  /** `setMouse(event)` */
  function WithMouse(s: ControlState, e: MouseEvent): ControlState
  {
    s.(mouseX := e.pageX, mouseY := e.pageY)
  }

  /** `onMouseDown(event)`, for every button. */
  function MouseDown(s: ControlState, e: MouseEvent): (r: ControlState)
    ensures r == s.(mouseX := e.pageX, mouseY := e.pageY, anchorX := Some(e.pageX), anchorY := Some(e.pageY),
                    mouseDragOn := true)
    ensures AtAnchor(r)
  {
    WithMouse(s.(anchorX := Some(e.pageX), anchorY := Some(e.pageY)), e).(mouseDragOn := true)
  }

  /** `onMouseUp()`, also bound to the element's `mouseleave`. */
  function MouseUp(s: ControlState): ControlState
  {
    s.(mouseDragOn := false)
  }

  /** `onMouseMove(event)` */
  function MouseMove(s: ControlState, e: MouseEvent): (r: ControlState)
    ensures !s.mouseDragOn ==> r == s
    ensures s.mouseDragOn ==> r.mouseX == e.pageX && r.mouseY == e.pageY &&
                              r.(mouseX := s.mouseX, mouseY := s.mouseY) == s
  {
    if !s.mouseDragOn then s else WithMouse(s, e)
  }

  /** `update()`, up to the angles. */
  function Updated(s: ControlState): (r: ControlState)
    ensures !s.mouseDragOn || AtAnchor(s) ==> r == s
    ensures s.mouseDragOn && !AtAnchor(s) ==>
      AtAnchor(r) && r.mouseDragOn &&
      r.lon == s.lon + (s.mouseX - JsNumber(s.anchorX)) * LookSpeed &&
      r.lat == ClampLat(s.lat - (s.mouseY - JsNumber(s.anchorY)) * LookSpeed)
    ensures s.mouseDragOn && !AtAnchor(s) ==> LatInRange(r.lat)
    ensures r.(anchorX := s.anchorX, anchorY := s.anchorY, lat := s.lat, lon := s.lon) == s
  {
    if !s.mouseDragOn then s
    else if AtAnchor(s) then s
    else
      var lat := s.lat - (s.mouseY - JsNumber(s.anchorY)) * LookSpeed;
      s.(lon := s.lon + (s.mouseX - JsNumber(s.anchorX)) * LookSpeed,
         anchorX := Some(s.mouseX), anchorY := Some(s.mouseY),
         lat := ClampLat(lat))
  }

  /** Two updates without a mouse move between them turn the view only once. */
  lemma UpdateIdempotent(s: ControlState)
    ensures Updated(Updated(s)) == Updated(s)
  {
  }

  /** `Leave` is the element's `mouseleave`; `Tick` is `update`, called once per frame. */
  datatype Event = Down(e: MouseEvent) | Up | Leave | Move(e: MouseEvent) | Tick

  function Step(s: ControlState, ev: Event): ControlState
  {
    match ev
    case Down(e) => MouseDown(s, e)
    case Up => MouseUp(s)
    case Leave => MouseUp(s)
    case Move(e) => MouseMove(s, e)
    case Tick => Updated(s)
  }

  function Run(s: ControlState, evs: seq<Event>): ControlState
    decreases |evs|
  {
    if evs == [] then s else Run(Step(s, evs[0]), evs[1..])
  }

  /** No sequence of inputs takes the latitude out of [-85, 85] once it is inside. */
  lemma {:induction false} RunKeepsLatInRange(s: ControlState, evs: seq<Event>)
    requires LatInRange(s.lat)
    ensures LatInRange(Run(s, evs).lat)
    decreases |evs|
  {
    if evs != [] {
      RunKeepsLatInRange(Step(s, evs[0]), evs[1..]);
    }
  }

  /** A fresh controller starts inside the range, so it never leaves it. */
  lemma ReachableLatInRange(evs: seq<Event>)
    ensures LatInRange(Run(Initial, evs).lat)
  {
    RunKeepsLatInRange(Initial, evs);
  }

  class Controls {
    var mouseX: real
    var mouseY: real
    var anchorX: Option<real>
    var anchorY: Option<real>
    var lat: real
    var lon: real
    var mouseDragOn: bool

    function State(): ControlState
      reads this
    {
      ControlState(mouseX, mouseY, anchorX, anchorY, lat, lon, mouseDragOn)
    }

    constructor ()
      ensures State() == Initial
    {
      mouseX, mouseY := 0.0, 0.0;
      lat, lon := 0.0, 220.0;
      mouseDragOn := false;
      anchorX, anchorY := None, None;
    }

    method OnMouseDown(e: MouseEvent)
      modifies this
      ensures State() == MouseDown(old(State()), e)
    {
      anchorX := Some(e.pageX);
      anchorY := Some(e.pageY);
      SetMouse(e);
      mouseDragOn := true;
    }

    method OnMouseUp()
      modifies this
      ensures State() == MouseUp(old(State()))
    {
      mouseDragOn := false;
    }

    method SetMouse(e: MouseEvent)
      modifies this
      ensures State() == WithMouse(old(State()), e)
    {
      mouseX := e.pageX;
      mouseY := e.pageY;
    }

    method OnMouseMove(e: MouseEvent)
      modifies this
      ensures State() == MouseMove(old(State()), e)
    {
      if !mouseDragOn {
        return;
      }
      SetMouse(e);
    }

    method Update()
      modifies this
      ensures State() == Updated(old(State()))
    {
      if !mouseDragOn {
        return;
      }
      if Some(mouseX) == anchorX && Some(mouseY) == anchorY {
        return;
      }
      lon := lon + (mouseX - JsNumber(anchorX)) * LookSpeed;
      lat := lat - (mouseY - JsNumber(anchorY)) * LookSpeed;
      anchorX := Some(mouseX);
      anchorY := Some(mouseY);
      lat := ClampLat(lat);
    }
  }
}
