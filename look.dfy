/**
 * What the three mouse-look controllers (src/lib/camera.js, lib/camera.js, public/camera.js)
 * share: the fields of a mouse event they read, the left-button tests, the look speed and the
 * latitude clamp.
 */
module Look {
  import opened Wrappers

  /** The relative movement a browser reports on one axis of a locked-pointer event, under its
      standard name and its two vendor-prefixed names; `None` is an absent (`undefined`) field. */
  datatype Movement = Movement(standard: Option<real>, moz: Option<real>, webkit: Option<real>)

  /** The fields of a mouse event the controllers read. */
  datatype MouseEvent = MouseEvent(which: int, button: int, pageX: real, pageY: real,
                                   movementX: Movement, movementY: Movement)

  /** `isRightButton(event)` */
  predicate IsRightButton(e: MouseEvent) { e.which == 3 }

  /** `isLeftButton(event)`: never also the right button. */
  predicate IsLeftButton(e: MouseEvent)
    ensures IsLeftButton(e) ==> !IsRightButton(e)
  {
    e.which == 1
  }

  predicate IsLeftButtonDown(e: MouseEvent)
    ensures IsLeftButtonDown(e) ==> IsLeftButton(e)
  {
    e.button == 0 && IsLeftButton(e)
  }

  /** Degrees of turn per pixel of mouse movement. */
  const LookSpeed: real := 0.2

  const LatLimit: real := 85.0

  predicate LatInRange(lat: real) { -LatLimit <= lat <= LatLimit }

  /** `max(-85, min(85, lat))` */
  function ClampLat(lat: real): (r: real)
    ensures LatInRange(r)
    ensures LatInRange(lat) ==> r == lat
    ensures lat > LatLimit ==> r == LatLimit
    ensures lat < -LatLimit ==> r == -LatLimit
  {
    if lat > LatLimit then LatLimit else if lat < -LatLimit then -LatLimit else lat
  }

  /** Clamping twice is clamping once. */
  lemma ClampLatIdempotent(lat: real)
    ensures ClampLat(ClampLat(lat)) == ClampLat(lat)
  {
  }

  /** A JavaScript number that may be `null`, as arithmetic sees it: `null` counts as 0. */
  function JsNumber(v: Option<real>): real
  {
    if v.Some? then v.value else 0.0
  }

  /** The direction a controller looks in, as `getDirection` reports it and `setDirection`
      takes it. */
  datatype Direction = Direction(lat: real, lon: real)
}
