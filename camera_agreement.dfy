/**
 * How the drag-only controller of lib/camera.js relates to the legacy one of public/camera.js it
 * replaced: the newer one keeps a delta where the older one recomputes `mouse - anchor` inside
 * `update`, and as long as that delta tracks the mouse (`DragCamera.Tracking`, which every input
 * keeps) both turn the view identically. They differ on which buttons start a drag and on
 * `mouseenter` versus `mouseleave`, so the comparison is over left-button presses, releases,
 * moves and updates.
 */
module CameraAgreement {
  import opened Look
  import DragCamera
  import LegacyCamera

  /** The legacy controller's view of a drag-only controller: everything but the delta. */
  function Project(s: DragCamera.ControlState): LegacyCamera.ControlState
  {
    LegacyCamera.ControlState(s.mouseX, s.mouseY, s.anchorX, s.anchorY, s.lat, s.lon, s.mouseDragOn)
  }

  /** The inputs both controllers handle alike. */
  predicate Shared(ev: DragCamera.Event)
  {
    match ev
    case Down(e) => IsLeftButton(e)
    case Enter(_) => false
    case _ => true
  }

  function AsLegacy(ev: DragCamera.Event): LegacyCamera.Event
    requires Shared(ev)
  {
    match ev
    case Down(e) => LegacyCamera.Down(e)
    case Up => LegacyCamera.Up
    case Move(e) => LegacyCamera.Move(e)
    case Tick => LegacyCamera.Tick
  }

  function AllAsLegacy(evs: seq<DragCamera.Event>): (r: seq<LegacyCamera.Event>)
    requires forall i :: 0 <= i < |evs| ==> Shared(evs[i])
    ensures |r| == |evs|
    ensures forall i :: 0 <= i < |evs| ==> r[i] == AsLegacy(evs[i])
  {
    if evs == [] then [] else [AsLegacy(evs[0])] + AllAsLegacy(evs[1..])
  }

  /** While the delta tracks the mouse, both updates turn the view by the same amount and
      re-anchor alike. */
  lemma UpdatesAgree(s: DragCamera.ControlState)
    requires DragCamera.Tracking(s)
    ensures Project(DragCamera.Updated(s)) == LegacyCamera.Updated(Project(s))
  {
  }

  lemma StepsAgree(s: DragCamera.ControlState, ev: DragCamera.Event)
    requires DragCamera.Tracking(s) && Shared(ev)
    ensures Project(DragCamera.Step(s, ev)) == LegacyCamera.Step(Project(s), AsLegacy(ev))
  {
    if ev.Tick? {
      UpdatesAgree(s);
    }
  }

  /** Over any run of shared inputs the two controllers stay in step. */
  lemma {:induction false} RunsAgree(s: DragCamera.ControlState, evs: seq<DragCamera.Event>)
    requires DragCamera.Tracking(s)
    requires forall i :: 0 <= i < |evs| ==> Shared(evs[i])
    ensures Project(DragCamera.Run(s, evs)) == LegacyCamera.Run(Project(s), AllAsLegacy(evs))
    decreases |evs|
  {
    if evs != [] {
      StepsAgree(s, evs[0]);
      DragCamera.StepKeepsTracking(s, evs[0]);
      assert AllAsLegacy(evs)[1..] == AllAsLegacy(evs[1..]);
      RunsAgree(DragCamera.Step(s, evs[0]), evs[1..]);
    }
  }
}
