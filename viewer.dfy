/**
 * The view controls of `src/components/DocumentViewer.tsx`: a zoom level in
 * percent that starts at 100, a rotation in degrees that starts at 0, a
 * full-screen flag and the list of toast notifications the handlers push.
 */
module Viewer {
  import opened Common

  datatype ToastKind = Info | Success | Warning | Failure

  /** A toast; its id is the clock in milliseconds when it was shown, as text. */
  datatype Toast = Toast(id: string, kind: ToastKind, message: string, duration: nat)

  datatype ViewerState = ViewerState(zoom: int, rotation: int, toasts: seq<Toast>, fullscreen: bool)

  const InitialViewer := ViewerState(100, 0, [], false)

  const MaxZoom := 300
  const MinZoom := 25
  const ZoomStep := 25

  /** JavaScript's `x % 360`, whose result takes the sign of the dividend. */
  function Rem360(a: int): (r: int)
    ensures a >= 0 ==> 0 <= r < 360
    ensures 0 <= a < 360 ==> r == a
    ensures 360 <= a < 720 ==> r == a - 360
    ensures a < 0 ==> -360 < r <= 0
  {
    if a >= 0 then a % 360 else -((-a) % 360)
  }

  /** showToast: append a toast whose id is the clock reading. */
  function Shown(toasts: seq<Toast>, now: nat, kind: ToastKind, message: string, duration: nat): seq<Toast>
  {
    toasts + [Toast(NatToString(now), kind, message, duration)]
  }

  /** closeToast, and the timer's own removal when the duration ends: drop every toast with that id. */
  function Closed(toasts: seq<Toast>, id: string): seq<Toast>
  {
    Filter(toasts, (t: Toast) => t.id != id)
  }

  /** handleZoomIn: 25 more, at most 300, with a toast naming the new level; at 300 a warning and no change. */
  function ZoomIn(v: ViewerState, now: nat): ViewerState
  {
    if v.zoom < MaxZoom then
      var z := if v.zoom + ZoomStep < MaxZoom then v.zoom + ZoomStep else MaxZoom;
      v.(zoom := z, toasts := Shown(v.toasts, now, Info, "Zoom: " + IntToString(z) + "%", 1000))
    else
      v.(toasts := Shown(v.toasts, now, Warning, "Zoom máximo alcanzado (300%)", 2000))
  }

  /** handleZoomOut: 25 less, at least 25; at 25 a warning and no change. */
  function ZoomOut(v: ViewerState, now: nat): ViewerState
  {
    if v.zoom > MinZoom then
      var z := if v.zoom - ZoomStep > MinZoom then v.zoom - ZoomStep else MinZoom;
      v.(zoom := z, toasts := Shown(v.toasts, now, Info, "Zoom: " + IntToString(z) + "%", 1000))
    else
      v.(toasts := Shown(v.toasts, now, Warning, "Zoom mínimo alcanzado (25%)", 2000))
  }

  /** handleZoomReset: back to 100% and no rotation. */
  function ZoomReset(v: ViewerState, now: nat): ViewerState
  {
    v.(zoom := 100, rotation := 0, toasts := Shown(v.toasts, now, Success, "Vista restaurada al 100%", 1500))
  }

  /** handleRotate: a quarter turn clockwise. */
  function Rotate(v: ViewerState, now: nat): ViewerState
  {
    var r := Rem360(v.rotation + 90);
    v.(rotation := r, toasts := Shown(v.toasts, now, Info, "Rotado " + IntToString(r) + "°", 1000))
  }

  /** handleFullscreen: flip the flag; the toast names the mode being entered. */
  function ToggleFullscreen(v: ViewerState, now: nat): ViewerState
  {
    v.(fullscreen := !v.fullscreen,
       toasts := Shown(v.toasts, now, Info, if v.fullscreen then "Modo ventana" else "Modo pantalla completa", 1500))
  }

  /** A viewer handler; every handler reads the clock for its toast's id. */
  datatype Action = ZoomInClick | ZoomOutClick | ResetClick | RotateClick | FullscreenClick | CloseClick(id: string)

  function Step(v: ViewerState, a: Action, now: nat): ViewerState
  {
    match a
    case ZoomInClick => ZoomIn(v, now)
    case ZoomOutClick => ZoomOut(v, now)
    case ResetClick => ZoomReset(v, now)
    case RotateClick => Rotate(v, now)
    case FullscreenClick => ToggleFullscreen(v, now)
    case CloseClick(id) => v.(toasts := Closed(v.toasts, id))
  }

  /** The state after a run of clicks, each with its clock reading. */
  function Run(v: ViewerState, clicks: seq<(Action, nat)>): ViewerState
    decreases |clicks|
  {
    if clicks == [] then v else Run(Step(v, clicks[0].0, clicks[0].1), clicks[1..])
  }

  /** The zoom levels the buttons can reach: 25, 50, ..., 300. */
  predicate ZoomReachable(z: int)
  {
    MinZoom <= z <= MaxZoom && z % ZoomStep == 0
  }

  predicate RotationReachable(r: int)
  {
    r == 0 || r == 90 || r == 180 || r == 270
  }

  predicate Reachable(v: ViewerState)
  {
    ZoomReachable(v.zoom) && RotationReachable(v.rotation)
  }

  // ------------------------------------------------------------------
  // The handlers, one at a time

  /** Zooming in adds exactly 25 below the maximum and leaves the level alone at it; rotation is untouched. */
  lemma ZoomInRule(v: ViewerState, now: nat)
    requires ZoomReachable(v.zoom)
    ensures v.zoom < MaxZoom ==> ZoomIn(v, now).zoom == v.zoom + ZoomStep
    ensures v.zoom == MaxZoom ==> ZoomIn(v, now).zoom == MaxZoom
    ensures ZoomIn(v, now).rotation == v.rotation && ZoomIn(v, now).fullscreen == v.fullscreen
    ensures ZoomReachable(ZoomIn(v, now).zoom)
    ensures |ZoomIn(v, now).toasts| == |v.toasts| + 1
  {
  }

  /** Zooming out takes exactly 25 above the minimum and leaves the level alone at it. */
  lemma ZoomOutRule(v: ViewerState, now: nat)
    requires ZoomReachable(v.zoom)
    ensures v.zoom > MinZoom ==> ZoomOut(v, now).zoom == v.zoom - ZoomStep
    ensures v.zoom == MinZoom ==> ZoomOut(v, now).zoom == MinZoom
    ensures ZoomOut(v, now).rotation == v.rotation && ZoomOut(v, now).fullscreen == v.fullscreen
    ensures ZoomReachable(ZoomOut(v, now).zoom)
    ensures |ZoomOut(v, now).toasts| == |v.toasts| + 1
  {
  }

  /** Zooming in then out returns to the level started from, below the maximum. */
  lemma ZoomInThenOut(v: ViewerState, t1: nat, t2: nat)
    requires ZoomReachable(v.zoom) && v.zoom < MaxZoom
    ensures ZoomOut(ZoomIn(v, t1), t2).zoom == v.zoom
  {
  }

  /** A quarter turn moves to the next of 0, 90, 180, 270, wrapping to 0, and four of them come back. */
  lemma RotateRule(v: ViewerState, now: nat)
    requires RotationReachable(v.rotation)
    ensures Rotate(v, now).rotation == if v.rotation == 270 then 0 else v.rotation + 90
    ensures RotationReachable(Rotate(v, now).rotation)
    ensures Rotate(v, now).zoom == v.zoom
    ensures Rotate(Rotate(Rotate(Rotate(v, now), now), now), now).rotation == v.rotation
  {
    var r1 := Rotate(v, now);
    var r2 := Rotate(r1, now);
    var r3 := Rotate(r2, now);
    assert r1.rotation == if v.rotation == 270 then 0 else v.rotation + 90;
    assert r2.rotation == if r1.rotation == 270 then 0 else r1.rotation + 90;
    assert r3.rotation == if r2.rotation == 270 then 0 else r2.rotation + 90;
    assert Rotate(r3, now).rotation == if r3.rotation == 270 then 0 else r3.rotation + 90;
  }

  /** Whatever the clicks and clock readings, the zoom stays in 25..300 in steps of 25 and the rotation a quarter turn. */
  lemma {:induction false} RunStaysReachable(v: ViewerState, clicks: seq<(Action, nat)>)
    requires Reachable(v)
    ensures Reachable(Run(v, clicks))
    decreases |clicks|
  {
    if clicks != [] {
      var w := Step(v, clicks[0].0, clicks[0].1);
      StepStaysReachable(v, clicks[0].0, clicks[0].1);
      RunStaysReachable(w, clicks[1..]);
    }
  }

  lemma StepStaysReachable(v: ViewerState, a: Action, now: nat)
    requires Reachable(v)
    ensures Reachable(Step(v, a, now))
  {
    match a
    case ZoomInClick => ZoomInRule(v, now);
    case ZoomOutClick => ZoomOutRule(v, now);
    case ResetClick =>
    case RotateClick => RotateRule(v, now);
    case FullscreenClick =>
    case CloseClick(_) =>
  }

  /** The viewer opens at 100% with no rotation, so every state it reaches is in range. */
  lemma ViewerStaysInRange(clicks: seq<(Action, nat)>)
    ensures Reachable(Run(InitialViewer, clicks))
    ensures 25 <= Run(InitialViewer, clicks).zoom <= 300
  {
    RunStaysReachable(InitialViewer, clicks);
  }

  // ------------------------------------------------------------------
  // Toasts

  /**
   * Closing removes every toast with that id and keeps the others, in
   * order; with no toast of that id nothing changes.
   */
  lemma ClosedRule(toasts: seq<Toast>, id: string)
    ensures forall t :: t in Closed(toasts, id) <==> t in toasts && t.id != id
    ensures (forall i | 0 <= i < |toasts| :: toasts[i].id != id) ==> Closed(toasts, id) == toasts
    ensures forall more: seq<Toast> :: Closed(toasts + more, id) == Closed(toasts, id) + Closed(more, id)
  {
    forall more: seq<Toast> ensures Closed(toasts + more, id) == Closed(toasts, id) + Closed(more, id) {
      FilterAppend(toasts, more, (t: Toast) => t.id != id);
    }
    if forall i | 0 <= i < |toasts| :: toasts[i].id != id {
      FilterAll(toasts, (t: Toast) => t.id != id);
    }
  }

  /**
   * Showing a toast and then closing its id gives the list the close would
   * have given without it: its timer removes it together with any older
   * toast shown in the same millisecond.
   */
  lemma ShowThenClose(toasts: seq<Toast>, now: nat, kind: ToastKind, message: string, duration: nat)
    ensures Closed(Shown(toasts, now, kind, message, duration), NatToString(now)) == Closed(toasts, NatToString(now))
    ensures (forall i | 0 <= i < |toasts| :: toasts[i].id != NatToString(now))
            ==> Closed(Shown(toasts, now, kind, message, duration), NatToString(now)) == toasts
  {
    var t := Toast(NatToString(now), kind, message, duration);
    ClosedRule(toasts, NatToString(now));
    assert Closed([t], NatToString(now)) == [];
  }

  // ------------------------------------------------------------------
  // The component

  class DocumentViewer {
    var zoomLevel: int
    var rotation: int
    var toasts: seq<Toast>
    var isFullscreen: bool

    function State(): ViewerState
      reads this
    {
      ViewerState(zoomLevel, rotation, toasts, isFullscreen)
    }

    constructor ()
      ensures State() == InitialViewer
    {
      zoomLevel := 100;
      rotation := 0;
      toasts := [];
      isFullscreen := false;
    }

    method ShowToast(now: nat, kind: ToastKind, message: string, duration: nat)
      modifies this
      ensures toasts == Shown(old(toasts), now, kind, message, duration)
      ensures zoomLevel == old(zoomLevel) && rotation == old(rotation) && isFullscreen == old(isFullscreen)
    {
      toasts := toasts + [Toast(NatToString(now), kind, message, duration)];
    }

    method CloseToast(id: string)
      modifies this
      ensures State() == old(State()).(toasts := Closed(old(toasts), id))
    {
      toasts := Filter(toasts, (t: Toast) => t.id != id);
    }

    method HandleZoomIn(now: nat)
      modifies this
      ensures State() == ZoomIn(old(State()), now)
    {
      if zoomLevel < MaxZoom {
        var z := if zoomLevel + ZoomStep < MaxZoom then zoomLevel + ZoomStep else MaxZoom;
        zoomLevel := z;
        ShowToast(now, Info, "Zoom: " + IntToString(z) + "%", 1000);
      } else {
        ShowToast(now, Warning, "Zoom máximo alcanzado (300%)", 2000);
      }
    }

    method HandleZoomOut(now: nat)
      modifies this
      ensures State() == ZoomOut(old(State()), now)
    {
      if zoomLevel > MinZoom {
        var z := if zoomLevel - ZoomStep > MinZoom then zoomLevel - ZoomStep else MinZoom;
        zoomLevel := z;
        ShowToast(now, Info, "Zoom: " + IntToString(z) + "%", 1000);
      } else {
        ShowToast(now, Warning, "Zoom mínimo alcanzado (25%)", 2000);
      }
    }

    method HandleZoomReset(now: nat)
      modifies this
      ensures State() == ZoomReset(old(State()), now)
    {
      zoomLevel := 100;
      rotation := 0;
      ShowToast(now, Success, "Vista restaurada al 100%", 1500);
    }

    method HandleRotate(now: nat)
      modifies this
      ensures State() == Rotate(old(State()), now)
    {
      var r := Rem360(rotation + 90);
      rotation := r;
      ShowToast(now, Info, "Rotado " + IntToString(r) + "°", 1000);
    }

    method HandleFullscreen(now: nat)
      modifies this
      ensures State() == ToggleFullscreen(old(State()), now)
    {
      var message := if isFullscreen then "Modo ventana" else "Modo pantalla completa";
      isFullscreen := !isFullscreen;
      ShowToast(now, Info, message, 1500);
    }
  }
}
