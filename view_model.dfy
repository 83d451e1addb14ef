/**
 * The view parameters of the canvas view as a value, the transition each
 * public mutator of the view manager makes to them, and the view that is
 * derived from them.
 */
module ViewModel {
  import opened Wrappers
  import opened ZoomPresets

  datatype Point = Point(x: real, y: real)

  /**
   * Every parameter the view is computed from, the zoom bounds, and the
   * number of change notifications sent so far.
   */
  datatype ViewState = ViewState(
    scale: real,
    rotate: real,
    tx: real,
    ty: real,
    flipH: bool,
    flipV: bool,
    canvasW: int,
    canvasH: int,
    minScale: real,
    maxScale: real,
    notifications: nat)

  /** The zoom bounds form a non-empty interval. */
  predicate WellFormed(st: ViewState)
  {
    st.minScale <= st.maxScale
  }

  /** The zoom lies within its bounds. */
  predicate ScaleInBounds(st: ViewState)
  {
    st.minScale <= st.scale <= st.maxScale
  }

  /**
   * The view transform, kept as the parameters of its four factors. A point
   * of the canvas is mapped by applying them in the order of the fields:
   * the pan `translation`, then the per-axis zoom `axisScale` (negative on
   * a flipped axis), then the rotation by `rotation` degrees, then the move
   * by `centre`, half the canvas size.
   */
  datatype ViewTransform = ViewTransform(
    translation: Point,
    axisScale: Point,
    rotation: real,
    centre: Point)

  /** The sign a flip puts on the zoom of its axis. */
  function FlipSign(flipped: bool): real
  {
    if flipped then -1.0 else 1.0
  }

  /** The view the parameters of `st` determine. */
  function DeriveView(st: ViewState): ViewTransform
  {
    ViewTransform(
      Point(st.tx, st.ty),
      Point(st.scale * FlipSign(st.flipH), st.scale * FlipSign(st.flipV)),
      st.rotate,
      Point(st.canvasW as real / 2.0, st.canvasH as real / 2.0))
  }

  /** The usual clamp of `v` into [lo, hi]. */
  function Clamp(v: real, lo: real, hi: real): (r: real)
    requires lo <= hi
    ensures lo <= r <= hi
    ensures lo <= v <= hi ==> r == v
    ensures v < lo ==> r == lo
    ensures hi < v ==> r == hi
  {
    var below := if v < hi then v else hi;
    if lo < below then below else lo
  }

  /**
   * The zoom a request for `v` stores, or None when the request is ignored:
   * a value beyond a bound is replaced by that bound, while a value exactly
   * equal to a bound is dropped.
   */
  function ScaleRequest(v: real, lo: real, hi: real): Option<real>
  {
    if v < lo then Some(lo)
    else if v > hi then Some(hi)
    else if v == lo || v == hi then None
    else Some(v)
  }

  function TranslateState(st: ViewState, dx: real, dy: real): ViewState
  {
    st.(tx := dx, ty := dy, notifications := st.notifications + 1)
  }

  function RotateState(st: ViewState, degree: real): ViewState
  {
    st.(rotate := st.rotate + degree, notifications := st.notifications + 1)
  }

  function ScaleState(st: ViewState, value: real): ViewState
  {
    match ScaleRequest(value, st.minScale, st.maxScale)
    case None => st
    case Some(s) => st.(scale := s, notifications := st.notifications + 1)
  }

  function ScaleUpState(st: ViewState): ViewState
  {
    ScaleState(st, ScaleUpTarget(st.scale))
  }

  function ScaleDownState(st: ViewState): ViewState
  {
    ScaleState(st, ScaleDownTarget(st.scale))
  }

  function FlipHorizontalState(st: ViewState, b: bool): ViewState
  {
    if b != st.flipH then st.(flipH := b, notifications := st.notifications + 1) else st
  }

  function FlipVerticalState(st: ViewState, b: bool): ViewState
  {
    if b != st.flipV then st.(flipV := b, notifications := st.notifications + 1) else st
  }

  function SetCanvasSizeState(st: ViewState, width: int, height: int): ViewState
  {
    st.(canvasW := width, canvasH := height, notifications := st.notifications + 1)
  }

  /** resetView: rotation and zoom are set directly, then translate(0, 0), then one more notification. */
  function ResetViewState(st: ViewState): ViewState
  {
    var st1 := st.(rotate := 0.0, scale := 1.0);
    var st2 := TranslateState(st1, 0.0, 0.0);
    st2.(notifications := st2.notifications + 1)
  }

  /** The public mutators of the view manager, as requests. */
  datatype Op =
    | Translate(dx: real, dy: real)
    | Rotate(degree: real)
    | ScaleUp
    | ScaleDown
    | Scale(value: real)
    | FlipHorizontal(b: bool)
    | FlipVertical(b: bool)
    | SetCanvasSize(width: int, height: int)
    | ResetView

  function Apply(st: ViewState, op: Op): ViewState
  {
    match op
    case Translate(dx, dy) => TranslateState(st, dx, dy)
    case Rotate(d) => RotateState(st, d)
    case ScaleUp => ScaleUpState(st)
    case ScaleDown => ScaleDownState(st)
    case Scale(v) => ScaleState(st, v)
    case FlipHorizontal(b) => FlipHorizontalState(st, b)
    case FlipVertical(b) => FlipVerticalState(st, b)
    case SetCanvasSize(w, h) => SetCanvasSizeState(st, w, h)
    case ResetView => ResetViewState(st)
  }

  /** The requests of `ops`, applied in order. */
  function Run(st: ViewState, ops: seq<Op>): ViewState
    decreases |ops|
  {
    if ops == [] then st else Run(Apply(st, ops[0]), ops[1..])
  }

  /** The state with its notification count set to 0, so that states can be compared on their parameters alone. */
  function WithoutCount(st: ViewState): ViewState
  {
    st.(notifications := 0)
  }

  // ---------------------------------------------------------------------
  // scale

  /**
   * A request for a value other than a bound stores its clamp into the
   * bounds and sends one notification; a request for exactly a bound
   * changes nothing and sends nothing.
   */
  lemma ScaleRequestClamps(v: real, lo: real, hi: real)
    requires lo <= hi
    ensures ScaleRequest(v, lo, hi) == if v == lo || v == hi then None else Some(Clamp(v, lo, hi))
  {
  }

  lemma ScaleSetsClampedValue(st: ViewState, v: real)
    requires WellFormed(st)
    ensures v != st.minScale && v != st.maxScale ==>
      ScaleState(st, v) == st.(scale := Clamp(v, st.minScale, st.maxScale), notifications := st.notifications + 1)
    ensures v == st.minScale || v == st.maxScale ==> ScaleState(st, v) == st
  {
    ScaleRequestClamps(v, st.minScale, st.maxScale);
  }

  /** scale sends a notification exactly when the request is not for a bound. */
  lemma ScaleNotifiesUnlessAtBound(st: ViewState, v: real)
    requires WellFormed(st)
    ensures ScaleState(st, v).notifications == st.notifications + 1 <==> v != st.minScale && v != st.maxScale
    ensures ScaleState(st, v).notifications == st.notifications <==> v == st.minScale || v == st.maxScale
  {
  }

  // ---------------------------------------------------------------------
  // scaleUp and scaleDown

  /** From zoom 1.0, scaleUp goes to 1.5 when 1.5 lies strictly inside the bounds. */
  lemma ScaleUpFromOne(st: ViewState)
    requires st.scale == 1.0 && st.minScale < 1.5 < st.maxScale
    ensures ScaleUpState(st) == st.(scale := 1.5, notifications := st.notifications + 1)
  {
    ScaleUpFromOneTargets();
  }

  /** From zoom 1.0, scaleDown goes to 0.75 when 0.75 lies strictly inside the bounds. */
  lemma ScaleDownFromOne(st: ViewState)
    requires st.scale == 1.0 && st.minScale < 0.75 < st.maxScale
    ensures ScaleDownState(st) == st.(scale := 0.75, notifications := st.notifications + 1)
  {
    ScaleDownFromOneTargets();
  }

  /**
   * When the upper bound is itself a preset, scaleUp from the preset just
   * below it asks for exactly the bound, which scale ignores: with the
   * bound at 96, scaleUp from 64 changes nothing and sends nothing.
   */
  lemma ScaleUpToMaxPresetIgnored(st: ViewState)
    requires WellFormed(st) && st.scale == 64.0 && st.maxScale == 96.0
    ensures ScaleUpState(st) == st
  {
    ScaleUpFromSixtyFourTargets();
  }

  /**
   * At an upper bound above every preset, scaleUp from that bound asks for
   * twice the zoom; scale clamps it back to the same zoom, yet stores it,
   * recomputes the view and notifies: with the bound at 100, scaleUp from
   * 100 changes no parameter and still sends one notification.
   */
  lemma ScaleUpAtMaxStillNotifies(st: ViewState)
    requires WellFormed(st) && st.scale == 100.0 && st.maxScale == 100.0
    ensures WithoutCount(ScaleUpState(st)) == WithoutCount(st)
    ensures ScaleUpState(st).notifications == st.notifications + 1
  {
    ScaleUpTargetIsNextPreset(100.0);
    assert forall j :: 0 <= j < |ZOOMING_LIST| ==> ZOOMING_LIST[j] <= 100.0;
  }

  /** With the zoom inside the bounds, scaleUp never zooms out. */
  lemma ScaleUpNeverZoomsOut(st: ViewState)
    requires WellFormed(st) && ScaleInBounds(st)
    ensures st.scale <= ScaleUpState(st).scale
  {
    ScaleUpTargetIsNextPreset(st.scale);
    if exists j :: 0 <= j < |ZOOMING_LIST| && st.scale < ZOOMING_LIST[j] {
      assert st.scale < ScaleUpTarget(st.scale);
    } else {
      // the fallback is only taken at or above the last preset, so the zoom is positive
      assert ZOOMING_LIST[23] <= st.scale;
      assert ScaleUpTarget(st.scale) == st.scale * ZOOM_IN_FACTOR;
    }
  }

  /** With a non-negative zoom inside the bounds, scaleDown never zooms in. */
  lemma ScaleDownNeverZoomsIn(st: ViewState)
    requires WellFormed(st) && ScaleInBounds(st) && 0.0 <= st.scale
    ensures ScaleDownState(st).scale <= st.scale
  {
    ScaleDownTargetIsPreviousPreset(st.scale);
    if exists j :: 1 <= j < |ZOOMING_LIST| && ZOOMING_LIST[j] < st.scale {
      assert ScaleDownTarget(st.scale) < st.scale;
    } else {
      assert ScaleDownTarget(st.scale) == st.scale * ZOOM_OUT_FACTOR;
    }
  }

  // ---------------------------------------------------------------------
  // flips

  /** A flip request that matches the current flag changes nothing, and only then. */
  lemma FlipHorizontalNoOpIff(st: ViewState, b: bool)
    ensures FlipHorizontalState(st, b) == st <==> b == st.flipH
    ensures b != st.flipH ==> FlipHorizontalState(st, b) == st.(flipH := b, notifications := st.notifications + 1)
  {
  }

  lemma FlipVerticalNoOpIff(st: ViewState, b: bool)
    ensures FlipVerticalState(st, b) == st <==> b == st.flipV
    ensures b != st.flipV ==> FlipVerticalState(st, b) == st.(flipV := b, notifications := st.notifications + 1)
  {
  }

  /** Asking twice for the same flip is the same as asking once: the second call sends nothing. */
  lemma FlipIdempotent(st: ViewState, b: bool)
    ensures FlipHorizontalState(FlipHorizontalState(st, b), b) == FlipHorizontalState(st, b)
    ensures FlipVerticalState(FlipVerticalState(st, b), b) == FlipVerticalState(st, b)
  {
  }

  /** A horizontal flip that takes effect negates the horizontal zoom of the view and nothing else. */
  lemma FlipHorizontalMirrorsView(st: ViewState)
    ensures var v := DeriveView(st);
      DeriveView(FlipHorizontalState(st, !st.flipH)) == v.(axisScale := Point(-v.axisScale.x, v.axisScale.y))
  {
  }

  /** A vertical flip that takes effect negates the vertical zoom of the view and nothing else. */
  lemma FlipVerticalMirrorsView(st: ViewState)
    ensures var v := DeriveView(st);
      DeriveView(FlipVerticalState(st, !st.flipV)) == v.(axisScale := Point(v.axisScale.x, -v.axisScale.y))
  {
  }

  // ---------------------------------------------------------------------
  // translate, rotate, setCanvasSize, resetView

  /** translate sets the pan outright: a second call overrides the first entirely. */
  lemma TranslateIsAbsolute(st: ViewState, dx1: real, dy1: real, dx2: real, dy2: real)
    ensures TranslateState(TranslateState(st, dx1, dy1), dx2, dy2)
         == TranslateState(st, dx2, dy2).(notifications := st.notifications + 2)
    ensures DeriveView(TranslateState(st, dx2, dy2)) == DeriveView(st).(translation := Point(dx2, dy2))
  {
  }

  /** rotate accumulates: two calls turn the view by the sum of their angles. */
  lemma RotateAccumulates(st: ViewState, d1: real, d2: real)
    ensures RotateState(RotateState(st, d1), d2) == RotateState(st, d1 + d2).(notifications := st.notifications + 2)
    ensures DeriveView(RotateState(st, d1)) == DeriveView(st).(rotation := st.rotate + d1)
  {
  }

  /** setCanvasSize moves only the centre of the view, to half the new size. */
  lemma SetCanvasSizeMovesCentre(st: ViewState, width: int, height: int)
    ensures DeriveView(SetCanvasSizeState(st, width, height))
         == DeriveView(st).(centre := Point(width as real / 2.0, height as real / 2.0))
  {
  }

  /**
   * resetView leaves rotation 0, zoom 1 (whatever the bounds) and pan (0, 0),
   * keeps the flips, the canvas size and the bounds, and sends two
   * notifications.
   */
  lemma ResetViewNormalises(st: ViewState)
    ensures var r := ResetViewState(st);
      r.rotate == 0.0 && r.scale == 1.0 && r.tx == 0.0 && r.ty == 0.0 &&
      r.flipH == st.flipH && r.flipV == st.flipV &&
      r.canvasW == st.canvasW && r.canvasH == st.canvasH &&
      r.minScale == st.minScale && r.maxScale == st.maxScale &&
      r.notifications == st.notifications + 2
  {
  }

  /**
   * After resetView the view no longer depends on earlier pans, rotations
   * or zooms: two states with the same flips and canvas size reset to the
   * same view.
   */
  lemma ResetViewForgetsHistory(st1: ViewState, st2: ViewState)
    requires st1.flipH == st2.flipH && st1.flipV == st2.flipV
    requires st1.canvasW == st2.canvasW && st1.canvasH == st2.canvasH
    ensures DeriveView(ResetViewState(st1)) == DeriveView(ResetViewState(st2))
    ensures DeriveView(ResetViewState(st1)).axisScale == Point(FlipSign(st1.flipH), FlipSign(st1.flipV))
  {
  }

  // ---------------------------------------------------------------------
  // The mutators as a state machine

  /** No mutator changes the zoom bounds or lowers the notification count. */
  lemma ApplyKeepsBounds(st: ViewState, op: Op)
    ensures Apply(st, op).minScale == st.minScale && Apply(st, op).maxScale == st.maxScale
    ensures st.notifications <= Apply(st, op).notifications <= st.notifications + 2
  {
  }

  /** Every change of the view parameters is announced by at least one notification. */
  lemma ApplyChangeIsNotified(st: ViewState, op: Op)
    ensures WithoutCount(Apply(st, op)) != WithoutCount(st) ==> st.notifications < Apply(st, op).notifications
  {
  }

  /**
   * Every mutator but resetView keeps the zoom within its bounds; resetView
   * does too exactly when 1 lies within them.
   */
  lemma ApplyKeepsScaleInBounds(st: ViewState, op: Op)
    requires WellFormed(st) && ScaleInBounds(st)
    requires op == ResetView ==> st.minScale <= 1.0 <= st.maxScale
    ensures ScaleInBounds(Apply(st, op))
  {
    match op
    case Scale(v) => ScaleRequestClamps(v, st.minScale, st.maxScale);
    case ScaleUp => ScaleRequestClamps(ScaleUpTarget(st.scale), st.minScale, st.maxScale);
    case ScaleDown => ScaleRequestClamps(ScaleDownTarget(st.scale), st.minScale, st.maxScale);
    case _ =>
  }

  /** resetView stores zoom 1 without clamping it. */
  lemma ResetViewBypassesBounds(st: ViewState)
    requires 1.0 < st.minScale
    ensures !ScaleInBounds(ResetViewState(st))
  {
  }

  /** Any run of mutators keeps the zoom within its bounds, if the bounds admit zoom 1 or there is no resetView. */
  lemma {:induction false} RunKeepsScaleInBounds(st: ViewState, ops: seq<Op>)
    requires WellFormed(st) && ScaleInBounds(st)
    requires ResetView in ops ==> st.minScale <= 1.0 <= st.maxScale
    ensures WellFormed(Run(st, ops)) && ScaleInBounds(Run(st, ops))
    decreases |ops|
  {
    if ops != [] {
      ApplyKeepsScaleInBounds(st, ops[0]);
      ApplyKeepsBounds(st, ops[0]);
      var next := Apply(st, ops[0]);
      assert ResetView in ops[1..] ==> ResetView in ops;
      RunKeepsScaleInBounds(next, ops[1..]);
    }
  }

  /** A run of mutators keeps the bounds and sends between none and two notifications per request. */
  lemma {:induction false} RunNotifications(st: ViewState, ops: seq<Op>)
    ensures Run(st, ops).minScale == st.minScale && Run(st, ops).maxScale == st.maxScale
    ensures st.notifications <= Run(st, ops).notifications <= st.notifications + 2 * |ops|
    decreases |ops|
  {
    if ops != [] {
      ApplyKeepsBounds(st, ops[0]);
      RunNotifications(Apply(st, ops[0]), ops[1..]);
    }
  }
}
