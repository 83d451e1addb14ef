/**
 * The view manager: an object holding the view parameters, updating them in
 * place, recomputing the view after each change and counting the change
 * notifications it sends.
 */
module ViewManagers {
  import opened ZoomPresets
  import opened ViewModel

  class ViewManager {
    var scale: real
    var rotate: real
    var tx: real
    var ty: real
    var flipH: bool
    var flipV: bool
    var canvasW: int
    var canvasH: int
    const minScale: real
    const maxScale: real
    /** How many times viewChanged has been sent. */
    var notifications: nat
    /** The current view, recomputed by UpdateViewTransform. */
    var view: ViewTransform

    /** The parameters as a value. */
    function State(): ViewState
      reads this
    {
      ViewState(scale, rotate, tx, ty, flipH, flipV, canvasW, canvasH, minScale, maxScale, notifications)
    }

    /** The bounds are ordered and the stored view is the one the parameters determine. */
    ghost predicate Valid()
      reads this
    {
      WellFormed(State()) && view == DeriveView(State())
    }

    /**
     * The default parameters and the default view are not part of this
     * model, so they are given. As in the source, the constructor does not
     * recompute the view: it stays as given until a mutator recomputes it.
     */
    constructor (initial: ViewState, initialView: ViewTransform)
      requires WellFormed(initial)
      ensures State() == initial && view == initialView
    {
      scale, rotate := initial.scale, initial.rotate;
      tx, ty := initial.tx, initial.ty;
      flipH, flipV := initial.flipH, initial.flipV;
      canvasW, canvasH := initial.canvasW, initial.canvasH;
      minScale, maxScale := initial.minScale, initial.maxScale;
      notifications := initial.notifications;
      view := initialView;
    }

    /** The stored view; it is the one the parameters determine whenever the object is valid. */
    method GetView() returns (v: ViewTransform)
      ensures v == view
      ensures Valid() ==> v == DeriveView(State())
    {
      v := view;
    }

    /** Recomputes the view from the current parameters. */
    method UpdateViewTransform()
      modifies this`view
      ensures view == DeriveView(State())
    {
      var centre := Point(canvasW as real / 2.0, canvasH as real / 2.0);
      var translation := Point(tx, ty);
      var flipX := if flipH then -1.0 else 1.0;
      var flipY := if flipV then -1.0 else 1.0;
      view := ViewTransform(translation, Point(scale * flipX, scale * flipY), rotate, centre);
    }

    method Translate(dx: real, dy: real)
      requires WellFormed(State())
      modifies this
      ensures Valid() && State() == TranslateState(old(State()), dx, dy)
    {
      tx, ty := dx, dy;
      UpdateViewTransform();
      notifications := notifications + 1;
    }

    method TranslateTo(offset: Point)
      requires WellFormed(State())
      modifies this
      ensures Valid() && State() == TranslateState(old(State()), offset.x, offset.y)
    {
      Translate(offset.x, offset.y);
    }

    method Rotate(degree: real)
      requires WellFormed(State())
      modifies this
      ensures Valid() && State() == RotateState(old(State()), degree)
    {
      rotate := rotate + degree;
      UpdateViewTransform();
      notifications := notifications + 1;
    }

    /**
     * The scaling and flipping mutators recompute the view only when they
     * change something; otherwise the stored view is left as it was.
     */
    method ScaleUp()
      requires WellFormed(State())
      modifies this
      ensures State() == ScaleUpState(old(State()))
      ensures if notifications == old(notifications) then view == old(view) else view == DeriveView(State())
      ensures old(Valid()) ==> Valid()
    {
      var i := 0;
      while i < |ZOOMING_LIST|
        invariant 0 <= i <= |ZOOMING_LIST|
        invariant State() == old(State()) && view == old(view)
        invariant FirstAbove(ZOOMING_LIST, scale, 0) == FirstAbove(ZOOMING_LIST, scale, i)
      {
        if scale < ZOOMING_LIST[i] {
          Scale(ZOOMING_LIST[i]);
          return;
        }
        i := i + 1;
      }
      Scale(scale * ZOOM_IN_FACTOR);
    }

    method ScaleDown()
      requires WellFormed(State())
      modifies this
      ensures State() == ScaleDownState(old(State()))
      ensures if notifications == old(notifications) then view == old(view) else view == DeriveView(State())
      ensures old(Valid()) ==> Valid()
    {
      var i := |ZOOMING_LIST| - 1;
      while i > 0
        invariant 0 <= i < |ZOOMING_LIST|
        invariant State() == old(State()) && view == old(view)
        invariant LastBelow(ZOOMING_LIST, scale, |ZOOMING_LIST| - 1) == LastBelow(ZOOMING_LIST, scale, i)
      {
        if scale > ZOOMING_LIST[i] {
          Scale(ZOOMING_LIST[i]);
          return;
        }
        i := i - 1;
      }
      Scale(scale * ZOOM_OUT_FACTOR);
    }

    method Scale(value: real)
      requires WellFormed(State())
      modifies this
      ensures State() == ScaleState(old(State()), value)
      ensures if notifications == old(notifications) then view == old(view) else view == DeriveView(State())
      ensures old(Valid()) ==> Valid()
    {
      var v := value;
      if v < minScale {
        v := minScale;
      } else if v > maxScale {
        v := maxScale;
      } else if v == minScale || v == maxScale {
        return;
      }
      scale := v;
      UpdateViewTransform();
      notifications := notifications + 1;
    }

    method FlipHorizontal(b: bool)
      requires WellFormed(State())
      modifies this
      ensures State() == FlipHorizontalState(old(State()), b)
      ensures if notifications == old(notifications) then view == old(view) else view == DeriveView(State())
      ensures old(Valid()) ==> Valid()
    {
      if b != flipH {
        flipH := b;
        UpdateViewTransform();
        notifications := notifications + 1;
      }
    }

    method FlipVertical(b: bool)
      requires WellFormed(State())
      modifies this
      ensures State() == FlipVerticalState(old(State()), b)
      ensures if notifications == old(notifications) then view == old(view) else view == DeriveView(State())
      ensures old(Valid()) ==> Valid()
    {
      if b != flipV {
        flipV := b;
        UpdateViewTransform();
        notifications := notifications + 1;
      }
    }

    method SetCanvasSize(width: int, height: int)
      requires WellFormed(State())
      modifies this
      ensures Valid() && State() == SetCanvasSizeState(old(State()), width, height)
    {
      canvasW, canvasH := width, height;
      UpdateViewTransform();
      notifications := notifications + 1;
    }

    method ResetView()
      requires WellFormed(State())
      modifies this
      ensures Valid() && State() == ResetViewState(old(State()))
    {
      rotate := 0.0;
      scale := 1.0;
      Translate(0.0, 0.0);
      notifications := notifications + 1;
    }
  }
}
