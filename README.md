# ViewManager zoom, flip and pan model

A Dafny model of the view manager of the Pencil animation editor. The view
manager holds the parameters of the canvas view: the pan (translation), the
cumulative rotation in degrees, the zoom, the horizontal and vertical flip
flags, the canvas size and the zoom bounds. Every public mutator changes
some of these in place and, unless the request is a no-op, recomputes the
view transform and sends `viewChanged`.

The project has four modules:

- `Wrappers` (wrappers.dfy): an `Option` type.
- `ZoomPresets` (zoom_presets.dfy): the preset zoom table `gZoomingList` as the
  constant `ZOOMING_LIST`, and the two scans that `scaleUp` and `scaleDown` run over it.
- `ViewModel` (view_model.dfy): the parameters as a value `ViewState`, the
  derived view `ViewTransform`, one pure transition per mutator, the mutators as
  a request type `Op` with `Apply` and `Run`, and the lemmas about them.
- `ViewManagers` (view_manager.dfy): the class `ViewManager`. Its fields are the
  parameters, a `notifications` counter standing in for `viewChanged`, and the
  stored `view`. Each method updates the fields in place, as the source does. Its
  `ensures` ties the new `State()` to the pure transition of the old state, and
  says when the stored view is recomputed. `Valid()`, the stored view being
  `DeriveView(State())`, is kept by every mutator once it holds.

Modelling choices:

- The `float` fields are `real`, so `.33f` is exactly 0.33 and `0.8333f` is exactly 0.8333.
- The canvas size (`QSize`) is a pair of `int`s. The centre of the view is half of each, as a real.
- The view transform is kept as the parameters of its four factors, not as a
  matrix. `mView = t * s * r * c` uses Qt's row-vector convention, so a point is
  first translated by the pan, then scaled per axis (the zoom, negated on a
  flipped axis), then rotated, and finally moved by the centre.
- Zoom bounds, default values and the default view live in a header that is
  not part of this model. The constructor therefore takes the initial
  parameters, with `minScale <= maxScale`, and the initial view. Like the
  source's constructor, it does not recompute the view.
- `scale` ignores a request exactly equal to a bound, whatever the current
  zoom. A request beyond a bound is clamped, stored and notified.
- `resetView` stores zoom 1 without clamping. The zoom therefore stays within its
  bounds over all mutators only when 1 lies within them.
- The mutators only require ordered bounds, not a current stored view. The
  source's mutators work on a stale view too: after construction, and inside
  `resetView`, which calls `translate` before the view is recomputed.
  `translate`, `rotate`, `setCanvasSize` and `resetView` always leave the view
  current. `scale`, `scaleUp`, `scaleDown` and the flips recompute it exactly when
  they notify, and otherwise leave the stored view as it was. `scale` does so
  whenever the request is not exactly a bound, even when the clamped value
  equals the current zoom. The flips do so when the flag changes.

## Model

| member | source | states |
|---|---|---|
| `ZoomPresets.ZoomingListStrictlyAscending` | core_lib/managers/viewmanager.cpp:23-27 | the preset table has 24 entries in strictly ascending order |
| `ZoomPresets.FirstAbove` | core_lib/managers/viewmanager.cpp:134-143 | the scan finds the first index from `from` whose entry is strictly above `s`, and returns None exactly when every remaining entry is at most `s` |
| `ZoomPresets.LastBelow` | core_lib/managers/viewmanager.cpp:150-158 | the downward scan finds the first index from `from` down to 1 whose entry is strictly below `s`, never index 0, and returns None exactly when all entries from 1 to `from` are at least `s` |
| `ZoomPresets.FirstAboveIsLeastAbove` | core_lib/managers/viewmanager.cpp:135-141 | in a strictly ascending table, the index the upward scan finds holds the least entry strictly above `s` |
| `ZoomPresets.LastBelowIsGreatestBelow` | core_lib/managers/viewmanager.cpp:151-157 | in a strictly ascending table, the index the downward scan finds holds the greatest entry strictly below `s` among indices 1 to the end |
| `ZoomPresets.ScaleUpTargetIsNextPreset` | core_lib/managers/viewmanager.cpp:132-146 | scaleUp requests the smallest preset strictly above the current zoom, or twice the zoom when no preset is above it |
| `ZoomPresets.ScaleDownTargetIsPreviousPreset` | core_lib/managers/viewmanager.cpp:148-162 | scaleDown requests the largest preset strictly below the zoom among indices 1 to 23, or 0.8333 times the zoom when there is none |
| `ZoomPresets.ScaleUpFromOneTargets` | core_lib/managers/viewmanager.cpp:134-145 | from 1.0 scaleUp requests 1.5 |
| `ZoomPresets.ScaleUpFromSixtyFourTargets` | core_lib/managers/viewmanager.cpp:134-145 | from 64 scaleUp requests the last preset, 96 |
| `ZoomPresets.ScaleDownFromOneTargets` | core_lib/managers/viewmanager.cpp:150-161 | from 1.0 scaleDown requests 0.75 |
| `ZoomPresets.ScaleDownSkipsFirstPreset` | core_lib/managers/viewmanager.cpp:151 | because the loop stops before index 0, from 0.015 scaleDown requests 0.015 * 0.8333 and not the preset 0.01 |
| `ZoomPresets.ScaleUpTarget` | core_lib/managers/viewmanager.cpp:132-146 | the value scaleUp passes to scale: the preset the upward scan finds, or twice the zoom; its meaning is stated by `ZoomPresets.ScaleUpTargetIsNextPreset` |
| `ZoomPresets.ScaleDownTarget` | core_lib/managers/viewmanager.cpp:148-162 | the value scaleDown passes to scale: the preset the downward scan finds, or 0.8333 times the zoom; its meaning is stated by `ZoomPresets.ScaleDownTargetIsPreviousPreset` |
| `ViewModel.DeriveView` | core_lib/managers/viewmanager.cpp:92-111 | the view the parameters determine: pan, zoom with sign -1 on a flipped axis, rotation, and half the canvas size as centre; its properties are stated by the flip, translate, rotate, canvas and reset lemmas |
| `ViewModel.ScaleRequest` | core_lib/managers/viewmanager.cpp:166-177 | the zoom a scale request stores, or None when it is dropped; stated against `ViewModel.Clamp` by `ViewModel.ScaleRequestClamps` |
| `ViewModel.ScaleState` | core_lib/managers/viewmanager.cpp:164-181 | the scale transition: the stored zoom and one notification, or no change; stated by `ViewModel.ScaleSetsClampedValue` |
| `ViewModel.ScaleUpState` | core_lib/managers/viewmanager.cpp:132-146 | the scaleUp transition: scale of the scaleUp target; stated by `ViewModel.ScaleUpFromOne` and `ViewModel.ScaleUpNeverZoomsOut` |
| `ViewModel.ScaleDownState` | core_lib/managers/viewmanager.cpp:148-162 | the scaleDown transition: scale of the scaleDown target; stated by `ViewModel.ScaleDownFromOne` and `ViewModel.ScaleDownNeverZoomsIn` |
| `ViewModel.TranslateState` | core_lib/managers/viewmanager.cpp:113-118 | the translate transition: the pan set to (dx, dy) and one notification; stated by `ViewModel.TranslateIsAbsolute` |
| `ViewModel.RotateState` | core_lib/managers/viewmanager.cpp:125-130 | the rotate transition: the angle added to the rotation and one notification; stated by `ViewModel.RotateAccumulates` |
| `ViewModel.FlipHorizontalState` | core_lib/managers/viewmanager.cpp:183-191 | the horizontal flip transition; stated by `ViewModel.FlipHorizontalNoOpIff` |
| `ViewModel.FlipVerticalState` | core_lib/managers/viewmanager.cpp:193-201 | the vertical flip transition; stated by `ViewModel.FlipVerticalNoOpIff` |
| `ViewModel.SetCanvasSizeState` | core_lib/managers/viewmanager.cpp:203-208 | the canvas size transition: the new size and one notification; stated by `ViewModel.SetCanvasSizeMovesCentre` |
| `ViewModel.ResetViewState` | core_lib/managers/viewmanager.cpp:210-216 | the resetView transition; stated by `ViewModel.ResetViewNormalises` |
| `ViewModel.Clamp` | core_lib/managers/viewmanager.cpp:166-173 | the clamp lies in the bounds, keeps a value already in them, and replaces a value beyond a bound by that bound |
| `ViewModel.ScaleRequestClamps` | core_lib/managers/viewmanager.cpp:166-177 | a scale request is dropped exactly when it equals a bound, and otherwise stores the clamp of the value |
| `ViewModel.ScaleSetsClampedValue` | core_lib/managers/viewmanager.cpp:164-181 | scale(v) with v not a bound sets only the zoom, to clamp(v), and sends one notification; with v a bound it changes nothing |
| `ViewModel.ScaleNotifiesUnlessAtBound` | core_lib/managers/viewmanager.cpp:174-180 | scale sends one notification if and only if the request is not exactly a bound, and none otherwise |
| `ViewModel.ScaleUpFromOne` | core_lib/managers/viewmanager.cpp:132-146 | from zoom 1.0, with 1.5 strictly inside the bounds, scaleUp sets the zoom to 1.5 and notifies once |
| `ViewModel.ScaleDownFromOne` | core_lib/managers/viewmanager.cpp:148-162 | from zoom 1.0, with 0.75 strictly inside the bounds, scaleDown sets the zoom to 0.75 and notifies once |
| `ViewModel.ScaleUpToMaxPresetIgnored` | core_lib/managers/viewmanager.cpp:174-177 | with the upper bound at 96, scaleUp from 64 requests exactly the bound, so nothing changes and nothing is sent |
| `ViewModel.ScaleUpAtMaxStillNotifies` | core_lib/managers/viewmanager.cpp:145 | at an upper bound above every preset, scaleUp requests twice the zoom, which is clamped back to the same zoom and still recomputed and notified once |
| `ViewModel.ScaleUpNeverZoomsOut` | core_lib/managers/viewmanager.cpp:132-146 | from any zoom within the bounds, scaleUp never lowers the zoom |
| `ViewModel.ScaleDownNeverZoomsIn` | core_lib/managers/viewmanager.cpp:148-162 | from a non-negative zoom within the bounds, scaleDown never raises the zoom |
| `ViewModel.FlipHorizontalNoOpIff` | core_lib/managers/viewmanager.cpp:183-191 | flipHorizontal(b) leaves the state unchanged if and only if b is the current flag; otherwise it sets only that flag and notifies once |
| `ViewModel.FlipVerticalNoOpIff` | core_lib/managers/viewmanager.cpp:193-201 | flipVertical(b) leaves the state unchanged if and only if b is the current flag; otherwise it sets only that flag and notifies once |
| `ViewModel.FlipIdempotent` | core_lib/managers/viewmanager.cpp:183-201 | asking twice for the same flip equals asking once; the second call sends nothing |
| `ViewModel.FlipHorizontalMirrorsView` | core_lib/managers/viewmanager.cpp:103-107 | a horizontal flip that takes effect negates the horizontal zoom of the view and leaves the rest of the view unchanged |
| `ViewModel.FlipVerticalMirrorsView` | core_lib/managers/viewmanager.cpp:103-107 | a vertical flip that takes effect negates the vertical zoom of the view and leaves the rest of the view unchanged |
| `ViewModel.TranslateIsAbsolute` | core_lib/managers/viewmanager.cpp:113-118 | translate sets the pan outright: a second call overrides the first, and the view changes only in its translation |
| `ViewModel.RotateAccumulates` | core_lib/managers/viewmanager.cpp:125-130 | two rotate calls equal one by the sum of the angles, with two notifications; the view changes only in its rotation |
| `ViewModel.SetCanvasSizeMovesCentre` | core_lib/managers/viewmanager.cpp:203-208 | setCanvasSize changes only the centre of the view, to half the new size |
| `ViewModel.ResetViewNormalises` | core_lib/managers/viewmanager.cpp:210-216 | resetView yields rotation 0, zoom 1 and pan (0, 0), keeps the flips, canvas size and bounds, and sends two notifications |
| `ViewModel.ResetViewForgetsHistory` | core_lib/managers/viewmanager.cpp:210-216 | after resetView the view depends only on the flips and the canvas size, with axis zooms of plus or minus 1 |
| `ViewModel.ResetViewBypassesBounds` | core_lib/managers/viewmanager.cpp:213 | resetView stores zoom 1 even when it lies below the lower bound |
| `ViewModel.ApplyKeepsBounds` | core_lib/managers/viewmanager.cpp:113-216 | no mutator changes the zoom bounds, and each sends between zero and two notifications |
| `ViewModel.ApplyChangeIsNotified` | core_lib/managers/viewmanager.cpp:113-216 | every mutator that changes a view parameter sends at least one notification |
| `ViewModel.ApplyKeepsScaleInBounds` | core_lib/managers/viewmanager.cpp:132-216 | every mutator keeps the zoom within its bounds; resetView does so when 1 is within them |
| `ViewModel.RunKeepsScaleInBounds` | core_lib/managers/viewmanager.cpp:113-216 | any sequence of mutators keeps the zoom in bounds if it has no resetView or the bounds admit zoom 1 |
| `ViewModel.RunNotifications` | core_lib/managers/viewmanager.cpp:113-216 | any sequence of mutators keeps the bounds and sends at most two notifications per request, never losing any |
| `ViewManagers.ViewManager.constructor` | core_lib/managers/viewmanager.cpp:29-31 | a new manager holds the given parameters and the given view, which it does not recompute |
| `ViewManagers.ViewManager.GetView` | core_lib/managers/viewmanager.cpp:87-90 | returns the stored view, which is the one the current parameters determine whenever the object is valid |
| `ViewManagers.ViewManager.UpdateViewTransform` | core_lib/managers/viewmanager.cpp:92-111 | the stored view becomes the composition of the current pan, flipped zoom, rotation and centre |
| `ViewManagers.ViewManager.Translate` | core_lib/managers/viewmanager.cpp:113-118 | the new state is the translate transition of the old one, and the view is current |
| `ViewManagers.ViewManager.TranslateTo` | core_lib/managers/viewmanager.cpp:120-123 | the point overload makes the same transition with the point's coordinates |
| `ViewManagers.ViewManager.Rotate` | core_lib/managers/viewmanager.cpp:125-130 | the new state is the rotate transition of the old one, and the view is current |
| `ViewManagers.ViewManager.ScaleUp` | core_lib/managers/viewmanager.cpp:132-146 | the loop over the table makes the scaleUp transition: scale of the first preset above the zoom, or of twice the zoom; the view is recomputed exactly when it notifies, and otherwise left as it was |
| `ViewManagers.ViewManager.ScaleDown` | core_lib/managers/viewmanager.cpp:148-162 | the downward loop makes the scaleDown transition, never looking at index 0; the view is recomputed exactly when it notifies, and otherwise left as it was |
| `ViewManagers.ViewManager.Scale` | core_lib/managers/viewmanager.cpp:164-181 | the new state is the scale transition of the old one; the view is recomputed exactly when it notifies, and otherwise left as it was |
| `ViewManagers.ViewManager.FlipHorizontal` | core_lib/managers/viewmanager.cpp:183-191 | the new state is the horizontal flip transition of the old one; the view is recomputed exactly when it notifies, and otherwise left as it was |
| `ViewManagers.ViewManager.FlipVertical` | core_lib/managers/viewmanager.cpp:193-201 | the new state is the vertical flip transition of the old one; the view is recomputed exactly when it notifies, and otherwise left as it was |
| `ViewManagers.ViewManager.SetCanvasSize` | core_lib/managers/viewmanager.cpp:203-208 | the new state is the canvas size transition of the old one, and the view is current |
| `ViewManagers.ViewManager.ResetView` | core_lib/managers/viewmanager.cpp:210-216 | the new state is the reset transition of the old one: rotation 0, zoom 1, pan (0, 0), two notifications, and the view is current |

## Left out

- The matrix arithmetic of `QTransform`. Rotation needs sine and cosine, and the product, `inverted()`, `map` and `mapRect` are library code. The view is therefore kept as its factors' parameters, and the inverse view `mViewInverse` is not modelled.
- `mapCanvasToScreen` and `mapScreenToCanvas` (point, path and rectangle overloads) are left out for the same reason, and so is the round trip through the inverse.
- `load` and `save` are left out: they read and write the transform stored in the external document model, which is not part of this model.
- `init` and the constructor's `BaseManager` wiring are left out: they have no behaviour of their own.
- The zoom bounds and the default parameter values are defined in `viewmanager.h`, which is not part of this model. They are constructor parameters instead.
- `Q_EMIT viewChanged()` is reduced to a counter. Observers and the signal plumbing are left out.
- Exact `float` behaviour is left out: rounding, NaN and infinities. With NaN, every comparison in `scale` and in the scans is false, and real numbers cannot show that.
