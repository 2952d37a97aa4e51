# ImageP measurement core in Dafny

ImageP opens an image and lets the user click points on it. It reports the
clicked points in a calibrated frame: relative to a movable origin, with the
y axis pointing up, and scaled by a per-axis pixel size. While the cursor
moves, a status bar shows three things:

- the cursor position;
- the distance from the last clicked point to the cursor;
- the angle at the second-to-last point, between the rays to the last point
  and to the cursor, computed by the cosine rule.

This project models that core as pure functions over exact reals:

- `Geometry` holds points, vector difference, dot product and squared
  distance. It also proves the law of cosines and Cauchy–Schwarz in the
  plane.
- `Transform` holds the calibration transform (`get_relative_calibrated`)
  and the export of all points (`get_calibrated_points`). It proves:
  - an inverse for invertible calibrations and the round trips through it;
  - injectivity of the transform;
  - how moving the origin and recalibrating change the export.
- `Measurement` holds what one status-bar update computes (`Measure`) and
  how the three labels are rewritten (`UpdateStatus`). Square roots and
  `arccos` are not computed:
  - a distance is carried as its square;
  - an angle is carried as the exact argument of `arccos`, as a numerator
    and the two squared ray lengths (`CosineArgument`).

  The module proves when the angle is available, and that its cosine
  argument lies in [−1, 1].
- `Session` holds the window state and the event handlers:
  - mouse motion, mouse click, the calibration dialog, and "change origin
    position";
  - the start-up origin normalisation of `gui`;
  - a replay of any event sequence, and the export returned at close.

  It proves what each event can and cannot change. It also proves worked
  sessions: a scaled two-click export and a 45-degree angle reading.

Modelling choices that follow the code:

- **Unusable coordinates.** A mouse coordinate that is absent or exactly
  zero fails the handler's truth test, and the event is ignored (`Falsy`).
- **Button numbering.** Points are appended for button number 1, the left
  button. The comment next to that test says "right-click", but the code
  tests 1.
- **Click before any motion.** The cursor attribute is only set by the
  first usable motion event. Before that, a usable left click, or any usable
  click while the origin move is armed, raises; other clicks return without
  reading the cursor. `OnClick` reports this in `Handled.raised`. In the origin branch the "moving origin" flag has
  already been cleared when the raise happens.
- **Undefined angle.** The angle label is left unchanged when the cosine
  rule's denominator `2·AC·AB` is zero. In the program, the division
  warning is promoted to an exception and caught. The denominator is zero
  exactly when the second-to-last point coincides, after calibration, with
  the last point or with the cursor. When only the last point and the
  cursor coincide, an angle is still shown: 0 degrees
  (`CursorOnLastPoint`).
- **Angle vertex.** The angle is measured at the second-to-last point
  (`A = points[-2]`), between the rays to the last point and to the cursor.
  With calibrated points (0, 0) and (d, 0) and the cursor at (d, d), it is
  45 degrees (`HalfRightAngle`, `FortyFiveDegrees`).

## Model

| member | source | states |
|---|---|---|
| Geometry.SqDistZero | imagep.py:291 | a squared distance is never negative, and is zero exactly when the two points coincide |
| Geometry.SqDistSymmetric | imagep.py:291 | the squared distance does not depend on the order of the two points, and is the squared length of the difference vector taken either way |
| Geometry.LawOfCosines | imagep.py:298 | the cosine-rule numerator `AC² + AB² − BC²` equals twice the dot product of the rays A→B and A→C |
| Geometry.CauchySchwarz | imagep.py:298 | `(u·v)² ≤ |u|²·|v|²`, the bound that keeps the arccos argument in range |
| Transform.RelativeCalibrated | imagep.py:240-243 | the origin itself always calibrates to (0, 0) |
| Transform.PositiveQuadrant | imagep.py:240-243 | with positive pixel sizes, a raw point right of the origin gets a positive x, and one above it (smaller row) gets a positive y |
| Transform.CalibratedPoints | imagep.py:245-248 | the export has one entry per stored point, each the calibrated image of the point at the same index |
| Transform.UncalibrateRoundTrip | imagep.py:240-243 | with non-zero pixel sizes, the inverse transform recovers the raw point from its calibrated image |
| Transform.CalibrateRoundTrip | imagep.py:240-243 | every calibrated point is the image of the raw point the inverse gives back |
| Transform.CalibrationInjective | imagep.py:240-243 | with non-zero pixel sizes, two raw points have the same calibrated image if and only if they are equal |
| Transform.UnitCalibration | imagep.py:240-243 | the default calibration (1, 1) is a translation by the origin with y flipped |
| Transform.AffineShift | imagep.py:240-243 | moving a raw point by (dx, dy) moves its image by (dx·cx, −dy·cy) |
| Transform.UniformScaleDistance | imagep.py:240-243 | with a uniform pixel size s, every squared distance between calibrated points is s² times the raw one |
| Transform.RecalibrationMoves | imagep.py:240-243 | a new calibration leaves a point's image in place if and only if, on each axis, the point is on the origin's line or that pixel size is unchanged |
| Transform.ExportAppend | imagep.py:245-248 | appending a raw point appends its calibrated image to the export and keeps the earlier entries |
| Transform.PointOriginShift | imagep.py:240-243 | moving the origin from o to o′ moves one point's calibrated image by ((o.x − o′.x)·cx, (o′.y − o.y)·cy) |
| Transform.OriginShift | imagep.py:240-248 | moving the origin shifts every exported point by the same vector, fixed by the old and new origins |
| Measurement.CosineRule | imagep.py:297-301 | from the three squared sides, an angle is produced exactly when the squared denominator `4·AC²·AB²` is non-zero; otherwise the division fails and no angle is produced |
| Measurement.AngleAvailable | imagep.py:293-301 | the angle at A between the rays to B and C is produced exactly when A differs from both B and C |
| Measurement.AngleParts | imagep.py:294-298 | a produced angle carries AC² and AB² as its squared ray lengths, and its numerator `AC² + AB² − BC²` equals `2·(B−A)·(C−A)` |
| Measurement.CosineInRange | imagep.py:298 | when the angle is attempted, both squared ray lengths are positive and the squared numerator is at most the squared denominator, so the cosine lies in [−1, 1] |
| Measurement.CosineBound | imagep.py:298 | the squared law-of-cosines numerator never exceeds `4·AC²·AB²` |
| Measurement.Measure | imagep.py:283-301 | the position is the calibrated cursor; a distance exists if and only if there is a point, is the squared distance from the last point's calibrated image to the calibrated cursor, is non-negative, and is zero exactly when the last point's image is the cursor's; with two or more points the angle is the cosine rule at the second-to-last point |
| Measurement.UpdateStatus | imagep.py:288-301 | the position label is always rewritten; the distance and angle labels only when a value was computed, and otherwise they keep their old text |
| Measurement.AngleAvailability | imagep.py:293-301 | with two or more points, an angle is shown if and only if the second-to-last calibrated point differs from both the last one and the cursor |
| Measurement.AngleAvailabilityRaw | imagep.py:293-301 | with non-zero pixel sizes, the same condition holds on raw pixel points |
| Measurement.CursorOnLastPoint | imagep.py:294-299 | a cursor resting on the last point gives cosine argument exactly 1, which is zero degrees |
| Measurement.RightAngle | imagep.py:294-299 | rays along the two axes give cosine numerator 0, which is 90 degrees |
| Measurement.HalfRightAngle | imagep.py:294-299 | rays to (d, 0) and (d, d) give `AC² = 2·AB²` and numerator `AC²`, so the cosine is 1/√2, which is 45 degrees |
| Session.EventPoint | imagep.py:108 | an event is usable if and only if neither coordinate is absent or zero; its point carries exactly the event's coordinates |
| Session.InitialOrigin | imagep.py:328-329 | with no origin argument the origin is the bottom-left corner (0, height); a given origin keeps its x and has its y measured from the bottom |
| Session.Launch | imagep.py:187-196 | a new window has no points, no cursor, the origin move not armed, all labels "-", and the given calibration and unit |
| Session.OnMotion | imagep.py:122-134 | an unusable event changes nothing; a usable one sets the cursor to the event point and refreshes the status from the current points, origin and calibration; nothing else changes |
| Session.OnClick | imagep.py:106-120 | calibration, unit, cursor and status never change; points either stay or gain the cursor at the end, only for the left button with no origin move armed; the origin either stays or becomes the cursor; the flag is cleared by any usable click; reading an unset cursor raises exactly when a usable click reaches a cursor read |
| Session.EnableMovingOrigin | imagep.py:279-281 | arms the origin move and changes nothing else |
| Session.ShowCalibrationDialog | imagep.py:271-277 | a cancelled dialog changes nothing; an accepted one sets calibration and unit and changes nothing else |
| Session.Export | imagep.py:245-248 | the array returned for the window has one entry per stored point, each the point's calibrated image under the window's current origin and calibration |
| Session.Step | imagep.py:216-221 | one event (a menu action wired here, or a mouse event wired at imagep.py:94-95) never removes or reorders points and adds at most one |
| Session.Replay | imagep.py:335-337 | a run of events keeps the original points as a prefix and adds at most one point per event |
| Session.Gui | imagep.py:303-340 | the returned array has at most one entry per event of the session |
| Session.ClickExtendsExport | imagep.py:116-118 | a left click with a cursor and no origin move appends the cursor, and the export gains the cursor's calibrated image at its end |
| Session.ClickIgnored | imagep.py:106-120 | a click at an unusable point, or with another button while no origin move is armed, changes nothing and raises nothing |
| Session.LockOriginShiftsExport | imagep.py:110-114 | a click while the origin move is armed puts the origin at the cursor and clears the flag; the cursor then calibrates to (0, 0) and every exported point shifts by one common vector |
| Session.ExportOriginShift | imagep.py:245-248 | two windows with the same points and calibration but different origins export the same points shifted by one common vector |
| Session.ArmThenClick | imagep.py:110-114 | arming the move and then clicking with any button puts the origin at the cursor and leaves the move unarmed |
| Session.RecalibrateExport | imagep.py:271-277 | after an accepted dialog the export uses the new calibration; an entry stays put if and only if, on each axis, its point is on the origin's line or that pixel size is unchanged |
| Session.MotionKeepsExport | imagep.py:122-134 | motion never changes the export |
| Session.MotionUpdatesStatus | imagep.py:287-292 | after a usable motion with at least one point, the labels show the calibrated cursor and its squared distance from the last point's image |
| Session.MotionAngle | imagep.py:293-301 | after a usable motion with at least two points, the angle label shows the cosine rule at the second-to-last point when it is defined, and otherwise keeps its old value |
| Session.ReplayConcat | imagep.py:335-337 | running two event sequences one after the other is running their concatenation |
| Session.CalibrationOnlyByDialog | imagep.py:271-277 | in a run whose calibration dialogs, if any, were all cancelled, calibration and unit never change |
| Session.OriginOnlyAfterArming | imagep.py:110-114 | without "change origin position", the origin never moves and the move stays unarmed |
| Session.DefaultOriginIsBottomLeft | imagep.py:329 | with no origin argument, calibrated coordinates are bottom-up image coordinates scaled by the pixel size |
| Session.GivenOriginIsBottomUp | imagep.py:328 | a given origin (ox, oy) is read bottom-up: raw (ox, height − oy) calibrates to (0, 0), and every point is measured from it in bottom-up coordinates |
| Session.MoveThenClick | imagep.py:106-134 | with no origin move armed, moving to a usable point and left-clicking it appends exactly that raw point and leaves origin and calibration alone |
| Session.ScaledLaunch | imagep.py:328-329 | an image 100 pixels high, with no origin argument and pixel size 2, starts with origin (0, 100) and no points |
| Session.TwoClicks | imagep.py:106-134 | two move-and-click pairs export the two points' calibrated images in click order, after the earlier export |
| Session.ScaledClicks | imagep.py:240-248 | with origin (0, h) and pixel size s, clicks at (x, y1) and (x, y2) export as (x·s, (h−y1)·s) and (x·s, (h−y2)·s), which are s²·(y2−y1)² apart squared |
| Session.FortyFiveDegrees | imagep.py:122-134 | with unit calibration, points at the origin and d to its right, and the cursor d above the second point, the angle label shows the 45-degree cosine rule |

## Left out

- Qt widgets, the matplotlib canvas, scatter markers, redrawing, and the
  origin lines that follow the cursor while the origin move is armed. None
  of these change the measured state.
- Loading and colour conversion of the image with OpenCV. The image enters
  the model only through its height, which the origin normalisation uses.
- The calibration dialog's text fields and their float parsing. The dialog
  is modelled by its outcome: cancelled, or accepted with a calibration and
  a unit.
- Square roots, `arccos`, the conversion to degrees, and the two-decimal
  label formatting with the unit. Distances are kept squared, and angles
  are kept as their exact cosine argument.
- Floating-point rounding. The model computes over exact reals. Rounding
  can push the arccos argument slightly outside [−1, 1]; the program then
  also takes the warning path and keeps the old angle label. The model
  does not capture this.
- The documentation and about pop-ups, and `closeEvent`.
- Removing the last point (undo) and a video frame index. Neither exists in
  `imagep.py`.
- Video input. It is commented out in the code.
- Session.Gui: states only the bound on the number of returned points. The
  returned values themselves are described by `Export`, `Replay` and the
  per-event lemmas.
