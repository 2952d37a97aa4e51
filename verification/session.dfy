/** The measuring session: the state the image window and its plot canvas
    keep between mouse and menu events, the handlers that change it, the
    start-up origin normalisation, and the export returned when the window
    closes. */
module Session {
  import opened Options
  import opened Geometry
  import opened Transform
  import opened Measurement

  /** The state of one session. `points` holds raw pixel points in click
      order; `cursor` is `None` until the first accepted motion event; while
      `moveOrigin` is set the next accepted click relocates the origin. */
  datatype Window = Window(
    origin: Point,
    calibration: Calibration,
    unit: string,
    points: seq<Point>,
    cursor: Option<Point>,
    moveOrigin: bool,
    status: Status)

  /** A plot event: its data coordinates (absent outside the axes) and the
      number of the mouse button (1 is the left button). */
  datatype MouseEvent = MouseEvent(xdata: Option<real>, ydata: Option<real>, button: nat)

  /** What the accepted calibration dialog hands back. */
  datatype DialogEntry = DialogEntry(calibration: Calibration, unit: string)

  /** The window after a click, and whether reading the cursor failed because
      no motion event had set it yet. */
  datatype Handled = Handled(window: Window, raised: bool)

  const DefaultCalibration := Calibration(1.0, 1.0)
  const DefaultUnit := "px"
  const LeftButton := 1

  /** A coordinate the handlers treat as missing: absent, or exactly zero
      (zero is false in a truth test). */
  predicate Falsy(v: Option<real>)
  {
    v.None? || v.value == 0.0
  }

  /** The point an event is at, when both coordinates are usable. */
  function EventPoint(e: MouseEvent): (r: Option<Point>)
    ensures r.None? <==> Falsy(e.xdata) || Falsy(e.ydata)
    ensures r.Some? ==> r.value.x != 0.0 && r.value.y != 0.0
    ensures r.Some? ==> Some(r.value.x) == e.xdata && Some(r.value.y) == e.ydata
  {
    if Falsy(e.xdata) || Falsy(e.ydata) then None
    else Some(Point(e.xdata.value, e.ydata.value))
  }

  /** The origin a session starts with, from the image height and the
      optional origin argument given in bottom-up image coordinates. */
  function InitialOrigin(height: nat, origin: Option<Point>): (r: Point)
    ensures origin.None? ==> r == Point(0.0, height as real)
    ensures origin.Some? ==> r.x == origin.value.x && r.y + origin.value.y == height as real
  {
    match origin
    case None => Point(0.0, height as real)
    case Some(o) => Point(o.x, height as real - o.y)
  }

  /** A fresh window: no points, no cursor, not moving the origin, every
      status label showing "-". */
  function Launch(height: nat, origin: Option<Point>, calibration: Calibration, unit: string): (w: Window)
    ensures w.points == [] && w.cursor.None? && !w.moveOrigin && w.status == InitialStatus
    ensures w.origin == InitialOrigin(height, origin)
    ensures w.calibration == calibration && w.unit == unit
  {
    Window(InitialOrigin(height, origin), calibration, unit, [], None, false, InitialStatus)
  }

  /** `_on_motion`: an event at a usable point becomes the cursor and the
      status bar is refreshed; anything else is ignored. */
  function OnMotion(w: Window, e: MouseEvent): (r: Window)
    ensures EventPoint(e).None? ==> r == w
    ensures EventPoint(e).Some? ==> r.cursor == EventPoint(e)
    ensures EventPoint(e).Some? ==>
      r.status == UpdateStatus(w.status, Measure(w.points, EventPoint(e).value, w.origin, w.calibration))
    ensures r.(cursor := w.cursor, status := w.status) == w
  {
    match EventPoint(e)
    case None => w
    case Some(c) => w.(cursor := Some(c), status := UpdateStatus(w.status, Measure(w.points, c, w.origin, w.calibration)))
  }

  /** `_on_click`: an event at a usable point either locks a moving origin at
      the cursor or, for the left button, appends the cursor to the points.
      Reading a cursor that was never set raises; in the origin branch the
      flag has already been cleared by then. */
  function OnClick(w: Window, e: MouseEvent): (r: Handled)
    ensures r.window.calibration == w.calibration && r.window.unit == w.unit
    ensures r.window.cursor == w.cursor && r.window.status == w.status
    ensures r.window.points == w.points || (w.cursor.Some? && r.window.points == w.points + [w.cursor.value])
    ensures r.window.origin == w.origin || (w.cursor.Some? && r.window.origin == w.cursor.value)
    ensures r.window.points != w.points ==> !w.moveOrigin && e.button == LeftButton
    ensures r.window.moveOrigin <==> w.moveOrigin && EventPoint(e).None?
    ensures r.raised <==> EventPoint(e).Some? && w.cursor.None? && (w.moveOrigin || e.button == LeftButton)
  {
    if EventPoint(e).None? then
      Handled(w, false)
    else if w.moveOrigin then
      match w.cursor
      case None => Handled(w.(moveOrigin := false), true)
      case Some(c) => Handled(w.(moveOrigin := false, origin := c), false)
    else if e.button == LeftButton then
      match w.cursor
      case None => Handled(w, true)
      case Some(c) => Handled(w.(points := w.points + [c]), false)
    else
      Handled(w, false)
  }

  /** `_enable_moving_origin`: arms the origin move and changes nothing else. */
  function EnableMovingOrigin(w: Window): (r: Window)
    ensures r.moveOrigin
    ensures r.(moveOrigin := w.moveOrigin) == w
  {
    w.(moveOrigin := true)
  }

  /** `_show_calibration_dialog`: a cancelled dialog changes nothing; an
      accepted one replaces calibration and unit and nothing else. */
  function ShowCalibrationDialog(w: Window, reply: Option<DialogEntry>): (r: Window)
    ensures reply.None? ==> r == w
    ensures reply.Some? ==> r.calibration == reply.value.calibration && r.unit == reply.value.unit
    ensures r.(calibration := w.calibration, unit := w.unit) == w
  {
    match reply
    case None => w
    case Some(d) => w.(calibration := d.calibration, unit := d.unit)
  }

  /** `get_calibrated_points` on the window's current state. */
  function Export(w: Window): (r: seq<Point>)
    ensures |r| == |w.points|
    ensures forall i :: 0 <= i < |w.points| ==> r[i] == RelativeCalibrated(w.points[i], w.origin, w.calibration)
  {
    CalibratedPoints(w.points, w.origin, w.calibration)
  }

  /** `Export` is the calibration of the whole point list. */
  lemma ExportPoints(w: Window)
    ensures Export(w) == CalibratedPoints(w.points, w.origin, w.calibration)
  {
  }

  /** Everything that can happen to a session while it is open. */
  datatype Event =
    | Motion(mouse: MouseEvent)
    | Click(mouse: MouseEvent)
    | Calibrate(reply: Option<DialogEntry>)
    | ChangeOrigin

  /** One event applied to the window. An exception in a click handler
      leaves the state as far as the handler got, and the session goes on. */
  function Step(w: Window, ev: Event): (r: Window)
    ensures |w.points| <= |r.points| <= |w.points| + 1
    ensures r.points[..|w.points|] == w.points
  {
    match ev
    case Motion(e) => OnMotion(w, e)
    case Click(e) => OnClick(w, e).window
    case Calibrate(reply) => ShowCalibrationDialog(w, reply)
    case ChangeOrigin => EnableMovingOrigin(w)
  }

  /** A run of events applied in order. Points are only ever appended: the
      original points stay a prefix, and each event adds at most one. */
  function Replay(w: Window, evs: seq<Event>): (r: Window)
    ensures |w.points| <= |r.points| <= |w.points| + |evs|
    ensures r.points[..|w.points|] == w.points
    decreases |evs|
  {
    if |evs| == 0 then w
    else
      var r := Replay(Step(w, evs[0]), evs[1..]);
      assert r.points[..|w.points|] == r.points[..|Step(w, evs[0]).points|][..|w.points|];
      r
  }

  /** `gui`: open a session on an image of the given height, run the events,
      and return the calibrated points under the origin and calibration in
      force when the window closes. Origin, calibration and unit are
      optional, defaulting to the bottom-left corner, (1, 1) and "px". */
  function Gui(height: nat, evs: seq<Event>, origin: Option<Point> := None,
               calibration: Calibration := DefaultCalibration, unit: string := DefaultUnit): (r: seq<Point>)
    ensures |r| <= |evs|
  {
    Export(Replay(Launch(height, origin, calibration, unit), evs))
  }

  // ---------------------------------------------------------------------
  // Properties of the handlers

  /** An accepted left click when not moving the origin appends the cursor,
      and the export gains the cursor's calibrated image at its end. */
  lemma ClickExtendsExport(w: Window, e: MouseEvent)
    requires EventPoint(e).Some? && !w.moveOrigin && e.button == LeftButton && w.cursor.Some?
    ensures OnClick(w, e) == Handled(w.(points := w.points + [w.cursor.value]), false)
    ensures Export(OnClick(w, e).window)
         == Export(w) + [RelativeCalibrated(w.cursor.value, w.origin, w.calibration)]
  {
    ExportAppend(w.points, w.cursor.value, w.origin, w.calibration);
  }

  /** A click with any other button, or at an unusable point, changes
      nothing and raises nothing. */
  lemma ClickIgnored(w: Window, e: MouseEvent)
    requires EventPoint(e).None? || (!w.moveOrigin && e.button != LeftButton)
    ensures OnClick(w, e) == Handled(w, false)
  {
  }

  /** A click while moving the origin locks the origin at the cursor, clears
      the flag and keeps the points; the cursor now calibrates to (0, 0) and
      every exported point shifts by the same vector. */
  lemma LockOriginShiftsExport(w: Window, e: MouseEvent)
    requires EventPoint(e).Some? && w.moveOrigin && w.cursor.Some?
    ensures OnClick(w, e) == Handled(w.(moveOrigin := false, origin := w.cursor.value), false)
    ensures RelativeCalibrated(w.cursor.value, OnClick(w, e).window.origin, w.calibration) == Point(0.0, 0.0)
    ensures forall i :: 0 <= i < |w.points| ==>
      Export(OnClick(w, e).window)[i]
        == Point(Export(w)[i].x + (w.origin.x - w.cursor.value.x) * w.calibration.x,
                 Export(w)[i].y + (w.cursor.value.y - w.origin.y) * w.calibration.y)
  {
    var w' := w.(moveOrigin := false, origin := w.cursor.value);
    assert OnClick(w, e) == Handled(w', false);
    ExportOriginShift(w, w', w.cursor.value);
    forall i | 0 <= i < |w.points|
      ensures Export(OnClick(w, e).window)[i]
        == Point(Export(w)[i].x + (w.origin.x - w.cursor.value.x) * w.calibration.x,
                 Export(w)[i].y + (w.cursor.value.y - w.origin.y) * w.calibration.y)
    {
      assert Export(OnClick(w, e).window)[i] == Export(w')[i];
    }
  }

  /** Two windows that differ only in their origin export the same points
      shifted by one vector. */
  lemma ExportOriginShift(w: Window, w': Window, o: Point)
    requires w'.points == w.points && w'.calibration == w.calibration && w'.origin == o
    ensures forall i :: 0 <= i < |w.points| ==>
      Export(w')[i]
        == Point(Export(w)[i].x + (w.origin.x - o.x) * w.calibration.x,
                 Export(w)[i].y + (o.y - w.origin.y) * w.calibration.y)
  {
    hide *;
    forall i | 0 <= i < |w.points|
      ensures Export(w')[i]
        == Point(Export(w)[i].x + (w.origin.x - o.x) * w.calibration.x,
                 Export(w)[i].y + (o.y - w.origin.y) * w.calibration.y)
    {
      PointOriginShift(w.points[i], w.origin, o, w.calibration);
    }
  }

  /** Arming the origin move and then clicking anywhere usable moves the
      origin to the cursor, whichever button is pressed. */
  lemma ArmThenClick(w: Window, e: MouseEvent)
    requires EventPoint(e).Some? && w.cursor.Some?
    ensures OnClick(EnableMovingOrigin(w), e).window == w.(origin := w.cursor.value, moveOrigin := false)
  {
  }

  /** An accepted calibration dialog re-exports every earlier point under the
      new calibration; a point's exported value stays put only if, on each
      axis, it lies on the origin's line or that pixel size is unchanged. */
  lemma RecalibrateExport(w: Window, d: DialogEntry)
    ensures Export(ShowCalibrationDialog(w, Some(d))) == CalibratedPoints(w.points, w.origin, d.calibration)
    ensures forall i :: 0 <= i < |w.points| ==>
      ((Export(ShowCalibrationDialog(w, Some(d)))[i] == Export(w)[i]) <==>
       ((w.points[i].x == w.origin.x || d.calibration.x == w.calibration.x) &&
        (w.origin.y == w.points[i].y || d.calibration.y == w.calibration.y)))
  {
    forall i | 0 <= i < |w.points|
      ensures (Export(ShowCalibrationDialog(w, Some(d)))[i] == Export(w)[i]) <==>
              ((w.points[i].x == w.origin.x || d.calibration.x == w.calibration.x) &&
               (w.origin.y == w.points[i].y || d.calibration.y == w.calibration.y))
    {
      RecalibrationMoves(w.points[i], w.origin, w.calibration, d.calibration);
    }
  }

  /** Motion never changes what the session exports. */
  lemma MotionKeepsExport(w: Window, e: MouseEvent)
    ensures Export(OnMotion(w, e)) == Export(w)
  {
  }

  /** After a usable motion event the position label shows the calibrated
      cursor, and with at least one point the distance label shows its squared
      distance from the last point's calibrated image. */
  lemma MotionUpdatesStatus(w: Window, e: MouseEvent)
    requires EventPoint(e).Some? && |w.points| >= 1
    ensures OnMotion(w, e).status.position == Some(RelativeCalibrated(EventPoint(e).value, w.origin, w.calibration))
    ensures OnMotion(w, e).status.distanceSq
         == Some(SqDist(RelativeCalibrated(w.points[|w.points| - 1], w.origin, w.calibration),
                        RelativeCalibrated(EventPoint(e).value, w.origin, w.calibration)))
  {
    hide *;
    var c := EventPoint(e).value;
    var m := Measure(w.points, c, w.origin, w.calibration);
    assert OnMotion(w, e).status == UpdateStatus(w.status, m);
    assert m.distanceSq.Some?;
  }

  /** After a usable motion event with at least two points the angle label
      shows the cosine rule at the second-to-last point when it is defined,
      and otherwise keeps whatever it showed before. */
  lemma MotionAngle(w: Window, e: MouseEvent)
    requires EventPoint(e).Some? && |w.points| >= 2
    ensures
      var rule := AngleAt(RelativeCalibrated(w.points[|w.points| - 2], w.origin, w.calibration),
                          RelativeCalibrated(w.points[|w.points| - 1], w.origin, w.calibration),
                          RelativeCalibrated(EventPoint(e).value, w.origin, w.calibration));
      OnMotion(w, e).status.angle == if rule.Some? then rule else w.status.angle
  {
    hide *;
    var m := Measure(w.points, EventPoint(e).value, w.origin, w.calibration);
    assert OnMotion(w, e).status == UpdateStatus(w.status, m);
  }

  /** Appending the events of two runs is running them one after the other. */
  lemma {:induction false} ReplayConcat(w: Window, a: seq<Event>, b: seq<Event>)
    ensures Replay(w, a + b) == Replay(Replay(w, a), b)
    decreases |a|
  {
    if |a| == 0 {
      assert a + b == b;
    } else {
      assert (a + b)[0] == a[0];
      assert (a + b)[1..] == a[1..] + b;
      ReplayConcat(Step(w, a[0]), a[1..], b);
    }
  }

  /** Every calibration dialog in the run, if any, was cancelled. */
  predicate NoAcceptedDialog(evs: seq<Event>)
  {
    forall i :: 0 <= i < |evs| ==> evs[i].Calibrate? ==> evs[i].reply.None?
  }

  predicate NoOriginChange(evs: seq<Event>)
  {
    forall i :: 0 <= i < |evs| ==> !evs[i].ChangeOrigin?
  }

  /** Calibration and unit change only through an accepted calibration
      dialog; cancelled dialogs leave them alone. */
  lemma {:induction false} CalibrationOnlyByDialog(w: Window, evs: seq<Event>)
    requires NoAcceptedDialog(evs)
    ensures Replay(w, evs).calibration == w.calibration
    ensures Replay(w, evs).unit == w.unit
    decreases |evs|
  {
    if |evs| > 0 {
      assert NoAcceptedDialog(evs[1..]) by {
        forall i | 0 <= i < |evs[1..]|
          ensures evs[1..][i].Calibrate? ==> evs[1..][i].reply.None?
        {
          assert evs[1..][i] == evs[i + 1];
        }
      }
      CalibrationOnlyByDialog(Step(w, evs[0]), evs[1..]);
    }
  }

  /** With the origin move not armed, the origin stays where it is unless the
      "change origin position" action is chosen. */
  lemma {:induction false} OriginOnlyAfterArming(w: Window, evs: seq<Event>)
    requires !w.moveOrigin && NoOriginChange(evs)
    ensures Replay(w, evs).origin == w.origin
    ensures !Replay(w, evs).moveOrigin
    decreases |evs|
  {
    if |evs| > 0 {
      assert NoOriginChange(evs[1..]) by {
        forall i | 0 <= i < |evs[1..]|
          ensures !evs[1..][i].ChangeOrigin?
        {
          assert evs[1..][i] == evs[i + 1];
        }
      }
      OriginOnlyAfterArming(Step(w, evs[0]), evs[1..]);
    }
  }

  // ---------------------------------------------------------------------
  // Start-up origin

  /** Without an origin argument the bottom-left corner of the image is the
      origin: calibrated coordinates are bottom-up image coordinates. */
  lemma DefaultOriginIsBottomLeft(height: nat, p: Point, c: Calibration)
    ensures RelativeCalibrated(p, InitialOrigin(height, None), c)
         == Point(p.x * c.x, (height as real - p.y) * c.y)
  {
  }

  /** An origin argument `(ox, oy)` is read bottom-up: the raw pixel
      `(ox, height − oy)` calibrates to (0, 0), and every raw point is
      measured from the origin in bottom-up image coordinates. */
  lemma GivenOriginIsBottomUp(height: nat, o: Point, p: Point, c: Calibration)
    ensures RelativeCalibrated(Point(o.x, height as real - o.y), InitialOrigin(height, Some(o)), c) == Point(0.0, 0.0)
    ensures RelativeCalibrated(p, InitialOrigin(height, Some(o)), c)
         == Point((p.x - o.x) * c.x, ((height as real - p.y) - o.y) * c.y)
  {
    var up := height as real - p.y;
    assert (height as real - o.y) - p.y == up - o.y;
  }

  // ---------------------------------------------------------------------
  // Worked sessions

  /** The two events of moving to a point and clicking it with the left
      button. */
  function MoveAndClick(p: Point): seq<Event>
  {
    [Motion(MouseEvent(Some(p.x), Some(p.y), 0)), Click(MouseEvent(Some(p.x), Some(p.y), LeftButton))]
  }

  /** Moving to a usable point and clicking there with the left button, with
      the origin move not armed, appends exactly that raw point and leaves
      origin and calibration alone. */
  lemma MoveThenClick(w: Window, p: Point)
    requires p.x != 0.0 && p.y != 0.0 && !w.moveOrigin
    ensures
      var r := Replay(w, MoveAndClick(p));
      r.points == w.points + [p] && r.origin == w.origin && r.calibration == w.calibration && !r.moveOrigin
  {
    var evs := MoveAndClick(p);
    var w1 := Step(w, evs[0]);
    assert w1.cursor == Some(p);
    assert w1.points == w.points && w1.origin == w.origin && w1.calibration == w.calibration && !w1.moveOrigin;
    assert evs[1..][1..] == [];
    assert Replay(w, evs) == Replay(Step(w1, evs[1]), []);
  }

  /** An image 100 pixels high opened without an origin argument and with
      pixel size 2 starts with origin (0, 100), no points and the move not
      armed. */
  lemma ScaledLaunch()
    ensures
      var w := Launch(100, None, Calibration(2.0, 2.0), DefaultUnit);
      w.origin == Point(0.0, 100.0) && w.calibration == Calibration(2.0, 2.0) && w.points == [] && !w.moveOrigin
  {
  }

  /** Two move-and-click pairs at usable points, with the origin move not
      armed, export exactly the calibrated images of the two points, in
      click order, after whatever was exported before. */
  lemma TwoClicks(w: Window, p: Point, q: Point)
    requires p.x != 0.0 && p.y != 0.0 && q.x != 0.0 && q.y != 0.0 && !w.moveOrigin
    ensures
      var r := Replay(w, MoveAndClick(p) + MoveAndClick(q));
      Export(r) == Export(w) + [RelativeCalibrated(p, w.origin, w.calibration), RelativeCalibrated(q, w.origin, w.calibration)]
  {
    hide *;
    var w1 := Replay(w, MoveAndClick(p));
    var r := Replay(w1, MoveAndClick(q));
    MoveThenClick(w, p);
    MoveThenClick(w1, q);
    ReplayConcat(w, MoveAndClick(p), MoveAndClick(q));
    ExportAppend(w.points, p, w.origin, w.calibration);
    ExportAppend(w.points + [p], q, w.origin, w.calibration);
    ExportPoints(w);
    ExportPoints(r);
  }

  /** From a start like that, with origin `(0, h)` and uniform pixel size
      `s`, clicks at raw `(x, y1)` and `(x, y2)` export as `(x·s, (h−y1)·s)`
      and `(x·s, (h−y2)·s)`, whose squared distance is `s²·(y2−y1)²`. With
      `h` = 100, `s` = 2 and clicks at (10, 10) and (10, 60) that is (20, 180)
      and (20, 80), 100 units apart. */
  lemma ScaledClicks(w0: Window, h: real, s: real, x: real, y1: real, y2: real)
    requires w0.origin == Point(0.0, h) && w0.calibration == Calibration(s, s)
    requires w0.points == [] && !w0.moveOrigin
    requires x != 0.0 && y1 != 0.0 && y2 != 0.0
    ensures
      var r := Export(Replay(w0, MoveAndClick(Point(x, y1)) + MoveAndClick(Point(x, y2))));
      r == [Point(x * s, (h - y1) * s), Point(x * s, (h - y2) * s)] && SqDist(r[0], r[1]) == Square(s) * Square(y2 - y1)
  {
    hide *;
    var p, q := Point(x, y1), Point(x, y2);
    TwoClicks(w0, p, q);
    assert Export(w0) == [];
    TopLeftOrigin(p, h, s);
    TopLeftOrigin(q, h, s);
    UniformScaleDistance(p, q, w0.origin, s);
    SqDistComponents(p, q);
    SquareSwap(y1, y2);
    assert SqDist(p, q) == Square(y2 - y1);
    var r := Export(Replay(w0, MoveAndClick(p) + MoveAndClick(q)));
    assert r == [RelativeCalibrated(p, w0.origin, w0.calibration), RelativeCalibrated(q, w0.origin, w0.calibration)];
    assert r[0] == Point(x * s, (h - y1) * s);
    assert r[1] == Point(x * s, (h - y2) * s);
    assert SqDist(r[0], r[1]) == Square(s) * SqDist(p, q);
    assert Square(s) * SqDist(p, q) == Square(s) * Square(y2 - y1);
    assert r == [Point(x * s, (h - y1) * s), Point(x * s, (h - y2) * s)];
  }

  /** With the origin at raw `(0, h)` and uniform pixel size `s`, a raw point
      calibrates to `(x·s, (h − y)·s)`. */
  lemma TopLeftOrigin(p: Point, h: real, s: real)
    ensures RelativeCalibrated(p, Point(0.0, h), Calibration(s, s)) == Point(p.x * s, (h - p.y) * s)
  {
  }

  /** A 45-degree reading, placed anywhere on the image and at any scale
      `d`: with unit calibration, a first point on the origin, a second
      point `d` pixels to its right and the cursor `d` pixels above the
      second, the angle label shows the cosine rule at the first point for
      the calibrated triangle (0, 0), (d, 0), (d, d). With origin (5, 100)
      and `d` = 10 this is the raw triangle (5, 100), (15, 100), (15, 90),
      which two clicks and a motion can produce. */
  lemma FortyFiveDegrees(w: Window, d: real)
    requires w.calibration == DefaultCalibration && d != 0.0
    requires w.points == [w.origin, Point(w.origin.x + d, w.origin.y)]
    requires w.origin.x + d != 0.0 && w.origin.y - d != 0.0
    ensures
      var e := MouseEvent(Some(w.origin.x + d), Some(w.origin.y - d), 0);
      var a := Point(0.0, 0.0);
      OnMotion(w, e).status.angle == AngleAt(a, Point(a.x + d, a.y), Point(a.x + d, a.y + d))
  {
    var e := MouseEvent(Some(w.origin.x + d), Some(w.origin.y - d), 0);
    var a := Point(0.0, 0.0);
    assert RelativeCalibrated(w.points[0], w.origin, w.calibration) == a;
    assert RelativeCalibrated(w.points[1], w.origin, w.calibration) == Point(a.x + d, a.y);
    assert RelativeCalibrated(EventPoint(e).value, w.origin, w.calibration) == Point(a.x + d, a.y + d);
    HalfRightAngle(a, d);
    MotionAngle(w, e);
  }

}
