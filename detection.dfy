/**
 * The per-frame detection and annotation pass of `update_frame`: the boxes the
 * detector returns are classified as alarm or non-alarm, and each one is drawn
 * onto the frame as a rectangle and a label in its class colour.
 *
 * The detector itself is not modelled: its output arrives as a sequence of
 * results, each holding the boxes of one image. Pixels are not modelled either:
 * a frame is the identity of the pixels read from the camera plus the list of
 * drawing operations applied to it, in order.
 */
module Detection {

  /** A pixel colour as OpenCV takes it: blue, green, red. */
  datatype Color = Bgr(b: int, g: int, r: int)

  /** Colour of alarm-class boxes and of the alert banner: (0, 0, 255), red. */
  const AlarmColor := Bgr(0, 0, 255)
  /** Colour of every other box: (255, 255, 0). */
  const OtherColor := Bgr(255, 255, 0)

  /** Text of the full-frame warning drawn when some box is alarm-class. */
  const BannerText := "ALERT: FIRE/SMOKE DETECTED!"

  datatype Point = Point(x: int, y: int)

  /** A box corner pair `(x1, y1, x2, y2)`, already converted to integers. */
  datatype Rect = Rect(x1: int, y1: int, x2: int, y2: int)

  /** One detected box: its class name, its confidence and its rectangle. */
  datatype Box = Box(className: string, conf: real, rect: Rect)

  /** One element of the detector's result list. */
  datatype DetectorResult = DetectorResult(boxes: seq<Box>)

  /**
   * The text of a `putText` call: a box label (the class name followed by the
   * confidence to two decimals, whose formatting is not modelled) or a fixed text.
   */
  datatype Caption = BoxLabel(className: string, conf: real) | Literal(text: string)

  /** One drawing operation applied to a frame. */
  datatype Drawing =
    | RectangleDraw(corner1: Point, corner2: Point, color: Color, thickness: int)
    | TextDraw(caption: Caption, origin: Point, scale: real, color: Color, thickness: int)

  /** A frame's content: the pixels read from the device and what was drawn on them. */
  datatype Pixels = Pixels(id: nat)
  datatype FrameImage = FrameImage(pixels: Pixels, drawings: seq<Drawing>)

  /** The alarm vocabulary: `fire` and `smoke`. */
  predicate IsAlarmClass(className: string)
  {
    className == "fire" || className == "smoke"
  }

  function BoxColor(className: string): (c: Color)
    ensures c == AlarmColor <==> IsAlarmClass(className)
    ensures c == AlarmColor || c == OtherColor
  {
    if IsAlarmClass(className) then AlarmColor else OtherColor
  }

  /** The two drawings one box receives: its rectangle, then its label 10 pixels above the top-left corner. */
  function BoxDrawings(box: Box): seq<Drawing>
  {
    var color := BoxColor(box.className);
    [ RectangleDraw(Point(box.rect.x1, box.rect.y1), Point(box.rect.x2, box.rect.y2), color, 2),
      TextDraw(BoxLabel(box.className, box.conf), Point(box.rect.x1, box.rect.y1 - 10), 0.5, color, 2) ]
  }

  /** The drawing applied when the frame is alerting. */
  const Banner := TextDraw(Literal(BannerText), Point(50, 50), 1.0, AlarmColor, 3)

  /** The drawings of a sequence of boxes, in order. */
  function DrawingsOf(boxes: seq<Box>): seq<Drawing>
  {
    if boxes == [] then []
    else DrawingsOf(boxes[..|boxes| - 1]) + BoxDrawings(boxes[|boxes| - 1])
  }

  /** All boxes of all results, in the order the nested loops visit them. */
  function AllBoxes(results: seq<DetectorResult>): seq<Box>
  {
    if results == [] then []
    else AllBoxes(results[..|results| - 1]) + results[|results| - 1].boxes
  }

  /** Whether some box is alarm-class. */
  predicate AnyAlarm(boxes: seq<Box>)
  {
    exists k :: 0 <= k < |boxes| && IsAlarmClass(boxes[k].className)
  }

  /** The frame-level alert flag of one detector output. */
  predicate Alert(results: seq<DetectorResult>)
  {
    AnyAlarm(AllBoxes(results))
  }

  /** The frame after the annotation pass: every box drawn, then the banner if alerting. */
  function Annotated(pixels: Pixels, results: seq<DetectorResult>): FrameImage
  {
    FrameImage(pixels, DrawingsOf(AllBoxes(results)) + (if Alert(results) then [Banner] else []))
  }

  /** The frame buffer of one tick, drawn on in place. */
  class Frame {
    const pixels: Pixels
    var drawings: seq<Drawing>

    constructor (pixels: Pixels)
      ensures this.pixels == pixels && drawings == []
    {
      this.pixels := pixels;
      drawings := [];
    }

    function Content(): FrameImage
      reads this
    {
      FrameImage(pixels, drawings)
    }

    /** `cv2.rectangle` on this frame. */
    method Rectangle(corner1: Point, corner2: Point, color: Color, thickness: int)
      modifies this
      ensures drawings == old(drawings) + [RectangleDraw(corner1, corner2, color, thickness)]
    {
      drawings := drawings + [RectangleDraw(corner1, corner2, color, thickness)];
    }

    /** `cv2.putText` on this frame. */
    method PutText(caption: Caption, origin: Point, scale: real, color: Color, thickness: int)
      modifies this
      ensures drawings == old(drawings) + [TextDraw(caption, origin, scale, color, thickness)]
    {
      drawings := drawings + [TextDraw(caption, origin, scale, color, thickness)];
    }
  }

  lemma AnyAlarmSnoc(boxes: seq<Box>, box: Box)
    ensures AnyAlarm(boxes + [box]) <==> AnyAlarm(boxes) || IsAlarmClass(box.className)
  {
    var bs := boxes + [box];
    if AnyAlarm(bs) && !IsAlarmClass(box.className) {
      var k :| 0 <= k < |bs| && IsAlarmClass(bs[k].className);
      assert k < |boxes| && boxes[k] == bs[k];
    }
    if AnyAlarm(boxes) {
      var k :| 0 <= k < |boxes| && IsAlarmClass(boxes[k].className);
      assert bs[k] == boxes[k];
    }
    if IsAlarmClass(box.className) {
      assert bs[|boxes|] == box;
    }
  }

  lemma DrawingsOfSnoc(boxes: seq<Box>, box: Box)
    ensures DrawingsOf(boxes + [box]) == DrawingsOf(boxes) + BoxDrawings(box)
  {
    assert (boxes + [box])[..|boxes|] == boxes;
  }

  /**
   * The inner loop of `update_frame`: draws each box of one result onto the
   * frame and raises the alert flag for an alarm-class box.
   */
  method DrawBoxes(frame: Frame, boxes: seq<Box>, fireBefore: bool) returns (fireDetected: bool)
    modifies frame
    ensures frame.drawings == old(frame.drawings) + DrawingsOf(boxes)
    ensures fireDetected == (fireBefore || AnyAlarm(boxes))
  {
    fireDetected := fireBefore;
    for j := 0 to |boxes|
      invariant frame.drawings == old(frame.drawings) + DrawingsOf(boxes[..j])
      invariant fireDetected == (fireBefore || AnyAlarm(boxes[..j]))
    {
      var box := boxes[j];
      var color;
      if IsAlarmClass(box.className) {
        fireDetected := true;
        color := AlarmColor;
      } else {
        color := OtherColor;
      }
      frame.Rectangle(Point(box.rect.x1, box.rect.y1), Point(box.rect.x2, box.rect.y2), color, 2);
      frame.PutText(BoxLabel(box.className, box.conf), Point(box.rect.x1, box.rect.y1 - 10), 0.5, color, 2);
      BoxStep(boxes, j);
    }
    assert boxes[..|boxes|] == boxes;
  }

  /**
   * The nested loops of `update_frame` over the results and their boxes: draws
   * every box onto the frame and accumulates the alert flag.
   */
  method Annotate(frame: Frame, results: seq<DetectorResult>) returns (fireDetected: bool)
    modifies frame
    ensures frame.drawings == old(frame.drawings) + DrawingsOf(AllBoxes(results))
    ensures fireDetected == Alert(results)
  {
    fireDetected := false;
    for i := 0 to |results|
      invariant frame.drawings == old(frame.drawings) + DrawingsOf(AllBoxes(results[..i]))
      invariant fireDetected == AnyAlarm(AllBoxes(results[..i]))
    {
      fireDetected := DrawBoxes(frame, results[i].boxes, fireDetected);
      ResultStep(results, i);
    }
    assert results[..|results|] == results;
  }

  /** What one more box adds: its two drawings, and its class to the alert flag. */
  lemma BoxStep(boxes: seq<Box>, j: nat)
    requires j < |boxes|
    ensures DrawingsOf(boxes[..j + 1]) == DrawingsOf(boxes[..j]) + BoxDrawings(boxes[j])
    ensures AnyAlarm(boxes[..j + 1]) <==> AnyAlarm(boxes[..j]) || IsAlarmClass(boxes[j].className)
  {
    assert boxes[..j + 1] == boxes[..j] + [boxes[j]];
    DrawingsOfSnoc(boxes[..j], boxes[j]);
    AnyAlarmSnoc(boxes[..j], boxes[j]);
  }

  /** What one more result adds: the drawings of its boxes, and their classes to the alert flag. */
  lemma ResultStep(results: seq<DetectorResult>, i: nat)
    requires i < |results|
    ensures DrawingsOf(AllBoxes(results[..i + 1])) == DrawingsOf(AllBoxes(results[..i])) + DrawingsOf(results[i].boxes)
    ensures AnyAlarm(AllBoxes(results[..i + 1])) <==> AnyAlarm(AllBoxes(results[..i])) || AnyAlarm(results[i].boxes)
  {
    assert results[..i + 1][..i] == results[..i];
    assert AllBoxes(results[..i + 1]) == AllBoxes(results[..i]) + results[i].boxes;
    DrawingsOfAppend(AllBoxes(results[..i]), results[i].boxes);
    AnyAlarmAppend(AllBoxes(results[..i]), results[i].boxes);
  }

  /**
   * The annotation pass of `update_frame` on a freshly read frame: every box,
   * then the full-frame warning if some box is alarm-class.
   */
  method AnnotateFrame(pixels: Pixels, results: seq<DetectorResult>) returns (image: FrameImage, fireDetected: bool)
    ensures image == Annotated(pixels, results)
    ensures fireDetected == Alert(results)
  {
    var frame := new Frame(pixels);
    fireDetected := Annotate(frame, results);
    if fireDetected {
      frame.PutText(Literal(BannerText), Point(50, 50), 1.0, AlarmColor, 3);
    }
    image := frame.Content();
  }

  lemma {:induction false} DrawingsOfAppend(xs: seq<Box>, ys: seq<Box>)
    ensures DrawingsOf(xs + ys) == DrawingsOf(xs) + DrawingsOf(ys)
  {
    if ys == [] {
      assert xs + ys == xs;
    } else {
      var n := |ys|;
      assert (xs + ys)[..|xs + ys| - 1] == xs + ys[..n - 1];
      DrawingsOfAppend(xs, ys[..n - 1]);
    }
  }

  lemma AnyAlarmAppend(xs: seq<Box>, ys: seq<Box>)
    ensures AnyAlarm(xs + ys) <==> AnyAlarm(xs) || AnyAlarm(ys)
  {
    var zs := xs + ys;
    if AnyAlarm(zs) {
      var k :| 0 <= k < |zs| && IsAlarmClass(zs[k].className);
      if k >= |xs| {
        assert ys[k - |xs|] == zs[k];
      }
    }
    if AnyAlarm(xs) {
      var k :| 0 <= k < |xs| && IsAlarmClass(xs[k].className);
      assert zs[k] == xs[k];
    }
    if AnyAlarm(ys) {
      var k :| 0 <= k < |ys| && IsAlarmClass(ys[k].className);
      assert zs[|xs| + k] == ys[k];
    }
  }

  // ---- Properties of the annotation pass ----

  lemma {:induction false} DrawingsOfLength(boxes: seq<Box>)
    ensures |DrawingsOf(boxes)| == 2 * |boxes|
  {
    if boxes != [] {
      DrawingsOfLength(boxes[..|boxes| - 1]);
    }
  }

  /**
   * Box k of the input owns drawings 2k and 2k+1: its rectangle and its label,
   * both in the colour of its class.
   */
  lemma {:induction false} DrawingsOfAt(boxes: seq<Box>, k: nat)
    requires k < |boxes|
    ensures |DrawingsOf(boxes)| == 2 * |boxes|
    ensures var b := boxes[k];
      DrawingsOf(boxes)[2 * k] == RectangleDraw(Point(b.rect.x1, b.rect.y1), Point(b.rect.x2, b.rect.y2), BoxColor(b.className), 2)
    ensures var b := boxes[k];
      DrawingsOf(boxes)[2 * k + 1] == TextDraw(BoxLabel(b.className, b.conf), Point(b.rect.x1, b.rect.y1 - 10), 0.5, BoxColor(b.className), 2)
  {
    var n := |boxes|;
    DrawingsOfLength(boxes);
    DrawingsOfLength(boxes[..n - 1]);
    if k < n - 1 {
      DrawingsOfAt(boxes[..n - 1], k);
    }
  }

  /** A box is visited by the nested loops exactly when it belongs to one of the results. */
  lemma {:induction false} AllBoxesMembers(results: seq<DetectorResult>)
    ensures forall i, j :: 0 <= i < |results| && 0 <= j < |results[i].boxes| ==>
      results[i].boxes[j] in AllBoxes(results)
    ensures forall b :: b in AllBoxes(results) ==> exists i :: 0 <= i < |results| && b in results[i].boxes
  {
    if results != [] {
      var n := |results|;
      var init := results[..n - 1];
      AllBoxesMembers(init);
      forall i, j | 0 <= i < n && 0 <= j < |results[i].boxes|
        ensures results[i].boxes[j] in AllBoxes(results)
      {
        if i < n - 1 {
          assert results[i] == init[i];
        }
      }
      forall b | b in AllBoxes(results)
        ensures exists i :: 0 <= i < n && b in results[i].boxes
      {
        if b in AllBoxes(init) {
          var i :| 0 <= i < n - 1 && b in init[i].boxes;
          assert results[i] == init[i];
        }
      }
    }
  }

  /** The alert flag is set exactly when some box of some result is `fire` or `smoke`. */
  lemma AlertIff(results: seq<DetectorResult>)
    ensures Alert(results) <==>
      exists i, j :: 0 <= i < |results| && 0 <= j < |results[i].boxes| && IsAlarmClass(results[i].boxes[j].className)
  {
    AllBoxesMembers(results);
    var all := AllBoxes(results);
    if Alert(results) {
      var k :| 0 <= k < |all| && IsAlarmClass(all[k].className);
      assert all[k] in all;
      var i :| 0 <= i < |results| && all[k] in results[i].boxes;
      var j :| 0 <= j < |results[i].boxes| && results[i].boxes[j] == all[k];
    }
    if exists i, j :: 0 <= i < |results| && 0 <= j < |results[i].boxes| && IsAlarmClass(results[i].boxes[j].className) {
      var i, j :| 0 <= i < |results| && 0 <= j < |results[i].boxes| && IsAlarmClass(results[i].boxes[j].className);
      var b := results[i].boxes[j];
      assert b in all;
      var k :| 0 <= k < |all| && all[k] == b;
    }
  }

  /** The total number of boxes over all results, counted from the first result on. */
  function TotalBoxes(results: seq<DetectorResult>): nat
  {
    if results == [] then 0 else |results[0].boxes| + TotalBoxes(results[1..])
  }

  lemma {:induction false} TotalBoxesSnoc(results: seq<DetectorResult>, r: DetectorResult)
    ensures TotalBoxes(results + [r]) == TotalBoxes(results) + |r.boxes|
  {
    if results == [] {
      assert [r][1..] == [];
    } else {
      assert (results + [r])[1..] == results[1..] + [r];
      TotalBoxesSnoc(results[1..], r);
    }
  }

  /** The nested loops visit as many boxes as the results hold in all. */
  lemma {:induction false} AllBoxesLength(results: seq<DetectorResult>)
    ensures |AllBoxes(results)| == TotalBoxes(results)
  {
    if results != [] {
      var init := results[..|results| - 1];
      AllBoxesLength(init);
      TotalBoxesSnoc(init, results[|results| - 1]);
      assert init + [results[|results| - 1]] == results;
    }
  }

  /**
   * The annotated frame: with N boxes in all it holds exactly 2N box drawings,
   * followed by the banner exactly when the frame is alerting.
   */
  lemma AnnotatedShape(pixels: Pixels, results: seq<DetectorResult>)
    ensures var f := Annotated(pixels, results);
      f.pixels == pixels &&
      |f.drawings| == 2 * TotalBoxes(results) + (if Alert(results) then 1 else 0) &&
      f.drawings[..2 * TotalBoxes(results)] == DrawingsOf(AllBoxes(results))
    ensures Banner in Annotated(pixels, results).drawings <==> Alert(results)
  {
    var all := AllBoxes(results);
    AllBoxesLength(results);
    DrawingsOfLength(all);
    BannerNotBoxDrawing(all);
    var f := Annotated(pixels, results);
    assert f.drawings[..|DrawingsOf(all)|] == DrawingsOf(all);
  }

  /** The banner is never one of the box drawings. */
  lemma BannerNotBoxDrawing(boxes: seq<Box>)
    ensures Banner !in DrawingsOf(boxes)
  {
    var ds := DrawingsOf(boxes);
    DrawingsOfLength(boxes);
    forall m | 0 <= m < |ds|
      ensures ds[m] != Banner
    {
      DrawingsOfAt(boxes, m / 2);
    }
  }
}
