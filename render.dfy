// What one successful detection cycle of the browser client derives from
// the server's detections: whether each one is of the alarm class, the
// colour and geometry of its box and label on the canvas, and the row it
// adds to the detection list. Pixels, fonts and markup are not modelled:
// a drawing and a row are records of the values the client computes.

module Render {

  /** The class whose presence raises the alarm, compared in lower case. */
  const ALARM_CLASS: string := "sofa"
  /** Stroke and label colour of an alarm-class detection. */
  const ALERT_COLOUR: string := "#FF3F6B"
  /** Stroke and label colour of every other detection. */
  const NORMAL_COLOUR: string := "#00D1FF"
  /** Height of the label background. */
  const TEXT_HEIGHT: int := 25
  /** How far below the box's top edge the label goes when it does not fit above. */
  const LABEL_DROP: int := 10

  /** A box as received: corners (x1, y1) and (x2, y2), in whatever pixel
      space the server used. */
  datatype Box = Box(x1: int, y1: int, x2: int, y2: int)

  /** One entry of the server's "detections" array as the client reads it
      (the server builds it as a Rescale.Detection); the confidence is only
      carried along and shown. */
  datatype Detection = Detection(cls: string, confidence: real, box: Box)

  /** A row of the detection list: the placeholder shown while offline, or
      one detection's class and confidence, styled as alarm or not. */
  datatype Row = Placeholder | Item(cls: string, confidence: real, alarm: bool)

  /** What is drawn for one detection: a stroked rectangle at (x, y) of the
      given size, and a label of height TEXT_HEIGHT whose top is at
      labelTop, showing the class and confidence, both in one colour. */
  datatype Drawing = Drawing(colour: string, x: int, y: int, width: int, height: int,
                             labelTop: int, labelClass: string, labelConfidence: real)

  /** ASCII lower-casing of one character. */
  function LowerChar(c: char): char
  {
    if 'A' <= c <= 'Z' then (c as int + 32) as char else c
  }

  /** Lower-casing of a class name, character by character. */
  function ToLower(s: string): string
  {
    seq(|s|, i requires 0 <= i < |s| => LowerChar(s[i]))
  }

  /** A detection is alarm-class when its lower-cased class is the alarm class. */
  predicate IsAlarmClass(d: Detection)
  {
    ToLower(d.cls) == ALARM_CLASS
  }

  function Colour(d: Detection): string
  {
    if IsAlarmClass(d) then ALERT_COLOUR else NORMAL_COLOUR
  }

  /** Top of the label: above the box when there is room for it, otherwise
      just inside the box's top edge. */
  function LabelTop(y1: int): int
  {
    if y1 > TEXT_HEIGHT then y1 - TEXT_HEIGHT else y1 + LABEL_DROP
  }

  function DrawingOf(d: Detection): Drawing
  {
    Drawing(Colour(d), d.box.x1, d.box.y1, d.box.x2 - d.box.x1, d.box.y2 - d.box.y1,
            LabelTop(d.box.y1), d.cls, d.confidence)
  }

  function RowOf(d: Detection): Row
  {
    Item(d.cls, d.confidence, IsAlarmClass(d))
  }

  /** The rows appended for ds, in order (defined on the last element so
      that it grows the way the client's loop does). */
  function Rows(ds: seq<Detection>): seq<Row>
  {
    if ds == [] then [] else Rows(ds[..|ds| - 1]) + [RowOf(ds[|ds| - 1])]
  }

  /** The drawings made for ds, in order. */
  function Drawings(ds: seq<Detection>): seq<Drawing>
  {
    if ds == [] then [] else Drawings(ds[..|ds| - 1]) + [DrawingOf(ds[|ds| - 1])]
  }

  /** The client's accumulator: false at first, set once an alarm-class
      detection has been seen. */
  predicate AnyAlarm(ds: seq<Detection>)
  {
    if ds == [] then false else AnyAlarm(ds[..|ds| - 1]) || IsAlarmClass(ds[|ds| - 1])
  }

  /** Auxiliary: lower-casing keeps the length and maps every character. */
  lemma ToLowerAt(s: string)
    ensures |ToLower(s)| == |s|
    ensures forall i :: 0 <= i < |s| ==> ToLower(s)[i] == LowerChar(s[i])
  {
  }

  /** Lower-casing a character yields a given lower-case letter exactly when
      the character is that letter or its capital. */
  lemma LowerCharIs(c: char, lower: char)
    requires 'a' <= lower <= 'z'
    ensures LowerChar(c) == lower <==> c == lower || c as int == lower as int - 32
  {
  }

  /** The alarm test is a case-insensitive match on exactly the letters
      s, o, f, a: "sofa", "Sofa" and "SOFA" all raise the alarm, "sofas" and
      "so fa" do not. */
  lemma AlarmClassIsCaseInsensitiveSofa(d: Detection)
    ensures IsAlarmClass(d) <==>
      |d.cls| == 4 &&
      (d.cls[0] == 's' || d.cls[0] == 'S') && (d.cls[1] == 'o' || d.cls[1] == 'O') &&
      (d.cls[2] == 'f' || d.cls[2] == 'F') && (d.cls[3] == 'a' || d.cls[3] == 'A')
  {
    ToLowerAt(d.cls);
    if |d.cls| == 4 {
      LowerCharIs(d.cls[0], 's');
      LowerCharIs(d.cls[1], 'o');
      LowerCharIs(d.cls[2], 'f');
      LowerCharIs(d.cls[3], 'a');
      if IsAlarmClass(d) {
        assert ToLower(d.cls)[0] == 's' && ToLower(d.cls)[1] == 'o';
        assert ToLower(d.cls)[2] == 'f' && ToLower(d.cls)[3] == 'a';
      } else {
        assert ToLower(d.cls) != ALARM_CLASS;
        var k :| 0 <= k < 4 && ToLower(d.cls)[k] != ALARM_CLASS[k];
      }
    } else {
      assert |ToLower(d.cls)| != |ALARM_CLASS|;
    }
  }

  /** The colour is a total choice between the two: alarm colour exactly
      for alarm-class detections. */
  lemma ColourChoice(d: Detection)
    ensures Colour(d) == ALERT_COLOUR <==> IsAlarmClass(d)
    ensures Colour(d) == NORMAL_COLOUR <==> !IsAlarmClass(d)
  {
  }

  /** The box is drawn exactly where the server put it: its rectangle spans
      the received corners, with no scaling to the canvas. */
  lemma DrawingIsUnscaled(d: Detection)
    ensures DrawingOf(d).x == d.box.x1 && DrawingOf(d).y == d.box.y1
    ensures DrawingOf(d).x + DrawingOf(d).width == d.box.x2
    ensures DrawingOf(d).y + DrawingOf(d).height == d.box.y2
  {
  }

  /** When there is room above the box, the label sits right on top of it;
      otherwise it starts LABEL_DROP below the top edge. For a box whose top
      is on the canvas the label's top is on the canvas too. */
  lemma LabelPlacement(y1: int)
    ensures y1 > TEXT_HEIGHT ==> LabelTop(y1) + TEXT_HEIGHT == y1
    ensures y1 <= TEXT_HEIGHT ==> LabelTop(y1) == y1 + LABEL_DROP
    ensures y1 >= 0 ==> LabelTop(y1) >= 1
  {
  }

  /** One row per detection, in received order, each showing that
      detection's class and confidence and styled by its alarm test. */
  lemma {:induction false} RowsMatchDetections(ds: seq<Detection>)
    ensures |Rows(ds)| == |ds|
    ensures forall i :: 0 <= i < |ds| ==> Rows(ds)[i] == RowOf(ds[i])
  {
    if ds != [] {
      var init := ds[..|ds| - 1];
      RowsMatchDetections(init);
      forall i | 0 <= i < |ds| ensures Rows(ds)[i] == RowOf(ds[i]) {
        if i < |ds| - 1 {
          assert Rows(ds)[i] == Rows(init)[i];
          assert ds[i] == init[i];
        }
      }
    }
  }

  /** One drawing per detection, in received order. */
  lemma {:induction false} DrawingsMatchDetections(ds: seq<Detection>)
    ensures |Drawings(ds)| == |ds|
    ensures forall i :: 0 <= i < |ds| ==> Drawings(ds)[i] == DrawingOf(ds[i])
  {
    if ds != [] {
      var init := ds[..|ds| - 1];
      DrawingsMatchDetections(init);
      forall i | 0 <= i < |ds| ensures Drawings(ds)[i] == DrawingOf(ds[i]) {
        if i < |ds| - 1 {
          assert Drawings(ds)[i] == Drawings(init)[i];
          assert ds[i] == init[i];
        }
      }
    }
  }

  /** The accumulator ends true exactly when some detection is alarm-class;
      no confidence enters the decision. */
  lemma {:induction false} AnyAlarmIff(ds: seq<Detection>)
    ensures AnyAlarm(ds) <==> exists i :: 0 <= i < |ds| && IsAlarmClass(ds[i])
  {
    if ds != [] {
      var init := ds[..|ds| - 1];
      AnyAlarmIff(init);
      if AnyAlarm(init) {
        var i :| 0 <= i < |init| && IsAlarmClass(init[i]);
        assert ds[i] == init[i];
      }
      if exists i :: 0 <= i < |ds| && IsAlarmClass(ds[i]) {
        var i :| 0 <= i < |ds| && IsAlarmClass(ds[i]);
        if i < |ds| - 1 {
          assert init[i] == ds[i];
        }
      }
    }
  }
}
