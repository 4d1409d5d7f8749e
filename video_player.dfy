/**
 * `draw_bounding_boxes` of src/gui/video_player.py. OpenCV's `cv2.rectangle` and
 * `cv2.putText` are modelled as appends to the log of drawing commands applied to the image.
 */
module VideoPlayer {
  import opened ModelProcessor
  import opened Sequences

  datatype Point = Point(x: int, y: int)

  /** An OpenCV colour, in BGR order. */
  datatype Color = Color(blue: int, green: int, red: int)

  datatype DrawCommand =
    | Rectangle(corner: Point, oppositeCorner: Point, color: Color, thickness: int)
    | PutText(text: string, origin: Point, font: int, fontScale: real, color: Color, thickness: int)

  const BoxColor: Color := Color(0, 255, 0)
  const LineThickness: int := 2
  /** `cv2.FONT_HERSHEY_SIMPLEX` */
  const FontHersheySimplex: int := 0
  const LabelScale: real := 0.5
  /** How far above the box's top edge the label is anchored. */
  const LabelRise: int := 10

  /** A frame being annotated; only the drawing applied to it is recorded. */
  class Image {
    var draws: seq<DrawCommand>

    constructor ()
      ensures draws == []
    {
      draws := [];
    }
  }

  /** The two drawing calls one loop iteration makes for a tracked object. */
  function TrackCommands(o: TrackedObject): seq<DrawCommand>
  {
    var x, y, w, h := Trunc(o.bbox.left), Trunc(o.bbox.top), Trunc(o.bbox.width), Trunc(o.bbox.height);
    [ Rectangle(Point(x, y), Point(x + w, y + h), BoxColor, LineThickness),
      PutText("ID " + o.trackId, Point(x, y - LabelRise), FontHersheySimplex, LabelScale, BoxColor, LineThickness) ]
  }

  /** All drawing calls for a list of tracked objects, in list order. */
  function DrawCommands(objects: seq<TrackedObject>): seq<DrawCommand>
  {
    if |objects| == 0 then [] else TrackCommands(objects[0]) + DrawCommands(objects[1..])
  }

  /** `draw_bounding_boxes`: annotates `img` in place and returns that same image. */
  method DrawBoundingBoxes(img: Image, objects: seq<TrackedObject>) returns (result: Image)
    modifies img
    ensures result == img
    ensures img.draws == old(img.draws) + DrawCommands(objects)
  {
    for i := 0 to |objects|
      invariant img.draws == old(img.draws) + DrawCommands(objects[..i])
    {
      var track := objects[i];
      var x, y, w, h := Trunc(track.bbox.left), Trunc(track.bbox.top), Trunc(track.bbox.width), Trunc(track.bbox.height);
      var text := "ID " + track.trackId;
      ghost var before := img.draws;
      img.draws := img.draws + [Rectangle(Point(x, y), Point(x + w, y + h), BoxColor, LineThickness)];
      img.draws := img.draws + [PutText(text, Point(x, y - LabelRise), FontHersheySimplex, LabelScale, BoxColor, LineThickness)];
      assert img.draws == before + TrackCommands(track);
      OneMoreObject(objects, i);
    }
    assert objects[..|objects|] == objects;
    result := img;
  }

  lemma OneMoreObject(objects: seq<TrackedObject>, i: nat)
    requires i < |objects|
    ensures DrawCommands(objects[..i + 1]) == DrawCommands(objects[..i]) + TrackCommands(objects[i])
  {
    DrawCommandsAppend(objects[..i], [objects[i]]);
    assert objects[..i] + [objects[i]] == objects[..i + 1];
    assert [objects[i]][1..] == [];
    assert DrawCommands([objects[i]]) == TrackCommands(objects[i]) + [];
  }

  /** Drawing two lists one after the other issues the commands of their concatenation. */
  lemma {:induction false} DrawCommandsAppend(a: seq<TrackedObject>, b: seq<TrackedObject>)
    ensures DrawCommands(a + b) == DrawCommands(a) + DrawCommands(b)
    decreases |a|
  {
    if |a| == 0 {
      assert a + b == b;
    } else {
      assert (a + b)[0] == a[0];
      assert (a + b)[1..] == a[1..] + b;
      DrawCommandsAppend(a[1..], b);
      AppendAssoc(TrackCommands(a[0]), DrawCommands(a[1..]), DrawCommands(b));
    }
  }

  /**
   * Exactly one rectangle and one label per tracked object, in list order: command 2i is the
   * rectangle from (x, y) to (x + w, y + h) and command 2i + 1 is the text "ID <id>" at
   * (x, y - 10), where x, y, w, h are the bbox values truncated to integers.
   */
  lemma {:induction false} DrawCommandsAt(objects: seq<TrackedObject>, i: nat)
    requires i < |objects|
    ensures |DrawCommands(objects)| == 2 * |objects|
    ensures var b := objects[i].bbox;
      var x, y, w, h := Trunc(b.left), Trunc(b.top), Trunc(b.width), Trunc(b.height);
      && DrawCommands(objects)[2 * i] == Rectangle(Point(x, y), Point(x + w, y + h), Color(0, 255, 0), 2)
      && DrawCommands(objects)[2 * i + 1] == PutText("ID " + objects[i].trackId, Point(x, y - 10), 0, 0.5, Color(0, 255, 0), 2)
    decreases |objects|
  {
    DrawCommandsLength(objects);
    if i > 0 {
      DrawCommandsAt(objects[1..], i - 1);
      assert objects[1..][i - 1] == objects[i];
    }
  }

  lemma {:induction false} DrawCommandsLength(objects: seq<TrackedObject>)
    ensures |DrawCommands(objects)| == 2 * |objects|
    decreases |objects|
  {
    if |objects| > 0 {
      DrawCommandsLength(objects[1..]);
    }
  }

  /** Every command draws in green, (0, 255, 0) in BGR, with thickness 2. */
  lemma {:induction false} AllCommandsGreenThickness2(objects: seq<TrackedObject>)
    ensures forall c :: c in DrawCommands(objects) ==> c.color == Color(0, 255, 0) && c.thickness == 2
    decreases |objects|
  {
    if |objects| > 0 {
      AllCommandsGreenThickness2(objects[1..]);
    }
  }

  /** An empty list draws nothing and leaves the image as it was. */
  lemma NoObjectsNoDrawing()
    ensures DrawCommands([]) == []
  {
  }
}
