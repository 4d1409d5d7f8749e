/**
 * The data handling of `Model.process_frame` in src/core/model_processor.py.
 *
 * YOLO's output is given as a sequence of results, each a sequence of raw boxes
 * `(x1, y1, x2, y2, conf, cls)`. The DeepSort tracker is an oracle: a function from the
 * detections it is fed to the tracks it reports (its internal state is folded into the
 * function). Coordinates and confidences are exact reals: only comparison and subtraction
 * are applied to them.
 */
module ModelProcessor {
  import opened Sequences

  /** Python's `int(x)` on a float: truncation toward zero. */
  function Trunc(x: real): (n: int)
    ensures 0.0 <= x ==> 0 <= n && n as real <= x < n as real + 1.0
    ensures x < 0.0 ==> n <= 0 && n as real - 1.0 < x <= n as real
  {
    if 0.0 <= x then x.Floor else -((-x).Floor)
  }

  /** One box of a YOLO result: corners, confidence and class, as `xyxy`, `conf` and `cls` give them. */
  datatype RawBox = RawBox(x1: real, y1: real, x2: real, y2: real, conf: real, cls: real)

  /** A box as `[left, top, width, height]`. */
  datatype Ltwh = Ltwh(left: real, top: real, width: real, height: real)

  /** One entry of `bbs`: `([x1, y1, width, height], confidence, int(cls))`. */
  datatype Detection = Detection(ltwh: Ltwh, confidence: real, classId: int)

  /** What the tracker reports of a track: `to_ltwh()`, `track_id` and `is_confirmed()`. */
  datatype Track = Track(ltwh: Ltwh, trackId: string, confirmed: bool)

  /** An element of the list `process_frame` returns: `{"bbox": ..., "track_id": ...}`. */
  datatype TrackedObject = TrackedObject(bbox: Ltwh, trackId: string)

  /** Detections at or below this confidence are dropped. */
  const ConfidenceThreshold: real := 0.5

  /** The filter of `process_frame`: confident enough, and of positive width and height. */
  predicate Keeps(b: RawBox)
  {
    b.conf > ConfidenceThreshold && b.x2 - b.x1 > 0.0 && b.y2 - b.y1 > 0.0
  }

  /** The detection recorded for a kept box. */
  function ToDetection(b: RawBox): Detection
  {
    Detection(Ltwh(b.x1, b.y1, b.x2 - b.x1, b.y2 - b.y1), b.conf, Trunc(b.cls))
  }

  /** All boxes of all results, result by result, in order. */
  function Flatten(results: seq<seq<RawBox>>): seq<RawBox>
  {
    if |results| == 0 then [] else Flatten(results[..|results| - 1]) + results[|results| - 1]
  }

  /** What one box contributes to `bbs`. */
  function KeptOf(b: RawBox): seq<Detection>
  {
    if Keeps(b) then [ToDetection(b)] else []
  }

  /** The detections kept from `boxes`, in box order. */
  function Filtered(boxes: seq<RawBox>): seq<Detection>
  {
    if |boxes| == 0 then [] else KeptOf(boxes[0]) + Filtered(boxes[1..])
  }

  /** The list `bbs` that `process_frame` hands to the tracker. */
  function Detections(results: seq<seq<RawBox>>): seq<Detection>
  {
    Filtered(Flatten(results))
  }

  /** The list comprehension that ends `process_frame`. */
  function ConfirmedObjects(tracks: seq<Track>): seq<TrackedObject>
  {
    if |tracks| == 0 then [] else ProjectionOf(tracks[0]) + ConfirmedObjects(tracks[1..])
  }

  /** What one track contributes to the output: its box and id when it is confirmed. */
  function ProjectionOf(t: Track): seq<TrackedObject>
  {
    if t.confirmed then [TrackedObject(t.ltwh, t.trackId)] else []
  }

  /** The nested loops building `bbs`: results in order, boxes in order within each result. */
  method BuildDetections(results: seq<seq<RawBox>>) returns (bbs: seq<Detection>)
    ensures bbs == Filtered(Flatten(results))
  {
    bbs := [];
    for i := 0 to |results|
      invariant bbs == Filtered(Flatten(results[..i]))
    {
      var r := results[i];
      for j := 0 to |r|
        invariant bbs == Filtered(Flatten(results[..i])) + Filtered(r[..j])
      {
        var b := r[j];
        var width, height := b.x2 - b.x1, b.y2 - b.y1;
        if b.conf > ConfidenceThreshold && width > 0.0 && height > 0.0 {
          bbs := bbs + [ToDetection(b)];
        }
        FilteredAppend(r[..j], [b]);
        assert r[..j] + [b] == r[..j + 1];
        assert [b][1..] == [];
        assert Filtered([b]) == KeptOf(b) + [];
      }
      assert results[..i + 1][..i] == results[..i];
      assert r[..|r|] == r;
      FilteredAppend(Flatten(results[..i]), r);
    }
    assert results[..|results|] == results;
  }

  /**
   * `process_frame`: builds the detections, feeds them to the tracker and keeps the confirmed
   * tracks, each as its box and id.
   */
  method ProcessFrame(results: seq<seq<RawBox>>, updateTracks: seq<Detection> -> seq<Track>)
    returns (objects: seq<TrackedObject>)
    ensures objects == ConfirmedObjects(updateTracks(Detections(results)))
  {
    var bbs := BuildDetections(results);
    var tracks := updateTracks(bbs);
    objects := ConfirmedObjects(tracks);
  }

  // ---------------------------------------------------------------------------------------
  // Properties of the detection filter

  /** Filtering distributes over concatenation, so the kept detections keep their order. */
  lemma {:induction false} FilteredAppend(a: seq<RawBox>, b: seq<RawBox>)
    ensures Filtered(a + b) == Filtered(a) + Filtered(b)
    decreases |a|
  {
    if |a| == 0 {
      assert a + b == b;
    } else {
      assert (a + b)[0] == a[0];
      assert (a + b)[1..] == a[1..] + b;
      FilteredAppend(a[1..], b);
      AppendAssoc(KeptOf(a[0]), Filtered(a[1..]), Filtered(b));
    }
  }

  /** A detection is in `bbs` exactly when some box passed the filter and was recorded as it. */
  lemma {:induction false} FilteredMembership(boxes: seq<RawBox>, d: Detection)
    ensures d in Filtered(boxes) <==> exists b :: b in boxes && Keeps(b) && d == ToDetection(b)
    decreases |boxes|
  {
    if |boxes| > 0 {
      FilteredMembership(boxes[1..], d);
      assert boxes == [boxes[0]] + boxes[1..];
      if d in Filtered(boxes[1..]) {
        var b :| b in boxes[1..] && Keeps(b) && d == ToDetection(b);
        assert b in boxes;
      }
    }
  }

  /** Every recorded detection is confident enough and has a positive size. */
  lemma FilteredSound(boxes: seq<RawBox>, d: Detection)
    requires d in Filtered(boxes)
    ensures d.confidence > ConfidenceThreshold && d.ltwh.width > 0.0 && d.ltwh.height > 0.0
  {
  }

  /** `bbs` is never longer than the number of boxes YOLO returned. */
  lemma {:induction false} FilteredLength(boxes: seq<RawBox>)
    ensures |Filtered(boxes)| <= |boxes|
    decreases |boxes|
  {
    if |boxes| > 0 {
      FilteredLength(boxes[1..]);
    }
  }

  /** Flattening keeps every box: its length is the sum of the result lengths. */
  lemma {:induction false} FlattenLength(results: seq<seq<RawBox>>)
    ensures |Flatten(results)| == TotalBoxes(results)
    decreases |results|
  {
    if |results| > 0 {
      var init := results[..|results| - 1];
      FlattenLength(init);
      TotalBoxesSnoc(init, results[|results| - 1]);
      assert init + [results[|results| - 1]] == results;
    }
  }

  /** The number of boxes over all results. */
  function TotalBoxes(results: seq<seq<RawBox>>): nat
  {
    if |results| == 0 then 0 else |results[0]| + TotalBoxes(results[1..])
  }

  lemma {:induction false} TotalBoxesSnoc(results: seq<seq<RawBox>>, r: seq<RawBox>)
    ensures TotalBoxes(results + [r]) == TotalBoxes(results) + |r|
    decreases |results|
  {
    if |results| > 0 {
      assert (results + [r])[1..] == results[1..] + [r];
      TotalBoxesSnoc(results[1..], r);
    } else {
      assert results + [r] == [r];
    }
  }

  /** `bbs` has at most as many entries as there are boxes in all results. */
  lemma DetectionsBounded(results: seq<seq<RawBox>>)
    ensures |Detections(results)| <= TotalBoxes(results)
  {
    FilteredLength(Flatten(results));
    FlattenLength(results);
  }

  /** One box: kept and recorded as `([x1, y1, x2 - x1, y2 - y1], conf, int(cls))`, or dropped. */
  lemma FilterOneBox(b: RawBox)
    ensures Filtered([b]) == if b.conf > 0.5 && b.x2 > b.x1 && b.y2 > b.y1
      then [Detection(Ltwh(b.x1, b.y1, b.x2 - b.x1, b.y2 - b.y1), b.conf, Trunc(b.cls))]
      else []
  {
  }

  // ---------------------------------------------------------------------------------------
  // Properties of the track projection

  /** The projection distributes over concatenation, so output order is tracker order. */
  lemma {:induction false} ConfirmedObjectsAppend(a: seq<Track>, b: seq<Track>)
    ensures ConfirmedObjects(a + b) == ConfirmedObjects(a) + ConfirmedObjects(b)
    decreases |a|
  {
    if |a| == 0 {
      assert a + b == b;
    } else {
      assert (a + b)[0] == a[0];
      assert (a + b)[1..] == a[1..] + b;
      ConfirmedObjectsAppend(a[1..], b);
      AppendAssoc(ProjectionOf(a[0]), ConfirmedObjects(a[1..]), ConfirmedObjects(b));
    }
  }

  /**
   * The output holds exactly the confirmed tracks, each reduced to its box and its id: an
   * entry is in the output iff some confirmed track has that box and that id.
   */
  lemma {:induction false} ConfirmedObjectsMembership(tracks: seq<Track>, o: TrackedObject)
    ensures o in ConfirmedObjects(tracks) <==>
      exists t :: t in tracks && t.confirmed && o == TrackedObject(t.ltwh, t.trackId)
    decreases |tracks|
  {
    if |tracks| > 0 {
      ConfirmedObjectsMembership(tracks[1..], o);
      assert tracks == [tracks[0]] + tracks[1..];
      if o in ConfirmedObjects(tracks[1..]) {
        var t :| t in tracks[1..] && t.confirmed && o == TrackedObject(t.ltwh, t.trackId);
        assert t in tracks;
      }
    }
  }

  /** The number of confirmed tracks. */
  function ConfirmedCount(tracks: seq<Track>): nat
  {
    if |tracks| == 0 then 0 else (if tracks[0].confirmed then 1 else 0) + ConfirmedCount(tracks[1..])
  }

  /** One output entry per confirmed track, no more. */
  lemma {:induction false} ConfirmedObjectsLength(tracks: seq<Track>)
    ensures |ConfirmedObjects(tracks)| == ConfirmedCount(tracks) <= |tracks|
    decreases |tracks|
  {
    if |tracks| > 0 {
      ConfirmedObjectsLength(tracks[1..]);
    }
  }

  // ---------------------------------------------------------------------------------------
  // The scenarios of the repository's tests

  /** No YOLO results and no tracks: the result is empty. */
  lemma NoDetectionsNoTracks(updateTracks: seq<Detection> -> seq<Track>)
    requires updateTracks([]) == []
    ensures Detections([]) == []
    ensures ConfirmedObjects(updateTracks(Detections([]))) == []
  {
  }

  /**
   * One valid, one low-confidence and one zero-size box; one confirmed and one unconfirmed
   * track: the tracker is fed only the valid box and only the confirmed track is returned.
   */
  lemma FiltersDetectionsAndTracks()
    ensures Detections([[RawBox(0.0, 0.0, 2.0, 2.0, 0.6, 0.0),
                         RawBox(5.0, 5.0, 8.0, 8.0, 0.1, 0.0),
                         RawBox(10.0, 10.0, 10.0, 10.0, 0.9, 0.0)]])
      == [Detection(Ltwh(0.0, 0.0, 2.0, 2.0), 0.6, 0)]
    ensures ConfirmedObjects([Track(Ltwh(0.0, 0.0, 2.0, 2.0), "42", true),
                              Track(Ltwh(5.0, 5.0, 3.0, 3.0), "99", false)])
      == [TrackedObject(Ltwh(0.0, 0.0, 2.0, 2.0), "42")]
  {
  }
}
