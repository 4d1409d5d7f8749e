# Frame queue, archive writer, detection filter, metadata lookup and box drawing — a Dafny model

This project models the plain data handling at the centre of the MP_video_processing desktop
video analyser, a PySide6 application that plays a video, runs YOLO detection and DeepSort
tracking on each frame, draws the tracked boxes, and can archive frames to a video file.
What is modelled, module by module (one Dafny module per source file):

- `VideoUtils` — `VideoQueue` (src/core/video_utils/video_queue.py), the shared frame FIFO.
  All of its state is class attributes, so the program has exactly one queue; the model is
  one `VideoQueue` object that every caller holds. Every method except `configure` takes the
  class lock for its whole body; `configure` is a single unlocked attribute store. Either way
  each Dafny method is one atomic step. The docstrings say the oldest frame is
  dropped once `max_size` is reached, but the deque is created without `maxlen`, `configure`
  only stores the number, and `enqueue` always appends. The model follows the code: an
  unbounded FIFO whose `maxSize` is stored and never read. A value-level account of a run of
  operations (`Step`, `Replay`, `Dequeued`, `Enqueued`) states the properties that relate
  several calls: FIFO order and the size count since the last `clear`.
- `ArchiveProcessing` — `ArchiveProcessor` (src/core/archive_processor.py). The OpenCV video
  writer is a log of the frames written and of its releases. `write_frame` drains the queue
  into the writer in FIFO order, clears the queue and releases the writer. The constructor's
  singleton guard asks whether the *class* has an attribute `instance`, but the constructor
  sets that attribute on the *new object*, so the guard never fires: the model keeps both the
  class object (`ArchiveProcessorClass`) and the object attribute, and proves that a second
  construction succeeds.
- `ModelProcessor` — the data handling of `Model.process_frame`
  (src/core/model_processor.py). YOLO's output is an input sequence of results, each a
  sequence of boxes `(x1, y1, x2, y2, conf, cls)`; DeepSort is an oracle function from the
  detections it is fed to the tracks it reports. Coordinates and confidences are Dafny
  `real`s: the code only subtracts and compares them, so exact rationals suffice. Python's
  `int()` on a float is truncation toward zero (`Trunc`).
- `MetadataProcessing` — `MetadataProcessor` (src/core/metadata_processor.py): lazy,
  at-most-once extraction through `MediaInfo.parse` (an external call that counts its
  invocations and answers from a fixed description of each file), then a find-first lookup
  of the General, Video and Audio tracks.
- `VideoPlayer` — only `draw_bounding_boxes` (src/gui/video_player.py): `cv2.rectangle` and
  `cv2.putText` are appends to the log of drawing commands of the image being annotated.
- `Wrappers` (`Option`, `Result`) and `Sequences` (associativity of concatenation) are
  helpers.

## Model

| member | source | states |
|---|---|---|
| `VideoUtils.VideoQueue.constructor` | src/core/video_utils/video_queue.py:12-15 | the shared queue starts empty with no maximum |
| `VideoUtils.VideoQueue.Configure` | src/core/video_utils/video_queue.py:18-27 | the maximum becomes the argument and the frames are unchanged |
| `VideoUtils.VideoQueue.Enqueue` | src/core/video_utils/video_queue.py:30-39 | the frame is appended at the back, earlier frames untouched, nothing evicted whatever the maximum |
| `VideoUtils.VideoQueue.Dequeue` | src/core/video_utils/video_queue.py:42-50 | on a non-empty queue returns the front frame and removes exactly it; on an empty queue returns None and changes nothing |
| `VideoUtils.VideoQueue.Peek` | src/core/video_utils/video_queue.py:53-61 | returns the frame dequeue would return (None iff empty) and leaves the queue unchanged |
| `VideoUtils.VideoQueue.IsEmpty` | src/core/video_utils/video_queue.py:64-72 | true exactly when the queue holds no frame |
| `VideoUtils.VideoQueue.Size` | src/core/video_utils/video_queue.py:75-83 | the number of queued frames |
| `VideoUtils.VideoQueue.Get` | src/core/video_utils/video_queue.py:86-94 | all frames front to back, queue unchanged |
| `VideoUtils.VideoQueue.Clear` | src/core/video_utils/video_queue.py:97-102 | the queue becomes empty, the maximum is kept |
| `VideoUtils.Apply` | src/core/video_utils/video_queue.py:18-102 | each operation, sent to its `VideoQueue` method, leaves the contents `Step` gives and returns the frame a successful dequeue removes |
| `VideoUtils.Run` | src/core/video_utils/video_queue.py:30-102 | running any sequence of operations through the `VideoQueue` methods leaves exactly the contents `Replay` computes and returns exactly the frames `Dequeued` lists, so the run lemmas hold of the class |
| `VideoUtils.StepKeepsOrder` | src/core/video_utils/video_queue.py:38-50 | any single operation other than clear neither loses, duplicates nor reorders a frame |
| `VideoUtils.FifoOrder` | src/core/video_utils/video_queue.py:38-50 | over any run without clear, the frames dequeued followed by those still queued equal the initial frames followed by the frames enqueued, in order |
| `VideoUtils.ClearForgetsHistory` | src/core/video_utils/video_queue.py:101-102 | the contents after a clear depend only on the operations after it |
| `VideoUtils.SizeSinceLastClear` | src/core/video_utils/video_queue.py:82-83 | the size equals the enqueues minus the dequeues that found a frame, counted since the last clear |
| `VideoUtils.FifoTwoFrames` | src/core/video_utils/video_queue.py:38-50 | enqueuing a then b on an empty queue, two dequeues return a then b and leave it empty |
| `VideoUtils.ConfiguredMaximumNotEnforced` | src/core/video_utils/video_queue.py:6-39 | with a configured maximum of 1, two enqueues leave both frames queued |
| `ArchiveProcessing.VideoWriter.constructor` | src/core/archive_processor.py:20 | a new writer holds its path, codec, fps and frame size, has written nothing and is open |
| `ArchiveProcessing.VideoWriter.Write` | src/core/archive_processor.py:31 | an open writer appends the frame to its output; a released one ignores it |
| `ArchiveProcessing.VideoWriter.Release` | src/core/archive_processor.py:34 | the writer is released and the release is counted once more; the output is unchanged |
| `ArchiveProcessing.ArchiveProcessorClass.constructor` | src/core/archive_processor.py:7-21 | the class object has no attribute `instance` |
| `ArchiveProcessing.ArchiveProcessor.constructor` | src/core/archive_processor.py:17-21 | output path, fps and frame size are stored unchanged, a fresh XVID writer is opened with them, and the object's own `instance` is set |
| `ArchiveProcessing.NewArchiveProcessor` | src/core/archive_processor.py:8-21 | raises the singleton error iff the class has `instance`; otherwise returns a fresh processor built from the arguments, with a fresh open XVID writer opened on the same path, fps and frame size that has written nothing and was never released |
| `ArchiveProcessing.SecondConstructionSucceeds` | src/core/archive_processor.py:13-21 | because the guard reads the class and the constructor writes the object, two constructions in a row both succeed |
| `ArchiveProcessing.ArchiveProcessor.WriteFrame` | src/core/archive_processor.py:23-34 | an open writer receives exactly the queue's initial frames in FIFO order (n frames for a queue of n); the queue ends empty; the writer is released exactly once, also when nothing was written |
| `ModelProcessor.Trunc` | src/core/model_processor.py:26 | `int()` of a float truncates toward zero: the unique integer within distance below 1 of x on the side of zero |
| `ModelProcessor.BuildDetections` | src/core/model_processor.py:17-27 | the nested loops produce exactly the filtered detections of all boxes, results in order and boxes in order |
| `ModelProcessor.ProcessFrame` | src/core/model_processor.py:12-40 | the result is the confirmed projection of what the tracker reports for the filtered detections |
| `ModelProcessor.FilterOneBox` | src/core/model_processor.py:20-27 | a box is kept iff conf > 0.5 strictly, x2 > x1 and y2 > y1, and is recorded as ([x1, y1, x2 - x1, y2 - y1], conf, int(cls)) |
| `ModelProcessor.FilteredAppend` | src/core/model_processor.py:18-27 | filtering distributes over concatenation: kept detections keep result-then-box order |
| `ModelProcessor.FilteredMembership` | src/core/model_processor.py:22-27 | a detection is in `bbs` iff some box passed the filter and was recorded as that detection |
| `ModelProcessor.FilteredSound` | src/core/model_processor.py:22-24 | every detection in `bbs` has confidence above 0.5 and positive width and height |
| `ModelProcessor.FilteredLength` | src/core/model_processor.py:17-27 | filtering never yields more detections than boxes |
| `ModelProcessor.FlattenLength` | src/core/model_processor.py:18-19 | iterating all results visits every box: as many boxes as the results hold together |
| `ModelProcessor.DetectionsBounded` | src/core/model_processor.py:17-27 | `bbs` is never longer than the total number of boxes |
| `ModelProcessor.ConfirmedObjectsAppend` | src/core/model_processor.py:33-40 | the projection distributes over concatenation: output order is tracker order |
| `ModelProcessor.ConfirmedObjectsMembership` | src/core/model_processor.py:33-40 | an entry is in the output iff some confirmed track has exactly that bbox and track id |
| `ModelProcessor.ConfirmedObjectsLength` | src/core/model_processor.py:33-40 | one output entry per confirmed track, never more than the tracks |
| `ModelProcessor.NoDetectionsNoTracks` | src/tests/test_model_processor.py:105-126 | no boxes and no tracks give an empty result |
| `ModelProcessor.FiltersDetectionsAndTracks` | src/tests/test_model_processor.py:129-171 | of a valid, a low-confidence and a zero-size box only the valid one is detected; of a confirmed and an unconfirmed track only the confirmed one is returned |
| `MetadataProcessing.FirstOfType` | src/core/metadata_processor.py:15-34 | None iff no track has the type; otherwise the payload of a track of that type with no earlier track of that type |
| `MetadataProcessing.FirstOfTypeAt` | src/core/metadata_processor.py:17-19 | the first matching track decides the answer, whatever follows it |
| `MetadataProcessing.FindFirstTrack` | src/core/metadata_processor.py:17-20 | the scan with early return yields the first match's payload, or None |
| `MetadataProcessing.MediaInfo.constructor` | src/tests/test_metadata_processor.py:45-56 | the parser stand-in answers from the given description and has been called zero times |
| `MetadataProcessing.MediaInfo.Parse` | src/core/metadata_processor.py:12 | parsing returns the file's tracks and counts one more call |
| `MetadataProcessing.MetadataProcessor.constructor` | src/core/metadata_processor.py:5-8 | the path is stored and `data` starts as None |
| `MetadataProcessing.MetadataProcessor.ExtractMetadata` | src/core/metadata_processor.py:10-13 | `data` becomes the parsed tracks of the stored path, with one parser call |
| `MetadataProcessing.MetadataProcessor.GetGeneralInfo` | src/core/metadata_processor.py:15-20 | the first General track's payload, None iff there is none |
| `MetadataProcessing.MetadataProcessor.GetVideoInfo` | src/core/metadata_processor.py:22-27 | the first Video track's payload, None iff there is none |
| `MetadataProcessing.MetadataProcessor.GetAudioInfo` | src/core/metadata_processor.py:29-34 | the first Audio track's payload, None iff there is none |
| `MetadataProcessing.MetadataProcessor.GetMetadata` | src/core/metadata_processor.py:36-43 | parses only when `data` is None, leaves set `data` unchanged, and returns (general, video, audio) in that order |
| `MetadataProcessing.GetMetadataRepeatedly` | src/tests/test_metadata_processor.py:105-119 | any number of calls on a fresh processor parse exactly once and all return the same triple |
| `MetadataProcessing.MissingTracks` | src/tests/test_metadata_processor.py:76-102 | no tracks give (None, None, None); a missing type gives None in its own slot only |
| `VideoPlayer.DrawBoundingBoxes` | src/gui/video_player.py:15-40 | the image gains exactly the drawing commands for the objects, in list order, and the same image is returned |
| `VideoPlayer.DrawCommandsAppend` | src/gui/video_player.py:26-39 | drawing a concatenated list issues the commands of each part in turn |
| `VideoPlayer.DrawCommandsLength` | src/gui/video_player.py:26-39 | two commands per tracked object |
| `VideoPlayer.DrawCommandsAt` | src/gui/video_player.py:26-39 | command 2i is the rectangle (x, y)-(x + w, y + h) of object i with truncated bbox values, command 2i + 1 its text "ID <id>" at (x, y - 10) in font 0 at scale 0.5 |
| `VideoPlayer.AllCommandsGreenThickness2` | src/gui/video_player.py:30-38 | every command uses colour (0, 255, 0) and thickness 2 |
| `VideoPlayer.NoObjectsNoDrawing` | src/gui/video_player.py:26-40 | an empty list issues no command |

## Left out

- The `threading.Lock` of `VideoQueue`: each operation (locked, or the single unlocked store of `configure`) is one atomic method; interleavings are not modelled.
- `ArchiveProcessor.WriteFrame`: its contract assumes no other thread uses the shared queue between `frame.size()` and `frame.clear()`; the source locks each call, not the whole drain, so a frame enqueued meanwhile is discarded by `clear()`, and a frame dequeued elsewhere makes `dequeue()` return None, which is then passed to `write`. Neither is modelled.
- `VideoQueue` eviction at `max_size`: promised by the docstrings (video_queue.py:9, :22-25, :32-33) but not done by the code, which the model follows.
- `VideoQueue` frames are an arbitrary type and `dequeue`/`peek` return an `Option`; a `None` frame stored in the queue, which Python cannot tell apart from "empty", is not distinguished.
- `ArchiveProcessor`: the numeric fourcc code is represented by the codec name "XVID"; failure to open the writer is not checked by the code and not modelled (the test file describes an IOError and a `video_writer` attribute the source lacks).
- `VideoWriter.Write` after `release` is taken to be ignored, as OpenCV does; encoding, file contents and frame-size checks are not modelled.
- `Model.__init__` and the YOLO and DeepSort calls: YOLO's results are an input; the tracker is a pure function of the detections (its internal state and the `frame` argument folded in). `zip` over columns of unequal length does not arise: each box is one record.
- Numeric precision: coordinates and confidences are exact reals, not float32 tensors.
- Track ids are modelled as the strings DeepSort reports; an integer id printed by the f-string is represented by its decimal text.
- `MetadataProcessor`: `to_data()` returns a dict in pymediainfo, so with the real library the getters' `self.data.tracks` (metadata_processor.py:17) raises AttributeError on every `get_metadata` call, after `self.data` is set (so the parser still runs only once); `.track_type` would be read on the elements of `.tracks`. The model reduces parsing to a list of (type, payload) tracks: the find-first lookup it proves is what the code evidently intends, not what it reaches with the real library. Parser failures (a missing file) are not modelled; the tests' JSON strings are not what the code returns and are not modelled.
- `draw_bounding_boxes`: pixels, clipping and font rendering are not modelled; only the command log is.
- Qt GUI (main window, dialogs, settings, metadata viewer, the `VideoPlayer` window, timer and pixmap rendering): presentation only.
- `process_frames_worker`, `capture_frames`, `display_frame`, process termination and `InitWorker`: multiprocessing and thread orchestration.
- `StreamProcessor`, `VideoProcessor`, colour conversion and the top-level scripts: thin OpenCV wrappers and I/O.
