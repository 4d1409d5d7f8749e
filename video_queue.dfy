/**
 * The shared frame FIFO of src/core/video_utils/video_queue.py.
 *
 * In the source every attribute of `VideoQueue` is a class attribute, so the whole program
 * shares one deque. Here that shared state is one `VideoQueue` object whose reference every
 * caller holds. Every operation except `configure` takes the class lock for its whole body;
 * `configure` is a single unlocked attribute store. Either way each method below is one
 * atomic step.
 */
module VideoUtils {
  import opened Wrappers
  import opened Sequences

  /** What `dequeue` and `peek` return for a queue holding `frames`: the oldest frame, if any. */
  function Front<T>(frames: seq<T>): (r: Option<T>)
    ensures r.None? <==> |frames| == 0
    ensures r.Some? ==> r.value == frames[0]
  {
    if |frames| == 0 then None else Some(frames[0])
  }

  /** The contents left by `dequeue`: the oldest frame removed, or nothing changed when empty. */
  function PopFront<T>(frames: seq<T>): (r: seq<T>)
    ensures |frames| > 0 ==> |r| == |frames| - 1 && frames == [frames[0]] + r
    ensures |frames| == 0 ==> r == frames
  {
    if |frames| == 0 then frames else frames[1..]
  }

  class VideoQueue<T> {
    /** The deque `_queue`, front (oldest) first. */
    var frames: seq<T>
    /** `_max_size`: stored by `configure`, read by nothing. */
    var maxSize: Option<int>

    /** The class attributes as the module defines them: an empty deque and no maximum. */
    constructor ()
      ensures frames == [] && maxSize == None
    {
      frames := [];
      maxSize := None;
    }

    /** `configure`: records the maximum and leaves the frames alone. */
    method Configure(newMaxSize: Option<int>)
      modifies this
      ensures maxSize == newMaxSize
      ensures frames == old(frames)
    {
      maxSize := newMaxSize;
    }

    /** `enqueue`: appends at the back. The deque has no `maxlen`, so nothing is ever evicted. */
    method Enqueue(frame: T)
      modifies this
      ensures frames == old(frames) + [frame]
      ensures maxSize == old(maxSize)
    {
      frames := frames + [frame];
    }

    /** `dequeue`: removes and returns the oldest frame, or returns `None` on an empty queue. */
    method Dequeue() returns (r: Option<T>)
      modifies this
      ensures r == Front(old(frames))
      ensures frames == PopFront(old(frames))
      ensures maxSize == old(maxSize)
    {
      if |frames| == 0 {
        r := None;
      } else {
        r := Some(frames[0]);
        frames := frames[1..];
      }
    }

    /** `peek`: the frame `dequeue` would return, without removing it. */
    method Peek() returns (r: Option<T>)
      ensures r.None? <==> |frames| == 0
      ensures r.Some? ==> r.value == frames[0]
    {
      r := if |frames| == 0 then None else Some(frames[0]);
    }

    /** `is_empty` */
    method IsEmpty() returns (empty: bool)
      ensures empty <==> |frames| == 0
    {
      empty := |frames| == 0;
    }

    /** `size` */
    method Size() returns (n: nat)
      ensures n == |frames|
    {
      n := |frames|;
    }

    /** `get`: a fresh list of every frame, front to back. */
    method Get() returns (all: seq<T>)
      ensures all == frames
    {
      all := frames;
    }

    /** `clear` */
    method Clear()
      modifies this
      ensures frames == []
      ensures maxSize == old(maxSize)
    {
      frames := [];
    }
  }

  // ---------------------------------------------------------------------------------------
  // A value-level account of a run of queue operations, used to state the properties that
  // relate several calls: FIFO order and the size count.

  datatype Op<T> = Configure(maxSize: Option<int>) | Enqueue(frame: T) | Dequeue | Peek | Clear

  /** The contents after one operation, as the methods of `VideoQueue` leave them. */
  function Step<T>(frames: seq<T>, op: Op<T>): seq<T>
  {
    match op
    case Enqueue(f) => frames + [f]
    case Dequeue => PopFront(frames)
    case Clear => []
    case Configure(_) => frames
    case Peek => frames
  }

  /** The contents after running `ops` in order from `frames`. */
  function Replay<T>(frames: seq<T>, ops: seq<Op<T>>): seq<T>
    decreases |ops|
  {
    if |ops| == 0 then frames else Replay(Step(frames, ops[0]), ops[1..])
  }

  /** What one operation hands back: the frame a successful dequeue removes. */
  function Removed<T>(frames: seq<T>, op: Op<T>): seq<T>
  {
    if op.Dequeue? && |frames| > 0 then [frames[0]] else []
  }

  /** What one operation adds: the frame passed to enqueue. */
  function Added<T>(op: Op<T>): seq<T>
  {
    if op.Enqueue? then [op.frame] else []
  }

  /** The frames returned by the successful dequeues of the run, in the order returned. */
  function Dequeued<T>(frames: seq<T>, ops: seq<Op<T>>): seq<T>
    decreases |ops|
  {
    if |ops| == 0 then [] else Removed(frames, ops[0]) + Dequeued(Step(frames, ops[0]), ops[1..])
  }

  /** The frames passed to `enqueue` during the run, in call order. */
  function Enqueued<T>(ops: seq<Op<T>>): seq<T>
    decreases |ops|
  {
    if |ops| == 0 then [] else Added(ops[0]) + Enqueued(ops[1..])
  }

  /** The number of dequeues in the run that found a frame. */
  function DequeueHits<T>(frames: seq<T>, ops: seq<Op<T>>): nat
    decreases |ops|
  {
    if |ops| == 0 then 0
    else
      (if ops[0].Dequeue? && |frames| > 0 then 1 else 0)
      + DequeueHits(Step(frames, ops[0]), ops[1..])
  }

  /** The number of enqueues in the run. */
  function EnqueueCount<T>(ops: seq<Op<T>>): nat
    decreases |ops|
  {
    if |ops| == 0 then 0
    else (if ops[0].Enqueue? then 1 else 0) + EnqueueCount(ops[1..])
  }

  predicate NoClear<T>(ops: seq<Op<T>>)
  {
    forall i :: 0 <= i < |ops| ==> !ops[i].Clear?
  }

  /**
   * FIFO: in a run without `clear`, the frames dequeued followed by the frames still queued
   * are exactly the frames queued at the start followed by the frames enqueued, in order.
   * So no frame is lost, duplicated or reordered, and `configure` evicts nothing.
   */
  lemma {:induction false} FifoOrder<T>(frames: seq<T>, ops: seq<Op<T>>)
    requires NoClear(ops)
    ensures Dequeued(frames, ops) + Replay(frames, ops) == frames + Enqueued(ops)
    decreases |ops|
  {
    if |ops| > 0 {
      var op, rest := ops[0], ops[1..];
      var next := Step(frames, op);
      assert !op.Clear?;
      assert NoClear(rest) by {
        forall i | 0 <= i < |rest| ensures !rest[i].Clear? {
          assert rest[i] == ops[i + 1];
        }
      }
      FifoOrder(next, rest);
      StepKeepsOrder(frames, op);
      var r, d, q, e := Removed(frames, op), Dequeued(next, rest), Replay(next, rest), Enqueued(rest);
      assert Dequeued(frames, ops) == r + d;
      assert Replay(frames, ops) == q;
      assert Enqueued(ops) == Added(op) + e;
      assert d + q == next + e;
      assert r + next == frames + Added(op);
      AppendAssoc(r, d, q);
      AppendAssoc(r, next, e);
      AppendAssoc(frames, Added(op), e);
    }
  }

  /** One operation other than clear neither loses nor reorders frames. */
  lemma StepKeepsOrder<T>(frames: seq<T>, op: Op<T>)
    requires !op.Clear?
    ensures Removed(frames, op) + Step(frames, op) == frames + Added(op)
  {
  }

  /** Enqueued counts the enqueues and Dequeued the successful dequeues. */
  lemma {:induction false} CountsAreLengths<T>(frames: seq<T>, ops: seq<Op<T>>)
    ensures |Enqueued(ops)| == EnqueueCount(ops)
    ensures |Dequeued(frames, ops)| == DequeueHits(frames, ops)
    decreases |ops|
  {
    if |ops| > 0 {
      CountsAreLengths(Step(frames, ops[0]), ops[1..]);
    }
  }

  /** Running two runs one after the other is running their concatenation. */
  lemma {:induction false} ReplayAppend<T>(frames: seq<T>, ops1: seq<Op<T>>, ops2: seq<Op<T>>)
    ensures Replay(frames, ops1 + ops2) == Replay(Replay(frames, ops1), ops2)
    decreases |ops1|
  {
    if |ops1| > 0 {
      assert (ops1 + ops2)[0] == ops1[0];
      assert (ops1 + ops2)[1..] == ops1[1..] + ops2;
      ReplayAppend(Step(frames, ops1[0]), ops1[1..], ops2);
    } else {
      assert ops1 + ops2 == ops2;
    }
  }

  /** Whatever came before a `clear`, the contents afterwards depend only on what follows it. */
  lemma ClearForgetsHistory<T>(frames: seq<T>, before: seq<Op<T>>, after: seq<Op<T>>)
    ensures Replay(frames, before + [Clear] + after) == Replay([], after)
  {
    ReplayAppend(frames, before + [Clear], after);
    ReplayAppend(frames, before, [Clear]);
  }

  /**
   * `size()` equals the number of enqueues minus the number of dequeues that found a frame,
   * counted since the last `clear`.
   */
  lemma SizeSinceLastClear<T>(frames: seq<T>, before: seq<Op<T>>, after: seq<Op<T>>)
    requires NoClear(after)
    ensures |Replay(frames, before + [Clear] + after)| == EnqueueCount(after) - DequeueHits([], after)
  {
    ClearForgetsHistory(frames, before, after);
    FifoOrder([], after);
    CountsAreLengths([], after);
    assert [] + Enqueued(after) == Enqueued(after);
  }

  /** Sends one operation to the matching method of `q`; returns the frame a dequeue found, if any. */
  method Apply<T>(q: VideoQueue<T>, op: Op<T>) returns (got: seq<T>)
    modifies q
    ensures q.frames == Step(old(q.frames), op)
    ensures got == Removed(old(q.frames), op)
  {
    got := [];
    match op
    case Configure(m) => q.Configure(m);
    case Enqueue(f) => q.Enqueue(f);
    case Dequeue =>
      var r := q.Dequeue();
      if r.Some? {
        got := [r.value];
      }
    case Peek => var _ := q.Peek();
    case Clear => q.Clear();
  }

  /**
   * Runs `ops` through the methods of `q`. The contents it leaves and the frames its dequeues
   * return are those of `Replay` and `Dequeued`, so the lemmas about runs hold of the class.
   */
  method Run<T>(q: VideoQueue<T>, ops: seq<Op<T>>) returns (dequeued: seq<T>)
    modifies q
    ensures q.frames == Replay(old(q.frames), ops)
    ensures dequeued == Dequeued(old(q.frames), ops)
  {
    ghost var initial := q.frames;
    dequeued := [];
    for i := 0 to |ops|
      invariant Replay(q.frames, ops[i..]) == Replay(initial, ops)
      invariant dequeued + Dequeued(q.frames, ops[i..]) == Dequeued(initial, ops)
    {
      ghost var before, done := q.frames, dequeued;
      var got := Apply(q, ops[i]);
      dequeued := dequeued + got;
      assert ops[i..][0] == ops[i] && ops[i..][1..] == ops[i + 1..];
      assert Dequeued(before, ops[i..]) == got + Dequeued(q.frames, ops[i + 1..]);
      AppendAssoc(done, got, Dequeued(q.frames, ops[i + 1..]));
    }
    assert ops[|ops|..] == [];
    assert dequeued + [] == dequeued;
  }

  /** Enqueue a then b on an empty queue; two dequeues return a, then b, and leave it empty. */
  lemma FifoTwoFrames<T>(a: T, b: T)
    ensures Dequeued([], [Enqueue(a), Enqueue(b), Dequeue, Dequeue]) == [a, b]
    ensures Replay([], [Enqueue(a), Enqueue(b), Dequeue, Dequeue]) == []
  {
    var ops: seq<Op<T>> := [Enqueue(a), Enqueue(b), Dequeue, Dequeue];
    var o1: seq<Op<T>> := [Enqueue(b), Dequeue, Dequeue];
    var o2: seq<Op<T>> := [Dequeue, Dequeue];
    var o3: seq<Op<T>> := [Dequeue];
    assert ops[1..] == o1 && o1[1..] == o2 && o2[1..] == o3 && o3[1..] == [];
    assert [a, b][1..] == [b] && [b][1..] == [];
    assert Step([], Enqueue(a)) == [a] && Step([a], Enqueue(b)) == [a, b];
    assert Step([a, b], Dequeue) == [b] && Step([b], Dequeue) == [];
    assert Dequeued([b], o3) == [b] && Replay([b], o3) == [];
    assert Dequeued([a, b], o2) == [a, b] && Replay([a, b], o2) == [];
    assert Dequeued([a], o1) == [a, b] && Replay([a], o1) == [];
  }

  /** The maximum set by `configure` bounds nothing: with a maximum of one, two frames stay queued. */
  lemma ConfiguredMaximumNotEnforced<T>(a: T, b: T)
    ensures Replay([], [Configure(Some(1)), Enqueue(a), Enqueue(b)]) == [a, b]
  {
    var ops: seq<Op<T>> := [Configure(Some(1)), Enqueue(a), Enqueue(b)];
    var o1: seq<Op<T>> := [Enqueue(a), Enqueue(b)];
    var o2: seq<Op<T>> := [Enqueue(b)];
    assert ops[1..] == o1 && o1[1..] == o2 && o2[1..] == [];
    assert Step([], Enqueue(a)) == [a];
    assert Step([a], Enqueue(b)) == [a, b];
    assert Replay([a, b], []) == [a, b];
    assert Replay([a], o2) == [a, b];
    assert Replay([], o1) == [a, b];
  }
}
