/**
 * src/core/archive_processor.py: drains the shared frame queue into a video file.
 *
 * The OpenCV writer is modelled as a log: the frames handed to it, in order, and how often
 * it was released. OpenCV's `VideoWriter.write` does nothing once the writer is released.
 */
module ArchiveProcessing {
  import opened Wrappers
  import opened VideoUtils

  /** The message of the exception the singleton guard raises. */
  const SingletonError: string := "This class is a singleton!"

  /** The codec the archive is opened with. */
  const ArchiveFourcc: string := "XVID"

  /** An OpenCV `VideoWriter`, seen only through what it was given. */
  class VideoWriter<T> {
    const path: string
    const fourcc: string
    const fps: int
    const frameSize: (int, int)
    /** Every frame written while the writer was open, oldest first. */
    var written: seq<T>
    var released: bool
    /** How many times `release` was called. */
    var releaseCount: nat

    constructor (path: string, fourcc: string, fps: int, frameSize: (int, int))
      ensures this.path == path && this.fourcc == fourcc
      ensures this.fps == fps && this.frameSize == frameSize
      ensures written == [] && !released && releaseCount == 0
    {
      this.path := path;
      this.fourcc := fourcc;
      this.fps := fps;
      this.frameSize := frameSize;
      written := [];
      released := false;
      releaseCount := 0;
    }

    method Write(frame: T)
      modifies this
      ensures written == if old(released) then old(written) else old(written) + [frame]
      ensures released == old(released) && releaseCount == old(releaseCount)
    {
      if !released {
        written := written + [frame];
      }
    }

    method Release()
      modifies this
      ensures released && releaseCount == old(releaseCount) + 1
      ensures written == old(written)
    {
      released := true;
      releaseCount := releaseCount + 1;
    }
  }

  /**
   * The class object `ArchiveProcessor` itself. `hasInstance` is whether the class has an
   * attribute named `instance`; no code of the module ever sets one.
   */
  class ArchiveProcessorClass {
    var hasInstance: bool

    constructor ()
      ensures !hasInstance
    {
      hasInstance := false;
    }
  }

  class ArchiveProcessor<T> {
    const outputPath: string
    const fps: int
    const frameSize: (int, int)
    const out: VideoWriter<T>
    /** The attribute `instance` that `__init__` sets on the new object, not on the class. */
    var instance: bool

    /** The body of `__init__` after the guard: store the arguments and open the writer. */
    constructor (outputPath: string, fps: int, frameSize: (int, int))
      ensures this.outputPath == outputPath && this.fps == fps && this.frameSize == frameSize
      ensures fresh(out) && out.path == outputPath && out.fourcc == ArchiveFourcc
      ensures out.fps == fps && out.frameSize == frameSize
      ensures out.written == [] && !out.released && out.releaseCount == 0
      ensures instance
    {
      this.outputPath := outputPath;
      this.fps := fps;
      this.frameSize := frameSize;
      out := new VideoWriter(outputPath, ArchiveFourcc, fps, frameSize);
      instance := true;
    }

    /**
     * `write_frame`: dequeues as many frames as the queue held on entry, writes each one,
     * clears the queue and releases the writer.
     */
    method WriteFrame(queue: VideoQueue<T>)
      modifies queue, out
      ensures out.written == old(out.written) + (if old(out.released) then [] else old(queue.frames))
      ensures queue.frames == [] && queue.maxSize == old(queue.maxSize)
      ensures out.released && out.releaseCount == old(out.releaseCount) + 1
    {
      var n := queue.Size();
      ghost var initial := queue.frames;
      ghost var wasReleased := out.released;
      for i := 0 to n
        invariant queue.frames == initial[i..]
        invariant queue.maxSize == old(queue.maxSize)
        invariant out.written == old(out.written) + (if wasReleased then [] else initial[..i])
        invariant out.released == wasReleased && out.releaseCount == old(out.releaseCount)
      {
        var frame := queue.Dequeue();
        assert initial[..i + 1] == initial[..i] + [initial[i]];
        out.Write(frame.value);
      }
      queue.Clear();
      out.Release();
    }
  }

  /** `ArchiveProcessor(output_path, fps, frame_size)`, including the singleton guard. */
  method NewArchiveProcessor<T>(cls: ArchiveProcessorClass, outputPath: string, fps: int, frameSize: (int, int))
    returns (r: Result<ArchiveProcessor<T>, string>)
    ensures cls.hasInstance ==> r == Failure(SingletonError)
    ensures !cls.hasInstance ==> r.Success? && fresh(r.value) && fresh(r.value.out)
    ensures !cls.hasInstance ==> r.value.outputPath == outputPath && r.value.fps == fps && r.value.frameSize == frameSize
    ensures !cls.hasInstance ==> r.value.instance && r.value.out.written == [] && !r.value.out.released
    ensures !cls.hasInstance ==> r.value.out.path == outputPath && r.value.out.fourcc == ArchiveFourcc
    ensures !cls.hasInstance ==> r.value.out.fps == fps && r.value.out.frameSize == frameSize
    ensures !cls.hasInstance ==> r.value.out.releaseCount == 0
  {
    if cls.hasInstance {
      r := Failure(SingletonError);
    } else {
      var processor := new ArchiveProcessor(outputPath, fps, frameSize);
      r := Success(processor);
    }
  }

  /**
   * The guard reads the class attribute while the constructor sets an attribute of the new
   * object, so a second construction succeeds just like the first.
   */
  method SecondConstructionSucceeds<T>(outputPath: string, fps: int, frameSize: (int, int))
    returns (first: Result<ArchiveProcessor<T>, string>, second: Result<ArchiveProcessor<T>, string>)
    ensures first.Success? && second.Success?
    ensures fresh(first.value) && fresh(second.value) && first.value != second.value
  {
    var cls := new ArchiveProcessorClass();
    first := NewArchiveProcessor(cls, outputPath, fps, frameSize);
    second := NewArchiveProcessor(cls, outputPath, fps, frameSize);
  }
}
