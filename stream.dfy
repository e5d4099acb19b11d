/**
 * One output stream's presentation clock: the horizon test and timestamp
 * stamping done by get_video_frame and get_audio_frame, and the writers that
 * wrap them.
 */
module Stream {
  import opened Results
  import opened Timestamps
  import opened Picture

  /** STREAM_DURATION (10.0) as the int64_t argument of av_compare_ts: 10 seconds. */
  const StreamDuration: int := 10

  /** STREAM_FRAME_RATE: video frames per second. */
  const StreamFrameRate: int := 25

  /** A stream's clock: the next timestamp to stamp, in ticks of the encoder time base. */
  datatype Clock = Clock(nextPts: int, timeBase: Rational)

  /** The next frame would start after the horizon: av_compare_ts(next_pts, tb, 10, 1/1) > 0. */
  predicate PastHorizon(c: Clock)
  {
    CompareTs(c.nextPts, c.timeBase, StreamDuration, Rational(1, 1)) > 0
  }

  /**
   * One call of a frame generator that advances its clock by step ticks per
   * frame: no frame once past the horizon, else a frame stamped with the
   * clock's timestamp.
   */
  function Generate(c: Clock, step: int): (r: (Option<int>, Clock))
    ensures r.1.timeBase == c.timeBase
    ensures c.timeBase.den > 0 ==> (r.0.None? <==> Seconds(c.nextPts, c.timeBase) > StreamDuration as real)
    ensures r.0.None? ==> r.1 == c
    ensures r.0.Some? ==> r.0.value == c.nextPts && r.1.nextPts == c.nextPts + step
  {
    if PastHorizon(c) then (None, c) else (Some(c.nextPts), c.(nextPts := c.nextPts + step))
  }

  /**
   * Ticks left before the horizon is passed, plus one: a bound on the frames
   * the clock can still produce.
   */
  function Budget(c: Clock): nat
    requires Positive(c.timeBase)
  {
    if PastHorizon(c) then 0
    else StreamDuration * c.timeBase.den - c.nextPts * c.timeBase.num + 1
  }

  /** Producing a frame with a positive step strictly shrinks the budget. */
  lemma GenerateShrinksBudget(c: Clock, step: int)
    requires Positive(c.timeBase) && step >= 1 && !PastHorizon(c)
    ensures Budget(Generate(c, step).1) < Budget(c)
  {
    var n := c.timeBase.num;
    assert (c.nextPts + step) * n == c.nextPts * n + step * n;
    assert step * n >= 1 by {
      assert (step - 1) * n >= 0;
    }
  }

  /**
   * An output stream (OutputStream): its encoder's time base and picture size,
   * the reusable frame it fills, and the timestamp of the next frame.
   */
  class OutputStream {
    var nextPts: int
    const timeBase: Rational
    const frame: Frame
    const width: int
    const height: int

    /** The frame can hold a picture of the encoder's size. */
    ghost predicate Valid()
      reads this, frame
    {
      frame.Valid() && frame.Fits(width, height)
    }

    /** The stream's clock. */
    function CurrentClock(): Clock
      reads this
    {
      Clock(nextPts, timeBase)
    }

    /** A zero-initialised stream (next_pts 0) whose encoder has the given time base and size. */
    constructor (tb: Rational, f: Frame, w: int, h: int)
      requires f.Valid() && f.Fits(w, h)
      ensures Valid()
      ensures nextPts == 0 && timeBase == tb && frame == f && width == w && height == h
    {
      nextPts := 0;
      timeBase := tb;
      frame := f;
      width, height := w, h;
    }

    /**
     * get_video_frame: past the horizon, no frame and nothing changes;
     * otherwise the frame is painted with the pattern of frame number next_pts,
     * stamped with next_pts, and next_pts advances by one.
     */
    method GetVideoFrame() returns (f: Frame?)
      requires Valid()
      modifies this`nextPts, frame, frame.data0, frame.data1, frame.data2
      ensures (if f == null then None else Some(f.pts), CurrentClock()) == Generate(old(CurrentClock()), 1)
      ensures f != null ==> f == frame
      ensures f != null ==>
        && frame.data0[..] == Painted(old(frame.data0[..]), frame.lineSize0, width, height, Luma, old(nextPts))
        && frame.data1[..] == Painted(old(frame.data1[..]), frame.lineSize1, width / 2, height / 2, Cb, old(nextPts))
        && frame.data2[..] == Painted(old(frame.data2[..]), frame.lineSize2, width / 2, height / 2, Cr, old(nextPts))
      ensures f == null ==> unchanged(frame, frame.data0, frame.data1, frame.data2)
    {
      if PastHorizon(CurrentClock()) {
        return null;
      }
      FillYuvImage(frame, nextPts, width, height);
      frame.pts := nextPts;
      nextPts := nextPts + 1;
      f := frame;
    }

    /**
     * get_audio_frame: past the horizon, no frame and nothing changes;
     * otherwise the frame is stamped with next_pts and next_pts advances by
     * the frame's sample count. On an audio stream, frame stands for the
     * stream's tmp_frame, the frame get_audio_frame fills and returns (the
     * resampled copy handed to the encoder is not modelled).
     */
    method GetAudioFrame() returns (f: Frame?)
      modifies this`nextPts, frame`pts
      ensures (if f == null then None else Some(f.pts), CurrentClock()) == Generate(old(CurrentClock()), frame.nbSamples)
      ensures f != null ==> f == frame
      ensures f == null ==> unchanged(frame)
    {
      if PastHorizon(CurrentClock()) {
        return null;
      }
      frame.pts := nextPts;
      nextPts := nextPts + frame.nbSamples;
      f := frame;
    }

    /**
     * write_video_frame: hands the next video frame to the encoder (painted
     * with the pattern of frame number next_pts and stamped with it); reports
     * done exactly when there was no frame, so that the encoder was drained.
     */
    method WriteVideoFrame() returns (done: bool)
      requires Valid()
      modifies this`nextPts, frame, frame.data0, frame.data1, frame.data2
      ensures done == PastHorizon(old(CurrentClock()))
      ensures CurrentClock() == Generate(old(CurrentClock()), 1).1
      ensures !done ==>
        && frame.pts == old(nextPts)
        && frame.data0[..] == Painted(old(frame.data0[..]), frame.lineSize0, width, height, Luma, old(nextPts))
        && frame.data1[..] == Painted(old(frame.data1[..]), frame.lineSize1, width / 2, height / 2, Cb, old(nextPts))
        && frame.data2[..] == Painted(old(frame.data2[..]), frame.lineSize2, width / 2, height / 2, Cr, old(nextPts))
      ensures done ==> unchanged(frame, frame.data0, frame.data1, frame.data2)
    {
      var f := GetVideoFrame();
      done := f == null;
    }

    /**
     * write_audio_frame: hands the next audio frame, stamped with next_pts,
     * to the encoder; reports done exactly when there was no frame.
     */
    method WriteAudioFrame() returns (done: bool)
      modifies this`nextPts, frame`pts
      ensures done == PastHorizon(old(CurrentClock()))
      ensures CurrentClock() == Generate(old(CurrentClock()), frame.nbSamples).1
      ensures !done ==> frame.pts == old(nextPts)
      ensures done ==> unchanged(frame)
    {
      var f := GetAudioFrame();
      done := f == null;
    }
  }

  /** With time base 1/25, the video clock accepts frame numbers 0 to 250 and refuses 251 on. */
  lemma VideoHorizon(p: int)
    ensures PastHorizon(Clock(p, Rational(1, StreamFrameRate))) <==> p > 250
  {
  }
}
