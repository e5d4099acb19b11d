/**
 * The muxing loop of main: while the video or the audio stream is still
 * being encoded, pick the stream whose next frame starts earlier (video on a
 * tie, or whichever one is still active), and call its writer once.
 */
module Scheduler {
  import opened Timestamps
  import opened Stream

  datatype Kind = Video | Audio

  /**
   * One writer call of the loop: the stream selected, its next_pts and time
   * base when it was selected, and whether its generator produced a frame
   * (false: the generator returned NULL and the stream's encode flag was cleared).
   */
  datatype Event = Event(kind: Kind, pts: int, timeBase: Rational, produced: bool)

  /** The instant an event's timestamp stands for. */
  function Time(e: Event): real
    requires e.timeBase.den > 0
  {
    Seconds(e.pts, e.timeBase)
  }

  /**
   * The loop's state: both clocks, the audio frame's sample count (the audio
   * clock's step) and the two flags encode_video and encode_audio.
   */
  datatype MuxState = MuxState(video: Clock, audio: Clock, audioSamples: int, encodeVideo: bool, encodeAudio: bool)

  /** Every stream still being encoded has a positive time base and a positive step. */
  predicate Valid(s: MuxState)
  {
    && (s.encodeVideo ==> Positive(s.video.timeBase))
    && (s.encodeAudio ==> Positive(s.audio.timeBase) && s.audioSamples >= 1)
  }

  /** The loop condition: encode_video || encode_audio. */
  predicate Active(s: MuxState)
  {
    s.encodeVideo || s.encodeAudio
  }

  /** The loop's variant: the budgets of the streams still being encoded. */
  function Measure(s: MuxState): nat
    requires Valid(s)
  {
    (if s.encodeVideo then Budget(s.video) + 1 else 0) + (if s.encodeAudio then Budget(s.audio) + 1 else 0)
  }

  /** The selection test: video is encoded next iff it is active and audio is not, or video is not later. */
  predicate VideoNext(s: MuxState)
  {
    s.encodeVideo &&
    (!s.encodeAudio || CompareTs(s.video.nextPts, s.video.timeBase, s.audio.nextPts, s.audio.timeBase) <= 0)
  }

  /**
   * One iteration of the loop: exactly one writer is called; only the selected
   * stream's clock and flag can change, a flag only ever goes from set to
   * clear, and the variant drops.
   */
  function Step(s: MuxState): (r: (MuxState, Event))
    requires Valid(s) && Active(s)
    ensures Valid(r.0) && Measure(r.0) < Measure(s)
    ensures r.0.audioSamples == s.audioSamples
    ensures r.0.video.timeBase == s.video.timeBase && r.0.audio.timeBase == s.audio.timeBase
    ensures (r.0.encodeVideo ==> s.encodeVideo) && (r.0.encodeAudio ==> s.encodeAudio)
    ensures r.1.kind == Video ==> r.0.audio == s.audio && r.0.encodeAudio == s.encodeAudio
    ensures r.1.kind == Audio ==> r.0.video == s.video && r.0.encodeVideo == s.encodeVideo
  {
    if VideoNext(s) then
      var (frame, c) := Generate(s.video, 1);
      if frame.Some? then GenerateShrinksBudget(s.video, 1); (s.(video := c), Event(Video, s.video.nextPts, s.video.timeBase, true))
      else (s.(encodeVideo := false), Event(Video, s.video.nextPts, s.video.timeBase, false))
    else
      var (frame, c) := Generate(s.audio, s.audioSamples);
      if frame.Some? then GenerateShrinksBudget(s.audio, s.audioSamples); (s.(audio := c), Event(Audio, s.audio.nextPts, s.audio.timeBase, true))
      else (s.(encodeAudio := false), Event(Audio, s.audio.nextPts, s.audio.timeBase, false))
  }

  /** The writer calls of a whole run of the loop, and the state it leaves. */
  datatype Outcome = Outcome(events: seq<Event>, final: MuxState)

  /** The loop run to completion: it stops only with both flags clear. */
  function Run(s: MuxState): (r: Outcome)
    requires Valid(s)
    ensures !r.final.encodeVideo && !r.final.encodeAudio
    ensures r.final.video.timeBase == s.video.timeBase && r.final.audio.timeBase == s.audio.timeBase
    decreases Measure(s)
  {
    if !Active(s) then Outcome([], s)
    else
      var (next, e) := Step(s);
      var rest := Run(next);
      Outcome([e] + rest.events, rest.final)
  }

  /**
   * Selection picks the earliest active stream, with ties going to video, and
   * the event carries that stream's clock.
   */
  lemma StepSelection(s: MuxState)
    requires Valid(s) && Active(s)
    ensures var e := Step(s).1;
      && (e.kind == Video <==>
            s.encodeVideo &&
            (!s.encodeAudio || Seconds(s.video.nextPts, s.video.timeBase) <= Seconds(s.audio.nextPts, s.audio.timeBase)))
      && (e.kind == Video ==> e.pts == s.video.nextPts && e.timeBase == s.video.timeBase)
      && (e.kind == Audio ==> s.encodeAudio && e.pts == s.audio.nextPts && e.timeBase == s.audio.timeBase)
  {
  }

  /** The selected stream's writer reports done exactly when its clock is past the horizon. */
  lemma StepDone(s: MuxState)
    requires Valid(s) && Active(s)
    ensures var (next, e) := Step(s);
      && (e.kind == Video ==> (!e.produced <==> PastHorizon(s.video)) && next.encodeVideo == e.produced)
      && (e.kind == Audio ==> (!e.produced <==> PastHorizon(s.audio)) && next.encodeAudio == e.produced)
      && (e.produced && e.kind == Video ==> next.video.nextPts == s.video.nextPts + 1)
      && (e.produced && e.kind == Audio ==> next.audio.nextPts == s.audio.nextPts + s.audioSamples)
      && (!e.produced ==> next.video == s.video && next.audio == s.audio)
  {
  }

  /** Two successive iterations select timestamps that never go back in time. */
  lemma StepNotLater(s: MuxState)
    requires Valid(s) && Active(s) && Active(Step(s).0)
    ensures Positive(Step(s).1.timeBase) && Positive(Step(Step(s).0).1.timeBase)
    ensures Time(Step(s).1) <= Time(Step(Step(s).0).1)
  {
    var (s1, e) := Step(s);
    var e2 := Step(s1).1;
    StepSelection(s);
    StepSelection(s1);
    if e.kind == Video && e2.kind == Video {
      SecondsMonotone(s.video.nextPts, s1.video.nextPts, s.video.timeBase);
    } else if e.kind == Audio && e2.kind == Audio {
      SecondsMonotone(s.audio.nextPts, s1.audio.nextPts, s.audio.timeBase);
    }
  }

  /** Every event has a positive time base and no event starts before an earlier one. */
  ghost predicate TimeOrdered(ev: seq<Event>)
  {
    && (forall i :: 0 <= i < |ev| ==> Positive(ev[i].timeBase))
    && (forall i, j :: 0 <= i <= j < |ev| ==> Time(ev[i]) <= Time(ev[j]))
  }

  /**
   * The timestamps of the streams selected over a whole run never decrease:
   * packets are requested in time order across both streams.
   */
  lemma {:induction false} RunTimeOrdered(s: MuxState)
    requires Valid(s)
    ensures TimeOrdered(Run(s).events)
    decreases Measure(s)
  {
    if Active(s) {
      var (s1, e) := Step(s);
      StepSelection(s);
      RunTimeOrdered(s1);
      var rest := Run(s1).events;
      var ev := Run(s).events;
      assert ev == [e] + rest;
      assert Positive(e.timeBase);
      forall i | 0 <= i < |ev|
        ensures Positive(ev[i].timeBase)
      {
        if i > 0 {
          assert ev[i] == rest[i - 1];
        }
      }
      if rest != [] {
        assert Active(s1);
        StepNotLater(s);
        assert rest[0] == Step(s1).1;
      }
      forall i, j | 0 <= i <= j < |ev|
        ensures Time(ev[i]) <= Time(ev[j])
      {
        if i > 0 {
          assert ev[i] == rest[i - 1] && ev[j] == rest[j - 1];
        } else if j > 0 {
          assert ev[j] == rest[j - 1];
          assert Time(rest[0]) <= Time(rest[j - 1]);
        }
      }
    }
  }

  /** A stream whose flag is clear is never selected again. */
  lemma {:induction false} RunSkipsInactive(s: MuxState)
    requires Valid(s)
    ensures !s.encodeVideo ==> forall e :: e in Run(s).events ==> e.kind == Audio
    ensures !s.encodeAudio ==> forall e :: e in Run(s).events ==> e.kind == Video
    decreases Measure(s)
  {
    if Active(s) {
      var (s1, e) := Step(s);
      RunSkipsInactive(s1);
      assert Run(s).events == [e] + Run(s1).events;
    }
  }

  /** The events of a run that belong to stream k, in order. */
  function Only(events: seq<Event>, k: Kind): seq<Event>
  {
    if events == [] then []
    else (if events[0].kind == k then [events[0]] else []) + Only(events[1..], k)
  }

  /**
   * The writer calls stream k would see if it ran alone from clock c with
   * step ticks per frame: one produced frame per call until the horizon is
   * passed, then one call that gets NULL.
   */
  function Alone(k: Kind, c: Clock, step: int): seq<Event>
    requires Positive(c.timeBase) && step >= 1
    decreases Budget(c)
  {
    var (frame, next) := Generate(c, step);
    if frame.None? then [Event(k, c.nextPts, c.timeBase, false)]
    else
      GenerateShrinksBudget(c, step);
      [Event(k, c.nextPts, c.timeBase, true)] + Alone(k, next, step)
  }

  /** Picking out one stream's events distributes over concatenation. */
  lemma {:induction false} OnlyAppend(a: seq<Event>, b: seq<Event>, k: Kind)
    ensures Only(a + b, k) == Only(a, k) + Only(b, k)
  {
    if a != [] {
      var head := if a[0].kind == k then [a[0]] else [];
      assert (a + b)[0] == a[0];
      assert (a + b)[1..] == a[1..] + b;
      OnlyAppend(a[1..], b, k);
      calc {
        Only(a + b, k);
        head + Only(a[1..] + b, k);
        head + (Only(a[1..], k) + Only(b, k));
        (head + Only(a[1..], k)) + Only(b, k);
        Only(a, k) + Only(b, k);
      }
    } else {
      assert a + b == b;
    }
  }

  /** Picking out one stream's events from a run that starts with event e. */
  lemma OnlyCons(e: Event, rest: seq<Event>, k: Kind)
    ensures Only([e] + rest, k) == if e.kind == k then [e] + Only(rest, k) else Only(rest, k)
  {
    OnlyAppend([e], rest, k);
  }

  /** A stream alone: one call stamped with the clock, then the rest of the calls if it produced a frame. */
  lemma AloneStep(k: Kind, c: Clock, step: int)
    requires Positive(c.timeBase) && step >= 1
    ensures Alone(k, c, step) ==
      [Event(k, c.nextPts, c.timeBase, !PastHorizon(c))] + (if PastHorizon(c) then [] else Alone(k, Generate(c, step).1, step))
  {
  }

  /**
   * Interleaving does not disturb either stream: the writer calls a run makes
   * on each stream are exactly those that stream would see alone.
   */
  lemma {:induction false} RunProjection(s: MuxState)
    requires Valid(s)
    ensures Only(Run(s).events, Video) == if s.encodeVideo then Alone(Video, s.video, 1) else []
    ensures Only(Run(s).events, Audio) == if s.encodeAudio then Alone(Audio, s.audio, s.audioSamples) else []
    decreases Measure(s)
  {
    if !Active(s) {
      assert Run(s).events == [];
    } else {
      var (s1, e) := Step(s);
      RunProjection(s1);
      RunStep(s);
      OnlyCons(e, Run(s1).events, Video);
      OnlyCons(e, Run(s1).events, Audio);
      StepDone(s);
      if e.kind == Video {
        AloneStep(Video, s.video, 1);
      } else {
        AloneStep(Audio, s.audio, s.audioSamples);
      }
    }
  }

  /**
   * A stream alone is stamped next_pts, next_pts + step, next_pts + 2*step, ...;
   * every call but the last produces a frame, and the last gets NULL.
   */
  lemma {:induction false} AloneEvents(k: Kind, c: Clock, step: int)
    requires Positive(c.timeBase) && step >= 1
    ensures var r := Alone(k, c, step);
      && |r| >= 1
      && forall i :: 0 <= i < |r| ==> r[i] == Event(k, c.nextPts + i * step, c.timeBase, i < |r| - 1)
    decreases Budget(c)
  {
    var (frame, next) := Generate(c, step);
    var r := Alone(k, c, step);
    if frame.Some? {
      GenerateShrinksBudget(c, step);
      AloneEvents(k, next, step);
      var rest := Alone(k, next, step);
      assert r == [Event(k, c.nextPts, c.timeBase, true)] + rest;
      forall i | 0 <= i < |r|
        ensures r[i] == Event(k, c.nextPts + i * step, c.timeBase, i < |r| - 1)
      {
        if i > 0 {
          assert r[i] == rest[i - 1];
          assert next.nextPts + (i - 1) * step == c.nextPts + i * step;
        }
      }
    }
  }

  /**
   * A stream alone produces frames exactly while they start no later than the
   * horizon: every produced frame is within STREAM_DURATION, the NULL comes at
   * the first timestamp past it.
   */
  lemma {:induction false} AloneHorizon(k: Kind, c: Clock, step: int)
    requires Positive(c.timeBase) && step >= 1
    ensures var r := Alone(k, c, step);
      && |r| >= 1
      && (forall i :: 0 <= i < |r| - 1 ==> Seconds(r[i].pts, c.timeBase) <= StreamDuration as real)
      && Seconds(r[|r| - 1].pts, c.timeBase) > StreamDuration as real
    decreases Budget(c)
  {
    var (frame, next) := Generate(c, step);
    var r := Alone(k, c, step);
    if frame.Some? {
      GenerateShrinksBudget(c, step);
      AloneHorizon(k, next, step);
      var rest := Alone(k, next, step);
      assert r == [Event(k, c.nextPts, c.timeBase, true)] + rest;
      forall i | 0 <= i < |r| - 1
        ensures Seconds(r[i].pts, c.timeBase) <= StreamDuration as real
      {
        if i > 0 {
          assert r[i] == rest[i - 1];
        }
      }
      assert r[|r| - 1] == rest[|rest| - 1];
    }
  }

  /**
   * The video stream alone, starting at 0 with time base 1/25: frames stamped
   * 0 to 250, then NULL at 251.
   */
  lemma VideoAlone(c: Clock)
    requires c.nextPts == 0 && c.timeBase == Rational(1, StreamFrameRate)
    ensures var v := Alone(Video, c, 1);
      && |v| == 252
      && forall j :: 0 <= j < |v| ==> v[j] == Event(Video, j, Rational(1, StreamFrameRate), j <= 250)
  {
    AloneEvents(Video, c, 1);
    var v := Alone(Video, c, 1);
    var n := |v| - 1;
    assert n == 251 by {
      AloneHorizon(Video, c, 1);
      assert v[n].pts == n;
      SecondsAtMost(n, c.timeBase, StreamDuration);
      if n > 251 {
        assert v[251].pts == 251;
        SecondsAtMost(251, c.timeBase, StreamDuration);
      }
    }
    forall j | 0 <= j < |v|
      ensures v[j] == Event(Video, j, Rational(1, StreamFrameRate), j <= 250)
    {
      assert v[j] == Event(Video, c.nextPts + j * 1, c.timeBase, j < n);
      assert c.nextPts + j * 1 == j && (j < n <==> j <= 250);
    }
  }

  /**
   * In any run where the video stream starts at 0 with time base 1/25, the
   * video writer is called 252 times: frames stamped 0 to 250, then NULL at 251.
   */
  lemma RunVideoFrames(s: MuxState)
    requires Valid(s) && s.encodeVideo
    requires s.video.nextPts == 0 && s.video.timeBase == Rational(1, StreamFrameRate)
    ensures var v := Only(Run(s).events, Video);
      && |v| == 252
      && forall j :: 0 <= j < |v| ==> v[j] == Event(Video, j, Rational(1, StreamFrameRate), j <= 250)
  {
    RunProjection(s);
    VideoAlone(s.video);
  }

  /** Every stream that starts active is driven until its generator returns NULL, exactly once. */
  lemma RunDrains(s: MuxState)
    requires Valid(s)
    ensures s.encodeVideo ==>
      var v := Only(Run(s).events, Video);
      |v| >= 1 && !v[|v| - 1].produced && forall i :: 0 <= i < |v| - 1 ==> v[i].produced
    ensures s.encodeAudio ==>
      var a := Only(Run(s).events, Audio);
      |a| >= 1 && !a[|a| - 1].produced && forall i :: 0 <= i < |a| - 1 ==> a[i].produced
  {
    RunProjection(s);
    if s.encodeVideo {
      AloneEvents(Video, s.video, 1);
    }
    if s.encodeAudio {
      AloneEvents(Audio, s.audio, s.audioSamples);
    }
  }

  /** One iteration followed by the rest of the run is the run. */
  lemma RunStep(s: MuxState)
    requires Valid(s) && Active(s)
    ensures Run(s).events == [Step(s).1] + Run(Step(s).0).events
    ensures Run(s).final == Run(Step(s).0).final
  {
  }

  /** A run that has reached s, with the events so far, continues with the events of Step(s). */
  lemma RunAdvance(s0: MuxState, s: MuxState, events: seq<Event>)
    requires Valid(s0) && Valid(s) && Active(s)
    requires Run(s0).events == events + Run(s).events && Run(s0).final == Run(s).final
    ensures Run(s0).events == (events + [Step(s).1]) + Run(Step(s).0).events
    ensures Run(s0).final == Run(Step(s).0).final
  {
    RunStep(s);
    assert events + ([Step(s).1] + Run(Step(s).0).events) == (events + [Step(s).1]) + Run(Step(s).0).events;
  }

  /** An iteration that selects video advances the video clock as its generator does. */
  lemma StepVideo(s: MuxState)
    requires Valid(s) && VideoNext(s)
    ensures Step(s).0 == s.(video := Generate(s.video, 1).1, encodeVideo := !PastHorizon(s.video))
    ensures Step(s).1 == Event(Video, s.video.nextPts, s.video.timeBase, !PastHorizon(s.video))
  {
  }

  /** An iteration that selects audio advances the audio clock as its generator does. */
  lemma StepAudio(s: MuxState)
    requires Valid(s) && Active(s) && !VideoNext(s)
    ensures Step(s).0 == s.(audio := Generate(s.audio, s.audioSamples).1, encodeAudio := !PastHorizon(s.audio))
    ensures Step(s).1 == Event(Audio, s.audio.nextPts, s.audio.timeBase, !PastHorizon(s.audio))
  {
  }

  /** The loop's state read off the two output streams and the two flags. */
  function StateOf(video: OutputStream, audio: OutputStream, encodeVideo: bool, encodeAudio: bool): MuxState
    reads video, audio
  {
    MuxState(video.CurrentClock(), audio.CurrentClock(), audio.frame.nbSamples, encodeVideo, encodeAudio)
  }

  /**
   * The muxing loop of main over the two output streams; haveVideo and
   * haveAudio say which streams the output format has. The ghost events
   * record the writer calls; the loop makes exactly the calls of Run and
   * leaves both clocks where Run does.
   */
  method Mux(video: OutputStream, audio: OutputStream, haveVideo: bool, haveAudio: bool)
    returns (ghost events: seq<Event>)
    requires video != audio
    requires haveVideo ==> video.Valid() && Positive(video.timeBase)
    requires haveAudio ==> Positive(audio.timeBase) && audio.frame.nbSamples >= 1
    modifies video, audio, video.frame, audio.frame, video.frame.data0, video.frame.data1, video.frame.data2
    ensures var run := Run(old(StateOf(video, audio, haveVideo, haveAudio)));
      && events == run.events
      && video.CurrentClock() == run.final.video
      && audio.CurrentClock() == run.final.audio
  {
    var encodeVideo, encodeAudio := haveVideo, haveAudio;
    ghost var s0 := StateOf(video, audio, haveVideo, haveAudio);
    events := [];
    while encodeVideo || encodeAudio
      invariant encodeVideo ==> video.Valid()
      invariant Valid(StateOf(video, audio, encodeVideo, encodeAudio))
      invariant Run(s0).events == events + Run(StateOf(video, audio, encodeVideo, encodeAudio)).events
      invariant Run(s0).final == Run(StateOf(video, audio, encodeVideo, encodeAudio)).final
      decreases Measure(StateOf(video, audio, encodeVideo, encodeAudio))
    {
      ghost var s := StateOf(video, audio, encodeVideo, encodeAudio);
      RunAdvance(s0, s, events);
      ghost var call: Event;
      if encodeVideo && (!encodeAudio || CompareTs(video.nextPts, video.timeBase, audio.nextPts, audio.timeBase) <= 0) {
        StepVideo(s);
        ghost var pts := video.nextPts;
        var done := video.WriteVideoFrame();
        call := Event(Video, pts, video.timeBase, !done);
        encodeVideo := !done;
      } else {
        StepAudio(s);
        ghost var pts := audio.nextPts;
        var done := audio.WriteAudioFrame();
        call := Event(Audio, pts, audio.timeBase, !done);
        encodeAudio := !done;
      }
      assert StateOf(video, audio, encodeVideo, encodeAudio) == Step(s).0 && call == Step(s).1;
      events := events + [call];
    }
  }
}
