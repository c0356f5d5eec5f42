/** The microphone recorder of the desktop tool (`AudioRecorder`): a capture loop that
    reads fixed-size frames, cuts the stream into utterances at runs of silence and
    hands each long-enough utterance to a callback.

    Time is a tick per `time.time()` reading; every reading inside one loop iteration
    sees the same tick. Loudness is an integer level per frame, the stand-in for the
    normalised RMS value; a frame is quiet when its level is below the threshold. */
module AudioRecorder {
  import opened Wrappers

  /** The bytes of one `stream.read(chunk_size)`. */
  type Frame = seq<bv8>

  /** Silence detection settings. Durations are in ticks, the threshold on the level
      scale of `Read.level`. */
  datatype RecorderConfig = RecorderConfig(
    silenceThreshold: nat,
    silenceDuration: int,
    minRecordingDuration: int)

  /** What one `stream.read` of the capture loop produced: a frame, its loudness and
      the tick of the iteration, or an exception (with the tick of the flush that
      follows it). */
  datatype Read = Chunk(data: Frame, level: nat, now: int) | ReadFailure(now: int)

  /** A buffer closed by the loop, with the elapsed time it was judged by. */
  datatype Utterance = Utterance(frames: seq<Frame>, duration: int)

  /** The loop variables of `_record_audio`: the buffer, the tick at which the current
      run of quiet frames began (if one is running) and the tick the buffer began. */
  datatype Segmenter = Segmenter(frames: seq<Frame>, silenceStart: Option<int>, recordingStart: int)

  /** The state at the top of the loop and after every silence boundary. */
  function Fresh(now: int): Segmenter {
    Segmenter([], None, now)
  }

  /** A running silence run began on a frame that is still in the buffer. */
  predicate Consistent(st: Segmenter) {
    st.silenceStart.Some? ==> st.frames != []
  }

  predicate Quiet(cfg: RecorderConfig, level: nat) {
    level < cfg.silenceThreshold
  }

  /** The result of one loop iteration: the next state and, at a silence boundary, the
      buffer that the boundary closed (whether or not it is handed on). */
  datatype Observation = Observation(next: Segmenter, closed: Option<Utterance>)

  /** One iteration of the capture loop for a frame that was read. The frame is
      appended before its loudness is looked at; a loud frame ends any silence run;
      the quiet frame that opens a run never closes the buffer; a later quiet frame
      closes it once strictly more than `silenceDuration` ticks have passed since the
      run began, and the loop then starts over with an empty buffer. */
  function Observe(cfg: RecorderConfig, st: Segmenter, data: Frame, level: nat, now: int): (o: Observation)
    ensures o.closed.Some? <==>
      Quiet(cfg, level) && st.silenceStart.Some? && now - st.silenceStart.value > cfg.silenceDuration
    ensures o.closed.Some? ==>
      o.closed.value == Utterance(st.frames + [data], now - st.recordingStart) && o.next == Fresh(now)
    ensures o.closed.None? ==>
      o.next.frames == st.frames + [data] && o.next.recordingStart == st.recordingStart
    ensures o.closed.None? && !Quiet(cfg, level) ==> o.next.silenceStart.None?
    ensures o.closed.None? && Quiet(cfg, level) ==>
      o.next.silenceStart == Some(if st.silenceStart.Some? then st.silenceStart.value else now)
    ensures Consistent(o.next)
  {
    var frames := st.frames + [data];
    if Quiet(cfg, level) then
      match st.silenceStart
      case None => Observation(Segmenter(frames, Some(now), st.recordingStart), None)
      case Some(start) =>
        if now - start > cfg.silenceDuration then
          Observation(Fresh(now), Some(Utterance(frames, now - st.recordingStart)))
        else
          Observation(Segmenter(frames, st.silenceStart, st.recordingStart), None)
    else
      Observation(Segmenter(frames, None, st.recordingStart), None)
  }

  /** A closed buffer is handed on when it lasted at least the minimum and holds a
      frame; otherwise it is dropped. */
  predicate Deliverable(cfg: RecorderConfig, u: Utterance) {
    u.duration >= cfg.minRecordingDuration && |u.frames| > 0
  }

  /** The buffer one iteration closes, as a sequence of zero or one. */
  function Closing(o: Observation): seq<Utterance> {
    if o.closed.Some? then [o.closed.value] else []
  }

  /** What one iteration hands to `_save_and_process_audio`. */
  function Emitted(cfg: RecorderConfig, o: Observation): seq<Utterance> {
    if o.closed.Some? && Deliverable(cfg, o.closed.value) then [o.closed.value] else []
  }

  /** The closed buffers that are handed on, in order. */
  function Handed(cfg: RecorderConfig, closed: seq<Utterance>): (r: seq<Utterance>)
    ensures |r| <= |closed|
    ensures forall i :: 0 <= i < |r| ==> Deliverable(cfg, r[i]) && r[i] in closed
  {
    if closed == [] then []
    else if Deliverable(cfg, closed[0]) then [closed[0]] + Handed(cfg, closed[1..])
    else Handed(cfg, closed[1..])
  }

  /** The loop run over a sequence of reads: the state it ends in, every buffer closed
      at a silence boundary, and the tick of the failed read that broke the loop. */
  datatype RunResult = RunResult(last: Segmenter, closed: seq<Utterance>, failedAt: Option<int>)

  function Run(cfg: RecorderConfig, st: Segmenter, input: seq<Read>): RunResult
    decreases |input|
  {
    if input == [] then
      RunResult(st, [], None)
    else if input[0].ReadFailure? then
      RunResult(st, [], Some(input[0].now))
    else
      var o := Observe(cfg, st, input[0].data, input[0].level, input[0].now);
      var r := Run(cfg, o.next, input[1..]);
      RunResult(r.last, Closing(o) + r.closed, r.failedAt)
  }

  /** The flush after the loop: the leftover buffer goes out when it holds a frame and
      lasted at least the minimum. */
  function FinalFlush(cfg: RecorderConfig, st: Segmenter, now: int): (r: seq<Utterance>)
    ensures |r| <= 1
    ensures r != [] <==> |st.frames| > 0 && now - st.recordingStart >= cfg.minRecordingDuration
    ensures r != [] ==> r[0] == Utterance(st.frames, now - st.recordingStart) && Deliverable(cfg, r[0])
  {
    if |st.frames| > 0 && now - st.recordingStart >= cfg.minRecordingDuration then
      [Utterance(st.frames, now - st.recordingStart)]
    else
      []
  }

  /** Everything a capture session hands on: the boundaries' buffers, then the flush,
      which runs once whether the loop ended by a stop (at `stopTime`) or by a failed
      read (at the failure's tick). */
  function Session(cfg: RecorderConfig, st: Segmenter, input: seq<Read>, stopTime: int): seq<Utterance> {
    var r := Run(cfg, st, input);
    Handed(cfg, r.closed) + FinalFlush(cfg, r.last, r.failedAt.GetOr(stopTime))
  }

  /** The frames read before the first failed read. */
  function Captured(input: seq<Read>): seq<Frame> {
    if input == [] || input[0].ReadFailure? then [] else [input[0].data] + Captured(input[1..])
  }

  function Flatten(us: seq<Utterance>): seq<Frame> {
    if us == [] then [] else us[0].frames + Flatten(us[1..])
  }

  predicate AllLoud(cfg: RecorderConfig, input: seq<Read>) {
    forall i :: 0 <= i < |input| ==> input[i].Chunk? && !Quiet(cfg, input[i].level)
  }

  lemma HandedAppend(cfg: RecorderConfig, a: seq<Utterance>, b: seq<Utterance>)
    ensures Handed(cfg, a + b) == Handed(cfg, a) + Handed(cfg, b)
  {
    if a != [] {
      assert (a + b)[0] == a[0];
      assert (a + b)[1..] == a[1..] + b;
      HandedAppend(cfg, a[1..], b);
    } else {
      assert a + b == b;
    }
  }

  /** Unfolding a session by one read. */
  lemma SessionStep(cfg: RecorderConfig, st: Segmenter, input: seq<Read>, stopTime: int)
    requires input != [] && input[0].Chunk?
    ensures var o := Observe(cfg, st, input[0].data, input[0].level, input[0].now);
      Session(cfg, st, input, stopTime) == Emitted(cfg, o) + Session(cfg, o.next, input[1..], stopTime)
      && Run(cfg, st, input).failedAt == Run(cfg, o.next, input[1..]).failedAt
  {
    var o := Observe(cfg, st, input[0].data, input[0].level, input[0].now);
    var r := Run(cfg, o.next, input[1..]);
    HandedAppend(cfg, Closing(o), r.closed);
  }

  /** A failed read ends the run: only the leftover buffer is flushed, at the failure time. */
  lemma SessionFailure(cfg: RecorderConfig, st: Segmenter, input: seq<Read>, stopTime: int)
    requires input != [] && input[0].ReadFailure?
    ensures Session(cfg, st, input, stopTime) == FinalFlush(cfg, st, input[0].now)
    ensures Run(cfg, st, input).failedAt == Some(input[0].now)
  {
    assert Handed(cfg, []) == [];
  }

  /** Without more reads the run ends at the stop time with only the final flush. */
  lemma SessionEnd(cfg: RecorderConfig, st: Segmenter, input: seq<Read>, stopTime: int)
    requires input == []
    ensures Session(cfg, st, input, stopTime) == FinalFlush(cfg, st, stopTime)
    ensures Run(cfg, st, input).failedAt == None
  {
    assert Handed(cfg, []) == [];
  }

  lemma Shift<T>(done: seq<T>, total: seq<T>, sent: seq<T>, now: seq<T>, later: seq<T>)
    requires done + total == sent + (now + later)
    ensures done + total == (sent + now) + later
  {
  }

  /** Nothing is lost or duplicated by segmentation: the buffers closed at boundaries,
      followed by the leftover buffer, are exactly the frames that were read. */
  lemma {:induction false} RunConservesFrames(cfg: RecorderConfig, st: Segmenter, input: seq<Read>)
    ensures var r := Run(cfg, st, input); Flatten(r.closed) + r.last.frames == st.frames + Captured(input)
    decreases |input|
  {
    if input != [] && input[0].Chunk? {
      var d := input[0].data;
      var o := Observe(cfg, st, d, input[0].level, input[0].now);
      var r := Run(cfg, o.next, input[1..]);
      RunConservesFrames(cfg, o.next, input[1..]);
      ObserveKeepsFrames(cfg, st, d, input[0].level, input[0].now);
      FlattenAppend(Closing(o), r.closed);
      Regroup(Flatten(Closing(o)), Flatten(r.closed), r.last.frames, o.next.frames, Captured(input[1..]), st.frames, [d]);
    }
  }

  /** One iteration moves the new frame into the buffer or into the buffer it closes. */
  lemma ObserveKeepsFrames(cfg: RecorderConfig, st: Segmenter, data: Frame, level: nat, now: int)
    ensures var o := Observe(cfg, st, data, level, now);
      Flatten(Closing(o)) + o.next.frames == st.frames + [data]
  {
    var o := Observe(cfg, st, data, level, now);
    if o.closed.Some? {
      assert Flatten(Closing(o)) == o.closed.value.frames + Flatten([]);
    }
  }

  lemma Regroup<T>(a: seq<T>, b: seq<T>, c: seq<T>, m: seq<T>, tail: seq<T>, p: seq<T>, q: seq<T>)
    requires b + c == m + tail
    requires a + m == p + q
    ensures (a + b) + c == p + (q + tail)
  {
    calc {
      (a + b) + c;
      a + (m + tail);
      (p + q) + tail;
    }
  }

  lemma FlattenAppend(a: seq<Utterance>, b: seq<Utterance>)
    ensures Flatten(a + b) == Flatten(a) + Flatten(b)
  {
    if a != [] {
      assert (a + b)[1..] == a[1..] + b;
      FlattenAppend(a[1..], b);
    } else {
      assert a + b == b;
    }
  }

  /** While every frame is loud no boundary is reached: every frame stays in one
      buffer, which keeps its start tick and has no silence run open. */
  lemma {:induction false} LoudRunClosesNothing(cfg: RecorderConfig, st: Segmenter, input: seq<Read>)
    requires AllLoud(cfg, input)
    ensures var r := Run(cfg, st, input);
      r.closed == [] && r.failedAt.None? && r.last.frames == st.frames + Captured(input)
      && r.last.recordingStart == st.recordingStart
      && (input != [] ==> r.last.silenceStart.None?)
    decreases |input|
  {
    if input != [] {
      var o := Observe(cfg, st, input[0].data, input[0].level, input[0].now);
      assert AllLoud(cfg, input[1..]) by {
        forall i | 0 <= i < |input[1..]| ensures input[1..][i] == input[i + 1] { }
      }
      LoudRunClosesNothing(cfg, o.next, input[1..]);
      assert Captured(input) == [input[0].data] + Captured(input[1..]);
    }
  }

  /** A session of loud frames only hands on at most one utterance, at the final
      flush, and that utterance holds every frame read. */
  lemma LoudSessionFlushesOnce(cfg: RecorderConfig, start: int, input: seq<Read>, stopTime: int)
    requires AllLoud(cfg, input)
    ensures var s := Session(cfg, Fresh(start), input, stopTime);
      |s| <= 1 && (s != [] ==> s[0].frames == Captured(input) && s[0].duration == stopTime - start)
  {
    LoudRunClosesNothing(cfg, Fresh(start), input);
  }

  /** The strict `>` of the silence check: quiet frames read no later than
      `silenceDuration` ticks after the run began never close the buffer, and the run
      keeps its start tick. */
  lemma {:induction false} SilenceWithinDurationClosesNothing(
    cfg: RecorderConfig, st: Segmenter, input: seq<Read>, runStart: int)
    requires st.silenceStart == Some(runStart)
    requires forall i :: 0 <= i < |input| ==>
      input[i].Chunk? && Quiet(cfg, input[i].level) && input[i].now - runStart <= cfg.silenceDuration
    ensures var r := Run(cfg, st, input);
      r.closed == [] && r.failedAt.None? && r.last.silenceStart == Some(runStart)
      && r.last.frames == st.frames + Captured(input) && r.last.recordingStart == st.recordingStart
    decreases |input|
  {
    if input != [] {
      var o := Observe(cfg, st, input[0].data, input[0].level, input[0].now);
      SilenceWithinDurationClosesNothing(cfg, o.next, input[1..], runStart);
      assert Captured(input) == [input[0].data] + Captured(input[1..]);
    }
  }

  /** Every utterance a session hands on holds a frame and lasted at least the
      minimum; the boundaries contribute handed-on buffers only, the flush at most one. */
  lemma SessionMeetsMinimum(cfg: RecorderConfig, st: Segmenter, input: seq<Read>, stopTime: int)
    ensures var s := Session(cfg, st, input, stopTime);
      forall i :: 0 <= i < |s| ==> |s[i].frames| > 0 && s[i].duration >= cfg.minRecordingDuration
    ensures |Session(cfg, st, input, stopTime)| <= |Run(cfg, st, input).closed| + 1
  {
    var r := Run(cfg, st, input);
    var h := Handed(cfg, r.closed);
    var f := FinalFlush(cfg, r.last, r.failedAt.GetOr(stopTime));
    assert forall i :: |h| <= i < |h| + |f| ==> (h + f)[i] == f[i - |h|];
  }

  /** A failed read ends the loop: the input after it are never looked at. */
  lemma {:induction false} FailureEndsRun(cfg: RecorderConfig, st: Segmenter, before: seq<Read>, t: int, after: seq<Read>)
    requires forall i :: 0 <= i < |before| ==> before[i].Chunk?
    ensures Run(cfg, st, before + [ReadFailure(t)] + after) ==
      var r := Run(cfg, st, before); RunResult(r.last, r.closed, Some(t))
    decreases |before|
  {
    var input := before + [ReadFailure(t)] + after;
    if before == [] {
      assert input[0] == ReadFailure(t);
    } else {
      assert input[0] == before[0];
      assert input[1..] == before[1..] + [ReadFailure(t)] + after;
      var o := Observe(cfg, st, before[0].data, before[0].level, before[0].now);
      FailureEndsRun(cfg, o.next, before[1..], t, after);
    }
  }

  /** The recorder object: the `is_recording` flag, the capture loop's variables while
      the recording thread is inside its loop, and the utterances handed to the
      callback so far. */
  class Recorder {
    const config: RecorderConfig
    var isRecording: bool
    /** The recording thread has opened its stream and not yet left its loop. */
    var capturing: bool
    var frames: seq<Frame>
    var silenceStart: Option<int>
    var recordingStart: int
    /** Every buffer passed to `_save_and_process_audio`, in order. */
    var delivered: seq<Utterance>

    function State(): Segmenter
      reads this
    {
      Segmenter(frames, silenceStart, recordingStart)
    }

    ghost predicate Valid()
      reads this
    {
      && (capturing ==> isRecording)
      && Consistent(State())
      && (!capturing ==> frames == [] && silenceStart.None?)
    }

    constructor (config: RecorderConfig)
      ensures Valid() && this.config == config
      ensures !isRecording && !capturing && delivered == []
    {
      this.config := config;
      isRecording := false;
      capturing := false;
      frames := [];
      silenceStart := None;
      recordingStart := 0;
      delivered := [];
    }

    /** `start_recording`: a second start while recording changes nothing; otherwise the
        flag is raised and the recording thread opens its stream and enters its loop
        with a fresh buffer (or, when the stream does not open, ends at once). */
    method StartRecording(now: int, streamOpens: bool)
      requires Valid()
      modifies this
      ensures Valid()
      ensures old(isRecording) ==> unchanged(this)
      ensures !old(isRecording) ==> isRecording && capturing == streamOpens && delivered == old(delivered)
      ensures !old(isRecording) && streamOpens ==> State() == Fresh(now)
    {
      if isRecording {
        return;
      }
      isRecording := true;
      if streamOpens {
        capturing := true;
        frames, silenceStart, recordingStart := [], None, now;
      }
    }

    /** One iteration of the loop for a frame that was read. */
    method Step(data: Frame, level: nat, now: int)
      requires Valid() && capturing
      modifies this`frames, this`silenceStart, this`recordingStart, this`delivered
      ensures Valid() && capturing
      ensures var o := Observe(config, old(State()), data, level, now);
        State() == o.next && delivered == old(delivered) + Emitted(config, o)
    {
      frames := frames + [data];
      if level < config.silenceThreshold {
        if silenceStart.None? {
          silenceStart := Some(now);
        } else if now - silenceStart.value > config.silenceDuration {
          var duration := now - recordingStart;
          if duration >= config.minRecordingDuration && |frames| > 0 {
            delivered := delivered + [Utterance(frames, duration)];
          }
          frames, silenceStart, recordingStart := [], None, now;
        }
      } else {
        silenceStart := None;
      }
    }

    /** Leaving the loop, by a stop or by a failed read: the leftover buffer is handed
        on once if it holds a frame and lasted the minimum, and the thread ends. */
    method Flush(now: int)
      requires Valid() && capturing
      modifies this`capturing, this`frames, this`silenceStart, this`delivered
      ensures Valid() && !capturing
      ensures delivered == old(delivered) + FinalFlush(config, old(State()), now)
    {
      if |frames| > 0 {
        var duration := now - recordingStart;
        if duration >= config.minRecordingDuration {
          delivered := delivered + [Utterance(frames, duration)];
        }
      }
      capturing := false;
      frames, silenceStart := [], None;
    }

    /** `stop_recording`: a no-op when not recording; otherwise the flag is lowered and
        the caller waits for the thread, which leaves its loop and flushes. */
    method StopRecording(now: int)
      requires Valid()
      modifies this
      ensures Valid() && !isRecording && !capturing
      ensures !old(isRecording) ==> unchanged(this)
      ensures delivered == old(delivered) + (if old(capturing) then FinalFlush(config, old(State()), now) else [])
    {
      if !isRecording {
        return;
      }
      if capturing {
        Flush(now);
      }
      isRecording := false;
    }

    /** `cleanup`: stops the recording (releasing the audio library is not modelled). */
    method Cleanup(now: int)
      requires Valid()
      modifies this
      ensures Valid() && !isRecording && !capturing
      ensures delivered == old(delivered) + (if old(capturing) then FinalFlush(config, old(State()), now) else [])
    {
      StopRecording(now);
    }

    /** The capture loop fed with `input`, the frames the stream delivers before the
        flag is lowered at `stopTime` (or before a read fails). It hands on exactly
        what `Session` says; after a failed read the thread is gone but the flag is
        still up. */
    method Capture(input: seq<Read>, stopTime: int)
      requires Valid() && capturing
      modifies this
      ensures Valid() && !capturing
      ensures delivered == old(delivered) + Session(config, old(State()), input, stopTime)
      ensures isRecording <==> Run(config, old(State()), input).failedAt.Some?
    {
      ghost var start := State();
      var i := 0;
      while i < |input|
        invariant 0 <= i <= |input|
        invariant Valid() && capturing && isRecording
        invariant old(delivered) + Session(config, start, input, stopTime)
                  == delivered + Session(config, State(), input[i..], stopTime)
        invariant Run(config, start, input).failedAt == Run(config, State(), input[i..]).failedAt
      {
        ghost var rest := input[i..];
        if input[i].ReadFailure? {
          SessionFailure(config, State(), rest, stopTime);
          Flush(input[i].now);
          return;
        }
        ghost var sent := delivered;
        ghost var o := Observe(config, State(), input[i].data, input[i].level, input[i].now);
        SessionStep(config, State(), rest, stopTime);
        assert rest[1..] == input[i + 1..];
        Step(input[i].data, input[i].level, input[i].now);
        Shift(old(delivered), Session(config, start, input, stopTime), sent, Emitted(config, o),
              Session(config, State(), input[i + 1..], stopTime));
        i := i + 1;
      }
      SessionEnd(config, State(), input[i..], stopTime);
      Flush(stopTime);
      isRecording := false;
    }
  }
}
