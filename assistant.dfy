/** The interview assistant of the desktop tool: the AI-mode flag the hotkey flips,
    what is sent to the backend for each transcribed utterance, and the start/stop
    gating of the running flag around the recorder. HTTP calls, the hotkey listener
    and the speech client's SDK calls are oracles whose answers are passed in. */
module Assistant {
  import opened Wrappers
  import AudioRecorder
  import SpeechClient

  /** A JSON value as far as the request body needs one. */
  datatype Json = JString(str: string) | JBool(flag: bool)

  /** What one utterance asks the backend: the transcript and whether an answer
      should be generated. */
  datatype Question = Question(question: string, generateAnswer: bool)

  /** The JSON body posted to `/api/question`. */
  function RequestBody(q: Question): (body: map<string, Json>)
    ensures body.Keys == {"question", "generate_answer"}
  {
    map["question" := JString(q.question), "generate_answer" := JBool(q.generateAnswer)]
  }

  /** How the backend reads that body back: exactly the two keys, a string and a
      boolean. */
  function ParseRequestBody(body: map<string, Json>): (r: Option<Question>)
    ensures r.Some? ==> body.Keys == {"question", "generate_answer"}
  {
    if body.Keys == {"question", "generate_answer"}
       && body["question"].JString? && body["generate_answer"].JBool?
    then Some(Question(body["question"].str, body["generate_answer"].flag))
    else None
  }

  /** The body carries the question and the flag and nothing else: reading it back
      gives the same question, and only such bodies read back at all. */
  lemma RequestBodyRoundTrip(q: Question, body: map<string, Json>)
    ensures ParseRequestBody(RequestBody(q)) == Some(q)
    ensures ParseRequestBody(body) == Some(q) ==> body == RequestBody(q)
  {
    var b := RequestBody(q);
    assert "question" in b && "generate_answer" in b;
    if ParseRequestBody(body) == Some(q) {
      assert body.Keys == b.Keys;
      forall k | k in body.Keys
        ensures body[k] == b[k]
      {
        assert k == "question" || k == "generate_answer";
      }
    }
  }

  /** The answer to an HTTP request: a status code and whether the body parses as
      JSON, or a `requests` exception (connection refused, time-out, ...). */
  datatype HttpReply = Response(status: int, jsonParses: bool) | Unreachable

  /** How `send_to_backend` ends. Every ending is only logged. */
  datatype Delivery = Delivered | Rejected(status: int) | Failed

  /** `send_to_backend`'s result handling: status 200 with a JSON body is a delivery,
      any other status is logged with its code, and an exception (from the request
      or from reading the body) is logged and swallowed. */
  function DeliveryOf(reply: HttpReply): (d: Delivery)
    ensures d == Delivered <==> reply.Response? && reply.status == 200 && reply.jsonParses
    ensures d.Rejected? <==> reply.Response? && reply.status != 200
    ensures d.Rejected? ==> d.status == reply.status
  {
    match reply
    case Unreachable => Failed
    case Response(status, parses) =>
      if status != 200 then Rejected(status)
      else if parses then Delivered
      else Failed
  }

  /** `test_backend_connection`: the health check passes iff it answers 200 with a
      body that parses as JSON; reading a non-JSON body raises, and that, like an
      unreachable backend or any other status, is a failed check (or, caught by
      `start`, a failed start). So the check passes exactly for the replies that
      `send_to_backend` counts as delivered. */
  function BackendHealthy(reply: HttpReply): (ok: bool)
    ensures ok <==> DeliveryOf(reply) == Delivered
    ensures ok ==> reply.Response? && reply.status == 200
  {
    reply.Response? && reply.status == 200 && reply.jsonParses
  }

  /** A 200 whose body is not JSON fails the health check, as any other status or
      an unreachable backend does. */
  lemma BackendHealthyNeedsJson(status: int)
    ensures !BackendHealthy(Response(200, false))
    ensures status != 200 ==> !BackendHealthy(Response(status, true))
    ensures !BackendHealthy(Unreachable) && BackendHealthy(Response(200, true))
  {
  }

  class InterviewAssistant {
    const speech: SpeechClient.Client
    const recorder: AudioRecorder.Recorder
    var isRunning: bool
    var aiModeEnabled: bool
    /** The global hotkey listener has been started. */
    var hotkeysActive: bool
    /** Every question posted to the backend, in order. */
    var posted: seq<Question>

    ghost predicate Valid()
      reads this, recorder
    {
      recorder.Valid() && (isRunning ==> recorder.isRecording)
    }

    /** `InterviewAssistant()`: not running, AI mode off, a fresh recorder. */
    constructor (speech: SpeechClient.Client, recorderConfig: AudioRecorder.RecorderConfig)
      ensures Valid() && fresh(recorder)
      ensures this.speech == speech && recorder.config == recorderConfig
      ensures !isRunning && !aiModeEnabled && !hotkeysActive && posted == []
      ensures !recorder.isRecording && recorder.delivered == []
    {
      this.speech := speech;
      recorder := new AudioRecorder.Recorder(recorderConfig);
      isRunning := false;
      aiModeEnabled := false;
      hotkeysActive := false;
      posted := [];
    }

    /** `toggle_ai_mode`: flips the flag and nothing else. */
    method ToggleAiMode()
      modifies this`aiModeEnabled
      ensures aiModeEnabled == !old(aiModeEnabled)
    {
      aiModeEnabled := !aiModeEnabled;
    }

    /** `send_to_backend`: posts the question with the flag and reports how it ended;
        nothing escapes. */
    method SendToBackend(question: string, generateAnswer: bool, reply: HttpReply) returns (d: Delivery)
      modifies this`posted
      ensures posted == old(posted) + [Question(question, generateAnswer)]
      ensures d == DeliveryOf(reply)
    {
      posted := posted + [Question(question, generateAnswer)];
      d := DeliveryOf(reply);
    }

    /** `on_audio_ready` for the audio file at `path`: the file is transcribed (and
        cleaned up), then, if the transcript is non-empty, it is posted with the AI
        flag as it stands at that moment. `toggled` says whether the hotkey flipped
        the flag while the transcription was running. Returns the files left on disk
        and how the post ended, if there was one. */
    method OnAudioReady(path: string, files: set<string>, sdk: SpeechClient.SdkReply, removable: bool,
                        toggled: bool, reply: HttpReply)
      returns (left: set<string>, d: Option<Delivery>)
      modifies this`aiModeEnabled, this`posted
      ensures var t := SpeechClient.TranscribeAudio(speech, path, files, sdk, removable);
        left == t.files
        && aiModeEnabled == (old(aiModeEnabled) != toggled)
        && (t.text.None? ==> posted == old(posted) && d == None)
        && (t.text.Some? ==> posted == old(posted) + [Question(t.text.value, aiModeEnabled)]
                             && d == Some(DeliveryOf(reply)))
    {
      var t := SpeechClient.TranscribeAudio(speech, path, files, sdk, removable);
      left := t.files;
      if toggled {
        ToggleAiMode();
      }
      match t.text {
        case None =>
          d := None;
        case Some(text) =>
          var outcome := SendToBackend(text, aiModeEnabled, reply);
          d := Some(outcome);
      }
    }

    /** `stop`: lowers the running flag, cleans up the recorder (which flushes its
        last buffer) and stops the hotkey listener if one was started. */
    method Stop(now: int)
      requires recorder.Valid()
      modifies this`isRunning, this`hotkeysActive, recorder
      ensures Valid() && !isRunning && !hotkeysActive
      ensures !recorder.isRecording && !recorder.capturing
      ensures recorder.delivered == old(recorder.delivered)
        + (if old(recorder.capturing) then AudioRecorder.FinalFlush(recorder.config, old(recorder.State()), now) else [])
    {
      isRunning := false;
      recorder.Cleanup(now);
      hotkeysActive := false;
    }

    /** `start` up to its waiting loop: the backend health check and then the speech
        connection test gate everything; when either fails the `finally` clause
        stops the assistant at once. Otherwise the hotkeys are set up (a failure is
        only logged), recording starts and the assistant is running. Returns whether
        it got that far. */
    method Start(health: HttpReply, probe: SpeechClient.Probe, hotkeysStart: bool, now: int, streamOpens: bool)
      returns (running: bool)
      requires Valid() && !isRunning && !recorder.isRecording
      modifies this`isRunning, this`hotkeysActive, recorder
      ensures Valid()
      ensures running <==> BackendHealthy(health) && SpeechClient.ClientConnected(speech, probe)
      ensures running ==> isRunning && hotkeysActive == (old(hotkeysActive) || hotkeysStart)
                          && recorder.isRecording && recorder.capturing == streamOpens
      ensures running && streamOpens ==> recorder.State() == AudioRecorder.Fresh(now)
      ensures !running ==> !isRunning && !hotkeysActive && !recorder.isRecording
      ensures recorder.delivered == old(recorder.delivered)
    {
      if !BackendHealthy(health) || !SpeechClient.ClientConnected(speech, probe) {
        Stop(now);
        return false;
      }
      if hotkeysStart {
        hotkeysActive := true;
      }
      recorder.StartRecording(now, streamOpens);
      isRunning := true;
      running := true;
    }

    /** A whole `start` call: the gated start-up, then, while the assistant waits,
        the recording thread capturing `input` until the interrupt at `stopTime`,
        and finally `stop`. However it went, the assistant ends stopped, and the
        recorder has handed on exactly what its capture loop produced. */
    method Serve(health: HttpReply, probe: SpeechClient.Probe, hotkeysStart: bool, startTime: int,
                 streamOpens: bool, input: seq<AudioRecorder.Read>, stopTime: int)
      returns (running: bool)
      requires Valid() && !isRunning && !recorder.isRecording
      modifies this`isRunning, this`hotkeysActive, recorder
      ensures Valid() && !isRunning && !hotkeysActive && !recorder.isRecording
      ensures running <==> BackendHealthy(health) && SpeechClient.ClientConnected(speech, probe)
      ensures recorder.delivered == old(recorder.delivered)
        + (if running && streamOpens
           then AudioRecorder.Session(recorder.config, AudioRecorder.Fresh(startTime), input, stopTime)
           else [])
    {
      running := Start(health, probe, hotkeysStart, startTime, streamOpens);
      if running && streamOpens {
        recorder.Capture(input, stopTime);
      }
      Stop(stopTime);
    }
  }
}
