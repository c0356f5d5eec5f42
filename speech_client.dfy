/** The multi-provider speech recognition client of the desktop tool: which provider
    a configuration selects (with its fall-back to local Whisper), how each
    provider's reply becomes a transcript, the clean-up of the audio file after a
    transcription, and the provider summary. The SDKs, the network and the file
    system are oracles: what they answer is passed in. */
module SpeechClient {
  import opened Wrappers
  import opened Text

  /** The five recognisers the client can drive. */
  datatype Provider = LocalWhisper | OpenAI | Tencent | Aliyun | Baidu

  /** The settings the client reads (`Config` after the environment is loaded).
      An empty string is an unset value. */
  datatype Settings = Settings(
    speechProvider: string,
    speechLanguage: string,
    whisperModel: string,
    openaiApiKey: string,
    tencentSecretId: string,
    tencentSecretKey: string,
    aliyunAccessKeyId: string,
    aliyunAccessKeySecret: string,
    baiduApiKey: string,
    baiduSecretKey: string,
    saveAudioFiles: bool)

  /** Why a provider constructor raises: a credential is unset (`ValueError`), or
      the SDK cannot be imported or the Whisper model cannot be loaded. */
  datatype InitError = MissingCredentials | SdkUnavailable

  /** The lower-case name that selects each provider. */
  function Name(p: Provider): string {
    match p
    case LocalWhisper => "local_whisper"
    case OpenAI => "openai"
    case Tencent => "tencent"
    case Aliyun => "aliyun"
    case Baidu => "baidu"
  }

  /** The provider a configured name asks for: the name is lower-cased and compared
      exactly with the five provider names; any other name asks for nothing. */
  function Requested(name: string): (r: Option<Provider>)
    ensures r.Some? <==> exists p: Provider :: Lower(name) == Name(p)
    ensures r.Some? ==> Lower(name) == Name(r.value)
  {
    var n := Lower(name);
    var r :=
      if n == "local_whisper" then Some(LocalWhisper)
      else if n == "openai" then Some(OpenAI)
      else if n == "tencent" then Some(Tencent)
      else if n == "aliyun" then Some(Aliyun)
      else if n == "baidu" then Some(Baidu)
      else None;
    assert r.Some? ==> n == Name(r.value);
    r
  }

  lemma LowerCharIdempotent(c: char)
    ensures LowerChar(LowerChar(c)) == LowerChar(c)
  {
  }

  /** Every provider is selected by its own name, in any mix of upper and lower case. */
  lemma RequestedName(p: Provider, name: string)
    requires Lower(name) == Name(p)
    ensures Requested(name) == Some(p)
  {
  }

  /** Lower-casing the configured name first changes nothing about the selection. */
  lemma RequestedIgnoresCase(name: string)
    ensures Requested(Lower(name)) == Requested(name)
  {
    forall i | 0 <= i < |name|
      ensures Lower(Lower(name))[i] == Lower(name)[i]
    {
      LowerCharIdempotent(name[i]);
    }
    assert Lower(Lower(name)) == Lower(name);
  }

  /** The credentials a provider's constructor insists on are all set. */
  predicate CredentialsPresent(p: Provider, s: Settings) {
    match p
    case LocalWhisper => true
    case OpenAI => s.openaiApiKey != ""
    case Tencent => s.tencentSecretId != "" && s.tencentSecretKey != ""
    case Aliyun => s.aliyunAccessKeyId != "" && s.aliyunAccessKeySecret != ""
    case Baidu => s.baiduApiKey != "" && s.baiduSecretKey != ""
  }

  /** A provider's constructor. `loadable` is the set of providers whose SDK imports
      (and, for local Whisper, whose model loads). The credential check comes first. */
  function Construct(p: Provider, s: Settings, loadable: set<Provider>): (r: Result<Provider, InitError>)
    ensures r.Success? <==> CredentialsPresent(p, s) && p in loadable
    ensures r.Success? ==> r.value == p
    ensures r == Failure(MissingCredentials) <==> !CredentialsPresent(p, s)
  {
    if !CredentialsPresent(p, s) then Failure(MissingCredentials)
    else if p !in loadable then Failure(SdkUnavailable)
    else Success(p)
  }

  /** `_create_provider`: the requested provider (local Whisper for an unknown name);
      when that constructor raises, local Whisper is constructed outside the guard,
      so its own failure is the result. */
  function CreateProvider(s: Settings, loadable: set<Provider>): (r: Result<Provider, InitError>)
    ensures var want := Requested(s.speechProvider).GetOr(LocalWhisper);
      r.Success? <==> Construct(want, s, loadable).Success? || LocalWhisper in loadable
    ensures var want := Requested(s.speechProvider).GetOr(LocalWhisper);
      r.Success? ==> r.value == (if Construct(want, s, loadable).Success? then want else LocalWhisper)
  {
    var want := Requested(s.speechProvider).GetOr(LocalWhisper);
    match Construct(want, s, loadable)
    case Success(p) => Success(p)
    case Failure(_) => Construct(LocalWhisper, s, loadable)
  }

  /** Whenever the local Whisper model loads, a client always comes up, and with
      either the requested provider or local Whisper. */
  lemma CreateProviderFallsBack(s: Settings, loadable: set<Provider>)
    requires LocalWhisper in loadable
    ensures CreateProvider(s, loadable).Success?
    ensures var p := CreateProvider(s, loadable).value;
      p == LocalWhisper || Requested(s.speechProvider) == Some(p)
  {
  }

  /** A provider other than local Whisper is used only when it was named and its
      credentials are set. */
  lemma CreateProviderNeedsCredentials(s: Settings, loadable: set<Provider>)
    requires CreateProvider(s, loadable).Success?
    requires CreateProvider(s, loadable).value != LocalWhisper
    ensures Requested(s.speechProvider) == Some(CreateProvider(s, loadable).value)
    ensures CredentialsPresent(CreateProvider(s, loadable).value, s)
  {
  }

  /** Without the local Whisper model the client cannot come up unless the requested
      provider constructs: the fall-back is not itself guarded. */
  lemma CreateProviderFailure(s: Settings, loadable: set<Provider>)
    requires LocalWhisper !in loadable
    ensures CreateProvider(s, loadable).Failure?
        <==> Requested(s.speechProvider).None?
             || !Construct(Requested(s.speechProvider).value, s, loadable).Success?
  {
  }

  /** The text a provider hands back: stripped, and nothing when that leaves nothing. */
  function Normalise(text: string): (r: Option<string>)
    ensures r.None? <==> forall i :: 0 <= i < |text| ==> IsSpace(text[i])
    ensures r.Some? ==> r.value != [] && !IsSpace(r.value[0]) && !IsSpace(r.value[|r.value| - 1])
    ensures r.Some? ==> |r.value| <= |text|
  {
    var t := Strip(text);
    if t == [] then None else Some(t)
  }

  /** A transcript passes through normalisation unchanged. */
  lemma NormaliseIdempotent(text: string)
    requires Normalise(text).Some?
    ensures Normalise(Normalise(text).value) == Normalise(text)
  {
    StripIdempotent(text);
  }

  /** What an SDK call produced, per reply shape:
      `TextReply` the dictionary of Whisper (local or OpenAI) with its `text` entry
      if any; `TaskReply` Tencent's task response with `Data.Result` if present;
      `AsrReply` Baidu's dictionary with its `err_no` and `result` entries if any;
      `Raised` an exception (including a file that cannot be read). */
  datatype SdkReply =
    | Raised
    | TextReply(text: Option<string>)
    | TaskReply(taskResult: Option<string>)
    | AsrReply(errNo: Option<int>, result: Option<seq<string>>)

  /** The reply shape each provider's SDK answers with. */
  predicate Fits(p: Provider, reply: SdkReply) {
    match p
    case LocalWhisper => reply.TextReply?
    case OpenAI => reply.TextReply?
    case Tencent => reply.TaskReply?
    case Aliyun => false
    case Baidu => reply.AsrReply?
  }

  /** Baidu's reply carries text only when `err_no` is 0 and `result` is a non-empty list. */
  predicate BaiduAccepted(reply: SdkReply)
    requires reply.AsrReply?
  {
    reply.errNo == Some(0) && reply.result.Some? && reply.result.value != []
  }

  /** Each provider's `transcribe`: every failure is caught and gives nothing;
      Aliyun is a stub that never transcribes. A reply of any other shape than the
      provider's own would raise inside the guard. */
  function Transcribe(p: Provider, reply: SdkReply): (r: Option<string>)
    ensures r.Some? ==> Fits(p, reply)
    ensures r.Some? ==> r.value != [] && !IsSpace(r.value[0]) && !IsSpace(r.value[|r.value| - 1])
    ensures p == Aliyun ==> r.None?
  {
    if !Fits(p, reply) then None
    else match reply
      case TextReply(text) => Normalise(text.GetOr(""))
      case TaskReply(taskResult) => Normalise(taskResult.GetOr(""))
      case AsrReply(_, result) => if BaiduAccepted(reply) then Normalise(Concat(result.value)) else None
  }

  /** Whisper's and OpenAI's transcript is their stripped `text`, absent when blank. */
  lemma WhisperTranscript(p: Provider, text: string)
    requires p == LocalWhisper || p == OpenAI
    ensures Transcribe(p, TextReply(Some(text))).Some?
        <==> exists i :: 0 <= i < |text| && !IsSpace(text[i])
    ensures Transcribe(p, TextReply(Some(text))).Some? ==> Transcribe(p, TextReply(Some(text))).value == Strip(text)
    ensures Transcribe(p, TextReply(None)).None?
  {
  }

  /** Baidu gives text exactly when the call succeeded with a non-empty result whose
      joined pieces are not blank; the transcript is the joined pieces, stripped. */
  lemma BaiduTranscript(errNo: Option<int>, result: Option<seq<string>>)
    ensures var r := Transcribe(Baidu, AsrReply(errNo, result));
      r.Some? <==> errNo == Some(0) && result.Some? && result.value != []
                   && exists i :: 0 <= i < |Concat(result.value)| && !IsSpace(Concat(result.value)[i])
    ensures var r := Transcribe(Baidu, AsrReply(errNo, result));
      r.Some? ==> r.value == Strip(Concat(result.value))
  {
  }

  /** A raised SDK call never yields a transcript, whatever the provider. */
  lemma RaisedGivesNothing(p: Provider)
    ensures Transcribe(p, Raised).None?
  {
  }

  /** What a provider's connection probe observed: the call returned, or raised with
      a message. */
  datatype Probe = Returned | Failed(message: string)

  /** Each provider's `test_connection`. A constructed local Whisper provider always
      holds its model; Tencent reads an error as a working connection unless its
      message mentions `AuthFailure`; Aliyun always reports no connection. */
  function TestConnection(p: Provider, probe: Probe): (r: bool)
    ensures p == LocalWhisper ==> r
    ensures p == Aliyun ==> !r
    ensures probe == Returned ==> (r <==> p != Aliyun)
    ensures p == Tencent && probe.Failed? ==> (r <==> !Contains(probe.message, "AuthFailure"))
    ensures (p == OpenAI || p == Baidu) ==> (r <==> probe == Returned)
  {
    match p
    case LocalWhisper => true
    case Aliyun => false
    case Tencent => probe.Returned? || !Contains(probe.message, "AuthFailure")
    case _ => probe.Returned?
  }

  /** The `language` argument sent to Whisper and OpenAI: the part of the configured
      language before its first `-` (`zh-CN` gives `zh`), or nothing when unset. */
  function RequestLanguage(language: string): (r: Option<string>)
    ensures r.None? <==> language == ""
    ensures r.Some? ==> StartsWith(language, r.value) && '-' !in r.value
    ensures r.Some? && '-' !in language ==> r.value == language
    ensures r.Some? ==> |r.value| == |language| || language[|r.value|] == '-'
  {
    if language == "" then None
    else
      var parts := SplitOn(language, '-');
      var k := FirstIn(language, {'-'});
      assert parts[0] == language[..k];
      Some(parts[0])
  }

  /** A language tag `code-region` is sent as its `code`. */
  lemma RequestLanguageOfTag(code: string, region: string)
    requires '-' !in code
    ensures RequestLanguage(code + "-" + region) == Some(code)
  {
    var tag := code + "-" + region;
    var r := RequestLanguage(tag).value;
    assert tag[|code|] == '-';
    assert tag[..|code|] == code;
  }

  /** The client: its settings and the provider chosen once at construction. */
  datatype Client = Client(settings: Settings, provider: Provider)

  /** `SpeechRecognitionClient()`: raises when provider creation does. */
  function NewClient(s: Settings, loadable: set<Provider>): (r: Result<Client, InitError>)
    ensures r.Success? <==> CreateProvider(s, loadable).Success?
    ensures r.Success? ==> r.value.settings == s && r.value.provider == CreateProvider(s, loadable).value
    ensures r.Failure? ==> r.error == CreateProvider(s, loadable).error
  {
    match CreateProvider(s, loadable)
    case Success(p) => Success(Client(s, p))
    case Failure(e) => Failure(e)
  }

  /** The outcome of `transcribe_audio`: the transcript and the audio files on disk
      afterwards. */
  datatype Transcription = Transcription(text: Option<string>, files: set<string>)

  /** `_cleanup_audio_file`: the file is removed only when audio files are not kept,
      the file exists and the removal succeeds (`removable`); a failed removal is
      only logged. */
  function Cleanup(s: Settings, path: string, files: set<string>, removable: bool): (r: set<string>)
    ensures r <= files && files - r <= {path}
    ensures path !in r <==> path !in files || (!s.saveAudioFiles && removable)
  {
    if !s.saveAudioFiles && path in files && removable then files - {path} else files
  }

  /** `transcribe_audio`: a missing file gives nothing and the provider is not called;
      otherwise the provider's transcript. Clean-up runs on every path. */
  function TranscribeAudio(c: Client, path: string, files: set<string>, reply: SdkReply, removable: bool)
    : (r: Transcription)
    ensures path !in files ==> r == Transcription(None, files)
    ensures path in files ==> r.text == Transcribe(c.provider, reply)
    ensures r.files == Cleanup(c.settings, path, files, removable)
  {
    var text := if path in files then Transcribe(c.provider, reply) else None;
    Transcription(text, Cleanup(c.settings, path, files, removable))
  }

  /** Only the transcribed file can disappear, and it stays when audio files are kept. */
  lemma TranscribeAudioKeepsOtherFiles(c: Client, path: string, files: set<string>, reply: SdkReply, removable: bool)
    ensures var r := TranscribeAudio(c, path, files, reply, removable);
      forall f :: f in files && f != path ==> f in r.files
    ensures c.settings.saveAudioFiles ==> TranscribeAudio(c, path, files, reply, removable).files == files
    ensures !c.settings.saveAudioFiles && removable ==> path !in TranscribeAudio(c, path, files, reply, removable).files
  {
  }

  /** `test_connection` of the client: the provider's answer (it raises never). */
  function ClientConnected(c: Client, probe: Probe): bool {
    TestConnection(c.provider, probe)
  }

  /** The dictionary `get_provider_info` returns. */
  datatype ProviderInfo = ProviderInfo(provider: string, language: string, model: Option<string>, connected: bool)

  /** `get_provider_info`: the configured name, even after a fall-back, and the Whisper
      model only when that name is exactly `local_whisper`. */
  function GetProviderInfo(c: Client, probe: Probe): (r: ProviderInfo)
    ensures r.provider == c.settings.speechProvider && r.language == c.settings.speechLanguage
    ensures r.model.Some? <==> c.settings.speechProvider == "local_whisper"
    ensures r.model.Some? ==> r.model.value == c.settings.whisperModel
    ensures r.connected == TestConnection(c.provider, probe)
  {
    ProviderInfo(
      c.settings.speechProvider,
      c.settings.speechLanguage,
      if c.settings.speechProvider == "local_whisper" then Some(c.settings.whisperModel) else None,
      ClientConnected(c, probe))
  }

  /** A name in capitals selects local Whisper, yet the summary reports no model. */
  lemma UpperCaseNameHasNoModel(s: Settings, loadable: set<Provider>, probe: Probe)
    requires s.speechProvider == "LOCAL_WHISPER" && LocalWhisper in loadable
    ensures NewClient(s, loadable).Success?
    ensures NewClient(s, loadable).value.provider == LocalWhisper
    ensures GetProviderInfo(NewClient(s, loadable).value, probe).model.None?
  {
    assert Lower(s.speechProvider) == "local_whisper";
  }

  /** After a fall-back the summary still names the provider that was asked for. */
  lemma FallbackReportsRequestedName(s: Settings, loadable: set<Provider>, probe: Probe)
    requires s.speechProvider == "openai" && s.openaiApiKey == "" && LocalWhisper in loadable
    ensures NewClient(s, loadable).Success?
    ensures NewClient(s, loadable).value.provider == LocalWhisper
    ensures GetProviderInfo(NewClient(s, loadable).value, probe).provider == "openai"
  {
    assert Lower(s.speechProvider) == "openai";
  }
}
