/** The configuration wizard: the Gemini key of the backend environment file, the
    speech-provider menu, and the credentials written into the desktop tool's
    environment file, where every unanswered prompt gets a fixed placeholder.
    Typed answers are parameters (`answer(i)` is what the i-th credential prompt
    reads), the random `SECRET_KEY` is a parameter, and an environment file is
    modelled by its lines, or by its `KEY=value` settings in order. */
module SetupConfig {
  import opened Wrappers
  import opened Text
  import SpeechClient
  import CheckPorts

  /** `x if x else placeholder` for a stripped answer `x`. */
  function OrPlaceholder(answer: string, placeholder: string): (v: string)
    ensures Strip(answer) != "" ==> v == Strip(answer)
    ensures Strip(answer) == "" ==> v == placeholder
  {
    var x := Strip(answer);
    if x != "" then x else placeholder
  }

  /** A defaulted answer is never empty when its placeholder is not, and never has
      blanks around it. */
  lemma OrPlaceholderShape(answer: string, placeholder: string)
    requires placeholder != [] && !IsSpace(placeholder[0]) && !IsSpace(placeholder[|placeholder| - 1])
    ensures OrPlaceholder(answer, placeholder) != ""
    ensures Strip(OrPlaceholder(answer, placeholder)) == OrPlaceholder(answer, placeholder)
  {
    if Strip(answer) != "" {
      StripIdempotent(answer);
    } else {
      StripUnchanged(placeholder);
    }
  }

  // ---- setup_backend_config ----

  const GeminiPlaceholder: string := "your_gemini_api_key_here"

  /** The Gemini key written to the backend file: the stripped answer, or the
      placeholder when nothing was typed. */
  function GeminiKey(answer: string): string {
    OrPlaceholder(answer, GeminiPlaceholder)
  }

  /** The summary line reports the key as set iff it is not the placeholder. */
  predicate GeminiKeyReportedSet(key: string) {
    key != GeminiPlaceholder
  }

  /** The key is reported as set iff something was typed and it was not the
      placeholder text itself. */
  lemma GeminiKeyReport(answer: string)
    ensures GeminiKeyReportedSet(GeminiKey(answer)) <==> Strip(answer) != "" && Strip(answer) != GeminiPlaceholder
  {
  }

  /** The development file the backend wizard writes, line by line. */
  function BackendEnvLines(geminiKey: string, secretKey: string): seq<string> {
    ["# 开发环境配置\n", "FLASK_ENV=development\n", "\n",
     "# Gemini API 配置\n", "GEMINI_API_KEY=" + geminiKey + "\n", "\n",
     "# Flask 配置\n", "SECRET_KEY=" + secretKey + "\n", "DEBUG=True\n", "\n",
     "# 服务器配置\n", "HOST=0.0.0.0\n"]
    + ["PORT=" + IntToString(5000) + "\n"]
    + ["\n",
       "# CORS 配置 - 开发环境允许本地访问\n",
       "CORS_ORIGINS=http://localhost:3000,http://127.0.0.1:3000,http://localhost:3001\n", "\n",
       "# Gemini 模型配置\n", "GEMINI_MODEL=gemini-pro\n", "\n",
       "# 日志配置 - 开发环境详细日志\n", "LOG_LEVEL=DEBUG\n", "\n",
       "# 开发环境特定配置\n", "SAVE_CONVERSATION_HISTORY=True\n", "MAX_CONVERSATION_HISTORY=100\n"]
  }

  /** Whatever key was typed, the generated backend file is read by the port checker
      as setting port 5000. */
  lemma BackendEnvSetsPort(geminiKey: string, secretKey: string)
    ensures CheckPorts.EnvPort(CheckPorts.Lines(BackendEnvLines(geminiKey, secretKey))) == Some(5000)
  {
    var lines := BackendEnvLines(geminiKey, secretKey);
    var before := lines[..12];
    var line := lines[12];
    var after := lines[13..];
    assert lines == before + [line] + after;
    assert line == "PORT=" + IntToString(5000) + "\n";
    forall k | 0 <= k < |before|
      ensures !StartsWith(before[k], "PORT=")
    {
      assert before[k][0] != 'P';
    }
    CheckPorts.EnvPortFirstLineWins(before, line, after);
    CheckPorts.EnvPortRoundTrip(5000, []);
    assert CheckPorts.EnvPort(CheckPorts.Lines([line] + [])) == CheckPorts.EnvPort(CheckPorts.Lines([line] + after));
  }

  // ---- setup_desktop_config ----

  /** The speech-provider menu. */
  const ProviderMap: map<string, SpeechClient.Provider> := map[
    "1" := SpeechClient.LocalWhisper,
    "2" := SpeechClient.OpenAI,
    "3" := SpeechClient.Tencent,
    "4" := SpeechClient.Aliyun,
    "5" := SpeechClient.Baidu
  ]

  /** The provider a (stripped) menu answer selects; anything else, the empty
      answer included, selects local Whisper. */
  function ProviderForChoice(choice: string): (p: SpeechClient.Provider)
    ensures choice in ProviderMap ==> p == ProviderMap[choice]
    ensures choice !in ProviderMap ==> p == SpeechClient.LocalWhisper
  {
    if choice in ProviderMap then ProviderMap[choice] else SpeechClient.LocalWhisper
  }

  /** Every provider is on the menu, and its name as written to the file is read
      back by the speech client as that provider. */
  lemma ProviderMenuRoundTrip(p: SpeechClient.Provider)
    ensures exists choice :: choice in ProviderMap && ProviderForChoice(choice) == p
    ensures SpeechClient.Requested(SpeechClient.Name(p)) == Some(p)
  {
    var choice := match p
      case LocalWhisper => "1"
      case OpenAI => "2"
      case Tencent => "3"
      case Aliyun => "4"
      case Baidu => "5";
    assert choice in ProviderMap && ProviderForChoice(choice) == p;
    LowerNames(p);
    SpeechClient.RequestedName(p, SpeechClient.Name(p));
  }

  /** The credential settings of the desktop file. */
  datatype Credential =
    | OpenAIApiKey
    | TencentSecretId | TencentSecretKey | TencentRegion
    | AliyunAccessKeyId | AliyunAccessKeySecret | AliyunAppKey
    | BaiduApiKey | BaiduSecretKey

  function CredentialName(c: Credential): string {
    match c
    case OpenAIApiKey => "OPENAI_API_KEY"
    case TencentSecretId => "TENCENT_SECRET_ID"
    case TencentSecretKey => "TENCENT_SECRET_KEY"
    case TencentRegion => "TENCENT_REGION"
    case AliyunAccessKeyId => "ALIYUN_ACCESS_KEY_ID"
    case AliyunAccessKeySecret => "ALIYUN_ACCESS_KEY_SECRET"
    case AliyunAppKey => "ALIYUN_APP_KEY"
    case BaiduApiKey => "BAIDU_API_KEY"
    case BaiduSecretKey => "BAIDU_SECRET_KEY"
  }

  /** The value a credential gets when its prompt is left empty, or when the
      provider it belongs to was not chosen. */
  function Placeholder(c: Credential): string {
    match c
    case OpenAIApiKey => "your_openai_api_key_here"
    case TencentSecretId => "your_tencent_secret_id_here"
    case TencentSecretKey => "your_tencent_secret_key_here"
    case TencentRegion => "ap-beijing"
    case AliyunAccessKeyId => "your_aliyun_access_key_id_here"
    case AliyunAccessKeySecret => "your_aliyun_access_key_secret_here"
    case AliyunAppKey => "your_aliyun_app_key_here"
    case BaiduApiKey => "your_baidu_api_key_here"
    case BaiduSecretKey => "your_baidu_secret_key_here"
  }

  /** Every placeholder is a non-empty word without blanks around it. */
  lemma PlaceholderShape(c: Credential)
    ensures var v := Placeholder(c); v != [] && !IsSpace(v[0]) && !IsSpace(v[|v| - 1])
  {
    var v := Placeholder(c);
    assert v[0] == 'y' || v[0] == 'a';
    assert v[|v| - 1] == 'e' || v[|v| - 1] == 'g';
  }

  /** The credential prompts for a provider, in the order they are asked. */
  function PromptedKeys(provider: SpeechClient.Provider): seq<Credential> {
    match provider
    case OpenAI => [OpenAIApiKey]
    case Tencent => [TencentSecretId, TencentSecretKey, TencentRegion]
    case Aliyun => [AliyunAccessKeyId, AliyunAccessKeySecret, AliyunAppKey]
    case Baidu => [BaiduApiKey, BaiduSecretKey]
    case LocalWhisper => []
  }

  /** The provider whose prompts ask for `c`. */
  function Owner(c: Credential): SpeechClient.Provider {
    match c
    case OpenAIApiKey => SpeechClient.OpenAI
    case TencentSecretId | TencentSecretKey | TencentRegion => SpeechClient.Tencent
    case AliyunAccessKeyId | AliyunAccessKeySecret | AliyunAppKey => SpeechClient.Aliyun
    case BaiduApiKey | BaiduSecretKey => SpeechClient.Baidu
  }

  /** The position of `c` among its provider's prompts. */
  function PromptIndex(c: Credential): nat {
    match c
    case OpenAIApiKey | TencentSecretId | AliyunAccessKeyId | BaiduApiKey => 0
    case TencentSecretKey | AliyunAccessKeySecret | BaiduSecretKey => 1
    case TencentRegion | AliyunAppKey => 2
  }

  /** The prompts of a provider are exactly the credentials it owns, each at its
      own position, and no credential is asked twice; local Whisper asks nothing. */
  lemma PromptedKeysOwned(provider: SpeechClient.Provider)
    ensures var keys := PromptedKeys(provider);
      (forall c :: c in keys <==> Owner(c) == provider)
      && (forall i :: 0 <= i < |keys| ==> PromptIndex(keys[i]) == i)
      && (forall i, j :: 0 <= i < j < |keys| ==> keys[i] != keys[j])
    ensures provider == SpeechClient.LocalWhisper ==> PromptedKeys(provider) == []
  {
    var keys := PromptedKeys(provider);
    forall c
      ensures c in keys <==> Owner(c) == provider
    {
      if Owner(c) == provider {
        assert keys[PromptIndex(c)] == c;
      }
    }
  }

  /** The value recorded for `c` once its prompt is answered: the stripped answer
      to that prompt, or the placeholder when it is empty. */
  function Answer(c: Credential, answer: nat -> string): string {
    OrPlaceholder(answer(PromptIndex(c)), Placeholder(c))
  }

  /** What the wizard records for `provider`: exactly the provider's own settings,
      each holding the answer to its prompt or its placeholder. */
  ghost predicate Recorded(provider: SpeechClient.Provider, answer: nat -> string, apiConfigs: map<Credential, string>) {
    (forall c :: c in apiConfigs <==> Owner(c) == provider)
    && (forall c :: c in apiConfigs ==> apiConfigs[c] == Answer(c, answer))
  }

  /** The menu of `setup_desktop_config`: the stripped answer picks the provider. */
  method ChooseProvider(choiceAnswer: string) returns (provider: SpeechClient.Provider)
    ensures provider == ProviderForChoice(Strip(choiceAnswer))
  {
    var choice := Strip(choiceAnswer);
    provider := ProviderForChoice(choice);
  }

  /** The prompts of `setup_desktop_config` for the chosen provider, asked in
      order; each answer, or its placeholder, is recorded under its setting.
      Nothing is asked for local Whisper. */
  method AskCredentials(provider: SpeechClient.Provider, answer: nat -> string)
    returns (apiConfigs: map<Credential, string>)
    ensures Recorded(provider, answer, apiConfigs)
  {
    apiConfigs := map[];
    match provider {
      case OpenAI =>
      apiConfigs := apiConfigs[OpenAIApiKey := Answer(OpenAIApiKey, answer)];
      case Tencent =>
      apiConfigs := apiConfigs[TencentSecretId := Answer(TencentSecretId, answer)];
      apiConfigs := apiConfigs[TencentSecretKey := Answer(TencentSecretKey, answer)];
      apiConfigs := apiConfigs[TencentRegion := Answer(TencentRegion, answer)];
      case Aliyun =>
      apiConfigs := apiConfigs[AliyunAccessKeyId := Answer(AliyunAccessKeyId, answer)];
      apiConfigs := apiConfigs[AliyunAccessKeySecret := Answer(AliyunAccessKeySecret, answer)];
      apiConfigs := apiConfigs[AliyunAppKey := Answer(AliyunAppKey, answer)];
      case Baidu =>
      apiConfigs := apiConfigs[BaiduApiKey := Answer(BaiduApiKey, answer)];
      apiConfigs := apiConfigs[BaiduSecretKey := Answer(BaiduSecretKey, answer)];
      case LocalWhisper =>
    }
  }

  /** A prompt left blank records its placeholder (`ap-beijing` for the Tencent
      region), and a typed answer is recorded stripped; the other providers'
      settings are not recorded at all. */
  lemma RecordedAnswers(provider: SpeechClient.Provider, answer: nat -> string, apiConfigs: map<Credential, string>, c: Credential)
    requires Recorded(provider, answer, apiConfigs)
    ensures Owner(c) != provider ==> c !in apiConfigs
    ensures Owner(c) == provider && Strip(answer(PromptIndex(c))) == "" ==> c in apiConfigs && apiConfigs[c] == Placeholder(c)
    ensures Owner(c) == provider && Strip(answer(PromptIndex(c))) != "" ==> c in apiConfigs && apiConfigs[c] == Strip(answer(PromptIndex(c)))
    ensures Placeholder(TencentRegion) == "ap-beijing"
  {
  }

  /** The first part of `setup_desktop_config`: the menu, then the prompts. */
  method SetupDesktopConfig(choiceAnswer: string, answer: nat -> string)
    returns (provider: SpeechClient.Provider, apiConfigs: map<Credential, string>)
    ensures provider == ProviderForChoice(Strip(choiceAnswer))
    ensures Recorded(provider, answer, apiConfigs)
  {
    provider := ChooseProvider(choiceAnswer);
    apiConfigs := AskCredentials(provider, answer);
  }

  /** `api_configs.get(key, placeholder)` as the template renders it. */
  function Setting(apiConfigs: map<Credential, string>, c: Credential): string {
    if c in apiConfigs then apiConfigs[c] else Placeholder(c)
  }

  /** A setting of the generated desktop file: the provider line, a credential, or
      one of the fixed lines of the template. */
  datatype Key = SpeechProviderKey | Cred(c: Credential) | Fixed(name: string)

  function KeyName(k: Key): string {
    match k
    case SpeechProviderKey => "SPEECH_PROVIDER"
    case Cred(c) => CredentialName(c)
    case Fixed(name) => name
  }

  datatype Entry = Entry(key: Key, value: string)

  /** The `KEY=value` lines of the desktop template, in file order. */
  function DesktopEntries(provider: SpeechClient.Provider, apiConfigs: map<Credential, string>): seq<Entry> {
    [Entry(Fixed("ENVIRONMENT"), "development"),
     Entry(Fixed("BACKEND_URL"), "http://localhost:5000"),
     Entry(Fixed("SAMPLE_RATE"), "16000"),
     Entry(Fixed("CHUNK_SIZE"), "1024"),
     Entry(Fixed("CHANNELS"), "1"),
     Entry(SpeechProviderKey, SpeechClient.Name(provider)),
     Entry(Fixed("SPEECH_LANGUAGE"), "zh-CN"),
     Entry(Fixed("WHISPER_MODEL"), "base")]
    + CredentialEntries(apiConfigs)
    + [Entry(Fixed("HOTKEY_COMBINATION"), "cmd+shift+n"),
       Entry(Fixed("SILENCE_THRESHOLD"), "0.005"),
       Entry(Fixed("SILENCE_DURATION"), "1.5"),
       Entry(Fixed("MIN_RECORDING_DURATION"), "0.5"),
       Entry(Fixed("DEBUG"), "True"),
       Entry(Fixed("SAVE_AUDIO_FILES"), "True")]
  }

  /** The order in which the template lists the credentials. */
  const CredentialOrder: seq<Credential> := [OpenAIApiKey, TencentSecretId, TencentSecretKey,
    TencentRegion, AliyunAccessKeyId, AliyunAccessKeySecret, AliyunAppKey, BaiduApiKey, BaiduSecretKey]

  function Position(c: Credential): nat {
    match c
    case OpenAIApiKey => 0
    case TencentSecretId => 1
    case TencentSecretKey => 2
    case TencentRegion => 3
    case AliyunAccessKeyId => 4
    case AliyunAccessKeySecret => 5
    case AliyunAppKey => 6
    case BaiduApiKey => 7
    case BaiduSecretKey => 8
  }

  /** Every credential appears in the template exactly once, at its position. */
  lemma CredentialOrderPositions(c: Credential)
    ensures Position(c) < |CredentialOrder| && CredentialOrder[Position(c)] == c
    ensures forall j :: 0 <= j < Position(c) ==> CredentialOrder[j] != c
  {
  }

  function CredentialEntries(apiConfigs: map<Credential, string>): seq<Entry> {
    seq(|CredentialOrder|, i requires 0 <= i < |CredentialOrder| =>
      Entry(Cred(CredentialOrder[i]), Setting(apiConfigs, CredentialOrder[i])))
  }

  /** The `KEY=value` lines of the generated file, each with its newline; the
      template's comment and blank lines are not included. */
  function DesktopEnvLines(provider: SpeechClient.Provider, apiConfigs: map<Credential, string>): seq<string> {
    var entries := DesktopEntries(provider, apiConfigs);
    seq(|entries|, i requires 0 <= i < |entries| => KeyName(entries[i].key) + "=" + entries[i].value + "\n")
  }

  /** The value the first entry for `k` holds, taken as raw text after the `=`
      (`os.getenv` after the file is loaded, for values the loader reads back
      unchanged; no key of the template occurs twice). */
  function Lookup(entries: seq<Entry>, k: Key): Option<string> {
    if entries == [] then None
    else if entries[0].key == k then Some(entries[0].value)
    else Lookup(entries[1..], k)
  }

  /** The lookup finds the first entry with the key, and nothing when there is none. */
  lemma {:induction false} LookupSpec(entries: seq<Entry>, k: Key)
    ensures Lookup(entries, k).None? <==> forall i :: 0 <= i < |entries| ==> entries[i].key != k
    ensures forall i :: (0 <= i < |entries| && entries[i].key == k
      && (forall j :: 0 <= j < i ==> entries[j].key != k)) ==> Lookup(entries, k) == Some(entries[i].value)
  {
    if entries != [] {
      LookupSpec(entries[1..], k);
      assert forall i :: 1 <= i < |entries| ==> entries[i] == entries[1..][i - 1];
      if entries[0].key != k {
        forall i | 0 <= i < |entries| && entries[i].key == k && (forall j :: 0 <= j < i ==> entries[j].key != k)
          ensures Lookup(entries, k) == Some(entries[i].value)
        {
          assert i >= 1;
          assert forall j :: 0 <= j < i - 1 ==> entries[1..][j].key != k by {
            forall j | 0 <= j < i - 1
              ensures entries[1..][j].key != k
            {
              assert entries[1..][j] == entries[j + 1];
            }
          }
        }
      }
    }
  }

  /** Where the template puts the provider, the credentials and the audio flag. */
  lemma DesktopEntriesLayout(provider: SpeechClient.Provider, apiConfigs: map<Credential, string>)
    ensures var entries := DesktopEntries(provider, apiConfigs);
      |entries| == 23
      && entries[5] == Entry(SpeechProviderKey, SpeechClient.Name(provider))
      && (forall i :: 0 <= i < 8 ==> !entries[i].key.Cred?)
      && (forall i :: 0 <= i < |entries| && i != 5 ==> entries[i].key != SpeechProviderKey)
      && (forall i :: 8 <= i < 17 ==> entries[i] == Entry(Cred(CredentialOrder[i - 8]), Setting(apiConfigs, CredentialOrder[i - 8])))
      && entries[22] == Entry(Fixed("SAVE_AUDIO_FILES"), "True")
      && (forall i :: 0 <= i < 22 ==> entries[i].key != Fixed("SAVE_AUDIO_FILES"))
  {
    var entries := DesktopEntries(provider, apiConfigs);
    var creds := CredentialEntries(apiConfigs);
    assert forall i :: 8 <= i < 17 ==> entries[i] == creds[i - 8];
  }

  /** The generated file sets the chosen provider, and every credential as recorded
      or as its placeholder. */
  lemma DesktopEntriesHold(provider: SpeechClient.Provider, apiConfigs: map<Credential, string>)
    ensures Lookup(DesktopEntries(provider, apiConfigs), SpeechProviderKey) == Some(SpeechClient.Name(provider))
    ensures forall c :: Lookup(DesktopEntries(provider, apiConfigs), Cred(c)) == Some(Setting(apiConfigs, c))
    ensures Lookup(DesktopEntries(provider, apiConfigs), Fixed("SAVE_AUDIO_FILES")) == Some("True")
  {
    var entries := DesktopEntries(provider, apiConfigs);
    DesktopEntriesLayout(provider, apiConfigs);
    LookupSpec(entries, SpeechProviderKey);
    LookupSpec(entries, Fixed("SAVE_AUDIO_FILES"));
    forall c
      ensures Lookup(entries, Cred(c)) == Some(Setting(apiConfigs, c))
    {
      CredentialEntryHolds(entries, provider, apiConfigs, c);
    }
  }

  lemma CredentialEntryHolds(entries: seq<Entry>, provider: SpeechClient.Provider, apiConfigs: map<Credential, string>, c: Credential)
    requires entries == DesktopEntries(provider, apiConfigs)
    ensures Lookup(entries, Cred(c)) == Some(Setting(apiConfigs, c))
  {
    DesktopEntriesLayout(provider, apiConfigs);
    LookupSpec(entries, Cred(c));
    CredentialOrderPositions(c);
    var i := 8 + Position(c);
    assert entries[i] == Entry(Cred(c), Setting(apiConfigs, c));
    forall j | 0 <= j < i
      ensures entries[j].key != Cred(c)
    {
      if j >= 8 {
        assert entries[j].key == Cred(CredentialOrder[j - 8]);
      }
    }
  }

  /** The provider line of the generated file names the chosen provider. */
  lemma DesktopEnvLinesNameProvider(provider: SpeechClient.Provider, apiConfigs: map<Credential, string>)
    ensures "SPEECH_PROVIDER=" + SpeechClient.Name(provider) + "\n" in DesktopEnvLines(provider, apiConfigs)
  {
    DesktopEntriesLayout(provider, apiConfigs);
    assert DesktopEnvLines(provider, apiConfigs)[5] == "SPEECH_PROVIDER=" + SpeechClient.Name(provider) + "\n";
  }

  /** `config.py`'s reading of the file for the speech client, with each value
      read back as written: each setting with its `os.getenv` default when the
      file lacks it, and the boolean flag true iff its text lower-cases to `true`. */
  function SettingsFromEntries(entries: seq<Entry>): SpeechClient.Settings {
    SpeechClient.Settings(
      speechProvider := Lookup(entries, SpeechProviderKey).GetOr("local_whisper"),
      speechLanguage := Lookup(entries, Fixed("SPEECH_LANGUAGE")).GetOr("zh-CN"),
      whisperModel := Lookup(entries, Fixed("WHISPER_MODEL")).GetOr("base"),
      openaiApiKey := Lookup(entries, Cred(OpenAIApiKey)).GetOr(""),
      tencentSecretId := Lookup(entries, Cred(TencentSecretId)).GetOr(""),
      tencentSecretKey := Lookup(entries, Cred(TencentSecretKey)).GetOr(""),
      aliyunAccessKeyId := Lookup(entries, Cred(AliyunAccessKeyId)).GetOr(""),
      aliyunAccessKeySecret := Lookup(entries, Cred(AliyunAccessKeySecret)).GetOr(""),
      baiduApiKey := Lookup(entries, Cred(BaiduApiKey)).GetOr(""),
      baiduSecretKey := Lookup(entries, Cred(BaiduSecretKey)).GetOr(""),
      saveAudioFiles := Lower(Lookup(entries, Fixed("SAVE_AUDIO_FILES")).GetOr("False")) == "true")
  }

  /** Every credential the wizard writes is non-empty and has no blanks around
      it: a typed one is a stripped non-empty answer, any other one a placeholder. */
  lemma CredentialsNonEmpty(provider: SpeechClient.Provider, answer: nat -> string, apiConfigs: map<Credential, string>)
    requires Recorded(provider, answer, apiConfigs)
    ensures forall c :: Setting(apiConfigs, c) != "" && Strip(Setting(apiConfigs, c)) == Setting(apiConfigs, c)
  {
    forall c
      ensures Setting(apiConfigs, c) != "" && Strip(Setting(apiConfigs, c)) == Setting(apiConfigs, c)
    {
      PlaceholderShape(c);
      OrPlaceholderShape(answer(PromptIndex(c)), Placeholder(c));
      if c !in apiConfigs {
        StripUnchanged(Placeholder(c));
      }
    }
  }

  /** The credentials of the providers that were not chosen are written out as
      their placeholders, and the chosen provider's as answered. */
  lemma CredentialsWritten(provider: SpeechClient.Provider, answer: nat -> string, apiConfigs: map<Credential, string>)
    requires Recorded(provider, answer, apiConfigs)
    ensures forall c :: Owner(c) != provider ==>
      Lookup(DesktopEntries(provider, apiConfigs), Cred(c)) == Some(Placeholder(c))
    ensures forall c :: Owner(c) == provider ==>
      Lookup(DesktopEntries(provider, apiConfigs), Cred(c)) == Some(Answer(c, answer))
  {
    DesktopEntriesHold(provider, apiConfigs);
  }

  /** Read back with each value as written, a file the wizard writes always names
      the chosen provider in a form the speech client recognises, and always
      passes its credential check, even when every prompt was skipped: a skipped
      key only shows up later, when the provider's SDK rejects the placeholder.
      Audio files are kept. */
  lemma WizardSettingsPassCredentialCheck(provider: SpeechClient.Provider, answer: nat -> string,
                                          apiConfigs: map<Credential, string>)
    requires Recorded(provider, answer, apiConfigs)
    ensures var s := SettingsFromEntries(DesktopEntries(provider, apiConfigs));
      SpeechClient.Requested(s.speechProvider) == Some(provider)
      && SpeechClient.CredentialsPresent(provider, s)
      && s.saveAudioFiles
  {
    ProviderMenuRoundTrip(provider);
    CredentialsNonEmpty(provider, answer, apiConfigs);
    DesktopEntriesHold(provider, apiConfigs);
    assert Lower("True") == "true";
  }

  /** The provider names are already lower-case. */
  lemma LowerNames(p: SpeechClient.Provider)
    ensures Lower(SpeechClient.Name(p)) == SpeechClient.Name(p)
  {
    var n := SpeechClient.Name(p);
    assert forall i :: 0 <= i < |n| ==> !('A' <= n[i] <= 'Z');
  }
}
