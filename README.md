# Interview assistant: a verified model of its capture, selection and helper logic

This project models the decision logic of the interview assistant in Dafny. The
desktop tool records the microphone, cuts the stream into utterances at runs of
silence, transcribes each one with a configurable speech provider, and posts the
text to the backend. Three helper scripts check ports, install the provider SDKs,
and write the environment files.

The modules follow the source files:

| module | file | form |
|---|---|---|
| `AudioRecorder` | `audio_recorder.dfy` | the capture loop is the class `Recorder`, proved against the pure `Observe`/`Run`/`Session` |
| `SpeechClient` | `speech_client.dfy` | provider selection, per-provider result handling, `transcribe_audio` with clean-up, `get_provider_info` |
| `Assistant` | `assistant.dfy` | the class `InterviewAssistant`: AI-mode flag, request body, `start`/`stop` gating |
| `CheckPorts` | `check_ports.dfy` | port search loop, `PORT=` parsing, `lsof`/`ps` and `netstat`/`tasklist` parsing, kill decision |
| `InstallProviders` | `install_providers.dfy` | package tables, the counting loops, the Python version gate |
| `SetupConfig` | `setup_config.dfy` | provider menu, credential prompts with placeholders, the generated environment files |
| `Text` | `text.dfy` | the Python string operations the code relies on (`strip`, `lower`, `split`, `in`, `int`, `str`) |
| `Wrappers` | `wrappers.dfy` | `Option` and `Result` |

Outside inputs become parameters:
- Time is an integer tick per loop iteration. Loudness is an integer level per frame.
- Every answer of a socket, subprocess, SDK or HTTP request is a parameter or an oracle function.
- Every `input()` answer is a parameter.

Where the repository's documentation and the code disagree, the model follows the code:
- A silence run closes an utterance only when strictly more than the silence duration has passed (`>` at `desktop-tool/audio_recorder.py:122`), not when at least that much has.
- A failed frame read does not discard the buffer. The loop `break`s and the final flush still hands the leftover buffer on if it qualifies (`desktop-tool/audio_recorder.py:134-143`).
- The quiet frames of a silence run are appended before the check. They stay in the utterance that run closes; they are not dropped.
- The callback runs on the recording thread, so transcription and posting happen in capture order. There is no worker pool.

## Model

| member | source | states |
|---|---|---|
| `Text.Strip` | check-ports.py:131 | `str.strip()`: the result is empty iff every character is blank; otherwise it neither starts nor ends with a blank; it is never longer than the input |
| `Text.StripSlice` | check-ports.py:131 | what `strip()` keeps is a slice of the input with only blanks outside it |
| `Text.StripIdempotent` | setup-config.py:23 | stripping an already stripped answer changes nothing |
| `Text.StripUnchanged` | setup-config.py:81 | a string with no blank at either end is its own strip |
| `Text.StripPadded` | check-ports.py:201 | strip removes exactly the blanks typed around a word-bounded answer |
| `Text.StripNewline` | check-ports.py:129-131 | a line read with its newline strips back to its text |
| `Text.StripChars` | check-ports.py:77 | `strip('"')`: the result keeps only characters of the input and neither starts nor ends with a quote |
| `Text.StripCharsSlice` | check-ports.py:77 | what `strip(chars)` keeps is a slice of the input with only stripped characters outside it, so nothing more could be stripped |
| `Text.Lower` | check-ports.py:198 | `lower()` keeps the length and maps each character through the ASCII lower-casing |
| `Text.Contains` | check-ports.py:63 | `t in s` holds iff `t` occurs in `s` at some index |
| `Text.SplitOn` | check-ports.py:36 | `split('\n')` gives at least one piece, and no piece holds the separator |
| `Text.JoinSplitOn` | check-ports.py:45 | joining the pieces of a split with the separator gives back the string |
| `Text.SplitFields` | check-ports.py:47 | `split(None, maxsplit)`: every field is non-empty and starts with a non-blank; there are at most `maxsplit + 1` fields; every field before the limit is a blank-free word |
| `Text.SplitFieldsKeepsText` | check-ports.py:64 | without a limit the fields hold exactly the non-blank characters of the line, in order |
| `Text.SplitFieldsJoin` | check-ports.py:64 | words joined by single blanks split back into the same words |
| `Text.ParseIntStrip` | check-ports.py:131 | `int()` ignores the blanks around the number |
| `Text.ParseIntRoundTrip` | check-ports.py:49 | `int(str(n)) == n` for every integer |
| `AudioRecorder.Observe` | desktop-tool/audio_recorder.py:110-133 | one loop iteration. The frame is appended before its level is checked. The buffer closes iff the frame is quiet, a silence run is open and strictly more than the silence duration has passed since it began. The closed buffer includes the frame, and the loop restarts with an empty buffer, no run and the current start tick. A loud frame ends any run. The first quiet frame opens a run at the current tick |
| `AudioRecorder.Handed` | desktop-tool/audio_recorder.py:124-126 | of the buffers closed at boundaries, only those with a frame that lasted at least the minimum are handed on, in order |
| `AudioRecorder.FinalFlush` | desktop-tool/audio_recorder.py:139-143 | after the loop the leftover buffer goes out, at most once, iff it holds a frame and lasted at least the minimum |
| `AudioRecorder.SessionStep` | desktop-tool/audio_recorder.py:108-133 | a session over a frame read hands on that iteration's closed buffer (if deliverable), then the rest of the session from the next state |
| `AudioRecorder.SessionFailure` | desktop-tool/audio_recorder.py:134-143 | a failed read ends the loop; only the leftover buffer is flushed, judged at the failure tick |
| `AudioRecorder.SessionEnd` | desktop-tool/audio_recorder.py:108 | when the loop ends by a stop, only the final flush at the stop tick follows |
| `AudioRecorder.RunConservesFrames` | desktop-tool/audio_recorder.py:111 | segmentation loses and duplicates nothing: the closed buffers followed by the leftover buffer are exactly the frames read before any failure, quiet frames included |
| `AudioRecorder.ObserveKeepsFrames` | desktop-tool/audio_recorder.py:111 | one iteration moves the new frame either into the buffer or into the buffer it closes |
| `AudioRecorder.LoudRunClosesNothing` | desktop-tool/audio_recorder.py:132-133 | while every frame is loud, no boundary occurs: all frames stay in one buffer with its start tick and no silence run |
| `AudioRecorder.LoudSessionFlushesOnce` | desktop-tool/audio_recorder.py:139-143 | a session of loud frames hands on at most one utterance, at the final flush, and it holds every frame read |
| `AudioRecorder.SilenceWithinDurationClosesNothing` | desktop-tool/audio_recorder.py:120-122 | quiet frames read no later than the silence duration after the run began never close the buffer (the strict `>`) |
| `AudioRecorder.SessionMeetsMinimum` | desktop-tool/audio_recorder.py:124-126 | every handed-on utterance holds a frame and lasted at least the minimum; a session hands on at most one more utterance than it closed |
| `AudioRecorder.FailureEndsRun` | desktop-tool/audio_recorder.py:134-137 | the reads after a failed read are never looked at |
| `AudioRecorder.Recorder.constructor` | desktop-tool/audio_recorder.py:13-34 | a new recorder is not recording, has no capture running and has handed on nothing |
| `AudioRecorder.Recorder.StartRecording` | desktop-tool/audio_recorder.py:68-78 | a start while recording changes nothing. Otherwise the flag is raised and the loop starts with a fresh buffer at the current tick, or ends at once when the stream does not open |
| `AudioRecorder.Recorder.Step` | desktop-tool/audio_recorder.py:108-133 | one iteration updates the loop variables as `Observe` says and hands on the closed buffer iff it is deliverable |
| `AudioRecorder.Recorder.Flush` | desktop-tool/audio_recorder.py:139-143 | leaving the loop hands on exactly `FinalFlush` of the state and ends the capture |
| `AudioRecorder.Recorder.StopRecording` | desktop-tool/audio_recorder.py:80-88 | a no-op when not recording; otherwise the flag is lowered and the thread's final flush is handed on |
| `AudioRecorder.Recorder.Cleanup` | desktop-tool/audio_recorder.py:175-180 | stops the recording, with the same final flush |
| `AudioRecorder.Recorder.Capture` | desktop-tool/audio_recorder.py:90-151 | the capture loop over a sequence of reads hands on exactly `Session` of its start state. The flag stays raised iff the loop was left by a failed read |
| `SpeechClient.Requested` | desktop-tool/speech_client.py:290-302 | a configured name selects a provider iff its lower-cased form is exactly one of the five names, and then that provider |
| `SpeechClient.RequestedName` | desktop-tool/speech_client.py:293-302 | every provider is selected by its own name in any mix of case |
| `SpeechClient.RequestedIgnoresCase` | desktop-tool/speech_client.py:290 | lower-casing the name first changes nothing |
| `SpeechClient.Construct` | desktop-tool/speech_client.py:30-247 | a provider's constructor succeeds iff its credentials are set and its SDK loads. A missing credential is the `ValueError` case |
| `SpeechClient.CreateProvider` | desktop-tool/speech_client.py:288-309 | the requested provider, local Whisper for an unknown name, and local Whisper again (unguarded) when the requested one raises |
| `SpeechClient.CreateProviderFallsBack` | desktop-tool/speech_client.py:303-309 | whenever the local Whisper model loads, a provider always comes up: the requested one, or local Whisper |
| `SpeechClient.CreateProviderNeedsCredentials` | desktop-tool/speech_client.py:71-72 | a provider other than local Whisper is used only when it was named and its credentials are set |
| `SpeechClient.CreateProviderFailure` | desktop-tool/speech_client.py:306-309 | without the local Whisper model, creation fails whenever the requested provider cannot be built |
| `SpeechClient.Normalise` | desktop-tool/speech_client.py:52-58 | a transcript is the stripped text; it is absent exactly when the text is all blank |
| `SpeechClient.NormaliseIdempotent` | desktop-tool/speech_client.py:52 | normalising a transcript again leaves it unchanged |
| `SpeechClient.Transcribe` | desktop-tool/speech_client.py:44-271 | a provider yields a transcript only from a reply of its own shape, and only a non-empty stripped one; Aliyun never yields one |
| `SpeechClient.WhisperTranscript` | desktop-tool/speech_client.py:83-102 | Whisper and OpenAI give the stripped `text` when it is not blank, and nothing when `text` is missing |
| `SpeechClient.BaiduTranscript` | desktop-tool/speech_client.py:260-267 | Baidu gives text exactly when `err_no` is 0, `result` is non-empty and its joined, stripped text is not blank |
| `SpeechClient.RaisedGivesNothing` | desktop-tool/speech_client.py:269-271 | an SDK call that raises never yields a transcript, whatever the provider |
| `SpeechClient.TestConnection` | desktop-tool/speech_client.py:64-280 | local Whisper always passes and Aliyun always fails. OpenAI and Baidu pass iff the probe returned. Tencent fails only on an `AuthFailure` message |
| `SpeechClient.RequestLanguage` | desktop-tool/speech_client.py:48 | the language sent is the setting cut just before its first `-` (the whole setting when it has none), or none when the setting is empty |
| `SpeechClient.RequestLanguageOfTag` | desktop-tool/speech_client.py:48 | a tag `code-region` is sent as `code` |
| `SpeechClient.NewClient` | desktop-tool/speech_client.py:285-286 | the client comes up iff provider creation succeeds, with that provider and the settings |
| `SpeechClient.Cleanup` | desktop-tool/speech_client.py:338-345 | only the given file can disappear, and it disappears iff audio files are not kept, it exists and removal works |
| `SpeechClient.TranscribeAudio` | desktop-tool/speech_client.py:311-328 | a missing file gives nothing and the provider is not called; otherwise the provider's result is returned; clean-up runs on every path |
| `SpeechClient.TranscribeAudioKeepsOtherFiles` | desktop-tool/speech_client.py:326-328 | no other file is touched; with audio files kept nothing is removed; otherwise a removable file is gone |
| `SpeechClient.GetProviderInfo` | desktop-tool/speech_client.py:347-354 | the configured name and language are reported even after a fall-back; a model iff the name is exactly `local_whisper` |
| `SpeechClient.UpperCaseNameHasNoModel` | desktop-tool/speech_client.py:352 | `LOCAL_WHISPER` selects local Whisper, yet the summary reports no model |
| `SpeechClient.FallbackReportsRequestedName` | desktop-tool/speech_client.py:350 | after falling back from `openai` without a key, the summary still names `openai` |
| `Assistant.RequestBody` | desktop-tool/main.py:63-66 | the posted body has exactly the keys `question` and `generate_answer` |
| `Assistant.ParseRequestBody` | desktop-tool/main.py:63-66 | a body reads back as a question only when it has exactly those two keys |
| `Assistant.RequestBodyRoundTrip` | desktop-tool/main.py:63-66 | the body reads back as the question it was built from, and only that question's body does |
| `Assistant.DeliveryOf` | desktop-tool/main.py:75-87 | status 200 with a JSON body is a delivery; any other status is a rejection with that code; every exception is swallowed as a failure |
| `Assistant.BackendHealthy` | desktop-tool/main.py:117-134 | the health check passes iff the request answers with status 200 and a JSON body, which is exactly when `send_to_backend` counts a reply as delivered |
| `Assistant.BackendHealthyNeedsJson` | desktop-tool/main.py:121-124 | a 200 whose body is not JSON, any other status, and an unreachable backend all fail the check |
| `Assistant.InterviewAssistant.constructor` | desktop-tool/main.py:24-31 | not running, AI mode off, no hotkeys, and a fresh recorder that has handed on nothing |
| `Assistant.InterviewAssistant.ToggleAiMode` | desktop-tool/main.py:89-91 | the flag is negated and nothing else changes, so toggling twice restores it |
| `Assistant.InterviewAssistant.SendToBackend` | desktop-tool/main.py:59-87 | the question is posted with the given flag, and the result is `DeliveryOf` the reply |
| `Assistant.InterviewAssistant.OnAudioReady` | desktop-tool/main.py:40-57 | the file is transcribed and cleaned up; a post happens iff the transcript is non-empty, with the flag as it stands after transcription |
| `Assistant.InterviewAssistant.Stop` | desktop-tool/main.py:183-197 | not running, hotkeys stopped, recorder stopped with its final flush handed on |
| `Assistant.InterviewAssistant.Start` | desktop-tool/main.py:136-181 | it runs iff the backend is healthy and the speech test passes. Otherwise `stop` runs at once, before hotkeys or recording. Running implies recording |
| `Assistant.InterviewAssistant.Serve` | desktop-tool/main.py:136-181 | a whole `start` call: the assistant ends stopped, and the recorder has handed on exactly its capture session, or nothing when it never started |
| `CheckPorts.PortInUse` | check-ports.py:15-23 | a port is in use iff connecting returns 0; an exception counts as free |
| `CheckPorts.FindAvailablePort` | check-ports.py:107-112 | the smallest port of `[start, start + maxAttempts)` that is free, or none when every one is in use |
| `CheckPorts.PortLine` | check-ports.py:129-130 | the index of the first line starting with `PORT=`, or none |
| `CheckPorts.PortValue` | check-ports.py:131 | `split('=')[1]` of a `PORT=` line: the text after the first `=` up to the next one |
| `CheckPorts.EnvPort` | check-ports.py:128-133 | a file sets a port only if it is readable and has a `PORT=` line |
| `CheckPorts.EnvPortFirstLineWins` | check-ports.py:129-133 | only the first `PORT=` line counts; later lines are ignored |
| `CheckPorts.PortValueWhole` | check-ports.py:131 | a `PORT=` value with no second `=` is the rest of the line |
| `CheckPorts.EnvPortRoundTrip` | check-ports.py:129-133 | a file whose first line is `PORT=<n>` sets port n |
| `CheckPorts.IntToStringStrip` | check-ports.py:131 | a written-out number with its newline strips back to the number |
| `CheckPorts.EnvPortsSpec` | check-ports.py:125-135 | a file gets a port iff it is listed, exists and sets one; a failing file does not stop the others |
| `CheckPorts.ConfigPortsSpec` | check-ports.py:114-149 | each backend file is recorded with its own port; `package.json` is recorded, as 3000, iff it parses; no other path appears |
| `CheckPorts.EnvPortsStep` | check-ports.py:125-133 | one more file extends the found ports by that file's port, if it sets one |
| `CheckPorts.FirstPortSetting` | check-ports.py:129-133 | the line loop stops at the first `PORT=` line and yields its parsed value |
| `CheckPorts.CheckConfigFiles` | check-ports.py:114-149 | the loop over the backend files, then `package.json`, builds exactly `ConfigPorts` |
| `CheckPorts.LsofPid` | check-ports.py:35-36 | a PID is taken iff `lsof` succeeded and printed something; it is the first line of the stripped output |
| `CheckPorts.ParsePs` | check-ports.py:44-52 | the command is `Unknown` or a whole field of the second line |
| `CheckPorts.PsOutputStrip` | check-ports.py:45 | stripping the `ps` output removes the header's indentation and the last newline |
| `CheckPorts.PsOutputLines` | check-ports.py:45 | the stripped output splits into the header line and the process line |
| `CheckPorts.PsLineFields` | check-ports.py:47 | the process line splits into PID, parent PID and the whole command |
| `CheckPorts.ParsePsRoundTrip` | check-ports.py:39-52 | `ps` output printed for a process parses back to that process, the command with its inner blanks |
| `CheckPorts.UnixProcess` | check-ports.py:28-52 | the Unix branch gives what `ps` parses to exactly when `lsof` gave a PID and `ps` succeeded, and nothing otherwise |
| `CheckPorts.NetstatLineMatchesOnePort` | check-ports.py:63 | the corrected filter accepts a line for one port only |
| `CheckPorts.NetstatSubstringMatch` | check-ports.py:63 | the filter as written takes a listener on port 50001 for port 5000; the corrected one does not |
| `CheckPorts.ScanNetstatSubstringMatch` | check-ports.py:61-82 | scanning that one line for port 5000 reports PID 4242 with the filter as written and nothing with the corrected filter |
| `CheckPorts.ScanPortColumnOnePort` | check-ports.py:63 | with the corrected filter, the line a result comes from listens on the port asked about and on no other |
| `CheckPorts.TasklistCommand` | check-ports.py:74-77 | the image name is taken from a successful `tasklist`; it holds no comma and no surrounding quotes |
| `CheckPorts.TasklistRoundTrip` | check-ports.py:69-77 | `tasklist /FO CSV` output printed for an image name reads back as that name, when the name holds no comma or newline and no quote at either end |
| `CheckPorts.TasklistOutputStrip` | check-ports.py:75 | stripping the `tasklist` output removes only its final newline |
| `CheckPorts.SplitTwoLines` | check-ports.py:75 | two lines joined by a newline split back into those lines |
| `CheckPorts.TasklistFirstColumn` | check-ports.py:77 | the first comma-separated column of a row is the quoted image name |
| `CheckPorts.StripQuotes` | check-ports.py:77 | stripping quotes from a quoted name gives the name |
| `CheckPorts.ScanNetstat` | check-ports.py:61-82 | for either line filter, a Windows result comes from an accepted line for the port whose last field is the PID; its parent is 0 and its command is the `tasklist` image name |
| `CheckPorts.ScanNetstatSkipPrefix` | check-ports.py:62-66 | lines that are passed over (not accepted, too short, or whose `tasklist` lookup fails) do not change the result |
| `CheckPorts.ScanNetstatFirst` | check-ports.py:62-82 | the result is the first accepted line whose `tasklist` lookup succeeds, when every line before it is passed over |
| `CheckPorts.ScanNetstatNone` | check-ports.py:62-82 | when every line is passed over, nothing is found |
| `CheckPorts.ScanNetstatStopsAtBadPid` | check-ports.py:62-66 | an accepted line whose PID is not a number ends the search with nothing when every line before it is passed over |
| `CheckPorts.ProcessUsingPort` | check-ports.py:25-86 | `lsof`/`ps` on macOS and Linux; on Windows, when `netstat` succeeds, the scan of its output lines with the filter as written, and nothing when it fails; nothing elsewhere |
| `CheckPorts.ConflictsSpec` | check-ports.py:166-178 | a conflict is recorded for exactly the common ports in use, with what the process lookup found |
| `CheckPorts.CollectConflicts` | check-ports.py:164-178 | the survey loop over the common ports builds exactly `Conflicts` |
| `CheckPorts.ContainsAny` | check-ports.py:198-199 | `any(k in s for k in keywords)` holds iff some keyword occurs in `s` |
| `CheckPorts.IsOurService` | check-ports.py:198-199 | a command is ours iff its lower-cased form contains `python`, `node`, `npm`, `flask` or `next` |
| `CheckPorts.IsOurServiceIgnoresCase` | check-ports.py:198 | the keyword test does not depend on case |
| `CheckPorts.KillConsent` | check-ports.py:201-202 | consent needs a non-blank answer |
| `CheckPorts.KillConsentPadded` | check-ports.py:201-202 | blanks around the answer do not matter; the lower-cased word must be `y`, `yes` or `是` |
| `CheckPorts.KillConsentAcceptsYes` | check-ports.py:201-202 | ` Yes ` with blanks around it is consent |
| `CheckPorts.KillConsentWord` | check-ports.py:202 | a one-word answer is consent iff its lower-case form is listed |
| `CheckPorts.KillConsentExamples` | check-ports.py:201-202 | `Y` and `是` are consent; the empty default and `n` are refusals |
| `CheckPorts.KillConsentIsExact` | check-ports.py:202 | `yeah` is a refusal |
| `CheckPorts.KillPlan` | check-ports.py:191-206 | a known process is killed iff it is ours and its prompt got consent |
| `CheckPorts.KillPlanSparesOthers` | check-ports.py:207-208 | a process that is not ours is never killed, whatever the answer |
| `InstallProviders.Successes` | install-speech-providers.py:34-37 | the success count never exceeds the number of packages |
| `InstallProviders.SuccessesSpec` | install-speech-providers.py:34-40 | the count equals the number of packages iff all install, and is positive iff one does |
| `InstallProviders.InstallEach` | install-speech-providers.py:11-20 | pip runs once per package, in order, and the successes are counted |
| `InstallProviders.InstallBasicRequirements` | install-speech-providers.py:22-40 | succeeds iff all five basic packages install; pip is tried for each, even after a failure |
| `InstallProviders.SelectedPackages` | install-speech-providers.py:74 | the table entry for the choice, or local Whisper's for anything not in the table |
| `InstallProviders.SelectionCoversProviders` | install-speech-providers.py:55-68 | choice `6` selects the five provider packages; each single choice selects one; the empty choice is choice `1` |
| `InstallProviders.InstallSpeechProviders` | install-speech-providers.py:42-84 | `0` succeeds without running pip; otherwise every selected package is tried and the step succeeds iff one installs |
| `InstallProviders.BelowMinimum` | install-speech-providers.py:92 | `sys.version_info < (3, 8)` holds exactly for versions before 3.8 |
| `InstallProviders.CheckSystemRequirements` | install-speech-providers.py:86-108 | passes iff the version is at least 3.8 and `pip --version` runs |
| `InstallProviders.Install` | install-speech-providers.py:131-151 | exit status 1 iff the system check or a basic package fails; the basic packages run first; a failed SDK step is only a warning |
| `SetupConfig.OrPlaceholderShape` | setup-config.py:25-27 | a defaulted answer is never empty and has no blanks around it |
| `SetupConfig.GeminiKeyReport` | setup-config.py:67 | the key is reported as set iff a non-blank answer was typed that is not the placeholder text |
| `SetupConfig.BackendEnvSetsPort` | setup-config.py:30-56 | whatever key was typed, the port checker reads the generated backend file as setting port 5000 |
| `SetupConfig.ProviderForChoice` | setup-config.py:83-91 | choices `1` to `5` give their provider; anything else, the empty answer included, gives local Whisper |
| `SetupConfig.ProviderMenuRoundTrip` | setup-config.py:138 | every provider is on the menu, and its written name is read back by the speech client as that provider |
| `SetupConfig.PlaceholderShape` | setup-config.py:98-123 | every placeholder is a non-empty word without blanks around it |
| `SetupConfig.PromptedKeysOwned` | setup-config.py:94-123 | the prompts of a provider are exactly its own credentials, each at its position and asked once; local Whisper asks nothing |
| `SetupConfig.ChooseProvider` | setup-config.py:81-91 | the stripped menu answer picks the provider |
| `SetupConfig.AskCredentials` | setup-config.py:94-123 | exactly the chosen provider's credentials are recorded, each as its stripped answer or its placeholder |
| `SetupConfig.RecordedAnswers` | setup-config.py:105-107 | a blank prompt records its placeholder (`ap-beijing` for the Tencent region), a typed one its stripped answer; other providers' settings are not recorded |
| `SetupConfig.SetupDesktopConfig` | setup-config.py:69-123 | the menu, then the prompts for the chosen provider |
| `SetupConfig.CredentialOrderPositions` | setup-config.py:145-159 | the template lists every credential exactly once |
| `SetupConfig.LookupSpec` | desktop-tool/config.py:23-43 | under a raw reading of the file (each value the text after `=`), a setting is found iff the file has its key, and then the first value given for it |
| `SetupConfig.DesktopEntriesLayout` | setup-config.py:126-174 | where the template puts the provider line, the credentials and the audio flag |
| `SetupConfig.DesktopEntriesHold` | setup-config.py:138-173 | the generated file sets the chosen provider, each credential as recorded or as its placeholder, and `SAVE_AUDIO_FILES=True` |
| `SetupConfig.CredentialEntryHolds` | setup-config.py:145-159 | each credential line holds the recorded value or the placeholder |
| `SetupConfig.DesktopEnvLinesNameProvider` | setup-config.py:138 | the `SPEECH_PROVIDER` line names the chosen provider |
| `SetupConfig.CredentialsNonEmpty` | setup-config.py:145-159 | every credential written is non-empty and has no blanks around it |
| `SetupConfig.CredentialsWritten` | setup-config.py:145-159 | credentials of providers not chosen are written as their placeholders, the chosen provider's as answered |
| `SetupConfig.WizardSettingsPassCredentialCheck` | setup-config.py:126-174 | read back with every value as written, a file the wizard writes names a provider the speech client recognises, passes its credential check even when every prompt was skipped, and keeps audio files |
| `SetupConfig.LowerNames` | setup-config.py:84-88 | the provider names on the menu are already lower-case |

## Left out

- Audio I/O: PyAudio, the microphone probe and the WAV file. A read is an input record; a handed-on utterance is appended to the recorder's `delivered` log instead of being written to a file.
- Threads: the recording thread and `join(timeout=5.0)`. `stop` is modelled as the loop ending at the stop tick, followed by its final flush.
- Loudness: the float RMS (and NumPy's int16 wrap-around in `audio_data**2`). Each frame carries an integer level compared with an integer threshold.
- Clock: `time.time()` is an integer tick per loop iteration. The timestamped file name is not modelled.
- The callback: it runs synchronously on the recording thread. Delivery is an appended event.
- SDKs, `requests`, sockets and subprocesses: each is an oracle parameter (`SdkReply`, `Probe`, `HttpReply`, `Connect`, `CommandResult`, pip exit codes). `os.path.exists` and `os.remove` become a set of files and a `removable` flag.
- Hotkeys, signal handlers and the `while self.is_running: sleep` loop of `start`. The hotkey is the `toggled` parameter of `OnAudioReady`. The wait loop is the capture session passed to `Serve`.
- `kill_process` (`os.kill`, `taskkill`, `time.sleep`): the model stops at the list of PIDs to kill.
- All printing and logging, `show_port_commands`, `show_installation_guide`, and the directory check and closing messages of the setup script's `main`.
- `input()`, file writes and copies, `secrets.token_hex` and `sys.exit`. Answers and the secret key are parameters; files are modelled by their lines or settings.
- The comment and blank lines of the desktop template: only its `KEY=value` lines are modelled.
- `desktop-tool/whisper_client.py` is not part of this model (nothing imports it).
- `test-system.py` is not part of this model.
- `desktop-tool/config.py` and `backend/config.py`: environment loading only. Settings are a record; the reading of the desktop file is `SettingsFromEntries`.
- `SetupConfig.SettingsFromEntries` and `SetupConfig.Lookup`: they read each value as the raw text after `=` and take the first entry for a key. `load_dotenv` (python-dotenv) differs in four ways that are not modelled: it removes quotes around a quoted value, drops a ` #...` comment from an unquoted value, keeps the last of duplicate keys, and does not override a variable already set in the environment. `LookupSpec` and `WizardSettingsPassCredentialCheck` therefore hold only for answers the loader reads back unchanged; an OpenAI key typed as `""` is written as `OPENAI_API_KEY=""`, reads back empty, and makes the OpenAI client fall back to local Whisper.
- Python's Unicode `strip` and `lower`: only the ASCII whitespace `str.isspace` accepts (including `\x1c` to `\x1f`) and ASCII letters are modelled; non-ASCII blanks such as `\x85`, `\xa0` and `\u3000` are not. `int()` accepts an optional sign and ASCII digits, without underscores.
- `CheckPorts.ParsePs`: its own contract only bounds the command; what it parses is stated by `ParsePsRoundTrip` for output printed by `ps`.
- `CheckPorts.EnvPort`: its own contract only says when no port is set; the value is stated by `EnvPortFirstLineWins` and `EnvPortRoundTrip`.
- `CheckPorts.TasklistCommand`: its own contract bounds the name; which column it is, is stated by `TasklistRoundTrip` for output printed by `tasklist`.
- `CheckPorts.ScanNetstat`: its own contract says where a result comes from; that the first accepted line with a successful lookup wins is stated by `ScanNetstatFirst` and `ScanNetstatNone`.
- `Assistant.BackendHealthy`: `jsonParses` stands for a body that parses to a JSON object. A body that is not JSON raises `requests`' `JSONDecodeError`, a `RequestException` since `requests` 2.27, so the check fails; a JSON body that is not an object makes `data.get` raise an error the check does not catch, which is not modelled.
- `CheckPorts.KillConsent`: its own contract only requires a non-blank answer; the listed words are stated by `KillConsentPadded` and `KillConsentWord`.

## Findings

| source | as written | input that shows it | evidently intended | confidence | as-written member | corrected member |
|---|---|---|---|---|---|---|
| check-ports.py:63 | a `netstat` line qualifies for a port when `':<port>'` occurs anywhere in it | the line `TCP 0.0.0.0:50001 0.0.0.0:0 LISTENING 4242` qualifies for port 5000, so the process on 50001 is reported (and may be killed) as holding 5000; `CheckPorts.NetstatSubstringMatch` proves this | the local address must end in `:<port>`; `CheckPorts.NetstatLineMatchesOnePort` proves the corrected filter accepts a line for one port only, `ScanNetstat` with `PortColumn` applies it, and `ScanNetstatSubstringMatch` and `ScanPortColumnOnePort` state the difference for the whole scan; `ProcessUsingPort` keeps the filter as written | not executed | `CheckPorts.NetstatLineMatchesAsWritten` | `CheckPorts.NetstatLineMatches` |
