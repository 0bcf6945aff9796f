# Video Audio Processor: a Dafny model

The student AI assistant is a Streamlit page. A student uploads a lecture
video. The page extracts the audio with FFmpeg, lets the student listen and
confirm, and transcribes the audio with AssemblyAI. If asked, it shows the
transcript for review first. Then it has an OpenAI chat model summarise the
transcript. Streamlit runs the page's `main` from the top on every click, so
the workflow lives in the session state between runs.

This project models the following parts:

- `Workflow` (`workflow.dfy`) models that run loop. A `Session` object holds
  the session state. Its `Step` method is one run of `main`, and it is proved
  equal to the pure function `Next`. `Run` folds `Next` over a sequence of
  runs. The lemmas about `Run` state what the page promises across clicks:
  audio is extracted at most once per Process click, nothing reaches
  AssemblyAI or OpenAI before confirmation, and no summary is requested
  before approval.
- The page builds its summariser with a call that always raises a
  `TypeError` (see "Findings"). The workflow therefore takes the
  construction as a parameter, `Construction`. With `AsWritten` it is the
  page as it stands: it is proved never to show a summary or call the chat
  model, and every run past the review stop ends in the caught error. With
  `Corrected` it is the evidently intended page, and the scenarios
  `ProcessWithoutReview` and `ProcessWithReview` show its results.
- `Audio`, `Transcription` and `Llm` model the three service wrappers.
  FFmpeg, the AssemblyAI SDK and the LangChain client are function
  parameters.
- `Config` models the configuration class.
- `Logging` models the logger registry and the filter that keeps
  credentials out of the logs.
- `Auth` models the password gate.

A run reports which outcome of the page it reached (`View`). It also
reports the external calls it made, in order, with their arguments
(`Call`).

## Model

| member | source | states |
|---|---|---|
| Config.ValidateApiKeys | config.py:57-72 | Valid iff both keys are present and non-empty, iff nothing is missing. Each key name is listed exactly when that key is absent or empty. The AssemblyAI key comes before the OpenAI key. |
| Config.OpenAIConfig | config.py:33-46 | Temperature and retry count are always present. Token limit and timeout are present exactly when set to a non-zero value. No other key appears. |
| Config.TranscriptionConfig | config.py:49-54 | Holds the configured speech model. The language is the given one, or the default language when the given one is absent or empty. |
| Config.DefaultsWithoutOverrides | config.py:13-30 | Without environment overrides: both keys are reported missing, the language is "ru", the model "gpt-4o", two retries, the "universal" speech model, and "ffmpeg" as the executable. |
| Config.EmptyKeyCountsAsMissing | config.py:66-70 | An empty key is reported exactly like an absent one. |
| Audio.FFmpegCommand | services/audio_service.py:48-56 | The argument vector has ten entries, starting with the configured executable and ending with the output path. |
| Audio.CommandReadsBack | services/audio_service.py:48-56 | Read back option by option, the command asks FFmpeg to take the video as input, drop the video stream, use one channel at 16000 Hz, overwrite, and write the output path. |
| Audio.ExtractAudio | services/audio_service.py:32-73 | True iff the output directory can be made, FFmpeg exits with 0, and the output file exists afterwards. A non-zero exit or a raised call gives false; the method never raises. |
| Audio.NewAudioService | services/audio_service.py:79-80 | Uses the given extractor, or an FFmpeg extractor with the configured executable when none is given. |
| Audio.ExtractAudioFromVideo | services/audio_service.py:82-93 | Exactly the extractor's answer for the same paths. |
| Transcription.ProviderConfigOf | services/transcription_service.py:54-57 | The SDK's speech model and language are the dictionary's entries when present, and "universal" and "ru" otherwise. |
| Transcription.EffectiveConfig | services/transcription_service.py:43-51 | Defaults "universal"/"ru", overridden key by key by a non-empty caller config. An absent or empty config leaves the defaults. |
| Transcription.Transcribe | services/transcription_service.py:31-69 | Returns the transcript text iff the SDK returns a transcript whose status is not "error". Both a raised SDK call and an "error" status give a `RuntimeError` prefixed "Transcription error: "; the error status is wrapped twice. |
| Transcription.TranscribeAudio | services/transcription_service.py:78-92 | A `ValueError` when no provider is set. Otherwise exactly the provider's answer. |
| Transcription.SuppliedKeysOverrideDefaults | services/transcription_service.py:50-57 | The SDK sees the caller's speech model and language when supplied, and the defaults otherwise. |
| Transcription.MissingConfigKeepsDefaults | services/transcription_service.py:44-51 | Both an absent and an empty config give the default SDK settings. |
| Transcription.ExtraKeysIgnored | services/transcription_service.py:54-57 | Config keys other than the two settings do not change the result. |
| Llm.NewOpenAIProvider | services/llm_service.py:29-39 | The client gets the model and key. Each of the four named settings comes from the keyword arguments or its default (0, none, none, 2). Every other keyword argument is passed unchanged, and none is passed twice. |
| Llm.OpenAIProcessText | services/llm_service.py:41-63 | The client is invoked with the system prompt and then the text. The answer is the reply's content, or a `RuntimeError` "LLM processing error: " plus the client's message. |
| Llm.ProcessText | services/llm_service.py:72-87 | A `ValueError` when no provider is set. Otherwise exactly the provider's answer. |
| Llm.NoProviderNoCall | services/llm_service.py:84-85 | Without a provider, the result does not depend on the client at all. |
| Llm.SummarizeText | services/llm_service.py:89-103 | A `ValueError` when no provider is set. Otherwise the client is asked with the fixed summary prompt and then the text; the summary is the reply's content, and a client error becomes the prefixed `RuntimeError`. |
| Llm.SummaryAsksWithPromptThenText | services/llm_service.py:89-103 | A summary is the client's reply to exactly the fixed summary prompt followed by the text, and a client error becomes the prefixed `RuntimeError`. |
| Llm.FirstUnexpected | services/llm_service.py:69 | Finds no name iff every keyword is accepted. A name it finds is the first keyword, in call order, that is not accepted. |
| Llm.CallLLMService | services/llm_service.py:69-70 | Construction succeeds iff every keyword is `provider`, and then the service holds the given provider. Otherwise it raises the `TypeError` that names the first keyword, in call order, other than `provider`. |
| Llm.OpenAIConfigKeyOrder | config.py:33-46 | The keywords `**Config.get_openai_config()` passes are exactly the keys of that dictionary, each once, starting with `temperature` and `max_retries`. |
| Llm.AppLLMServiceAsWritten | app.py:252 | The call as written always raises a `TypeError`. |
| Llm.AppConstructionAlwaysRaises | app.py:251-252 | As written, building the summariser raises the `TypeError` for `api_key`, for every key, model and configuration. |
| Llm.LLMServiceFor | app.py:252 | The corrected construction holds an OpenAI provider built from the given key, model and settings, so its client gets that key and model. |
| Llm.CorrectedServiceMeetsTests | tests/test_llm_service.py:18-57 | With the corrected construction, the client is set up as the tests expect, the summary is the client's reply, and a client error becomes "LLM processing error: API Error". |
| Logging.Lower | utils/logger.py:116 | Lower-casing keeps the length and maps each character to its lower-case form. |
| Logging.Contains | utils/logger.py:116 | A word longer than the text is never found, and a prefix always is. Its exact meaning is `ContainsIffOccurs`. |
| Logging.ContainsIffOccurs | utils/logger.py:116 | The substring test holds iff the word occurs at some position. |
| Logging.IsSensitive | utils/logger.py:116-117 | A name is sensitive iff one of "key", "token", "secret" or "password" occurs at some position of its lower-cased form. |
| Logging.SafeKwargs | utils/logger.py:105-119 | Keeps exactly the parameters whose names do not contain "key", "token", "secret" or "password" (case-insensitively), with their values unchanged. |
| Logging.SafeKwargsIdempotent | utils/logger.py:115-117 | Filtering twice is filtering once, and the result is part of the input. |
| Logging.SensitiveByOccurrence | utils/logger.py:115-117 | A sensitive word that occurs in the lower-cased name makes the name sensitive. |
| Logging.MixedCaseKeyIsSensitive | utils/logger.py:115-117 | "API_Key" is filtered out, because the match ignores case. |
| Logging.SubstringIsSensitive | utils/logger.py:115-117 | "monkey" is filtered out, because the match is by substring. |
| Logging.ModelIsKept | utils/logger.py:115-117 | "model" is kept. |
| Logging.LoggerRegistry.Lookup | utils/logger.py:98-102 | Returns the cached logger for the name. On first use of a name it creates one, caches it, and changes nothing else. |
| Logging.LoggerRegistry.SetupLogging | utils/logger.py:16-82 | Does nothing once initialised. Otherwise it configures once, sets the flag, and caches the module's own logger. |
| Logging.LoggerRegistry.GetLogger | utils/logger.py:85-102 | Sets up first if needed. Returns the cached logger carrying the name. Repeated names give the same object, and the cache only grows by the new names. |
| Logging.SameNameSameLogger | utils/logger.py:85-102 | Two requests for one name give one object, and the set-up runs once. |
| Auth.Accepts | utils/auth.py:9-11 | An unknown user is rejected whatever the password. A known user is accepted iff the digest of the typed password equals the stored one. |
| Auth.AuthSession.PasswordEntered | utils/auth.py:7-15 | Records whether the user is known and the password's digest matches the stored one. On success it forgets the password. |
| Auth.AuthSession.CheckPassword | utils/auth.py:17-30 | Answers true iff a correct login was recorded earlier, and then touches nothing. Otherwise it stores the typed inputs. A Login click checks them and shows the error iff they are wrong. The answer is still false. |
| Auth.LoginThenRevisit | utils/auth.py:17-30 | With right credentials, the login run answers false without error and the next run answers true. |
| Auth.WrongCredentialsStayLocked | utils/auth.py:7-30 | Wrong credentials never open the gate, and each click shows the error. |
| Workflow.SidebarKeys | app.py:53-79 | Uses the environment's keys when both are set, and otherwise what is typed into the sidebar. |
| Workflow.ProcessStatus | app.py:129-149 | Process is offered iff a file is uploaded and both keys are non-empty. A missing AssemblyAI key is reported before a missing OpenAI key. |
| Workflow.BuildSummarizer | app.py:251-252 | As written, building the summariser raises the `TypeError` for `api_key`. Corrected, it gives the service whose provider is built from the stored key and model and the OpenAI configuration. |
| Workflow.SummaryFor | app.py:250-253 | As written, summarising always ends in that `TypeError`, whatever the chat model would answer. Corrected, the summary is the client's answer to the summary prompt followed by the transcript. |
| Workflow.StartProcessing | app.py:136-147 | A Process click starts the workflow over from extraction with the uploaded file, the keys, the language and the model, keeps the approval, the transcript and the saved videos, and leaves the state consistent. |
| Workflow.Fail | app.py:265-270 | The caught error is shown, processing stops, nothing else in the state changes, no call is added, and a consistent state stays consistent. |
| Workflow.FromAudio | app.py:203-270 | The rest of `process_video` once there is audio keeps the workflow consistent. Its cases are `FromAudioCases`. |
| Workflow.Truncated | app.py:181-182 | A failed write leaves a prefix of the upload, as long as the bytes written or the whole upload if fewer. |
| Workflow.Saved | app.py:178-182 | A file already under the name is kept as it is. Otherwise the name gets the whole upload, or, when `write` raised after `open` created the file, the truncated bytes, or, when `open` raised, no file. No other entry and no other field changes. |
| Workflow.Pipeline | app.py:163-270 | `process_video` for a started workflow keeps the workflow consistent. Its cases are `PipelineCases`. |
| Workflow.Next | app.py:21-160 | One run of `main` keeps the workflow consistent: a started workflow has its stored inputs, and a confirmed one has audio. |
| Workflow.Session.constructor | app.py:23-33 | A new session starts from the defaults of the `setdefault` calls. |
| Workflow.Session.Step | app.py:21-160 | One run changes the session state exactly as `Next` says, with the session's construction, and returns its report. A session built `AsWritten` is the page as it stands. |
| Workflow.Session.ProcessVideo | app.py:163-270 | `process_video` changes the state exactly as `Pipeline` says: directory, video write, extraction once, then the rest. |
| Workflow.Session.ContinueWithAudio | app.py:203-270 | `process_video` from the confirmation stop on changes the state exactly as `FromAudio` says. As written, building the summariser raises before any chat call. |
| Workflow.ProcessClickStartsOver | app.py:136-147 | An effective Process click stores the file, keys, language and model and restarts from extraction. It calls nothing and asks for a rerun. The review approval, the transcript and the saved videos are kept. |
| Workflow.IdleUnlessStarted | app.py:151-160 | Without an effective Process click, the run is idle iff the workflow has not started. An idle run calls nothing and changes only the review checkbox. |
| Workflow.CallsUseSnapshot | app.py:152-160 | Every external call uses the values stored by the Process click: the saved video's path, the stored AssemblyAI key with the stored language, and the stored OpenAI key and model. |
| Workflow.SidebarChangesDoNotReachWorkflow | app.py:152-160 | Runs that differ only in the typed keys, language or model after the Process click reach the same state, view and calls. |
| Workflow.ExtractionOnlyWithoutAudio | app.py:185-201 | FFmpeg is called only as the first call, and only when there is no audio. Success stores the audio path; failure iff the run shows the extraction error. Existing audio is kept. |
| Workflow.ExtractionFailureStops | app.py:193-197 | A failed extraction stops the workflow without audio, after calling only FFmpeg. |
| Workflow.ConfirmationStop | app.py:203-213 | Before confirmation, a run calls nothing. A Confirm click only sets the confirmation and asks for a rerun; otherwise the run waits at the stop. |
| Workflow.TranscribesOnEveryRun | app.py:215-228 | Once confirmed, every run transcribes the stored audio again with the stored key and language. It stores the transcript, or stops on an error after that one call. |
| Workflow.SummaryGate | app.py:230-263 | After a transcript, the summariser is built iff review is off or was approved earlier, and the summary is requested iff building it succeeds. The run shows the results or the caught error. Otherwise the run shows the transcript, or a Proceed click records the approval. |
| Workflow.SummaryAsWrittenFails | app.py:246-270 | As written, a run past the review stop calls only AssemblyAI and ends in the caught error (the `TypeError` for `api_key` when the transcript arrives), with processing stopped. |
| Workflow.AsWrittenStepNeverSummarizes | app.py:246-270 | As written, no run shows results or calls the chat model. |
| Workflow.AsWrittenNeverSummarizes | app.py:246-270 | As written, no sequence of runs, whatever the user clicks and the services answer, shows results or calls the chat model. |
| Workflow.FailureKeepsProgress | app.py:265-270 | A caught error stops processing but keeps the stored inputs, the audio, the confirmation and the approval. |
| Workflow.ExtractionAndTranscriptionApart | app.py:185-228 | No run both extracts and transcribes. |
| Workflow.SavedVideoIsReused | app.py:178-183 | Once a file name is saved, it is not written again, and extraction reads the first file's bytes, truncated or not. |
| Workflow.FailedWriteLeavesPartialFile | app.py:178-182 | Saving a new video that fails shows the error, stops processing and calls nothing. A failed `open` leaves no file; a failed `write` leaves the truncated file under the name, which later runs reuse. |
| Workflow.Run | app.py:21-160 | Any sequence of runs keeps the workflow consistent and ends one view per run. |
| Workflow.StepExtractsOnce | app.py:185-201 | A run without a Process click extracts at most once, leaves nothing to extract once it has, and extracts nothing when nothing is left. |
| Workflow.SettledNeverExtracts | app.py:185-201 | Once nothing is left to extract, runs without a Process click never call FFmpeg. |
| Workflow.ExtractsAtMostOnce | app.py:185-201 | Any sequence of runs without a Process click calls FFmpeg at most once. |
| Workflow.NothingSentBeforeConfirmation | app.py:208-213 | Runs without a Confirm click, Process clicks included, call nothing but FFmpeg and leave the workflow unconfirmed. |
| Workflow.NoSummaryBeforeApproval | app.py:230-246 | With review on and no Proceed click, no summary is requested and no approval appears. |
| Workflow.ApprovalSticks | app.py:136-147 | Once given, the review approval survives every later run, including Process clicks for other videos. |
| Workflow.IdleStaysIdle | app.py:151-160 | Without a Process click, a session that has not started stays idle and calls nothing. |
| Workflow.CooperativeAnswers | app.py:221-253 | When every service cooperates, transcription yields the SDK's text. Summarisation yields the chat model's answer when corrected, and the `TypeError` as written. |
| Workflow.SummaryRun | app.py:230-263 | A confirmed run with review off or approved, in a cooperative world, shows the results and keeps processing when corrected, and shows the `TypeError` and stops as written. |
| Workflow.ProcessWithoutReview | app.py:136-270 | With review off and cooperative services, Process, the next run, Confirm and the next run show: rerun, the confirmation stop at the session's audio path, rerun, then the results when corrected or the `TypeError` as written. |
| Workflow.ProcessWithReview | app.py:136-270 | With review on, the six runs show: rerun, the confirmation stop, rerun, the transcript for review, rerun after Proceed, then the results when corrected or the `TypeError` as written. |

## Left out

- Rendering is not modelled. Titles, progress bars, spinners, the audio player, `display_results` (app.py:273-330) and its download buttons are left out. A run reports only the outcome it reached and the calls it made.
- Reading `.env` and the environment is not modelled. `Config.Settings` stands for the class attributes after it, so the `float`/`int` parsing of `OPENAI_TEMPERATURE`, `OPENAI_MAX_TOKENS`, `OPENAI_TIMEOUT` and `OPENAI_MAX_RETRIES`, and its `ValueError` on bad text, are not modelled.
- Logging output is not modelled: the log level, the handlers and formatters of `setup_logging`, the text written by `log_function_call`, `log_performance` and `log_error_with_context`, and every `logger.info` call in the app. The module-level `get_logger` (utils/logger.py:147-157) is `Logger.get_logger` and needs no member of its own.
- Logging.Lower: lower-cases ASCII letters only. Python's `str.lower()` also folds non-ASCII letters, and some fold into ASCII: the Kelvin sign U+212A lowers to "k", so Python filters a name written with it before "EY" and the model keeps it.
- The SHA-256 digest and `st.secrets` are not modelled. They are a function parameter and a map in `Auth`.
- FFmpeg, the AssemblyAI SDK and `ChatOpenAI` are function parameters. Their own behaviour, and any validation `ChatOpenAI` does in its constructor, are outside the model.
- `aai.settings.api_key` is process-global state (services/transcription_service.py:29). The model passes the key straight to the SDK parameter instead.
- The temporary directory name is built from the process id and the id of `st.session_state` (app.py:174). It is a parameter, `tmpDir`. Its creation can fail (`World.mkdirError`).
- The initial session state has no saved videos, so the model assumes no other session writes into `tmpDir`. `st.session_state` may be a module-level proxy whose id is the same for every session, in which case the name depends only on the process id and sessions share the directory; that sharing is not modelled.
- Audio.ExtractAudio: `os.makedirs` of the output directory is the `dirsReady` flag. The app always extracts into the directory it has just created, so the workflow passes `true`.
- A `None` transcript text from the SDK is not modelled, nor the `TypeError` that `len(None)` would then raise at app.py:224. The text is always a string.
- Llm.ProcessText: the extra keyword arguments of `process_text` are accepted and ignored, as in the source. The model keeps them as a parameter that the result does not depend on.
- Llm.NewOpenAIProvider: requires that `kwargs` holds neither `api_key` nor `model`. Python binds those names to the named parameters, so such a call cannot arise.
- Llm.CorrectedServiceMeetsTests: covers the tests' constructor call and their two outcomes. The mock's call-count assertions are not modelled.
- The `transcription_displayed` entry (app.py:33) is initialised and never read, so it is not in `SessionState`.
- A new upload does not reset the workflow, and nothing retries AssemblyAI or OpenAI with backoff. The model follows the code (app.py), which has neither. It does not follow descriptions of the app that mention them.
- Streamlit's widget keys, `st.rerun()` as a control-flow exception and the sidebar's select boxes become, respectively, a `Rerun` view ending the run and plain strings in `Sidebar`. The select boxes' fixed option lists are not enforced.
- The `if __name__ == "__main__"` entry point and the module-level logging set-up of app.py are not modelled.

## Findings

| source | as written | input that shows it | evidently intended | confidence | as-written member | corrected member |
|---|---|---|---|---|---|---|
| app.py:252 | `LLMService(api_key=..., model=..., **openai_config)`, but `LLMService.__init__` accepts only `provider` (services/llm_service.py:69). Every summarisation raises a `TypeError`, which the handler at app.py:265 catches, so no summary is ever shown (`Workflow.AsWrittenNeverSummarizes`) and every run past the review stop ends in the error with processing stopped (`Workflow.SummaryAsWrittenFails`). The test at tests/test_llm_service.py:23 builds the service the same wrong way, with an `api_key` keyword, so it raises the same `TypeError`. | Any confirmed run with review off, e.g. key "k", model "gpt-4o", default configuration | A service whose provider is an `OpenAIProvider` built from the key, the model and the OpenAI configuration, as the test's expected client settings show (tests/test_llm_service.py:30-37) | not executed | Llm.AppConstructionAlwaysRaises | Llm.CorrectedServiceMeetsTests |
