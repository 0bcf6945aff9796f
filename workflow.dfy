/** app.py: the Streamlit page that takes an uploaded video through audio
    extraction, a listen-and-confirm stop, transcription, an optional review
    stop and summarisation. Streamlit runs `main` from the top on every user
    interaction; what survives between runs is the session state. One run is
    one `Session.Step`, proved equal to the pure `Next`; a sequence of runs is
    `Run`. Rendering is not modelled: a run reports which of the page's
    outcomes it reached and which external calls it made. */
module Workflow {
  import opened Common
  import Config
  import Audio
  import Transcription
  import Llm

  // ---------------------------------------------------------------------
  // What one run of the page sees.

  /** The file in the uploader. */
  datatype Upload = Upload(name: string, bytes: seq<byte>)

  /** The sidebar widgets. The typed keys are what the two key inputs hold;
      they are used only when the environment lacks a key. */
  datatype Sidebar = Sidebar(
    typedAssemblyAIKey: string,
    typedOpenAIKey: string,
    language: string,
    model: string,
    reviewBeforeSummary: bool)

  /** Which of the page's three buttons was clicked to cause this run. */
  datatype Clicks = Clicks(process: bool, confirm: bool, proceed: bool)

  /** How saving the video can fail: `open` raises and no file is created,
      or `open` creates the file and `write` raises after `written` bytes,
      leaving a truncated file behind. */
  datatype WriteFailure =
    | OpenFailed(message: string)
    | WriteFailed(written: nat, message: string)

  /** The outside world as this run finds it: whether creating the
      temporary directory raises (and with what message), how saving the
      video fails if it does, the FFmpeg child process, the AssemblyAI SDK
      and the chat model. */
  datatype World = World(
    mkdirError: Option<string>,
    writeError: Option<WriteFailure>,
    ffmpeg: seq<string> -> Audio.ProcessOutcome,
    assemblyAI: Transcription.Sdk,
    chat: Llm.Chat)

  datatype Input = Input(upload: Option<Upload>, sidebar: Sidebar, clicks: Clicks, world: World)

  // ---------------------------------------------------------------------
  // The session state.

  /** The six values a Process click stores together: the video and the
      settings the rest of the workflow uses, whatever the sidebar says
      later. */
  datatype Snapshot = Snapshot(
    videoName: string,
    videoBytes: seq<byte>,
    assemblyaiKey: string,
    openaiKey: string,
    language: string,
    model: string)

  /** The session-state entries the workflow reads, plus the videos already
      written to the session's temporary directory, by file name. `None` is
      an absent entry or a Python `None`. */
  datatype SessionState = SessionState(
    processingStarted: bool,
    transcriptionStarted: bool,
    audioPath: Option<string>,
    snapshot: Option<Snapshot>,
    reviewBeforeSummary: bool,
    summaryStarted: bool,
    transcript: Option<string>,
    savedVideos: map<string, seq<byte>>)

  /** The state before the first run, after the `setdefault` calls. */
  const Initial: SessionState := SessionState(false, false, None, None, false, false, None, map[])

  /** What the workflow relies on between runs: a started workflow has its
      snapshot, and transcription is only confirmed once there is audio. */
  predicate Consistent(s: SessionState)
  {
    && (s.processingStarted ==> s.snapshot.Some?)
    && (s.transcriptionStarted ==> TruthyText(s.audioPath))
  }

  // ---------------------------------------------------------------------
  // What one run shows and does.

  /** A call into an external service, with the arguments it was given. */
  datatype Call =
    | Extract(videoPath: string, audioPath: string, video: seq<byte>)
    | Transcribe(apiKey: string, audioPath: string, config: map<string, Value>)
    | Summarize(apiKey: string, model: string, text: string)

  /** The Processing Status column. */
  datatype Status = AwaitingUpload | MissingKey(message: string) | ProcessOffered

  /** Where the run ended: nothing to do, a rerun requested by a button, the
      extraction error, the listen-and-confirm stop, the review stop, the
      results, or the error caught around the pipeline. */
  datatype View =
    | Idle
    | Rerun
    | ExtractionFailed
    | AwaitingConfirmation(audioPath: string)
    | Reviewing(transcript: string)
    | Results(transcript: string, summary: string)
    | Failed(error: Exception)

  datatype Report = Report(status: Status, view: View, calls: seq<Call>)

  const AssemblyAIKeyMissing: string := "Please enter your AssemblyAI API key in the sidebar"
  const OpenAIKeyMissing: string := "Please enter your OpenAI API key in the sidebar"

  /** The keys the page works with: the environment's when both are set,
      otherwise what is typed into the two inputs. */
  function SidebarKeys(c: Config.Settings, bar: Sidebar): (keys: (string, string))
    ensures TruthyText(c.assemblyaiApiKey) && TruthyText(c.openaiApiKey) ==>
              keys == (c.assemblyaiApiKey.value, c.openaiApiKey.value)
    ensures !(TruthyText(c.assemblyaiApiKey) && TruthyText(c.openaiApiKey)) ==>
              keys == (bar.typedAssemblyAIKey, bar.typedOpenAIKey)
  {
    if Config.ValidateApiKeys(c).0 then (c.assemblyaiApiKey.value, c.openaiApiKey.value)
    else (bar.typedAssemblyAIKey, bar.typedOpenAIKey)
  }

  /** The Processing Status column: the Process button is offered exactly
      when a file is uploaded and both keys are non-empty; a missing
      AssemblyAI key is reported before a missing OpenAI key. */
  function ProcessStatus(upload: Option<Upload>, keys: (string, string)): (st: Status)
    ensures st == ProcessOffered <==> upload.Some? && keys.0 != "" && keys.1 != ""
    ensures st == AwaitingUpload <==> upload.None?
    ensures st.MissingKey? ==> (st.message == AssemblyAIKeyMissing <==> keys.0 == "")
    ensures st.MissingKey? ==> st.message in {AssemblyAIKeyMissing, OpenAIKeyMissing}
  {
    if upload.None? then AwaitingUpload
    else if keys.0 == "" then MissingKey(AssemblyAIKeyMissing)
    else if keys.1 == "" then MissingKey(OpenAIKeyMissing)
    else ProcessOffered
  }

  /** How the page builds its summariser. `AsWritten` is app.py:252, which
      passes `api_key` and `model` to `LLMService`, whose constructor takes
      only `provider`: the call raises `TypeError` before any request is
      made. `Corrected` is the evidently intended construction, an
      `LLMService` around an OpenAI provider with that key and model. */
  datatype Construction = AsWritten | Corrected

  /** The summariser the page builds, or the exception building it raises. */
  function BuildSummarizer(b: Construction, openaiKey: string, model: string, c: Config.Settings)
    : (r: Result<Llm.LLMService>)
    ensures b == AsWritten ==> r == Err(Llm.ApiKeyRejected)
    ensures b == Corrected ==> r.Ok? && r.value.provider.Some?
    ensures b == Corrected ==> r.value == Llm.LLMServiceFor(Some(openaiKey), model, Config.OpenAIConfig(c))
  {
    match b
    case AsWritten =>
      Llm.AppConstructionAlwaysRaises(openaiKey, model, c);
      Llm.AppLLMServiceAsWritten(openaiKey, model, c)
    case Corrected => Ok(Llm.LLMServiceFor(Some(openaiKey), model, Config.OpenAIConfig(c)))
  }

  /** What summarising a transcript gives: the construction's error, or the
      chat model's answer to the summary prompt followed by the text. */
  function SummaryFor(b: Construction, openaiKey: string, model: string, text: string, c: Config.Settings,
                      chat: Llm.Chat): (r: Result<string>)
    ensures b == AsWritten ==> r == Err(Llm.ApiKeyRejected)
    ensures b == Corrected ==>
              var p := Llm.NewOpenAIProvider(Some(openaiKey), model, Config.OpenAIConfig(c));
              r == Llm.OpenAIProcessText(p, text, Llm.SummaryPrompt, map[], chat)
  {
    match BuildSummarizer(b, openaiKey, model, c)
    case Err(e) => Err(e)
    case Ok(svc) => Llm.SummarizeText(svc, text, map[], chat)
  }

  /** The path the uploaded video is saved under. */
  function VideoPath(tmpDir: string, name: string): string
  {
    tmpDir + "/" + name
  }

  /** The path the extracted audio is written to. */
  function AudioPath(tmpDir: string): string
  {
    tmpDir + "/audio.wav"
  }

  /** The state right after a Process click: processing starts over from the
      extraction with the uploaded file and the current settings; the review
      approval and the last transcript are kept. */
  function StartProcessing(s: SessionState, up: Upload, keys: (string, string), bar: Sidebar): (r: SessionState)
    ensures r.processingStarted && !r.transcriptionStarted && !TruthyText(r.audioPath)
    ensures r.snapshot == Some(Snapshot(up.name, up.bytes, keys.0, keys.1, bar.language, bar.model))
    ensures r.reviewBeforeSummary == s.reviewBeforeSummary && r.summaryStarted == s.summaryStarted
    ensures r.transcript == s.transcript && r.savedVideos == s.savedVideos
    ensures Consistent(r)
  {
    s.(processingStarted := true, transcriptionStarted := false, audioPath := None,
       snapshot := Some(Snapshot(up.name, up.bytes, keys.0, keys.1, bar.language, bar.model)))
  }

  /** The error path of `process_video`: the exception is shown and
      processing stops. */
  function Fail(s: SessionState, e: Exception, calls: seq<Call>): (r: (SessionState, View, seq<Call>))
    ensures !r.0.processingStarted && r.0.(processingStarted := s.processingStarted) == s
    ensures r.1 == Failed(e) && r.2 == calls
    ensures Consistent(s) ==> Consistent(r.0)
  {
    (s.(processingStarted := false), Failed(e), calls)
  }

  /** `process_video` from the confirmation stop on; the audio is there. */
  function FromAudio(s: SessionState, clicks: Clicks, w: World, c: Config.Settings, b: Construction, calls: seq<Call>)
    : (r: (SessionState, View, seq<Call>))
    requires Consistent(s) && s.processingStarted && TruthyText(s.audioPath)
    ensures Consistent(r.0)
  {
    if !s.transcriptionStarted then
      if clicks.confirm then (s.(transcriptionStarted := true), Rerun, calls)
      else (s, AwaitingConfirmation(s.audioPath.value), calls)
    else
      var snap := s.snapshot.value;
      var config := Config.TranscriptionConfig(c, Some(snap.language));
      var calls := calls + [Transcribe(snap.assemblyaiKey, s.audioPath.value, config)];
      var service := Transcription.TranscriptionService(Some(Transcription.AssemblyAIProvider(snap.assemblyaiKey)));
      match Transcription.TranscribeAudio(service, s.audioPath.value, Some(config), w.assemblyAI)
      case Err(e) => Fail(s, e, calls)
      case Ok(text) =>
        var s := s.(transcript := Some(text));
        if s.reviewBeforeSummary && !s.summaryStarted then
          if clicks.proceed then (s.(summaryStarted := true), Rerun, calls)
          else (s, Reviewing(text), calls)
        else
          match BuildSummarizer(b, snap.openaiKey, snap.model, c)
          case Err(e) => Fail(s, e, calls)
          case Ok(svc) =>
            var calls := calls + [Summarize(snap.openaiKey, snap.model, text)];
            match Llm.SummarizeText(svc, text, map[], w.chat)
            case Err(e) => Fail(s, e, calls)
            case Ok(summary) => (s, Results(text, summary), calls)
  }

  /** The first `written` bytes of the upload, as a failed write leaves them. */
  function Truncated(bytes: seq<byte>, written: nat): (r: seq<byte>)
    ensures r <= bytes
    ensures |r| == if written < |bytes| then written else |bytes|
  {
    if written < |bytes| then bytes[..written] else bytes
  }

  /** Saving the video fails: no file of that name is there yet and the
      world makes the save raise. */
  predicate WriteFails(s: SessionState, w: World)
    requires s.snapshot.Some?
  {
    s.snapshot.value.videoName !in s.savedVideos && w.writeError.Some?
  }

  /** The session state once `process_video` has made sure the video is on
      disk. A file already under the name is kept as it is, whole or not.
      Otherwise the file holds the whole upload, or the bytes written
      before `write` raised, or, when `open` raised, there is no file. */
  function Saved(s: SessionState, w: World): (r: SessionState)
    requires s.snapshot.Some?
    ensures r == s.(savedVideos := r.savedVideos)
    ensures r.savedVideos.Keys <= s.savedVideos.Keys + {s.snapshot.value.videoName}
    ensures forall n :: n in s.savedVideos ==> n in r.savedVideos && r.savedVideos[n] == s.savedVideos[n]
    ensures (s.snapshot.value.videoName in r.savedVideos)
              <==> !(WriteFails(s, w) && w.writeError.value.OpenFailed?)
    ensures !WriteFails(s, w) && s.snapshot.value.videoName !in s.savedVideos ==>
              r.savedVideos[s.snapshot.value.videoName] == s.snapshot.value.videoBytes
    ensures WriteFails(s, w) && w.writeError.value.WriteFailed? ==>
              r.savedVideos[s.snapshot.value.videoName]
                == Truncated(s.snapshot.value.videoBytes, w.writeError.value.written)
  {
    var snap := s.snapshot.value;
    if snap.videoName in s.savedVideos then s
    else match w.writeError
      case None => s.(savedVideos := s.savedVideos[snap.videoName := snap.videoBytes])
      case Some(OpenFailed(_)) => s
      case Some(WriteFailed(written, _)) =>
        s.(savedVideos := s.savedVideos[snap.videoName := Truncated(snap.videoBytes, written)])
  }

  /** `process_video` for a started workflow. */
  function Pipeline(s: SessionState, clicks: Clicks, w: World, c: Config.Settings, b: Construction, tmpDir: string)
    : (r: (SessionState, View, seq<Call>))
    requires Consistent(s) && s.processingStarted
    ensures Consistent(r.0)
  {
    var snap := s.snapshot.value;
    if w.mkdirError.Some? then Fail(s, OSError(w.mkdirError.value), [])
    else
      var saved := Saved(s, w);
      if WriteFails(s, w) then Fail(saved, OSError(w.writeError.value.message), [])
      else
        var videoPath := VideoPath(tmpDir, snap.videoName);
        if !TruthyText(saved.audioPath) then
          var calls := [Extract(videoPath, AudioPath(tmpDir), saved.savedVideos[snap.videoName])];
          var service := Audio.NewAudioService(Some(Audio.FFmpegAudioExtractor(c.ffmpegPath)), c);
          if !Audio.ExtractAudioFromVideo(service, videoPath, AudioPath(tmpDir), true, w.ffmpeg) then
            (saved.(processingStarted := false), ExtractionFailed, calls)
          else
            FromAudio(saved.(audioPath := Some(AudioPath(tmpDir))), clicks, w, c, b, calls)
        else
          FromAudio(saved, clicks, w, c, b, [])
  }

  /** One run of `main`: the review checkbox is stored, the status column is
      drawn, a Process click starts the workflow over and asks for a rerun,
      and otherwise a started workflow is continued. */
  function Next(s: SessionState, i: Input, c: Config.Settings, b: Construction,
                tmpDir: string): (r: (SessionState, Report))
    requires Consistent(s)
    ensures Consistent(r.0)
  {
    var s := s.(reviewBeforeSummary := i.sidebar.reviewBeforeSummary);
    var keys := SidebarKeys(c, i.sidebar);
    var status := ProcessStatus(i.upload, keys);
    if status == ProcessOffered && i.clicks.process then
      (StartProcessing(s, i.upload.value, keys, i.sidebar), Report(status, Rerun, []))
    else if !s.processingStarted then
      (s, Report(status, Idle, []))
    else
      var p := Pipeline(s, i.clicks, i.world, c, b, tmpDir);
      (p.0, Report(status, p.1, p.2))
  }

  /** Whether a run's Process click took effect. */
  predicate Started(i: Input, c: Config.Settings)
  {
    ProcessStatus(i.upload, SidebarKeys(c, i.sidebar)) == ProcessOffered && i.clicks.process
  }

  // ---------------------------------------------------------------------
  // The page as an object.

  /** `st.session_state` of one browser session, with the configuration,
      the summariser construction and the temporary directory fixed for its
      life. The page as written is a session built `AsWritten`. */
  class Session {
    const settings: Config.Settings
    const build: Construction
    const tmpDir: string
    var processingStarted: bool
    var transcriptionStarted: bool
    var audioPath: Option<string>
    var snapshot: Option<Snapshot>
    var reviewBeforeSummary: bool
    var summaryStarted: bool
    var transcript: Option<string>
    var savedVideos: map<string, seq<byte>>

    function State(): SessionState
      reads this
    {
      SessionState(processingStarted, transcriptionStarted, audioPath, snapshot, reviewBeforeSummary,
                   summaryStarted, transcript, savedVideos)
    }

    predicate Valid()
      reads this
    {
      Consistent(State())
    }

    constructor (settings: Config.Settings, build: Construction, tmpDir: string)
      ensures Valid() && State() == Initial
      ensures this.settings == settings && this.build == build && this.tmpDir == tmpDir
    {
      this.settings := settings;
      this.build := build;
      this.tmpDir := tmpDir;
      processingStarted, transcriptionStarted, audioPath, snapshot := false, false, None, None;
      reviewBeforeSummary, summaryStarted, transcript, savedVideos := false, false, None, map[];
    }

    /** One run of `main`. */
    method Step(i: Input) returns (report: Report)
      requires Valid()
      modifies this
      ensures Valid()
      ensures (State(), report) == Next(old(State()), i, settings, build, tmpDir)
    {
      reviewBeforeSummary := i.sidebar.reviewBeforeSummary;
      var keys := SidebarKeys(settings, i.sidebar);
      var status := ProcessStatus(i.upload, keys);
      if status == ProcessOffered && i.clicks.process {
        var up := i.upload.value;
        processingStarted := true;
        transcriptionStarted := false;
        audioPath := None;
        snapshot := Some(Snapshot(up.name, up.bytes, keys.0, keys.1, i.sidebar.language, i.sidebar.model));
        return Report(status, Rerun, []);
      }
      if !processingStarted {
        return Report(status, Idle, []);
      }
      var view, calls := ProcessVideo(i.clicks, i.world);
      report := Report(status, view, calls);
    }

    /** `process_video`, reading the snapshot from the session state. */
    method ProcessVideo(clicks: Clicks, w: World) returns (view: View, calls: seq<Call>)
      requires Valid() && processingStarted
      modifies this
      ensures Valid()
      ensures (State(), view, calls) == Pipeline(old(State()), clicks, w, settings, build, tmpDir)
    {
      var snap := snapshot.value;
      calls := [];
      if w.mkdirError.Some? {
        processingStarted := false;
        return Failed(OSError(w.mkdirError.value)), calls;
      }
      if snap.videoName !in savedVideos {
        if w.writeError.Some? {
          var failure := w.writeError.value;
          if failure.WriteFailed? {
            savedVideos := savedVideos[snap.videoName := Truncated(snap.videoBytes, failure.written)];
          }
          processingStarted := false;
          return Failed(OSError(failure.message)), calls;
        }
        savedVideos := savedVideos[snap.videoName := snap.videoBytes];
      }
      var videoPath := VideoPath(tmpDir, snap.videoName);
      if !TruthyText(audioPath) {
        var outputPath := AudioPath(tmpDir);
        calls := [Extract(videoPath, outputPath, savedVideos[snap.videoName])];
        var service := Audio.NewAudioService(Some(Audio.FFmpegAudioExtractor(settings.ffmpegPath)), settings);
        if !Audio.ExtractAudioFromVideo(service, videoPath, outputPath, true, w.ffmpeg) {
          processingStarted := false;
          return ExtractionFailed, calls;
        }
        audioPath := Some(outputPath);
      }
      view, calls := ContinueWithAudio(clicks, w, calls);
    }

    /** `process_video` from the confirmation stop on. */
    method ContinueWithAudio(clicks: Clicks, w: World, earlier: seq<Call>) returns (view: View, calls: seq<Call>)
      requires Valid() && processingStarted && TruthyText(audioPath)
      modifies this
      ensures Valid()
      ensures (State(), view, calls) == FromAudio(old(State()), clicks, w, settings, build, earlier)
    {
      calls := earlier;
      if !transcriptionStarted {
        if clicks.confirm {
          transcriptionStarted := true;
          return Rerun, calls;
        }
        return AwaitingConfirmation(audioPath.value), calls;
      }
      var snap := snapshot.value;
      var config := Config.TranscriptionConfig(settings, Some(snap.language));
      calls := calls + [Transcribe(snap.assemblyaiKey, audioPath.value, config)];
      var transcriber := Transcription.TranscriptionService(Some(Transcription.AssemblyAIProvider(snap.assemblyaiKey)));
      var transcribed := Transcription.TranscribeAudio(transcriber, audioPath.value, Some(config), w.assemblyAI);
      if transcribed.Err? {
        processingStarted := false;
        return Failed(transcribed.error), calls;
      }
      transcript := Some(transcribed.value);
      if reviewBeforeSummary && !summaryStarted {
        if clicks.proceed {
          summaryStarted := true;
          return Rerun, calls;
        }
        return Reviewing(transcribed.value), calls;
      }
      var summarizer := BuildSummarizer(build, snap.openaiKey, snap.model, settings);
      if summarizer.Err? {
        processingStarted := false;
        return Failed(summarizer.error), calls;
      }
      calls := calls + [Summarize(snap.openaiKey, snap.model, transcribed.value)];
      var summary := Llm.SummarizeText(summarizer.value, transcribed.value, map[], w.chat);
      if summary.Err? {
        processingStarted := false;
        return Failed(summary.error), calls;
      }
      view := Results(transcribed.value, summary.value);
    }
  }

  // ---------------------------------------------------------------------
  // Properties of one run.

  /** The calls the pipeline makes after the audio is there: at most the
      transcription and the summary, added to the earlier ones, and only
      once transcription is confirmed. */
  lemma FromAudioCalls(s: SessionState, clicks: Clicks, w: World, c: Config.Settings, b: Construction,
                       earlier: seq<Call>)
    requires Consistent(s) && s.processingStarted && TruthyText(s.audioPath)
    ensures var calls := FromAudio(s, clicks, w, c, b, earlier).2;
            && |earlier| <= |calls| && calls[..|earlier|] == earlier
            && (forall k :: |earlier| <= k < |calls| ==> !calls[k].Extract?)
            && CountExtracts(calls) == CountExtracts(earlier)
            && (|calls| > |earlier| ==> s.transcriptionStarted)
  {
    FromAudioCases(s, clicks, w, c, b, earlier);
    var calls := FromAudio(s, clicks, w, c, b, earlier).2;
    if s.transcriptionStarted {
      var snap := s.snapshot.value;
      var transcribe := Transcribe(snap.assemblyaiKey, s.audioPath.value,
                                   Config.TranscriptionConfig(c, Some(snap.language)));
      var t := TranscriptionFor(s, w, c);
      var gated := s.reviewBeforeSummary && !s.summaryStarted;
      if t.Ok? && !gated && BuildSummarizer(b, snap.openaiKey, snap.model, c).Ok? {
        var summarize := Summarize(snap.openaiKey, snap.model, t.value);
        assert calls == earlier + [transcribe, summarize];
      } else {
        assert calls == earlier + [transcribe];
      }
    }
    var later := calls[|earlier|..];
    assert calls == earlier + later;
    CountExtractsNone(later);
    CountExtractsAppend(earlier, later);
  }

  /** The state the pipeline leaves after the audio is there: the snapshot,
      the audio and the saved videos are kept, and an error, which can only
      come once transcription is confirmed, keeps the approval. */
  lemma FromAudioState(s: SessionState, clicks: Clicks, w: World, c: Config.Settings, b: Construction,
                       earlier: seq<Call>)
    requires Consistent(s) && s.processingStarted && TruthyText(s.audioPath)
    ensures var r := FromAudio(s, clicks, w, c, b, earlier);
            && r.0.snapshot == s.snapshot && r.0.audioPath == s.audioPath && r.0.savedVideos == s.savedVideos
            && r.1 != ExtractionFailed && r.1 != Idle
            && (s.summaryStarted ==> r.0.summaryStarted)
            && (r.1.Failed? ==> s.transcriptionStarted && !r.0.processingStarted
                                && r.0.transcriptionStarted && r.0.summaryStarted == s.summaryStarted)
  {
    FromAudioCases(s, clicks, w, c, b, earlier);
  }

  /** `FromAudio` spelled out case by case. */
  lemma FromAudioCases(s: SessionState, clicks: Clicks, w: World, c: Config.Settings, b: Construction,
                       earlier: seq<Call>)
    requires Consistent(s) && s.processingStarted && TruthyText(s.audioPath)
    ensures var r := FromAudio(s, clicks, w, c, b, earlier);
            var snap := s.snapshot.value;
            var transcribe := Transcribe(snap.assemblyaiKey, s.audioPath.value,
                                         Config.TranscriptionConfig(c, Some(snap.language)));
            var t := TranscriptionFor(s, w, c);
            if !s.transcriptionStarted then
              r == (if clicks.confirm then (s.(transcriptionStarted := true), Rerun, earlier)
                    else (s, AwaitingConfirmation(s.audioPath.value), earlier))
            else if t.Err? then
              r == (s.(processingStarted := false), Failed(t.error), earlier + [transcribe])
            else if s.reviewBeforeSummary && !s.summaryStarted then
              r.2 == earlier + [transcribe] && r.0.transcript == Some(t.value)
              && r.0 == s.(transcript := Some(t.value), summaryStarted := clicks.proceed)
              && r.1 == (if clicks.proceed then Rerun else Reviewing(t.value))
            else
              var built := BuildSummarizer(b, snap.openaiKey, snap.model, c);
              var summary := SummaryFor(b, snap.openaiKey, snap.model, t.value, c, w.chat);
              var summarize := Summarize(snap.openaiKey, snap.model, t.value);
              && r.2 == earlier + [transcribe] + (if built.Ok? then [summarize] else [])
              && r.0 == s.(transcript := Some(t.value), processingStarted := summary.Ok?)
              && r.1 == (if summary.Ok? then Results(t.value, summary.value) else Failed(summary.error))
  {
  }

  /** `Pipeline` spelled out case by case, down to `FromAudio`. */
  lemma PipelineCases(s: SessionState, clicks: Clicks, w: World, c: Config.Settings, b: Construction, tmpDir: string)
    requires Consistent(s) && s.processingStarted
    ensures var r := Pipeline(s, clicks, w, c, b, tmpDir);
            var snap := s.snapshot.value;
            var s1 := Saved(s, w);
            if w.mkdirError.Some? then r == Fail(s, OSError(w.mkdirError.value), [])
            else if WriteFails(s, w) then r == Fail(s1, OSError(w.writeError.value.message), [])
            else
              var videoPath := VideoPath(tmpDir, snap.videoName);
              var extract := Extract(videoPath, AudioPath(tmpDir), s1.savedVideos[snap.videoName]);
              var ok := w.ffmpeg(Audio.FFmpegCommand(c.ffmpegPath, videoPath, AudioPath(tmpDir))) == Audio.Exited(0, true);
              if TruthyText(s.audioPath) then r == FromAudio(s1, clicks, w, c, b, [])
              else if ok then r == FromAudio(s1.(audioPath := Some(AudioPath(tmpDir))), clicks, w, c, b, [extract])
              else r == (s1.(processingStarted := false), ExtractionFailed, [extract])
  {
  }

  /** `Next` spelled out case by case, down to `Pipeline`. */
  lemma NextCases(s: SessionState, i: Input, c: Config.Settings, b: Construction, tmpDir: string)
    requires Consistent(s)
    ensures var r := Next(s, i, c, b, tmpDir);
            var s1 := s.(reviewBeforeSummary := i.sidebar.reviewBeforeSummary);
            var status := ProcessStatus(i.upload, SidebarKeys(c, i.sidebar));
            if Started(i, c) then
              r == (StartProcessing(s1, i.upload.value, SidebarKeys(c, i.sidebar), i.sidebar), Report(status, Rerun, []))
            else if !s.processingStarted then r == (s1, Report(status, Idle, []))
            else
              var p := Pipeline(s1, i.clicks, i.world, c, b, tmpDir);
              r == (p.0, Report(status, p.1, p.2))
  {
  }

  /** A Process click that takes effect stores the uploaded file with the
      keys, language and model of this run, restarts from the extraction,
      calls nothing and asks for a rerun. The review approval, the last
      transcript and the saved videos are kept. */
  lemma ProcessClickStartsOver(s: SessionState, i: Input, c: Config.Settings, b: Construction, tmpDir: string)
    requires Consistent(s) && Started(i, c)
    ensures var r := Next(s, i, c, b, tmpDir);
            var keys := SidebarKeys(c, i.sidebar);
            && keys.0 != "" && keys.1 != ""
            && r.1 == Report(ProcessOffered, Rerun, [])
            && r.0.processingStarted && !r.0.transcriptionStarted && r.0.audioPath == None
            && r.0.snapshot == Some(Snapshot(i.upload.value.name, i.upload.value.bytes, keys.0, keys.1,
                                             i.sidebar.language, i.sidebar.model))
            && r.0.reviewBeforeSummary == i.sidebar.reviewBeforeSummary
            && r.0.summaryStarted == s.summaryStarted && r.0.transcript == s.transcript
            && r.0.savedVideos == s.savedVideos
  {
  }

  /** Without a Process click that takes effect, a workflow that has not
      started does nothing (no call, no change but the review checkbox), and
      a started one always runs the pipeline, which never ends idle. */
  lemma IdleUnlessStarted(s: SessionState, i: Input, c: Config.Settings, b: Construction, tmpDir: string)
    requires Consistent(s) && !Started(i, c)
    ensures var r := Next(s, i, c, b, tmpDir);
            && (r.1.view == Idle <==> !s.processingStarted)
            && (!s.processingStarted ==>
                  r.1.calls == [] && r.0 == s.(reviewBeforeSummary := i.sidebar.reviewBeforeSummary))
  {
    NextCases(s, i, c, b, tmpDir);
    if s.processingStarted {
      var s1 := s.(reviewBeforeSummary := i.sidebar.reviewBeforeSummary);
      PipelineNeverIdle(s1, i.clicks, i.world, c, b, tmpDir);
    }
  }

  lemma PipelineNeverIdle(s: SessionState, clicks: Clicks, w: World, c: Config.Settings, b: Construction,
                          tmpDir: string)
    requires Consistent(s) && s.processingStarted
    ensures Pipeline(s, clicks, w, c, b, tmpDir).1 != Idle
  {
    PipelineCases(s, clicks, w, c, b, tmpDir);
    var snap := s.snapshot.value;
    var s1 := Saved(s, w);
    if TruthyText(s.audioPath) {
      FromAudioState(s1, clicks, w, c, b, []);
    } else if !WriteFails(s, w) {
      var extract := Extract(VideoPath(tmpDir, snap.videoName), AudioPath(tmpDir), s1.savedVideos[snap.videoName]);
      FromAudioState(s1.(audioPath := Some(AudioPath(tmpDir))), clicks, w, c, b, [extract]);
    }
  }

  /** The arguments of an external call, as the values the Process click
      stored dictate them. */
  predicate UsesSnapshot(call: Call, snap: Snapshot, c: Config.Settings, tmpDir: string)
  {
    match call
    case Extract(videoPath, audioPath, _) =>
      videoPath == VideoPath(tmpDir, snap.videoName) && audioPath == AudioPath(tmpDir)
    case Transcribe(apiKey, _, config) =>
      apiKey == snap.assemblyaiKey && config == Config.TranscriptionConfig(c, Some(snap.language))
    case Summarize(apiKey, model, _) =>
      apiKey == snap.openaiKey && model == snap.model
  }

  /** Every external call uses the values stored by the Process click: the
      saved video, the stored AssemblyAI key with the stored language, the
      stored OpenAI key and model. */
  lemma CallsUseSnapshot(s: SessionState, i: Input, c: Config.Settings, b: Construction, tmpDir: string)
    requires Consistent(s)
    ensures var calls := Next(s, i, c, b, tmpDir).1.calls;
            calls != [] ==>
              && s.processingStarted
              && forall k :: 0 <= k < |calls| ==> UsesSnapshot(calls[k], s.snapshot.value, c, tmpDir)
  {
    if !Started(i, c) && s.processingStarted {
      var s1 := s.(reviewBeforeSummary := i.sidebar.reviewBeforeSummary);
      PipelineUsesSnapshot(s1, i.clicks, i.world, c, b, tmpDir);
    }
  }

  lemma PipelineUsesSnapshot(s: SessionState, clicks: Clicks, w: World, c: Config.Settings, b: Construction,
                             tmpDir: string)
    requires Consistent(s) && s.processingStarted
    ensures var calls := Pipeline(s, clicks, w, c, b, tmpDir).2;
            forall k :: 0 <= k < |calls| ==> UsesSnapshot(calls[k], s.snapshot.value, c, tmpDir)
  {
    PipelineCases(s, clicks, w, c, b, tmpDir);
    var snap := s.snapshot.value;
    if w.mkdirError.None? && !WriteFails(s, w) {
      var s1 := Saved(s, w);
      if !TruthyText(s1.audioPath) {
        var calls := [Extract(VideoPath(tmpDir, snap.videoName), AudioPath(tmpDir), s1.savedVideos[snap.videoName])];
        FromAudioUsesSnapshot(s1.(audioPath := Some(AudioPath(tmpDir))), clicks, w, c, b, calls, tmpDir);
      } else {
        FromAudioUsesSnapshot(s1, clicks, w, c, b, [], tmpDir);
      }
    }
  }

  lemma FromAudioUsesSnapshot(s: SessionState, clicks: Clicks, w: World, c: Config.Settings, b: Construction,
                              earlier: seq<Call>,
                              tmpDir: string)
    requires Consistent(s) && s.processingStarted && TruthyText(s.audioPath)
    requires forall k :: 0 <= k < |earlier| ==> UsesSnapshot(earlier[k], s.snapshot.value, c, tmpDir)
    ensures var calls := FromAudio(s, clicks, w, c, b, earlier).2;
            forall k :: 0 <= k < |calls| ==> UsesSnapshot(calls[k], s.snapshot.value, c, tmpDir)
  {
    FromAudioCases(s, clicks, w, c, b, earlier);
  }

  /** What the sidebar shows after the Process click makes no difference
      to the workflow: two runs that differ only in the typed keys, the
      language and the model (and start nothing) reach the same state and
      view with the same calls. */
  lemma SidebarChangesDoNotReachWorkflow(s: SessionState, i: Input, j: Input, c: Config.Settings, b: Construction,
                                         tmpDir: string)
    requires Consistent(s) && !Started(i, c) && !Started(j, c)
    requires i.clicks == j.clicks && i.world == j.world
    requires i.sidebar.reviewBeforeSummary == j.sidebar.reviewBeforeSummary
    ensures Next(s, i, c, b, tmpDir).0 == Next(s, j, c, b, tmpDir).0
    ensures Next(s, i, c, b, tmpDir).1.view == Next(s, j, c, b, tmpDir).1.view
    ensures Next(s, i, c, b, tmpDir).1.calls == Next(s, j, c, b, tmpDir).1.calls
  {
  }

  /** Audio is extracted only while the session has none: a run that has it
      keeps it, and a run that extracts either stores the audio path (FFmpeg
      exited with 0 and left the file) or stops the workflow. */
  lemma ExtractionOnlyWithoutAudio(s: SessionState, i: Input, c: Config.Settings, b: Construction, tmpDir: string)
    requires Consistent(s) && !Started(i, c)
    ensures var r := Next(s, i, c, b, tmpDir);
            && (TruthyText(s.audioPath) ==> r.0.audioPath == s.audioPath)
            && (forall k :: 0 <= k < |r.1.calls| && r.1.calls[k].Extract? ==> k == 0 && !TruthyText(s.audioPath))
            && (r.1.calls != [] && r.1.calls[0].Extract? ==>
                  var ok := i.world.ffmpeg(Audio.FFmpegCommand(c.ffmpegPath, r.1.calls[0].videoPath, AudioPath(tmpDir)))
                            == Audio.Exited(0, true);
                  && (ok ==> r.0.audioPath == Some(AudioPath(tmpDir)))
                  && (!ok <==> r.1.view == ExtractionFailed))
  {
    if s.processingStarted {
      PipelineExtraction(s.(reviewBeforeSummary := i.sidebar.reviewBeforeSummary), i.clicks, i.world, c, b, tmpDir);
    }
  }

  lemma PipelineExtraction(s: SessionState, clicks: Clicks, w: World, c: Config.Settings, b: Construction,
                           tmpDir: string)
    requires Consistent(s) && s.processingStarted
    ensures var r := Pipeline(s, clicks, w, c, b, tmpDir);
            && (TruthyText(s.audioPath) ==> r.0.audioPath == s.audioPath)
            && (forall k :: 0 <= k < |r.2| && r.2[k].Extract? ==> k == 0 && !TruthyText(s.audioPath))
            && (r.2 != [] && r.2[0].Extract? ==>
                  var ok := w.ffmpeg(Audio.FFmpegCommand(c.ffmpegPath, r.2[0].videoPath, AudioPath(tmpDir)))
                            == Audio.Exited(0, true);
                  && (ok ==> r.0.audioPath == Some(AudioPath(tmpDir)))
                  && (!ok <==> r.1 == ExtractionFailed))
  {
    PipelineCases(s, clicks, w, c, b, tmpDir);
    var snap := s.snapshot.value;
    if w.mkdirError.None? && !WriteFails(s, w) {
      var s1 := Saved(s, w);
      if !TruthyText(s1.audioPath) {
        var calls := [Extract(VideoPath(tmpDir, snap.videoName), AudioPath(tmpDir), s1.savedVideos[snap.videoName])];
        FromAudioCalls(s1.(audioPath := Some(AudioPath(tmpDir))), clicks, w, c, b, calls);
        FromAudioState(s1.(audioPath := Some(AudioPath(tmpDir))), clicks, w, c, b, calls);
      } else {
        FromAudioCalls(s1, clicks, w, c, b, []);
        FromAudioState(s1, clicks, w, c, b, []);
      }
    }
  }

  /** A failed extraction stops the workflow without audio, after calling
      nothing but FFmpeg. */
  lemma ExtractionFailureStops(s: SessionState, i: Input, c: Config.Settings, b: Construction, tmpDir: string)
    requires Consistent(s)
    ensures var r := Next(s, i, c, b, tmpDir);
            r.1.view == ExtractionFailed ==>
              && !r.0.processingStarted && !TruthyText(r.0.audioPath)
              && |r.1.calls| == 1 && r.1.calls[0].Extract?
  {
    if !Started(i, c) && s.processingStarted {
      var s1 := s.(reviewBeforeSummary := i.sidebar.reviewBeforeSummary);
      PipelineExtractionFailure(s1, i.clicks, i.world, c, b, tmpDir);
    }
  }

  lemma PipelineExtractionFailure(s: SessionState, clicks: Clicks, w: World, c: Config.Settings, b: Construction,
                                  tmpDir: string)
    requires Consistent(s) && s.processingStarted
    ensures var r := Pipeline(s, clicks, w, c, b, tmpDir);
            r.1 == ExtractionFailed ==>
              && !r.0.processingStarted && !TruthyText(r.0.audioPath)
              && |r.2| == 1 && r.2[0].Extract?
  {
    PipelineCases(s, clicks, w, c, b, tmpDir);
    var snap := s.snapshot.value;
    if w.mkdirError.None? && !WriteFails(s, w) {
      var s1 := Saved(s, w);
      if !TruthyText(s1.audioPath) {
        var calls := [Extract(VideoPath(tmpDir, snap.videoName), AudioPath(tmpDir), s1.savedVideos[snap.videoName])];
        FromAudioState(s1.(audioPath := Some(AudioPath(tmpDir))), clicks, w, c, b, calls);
      } else {
        FromAudioState(s1, clicks, w, c, b, []);
      }
    }
  }

  /** The listen-and-confirm stop: with the audio there and no confirmation
      yet, a run calls nothing; a Confirm click sets only the confirmation
      flag and asks for a rerun, and otherwise the run waits at the stop. */
  lemma ConfirmationStop(s: SessionState, i: Input, c: Config.Settings, b: Construction, tmpDir: string)
    requires Consistent(s) && !Started(i, c) && s.processingStarted && !s.transcriptionStarted
    requires TruthyText(s.audioPath) && s.snapshot.value.videoName in s.savedVideos
    requires i.world.mkdirError.None?
    ensures var r := Next(s, i, c, b, tmpDir);
            && r.1.calls == []
            && r.0 == s.(reviewBeforeSummary := i.sidebar.reviewBeforeSummary, transcriptionStarted := i.clicks.confirm)
            && r.1.view == if i.clicks.confirm then Rerun else AwaitingConfirmation(s.audioPath.value)
  {
  }

  /** What transcription answers for a confirmed workflow. */
  function TranscriptionFor(s: SessionState, w: World, c: Config.Settings): Result<string>
    requires s.snapshot.Some? && s.audioPath.Some?
  {
    var snap := s.snapshot.value;
    Transcription.TranscribeAudio(Transcription.TranscriptionService(Some(Transcription.AssemblyAIProvider(snap.assemblyaiKey))),
                                  s.audioPath.value, Some(Config.TranscriptionConfig(c, Some(snap.language))), w.assemblyAI)
  }

  /** Nothing is cached between runs: once transcription is confirmed,
      every run transcribes the stored audio again, stores a transcript it
      gets, and stops the workflow on an error. */
  lemma TranscribesOnEveryRun(s: SessionState, i: Input, c: Config.Settings, b: Construction, tmpDir: string)
    requires Consistent(s) && !Started(i, c) && s.processingStarted && s.transcriptionStarted
    requires i.world.mkdirError.None? && !WriteFails(s, i.world)
    ensures var r := Next(s, i, c, b, tmpDir);
            var snap := s.snapshot.value;
            var t := TranscriptionFor(s, i.world, c);
            && |r.1.calls| >= 1
            && r.1.calls[0] == Transcribe(snap.assemblyaiKey, s.audioPath.value,
                                          Config.TranscriptionConfig(c, Some(snap.language)))
            && (t.Ok? ==> r.0.transcript == Some(t.value))
            && (t.Err? ==> r.1.view == Failed(t.error) && !r.0.processingStarted && |r.1.calls| == 1)
  {
    NextCases(s, i, c, b, tmpDir);
    var s1 := s.(reviewBeforeSummary := i.sidebar.reviewBeforeSummary);
    PipelineCases(s1, i.clicks, i.world, c, b, tmpDir);
    var snap := s.snapshot.value;
    var s2 := Saved(s1, i.world);
    FromAudioCases(s2, i.clicks, i.world, c, b, []);
    assert TranscriptionFor(s2, i.world, c) == TranscriptionFor(s, i.world, c);
  }

  /** The review stop: after a successful transcription the summariser is
      built exactly when review is off or was approved on an earlier run,
      and the summary is requested when building it succeeds; otherwise
      the run shows the transcript, or on a Proceed click records the
      approval and asks for a rerun. */
  lemma SummaryGate(s: SessionState, i: Input, c: Config.Settings, b: Construction, tmpDir: string)
    requires Consistent(s) && !Started(i, c) && s.processingStarted && s.transcriptionStarted
    requires i.world.mkdirError.None? && !WriteFails(s, i.world)
    requires TranscriptionFor(s, i.world, c).Ok?
    ensures var r := Next(s, i, c, b, tmpDir);
            var snap := s.snapshot.value;
            var text := TranscriptionFor(s, i.world, c).value;
            var review := i.sidebar.reviewBeforeSummary;
            var built := BuildSummarizer(b, snap.openaiKey, snap.model, c);
            && (|r.1.calls| == 2 <==> (!review || s.summaryStarted) && built.Ok?)
            && (|r.1.calls| == 2 ==> r.1.calls[1] == Summarize(snap.openaiKey, snap.model, text))
            && ((!review || s.summaryStarted) ==>
                  var summary := SummaryFor(b, snap.openaiKey, snap.model, text, c, i.world.chat);
                  && (summary.Ok? ==> r.1.view == Results(text, summary.value) && r.0.processingStarted)
                  && (summary.Err? ==> r.1.view == Failed(summary.error) && !r.0.processingStarted))
            && (review && !s.summaryStarted ==>
                  && r.0.summaryStarted == i.clicks.proceed
                  && r.1.view == if i.clicks.proceed then Rerun else Reviewing(text))
  {
    NextCases(s, i, c, b, tmpDir);
    var s1 := s.(reviewBeforeSummary := i.sidebar.reviewBeforeSummary);
    PipelineCases(s1, i.clicks, i.world, c, b, tmpDir);
    var snap := s.snapshot.value;
    var s2 := Saved(s1, i.world);
    FromAudioCases(s2, i.clicks, i.world, c, b, []);
    assert TranscriptionFor(s2, i.world, c) == TranscriptionFor(s, i.world, c);
  }

  /** An error caught around the pipeline stops processing but loses no
      progress: the snapshot, the audio, the confirmation and the review
      approval stay. */
  lemma FailureKeepsProgress(s: SessionState, i: Input, c: Config.Settings, b: Construction, tmpDir: string)
    requires Consistent(s)
    ensures var r := Next(s, i, c, b, tmpDir);
            r.1.view.Failed? ==>
              && !r.0.processingStarted && r.0.snapshot == s.snapshot && r.0.audioPath == s.audioPath
              && r.0.transcriptionStarted == s.transcriptionStarted && r.0.summaryStarted == s.summaryStarted
  {
    if !Started(i, c) && s.processingStarted {
      PipelineFailure(s.(reviewBeforeSummary := i.sidebar.reviewBeforeSummary), i.clicks, i.world, c, b, tmpDir);
    }
  }

  lemma PipelineFailure(s: SessionState, clicks: Clicks, w: World, c: Config.Settings, b: Construction, tmpDir: string)
    requires Consistent(s) && s.processingStarted
    ensures var r := Pipeline(s, clicks, w, c, b, tmpDir);
            r.1.Failed? ==>
              && !r.0.processingStarted && r.0.snapshot == s.snapshot && r.0.audioPath == s.audioPath
              && r.0.transcriptionStarted == s.transcriptionStarted && r.0.summaryStarted == s.summaryStarted
  {
    PipelineCases(s, clicks, w, c, b, tmpDir);
    var snap := s.snapshot.value;
    if w.mkdirError.None? && !WriteFails(s, w) {
      var s1 := Saved(s, w);
      if !TruthyText(s1.audioPath) {
        var calls := [Extract(VideoPath(tmpDir, snap.videoName), AudioPath(tmpDir), s1.savedVideos[snap.videoName])];
        FromAudioCalls(s1.(audioPath := Some(AudioPath(tmpDir))), clicks, w, c, b, calls);
        FromAudioState(s1.(audioPath := Some(AudioPath(tmpDir))), clicks, w, c, b, calls);
      } else {
        FromAudioCalls(s1, clicks, w, c, b, []);
        FromAudioState(s1, clicks, w, c, b, []);
      }
    }
  }

  /** No run both extracts and transcribes: the confirmation stop lies
      between them. */
  lemma ExtractionAndTranscriptionApart(s: SessionState, i: Input, c: Config.Settings, b: Construction, tmpDir: string)
    requires Consistent(s)
    ensures var calls := Next(s, i, c, b, tmpDir).1.calls;
            forall j, k :: 0 <= j < |calls| && 0 <= k < |calls| && calls[j].Extract? ==> !calls[k].Transcribe?
  {
    if !Started(i, c) && s.processingStarted {
      var s1 := s.(reviewBeforeSummary := i.sidebar.reviewBeforeSummary);
      PipelineExtractionApart(s1, i.clicks, i.world, c, b, tmpDir);
    }
  }

  lemma PipelineExtractionApart(s: SessionState, clicks: Clicks, w: World, c: Config.Settings, b: Construction,
                                tmpDir: string)
    requires Consistent(s) && s.processingStarted
    ensures var calls := Pipeline(s, clicks, w, c, b, tmpDir).2;
            forall j, k :: 0 <= j < |calls| && 0 <= k < |calls| && calls[j].Extract? ==> !calls[k].Transcribe?
  {
    PipelineCases(s, clicks, w, c, b, tmpDir);
    var snap := s.snapshot.value;
    if w.mkdirError.None? && !WriteFails(s, w) {
      var s1 := Saved(s, w);
      if !TruthyText(s1.audioPath) {
        var calls := [Extract(VideoPath(tmpDir, snap.videoName), AudioPath(tmpDir), s1.savedVideos[snap.videoName])];
        FromAudioCalls(s1.(audioPath := Some(AudioPath(tmpDir))), clicks, w, c, b, calls);
      } else {
        FromAudioCalls(s1, clicks, w, c, b, []);
      }
    }
  }

  /** The saved video is keyed by its file name: once a name is saved, a
      later upload under that name is not written again, and extraction
      reads the first file's bytes, even when that file was left truncated
      by a failed write. */
  lemma SavedVideoIsReused(s: SessionState, i: Input, c: Config.Settings, b: Construction, tmpDir: string)
    requires Consistent(s) && !Started(i, c) && s.processingStarted
    requires s.snapshot.value.videoName in s.savedVideos
    ensures var r := Next(s, i, c, b, tmpDir);
            && r.0.savedVideos == s.savedVideos
            && forall k :: 0 <= k < |r.1.calls| && r.1.calls[k].Extract? ==>
                 r.1.calls[k].video == s.savedVideos[s.snapshot.value.videoName]
  {
    NextCases(s, i, c, b, tmpDir);
    PipelineCases(s.(reviewBeforeSummary := i.sidebar.reviewBeforeSummary), i.clicks, i.world, c, b, tmpDir);
    var s1 := s.(reviewBeforeSummary := i.sidebar.reviewBeforeSummary);
    var snap := s.snapshot.value;
    if i.world.mkdirError.None? {
      if !TruthyText(s1.audioPath) {
        var calls := [Extract(VideoPath(tmpDir, snap.videoName), AudioPath(tmpDir), s1.savedVideos[snap.videoName])];
        FromAudioCalls(s1.(audioPath := Some(AudioPath(tmpDir))), i.clicks, i.world, c, b, calls);
        FromAudioState(s1.(audioPath := Some(AudioPath(tmpDir))), i.clicks, i.world, c, b, calls);
      } else {
        FromAudioCalls(s1, i.clicks, i.world, c, b, []);
        FromAudioState(s1, i.clicks, i.world, c, b, []);
      }
    }
  }

  /** Saving a new video that fails stops the workflow with the error and
      calls nothing. When `open` raised, no file is left; when `write`
      raised after `open`, the truncated file stays under the name, so the
      next run that reaches the save reuses it instead of writing the
      upload again. */
  lemma FailedWriteLeavesPartialFile(s: SessionState, i: Input, c: Config.Settings, b: Construction, tmpDir: string)
    requires Consistent(s) && !Started(i, c) && s.processingStarted
    requires i.world.mkdirError.None? && WriteFails(s, i.world)
    ensures var r := Next(s, i, c, b, tmpDir);
            var snap := s.snapshot.value;
            var failure := i.world.writeError.value;
            && r.1.view == Failed(OSError(failure.message)) && r.1.calls == []
            && !r.0.processingStarted && r.0.audioPath == s.audioPath
            && (failure.OpenFailed? ==> r.0.savedVideos == s.savedVideos)
            && (failure.WriteFailed? ==>
                  r.0.savedVideos == s.savedVideos[snap.videoName := Truncated(snap.videoBytes, failure.written)])
  {
    NextCases(s, i, c, b, tmpDir);
    PipelineCases(s.(reviewBeforeSummary := i.sidebar.reviewBeforeSummary), i.clicks, i.world, c, b, tmpDir);
  }

  // ---------------------------------------------------------------------
  // Sequences of runs.

  /** The session state after a sequence of runs, every external call they
      made, in order, and the view each run ended in. */
  function Run(s: SessionState, inputs: seq<Input>, c: Config.Settings, b: Construction, tmpDir: string)
    : (r: (SessionState, seq<Call>, seq<View>))
    requires Consistent(s)
    ensures Consistent(r.0)
    ensures |r.2| == |inputs|
    decreases |inputs|
  {
    if inputs == [] then (s, [], [])
    else
      var step := Next(s, inputs[0], c, b, tmpDir);
      var rest := Run(step.0, inputs[1..], c, b, tmpDir);
      (rest.0, step.1.calls + rest.1, [step.1.view] + rest.2)
  }

  function CountExtracts(calls: seq<Call>): nat
  {
    if calls == [] then 0 else (if calls[0].Extract? then 1 else 0) + CountExtracts(calls[1..])
  }

  lemma {:induction false} CountExtractsAppend(a: seq<Call>, b: seq<Call>)
    ensures CountExtracts(a + b) == CountExtracts(a) + CountExtracts(b)
  {
    if a == [] {
      assert a + b == b;
    } else {
      assert (a + b)[1..] == a[1..] + b;
      CountExtractsAppend(a[1..], b);
    }
  }

  lemma {:induction false} CountExtractsNone(calls: seq<Call>)
    requires forall k :: 0 <= k < |calls| ==> !calls[k].Extract?
    ensures CountExtracts(calls) == 0
  {
    if calls != [] {
      CountExtractsNone(calls[1..]);
    }
  }

  predicate NoProcessClick(inputs: seq<Input>)
  {
    forall k :: 0 <= k < |inputs| ==> !inputs[k].clicks.process
  }

  predicate NoConfirmClick(inputs: seq<Input>)
  {
    forall k :: 0 <= k < |inputs| ==> !inputs[k].clicks.confirm
  }

  predicate NoProceedClick(inputs: seq<Input>)
  {
    forall k :: 0 <= k < |inputs| ==> !inputs[k].clicks.proceed
  }

  predicate ReviewAlwaysOn(inputs: seq<Input>)
  {
    forall k :: 0 <= k < |inputs| ==> inputs[k].sidebar.reviewBeforeSummary
  }

  predicate OnlyExtracts(calls: seq<Call>)
  {
    forall k :: 0 <= k < |calls| ==> calls[k].Extract?
  }

  predicate NoSummarize(calls: seq<Call>)
  {
    forall k :: 0 <= k < |calls| ==> !calls[k].Summarize?
  }

  /** Nothing is left to extract: the workflow is stopped or has audio. */
  predicate Settled(s: SessionState)
  {
    !s.processingStarted || TruthyText(s.audioPath)
  }

  /** One run without a Process click extracts at most once, leaves nothing
      to extract after it does, and extracts nothing once settled. */
  lemma StepExtractsOnce(s: SessionState, i: Input, c: Config.Settings, b: Construction, tmpDir: string)
    requires Consistent(s) && !i.clicks.process
    ensures var r := Next(s, i, c, b, tmpDir);
            && CountExtracts(r.1.calls) <= 1
            && (CountExtracts(r.1.calls) == 1 ==> Settled(r.0))
            && (Settled(s) ==> CountExtracts(r.1.calls) == 0 && Settled(r.0))
  {
    NextCases(s, i, c, b, tmpDir);
    if s.processingStarted {
      PipelineExtractsOnce(s.(reviewBeforeSummary := i.sidebar.reviewBeforeSummary), i.clicks, i.world, c, b, tmpDir);
    }
  }

  lemma PipelineExtractsOnce(s: SessionState, clicks: Clicks, w: World, c: Config.Settings, b: Construction,
                             tmpDir: string)
    requires Consistent(s) && s.processingStarted
    ensures var r := Pipeline(s, clicks, w, c, b, tmpDir);
            && CountExtracts(r.2) <= 1
            && (CountExtracts(r.2) == 1 ==> Settled(r.0))
            && (TruthyText(s.audioPath) ==> CountExtracts(r.2) == 0 && TruthyText(r.0.audioPath))
  {
    PipelineCases(s, clicks, w, c, b, tmpDir);
    var snap := s.snapshot.value;
    var s1 := Saved(s, w);
    if TruthyText(s.audioPath) {
      FromAudioCalls(s1, clicks, w, c, b, []);
      FromAudioState(s1, clicks, w, c, b, []);
    } else if !WriteFails(s, w) {
      var extract := Extract(VideoPath(tmpDir, snap.videoName), AudioPath(tmpDir), s1.savedVideos[snap.videoName]);
      assert CountExtracts([extract]) == 1;
      FromAudioCalls(s1.(audioPath := Some(AudioPath(tmpDir))), clicks, w, c, b, [extract]);
      FromAudioState(s1.(audioPath := Some(AudioPath(tmpDir))), clicks, w, c, b, [extract]);
    }
  }


  /** Runs without a Process click extract nothing once there is nothing
      left to extract. */
  lemma {:induction false} SettledNeverExtracts(s: SessionState, inputs: seq<Input>, c: Config.Settings,
                                                b: Construction, tmpDir: string)
    requires Consistent(s) && Settled(s) && NoProcessClick(inputs)
    ensures CountExtracts(Run(s, inputs, c, b, tmpDir).1) == 0 && Settled(Run(s, inputs, c, b, tmpDir).0)
    decreases |inputs|
  {
    if inputs != [] {
      var step := Next(s, inputs[0], c, b, tmpDir);
      StepExtractsOnce(s, inputs[0], c, b, tmpDir);
      assert NoProcessClick(inputs[1..]);
      SettledNeverExtracts(step.0, inputs[1..], c, b, tmpDir);
      CountExtractsAppend(step.1.calls, Run(step.0, inputs[1..], c, b, tmpDir).1);
    }
  }

  /** Audio is extracted at most once per Process click: any sequence of
      runs without one calls FFmpeg at most once. */
  lemma {:induction false} ExtractsAtMostOnce(s: SessionState, inputs: seq<Input>, c: Config.Settings,
                                              b: Construction, tmpDir: string)
    requires Consistent(s) && NoProcessClick(inputs)
    ensures CountExtracts(Run(s, inputs, c, b, tmpDir).1) <= 1
    decreases |inputs|
  {
    if inputs != [] {
      var step := Next(s, inputs[0], c, b, tmpDir);
      StepExtractsOnce(s, inputs[0], c, b, tmpDir);
      assert NoProcessClick(inputs[1..]);
      CountExtractsAppend(step.1.calls, Run(step.0, inputs[1..], c, b, tmpDir).1);
      if CountExtracts(step.1.calls) == 1 {
        SettledNeverExtracts(step.0, inputs[1..], c, b, tmpDir);
      } else {
        ExtractsAtMostOnce(step.0, inputs[1..], c, b, tmpDir);
      }
    }
  }

  /** One run without a Confirm click leaves an unconfirmed workflow
      unconfirmed and calls nothing but FFmpeg. */
  lemma StepBeforeConfirmation(s: SessionState, i: Input, c: Config.Settings, b: Construction, tmpDir: string)
    requires Consistent(s) && !s.transcriptionStarted && !i.clicks.confirm
    ensures var r := Next(s, i, c, b, tmpDir);
            OnlyExtracts(r.1.calls) && !r.0.transcriptionStarted
  {
    NextCases(s, i, c, b, tmpDir);
    if !Started(i, c) && s.processingStarted {
      var s1 := s.(reviewBeforeSummary := i.sidebar.reviewBeforeSummary);
      PipelineBeforeConfirmation(s1, i.clicks, i.world, c, b, tmpDir);
    }
  }

  lemma PipelineBeforeConfirmation(s: SessionState, clicks: Clicks, w: World, c: Config.Settings, b: Construction,
                                   tmpDir: string)
    requires Consistent(s) && s.processingStarted && !s.transcriptionStarted && !clicks.confirm
    ensures var r := Pipeline(s, clicks, w, c, b, tmpDir);
            OnlyExtracts(r.2) && !r.0.transcriptionStarted
  {
    PipelineCases(s, clicks, w, c, b, tmpDir);
    var snap := s.snapshot.value;
    var s1 := Saved(s, w);
    if TruthyText(s.audioPath) {
      FromAudioCases(s1, clicks, w, c, b, []);
    } else if !WriteFails(s, w) {
      var extract := Extract(VideoPath(tmpDir, snap.videoName), AudioPath(tmpDir), s1.savedVideos[snap.videoName]);
      FromAudioCases(s1.(audioPath := Some(AudioPath(tmpDir))), clicks, w, c, b, [extract]);
    }
  }

  /** Nothing reaches AssemblyAI or the chat model before the user confirms:
      runs without a Confirm click, Process clicks included, call nothing
      but FFmpeg. */
  lemma {:induction false} NothingSentBeforeConfirmation(s: SessionState, inputs: seq<Input>, c: Config.Settings,
                                                         b: Construction,
                                                         tmpDir: string)
    requires Consistent(s) && !s.transcriptionStarted && NoConfirmClick(inputs)
    ensures OnlyExtracts(Run(s, inputs, c, b, tmpDir).1) && !Run(s, inputs, c, b, tmpDir).0.transcriptionStarted
    decreases |inputs|
  {
    if inputs != [] {
      var step := Next(s, inputs[0], c, b, tmpDir);
      StepBeforeConfirmation(s, inputs[0], c, b, tmpDir);
      assert NoConfirmClick(inputs[1..]);
      NothingSentBeforeConfirmation(step.0, inputs[1..], c, b, tmpDir);
    }
  }

  /** One run with review on and no Proceed click leaves an unapproved
      workflow unapproved and asks for no summary. */
  lemma StepBeforeApproval(s: SessionState, i: Input, c: Config.Settings, b: Construction, tmpDir: string)
    requires Consistent(s) && !s.summaryStarted && i.sidebar.reviewBeforeSummary && !i.clicks.proceed
    ensures var r := Next(s, i, c, b, tmpDir);
            NoSummarize(r.1.calls) && !r.0.summaryStarted
  {
    NextCases(s, i, c, b, tmpDir);
    if !Started(i, c) && s.processingStarted {
      PipelineBeforeApproval(s.(reviewBeforeSummary := i.sidebar.reviewBeforeSummary), i.clicks, i.world, c, b, tmpDir);
    }
  }

  lemma PipelineBeforeApproval(s: SessionState, clicks: Clicks, w: World, c: Config.Settings, b: Construction,
                               tmpDir: string)
    requires Consistent(s) && s.processingStarted && !s.summaryStarted && s.reviewBeforeSummary && !clicks.proceed
    ensures var r := Pipeline(s, clicks, w, c, b, tmpDir);
            NoSummarize(r.2) && !r.0.summaryStarted
  {
    PipelineCases(s, clicks, w, c, b, tmpDir);
    var snap := s.snapshot.value;
    var s1 := Saved(s, w);
    if TruthyText(s.audioPath) {
      FromAudioCases(s1, clicks, w, c, b, []);
    } else if !WriteFails(s, w) {
      var extract := Extract(VideoPath(tmpDir, snap.videoName), AudioPath(tmpDir), s1.savedVideos[snap.videoName]);
      FromAudioCases(s1.(audioPath := Some(AudioPath(tmpDir))), clicks, w, c, b, [extract]);
    }
  }

  /** With review on, no summary is requested before the user approves the
      transcript. */
  lemma {:induction false} NoSummaryBeforeApproval(s: SessionState, inputs: seq<Input>, c: Config.Settings,
                                                   b: Construction,
                                                   tmpDir: string)
    requires Consistent(s) && !s.summaryStarted && ReviewAlwaysOn(inputs) && NoProceedClick(inputs)
    ensures NoSummarize(Run(s, inputs, c, b, tmpDir).1) && !Run(s, inputs, c, b, tmpDir).0.summaryStarted
    decreases |inputs|
  {
    if inputs != [] {
      var step := Next(s, inputs[0], c, b, tmpDir);
      StepBeforeApproval(s, inputs[0], c, b, tmpDir);
      assert ReviewAlwaysOn(inputs[1..]) && NoProceedClick(inputs[1..]);
      NoSummaryBeforeApproval(step.0, inputs[1..], c, b, tmpDir);
    }
  }

  /** The review approval is never withdrawn, not even by a Process click
      for another video: once given, later runs skip the review stop. */
  lemma {:induction false} ApprovalSticks(s: SessionState, inputs: seq<Input>, c: Config.Settings,
                                          b: Construction, tmpDir: string)
    requires Consistent(s) && s.summaryStarted
    ensures Run(s, inputs, c, b, tmpDir).0.summaryStarted
    decreases |inputs|
  {
    if inputs != [] {
      var step := Next(s, inputs[0], c, b, tmpDir);
      StepKeepsApproval(s, inputs[0], c, b, tmpDir);
      ApprovalSticks(step.0, inputs[1..], c, b, tmpDir);
    }
  }

  /** One run keeps the review approval. */
  lemma StepKeepsApproval(s: SessionState, i: Input, c: Config.Settings, b: Construction, tmpDir: string)
    requires Consistent(s) && s.summaryStarted
    ensures Next(s, i, c, b, tmpDir).0.summaryStarted
  {
    NextCases(s, i, c, b, tmpDir);
    if !Started(i, c) && s.processingStarted {
      var s1 := s.(reviewBeforeSummary := i.sidebar.reviewBeforeSummary);
      PipelineCases(s1, i.clicks, i.world, c, b, tmpDir);
      var snap := s.snapshot.value;
      var s2 := Saved(s1, i.world);
      if TruthyText(s.audioPath) {
        FromAudioState(s2, i.clicks, i.world, c, b, []);
      } else if !WriteFails(s1, i.world) {
        var extract := Extract(VideoPath(tmpDir, snap.videoName), AudioPath(tmpDir), s2.savedVideos[snap.videoName]);
        FromAudioState(s2.(audioPath := Some(AudioPath(tmpDir))), i.clicks, i.world, c, b, [extract]);
      }
    }
  }

  /** Without a Process click, a workflow that has not started stays idle
      and calls nothing. */
  lemma {:induction false} IdleStaysIdle(s: SessionState, inputs: seq<Input>, c: Config.Settings, b: Construction,
                                         tmpDir: string)
    requires Consistent(s) && !s.processingStarted && NoProcessClick(inputs)
    ensures Run(s, inputs, c, b, tmpDir).1 == [] && !Run(s, inputs, c, b, tmpDir).0.processingStarted
    decreases |inputs|
  {
    if inputs != [] {
      var step := Next(s, inputs[0], c, b, tmpDir);
      assert !inputs[0].clicks.process && NoProcessClick(inputs[1..]);
      IdleStaysIdle(step.0, inputs[1..], c, b, tmpDir);
    }
  }

  // ---------------------------------------------------------------------
  // The page as written.

  predicate NoResults(views: seq<View>)
  {
    forall k :: 0 <= k < |views| ==> !views[k].Results?
  }

  /** As written, a run that gets past the review stop transcribes and then
      ends in an error: the construction's `TypeError` when the transcript
      arrives, the transcription error otherwise. Processing stops and the
      chat model is never called. */
  lemma SummaryAsWrittenFails(s: SessionState, i: Input, c: Config.Settings, tmpDir: string)
    requires Consistent(s) && !Started(i, c) && s.processingStarted && s.transcriptionStarted
    requires i.world.mkdirError.None? && !WriteFails(s, i.world)
    requires !i.sidebar.reviewBeforeSummary || s.summaryStarted
    ensures var r := Next(s, i, c, AsWritten, tmpDir);
            var snap := s.snapshot.value;
            var t := TranscriptionFor(s, i.world, c);
            && r.1.view == Failed(if t.Ok? then Llm.ApiKeyRejected else t.error)
            && !r.0.processingStarted
            && r.1.calls == [Transcribe(snap.assemblyaiKey, s.audioPath.value,
                                        Config.TranscriptionConfig(c, Some(snap.language)))]
  {
    NextCases(s, i, c, AsWritten, tmpDir);
    var s1 := s.(reviewBeforeSummary := i.sidebar.reviewBeforeSummary);
    PipelineCases(s1, i.clicks, i.world, c, AsWritten, tmpDir);
    var snap := s.snapshot.value;
    var s2 := Saved(s1, i.world);
    FromAudioCases(s2, i.clicks, i.world, c, AsWritten, []);
    assert TranscriptionFor(s2, i.world, c) == TranscriptionFor(s, i.world, c);
  }

  /** As written, no run shows a summary or calls the chat model. */
  lemma AsWrittenStepNeverSummarizes(s: SessionState, i: Input, c: Config.Settings, tmpDir: string)
    requires Consistent(s)
    ensures var r := Next(s, i, c, AsWritten, tmpDir);
            NoSummarize(r.1.calls) && !r.1.view.Results?
  {
    NextCases(s, i, c, AsWritten, tmpDir);
    if !Started(i, c) && s.processingStarted {
      PipelineAsWritten(s.(reviewBeforeSummary := i.sidebar.reviewBeforeSummary), i.clicks, i.world, c, tmpDir);
    }
  }

  lemma PipelineAsWritten(s: SessionState, clicks: Clicks, w: World, c: Config.Settings, tmpDir: string)
    requires Consistent(s) && s.processingStarted
    ensures var r := Pipeline(s, clicks, w, c, AsWritten, tmpDir);
            NoSummarize(r.2) && !r.1.Results?
  {
    PipelineCases(s, clicks, w, c, AsWritten, tmpDir);
    var snap := s.snapshot.value;
    var s1 := Saved(s, w);
    if TruthyText(s.audioPath) {
      FromAudioCases(s1, clicks, w, c, AsWritten, []);
    } else if !WriteFails(s, w) {
      var extract := Extract(VideoPath(tmpDir, snap.videoName), AudioPath(tmpDir), s1.savedVideos[snap.videoName]);
      FromAudioCases(s1.(audioPath := Some(AudioPath(tmpDir))), clicks, w, c, AsWritten, [extract]);
    }
  }

  /** As written, whatever the user does and whatever the services answer,
      no sequence of runs ever shows a summary or reaches the chat model. */
  lemma {:induction false} AsWrittenNeverSummarizes(s: SessionState, inputs: seq<Input>, c: Config.Settings,
                                                    tmpDir: string)
    requires Consistent(s)
    ensures NoSummarize(Run(s, inputs, c, AsWritten, tmpDir).1) && NoResults(Run(s, inputs, c, AsWritten, tmpDir).2)
    decreases |inputs|
  {
    if inputs != [] {
      var step := Next(s, inputs[0], c, AsWritten, tmpDir);
      AsWrittenStepNeverSummarizes(s, inputs[0], c, tmpDir);
      AsWrittenNeverSummarizes(step.0, inputs[1..], c, tmpDir);
    }
  }

  /** A world in which everything goes right: the directory and the video
      can be written, FFmpeg succeeds, AssemblyAI completes with `text` and
      the chat model answers `summary`. */
  ghost predicate Cooperative(w: World, text: string, summary: string)
  {
    && w.mkdirError.None? && w.writeError.None?
    && (forall cmd :: w.ffmpeg(cmd) == Audio.Exited(0, true))
    && (forall key, path, pc :: w.assemblyAI(key, path, pc) == Transcription.Transcript("completed", text, ""))
    && (forall settings, messages :: w.chat(settings, messages) == Llm.Reply(summary))
  }

  /** In such a world, transcription yields `text`, and summarising yields
      `summary` with the corrected construction and the construction's
      `TypeError` as written. */
  lemma CooperativeAnswers(s: SessionState, w: World, c: Config.Settings, b: Construction, text: string,
                           summary: string)
    requires Cooperative(w, text, summary) && s.snapshot.Some? && s.audioPath.Some?
    ensures TranscriptionFor(s, w, c) == Ok(text)
    ensures var snap := s.snapshot.value;
            SummaryFor(b, snap.openaiKey, snap.model, text, c, w.chat) == SummaryOutcome(b, summary)
  {
    var snap := s.snapshot.value;
    var config := Transcription.ProviderConfigOf(Transcription.EffectiveConfig(
                    Some(Config.TranscriptionConfig(c, Some(snap.language)))));
    assert w.assemblyAI(snap.assemblyaiKey, s.audioPath.value, config) == Transcription.Transcript("completed", text, "");
    if b == Corrected {
      var p := Llm.NewOpenAIProvider(Some(snap.openaiKey), snap.model, Config.OpenAIConfig(c));
      assert w.chat(p.llm, [Llm.SystemMessage(Llm.SummaryPrompt), Llm.HumanMessage(text)]) == Llm.Reply(summary);
    }
  }

  /** What summarising yields in a cooperative world whose chat model
      answers `summary`. */
  function SummaryOutcome(b: Construction, summary: string): Result<string>
  {
    if b == Corrected then Ok(summary) else Err(Llm.ApiKeyRejected)
  }

  /** The view of a run that summarises in a cooperative world. */
  function SummaryView(b: Construction, text: string, summary: string): View
  {
    if b == Corrected then Results(text, summary) else Failed(Llm.ApiKeyRejected)
  }

  /** The first three runs of a fresh session that goes right: the Process
      click asks for a rerun, the next run saves the video, extracts the
      audio and stops for confirmation, and the Confirm click asks for a
      rerun. */
  method StartAndConfirm(session: Session, up: Upload, bar: Sidebar, w: World) returns (views: seq<View>)
    requires session.Valid() && session.State() == Initial
    requires SidebarKeys(session.settings, bar).0 != "" && SidebarKeys(session.settings, bar).1 != ""
    requires w.mkdirError.None? && w.writeError.None?
    requires forall cmd :: w.ffmpeg(cmd) == Audio.Exited(0, true)
    modifies session
    ensures session.Valid()
    ensures views == [Rerun, AwaitingConfirmation(AudioPath(session.tmpDir)), Rerun]
    ensures session.processingStarted && session.transcriptionStarted && !session.summaryStarted
    ensures session.audioPath == Some(AudioPath(session.tmpDir))
    ensures session.snapshot.Some? && session.snapshot.value.videoName in session.savedVideos
    ensures session.reviewBeforeSummary == bar.reviewBeforeSummary
  {
    var r1 := session.Step(Input(Some(up), bar, Clicks(true, false, false), w));
    var r2 := session.Step(Input(Some(up), bar, Clicks(false, false, false), w));
    var r3 := session.Step(Input(Some(up), bar, Clicks(false, true, false), w));
    views := [r1.view, r2.view, r3.view];
  }

  /** The review stop of a confirmed session with review on: the next run
      shows the transcript, and a Proceed click then asks for a rerun. */
  method ReviewAndProceed(session: Session, up: Upload, bar: Sidebar, w: World, text: string, summary: string)
    returns (views: seq<View>)
    requires session.Valid() && session.processingStarted && session.transcriptionStarted
    requires !session.summaryStarted && bar.reviewBeforeSummary
    requires session.snapshot.value.videoName in session.savedVideos
    requires Cooperative(w, text, summary)
    modifies session
    ensures session.Valid() && session.processingStarted && session.transcriptionStarted && session.summaryStarted
    ensures session.snapshot == old(session.snapshot) && session.audioPath == old(session.audioPath)
    ensures session.savedVideos == old(session.savedVideos)
    ensures views == [Reviewing(text), Rerun]
  {
    CooperativeAnswers(session.State(), w, session.settings, session.build, text, summary);
    var i4 := Input(Some(up), bar, Clicks(false, false, false), w);
    SummaryGate(session.State(), i4, session.settings, session.build, session.tmpDir);
    var r4 := session.Step(i4);
    CooperativeAnswers(session.State(), w, session.settings, session.build, text, summary);
    var i5 := Input(Some(up), bar, Clicks(false, false, true), w);
    SummaryGate(session.State(), i5, session.settings, session.build, session.tmpDir);
    var r5 := session.Step(i5);
    views := [r4.view, r5.view];
  }

  /** A run of a confirmed session whose review is off or approved: it
      transcribes and summarises; with the corrected construction it shows
      both, and as written it shows the `TypeError` and stops. */
  method SummaryRun(session: Session, up: Upload, bar: Sidebar, w: World, text: string, summary: string)
    returns (view: View)
    requires session.Valid() && session.processingStarted && session.transcriptionStarted
    requires !bar.reviewBeforeSummary || session.summaryStarted
    requires session.snapshot.value.videoName in session.savedVideos
    requires Cooperative(w, text, summary)
    modifies session
    ensures session.Valid()
    ensures view == SummaryView(session.build, text, summary)
    ensures session.processingStarted <==> session.build == Corrected
  {
    CooperativeAnswers(session.State(), w, session.settings, session.build, text, summary);
    var i := Input(Some(up), bar, Clicks(false, false, false), w);
    SummaryGate(session.State(), i, session.settings, session.build, session.tmpDir);
    var r := session.Step(i);
    view := r.view;
  }

  /** With review off, a session that goes right takes four runs: after the
      confirmation the next run shows the transcript and its summary, or, as
      written, the `TypeError`. */
  method ProcessWithoutReview(c: Config.Settings, b: Construction, tmpDir: string, up: Upload, bar: Sidebar,
                              w: World,
                              text: string, summary: string)
    returns (views: seq<View>)
    requires SidebarKeys(c, bar).0 != "" && SidebarKeys(c, bar).1 != "" && !bar.reviewBeforeSummary
    requires Cooperative(w, text, summary)
    ensures views == [Rerun, AwaitingConfirmation(AudioPath(tmpDir)), Rerun, SummaryView(b, text, summary)]
  {
    var session := new Session(c, b, tmpDir);
    views := StartAndConfirm(session, up, bar, w);
    var last := SummaryRun(session, up, bar, w, text, summary);
    views := views + [last];
  }

  /** With review on, a session that goes right takes six runs: after the
      confirmation the transcript is shown for review, a Proceed click asks
      for a rerun, and the run after it transcribes again and shows the
      summary, or, as written, the `TypeError`. */
  method ProcessWithReview(c: Config.Settings, b: Construction, tmpDir: string, up: Upload, bar: Sidebar,
                           w: World,
                           text: string, summary: string)
    returns (views: seq<View>)
    requires SidebarKeys(c, bar).0 != "" && SidebarKeys(c, bar).1 != "" && bar.reviewBeforeSummary
    requires Cooperative(w, text, summary)
    ensures views == [Rerun, AwaitingConfirmation(AudioPath(tmpDir)), Rerun, Reviewing(text), Rerun,
                      SummaryView(b, text, summary)]
  {
    var session := new Session(c, b, tmpDir);
    views := StartAndConfirm(session, up, bar, w);
    var reviewed := ReviewAndProceed(session, up, bar, w, text, summary);
    var last := SummaryRun(session, up, bar, w, text, summary);
    views := views + reviewed + [last];
  }
}
