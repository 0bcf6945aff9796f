/** services/transcription_service.py: transcription through the AssemblyAI
    SDK. The SDK is foreign; it is a parameter mapping the API key, the audio
    path and the transcription config to the transcript it produces or to
    the exception it raises. */
module Transcription {
  import opened Common

  /** The two settings handed to `aai.TranscriptionConfig`. */
  datatype ProviderConfig = ProviderConfig(speechModel: Value, languageCode: Value)

  /** What `aai.Transcriber(...).transcribe(path)` does: it returns a
      transcript with a status, a text and an error description, or it
      raises. */
  datatype SdkTranscript =
    | Transcript(status: string, text: string, error: string)
    | SdkRaised(message: string)

  type Sdk = (string, string, ProviderConfig) -> SdkTranscript

  /** `AssemblyAIProvider`, the one provider the repository has. */
  datatype TranscriptionProvider = AssemblyAIProvider(apiKey: string)

  /** `TranscriptionService`, whose provider may be missing. */
  datatype TranscriptionService = TranscriptionService(provider: Option<TranscriptionProvider>)

  /** The config the provider starts from before merging the caller's. */
  const DefaultConfig: map<string, Value> :=
    map["speech_model" := Str("universal"), "language_code" := Str("ru")]

  const ErrorPrefix: string := "Transcription error: "

  /** Python truthiness of an optional dictionary: present and non-empty. */
  predicate Supplied(config: Option<map<string, Value>>)
  {
    config.Some? && |config.value| > 0
  }

  /** The defaults after `default_config.update(config)`, run only when the
      caller's config is truthy: every key of the caller's config overrides
      the default of that name, and the other defaults stay. */
  function EffectiveConfig(config: Option<map<string, Value>>): (m: map<string, Value>)
    ensures Supplied(config) ==> m.Keys == DefaultConfig.Keys + config.value.Keys
    ensures !Supplied(config) ==> m == DefaultConfig
    ensures forall k :: k in m ==>
              m[k] == if Supplied(config) && k in config.value then config.value[k] else DefaultConfig[k]
  {
    if Supplied(config) then DefaultConfig + config.value else DefaultConfig
  }

  /** The `aai.TranscriptionConfig` built from the merged config: only the
      speech model and the language code are read from it, each falling back
      to its default when the key is missing. */
  function ProviderConfigOf(m: map<string, Value>): (pc: ProviderConfig)
    ensures pc.speechModel == if "speech_model" in m then m["speech_model"] else Str("universal")
    ensures pc.languageCode == if "language_code" in m then m["language_code"] else Str("ru")
  {
    ProviderConfig(Get(m, "speech_model", Str("universal")), Get(m, "language_code", Str("ru")))
  }

  /** `AssemblyAIProvider.transcribe`: the transcript's text, or a
      `RuntimeError` whose message starts with "Transcription error: ", both
      when the SDK raises and when it reports the status "error". */
  function Transcribe(p: TranscriptionProvider, audioPath: string, config: Option<map<string, Value>>,
                      sdk: Sdk): (r: Result<string>)
    ensures var t := sdk(p.apiKey, audioPath, ProviderConfigOf(EffectiveConfig(config)));
            && (r.Ok? <==> t.Transcript? && t.status != "error")
            && (r.Ok? ==> r.value == t.text)
            && (t.SdkRaised? ==> r == Err(RuntimeError(ErrorPrefix + t.message)))
            && (t.Transcript? && t.status == "error" ==>
                  r == Err(RuntimeError(ErrorPrefix + "Transcription failed: " + t.error)))
    ensures r.Err? ==> r.error.RuntimeError? && ErrorPrefix <= r.error.message
  {
    var providerConfig := ProviderConfigOf(EffectiveConfig(config));
    match sdk(p.apiKey, audioPath, providerConfig)
    case SdkRaised(message) => Err(RuntimeError(ErrorPrefix + message))
    case Transcript(status, text, error) =>
      if status == "error" then
        // The RuntimeError raised inside the try block is caught and wrapped again.
        assert ErrorPrefix + ("Transcription failed: " + error) == ErrorPrefix + "Transcription failed: " + error;
        Err(RuntimeError(ErrorPrefix + RuntimeError("Transcription failed: " + error).Text()))
      else Ok(text)
  }

  /** `TranscriptionService.transcribe_audio`: a `ValueError` when no
      provider is configured, without reaching the SDK; otherwise exactly the
      provider's answer for the same path and config. */
  function TranscribeAudio(svc: TranscriptionService, audioPath: string, config: Option<map<string, Value>>,
                           sdk: Sdk): (r: Result<string>)
    ensures svc.provider.None? ==> r == Err(ValueError("No transcription provider configured"))
    ensures svc.provider.Some? ==> r == Transcribe(svc.provider.value, audioPath, config, sdk)
  {
    if svc.provider.None? then Err(ValueError("No transcription provider configured"))
    else Transcribe(svc.provider.value, audioPath, config, sdk)
  }

  /** Each of the two settings the SDK sees is the caller's value for that
      key when the caller supplied one, and the default otherwise; no other
      key of the caller's config reaches the SDK. */
  lemma SuppliedKeysOverrideDefaults(config: map<string, Value>)
    requires |config| > 0
    ensures var pc := ProviderConfigOf(EffectiveConfig(Some(config)));
            && pc.speechModel == (if "speech_model" in config then config["speech_model"] else Str("universal"))
            && pc.languageCode == (if "language_code" in config then config["language_code"] else Str("ru"))
  {
  }

  /** An absent config and an empty one are both ignored: the SDK sees the
      defaults. */
  lemma MissingConfigKeepsDefaults()
    ensures ProviderConfigOf(EffectiveConfig(None)) == ProviderConfig(Str("universal"), Str("ru"))
    ensures ProviderConfigOf(EffectiveConfig(Some(map[]))) == ProviderConfig(Str("universal"), Str("ru"))
  {
  }

  /** Keys other than the two settings make no difference to the call. */
  lemma {:induction false} ExtraKeysIgnored(config: map<string, Value>, key: string, v: Value, path: string,
                                            p: TranscriptionProvider, sdk: Sdk)
    requires key != "speech_model" && key != "language_code"
    ensures Transcribe(p, path, Some(config[key := v]), sdk) == Transcribe(p, path, Some(config), sdk)
  {
    var before := EffectiveConfig(Some(config));
    var after := EffectiveConfig(Some(config[key := v]));
    assert Supplied(Some(config[key := v]));
    assert before["speech_model"] == after["speech_model"];
    assert before["language_code"] == after["language_code"];
    assert ProviderConfigOf(before) == ProviderConfigOf(after);
  }
}
