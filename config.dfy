/** The `Config` class of config.py: settings read once from the environment
    and the dictionaries built from them. Reading the environment is not
    modelled; a `Settings` value stands for the class attributes after it. */
module Config {
  import opened Common

  /** The class attributes of `Config`. Each is fixed for the life of the
      process; `openaiTemperature` is only passed through. */
  datatype Settings = Settings(
    assemblyaiApiKey: Option<string>,
    openaiApiKey: Option<string>,
    defaultLanguage: string,
    defaultOpenAIModel: string,
    openaiTemperature: real,
    openaiMaxTokens: Option<int>,
    openaiTimeout: Option<int>,
    openaiMaxRetries: int,
    transcriptionSpeechModel: string,
    ffmpegPath: string)

  /** The settings when no environment variable overrides a default. */
  const Defaults: Settings :=
    Settings(None, None, "ru", "gpt-4o", 0.0, None, None, 2, "universal", "ffmpeg")

  const AssemblyAIKeyName: string := "ASSEMBLYAI_API_KEY"
  const OpenAIKeyName: string := "OPENAI_API_KEY"

  /** The names of the keys the OpenAI configuration may hold. */
  const OpenAIConfigKeys: set<string> := {"temperature", "max_retries", "max_tokens", "timeout"}

  /** `Config.validate_api_keys`: whether both API keys are set, and the names
      of the missing ones in a fixed order. A key counts as missing when it is
      absent or empty. */
  function ValidateApiKeys(c: Settings): (r: (bool, seq<string>))
    ensures r.0 <==> TruthyText(c.assemblyaiApiKey) && TruthyText(c.openaiApiKey)
    ensures r.0 <==> r.1 == []
    ensures AssemblyAIKeyName in r.1 <==> !TruthyText(c.assemblyaiApiKey)
    ensures OpenAIKeyName in r.1 <==> !TruthyText(c.openaiApiKey)
    ensures forall k :: k in r.1 ==> k == AssemblyAIKeyName || k == OpenAIKeyName
    ensures |r.1| <= 2
    ensures |r.1| == 2 ==> r.1 == [AssemblyAIKeyName, OpenAIKeyName]
  {
    var missing := if !TruthyText(c.assemblyaiApiKey) then [AssemblyAIKeyName] else [];
    var missing := missing + if !TruthyText(c.openaiApiKey) then [OpenAIKeyName] else [];
    (|missing| == 0, missing)
  }

  /** `Config.get_openai_config`: temperature and retry count always, token
      limit and timeout only when they are set to something non-zero. */
  function OpenAIConfig(c: Settings): (r: map<string, Value>)
    ensures "temperature" in r && r["temperature"] == Float(c.openaiTemperature)
    ensures "max_retries" in r && r["max_retries"] == Int(c.openaiMaxRetries)
    ensures "max_tokens" in r <==> TruthyInt(c.openaiMaxTokens)
    ensures "max_tokens" in r ==> r["max_tokens"] == Int(c.openaiMaxTokens.value)
    ensures "timeout" in r <==> TruthyInt(c.openaiTimeout)
    ensures "timeout" in r ==> r["timeout"] == Int(c.openaiTimeout.value)
    ensures r.Keys <= OpenAIConfigKeys
  {
    var config := map["temperature" := Float(c.openaiTemperature), "max_retries" := Int(c.openaiMaxRetries)];
    var config := if TruthyInt(c.openaiMaxTokens) then config["max_tokens" := Int(c.openaiMaxTokens.value)] else config;
    if TruthyInt(c.openaiTimeout) then config["timeout" := Int(c.openaiTimeout.value)] else config
  }

  /** `Config.get_transcription_config`: the configured speech model, and the
      given language unless it is absent or empty. */
  function TranscriptionConfig(c: Settings, language: Option<string>): (r: map<string, Value>)
    ensures r.Keys == {"speech_model", "language_code"}
    ensures r["speech_model"] == Str(c.transcriptionSpeechModel)
    ensures TruthyText(language) ==> r["language_code"] == Str(language.value)
    ensures !TruthyText(language) ==> r["language_code"] == Str(c.defaultLanguage)
  {
    map["speech_model" := Str(c.transcriptionSpeechModel),
        "language_code" := Str(if TruthyText(language) then language.value else c.defaultLanguage)]
  }

  /** With no overrides: no keys (both reported missing, AssemblyAI first),
      language "ru", model "gpt-4o", two retries, the "universal" speech model
      and "ffmpeg" on the search path. */
  lemma DefaultsWithoutOverrides()
    ensures ValidateApiKeys(Defaults) == (false, [AssemblyAIKeyName, OpenAIKeyName])
    ensures OpenAIConfig(Defaults) == map["temperature" := Float(0.0), "max_retries" := Int(2)]
    ensures TranscriptionConfig(Defaults, None)
         == map["speech_model" := Str("universal"), "language_code" := Str("ru")]
    ensures Defaults.defaultOpenAIModel == "gpt-4o" && Defaults.ffmpegPath == "ffmpeg"
  {
  }

  /** An empty key is reported exactly like an absent one. */
  lemma EmptyKeyCountsAsMissing(c: Settings)
    ensures ValidateApiKeys(c.(assemblyaiApiKey := Some("")))
         == ValidateApiKeys(c.(assemblyaiApiKey := None))
    ensures ValidateApiKeys(c.(openaiApiKey := Some("")))
         == ValidateApiKeys(c.(openaiApiKey := None))
  {
  }
}
