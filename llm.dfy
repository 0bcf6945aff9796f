/** services/llm_service.py: text processing through an OpenAI chat model.
    The LangChain client is foreign; its `invoke` is a parameter mapping the
    client's settings and the message list to the reply or to the exception
    it raises. */
module Llm {
  import opened Common
  import Config

  datatype Message = SystemMessage(content: string) | HumanMessage(content: string)

  /** The arguments `ChatOpenAI(...)` is constructed with. */
  datatype ClientSettings = ClientSettings(
    model: string,
    temperature: Value,
    maxTokens: Value,
    timeout: Value,
    maxRetries: Value,
    apiKey: Option<string>,
    extra: map<string, Value>)

  datatype ChatReply = Reply(content: string) | ChatRaised(message: string)

  /** `ChatOpenAI.invoke`, as seen by the model. */
  type Chat = (ClientSettings, seq<Message>) -> ChatReply

  /** `OpenAIProvider`, the one provider the repository has. */
  datatype LLMProvider = OpenAIProvider(model: string, llm: ClientSettings)

  /** `LLMService`, whose provider may be missing. */
  datatype LLMService = LLMService(provider: Option<LLMProvider>)

  /** The keyword arguments `OpenAIProvider` passes to the client by name. */
  const ClientSettingNames: set<string> := {"temperature", "max_tokens", "timeout", "max_retries"}

  const ErrorPrefix: string := "LLM processing error: "

  const SummaryPrompt: string :=
    "You are a helpful assistant that creates concise and informative summaries. \n"
    + "        Please provide a clear, well-structured summary of the given text, "
    + "highlighting the main points and key information."

  /** `OpenAIProvider(api_key, model, **kwargs)`: the four client settings
      come from the keyword arguments or their defaults (temperature 0, no
      token limit, no timeout, two retries); every other keyword argument
      reaches the client unchanged, and none of the named settings is passed
      a second time. Python binds `api_key` and `model` to the named
      parameters, so `kwargs` never holds them. */
  function NewOpenAIProvider(apiKey: Option<string>, model: string, kwargs: map<string, Value>): (p: LLMProvider)
    requires "api_key" !in kwargs && "model" !in kwargs
    ensures p.model == model && p.llm.model == model && p.llm.apiKey == apiKey
    ensures p.llm.temperature == if "temperature" in kwargs then kwargs["temperature"] else Int(0)
    ensures p.llm.maxTokens == if "max_tokens" in kwargs then kwargs["max_tokens"] else Null
    ensures p.llm.timeout == if "timeout" in kwargs then kwargs["timeout"] else Null
    ensures p.llm.maxRetries == if "max_retries" in kwargs then kwargs["max_retries"] else Int(2)
    ensures p.llm.extra.Keys == kwargs.Keys - ClientSettingNames
    ensures p.llm.extra.Keys !! ClientSettingNames + {"model", "api_key"}
    ensures forall k :: k in p.llm.extra ==> p.llm.extra[k] == kwargs[k]
  {
    OpenAIProvider(model, ClientSettings(
      model,
      Get(kwargs, "temperature", Int(0)),
      Get(kwargs, "max_tokens", Null),
      Get(kwargs, "timeout", Null),
      Get(kwargs, "max_retries", Int(2)),
      apiKey,
      map k | k in kwargs && k !in ClientSettingNames :: kwargs[k]))
  }

  /** `OpenAIProvider.process_text`: sends the system prompt and then the
      text, and answers with the reply's content; anything the client raises
      becomes a `RuntimeError` prefixed "LLM processing error: ". The extra
      keyword arguments are accepted and not used. */
  function OpenAIProcessText(p: LLMProvider, text: string, systemPrompt: string, kwargs: map<string, Value>,
                             chat: Chat): (r: Result<string>)
    ensures var reply := chat(p.llm, [SystemMessage(systemPrompt), HumanMessage(text)]);
            && (r.Ok? <==> reply.Reply?)
            && (r.Ok? ==> r.value == reply.content)
            && (reply.ChatRaised? ==> r == Err(RuntimeError(ErrorPrefix + reply.message)))
  {
    var messages := [SystemMessage(systemPrompt), HumanMessage(text)];
    match chat(p.llm, messages)
    case Reply(content) => Ok(content)
    case ChatRaised(message) => Err(RuntimeError(ErrorPrefix + message))
  }

  /** `LLMService.process_text`: a `ValueError` when no provider is
      configured, otherwise the provider's answer for the same arguments. */
  function ProcessText(svc: LLMService, text: string, systemPrompt: string, kwargs: map<string, Value>,
                       chat: Chat): (r: Result<string>)
    ensures svc.provider.None? ==> r == Err(ValueError("No LLM provider configured"))
    ensures svc.provider.Some? ==> r == OpenAIProcessText(svc.provider.value, text, systemPrompt, kwargs, chat)
  {
    if svc.provider.None? then Err(ValueError("No LLM provider configured"))
    else OpenAIProcessText(svc.provider.value, text, systemPrompt, kwargs, chat)
  }

  /** `LLMService.summarize_text`: `process_text` with the fixed summary
      prompt. */
  function SummarizeText(svc: LLMService, text: string, kwargs: map<string, Value>, chat: Chat): (r: Result<string>)
    ensures svc.provider.None? ==> r == Err(ValueError("No LLM provider configured"))
    ensures svc.provider.Some? ==>
              var reply := chat(svc.provider.value.llm, [SystemMessage(SummaryPrompt), HumanMessage(text)]);
              && (r.Ok? <==> reply.Reply?)
              && (r.Ok? ==> r.value == reply.content)
              && (reply.ChatRaised? ==> r == Err(RuntimeError(ErrorPrefix + reply.message)))
  {
    ProcessText(svc, text, SummaryPrompt, kwargs, chat)
  }

  /** Without a provider the client is never consulted: whatever it would
      answer, the result is the same `ValueError`. */
  lemma NoProviderNoCall(text: string, prompt: string, kwargs: map<string, Value>, chat1: Chat, chat2: Chat)
    ensures ProcessText(LLMService(None), text, prompt, kwargs, chat1)
         == ProcessText(LLMService(None), text, prompt, kwargs, chat2)
         == Err(ValueError("No LLM provider configured"))
  {
  }

  /** A summary is the reply to exactly two messages, the summary prompt
      first and the original text second. */
  lemma SummaryAsksWithPromptThenText(p: LLMProvider, text: string, kwargs: map<string, Value>, chat: Chat)
    ensures var r := SummarizeText(LLMService(Some(p)), text, kwargs, chat);
            var reply := chat(p.llm, [SystemMessage(SummaryPrompt), HumanMessage(text)]);
            && (r.Ok? <==> reply.Reply?)
            && (r.Ok? ==> r.value == reply.content)
            && (r.Err? ==> r.error == RuntimeError(ErrorPrefix + reply.message))
  {
  }

  // ---------------------------------------------------------------------
  // Building the service the way app.py:252 does.

  /** The first keyword name outside `accepted`, in call order. */
  function FirstUnexpected(names: seq<string>, accepted: set<string>): (r: Option<string>)
    ensures r.None? <==> forall i :: 0 <= i < |names| ==> names[i] in accepted
    ensures r.Some? ==> exists j :: 0 <= j < |names| && names[j] == r.value && names[j] !in accepted
                                    && forall i :: 0 <= i < j ==> names[i] in accepted
  {
    if names == [] then None
    else if names[0] !in accepted then Some(names[0])
    else
      var r := FirstUnexpected(names[1..], accepted);
      if r.Some? then
        var j :| 0 <= j < |names[1..]| && names[1..][j] == r.value && names[1..][j] !in accepted
                 && forall i :: 0 <= i < j ==> names[1..][i] in accepted;
        assert names[j + 1] == r.value && forall i :: 0 <= i < j + 1 ==> names[i] in accepted;
        r
      else r
  }

  /** The message of the `TypeError` Python raises for a keyword argument
      the called function does not take. */
  function UnexpectedKeyword(name: string): string
  {
    "LLMService.__init__() got an unexpected keyword argument '" + name + "'"
  }

  /** What building the service as app.py:252 does raises. */
  const ApiKeyRejected: Exception := TypeError(UnexpectedKeyword("api_key"))

  /** A call `LLMService(**keywords)` against `__init__(self, provider=None)`:
      Python raises `TypeError` naming the first keyword that is not
      `provider`, and otherwise builds the service with the given provider. */
  function CallLLMService(keywords: seq<string>, provider: Option<LLMProvider>): (r: Result<LLMService>)
    ensures r.Ok? <==> forall i :: 0 <= i < |keywords| ==> keywords[i] == "provider"
    ensures r.Ok? ==> r.value == LLMService(provider)
    ensures r.Err? ==> exists j :: 0 <= j < |keywords| && keywords[j] != "provider"
                                   && r.error == TypeError(UnexpectedKeyword(keywords[j]))
                                   && forall i :: 0 <= i < j ==> keywords[i] == "provider"
  {
    match FirstUnexpected(keywords, {"provider"})
    case Some(name) => Err(TypeError(UnexpectedKeyword(name)))
    case None => Ok(LLMService(provider))
  }

  /** The keyword names of `Config.get_openai_config()`, in insertion order:
      each key once, temperature and retry count first. */
  function OpenAIConfigKeyOrder(c: Config.Settings): (names: seq<string>)
    ensures forall k :: k in names <==> k in Config.OpenAIConfig(c)
    ensures forall i, j :: 0 <= i < j < |names| ==> names[i] != names[j]
    ensures |names| >= 2 && names[..2] == ["temperature", "max_retries"]
  {
    ["temperature", "max_retries"]
    + (if TruthyInt(c.openaiMaxTokens) then ["max_tokens"] else [])
    + (if TruthyInt(c.openaiTimeout) then ["timeout"] else [])
  }

  /** As written, app.py:252: `LLMService(api_key=..., model=...,
      **Config.get_openai_config())`. It always raises. */
  function AppLLMServiceAsWritten(openaiKey: string, model: string, c: Config.Settings): (r: Result<LLMService>)
    ensures r.Err? && r.error.TypeError?
  {
    var keywords := ["api_key", "model"] + OpenAIConfigKeyOrder(c);
    assert keywords[0] != "provider";
    CallLLMService(keywords, None)
  }

  /** As written, building the summariser raises the `TypeError` for
      `api_key`, for every key, model and configuration, so no summary is
      ever produced. */
  lemma AppConstructionAlwaysRaises(openaiKey: string, model: string, c: Config.Settings)
    ensures AppLLMServiceAsWritten(openaiKey, model, c) == Err(ApiKeyRejected)
  {
    var keywords := ["api_key", "model"] + OpenAIConfigKeyOrder(c);
    assert keywords[0] == "api_key";
    assert FirstUnexpected(keywords, {"provider"}) == Some("api_key");
  }

  /** What app.py:252 and tests/test_llm_service.py:23 evidently mean: a
      service whose provider is an `OpenAIProvider` built from the key, the
      model and the configuration. */
  function LLMServiceFor(apiKey: Option<string>, model: string, kwargs: map<string, Value>): (svc: LLMService)
    requires "api_key" !in kwargs && "model" !in kwargs
    ensures svc.provider == Some(NewOpenAIProvider(apiKey, model, kwargs))
    ensures svc.provider.value.llm.apiKey == apiKey && svc.provider.value.llm.model == model
  {
    LLMService(Some(NewOpenAIProvider(apiKey, model, kwargs)))
  }

  /** With the corrected construction, the service the tests build talks to
      a client set up as they expect (model "gpt-4o", temperature 0, no token
      limit, no timeout, two retries, the given key), returns the client's
      reply as the summary, and turns a client error into the message the
      tests expect. */
  lemma CorrectedServiceMeetsTests(chatOk: Chat, chatFails: Chat)
    requires forall s: ClientSettings, m: seq<Message> :: chatOk(s, m) == Reply("This is a mock summary.")
    requires forall s: ClientSettings, m: seq<Message> :: chatFails(s, m) == ChatRaised("API Error")
    ensures var svc := LLMServiceFor(Some("fake_api_key"), "gpt-4o", map[]);
            && svc.provider.value.llm
               == ClientSettings("gpt-4o", Int(0), Null, Null, Int(2), Some("fake_api_key"), map[])
            && SummarizeText(svc, "Some long text to summarize.", map[], chatOk) == Ok("This is a mock summary.")
            && SummarizeText(svc, "Some text.", map[], chatFails)
               == Err(RuntimeError("LLM processing error: API Error"))
  {
    var svc := LLMServiceFor(Some("fake_api_key"), "gpt-4o", map[]);
    assert svc.provider.value.llm.extra == map[];
    assert ErrorPrefix + "API Error" == "LLM processing error: API Error";
  }
}
