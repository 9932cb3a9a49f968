/** The code the dispatch layer calls but does not contain: the conversion
    engine, the per-protocol strategies and the backend service adapter.  Each
    is a function value, so every property proved about the dispatch layer holds
    whatever these collaborators do; a thrown exception is an `Err`. */
module Collaborators {
  import opened Wrappers
  import opened JsValues
  import opened Auth
  import opened Errors
  import opened Protocol
  import opened Sink

  /** The `type` argument of convertData. */
  datatype Kind = RequestKind | ResponseKind | StreamChunkKind

  /** What a strategy reads from a request: the model (any value, tested for
      truthiness) and whether the client asked for a stream. */
  datatype ModelInfo = ModelInfo(model: JsValue, isStream: bool)

  /** The server configuration the layer reads. */
  datatype Config = Config(modelProvider: string, promptLogMode: string)

  /** A backend stream: the chunks it yields, then possibly a failure raised
      while iterating (after the last yielded chunk). */
  datatype NativeStream = NativeStream(chunks: seq<JsValue>, failure: Option<Failure>)

  /** The conversion engine and the strategies, keyed by protocol family:
      - convertData(data, kind, from, to, model), `model` being `undefined` when not passed;
      - getOpenAIStreamChunkStop(model);
      - the strategy methods, each given the family the strategy factory dispatches on. */
  datatype Engine = Engine(
    convertData: (JsValue, Kind, string, string, JsValue) -> Result<JsValue, Failure>,
    openAIStreamChunkStop: JsValue -> Result<JsValue, Failure>,
    extractResponseText: (string, JsValue) -> Result<JsValue, Failure>,
    extractPromptText: (string, JsValue) -> Result<JsValue, Failure>,
    extractModelAndStreamInfo: (string, IncomingRequest, JsValue) -> Result<ModelInfo, Failure>,
    applySystemPromptFromFile: (string, Config, JsValue) -> Result<JsValue, Failure>,
    manageSystemPrompt: (string, JsValue) -> Option<Failure>)

  /** The backend adapter: generateContent(model, body) and generateContentStream(model, body). */
  datatype Service = Service(
    generateContent: (JsValue, JsValue) -> Result<JsValue, Failure>,
    generateContentStream: (JsValue, JsValue) -> Result<NativeStream, Failure>)

  /** One exchange: the client's protocol (`fromProvider`), the backend
      provider (`toProvider`) and the model. */
  datatype Route = Route(fromProvider: string, toProvider: string, model: JsValue)

  /** A handler's effects and the failure it rethrows to its caller, if any. */
  datatype Handled = Handled(effects: Effects, thrown: Option<Failure>)

  /** extractResponseText(response, provider): the strategy of the provider's family. */
  function ExtractResponseText(e: Engine, response: JsValue, provider: string): Result<JsValue, Failure> {
    e.extractResponseText(ProtocolPrefix(provider), response)
  }

  /** extractPromptText(requestBody, provider) */
  function ExtractPromptText(e: Engine, requestBody: JsValue, provider: string): Result<JsValue, Failure> {
    e.extractPromptText(ProtocolPrefix(provider), requestBody)
  }

  /** _extractModelAndStreamInfo(req, requestBody, fromProvider) */
  function ExtractModelAndStreamInfo(e: Engine, req: IncomingRequest, requestBody: JsValue, fromProvider: string): Result<ModelInfo, Failure> {
    e.extractModelAndStreamInfo(ProtocolPrefix(fromProvider), req, requestBody)
  }

  /** _applySystemPromptFromFile(config, requestBody, toProvider) */
  function ApplySystemPromptFromFile(e: Engine, config: Config, requestBody: JsValue, toProvider: string): Result<JsValue, Failure> {
    e.applySystemPromptFromFile(ProtocolPrefix(toProvider), config, requestBody)
  }

  /** _manageSystemPrompt(requestBody, provider) */
  function ManageSystemPrompt(e: Engine, requestBody: JsValue, provider: string): Option<Failure> {
    e.manageSystemPrompt(ProtocolPrefix(provider), requestBody)
  }

  /** The helpers pick a strategy by protocol family alone: two providers of
      one family are handled identically. */
  lemma StrategyByFamily(e: Engine, p: string, q: string, req: IncomingRequest, config: Config, v: JsValue)
    requires ProtocolPrefix(p) == ProtocolPrefix(q)
    ensures ExtractResponseText(e, v, p) == ExtractResponseText(e, v, q)
    ensures ExtractPromptText(e, v, p) == ExtractPromptText(e, v, q)
    ensures ExtractModelAndStreamInfo(e, req, v, p) == ExtractModelAndStreamInfo(e, req, v, q)
    ensures ApplySystemPromptFromFile(e, config, v, p) == ApplySystemPromptFromFile(e, config, v, q)
    ensures ManageSystemPrompt(e, v, p) == ManageSystemPrompt(e, v, q)
  {
  }

  /** Every known backend provider is served by its family's strategy. */
  lemma KnownProvidersUseFamilyStrategy(e: Engine, v: JsValue)
    ensures ExtractResponseText(e, v, GEMINI_CLI) == e.extractResponseText(GEMINI, v)
    ensures ExtractResponseText(e, v, OPENAI_CUSTOM) == e.extractResponseText(OPENAI, v)
    ensures ExtractResponseText(e, v, QWEN_API) == e.extractResponseText(OPENAI, v)
    ensures ExtractResponseText(e, v, CLAUDE_CUSTOM) == e.extractResponseText(CLAUDE, v)
    ensures ExtractResponseText(e, v, KIRO_API) == e.extractResponseText(CLAUDE, v)
  {
    KnownProviderFamilies();
  }
}
