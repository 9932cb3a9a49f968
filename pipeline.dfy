/** handleContentGenerationRequest: the pipeline every content-generation
    request goes through.  Four rejections answer 400 before the backend is
    called; the system prompt and the prompt log are best-effort stages; the
    request then goes to the stream or the unary handler, and whatever those
    rethrow is reported through handleError. */
module Pipeline {
  import opened Wrappers
  import opened JsValues
  import opened Protocol
  import opened Auth
  import opened Errors
  import opened Sink
  import opened Collaborators
  import opened Streaming
  import opened Unary
  import opened Sequences

  const BODY_MISSING: string := "Request body is missing for content generation."
  const INVALID_CLAUDE_REQUEST: string := "Invalid Claude request: 'messages' field is required and must be an array."
  const UNSUPPORTED_ENDPOINT: string := "Unsupported endpoint type: "
  const CONVERSION_FAILED: string := "Request conversion failed: "
  const MODEL_EXTRACTION_FAILED: string := "Failed to extract model information: "
  const NO_MODEL: string := "Could not determine the model from the request."

  /** A request that passed every check: where it goes, whether to stream,
      and the body to send to the backend. */
  datatype Prepared = Prepared(route: Route, isStream: bool, requestBody: JsValue)

  /** A body is present, and for the Claude endpoint carries a `messages` array. */
  predicate AcceptableBody(body: JsValue, endpointType: string) {
    Truthy(body) && (endpointType == CLAUDE_MESSAGE ==> Member(body, "messages").Arr?)
  }

  /** The first stage: the body as getRequestBody produced it (or the failure
      to read or parse it), present, and for the Claude endpoint carrying a
      `messages` array.  A missing `max_tokens` only draws a warning. */
  function ValidateBody(parsed: Result<JsValue, Failure>, endpointType: string): (r: Result<JsValue, Failure>)
    ensures r.Ok? <==> parsed.Ok? && AcceptableBody(parsed.value, endpointType)
    ensures r.Ok? ==> r.value == parsed.value
    ensures r.Err? ==> r.error.statusCode == Some(400)
  {
    match parsed
    case Err(f) => Err(BadRequest(f.message))
    case Ok(body) =>
      if !Truthy(body) then Err(BadRequest(BODY_MISSING))
      else if endpointType == CLAUDE_MESSAGE && !Member(body, "messages").Arr? then Err(BadRequest(INVALID_CLAUDE_REQUEST))
      else Ok(body)
  }

  /** The system-prompt stage: the body after _applySystemPromptFromFile when
      it succeeds, else unchanged.  _manageSystemPrompt runs only after a
      successful apply and cannot change the body; its failure is ignored. */
  function WithSystemPrompt(e: Engine, config: Config, requestBody: JsValue, toProvider: string): JsValue {
    match ApplySystemPromptFromFile(e, config, requestBody, toProvider)
    case Ok(applied) => applied
    case Err(_) => requestBody
  }

  /** Step 1: the client's body in the backend's format, converted only across families. */
  function ConvertedRequest(e: Engine, originalRequestBody: JsValue, fromProvider: string, toProvider: string): Result<JsValue, Failure> {
    if NeedsConversion(fromProvider, toProvider) then
      e.convertData(originalRequestBody, RequestKind, fromProvider, toProvider, Undefined)
    else Ok(originalRequestBody)
  }

  /** The four checks a request must pass before the backend call: a body that
      was read and is acceptable, an endpoint with a client family, a request
      conversion that succeeds, and a model the client family's strategy can read. */
  predicate PassesChecks(req: IncomingRequest, parsed: Result<JsValue, Failure>, endpointType: string,
                         config: Config, e: Engine) {
    && parsed.Ok? && AcceptableBody(parsed.value, endpointType)
    && ClientProtocol(endpointType).Some?
    && ConvertedRequest(e, parsed.value, ClientProtocol(endpointType).value, config.modelProvider).Ok?
    && ExtractModelAndStreamInfo(e, req, parsed.value, ClientProtocol(endpointType).value).Ok?
    && Truthy(ExtractModelAndStreamInfo(e, req, parsed.value, ClientProtocol(endpointType).value).value.model)
  }

  /** Everything before the backend call: the four rejections, in order, each
      a 400; the request converted to the backend's family when the families
      differ; the model read from the ORIGINAL body by the client family's
      strategy. */
  function Prepare(req: IncomingRequest, parsed: Result<JsValue, Failure>, endpointType: string,
                   config: Config, e: Engine): Result<Prepared, Failure> {
    match ValidateBody(parsed, endpointType)
    case Err(f) => Err(f)
    case Ok(originalRequestBody) =>
      match ClientProtocol(endpointType)
      case None => Err(BadRequest(UNSUPPORTED_ENDPOINT + endpointType))
      case Some(fromProvider) =>
        var toProvider := config.modelProvider;
        match ConvertedRequest(e, originalRequestBody, fromProvider, toProvider)
        case Err(f) => Err(BadRequest(CONVERSION_FAILED + f.message))
        case Ok(processedRequestBody) =>
          match ExtractModelAndStreamInfo(e, req, originalRequestBody, fromProvider)
          case Err(f) => Err(BadRequest(MODEL_EXTRACTION_FAILED + f.message))
          case Ok(info) =>
            if !Truthy(info.model) then Err(BadRequest(MODEL_EXTRACTION_FAILED + NO_MODEL))
            else
              Ok(Prepared(Route(fromProvider, toProvider, info.model), info.isStream,
                          WithSystemPrompt(e, config, processedRequestBody, toProvider)))
  }

  /** The prompt-log stage: the backend-format prompt text, if its strategy can read it. */
  function InputEntries(e: Engine, p: Prepared, config: Config): seq<LogEntry> {
    match ExtractPromptText(e, p.requestBody, p.route.toProvider)
    case Ok(promptText) => EntriesFor(Input, promptText, config.promptLogMode)
    case Err(_) => []
  }

  /** handleError's effects on a response that has not ended: the status line
      only if none was written yet, then the envelope, then the end. */
  function AfterError(eff: Effects, f: Failure): Effects {
    Effects(if eff.status.Some? then eff.status else Some(StatusOf(f)),
            eff.writes + [Stringify(ErrorPayload(f))], true, eff.marks, eff.logs)
  }

  /** Step 5: the stream or the unary handler, as the request asks. */
  function HandlerFor(e: Engine, service: Service, p: Prepared, config: Config, poolUuid: string, freshId: string): Handled {
    if p.isStream then StreamHandling(service, e, p.route, p.requestBody, config.promptLogMode, poolUuid)
    else UnaryHandling(service, e, p.route, p.requestBody, config.promptLogMode, poolUuid, freshId)
  }

  /** The handler's effects, then handleError for whatever it rethrows. */
  function Caught(h: Handled): Effects {
    if h.thrown.Some? then AfterError(h.effects, h.thrown.value) else h.effects
  }

  /** Steps 4 and 5 for a prepared request. */
  function Dispatched(e: Engine, service: Service, p: Prepared, config: Config, poolUuid: string, freshId: string): Effects {
    var caught := Caught(HandlerFor(e, service, p, config, poolUuid, freshId));
    Effects(caught.status, caught.writes, caught.ended, caught.marks, InputEntries(e, p, config) + caught.logs)
  }

  /** What handleContentGenerationRequest does to the response, the pool and
      the log. */
  function Handling(req: IncomingRequest, parsed: Result<JsValue, Failure>, endpointType: string, config: Config,
                    e: Engine, service: Service, poolUuid: string, freshId: string): Effects {
    match Prepare(req, parsed, endpointType, config, e)
    case Err(f) => AfterError(Effects(None, [], false, [], []), f)
    case Ok(p) => Dispatched(e, service, p, config, poolUuid, freshId)
  }

  // ---------------------------------------------------------------------------
  // Properties

  /** Each rejection is a `{message, statusCode: 400}` failure, and comes from
      one of the four checks. */
  lemma PrepareFailsWithBadRequest(req: IncomingRequest, parsed: Result<JsValue, Failure>, endpointType: string,
                                   config: Config, e: Engine)
    requires Prepare(req, parsed, endpointType, config, e).Err?
    ensures var f := Prepare(req, parsed, endpointType, config, e).error;
      f == BadRequest(f.message)
    ensures !PassesChecks(req, parsed, endpointType, config, e)
  {
    match ValidateBody(parsed, endpointType)
    case Err(_) =>
    case Ok(body) =>
      match ClientProtocol(endpointType)
      case None =>
      case Some(fromProvider) =>
        assert ExtractModelAndStreamInfo(e, req, body, fromProvider).Err?
            || !Truthy(ExtractModelAndStreamInfo(e, req, body, fromProvider).value.model)
            || ConvertedRequest(e, body, fromProvider, config.modelProvider).Err?;
  }

  /** A request that passes the four checks is prepared: the system-prompt
      stage never rejects, and the backend receives the converted body after it. */
  lemma PrepareSucceeds(req: IncomingRequest, parsed: Result<JsValue, Failure>, endpointType: string,
                        config: Config, e: Engine)
    requires PassesChecks(req, parsed, endpointType, config, e)
    ensures var fromProvider := ClientProtocol(endpointType).value;
      var converted := ConvertedRequest(e, parsed.value, fromProvider, config.modelProvider).value;
      var info := ExtractModelAndStreamInfo(e, req, parsed.value, fromProvider).value;
      Prepare(req, parsed, endpointType, config, e) ==
        Ok(Prepared(Route(fromProvider, config.modelProvider, info.model), info.isStream,
                    WithSystemPrompt(e, config, converted, config.modelProvider)))
  {
    assert ValidateBody(parsed, endpointType) == Ok(parsed.value);
  }

  /** Every rejection before the backend call is a 400 `invalid_request_error`
      that writes only the envelope, logs nothing and marks no provider. */
  lemma RejectionsAreBadRequests(req: IncomingRequest, parsed: Result<JsValue, Failure>, endpointType: string,
                                 config: Config, e: Engine, service: Service, poolUuid: string, freshId: string)
    requires Prepare(req, parsed, endpointType, config, e).Err?
    ensures var f := Prepare(req, parsed, endpointType, config, e).error;
      && StatusOf(f) == 400
      && ErrorType(StatusOf(f)) == INVALID_REQUEST
      && Handling(req, parsed, endpointType, config, e, service, poolUuid, freshId) ==
           Effects(Some(400), [Stringify(ErrorPayload(f))], true, [], [])
  {
    PrepareFailsWithBadRequest(req, parsed, endpointType, config, e);
    var f := Prepare(req, parsed, endpointType, config, e).error;
    assert StatusOf(f) == 400;
  }

  /** An endpoint outside the three chat endpoints is rejected once the body
      is valid, whatever the body says; the model-list endpoints included. */
  lemma UnsupportedEndpointRejected(req: IncomingRequest, parsed: Result<JsValue, Failure>, endpointType: string,
                                    config: Config, e: Engine)
    requires ValidateBody(parsed, endpointType).Ok?
    requires endpointType !in {OPENAI_CHAT, CLAUDE_MESSAGE, GEMINI_CONTENT}
    ensures Prepare(req, parsed, endpointType, config, e) == Err(BadRequest(UNSUPPORTED_ENDPOINT + endpointType))
    ensures ValidateBody(parsed, OPENAI_MODEL_LIST).Ok? ==>
      Prepare(req, parsed, OPENAI_MODEL_LIST, config, e).Err?
  {
    assert ClientProtocol(endpointType).None?;
    assert ClientProtocol(OPENAI_MODEL_LIST).None?;
  }

  /** Within one family the backend receives the client's own body (after the
      system-prompt stage), and the conversion engine is never consulted. */
  lemma SameFamilyForwardsBody(req: IncomingRequest, body: JsValue, endpointType: string, config: Config, e: Engine)
    requires Prepare(req, Ok(body), endpointType, config, e).Ok?
    requires !NeedsConversion(ClientProtocol(endpointType).value, config.modelProvider)
    ensures var p := Prepare(req, Ok(body), endpointType, config, e).value;
      p.requestBody == WithSystemPrompt(e, config, body, config.modelProvider)
  {
    assert ValidateBody(Ok(body), endpointType) == Ok(body);
    var fromProvider := ClientProtocol(endpointType).value;
    var info := ExtractModelAndStreamInfo(e, req, body, fromProvider);
    assert info.Ok? && Truthy(info.value.model);
    assert Prepare(req, Ok(body), endpointType, config, e)
        == Ok(Prepared(Route(fromProvider, config.modelProvider, info.value.model), info.value.isStream,
                       WithSystemPrompt(e, config, body, config.modelProvider)));
  }

  /** Across families the backend receives `convertData`'s request conversion
      of the client's body (after the system-prompt stage), and a failed
      conversion is the 400 `Request conversion failed: <message>`. */
  lemma CrossFamilyConvertsBody(req: IncomingRequest, body: JsValue, endpointType: string, config: Config, e: Engine)
    requires AcceptableBody(body, endpointType) && ClientProtocol(endpointType).Some?
    requires NeedsConversion(ClientProtocol(endpointType).value, config.modelProvider)
    ensures var fromProvider := ClientProtocol(endpointType).value;
      var conv := e.convertData(body, RequestKind, fromProvider, config.modelProvider, Undefined);
      var prepared := Prepare(req, Ok(body), endpointType, config, e);
      && (conv.Err? ==> prepared == Err(BadRequest(CONVERSION_FAILED + conv.error.message)))
      && (conv.Ok? && prepared.Ok? ==>
            prepared.value.requestBody == WithSystemPrompt(e, config, conv.value, config.modelProvider))
  {
    var fromProvider := ClientProtocol(endpointType).value;
    var conv := e.convertData(body, RequestKind, fromProvider, config.modelProvider, Undefined);
    assert ValidateBody(Ok(body), endpointType) == Ok(body);
    var prepared := Prepare(req, Ok(body), endpointType, config, e);
    if conv.Err? {
      assert prepared == Err(BadRequest(CONVERSION_FAILED + conv.error.message));
    }
  }

  /** The model and the stream flag are read from the client's ORIGINAL body,
      by the client family's strategy, whatever the conversion made of it. */
  lemma ModelReadFromOriginalBody(req: IncomingRequest, body: JsValue, endpointType: string, config: Config, e: Engine)
    requires Prepare(req, Ok(body), endpointType, config, e).Ok?
    ensures var p := Prepare(req, Ok(body), endpointType, config, e).value;
      var info := ExtractModelAndStreamInfo(e, req, body, p.route.fromProvider);
      info.Ok? && p.route.model == info.value.model && p.isStream == info.value.isStream
  {
    assert ValidateBody(Ok(body), endpointType) == Ok(body);
  }

  /** A prepared request always has a truthy model and a client family of its endpoint. */
  lemma PreparedRequestShape(req: IncomingRequest, parsed: Result<JsValue, Failure>, endpointType: string,
                             config: Config, e: Engine)
    requires Prepare(req, parsed, endpointType, config, e).Ok?
    ensures var p := Prepare(req, parsed, endpointType, config, e).value;
      && Truthy(p.route.model)
      && ClientProtocol(endpointType) == Some(p.route.fromProvider)
      && p.route.toProvider == config.modelProvider
      && parsed.Ok? && Truthy(parsed.value)
  {
  }

  /** Every request ends its response with exactly one status line. */
  lemma EveryRequestIsAnswered(req: IncomingRequest, parsed: Result<JsValue, Failure>, endpointType: string,
                               config: Config, e: Engine, service: Service, poolUuid: string, freshId: string)
    ensures Handling(req, parsed, endpointType, config, e, service, poolUuid, freshId).ended
    ensures Handling(req, parsed, endpointType, config, e, service, poolUuid, freshId).status.Some?
  {
    var prepared := Prepare(req, parsed, endpointType, config, e);
    if prepared.Ok? {
      DispatchedIsAnswered(e, service, prepared.value, config, poolUuid, freshId);
    }
  }

  /** Both handlers either end the response with a status line written, or
      rethrow for handleError to do so. */
  lemma DispatchedIsAnswered(e: Engine, service: Service, p: Prepared, config: Config, poolUuid: string, freshId: string)
    ensures Dispatched(e, service, p, config, poolUuid, freshId).ended
    ensures Dispatched(e, service, p, config, poolUuid, freshId).status.Some?
  {
    if p.isStream {
      var h := StreamHandling(service, e, p.route, p.requestBody, config.promptLogMode, poolUuid);
      assert h.effects.status == Some(200);
      assert h.thrown.None? ==> h.effects.ended;
    } else {
      var h := UnaryHandling(service, e, p.route, p.requestBody, config.promptLogMode, poolUuid, freshId);
      assert h.thrown.None? ==> h.effects.ended && h.effects.status.Some?;
    }
  }

  /** A handler that rethrows has not ended the response, so handleError can
      still answer it. */
  lemma HandlerRethrowsBeforeEnd(e: Engine, service: Service, p: Prepared, config: Config, poolUuid: string, freshId: string)
    ensures var h := HandlerFor(e, service, p, config, poolUuid, freshId);
      h.thrown.Some? ==> !h.effects.ended
  {
  }

  /** A stream that cannot be opened is reported after the SSE status line has
      gone out: the client sees status 200 followed by the error envelope, and
      no provider is marked. */
  lemma StreamOpenFailureAfterHead(req: IncomingRequest, parsed: Result<JsValue, Failure>, endpointType: string,
                                   config: Config, e: Engine, service: Service, poolUuid: string, freshId: string)
    requires Prepare(req, parsed, endpointType, config, e).Ok?
    requires var p := Prepare(req, parsed, endpointType, config, e).value;
      p.isStream && service.generateContentStream(p.route.model, p.requestBody).Err?
    ensures var p := Prepare(req, parsed, endpointType, config, e).value;
      var f := service.generateContentStream(p.route.model, p.requestBody).error;
      var eff := Handling(req, parsed, endpointType, config, e, service, poolUuid, freshId);
      && eff.status == Some(200)
      && eff.writes == [Stringify(ErrorPayload(f))]
      && eff.marks == []
  {
  }

  /** A failed unary call is answered with the failure's own status, and the
      provider is marked unhealthy exactly once. */
  lemma UnaryFailureReported(req: IncomingRequest, parsed: Result<JsValue, Failure>, endpointType: string,
                             config: Config, e: Engine, service: Service, poolUuid: string, freshId: string)
    requires Prepare(req, parsed, endpointType, config, e).Ok?
    requires var p := Prepare(req, parsed, endpointType, config, e).value;
      !p.isStream && UnaryReply(service, e, p.route, p.requestBody, freshId).Err?
    ensures var p := Prepare(req, parsed, endpointType, config, e).value;
      var f := UnaryReply(service, e, p.route, p.requestBody, freshId).error;
      var eff := Handling(req, parsed, endpointType, config, e, service, poolUuid, freshId);
      && eff.status == Some(StatusOf(f))
      && eff.writes == [Stringify(ErrorPayload(f))]
      && eff.marks == [(config.modelProvider, poolUuid)]
      && eff.logs == InputEntries(e, p, config)
  {
    PreparedRequestShape(req, parsed, endpointType, config, e);
    DispatchedUnaryFailure(e, service, Prepare(req, parsed, endpointType, config, e).value, config, poolUuid, freshId);
  }

  /** The same for a prepared request. */
  lemma DispatchedUnaryFailure(e: Engine, service: Service, p: Prepared, config: Config, poolUuid: string, freshId: string)
    requires !p.isStream && p.route.toProvider == config.modelProvider
    requires UnaryReply(service, e, p.route, p.requestBody, freshId).Err?
    ensures var f := UnaryReply(service, e, p.route, p.requestBody, freshId).error;
      var eff := Dispatched(e, service, p, config, poolUuid, freshId);
      && eff.status == Some(StatusOf(f))
      && eff.writes == [Stringify(ErrorPayload(f))]
      && eff.marks == [(config.modelProvider, poolUuid)]
      && eff.logs == InputEntries(e, p, config)
  {
    var f := UnaryReply(service, e, p.route, p.requestBody, freshId).error;
    var h := HandlerFor(e, service, p, config, poolUuid, freshId);
    assert h == Handled(Effects(None, [], false, [(config.modelProvider, poolUuid)], []), Some(f));
  }

  // ---------------------------------------------------------------------------
  // The handler

  /** handleContentGenerationRequest.  The request body arrives already read
      and parsed (`parsed`); `freshId` is the id a Claude reply gets when it
      has none. */
  method HandleContentGenerationRequest(req: IncomingRequest, parsed: Result<JsValue, Failure>, res: Response,
                                        service: Service, e: Engine, endpointType: string, config: Config,
                                        pool: Option<ProviderPoolManager>, poolUuid: string, log: PromptLog,
                                        freshId: string)
    requires !res.headersSent && !res.ended
    modifies res, log, PoolObjects(pool)
    ensures Applied(res, pool, log, Handling(req, parsed, endpointType, config, e, service, poolUuid, freshId))
  {
    var prepared := Prepare(req, parsed, endpointType, config, e);
    if prepared.Err? {
      assert Handling(req, parsed, endpointType, config, e, service, poolUuid, freshId)
          == AfterError(Effects(None, [], false, [], []), prepared.error);
      HandleError(res, prepared.error);
      return;
    }
    assert Handling(req, parsed, endpointType, config, e, service, poolUuid, freshId)
        == Dispatched(e, service, prepared.value, config, poolUuid, freshId);
    Dispatch(res, service, e, prepared.value, config, pool, poolUuid, log, freshId);
  }

  /** Steps 4 and 5 of handleContentGenerationRequest. */
  method Dispatch(res: Response, service: Service, e: Engine, p: Prepared, config: Config,
                  pool: Option<ProviderPoolManager>, poolUuid: string, log: PromptLog, freshId: string)
    requires !res.headersSent && !res.ended
    modifies res, log, PoolObjects(pool)
    ensures Applied(res, pool, log, Dispatched(e, service, p, config, poolUuid, freshId))
  {
    LogInput(log, e, p, config);
    Answer(res, service, e, p, config, pool, poolUuid, log, freshId);
    AppendAssociative(old(log.entries), InputEntries(e, p, config),
                      Caught(HandlerFor(e, service, p, config, poolUuid, freshId)).logs);
  }

  /** Step 5 of handleContentGenerationRequest and the catch block for what
      the handler rethrows. */
  method Answer(res: Response, service: Service, e: Engine, p: Prepared, config: Config,
                pool: Option<ProviderPoolManager>, poolUuid: string, log: PromptLog, freshId: string)
    requires !res.headersSent && !res.ended
    modifies res, log, PoolObjects(pool)
    ensures Applied(res, pool, log, Caught(HandlerFor(e, service, p, config, poolUuid, freshId)))
  {
    HandlerRethrowsBeforeEnd(e, service, p, config, poolUuid, freshId);
    var thrown := RunHandler(res, service, e, p, config, pool, poolUuid, log, freshId);
    if thrown.Some? {
      ghost var handled := HandlerFor(e, service, p, config, poolUuid, freshId).effects;
      AppendAssociative(old(res.writes), handled.writes, [Stringify(ErrorPayload(thrown.value))]);
      HandleError(res, thrown.value);
    }
  }

  /** Step 4 of handleContentGenerationRequest: log the incoming prompt; a
      failure to extract it is not fatal. */
  method LogInput(log: PromptLog, e: Engine, p: Prepared, config: Config)
    modifies log
    ensures log.entries == old(log.entries) + InputEntries(e, p, config)
  {
    var promptText := ExtractPromptText(e, p.requestBody, p.route.toProvider);
    if promptText.Ok? {
      log.LogConversation(Input, promptText.value, config.promptLogMode);
    }
  }

  /** Step 5 of handleContentGenerationRequest. */
  method RunHandler(res: Response, service: Service, e: Engine, p: Prepared, config: Config,
                    pool: Option<ProviderPoolManager>, poolUuid: string, log: PromptLog, freshId: string)
    returns (thrown: Option<Failure>)
    requires !res.headersSent && !res.ended
    modifies res, log, PoolObjects(pool)
    ensures var h := HandlerFor(e, service, p, config, poolUuid, freshId);
      thrown == h.thrown && Applied(res, pool, log, h.effects)
  {
    if p.isStream {
      thrown := HandleStreamRequest(res, service, e, p.route, p.requestBody, config.promptLogMode, pool, poolUuid, log);
    } else {
      thrown := HandleUnaryRequest(res, service, e, p.route, p.requestBody, config.promptLogMode, pool, poolUuid, log, freshId);
    }
  }
}
