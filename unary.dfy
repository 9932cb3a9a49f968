/** handleUnaryRequest: one backend call, the response converted back to the
    client's protocol family when the families differ, Claude's required
    envelope fields filled in, and the JSON written in a single response. */
module Unary {
  import opened Wrappers
  import opened JsValues
  import opened Protocol
  import opened Errors
  import opened Sink
  import opened Collaborators

  const EMPTY_RESPONSE: string := "Empty response received from service"

  /** The Claude fix-ups: a falsy `id` becomes the generated id, a falsy `type`
      becomes "message" and a falsy `role` becomes "assistant".  Reading a
      property of `null`/`undefined` throws, and so does assigning one on a
      primitive (module code is strict); an array takes the assignments as
      non-index properties, which `JSON.stringify` does not print. */
  function WithClaudeDefaults(v: JsValue, freshId: string): Result<JsValue, Failure> {
    match v
    case Undefined => Err(Property(v, "id").error)
    case Null => Err(Property(v, "id").error)
    case Arr(_) => Ok(v)
    case Obj(fields) => Ok(Obj(ClaudeFields(fields, freshId)))
    case _ => Err(TypeError("Cannot create property 'id' on " + JsToString(v)))
  }

  /** `if (!v[key]) v[key] = val` on an object's members. */
  function DefaultedField(fields: seq<(string, JsValue)>, key: string, val: JsValue): seq<(string, JsValue)> {
    if Truthy(Lookup(fields, key)) then fields else SetField(fields, key, val)
  }

  /** The three fix-ups in the source's order: `id`, `type`, `role`. */
  function ClaudeFields(fields: seq<(string, JsValue)>, freshId: string): seq<(string, JsValue)> {
    DefaultedField(DefaultedField(DefaultedField(fields, "id", Str(freshId)), "type", Str("message")), "role", Str("assistant"))
  }

  /** The backend response in the client's family: `convertData`'s response
      conversion when the families differ, the native response otherwise. */
  function ClientResponse(e: Engine, r: Route, nativeResponse: JsValue): Result<JsValue, Failure> {
    if NeedsConversion(r.fromProvider, r.toProvider) then
      e.convertData(nativeResponse, ResponseKind, r.toProvider, r.fromProvider, r.model)
    else Ok(nativeResponse)
  }

  /** What the try block produces: the client response and the text to log. */
  datatype UnaryResult = UnaryResult(clientResponse: JsValue, responseText: JsValue)

  /** The try block of handleUnaryRequest up to the write, as a value: the
      first failure, or the response to send and the text to log. */
  function UnaryReply(service: Service, e: Engine, r: Route, requestBody: JsValue, freshId: string): Result<UnaryResult, Failure> {
    match service.generateContent(r.model, requestBody)
    case Err(f) => Err(f)
    case Ok(nativeResponse) =>
      if !Truthy(nativeResponse) then Err(PlainError(EMPTY_RESPONSE))
      else
        match ExtractResponseText(e, nativeResponse, r.toProvider)
        case Err(f) => Err(f)
        case Ok(responseText) =>
          match ClientResponse(e, r, nativeResponse)
          case Err(f) => Err(f)
          case Ok(clientResponse) =>
            if r.fromProvider == CLAUDE then
              match WithClaudeDefaults(clientResponse, freshId)
              case Err(f) => Err(f)
              case Ok(fixed) => Ok(UnaryResult(fixed, responseText))
            else Ok(UnaryResult(clientResponse, responseText))
  }

  /** `res.end(JSON.stringify(clientResponse))`: `undefined` serialises to
      `undefined`, which ends the response with no body. */
  function ResponseBody(clientResponse: JsValue): seq<string> {
    if clientResponse.Undefined? then [] else [Stringify(clientResponse)]
  }

  // ---------------------------------------------------------------------------
  // Properties

  /** A falsy backend response is an error, never an empty reply. */
  lemma EmptyResponseRejected(service: Service, e: Engine, r: Route, requestBody: JsValue, freshId: string)
    requires service.generateContent(r.model, requestBody).Ok?
    requires !Truthy(service.generateContent(r.model, requestBody).value)
    ensures UnaryReply(service, e, r, requestBody, freshId) == Err(PlainError(EMPTY_RESPONSE))
    ensures StatusOf(PlainError(EMPTY_RESPONSE)) == 500
  {
  }

  /** Within one family, a non-Claude client gets the backend's response as is. */
  lemma SameFamilyPassesThrough(service: Service, e: Engine, r: Route, requestBody: JsValue, freshId: string)
    requires !NeedsConversion(r.fromProvider, r.toProvider) && r.fromProvider != CLAUDE
    requires service.generateContent(r.model, requestBody).Ok?
    requires Truthy(service.generateContent(r.model, requestBody).value)
    requires ExtractResponseText(e, service.generateContent(r.model, requestBody).value, r.toProvider).Ok?
    ensures var native := service.generateContent(r.model, requestBody).value;
      UnaryReply(service, e, r, requestBody, freshId) ==
        Ok(UnaryResult(native, ExtractResponseText(e, native, r.toProvider).value))
  {
  }

  /** Every successful object reply to a Claude client carries the required
      fields: each one the converted response lacked is the generated id,
      `"message"` or `"assistant"`, and each one it had is kept. */
  lemma ClaudeReplyHasRequiredFields(service: Service, e: Engine, r: Route, requestBody: JsValue, freshId: string)
    requires r.fromProvider == CLAUDE && freshId != ""
    requires UnaryReply(service, e, r, requestBody, freshId).Ok?
    requires UnaryReply(service, e, r, requestBody, freshId).value.clientResponse.Obj?
    ensures var fields := UnaryReply(service, e, r, requestBody, freshId).value.clientResponse.fields;
      var before := ClientResponse(e, r, service.generateContent(r.model, requestBody).value).value.fields;
      && Truthy(Lookup(fields, "id")) && Truthy(Lookup(fields, "type")) && Truthy(Lookup(fields, "role"))
      && Lookup(fields, "id") == (if Truthy(Lookup(before, "id")) then Lookup(before, "id") else Str(freshId))
      && Lookup(fields, "type") == (if Truthy(Lookup(before, "type")) then Lookup(before, "type") else Str("message"))
      && Lookup(fields, "role") == (if Truthy(Lookup(before, "role")) then Lookup(before, "role") else Str("assistant"))
  {
    var native := service.generateContent(r.model, requestBody).value;
    var converted := ClientResponse(e, r, native);
    ClaudeDefaultsFill(converted.value, freshId);
    ClaudeFieldsFill(converted.value.fields, freshId);
  }

  /** Across families the client gets `convertData`'s response conversion of
      the backend's response (a non-Claude client gets it as it is), and a
      failed conversion is the handler's failure. */
  lemma CrossFamilyConvertsReply(service: Service, e: Engine, r: Route, requestBody: JsValue, freshId: string)
    requires NeedsConversion(r.fromProvider, r.toProvider)
    requires service.generateContent(r.model, requestBody).Ok?
    requires Truthy(service.generateContent(r.model, requestBody).value)
    requires ExtractResponseText(e, service.generateContent(r.model, requestBody).value, r.toProvider).Ok?
    ensures var native := service.generateContent(r.model, requestBody).value;
      var conv := e.convertData(native, ResponseKind, r.toProvider, r.fromProvider, r.model);
      var reply := UnaryReply(service, e, r, requestBody, freshId);
      && (conv.Err? ==> reply == Err(conv.error))
      && (conv.Ok? && r.fromProvider != CLAUDE ==>
            reply == Ok(UnaryResult(conv.value, ExtractResponseText(e, native, r.toProvider).value)))
      && (conv.Ok? && r.fromProvider == CLAUDE ==>
            reply == match WithClaudeDefaults(conv.value, freshId)
                     case Ok(fixed) => Ok(UnaryResult(fixed, ExtractResponseText(e, native, r.toProvider).value))
                     case Err(f) => Err(f))
  {
  }

  /** One fix-up with a truthy `val`: the key becomes truthy, a falsy value
      becomes `val`, a truthy value is kept, and no other key changes. */
  lemma DefaultField(fields: seq<(string, JsValue)>, key: string, val: JsValue)
    requires Truthy(val)
    ensures var w := DefaultedField(fields, key, val);
      && Truthy(Lookup(w, key))
      && (!Truthy(Lookup(fields, key)) ==> Lookup(w, key) == val)
      && (Truthy(Lookup(fields, key)) ==> Lookup(w, key) == Lookup(fields, key))
      && (forall k :: k != key ==> Lookup(w, k) == Lookup(fields, k))
      && (forall k :: HasKey(w, k) <==> HasKey(fields, k) || k == key)
  {
  }

  /** The three fix-ups on an object's members: a falsy `id`, `type` or `role`
      becomes the generated id, `"message"` or `"assistant"`, a truthy value
      already there is kept, every other key is untouched, and no key other
      than the three is added. */
  lemma ClaudeFieldsFill(fields: seq<(string, JsValue)>, freshId: string)
    requires freshId != ""
    ensures var w := ClaudeFields(fields, freshId);
      && Truthy(Lookup(w, "id")) && Truthy(Lookup(w, "type")) && Truthy(Lookup(w, "role"))
      && (Truthy(Lookup(fields, "id")) ==> Lookup(w, "id") == Lookup(fields, "id"))
      && (Truthy(Lookup(fields, "type")) ==> Lookup(w, "type") == Lookup(fields, "type"))
      && (Truthy(Lookup(fields, "role")) ==> Lookup(w, "role") == Lookup(fields, "role"))
      && (!Truthy(Lookup(fields, "id")) ==> Lookup(w, "id") == Str(freshId))
      && (!Truthy(Lookup(fields, "type")) ==> Lookup(w, "type") == Str("message"))
      && (!Truthy(Lookup(fields, "role")) ==> Lookup(w, "role") == Str("assistant"))
      && (forall k :: k != "id" && k != "type" && k != "role" ==> Lookup(w, k) == Lookup(fields, k))
      && (forall k :: HasKey(w, k) <==> HasKey(fields, k) || k == "id" || k == "type" || k == "role")
  {
    var withId := DefaultedField(fields, "id", Str(freshId));
    var withType := DefaultedField(withId, "type", Str("message"));
    var withRole := DefaultedField(withType, "role", Str("assistant"));
    DefaultField(fields, "id", Str(freshId));
    DefaultField(withId, "type", Str("message"));
    DefaultField(withType, "role", Str("assistant"));
    assert "id" != "type" && "id" != "role" && "type" != "role";
    assert Lookup(withRole, "id") == Lookup(withType, "id") == Lookup(withId, "id");
    assert Lookup(withRole, "type") == Lookup(withType, "type");
    forall k | k != "id" && k != "type" && k != "role"
      ensures Lookup(withRole, k) == Lookup(fields, k)
    {
      assert Lookup(withRole, k) == Lookup(withType, k) == Lookup(withId, k);
    }
    forall k ensures HasKey(withRole, k) <==> HasKey(fields, k) || k == "id" || k == "type" || k == "role" {
      assert HasKey(withRole, k) <==> HasKey(withType, k) || k == "role";
      assert HasKey(withType, k) <==> HasKey(withId, k) || k == "type";
    }
  }

  /** The Claude fix-ups on the converted response: an object comes out an
      object with the fields filled in as above; an array comes out unchanged. */
  lemma ClaudeDefaultsFill(v: JsValue, freshId: string)
    requires freshId != ""
    requires WithClaudeDefaults(v, freshId).Ok?
    ensures var w := WithClaudeDefaults(v, freshId).value;
      && (v.Obj? <==> w.Obj?)
      && (w.Obj? ==> w.fields == ClaudeFields(v.fields, freshId))
      && (!w.Obj? ==> w == v)
  {
  }

  /** The fix-ups are idempotent: a fixed response is left as it is, whatever id is on offer. */
  lemma ClaudeDefaultsIdempotent(v: JsValue, freshId: string, otherId: string)
    requires freshId != ""
    requires WithClaudeDefaults(v, freshId).Ok?
    ensures WithClaudeDefaults(WithClaudeDefaults(v, freshId).value, otherId) == WithClaudeDefaults(v, freshId)
  {
    if v.Obj? {
      ClaudeFieldsFill(v.fields, freshId);
    }
  }

  /** Only objects and arrays survive the fix-ups; every other value is a TypeError. */
  lemma ClaudeDefaultsRejectPrimitives(v: JsValue, freshId: string)
    ensures WithClaudeDefaults(v, freshId).Ok? <==> v.Obj? || v.Arr?
  {
  }

  // ---------------------------------------------------------------------------
  // The handler

  /** What handleUnaryRequest does.  On success the status line and the JSON
      are written and the response text is logged; on any failure nothing is
      written, the provider is marked unhealthy when a pool is in use, and the
      failure is rethrown to the caller. */
  function UnaryHandling(service: Service, e: Engine, r: Route, requestBody: JsValue,
                         logMode: string, poolUuid: string, freshId: string): Handled {
    ReplyHandling(UnaryReply(service, e, r, requestBody, freshId), r.toProvider, logMode, poolUuid)
  }

  /** The handler's effects for a given outcome of the try block. */
  function ReplyHandling(reply: Result<UnaryResult, Failure>, toProvider: string, logMode: string, poolUuid: string): Handled {
    match reply
    case Ok(u) =>
      Handled(Effects(Some(200), ResponseBody(u.clientResponse), true, [], EntriesFor(Output, u.responseText, logMode)), None)
    case Err(f) =>
      Handled(Effects(None, [], false, [(toProvider, poolUuid)], []), Some(f))
  }

  /** handleUnaryRequest */
  method HandleUnaryRequest(res: Response, service: Service, e: Engine, r: Route, requestBody: JsValue,
                            logMode: string, pool: Option<ProviderPoolManager>, poolUuid: string,
                            log: PromptLog, freshId: string)
    returns (thrown: Option<Failure>)
    requires !res.headersSent && !res.ended
    modifies res, log, PoolObjects(pool)
    ensures var h := UnaryHandling(service, e, r, requestBody, logMode, poolUuid, freshId);
      thrown == h.thrown && Applied(res, pool, log, h.effects)
  {
    var reply := UnaryReply(service, e, r, requestBody, freshId);
    ghost var h := ReplyHandling(reply, r.toProvider, logMode, poolUuid);
    assert UnaryHandling(service, e, r, requestBody, logMode, poolUuid, freshId) == h;
    if reply.Err? {
      assert h == Handled(Effects(None, [], false, [(r.toProvider, poolUuid)], []), Some(reply.error));
      if pool.Some? {
        pool.value.MarkProviderUnhealthy(r.toProvider, poolUuid);
      }
      return Some(reply.error);
    }
    var clientResponse := reply.value.clientResponse;
    assert h.thrown.None? && h.effects ==
      Effects(Some(200), ResponseBody(clientResponse), true, [], EntriesFor(Output, reply.value.responseText, logMode));
    res.WriteHead(200);
    res.End(if clientResponse.Undefined? then None else Some(Stringify(clientResponse)));
    log.LogConversation(Output, reply.value.responseText, logMode);
    return None;
  }
}
