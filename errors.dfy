/** The failure reporter (handleError): maps any error to an HTTP status, a
    Claude-style error type, a message and suggestions, and always answers with
    the Claude Messages error envelope, whichever protocol the client speaks. */
module Errors {
  import opened Wrappers
  import opened JsValues
  import opened Sink

  /** An error as handleError reads it: a thrown `Error` (message only), a
      `{message, statusCode}` literal, or a backend error carrying an HTTP
      `response` with `status` and `data` (`Undefined` when absent). */
  datatype Failure = Failure(
    message: string,
    statusCode: Option<int>,
    responseStatus: Option<int>,
    status: Option<int>,
    responseData: JsValue)

  /** `new Error(message)` */
  function PlainError(message: string): Failure {
    Failure(message, None, None, None, Undefined)
  }

  /** `{ message, statusCode: 400 }`, as the pipeline builds for a rejected request */
  function BadRequest(message: string): Failure {
    Failure(message, Some(400), None, None, Undefined)
  }

  /** A `TypeError` raised by the JavaScript engine (reading a property of
      `null`/`undefined`, calling a method a value does not have, assigning a
      property on a primitive); the engine's own wording is not modelled. */
  function TypeError(what: string): Failure {
    PlainError("TypeError: " + what)
  }

  /** `v.key` in strict mode: reading a property of `null` or `undefined` throws. */
  function Property(v: JsValue, key: string): (r: Result<JsValue, Failure>)
    ensures r.Err? <==> v.Undefined? || v.Null?
    ensures r.Ok? ==> r.value == Member(v, key)
  {
    if v.Undefined? || v.Null? then Err(TypeError("Cannot read properties of " + JsToString(v) + " (reading '" + key + "')"))
    else Ok(Member(v, key))
  }

  /** A number field that is present and truthy (not 0). */
  predicate IsSet(code: Option<int>) {
    code.Some? && code.value != 0
  }

  /** `error.statusCode || error.response?.status || error.status || 500` */
  function StatusOf(e: Failure): (code: int)
    ensures code != 0
    ensures IsSet(e.statusCode) ==> code == e.statusCode.value
    ensures !IsSet(e.statusCode) && IsSet(e.responseStatus) ==> code == e.responseStatus.value
    ensures !IsSet(e.statusCode) && !IsSet(e.responseStatus) && IsSet(e.status) ==> code == e.status.value
    ensures !IsSet(e.statusCode) && !IsSet(e.responseStatus) && !IsSet(e.status) ==> code == 500
  {
    if IsSet(e.statusCode) then e.statusCode.value
    else if IsSet(e.responseStatus) then e.responseStatus.value
    else if IsSet(e.status) then e.status.value
    else 500
  }

  datatype Classification = Classification(errorType: string, message: string, suggestions: seq<string>)

  const INVALID_REQUEST: string := "invalid_request_error"
  const AUTHENTICATION: string := "authentication_error"
  const PERMISSION: string := "permission_error"
  const NOT_FOUND: string := "not_found_error"
  const RATE_LIMIT: string := "rate_limit_error"
  const API_ERROR: string := "api_error"

  /** The status switch of handleError, one field at a time: the error type.
      The special cases have their own types; the default splits at 400 and
      500, and anything below 400 keeps the initial `api_error`. */
  function ErrorType(statusCode: int): (t: string)
    ensures t == INVALID_REQUEST <==> 400 <= statusCode < 500 && statusCode !in {401, 403, 404, 429}
    ensures t == AUTHENTICATION <==> statusCode == 401
    ensures t == PERMISSION <==> statusCode == 403
    ensures t == NOT_FOUND <==> statusCode == 404
    ensures t == RATE_LIMIT <==> statusCode == 429
    ensures t == API_ERROR <==> statusCode < 400 || statusCode >= 500
  {
    if statusCode == 401 then AUTHENTICATION
    else if statusCode == 403 then PERMISSION
    else if statusCode == 404 then NOT_FOUND
    else if statusCode == 429 then RATE_LIMIT
    else if statusCode in {500, 502, 503, 504} then API_ERROR
    else if 400 <= statusCode < 500 then INVALID_REQUEST
    else API_ERROR
  }

  /** The client-facing message: the error's own for a 400 and for statuses
      below 400, a fixed text for the special cases, the status and the
      error's message for the other 4xx and 5xx statuses. */
  function ClientMessage(statusCode: int, message: string): (r: string)
    ensures r != ""
    ensures statusCode !in {401, 403, 404, 429, 500, 502, 503, 504} ==>
      |r| >= |message| && r[|r| - |message|..] == message
  {
    var fallback := if message != "" then message else "An unknown error occurred";
    if statusCode == 400 then fallback
    else if statusCode == 401 then "Authentication failed. Please check your credentials."
    else if statusCode == 403 then "Access forbidden. Insufficient permissions."
    else if statusCode == 404 then "The requested resource was not found."
    else if statusCode == 429 then "Too many requests. Rate limit exceeded."
    else if statusCode in {500, 502, 503, 504} then "Server error occurred. This is usually temporary."
    else if 400 <= statusCode < 500 then "Client error (" + IntToDecimal(statusCode) + "): " + message
    else if statusCode >= 500 then "Server error (" + IntToDecimal(statusCode) + "): " + message
    else fallback
  }

  /** The suggestions for the client. */
  const BAD_REQUEST_SUGGESTIONS: seq<string> := [
    "Check your request format and parameters",
    "Ensure all required fields are present",
    "Verify the model name is correct"]
  const AUTH_SUGGESTIONS: seq<string> := [
    "Verify your OAuth credentials are valid",
    "Try re-authenticating by deleting the credentials file",
    "Check if your Google Cloud project has the necessary permissions"]
  const PERMISSION_SUGGESTIONS: seq<string> := [
    "Ensure your Google Cloud project has the Code Assist API enabled",
    "Check if your account has the necessary permissions",
    "Verify the project ID is correct"]
  const NOT_FOUND_SUGGESTIONS: seq<string> := [
    "Verify the endpoint URL is correct",
    "Check if the model name exists"]
  const RATE_LIMIT_SUGGESTIONS: seq<string> := [
    "The request has been automatically retried with exponential backoff",
    "If the issue persists, try reducing the request frequency",
    "Consider upgrading your API quota if available"]
  const SERVER_SUGGESTIONS: seq<string> := [
    "The request has been automatically retried",
    "If the issue persists, try again in a few minutes",
    "Check service status page for outages"]

  /** Suggestions are given exactly for client and server error statuses. */
  function Suggestions(statusCode: int): (r: seq<string>)
    ensures |r| > 0 <==> statusCode >= 400
  {
    if statusCode == 400 then BAD_REQUEST_SUGGESTIONS
    else if statusCode == 401 then AUTH_SUGGESTIONS
    else if statusCode == 403 then PERMISSION_SUGGESTIONS
    else if statusCode == 404 then NOT_FOUND_SUGGESTIONS
    else if statusCode == 429 then RATE_LIMIT_SUGGESTIONS
    else if statusCode in {500, 502, 503, 504} then SERVER_SUGGESTIONS
    else if 400 <= statusCode < 500 then ["Check your request format and parameters"]
    else if statusCode >= 500 then ["This is a server-side issue, please try again later"]
    else []
  }

  /** The whole switch. */
  function Classify(statusCode: int, message: string): Classification {
    Classification(ErrorType(statusCode), ClientMessage(statusCode, message), Suggestions(statusCode))
  }

  /** The error envelope `{type: "error", error: {type, message, code?, suggestions?, details?}}`
      with the optional members added in handleError's order. */
  function Envelope(c: Classification, statusCode: int, details: JsValue): JsValue {
    Obj([("type", Str("error")), ("error", Obj(EnvelopeFields(c, statusCode, details)))])
  }

  /** The envelope handleError sends for an error. */
  function ErrorPayload(e: Failure): JsValue {
    var statusCode := StatusOf(e);
    Envelope(Classify(statusCode, e.message), statusCode, e.responseData)
  }

  /** The members of the inner error object, in handleError's order. */
  function EnvelopeFields(c: Classification, statusCode: int, details: JsValue): seq<(string, JsValue)> {
    var base := [("type", Str(c.errorType)), ("message", Str(c.message))];
    var code := if Truthy(Num(statusCode)) then [("code", Num(statusCode))] else [];
    base + code + SuggestionsMember(c.suggestions) + DetailsMember(details)
  }

  /** The suggestions as a JSON array of strings, in order. */
  function SuggestionsArray(suggestions: seq<string>): JsValue {
    Arr(seq(|suggestions|, i requires 0 <= i < |suggestions| => Str(suggestions[i])))
  }

  /** `suggestions`, present only when the list is non-empty. */
  function SuggestionsMember(suggestions: seq<string>): seq<(string, JsValue)> {
    if |suggestions| > 0 then [("suggestions", SuggestionsArray(suggestions))] else []
  }

  /** `details`, present only when the error carried response data. */
  function DetailsMember(details: JsValue): seq<(string, JsValue)> {
    if Truthy(details) then [("details", details)] else []
  }

  /** The optional tail of the envelope holds `suggestions` and `details` exactly when they are due. */
  lemma OptionalMembersKeys(suggestions: seq<string>, details: JsValue)
    ensures HasKey(SuggestionsMember(suggestions) + DetailsMember(details), "suggestions") <==> |suggestions| > 0
    ensures HasKey(SuggestionsMember(suggestions) + DetailsMember(details), "details") <==> Truthy(details)
    ensures |suggestions| > 0 ==>
      Lookup(SuggestionsMember(suggestions) + DetailsMember(details), "suggestions") == SuggestionsArray(suggestions)
    ensures Truthy(details) ==> Lookup(SuggestionsMember(suggestions) + DetailsMember(details), "details") == details
  {
    var s := SuggestionsMember(suggestions);
    var d := DetailsMember(details);
    HasKeyAppend(s, d, "suggestions");
    HasKeyAppend(s, d, "details");
    LookupAppend(s, d, "suggestions");
    LookupAppend(s, d, "details");
    if |suggestions| > 0 {
      assert s[0].0 == "suggestions";
    }
    if Truthy(details) {
      assert d[0].0 == "details";
    }
  }

  /** With a non-zero status the inner object is the three fixed members, then the optional ones. */
  lemma EnvelopeFieldsSplit(c: Classification, statusCode: int, details: JsValue)
    requires statusCode != 0
    ensures EnvelopeFields(c, statusCode, details)
         == [("type", Str(c.errorType)), ("message", Str(c.message)), ("code", Num(statusCode))]
            + (SuggestionsMember(c.suggestions) + DetailsMember(details))
  {
  }

  /** The inner error object: the classification, the status as `code` whenever
      it is non-zero, `suggestions` exactly when the list is non-empty and
      `details` exactly when there are details. */
  lemma EnvelopeFieldsShape(c: Classification, statusCode: int, details: JsValue)
    requires statusCode != 0
    ensures var f := EnvelopeFields(c, statusCode, details);
      && Lookup(f, "type") == Str(c.errorType)
      && Lookup(f, "message") == Str(c.message)
      && Lookup(f, "code") == Num(statusCode)
      && (HasKey(f, "suggestions") <==> |c.suggestions| > 0)
      && (HasKey(f, "details") <==> Truthy(details))
      && (|c.suggestions| > 0 ==> Lookup(f, "suggestions") == SuggestionsArray(c.suggestions))
      && (Truthy(details) ==> Lookup(f, "details") == details)
  {
    var head := [("type", Str(c.errorType)), ("message", Str(c.message)), ("code", Num(statusCode))];
    var rest := SuggestionsMember(c.suggestions) + DetailsMember(details);
    EnvelopeFieldsSplit(c, statusCode, details);
    var f := head + rest;
    assert Lookup(f, "type") == Str(c.errorType) by {
      assert HasKey(head, "type") by { assert head[0].0 == "type"; }
      LookupAppend(head, rest, "type");
    }
    assert Lookup(f, "message") == Str(c.message) by {
      assert HasKey(head, "message") by { assert head[1].0 == "message"; }
      LookupAppend(head, rest, "message");
    }
    assert Lookup(f, "code") == Num(statusCode) by {
      assert HasKey(head, "code") by { assert head[2].0 == "code"; }
      LookupAppend(head, rest, "code");
    }
    OptionalMembersKeys(c.suggestions, details);
    PastHead(head, rest, "suggestions");
    PastHead(head, rest, "details");
  }

  /** A key the fixed members do not carry is looked up in the optional ones. */
  lemma PastHead(head: seq<(string, JsValue)>, rest: seq<(string, JsValue)>, k: string)
    requires |head| == 3 && head[0].0 == "type" && head[1].0 == "message" && head[2].0 == "code"
    requires k == "suggestions" || k == "details"
    ensures Lookup(head + rest, k) == Lookup(rest, k)
    ensures HasKey(head + rest, k) <==> HasKey(rest, k)
  {
    assert !HasKey(head, k) by {
      assert |k| == 11 || k[0] == 'd';
    }
    LookupAppend(head, rest, k);
    HasKeyAppend(head, rest, k);
  }

  /** The whole envelope: `type: "error"` and the inner object under `error`. */
  lemma EnvelopeShape(c: Classification, statusCode: int, details: JsValue)
    requires statusCode != 0
    ensures var p := Envelope(c, statusCode, details);
      var inner := Member(p, "error");
      && Member(p, "type") == Str("error")
      && inner == Obj(EnvelopeFields(c, statusCode, details))
      && Member(inner, "type") == Str(c.errorType)
      && Member(inner, "message") == Str(c.message)
      && Member(inner, "code") == Num(statusCode)
      && (HasKey(inner.fields, "suggestions") <==> |c.suggestions| > 0)
      && (HasKey(inner.fields, "details") <==> Truthy(details))
      && (|c.suggestions| > 0 ==> Member(inner, "suggestions") == SuggestionsArray(c.suggestions))
      && (Truthy(details) ==> Member(inner, "details") == details)
  {
    var outer := [("type", Str("error")), ("error", Obj(EnvelopeFields(c, statusCode, details)))];
    assert "type" != "error" by { assert "type"[0] != "error"[0]; }
    assert Lookup(outer, "type") == Str("error");
    assert Lookup(outer[1..], "error") == outer[1].1;
    assert Lookup(outer, "error") == outer[1].1;
    EnvelopeFieldsShape(c, statusCode, details);
  }

  /** For every error the envelope is Claude-shaped, carries the status as `error.code`,
      and has suggestions exactly for statuses from 400 up. */
  lemma ErrorPayloadShape(e: Failure)
    ensures var p := ErrorPayload(e);
      var inner := Member(p, "error");
      && Member(p, "type") == Str("error")
      && inner.Obj?
      && Member(inner, "type") == Str(ErrorType(StatusOf(e)))
      && Member(inner, "code") == Num(StatusOf(e))
      && (HasKey(inner.fields, "suggestions") <==> StatusOf(e) >= 400)
      && (HasKey(inner.fields, "details") <==> Truthy(e.responseData))
      && (StatusOf(e) >= 400 ==> Member(inner, "suggestions") == SuggestionsArray(Suggestions(StatusOf(e))))
      && (Truthy(e.responseData) ==> Member(inner, "details") == e.responseData)
  {
    EnvelopeShape(Classify(StatusOf(e), e.message), StatusOf(e), e.responseData);
  }

  /** An error with no usable status is a 500 `api_error` with the generic server message. */
  lemma DefaultIsServerError(message: string)
    ensures StatusOf(PlainError(message)) == 500
    ensures Classify(500, message) ==
      Classification(API_ERROR, "Server error occurred. This is usually temporary.", SERVER_SUGGESTIONS)
  {
  }

  /** handleError(res, error): the status line is written only if headers have
      not been sent yet; the envelope is then written and the response ended. */
  method HandleError(res: Response, e: Failure)
    requires !res.ended
    modifies res
    ensures res.headersSent && res.ended
    ensures res.statusCode == if old(res.headersSent) then old(res.statusCode) else StatusOf(e)
    ensures res.writes == old(res.writes) + [Stringify(ErrorPayload(e))]
  {
    var statusCode := StatusOf(e);
    if !res.headersSent {
      res.WriteHead(statusCode);
    }
    res.End(Some(Stringify(ErrorPayload(e))));
  }
}
