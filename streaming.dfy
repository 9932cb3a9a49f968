/** handleStreamRequest: relays a backend stream to the client as Server-Sent
    Events, converting each chunk when client and backend speak different
    protocol families, and accumulating the response text for the prompt log. */
module Streaming {
  import opened Wrappers
  import opened JsValues
  import opened Protocol
  import opened Errors
  import opened Sink
  import opened Collaborators
  import opened Sequences

  /** Claude clients get an `event:` line before every data line. */
  predicate AddEvent(r: Route) {
    ProtocolPrefix(r.fromProvider) == CLAUDE
  }

  /** OpenAI clients get a closing stop chunk when the stream was converted. */
  predicate OpenStop(r: Route) {
    ProtocolPrefix(r.fromProvider) == OPENAI
  }

  /** What `fullResponseText += chunkText` adds: truthy non-array text only. */
  function TextPiece(chunkText: JsValue): (r: string)
    ensures r != "" ==> Truthy(chunkText) && !chunkText.Arr?
    ensures Truthy(chunkText) && !chunkText.Arr? ==> r == JsToString(chunkText)
  {
    if Truthy(chunkText) && !chunkText.Arr? then JsToString(chunkText) else ""
  }

  /** A falsy chunk is skipped (`continue`); any other is sent. */
  function Sendable(c: JsValue): (r: Option<JsValue>)
    ensures r.Some? <==> Truthy(c)
    ensures r.Some? ==> r.value == c
  {
    if Truthy(c) then Some(c) else None
  }

  /** What one native chunk contributes: text for the transcript, and either
      the chunk to send (if any) or the failure that ends the loop. */
  datatype ChunkStep = ChunkStep(piece: string, outcome: Result<Option<JsValue>, Failure>)

  /** One iteration of the loop: extract the text, then convert the extracted
      text (across families) or forward the native chunk (within a family). */
  function StepChunk(e: Engine, r: Route, nativeChunk: JsValue): (s: ChunkStep)
    ensures ExtractResponseText(e, nativeChunk, r.toProvider).Err? ==> s.piece == "" && s.outcome.Err?
    ensures s.outcome.Ok? && s.outcome.value.Some? ==> Truthy(s.outcome.value.value)
  {
    match ExtractResponseText(e, nativeChunk, r.toProvider)
    case Err(f) => ChunkStep("", Err(f))
    case Ok(chunkText) =>
      var piece := TextPiece(chunkText);
      if NeedsConversion(r.fromProvider, r.toProvider) then
        match e.convertData(chunkText, StreamChunkKind, r.toProvider, r.fromProvider, r.model)
        case Err(f) => ChunkStep(piece, Err(f))
        case Ok(c) => ChunkStep(piece, Ok(Sendable(c)))
      else ChunkStep(piece, Ok(Sendable(nativeChunk)))
  }

  /** `event: ${chunk.type}\n` */
  function EventLine(c: JsValue): string {
    "event: " + JsToString(Member(c, "type")) + "\n"
  }

  /** `data: ${JSON.stringify(chunk)}\n\n` */
  function DataLine(c: JsValue): string {
    "data: " + JsonText(c) + "\n\n"
  }

  /** The writes for one sent chunk. */
  function Frame(addEvent: bool, c: JsValue): (r: seq<string>)
    ensures |r| == if addEvent then 2 else 1
    ensures r[|r| - 1] == DataLine(c)
    ensures addEvent ==> r[0] == EventLine(c)
  {
    (if addEvent then [EventLine(c)] else []) + [DataLine(c)]
  }

  /** The loop's state: body text written so far, the accumulated response
      text, and the failure that stopped the loop, if any. */
  datatype Progress = Progress(writes: seq<string>, text: string, failure: Option<Failure>)

  /** One more chunk; once a failure has stopped the loop nothing changes. */
  function Advance(e: Engine, r: Route, p: Progress, nativeChunk: JsValue): Progress {
    if p.failure.Some? then p
    else
      var s := StepChunk(e, r, nativeChunk);
      match s.outcome
      case Err(f) => Progress(p.writes, p.text + s.piece, Some(f))
      case Ok(None) => Progress(p.writes, p.text + s.piece, None)
      case Ok(Some(c)) => Progress(p.writes + Frame(AddEvent(r), c), p.text + s.piece, None)
  }

  /** The loop over a prefix of the stream's chunks. */
  function Consume(e: Engine, r: Route, chunks: seq<JsValue>): Progress
    decreases |chunks|
  {
    if chunks == [] then Progress([], "", None)
    else Advance(e, r, Consume(e, r, chunks[..|chunks| - 1]), chunks[|chunks| - 1])
  }

  /** The loop over the whole stream, including a failure the stream raises
      after its last chunk. */
  function Outcome(e: Engine, r: Route, s: NativeStream): Progress {
    var p := Consume(e, r, s.chunks);
    if p.failure.None? && s.failure.Some? then Progress(p.writes, p.text, s.failure) else p
  }

  const STREAM_ERROR_MESSAGE: string := "An error occurred during streaming."

  /** `{error: {message, details}}`, sent as plain JSON when the loop fails. */
  function StreamErrorPayload(f: Failure): JsValue {
    Obj([("error", Obj([("message", Str(STREAM_ERROR_MESSAGE)), ("details", Str(f.message))]))])
  }

  /** A converted OpenAI stream ends with a stop chunk. */
  predicate StopDue(r: Route) {
    OpenStop(r) && NeedsConversion(r.fromProvider, r.toProvider)
  }

  /** The failure the catch block receives: the loop's, or else the one raised
      while building a stop chunk that is due, which is inside the same try. */
  function CaughtFailure(e: Engine, r: Route, failure: Option<Failure>): (caught: Option<Failure>)
    ensures failure.Some? ==> caught == failure
    ensures failure.None? ==> (caught.Some? <==> StopDue(r) && e.openAIStreamChunkStop(r.model).Err?)
    ensures caught.Some? && failure.None? ==> caught.value == e.openAIStreamChunkStop(r.model).error
  {
    if failure.Some? then failure
    else if StopDue(r) && e.openAIStreamChunkStop(r.model).Err? then Some(e.openAIStreamChunkStop(r.model).error)
    else None
  }

  /** What closes a stream's body: the error JSON if the catch block ran, or
      else the stop chunk when one is due. */
  function Closing(e: Engine, r: Route, failure: Option<Failure>): seq<string> {
    var caught := CaughtFailure(e, r, failure);
    if caught.Some? then [Stringify(StreamErrorPayload(caught.value))]
    else if StopDue(r) then [DataLine(e.openAIStreamChunkStop(r.model).value)]
    else []
  }

  /** The body of a streamed response once the stream is open: the frames,
      then the closing text. */
  function StreamBody(e: Engine, r: Route, s: NativeStream): seq<string> {
    var p := Outcome(e, r, s);
    p.writes + Closing(e, r, p.failure)
  }

  // ---------------------------------------------------------------------------
  // A reference reading of the loop, chunk by chunk from the first

  /** The frames one chunk produces when its step succeeds. */
  function StepFrames(e: Engine, r: Route, nativeChunk: JsValue): seq<string> {
    var s := StepChunk(e, r, nativeChunk);
    if s.outcome.Ok? && s.outcome.value.Some? then Frame(AddEvent(r), s.outcome.value.value) else []
  }

  /** The frames and the text piece of one chunk, as function values. */
  function FramesOf(e: Engine, r: Route): JsValue -> seq<string> {
    c => StepFrames(e, r, c)
  }

  function PieceOf(e: Engine, r: Route): JsValue -> string {
    c => StepChunk(e, r, c).piece
  }

  /** The frames of every chunk, in stream order. */
  function Frames(e: Engine, r: Route, chunks: seq<JsValue>): seq<string> {
    ConcatMap(FramesOf(e, r), chunks)
  }

  /** The text of every chunk, in stream order. */
  function Transcript(e: Engine, r: Route, chunks: seq<JsValue>): string {
    ConcatMap(PieceOf(e, r), chunks)
  }

  predicate AllSucceed(e: Engine, r: Route, chunks: seq<JsValue>) {
    forall i :: 0 <= i < |chunks| ==> StepChunk(e, r, chunks[i]).outcome.Ok?
  }

  /** Without a failing step, the loop writes exactly the frames of the sent
      chunks, in stream order, and accumulates every chunk's text. */
  lemma {:induction false} ConsumeWithoutFailure(e: Engine, r: Route, chunks: seq<JsValue>)
    requires AllSucceed(e, r, chunks)
    ensures Consume(e, r, chunks) == Progress(Frames(e, r, chunks), Transcript(e, r, chunks), None)
    decreases |chunks|
  {
    if chunks != [] {
      var init := chunks[..|chunks| - 1];
      AllSucceedPrefix(e, r, chunks);
      ConsumeWithoutFailure(e, r, init);
      ConsumeLast(e, r, chunks);
    }
  }

  lemma AllSucceedPrefix(e: Engine, r: Route, chunks: seq<JsValue>)
    requires chunks != [] && AllSucceed(e, r, chunks)
    ensures AllSucceed(e, r, chunks[..|chunks| - 1])
    ensures StepChunk(e, r, chunks[|chunks| - 1]).outcome.Ok?
  {
    var init := chunks[..|chunks| - 1];
    forall i | 0 <= i < |init| ensures StepChunk(e, r, init[i]).outcome.Ok? {
      assert init[i] == chunks[i];
    }
  }

  /** One more successful chunk extends the frames and the text by its own. */
  lemma ConsumeLast(e: Engine, r: Route, chunks: seq<JsValue>)
    requires chunks != []
    requires var init := chunks[..|chunks| - 1];
      Consume(e, r, init) == Progress(Frames(e, r, init), Transcript(e, r, init), None)
    requires StepChunk(e, r, chunks[|chunks| - 1]).outcome.Ok?
    ensures Consume(e, r, chunks) == Progress(Frames(e, r, chunks), Transcript(e, r, chunks), None)
  {
    var init := chunks[..|chunks| - 1];
    AdvanceByStep(e, r, Consume(e, r, init), chunks[|chunks| - 1]);
    ConcatMapLast(FramesOf(e, r), chunks);
    ConcatMapLast(PieceOf(e, r), chunks);
  }

  lemma ConsumeNext(e: Engine, r: Route, chunks: seq<JsValue>, i: nat)
    requires i < |chunks|
    ensures Consume(e, r, chunks[..i + 1]) == Advance(e, r, Consume(e, r, chunks[..i]), chunks[i])
  {
    assert chunks[..i + 1][..i] == chunks[..i];
  }

  /** A chunk taken while the loop is still running: its frames, its text, and its failure if any. */
  lemma AdvanceByStep(e: Engine, r: Route, p: Progress, c: JsValue)
    requires p.failure.None?
    ensures var s := StepChunk(e, r, c);
      Advance(e, r, p, c) ==
        Progress(p.writes + StepFrames(e, r, c), p.text + s.piece, if s.outcome.Err? then Some(s.outcome.error) else None)
  {
  }

  /** The loop's step on the next chunk while it is still running, field by field. */
  lemma ConsumeOneMore(e: Engine, r: Route, chunks: seq<JsValue>, i: nat)
    requires i < |chunks|
    requires Consume(e, r, chunks[..i]).failure.None?
    ensures var p := Consume(e, r, chunks[..i]);
      var q := Consume(e, r, chunks[..i + 1]);
      var s := StepChunk(e, r, chunks[i]);
      && q.writes == p.writes + StepFrames(e, r, chunks[i])
      && q.text == p.text + s.piece
      && q.failure == (if s.outcome.Err? then Some(s.outcome.error) else None)
  {
    ConsumeNext(e, r, chunks, i);
    AdvanceByStep(e, r, Consume(e, r, chunks[..i]), chunks[i]);
  }

  /** Once the loop has failed, later chunks change nothing. */
  lemma {:induction false} ConsumeAfterFailure(e: Engine, r: Route, chunks: seq<JsValue>, i: nat, j: nat)
    requires i <= j <= |chunks|
    requires Consume(e, r, chunks[..i]).failure.Some?
    ensures Consume(e, r, chunks[..j]) == Consume(e, r, chunks[..i])
    decreases j
  {
    if j > i {
      ConsumeAfterFailure(e, r, chunks, i, j - 1);
      assert chunks[..j][..j - 1] == chunks[..j - 1];
    }
  }

  /** The loop stops at the first failing chunk: everything before it was
      sent, its text was still accumulated, and nothing after it is looked at. */
  lemma ConsumeStopsAtFirstFailure(e: Engine, r: Route, chunks: seq<JsValue>, k: nat)
    requires k < |chunks|
    requires AllSucceed(e, r, chunks[..k])
    requires StepChunk(e, r, chunks[k]).outcome.Err?
    ensures Consume(e, r, chunks) ==
      Progress(Frames(e, r, chunks[..k]),
               Transcript(e, r, chunks[..k]) + StepChunk(e, r, chunks[k]).piece,
               Some(StepChunk(e, r, chunks[k]).outcome.error))
  {
    ConsumeWithoutFailure(e, r, chunks[..k]);
    assert chunks[..k + 1][..k] == chunks[..k];
    ConsumeAfterFailure(e, r, chunks, k + 1, |chunks|);
    assert chunks[..|chunks|] == chunks;
  }

  // ---------------------------------------------------------------------------
  // Framing

  /** A well-formed SSE data event: `data: `, one line of payload, a blank line. */
  predicate IsDataEvent(w: string) {
    |w| >= 8 && w[..6] == "data: " && w[|w| - 2..] == "\n\n" && SingleLine(w[6..|w| - 2])
  }

  /** Every data line is one well-formed event: JSON text has no line breaks. */
  lemma DataLineIsEvent(c: JsValue)
    ensures IsDataEvent(DataLine(c))
  {
    var w := DataLine(c);
    var payload := JsonText(c);
    if !c.Undefined? {
      StringifySingleLine(c);
    }
    assert w == "data: " + payload + "\n\n";
    assert w[6..|w| - 2] == payload;
  }

  /** An `event:` line. */
  predicate IsEventLine(w: string) {
    |w| >= 7 && w[..7] == "event: "
  }

  /** The frames of one chunk: nothing, or a data event, preceded by an event
      line exactly for a Claude client. */
  lemma StepFramesShape(e: Engine, r: Route, c: JsValue)
    ensures var w := StepFrames(e, r, c);
      && |w| == (if w == [] then 0 else if AddEvent(r) then 2 else 1)
      && (w != [] ==> IsDataEvent(w[|w| - 1]))
      && (w != [] && AddEvent(r) ==> IsEventLine(w[0]))
  {
    var s := StepChunk(e, r, c);
    if s.outcome.Ok? && s.outcome.value.Some? {
      var sent := s.outcome.value.value;
      DataLineIsEvent(sent);
      assert EventLine(sent) == "event: " + JsToString(Member(sent, "type")) + "\n";
    }
  }

  /** Without a Claude client, every frame written is a well-formed data event. */
  lemma FramesAllData(e: Engine, r: Route, chunks: seq<JsValue>)
    requires !AddEvent(r)
    ensures forall i :: 0 <= i < |Frames(e, r, chunks)| ==> IsDataEvent(Frames(e, r, chunks)[i])
  {
    forall i, j | 0 <= i < |chunks| && 0 <= j < |FramesOf(e, r)(chunks[i])|
      ensures IsDataEvent(FramesOf(e, r)(chunks[i])[j])
    {
      StepFramesShape(e, r, chunks[i]);
    }
    ConcatMapAll(FramesOf(e, r), chunks, IsDataEvent);
  }

  /** A Claude client gets, per sent chunk, an `event:` line followed by a data event. */
  lemma FramesPaired(e: Engine, r: Route, chunks: seq<JsValue>)
    requires AddEvent(r)
    ensures |Frames(e, r, chunks)| % 2 == 0
    ensures forall i :: 0 <= i < |Frames(e, r, chunks)| / 2 ==>
      IsEventLine(Frames(e, r, chunks)[2 * i]) && IsDataEvent(Frames(e, r, chunks)[2 * i + 1])
  {
    forall i | 0 <= i < |chunks|
      ensures var w := FramesOf(e, r)(chunks[i]);
        w == [] || (|w| == 2 && IsEventLine(w[0]) && IsDataEvent(w[1]))
    {
      StepFramesShape(e, r, chunks[i]);
    }
    ConcatMapPairs(FramesOf(e, r), chunks, IsEventLine, IsDataEvent);
  }

  /** How the streamed body ends after the relayed frames: the error JSON after
      a failure of the loop; otherwise, when an OpenAI client was served by
      another family, the stop chunk, or the error JSON if building it failed;
      otherwise nothing. */
  lemma StreamBodyEnding(e: Engine, r: Route, s: NativeStream)
    ensures var p := Outcome(e, r, s);
      var stop := e.openAIStreamChunkStop(r.model);
      && (p.failure.Some? ==> StreamBody(e, r, s) == p.writes + [Stringify(StreamErrorPayload(p.failure.value))])
      && (p.failure.None? && StopDue(r) && stop.Ok? ==> StreamBody(e, r, s) == p.writes + [DataLine(stop.value)])
      && (p.failure.None? && StopDue(r) && stop.Err? ==> StreamBody(e, r, s) == p.writes + [Stringify(StreamErrorPayload(stop.error))])
      && (p.failure.None? && !StopDue(r) ==> StreamBody(e, r, s) == p.writes)
  {
  }

  /** A stream between providers of one family forwards each truthy native
      chunk unchanged and skips the falsy ones. */
  lemma SameFamilyForwardsNativeChunks(e: Engine, r: Route, c: JsValue)
    requires !NeedsConversion(r.fromProvider, r.toProvider)
    requires ExtractResponseText(e, c, r.toProvider).Ok?
    ensures StepChunk(e, r, c).outcome == Ok(if Truthy(c) then Some(c) else None)
  {
  }

  /** Across families the chunk sent is `convertData`'s stream-chunk conversion
      of the extracted text, not the native chunk, when that is truthy; a
      failed conversion stops the loop, after the text was taken. */
  lemma CrossFamilySendsConvertedText(e: Engine, r: Route, c: JsValue)
    requires NeedsConversion(r.fromProvider, r.toProvider)
    requires ExtractResponseText(e, c, r.toProvider).Ok?
    ensures var text := ExtractResponseText(e, c, r.toProvider).value;
      var conv := e.convertData(text, StreamChunkKind, r.toProvider, r.fromProvider, r.model);
      && StepChunk(e, r, c).piece == TextPiece(text)
      && (conv.Err? ==> StepChunk(e, r, c).outcome == Err(conv.error))
      && (conv.Ok? ==> StepChunk(e, r, c).outcome == Ok(if Truthy(conv.value) then Some(conv.value) else None))
  {
  }

  /** The error JSON names the failure and is a single line. */
  lemma StreamErrorPayloadShape(f: Failure)
    ensures Member(Member(StreamErrorPayload(f), "error"), "details") == Str(f.message)
    ensures Member(Member(StreamErrorPayload(f), "error"), "message") == Str(STREAM_ERROR_MESSAGE)
    ensures SingleLine(Stringify(StreamErrorPayload(f)))
  {
    StringifySingleLine(StreamErrorPayload(f));
    var inner := [("message", Str(STREAM_ERROR_MESSAGE)), ("details", Str(f.message))];
    assert "message" != "details" by { assert "message"[0] != "details"[0]; }
    assert Member(StreamErrorPayload(f), "error") == Obj(inner);
    assert Lookup(inner[1..], "details") == Str(f.message);
  }

  // ---------------------------------------------------------------------------
  // The handler

  /** One pass of the `for await` body: the chunk is converted, and a truthy
      result is written as an `event:` line (Claude clients) and a `data:` line. */
  method RelayChunk(res: Response, e: Engine, r: Route, nativeChunk: JsValue)
    returns (piece: string, sent: Result<Option<JsValue>, Failure>)
    requires res.headersSent && !res.ended
    modifies res
    ensures ChunkStep(piece, sent) == StepChunk(e, r, nativeChunk)
    ensures res.writes == old(res.writes) + StepFrames(e, r, nativeChunk)
    ensures res.headersSent && res.statusCode == old(res.statusCode) && !res.ended
  {
    var step := StepChunk(e, r, nativeChunk);
    piece, sent := step.piece, step.outcome;
    if sent.Ok? && sent.value.Some? {
      var chunkToSend := sent.value.value;
      if ProtocolPrefix(r.fromProvider) == CLAUDE {
        res.Write(EventLine(chunkToSend));
      }
      res.Write(DataLine(chunkToSend));
    }
  }

  /** The `for await` loop of handleStreamRequest over the chunks the stream
      yields: writes the frames of each sent chunk and accumulates the text,
      stopping at the first failure. */
  method RelayChunks(res: Response, e: Engine, r: Route, chunks: seq<JsValue>)
    returns (fullResponseText: string, failure: Option<Failure>)
    requires res.headersSent && !res.ended
    modifies res
    ensures var p := Consume(e, r, chunks);
      && res.writes == old(res.writes) + p.writes
      && fullResponseText == p.text && failure == p.failure
    ensures res.headersSent && res.statusCode == old(res.statusCode) && !res.ended
  {
    fullResponseText := "";
    failure := None;
    var i := 0;
    ghost var start := res.writes;
    while i < |chunks| && failure.None?
      invariant 0 <= i <= |chunks|
      invariant res.headersSent && res.statusCode == old(res.statusCode) && !res.ended
      invariant var p := Consume(e, r, chunks[..i]);
        res.writes == start + p.writes && fullResponseText == p.text && failure == p.failure
    {
      ConsumeOneMore(e, r, chunks, i);
      var piece, sent := RelayChunk(res, e, r, chunks[i]);
      AppendAssociative(start, Consume(e, r, chunks[..i]).writes, StepFrames(e, r, chunks[i]));
      fullResponseText := fullResponseText + piece;
      if sent.Err? {
        failure := Some(sent.error);
      }
      i := i + 1;
    }
    if failure.Some? {
      ConsumeAfterFailure(e, r, chunks, i, |chunks|);
    }
    assert chunks[..|chunks|] == chunks;
  }

  /** The end of handleStreamRequest's try, catch and finally blocks once the
      loop is over: the stop chunk is written when due; after a failure of the
      loop or of the stop chunk the provider is marked unhealthy and the
      response ended with the error JSON; otherwise the response is ended. */
  method CloseStream(res: Response, e: Engine, r: Route, failure: Option<Failure>,
                     pool: Option<ProviderPoolManager>, poolUuid: string)
    requires res.headersSent && !res.ended
    modifies res, PoolObjects(pool)
    ensures res.writes == old(res.writes) + Closing(e, r, failure)
    ensures res.headersSent && res.statusCode == old(res.statusCode) && res.ended
    ensures pool.Some? ==>
      pool.value.unhealthyMarks == old(pool.value.unhealthyMarks) +
        (if CaughtFailure(e, r, failure).Some? then [(r.toProvider, poolUuid)] else [])
  {
    var needsConversion := ProtocolPrefix(r.fromProvider) != ProtocolPrefix(r.toProvider);
    var openStop := ProtocolPrefix(r.fromProvider) == OPENAI;
    var responseClosed := false;
    var caught := failure;
    if caught.None? && openStop && needsConversion {
      var stop := e.openAIStreamChunkStop(r.model);
      if stop.Ok? {
        res.Write(DataLine(stop.value));
      } else {
        caught := Some(stop.error);
      }
    }
    if caught.Some? {
      if pool.Some? {
        pool.value.MarkProviderUnhealthy(r.toProvider, poolUuid);
      }
      if !res.ended {
        res.End(Some(Stringify(StreamErrorPayload(caught.value))));
        responseClosed := true;
      }
    }
    if !responseClosed {
      res.End(None);
    }
  }

  /** What handleStreamRequest does.  Opening the stream happens before the
      try block, so its failure is rethrown with the status line written, the
      response still open and no provider marked.  Any failure inside the loop
      marks the provider unhealthy and ends the response with the error JSON,
      and is not rethrown; so does a failure to build the closing stop chunk.
      The accumulated text is logged whenever the finally block runs. */
  function StreamHandling(service: Service, e: Engine, r: Route, requestBody: JsValue,
                          logMode: string, poolUuid: string): Handled {
    match service.generateContentStream(r.model, requestBody)
    case Err(f) => Handled(Effects(Some(200), [], false, [], []), Some(f))
    case Ok(s) =>
      var p := Outcome(e, r, s);
      Handled(Effects(Some(200), StreamBody(e, r, s), true,
                      if CaughtFailure(e, r, p.failure).Some? then [(r.toProvider, poolUuid)] else [],
                      EntriesFor(Output, Str(p.text), logMode)),
              None)
  }

  /** handleStreamRequest */
  method HandleStreamRequest(res: Response, service: Service, e: Engine, r: Route, requestBody: JsValue,
                             logMode: string, pool: Option<ProviderPoolManager>, poolUuid: string, log: PromptLog)
    returns (thrown: Option<Failure>)
    requires !res.headersSent && !res.ended
    modifies res, log, PoolObjects(pool)
    ensures var h := StreamHandling(service, e, r, requestBody, logMode, poolUuid);
      thrown == h.thrown && Applied(res, pool, log, h.effects)
  {
    res.WriteHead(200);
    var started := service.generateContentStream(r.model, requestBody);
    if started.Err? {
      return Some(started.error);
    }
    var stream := started.value;

    var fullResponseText, failure := RelayChunks(res, e, r, stream.chunks);
    if failure.None? && stream.failure.Some? {
      failure := stream.failure;
    }
    ghost var p := Outcome(e, r, stream);
    assert fullResponseText == p.text && failure == p.failure;
    assert res.writes == old(res.writes) + p.writes;

    CloseStream(res, e, r, failure, pool, poolUuid);
    assert res.writes == old(res.writes) + StreamBody(e, r, stream);
    log.LogConversation(Output, Str(fullResponseText), logMode);
    return None;
  }
}
