/** The stateful collaborators a request handler writes to: the HTTP response,
    the provider pool's health registry and the prompt log. */
module Sink {
  import opened Wrappers
  import opened JsValues

  /** An HTTP `ServerResponse`: the status line once written, the body text in
      the order it was written, and whether `end()` has been called.  Header
      fields other than the status code are not modelled. */
  class Response {
    var headersSent: bool
    var statusCode: int
    var writes: seq<string>
    var ended: bool

    constructor ()
      ensures !headersSent && statusCode == 200 && writes == [] && !ended
    {
      headersSent, statusCode, writes, ended := false, 200, [], false;
    }

    /** `res.writeHead(code, ...)`: the status line may be written only once. */
    method WriteHead(code: int)
      requires !headersSent
      modifies this
      ensures headersSent && statusCode == code
      ensures writes == old(writes) && ended == old(ended)
    {
      headersSent, statusCode := true, code;
    }

    /** `res.write(text)`: appends body text; not allowed once the response has ended. */
    method Write(text: string)
      requires !ended
      modifies this
      ensures writes == old(writes) + [text]
      ensures headersSent && statusCode == old(statusCode) && !ended
    {
      headersSent := true;
      writes := writes + [text];
    }

    /** `res.end(data)`: appends the final text, if any, and closes the response. */
    method End(data: Option<string>)
      requires !ended
      modifies this
      ensures writes == old(writes) + (if data.Some? then [data.value] else [])
      ensures headersSent && statusCode == old(statusCode) && ended
    {
      headersSent := true;
      if data.Some? {
        writes := writes + [data.value];
      }
      ended := true;
    }
  }

  /** The provider pool's health registry, seen only through `markProviderUnhealthy`:
      every call is recorded as (provider type, pool entry uuid), in call order. */
  class ProviderPoolManager {
    var unhealthyMarks: seq<(string, string)>

    constructor ()
      ensures unhealthyMarks == []
    {
      unhealthyMarks := [];
    }

    method MarkProviderUnhealthy(provider: string, uuid: string)
      modifies this
      ensures unhealthyMarks == old(unhealthyMarks) + [(provider, uuid)]
    {
      unhealthyMarks := unhealthyMarks + [(provider, uuid)];
    }
  }

  /** The objects a handler may change in the pool: none when it runs without a pool. */
  function PoolObjects(pool: Option<ProviderPoolManager>): set<object> {
    if pool.Some? then {pool.value} else {}
  }

  datatype Direction = Input | Output

  /** The label a log entry carries (`type.toUpperCase()`). */
  function DirectionLabel(d: Direction): string {
    match d
    case Input => "INPUT"
    case Output => "OUTPUT"
  }

  datatype Destination = Console | File

  /** One conversation log entry; its timestamp is not modelled. */
  datatype LogEntry = LogEntry(direction: Direction, text: string, destination: Destination)

  /** logConversation's rule: mode `none` and empty content write nothing, mode
      `console` and mode `file` write the content as text, any other mode writes nothing. */
  function LogEntryFor(direction: Direction, content: JsValue, logMode: string): (r: Option<LogEntry>)
    ensures r.Some? <==> Truthy(content) && (logMode == "console" || logMode == "file")
    ensures logMode == "none" ==> r.None?
    ensures r.Some? ==> r.value.direction == direction && r.value.text == JsToString(content)
    ensures r.Some? ==> (r.value.destination == File <==> logMode == "file")
  {
    if logMode == "none" then None
    else if !Truthy(content) then None
    else if logMode == "console" then Some(LogEntry(direction, JsToString(content), Console))
    else if logMode == "file" then Some(LogEntry(direction, JsToString(content), File))
    else None
  }

  function EntriesFor(direction: Direction, content: JsValue, logMode: string): seq<LogEntry> {
    var e := LogEntryFor(direction, content, logMode);
    if e.Some? then [e.value] else []
  }

  /** The conversation log (console or file); a failed file append is reported
      on the console and otherwise ignored, which is not modelled. */
  class PromptLog {
    var entries: seq<LogEntry>

    constructor ()
      ensures entries == []
    {
      entries := [];
    }

    /** logConversation(type, content, logMode, logFilename) */
    method LogConversation(direction: Direction, content: JsValue, logMode: string)
      modifies this
      ensures entries == old(entries) + EntriesFor(direction, content, logMode)
    {
      var e := LogEntryFor(direction, content, logMode);
      if e.Some? {
        entries := entries + [e.value];
      }
    }
  }

  /** What handling a request does to the collaborators: the status line
      written (if any), the body text appended, whether the response was ended,
      the unhealthy marks recorded (when a pool is in use) and the log entries. */
  datatype Effects = Effects(
    status: Option<int>,
    writes: seq<string>,
    ended: bool,
    marks: seq<(string, string)>,
    logs: seq<LogEntry>)

  /** The collaborators changed from their old state by exactly `eff`. */
  twostate predicate Applied(res: Response, pool: Option<ProviderPoolManager>, log: PromptLog, eff: Effects)
    reads res, log, PoolObjects(pool)
  {
    && (if eff.status.Some? then res.headersSent && res.statusCode == eff.status.value
        else res.headersSent == old(res.headersSent) && res.statusCode == old(res.statusCode))
    && res.writes == old(res.writes) + eff.writes
    && res.ended == (old(res.ended) || eff.ended)
    && log.entries == old(log.entries) + eff.logs
    && (pool.Some? ==> pool.value.unhealthyMarks == old(pool.value.unhealthyMarks) + eff.marks)
  }
}
