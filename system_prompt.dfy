/** extractSystemPromptFromRequestBody: the system prompt text of a request,
    read the way each protocol family carries it, with a fallback to the first
    user turn.  JavaScript's own failures on malformed bodies (a property read
    on `null`, a `find` or `filter` on a non-array) are the `Err` results. */
module SystemPrompt {
  import opened Wrappers
  import opened JsValues
  import opened Protocol
  import opened Errors
  import opened Sequences

  /** `m.role === role` for an element `m` that is not `null`/`undefined`. */
  predicate HasRole(m: JsValue, role: string) {
    Member(m, "role") == Str(role)
  }

  predicate Nullish(v: JsValue) {
    v.Undefined? || v.Null?
  }

  /** `find` reaches a `null`/`undefined` element before any element with the role. */
  predicate FindThrows(items: seq<JsValue>, role: string) {
    exists j :: 0 <= j < |items| && Nullish(items[j]) && forall k :: 0 <= k < j ==> !HasRole(items[k], role)
  }

  /** `items[j]` is the first element with the role. */
  predicate FirstWithRole(items: seq<JsValue>, role: string, j: int) {
    0 <= j < |items| && HasRole(items[j], role) && forall k :: 0 <= k < j ==> !HasRole(items[k], role)
  }

  /** Past a head element that neither throws nor matches, `find` sees only the tail. */
  lemma FindThrowsTail(items: seq<JsValue>, role: string)
    requires items != [] && !Nullish(items[0]) && !HasRole(items[0], role)
    ensures FindThrows(items, role) <==> FindThrows(items[1..], role)
  {
    var tail := items[1..];
    if FindThrows(items, role) {
      var j :| 0 <= j < |items| && Nullish(items[j]) && forall k :: 0 <= k < j ==> !HasRole(items[k], role);
      assert tail[j - 1] == items[j];
      assert forall k :: 0 <= k < j - 1 ==> tail[k] == items[k + 1];
    }
    if FindThrows(tail, role) {
      var j :| 0 <= j < |tail| && Nullish(tail[j]) && forall k :: 0 <= k < j ==> !HasRole(tail[k], role);
      assert items[j + 1] == tail[j];
      forall k | 0 <= k < j + 1 ensures !HasRole(items[k], role) {
        if k > 0 {
          assert items[k] == tail[k - 1];
        }
      }
    }
  }

  /** The first match in the tail, past a head that does not match, is the first match overall. */
  lemma FirstWithRoleTail(items: seq<JsValue>, role: string, j: int)
    requires items != [] && !HasRole(items[0], role)
    requires FirstWithRole(items[1..], role, j)
    ensures FirstWithRole(items, role, j + 1) && items[j + 1] == items[1..][j]
  {
    forall k | 0 <= k < j + 1 ensures !HasRole(items[k], role) {
      if k > 0 {
        assert items[k] == items[1..][k - 1];
      }
    }
  }

  /** No match in the tail, past a head that does not match, is no match at all. */
  lemma NoneWithRoleTail(items: seq<JsValue>, role: string)
    requires items != [] && !HasRole(items[0], role)
    requires forall k :: 0 <= k < |items[1..]| ==> !HasRole(items[1..][k], role)
    ensures forall k :: 0 <= k < |items| ==> !HasRole(items[k], role)
  {
    forall k | 0 <= k < |items| ensures !HasRole(items[k], role) {
      if k > 0 {
        assert items[k] == items[1..][k - 1];
      }
    }
  }

  /** `items.find(m => m.role === role)`: the first element with that role;
      the callback throws on a `null`/`undefined` element it reaches first. */
  function FindByRole(items: seq<JsValue>, role: string): (r: Result<Option<JsValue>, Failure>)
    ensures r.Err? <==> FindThrows(items, role)
    ensures r.Ok? && r.value.Some? ==> exists j :: FirstWithRole(items, role, j) && items[j] == r.value.value
    ensures r.Ok? && r.value.None? ==> forall k :: 0 <= k < |items| ==> !HasRole(items[k], role)
  {
    if items == [] then Ok(None)
    else if Nullish(items[0]) then
      assert FindThrows(items, role) by { assert Nullish(items[0]); }
      Err(TypeError("Cannot read properties of " + JsToString(items[0]) + " (reading 'role')"))
    else if HasRole(items[0], role) then
      assert FirstWithRole(items, role, 0);
      Ok(Some(items[0]))
    else
      var rest := FindByRole(items[1..], role);
      FindThrowsTail(items, role);
      if rest.Ok? && rest.value.Some? then
        var j :| FirstWithRole(items[1..], role, j) && items[1..][j] == rest.value.value;
        FirstWithRoleTail(items, role, j);
        rest
      else
        if rest.Ok? then
          NoneWithRoleTail(items, role);
          rest
        else rest
  }

  /** `list?.find(m => m.role === role)`: `undefined` for a missing list; only an
      array has a `find` method. */
  function OptionalFind(list: JsValue, role: string): Result<Option<JsValue>, Failure> {
    if Nullish(list) then Ok(None)
    else if list.Arr? then FindByRole(list.items, role)
    else Err(TypeError("find is not a function"))
  }

  /** `v?.length > 0` for the values a request body holds: arrays and strings
      by their length, an object by a numeric `length` member. */
  predicate LengthPositive(v: JsValue) {
    match v
    case Arr(items) => |items| > 0
    case Str(s) => |s| > 0
    case Obj(_) => Member(v, "length").Num? && Member(v, "length").n > 0
    case _ => false
  }

  /** `v[0]` */
  function First(v: JsValue): JsValue {
    match v
    case Arr(items) => if |items| > 0 then items[0] else Undefined
    case Str(s) => if |s| > 0 then Str([s[0]]) else Undefined
    case Obj(_) => Member(v, "0")
    case _ => Undefined
  }

  /** `Array.prototype.join(sep)`: `null` and `undefined` print as empty text. */
  function JoinValues(values: seq<JsValue>, sep: string): string {
    if values == [] then ""
    else
      var head := if Nullish(values[0]) then "" else JsToString(values[0]);
      if |values| == 1 then head else head + sep + JoinValues(values[1..], sep)
  }

  /** `parts.filter(p => p?.text).map(p => p.text)` */
  function TruthyTexts(parts: seq<JsValue>): (r: seq<JsValue>)
    ensures |r| <= |parts|
    ensures forall i :: 0 <= i < |r| ==> Truthy(r[i])
  {
    if parts == [] then []
    else
      var text := Member(parts[0], "text");
      (if Truthy(text) then [text] else []) + TruthyTexts(parts[1..])
  }

  /** `filter` then `map` is the whole definition: no part gives nothing, one
      part gives its text exactly when that text is truthy, and a concatenation
      of parts gives the concatenation of their texts. */
  lemma {:induction false} TruthyTextsFilter(parts: seq<JsValue>, more: seq<JsValue>)
    ensures TruthyTexts([]) == []
    ensures |parts| == 1 ==>
      TruthyTexts(parts) == if Truthy(Member(parts[0], "text")) then [Member(parts[0], "text")] else []
    ensures TruthyTexts(parts + more) == TruthyTexts(parts) + TruthyTexts(more)
  {
    if parts == [] {
      assert parts + more == more;
    } else {
      assert (parts + more)[1..] == parts[1..] + more;
      TruthyTextsFilter(parts[1..], more);
      var head := Member(parts[0], "text");
      AppendAssociative(if Truthy(head) then [head] else [], TruthyTexts(parts[1..]), TruthyTexts(more));
    }
  }

  /** The text of a truthy `parts` value: an array's truthy texts joined by
      newlines; anything else has no `filter` method. */
  function PartsText(parts: JsValue): Result<JsValue, Failure> {
    if parts.Arr? then Ok(Str(JoinValues(TruthyTexts(parts.items), "\n")))
    else Err(TypeError("parts.filter is not a function"))
  }

  /** `content.map(block => block.text)`, which throws on a `null`/`undefined` block. */
  function BlockTexts(blocks: seq<JsValue>): (r: Result<seq<JsValue>, Failure>)
    ensures r.Err? <==> exists i :: 0 <= i < |blocks| && Nullish(blocks[i])
    ensures r.Ok? ==> |r.value| == |blocks| && forall i :: 0 <= i < |blocks| ==> r.value[i] == Member(blocks[i], "text")
  {
    if blocks == [] then Ok([])
    else if Nullish(blocks[0]) then Err(TypeError("Cannot read properties of " + JsToString(blocks[0]) + " (reading 'text')"))
    else
      match BlockTexts(blocks[1..])
      case Err(f) =>
        var i :| 0 <= i < |blocks[1..]| && Nullish(blocks[1..][i]);
        assert blocks[i + 1] == blocks[1..][i];
        Err(f)
      case Ok(texts) =>
        assert forall i :: 0 <= i < |blocks| && Nullish(blocks[i]) ==> i > 0 && Nullish(blocks[1..][i - 1]);
        Ok([Member(blocks[0], "text")] + texts)
  }

  /** The OpenAI case: the content of the first system message if truthy,
      else of the first user message.  The prompt is always the content of
      some message or empty, and only a `messages` value that is not an array,
      or a `null` message, makes it throw. */
  function OpenAISystemText(requestBody: JsValue): (r: Result<JsValue, Failure>)
    requires !Nullish(requestBody)
    ensures var messages := Member(requestBody, "messages");
      && (r.Ok? && r.value != Str("") ==>
            messages.Arr? && exists k :: 0 <= k < |messages.items| && r.value == Member(messages.items[k], "content"))
      && (r.Err? ==> !Nullish(messages) && (!messages.Arr? || exists k :: 0 <= k < |messages.items| && Nullish(messages.items[k])))
  {
    var messages := Member(requestBody, "messages");
    match OptionalFind(messages, "system")
    case Err(f) => Err(f)
    case Ok(systemMessage) =>
      var content := if systemMessage.Some? then Member(systemMessage.value, "content") else Undefined;
      if Truthy(content) then Ok(content)
      else if messages.Arr? && |messages.items| > 0 then
        match FindByRole(messages.items, "user")
        case Err(f) => Err(f)
        case Ok(None) => Ok(Str(""))
        case Ok(Some(userMessage)) => Ok(Member(userMessage, "content"))
      else Ok(Str(""))
  }

  /** The Gemini case: the texts of the system instruction's parts, else of the
      first entry of `contents`, joined by newlines; always text when it succeeds. */
  function GeminiSystemText(requestBody: JsValue): (r: Result<JsValue, Failure>)
    requires !Nullish(requestBody)
    ensures r.Ok? ==> r.value.Str?
  {
    var snake := Member(requestBody, "system_instruction");
    var instruction := if Truthy(snake) then snake else Member(requestBody, "systemInstruction");
    var parts := Member(instruction, "parts");
    if Truthy(parts) then PartsText(parts)
    else
      var contents := Member(requestBody, "contents");
      if LengthPositive(contents) then
        var userParts := Member(First(contents), "parts");
        if Truthy(userParts) then PartsText(userParts) else Ok(Str(""))
      else Ok(Str(""))
  }

  /** The Claude case: a `system` string, or the JSON of a structured `system`,
      else the first user message's content or its blocks' texts.  A `system`
      property of either kind never throws and always gives text. */
  function ClaudeSystemText(requestBody: JsValue): (r: Result<JsValue, Failure>)
    requires !Nullish(requestBody)
    ensures var system := Member(requestBody, "system");
      system.Str? || system.Obj? || system.Arr? || system.Null? ==> r.Ok? && r.value.Str?
  {
    var system := Member(requestBody, "system");
    if system.Str? then Ok(system)
    else if system.Obj? || system.Arr? || system.Null? then Ok(Str(Stringify(system)))
    else
      var messages := Member(requestBody, "messages");
      if !LengthPositive(messages) then Ok(Str(""))
      else if !messages.Arr? then Err(TypeError("messages.find is not a function"))
      else
        match FindByRole(messages.items, "user")
        case Err(f) => Err(f)
        case Ok(None) => Ok(Str(""))
        case Ok(Some(userMessage)) =>
          var content := Member(userMessage, "content");
          if content.Arr? then
            match BlockTexts(content.items)
            case Err(f) => Err(f)
            case Ok(texts) => Ok(Str(JoinValues(texts, "")))
          else Ok(content)
  }

  /** extractSystemPromptFromRequestBody(requestBody, provider): the switch on
      the protocol family.  An unknown provider yields the empty text without
      reading the body; a `null` or `undefined` body throws for the others. */
  function ExtractSystemPromptFromRequestBody(requestBody: JsValue, provider: string): (r: Result<JsValue, Failure>)
    ensures provider !in {OPENAI, GEMINI, CLAUDE} ==> r == Ok(Str(""))
    ensures provider in {OPENAI, GEMINI, CLAUDE} && Nullish(requestBody) ==> r.Err?
  {
    if provider != OPENAI && provider != GEMINI && provider != CLAUDE then Ok(Str(""))
    else if Nullish(requestBody) then Err(Property(requestBody, if provider == CLAUDE then "system" else if provider == OPENAI then "messages" else "system_instruction").error)
    else if provider == OPENAI then OpenAISystemText(requestBody)
    else if provider == GEMINI then GeminiSystemText(requestBody)
    else ClaudeSystemText(requestBody)
  }

  // ---------------------------------------------------------------------------
  // Properties

  /** A Claude `system` string is the prompt; a structured `system` (object,
      array or `null`) is its JSON text. */
  lemma ClaudeSystemWins(requestBody: JsValue)
    requires requestBody.Obj?
    ensures var system := Lookup(requestBody.fields, "system");
      && (system.Str? ==> ExtractSystemPromptFromRequestBody(requestBody, CLAUDE) == Ok(system))
      && (system.Obj? || system.Arr? || system.Null? ==>
            ExtractSystemPromptFromRequestBody(requestBody, CLAUDE) == Ok(Str(Stringify(system))))
  {
  }

  /** An OpenAI system message with content is the prompt, whatever user
      messages there are, as long as `find` reaches it. */
  lemma OpenAISystemMessageWins(requestBody: JsValue, j: nat)
    requires requestBody.Obj? && Lookup(requestBody.fields, "messages").Arr?
    requires var items := Lookup(requestBody.fields, "messages").items;
      && j < |items| && HasRole(items[j], "system") && Truthy(Member(items[j], "content"))
      && forall k :: 0 <= k < j ==> !Nullish(items[k]) && !HasRole(items[k], "system")
    ensures var items := Lookup(requestBody.fields, "messages").items;
      ExtractSystemPromptFromRequestBody(requestBody, OPENAI) == Ok(Member(items[j], "content"))
  {
    var items := Lookup(requestBody.fields, "messages").items;
    var r := FindByRole(items, "system");
    assert r.Ok? && r.value.Some?;
    var i :| FirstWithRole(items, "system", i) && items[i] == r.value.value;
    assert i == j;
  }

  /** Parts without a truthy `text` contribute nothing to the Gemini prompt. */
  lemma {:induction false} TextlessPartsIgnored(parts: seq<JsValue>, more: seq<JsValue>)
    requires forall i :: 0 <= i < |more| ==> !Truthy(Member(more[i], "text"))
    ensures TruthyTexts(parts + more) == TruthyTexts(parts)
    ensures TruthyTexts(more) == []
    decreases |parts| + |more|
  {
    if more != [] {
      TextlessPartsIgnored([], more[1..]) by {
        forall i | 0 <= i < |more[1..]| ensures !Truthy(Member(more[1..][i], "text")) {
          assert more[1..][i] == more[i + 1];
        }
      }
      assert TruthyTexts(more) == TruthyTexts(more[1..]);
    }
    if parts == [] {
      assert parts + more == more;
    } else {
      assert (parts + more)[1..] == parts[1..] + more;
      TextlessPartsIgnored(parts[1..], more);
    }
  }

  /** Without an OpenAI system message, the prompt falls back to the content of
      the first user message, and is empty when there is none. */
  lemma OpenAIFallsBackToFirstUserMessage(requestBody: JsValue)
    requires requestBody.Obj? && Lookup(requestBody.fields, "messages").Arr?
    requires var items := Lookup(requestBody.fields, "messages").items;
      forall k :: 0 <= k < |items| ==> !Nullish(items[k]) && !HasRole(items[k], "system")
    ensures var items := Lookup(requestBody.fields, "messages").items;
      && (forall j :: FirstWithRole(items, "user", j) ==>
            ExtractSystemPromptFromRequestBody(requestBody, OPENAI) == Ok(Member(items[j], "content")))
      && ((forall k :: 0 <= k < |items| ==> !HasRole(items[k], "user")) ==>
            ExtractSystemPromptFromRequestBody(requestBody, OPENAI) == Ok(Str("")))
  {
    var items := Lookup(requestBody.fields, "messages").items;
    assert !FindThrows(items, "system");
    assert !FindThrows(items, "user");
    forall j | FirstWithRole(items, "user", j)
      ensures ExtractSystemPromptFromRequestBody(requestBody, OPENAI) == Ok(Member(items[j], "content"))
    {
      var r := FindByRole(items, "user");
      assert r.Ok? && r.value.Some?;
      var i :| FirstWithRole(items, "user", i) && items[i] == r.value.value;
      assert i == j;
    }
  }

  /** Without system-instruction parts, the Gemini prompt falls back to the
      texts of the first entry of `contents`, and is empty when it has no parts. */
  lemma GeminiFallsBackToFirstContent(requestBody: JsValue)
    requires requestBody.Obj?
    requires !Truthy(Member(Lookup(requestBody.fields, "system_instruction"), "parts"))
    requires !Truthy(Member(Lookup(requestBody.fields, "systemInstruction"), "parts"))
    requires Lookup(requestBody.fields, "contents").Arr? && |Lookup(requestBody.fields, "contents").items| > 0
    ensures var userParts := Member(Lookup(requestBody.fields, "contents").items[0], "parts");
      ExtractSystemPromptFromRequestBody(requestBody, GEMINI) ==
        if Truthy(userParts) then PartsText(userParts) else Ok(Str(""))
  {
  }

  /** When `system` is neither a string nor of type "object" (missing, a number
      or a boolean), the prompt falls back to the first user message: its
      content as it is, or the texts of its blocks run together when the
      content is an array of blocks. */
  lemma ClaudeFallsBackToFirstUserMessage(requestBody: JsValue, j: nat)
    requires requestBody.Obj?
    requires var system := Lookup(requestBody.fields, "system");
      !(system.Str? || system.Obj? || system.Arr? || system.Null?)
    requires Lookup(requestBody.fields, "messages").Arr?
    requires var items := Lookup(requestBody.fields, "messages").items;
      FirstWithRole(items, "user", j) && forall k :: 0 <= k < j ==> !Nullish(items[k])
    ensures var content := Member(Lookup(requestBody.fields, "messages").items[j], "content");
      && (!content.Arr? ==> ExtractSystemPromptFromRequestBody(requestBody, CLAUDE) == Ok(content))
      && (content.Arr? && (forall i :: 0 <= i < |content.items| ==> !Nullish(content.items[i])) ==>
            ExtractSystemPromptFromRequestBody(requestBody, CLAUDE) ==
              Ok(Str(JoinValues(seq(|content.items|, i requires 0 <= i < |content.items| => Member(content.items[i], "text")), ""))))
  {
    var items := Lookup(requestBody.fields, "messages").items;
    assert ExtractSystemPromptFromRequestBody(requestBody, CLAUDE) == ClaudeSystemText(requestBody);
    assert !FindThrows(items, "user");
    var r := FindByRole(items, "user");
    assert r.Ok? && r.value.Some?;
    var i :| FirstWithRole(items, "user", i) && items[i] == r.value.value;
    assert i == j;
    var content := Member(items[j], "content");
    if content.Arr? && forall i :: 0 <= i < |content.items| ==> !Nullish(content.items[i]) {
      var texts := BlockTexts(content.items);
      assert texts.Ok?;
      assert texts.value == seq(|content.items|, i requires 0 <= i < |content.items| => Member(content.items[i], "text"));
    }
  }

  /** The Gemini snake-case `system_instruction` takes precedence over `systemInstruction`. */
  lemma GeminiSnakeCaseWins(requestBody: JsValue)
    requires requestBody.Obj?
    requires Truthy(Lookup(requestBody.fields, "system_instruction"))
    requires Truthy(Member(Lookup(requestBody.fields, "system_instruction"), "parts"))
    ensures ExtractSystemPromptFromRequestBody(requestBody, GEMINI) ==
      PartsText(Member(Lookup(requestBody.fields, "system_instruction"), "parts"))
  {
  }

  /** Without a truthy snake-case `system_instruction`, a camel-case
      `systemInstruction` with parts gives the prompt. */
  lemma GeminiCamelCaseInstruction(requestBody: JsValue)
    requires requestBody.Obj?
    requires !Truthy(Lookup(requestBody.fields, "system_instruction"))
    requires Truthy(Member(Lookup(requestBody.fields, "systemInstruction"), "parts"))
    ensures ExtractSystemPromptFromRequestBody(requestBody, GEMINI) ==
      PartsText(Member(Lookup(requestBody.fields, "systemInstruction"), "parts"))
  {
  }

  /** A truthy `system_instruction` without parts hides `systemInstruction`
      altogether: the prompt falls back to the first entry of `contents`, even
      when the camel-case instruction has parts. */
  lemma GeminiPartlessSnakeCaseHidesCamelCase(requestBody: JsValue)
    requires requestBody.Obj?
    requires Truthy(Lookup(requestBody.fields, "system_instruction"))
    requires !Truthy(Member(Lookup(requestBody.fields, "system_instruction"), "parts"))
    requires Lookup(requestBody.fields, "contents").Arr? && |Lookup(requestBody.fields, "contents").items| > 0
    ensures var userParts := Member(Lookup(requestBody.fields, "contents").items[0], "parts");
      ExtractSystemPromptFromRequestBody(requestBody, GEMINI) ==
        if Truthy(userParts) then PartsText(userParts) else Ok(Str(""))
  {
  }

  /** The first OpenAI system message wins even when its content is falsy: a
      later system message is never consulted, and the prompt falls back to
      the content of the first user message. */
  lemma OpenAIFalsySystemContentFallsBack(requestBody: JsValue, s: nat, j: nat)
    requires requestBody.Obj? && Lookup(requestBody.fields, "messages").Arr?
    requires var items := Lookup(requestBody.fields, "messages").items;
      && FirstWithRole(items, "system", s) && !Truthy(Member(items[s], "content"))
      && (forall k :: 0 <= k < s ==> !Nullish(items[k]))
      && FirstWithRole(items, "user", j) && (forall k :: 0 <= k < j ==> !Nullish(items[k]))
    ensures var items := Lookup(requestBody.fields, "messages").items;
      ExtractSystemPromptFromRequestBody(requestBody, OPENAI) == Ok(Member(items[j], "content"))
  {
    var items := Lookup(requestBody.fields, "messages").items;
    FindReachesFirst(items, "system", s);
    FindReachesFirst(items, "user", j);
  }

  /** `find` returns the first element with the role when no nullish element comes before it. */
  lemma FindReachesFirst(items: seq<JsValue>, role: string, j: nat)
    requires FirstWithRole(items, role, j) && forall k :: 0 <= k < j ==> !Nullish(items[k])
    ensures FindByRole(items, role) == Ok(Some(items[j]))
  {
    assert !FindThrows(items, role);
    var r := FindByRole(items, role);
    var i :| FirstWithRole(items, role, i) && items[i] == r.value.value;
    assert i == j;
  }
}
