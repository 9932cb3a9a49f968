/** ensureRolesInContents: normalises a Gemini `generateContent` request body in
    place before it is sent on.  The snake-case `system_instruction` key is
    renamed to `systemInstruction`, and the system instruction and every entry
    of `contents` that has no role get the role `user`. */
module GeminiRoles {
  import opened Wrappers
  import opened JsValues

  /** One Gemini `Content` object: its `role` (`None` when the key is absent or null) and its `parts`. */
  datatype Content = Content(role: Option<string>, parts: seq<JsValue>)

  const USER: string := "user"

  /** `content.role` is truthy: present and not the empty string. */
  predicate HasRole(c: Content) {
    c.role.Some? && c.role.value != ""
  }

  /** The effect of `if (!content.role) content.role = "user"` on one content object. */
  function WithDefaultRole(c: Content): Content {
    if HasRole(c) then c else c.(role := Some(USER))
  }

  /** The `contents` array after the `forEach` that fills in roles. */
  function DefaultRoles(contents: seq<Content>): seq<Content> {
    if contents == [] then [] else [WithDefaultRole(contents[0])] + DefaultRoles(contents[1..])
  }

  /** The system instruction after the rename and the role default: the snake-case
      value wins when present, else the camel-case one. */
  function NormalizedSystemInstruction(snake: Option<Content>, camel: Option<Content>): Option<Content> {
    var chosen := if snake.Some? then snake else camel;
    if chosen.Some? then Some(WithDefaultRole(chosen.value)) else None
  }

  /** Entry `i` of the normalised array is entry `i` of the input with its role defaulted. */
  lemma {:induction false} DefaultRolesAt(contents: seq<Content>)
    ensures |DefaultRoles(contents)| == |contents|
    ensures forall i :: 0 <= i < |contents| ==> DefaultRoles(contents)[i] == WithDefaultRole(contents[i])
  {
    if contents != [] {
      DefaultRolesAt(contents[1..]);
      forall i | 1 <= i < |contents|
        ensures DefaultRoles(contents)[i] == WithDefaultRole(contents[i])
      {
        assert DefaultRoles(contents)[i] == DefaultRoles(contents[1..])[i - 1];
      }
    }
  }

  /** After normalisation: as many entries in the same order, every entry has a
      role, roles that were already set are untouched, and so are all parts. */
  lemma DefaultRolesProperties(contents: seq<Content>)
    ensures |DefaultRoles(contents)| == |contents|
    ensures forall i :: 0 <= i < |contents| ==> HasRole(DefaultRoles(contents)[i])
    ensures forall i :: 0 <= i < |contents| ==> DefaultRoles(contents)[i].parts == contents[i].parts
    ensures forall i :: 0 <= i < |contents| && HasRole(contents[i]) ==> DefaultRoles(contents)[i] == contents[i]
    ensures forall i :: 0 <= i < |contents| && !HasRole(contents[i]) ==> DefaultRoles(contents)[i].role == Some(USER)
  {
    DefaultRolesAt(contents);
  }

  /** Normalising an already normalised array changes nothing. */
  lemma DefaultRolesIdempotent(contents: seq<Content>)
    ensures DefaultRoles(DefaultRoles(contents)) == DefaultRoles(contents)
  {
    DefaultRolesAt(contents);
    DefaultRolesAt(DefaultRoles(contents));
  }

  /** The system instruction survives the rename with a role, keeping an existing
      role and its parts and taking the role `user` when it had none; it is
      absent only if both keys were. */
  lemma NormalizedSystemInstructionProperties(snake: Option<Content>, camel: Option<Content>)
    ensures var r := NormalizedSystemInstruction(snake, camel);
      && (r.Some? <==> snake.Some? || camel.Some?)
      && (r.Some? ==> HasRole(r.value))
      && (snake.Some? ==> r.value.parts == snake.value.parts)
      && (snake.Some? && HasRole(snake.value) ==> r == snake)
      && (snake.Some? && !HasRole(snake.value) ==> r.value.role == Some(USER))
      && (snake.None? && camel.Some? ==> r.value.parts == camel.value.parts)
      && (snake.None? && camel.Some? && HasRole(camel.value) ==> r == camel)
      && (snake.None? && camel.Some? && !HasRole(camel.value) ==> r.value.role == Some(USER))
      && NormalizedSystemInstruction(None, r) == r
  {
  }

  /** A Gemini request body as `ensureRolesInContents` sees it. */
  class GeminiRequest {
    /** the `system_instruction` key (snake case), absent when `None` */
    var systemInstructionSnake: Option<Content>
    /** the `systemInstruction` key (camel case), absent when `None` */
    var systemInstruction: Option<Content>
    /** the `contents` array; only meaningful when `contentsIsArray` */
    var contents: array<Content>
    /** false when `contents` is missing or is not an array */
    var contentsIsArray: bool

    constructor (snake: Option<Content>, camel: Option<Content>, entries: seq<Content>, isArray: bool)
      ensures systemInstructionSnake == snake && systemInstruction == camel
      ensures contents[..] == entries && contentsIsArray == isArray
      ensures fresh(contents)
    {
      systemInstructionSnake := snake;
      systemInstruction := camel;
      contents := new Content[|entries|](i requires 0 <= i < |entries| => entries[i]);
      contentsIsArray := isArray;
    }

    /** ensureRolesInContents(requestBody), updating the body in place. */
    method EnsureRolesInContents()
      modifies this, contents
      ensures systemInstructionSnake == None
      ensures systemInstruction == NormalizedSystemInstruction(old(systemInstructionSnake), old(systemInstruction))
      ensures contents == old(contents) && contentsIsArray == old(contentsIsArray)
      ensures contents[..] == if contentsIsArray then DefaultRoles(old(contents[..])) else old(contents[..])
    {
      if systemInstructionSnake.Some? {
        systemInstruction := systemInstructionSnake;
        systemInstructionSnake := None;
      }
      if systemInstruction.Some? && !HasRole(systemInstruction.value) {
        systemInstruction := Some(systemInstruction.value.(role := Some(USER)));
      }
      if contentsIsArray {
        var a := contents;
        ghost var before := a[..];
        var i := 0;
        while i < a.Length
          modifies a
          invariant 0 <= i <= a.Length
          invariant forall k :: 0 <= k < i ==> a[k] == WithDefaultRole(before[k])
          invariant forall k :: i <= k < a.Length ==> a[k] == before[k]
        {
          if !HasRole(a[i]) {
            a[i] := a[i].(role := Some(USER));
          }
          i := i + 1;
        }
        DefaultRolesAt(before);
      }
    }
  }
}
