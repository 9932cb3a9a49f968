/** The JavaScript values that flow through the dispatch layer: parsed request
    bodies, native responses and stream chunks, error payloads.  Numbers are
    integers (the layer only compares and prints status codes and timestamps);
    an object keeps its keys in insertion order.  `JSON.stringify` prints
    integer-like keys first, in ascending order, and the rest in insertion
    order; the model does not move integer-like keys forward. */
module JsValues {
  import opened Wrappers

  datatype JsValue =
    | Undefined
    | Null
    | Bool(b: bool)
    | Num(n: int)
    | Str(s: string)
    | Arr(items: seq<JsValue>)
    | Obj(fields: seq<(string, JsValue)>)

  /** JavaScript truthiness: what `if (v)` and `!v` test. */
  predicate Truthy(v: JsValue) {
    match v
    case Undefined => false
    case Null => false
    case Bool(b) => b
    case Num(n) => n != 0
    case Str(s) => s != ""
    case Arr(_) => true
    case Obj(_) => true
  }

  predicate HasKey(fields: seq<(string, JsValue)>, key: string) {
    exists i :: 0 <= i < |fields| && fields[i].0 == key
  }

  /** The value stored under `key` (the first entry with that key), or `undefined`. */
  function Lookup(fields: seq<(string, JsValue)>, key: string): (r: JsValue)
    ensures !HasKey(fields, key) ==> r == Undefined
    ensures HasKey(fields, key) ==> (key, r) in fields
  {
    if fields == [] then Undefined
    else if fields[0].0 == key then fields[0].1
    else
      var r := Lookup(fields[1..], key);
      assert HasKey(fields, key) ==> HasKey(fields[1..], key) by {
        if HasKey(fields, key) {
          var i :| 0 <= i < |fields| && fields[i].0 == key;
          assert i != 0 && fields[1..][i - 1] == fields[i];
        }
      }
      r
  }

  lemma HasKeyAppend(a: seq<(string, JsValue)>, b: seq<(string, JsValue)>, k: string)
    ensures HasKey(a + b, k) <==> HasKey(a, k) || HasKey(b, k)
  {
    if HasKey(a + b, k) {
      var i :| 0 <= i < |a + b| && (a + b)[i].0 == k;
      if i >= |a| {
        assert b[i - |a|] == (a + b)[i];
      }
    }
    if HasKey(b, k) {
      var i :| 0 <= i < |b| && b[i].0 == k;
      assert (a + b)[i + |a|] == b[i];
    }
    if HasKey(a, k) {
      var i :| 0 <= i < |a| && a[i].0 == k;
      assert (a + b)[i] == a[i];
    }
  }

  /** Looking a key up in two concatenated field lists finds it in the first list if it is there. */
  lemma {:induction false} LookupAppend(a: seq<(string, JsValue)>, b: seq<(string, JsValue)>, k: string)
    ensures Lookup(a + b, k) == if HasKey(a, k) then Lookup(a, k) else Lookup(b, k)
  {
    if a == [] {
      assert a + b == b;
    } else {
      assert (a + b)[0] == a[0];
      assert (a + b)[1..] == a[1..] + b;
      assert a == [a[0]] + a[1..];
      HasKeyCons(a[0], a[1..], k);
      LookupAppend(a[1..], b, k);
    }
  }

  /** A property read `v.key`: objects look the key up, every other value has no such own property. */
  function Member(v: JsValue, key: string): (r: JsValue)
    ensures !v.Obj? ==> r == Undefined
  {
    if v.Obj? then Lookup(v.fields, key) else Undefined
  }

  lemma HasKeyCons(x: (string, JsValue), rest: seq<(string, JsValue)>, k: string)
    ensures HasKey([x] + rest, k) <==> x.0 == k || HasKey(rest, k)
  {
    var r := [x] + rest;
    if HasKey(r, k) && x.0 != k {
      var i :| 0 <= i < |r| && r[i].0 == k;
      assert rest[i - 1] == r[i];
    }
    if HasKey(rest, k) {
      var i :| 0 <= i < |rest| && rest[i].0 == k;
      assert r[i + 1] == rest[i];
    }
    if x.0 == k {
      assert r[0].0 == k;
    }
  }

  /** The assignment `o[key] = val` on an object: an existing key keeps its place, a new key goes last. */
  function SetField(fields: seq<(string, JsValue)>, key: string, val: JsValue): (r: seq<(string, JsValue)>)
    ensures Lookup(r, key) == val
    ensures forall k :: k != key ==> Lookup(r, k) == Lookup(fields, k)
    ensures forall k :: HasKey(r, k) <==> HasKey(fields, k) || k == key
  {
    if fields == [] then
      HasKeyCons((key, val), [], key);
      [(key, val)]
    else
      assert fields == [fields[0]] + fields[1..];
      assert forall k :: HasKey(fields, k) <==> fields[0].0 == k || HasKey(fields[1..], k) by {
        forall k {
          HasKeyCons(fields[0], fields[1..], k);
        }
      }
      if fields[0].0 == key then
        var r := [(key, val)] + fields[1..];
        assert forall k :: HasKey(r, k) <==> key == k || HasKey(fields[1..], k) by {
          forall k {
            HasKeyCons((key, val), fields[1..], k);
          }
        }
        r
      else
        var tail := SetField(fields[1..], key, val);
        var r := [fields[0]] + tail;
        assert forall k :: HasKey(r, k) <==> fields[0].0 == k || HasKey(tail, k) by {
          forall k {
            HasKeyCons(fields[0], tail, k);
          }
        }
        r
  }

  // ---------------------------------------------------------------------------
  // Decimal rendering of integers (`String(n)` for an integral number)

  function DigitChar(d: nat): char
    requires d < 10
  {
    "0123456789"[d]
  }

  predicate IsDigit(c: char) {
    '0' <= c <= '9'
  }

  function DigitValue(c: char): nat
    requires IsDigit(c)
  {
    (c as int - '0' as int) as nat
  }

  /** The shortest decimal numeral of `n`, as `String(n)` gives it. */
  function NatToDecimal(n: nat): (r: string)
    ensures |r| >= 1
    ensures forall i :: 0 <= i < |r| ==> IsDigit(r[i])
    ensures n < 10 <==> |r| == 1
  {
    if n < 10 then [DigitChar(n)] else NatToDecimal(n / 10) + [DigitChar(n % 10)]
  }

  /** `String(n)` for an integer: a minus sign before the numeral of a negative number. */
  function IntToDecimal(n: int): string {
    if n < 0 then "-" + NatToDecimal(-n) else NatToDecimal(n)
  }

  /** The value of a numeral, read back digit by digit. */
  function DecimalValue(s: string): nat
    requires forall i :: 0 <= i < |s| ==> IsDigit(s[i])
  {
    if s == [] then 0 else DecimalValue(s[..|s| - 1]) * 10 + DigitValue(s[|s| - 1])
  }

  /** Reading the decimal numeral of `n` back yields `n`. */
  lemma {:induction false} DecimalRoundTrip(n: nat)
    ensures DecimalValue(NatToDecimal(n)) == n
  {
    var s := NatToDecimal(n);
    if n >= 10 {
      DecimalRoundTrip(n / 10);
      assert s[..|s| - 1] == NatToDecimal(n / 10);
    }
  }

  // ---------------------------------------------------------------------------
  // Conversion to string (`String(v)`, template literals, `+` with a string)

  /** `String(v)`: what a template literal `${v}` or `text += v` inserts. */
  function JsToString(v: JsValue): string
    decreases v, 1
  {
    match v
    case Undefined => "undefined"
    case Null => "null"
    case Bool(b) => if b then "true" else "false"
    case Num(n) => IntToDecimal(n)
    case Str(s) => s
    case Arr(items) => JoinItemStrings(items)
    case Obj(_) => "[object Object]"
  }

  /** `Array.prototype.toString`: elements joined with commas, `null`/`undefined` as empty text. */
  function JoinItemStrings(items: seq<JsValue>): string
    decreases items, 0
  {
    if items == [] then ""
    else
      var head := if items[0].Undefined? || items[0].Null? then "" else JsToString(items[0]);
      if |items| == 1 then head else head + "," + JoinItemStrings(items[1..])
  }

  // ---------------------------------------------------------------------------
  // JSON.stringify

  function HexDigit(d: nat): char
    requires d < 16
  {
    "0123456789abcdef"[d]
  }

  /** How `JSON.stringify` writes one character inside a string literal. */
  function EscapeChar(c: char): (r: string)
    ensures '\n' !in r && '\r' !in r
    ensures |r| >= 1
  {
    if c == '\"' then "\\\""
    else if c == '\\' then "\\\\"
    else if c as int == 8 then "\\b"
    else if c as int == 12 then "\\f"
    else if c == '\n' then "\\n"
    else if c == '\r' then "\\r"
    else if c == '\t' then "\\t"
    else if c as int < 32 then "\\u00" + [HexDigit(c as int / 16), HexDigit(c as int % 16)]
    else [c]
  }

  /** The escaped characters of `s`, joined. */
  function Escape(s: string): string {
    Flatten(seq(|s|, i requires 0 <= i < |s| => EscapeChar(s[i])))
  }

  function Flatten(parts: seq<string>): string {
    if parts == [] then "" else parts[0] + Flatten(parts[1..])
  }

  function Quote(s: string): string {
    "\"" + Escape(s) + "\""
  }

  function Join(parts: seq<string>, sep: string): string {
    if parts == [] then ""
    else if |parts| == 1 then parts[0]
    else parts[0] + sep + Join(parts[1..], sep)
  }

  /** `JSON.stringify(v)` for a value that is not `undefined`. */
  function Stringify(v: JsValue): string
    requires !v.Undefined?
    decreases v, 1
  {
    match v
    case Null => "null"
    case Bool(b) => if b then "true" else "false"
    case Num(n) => IntToDecimal(n)
    case Str(s) => Quote(s)
    case Arr(items) => "[" + Join(ItemTexts(items), ",") + "]"
    case Obj(fields) => "{" + Join(MemberTexts(fields), ",") + "}"
  }

  /** `${JSON.stringify(v)}` inside a template literal: `JSON.stringify(undefined)`
      returns `undefined`, which the template prints as the word itself. */
  function JsonText(v: JsValue): (r: string)
    ensures !v.Undefined? ==> r == Stringify(v)
  {
    if v.Undefined? then "undefined" else Stringify(v)
  }

  /** Array elements: an `undefined` element is written as `null`. */
  function ItemTexts(items: seq<JsValue>): (r: seq<string>)
    ensures |r| == |items|
    decreases items, 0
  {
    if items == [] then []
    else [if items[0].Undefined? then "null" else Stringify(items[0])] + ItemTexts(items[1..])
  }

  /** Object members: a key whose value is `undefined` is left out. */
  function MemberTexts(fields: seq<(string, JsValue)>): seq<string>
    decreases fields, 0
  {
    if fields == [] then []
    else
      var rest := MemberTexts(fields[1..]);
      assert fields[0].1 < fields[0];
      if fields[0].1.Undefined? then rest
      else [Quote(fields[0].0) + ":" + Stringify(fields[0].1)] + rest
  }

  predicate SingleLine(s: string) {
    '\n' !in s && '\r' !in s
  }

  lemma EscapeSingleLine(s: string)
    ensures SingleLine(Escape(s))
  {
    FlattenSingleLine(seq(|s|, i requires 0 <= i < |s| => EscapeChar(s[i])));
  }

  lemma {:induction false} FlattenSingleLine(parts: seq<string>)
    requires forall i :: 0 <= i < |parts| ==> SingleLine(parts[i])
    ensures SingleLine(Flatten(parts))
  {
    if parts != [] {
      FlattenSingleLine(parts[1..]);
    }
  }

  lemma {:induction false} DecimalSingleLine(n: int)
    ensures SingleLine(IntToDecimal(n))
  {
    var d := NatToDecimal(if n < 0 then -n else n);
    assert forall i :: 0 <= i < |d| ==> d[i] != '\n' && d[i] != '\r';
  }

  lemma {:induction false} JoinSingleLine(parts: seq<string>, sep: string)
    requires SingleLine(sep)
    requires forall i :: 0 <= i < |parts| ==> SingleLine(parts[i])
    ensures SingleLine(Join(parts, sep))
  {
    if |parts| > 1 {
      JoinSingleLine(parts[1..], sep);
    }
  }

  /** `JSON.stringify` never produces a line break: every control character
      inside a string is escaped.  An SSE `data:` line therefore carries the
      whole payload on one line. */
  lemma {:induction false} StringifySingleLine(v: JsValue)
    requires !v.Undefined?
    ensures SingleLine(Stringify(v))
    decreases v, 1
  {
    match v
    case Null =>
    case Bool(_) =>
    case Num(n) => DecimalSingleLine(n);
    case Str(s) => EscapeSingleLine(s);
    case Arr(items) =>
      ItemTextsSingleLine(items);
      JoinSingleLine(ItemTexts(items), ",");
    case Obj(fields) =>
      MemberTextsSingleLine(fields);
      JoinSingleLine(MemberTexts(fields), ",");
  }

  lemma {:induction false} ItemTextsSingleLine(items: seq<JsValue>)
    ensures forall i :: 0 <= i < |ItemTexts(items)| ==> SingleLine(ItemTexts(items)[i])
    decreases items, 0
  {
    if items != [] {
      if !items[0].Undefined? {
        StringifySingleLine(items[0]);
      }
      ItemTextsSingleLine(items[1..]);
    }
  }

  lemma {:induction false} MemberTextsSingleLine(fields: seq<(string, JsValue)>)
    ensures forall i :: 0 <= i < |MemberTexts(fields)| ==> SingleLine(MemberTexts(fields)[i])
    decreases fields, 0
  {
    if fields != [] {
      MemberTextsSingleLine(fields[1..]);
      assert fields[0].1 < fields[0];
      if !fields[0].1.Undefined? {
        EscapeSingleLine(fields[0].0);
        StringifySingleLine(fields[0].1);
      }
    }
  }
}
