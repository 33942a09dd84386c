/**
 The canonical JSON printer of src/recovery.rs: object keys sorted, no whitespace.

 `Print` says what is printed, `WriteCanonical` writes it into a buffer. Numbers are integers.
 Strings are escaped as section 7 of RFC 8259 requires and no more.
 */
module CanonicalJson {
  import opened Text

  datatype Json =
    | Null
    | Bool(b: bool)
    | Num(n: int)
    | Str(s: string)
    | Arr(items: seq<Json>)
    | Obj(fields: map<string, Json>)

  // ----- Numbers -----

  function PrintInt(n: int): string {
    if n < 0 then "-" + PrintNat(-n) else PrintNat(n)
  }

  // ----- Strings -----

  const BACKSPACE: char := '\U{0008}'
  const FORM_FEED: char := '\U{000C}'
  const FIRST_PRINTABLE: char := '\U{0020}'

  function Hex(d: nat): char
    requires d < 16
  {
    if d < 10 then '0' + d as char else 'a' + (d - 10) as char
  }

  function EscapeChar(c: char): string {
    if c == '\"' then "\\\""
    else if c == '\\' then "\\\\"
    else if c == BACKSPACE then "\\b"
    else if c == '\t' then "\\t"
    else if c == '\n' then "\\n"
    else if c == FORM_FEED then "\\f"
    else if c == '\r' then "\\r"
    else if c < FIRST_PRINTABLE then "\\u00" + [Hex(c as nat / 16), Hex(c as nat % 16)]
    else [c]
  }

  function Escape(s: string): string {
    if s == "" then "" else EscapeChar(s[0]) + Escape(s[1..])
  }

  function PrintStr(s: string): string {
    "\"" + Escape(s) + "\""
  }

  // ----- Values -----

  function Print(v: Json): string
    decreases v, 0
  {
    match v
    case Null => "null"
    case Bool(b) => if b then "true" else "false"
    case Num(n) => PrintInt(n)
    case Str(s) => PrintStr(s)
    case Arr(items) => "[" + Join(PrintAll(items)) + "]"
    case Obj(fields) => "{" + Join(PrintFields(v, SortedKeys(fields.Keys))) + "}"
  }

  function PrintAll(items: seq<Json>): (parts: seq<string>)
    decreases items, 1
  {
    seq(|items|, i requires 0 <= i < |items| => Print(items[i]))
  }

  function PrintFields(v: Json, keys: seq<string>): (parts: seq<string>)
    requires v.Obj? && forall k :: k in keys ==> k in v.fields
    decreases v, 0, 1
  {
    seq(|keys|, i requires 0 <= i < |keys| => PrintStr(keys[i]) + ":" + Print(v.fields[keys[i]]))
  }

  // ----- The writer -----

  /** One more part after a comma, if it is not the first. */
  lemma NextPart(before: string, parts: seq<string>, i: nat)
    requires i < |parts|
    ensures before + Join(parts[..i + 1]) == before + Join(parts[..i]) + (if i > 0 then "," else "") + parts[i]
  {
    JoinSnoc(parts[..i], parts[i]);
    assert parts[..i + 1] == parts[..i] + [parts[i]];
  }

  class StringBuffer {
    var text: string

    constructor ()
      ensures text == ""
    {
      text := "";
    }

    method PushStr(s: string)
      modifies this
      ensures text == old(text) + s
    {
      text := text + s;
    }
  }

  /** Writes `v` at the end of `buf`. */
  method WriteCanonical(v: Json, buf: StringBuffer)
    modifies buf
    ensures buf.text == old(buf.text) + Print(v)
    decreases v, 0
  {
    match v {
      case Null => buf.PushStr("null");
      case Bool(b) => buf.PushStr(if b then "true" else "false");
      case Num(n) => buf.PushStr(PrintInt(n));
      case Str(s) => buf.PushStr(PrintStr(s));
      case Arr(items) =>
        WriteArray(items, buf);
      case Obj(fields) =>
        WriteObject(v, buf);
    }
  }

  method WriteArray(items: seq<Json>, buf: StringBuffer)
    modifies buf
    ensures buf.text == old(buf.text) + "[" + Join(PrintAll(items)) + "]"
    decreases items, 1
  {
    buf.PushStr("[");
    ghost var parts := PrintAll(items);
    ghost var before := buf.text;
    for i := 0 to |items|
      invariant buf.text == before + Join(parts[..i])
    {
      NextPart(before, parts, i);
      if i > 0 {
        buf.PushStr(",");
      }
      WriteCanonical(items[i], buf);
    }
    assert parts[..|items|] == parts;
    buf.PushStr("]");
  }

  method WriteObject(v: Json, buf: StringBuffer)
    requires v.Obj?
    modifies buf
    ensures buf.text == old(buf.text) + "{" + Join(PrintFields(v, SortedKeys(v.fields.Keys))) + "}"
    decreases v, 0, 1
  {
    var keys := SortKeys(v.fields.Keys);
    buf.PushStr("{");
    ghost var parts := PrintFields(v, keys);
    ghost var before := buf.text;
    for i := 0 to |keys|
      invariant buf.text == before + Join(parts[..i])
    {
      NextPart(before, parts, i);
      if i > 0 {
        buf.PushStr(",");
      }
      WriteField(v, keys[i], buf);
    }
    assert parts[..|keys|] == parts;
    buf.PushStr("}");
  }

  method WriteField(v: Json, key: string, buf: StringBuffer)
    requires v.Obj? && key in v.fields
    modifies buf
    ensures buf.text == old(buf.text) + (PrintStr(key) + ":" + Print(v.fields[key]))
    decreases v, 0, 0
  {
    buf.PushStr(PrintStr(key));
    buf.PushStr(":");
    WriteCanonical(v.fields[key], buf);
  }

  /** The canonical form as a new string. */
  method CanonicalJsonOf(v: Json) returns (canonical: string)
    ensures canonical == Print(v)
  {
    var buf := new StringBuffer();
    WriteCanonical(v, buf);
    canonical := buf.text;
  }
}
