/** A parser for JSON without whitespace, and the proof that it undoes the canonical printer. */
module CanonicalJsonTheorems {
  import opened Seqs
  import opened Text
  import opened CanonicalJson

  /** What was read, and the rest of the input. */
  type Parsed<T> = Option<(T, string)>

  // ----- The parser -----

  function HexValue(c: char): Option<nat> {
    if IsDigit(c) then Some(c as nat - '0' as nat)
    else if 'a' <= c <= 'f' then Some(c as nat - 'a' as nat + 10)
    else if 'A' <= c <= 'F' then Some(c as nat - 'A' as nat + 10)
    else None
  }

  /** Four hexadecimal digits that name a character; surrogates do not. */
  function ParseHex(s: string): (r: Parsed<char>)
    ensures r.Some? ==> |r.value.1| < |s|
  {
    if |s| < 4 then None
    else
      match (HexValue(s[0]), HexValue(s[1]), HexValue(s[2]), HexValue(s[3]))
      case (Some(a), Some(b), Some(c), Some(d)) =>
        var code := ((a * 16 + b) * 16 + c) * 16 + d;
        if code < 0xD800 || 0xE000 <= code < 0x10000 then Some((code as char, s[4..])) else None
      case _ => None
  }

  /** One character of a string: escaped or as it is. */
  function ParseChar(s: string): (r: Parsed<char>)
    ensures r.Some? ==> |r.value.1| < |s|
  {
    if s == "" || s[0] < FIRST_PRINTABLE || s[0] == '\"' then None
    else if s[0] != '\\' then Some((s[0], s[1..]))
    else if |s| < 2 then None
    else match s[1]
      case '\"' => Some(('\"', s[2..]))
      case '\\' => Some(('\\', s[2..]))
      case '/' => Some(('/', s[2..]))
      case 'b' => Some((BACKSPACE, s[2..]))
      case 'f' => Some((FORM_FEED, s[2..]))
      case 'n' => Some(('\n', s[2..]))
      case 'r' => Some(('\r', s[2..]))
      case 't' => Some(('\t', s[2..]))
      case 'u' => ParseHex(s[2..])
      case _ => None
  }

  /** The characters up to the closing quote. */
  function ParseChars(s: string): (r: Parsed<string>)
    ensures r.Some? ==> |r.value.1| < |s|
    decreases |s|
  {
    if s != "" && s[0] == '\"' then Some(("", s[1..]))
    else match ParseChar(s)
      case None => None
      case Some((c, rest)) =>
        match ParseChars(rest)
        case None => None
        case Some((cs, rest')) => Some(([c] + cs, rest'))
  }

  predicate Next(s: string, c: char) {
    s != "" && s[0] == c
  }

  /** The fields as a map; of a repeated name the last counts. */
  function AsMap(fields: seq<(string, Json)>): map<string, Json> {
    if fields == [] then map[] else map[fields[0].0 := fields[0].1] + AsMap(fields[1..])
  }

  function Parse(s: string): (r: Parsed<Json>)
    ensures r.Some? ==> |r.value.1| < |s|
    decreases |s|, 0
  {
    if s == "" then None
    else if s[0] == '\"' then
      match ParseChars(s[1..])
      case None => None
      case Some((cs, rest)) => Some((Str(cs), rest))
    else if s[0] == '[' then
      if Next(s[1..], ']') then Some((Arr([]), s[2..]))
      else match ParseItems(s[1..])
        case None => None
        case Some((items, rest)) => Some((Arr(items), rest))
    else if s[0] == '{' then
      if Next(s[1..], '}') then Some((Obj(map[]), s[2..]))
      else match ParseFields(s[1..])
        case None => None
        case Some((fields, rest)) => Some((Obj(AsMap(fields)), rest))
    else if IsDigit(s[0]) then var (n, rest) := ParseDigits(s, 0); Some((Num(n), rest))
    else if s[0] == '-' then
      if !StartsWithDigit(s[1..]) then None
      else var (n, rest) := ParseDigits(s[1..], 0); Some((Num(-(n as int)), rest))
    else ParseWord(s)
  }

  function ParseWord(s: string): (r: Parsed<Json>)
    ensures r.Some? ==> |r.value.1| < |s|
  {
    if StartsWith(s, "null") then Some((Null, s[4..]))
    else if StartsWith(s, "true") then Some((Bool(true), s[4..]))
    else if StartsWith(s, "false") then Some((Bool(false), s[5..]))
    else None
  }

  /** Values separated by commas, and the closing bracket. */
  function ParseItems(s: string): (r: Parsed<seq<Json>>)
    ensures r.Some? ==> |r.value.1| < |s|
    decreases |s|, 1
  {
    match Parse(s)
    case None => None
    case Some((item, rest)) =>
      if Next(rest, ']') then Some(([item], rest[1..]))
      else if Next(rest, ',') then
        match ParseItems(rest[1..])
        case None => None
        case Some((items, rest')) => Some(([item] + items, rest'))
      else None
  }

  /** A string, a colon and a value. */
  function ParseField(s: string): (r: Parsed<(string, Json)>)
    ensures r.Some? ==> |r.value.1| < |s|
    decreases |s|, 1
  {
    if !Next(s, '\"') then None
    else match ParseChars(s[1..])
      case None => None
      case Some((key, rest)) =>
        if !Next(rest, ':') then None
        else match Parse(rest[1..])
          case None => None
          case Some((value, rest')) => Some(((key, value), rest'))
  }

  /** Fields separated by commas, and the closing brace. */
  function ParseFields(s: string): (r: Parsed<seq<(string, Json)>>)
    ensures r.Some? ==> |r.value.1| < |s|
    decreases |s|, 2
  {
    match ParseField(s)
    case None => None
    case Some((field, rest)) =>
      if Next(rest, '}') then Some(([field], rest[1..]))
      else if Next(rest, ',') then
        match ParseFields(rest[1..])
        case None => None
        case Some((fields, rest')) => Some(([field] + fields, rest'))
      else None
  }

  // ----- Numbers and strings round-trip -----

  lemma ParsePrintedChar(c: char, rest: string)
    ensures (EscapeChar(c) + rest)[0] != '\"'
    ensures ParseChar(EscapeChar(c) + rest) == Some((c, rest))
  {
    var s := EscapeChar(c) + rest;
    if |EscapeChar(c)| == 6 {
      assert HexValue(s[4]) == Some(c as nat / 16) && HexValue(s[5]) == Some(c as nat % 16);
      assert s[2..][4..] == rest;
    } else {
      assert s[|EscapeChar(c)|..] == rest;
    }
  }

  lemma {:induction false} ParsePrintedChars(cs: string, rest: string)
    ensures ParseChars(Escape(cs) + "\"" + rest) == Some((cs, rest))
  {
    if cs == "" {
      assert (Escape(cs) + "\"" + rest)[1..] == rest;
    } else {
      EscapedText(cs, rest);
      ParsePrintedChar(cs[0], Escape(cs[1..]) + "\"" + rest);
      ParsePrintedChars(cs[1..], rest);
      assert cs == [cs[0]] + cs[1..];
    }
  }

  lemma EscapedText(cs: string, rest: string)
    requires cs != ""
    ensures Escape(cs) + "\"" + rest == EscapeChar(cs[0]) + (Escape(cs[1..]) + "\"" + rest)
    ensures Escape(cs) + "\"" + rest != "" && EscapeChar(cs[0]) != ""
  {
    ConcatAssociative(EscapeChar(cs[0]), Escape(cs[1..]), "\"");
    ConcatAssociative(EscapeChar(cs[0]), Escape(cs[1..]) + "\"", rest);
  }

  /** An opened literal, the text in it, its closing and what follows. */
  lemma Enclosed(open: char, text: string, close: string, rest: string)
    ensures [open] + text + close + rest == [open] + (text + close + rest)
    ensures ([open] + text + close + rest)[1..] == text + close + rest
  {
  }

  lemma ParsePrintedStr(cs: string, rest: string)
    ensures PrintStr(cs) + rest == "\"" + (Escape(cs) + "\"" + rest)
    ensures ParseChars((PrintStr(cs) + rest)[1..]) == Some((cs, rest))
  {
    Enclosed('\"', Escape(cs), "\"", rest);
    ParsePrintedChars(cs, rest);
  }

  // ----- Values round-trip -----

  lemma FirstChar(v: Json)
    ensures Print(v) != "" && Print(v)[0] !in ",]:}"
  {
    if v.Num? {
      ParsePrintedNat(if v.n < 0 then -v.n else v.n, "");
    }
  }

  lemma ParseUnsigned(s: string, n: nat, rest: string)
    requires StartsWithDigit(s) && ParseDigits(s, 0) == (n, rest)
    ensures Parse(s) == Some((Num(n), rest))
  {
  }

  lemma ParseNegative(s: string, n: nat, rest: string)
    requires StartsWithDigit(s) && ParseDigits(s, 0) == (n, rest)
    ensures Parse("-" + s) == Some((Num(-(n as int)), rest))
  {
    assert ("-" + s)[1..] == s;
  }

  lemma ParsePrintedInt(n: int, rest: string)
    requires !StartsWithDigit(rest)
    ensures Parse(PrintInt(n) + rest) == Some((Num(n), rest))
  {
    if n < 0 {
      ParsePrintedNat(-n, rest);
      ConcatAssociative("-", PrintNat(-n), rest);
      ParseNegative(PrintNat(-n) + rest, -n, rest);
    } else {
      ParsePrintedNat(n, rest);
      ParseUnsigned(PrintNat(n) + rest, n, rest);
    }
  }

  lemma {:induction false} ParsePrintedItems(items: seq<Json>, i: nat, rest: string)
    requires i < |items|
    ensures ParseItems(Join(PrintAll(items)[i..]) + "]" + rest) == Some((items[i..], rest))
    decreases items, 1, |items| - i
  {
    var parts := PrintAll(items);
    JoinFrom(parts, i);
    var s := Join(parts[i..]) + "]" + rest;
    if i + 1 < |items| {
      var tail := Join(parts[i + 1..]) + "]" + rest;
      assert s == Print(items[i]) + ("," + tail);
      ParsePrinted(items[i], "," + tail);
      assert ("," + tail)[1..] == tail;
      ParsePrintedItems(items, i + 1, rest);
      assert [items[i]] + items[i + 1..] == items[i..];
    } else {
      assert s == Print(items[i]) + ("]" + rest);
      ParsePrinted(items[i], "]" + rest);
      assert ("]" + rest)[1..] == rest;
      assert [items[i]] == items[i..];
    }
  }

  lemma ParseFieldIs(s: string, key: string, tail: string, value: Json, rest: string)
    requires Next(s, '\"') && ParseChars(s[1..]) == Some((key, tail)) && Next(tail, ':')
    requires Parse(tail[1..]) == Some((value, rest))
    ensures ParseField(s) == Some(((key, value), rest))
  {
  }

  lemma FieldText(key: string, value: string, rest: string)
    ensures PrintStr(key) + ":" + value + rest == PrintStr(key) + (":" + (value + rest))
    ensures (":" + (value + rest))[1..] == value + rest
  {
    ConcatAssociative(PrintStr(key), ":", value);
    ConcatAssociative(PrintStr(key), ":" + value, rest);
    ConcatAssociative(":", value, rest);
  }

  lemma {:induction false} ParsePrintedField(v: Json, key: string, rest: string)
    requires v.Obj? && key in v.fields && !StartsWithDigit(rest)
    ensures ParseField(PrintStr(key) + ":" + Print(v.fields[key]) + rest) == Some(((key, v.fields[key]), rest))
    decreases v, 0, 0
  {
    var value := v.fields[key];
    var tail := ":" + (Print(value) + rest);
    FieldText(key, Print(value), rest);
    ParsePrintedStr(key, tail);
    ParsePrinted(value, rest);
    ParseFieldIs(PrintStr(key) + tail, key, tail, value, rest);
  }

  /** The fields of `v` under `keys`, in that order. */
  function FieldsAt(v: Json, keys: seq<string>): seq<(string, Json)>
    requires v.Obj? && forall k :: k in keys ==> k in v.fields
  {
    seq(|keys|, i requires 0 <= i < |keys| => (keys[i], v.fields[keys[i]]))
  }

  lemma {:induction false} FieldsAtAreMap(v: Json, keys: seq<string>)
    requires v.Obj? && forall k :: k in keys ==> k in v.fields
    ensures AsMap(FieldsAt(v, keys)) == map k | k in keys :: v.fields[k]
  {
    if keys != [] {
      FieldsAtAreMap(v, keys[1..]);
      assert FieldsAt(v, keys)[1..] == FieldsAt(v, keys[1..]);
      assert forall k :: k in keys <==> k == keys[0] || k in keys[1..];
    }
  }

  lemma ParseFieldsMore(part: string, field: (string, Json), tail: string, fields: seq<(string, Json)>, rest: string)
    requires ParseField(part + ("," + tail)) == Some((field, "," + tail))
    requires ParseFields(tail) == Some((fields, rest))
    ensures ParseFields(part + ("," + tail)) == Some(([field] + fields, rest))
  {
    assert ("," + tail)[1..] == tail;
  }

  lemma ParseFieldsLast(part: string, field: (string, Json), rest: string)
    requires ParseField(part + ("}" + rest)) == Some((field, "}" + rest))
    ensures ParseFields(part + ("}" + rest)) == Some(([field], rest))
  {
    assert ("}" + rest)[1..] == rest;
  }

  lemma {:induction false} ParsePrintedFields(v: Json, keys: seq<string>, i: nat, rest: string)
    requires v.Obj? && i < |keys| && Sorted(keys) && forall k :: k in keys ==> k in v.fields
    ensures ParseFields(Join(PrintFields(v, keys)[i..]) + "}" + rest) == Some((FieldsAt(v, keys[i..]), rest))
    decreases v, 0, 1, |keys| - i
  {
    var parts := PrintFields(v, keys);
    var field := (keys[i], v.fields[keys[i]]);
    JoinFrom(parts, i);
    if i + 1 < |keys| {
      var tail := Join(parts[i + 1..]) + "}" + rest;
      assert Join(parts[i..]) + "}" + rest == parts[i] + ("," + tail);
      ParsePrintedField(v, keys[i], "," + tail);
      ParsePrintedFields(v, keys, i + 1, rest);
      ParseFieldsMore(parts[i], field, tail, FieldsAt(v, keys[i + 1..]), rest);
    } else {
      assert Join(parts[i..]) + "}" + rest == parts[i] + ("}" + rest);
      ParsePrintedField(v, keys[i], "}" + rest);
      ParseFieldsLast(parts[i], field, rest);
    }
    FieldsFrom(v, keys, i);
  }

  lemma FieldsFrom(v: Json, keys: seq<string>, i: nat)
    requires v.Obj? && i < |keys| && forall k :: k in keys ==> k in v.fields
    ensures FieldsAt(v, keys[i..]) == [(keys[i], v.fields[keys[i]])] + FieldsAt(v, keys[i + 1..])
    ensures i + 1 == |keys| ==> FieldsAt(v, keys[i..]) == [(keys[i], v.fields[keys[i]])]
  {
    assert keys[i..] == [keys[i]] + keys[i + 1..];
  }

  lemma ParseArr(body: string, items: seq<Json>, rest: string)
    requires ParseItems(body) == Some((items, rest)) && !Next(body, ']')
    ensures Parse("[" + body) == Some((Arr(items), rest))
  {
    assert ("[" + body)[1..] == body;
  }

  lemma ParseObj(body: string, fields: seq<(string, Json)>, rest: string)
    requires ParseFields(body) == Some((fields, rest)) && !Next(body, '}')
    ensures Parse("{" + body) == Some((Obj(AsMap(fields)), rest))
  {
    assert ("{" + body)[1..] == body;
  }

  lemma ParseEmpty(rest: string)
    ensures Parse("[" + "]" + rest) == Some((Arr([]), rest))
    ensures Parse("{" + "}" + rest) == Some((Obj(map[]), rest))
  {
    assert ("[" + "]" + rest)[2..] == rest && ("{" + "}" + rest)[2..] == rest;
  }

  lemma ParseLiteral(rest: string)
    ensures Parse("null" + rest) == Some((Null, rest))
    ensures Parse("true" + rest) == Some((Bool(true), rest))
    ensures Parse("false" + rest) == Some((Bool(false), rest))
  {
    assert ("null" + rest)[4..] == rest && ("true" + rest)[4..] == rest && ("false" + rest)[5..] == rest;
  }

  lemma {:induction false} ParsePrintedArr(items: seq<Json>, rest: string)
    ensures Parse("[" + Join(PrintAll(items)) + "]" + rest) == Some((Arr(items), rest))
    decreases items, 2
  {
    var parts := PrintAll(items);
    if items == [] {
      ParseEmpty(rest);
    } else {
      ParsePrintedItems(items, 0, rest);
      FirstChar(items[0]);
      JoinFrom(parts, 0);
      assert parts[0..] == parts;
      Enclosed('[', Join(parts), "]", rest);
      ParseArr(Join(parts) + "]" + rest, items, rest);
    }
  }

  lemma {:induction false} ParsePrintedObj(v: Json, keys: seq<string>, rest: string)
    requires v.Obj? && keys == SortedKeys(v.fields.Keys)
    ensures Parse("{" + Join(PrintFields(v, keys)) + "}" + rest) == Some((v, rest))
    decreases v, 0, 2
  {
    var parts := PrintFields(v, keys);
    if keys == [] {
      assert v.fields == map[];
      ParseEmpty(rest);
    } else {
      ParsePrintedFields(v, keys, 0, rest);
      JoinFrom(parts, 0);
      assert parts[0..] == parts;
      Enclosed('{', Join(parts), "}", rest);
      assert keys[0..] == keys;
      FieldsAtAreMap(v, keys);
      assert (map k | k in keys :: v.fields[k]) == v.fields;
      ParseObj(Join(parts) + "}" + rest, FieldsAt(v, keys), rest);
    }
  }

  /** The printed value, followed by anything that does not go on a number, parses back. */
  lemma {:induction false} ParsePrinted(v: Json, rest: string)
    requires !StartsWithDigit(rest)
    ensures Parse(Print(v) + rest) == Some((v, rest))
    decreases v, 0, 3
  {
    match v
    case Null => ParseLiteral(rest);
    case Bool(b) => ParseLiteral(rest);
    case Num(n) => ParsePrintedInt(n, rest);
    case Str(cs) => ParsePrintedStr(cs, rest);
    case Arr(items) => ParsePrintedArr(items, rest);
    case Obj(fields) => ParsePrintedObj(v, SortedKeys(fields.Keys), rest);
  }

  /** The parser undoes the printer, and so no two values print alike. */
  lemma CanonicalRoundTrip(v: Json)
    ensures Parse(Print(v)) == Some((v, ""))
  {
    ParsePrinted(v, "");
    assert Print(v) + "" == Print(v);
  }

  lemma CanonicalIsInjective(a: Json, b: Json)
    ensures Print(a) == Print(b) <==> a == b
  {
    CanonicalRoundTrip(a);
    CanonicalRoundTrip(b);
  }

  // ----- What is canonical about the text -----

  /** The names of an object's text, in the order of the text. */
  function NamesOf(s: string): Option<seq<string>> {
    if !Next(s, '{') then None
    else if Next(s[1..], '}') then Some([])
    else match ParseFields(s[1..])
      case None => None
      case Some((fields, _)) => Some(Map((f: (string, Json)) => f.0, fields))
  }

  /** `a` is a proper prefix of `b`, or smaller at the first place where they differ. */
  ghost predicate Precedes(a: string, b: string) {
    exists i: nat :: i <= |a| && i < |b| && a[..i] == b[..i] && (i == |a| || a[i] < b[i])
  }

  lemma {:induction false} BeforeIsLexicographic(a: string, b: string)
    ensures Before(a, b) <==> Precedes(a, b)
  {
    if a != "" && b != "" {
      BeforeIsLexicographic(a[1..], b[1..]);
      if a[0] == b[0] && Precedes(a[1..], b[1..]) {
        var i: nat :| i <= |a[1..]| && i < |b[1..]| && a[1..][..i] == b[1..][..i] &&
          (i == |a[1..]| || a[1..][i] < b[1..][i]);
        assert a[..i + 1] == [a[0]] + a[1..][..i] && b[..i + 1] == [b[0]] + b[1..][..i];
        assert i + 1 <= |a| && i + 1 < |b| && (i + 1 == |a| || a[i + 1] < b[i + 1]);
      }
      if Precedes(a, b) {
        var i: nat :| i <= |a| && i < |b| && a[..i] == b[..i] && (i == |a| || a[i] < b[i]);
        if i > 0 {
          assert a[..i][0] == b[..i][0];
          assert a[1..][..i - 1] == a[..i][1..] && b[1..][..i - 1] == b[..i][1..];
        }
      }
      if a[0] < b[0] {
        assert a[..0] == b[..0];
      }
    } else if b != "" {
      assert a[..0] == b[..0];
    }
  }

  /** An object's text lists its names once each, in increasing order of their characters. */
  lemma NamesAscend(v: Json)
    requires v.Obj?
    ensures NamesOf(Print(v)).Some?
    ensures var names := NamesOf(Print(v)).value;
            && (forall k :: k in names <==> k in v.fields)
            && forall i, j :: 0 <= i < j < |names| ==> Precedes(names[i], names[j])
  {
    var keys := SortedKeys(v.fields.Keys);
    if keys != [] {
      var parts := PrintFields(v, keys);
      ParsePrintedFields(v, keys, 0, "");
      JoinFrom(parts, 0);
      assert parts[0..] == parts && keys[0..] == keys;
      assert Print(v) == "{" + Join(parts) + "}" + "";
      Enclosed('{', Join(parts), "}", "");
      assert Map((f: (string, Json)) => f.0, FieldsAt(v, keys)) == keys;
    }
    forall i, j | 0 <= i < j < |keys| ensures Precedes(keys[i], keys[j]) {
      BeforeIsLexicographic(keys[i], keys[j]);
    }
  }

  /** Only zero starts with a zero, and only negative numbers with a minus. */
  lemma {:induction false} NoLeadingZero(n: nat)
    ensures PrintNat(n) != "" && (PrintNat(n)[0] == '0' <==> n == 0) && (n == 0 ==> PrintNat(n) == "0")
  {
    if n >= 10 {
      NoLeadingZero(n / 10);
    }
  }

  predicate NoCapitals(s: string) {
    forall i :: 0 <= i < |s| ==> !('A' <= s[i] <= 'Z')
  }

  /**
   A character is written in the shortest way there is: as itself, or else as a letter after a
   backslash, or else as four hexadecimal digits in small letters.
   */
  lemma EscapeIsShortest(c: char, e: string)
    requires ParseChar(e) == Some((c, ""))
    ensures |EscapeChar(c)| <= |e|
    ensures |e| == |EscapeChar(c)| && (|e| == 6 ==> NoCapitals(e)) ==> e == EscapeChar(c)
  {
    if |e| == 6 && |EscapeChar(c)| == 6 && NoCapitals(e) {
      assert HexValue(e[2]).Some? && HexValue(e[3]).Some? && HexValue(e[4]).Some? && HexValue(e[5]).Some?;
      HexDigits(e[2], e[3], e[4], e[5], c);
      assert e == [e[0], e[1], e[2], e[3], e[4], e[5]];
    }
  }

  /** Two zeros and two small digits are the only way to write a control character. */
  lemma HexDigits(p: char, q: char, r: char, s: char, c: char)
    requires HexValue(p).Some? && HexValue(q).Some? && HexValue(r).Some? && HexValue(s).Some?
    requires NoCapitals([p, q, r, s]) && c < FIRST_PRINTABLE
    requires ((HexValue(p).value * 16 + HexValue(q).value) * 16 + HexValue(r).value) * 16 + HexValue(s).value ==
             c as nat
    ensures [p, q, r, s] == ['0', '0', Hex(c as nat / 16), Hex(c as nat % 16)]
  {
    assert HexValue(p).value < 16 && HexValue(q).value < 16 && HexValue(r).value < 16 && HexValue(s).value < 16;
    assert [p, q, r, s][0] == p && [p, q, r, s][1] == q && [p, q, r, s][2] == r && [p, q, r, s][3] == s;
    assert HexValue(p).value == 0 && HexValue(q).value == 0;
    assert HexValue(r).value == c as nat / 16 && HexValue(s).value == c as nat % 16;
  }
}
