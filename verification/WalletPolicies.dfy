/**
 A wallet policy (BIP-388) and the multipath descriptor (BIP-389) of the same builder are
 assembled by different code. Expanding the policy gives the descriptor exactly in ranged mode.
 */
module WalletPolicies {
  import opened Seqs
  import opened Text
  import opened Networks
  import opened Descriptors
  import opened DescriptorTheorems

  // ----- What a policy means -----

  /** Each placeholder is replaced by its key and the wildcard of both keychains; numbers are read to their end. */
  function Expand(template: string, keys: seq<string>): Option<string>
    decreases |template|
  {
    if template == "" then Some("")
    else if template[0] != '@' then
      match Expand(template[1..], keys)
      case None => None
      case Some(text) => Some([template[0]] + text)
    else
      var (i, rest) := ParseDigits(template[1..], 0);
      if StartsWithDigit(template[1..]) && i < |keys| && StartsWith(rest, "/**") then
        match Expand(rest[3..], keys)
        case None => None
        case Some(text) => Some(keys[i] + MULTIPATH + text)
      else None
  }

  // ----- Literals and keys -----

  datatype Chunk = Lit(text: string) | Key(i: nat)

  function Render(f: Chunk -> string, chunks: seq<Chunk>): string {
    if chunks == [] then "" else f(chunks[0]) + Render(f, chunks[1..])
  }

  function TemplateText(): Chunk -> string {
    (c: Chunk) => match c
      case Lit(text) => text
      case Key(i) => Placeholder(i)
  }

  function ExpandedText(keys: seq<string>): Chunk -> string {
    (c: Chunk) => match c
      case Lit(text) => text
      case Key(i) => if i < |keys| then keys[i] + MULTIPATH else ""
  }

  function BodyText(keys: seq<DescriptorKey>): Chunk -> string {
    (c: Chunk) => match c
      case Lit(text) => text
      case Key(i) => if i < |keys| then KeyText(keys[i]) else ""
  }

  function LiftedText(keys: seq<DescriptorKey>): Chunk -> string {
    (c: Chunk) => match c
      case Lit(text) => text
      case Key(i) => if i < |keys| then keys[i].info + (if keys[i].ranged then MULTIPATH else "") else ""
  }

  lemma {:induction false} RenderConcat(f: Chunk -> string, xs: seq<Chunk>, ys: seq<Chunk>)
    ensures Render(f, xs + ys) == Render(f, xs) + Render(f, ys)
  {
    if xs == [] {
      assert xs + ys == ys;
    } else {
      RenderConcat(f, xs[1..], ys);
      assert (xs + ys)[1..] == xs[1..] + ys;
      ConcatAssociative(f(xs[0]), Render(f, xs[1..]), Render(f, ys));
    }
  }

  /** No mark that policies or descriptors give a meaning to. */
  predicate Plain(s: string) {
    '#' !in s && '*' !in s && '@' !in s && '<' !in s
  }

  // ----- Expanding -----

  lemma {:induction false} ExpandPlain(s: string, rest: string, keys: seq<string>)
    requires Plain(s) && Expand(rest, keys).Some?
    ensures Expand(s + rest, keys) == Some(s + Expand(rest, keys).value)
  {
    if s == "" {
      assert s + rest == rest && s + Expand(rest, keys).value == Expand(rest, keys).value;
    } else {
      assert s[0] in s;
      assert (s + rest)[1..] == s[1..] + rest;
      ExpandPlain(s[1..], rest, keys);
      var tail := Expand(rest, keys).value;
      assert [s[0]] + (s[1..] + tail) == s + tail;
    }
  }

  lemma ExpandPlaceholder(i: nat, rest: string, keys: seq<string>)
    requires i < |keys| && Expand(rest, keys).Some?
    ensures Expand(Placeholder(i) + rest, keys) == Some(keys[i] + MULTIPATH + Expand(rest, keys).value)
  {
    var tail := "/**" + rest;
    assert (Placeholder(i) + rest)[1..] == PrintNat(i) + tail;
    ParsePrintedNat(i, tail);
    assert tail[3..] == rest;
  }

  ghost predicate WellFormed(chunks: seq<Chunk>, n: nat) {
    forall j :: 0 <= j < |chunks| ==>
      match chunks[j]
      case Lit(text) => Plain(text)
      case Key(i) => i < n
  }

  /** The scanner finds the placeholders that were put in, `@1` as well as `@10`. */
  lemma {:induction false} ExpandRender(chunks: seq<Chunk>, keys: seq<string>)
    requires WellFormed(chunks, |keys|)
    ensures Expand(Render(TemplateText(), chunks), keys) == Some(Render(ExpandedText(keys), chunks))
  {
    if chunks != [] {
      ExpandRender(chunks[1..], keys);
      var rest := Render(TemplateText(), chunks[1..]);
      match chunks[0]
      case Lit(text) => ExpandPlain(text, rest, keys);
      case Key(i) => ExpandPlaceholder(i, rest, keys);
    }
  }

  // ----- Lifting wildcards -----

  /** The wildcard cannot start before `s`. */
  predicate NoEarlyStar(s: string) {
    forall j :: 0 <= j < 3 && j < |s| ==> s[j] != '*'
  }

  /** No wildcard starts in a plain text before the last place. */
  lemma NoWildcardHere(s: string, rest: string)
    requires Plain(s) && s != "" && NoEarlyStar(rest)
    ensures !StartsWith(s + rest, WILDCARD) && NoEarlyStar(s + rest)
  {
    forall j | 0 <= j < |s| ensures s[j] != '*' {
      assert s[j] in s;
    }
    forall j | 0 <= j < 4 && j < |s + rest| ensures (s + rest)[j] != '*' {
      assert (s + rest)[j] == if j < |s| then s[j] else rest[j - |s|];
    }
    assert WILDCARD[3] == '*';
  }

  lemma MultipathStep(s: string, rest: string)
    requires s != "" && !StartsWith(s + rest, WILDCARD)
    ensures Multipath(s + rest) == [s[0]] + Multipath(s[1..] + rest)
  {
    assert (s + rest)[1..] == s[1..] + rest;
  }

  lemma {:induction false} MultipathPlain(s: string, rest: string)
    requires Plain(s) && NoEarlyStar(rest)
    ensures Multipath(s + rest) == s + Multipath(rest) && NoEarlyStar(s + rest)
  {
    if s == "" {
      assert s + rest == rest && s + Multipath(rest) == Multipath(rest);
    } else {
      NoWildcardHere(s, rest);
      MultipathStep(s, rest);
      MultipathPlain(s[1..], rest);
      ConcatAssociative([s[0]], s[1..], Multipath(rest));
      assert s == [s[0]] + s[1..];
    }
  }

  lemma MultipathKey(k: DescriptorKey, rest: string)
    requires Plain(k.info) && NoEarlyStar(rest)
    ensures NoEarlyStar(KeyText(k) + rest)
    ensures Multipath(KeyText(k) + rest) == k.info + (if k.ranged then MULTIPATH else "") + Multipath(rest)
  {
    if k.ranged {
      var tail := WILDCARD + rest;
      assert tail[|WILDCARD|..] == rest;
      assert KeyText(k) + rest == k.info + tail;
      MultipathPlain(k.info, tail);
    } else {
      assert KeyText(k) == k.info;
      MultipathPlain(k.info, rest);
    }
  }

  /** In a descriptor only the wildcards of its ranged keys are rewritten. */
  lemma {:induction false} MultipathRender(chunks: seq<Chunk>, keys: seq<DescriptorKey>)
    requires WellFormed(chunks, |keys|) && forall i :: 0 <= i < |keys| ==> Plain(keys[i].info)
    ensures Multipath(Render(BodyText(keys), chunks)) == Render(LiftedText(keys), chunks)
    ensures NoEarlyStar(Render(BodyText(keys), chunks))
  {
    if chunks != [] {
      MultipathRender(chunks[1..], keys);
      var rest := Render(BodyText(keys), chunks[1..]);
      match chunks[0]
      case Lit(text) => MultipathPlain(text, rest);
      case Key(i) => MultipathKey(keys[i], rest);
    }
  }

  // ----- Key text is plain -----

  lemma {:induction false} NatIsPlain(n: nat)
    ensures Plain(PrintNat(n))
  {
    if n >= 10 {
      NatIsPlain(n / 10);
    }
  }

  lemma {:induction false} PathIsPlain(path: seq<ChildNumber>)
    ensures Plain(PathText(path))
  {
    if path != [] {
      NatIsPlain(path[0].index);
      PathIsPlain(path[1..]);
    }
  }

  lemma OriginIsPlain(e: KeyEntry)
    ensures Plain(Origin(e))
  {
    PathIsPlain(e.derivationPath);
    assert Plain(e.fingerprint);
  }

  lemma KeyIsPlain(mode: KeyMode, e: KeyEntry)
    ensures Plain(BuildTaprootKey(mode, e).info) && Plain(BuildDescriptorKey(mode, e).info)
    ensures BuildTaprootKey(mode, e).ranged == BuildDescriptorKey(mode, e).ranged == mode.Ranged?
  {
    OriginIsPlain(e);
    assert Plain(e.xpub.text) && Plain(e.xpub.xonly);
  }

  lemma PlainEnd(s: string, word: string)
    requires Plain(s) && word != "" && word[|word| - 1] == '*'
    ensures !EndsWith(s, word)
  {
    if |s| >= |word| {
      assert s[|s| - |word|..][|word| - 1] == s[|s| - 1];
      assert s[|s| - 1] in s;
    }
  }

  lemma WildcardIsNotMultipath(s: string)
    requires |s| >= 4 && s[|s| - 4..] == WILDCARD
    ensures !EndsWith(s, MULTIPATH)
  {
    if |s| >= 8 {
      assert s[|s| - 8..][4] == s[|s| - 4..][0];
      assert MULTIPATH[4] != WILDCARD[0];
    }
  }

  lemma StripsWildcard(k: DescriptorKey)
    requires Plain(k.info)
    ensures StripWildcard(KeyText(k)) == k.info
  {
    var s := KeyText(k);
    PlainEnd(k.info, WILDCARD);
    if k.ranged {
      assert s[|s| - 4..] == WILDCARD && s[..|s| - 4] == k.info;
      WildcardIsNotMultipath(s);
      assert EndsWith(s, WILDCARD);
      assert TrimEnd(s, WILDCARD) == TrimEnd(k.info, WILDCARD);
    } else {
      assert s == k.info;
      PlainEnd(k.info, MULTIPATH);
    }
  }

  // ----- The two encodings -----

  function CosignerChunks(i: nat, n: nat): seq<Chunk>
    decreases n - i
  {
    if i >= n then [] else [Lit(","), Key(i + 1)] + CosignerChunks(i + 1, n)
  }

  function PolicyChunks(threshold: nat, n: nat): seq<Chunk> {
    [Lit("tr("), Key(0), Lit(",multi_a(" + PrintNat(threshold))] + CosignerChunks(0, n) + [Lit("))")]
  }

  lemma RenderTwo(f: Chunk -> string, a: Chunk, b: Chunk, rest: seq<Chunk>)
    ensures Render(f, [a, b] + rest) == f(a) + (f(b) + Render(f, rest))
  {
    var chunks := [a, b] + rest;
    assert chunks[1..] == [b] + rest && chunks[1..][1..] == rest;
  }

  lemma {:induction false} CosignersJoin(f: Chunk -> string, parts: seq<string>, i: nat)
    requires i < |parts| && f(Lit(",")) == "," && forall j: nat :: j < |parts| ==> parts[j] == f(Key(j + 1))
    ensures Render(f, CosignerChunks(i, |parts|)) == "," + Join(parts[i..])
    decreases |parts| - i
  {
    var rest := CosignerChunks(i + 1, |parts|);
    JoinFrom(parts, i);
    RenderTwo(f, Lit(","), Key(i + 1), rest);
    if i + 1 < |parts| {
      CosignersJoin(f, parts, i + 1);
    }
  }

  /** The pieces of a taproot descriptor or template, around the keys as `f` writes them. */
  lemma Assembled(f: Chunk -> string, threshold: nat, parts: seq<string>)
    requires forall text :: f(Lit(text)) == text
    requires parts != [] && forall j: nat :: j < |parts| ==> parts[j] == f(Key(j + 1))
    ensures Render(f, PolicyChunks(threshold, |parts|)) ==
            "tr(" + f(Key(0)) + ",multi_a(" + PrintNat(threshold) + "," + Join(parts) + "))"
  {
    var cosigners := CosignerChunks(0, |parts|);
    CosignersJoin(f, parts, 0);
    assert parts[0..] == parts;
    var multi := ",multi_a(" + PrintNat(threshold);
    RenderEnds(f, Lit("tr("), Key(0), Lit(multi), cosigners, Lit("))"));
    Glue(f(Key(0)), PrintNat(threshold), Join(parts));
  }

  lemma RenderEnds(f: Chunk -> string, a: Chunk, b: Chunk, c: Chunk, inner: seq<Chunk>, d: Chunk)
    ensures Render(f, [a, b, c] + inner + [d]) == f(a) + (f(b) + (f(c) + (Render(f, inner) + f(d))))
  {
    var tail := inner + [d];
    assert [a, b, c] + inner + [d] == [a, b] + ([c] + tail);
    RenderTwo(f, a, b, [c] + tail);
    assert ([c] + tail)[1..] == tail;
    RenderConcat(f, inner, [d]);
    assert [d][1..] == [];
    assert f(d) + "" == f(d);
  }

  lemma Glue(key: string, threshold: string, joined: string)
    ensures "tr(" + (key + ((",multi_a(" + threshold) + (("," + joined) + "))"))) ==
            "tr(" + key + ",multi_a(" + threshold + "," + joined + "))"
  {
  }

  lemma {:induction false} CosignersWellFormed(i: nat, n: nat)
    ensures WellFormed(CosignerChunks(i, n), n + 1)
    decreases n - i
  {
    if i < n {
      CosignersWellFormed(i + 1, n);
    }
  }

  lemma PolicyWellFormed(threshold: nat, n: nat)
    ensures WellFormed(PolicyChunks(threshold, n), n + 1)
  {
    CosignersWellFormed(0, n);
    NatIsPlain(threshold);
    assert Plain(",multi_a(" + PrintNat(threshold));
  }

  // ----- Agreement -----

  lemma {:induction false} CutsAtHash(s: string, rest: string)
    requires '#' !in s
    ensures BeforeHash(s + "#" + rest) == s
  {
    if s != "" {
      assert s[0] in s;
      assert (s + "#" + rest)[1..] == s[1..] + "#" + rest;
      CutsAtHash(s[1..], rest);
      assert s == [s[0]] + s[1..];
    }
  }

  /** The keys of the built taproot descriptor, the internal one first. */
  function AllKeys(lib: Library, c: Config): seq<DescriptorKey> {
    [InternalKey(lib, c)] + SortedTaprootKeys(c)
  }

  lemma {:induction false} RenderSame(f: Chunk -> string, g: Chunk -> string, chunks: seq<Chunk>)
    requires forall j :: 0 <= j < |chunks| ==> f(chunks[j]) == g(chunks[j])
    ensures Render(f, chunks) == Render(g, chunks)
  {
    if chunks != [] {
      RenderSame(f, g, chunks[1..]);
    }
  }

  lemma {:induction false} RenderShorter(f: Chunk -> string, g: Chunk -> string, chunks: seq<Chunk>, k: nat)
    requires forall j :: 0 <= j < |chunks| ==> |f(chunks[j])| <= |g(chunks[j])|
    requires k < |chunks| && |f(chunks[k])| < |g(chunks[k])|
    ensures |Render(f, chunks)| < |Render(g, chunks)|
  {
    if k > 0 {
      RenderShorter(f, g, chunks[1..], k - 1);
    } else {
      RenderNotLonger(f, g, chunks[1..]);
    }
  }

  lemma {:induction false} RenderNotLonger(f: Chunk -> string, g: Chunk -> string, chunks: seq<Chunk>)
    requires forall j :: 0 <= j < |chunks| ==> |f(chunks[j])| <= |g(chunks[j])|
    ensures |Render(f, chunks)| <= |Render(g, chunks)|
  {
    if chunks != [] {
      RenderNotLonger(f, g, chunks[1..]);
    }
  }

  /** Lifted keys are expanded keys exactly when every cosigner is ranged. */
  lemma LiftedIsExpanded(threshold: nat, keys: seq<DescriptorKey>, infos: seq<string>, ranged: bool)
    requires |keys| == |infos| > 1 && keys[0].ranged
    requires forall i :: 0 <= i < |keys| ==> infos[i] == keys[i].info
    requires forall i :: 1 <= i < |keys| ==> keys[i].ranged == ranged
    ensures var chunks := PolicyChunks(threshold, |keys| - 1);
            Render(LiftedText(keys), chunks) == Render(ExpandedText(infos), chunks) <==> ranged
  {
    var chunks := PolicyChunks(threshold, |keys| - 1);
    var lifted, expanded := LiftedText(keys), ExpandedText(infos);
    PolicyWellFormed(threshold, |keys| - 1);
    if ranged {
      RenderSame(lifted, expanded, chunks);
    } else {
      assert chunks[4] == Key(1);
      RenderShorter(lifted, expanded, chunks, 4);
    }
  }

  /** Every cosigner key is plain, is ranged in ranged mode only, and there is one for each entry. */
  lemma CosignerShape(c: Config)
    requires c.entries != map[]
    ensures SortedTaprootKeys(c) != []
    ensures forall k :: k in SortedTaprootKeys(c) ==> Plain(k.info) && k.ranged == c.mode.Ranged?
  {
    var ids := SortedKeys(c.entries.Keys);
    var keyed := KeyedEntries(c, ids);
    var id :| id in c.entries;
    assert id in ids;
    SortKeeps(keyed);
    forall k | k in StableSort(keyed) ensures Plain(k.1.info) && k.1.ranged == c.mode.Ranged? {
      assert k in multiset(keyed);
      var i :| 0 <= i < |keyed| && keyed[i] == k;
      KeyIsPlain(c.mode, c.entries[ids[i]]);
    }
  }

  /** The keys of a NUMS-xpub builder, internal key first. */
  lemma AllKeysShape(lib: Library, c: Config)
    requires c.entries != map[] && c.internalKey.NumsXpub?
    ensures var keys := AllKeys(lib, c);
            && |keys| == |SortedTaprootKeys(c)| + 1 > 1 && keys[0].ranged
            && (forall i :: 0 <= i < |keys| ==> Plain(keys[i].info))
            && (forall i :: 1 <= i < |keys| ==> keys[i].ranged == c.mode.Ranged?)
  {
    CosignerShape(c);
    var keys := AllKeys(lib, c);
    assert Plain(keys[0].info);
    forall i | 1 <= i < |keys| ensures Plain(keys[i].info) && keys[i].ranged == c.mode.Ranged? {
      assert keys[i] == SortedTaprootKeys(c)[i - 1];
      assert keys[i] in SortedTaprootKeys(c);
    }
  }

  // ----- One keychain of a multipath string -----

  /** The text of one keychain: `digit` in the place of both. */
  function Select(s: string, digit: char): string {
    if s == "" then ""
    else if StartsWith(s, "<0;1>") then [digit] + Select(s[5..], digit)
    else [s[0]] + Select(s[1..], digit)
  }

  lemma SelectLifted(rest: string, digit: char)
    ensures Select(MULTIPATH + rest, digit) == ['/', digit, '/', '*'] + Select(rest, digit)
  {
    var tail := "/*" + rest;
    assert (MULTIPATH + rest)[1..] == "<0;1>" + tail;
    assert ("<0;1>" + tail)[5..] == tail;
    assert tail[1..] == "*" + rest && ("*" + rest)[1..] == rest;
    assert Select("*" + rest, digit) == ['*'] + Select(rest, digit);
    assert Select(tail, digit) == ['/'] + Select("*" + rest, digit);
    assert Select("<0;1>" + tail, digit) == [digit] + Select(tail, digit);
    assert Select(MULTIPATH + rest, digit) == ['/'] + Select("<0;1>" + tail, digit);
  }

  /** Lifting the wildcards and selecting the external keychain gives back the text. */
  lemma {:induction false} SelectUndoesMultipath(s: string)
    requires '<' !in s
    ensures Select(Multipath(s), '0') == s
  {
    if s != "" {
      if StartsWith(s, WILDCARD) {
        assert s == WILDCARD + s[4..];
        SelectUndoesMultipath(s[4..]);
        SelectLifted(Multipath(s[4..]), '0');
      } else {
        assert s[0] in s;
        SelectUndoesMultipath(s[1..]);
        assert ([s[0]] + Multipath(s[1..]))[1..] == Multipath(s[1..]);
        assert s == [s[0]] + s[1..];
      }
    }
  }

  predicate Clean(s: string) {
    '#' !in s && '<' !in s
  }

  lemma {:induction false} JoinIsClean(parts: seq<string>)
    requires forall part :: part in parts ==> Clean(part)
    ensures Clean(Join(parts))
  {
    if parts != [] {
      assert Clean(parts[0]);
      if |parts| > 1 {
        JoinIsClean(parts[1..]);
      }
    }
  }

  lemma CosignersArePlain(c: Config)
    requires c.entries != map[]
    ensures forall k :: k in CosignerKeys(c) ==> Plain(k.info)
  {
    match c.scriptType
    case Tr => CosignerShape(c);
    case Wsh =>
      var ids := SortedKeys(c.entries.Keys);
      forall i | 0 <= i < |ids| ensures Plain(WshKeys(c, ids)[i].info) {
        KeyIsPlain(c.mode, c.entries[ids[i]]);
      }
  }

  lemma WshIsClean(threshold: string, joined: string)
    requires Clean(threshold) && Clean(joined)
    ensures Clean("wsh(sortedmulti(" + threshold + "," + joined + "))")
  {
  }

  lemma TrIsClean(internal: string, threshold: string, joined: string)
    requires Clean(internal) && Clean(threshold) && Clean(joined)
    ensures Clean("tr(" + internal + ",multi_a(" + threshold + "," + joined + "))")
  {
  }

  lemma TextsAreClean(keys: seq<DescriptorKey>)
    requires forall k :: k in keys ==> Plain(k.info)
    ensures Clean(Join(Texts(keys)))
  {
    forall i | 0 <= i < |keys| ensures Clean(Texts(keys)[i]) {
      assert keys[i] in keys;
    }
    JoinIsClean(Texts(keys));
  }

  lemma BodyIsClean(lib: Library, c: Config)
    requires c.entries != map[]
    ensures Clean(Body(lib, c))
  {
    CosignersArePlain(c);
    TextsAreClean(CosignerKeys(c));
    NatIsPlain(c.threshold);
    InternalKeyIsClean(lib, c);
    WshIsClean(PrintNat(c.threshold), Join(Texts(CosignerKeys(c))));
    TrIsClean(KeyText(InternalKey(lib, c)), PrintNat(c.threshold), Join(Texts(CosignerKeys(c))));
  }

  lemma InternalKeyIsClean(lib: Library, c: Config)
    ensures Clean(KeyText(InternalKey(lib, c)))
  {
    match c.internalKey
    case RawNums =>
      assert Clean("50929b74c1a04954") && Clean("b78b4b6035e97a5e") && Clean("078a5a0f28ec96d5") &&
        Clean("47bfee9ace803ac0");
    case NumsXpub(chainCode) =>
      assert Plain(lib.numsXpub(IsMainnet(c.network), chainCode));
  }

  /** Of every descriptor that is built, the multipath string says exactly what its external keychain is. */
  lemma MultipathRoundTrip(lib: Library, c: Config)
    requires Built(lib, c).Ok?
    ensures var d := Built(lib, c).value; Select(ToMultipathString(lib, d), '0') == d.body
  {
    var body := Built(lib, c).value.body;
    BodyIsClean(lib, c);
    CutsAtHash(body, lib.checksum(body));
    SelectUndoesMultipath(body);
  }

  lemma BodyIs(lib: Library, c: Config)
    requires c.scriptType.Tr? && SortedTaprootKeys(c) != []
    ensures Body(lib, c) == Render(BodyText(AllKeys(lib, c)), PolicyChunks(c.threshold, |SortedTaprootKeys(c)|))
  {
    Assembled(BodyText(AllKeys(lib, c)), c.threshold, Texts(SortedTaprootKeys(c)));
  }

  /** The multipath string of a taproot descriptor, piece by piece. */
  lemma MultipathIs(lib: Library, c: Config)
    requires c.entries != map[] && c.internalKey.NumsXpub? && c.scriptType.Tr?
    ensures ToMultipathString(lib, Descriptor(Body(lib, c))) ==
            Render(LiftedText(AllKeys(lib, c)), PolicyChunks(c.threshold, |SortedTaprootKeys(c)|))
  {
    var cosigners, keys := SortedTaprootKeys(c), AllKeys(lib, c);
    var chunks := PolicyChunks(c.threshold, |cosigners|);
    AllKeysShape(lib, c);
    PolicyWellFormed(c.threshold, |cosigners|);
    BodyIs(lib, c);
    BodyIsClean(lib, c);
    CutsAtHash(Body(lib, c), lib.checksum(Body(lib, c)));
    MultipathRender(chunks, keys);
  }

  lemma TemplateIs(threshold: nat, n: nat)
    requires n > 0
    ensures Template(threshold, n) == Render(TemplateText(), PolicyChunks(threshold, n))
  {
    Assembled(TemplateText(), threshold, Placeholders(n));
    assert TemplateText()(Key(0)) == Placeholder(0) == "@0/**" by {
      assert PrintNat(0) == "0";
    }
  }

  /** The policy's template and keys, piece by piece. */
  lemma PolicyIs(lib: Library, c: Config)
    requires c.entries != map[] && c.internalKey.NumsXpub? && c.scriptType.Tr? && c.network.Bitcoin?
    ensures var policy := Policy(lib, c);
            && policy.Ok?
            && policy.value.template == Render(TemplateText(), PolicyChunks(c.threshold, |SortedTaprootKeys(c)|))
            && |policy.value.keys| == |AllKeys(lib, c)|
            && forall i :: 0 <= i < |policy.value.keys| ==> policy.value.keys[i] == AllKeys(lib, c)[i].info
  {
    var keys := AllKeys(lib, c);
    AllKeysShape(lib, c);
    TemplateIs(c.threshold, |SortedTaprootKeys(c)|);
    forall i | 0 <= i < |keys| ensures Stripped(keys)[i] == keys[i].info {
      StripsWildcard(keys[i]);
    }
  }

  /**
   Agreement: whenever a NUMS-xpub taproot builder yields a descriptor it also yields a policy, and
   expanding the policy gives the descriptor's multipath string exactly in ranged mode.
   */
  lemma PolicyAgreesWithDescriptor(lib: Library, c: Config)
    requires Built(lib, c).Ok? && c.internalKey.NumsXpub? && c.scriptType.Tr?
    ensures Policy(lib, c).Ok?
    ensures var policy := Policy(lib, c).value;
            && Expand(policy.template, policy.keys).Some?
            && (Expand(policy.template, policy.keys) == Some(ToMultipathString(lib, Built(lib, c).value)) <==>
               c.mode.Ranged?)
  {
    PolicyIs(lib, c);
    MultipathIs(lib, c);
    AllKeysShape(lib, c);
    var policy, n := Policy(lib, c).value, |SortedTaprootKeys(c)|;
    PolicyWellFormed(c.threshold, n);
    ExpandRender(PolicyChunks(c.threshold, n), policy.keys);
    LiftedIsExpanded(c.threshold, AllKeys(lib, c), policy.keys, c.mode.Ranged?);
  }

  /** One signer with a fixed key, in a library that accepts everything. */
  function FixedSigner(): Config {
    var key := KeyEntry("f", [], Xpub(false, "t", false, "k"));
    Config(1, Fixed, Tr, NumsXpub([]), Bitcoin(Testnet), map["a" := key])
  }

  function AcceptingLibrary(): Library {
    Library((mainnet, chainCode) => "n", body => "", body => true)
  }

  /** In fixed mode the policy is produced and is another descriptor. */
  lemma FixedPolicyDiffers()
    ensures var lib, c := AcceptingLibrary(), FixedSigner();
            && Built(lib, c).Ok? && Policy(lib, c).Ok?
            && Expand(Policy(lib, c).value.template, Policy(lib, c).value.keys) !=
               Some(ToMultipathString(lib, Built(lib, c).value))
  {
    var lib, c := AcceptingLibrary(), FixedSigner();
    assert c.entries.Keys == {"a"} && "a" in c.entries;
    OneSortedKey("a");
    var keyed := KeyedEntries(c, SortedKeys(c.entries.Keys));
    assert |keyed| == 1;
    SortKeeps(keyed);
    assert |SortedTaprootKeys(c)| == 1 && |Texts(CosignerKeys(c))| == 1;
    BuiltExactly(lib, c);
    PolicyAgreesWithDescriptor(lib, c);
  }

  lemma OneSortedKey(key: string)
    ensures SortedKeys({key}) == [key]
  {
    var keys := SortedKeys({key});
    assert key in keys;
    forall i | 0 <= i < |keys| ensures keys[i] == key {
      assert keys[i] in keys;
    }
    if |keys| > 1 {
      BeforeIsTotal(keys[0], keys[1]);
    }
  }
}
