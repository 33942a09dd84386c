/**
 A reader of descriptor texts, and what the built descriptors say to it: the script form, the
 threshold, and for each key where it comes from, its material and whether it is ranged.
 */
module DescriptorReader {
  import opened Seqs
  import opened Text
  import opened Networks
  import opened Descriptors
  import opened DescriptorTheorems

  type Read<T> = Option<(T, string)>

  /** A key in brackets of origin: fingerprint, path, key material, and a wildcard or none. */
  datatype KeyReading = KeyReading(fingerprint: string, path: seq<ChildNumber>, material: string, ranged: bool)

  datatype Reading =
    | SortedMulti(threshold: nat, keys: seq<KeyReading>)
    | TaprootMulti(internal: string, internalRanged: bool, threshold: nat, keys: seq<KeyReading>)

  // ----- The reader -----

  predicate Next(s: string, c: char) {
    s != "" && s[0] == c
  }

  /** As many letters and digits as there are. */
  function ReadAlnum(s: string): (r: (string, string))
    ensures |r.1| <= |s|
  {
    if s != "" && IsAlnum(s[0]) then var (word, rest) := ReadAlnum(s[1..]); ([s[0]] + word, rest) else ("", s)
  }

  /** Steps like `/48'/0` up to the closing bracket. */
  function ReadPath(s: string): (r: Read<seq<ChildNumber>>)
    ensures r.Some? ==> |r.value.1| < |s|
    decreases |s|
  {
    if Next(s, ']') then Some(([], s[1..]))
    else if !Next(s, '/') || !StartsWithDigit(s[1..]) then None
    else
      var (index, rest) := ParseDigits(s[1..], 0);
      var hardened := Next(rest, '\'');
      match ReadPath(if hardened then rest[1..] else rest)
      case None => None
      case Some((path, rest')) => Some(([ChildNumber(index, hardened)] + path, rest'))
  }

  /** A wildcard, if there is one. */
  function ReadWildcard(s: string): (r: (bool, string))
    ensures |r.1| <= |s|
  {
    if StartsWith(s, "/0/*") then (true, s[4..]) else (false, s)
  }

  function ReadKey(s: string): (r: Read<KeyReading>)
    ensures r.Some? ==> |r.value.1| < |s|
  {
    if !Next(s, '[') then None
    else
      var (fingerprint, rest) := ReadAlnum(s[1..]);
      match ReadPath(rest)
      case None => None
      case Some((path, rest')) =>
        var (material, after) := ReadAlnum(rest');
        var (ranged, end) := ReadWildcard(after);
        Some((KeyReading(fingerprint, path, material, ranged), end))
  }

  /** Keys, each after a comma, and the two closing parentheses. */
  function ReadKeys(s: string): Option<seq<KeyReading>>
    decreases |s|
  {
    if s == "))" then Some([])
    else if !Next(s, ',') then None
    else match ReadKey(s[1..])
      case None => None
      case Some((key, rest)) =>
        match ReadKeys(rest)
        case None => None
        case Some(keys) => Some([key] + keys)
  }

  function ReadDescriptor(s: string): Option<Reading> {
    if StartsWith(s, "wsh(sortedmulti(") && StartsWithDigit(s[16..]) then
      var (threshold, rest) := ParseDigits(s[16..], 0);
      match ReadKeys(rest)
      case None => None
      case Some(keys) => Some(SortedMulti(threshold, keys))
    else if StartsWith(s, "tr(") then
      var (internal, after) := ReadAlnum(s[3..]);
      var (ranged, rest) := ReadWildcard(after);
      if !StartsWith(rest, ",multi_a(") || !StartsWithDigit(rest[9..]) then None
      else
        var (threshold, rest') := ParseDigits(rest[9..], 0);
        match ReadKeys(rest')
        case None => None
        case Some(keys) => Some(TaprootMulti(internal, ranged, threshold, keys))
    else None
  }

  // ----- Reading keys back -----

  predicate StartsAlnum(s: string) {
    s != "" && IsAlnum(s[0])
  }

  lemma {:induction false} ReadsAlnum(word: string, rest: string)
    requires (forall i :: 0 <= i < |word| ==> IsAlnum(word[i])) && !StartsAlnum(rest)
    ensures ReadAlnum(word + rest) == (word, rest)
  {
    if word == "" {
      assert word + rest == rest;
    } else {
      assert (word + rest)[1..] == word[1..] + rest;
      ReadsAlnum(word[1..], rest);
      assert [word[0]] + word[1..] == word;
    }
  }

  lemma {:induction false} ReadsPath(path: seq<ChildNumber>, rest: string)
    ensures ReadPath(PathText(path) + "]" + rest) == Some((path, rest))
  {
    if path == [] {
      assert PathText(path) + "]" + rest == "]" + rest;
      assert ("]" + rest)[1..] == rest;
    } else {
      var tail := PathText(path[1..]) + "]" + rest;
      ReadsPath(path[1..], rest);
      PathTextHead(path, rest);
      ReadsStep(path[0], path[1..], tail, rest);
      assert [path[0]] + path[1..] == path;
    }
  }

  function StepText(c: ChildNumber): string {
    "/" + PrintNat(c.index) + (if c.hardened then "'" else "")
  }

  lemma PathTextHead(path: seq<ChildNumber>, rest: string)
    requires path != []
    ensures PathText(path) + "]" + rest == StepText(path[0]) + (PathText(path[1..]) + "]" + rest)
    ensures var tail := PathText(path[1..]) + "]" + rest;
            tail != "" && !IsDigit(tail[0]) && tail[0] != '\''
  {
    ConcatAssociative(StepText(path[0]), PathText(path[1..]), "]");
    ConcatAssociative(StepText(path[0]), PathText(path[1..]) + "]", rest);
  }

  lemma ReadsNumber(n: nat, after: string)
    requires !StartsWithDigit(after)
    ensures StartsWithDigit(PrintNat(n) + after) && ParseDigits(PrintNat(n) + after, 0) == (n, after)
  {
    ParsePrintedNat(n, after);
  }

  lemma PathStep(s: string, index: nat, after: string, path: seq<ChildNumber>, rest: string)
    requires Next(s, '/') && StartsWithDigit(s[1..]) && ParseDigits(s[1..], 0) == (index, after)
    requires ReadPath(if Next(after, '\'') then after[1..] else after) == Some((path, rest))
    ensures ReadPath(s) == Some(([ChildNumber(index, Next(after, '\''))] + path, rest))
  {
  }

  lemma StepAndTail(c: ChildNumber, tail: string)
    ensures var after := (if c.hardened then "'" else "") + tail;
            && StepText(c) + tail == "/" + (PrintNat(c.index) + after)
            && ("/" + (PrintNat(c.index) + after))[1..] == PrintNat(c.index) + after
            && after == (if c.hardened then "'" + tail else tail)
            && ("'" + tail)[1..] == tail
  {
  }

  lemma ReadsStep(c: ChildNumber, path: seq<ChildNumber>, tail: string, rest: string)
    requires ReadPath(tail) == Some((path, rest)) && tail != "" && !IsDigit(tail[0]) && tail[0] != '\''
    ensures ReadPath(StepText(c) + tail) == Some(([c] + path, rest))
  {
    var after := (if c.hardened then "'" else "") + tail;
    StepAndTail(c, tail);
    ReadsNumber(c.index, after);
    PathStep(StepText(c) + tail, c.index, after, path, rest);
  }

  /** A written key with what is read from it. */
  lemma ReadsOriginKey(e: KeyEntry, material: string, ranged: bool, rest: string)
    requires (forall i :: 0 <= i < |material| ==> IsAlnum(material[i])) && !StartsAlnum(rest) &&
             !StartsWith(rest, "/0/*")
    ensures var text := Origin(e) + material + (if ranged then "/0/*" else "");
            ReadKey(text + rest) == Some((KeyReading(e.fingerprint, e.derivationPath, material, ranged), rest))
  {
    var after := (if ranged then "/0/*" else "") + rest;
    var body := PathText(e.derivationPath) + "]" + (material + after);
    OriginText(e, material, if ranged then "/0/*" else "", rest);
    assert ("[" + (e.fingerprint + body))[1..] == e.fingerprint + body;
    assert body != "" && !StartsAlnum(body) by {
      if e.derivationPath != [] {
        assert body[0] == '/';
      }
    }
    ReadsAlnum(e.fingerprint, body);
    ReadsPath(e.derivationPath, material + after);
    ReadsAlnum(material, after);
    ReadsWildcard(ranged, rest);
  }

  lemma ReadsWildcard(ranged: bool, rest: string)
    requires !StartsWith(rest, "/0/*")
    ensures ReadWildcard((if ranged then "/0/*" else "") + rest) == (ranged, rest)
  {
    if ranged {
      assert ("/0/*" + rest)[4..] == rest;
    } else {
      assert "" + rest == rest;
    }
  }

  lemma OriginText(e: KeyEntry, material: string, wildcard: string, rest: string)
    ensures Origin(e) + material + wildcard + rest ==
            "[" + (e.fingerprint + (PathText(e.derivationPath) + "]" + (material + (wildcard + rest))))
  {
  }

  // ----- What the keys are -----

  /** The key of an entry, as a descriptor of this form and mode shows it. */
  function KeyOfEntry(scriptType: ScriptType, mode: KeyMode, e: KeyEntry): KeyReading {
    KeyReading(
      e.fingerprint,
      e.derivationPath,
      if mode.Ranged? then e.xpub.text
      else if scriptType.Tr? then e.xpub.xonly
      else if e.xpub.oddY then "03" + e.xpub.xonly
      else "02" + e.xpub.xonly,
      mode.Ranged?)
  }

  /** The written key of an entry is read back as the entry has it. */
  lemma ReadsKey(scriptType: ScriptType, mode: KeyMode, e: KeyEntry, rest: string)
    requires !StartsAlnum(rest) && !StartsWith(rest, "/0/*")
    ensures var key := if scriptType.Tr? then BuildTaprootKey(mode, e) else BuildDescriptorKey(mode, e);
            ReadKey(KeyText(key) + rest) == Some((KeyOfEntry(scriptType, mode, e), rest))
  {
    var k := KeyOfEntry(scriptType, mode, e);
    MaterialIsAlnum(scriptType, mode, e);
    ReadsOriginKey(e, k.material, k.ranged, rest);
  }

  lemma MaterialIsAlnum(scriptType: ScriptType, mode: KeyMode, e: KeyEntry)
    ensures forall i :: 0 <= i < |KeyOfEntry(scriptType, mode, e).material| ==>
              IsAlnum(KeyOfEntry(scriptType, mode, e).material[i])
  {
  }

  /** `keys` are the written keys of `entries`, in this order. */
  ghost predicate Written(scriptType: ScriptType, mode: KeyMode, entries: seq<KeyEntry>, keys: seq<DescriptorKey>) {
    && |keys| == |entries|
    && forall i :: 0 <= i < |keys| ==>
         keys[i] == if scriptType.Tr? then BuildTaprootKey(mode, entries[i]) else BuildDescriptorKey(mode, entries[i])
  }

  function KeysOfEntries(scriptType: ScriptType, mode: KeyMode, entries: seq<KeyEntry>): (keys: seq<KeyReading>)
    ensures |keys| == |entries| && forall i :: 0 <= i < |keys| ==> keys[i] == KeyOfEntry(scriptType, mode, entries[i])
  {
    seq(|entries|, i requires 0 <= i < |entries| => KeyOfEntry(scriptType, mode, entries[i]))
  }

  lemma {:induction false} ReadsKeys(scriptType: ScriptType, mode: KeyMode, entries: seq<KeyEntry>,
                                     keys: seq<DescriptorKey>, i: nat)
    requires Written(scriptType, mode, entries, keys) && i < |keys|
    ensures ReadKeys("," + Join(Texts(keys)[i..]) + "))") == Some(KeysOfEntries(scriptType, mode, entries)[i..])
    decreases |keys| - i
  {
    var parts, all := Texts(keys), KeysOfEntries(scriptType, mode, entries);
    if i + 1 < |keys| {
      ReadsKeys(scriptType, mode, entries, keys, i + 1);
    } else {
      assert all[i + 1..] == [];
    }
    KeysFrom(all, i);
    var rest := RestOf(parts, i);
    RestText(parts, i);
    ReadsKey(scriptType, mode, entries[i], rest);
    ReadsNext(parts[i], rest, all[i], all[i + 1..]);
  }

  lemma KeysFrom(keys: seq<KeyReading>, i: nat)
    requires i < |keys|
    ensures [keys[i]] + keys[i + 1..] == keys[i..]
  {
  }

  /** What follows part `i`. */
  function RestOf(parts: seq<string>, i: nat): string
    requires i < |parts|
  {
    if i + 1 < |parts| then "," + Join(parts[i + 1..]) + "))" else "))"
  }

  lemma RestText(parts: seq<string>, i: nat)
    requires i < |parts|
    ensures "," + Join(parts[i..]) + "))" == "," + (parts[i] + RestOf(parts, i))
    ensures !StartsAlnum(RestOf(parts, i)) && !StartsWith(RestOf(parts, i), "/0/*")
  {
    JoinFrom(parts, i);
  }

  lemma ReadsNext(part: string, rest: string, key: KeyReading, keys: seq<KeyReading>)
    requires ReadKey(part + rest) == Some((key, rest)) && ReadKeys(rest) == Some(keys)
    ensures ReadKeys("," + (part + rest)) == Some([key] + keys)
  {
    assert ("," + (part + rest))[1..] == part + rest;
  }

  // ----- What the built texts are -----

  lemma ReadsWsh(threshold: nat, mode: KeyMode, entries: seq<KeyEntry>, keys: seq<DescriptorKey>)
    requires Written(Wsh, mode, entries, keys) && keys != []
    ensures ReadDescriptor(WshBody(threshold, keys)) == Some(SortedMulti(threshold, KeysOfEntries(Wsh, mode, entries)))
  {
    var body, rest := WshBody(threshold, keys), "," + Join(Texts(keys)) + "))";
    assert Texts(keys)[0..] == Texts(keys);
    ReadsKeys(Wsh, mode, entries, keys, 0);
    assert KeysOfEntries(Wsh, mode, entries)[0..] == KeysOfEntries(Wsh, mode, entries);
    WshText(PrintNat(threshold), Join(Texts(keys)));
    ParsePrintedNat(threshold, rest);
  }

  lemma WshText(threshold: string, joined: string)
    ensures var body := "wsh(sortedmulti(" + threshold + "," + joined + "))";
            StartsWith(body, "wsh(sortedmulti(") && body[16..] == threshold + ("," + joined + "))")
  {
    var body := "wsh(sortedmulti(" + threshold + "," + joined + "))";
    assert body == "wsh(sortedmulti(" + (threshold + ("," + joined + "))"));
  }

  lemma ReadsTr(internal: DescriptorKey, threshold: nat, mode: KeyMode, entries: seq<KeyEntry>,
      keys: seq<DescriptorKey>)
    requires Written(Tr, mode, entries, keys) && keys != []
    requires forall i :: 0 <= i < |internal.info| ==> IsAlnum(internal.info[i])
    ensures ReadDescriptor(TrBody(internal, threshold, keys)) ==
            Some(TaprootMulti(internal.info, internal.ranged, threshold, KeysOfEntries(Tr, mode, entries)))
  {
    var rest := "," + Join(Texts(keys)) + "))";
    assert Texts(keys)[0..] == Texts(keys);
    ReadsKeys(Tr, mode, entries, keys, 0);
    assert KeysOfEntries(Tr, mode, entries)[0..] == KeysOfEntries(Tr, mode, entries);
    ParsePrintedNat(threshold, rest);
    var multi := ",multi_a(" + (PrintNat(threshold) + rest);
    assert multi[9..] == PrintNat(threshold) + rest;
    ReadsInternal(internal, multi);
    TrText(internal, PrintNat(threshold), Join(Texts(keys)));
    ReadsNumber(threshold, rest);
    TaprootIs(TrBody(internal, threshold, keys), internal, multi, threshold, rest, KeysOfEntries(Tr, mode, entries));
  }

  lemma NotAlnumAfter(ranged: bool, multi: string)
    requires Next(multi, ',')
    ensures !StartsAlnum((if ranged then "/0/*" else "") + multi)
  {
  }

  lemma ReadsInternal(internal: DescriptorKey, multi: string)
    requires forall i :: 0 <= i < |internal.info| ==> IsAlnum(internal.info[i])
    requires StartsWith(multi, ",multi_a(")
    ensures var after := (if internal.ranged then "/0/*" else "") + multi;
            && KeyText(internal) + multi == internal.info + after
            && ReadAlnum(internal.info + after) == (internal.info, after)
            && ReadWildcard(after) == (internal.ranged, multi)
  {
    var wildcard := if internal.ranged then "/0/*" else "";
    assert multi[0] == ",multi_a("[0] && multi[0] != "/0/*"[0];
    ReadsWildcard(internal.ranged, multi);
    ConcatAssociative(internal.info, wildcard, multi);
    NotAlnumAfter(internal.ranged, multi);
    ReadsAlnum(internal.info, wildcard + multi);
  }

  lemma TrText(internal: DescriptorKey, threshold: string, joined: string)
    ensures var multi := ",multi_a(" + (threshold + ("," + joined + "))"));
            var body := "tr(" + KeyText(internal) + ",multi_a(" + threshold + "," + joined + "))";
            && StartsWith(body, "tr(") && !StartsWith(body, "wsh(sortedmulti(") &&
               body[3..] == KeyText(internal) + multi
  {
    var multi := ",multi_a(" + (threshold + ("," + joined + "))"));
    var body := "tr(" + KeyText(internal) + ",multi_a(" + threshold + "," + joined + "))";
    assert body == "tr(" + (KeyText(internal) + multi);
    assert body[0] == 't';
  }

  lemma TaprootIs(s: string, internal: DescriptorKey, multi: string, threshold: nat, rest: string,
      keys: seq<KeyReading>)
    requires StartsWith(s, "tr(") && !StartsWith(s, "wsh(sortedmulti(")
    requires ReadAlnum(s[3..]).0 == internal.info && ReadWildcard(ReadAlnum(s[3..]).1) == (internal.ranged, multi)
    requires StartsWith(multi, ",multi_a(") && StartsWithDigit(multi[9..])
    requires ParseDigits(multi[9..], 0) == (threshold, rest) && ReadKeys(rest) == Some(keys)
    ensures ReadDescriptor(s) == Some(TaprootMulti(internal.info, internal.ranged, threshold, keys))
  {
  }

  // ----- What is built -----

  /** The entries in the order of their ids. */
  function EntriesById(entries: map<string, KeyEntry>): (es: seq<KeyEntry>)
    ensures |es| == |SortedKeys(entries.Keys)|
    ensures forall i :: 0 <= i < |es| ==> es[i] == entries[SortedKeys(entries.Keys)[i]]
  {
    var ids := SortedKeys(entries.Keys);
    seq(|ids|, i requires 0 <= i < |ids| => entries[ids[i]])
  }

  lemma SomeEntry(entries: map<string, KeyEntry>)
    requires entries != map[]
    ensures SortedKeys(entries.Keys) != [] && OrderedEntries(entries) != []
  {
    var id :| id in entries;
    assert id in SortedKeys(entries.Keys);
    SortKeeps(WithXonly(entries, SortedKeys(entries.Keys)));
  }

  lemma WrittenById(c: Config)
    requires c.scriptType.Wsh?
    ensures Written(Wsh, c.mode, EntriesById(c.entries), CosignerKeys(c))
  {
  }

  /**
   The text of a segwit descriptor: a sorted multisig of the builder's threshold over the keys of its
   entries, in the order of their ids, each with its origin, its material and its wildcard.
   */
  lemma WshReads(lib: Library, c: Config)
    requires Built(lib, c).Ok? && c.scriptType.Wsh?
    ensures ReadDescriptor(Built(lib, c).value.body) ==
            Some(SortedMulti(c.threshold, KeysOfEntries(Wsh, c.mode, EntriesById(c.entries))))
  {
    SomeEntry(c.entries);
    WrittenById(c);
    ReadsWsh(c.threshold, c.mode, EntriesById(c.entries), CosignerKeys(c));
  }

  /**
   The text of a taproot descriptor: the unspendable internal key and a multisig of the builder's
   threshold over the keys of its entries, in the order of their x-only keys.
   */
  lemma TrReads(lib: Library, c: Config)
    requires Built(lib, c).Ok? && c.scriptType.Tr?
    ensures ReadDescriptor(Built(lib, c).value.body) ==
            Some(TaprootMulti(
              if c.internalKey.RawNums? then NUMS_INTERNAL_KEY
              else lib.numsXpub(c.network == Bitcoin(Mainnet), c.internalKey.chainCode),
              c.internalKey.NumsXpub?,
              c.threshold,
              KeysOfEntries(Tr, c.mode, OrderedEntries(c.entries))))
  {
    SomeEntry(c.entries);
    ModeKeepsOrder(c);
    InternalIsAlnum(lib, c);
    ReadsTr(InternalKey(lib, c), c.threshold, c.mode, OrderedEntries(c.entries), CosignerKeys(c));
  }

  lemma InternalIsAlnum(lib: Library, c: Config)
    ensures forall i :: 0 <= i < |InternalKey(lib, c).info| ==> IsAlnum(InternalKey(lib, c).info[i])
  {
    var a, b, d, e := "50929b74c1a04954", "b78b4b6035e97a5e", "078a5a0f28ec96d5", "47bfee9ace803ac0";
    assert forall i :: 0 <= i < |a| ==> IsAlnum(a[i]);
    assert forall i :: 0 <= i < |b| ==> IsAlnum(b[i]);
    assert forall i :: 0 <= i < |d| ==> IsAlnum(d[i]);
    assert forall i :: 0 <= i < |e| ==> IsAlnum(e[i]);
    assert NUMS_INTERNAL_KEY == a + b + d + e;
  }
}
