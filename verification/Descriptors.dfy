/**
 Descriptor and wallet-policy construction of src/descriptor.rs.

 Key material is text: fingerprints, extended keys and hexadecimal keys are letters and digits.
 What miniscript accepts, its checksum and the unspendable extended key are given by a `Library`.
 A parsed descriptor prints as the text it was parsed from, followed by `#` and a checksum.
 */
module Descriptors {
  import opened Seqs
  import opened Text
  import opened Networks

  // ----- Key material -----

  predicate IsAlnum(c: char) {
    IsDigit(c) || 'a' <= c <= 'z' || 'A' <= c <= 'Z'
  }

  type Alnum = s: string | forall i :: 0 <= i < |s| ==> IsAlnum(s[i])

  datatype ChildNumber = ChildNumber(index: nat, hardened: bool)

  datatype Xpub = Xpub(mainnet: bool, text: Alnum, oddY: bool, xonly: Alnum)

  datatype KeyEntry = KeyEntry(fingerprint: Alnum, derivationPath: seq<ChildNumber>, xpub: Xpub)

  datatype Signer = Signer(id: string, key: KeyEntry, networks: set<NetworkType>)

  /** A descriptor key: what identifies it, and whether the wildcard of the receive keychain follows. */
  datatype DescriptorKey = DescriptorKey(info: string, ranged: bool)

  function PathText(path: seq<ChildNumber>): string {
    if path == [] then ""
    else "/" + PrintNat(path[0].index) + (if path[0].hardened then "'" else "") + PathText(path[1..])
  }

  function Origin(e: KeyEntry): string {
    "[" + e.fingerprint + PathText(e.derivationPath) + "]"
  }

  function KeyText(k: DescriptorKey): string {
    k.info + if k.ranged then "/0/*" else ""
  }

  datatype KeyMode = Fixed | Ranged
  datatype ScriptType = Wsh | Tr
  datatype TaprootInternalKey = RawNums | NumsXpub(chainCode: seq<bv8>)

  function FullKeyText(x: Xpub): string {
    (if x.oddY then "03" else "02") + x.xonly
  }

  function BuildDescriptorKey(mode: KeyMode, e: KeyEntry): DescriptorKey {
    match mode
    case Fixed => DescriptorKey(Origin(e) + FullKeyText(e.xpub), false)
    case Ranged => DescriptorKey(Origin(e) + e.xpub.text, true)
  }

  function BuildTaprootKey(mode: KeyMode, e: KeyEntry): DescriptorKey {
    match mode
    case Fixed => DescriptorKey(Origin(e) + e.xpub.xonly, false)
    case Ranged => BuildDescriptorKey(Ranged, e)
  }

  // ----- Descriptors -----

  const NUMS_INTERNAL_KEY: string :=
    "50929b74c1a04954" + "b78b4b6035e97a5e" + "078a5a0f28ec96d5" + "47bfee9ace803ac0"

  datatype Library = Library(
    numsXpub: (bool, seq<bv8>) -> Alnum,
    checksum: string -> string,
    accepts: string -> bool)

  datatype Descriptor = Descriptor(body: string)

  function Display(lib: Library, d: Descriptor): string {
    d.body + "#" + lib.checksum(d.body)
  }

  datatype DescriptorError =
    | NoSigners
    | UnsupportedNetwork
    | NetworkMismatch
    | DuplicateKey(key: string)
    | Miniscript
    | NeedsNumsXpub
    | NeedsTaproot

  datatype Result<T> = Ok(value: T) | Err(error: DescriptorError)

  datatype Bip388TaprootPolicy = Bip388TaprootPolicy(template: string, keys: seq<string>)

  /** The fields of a builder. */
  datatype Config = Config(
    threshold: nat,
    mode: KeyMode,
    scriptType: ScriptType,
    internalKey: TaprootInternalKey,
    network: NetworkType,
    entries: map<string, KeyEntry>)

  function IsMainnet(network: NetworkType): bool {
    network.Bitcoin? && network.bitcoin.Mainnet?
  }

  // ----- Text operations -----

  function BeforeHash(s: string): string {
    if s == "" || s[0] == '#' then "" else [s[0]] + BeforeHash(s[1..])
  }

  const WILDCARD: string := "/0/*"
  const MULTIPATH: string := "/<0;1>/*"

  /** Every wildcard of one keychain becomes a wildcard of both. */
  function Multipath(s: string): string {
    if s == "" then ""
    else if StartsWith(s, WILDCARD) then MULTIPATH + Multipath(s[|WILDCARD|..])
    else [s[0]] + Multipath(s[1..])
  }

  function ToMultipathString(lib: Library, d: Descriptor): string {
    Multipath(BeforeHash(Display(lib, d)))
  }

  predicate EndsWith(s: string, word: string) {
    |s| >= |word| && s[|s| - |word|..] == word
  }

  function TrimEnd(s: string, word: string): string
    requires word != ""
  {
    if EndsWith(s, word) then TrimEnd(s[..|s| - |word|], word) else s
  }

  function StripWildcard(key: string): string {
    TrimEnd(TrimEnd(key, MULTIPATH), WILDCARD)
  }

  // ----- Keys, in order -----

  function Texts(keys: seq<DescriptorKey>): seq<string> {
    Map(KeyText, keys)
  }

  /** Each key with its x-only key, which it is sorted by. */
  type Keyed = (string, DescriptorKey)

  function StableInsert<T>(sorted: seq<(string, T)>, k: (string, T)): seq<(string, T)> {
    if sorted == [] || Before(k.0, sorted[0].0) then [k] + sorted else [sorted[0]] + StableInsert(sorted[1..], k)
  }

  /** Sorted by x-only key; equal ones keep their order. */
  function StableSort<T>(keyed: seq<(string, T)>): seq<(string, T)> {
    if keyed == [] then [] else StableInsert(StableSort(keyed[..|keyed| - 1]), keyed[|keyed| - 1])
  }

  function WshKeys(c: Config, ids: seq<string>): (keys: seq<DescriptorKey>)
    requires forall id :: id in ids ==> id in c.entries
  {
    seq(|ids|, i requires 0 <= i < |ids| => BuildDescriptorKey(c.mode, c.entries[ids[i]]))
  }

  function KeyedEntry(mode: KeyMode, e: KeyEntry): Keyed {
    (e.xpub.xonly, BuildTaprootKey(mode, e))
  }

  function KeyedEntries(c: Config, ids: seq<string>): (keyed: seq<Keyed>)
    requires forall id :: id in ids ==> id in c.entries
  {
    seq(|ids|, i requires 0 <= i < |ids| => KeyedEntry(c.mode, c.entries[ids[i]]))
  }

  function KeyOf(k: Keyed): DescriptorKey { k.1 }

  /** The cosigner keys of a taproot descriptor, and of its wallet policy. */
  function SortedTaprootKeys(c: Config): seq<DescriptorKey> {
    Map(KeyOf, StableSort(KeyedEntries(c, SortedKeys(c.entries.Keys))))
  }

  // ----- What is built -----

  function InternalKey(lib: Library, c: Config): DescriptorKey {
    match c.internalKey
    case RawNums => DescriptorKey(NUMS_INTERNAL_KEY, false)
    case NumsXpub(chainCode) => DescriptorKey(lib.numsXpub(IsMainnet(c.network), chainCode), true)
  }

  function WshBody(threshold: nat, keys: seq<DescriptorKey>): string {
    "wsh(sortedmulti(" + PrintNat(threshold) + "," + Join(Texts(keys)) + "))"
  }

  function TrBody(internal: DescriptorKey, threshold: nat, keys: seq<DescriptorKey>): string {
    "tr(" + KeyText(internal) + ",multi_a(" + PrintNat(threshold) + "," + Join(Texts(keys)) + "))"
  }

  function CosignerKeys(c: Config): seq<DescriptorKey> {
    match c.scriptType
    case Wsh => WshKeys(c, SortedKeys(c.entries.Keys))
    case Tr => SortedTaprootKeys(c)
  }

  function Body(lib: Library, c: Config): string {
    match c.scriptType
    case Wsh => WshBody(c.threshold, CosignerKeys(c))
    case Tr => TrBody(InternalKey(lib, c), c.threshold, CosignerKeys(c))
  }

  predicate OnNetwork(c: Config) {
    forall id :: id in c.entries ==> c.entries[id].xpub.mainnet == IsMainnet(c.network)
  }

  /** The first key whose text was seen before. */
  function FirstRepeated(keys: seq<DescriptorKey>, seen: set<string>): Option<string> {
    if keys == [] then None
    else if KeyText(keys[0]) in seen then Some(KeyText(keys[0]))
    else FirstRepeated(keys[1..], seen + {KeyText(keys[0])})
  }

  function Built(lib: Library, c: Config): Result<Descriptor> {
    if c.entries == map[] then Err(NoSigners)
    else if !c.network.Bitcoin? then Err(UnsupportedNetwork)
    else if !OnNetwork(c) then Err(NetworkMismatch)
    else match FirstRepeated(CosignerKeys(c), {})
      case Some(key) => Err(DuplicateKey(key))
      case None => if lib.accepts(Body(lib, c)) then Ok(Descriptor(Body(lib, c))) else Err(Miniscript)
  }

  function Placeholder(i: nat): string {
    "@" + PrintNat(i) + "/**"
  }

  function Placeholders(n: nat): seq<string> {
    seq(n, i requires 0 <= i < n => Placeholder(i + 1))
  }

  function Template(threshold: nat, n: nat): string {
    "tr(" + "@0/**" + ",multi_a(" + PrintNat(threshold) + "," + Join(Placeholders(n)) + "))"
  }

  function Stripped(keys: seq<DescriptorKey>): seq<string> {
    Map((k: DescriptorKey) => StripWildcard(KeyText(k)), keys)
  }

  function Policy(lib: Library, c: Config): Result<Bip388TaprootPolicy> {
    if !c.internalKey.NumsXpub? then Err(NeedsNumsXpub)
    else if c.scriptType != Tr then Err(NeedsTaproot)
    else if !c.network.Bitcoin? then Err(UnsupportedNetwork)
    else
      var keys := SortedTaprootKeys(c);
      Ok(Bip388TaprootPolicy(Template(c.threshold, |keys|), Stripped([InternalKey(lib, c)] + keys)))
  }

  // ----- The builder -----

  class DescriptorBuilder {
    const lib: Library
    const threshold: nat
    const network: NetworkType
    var mode: KeyMode
    var scriptType: ScriptType
    var internalKey: TaprootInternalKey
    var entries: map<string, KeyEntry>

    function AsConfig(): Config
      reads this
    {
      Config(threshold, mode, scriptType, internalKey, network, entries)
    }

    constructor (lib: Library, threshold: nat, network: NetworkType)
      ensures this.lib == lib && AsConfig() == Config(threshold, Fixed, Wsh, RawNums, network, map[])
    {
      this.lib, this.threshold, this.network := lib, threshold, network;
      mode, scriptType, internalKey, entries := Fixed, Wsh, RawNums, map[];
    }

    method Configure(mode: KeyMode, scriptType: ScriptType, internalKey: TaprootInternalKey)
      modifies this
      ensures AsConfig() == old(AsConfig()).(mode := mode, scriptType := scriptType, internalKey := internalKey)
    {
      this.mode, this.scriptType, this.internalKey := mode, scriptType, internalKey;
    }

    /** Registers the signer's key. A signer already there is replaced, and that is an error. */
    method AddSigner(signer: Signer) returns (error: Option<DescriptorError>)
      modifies this
      ensures AsConfig() == old(AsConfig()).(entries := old(entries)[signer.id := signer.key])
      ensures error == if signer.id in old(entries) then Some(DuplicateKey(signer.id)) else None
    {
      var known := signer.id in entries;
      entries := entries[signer.id := signer.key];
      error := if known then Some(DuplicateKey(signer.id)) else None;
    }

    method TaprootKeys() returns (keys: seq<DescriptorKey>)
      ensures keys == SortedTaprootKeys(AsConfig())
    {
      var ids := SortKeys(entries.Keys);
      var sorted := SortKeyed(KeyedEntries(AsConfig(), ids));
      keys := Map(KeyOf, sorted);
    }

    /** Every key is on the builder's network. */
    method CheckNetwork() returns (ok: bool)
      ensures ok == OnNetwork(AsConfig())
    {
      var ids := SortKeys(entries.Keys);
      for i := 0 to |ids|
        invariant forall j :: 0 <= j < i ==> entries[ids[j]].xpub.mainnet == IsMainnet(network)
      {
        if entries[ids[i]].xpub.mainnet != IsMainnet(network) {
          return false;
        }
      }
      forall id | id in entries ensures entries[id].xpub.mainnet == IsMainnet(network) {
        assert id in ids;
      }
      ok := true;
    }

    method Build() returns (r: Result<Descriptor>)
      ensures r == Built(lib, AsConfig())
    {
      if entries == map[] {
        return Err(NoSigners);
      }
      if !network.Bitcoin? {
        return Err(UnsupportedNetwork);
      }
      var onNetwork := CheckNetwork();
      if !onNetwork {
        return Err(NetworkMismatch);
      }
      var ids := SortKeys(entries.Keys);
      var keys;
      match scriptType {
        case Wsh => keys := WshKeys(AsConfig(), ids);
        case Tr => keys := TaprootKeys();
      }
      var repeated := RejectDuplicateKeys(keys);
      if repeated.Some? {
        return Err(DuplicateKey(repeated.value));
      }
      var body :=
        if scriptType.Wsh? then WshBody(threshold, keys)
        else TrBody(InternalKey(lib, AsConfig()), threshold, keys);
      r := if lib.accepts(body) then Ok(Descriptor(body)) else Err(Miniscript);
    }

    method Bip388Policy() returns (r: Result<Bip388TaprootPolicy>)
      ensures r == Policy(lib, AsConfig())
    {
      if !internalKey.NumsXpub? {
        return Err(NeedsNumsXpub);
      }
      if scriptType != Tr {
        return Err(NeedsTaproot);
      }
      if !network.Bitcoin? {
        return Err(UnsupportedNetwork);
      }
      var nums := InternalKey(lib, AsConfig());
      var cosigners := TaprootKeys();
      var keys := StripAll(nums, cosigners);
      r := Ok(Bip388TaprootPolicy(Template(threshold, |cosigners|), keys));
    }
  }

  lemma {:induction false} StableInsertAt(sorted: seq<Keyed>, k: Keyed, i: nat)
    requires i <= |sorted| && forall j :: 0 <= j < i ==> !Before(k.0, sorted[j].0)
    requires i < |sorted| ==> Before(k.0, sorted[i].0)
    ensures StableInsert(sorted, k) == sorted[..i] + [k] + sorted[i..]
  {
    if i > 0 {
      StableInsertAt(sorted[1..], k, i - 1);
    }
  }

  method InsertKeyed(sorted: seq<Keyed>, k: Keyed) returns (inserted: seq<Keyed>)
    ensures inserted == StableInsert(sorted, k)
  {
    var i := 0;
    while i < |sorted| && !Before(k.0, sorted[i].0)
      invariant 0 <= i <= |sorted|
      invariant forall j :: 0 <= j < i ==> !Before(k.0, sorted[j].0)
    {
      i := i + 1;
    }
    StableInsertAt(sorted, k, i);
    inserted := sorted[..i] + [k] + sorted[i..];
  }

  method SortKeyed(keyed: seq<Keyed>) returns (sorted: seq<Keyed>)
    ensures sorted == StableSort(keyed)
  {
    sorted := [];
    for n := 0 to |keyed|
      invariant sorted == StableSort(keyed[..n])
    {
      assert keyed[..n + 1][..n] == keyed[..n];
      sorted := InsertKeyed(sorted, keyed[n]);
    }
    assert keyed[..|keyed|] == keyed;
  }

  method StripAll(nums: DescriptorKey, cosigners: seq<DescriptorKey>) returns (keys: seq<string>)
    ensures keys == Stripped([nums] + cosigners)
  {
    keys := [StripWildcard(KeyText(nums))];
    for i := 0 to |cosigners|
      invariant keys == Stripped([nums] + cosigners[..i])
    {
      keys := keys + [StripWildcard(KeyText(cosigners[i]))];
      assert [nums] + cosigners[..i + 1] == ([nums] + cosigners[..i]) + [cosigners[i]];
      MapConcat((k: DescriptorKey) => StripWildcard(KeyText(k)), [nums] + cosigners[..i], [cosigners[i]]);
    }
    assert cosigners[..|cosigners|] == cosigners;
  }

  method RejectDuplicateKeys(keys: seq<DescriptorKey>) returns (repeated: Option<string>)
    ensures repeated == FirstRepeated(keys, {})
  {
    var seen := {};
    assert keys[0..] == keys;
    for i := 0 to |keys|
      invariant FirstRepeated(keys[i..], seen) == FirstRepeated(keys, {})
    {
      assert keys[i..][1..] == keys[i + 1..];
      var text := KeyText(keys[i]);
      if text in seen {
        return Some(text);
      }
      seen := seen + {text};
    }
    repeated := None;
  }
}
