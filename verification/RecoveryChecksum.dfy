/**
 The content checksum of src/recovery.rs: eight fields of a recovery template, turned into JSON,
 printed canonically and hashed. The hash is a parameter; what is proved is about what it hashes.
 */
module RecoveryChecksum {
  import opened Seqs
  import opened Networks
  import opened CanonicalJson
  import opened CanonicalJsonTheorems

  datatype RecoverySoftware = BitcoinCore | SparrowWallet | SpecterDesktop | Nunchuk | Other(name: string)

  datatype RecoveryInstructions = RecoveryInstructions(software: RecoverySoftware, minVersion: Option<string>,
    steps: seq<string>)

  datatype SignerType = Software | External

  datatype DeviceType = Trezor | Jade | PassportPrime | Ledger | Coldcard | Hsm(vendor: string) | Generic

  datatype RecoverySignerInfo = RecoverySignerInfo(
    id: string,
    caption: Option<string>,
    fingerprint: string,
    derivationPath: string,
    signerType: SignerType,
    deviceType: DeviceType)

  datatype ChecksumContent = ChecksumContent(
    descriptor: string,
    threshold: nat,
    totalSigners: nat,
    network: NetworkType,
    signerInfo: seq<RecoverySignerInfo>,
    reconstructionInstructions: seq<RecoveryInstructions>,
    lastReceiveIndex: Option<nat>,
    lastChangeIndex: Option<nat>)

  datatype RecoveryTemplate = RecoveryTemplate(content: ChecksumContent, checksum: string, generatedAt: int)

  // ----- How a template is serialized -----

  function Texts(xs: seq<string>): Json {
    Arr(Map(s => Str(s), xs))
  }

  function OptionalText(o: Option<string>): Json {
    match o
    case None => Null
    case Some(s) => Str(s)
  }

  function OptionalIndex(o: Option<nat>): Json {
    match o
    case None => Null
    case Some(n) => Num(n)
  }

  function SoftwareJson(s: RecoverySoftware): Json {
    match s
    case BitcoinCore => Obj(map["kind" := Str("bitcoin_core")])
    case SparrowWallet => Obj(map["kind" := Str("sparrow_wallet")])
    case SpecterDesktop => Obj(map["kind" := Str("specter_desktop")])
    case Nunchuk => Obj(map["kind" := Str("nunchuk")])
    case Other(name) => Obj(map["kind" := Str("other"), "name" := Str(name)])
  }

  function InstructionsJson(i: RecoveryInstructions): Json {
    Obj(map["software" := SoftwareJson(i.software), "min_version" := OptionalText(i.minVersion),
      "steps" := Texts(i.steps)])
  }

  function SignerTypeJson(t: SignerType): Json {
    match t
    case Software => Str("software")
    case External => Str("external")
  }

  function DeviceJson(d: DeviceType): Json {
    match d
    case Trezor => Obj(map["kind" := Str("trezor")])
    case Jade => Obj(map["kind" := Str("jade")])
    case PassportPrime => Obj(map["kind" := Str("passport_prime")])
    case Ledger => Obj(map["kind" := Str("ledger")])
    case Coldcard => Obj(map["kind" := Str("coldcard")])
    case Hsm(vendor) => Obj(map["kind" := Str("hsm"), "vendor" := Str(vendor)])
    case Generic => Obj(map["kind" := Str("generic")])
  }

  function SignerJson(s: RecoverySignerInfo): Json {
    Obj(map[
      "id" := Str(s.id),
      "label" := OptionalText(s.caption),
      "fingerprint" := Str(s.fingerprint),
      "derivation_path" := Str(s.derivationPath),
      "signer_type" := SignerTypeJson(s.signerType),
      "device_type" := DeviceJson(s.deviceType)])
  }

  function BitcoinName(n: BitcoinNetwork): string {
    match n
    case Mainnet => "bitcoin"
    case Testnet => "testnet"
    case Testnet4 => "testnet4"
    case Signet => "signet"
    case Regtest => "regtest"
  }

  function ElementsName(n: ElementsNetwork): string {
    match n
    case Liquid => "liquid"
    case LiquidTestnet => "liquid_testnet"
    case ElementsRegtest => "elements_regtest"
  }

  function NetworkJson(n: NetworkType): Json {
    match n
    case Bitcoin(b) => Obj(map["kind" := Str("bitcoin"), BitcoinName(b) := Null])
    case Elements(e) => Obj(map["kind" := Str("elements"), ElementsName(e) := Null])
  }

  function ContentJson(c: ChecksumContent): Json {
    Obj(map[
      "descriptor" := Str(c.descriptor),
      "threshold" := Num(c.threshold),
      "total_signers" := Num(c.totalSigners),
      "network" := NetworkJson(c.network),
      "signer_info" := Arr(Map(SignerJson, c.signerInfo)),
      "reconstruction_instructions" := Arr(Map(InstructionsJson, c.reconstructionInstructions)),
      "last_receive_index" := OptionalIndex(c.lastReceiveIndex),
      "last_change_index" := OptionalIndex(c.lastChangeIndex)])
  }

  // ----- How a template is read back -----

  function ReadText(j: Json): Option<string> {
    if j.Str? then Some(j.s) else None
  }

  function ReadCount(j: Json): Option<nat> {
    if j.Num? && j.n >= 0 then Some(j.n) else None
  }

  function ReadOptional<T>(read: Json -> Option<T>, j: Json): Option<Option<T>> {
    if j.Null? then Some(None)
    else match read(j)
      case None => None
      case Some(x) => Some(Some(x))
  }

  function ReadItems<T>(read: Json -> Option<T>, items: seq<Json>): Option<seq<T>> {
    if items == [] then Some([])
    else match (read(items[0]), ReadItems(read, items[1..]))
      case (Some(x), Some(xs)) => Some([x] + xs)
      case _ => None
  }

  function ReadArray<T>(read: Json -> Option<T>, j: Json): Option<seq<T>> {
    if j.Arr? then ReadItems(read, j.items) else None
  }

  /** The tag of an object that is told apart by its field `kind`. */
  function ReadKind(j: Json): Option<string> {
    if j.Obj? && "kind" in j.fields then ReadText(j.fields["kind"]) else None
  }

  function ReadSoftware(j: Json): Option<RecoverySoftware> {
    match ReadKind(j)
    case None => None
    case Some(kind) =>
      if kind == "other" && j.fields.Keys == {"kind", "name"} then
        match ReadText(j.fields["name"])
        case None => None
        case Some(name) => Some(Other(name))
      else if j.fields.Keys != {"kind"} then None
      else if kind == "bitcoin_core" then Some(BitcoinCore)
      else if kind == "sparrow_wallet" then Some(SparrowWallet)
      else if kind == "specter_desktop" then Some(SpecterDesktop)
      else if kind == "nunchuk" then Some(Nunchuk)
      else None
  }

  function ReadInstructions(j: Json): Option<RecoveryInstructions> {
    if j.Obj? && j.fields.Keys == {"software", "min_version", "steps"} then
      match (ReadSoftware(j.fields["software"]), ReadOptional(ReadText, j.fields["min_version"]),
             ReadArray(ReadText, j.fields["steps"]))
      case (Some(software), Some(minVersion), Some(steps)) => Some(RecoveryInstructions(software, minVersion, steps))
      case _ => None
    else None
  }

  function ReadSignerType(j: Json): Option<SignerType> {
    if j == Str("software") then Some(Software) else if j == Str("external") then Some(External) else None
  }

  function ReadDevice(j: Json): Option<DeviceType> {
    match ReadKind(j)
    case None => None
    case Some(kind) =>
      if kind == "hsm" && j.fields.Keys == {"kind", "vendor"} then
        match ReadText(j.fields["vendor"])
        case None => None
        case Some(vendor) => Some(Hsm(vendor))
      else if j.fields.Keys != {"kind"} then None
      else if kind == "trezor" then Some(Trezor)
      else if kind == "jade" then Some(Jade)
      else if kind == "passport_prime" then Some(PassportPrime)
      else if kind == "ledger" then Some(Ledger)
      else if kind == "coldcard" then Some(Coldcard)
      else if kind == "generic" then Some(Generic)
      else None
  }

  function ReadSigner(j: Json): Option<RecoverySignerInfo> {
    if j.Obj? && j.fields.Keys == {"id", "label", "fingerprint", "derivation_path", "signer_type", "device_type"} then
      match (ReadText(j.fields["id"]), ReadOptional(ReadText, j.fields["label"]), ReadText(j.fields["fingerprint"]),
             ReadText(j.fields["derivation_path"]), ReadSignerType(j.fields["signer_type"]),
             ReadDevice(j.fields["device_type"]))
      case (Some(id), Some(caption), Some(fingerprint), Some(path), Some(signerType), Some(device)) =>
        Some(RecoverySignerInfo(id, caption, fingerprint, path, signerType, device))
      case _ => None
    else None
  }

  function ReadNetwork(j: Json): Option<NetworkType> {
    match ReadKind(j)
    case None => None
    case Some(kind) =>
      var names := j.fields.Keys;
      if kind == "bitcoin" then
        if names == {"kind", "bitcoin"} then Some(Bitcoin(Mainnet))
        else if names == {"kind", "testnet"} then Some(Bitcoin(Testnet))
        else if names == {"kind", "testnet4"} then Some(Bitcoin(Testnet4))
        else if names == {"kind", "signet"} then Some(Bitcoin(Signet))
        else if names == {"kind", "regtest"} then Some(Bitcoin(Regtest))
        else None
      else if kind == "elements" then
        if names == {"kind", "liquid"} then Some(Elements(Liquid))
        else if names == {"kind", "liquid_testnet"} then Some(Elements(LiquidTestnet))
        else if names == {"kind", "elements_regtest"} then Some(Elements(ElementsRegtest))
        else None
      else None
  }

  const CONTENT_NAMES: set<string> := {
    "descriptor", "threshold", "total_signers", "network", "signer_info", "reconstruction_instructions",
    "last_receive_index", "last_change_index"}

  function ReadContent(j: Json): Option<ChecksumContent> {
    if j.Obj? && j.fields.Keys == CONTENT_NAMES then
      var f := j.fields;
      match (ReadText(f["descriptor"]), ReadCount(f["threshold"]), ReadCount(f["total_signers"]),
        ReadNetwork(f["network"]),
             ReadArray(ReadSigner, f["signer_info"]), ReadArray(ReadInstructions, f["reconstruction_instructions"]),
             ReadOptional(ReadCount, f["last_receive_index"]), ReadOptional(ReadCount, f["last_change_index"]))
      case (Some(descriptor), Some(threshold), Some(total), Some(network), Some(signers), Some(instructions),
            Some(receive), Some(change)) =>
        Some(ChecksumContent(descriptor, threshold, total, network, signers, instructions, receive, change))
      case _ => None
    else None
  }

  // ----- Reading undoes writing -----

  lemma {:induction false} ReadsItems<T(!new)>(read: Json -> Option<T>, write: T -> Json, xs: seq<T>)
    requires forall x :: read(write(x)) == Some(x)
    ensures ReadItems(read, Map(write, xs)) == Some(xs)
  {
    if xs != [] {
      ReadsItems(read, write, xs[1..]);
      assert Map(write, xs)[1..] == Map(write, xs[1..]);
      assert read(write(xs[0])) == Some(xs[0]);
      assert [xs[0]] + xs[1..] == xs;
    }
  }

  lemma ReadsTexts(xs: seq<string>)
    ensures ReadArray(ReadText, Texts(xs)) == Some(xs)
  {
    ReadsItems(ReadText, s => Str(s), xs);
  }

  lemma ReadsSoftware(s: RecoverySoftware)
    ensures ReadSoftware(SoftwareJson(s)) == Some(s)
  {
    var fields := SoftwareJson(s).fields;
    assert s.Other? ==> fields.Keys == {"kind", "name"};
    assert !s.Other? ==> fields.Keys == {"kind"};
  }

  lemma ReadsInstructions(i: RecoveryInstructions)
    ensures ReadInstructions(InstructionsJson(i)) == Some(i)
  {
    assert InstructionsJson(i).fields.Keys == {"software", "min_version", "steps"};
    ReadsSoftware(i.software);
    ReadsTexts(i.steps);
  }

  lemma ReadsDevice(d: DeviceType)
    ensures ReadDevice(DeviceJson(d)) == Some(d)
  {
    var fields := DeviceJson(d).fields;
    assert d.Hsm? ==> fields.Keys == {"kind", "vendor"};
    assert !d.Hsm? ==> fields.Keys == {"kind"};
  }

  lemma ReadsSigner(s: RecoverySignerInfo)
    ensures ReadSigner(SignerJson(s)) == Some(s)
  {
    assert SignerJson(s).fields.Keys == {"id", "label", "fingerprint", "derivation_path", "signer_type", "device_type"};
    ReadsDevice(s.deviceType);
  }

  lemma ReadsNetwork(n: NetworkType)
    ensures ReadNetwork(NetworkJson(n)) == Some(n)
  {
    var name := if n.Bitcoin? then BitcoinName(n.bitcoin) else ElementsName(n.elements);
    assert NetworkJson(n).fields.Keys == {"kind", name};
    if n.Bitcoin? {
      OneName(name, ["bitcoin", "testnet", "testnet4", "signet", "regtest"]);
    } else {
      OneName(name, ["liquid", "liquid_testnet", "elements_regtest"]);
    }
  }

  /** Next to `kind`, different names make different key sets. */
  lemma OneName(name: string, names: seq<string>)
    requires name != "kind"
    ensures forall i :: 0 <= i < |names| && names[i] != name ==> {"kind", name} != {"kind", names[i]}
  {
    forall i | 0 <= i < |names| && names[i] != name ensures {"kind", name} != {"kind", names[i]} {
      assert name in {"kind", name} && name !in {"kind", names[i]};
    }
  }

  /** The eight fields under their names. */
  ghost predicate NamedFields(f: map<string, Json>, c: ChecksumContent) {
    && f.Keys == CONTENT_NAMES
    && f["descriptor"] == Str(c.descriptor) && f["threshold"] == Num(c.threshold)
    && f["total_signers"] == Num(c.totalSigners) && f["network"] == NetworkJson(c.network)
    && f["signer_info"] == Arr(Map(SignerJson, c.signerInfo))
    && f["reconstruction_instructions"] == Arr(Map(InstructionsJson, c.reconstructionInstructions))
    && f["last_receive_index"] == OptionalIndex(c.lastReceiveIndex)
    && f["last_change_index"] == OptionalIndex(c.lastChangeIndex)
  }

  lemma ReadsFields(f: map<string, Json>, c: ChecksumContent)
    requires f.Keys == CONTENT_NAMES
    requires ReadText(f["descriptor"]) == Some(c.descriptor) && ReadCount(f["threshold"]) == Some(c.threshold)
    requires ReadCount(f["total_signers"]) == Some(c.totalSigners) && ReadNetwork(f["network"]) == Some(c.network)
    requires ReadArray(ReadSigner, f["signer_info"]) == Some(c.signerInfo)
    requires ReadArray(ReadInstructions, f["reconstruction_instructions"]) == Some(c.reconstructionInstructions)
    requires ReadOptional(ReadCount, f["last_receive_index"]) == Some(c.lastReceiveIndex)
    requires ReadOptional(ReadCount, f["last_change_index"]) == Some(c.lastChangeIndex)
    ensures ReadContent(Obj(f)) == Some(c)
  {
  }

  lemma ReadsSequences(c: ChecksumContent)
    ensures ReadArray(ReadSigner, Arr(Map(SignerJson, c.signerInfo))) == Some(c.signerInfo)
    ensures ReadArray(ReadInstructions, Arr(Map(InstructionsJson, c.reconstructionInstructions))) ==
            Some(c.reconstructionInstructions)
  {
    forall s ensures ReadSigner(SignerJson(s)) == Some(s) {
      ReadsSigner(s);
    }
    ReadsItems(ReadSigner, SignerJson, c.signerInfo);
    forall i ensures ReadInstructions(InstructionsJson(i)) == Some(i) {
      ReadsInstructions(i);
    }
    ReadsItems(ReadInstructions, InstructionsJson, c.reconstructionInstructions);
  }

  lemma ReadsIndex(index: Option<nat>)
    ensures ReadOptional(ReadCount, OptionalIndex(index)) == Some(index)
  {
  }

  lemma ContentObject(c: ChecksumContent) returns (f: map<string, Json>)
    ensures ContentJson(c) == Obj(f) && NamedFields(f, c)
  {
    f := ContentJson(c).fields;
  }

  lemma ReadsContent(c: ChecksumContent)
    ensures ReadContent(ContentJson(c)) == Some(c)
  {
    var f := ContentObject(c);
    ReadsNetwork(c.network);
    ReadsSequences(c);
    ReadsIndex(c.lastReceiveIndex);
    ReadsIndex(c.lastChangeIndex);
    ReadsFields(f, c);
  }

  /** Serializing loses nothing. */
  lemma ContentInjective(a: ChecksumContent, b: ChecksumContent)
    requires ContentJson(a) == ContentJson(b)
    ensures a == b
  {
    ReadsContent(a);
    ReadsContent(b);
  }

  // ----- The checksum -----

  /** What is hashed. */
  function Preimage(t: RecoveryTemplate): string {
    Print(ContentJson(t.content))
  }

  /**
   What the hashed text says, read back by name: it is one JSON object with the eight names, each
   with its own field of the template.
   */
  lemma PreimageReads(t: RecoveryTemplate)
    ensures Parse(Preimage(t)).Some? && Parse(Preimage(t)).value.1 == ""
    ensures ReadContent(Parse(Preimage(t)).value.0) == Some(t.content)
  {
    CanonicalRoundTrip(ContentJson(t.content));
    ReadsContent(t.content);
  }

  /** The scalar fields of the hashed text, name by name. */
  lemma PreimageFields(t: RecoveryTemplate)
    ensures Parse(Preimage(t)).Some? && Parse(Preimage(t)).value.0.Obj?
    ensures var f := Parse(Preimage(t)).value.0.fields;
            && f.Keys == CONTENT_NAMES
            && f["descriptor"] == Str(t.content.descriptor) && f["threshold"] == Num(t.content.threshold)
            && f["total_signers"] == Num(t.content.totalSigners)
            && f["last_receive_index"] == (if t.content.lastReceiveIndex.None? then Null
               else Num(t.content.lastReceiveIndex.value))
            && f["last_change_index"] == (if t.content.lastChangeIndex.None? then Null
               else Num(t.content.lastChangeIndex.value))
  {
    CanonicalRoundTrip(ContentJson(t.content));
    var f := ContentObject(t.content);
  }

  /** Two templates hash the same text exactly when they agree on all eight content fields. */
  lemma PreimageIsContent(a: RecoveryTemplate, b: RecoveryTemplate)
    ensures Preimage(a) == Preimage(b) <==> a.content == b.content
  {
    CanonicalIsInjective(ContentJson(a.content), ContentJson(b.content));
    if Preimage(a) == Preimage(b) {
      ContentInjective(a.content, b.content);
    }
  }

  method ComputeChecksum(t: RecoveryTemplate, sha256: string -> string) returns (checksum: string)
    ensures checksum == sha256(Preimage(t))
  {
    var canonical := CanonicalJsonOf(ContentJson(t.content));
    checksum := sha256(canonical);
  }

  datatype Verdict = Verified | ChecksumMismatch(expected: string, actual: string) | InvalidDescriptor

  method Verify(t: RecoveryTemplate, sha256: string -> string, parses: string -> bool) returns (v: Verdict)
    ensures v.Verified? <==> t.checksum == sha256(Preimage(t)) && parses(t.content.descriptor)
    ensures v.ChecksumMismatch? <==> t.checksum != sha256(Preimage(t))
    ensures v.ChecksumMismatch? ==> v.expected == t.checksum && v.actual == sha256(Preimage(t))
  {
    var recomputed := ComputeChecksum(t, sha256);
    if recomputed != t.checksum {
      return ChecksumMismatch(t.checksum, recomputed);
    }
    v := if parses(t.content.descriptor) then Verified else InvalidDescriptor;
  }

  /**
   Tamper detection: of a template that keeps the checksum of a sealed one, the checksum is wrong
   exactly when some content field was changed, unless the two texts collide under the hash. The
   time of generation is not covered.
   */
  lemma TamperingIsDetected(original: RecoveryTemplate, changed: RecoveryTemplate, sha256: string -> string)
    ensures original.checksum == sha256(Preimage(original)) && changed.checksum == original.checksum &&
            NoCollision(sha256, Preimage(original), Preimage(changed)) ==>
              (changed.checksum != sha256(Preimage(changed)) <==> changed.content != original.content)
  {
    PreimageIsContent(original, changed);
  }

  predicate NoCollision(sha256: string -> string, a: string, b: string) {
    sha256(a) == sha256(b) ==> a == b
  }
}
