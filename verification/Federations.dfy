/**
 Federations of src/federation.rs: immutable m-of-n groups. Every mutation builds a new federation
 with the same network, key mode and script type, or fails and leaves the old one.
 */
module Federations {
  import opened Seqs
  import opened Networks
  import D = Descriptors
  import T = DescriptorTheorems
  import R = DescriptorReader
  import Text

  type Signer = D.Signer

  datatype Federation = Federation(
    threshold: nat,
    signers: seq<Signer>,
    descriptor: Option<D.Descriptor>,
    network: NetworkType,
    keyMode: D.KeyMode,
    scriptType: D.ScriptType)

  datatype FederationError =
    | ZeroThreshold
    | InsufficientSigners(count: nat)
    | ThresholdExceedsSignerCount(threshold: nat, signers: nat)
    | DuplicateSigner(id: string)
    | SignerNetworkMismatch(id: string)
    | SignerNotFound(id: string)
    | DescriptorFailed(error: D.DescriptorError)

  datatype Result = Ok(federation: Federation) | Err(error: FederationError)

  // ----- Validation -----

  /** The first signer that repeats an id or lacks the network. */
  function CheckSigners(signers: seq<Signer>, seen: set<string>, network: NetworkType): Option<FederationError> {
    if signers == [] then None
    else if signers[0].id in seen then Some(DuplicateSigner(signers[0].id))
    else if network !in signers[0].networks then Some(SignerNetworkMismatch(signers[0].id))
    else CheckSigners(signers[1..], seen + {signers[0].id}, network)
  }

  function Validate(threshold: nat, signers: seq<Signer>, network: NetworkType): Option<FederationError> {
    if threshold == 0 then Some(ZeroThreshold)
    else if |signers| < 2 then Some(InsufficientSigners(|signers|))
    else if threshold > |signers| then Some(ThresholdExceedsSignerCount(threshold, |signers|))
    else CheckSigners(signers, {}, network)
  }

  method ValidateInputs(threshold: nat, signers: seq<Signer>, network: NetworkType)
      returns (error: Option<FederationError>)
    ensures error == Validate(threshold, signers, network)
  {
    if threshold == 0 {
      return Some(ZeroThreshold);
    }
    if |signers| < 2 {
      return Some(InsufficientSigners(|signers|));
    }
    if threshold > |signers| {
      return Some(ThresholdExceedsSignerCount(threshold, |signers|));
    }
    var seen := {};
    assert signers[0..] == signers;
    for i := 0 to |signers|
      invariant CheckSigners(signers[i..], seen, network) == CheckSigners(signers, {}, network)
    {
      assert signers[i..][1..] == signers[i + 1..];
      var s := signers[i];
      if s.id in seen {
        return Some(DuplicateSigner(s.id));
      }
      seen := seen + {s.id};
      if network !in s.networks {
        return Some(SignerNetworkMismatch(s.id));
      }
    }
    error := None;
  }

  predicate AllSupport(signers: seq<Signer>, network: NetworkType) {
    forall s :: s in signers ==> network in s.networks
  }

  lemma {:induction false} CheckSignersDecides(signers: seq<Signer>, seen: set<string>, network: NetworkType)
    ensures CheckSigners(signers, seen, network).None? <==>
            T.DistinctIds(signers) && AllSupport(signers, network) && forall s :: s in signers ==> s.id !in seen
  {
    if signers != [] {
      var s, rest := signers[0], signers[1..];
      assert signers == [s] + rest;
      CheckSignersDecides(rest, seen + {s.id}, network);
      DistinctHead(s, rest);
    }
  }

  lemma DistinctHead(s: Signer, rest: seq<Signer>)
    ensures T.DistinctIds([s] + rest) <==> T.DistinctIds(rest) && forall x :: x in rest ==> x.id != s.id
  {
    var all := [s] + rest;
    assert forall i :: 0 <= i < |rest| ==> all[i + 1] == rest[i];
    if T.DistinctIds(all) {
      forall i, j | 0 <= i < j < |rest| ensures rest[i].id != rest[j].id {
        assert all[i + 1].id != all[j + 1].id;
      }
      forall x | x in rest ensures x.id != s.id {
        var i :| 0 <= i < |rest| && rest[i] == x;
        assert all[0].id != all[i + 1].id;
      }
    }
  }

  /** An m-of-n group of distinct signers that all support the network. */
  ghost predicate WellFormed(threshold: nat, signers: seq<Signer>, network: NetworkType) {
    1 <= threshold <= |signers| && |signers| >= 2 && T.DistinctIds(signers) && AllSupport(signers, network)
  }

  lemma ValidateDecides(threshold: nat, signers: seq<Signer>, network: NetworkType)
    ensures Validate(threshold, signers, network).None? <==> WellFormed(threshold, signers, network)
  {
    CheckSignersDecides(signers, {}, network);
  }

  // ----- Construction -----

  function ConfigOf(threshold: nat, signers: seq<Signer>, network: NetworkType, keyMode: D.KeyMode,
      scriptType: D.ScriptType): D.Config {
    D.Config(threshold, keyMode, scriptType, D.RawNums, network, T.Entries(signers))
  }

  /** Feeding the signers to a descriptor builder one by one. */
  method BuildDescriptor(lib: D.Library, threshold: nat, signers: seq<Signer>, network: NetworkType,
      keyMode: D.KeyMode, scriptType: D.ScriptType)
    returns (r: D.Result<D.Descriptor>)
    ensures T.DistinctIds(signers) ==> r == D.Built(lib, ConfigOf(threshold, signers, network, keyMode, scriptType))
    ensures !T.DistinctIds(signers) ==> r.Err? && r.error.DuplicateKey?
  {
    var builder := new D.DescriptorBuilder(lib, threshold, network);
    builder.Configure(keyMode, scriptType, D.RawNums);
    for i := 0 to |signers|
      invariant builder.lib == lib && T.DistinctIds(signers[..i])
      invariant builder.AsConfig() == ConfigOf(threshold, signers[..i], network, keyMode, scriptType)
    {
      assert signers[..i + 1][..i] == signers[..i];
      var error := builder.AddSigner(signers[i]);
      if error.Some? {
        ghost var j := T.EntryFrom(signers[..i], signers[i].id);
        assert signers[j].id == signers[i].id;
        return D.Err(error.value);
      }
      forall j | 0 <= j < i ensures signers[j].id != signers[i].id {
        T.EntriesHold(signers[..i], j);
      }
    }
    assert signers[..|signers|] == signers;
    r := builder.Build();
  }

  function WithConfig(lib: D.Library, threshold: nat, signers: seq<Signer>, network: NetworkType, keyMode: D.KeyMode,
      scriptType: D.ScriptType): Result {
    match Validate(threshold, signers, network)
    case Some(error) => Err(error)
    case None =>
      if !network.Bitcoin? then Ok(Federation(threshold, signers, None, network, keyMode, scriptType))
      else match D.Built(lib, ConfigOf(threshold, signers, network, keyMode, scriptType))
        case Err(error) => Err(DescriptorFailed(error))
        case Ok(d) => Ok(Federation(threshold, signers, Some(d), network, keyMode, scriptType))
  }

  method NewFederation(lib: D.Library, threshold: nat, signers: seq<Signer>, network: NetworkType, keyMode: D.KeyMode,
      scriptType: D.ScriptType)
    returns (r: Result)
    ensures r == WithConfig(lib, threshold, signers, network, keyMode, scriptType)
  {
    ValidateDecides(threshold, signers, network);
    var invalid := ValidateInputs(threshold, signers, network);
    if invalid.Some? {
      return Err(invalid.value);
    }
    if !network.Bitcoin? {
      return Ok(Federation(threshold, signers, None, network, keyMode, scriptType));
    }
    var d := BuildDescriptor(lib, threshold, signers, network, keyMode, scriptType);
    r := match d
      case Err(error) => Err(DescriptorFailed(error))
      case Ok(descriptor) => Ok(Federation(threshold, signers, Some(descriptor), network, keyMode, scriptType));
  }

  // ----- Mutations -----

  predicate Contains(signers: seq<Signer>, id: string) {
    exists i :: 0 <= i < |signers| && signers[i].id == id
  }

  function Again(lib: D.Library, f: Federation, threshold: nat, signers: seq<Signer>): Result {
    WithConfig(lib, threshold, signers, f.network, f.keyMode, f.scriptType)
  }

  function Replacing(id: string, replacement: Signer): Signer -> Signer {
    (s: Signer) => if s.id == id then replacement else s
  }

  function OtherThan(id: string): Signer -> bool {
    (s: Signer) => s.id != id
  }

  function RotateSigner(lib: D.Library, f: Federation, id: string, replacement: Signer): Result {
    if !Contains(f.signers, id) then Err(SignerNotFound(id))
    else if Contains(f.signers, replacement.id) && replacement.id != id then Err(DuplicateSigner(replacement.id))
    else Again(lib, f, f.threshold, Map(Replacing(id, replacement), f.signers))
  }

  function AddSigner(lib: D.Library, f: Federation, signer: Signer): Result {
    if Contains(f.signers, signer.id) then Err(DuplicateSigner(signer.id))
    else Again(lib, f, f.threshold, f.signers + [signer])
  }

  function RemoveSigner(lib: D.Library, f: Federation, id: string): Result {
    if !Contains(f.signers, id) then Err(SignerNotFound(id))
    else Again(lib, f, f.threshold, Filter(OtherThan(id), f.signers))
  }

  function ChangeThreshold(lib: D.Library, f: Federation, threshold: nat): Result {
    Again(lib, f, threshold, f.signers)
  }

  datatype Mutation = Rotate(id: string, replacement: Signer) | Add(signer: Signer) | Remove(id: string)
    | Threshold(threshold: nat)

  function Mutate(lib: D.Library, f: Federation, m: Mutation): Result {
    match m
    case Rotate(id, replacement) => RotateSigner(lib, f, id, replacement)
    case Add(signer) => AddSigner(lib, f, signer)
    case Remove(id) => RemoveSigner(lib, f, id)
    case Threshold(threshold) => ChangeThreshold(lib, f, threshold)
  }

  /** A failed mutation leaves the federation as it was. */
  function Run(lib: D.Library, f: Federation, ms: seq<Mutation>): Federation
    decreases |ms|
  {
    if ms == [] then f
    else match Mutate(lib, f, ms[0])
      case Ok(g) => Run(lib, g, ms[1..])
      case Err(_) => Run(lib, f, ms[1..])
  }

  // ----- What every federation keeps -----

  ghost predicate Valid(lib: D.Library, f: Federation) {
    && WellFormed(f.threshold, f.signers, f.network)
    && WithConfig(lib, f.threshold, f.signers, f.network, f.keyMode, f.scriptType) == Ok(f)
  }

  predicate SameSettings(f: Federation, g: Federation) {
    f.network == g.network && f.keyMode == g.keyMode && f.scriptType == g.scriptType
  }

  lemma Constructed(lib: D.Library, threshold: nat, signers: seq<Signer>, network: NetworkType, keyMode: D.KeyMode,
      scriptType: D.ScriptType)
    ensures var r := WithConfig(lib, threshold, signers, network, keyMode, scriptType);
            r.Ok? ==> Valid(lib, r.federation) && r.federation.signers == signers && r.federation.threshold == threshold
                      && r.federation.network == network && r.federation.keyMode == keyMode
                      && r.federation.scriptType == scriptType
  {
    ValidateDecides(threshold, signers, network);
  }

  lemma MutateKeeps(lib: D.Library, f: Federation, m: Mutation)
    requires Mutate(lib, f, m).Ok?
    ensures Valid(lib, Mutate(lib, f, m).federation) && SameSettings(f, Mutate(lib, f, m).federation)
  {
    match m
    case Rotate(id, replacement) =>
      Constructed(lib, f.threshold, Map(Replacing(id, replacement), f.signers), f.network, f.keyMode, f.scriptType);
    case Add(signer) =>
      Constructed(lib, f.threshold, f.signers + [signer], f.network, f.keyMode, f.scriptType);
    case Remove(id) =>
      Constructed(lib, f.threshold, Filter(OtherThan(id), f.signers), f.network, f.keyMode, f.scriptType);
    case Threshold(threshold) =>
      Constructed(lib, threshold, f.signers, f.network, f.keyMode, f.scriptType);
  }

  /** Every reachable federation is a well-formed m-of-n group under the settings it started with. */
  lemma {:induction false} RunKeeps(lib: D.Library, f: Federation, ms: seq<Mutation>)
    requires Valid(lib, f)
    ensures Valid(lib, Run(lib, f, ms)) && SameSettings(f, Run(lib, f, ms))
    decreases |ms|
  {
    if ms != [] {
      var r := Mutate(lib, f, ms[0]);
      if r.Ok? {
        MutateKeeps(lib, f, ms[0]);
        RunKeeps(lib, r.federation, ms[1..]);
      } else {
        RunKeeps(lib, f, ms[1..]);
      }
    }
  }

  /** Any two histories that end in the same signers and threshold end in the same descriptor. */
  lemma HistoryIrrelevant(lib: D.Library, f: Federation, g: Federation, ms: seq<Mutation>, ns: seq<Mutation>)
    requires Valid(lib, f) && Valid(lib, g) && SameSettings(f, g)
    ensures var f', g' := Run(lib, f, ms), Run(lib, g, ns);
            f'.threshold == g'.threshold && SameMembers(f', g') ==> f'.descriptor == g'.descriptor
  {
    var f', g' := Run(lib, f, ms), Run(lib, g, ns);
    RunKeeps(lib, f, ms);
    RunKeeps(lib, g, ns);
    if SameMembers(f', g') {
      T.InsertionOrderIrrelevant(f'.signers, g'.signers);
    }
  }

  ghost predicate SameMembers(f: Federation, g: Federation) {
    forall s :: s in f.signers <==> s in g.signers
  }

  // ----- What one mutation undoes -----

  lemma {:induction false} FilterOthers(signers: seq<Signer>, id: string)
    requires !Contains(signers, id)
    ensures Filter(OtherThan(id), signers) == signers
  {
    if signers != [] {
      assert signers[0].id != id;
      forall i | 0 <= i < |signers[1..]| ensures signers[1..][i].id != id {
        assert signers[i + 1].id != id;
      }
      FilterOthers(signers[1..], id);
    }
  }

  /** Adding a signer and removing it again gives back the federation, descriptor and signer order included. */
  lemma AddThenRemove(lib: D.Library, f: Federation, signer: Signer)
    requires Valid(lib, f) && AddSigner(lib, f, signer).Ok?
    ensures RemoveSigner(lib, AddSigner(lib, f, signer).federation, signer.id) == Ok(f)
  {
    var g := AddSigner(lib, f, signer).federation;
    Constructed(lib, f.threshold, f.signers + [signer], f.network, f.keyMode, f.scriptType);
    assert g.signers[|f.signers|] == signer;
    assert Contains(g.signers, signer.id);
    FilterConcat(OtherThan(signer.id), f.signers, [signer]);
    FilterOthers(f.signers, signer.id);
    assert Filter(OtherThan(signer.id), [signer]) == [];
    assert Filter(OtherThan(signer.id), g.signers) == f.signers;
  }

  /** With distinct ids a rotation touches one place. */
  lemma RotatedIs(signers: seq<Signer>, i: nat, replacement: Signer)
    requires T.DistinctIds(signers) && i < |signers|
    ensures Contains(signers, signers[i].id)
    ensures Map(Replacing(signers[i].id, replacement), signers) == signers[i := replacement]
  {
    forall k | 0 <= k < |signers| && k != i ensures signers[k].id != signers[i].id {
      assert k < i || i < k;
    }
  }

  lemma RotatedFederation(lib: D.Library, f: Federation, i: nat, replacement: Signer)
    requires Valid(lib, f) && i < |f.signers| && RotateSigner(lib, f, f.signers[i].id, replacement).Ok?
    ensures var g := RotateSigner(lib, f, f.signers[i].id, replacement).federation;
            && Valid(lib, g) && SameSettings(f, g) && g.threshold == f.threshold
            && g.signers == f.signers[i := replacement]
  {
    RotatedIs(f.signers, i, replacement);
    Constructed(lib, f.threshold, f.signers[i := replacement], f.network, f.keyMode, f.scriptType);
  }

  /** Rotating a signer out and back in again gives back the federation. */
  lemma RotateBack(lib: D.Library, f: Federation, i: nat, replacement: Signer)
    requires Valid(lib, f) && i < |f.signers| && RotateSigner(lib, f, f.signers[i].id, replacement).Ok?
    ensures RotateSigner(lib, RotateSigner(lib, f, f.signers[i].id, replacement).federation, replacement.id,
            f.signers[i]) == Ok(f)
  {
    var out, g := f.signers[i], RotateSigner(lib, f, f.signers[i].id, replacement).federation;
    RotatedFederation(lib, f, i, replacement);
    RotatedIs(g.signers, i, out);
    assert g.signers[i := out] == f.signers;
    if out.id != replacement.id {
      NotTwice(f.signers, i, replacement);
    }
  }

  /** A signer rotated out is not there any more. */
  lemma NotTwice(signers: seq<Signer>, i: nat, replacement: Signer)
    requires T.DistinctIds(signers) && i < |signers| && replacement.id != signers[i].id
    ensures !Contains(signers[i := replacement], signers[i].id)
  {
    var rotated := signers[i := replacement];
    forall k | 0 <= k < |rotated| ensures rotated[k].id != signers[i].id {
      assert k < i || k == i || i < k;
    }
  }

  // ----- When a removal is accepted -----

  lemma {:induction false} FilterOne(signers: seq<Signer>, id: string)
    requires T.DistinctIds(signers)
    ensures T.DistinctIds(Filter(OtherThan(id), signers)) && forall s :: s in Filter(OtherThan(id), signers) ==>
            s in signers
    ensures |Filter(OtherThan(id), signers)| == if Contains(signers, id) then |signers| - 1 else |signers|
  {
    if !Contains(signers, id) {
      FilterOthers(signers, id);
    } else {
      var s, rest := signers[0], signers[1..];
      assert signers == [s] + rest;
      DistinctHead(s, rest);
      FilterOne(rest, id);
      DistinctHead(s, Filter(OtherThan(id), rest));
      var i :| 0 <= i < |signers| && signers[i].id == id;
      assert s.id != id ==> rest[i - 1].id == id;
      assert Contains(rest, id) <==> s.id != id;
    }
  }

  /** A member can be removed exactly when two others remain and the threshold can still be met. */
  lemma RemovalAccepted(f: Federation, id: string)
    requires WellFormed(f.threshold, f.signers, f.network) && Contains(f.signers, id)
    ensures Validate(f.threshold, Filter(OtherThan(id), f.signers), f.network).None? <==>
            |f.signers| > 2 && f.threshold < |f.signers|
  {
    FilterOne(f.signers, id);
    ValidateDecides(f.threshold, Filter(OtherThan(id), f.signers), f.network);
  }

  // ----- What each mutation does -----

  /** There is a descriptor for these signers and this threshold, where the network needs one. */
  ghost predicate Buildable(lib: D.Library, f: Federation, threshold: nat, signers: seq<Signer>) {
    f.network.Elements? || D.Built(lib, ConfigOf(threshold, signers, f.network, f.keyMode, f.scriptType)).Ok?
  }

  /** The same settings, with these signers and this threshold and the descriptor built from them. */
  ghost predicate BuiltFrom(lib: D.Library, f: Federation, threshold: nat, signers: seq<Signer>, g: Federation) {
    && SameSettings(f, g) && g.threshold == threshold && g.signers == signers
    && (f.network.Elements? <==> g.descriptor.None?)
    && (g.descriptor.None? ||
        D.Built(lib, ConfigOf(threshold, signers, f.network, f.keyMode, f.scriptType)) == D.Ok(g.descriptor.value))
  }

  lemma AgainDecides(lib: D.Library, f: Federation, threshold: nat, signers: seq<Signer>)
    ensures var r := Again(lib, f, threshold, signers);
            && (r.Ok? <==> WellFormed(threshold, signers, f.network) && Buildable(lib, f, threshold, signers))
            && (r.Ok? ==> BuiltFrom(lib, f, threshold, signers, r.federation))
  {
    ValidateDecides(threshold, signers, f.network);
  }

  /** A new threshold between one and the number of signers, and the same signers. */
  lemma ThresholdMutation(lib: D.Library, f: Federation, threshold: nat)
    requires Valid(lib, f)
    ensures var r, n := Mutate(lib, f, Threshold(threshold)), |f.signers|;
            && (r.Ok? <==> 1 <= threshold <= n && Buildable(lib, f, threshold, f.signers))
            && (r.Ok? ==> BuiltFrom(lib, f, threshold, f.signers, r.federation))
            && (threshold == 0 ==> r == Err(ZeroThreshold))
            && (threshold > n ==> r == Err(ThresholdExceedsSignerCount(threshold, n)))
  {
    AgainDecides(lib, f, threshold, f.signers);
  }

  /** One signer more, at the end, and the same threshold. */
  lemma AddMutation(lib: D.Library, f: Federation, signer: Signer)
    requires Valid(lib, f)
    ensures var r := Mutate(lib, f, Add(signer));
            && (r.Ok? <==>
                  && (forall i :: 0 <= i < |f.signers| ==> f.signers[i].id != signer.id)
                  && f.network in signer.networks && Buildable(lib, f, f.threshold, f.signers + [signer]))
            && (r.Ok? ==> BuiltFrom(lib, f, f.threshold, f.signers + [signer], r.federation))
            && ((exists i :: 0 <= i < |f.signers| && f.signers[i].id == signer.id) ==>
               r == Err(DuplicateSigner(signer.id)))
  {
    var signers := f.signers + [signer];
    AgainDecides(lib, f, f.threshold, signers);
    if !Contains(f.signers, signer.id) {
      assert T.DistinctIds(signers);
      assert signer in signers;
      assert AllSupport(signers, f.network) <==> f.network in signer.networks by {
        assert forall s :: s in signers <==> s in f.signers || s == signer;
      }
    }
  }

  lemma {:induction false} FilterAt(signers: seq<Signer>, i: nat)
    requires T.DistinctIds(signers) && i < |signers|
    ensures Filter(OtherThan(signers[i].id), signers) == signers[..i] + signers[i + 1..]
  {
    var id, s, rest := signers[i].id, signers[0], signers[1..];
    assert signers == [s] + rest;
    DistinctHead(s, rest);
    if i == 0 {
      assert !Contains(rest, id);
      FilterOthers(rest, id);
    } else {
      FilterAt(rest, i - 1);
      assert signers[..i] + signers[i + 1..] == [s] + (rest[..i - 1] + rest[i..]);
    }
  }

  /** All signers but one, in their order, and the same threshold. */
  lemma RemoveMutation(lib: D.Library, f: Federation, i: nat)
    requires Valid(lib, f) && i < |f.signers|
    ensures var r, left := Mutate(lib, f, Remove(f.signers[i].id)), f.signers[..i] + f.signers[i + 1..];
            && (r.Ok? <==> |f.signers| > 2 && f.threshold < |f.signers| && Buildable(lib, f, f.threshold, left))
            && (r.Ok? ==> BuiltFrom(lib, f, f.threshold, left, r.federation))
  {
    var left := f.signers[..i] + f.signers[i + 1..];
    FilterAt(f.signers, i);
    RemovalAccepted(f, f.signers[i].id);
    ValidateDecides(f.threshold, left, f.network);
    AgainDecides(lib, f, f.threshold, left);
  }

  /** No other signer has this id. */
  predicate Free(signers: seq<Signer>, i: nat, id: string) {
    forall j :: 0 <= j < |signers| && j != i ==> signers[j].id != id
  }

  lemma RotatedWellFormed(threshold: nat, signers: seq<Signer>, network: NetworkType, i: nat, replacement: Signer)
    requires WellFormed(threshold, signers, network) && i < |signers| && Free(signers, i, replacement.id)
    ensures WellFormed(threshold, signers[i := replacement], network) <==> network in replacement.networks
  {
    var rotated := signers[i := replacement];
    forall g, h | 0 <= g < h < |rotated| ensures rotated[g].id != rotated[h].id {
      assert g == i || h == i || signers[g].id != signers[h].id;
    }
    assert rotated[i] == replacement;
    forall s | s in rotated && s != replacement ensures network in s.networks {
      var k :| 0 <= k < |rotated| && rotated[k] == s;
      assert signers[k] in signers;
    }
  }

  /** One signer in the place of another, and the same threshold. */
  lemma RotateMutation(lib: D.Library, f: Federation, i: nat, replacement: Signer)
    requires Valid(lib, f) && i < |f.signers|
    ensures var r, signers := Mutate(lib, f, Rotate(f.signers[i].id, replacement)), f.signers[i := replacement];
            && (r.Ok? <==>
                  && Free(f.signers, i, replacement.id)
                  && f.network in replacement.networks && Buildable(lib, f, f.threshold, signers))
            && (r.Ok? ==> BuiltFrom(lib, f, f.threshold, signers, r.federation))
            && (!Free(f.signers, i, replacement.id) ==> r == Err(DuplicateSigner(replacement.id)))
  {
    var id, signers := f.signers[i].id, f.signers[i := replacement];
    RotatedIs(f.signers, i, replacement);
    AgainDecides(lib, f, f.threshold, signers);
    FreeUnless(f.signers, i, replacement.id);
    if Free(f.signers, i, replacement.id) {
      RotatedWellFormed(f.threshold, f.signers, f.network, i, replacement);
    }
  }

  lemma FreeUnless(signers: seq<Signer>, i: nat, id: string)
    requires T.DistinctIds(signers) && i < |signers|
    ensures Free(signers, i, id) <==> !Contains(signers, id) || id == signers[i].id
  {
    if !Free(signers, i, id) {
      var j :| 0 <= j < |signers| && j != i && signers[j].id == id;
      assert j < i || i < j;
    }
    if Free(signers, i, id) && Contains(signers, id) {
      var j :| 0 <= j < |signers| && signers[j].id == id;
    }
  }

  /** A signer that is not there can be neither removed nor rotated. */
  lemma UnknownSigner(lib: D.Library, f: Federation, id: string, replacement: Signer)
    ensures Mutate(lib, f, Remove(id)) == Err(SignerNotFound(id)) <==> forall s :: s in f.signers ==> s.id != id
    ensures Mutate(lib, f, Rotate(id, replacement)) == Err(SignerNotFound(id)) <==>
            forall s :: s in f.signers ==> s.id != id
  {
    if Contains(f.signers, id) {
      var i :| 0 <= i < |f.signers| && f.signers[i].id == id;
      assert f.signers[i] in f.signers;
      ValidateNeverUnknown(f.threshold, Filter(OtherThan(id), f.signers), f.network);
      ValidateNeverUnknown(f.threshold, Map(Replacing(id, replacement), f.signers), f.network);
    } else {
      forall s | s in f.signers ensures s.id != id {
        var i :| 0 <= i < |f.signers| && f.signers[i] == s;
      }
    }
  }

  lemma {:induction false} CheckNeverUnknown(signers: seq<Signer>, seen: set<string>, network: NetworkType)
    ensures var e := CheckSigners(signers, seen, network); e.Some? ==>
            e.value.DuplicateSigner? || e.value.SignerNetworkMismatch?
  {
    if signers != [] {
      CheckNeverUnknown(signers[1..], seen + {signers[0].id}, network);
    }
  }

  lemma ValidateNeverUnknown(threshold: nat, signers: seq<Signer>, network: NetworkType)
    ensures var e := Validate(threshold, signers, network); e.Some? ==> !e.value.SignerNotFound?
  {
    CheckNeverUnknown(signers, {}, network);
  }

  // ----- Which refusal -----

  /** The signer a check stops at: the first that repeats an id or lacks the network. */
  lemma {:induction false} CheckStopsAt(signers: seq<Signer>, seen: set<string>, network: NetworkType) returns (i: nat)
    requires CheckSigners(signers, seen, network).Some?
    ensures i < |signers|
    ensures var repeated := signers[i].id in seen || exists h :: 0 <= h < i && signers[h].id == signers[i].id;
            && (repeated || network !in signers[i].networks)
            && CheckSigners(signers, seen, network) ==
               Some(if repeated then DuplicateSigner(signers[i].id) else SignerNetworkMismatch(signers[i].id))
    ensures forall h :: 0 <= h < i ==> signers[h].id !in seen && network in signers[h].networks
    ensures forall g, h :: 0 <= g < h < i ==> signers[g].id != signers[h].id
  {
    var s := signers[0];
    if s.id in seen || network !in s.networks {
      i := 0;
    } else {
      var k := CheckStopsAt(signers[1..], seen + {s.id}, network);
      i := k + 1;
      assert forall h :: 0 < h <= i ==> signers[h] == signers[1..][h - 1];
      if exists h :: 0 <= h < k && signers[1..][h].id == signers[i].id {
        var h :| 0 <= h < k && signers[1..][h].id == signers[i].id;
        assert signers[h + 1].id == signers[i].id;
      }
      if signers[i].id == s.id {
        assert signers[0].id == signers[i].id;
      }
      if exists h :: 0 <= h < i && signers[h].id == signers[i].id {
        var h :| 0 <= h < i && signers[h].id == signers[i].id;
        assert h > 0 ==> signers[1..][h - 1].id == signers[i].id;
      }
    }
  }

  /** The counts are checked first, in this order. */
  lemma ValidateRefusals(threshold: nat, signers: seq<Signer>, network: NetworkType)
    ensures var e, n := Validate(threshold, signers, network), |signers|;
            && (e == Some(ZeroThreshold) <==> threshold == 0)
            && (e == Some(InsufficientSigners(n)) <==> threshold > 0 && n < 2)
            && (e == Some(ThresholdExceedsSignerCount(threshold, n)) <==> n >= 2 && threshold > n)
            && (1 <= threshold <= n && n >= 2 ==> e == CheckSigners(signers, {}, network))
  {
    CheckNeverUnknown(signers, {}, network);
  }

  // ----- What the descriptor says -----

  /** A segwit federation's descriptor names its threshold and the key of every signer, and no other. */
  lemma DescriptorReads(lib: D.Library, f: Federation)
    requires Valid(lib, f) && f.network.Bitcoin?
    ensures f.descriptor.Some? && R.ReadDescriptor(f.descriptor.value.body).Some?
    ensures var reading := R.ReadDescriptor(f.descriptor.value.body).value;
            && (reading.SortedMulti? <==> f.scriptType.Wsh?) && reading.threshold == f.threshold
            && (reading.TaprootMulti? ==> reading.internal == D.NUMS_INTERNAL_KEY && !reading.internalRanged)
            && (forall i :: 0 <= i < |f.signers| ==>
               R.KeyOfEntry(f.scriptType, f.keyMode, f.signers[i].key) in reading.keys)
            && (forall k :: k in reading.keys ==>
                  exists i :: 0 <= i < |f.signers| && k == R.KeyOfEntry(f.scriptType, f.keyMode, f.signers[i].key))
  {
    var c := ConfigOf(f.threshold, f.signers, f.network, f.keyMode, f.scriptType);
    AgainDecides(lib, f, f.threshold, f.signers);
    var entries := Listed(f.scriptType, c.entries);
    if f.scriptType.Wsh? {
      R.WshReads(lib, c);
    } else {
      R.TrReads(lib, c);
    }
    forall i | 0 <= i < |f.signers| ensures f.signers[i].key in entries {
      T.EntriesHold(f.signers, i);
      EntryListed(f.scriptType, c.entries, f.signers[i].id);
    }
    forall e | e in entries ensures exists i :: 0 <= i < |f.signers| && f.signers[i].key == e {
      var id := ListedEntry(f.scriptType, c.entries, e);
      var i := T.EntryFrom(f.signers, id);
      T.EntriesHold(f.signers, i);
    }
    KeysListed(f.scriptType, f.keyMode, entries);
  }

  lemma KeysListed(scriptType: D.ScriptType, mode: D.KeyMode, entries: seq<D.KeyEntry>)
    ensures var keys := R.KeysOfEntries(scriptType, mode, entries);
            && (forall e :: e in entries ==> R.KeyOfEntry(scriptType, mode, e) in keys)
            && (forall k :: k in keys ==> exists e :: e in entries && k == R.KeyOfEntry(scriptType, mode, e))
  {
    var keys := R.KeysOfEntries(scriptType, mode, entries);
    forall e | e in entries ensures R.KeyOfEntry(scriptType, mode, e) in keys {
      var i :| 0 <= i < |entries| && entries[i] == e;
      assert keys[i] == R.KeyOfEntry(scriptType, mode, e);
    }
  }

  function Listed(scriptType: D.ScriptType, entries: map<string, D.KeyEntry>): seq<D.KeyEntry> {
    if scriptType.Wsh? then R.EntriesById(entries) else T.OrderedEntries(entries)
  }

  lemma EntryListed(scriptType: D.ScriptType, entries: map<string, D.KeyEntry>, id: string)
    requires id in entries
    ensures entries[id] in Listed(scriptType, entries)
  {
    var ids := Text.SortedKeys(entries.Keys);
    assert id in ids;
    var i :| 0 <= i < |ids| && ids[i] == id;
    assert R.EntriesById(entries)[i] == entries[id];
    var keyed := T.WithXonly(entries, ids);
    assert keyed[i] in multiset(keyed);
    T.SortKeeps(keyed);
    assert keyed[i] in D.StableSort(keyed);
    var j :| 0 <= j < |D.StableSort(keyed)| && D.StableSort(keyed)[j] == keyed[i];
    assert T.OrderedEntries(entries)[j] == entries[id];
  }

  lemma ListedEntry(scriptType: D.ScriptType, entries: map<string, D.KeyEntry>, e: D.KeyEntry) returns (id: string)
    requires e in Listed(scriptType, entries)
    ensures id in entries && entries[id] == e
  {
    if scriptType.Wsh? {
      var ids := Text.SortedKeys(entries.Keys);
      var i :| 0 <= i < |R.EntriesById(entries)| && R.EntriesById(entries)[i] == e;
      id := ids[i];
    } else {
      id := OrderedEntry(entries, e);
    }
  }

  lemma OrderedEntry(entries: map<string, D.KeyEntry>, e: D.KeyEntry) returns (id: string)
    requires e in T.OrderedEntries(entries)
    ensures id in entries && entries[id] == e
  {
    var ids := Text.SortedKeys(entries.Keys);
    var keyed := T.WithXonly(entries, ids);
    var j :| 0 <= j < |T.OrderedEntries(entries)| && T.OrderedEntries(entries)[j] == e;
    var i := SortedFrom(keyed, j);
    id := ids[i];
  }

  /** Where an element of the sorted sequence comes from. */
  lemma SortedFrom(keyed: seq<(string, D.KeyEntry)>, j: nat) returns (i: nat)
    requires j < |D.StableSort(keyed)|
    ensures i < |keyed| && keyed[i] == D.StableSort(keyed)[j]
  {
    var x := D.StableSort(keyed)[j];
    T.SortKeeps(keyed);
    assert x in D.StableSort(keyed);
    assert x in multiset(D.StableSort(keyed));
    assert x in keyed;
    i :| 0 <= i < |keyed| && keyed[i] == x;
  }
}
