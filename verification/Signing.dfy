/**
 The signing coordinator of src/psbt.rs for P2WSH inputs: it collects partial signatures, credits
 them to federation members and lets finalization start at the threshold.

 Merging two PSBTs is `Combine`; signing by BDK is a step of the environment that adds signatures.
 */
module Signing {
  import opened Seqs

  type Key = nat
  type Fingerprint = nat
  type Signature = nat
  type Txid = nat

  datatype KeySource = KeySource(fingerprint: Fingerprint, path: seq<nat>)

  datatype Input = Input(partialSigs: map<Key, Signature>, derivation: map<Key, KeySource>)

  datatype Psbt = Psbt(unsignedTx: Txid, xpubs: map<Key, KeySource>, inputs: seq<Input>)

  datatype Member = Member(id: string, fingerprint: Fingerprint, software: bool, caption: Option<string>)

  datatype Group = Group(threshold: nat, members: seq<Member>)

  datatype PsbtError =
    | UnexpectedSignatures(found: nat)
    | UnknownSigner
    | DescriptorMismatch
    | CombineFailed
    | InvalidSignature
    | BdkSigner
    | InsufficientSignatures(have: nat, need: nat)
    | FinalizationFailed

  datatype SigningRequest = SigningRequest(signerId: string, fingerprint: Fingerprint, psbt: Psbt)

  datatype SigningAction = Direct | External(request: SigningRequest, instructions: Option<string>)

  // ----- Merging -----

  function CombineInput(a: Input, b: Input): Input {
    Input(a.partialSigs + b.partialSigs, a.derivation + b.derivation)
  }

  predicate SameSources(a: map<Key, KeySource>, b: map<Key, KeySource>) {
    forall k :: k in a && k in b ==> a[k] == b[k]
  }

  /** `a` extended by `b`, input by input; a shared extended key must have the same source. */
  function Combine(a: Psbt, b: Psbt): Option<Psbt> {
    if a.unsignedTx != b.unsignedTx || !SameSources(a.xpubs, b.xpubs) then None
    else Some(Psbt(a.unsignedTx, a.xpubs + b.xpubs,
      seq(|a.inputs|, i requires 0 <= i < |a.inputs| =>
        if i < |b.inputs| then CombineInput(a.inputs[i], b.inputs[i]) else a.inputs[i])))
  }

  // ----- Attribution -----

  /** The partial signature of `k` is by the holder of `fp`, as the derivation map says. */
  predicate SignedBy(input: Input, k: Key, fp: Fingerprint) {
    k in input.partialSigs && k in input.derivation && input.derivation[k].fingerprint == fp
  }

  function InputFingerprints(input: Input): set<Fingerprint> {
    set k | k in input.partialSigs && k in input.derivation :: input.derivation[k].fingerprint
  }

  /** The fingerprints with a partial signature on some input. */
  function SignedFingerprints(inputs: seq<Input>): set<Fingerprint> {
    if inputs == [] then {} else InputFingerprints(inputs[0]) + SignedFingerprints(inputs[1..])
  }

  /** The member a fingerprint belongs to: the last one, if it is shared. */
  function Owners(members: seq<Member>): map<Fingerprint, string> {
    if members == [] then map[]
    else
      var last := members[|members| - 1];
      Owners(members[..|members| - 1])[last.fingerprint := last.id]
  }

  function SignersWithSigs(psbt: Psbt, members: seq<Member>): set<string> {
    var owners := Owners(members);
    set fp | fp in SignedFingerprints(psbt.inputs) && fp in owners :: owners[fp]
  }

  function Find(members: seq<Member>, id: string): Option<Member> {
    if members == [] then None else if members[0].id == id then Some(members[0]) else Find(members[1..], id)
  }

  /** The signatures by `fp` that are in `input` and were not in `before`. */
  function NewKeys(before: Input, input: Input, fp: Fingerprint): set<Key> {
    set k | k in input.partialSigs && SignedBy(input, k, fp) && k !in before.partialSigs
  }

  predicate FindsNew(before: seq<Input>, merged: seq<Input>, fp: Fingerprint)
    requires |before| == |merged|
  {
    exists i :: 0 <= i < |merged| && NewKeys(before[i], merged[i], fp) != {}
  }

  // ----- The session, as a function of its state -----

  datatype State = State(psbt: Psbt, signed: set<string>)

  datatype Message = Message(id: string, psbt: Psbt)

  datatype Received = Received(state: State, error: Option<PsbtError>)

  function Receive(group: Group, s: State, m: Message): Received {
    match Find(group.members, m.id)
    case None => Received(s, Some(UnknownSigner))
    case Some(member) =>
      if m.psbt.unsignedTx != s.psbt.unsignedTx then Received(s, Some(DescriptorMismatch))
      else match Combine(s.psbt, m.psbt)
        case None => Received(s, Some(CombineFailed))
        case Some(merged) =>
          if FindsNew(s.psbt.inputs, merged.inputs, member.fingerprint)
          then Received(State(merged, s.signed + {m.id}), None)
          else Received(s, Some(InvalidSignature))
  }

  /** What BDK's signers may do to a PSBT: add partial signatures, and nothing else. */
  predicate AddsSignatures(a: Psbt, b: Psbt) {
    && b.unsignedTx == a.unsignedTx && b.xpubs == a.xpubs && |b.inputs| == |a.inputs|
    && forall i :: 0 <= i < |a.inputs| ==>
         b.inputs[i].derivation == a.inputs[i].derivation &&
           a.inputs[i].partialSigs.Keys <= b.inputs[i].partialSigs.Keys
  }

  /** Asking for signatures: `signed` is what BDK makes of the PSBT, `fails` whether it reports an error. */
  function Request(group: Group, s: State, signed: Psbt, fails: bool): State {
    if fails then s.(psbt := signed) else State(signed, s.signed + SignersWithSigs(signed, group.members))
  }

  function Instructions(caption: Option<string>): Option<string> {
    match caption
    case None => None
    case Some(name) => Some("Hand the PSBT to " + name + " for signing on the connected hardware wallet.")
  }

  function ActionOf(psbt: Psbt, m: Member): SigningAction {
    if m.software then Direct
    else External(SigningRequest(m.id, m.fingerprint, psbt), Instructions(m.caption))
  }

  function ActionFor(psbt: Psbt): Member -> (string, SigningAction) {
    (m: Member) => (m.id, ActionOf(psbt, m))
  }

  function SigCount(input: Input): nat { |input.partialSigs| }

  lemma {:induction false} NoSignatures(inputs: seq<Input>)
    ensures Sum(SigCount, inputs) == 0 <==> forall i :: 0 <= i < |inputs| ==> inputs[i].partialSigs == map[]
  {
    if inputs != [] {
      var sigs := inputs[0].partialSigs;
      assert |sigs| == 0 <==> sigs == map[];
      NoSignatures(inputs[1..]);
      assert forall i :: 0 <= i < |inputs[1..]| ==> inputs[1..][i] == inputs[i + 1];
      assert forall i :: 0 < i < |inputs| ==> inputs[i] == inputs[1..][i - 1];
    }
  }

  // ----- The coordinator -----

  /** Accepts a PSBT without partial signatures. */
  method NewUnsigned(psbt: Psbt) returns (error: Option<PsbtError>)
    ensures error.None? <==> forall i :: 0 <= i < |psbt.inputs| ==> psbt.inputs[i].partialSigs == map[]
    ensures error.Some? ==> error == Some(UnexpectedSignatures(Sum(SigCount, psbt.inputs)))
  {
    var total := 0;
    assert psbt.inputs[0..] == psbt.inputs;
    for i := 0 to |psbt.inputs|
      invariant total + Sum(SigCount, psbt.inputs[i..]) == Sum(SigCount, psbt.inputs)
    {
      assert psbt.inputs[i..][1..] == psbt.inputs[i + 1..];
      total := total + |psbt.inputs[i].partialSigs|;
    }
    NoSignatures(psbt.inputs);
    error := if total != 0 then Some(UnexpectedSignatures(total)) else None;
  }

  class SigningCoordinator {
    const group: Group
    var psbt: Psbt
    var signed: set<string>

    function AsState(): State
      reads this
    {
      State(psbt, signed)
    }

    constructor (group: Group, psbt: Psbt)
      ensures this.group == group && AsState() == State(psbt, {})
    {
      this.group, this.psbt, signed := group, psbt, {};
    }

    predicate IsComplete()
      reads this
    {
      |signed| >= group.threshold
    }

    /** Signs through BDK and lists what each member has to do, in federation order. */
    method RequestSignatures(bdkSigned: Psbt, fails: bool)
        returns (actions: seq<(string, SigningAction)>, error: Option<PsbtError>)
      requires AddsSignatures(psbt, bdkSigned)
      modifies this
      ensures AsState() == Request(group, old(AsState()), bdkSigned, fails)
      ensures error == if fails then Some(BdkSigner) else None
      ensures actions == if fails then [] else Map(ActionFor(bdkSigned), group.members)
      ensures psbt == bdkSigned && (fails ==> signed == old(signed))
      ensures !fails ==> |actions| == |group.members| && forall i :: 0 <= i < |group.members| ==>
                var m, (id, action) := group.members[i], actions[i];
                && id == m.id && (action.Direct? <==> m.software)
                && (action.External? ==>
                     && action.request.signerId == m.id && action.request.fingerprint == m.fingerprint
                     && action.request.psbt == bdkSigned && (action.instructions.Some? <==> m.caption.Some?)
                     && (m.caption.None? || action.instructions.value ==
                          "Hand the PSBT to " + m.caption.value + " for signing on the connected hardware wallet."))
    {
      psbt := bdkSigned;
      if fails {
        return [], Some(BdkSigner);
      }
      var after := CollectSigners(psbt, group.members);
      signed := signed + after;
      actions := Actions(psbt, group.members);
      error := None;
    }

    /** Merges the PSBT a member returned, if it brings a signature of that member. */
    method ReceiveSignature(signerId: string, signedPsbt: Psbt) returns (error: Option<PsbtError>)
      modifies this
      ensures Received(AsState(), error) == Receive(group, old(AsState()), Message(signerId, signedPsbt))
    {
      var member := Find(group.members, signerId);
      if member.None? {
        return Some(UnknownSigner);
      }
      if signedPsbt.unsignedTx != psbt.unsignedTx {
        return Some(DescriptorMismatch);
      }
      var merged := Combine(psbt, signedPsbt);
      if merged.None? {
        return Some(CombineFailed);
      }
      var foundNew := HasNew(psbt.inputs, merged.value.inputs, member.value.fingerprint);
      if !foundNew {
        return Some(InvalidSignature);
      }
      psbt := merged.value;
      signed := signed + {signerId};
      error := None;
    }

    /**
     Finalizes through BDK. `bdkFinalizes` need only be defined on a complete session's PSBT: below
     the threshold it is not asked.
     */
    method Finalize(bdkFinalizes: Psbt --> bool) returns (error: Option<PsbtError>)
      requires |signed| >= group.threshold ==> bdkFinalizes.requires(psbt)
      ensures error == if |signed| < group.threshold then Some(InsufficientSignatures(|signed|, group.threshold))
                       else if !bdkFinalizes(psbt) then Some(FinalizationFailed) else None
    {
      if !IsComplete() {
        return Some(InsufficientSignatures(|signed|, group.threshold));
      }
      error := if bdkFinalizes(psbt) then None else Some(FinalizationFailed);
    }
  }

  /** What each member has to do, in federation order. */
  method Actions(psbt: Psbt, members: seq<Member>) returns (actions: seq<(string, SigningAction)>)
    ensures actions == Map(ActionFor(psbt), members)
  {
    actions := [];
    for i := 0 to |members|
      invariant actions == Map(ActionFor(psbt), members[..i])
    {
      MapNext(ActionFor(psbt), members, i);
      actions := actions + [(members[i].id, ActionOf(psbt, members[i]))];
    }
    assert members[..|members|] == members;
  }

  /** Looks for a signature of `fp` that was not there before, input by input and key by key. */
  method HasNew(before: seq<Input>, merged: seq<Input>, fp: Fingerprint) returns (foundNew: bool)
    requires |before| == |merged|
    ensures foundNew == FindsNew(before, merged, fp)
  {
    foundNew := false;
    for i := 0 to |merged|
      invariant foundNew <==> exists j :: 0 <= j < i && NewKeys(before[j], merged[j], fp) != {}
    {
      var keys := merged[i].partialSigs.Keys;
      ghost var earlier := foundNew;
      while keys != {}
        invariant keys <= merged[i].partialSigs.Keys
        invariant foundNew <==> earlier || NewKeys(before[i], merged[i], fp) - keys != {}
        decreases keys
      {
        var k :| k in keys;
        if SignedBy(merged[i], k, fp) && k !in before[i].partialSigs {
          assert k in NewKeys(before[i], merged[i], fp) - (keys - {k});
          foundNew := true;
        } else {
          assert NewKeys(before[i], merged[i], fp) - (keys - {k}) == NewKeys(before[i], merged[i], fp) - keys;
        }
        keys := keys - {k};
      }
      assert NewKeys(before[i], merged[i], fp) - {} == NewKeys(before[i], merged[i], fp);
    }
  }

  /** The members with a partial signature on some input. */
  method CollectSigners(psbt: Psbt, members: seq<Member>) returns (signers: set<string>)
    ensures signers == SignersWithSigs(psbt, members)
  {
    var owners: map<Fingerprint, string> := map[];
    for i := 0 to |members|
      invariant owners == Owners(members[..i])
    {
      assert members[..i + 1][..i] == members[..i];
      owners := owners[members[i].fingerprint := members[i].id];
    }
    assert members[..|members|] == members;
    signers := {};
    ghost var found := {};
    for i := 0 to |psbt.inputs|
      invariant found == SignedFingerprints(psbt.inputs[..i])
      invariant signers == set fp | fp in found && fp in owners :: owners[fp]
    {
      var credited := CreditInput(psbt.inputs[i], owners);
      SignedFingerprintsSnoc(psbt.inputs[..i], psbt.inputs[i]);
      assert psbt.inputs[..i + 1] == psbt.inputs[..i] + [psbt.inputs[i]];
      found := found + InputFingerprints(psbt.inputs[i]);
      signers := signers + credited;
    }
    assert psbt.inputs[..|psbt.inputs|] == psbt.inputs;
  }

  method CreditInput(input: Input, owners: map<Fingerprint, string>) returns (signers: set<string>)
    ensures signers == set fp | fp in InputFingerprints(input) && fp in owners :: owners[fp]
  {
    signers := {};
    var keys := input.derivation.Keys;
    ghost var seen := {};
    while keys != {}
      invariant keys <= input.derivation.Keys
      invariant seen <= InputFingerprints(input) && forall k :: k in input.derivation.Keys - keys ==>
                  input.derivation[k].fingerprint in InputFingerprints(input) ==>
                    input.derivation[k].fingerprint in seen
      invariant signers == set fp | fp in seen && fp in owners :: owners[fp]
      decreases keys
    {
      var k :| k in keys;
      var fp := input.derivation[k].fingerprint;
      var signedWithFp := exists pk :: pk in input.partialSigs && SignedBy(input, pk, fp);
      if signedWithFp {
        seen := seen + {fp};
        if fp in owners {
          signers := signers + {owners[fp]};
        }
      }
      keys := keys - {k};
    }
    assert seen == InputFingerprints(input);
  }

  lemma {:induction false} SignedFingerprintsSnoc(inputs: seq<Input>, input: Input)
    ensures SignedFingerprints(inputs + [input]) == SignedFingerprints(inputs) + InputFingerprints(input)
  {
    if inputs == [] {
      assert [input][1..] == [] && inputs + [input] == [input];
    } else {
      SignedFingerprintsSnoc(inputs[1..], input);
      assert (inputs + [input])[1..] == inputs[1..] + [input];
    }
  }
}
