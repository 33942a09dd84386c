/** Invariants of every signing session, and its independence of the order of the replies. */
module SigningTheorems {
  import opened Seqs
  import opened Signing

  // ----- Sessions -----

  datatype Event = Reply(message: Message) | Asked(bdkSigned: Psbt, fails: bool)

  function Step(group: Group, s: State, e: Event): State {
    match e
    case Reply(m) => Receive(group, s, m).state
    case Asked(bdkSigned, fails) => Request(group, s, bdkSigned, fails)
  }

  function Run(group: Group, s: State, events: seq<Event>): State
    decreases |events|
  {
    if events == [] then s else Run(group, Step(group, s, events[0]), events[1..])
  }

  /** Derivation maps agree: every key has the source `origin` says. */
  ghost predicate Truthful(origin: Key -> KeySource, psbt: Psbt) {
    forall i :: 0 <= i < |psbt.inputs| ==> TruthfulInput(origin, psbt.inputs[i])
  }

  ghost predicate TruthfulInput(origin: Key -> KeySource, input: Input) {
    forall k :: k in input.derivation ==> input.derivation[k] == origin(k)
  }

  /** Replies have truthful derivation maps; BDK only adds signatures. */
  ghost predicate Fair(origin: Key -> KeySource, s: State, e: Event) {
    match e
    case Reply(m) => Truthful(origin, m.psbt)
    case Asked(bdkSigned, _) => AddsSignatures(s.psbt, bdkSigned)
  }

  ghost predicate FairRun(group: Group, origin: Key -> KeySource, s: State, events: seq<Event>)
    decreases |events|
  {
    events == [] || (Fair(origin, s, events[0]) && FairRun(group, origin, Step(group, s, events[0]), events[1..]))
  }

  ghost predicate DistinctMembers(group: Group) {
    forall i, j :: 0 <= i < j < |group.members| ==>
      group.members[i].id != group.members[j].id && group.members[i].fingerprint != group.members[j].fingerprint
  }

  /** A member is credited with a signature that is in the PSBT. */
  ghost predicate Credited(group: Group, psbt: Psbt, id: string) {
    Find(group.members, id).Some? && Find(group.members, id).value.fingerprint in SignedFingerprints(psbt.inputs)
  }

  ghost predicate Invariant(group: Group, origin: Key -> KeySource, tx: Txid, s: State) {
    && s.psbt.unsignedTx == tx && Truthful(origin, s.psbt)
    && forall id :: id in s.signed ==> Credited(group, s.psbt, id)
  }

  // ----- Signatures accumulate -----

  lemma {:induction false} SignedFingerprintsAre(inputs: seq<Input>, fp: Fingerprint)
    ensures fp in SignedFingerprints(inputs) <==> exists i :: 0 <= i < |inputs| && fp in InputFingerprints(inputs[i])
  {
    if inputs != [] {
      SignedFingerprintsAre(inputs[1..], fp);
      assert forall i :: 0 <= i < |inputs[1..]| ==> inputs[1..][i] == inputs[i + 1];
      if fp in SignedFingerprints(inputs[1..]) {
        var i :| 0 <= i < |inputs[1..]| && fp in InputFingerprints(inputs[1..][i]);
        assert fp in InputFingerprints(inputs[i + 1]);
      }
      if exists i :: 0 <= i < |inputs| && fp in InputFingerprints(inputs[i]) {
        var i :| 0 <= i < |inputs| && fp in InputFingerprints(inputs[i]);
        assert i > 0 ==> fp in InputFingerprints(inputs[1..][i - 1]);
      }
    }
  }

  /** `b` has every attributable signature of `a`. */
  ghost predicate Grows(a: seq<Input>, b: seq<Input>) {
    |a| == |b| && forall i :: 0 <= i < |a| ==> InputFingerprints(a[i]) <= InputFingerprints(b[i])
  }

  lemma GrowthKeepsSigners(a: seq<Input>, b: seq<Input>)
    requires Grows(a, b)
    ensures SignedFingerprints(a) <= SignedFingerprints(b)
  {
    forall fp | fp in SignedFingerprints(a) ensures fp in SignedFingerprints(b) {
      SignedFingerprintsAre(a, fp);
      SignedFingerprintsAre(b, fp);
      var i :| 0 <= i < |a| && fp in InputFingerprints(a[i]);
      assert fp in InputFingerprints(b[i]);
    }
  }

  lemma CombineInputGrows(origin: Key -> KeySource, a: Input, b: Input)
    requires TruthfulInput(origin, a) && TruthfulInput(origin, b)
    ensures TruthfulInput(origin, CombineInput(a, b)) && InputFingerprints(a) <= InputFingerprints(CombineInput(a, b))
  {
    var c := CombineInput(a, b);
    forall fp | fp in InputFingerprints(a) ensures fp in InputFingerprints(c) {
      var k :| k in a.partialSigs && k in a.derivation && a.derivation[k].fingerprint == fp;
      assert SignedBy(c, k, fp);
    }
  }

  lemma CombineGrows(origin: Key -> KeySource, a: Psbt, b: Psbt)
    requires Truthful(origin, a) && Truthful(origin, b) && Combine(a, b).Some?
    ensures var c := Combine(a, b).value;
            Truthful(origin, c) && Grows(a.inputs, c.inputs) && c.unsignedTx == a.unsignedTx
  {
    forall i | 0 <= i < |a.inputs| && i < |b.inputs|
      ensures TruthfulInput(origin, CombineInput(a.inputs[i], b.inputs[i]))
      ensures InputFingerprints(a.inputs[i]) <= InputFingerprints(CombineInput(a.inputs[i], b.inputs[i]))
    {
      CombineInputGrows(origin, a.inputs[i], b.inputs[i]);
    }
  }

  lemma SigningGrows(origin: Key -> KeySource, a: Psbt, b: Psbt)
    requires Truthful(origin, a) && AddsSignatures(a, b)
    ensures Truthful(origin, b) && Grows(a.inputs, b.inputs)
  {
    forall i | 0 <= i < |a.inputs|
      ensures TruthfulInput(origin, b.inputs[i]) && InputFingerprints(a.inputs[i]) <= InputFingerprints(b.inputs[i])
    {
      assert b.inputs[i].derivation == a.inputs[i].derivation &&
        a.inputs[i].partialSigs.Keys <= b.inputs[i].partialSigs.Keys;
      forall fp | fp in InputFingerprints(a.inputs[i]) ensures fp in InputFingerprints(b.inputs[i]) {
        var k :| k in a.inputs[i].partialSigs && k in a.inputs[i].derivation &&
          a.inputs[i].derivation[k].fingerprint == fp;
        assert SignedBy(b.inputs[i], k, fp);
      }
    }
  }

  // ----- Members and their fingerprints -----

  lemma {:induction false} FindFinds(members: seq<Member>, id: string)
    ensures Find(members, id).Some? ==> Find(members, id).value in members && Find(members, id).value.id == id
    ensures Find(members, id).None? ==> forall m :: m in members ==> m.id != id
  {
    if members != [] && members[0].id != id {
      FindFinds(members[1..], id);
    }
  }

  lemma {:induction false} OwnersOwn(members: seq<Member>, fp: Fingerprint) returns (i: nat)
    requires fp in Owners(members)
    ensures i < |members| && members[i].fingerprint == fp && members[i].id == Owners(members)[fp]
    ensures forall h :: i < h < |members| ==> members[h].fingerprint != fp
  {
    if members[|members| - 1].fingerprint == fp {
      i := |members| - 1;
    } else {
      i := OwnersOwn(members[..|members| - 1], fp);
    }
  }

  lemma {:induction false} OwnersHold(members: seq<Member>, i: nat)
    requires i < |members| && forall h :: i < h < |members| ==> members[h].fingerprint != members[i].fingerprint
    ensures members[i].fingerprint in Owners(members) && Owners(members)[members[i].fingerprint] == members[i].id
  {
    if i < |members| - 1 {
      OwnersHold(members[..|members| - 1], i);
    }
  }

  lemma {:induction false} FindAt(members: seq<Member>, i: nat)
    requires i < |members| && forall h :: 0 <= h < i ==> members[h].id != members[i].id
    ensures Find(members, members[i].id) == Some(members[i])
  {
    if i > 0 {
      FindAt(members[1..], i - 1);
    }
  }

  /** A key of the member at `j` has signed some input, and no later member shares its fingerprint. */
  ghost predicate SignsAs(members: seq<Member>, psbt: Psbt, j: nat, i: nat, k: Key) {
    && j < |members| && i < |psbt.inputs| && SignedBy(psbt.inputs[i], k, members[j].fingerprint)
    && forall h :: j < h < |members| ==> members[h].fingerprint != members[j].fingerprint
  }

  /** A shared fingerprint is credited to the last member that has it. */
  lemma LastIsCredited(members: seq<Member>, psbt: Psbt, id: string)
    ensures id in SignersWithSigs(psbt, members) <==>
            exists j: nat, i: nat, k :: SignsAs(members, psbt, j, i, k) && members[j].id == id
  {
    var owners := Owners(members);
    if id in SignersWithSigs(psbt, members) {
      var fp :| fp in SignedFingerprints(psbt.inputs) && fp in owners && owners[fp] == id;
      var j := OwnersOwn(members, fp);
      SignedFingerprintsAre(psbt.inputs, fp);
      var i :| 0 <= i < |psbt.inputs| && fp in InputFingerprints(psbt.inputs[i]);
      var k :| k in psbt.inputs[i].partialSigs && k in psbt.inputs[i].derivation &&
        psbt.inputs[i].derivation[k].fingerprint == fp;
      assert SignsAs(members, psbt, j, i, k);
    }
    if j: nat, i: nat, k :| SignsAs(members, psbt, j, i, k) && members[j].id == id {
      var fp := members[j].fingerprint;
      OwnersHold(members, j);
      assert fp in InputFingerprints(psbt.inputs[i]);
      SignedFingerprintsAre(psbt.inputs, fp);
    }
  }

  /** The loop over inputs credits exactly the members with a signature. */
  lemma SignersAreCredited(group: Group, psbt: Psbt, id: string)
    requires DistinctMembers(group)
    ensures id in SignersWithSigs(psbt, group.members) <==> Credited(group, psbt, id)
  {
    var owners := Owners(group.members);
    if id in SignersWithSigs(psbt, group.members) {
      var fp :| fp in SignedFingerprints(psbt.inputs) && fp in owners && owners[fp] == id;
      var i := OwnersOwn(group.members, fp);
      FindAt(group.members, i);
    }
    if Credited(group, psbt, id) {
      FindFinds(group.members, id);
      var m := Find(group.members, id).value;
      var i :| 0 <= i < |group.members| && group.members[i] == m;
      OwnersHold(group.members, i);
    }
  }

  // ----- The invariant -----

  lemma NewSignatureCredits(before: seq<Input>, merged: seq<Input>, fp: Fingerprint)
    requires |before| == |merged| && FindsNew(before, merged, fp)
    ensures fp in SignedFingerprints(merged)
  {
    var i :| 0 <= i < |merged| && NewKeys(before[i], merged[i], fp) != {};
    var k :| k in NewKeys(before[i], merged[i], fp);
    assert fp in InputFingerprints(merged[i]);
    SignedFingerprintsAre(merged, fp);
  }

  lemma StepKeepsInvariant(group: Group, origin: Key -> KeySource, tx: Txid, s: State, e: Event)
    requires DistinctMembers(group) && Invariant(group, origin, tx, s) && Fair(origin, s, e)
    ensures Invariant(group, origin, tx, Step(group, s, e))
    ensures s.signed <= Step(group, s, e).signed
  {
    match e
    case Reply(m) =>
      var r := Receive(group, s, m);
      if r.error.None? {
        var merged := r.state.psbt;
        CombineGrows(origin, s.psbt, m.psbt);
        GrowthKeepsSigners(s.psbt.inputs, merged.inputs);
        NewSignatureCredits(s.psbt.inputs, merged.inputs, Find(group.members, m.id).value.fingerprint);
      }
    case Asked(bdkSigned, fails) =>
      SigningGrows(origin, s.psbt, bdkSigned);
      GrowthKeepsSigners(s.psbt.inputs, bdkSigned.inputs);
      forall id | id in SignersWithSigs(bdkSigned, group.members) ensures Credited(group, bdkSigned, id) {
        SignersAreCredited(group, bdkSigned, id);
      }
  }

  /**
   Every run: the transaction never changes, nobody drops out of the signed set, and every signer
   in it is a member with an attributable signature in the PSBT.
   */
  lemma {:induction false} RunKeepsInvariant(group: Group, origin: Key -> KeySource, tx: Txid, s: State,
      events: seq<Event>)
    requires DistinctMembers(group) && Invariant(group, origin, tx, s) && FairRun(group, origin, s, events)
    ensures Invariant(group, origin, tx, Run(group, s, events)) && s.signed <= Run(group, s, events).signed
    decreases |events|
  {
    if events != [] {
      StepKeepsInvariant(group, origin, tx, s, events[0]);
      RunKeepsInvariant(group, origin, tx, Step(group, s, events[0]), events[1..]);
    }
  }

  // ----- What a reply is answered -----

  /** The entries of both, and of a shared key the later one. */
  ghost predicate LaterWins<V>(a: map<Key, V>, b: map<Key, V>, c: map<Key, V>) {
    c.Keys == a.Keys + b.Keys && forall k :: k in c ==> c[k] == if k in b then b[k] else a[k]
  }

  ghost predicate Merges(a: Psbt, b: Psbt, c: Psbt) {
    && c.unsignedTx == a.unsignedTx && LaterWins(a.xpubs, b.xpubs, c.xpubs) && |c.inputs| == |a.inputs|
    && forall i :: 0 <= i < |a.inputs| ==>
         if i >= |b.inputs| then c.inputs[i] == a.inputs[i]
         else
           && LaterWins(a.inputs[i].partialSigs, b.inputs[i].partialSigs, c.inputs[i].partialSigs)
           && LaterWins(a.inputs[i].derivation, b.inputs[i].derivation, c.inputs[i].derivation)
  }

  /**
   `reply` signs input `i` with a key of `fp` that has not signed it: the reply's derivation comes
   before the session's.
   */
  ghost predicate NewlySigned(session: Psbt, reply: Psbt, fp: Fingerprint, i: nat, k: Key) {
    i < |session.inputs| && i < |reply.inputs| &&
      var a, b := session.inputs[i], reply.inputs[i];
      && k in b.partialSigs && k !in a.partialSigs
      && if k in b.derivation then b.derivation[k].fingerprint == fp
         else k in a.derivation && a.derivation[k].fingerprint == fp
  }

  ghost predicate BringsNew(session: Psbt, reply: Psbt, fp: Fingerprint) {
    exists i: nat, k :: NewlySigned(session, reply, fp, i, k)
  }

  /** The first member with the reply's id answers for it. */
  ghost predicate Sender(group: Group, m: Message, j: nat) {
    j < |group.members| && group.members[j].id == m.id && forall h :: 0 <= h < j ==> group.members[h].id != m.id
  }

  lemma FindsNewWhen(session: Psbt, reply: Psbt, fp: Fingerprint)
    requires Combine(session, reply).Some?
    ensures FindsNew(session.inputs, Combine(session, reply).value.inputs, fp) <==>
            BringsNew(session, reply, fp)
  {
    var merged := Combine(session, reply).value;
    if FindsNew(session.inputs, merged.inputs, fp) {
      var i :| 0 <= i < |merged.inputs| && NewKeys(session.inputs[i], merged.inputs[i], fp) != {};
      var k :| k in NewKeys(session.inputs[i], merged.inputs[i], fp);
      NewlySignedIn(session, reply, fp, i, k);
      assert NewlySigned(session, reply, fp, i, k);
    }
    if i: nat, k :| NewlySigned(session, reply, fp, i, k) {
      NewlySignedIn(session, reply, fp, i, k);
      assert k in NewKeys(session.inputs[i], merged.inputs[i], fp);
    }
  }

  lemma NewlySignedIn(session: Psbt, reply: Psbt, fp: Fingerprint, i: nat, k: Key)
    requires Combine(session, reply).Some? && i < |session.inputs|
    ensures k in NewKeys(session.inputs[i], Combine(session, reply).value.inputs[i], fp) <==>
            NewlySigned(session, reply, fp, i, k)
  {
  }

  lemma CombineMerges(a: Psbt, b: Psbt)
    ensures Combine(a, b).Some? <==> a.unsignedTx == b.unsignedTx && SameSources(a.xpubs, b.xpubs)
    ensures Combine(a, b).Some? ==> Merges(a, b, Combine(a, b).value)
  {
  }

  /** What `Receive` does with a known sender. */
  lemma ReceiveFrom(group: Group, s: State, m: Message, j: nat)
    requires Sender(group, m, j)
    ensures var merged := Combine(s.psbt, m.psbt);
            Receive(group, s, m) ==
              if m.psbt.unsignedTx != s.psbt.unsignedTx then Received(s, Some(DescriptorMismatch))
              else if merged.None? then Received(s, Some(CombineFailed))
              else if !FindsNew(s.psbt.inputs, merged.value.inputs, group.members[j].fingerprint)
              then Received(s, Some(InvalidSignature))
              else Received(State(merged.value, s.signed + {m.id}), None)
  {
    FindAt(group.members, j);
  }

  /** Each answer to a reply, and what an accepted one leaves, from the session and the reply alone. */
  lemma ReceiveDecides(group: Group, s: State, m: Message, j: nat)
    requires Sender(group, m, j)
    ensures var r, fp := Receive(group, s, m), group.members[j].fingerprint;
            var sameTx, sources := m.psbt.unsignedTx == s.psbt.unsignedTx, SameSources(s.psbt.xpubs, m.psbt.xpubs);
            var signs := BringsNew(s.psbt, m.psbt, fp);
            && (r.error == Some(DescriptorMismatch) <==> !sameTx)
            && (r.error == Some(CombineFailed) <==> sameTx && !sources)
            && (r.error == Some(InvalidSignature) <==> sameTx && sources && !signs)
            && (r.error == None <==> sameTx && sources && signs)
            && (r.error.Some? ==> r.state == s)
            && (r.error.None? ==> r.state.signed == s.signed + {m.id} && Merges(s.psbt, m.psbt, r.state.psbt))
  {
    ReceiveFrom(group, s, m, j);
    CombineMerges(s.psbt, m.psbt);
    if Combine(s.psbt, m.psbt).Some? {
      FindsNewWhen(s.psbt, m.psbt, group.members[j].fingerprint);
    }
  }

  /** Only a reply without a sender is from an unknown signer, and it changes nothing. */
  lemma {:induction false} UnknownSender(group: Group, s: State, m: Message)
    ensures Receive(group, s, m).error == Some(UnknownSigner) <==> forall x :: x in group.members ==> x.id != m.id
    ensures Receive(group, s, m).error == Some(UnknownSigner) ==> Receive(group, s, m).state == s
    ensures Receive(group, s, m).error != Some(UnknownSigner) ==> exists j: nat :: Sender(group, m, j)
  {
    FindFinds(group.members, m.id);
    if Find(group.members, m.id).Some? {
      var j := FindPlace(group.members, m.id);
      assert Sender(group, m, j);
    }
  }

  lemma {:induction false} FindPlace(members: seq<Member>, id: string) returns (j: nat)
    requires Find(members, id).Some?
    ensures j < |members| && members[j].id == id && forall h :: 0 <= h < j ==> members[h].id != id
  {
    if members[0].id == id {
      j := 0;
    } else {
      var k := FindPlace(members[1..], id);
      j := k + 1;
      assert forall h :: 0 < h <= j ==> members[h] == members[1..][h - 1];
    }
  }

  // ----- The threshold -----

  /** The keys of members that have signed some input. */
  function InputSignedKeys(input: Input, fps: set<Fingerprint>): set<Key> {
    set k | k in input.partialSigs && k in input.derivation && input.derivation[k].fingerprint in fps
  }

  function SignedKeys(inputs: seq<Input>, fps: set<Fingerprint>): set<Key> {
    if inputs == [] then {} else InputSignedKeys(inputs[0], fps) + SignedKeys(inputs[1..], fps)
  }

  lemma {:induction false} SignedKeysInclude(inputs: seq<Input>, fps: set<Fingerprint>, i: nat, k: Key)
    requires i < |inputs| && k in InputSignedKeys(inputs[i], fps)
    ensures k in SignedKeys(inputs, fps)
  {
    if i > 0 {
      SignedKeysInclude(inputs[1..], fps, i - 1, k);
    }
  }

  /** Keys that signed, as many as there are fingerprints, each for one of them. */
  ghost predicate OneEach(origin: Key -> KeySource, inputs: seq<Input>, all: set<Fingerprint>, fps: set<Fingerprint>,
      keys: set<Key>) {
    keys <= SignedKeys(inputs, all) && |keys| == |fps| && forall k :: k in keys ==> origin(k).fingerprint in fps
  }

  /** Under truthful maps a key signs for one fingerprint, so each signing fingerprint has a key of its own. */
  lemma {:induction false} KeyForEach(origin: Key -> KeySource, inputs: seq<Input>, all: set<Fingerprint>,
      fps: set<Fingerprint>)
    returns (keys: set<Key>)
    requires (forall i :: 0 <= i < |inputs| ==> TruthfulInput(origin, inputs[i])) && fps <= all
    requires forall fp :: fp in fps ==> fp in SignedFingerprints(inputs)
    ensures OneEach(origin, inputs, all, fps, keys)
  {
    if fps == {} {
      keys := {};
    } else {
      var fp :| fp in fps;
      keys := KeyForEach(origin, inputs, all, fps - {fp});
      SignedFingerprintsAre(inputs, fp);
      var i :| 0 <= i < |inputs| && fp in InputFingerprints(inputs[i]);
      var k :| k in inputs[i].partialSigs && k in inputs[i].derivation && inputs[i].derivation[k].fingerprint == fp;
      SignedKeysInclude(inputs, all, i, k);
      assert TruthfulInput(origin, inputs[i]);
      assert k !in keys;
      keys := keys + {k};
    }
  }

  /** The fingerprints of the members named in `ids`. */
  function FingerprintsOf(members: seq<Member>, ids: set<string>): set<Fingerprint> {
    set id | id in ids && Find(members, id).Some? :: Find(members, id).value.fingerprint
  }

  lemma DistinctFingerprints(group: Group, a: string, b: string)
    requires DistinctMembers(group) && a != b && Find(group.members, a).Some? && Find(group.members, b).Some?
    ensures Find(group.members, a).value.fingerprint != Find(group.members, b).value.fingerprint
  {
    FindFinds(group.members, a);
    FindFinds(group.members, b);
    var i :| 0 <= i < |group.members| && group.members[i] == Find(group.members, a).value;
    var j :| 0 <= j < |group.members| && group.members[j] == Find(group.members, b).value;
    assert i < j || j < i;
  }

  lemma {:induction false} AsManyFingerprints(group: Group, ids: set<string>)
    requires DistinctMembers(group) && forall id :: id in ids ==> Find(group.members, id).Some?
    ensures |FingerprintsOf(group.members, ids)| == |ids|
  {
    if ids == {} {
      assert FingerprintsOf(group.members, ids) == {};
    } else {
      var id :| id in ids;
      AsManyFingerprints(group, ids - {id});
      var fp, rest := Find(group.members, id).value.fingerprint, FingerprintsOf(group.members, ids - {id});
      forall other | other in ids - {id} ensures Find(group.members, other).value.fingerprint != fp {
        DistinctFingerprints(group, id, other);
      }
      assert fp !in rest;
      assert FingerprintsOf(group.members, ids) == rest + {fp};
    }
  }

  /** A complete session holds signatures by at least the threshold of distinct cosigner keys. */
  lemma CompleteMeansEnoughKeys(group: Group, origin: Key -> KeySource, tx: Txid, s: State)
    requires DistinctMembers(group) && Invariant(group, origin, tx, s) && |s.signed| >= group.threshold
    ensures var fps := FingerprintsOf(group.members, s.signed);
            |SignedKeys(s.psbt.inputs, fps)| >= group.threshold
  {
    var fps := FingerprintsOf(group.members, s.signed);
    forall id | id in s.signed ensures Find(group.members, id).Some? {
      assert Credited(group, s.psbt, id);
    }
    AsManyFingerprints(group, s.signed);
    forall fp | fp in fps ensures fp in SignedFingerprints(s.psbt.inputs) {
      var id :| id in s.signed && Find(group.members, id).Some? && Find(group.members, id).value.fingerprint == fp;
      assert Credited(group, s.psbt, id);
    }
    var keys := KeyForEach(origin, s.psbt.inputs, fps, fps);
    SubsetSize(keys, SignedKeys(s.psbt.inputs, fps));
  }

  /** From a new session, whatever happens, finalization is tried only with enough distinct cosigner keys. */
  lemma FinalizeNeedsThreshold(group: Group, origin: Key -> KeySource, psbt: Psbt, events: seq<Event>)
    requires DistinctMembers(group) && Truthful(origin, psbt) && FairRun(group, origin, State(psbt, {}), events)
    ensures var end := Run(group, State(psbt, {}), events);
            && end.psbt.unsignedTx == psbt.unsignedTx
            && (|end.signed| >= group.threshold ==>
                  |SignedKeys(end.psbt.inputs, FingerprintsOf(group.members, end.signed))| >= group.threshold)
  {
    RunKeepsInvariant(group, origin, psbt.unsignedTx, State(psbt, {}), events);
    var end := Run(group, State(psbt, {}), events);
    if |end.signed| >= group.threshold {
      CompleteMeansEnoughKeys(group, origin, psbt.unsignedTx, end);
    }
  }

  /**
   Asking for signatures credits every member that has signed, also one whose signature came inside
   another's reply.
   */
  lemma RequestCreditsEveryone(group: Group, origin: Key -> KeySource, tx: Txid, s: State, bdkSigned: Psbt, id: string)
    requires DistinctMembers(group) && Invariant(group, origin, tx, s) && AddsSignatures(s.psbt, bdkSigned)
    ensures id in Request(group, s, bdkSigned, false).signed <==> Credited(group, bdkSigned, id)
  {
    StepKeepsInvariant(group, origin, tx, s, Asked(bdkSigned, false));
    SignersAreCredited(group, bdkSigned, id);
  }

  /** A reply that was accepted is refused when it comes again. */
  lemma ReplayRefused(group: Group, s: State, m: Message)
    requires Receive(group, s, m).error.None?
    ensures Receive(group, Receive(group, s, m).state, m).error == Some(InvalidSignature)
  {
    var once := Receive(group, s, m).state.psbt;
    assert SameSources(once.xpubs, m.psbt.xpubs);
    var again := Combine(once, m.psbt).value;
    forall i, fp | 0 <= i < |again.inputs| ensures NewKeys(once.inputs[i], again.inputs[i], fp) == {} {
      assert again.inputs[i].partialSigs.Keys == once.inputs[i].partialSigs.Keys;
    }
  }

  // ----- The order of the replies -----

  /** What every PSBT of a session agrees on: the transaction, its inputs, and where each key comes from. */
  datatype Frame = Frame(unsignedTx: Txid, inputs: nat, origin: Key -> KeySource, xpubs: Key -> KeySource)

  ghost predicate Framed(frame: Frame, psbt: Psbt) {
    && psbt.unsignedTx == frame.unsignedTx && |psbt.inputs| == frame.inputs && Truthful(frame.origin, psbt)
    && forall k :: k in psbt.xpubs ==> psbt.xpubs[k] == frame.xpubs(k)
  }

  /** Two replies do not contradict each other: a key they both sign with on an input has one signature. */
  ghost predicate Agree(a: Psbt, b: Psbt) {
    forall i :: 0 <= i < |a.inputs| && i < |b.inputs| ==> AgreeInputs(a.inputs[i], b.inputs[i])
  }

  ghost predicate AgreeInputs(a: Input, b: Input) {
    forall k :: k in a.partialSigs && k in b.partialSigs ==> a.partialSigs[k] == b.partialSigs[k]
  }

  /** The keys of `fp` that sign in `reply` and not in the session, as the session's map or the reply's own tells. */
  function OwnKeys(origin: Key -> KeySource, session: Input, reply: Input, fp: Fingerprint): set<Key> {
    set k | k in reply.partialSigs && k !in session.partialSigs &&
            (k in session.derivation || k in reply.derivation) && origin(k).fingerprint == fp
  }

  /** On input `i` the reply brings a signature of its sender by `k` that the session does not have. */
  ghost predicate Brings(group: Group, frame: Frame, s: State, m: Message, i: nat, k: Key) {
    && Framed(frame, s.psbt) && Framed(frame, m.psbt) && Find(group.members, m.id).Some? && i < frame.inputs
    && k in OwnKeys(frame.origin, s.psbt.inputs[i], m.psbt.inputs[i], Find(group.members, m.id).value.fingerprint)
  }

  /** The reply of one member: it brings a signature of that member. It may carry others, new or old. */
  ghost predicate OwnReply(group: Group, frame: Frame, s: State, m: Message) {
    exists i: nat, k :: Brings(group, frame, s, m, i, k)
  }

  /** Only `m` signs with `k` on input `i`. */
  ghost predicate OnlyBy(ms: seq<Message>, m: Message, i: nat, k: Key) {
    forall x :: x in ms && x != m && i < |x.psbt.inputs| ==> k !in x.psbt.inputs[i].partialSigs
  }

  /** The reply brings a signature of its sender that none of the others carries. */
  ghost predicate Contributes(group: Group, frame: Frame, s: State, ms: seq<Message>, m: Message) {
    exists i: nat, k :: Brings(group, frame, s, m, i, k) && OnlyBy(ms, m, i, k)
  }

  /** Replies that agree, each with a signature of its sender that neither the session nor another reply has. */
  ghost predicate Independent(group: Group, frame: Frame, s: State, ms: seq<Message>) {
    && Framed(frame, s.psbt) && NoDup(ms)
    && (forall m :: m in ms ==> Framed(frame, m.psbt) && Contributes(group, frame, s, ms, m))
    && forall a, b {:trigger a in ms, b in ms} :: a in ms && b in ms && a != b ==> Agree(a.psbt, b.psbt)
  }

  function Take(group: Group): (State, Message) -> State {
    (s: State, m: Message) => Receive(group, s, m).state
  }

  function Replies(group: Group, s: State, ms: seq<Message>): State {
    Fold(Take(group), s, ms)
  }

  /** The session with one independent reply merged in. */
  function Merged(s: State, m: Message): State
    requires Combine(s.psbt, m.psbt).Some?
  {
    State(Combine(s.psbt, m.psbt).value, s.signed + {m.id})
  }

  /** Framed PSBTs merge, and the result is framed again. */
  lemma FramedCombines(frame: Frame, a: Psbt, b: Psbt)
    requires Framed(frame, a) && Framed(frame, b)
    ensures Combine(a, b).Some? && Framed(frame, Combine(a, b).value)
    ensures Combine(a, b).value.xpubs == a.xpubs + b.xpubs
    ensures forall i :: 0 <= i < |a.inputs| ==> Combine(a, b).value.inputs[i] == CombineInput(a.inputs[i], b.inputs[i])
  {
    CombineGrows(frame.origin, a, b);
  }

  lemma OwnKeyIsNew(frame: Frame, s: Psbt, m: Psbt, fp: Fingerprint, i: nat, k: Key)
    requires Framed(frame, s) && Framed(frame, m) && i < frame.inputs
    requires k in OwnKeys(frame.origin, s.inputs[i], m.inputs[i], fp)
    ensures k in NewKeys(s.inputs[i], CombineInput(s.inputs[i], m.inputs[i]), fp)
  {
    assert TruthfulInput(frame.origin, s.inputs[i]) && TruthfulInput(frame.origin, m.inputs[i]);
  }

  /** A reply that brings a signature of its sender is accepted. */
  lemma IndependentAccepted(group: Group, frame: Frame, s: State, m: Message)
    requires OwnReply(group, frame, s, m)
    ensures Combine(s.psbt, m.psbt).Some? && Receive(group, s, m) == Received(Merged(s, m), None)
  {
    var i: nat, k :| Brings(group, frame, s, m, i, k);
    FramedCombines(frame, s.psbt, m.psbt);
    var merged, fp := Combine(s.psbt, m.psbt).value, Find(group.members, m.id).value.fingerprint;
    OwnKeyIsNew(frame, s.psbt, m.psbt, fp, i, k);
    assert NewKeys(s.psbt.inputs[i], merged.inputs[i], fp) != {};
  }

  lemma InputsCommute(origin: Key -> KeySource, s: Input, a: Input, b: Input)
    requires TruthfulInput(origin, s) && TruthfulInput(origin, a) && TruthfulInput(origin, b) && AgreeInputs(a, b)
    ensures CombineInput(CombineInput(s, a), b) == CombineInput(CombineInput(s, b), a)
  {
    assert s.partialSigs + a.partialSigs + b.partialSigs == s.partialSigs + b.partialSigs + a.partialSigs;
    assert s.derivation + a.derivation + b.derivation == s.derivation + b.derivation + a.derivation;
  }

  /** Merging two replies that agree gives the same PSBT in either order. */
  lemma CombineCommutes(frame: Frame, s: Psbt, a: Psbt, b: Psbt)
    requires Framed(frame, s) && Framed(frame, a) && Framed(frame, b) && Agree(a, b)
    ensures Combine(s, a).Some? && Combine(s, b).Some?
    ensures Combine(Combine(s, a).value, b).Some? && Combine(Combine(s, a).value, b) == Combine(Combine(s, b).value, a)
  {
    FramedCombines(frame, s, a);
    FramedCombines(frame, s, b);
    var sa, sb := Combine(s, a).value, Combine(s, b).value;
    FramedCombines(frame, sa, b);
    FramedCombines(frame, sb, a);
    assert sa.xpubs + b.xpubs == sb.xpubs + a.xpubs;
    forall i | 0 <= i < |s.inputs|
      ensures CombineInput(CombineInput(s.inputs[i], a.inputs[i]), b.inputs[i]) ==
              CombineInput(CombineInput(s.inputs[i], b.inputs[i]), a.inputs[i])
    {
      InputsCommute(frame.origin, s.inputs[i], a.inputs[i], b.inputs[i]);
    }
    assert Combine(sa, b).value.inputs == Combine(sb, a).value.inputs;
  }

  /** A signature the other reply does not have is still brought after the other was merged. */
  lemma StillBrings(group: Group, frame: Frame, s: State, m: Message, other: Message, i: nat, k: Key)
    requires Brings(group, frame, s, m, i, k) && Framed(frame, other.psbt) && k !in other.psbt.inputs[i].partialSigs
    ensures Combine(s.psbt, other.psbt).Some? && Brings(group, frame, Merged(s, other), m, i, k)
  {
    FramedCombines(frame, s.psbt, other.psbt);
  }

  lemma WithoutNoDup(ms: seq<Message>, i: nat)
    requires NoDup(ms) && i < |ms|
    ensures NoDup(Without(ms, i)) && forall m :: m in Without(ms, i) ==> m in ms && m != ms[i]
  {
    var rest := Without(ms, i);
    forall j | 0 <= j < |rest| ensures rest[j] in ms && rest[j] != ms[i] {
      assert rest[j] == ms[if j < i then j else j + 1];
    }
    forall j, k | 0 <= j < k < |rest| ensures rest[j] != rest[k] {
      assert rest[j] == ms[if j < i then j else j + 1] && rest[k] == ms[if k < i then k else k + 1];
    }
  }

  /** The other replies still contribute after one was merged. */
  lemma StillContributes(group: Group, frame: Frame, s: State, ms: seq<Message>, j: nat, m: Message)
    requires Independent(group, frame, s, ms) && j < |ms| && m in ms && m != ms[j]
    ensures Combine(s.psbt, ms[j].psbt).Some?
    ensures Contributes(group, frame, Merged(s, ms[j]), Without(ms, j), m)
  {
    var i: nat, k :| Brings(group, frame, s, m, i, k) && OnlyBy(ms, m, i, k);
    assert ms[j] in ms;
    StillBrings(group, frame, s, m, ms[j], i, k);
    WithoutNoDup(ms, j);
    assert OnlyBy(Without(ms, j), m, i, k);
  }

  /** The other replies stay independent after one was merged. */
  lemma StaysIndependent(group: Group, frame: Frame, s: State, ms: seq<Message>, i: nat)
    requires Independent(group, frame, s, ms) && i < |ms|
    ensures Independent(group, frame, Receive(group, s, ms[i]).state, Without(ms, i))
  {
    var x, rest := ms[i], Without(ms, i);
    assert x in ms;
    IndependentAccepted(group, frame, s, x);
    FramedCombines(frame, s.psbt, x.psbt);
    WithoutNoDup(ms, i);
    forall m | m in rest ensures Framed(frame, m.psbt) && Contributes(group, frame, Merged(s, x), rest, m) {
      StillContributes(group, frame, s, ms, i, m);
    }
  }

  lemma AcceptedAfter(group: Group, frame: Frame, s: State, ms: seq<Message>, i: nat, j: nat)
    requires Independent(group, frame, s, ms) && i < |ms| && j < |ms| && ms[i] != ms[j]
    ensures Combine(s.psbt, ms[i].psbt).Some? && Combine(Merged(s, ms[i]).psbt, ms[j].psbt).Some?
    ensures Receive(group, Receive(group, s, ms[i]).state, ms[j]).state == Merged(Merged(s, ms[i]), ms[j])
  {
    var a, b := ms[i], ms[j];
    assert a in ms && b in ms;
    IndependentAccepted(group, frame, s, a);
    StillContributes(group, frame, s, ms, i, b);
    IndependentAccepted(group, frame, Merged(s, a), b);
  }

  lemma MergedCommutes(frame: Frame, s: State, a: Message, b: Message)
    requires Framed(frame, s.psbt) && Framed(frame, a.psbt) && Framed(frame, b.psbt) && Agree(a.psbt, b.psbt)
    requires Combine(s.psbt, a.psbt).Some? && Combine(Merged(s, a).psbt, b.psbt).Some?
    requires Combine(s.psbt, b.psbt).Some? && Combine(Merged(s, b).psbt, a.psbt).Some?
    ensures Merged(Merged(s, a), b) == Merged(Merged(s, b), a)
  {
    CombineCommutes(frame, s.psbt, a.psbt, b.psbt);
    assert s.signed + {a.id} + {b.id} == s.signed + {b.id} + {a.id};
  }

  /** Two independent replies may come in either order. */
  lemma RepliesSwap(group: Group, frame: Frame, s: State, ms: seq<Message>, i: nat)
    requires Independent(group, frame, s, ms) && 0 < i < |ms|
    ensures Receive(group, Receive(group, s, ms[0]).state, ms[i]).state ==
            Receive(group, Receive(group, s, ms[i]).state, ms[0]).state
  {
    var a, b := ms[0], ms[i];
    assert a in ms && b in ms && a != b && Agree(a.psbt, b.psbt);
    AcceptedAfter(group, frame, s, ms, 0, i);
    AcceptedAfter(group, frame, s, ms, i, 0);
    MergedCommutes(frame, s, a, b);
  }

  /** Independence does not depend on the order. */
  lemma IndependentPermutes(group: Group, frame: Frame, s: State, ms: seq<Message>, ns: seq<Message>)
    requires Independent(group, frame, s, ms) && multiset(ms) == multiset(ns)
    ensures Independent(group, frame, s, ns)
  {
    NoDupPermutation(ms, ns);
    forall m ensures m in ns <==> m in ms {
      assert m in ns <==> m in multiset(ns);
      assert m in ms <==> m in multiset(ms);
    }
    forall m | m in ns ensures Framed(frame, m.psbt) && Contributes(group, frame, s, ns, m) {
      var i: nat, k :| Brings(group, frame, s, m, i, k) && OnlyBy(ms, m, i, k);
      assert OnlyBy(ns, m, i, k);
    }
  }

  /** Two replies to the same request: they carry its signatures, and share no others. */
  ghost predicate ShareOnlyRequest(request: Psbt, a: Psbt, b: Psbt) {
    forall i :: 0 <= i < |request.inputs| && i < |a.inputs| && i < |b.inputs| ==>
      a.inputs[i].partialSigs.Keys * b.inputs[i].partialSigs.Keys <= request.inputs[i].partialSigs.Keys
  }

  /**
   Answers to the requests the coordinator hands out are independent: each carries back what the
   session had signed, agreeing with it, and a new signature of its sender, and no two share a new one.
   */
  lemma AnswersAreIndependent(group: Group, frame: Frame, s: State, ms: seq<Message>)
    requires Framed(frame, s.psbt) && NoDup(ms)
    requires forall m :: m in ms ==> OwnReply(group, frame, s, m) && Agree(s.psbt, m.psbt)
    requires forall a, b {:trigger a in ms, b in ms} :: a in ms && b in ms && a != b ==>
               ShareOnlyRequest(s.psbt, a.psbt, b.psbt)
    ensures Independent(group, frame, s, ms)
  {
    forall m | m in ms ensures Framed(frame, m.psbt) && Contributes(group, frame, s, ms, m) {
      var i: nat, k :| Brings(group, frame, s, m, i, k);
      forall x | x in ms && x != m && i < |x.psbt.inputs| ensures k !in x.psbt.inputs[i].partialSigs {
        assert ShareOnlyRequest(s.psbt, m.psbt, x.psbt);
        var shared := m.psbt.inputs[i].partialSigs.Keys * x.psbt.inputs[i].partialSigs.Keys;
        assert k !in shared;
      }
      assert OnlyBy(ms, m, i, k);
    }
    forall a, b | a in ms && b in ms && a != b ensures Agree(a.psbt, b.psbt) {
      AnswersAgree(frame, s.psbt, a.psbt, b.psbt);
    }
  }

  lemma AnswersAgree(frame: Frame, s: Psbt, a: Psbt, b: Psbt)
    requires Framed(frame, s) && Framed(frame, a) && Framed(frame, b)
    requires Agree(s, a) && Agree(s, b) && ShareOnlyRequest(s, a, b)
    ensures Agree(a, b)
  {
    forall i | 0 <= i < |a.inputs| && i < |b.inputs| ensures AgreeInputs(a.inputs[i], b.inputs[i]) {
      assert AgreeInputs(s.inputs[i], a.inputs[i]) && AgreeInputs(s.inputs[i], b.inputs[i]);
      forall k | k in a.inputs[i].partialSigs && k in b.inputs[i].partialSigs ensures k in s.inputs[i].partialSigs {
        assert k in a.inputs[i].partialSigs.Keys * b.inputs[i].partialSigs.Keys;
      }
    }
  }

  /** The order of independent replies does not matter. */
  lemma RepliesCommute(group: Group, frame: Frame, s: State, ms: seq<Message>, ns: seq<Message>)
    requires Independent(group, frame, s, ms) && multiset(ms) == multiset(ns)
    ensures Replies(group, s, ms) == Replies(group, s, ns)
  {
    IndependentPermutes(group, frame, s, ms, ns);
    ghost var good := (s: State, ms: seq<Message>) => Independent(group, frame, s, ms);
    forall s, ms: seq<Message>, i: nat | i < |ms| && good(s, ms) ensures good(Take(group)(s, ms[i]), Without(ms, i)) {
      StaysIndependent(group, frame, s, ms, i);
    }
    forall s, ms: seq<Message>, i: nat | 0 < i < |ms| && good(s, ms)
      ensures Take(group)(Take(group)(s, ms[0]), ms[i]) == Take(group)(Take(group)(s, ms[i]), ms[0])
    {
      RepliesSwap(group, frame, s, ms, i);
    }
    FoldCommutes(Take(group), good, s, ms, ns);
  }

  // ----- Rejected replies -----

  /** The replies that are accepted when their turn comes. */
  function Accepted(group: Group, s: State, ms: seq<Message>): seq<Message>
    decreases |ms|
  {
    if ms == [] then []
    else
      var r := Receive(group, s, ms[0]);
      if r.error.None? then [ms[0]] + Accepted(group, r.state, ms[1..]) else Accepted(group, s, ms[1..])
  }

  /** A rejected reply leaves no trace. */
  lemma {:induction false} RejectedLeavesNoTrace(group: Group, s: State, ms: seq<Message>)
    ensures Replies(group, s, ms) == Replies(group, s, Accepted(group, s, ms))
    decreases |ms|
  {
    if ms != [] {
      var r := Receive(group, s, ms[0]);
      RejectedLeavesNoTrace(group, r.state, ms[1..]);
      if r.error.None? {
        assert ([ms[0]] + Accepted(group, r.state, ms[1..]))[1..] == Accepted(group, r.state, ms[1..]);
      }
    }
  }

  // ----- Replies that cannot be accepted -----

  /** By the maps of the session and of the reply, `k` is a key of `fp`. */
  predicate MayBeOf(origin: Key -> KeySource, reply: Input, k: Key, fp: Fingerprint) {
    origin(k).fingerprint == fp || (k in reply.derivation && reply.derivation[k].fingerprint == fp)
  }

  /**
   Nothing makes the session accept the message: nobody known sent it, it is about another
   transaction, it contradicts the source of an extended key, or it brings no signature of its
   sender beyond those the session has.
   */
  ghost predicate Hopeless(group: Group, frame: Frame, s: State, m: Message) {
    || Find(group.members, m.id).None?
    || m.psbt.unsignedTx != frame.unsignedTx
    || !SameSources(s.psbt.xpubs, m.psbt.xpubs)
    || BringsNothing(frame.origin, s.psbt.inputs, m.psbt.inputs, Find(group.members, m.id).value.fingerprint)
  }

  ghost predicate BringsNothing(origin: Key -> KeySource, session: seq<Input>, reply: seq<Input>, fp: Fingerprint) {
    forall i, k :: 0 <= i < |session| && i < |reply| && k in reply[i].partialSigs ==>
      MayBeOf(origin, reply[i], k, fp) ==> k in session[i].partialSigs
  }

  lemma HopelessRejected(group: Group, frame: Frame, s: State, m: Message)
    requires Framed(frame, s.psbt) && Hopeless(group, frame, s, m)
    ensures Receive(group, s, m).error.Some? && Receive(group, s, m).state == s
  {
    var member, merged := Find(group.members, m.id), Combine(s.psbt, m.psbt);
    if member.Some? && merged.Some? {
      var fp := member.value.fingerprint;
      forall i | 0 <= i < |s.psbt.inputs| ensures NewKeys(s.psbt.inputs[i], merged.value.inputs[i], fp) == {} {
        NothingNew(frame.origin, s.psbt.inputs, m.psbt.inputs, fp, i);
      }
    }
  }

  lemma NothingNew(origin: Key -> KeySource, session: seq<Input>, reply: seq<Input>, fp: Fingerprint, i: nat)
    requires BringsNothing(origin, session, reply, fp) && i < |session| && TruthfulInput(origin, session[i])
    ensures NewKeys(session[i], session[i], fp) == {}
    ensures i < |reply| ==> NewKeys(session[i], CombineInput(session[i], reply[i]), fp) == {}
  {
    if i < |reply| {
      var merged := CombineInput(session[i], reply[i]);
      forall k | k in merged.partialSigs && SignedBy(merged, k, fp) ensures k in session[i].partialSigs {
        assert k in reply[i].partialSigs ==> MayBeOf(origin, reply[i], k, fp);
      }
    }
  }

  lemma HopelessStays(group: Group, frame: Frame, s: State, m: Message, other: Message)
    requires Framed(frame, s.psbt) && Framed(frame, other.psbt) && Hopeless(group, frame, s, m)
    ensures Combine(s.psbt, other.psbt).Some? && Hopeless(group, frame, Merged(s, other), m)
  {
    FramedCombines(frame, s.psbt, other.psbt);
    var merged := Combine(s.psbt, other.psbt).value;
    if !SameSources(s.psbt.xpubs, m.psbt.xpubs) {
      var k :| k in s.psbt.xpubs && k in m.psbt.xpubs && s.psbt.xpubs[k] != m.psbt.xpubs[k];
      assert merged.xpubs[k] == s.psbt.xpubs[k];
    }
  }

  /** Every message of `ms` is either one of the independent replies or hopeless. */
  ghost predicate Mixed(group: Group, frame: Frame, s: State, replies: set<Message>, ms: seq<Message>) {
    forall m :: m in ms ==> m in replies || Hopeless(group, frame, s, m)
  }

  function OneOf(replies: set<Message>): Message -> bool {
    (m: Message) => m in replies
  }

  /** Hopeless messages between independent replies leave no trace. */
  lemma {:induction false} MixedReplies(group: Group, frame: Frame, s: State, replies: set<Message>, ms: seq<Message>)
    requires Independent(group, frame, s, Filter(OneOf(replies), ms)) && Mixed(group, frame, s, replies, ms)
    ensures Replies(group, s, ms) == Replies(group, s, Filter(OneOf(replies), ms))
    decreases |ms|
  {
    if ms != [] {
      var m, rest, kept := ms[0], ms[1..], Filter(OneOf(replies), ms);
      if m in replies {
        assert kept[0] == m && Without(kept, 0) == Filter(OneOf(replies), rest);
        assert m in kept && Contributes(group, frame, s, kept, m);
        IndependentAccepted(group, frame, s, m);
        StaysIndependent(group, frame, s, kept, 0);
        forall x | x in rest && x !in replies ensures Hopeless(group, frame, Merged(s, m), x) {
          HopelessStays(group, frame, s, x, m);
        }
        MixedReplies(group, frame, Merged(s, m), replies, rest);
      } else {
        HopelessRejected(group, frame, s, m);
        MixedReplies(group, frame, s, replies, rest);
      }
    }
  }

  /**
   Confluence: sessions that are sent the same independent replies, in any order and mixed with any
   messages that cannot be accepted, end in the same state.
   */
  lemma Confluence(group: Group, frame: Frame, s: State, replies: set<Message>, ms: seq<Message>, ns: seq<Message>)
    requires Mixed(group, frame, s, replies, ms) && Mixed(group, frame, s, replies, ns)
    requires multiset(Filter(OneOf(replies), ms)) == multiset(Filter(OneOf(replies), ns))
    requires Independent(group, frame, s, Filter(OneOf(replies), ms))
    ensures Replies(group, s, ms) == Replies(group, s, ns)
  {
    var a, b := Filter(OneOf(replies), ms), Filter(OneOf(replies), ns);
    IndependentPermutes(group, frame, s, a, b);
    MixedReplies(group, frame, s, replies, ms);
    MixedReplies(group, frame, s, replies, ns);
    RepliesCommute(group, frame, s, a, b);
  }
}
