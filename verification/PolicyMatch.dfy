/** The comparison of two descriptors by threshold and key set, of src/verify.rs. */
module PolicyMatch {
  import opened Seqs

  /** Descriptors as far as the comparison looks; the checksum is not part of them. */
  datatype Descriptor =
    | WshSortedMulti(k: nat, keys: seq<string>)
    | WshMiniscript
    | Bare | Pkh | Wpkh | Sh | Tr

  datatype MultisigPolicy = MultisigPolicy(threshold: nat, keys: set<string>)

  datatype Reason = ThresholdDiffers(want: nat, got: nat) | UnexpectedKeys(keys: set<string>)
    | MissingKeys(keys: set<string>)

  datatype Comparison = Match | UnsupportedShape | PolicyMismatch(reasons: seq<Reason>)

  function PolicyOf(d: Descriptor): Option<MultisigPolicy> {
    match d
    case WshSortedMulti(k, keys) => Some(MultisigPolicy(k, set key | key in keys))
    case _ => None
  }

  /** The reasons for a mismatch, from two policies. */
  function Reasons(want: MultisigPolicy, got: MultisigPolicy): seq<Reason> {
    (if want.threshold != got.threshold then [ThresholdDiffers(want.threshold, got.threshold)] else []) +
    (if got.keys - want.keys != {} then [UnexpectedKeys(got.keys - want.keys)] else []) +
    (if want.keys - got.keys != {} then [MissingKeys(want.keys - got.keys)] else [])
  }

  method EnsureDescriptorsMatch(expected: Descriptor, candidate: Descriptor) returns (c: Comparison)
    ensures c.UnsupportedShape? <==> !expected.WshSortedMulti? || !candidate.WshSortedMulti?
    ensures c.Match? <==> PolicyOf(expected).Some? && PolicyOf(expected) == PolicyOf(candidate)
    ensures c.PolicyMismatch? ==>
              c.reasons == Reasons(PolicyOf(expected).value, PolicyOf(candidate).value) && c.reasons != []
  {
    var want, got := PolicyOf(expected), PolicyOf(candidate);
    if want.None? || got.None? {
      return UnsupportedShape;
    }
    if want == got {
      return Match;
    }
    var reasons := [];
    if want.value.threshold != got.value.threshold {
      reasons := reasons + [ThresholdDiffers(want.value.threshold, got.value.threshold)];
    }
    var extra := got.value.keys - want.value.keys;
    var missing := want.value.keys - got.value.keys;
    if extra != {} {
      reasons := reasons + [UnexpectedKeys(extra)];
    }
    if missing != {} {
      reasons := reasons + [MissingKeys(missing)];
    }
    if extra == {} && missing == {} {
      SetsEqual(want.value.keys, got.value.keys);
    }
    c := PolicyMismatch(reasons);
  }

  lemma SetsEqual(a: set<string>, b: set<string>)
    requires a - b == {} && b - a == {}
    ensures a == b
  {
    forall x ensures x in a <==> x in b {
      assert x !in a - b && x !in b - a;
    }
  }

  function Rank(r: Reason): nat {
    match r case ThresholdDiffers(_, _) => 0 case UnexpectedKeys(_) => 1 case MissingKeys(_) => 2
  }

  /** The two thresholds, the keys only the candidate has and the keys it lacks, each when it differs, in this order. */
  lemma ReasonsName(expected: Descriptor, candidate: Descriptor, want: nat, got: nat, keys: set<string>)
    requires expected.WshSortedMulti? && candidate.WshSortedMulti?
    ensures var reasons := Reasons(PolicyOf(expected).value, PolicyOf(candidate).value);
            && (ThresholdDiffers(want, got) in reasons <==> want == expected.k && got == candidate.k && want != got)
            && (UnexpectedKeys(keys) in reasons <==>
                 keys != {} && forall key :: key in keys <==> key in candidate.keys && key !in expected.keys)
            && (MissingKeys(keys) in reasons <==>
                 keys != {} && forall key :: key in keys <==> key in expected.keys && key !in candidate.keys)
            && forall i, j :: 0 <= i < j < |reasons| ==> Rank(reasons[i]) < Rank(reasons[j])
  {
    var a, b := PolicyOf(expected).value, PolicyOf(candidate).value;
    assert (forall key :: key in keys <==> key in candidate.keys && key !in expected.keys) <==>
      keys == b.keys - a.keys;
    assert (forall key :: key in keys <==> key in expected.keys && key !in candidate.keys) <==>
      keys == a.keys - b.keys;
    var third := if a.keys - b.keys != {} then [MissingKeys(a.keys - b.keys)] else [];
    var second := if b.keys - a.keys != {} then [UnexpectedKeys(b.keys - a.keys)] else [];
    var first := if a.threshold != b.threshold then [ThresholdDiffers(a.threshold, b.threshold)] else [];
    assert Reasons(a, b) == first + second + third;
  }

  // ----- What a match means -----

  /** The same coins are locked: `sortedmulti` ignores the order of its keys, but not how often each occurs. */
  ghost predicate SameLock(a: Descriptor, b: Descriptor)
    requires a.WshSortedMulti? && b.WshSortedMulti?
  {
    a.k == b.k && multiset(a.keys) == multiset(b.keys)
  }

  /**
   Against a trusted descriptor without repeated keys, a match locks the same coins exactly when
   the candidate repeats no key either; and the same lock always matches.
   */
  lemma MatchMeansSameLock(expected: Descriptor, candidate: Descriptor)
    requires expected.WshSortedMulti? && candidate.WshSortedMulti? && NoDup(expected.keys)
    ensures SameLock(expected, candidate) <==> PolicyOf(expected) == PolicyOf(candidate) && NoDup(candidate.keys)
  {
    NoDupCounts(expected.keys);
    NoDupCounts(candidate.keys);
    assert forall key :: key in candidate.keys <==> key in multiset(candidate.keys);
    assert forall key :: key in expected.keys <==> key in multiset(expected.keys);
    if SameLock(expected, candidate) {
      assert PolicyOf(expected).value.keys == PolicyOf(candidate).value.keys;
    }
    if PolicyOf(expected) == PolicyOf(candidate) && NoDup(candidate.keys) {
      forall key ensures multiset(candidate.keys)[key] == multiset(expected.keys)[key] {
        assert key in PolicyOf(expected).value.keys <==> key in PolicyOf(candidate).value.keys;
      }
    }
  }

  /** With a repeated key two different locks match. */
  lemma RepeatedKeyMatches()
    ensures var expected, candidate := WshSortedMulti(2, ["a", "b"]), WshSortedMulti(2, ["a", "a", "b"]);
            PolicyOf(expected) == PolicyOf(candidate) && !SameLock(expected, candidate)
  {
    var expected, candidate := WshSortedMulti(2, ["a", "b"]), WshSortedMulti(2, ["a", "a", "b"]);
    assert PolicyOf(expected).value.keys == {"a", "b"} == PolicyOf(candidate).value.keys by {
      assert expected.keys[0] == "a" && expected.keys[1] == "b" && candidate.keys[0] == "a" && candidate.keys[2] == "b";
    }
    assert multiset(["a", "b"])["a"] == 1 && multiset(["a", "a", "b"])["a"] == 2;
  }
}
