/** The output check of src/verify.rs: a greedy one-for-one matching that decides a multiset statement. */
module OutputVerifier {
  import opened Seqs

  type Script = seq<bv8>

  /** A script and an amount: an output of a transaction, or one the proposal approved. */
  datatype Output = Output(script: Script, amount: nat)

  datatype Verdict =
    | Accepted
    | AmountChanged(script: Script, approved: nat, found: nat)
    | Unexpected(output: Output)
    | Missing(output: Output)

  // ----- The verdict, as a function -----

  /** `xs` without the first occurrence of `x`. */
  function RemoveFirst<T(==)>(xs: seq<T>, x: T): seq<T> {
    if xs == [] then [] else if xs[0] == x then xs[1..] else [xs[0]] + RemoveFirst(xs[1..], x)
  }

  function FirstPaying(outputs: seq<Output>, script: Script): Option<Output> {
    if outputs == [] then None
    else if outputs[0].script == script then Some(outputs[0])
    else FirstPaying(outputs[1..], script)
  }

  /** The first of `left` that pays `script`; the first of all when it is None. */
  function FirstLeft(left: seq<Output>, script: Option<Script>): Option<Output> {
    if script.Some? then FirstPaying(left, script.value) else if left == [] then None else Some(left[0])
  }

  /** `left` are the approved outputs not yet claimed. */
  function Check(outputs: seq<Output>, left: seq<Output>, owned: Script -> bool): Verdict {
    if outputs == [] then
      if left == [] then Accepted else Missing(left[0])
    else
      var o := outputs[0];
      if o in left then Check(outputs[1..], RemoveFirst(left, o), owned)
      else if owned(o.script) then Check(outputs[1..], left, owned)
      else match FirstPaying(left, o.script)
        case Some(wanted) => AmountChanged(o.script, wanted.amount, o.amount)
        case None => Unexpected(o)
  }

  // ----- The loop -----

  /** The approved outputs whose mark is not set. */
  function Unmatched(approved: seq<Output>, matched: seq<bool>): (left: seq<Output>)
    requires |approved| == |matched|
  {
    if approved == [] then []
    else (if matched[0] then [] else [approved[0]]) + Unmatched(approved[1..], matched[1..])
  }

  predicate Claims(approved: seq<Output>, matched: seq<bool>, i: nat, o: Output)
    requires |approved| == |matched| && i < |approved|
  {
    !matched[i] && approved[i] == o
  }

  lemma PastHead(head: seq<Output>, rest: seq<Output>, o: Output)
    requires |head| <= 1 && o !in head
    ensures RemoveFirst(head + rest, o) == head + RemoveFirst(rest, o)
  {
    if head == [] {
      assert head + rest == rest;
    } else {
      assert (head + rest)[1..] == rest;
    }
  }

  /** Marking the first match takes the first occurrence out of what is left. */
  lemma {:induction false} MarkFirst(approved: seq<Output>, matched: seq<bool>, i: nat, o: Output)
    requires |approved| == |matched| && i < |approved| && Claims(approved, matched, i, o)
    requires forall j :: 0 <= j < i ==> !Claims(approved, matched, j, o)
    ensures o in Unmatched(approved, matched)
    ensures Unmatched(approved, matched[i := true]) == RemoveFirst(Unmatched(approved, matched), o)
  {
    if i == 0 {
      assert matched[0 := true][1..] == matched[1..];
    } else {
      assert !Claims(approved, matched, 0, o);
      forall j | 0 <= j < i - 1 ensures !Claims(approved[1..], matched[1..], j, o) {
        assert !Claims(approved, matched, j + 1, o);
      }
      MarkFirst(approved[1..], matched[1..], i - 1, o);
      assert matched[i := true][1..] == matched[1..][i - 1 := true];
      PastHead(if matched[0] then [] else [approved[0]], Unmatched(approved[1..], matched[1..]), o);
    }
  }

  lemma {:induction false} NoneClaims(approved: seq<Output>, matched: seq<bool>, o: Output)
    requires |approved| == |matched|
    requires forall j :: 0 <= j < |approved| ==> !Claims(approved, matched, j, o)
    ensures o !in Unmatched(approved, matched)
  {
    if approved != [] {
      assert !Claims(approved, matched, 0, o);
      forall j | 0 <= j < |approved[1..]| ensures !Claims(approved[1..], matched[1..], j, o) {
        assert !Claims(approved, matched, j + 1, o);
      }
      NoneClaims(approved[1..], matched[1..], o);
    }
  }

  method FindExact(approved: seq<Output>, matched: array<bool>, o: Output) returns (found: Option<nat>)
    requires matched.Length == |approved|
    ensures found.Some? ==> found.value < |approved| && o in Unmatched(approved, matched[..])
    ensures found.Some? ==>
              Unmatched(approved, matched[..][found.value := true]) == RemoveFirst(Unmatched(approved, matched[..]), o)
    ensures found.None? ==> o !in Unmatched(approved, matched[..])
  {
    for i := 0 to |approved|
      invariant forall j :: 0 <= j < i ==> !Claims(approved, matched[..], j, o)
    {
      if !matched[i] && approved[i] == o {
        MarkFirst(approved, matched[..], i, o);
        return Some(i);
      }
    }
    NoneClaims(approved, matched[..], o);
    found := None;
  }

  lemma {:induction false} UnmatchedFrom(approved: seq<Output>, matched: seq<bool>, i: nat)
    requires |approved| == |matched| && i < |approved|
    ensures Unmatched(approved[i..], matched[i..]) ==
            (if matched[i] then [] else [approved[i]]) + Unmatched(approved[i + 1..], matched[i + 1..])
    ensures matched[i] ==> Unmatched(approved[i..], matched[i..]) == Unmatched(approved[i + 1..], matched[i + 1..])
    ensures !matched[i] ==>
              Unmatched(approved[i..], matched[i..])[1..] == Unmatched(approved[i + 1..], matched[i + 1..])
  {
    assert approved[i..][1..] == approved[i + 1..] && matched[i..][1..] == matched[i + 1..];
  }

  /** The first unmatched approved output that pays `script`; to any script when it is None. */
  method FindUnmatched(approved: seq<Output>, matched: array<bool>, script: Option<Script>)
      returns (found: Option<Output>)
    requires matched.Length == |approved|
    ensures found == FirstLeft(Unmatched(approved, matched[..]), script)
  {
    ghost var left := Unmatched(approved, matched[..]);
    assert approved[0..] == approved && matched[..][0..] == matched[..];
    for i := 0 to |approved|
      invariant script.Some? ==>
                  FirstPaying(Unmatched(approved[i..], matched[..][i..]), script.value) ==
                  FirstPaying(left, script.value)
      invariant script.None? ==> Unmatched(approved[i..], matched[..][i..]) == left
    {
      UnmatchedFrom(approved, matched[..], i);
      if !matched[i] && (script.None? || approved[i].script == script.value) {
        return Some(approved[i]);
      }
    }
    found := None;
  }

  lemma {:induction false} NothingMatched(approved: seq<Output>, matched: seq<bool>)
    requires |approved| == |matched| && forall i :: 0 <= i < |matched| ==> !matched[i]
    ensures Unmatched(approved, matched) == approved
  {
    if approved != [] {
      NothingMatched(approved[1..], matched[1..]);
    }
  }

  method VerifyPsbtOutputs(outputs: seq<Output>, approved: seq<Output>, isOwnedChange: Script -> bool)
      returns (v: Verdict)
    ensures v == Check(outputs, approved, isOwnedChange)
  {
    var matched := new bool[|approved|](_ => false);
    NothingMatched(approved, matched[..]);
    assert outputs[0..] == outputs;
    for k := 0 to |outputs|
      invariant Check(outputs[k..], Unmatched(approved, matched[..]), isOwnedChange) ==
                Check(outputs, approved, isOwnedChange)
    {
      assert outputs[k..][1..] == outputs[k + 1..];
      var o := outputs[k];
      var exact := FindExact(approved, matched, o);
      if exact.Some? {
        ghost var marked := matched[..][exact.value := true];
        matched[exact.value] := true;
        assert matched[..] == marked;
        continue;
      }
      if isOwnedChange(o.script) {
        continue;
      }
      var paid := FindUnmatched(approved, matched, Some(o.script));
      if paid.Some? {
        return AmountChanged(o.script, paid.value.amount, o.amount);
      }
      return Unexpected(o);
    }
    var missing := FindUnmatched(approved, matched, None);
    v := if missing.Some? then Missing(missing.value) else Accepted;
  }

  // ----- What the verdict decides -----

  /** Every approved output is there, one for one, and everything else is owned. */
  ghost predicate Acceptable(outputs: multiset<Output>, approved: multiset<Output>, owned: Script -> bool) {
    approved <= outputs && AllOwned(outputs - approved, owned)
  }

  ghost predicate AllOwned(outputs: multiset<Output>, owned: Script -> bool) {
    forall o :: o in outputs ==> owned(o.script)
  }

  lemma {:induction false} RemoveFirstRemoves<T>(xs: seq<T>, x: T)
    requires x in xs
    ensures multiset(RemoveFirst(xs, x)) == multiset(xs) - multiset{x}
  {
    assert xs == [xs[0]] + xs[1..];
    if xs[0] != x {
      RemoveFirstRemoves(xs[1..], x);
    }
  }

  /** The step for one output: matched, owned or refused. */
  lemma AcceptableStep(o: Output, outputs: multiset<Output>, left: multiset<Output>, owned: Script -> bool)
    ensures o in left ==>
              (Acceptable(outputs + multiset{o}, left, owned) <==> Acceptable(outputs, left - multiset{o}, owned)) &&
              (AllOwned(outputs + multiset{o} - left, owned) <==> AllOwned(outputs - (left - multiset{o}), owned))
    ensures o !in left && owned(o.script) ==>
              (Acceptable(outputs + multiset{o}, left, owned) <==> Acceptable(outputs, left, owned)) &&
              (AllOwned(outputs + multiset{o} - left, owned) <==> AllOwned(outputs - left, owned))
    ensures o !in left && !owned(o.script) ==> !AllOwned(outputs + multiset{o} - left, owned)
  {
    if o in left {
      assert outputs + multiset{o} - left == outputs - (left - multiset{o});
    } else {
      assert o in outputs + multiset{o} - left;
      if left <= outputs + multiset{o} {
        assert left <= outputs;
      }
      assert forall x :: x in outputs + multiset{o} - left <==> x == o || x in outputs - left;
    }
  }

  lemma {:induction false} FirstPayingFinds(outputs: seq<Output>, script: Script)
    ensures FirstPaying(outputs, script).Some? <==> exists o :: o in outputs && o.script == script
    ensures FirstPaying(outputs, script).Some? ==>
              FirstPaying(outputs, script).value in outputs && FirstPaying(outputs, script).value.script == script
  {
    if outputs != [] {
      FirstPayingFinds(outputs[1..], script);
      assert forall o :: o in outputs <==> o == outputs[0] || o in outputs[1..];
    }
  }

  /** What a verdict claims about the outputs and the approved outputs. */
  ghost predicate Truthful(v: Verdict, outputs: multiset<Output>, approved: multiset<Output>, owned: Script -> bool) {
    match v
    case Accepted => Acceptable(outputs, approved, owned)
    case AmountChanged(script, wanted, found) =>
      !owned(script) && wanted != found && Output(script, wanted) in approved &&
        Output(script, found) in outputs - approved
    case Unexpected(o) => !owned(o.script) && o in outputs - approved
    case Missing(o) => outputs[o] < approved[o] && AllOwned(outputs - approved, owned)
  }

  lemma TruthfulStep(v: Verdict, o: Output, outputs: multiset<Output>, left: multiset<Output>, owned: Script -> bool)
    ensures o in left && Truthful(v, outputs, left - multiset{o}, owned) ==>
            Truthful(v, outputs + multiset{o}, left, owned)
    ensures o !in left && owned(o.script) && Truthful(v, outputs, left, owned) ==>
            Truthful(v, outputs + multiset{o}, left, owned)
  {
    AcceptableStep(o, outputs, left, owned);
  }

  /** Each refusal names an output that really is foreign, or really is missing. */
  lemma {:induction false} VerdictIsTruthful(outputs: seq<Output>, approved: seq<Output>, owned: Script -> bool)
    ensures Truthful(Check(outputs, approved, owned), multiset(outputs), multiset(approved), owned)
    decreases |outputs|
  {
    if outputs == [] {
      if approved != [] {
        assert approved[0] in multiset(approved);
      }
    } else {
      var o, rest, v := outputs[0], outputs[1..], Check(outputs, approved, owned);
      assert outputs == [o] + rest;
      assert multiset(outputs) == multiset(rest) + multiset{o};
      TruthfulStep(v, o, multiset(rest), multiset(approved), owned);
      if o in approved {
        RemoveFirstRemoves(approved, o);
        VerdictIsTruthful(rest, RemoveFirst(approved, o), owned);
      } else if owned(o.script) {
        VerdictIsTruthful(rest, approved, owned);
      } else {
        FirstPayingFinds(approved, o.script);
        assert multiset(approved)[o] == 0;
      }
    }
  }

  /**
   The greedy matching decides the declarative statement; a missing output is reported only when
   nothing is foreign.
   */
  lemma CheckDecides(outputs: seq<Output>, approved: seq<Output>, owned: Script -> bool)
    ensures Check(outputs, approved, owned).Accepted? <==> Acceptable(multiset(outputs), multiset(approved), owned)
    ensures Check(outputs, approved, owned).Accepted? || Check(outputs, approved, owned).Missing? <==>
            AllOwned(multiset(outputs) - multiset(approved), owned)
  {
    VerdictIsTruthful(outputs, approved, owned);
  }

  /** The order of neither list matters to the verdict. */
  lemma VerdictIgnoresOrder(outputs: seq<Output>, outputs': seq<Output>, approved: seq<Output>,
      approved': seq<Output>, owned: Script -> bool)
    requires multiset(outputs) == multiset(outputs') && multiset(approved) == multiset(approved')
    ensures Check(outputs, approved, owned).Accepted? <==> Check(outputs', approved', owned).Accepted?
  {
    CheckDecides(outputs, approved, owned);
    CheckDecides(outputs', approved', owned);
  }

  // ----- Which verdict -----

  /** `outputs[k]` is foreign and occurs more often up to there than it was approved. */
  ghost predicate Diverges(outputs: seq<Output>, approved: seq<Output>, owned: Script -> bool, k: nat)
    requires k < |outputs|
  {
    !owned(outputs[k].script) && multiset(outputs[..k + 1])[outputs[k]] > multiset(approved)[outputs[k]]
  }

  /** `approved[i]` pays `script`, if one is given, and occurs more often up to there than it was claimed. */
  ghost predicate Owed(approved: seq<Output>, claimed: multiset<Output>, script: Option<Script>, i: nat)
    requires i < |approved|
  {
    (script.None? || approved[i].script == script.value) && multiset(approved[..i + 1])[approved[i]] >
      claimed[approved[i]]
  }

  ghost predicate FirstOwed(approved: seq<Output>, claimed: multiset<Output>, script: Option<Script>, i: nat) {
    i < |approved| && Owed(approved, claimed, script, i) && forall h: nat :: h < i ==>
      !Owed(approved, claimed, script, h)
  }

  ghost predicate NoneOwed(approved: seq<Output>, claimed: multiset<Output>, script: Option<Script>) {
    forall i: nat :: i < |approved| ==> !Owed(approved, claimed, script, i)
  }

  /** `approved` without the first occurrences that `claimed` accounts for. */
  ghost function Remaining(approved: seq<Output>, claimed: multiset<Output>): seq<Output> {
    if approved == [] then []
    else if approved[0] in claimed then Remaining(approved[1..], claimed - multiset{approved[0]})
    else [approved[0]] + Remaining(approved[1..], claimed)
  }

  lemma {:induction false} RemainingHolds(approved: seq<Output>, claimed: multiset<Output>, o: Output)
    ensures o in Remaining(approved, claimed) <==> claimed[o] < multiset(approved)[o]
  {
    if approved != [] {
      var a, rest := approved[0], approved[1..];
      assert approved == [a] + rest;
      RemainingHolds(rest, if a in claimed then claimed - multiset{a} else claimed, o);
    }
  }

  lemma {:induction false} RemainingNext(approved: seq<Output>, claimed: multiset<Output>, o: Output)
    ensures Remaining(approved, claimed + multiset{o}) == RemoveFirst(Remaining(approved, claimed), o)
  {
    if approved != [] {
      var a, rest := approved[0], approved[1..];
      if a in claimed {
        RemainingNext(rest, claimed - multiset{a}, o);
        assert claimed + multiset{o} - multiset{a} == claimed - multiset{a} + multiset{o};
      } else if a == o {
        assert claimed + multiset{o} - multiset{a} == claimed;
        assert ([a] + Remaining(rest, claimed))[1..] == Remaining(rest, claimed);
      } else {
        RemainingNext(rest, claimed, o);
        assert ([a] + Remaining(rest, claimed))[1..] == Remaining(rest, claimed);
      }
    }
  }

  lemma {:induction false} RemoveAbsent<T>(xs: seq<T>, x: T)
    requires x !in xs
    ensures RemoveFirst(xs, x) == xs
  {
    if xs != [] {
      RemoveAbsent(xs[1..], x);
    }
  }

  /** While nothing diverges, what is left is what the outputs so far do not account for. */
  lemma {:induction false} CheckReaches(outputs: seq<Output>, approved: seq<Output>, owned: Script -> bool, k: nat)
    requires k <= |outputs| && forall h: nat :: h < k ==> !Diverges(outputs, approved, owned, h)
    ensures Check(outputs, approved, owned) ==
            Check(outputs[k..], Remaining(approved, multiset(outputs[..k])), owned)
  {
    if k == 0 {
      RemainingAll(approved);
      assert outputs[0..] == outputs;
    } else {
      var o, claimed := outputs[k - 1], multiset(outputs[..k - 1]);
      CheckReaches(outputs, approved, owned, k - 1);
      assert outputs[..k] == outputs[..k - 1] + [o];
      assert outputs[k - 1..][1..] == outputs[k..];
      RemainingHolds(approved, claimed, o);
      RemainingNext(approved, claimed, o);
      assert !Diverges(outputs, approved, owned, k - 1);
      if o !in Remaining(approved, claimed) {
        RemoveAbsent(Remaining(approved, claimed), o);
      }
    }
  }

  lemma {:induction false} RemainingAll(approved: seq<Output>)
    ensures Remaining(approved, multiset{}) == approved
  {
    if approved != [] {
      RemainingAll(approved[1..]);
    }
  }

  lemma OwedNext(approved: seq<Output>, claimed: multiset<Output>, script: Option<Script>, i: nat)
    requires approved != [] && i < |approved[1..]|
    ensures var a, rest := approved[0], approved[1..];
            Owed(approved, claimed, script, i + 1) <==>
            Owed(rest, if a in claimed then claimed - multiset{a} else claimed, script, i)
  {
    var a, rest := approved[0], approved[1..];
    assert approved[..i + 2] == [a] + rest[..i + 1];
    assert rest[i] in rest[..i + 1];
  }

  /** What one approved output makes of the first that remains. */
  lemma FirstOfRemaining(approved: seq<Output>, claimed: multiset<Output>, script: Option<Script>)
    requires approved != []
    ensures var a, rest := approved[0], approved[1..];
            var left := if a in claimed then claimed - multiset{a} else claimed;
            && (Owed(approved, claimed, script, 0) ==> FirstLeft(Remaining(approved, claimed), script) == Some(a))
            && (!Owed(approved, claimed, script, 0) ==>
                 FirstLeft(Remaining(approved, claimed), script) == FirstLeft(Remaining(rest, left), script))
  {
    var a, rest := approved[0], approved[1..];
    assert approved[..1] == [a];
    assert Owed(approved, claimed, script, 0) <==> a !in claimed && (script.None? || a.script == script.value);
    if a !in claimed {
      assert ([a] + Remaining(rest, claimed))[1..] == Remaining(rest, claimed);
    }
  }

  /** The first that is owed is the first that remains. */
  lemma {:induction false} FirstRemaining(approved: seq<Output>, claimed: multiset<Output>, script: Option<Script>,
      i: nat)
    requires FirstOwed(approved, claimed, script, i)
    ensures FirstLeft(Remaining(approved, claimed), script) == Some(approved[i])
  {
    var a, rest := approved[0], approved[1..];
    var left := if a in claimed then claimed - multiset{a} else claimed;
    FirstOfRemaining(approved, claimed, script);
    if i > 0 {
      assert !Owed(approved, claimed, script, 0);
      forall h: nat | h < i ensures Owed(approved, claimed, script, h + 1) <==> Owed(rest, left, script, h) {
        OwedNext(approved, claimed, script, h);
      }
      forall h: nat | h < i - 1 ensures !Owed(rest, left, script, h) {
        assert !Owed(approved, claimed, script, h + 1);
      }
      FirstRemaining(rest, left, script, i - 1);
    }
  }

  lemma {:induction false} NoneRemains(approved: seq<Output>, claimed: multiset<Output>, script: Option<Script>)
    requires NoneOwed(approved, claimed, script)
    ensures FirstLeft(Remaining(approved, claimed), script).None?
  {
    if approved != [] {
      var a, rest := approved[0], approved[1..];
      var left := if a in claimed then claimed - multiset{a} else claimed;
      FirstOfRemaining(approved, claimed, script);
      assert !Owed(approved, claimed, script, 0);
      forall h: nat | h < |rest| ensures !Owed(rest, left, script, h) {
        OwedNext(approved, claimed, script, h);
        assert !Owed(approved, claimed, script, h + 1);
      }
      NoneRemains(rest, left, script);
    }
  }

  lemma {:induction false} LeastOwed(approved: seq<Output>, claimed: multiset<Output>, script: Option<Script>, i: nat)
    returns (first: nat)
    requires i < |approved| && Owed(approved, claimed, script, i)
    ensures FirstOwed(approved, claimed, script, first)
  {
    if h: nat :| h < i && Owed(approved, claimed, script, h) {
      first := LeastOwed(approved, claimed, script, h);
    } else {
      first := i;
    }
  }

  /** The first that remains, by its place in the approved list. */
  lemma RemainingByPlace(approved: seq<Output>, claimed: multiset<Output>, script: Option<Script>)
    ensures var first := FirstLeft(Remaining(approved, claimed), script);
            && (first.None? <==> NoneOwed(approved, claimed, script))
            && forall i: nat :: FirstOwed(approved, claimed, script, i) ==> first == Some(approved[i])
  {
    forall i: nat | FirstOwed(approved, claimed, script, i)
      ensures FirstLeft(Remaining(approved, claimed), script) == Some(approved[i])
    {
      FirstRemaining(approved, claimed, script, i);
    }
    if NoneOwed(approved, claimed, script) {
      NoneRemains(approved, claimed, script);
    } else {
      var i: nat :| i < |approved| && Owed(approved, claimed, script, i);
      var first := LeastOwed(approved, claimed, script, i);
    }
  }

  /**
   The verdict, found without matching: the first output that diverges is refused, as a changed amount
   exactly when an approved output to its script is still owed, and the first of those is named;
   without one, the first approved output still owed is missing.
   */
  lemma VerdictLocated(outputs: seq<Output>, approved: seq<Output>, owned: Script -> bool, k: nat)
    requires k <= |outputs| && forall h: nat :: h < k ==> !Diverges(outputs, approved, owned, h)
    requires k < |outputs| ==> Diverges(outputs, approved, owned, k)
    ensures var v, claimed := Check(outputs, approved, owned), multiset(outputs[..k]);
            if k < |outputs| then
              var o := outputs[k];
              && (v == Unexpected(o) <==> NoneOwed(approved, claimed, Some(o.script)))
              && (forall i: nat :: FirstOwed(approved, claimed, Some(o.script), i) ==>
                   v == AmountChanged(o.script, approved[i].amount, o.amount))
            else
              && (v == Accepted <==> NoneOwed(approved, claimed, None))
              && (forall i: nat :: FirstOwed(approved, claimed, None, i) ==> v == Missing(approved[i]))
  {
    var claimed := multiset(outputs[..k]);
    var left := Remaining(approved, claimed);
    CheckReaches(outputs, approved, owned, k);
    if k < |outputs| {
      var o := outputs[k];
      assert outputs[..k + 1] == outputs[..k] + [o];
      RemainingHolds(approved, claimed, o);
      RemainingByPlace(approved, claimed, Some(o.script));
      assert FirstLeft(left, Some(o.script)) == FirstPaying(left, o.script);
    } else {
      RemainingByPlace(approved, claimed, None);
    }
  }

  // ----- Where the value goes -----

  function Foreign(owned: Script -> bool): Output -> bool {
    (o: Output) => !owned(o.script)
  }

  function Amount(o: Output): nat { o.amount }

  function ForeignValue(outputs: seq<Output>, owned: Script -> bool): nat {
    Sum(Amount, Filter(Foreign(owned), outputs))
  }

  /** Removing an approved output takes it out of the foreign ones if it is foreign, and of nothing else. */
  lemma {:induction false} RemoveFirstValue(left: seq<Output>, o: Output, owned: Script -> bool)
    requires o in left
    ensures ForeignValue(left, owned) ==
            ForeignValue(RemoveFirst(left, o), owned) + (if owned(o.script) then 0 else o.amount)
  {
    if left[0] != o {
      RemoveFirstValue(left[1..], o, owned);
      var rest := RemoveFirst(left[1..], o);
      assert ([left[0]] + rest)[1..] == rest;
      SumHead(left[0], Filter(Foreign(owned), left[1..]));
      SumHead(left[0], Filter(Foreign(owned), rest));
    } else {
      SumHead(o, Filter(Foreign(owned), left[1..]));
    }
  }

  lemma SumHead(o: Output, rest: seq<Output>)
    ensures Sum(Amount, [o] + rest) == o.amount + Sum(Amount, rest)
  {
    assert ([o] + rest)[1..] == rest;
  }

  /** In an accepted transaction exactly the approved value leaves the wallet. */
  lemma {:induction false} ForeignValueIsApproved(outputs: seq<Output>, approved: seq<Output>, owned: Script -> bool)
    requires Check(outputs, approved, owned).Accepted?
    ensures ForeignValue(outputs, owned) == ForeignValue(approved, owned) <= Sum(Amount, approved)
    decreases |outputs|
  {
    ForeignIsPart(approved, owned);
    if outputs != [] {
      var o, rest := outputs[0], outputs[1..];
      SumHead(o, Filter(Foreign(owned), rest));
      if o in approved {
        RemoveFirstValue(approved, o, owned);
        ForeignValueIsApproved(rest, RemoveFirst(approved, o), owned);
      } else {
        ForeignValueIsApproved(rest, approved, owned);
      }
    }
  }

  lemma {:induction false} ForeignIsPart(outputs: seq<Output>, owned: Script -> bool)
    ensures ForeignValue(outputs, owned) <= Sum(Amount, outputs)
  {
    if outputs != [] {
      ForeignIsPart(outputs[1..], owned);
      SumHead(outputs[0], Filter(Foreign(owned), outputs[1..]));
    }
  }
}
