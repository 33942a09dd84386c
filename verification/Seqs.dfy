/** Option, and the few folds over sequences that the other modules share. */
module Seqs {

  datatype Option<+T> = None | Some(value: T)

  /** Sum of `f` over the elements of `xs`. */
  function Sum<T>(f: T -> nat, xs: seq<T>): nat {
    if xs == [] then 0 else f(xs[0]) + Sum(f, xs[1..])
  }

  function Map<T, U>(f: T -> U, xs: seq<T>): (ys: seq<U>)
    ensures |ys| == |xs|
    ensures forall i :: 0 <= i < |xs| ==> ys[i] == f(xs[i])
  {
    if xs == [] then [] else [f(xs[0])] + Map(f, xs[1..])
  }

  function Filter<T>(p: T -> bool, xs: seq<T>): seq<T> {
    if xs == [] then []
    else if p(xs[0]) then [xs[0]] + Filter(p, xs[1..])
    else Filter(p, xs[1..])
  }

  function Flatten<T>(xss: seq<seq<T>>): seq<T> {
    if xss == [] then [] else xss[0] + Flatten(xss[1..])
  }

  function Negate<T>(p: T -> bool): T -> bool {
    x => !p(x)
  }

  ghost predicate NoDup<T>(xs: seq<T>) {
    forall i, j :: 0 <= i < j < |xs| ==> xs[i] != xs[j]
  }

  lemma ConcatAssociative<T>(xs: seq<T>, ys: seq<T>, zs: seq<T>)
    ensures xs + ys + zs == xs + (ys + zs)
  {
  }

  lemma {:induction false} SumConcat<T>(f: T -> nat, xs: seq<T>, ys: seq<T>)
    ensures Sum(f, xs + ys) == Sum(f, xs) + Sum(f, ys)
  {
    if xs == [] {
      assert xs + ys == ys;
    } else {
      SumConcat(f, xs[1..], ys);
      assert (xs + ys)[1..] == xs[1..] + ys;
    }
  }

  lemma SumSingle<T>(f: T -> nat, x: T)
    ensures Sum(f, [x]) == f(x)
  {
    assert [x][1..] == [];
  }

  lemma FlattenSingle<T>(xs: seq<T>)
    ensures Flatten([xs]) == xs
  {
    assert [xs][1..] == [];
  }

  lemma {:induction false} MapConcat<T, U>(f: T -> U, xs: seq<T>, ys: seq<T>)
    ensures Map(f, xs + ys) == Map(f, xs) + Map(f, ys)
  {
  }

  lemma MapNext<T, U>(f: T -> U, xs: seq<T>, i: nat)
    requires i < |xs|
    ensures Map(f, xs[..i + 1]) == Map(f, xs[..i]) + [f(xs[i])]
  {
  }

  lemma {:induction false} FlattenConcat<T>(xss: seq<seq<T>>, yss: seq<seq<T>>)
    ensures Flatten(xss + yss) == Flatten(xss) + Flatten(yss)
  {
    if xss == [] {
      assert xss + yss == yss;
    } else {
      FlattenConcat(xss[1..], yss);
      assert (xss + yss)[1..] == xss[1..] + yss;
      ConcatAssociative(xss[0], Flatten(xss[1..]), Flatten(yss));
    }
  }

  /** A sum does not depend on the order of the elements. */
  lemma {:induction false} SumPermutation<T>(f: T -> nat, xs: seq<T>, ys: seq<T>)
    requires multiset(xs) == multiset(ys)
    ensures Sum(f, xs) == Sum(f, ys)
  {
    if xs == [] {
      assert |multiset(ys)| == 0;
    } else {
      var i := MoveToFront(xs, ys);
      assert ys == ys[..i] + ([ys[i]] + ys[i + 1..]);
      SumPermutation(f, xs[1..], ys[..i] + ys[i + 1..]);
      SumConcat(f, ys[..i], ys[i + 1..]);
      SumConcat(f, ys[..i], [ys[i]] + ys[i + 1..]);
      assert ([ys[i]] + ys[i + 1..])[1..] == ys[i + 1..];
    }
  }

  /** Where the head of `xs` stands in a permutation of `xs`. */
  lemma MoveToFront<T>(xs: seq<T>, ys: seq<T>) returns (i: nat)
    requires xs != [] && multiset(xs) == multiset(ys)
    ensures i < |ys| && ys[i] == xs[0]
    ensures multiset(xs[1..]) == multiset(ys[..i] + ys[i + 1..])
  {
    assert xs == [xs[0]] + xs[1..];
    assert xs[0] in multiset(ys);
    i :| 0 <= i < |ys| && ys[i] == xs[0];
    assert ys == ys[..i] + [ys[i]] + ys[i + 1..];
    assert multiset(ys) == multiset(ys[..i] + ys[i + 1..]) + multiset{xs[0]};
    assert multiset(xs) == multiset(xs[1..]) + multiset{xs[0]};
    assert multiset(xs[1..]) == multiset(xs) - multiset{xs[0]};
  }

  lemma {:induction false} FilterMembers<T(!new)>(p: T -> bool, xs: seq<T>)
    ensures forall x :: x in Filter(p, xs) <==> x in xs && p(x)
  {
    if xs != [] {
      FilterMembers(p, xs[1..]);
      assert xs == [xs[0]] + xs[1..];
    }
  }

  lemma FilterPrepend<T>(p: T -> bool, x: T, xs: seq<T>)
    ensures Filter(p, [x] + xs) == if p(x) then [x] + Filter(p, xs) else Filter(p, xs)
  {
    assert ([x] + xs)[1..] == xs;
  }

  lemma {:induction false} FilterConcat<T>(p: T -> bool, xs: seq<T>, ys: seq<T>)
    ensures Filter(p, xs + ys) == Filter(p, xs) + Filter(p, ys)
  {
    if xs == [] {
      assert xs + ys == ys;
    } else {
      FilterConcat(p, xs[1..], ys);
      assert xs + ys == [xs[0]] + (xs[1..] + ys);
      FilterPrepend(p, xs[0], xs[1..] + ys);
      ConcatAssociative([xs[0]], Filter(p, xs[1..]), Filter(p, ys));
    }
  }

  /** Permuting the input of a filter permutes its output. */
  lemma {:induction false} FilterPermutation<T>(p: T -> bool, xs: seq<T>, ys: seq<T>)
    requires multiset(xs) == multiset(ys)
    ensures multiset(Filter(p, xs)) == multiset(Filter(p, ys))
  {
    if xs == [] {
      assert |multiset(ys)| == 0;
    } else {
      var i := MoveToFront(xs, ys);
      var rest := ys[..i] + ys[i + 1..];
      FilterPermutation(p, xs[1..], rest);
      assert ys == ys[..i] + ([ys[i]] + ys[i + 1..]);
      FilterConcat(p, ys[..i], ys[i + 1..]);
      FilterConcat(p, ys[..i], [ys[i]] + ys[i + 1..]);
      FilterPrepend(p, ys[i], ys[i + 1..]);
      FilterPrepend(p, xs[0], xs[1..]);
      assert xs == [xs[0]] + xs[1..];
    }
  }

  /** A filter and its complement split the elements between them. */
  lemma {:induction false} FilterSplits<T>(p: T -> bool, xs: seq<T>)
    ensures multiset(Filter(p, xs)) + multiset(Filter(Negate(p), xs)) == multiset(xs)
  {
    if xs != [] {
      FilterSplits(p, xs[1..]);
      assert xs == [xs[0]] + xs[1..];
      FilterPrepend(p, xs[0], xs[1..]);
      FilterPrepend(Negate(p), xs[0], xs[1..]);
    }
  }

  /** Two sets, one inside the other and no bigger, are equal. */
  lemma SubsetSize<T>(a: set<T>, b: set<T>)
    requires a <= b
    ensures |a| <= |b|
    ensures |a| == |b| ==> a == b
  {
    assert b == a + (b - a);
  }

  /** No element twice: each is counted once. */
  lemma {:induction false} NoDupCounts<T>(xs: seq<T>)
    ensures NoDup(xs) <==> forall x :: x in xs ==> multiset(xs)[x] == 1
  {
    if xs != [] {
      NoDupCounts(xs[1..]);
      assert xs == [xs[0]] + xs[1..];
      assert multiset(xs) == multiset{xs[0]} + multiset(xs[1..]);
      assert forall x :: x in xs <==> x == xs[0] || x in xs[1..];
      if NoDup(xs) {
        assert xs[0] !in xs[1..];
      }
      if forall x :: x in xs ==> multiset(xs)[x] == 1 {
        assert xs[0] in xs && multiset(xs)[xs[0]] == 1;
        assert xs[0] !in multiset(xs[1..]);
        assert forall x :: x in xs[1..] ==> x in xs && multiset(xs)[x] == multiset(xs[1..])[x];
      }
    }
  }

  lemma NoDupPermutation<T(!new)>(xs: seq<T>, ys: seq<T>)
    requires multiset(xs) == multiset(ys) && NoDup(xs)
    ensures NoDup(ys)
  {
    NoDupCounts(xs);
    NoDupCounts(ys);
    assert forall x :: x in ys ==> x in multiset(xs);
  }

  // ----- Steps that commute -----

  function Fold<S, M>(step: (S, M) -> S, s: S, ms: seq<M>): S
    decreases |ms|
  {
    if ms == [] then s else Fold(step, step(s, ms[0]), ms[1..])
  }

  function Without<M>(ms: seq<M>, i: nat): seq<M>
    requires i < |ms|
  {
    ms[..i] + ms[i + 1..]
  }

  /** While `good` holds, taking any step keeps it for the rest, and the first step may be swapped with any other. */
  ghost predicate Swappable<S(!new), M(!new)>(step: (S, M) -> S, good: (S, seq<M>) -> bool) {
    && (forall s, ms: seq<M>, i: nat {:trigger good(s, ms), ms[i]} :: i < |ms| && good(s, ms) ==>
       good(step(s, ms[i]), Without(ms, i)))
    && (forall s, ms: seq<M>, i: nat {:trigger good(s, ms), ms[i]} :: 0 < i < |ms| && good(s, ms) ==>
          step(step(s, ms[0]), ms[i]) == step(step(s, ms[i]), ms[0]))
  }

  lemma WithoutTail<M>(ms: seq<M>, i: nat)
    requires 0 < i < |ms|
    ensures Without(ms, 0) == ms[1..] && ms[1..][i - 1] == ms[i]
    ensures Without(ms, i) != [] && Without(ms, i)[0] == ms[0] && Without(ms, i)[1..] == Without(ms[1..], i - 1)
  {
  }

  lemma {:induction false} AnyFirst<S(!new), M(!new)>(
      step: (S, M) -> S, good: (S, seq<M>) -> bool, s: S, ms: seq<M>, i: nat)
    requires Swappable(step, good) && good(s, ms) && i < |ms|
    ensures Fold(step, s, ms) == Fold(step, step(s, ms[i]), Without(ms, i))
    decreases i
  {
    if i == 0 {
      assert Without(ms, 0) == ms[1..];
    } else {
      var head, x, rest := ms[0], ms[i], Without(ms[1..], i - 1);
      WithoutTail(ms, i);
      AnyFirst(step, good, step(s, head), ms[1..], i - 1);
      assert Fold(step, s, ms) == Fold(step, step(step(s, head), x), rest);
      assert Fold(step, step(s, x), Without(ms, i)) == Fold(step, step(step(s, x), head), rest);
    }
  }

  /** The order of the steps does not matter. */
  lemma {:induction false} FoldCommutes<S(!new), M(!new)>(
      step: (S, M) -> S, good: (S, seq<M>) -> bool, s: S, ms: seq<M>, ns: seq<M>)
    requires Swappable(step, good) && good(s, ms) && good(s, ns) && multiset(ms) == multiset(ns)
    ensures Fold(step, s, ms) == Fold(step, s, ns)
    decreases |ms|
  {
    if ms == [] {
      assert |multiset(ns)| == 0;
    } else {
      var i := MoveToFront(ms, ns);
      AnyFirst(step, good, s, ns, i);
      assert Without(ms, 0) == ms[1..];
      assert good(step(s, ms[0]), ms[1..]) && good(step(s, ns[i]), Without(ns, i));
      FoldCommutes(step, good, step(s, ms[0]), ms[1..], Without(ns, i));
    }
  }
}
