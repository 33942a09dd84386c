/** Roster deltas of src/roster.rs: who stays, joins and leaves when a federation migrates. */
module Rosters {
  import opened Seqs

  type User = nat

  const U32_MAX: nat := 0xFFFF_FFFF

  datatype RosterAction = Keep | Add | Remove

  datatype RosterPlan = RosterPlan(nextMembers: seq<User>, changes: seq<(User, RosterAction)>)

  datatype RosterError =
    | RemoveNotMember(user: User)
    | AddAlreadyMember(user: User)
    | AddAndRemove(user: User)
    | EmptyResult
    | BadThreshold(m: nat, n: nat)

  datatype Result<T> = Ok(value: T) | Err(error: RosterError)

  // ----- What is planned -----

  function Users(xs: seq<User>): set<User> { set u | u in xs }

  /** Each user of `xs` that is not in `seen`, at its first occurrence. */
  function Fresh(xs: seq<User>, seen: set<User>): seq<User> {
    if xs == [] then []
    else if xs[0] in seen then Fresh(xs[1..], seen)
    else [xs[0]] + Fresh(xs[1..], seen + {xs[0]})
  }

  function Dedup(xs: seq<User>): seq<User> { Fresh(xs, {}) }

  function NotIn(users: set<User>): User -> bool {
    (u: User) => u !in users
  }

  function StaysOrGoes(remove: set<User>): User -> (User, RosterAction) {
    (u: User) => (u, if u in remove then Remove else Keep)
  }

  function Joins(): User -> (User, RosterAction) {
    (u: User) => (u, Add)
  }

  function PlanOf(current: seq<User>, add: seq<User>, remove: seq<User>): RosterPlan {
    RosterPlan(
      Filter(NotIn(Users(remove)), Dedup(current)) + Dedup(add),
      Map(StaysOrGoes(Users(remove)), Dedup(current)) + Map(Joins(), Dedup(add)))
  }

  /** Nobody is both added and removed, only members leave, only others join, and somebody is left. */
  predicate Acceptable(current: seq<User>, add: seq<User>, remove: seq<User>) {
    && Users(add) !! Users(remove)
    && Users(remove) <= Users(current)
    && Users(add) !! Users(current)
    && (Users(current) - Users(remove)) + Users(add) != {}
  }

  method ComputeRosterPlan(current: seq<User>, add: seq<User>, remove: seq<User>) returns (r: Result<RosterPlan>)
    ensures r.Ok? <==> Acceptable(current, add, remove)
    ensures r.Ok? ==> r.value == PlanOf(current, add, remove)
    ensures r.Err? ==> match r.error
              case AddAndRemove(u) => u in add && u in remove
              case RemoveNotMember(u) => Users(add) !! Users(remove) && u in remove && u !in current
              case AddAlreadyMember(u) => Users(add) !! Users(remove) && Users(remove) <= Users(current) &&
                u in add && u in current
              case EmptyResult => add == [] && Users(current) == Users(remove)
              case BadThreshold(_, _) => false
  {
    var refused := CheckDelta(Users(current), Users(add), Users(remove));
    if refused.Some? {
      return Err(refused.value);
    }
    var base := KeptAndRemoved(current, Users(remove));
    var plan := Added(add, base, Users(current));
    FreshElsewhere(add, {}, Users(current));
    assert {} + Users(current) == Users(current);
    PlanMembers(current, add, remove);
    if plan.nextMembers == [] {
      assert Users(plan.nextMembers) == {};
      return Err(EmptyResult);
    }
    assert plan.nextMembers[0] in Users(plan.nextMembers);
    r := Ok(plan);
  }

  lemma SetsMeet<T>(a: set<T>, b: set<T>)
    ensures a * b == {} <==> a !! b
    ensures a - b == {} <==> a <= b
  {
    forall u | u in a ensures u in a * b || u in a - b {
    }
    if a - b == {} {
      forall u | u in a ensures u in b {
        assert u !in a - b;
      }
    }
    if a * b == {} {
      forall u | u in a ensures u !in b {
        assert u !in a * b;
      }
    }
  }

  /** The three checks, in order; which of several offenders is named is left open. */
  method CheckDelta(current: set<User>, add: set<User>, remove: set<User>) returns (error: Option<RosterError>)
    ensures error.None? <==> add !! remove && remove <= current && add !! current
    ensures error.Some? ==> match error.value
              case AddAndRemove(u) => u in add && u in remove
              case RemoveNotMember(u) => add !! remove && u in remove && u !in current
              case AddAlreadyMember(u) => add !! remove && remove <= current && u in add && u in current
              case _ => false
  {
    SetsMeet(add, remove);
    SetsMeet(remove, current);
    SetsMeet(add, current);
    if add * remove != {} {
      var u :| u in add * remove;
      return Some(AddAndRemove(u));
    }
    if remove - current != {} {
      var u :| u in remove - current;
      return Some(RemoveNotMember(u));
    }
    if add * current != {} {
      var u :| u in add * current;
      return Some(AddAlreadyMember(u));
    }
    error := None;
  }

  /** What is left of both lists before and after one member of the base. */
  lemma KeptStep(current: seq<User>, i: nat, seen: set<User>, remove: set<User>)
    requires i < |current|
    ensures var u, p, f := current[i], NotIn(remove), StaysOrGoes(remove);
            var now, next := Fresh(current[i..], seen), Fresh(current[i + 1..], seen + {u});
            if u in seen then now == Fresh(current[i + 1..], seen)
            else
              && Filter(p, now) == (if u in remove then [] else [u]) + Filter(p, next)
              && Map(f, now) == [f(u)] + Map(f, next)
  {
    var u := current[i];
    FreshHead(current, i, seen);
    FilterPrepend(NotIn(remove), u, Fresh(current[i + 1..], seen + {u}));
    MapPrepend(StaysOrGoes(remove), u, Fresh(current[i + 1..], seen + {u}));
  }

  /** The first loop: members in base order, kept or leaving. */
  method KeptAndRemoved(current: seq<User>, remove: set<User>) returns (plan: RosterPlan)
    ensures plan == RosterPlan(Filter(NotIn(remove), Dedup(current)), Map(StaysOrGoes(remove), Dedup(current)))
  {
    var next, changes, seen := [], [], {};
    ghost var keptLeft, changesLeft := Filter(NotIn(remove), Dedup(current)), Map(StaysOrGoes(remove), Dedup(current));
    assert current[0..] == current;
    for i := 0 to |current|
      invariant keptLeft == Filter(NotIn(remove), Fresh(current[i..], seen))
      invariant changesLeft == Map(StaysOrGoes(remove), Fresh(current[i..], seen))
      invariant next + keptLeft == Filter(NotIn(remove), Dedup(current))
      invariant changes + changesLeft == Map(StaysOrGoes(remove), Dedup(current))
    {
      var u := current[i];
      KeptStep(current, i, seen, remove);
      if u in seen {
        continue;
      }
      seen := seen + {u};
      keptLeft := Filter(NotIn(remove), Fresh(current[i + 1..], seen));
      changesLeft := Map(StaysOrGoes(remove), Fresh(current[i + 1..], seen));
      ConcatAssociative(changes, [StaysOrGoes(remove)(u)], changesLeft);
      if u in remove {
        assert [] + keptLeft == keptLeft;
        changes := changes + [(u, Remove)];
      } else {
        ConcatAssociative(next, [u], keptLeft);
        next, changes := next + [u], changes + [(u, Keep)];
      }
    }
    plan := RosterPlan(next, changes);
  }

  lemma FreshHead(xs: seq<User>, i: nat, seen: set<User>)
    requires i < |xs|
    ensures Fresh(xs[i..], seen) == if xs[i] in seen then Fresh(xs[i + 1..], seen)
            else [xs[i]] + Fresh(xs[i + 1..], seen + {xs[i]})
  {
    assert xs[i..][1..] == xs[i + 1..];
  }

  lemma MapPrepend<T, U>(f: T -> U, x: T, xs: seq<T>)
    ensures Map(f, [x] + xs) == [f(x)] + Map(f, xs)
  {
  }

  /** The second loop: joiners in input order. */
  method Added(add: seq<User>, base: RosterPlan, current: set<User>) returns (plan: RosterPlan)
    ensures plan == RosterPlan(base.nextMembers + Fresh(add, current), base.changes + Map(Joins(), Fresh(add, current)))
  {
    var next, changes, seen := base.nextMembers, base.changes, current;
    ghost var left := Fresh(add, current);
    assert add[0..] == add;
    for i := 0 to |add|
      invariant left == Fresh(add[i..], seen)
      invariant next + left == base.nextMembers + Fresh(add, current)
      invariant changes + Map(Joins(), left) == base.changes + Map(Joins(), Fresh(add, current))
    {
      var u := add[i];
      FreshHead(add, i, seen);
      if u in seen {
        continue;
      }
      seen := seen + {u};
      left := Fresh(add[i + 1..], seen);
      MapPrepend(Joins(), u, left);
      ConcatAssociative(next, [u], left);
      ConcatAssociative(changes, [(u, Add)], Map(Joins(), left));
      next, changes := next + [u], changes + [(u, Add)];
    }
    plan := RosterPlan(next, changes);
  }

  /** Users that do not occur make no difference to what is fresh. */
  lemma {:induction false} FreshElsewhere(xs: seq<User>, seen: set<User>, others: set<User>)
    requires Users(xs) !! others
    ensures Fresh(xs, seen + others) == Fresh(xs, seen)
  {
    if xs != [] {
      assert xs[0] in Users(xs);
      assert Users(xs[1..]) <= Users(xs);
      FreshElsewhere(xs[1..], seen, others);
      FreshElsewhere(xs[1..], seen + {xs[0]}, others);
      assert seen + others + {xs[0]} == seen + {xs[0]} + others;
    }
  }

  // ----- Users once each, in order -----

  lemma {:induction false} FreshUsers(xs: seq<User>, seen: set<User>)
    ensures Users(Fresh(xs, seen)) == Users(xs) - seen
  {
    if xs != [] {
      var tail := if xs[0] in seen then Fresh(xs[1..], seen) else Fresh(xs[1..], seen + {xs[0]});
      FreshUsers(xs[1..], if xs[0] in seen then seen else seen + {xs[0]});
      assert Users(xs) == {xs[0]} + Users(xs[1..]);
      assert xs[0] !in seen ==> Users([xs[0]] + tail) == {xs[0]} + Users(tail);
    }
  }

  lemma {:induction false} FreshNoDup(xs: seq<User>, seen: set<User>)
    ensures NoDup(Fresh(xs, seen))
  {
    if xs != [] {
      if xs[0] in seen {
        FreshNoDup(xs[1..], seen);
      } else {
        var tail := Fresh(xs[1..], seen + {xs[0]});
        FreshNoDup(xs[1..], seen + {xs[0]});
        FreshUsers(xs[1..], seen + {xs[0]});
        forall j | 0 <= j < |tail| ensures tail[j] != xs[0] {
          assert tail[j] in Users(tail);
        }
      }
    }
  }

  function FirstIndex(xs: seq<User>, u: User): nat
    requires u in xs
  {
    if xs[0] == u then 0 else 1 + FirstIndex(xs[1..], u)
  }

  /** Fresh users come in the order of their first occurrences. */
  lemma {:induction false} FreshInOrder(xs: seq<User>, seen: set<User>, i: nat, j: nat)
    requires i < j < |Fresh(xs, seen)|
    ensures Fresh(xs, seen)[i] in xs && Fresh(xs, seen)[j] in xs
    ensures FirstIndex(xs, Fresh(xs, seen)[i]) < FirstIndex(xs, Fresh(xs, seen)[j])
  {
    var all := Fresh(xs, seen);
    FreshUsers(xs, seen);
    FreshNoDup(xs, seen);
    assert all[i] in Users(all) && all[j] in Users(all);
    if xs[0] in seen {
      assert all[i] != xs[0] && all[j] != xs[0];
      FreshInOrder(xs[1..], seen, i, j);
    } else {
      assert all[j] != all[0] == xs[0];
      if i > 0 {
        assert all[i] != xs[0];
        FreshInOrder(xs[1..], seen + {xs[0]}, i - 1, j - 1);
      }
    }
  }

  // ----- The plan -----

  lemma {:induction false} FilteredUsers(p: User -> bool, xs: seq<User>)
    ensures Users(Filter(p, xs)) == set u | u in Users(xs) && p(u)
  {
    if xs != [] {
      FilteredUsers(p, xs[1..]);
      assert Users(xs) == {xs[0]} + Users(xs[1..]);
      assert Users([xs[0]] + Filter(p, xs[1..])) == {xs[0]} + Users(Filter(p, xs[1..]));
    }
  }

  lemma {:induction false} FilteredNoDup(p: User -> bool, xs: seq<User>)
    requires NoDup(xs)
    ensures NoDup(Filter(p, xs))
  {
    if xs != [] {
      FilteredNoDup(p, xs[1..]);
      FilteredUsers(p, xs[1..]);
      var tail := Filter(p, xs[1..]);
      forall j | 0 <= j < |tail| ensures tail[j] != xs[0] {
        assert tail[j] in Users(tail);
        assert tail[j] in xs[1..];
      }
    }
  }

  lemma PlanMembers(current: seq<User>, add: seq<User>, remove: seq<User>)
    ensures Users(PlanOf(current, add, remove).nextMembers) == (Users(current) - Users(remove)) + Users(add)
  {
    var kept := Filter(NotIn(Users(remove)), Dedup(current));
    FreshUsers(current, {});
    FreshUsers(add, {});
    FilteredUsers(NotIn(Users(remove)), Dedup(current));
    assert Users(kept + Dedup(add)) == Users(kept) + Users(Dedup(add));
    assert Users(kept) == Users(current) - Users(remove);
  }

  /** The next roster: the members who stay and those who join, each once. */
  lemma PlanIsExact(current: seq<User>, add: seq<User>, remove: seq<User>)
    requires Acceptable(current, add, remove)
    ensures var next := PlanOf(current, add, remove).nextMembers;
            next != [] && NoDup(next) && Users(next) == (Users(current) - Users(remove)) + Users(add)
  {
    var kept, joined := Filter(NotIn(Users(remove)), Dedup(current)), Dedup(add);
    PlanMembers(current, add, remove);
    FreshNoDup(current, {});
    FreshNoDup(add, {});
    FilteredNoDup(NotIn(Users(remove)), Dedup(current));
    FilteredUsers(NotIn(Users(remove)), Dedup(current));
    FreshUsers(current, {});
    FreshUsers(add, {});
    forall i, j | 0 <= i < |kept| && 0 <= j < |joined| ensures kept[i] != joined[j] {
      assert kept[i] in Users(kept) && joined[j] in Users(joined);
    }
    assert kept + joined == [] ==> Users(kept + joined) == {};
  }

  /** `a` comes before `b` in the order of first occurrences. */
  ghost predicate Earlier(xs: seq<User>, a: User, b: User) {
    a in xs && b in xs && FirstIndex(xs, a) < FirstIndex(xs, b)
  }

  ghost predicate InOrderOf(base: seq<User>, xs: seq<User>) {
    forall i, j :: 0 <= i < j < |xs| ==> Earlier(base, xs[i], xs[j])
  }

  lemma {:induction false} FilterKeepsOrder(p: User -> bool, base: seq<User>, xs: seq<User>)
    requires InOrderOf(base, xs)
    ensures InOrderOf(base, Filter(p, xs))
  {
    if xs != [] {
      FilterKeepsOrder(p, base, xs[1..]);
      var tail := Filter(p, xs[1..]);
      FilteredUsers(p, xs[1..]);
      forall j | 0 <= j < |tail| ensures Earlier(base, xs[0], tail[j]) {
        assert tail[j] in Users(tail) && tail[j] in Users(xs[1..]);
        var k :| 0 <= k < |xs[1..]| && xs[1..][k] == tail[j];
        assert Earlier(base, xs[0], xs[k + 1]);
      }
    }
  }

  /** The next roster lists those who stay in base order, then those who join in input order. */
  lemma PlanInOrder(current: seq<User>, add: seq<User>, remove: seq<User>, i: nat, j: nat)
    requires Acceptable(current, add, remove) && i < j < |PlanOf(current, add, remove).nextMembers|
    ensures var next := PlanOf(current, add, remove).nextMembers;
            || Earlier(current, next[i], next[j])
            || (next[i] in current && next[j] in add)
            || Earlier(add, next[i], next[j])
  {
    var kept, joined := Filter(NotIn(Users(remove)), Dedup(current)), Dedup(add);
    forall a, b | 0 <= a < b < |Dedup(current)| ensures Earlier(current, Dedup(current)[a], Dedup(current)[b]) {
      FreshInOrder(current, {}, a, b);
    }
    forall a, b | 0 <= a < b < |joined| ensures Earlier(add, joined[a], joined[b]) {
      FreshInOrder(add, {}, a, b);
    }
    FilterKeepsOrder(NotIn(Users(remove)), current, Dedup(current));
    FilteredUsers(NotIn(Users(remove)), Dedup(current));
    FreshUsers(current, {});
    FreshUsers(add, {});
    assert i < |kept| ==> kept[i] in Users(kept);
    assert j >= |kept| ==> joined[j - |kept|] in Users(joined);
  }

  /** The actions partition everybody concerned: each current or added user has exactly one row. */
  lemma ChangesPartition(current: seq<User>, add: seq<User>, remove: seq<User>, u: User)
    requires Acceptable(current, add, remove)
    ensures var changes := PlanOf(current, add, remove).changes;
            && ((u, Keep) in changes <==> u in current && u !in remove)
            && ((u, Remove) in changes <==> u in remove)
            && ((u, Add) in changes <==> u in add)
            && |changes| == |Dedup(current)| + |Dedup(add)|
            && forall i, j :: 0 <= i < j < |changes| ==> changes[i].0 != changes[j].0
  {
    var base, joined := Dedup(current), Dedup(add);
    var stays, joins := Map(StaysOrGoes(Users(remove)), base), Map(Joins(), joined);
    FreshUsers(current, {});
    FreshUsers(add, {});
    FreshNoDup(current, {});
    FreshNoDup(add, {});
    RowOf(StaysOrGoes(Users(remove)), base, u);
    RowOf(Joins(), joined, u);
    assert u in base <==> u in Users(base);
    assert u in joined <==> u in Users(joined);
    assert u in remove ==> u in Users(remove) && u in Users(current);
    assert u in add ==> u in Users(add);
    forall i, j | 0 <= i < |base| && 0 <= j < |joined| ensures base[i] != joined[j] {
      assert base[i] in Users(base) && joined[j] in Users(joined);
    }
  }

  /** The rows of the current members come first, in base order, then those of the joiners in input order. */
  lemma ChangesInOrder(current: seq<User>, add: seq<User>, remove: seq<User>, i: nat, j: nat)
    requires Acceptable(current, add, remove) && i < j < |PlanOf(current, add, remove).changes|
    ensures var rows := PlanOf(current, add, remove).changes;
            if rows[i].1.Add? then rows[j].1.Add? && Earlier(add, rows[i].0, rows[j].0)
            else rows[j].1.Add? || Earlier(current, rows[i].0, rows[j].0)
  {
    var base := |Dedup(current)|;
    if j < base {
      FreshInOrder(current, {}, i, j);
    } else if i >= base {
      FreshInOrder(add, {}, i - base, j - base);
    }
  }

  /** A user has the row its function gives it, if it is in the list. */
  lemma RowOf(f: User -> (User, RosterAction), xs: seq<User>, u: User)
    requires forall x :: f(x).0 == x
    ensures forall action :: (u, action) in Map(f, xs) <==> u in xs && f(u).1 == action
  {
    forall action ensures (u, action) in Map(f, xs) <==> u in xs && f(u).1 == action {
      if u in xs && f(u).1 == action {
        var i :| 0 <= i < |xs| && xs[i] == u;
        assert Map(f, xs)[i] == (u, action);
      }
    }
  }

  /** Swapping joiners and leavers leads back to the original members, exactly when there were any. */
  lemma SwapRestores(current: seq<User>, add: seq<User>, remove: seq<User>)
    requires Acceptable(current, add, remove)
    ensures var next := PlanOf(current, add, remove).nextMembers;
            && (Acceptable(next, remove, add) <==> current != [])
            && Users(PlanOf(next, remove, add).nextMembers) == Users(current)
  {
    var next := PlanOf(current, add, remove).nextMembers;
    PlanMembers(current, add, remove);
    PlanMembers(next, remove, add);
    assert (Users(next) - Users(add)) + Users(remove) == Users(current);
    if current != [] {
      assert current[0] in Users(current);
    }
  }

  // ----- Thresholds and historic versions -----

  method ValidateThreshold(m: nat, n: nat) returns (r: Result<nat>)
    ensures r == if 1 <= m <= n <= U32_MAX then Ok(m) else Err(BadThreshold(m, n))
  {
    if n > U32_MAX {
      return Err(BadThreshold(m, n));
    }
    if m == 0 || m > n {
      return Err(BadThreshold(m, n));
    }
    r := Ok(m);
  }

  datatype HistoricVersion = HistoricVersion(members: seq<User>, threshold: nat)

  function Active(active: set<User>): User -> bool {
    (u: User) => u in active
  }

  /** Fewer of the version's members are active than it takes to sign for it. */
  predicate AtRisk(v: HistoricVersion, active: set<User>) {
    |Filter(Active(active), v.members)| < v.threshold
  }

  method HistoricVersionsAtRisk(historic: seq<HistoricVersion>, next: seq<User>) returns (atRisk: seq<nat>)
    ensures forall i, j :: 0 <= i < j < |atRisk| ==> atRisk[i] < atRisk[j]
    ensures forall i: nat :: i in atRisk <==> i < |historic| && AtRisk(historic[i], Users(next))
  {
    atRisk := [];
    for i := 0 to |historic|
      invariant forall a, b :: 0 <= a < b < |atRisk| ==> atRisk[a] < atRisk[b]
      invariant forall j: nat :: j in atRisk <==> j < i && AtRisk(historic[j], Users(next))
    {
      if |Filter(Active(Users(next)), historic[i].members)| < historic[i].threshold {
        forall a | 0 <= a < |atRisk| ensures atRisk[a] < i {
          assert atRisk[a] in atRisk;
        }
        atRisk := atRisk + [i];
      }
    }
  }

  /** The places of a version whose member is active. */
  function ActivePlaces(members: seq<User>, active: set<User>): set<nat> {
    set i: nat | i < |members| && members[i] in active
  }

  lemma PlacesNext(init: seq<User>, u: User, active: set<User>)
    ensures ActivePlaces(init + [u], active) == ActivePlaces(init, active) + (if u in active then {|init|} else {})
    ensures |ActivePlaces(init + [u], active)| == |ActivePlaces(init, active)| + if u in active then 1 else 0
  {
    var all := init + [u];
    assert forall i: nat :: i < |init| ==> all[i] == init[i];
    assert ActivePlaces(all, active) == ActivePlaces(init, active) + (if u in active then {|init|} else {});
    assert |init| !in ActivePlaces(init, active);
  }

  lemma {:induction false} CountActive(members: seq<User>, active: set<User>)
    ensures |Filter(Active(active), members)| == |ActivePlaces(members, active)|
  {
    if members != [] {
      var init, u := members[..|members| - 1], members[|members| - 1];
      assert members == init + [u];
      FilterConcat(Active(active), init, [u]);
      CountActive(init, active);
      PlacesNext(init, u, active);
      assert Filter(Active(active), [u]) == if u in active then [u] else [];
    }
  }

  lemma UsersNext(init: seq<User>, u: User, active: set<User>)
    requires u !in init
    ensures |Users(init + [u]) * active| == |Users(init) * active| + if u in active then 1 else 0
  {
    var before := Users(init) * active;
    assert Users(init + [u]) == Users(init) + {u};
    if u in active {
      assert Users(init + [u]) * active == before + {u};
    } else {
      assert Users(init + [u]) * active == before;
    }
  }

  lemma {:induction false} DistinctPlaces(members: seq<User>, active: set<User>)
    requires NoDup(members)
    ensures |ActivePlaces(members, active)| == |Users(members) * active|
  {
    if members == [] {
      assert Users(members) * active == {};
    } else {
      var init, u := members[..|members| - 1], members[|members| - 1];
      assert members == init + [u];
      DistinctPlaces(init, active);
      PlacesNext(init, u, active);
      UsersNext(init, u, active);
    }
  }

  /**
   A version is at risk exactly when fewer of its members are active than its threshold asks for; a
   member that is listed twice counts twice.
   */
  lemma AtRiskMeans(v: HistoricVersion, active: set<User>)
    ensures AtRisk(v, active) <==> |ActivePlaces(v.members, active)| < v.threshold
    ensures NoDup(v.members) ==> (AtRisk(v, active) <==> |Users(v.members) * active| < v.threshold)
  {
    CountActive(v.members, active);
    if NoDup(v.members) {
      DistinctPlaces(v.members, active);
    }
  }

  lemma {:induction false} MoreActive(members: seq<User>, a: set<User>, b: set<User>)
    requires a <= b
    ensures |Filter(Active(a), members)| <= |Filter(Active(b), members)|
  {
    if members != [] {
      MoreActive(members[1..], a, b);
    }
  }

  /** A larger next roster puts no further version at risk. */
  lemma LargerRosterIsSafer(v: HistoricVersion, smaller: seq<User>, larger: seq<User>)
    requires Users(smaller) <= Users(larger) && AtRisk(v, Users(larger))
    ensures AtRisk(v, Users(smaller))
  {
    MoreActive(v.members, Users(smaller), Users(larger));
  }

  /** A migration that removes nobody puts no version at risk that was not already. */
  lemma NobodyLeavesNobodyAtRisk(v: HistoricVersion, current: seq<User>, add: seq<User>)
    requires Acceptable(current, add, []) && AtRisk(v, Users(PlanOf(current, add, []).nextMembers))
    ensures AtRisk(v, Users(current))
  {
    PlanMembers(current, add, []);
    assert Users([]) == {};
    LargerRosterIsSafer(v, current, PlanOf(current, add, []).nextMembers);
  }
}
