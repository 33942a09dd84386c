/** Properties of whole sweep plans, for any list of accounts. */
module SweepTheorems {
  import opened Seqs
  import opened Networks
  import opened SweepPlanner
  import opened SweepGuarantees

  // ----- Refusals -----

  /**
   Both algorithms refuse in the same order: different networks, no coins at all, no funded fee
   account. Otherwise they start, with the first funded account of the fee index.
   */
  lemma StartPlanDecides(accounts: seq<Account>, oldNetwork: NetworkType, newNetwork: NetworkType, terms: Terms)
    ensures var s, funded := StartPlan(accounts, oldNetwork, newNetwork, terms), Funded(accounts);
            && (s == NotReady(NetworkMismatch(oldNetwork, newNetwork)) <==> oldNetwork != newNetwork)
            && (s == NotReady(NoUtxos) <==> oldNetwork == newNetwork && forall a :: a in accounts ==> a.utxos == [])
            && (s == NotReady(InvalidConfig(terms.feeIdx)) <==>
                  && oldNetwork == newNetwork && (exists a :: a in accounts && a.utxos != [])
                  && forall a :: a in accounts && a.idx == terms.feeIdx ==> a.utxos == [])
            && (s.Ready? <==>
                  && oldNetwork == newNetwork
                  && exists a :: a in accounts && a.idx == terms.feeIdx && a.utxos != [])
            && (s.Ready? ==> s.funded == funded && [s.fee] <= Filter(IsFeeAccount(terms.feeIdx), funded))
  {
    var funded := Funded(accounts);
    FilterMembers(HasUtxos(), accounts);
    FindIsFirst(terms.feeIdx, funded);
    FilterMembers(IsFeeAccount(terms.feeIdx), funded);
    assert funded != [] ==> funded[0] in accounts;
  }

  // ----- From the accounts to the groups -----

  /** Funded accounts with the fee index after the first one: the batched plan leaves them alone. */
  function Extra(idx: nat, funded: seq<Account>): seq<Account> {
    var fees := Filter(IsFeeAccount(idx), funded);
    if fees == [] then [] else fees[1..]
  }

  lemma {:induction false} SingletonsFlatten(large: seq<Account>)
    ensures Flatten(Map(Singleton, large)) == large
  {
    if large != [] {
      SingletonsFlatten(large[1..]);
      assert Map(Singleton, large)[1..] == Map(Singleton, large[1..]);
    }
  }

  /** The groups hold every non-fee account exactly once. */
  lemma GroupsPartition(threshold: nat, nonFee: seq<Account>)
    ensures multiset(Flatten(Groups(threshold, nonFee))) == multiset(nonFee)
  {
    var large := Filter(AtLeast(threshold), nonFee);
    var small := Filter(Negate(AtLeast(threshold)), nonFee);
    FlattenConcat(Map(Singleton, large), Bundle(small));
    SingletonsFlatten(large);
    FlattenSingle(small);
    assert Flatten(Bundle(small)) == small;
    FilterSplits(AtLeast(threshold), nonFee);
  }

  lemma {:induction false} FindIsFirst(idx: nat, funded: seq<Account>)
    ensures var fees := Filter(IsFeeAccount(idx), funded);
            FindAccount(idx, funded) == if fees == [] then None else Some(fees[0])
  {
    if funded != [] {
      FindIsFirst(idx, funded[1..]);
    }
  }

  /** A planned sweep covers the funded accounts: the groups, the fee account, and the extra ones it ignores. */
  lemma AccountsPartition(funded: seq<Account>, fee: Account, idx: nat, threshold: nat)
    requires FindAccount(idx, funded) == Some(fee)
    ensures multiset(funded) ==
            multiset(Flatten(Groups(threshold, NonFee(idx, funded))) + [fee] + Extra(idx, funded))
  {
    var fees, flat := Filter(IsFeeAccount(idx), funded), Flatten(Groups(threshold, NonFee(idx, funded)));
    FindIsFirst(idx, funded);
    assert fees == [fee] + Extra(idx, funded);
    FilterSplits(IsFeeAccount(idx), funded);
    GroupsPartition(threshold, NonFee(idx, funded));
    ConcatAssociative(flat, [fee], Extra(idx, funded));
    assert multiset(flat + fees) == multiset(flat) + multiset(fees);
  }

  lemma {:induction false} GroupUtxosPermutation(xs: seq<Account>, ys: seq<Account>)
    requires multiset(xs) == multiset(ys)
    ensures multiset(GroupUtxos(xs)) == multiset(GroupUtxos(ys))
  {
    if xs == [] {
      assert |multiset(ys)| == 0;
    } else {
      var i := MoveToFront(xs, ys);
      GroupUtxosPermutation(xs[1..], ys[..i] + ys[i + 1..]);
      assert xs == [xs[0]] + xs[1..] && ys == ys[..i] + ([ys[i]] + ys[i + 1..]);
      GroupUtxosConcat([xs[0]], xs[1..]);
      GroupUtxosConcat(ys[..i], [ys[i]] + ys[i + 1..]);
      GroupUtxosConcat([ys[i]], ys[i + 1..]);
      GroupUtxosConcat(ys[..i], ys[i + 1..]);
    }
  }

  // ----- The batched sweep -----

  /** The plan the batched sweep makes when it neither refuses nor underflows. */
  ghost predicate Plans(accounts: seq<Account>, terms: Terms, threshold: nat, funded: seq<Account>, fee: Account,
                        groups: seq<seq<Account>>)
  {
    && funded == Funded(accounts)
    && FindAccount(terms.feeIdx, funded) == Some(fee) && fee.utxos != []
    && groups == Groups(threshold, NonFee(terms.feeIdx, funded))
    && PreflightFees(groups, fee, terms.est) <= TotalValue(fee)
    && HopFees(groups, terms.est) <= fee.utxos[0].value
  }

  /**
   The whole run. On a ledger of the funded accounts' coins the planned transactions execute to the
   end, in order, and what is left is the final fee change, next to the coins of any further
   account that carries the fee index.
   */
  lemma BatchedSweepExecutes(accounts: seq<Account>, terms: Terms, threshold: nat, funded: seq<Account>, fee: Account,
                             groups: seq<seq<Account>>, ledger: Ledger)
    returns (after: Ledger)
    requires Plans(accounts, terms, threshold, funded, fee, groups)
    requires NoDup(GroupUtxos(funded)) && RealCoins(SetOf(GroupUtxos(funded)))
    requires Holds(ledger, SetOf(GroupUtxos(funded)))
    ensures Execute(ledger, ChainPlan(groups, fee, terms).transactions, 0, terms.est) == Some(after)
    ensures Holds(after, {FinalCoin(groups, fee, terms.est)} + SetOf(GroupUtxos(Extra(terms.feeIdx, funded))))
  {
    var extra := GroupUtxos(Extra(terms.feeIdx, funded));
    CoinsPartition(funded, fee, terms.feeIdx, threshold);
    NoDupPermutation(GroupUtxos(funded), ChainCoins(groups, fee) + extra);
    SetOfPermutation(GroupUtxos(funded), ChainCoins(groups, fee) + extra);
    NoDupSplits(ChainCoins(groups, fee), extra);
    after := ChainExecutes(ledger, groups, fee, SetOf(extra), terms);
  }

  lemma CoinsPartition(funded: seq<Account>, fee: Account, idx: nat, threshold: nat)
    requires FindAccount(idx, funded) == Some(fee)
    ensures var groups := Groups(threshold, NonFee(idx, funded));
            multiset(GroupUtxos(funded)) == multiset(ChainCoins(groups, fee) + GroupUtxos(Extra(idx, funded)))
  {
    var flat, extra := Flatten(Groups(threshold, NonFee(idx, funded))), Extra(idx, funded);
    AccountsPartition(funded, fee, idx, threshold);
    GroupUtxosPermutation(funded, flat + [fee] + extra);
    GroupUtxosConcat(flat + [fee], extra);
    GroupUtxosConcat(flat, [fee]);
    assert Map(UtxosOf, [fee]) == [fee.utxos];
    FlattenSingle(fee.utxos);
  }

  lemma SetOfPermutation(xs: seq<Utxo>, ys: seq<Utxo>)
    requires multiset(xs) == multiset(ys)
    ensures SetOf(xs) == SetOf(ys)
  {
    assert forall u :: u in xs <==> u in multiset(xs);
    assert forall u :: u in ys <==> u in multiset(ys);
  }

  lemma NoDupSplits(xs: seq<Utxo>, ys: seq<Utxo>)
    requires NoDup(xs + ys)
    ensures NoDup(xs) && SetOf(xs) !! SetOf(ys) && SetOf(xs + ys) == SetOf(xs) + SetOf(ys)
  {
    assert forall i :: 0 <= i < |xs| ==> (xs + ys)[i] == xs[i];
    assert forall i :: 0 <= i < |ys| ==> (xs + ys)[|xs| + i] == ys[i];
  }

  /** Nothing but the final change is left exactly when the fee index occurs once among the funded accounts. */
  lemma NothingLeftIffFeeIndexUnique(accounts: seq<Account>, idx: nat)
    requires exists a :: a in Funded(accounts) && a.idx == idx
    ensures SetOf(GroupUtxos(Extra(idx, Funded(accounts)))) == {} <==>
            |Filter(IsFeeAccount(idx), Funded(accounts))| == 1
  {
    var funded := Funded(accounts);
    var fees := Filter(IsFeeAccount(idx), funded);
    FilterMembers(IsFeeAccount(idx), funded);
    FilterMembers(HasUtxos(), accounts);
    var a :| a in funded && a.idx == idx;
    assert a in fees;
    if |fees| > 1 {
      assert fees[1] in funded && fees[1].utxos != [];
      assert fees[1..] == [fees[1]] + fees[2..];
      GroupUtxosConcat([fees[1]], fees[2..]);
      assert Map(UtxosOf, [fees[1]]) == [fees[1].utxos];
      FlattenSingle(fees[1].utxos);
      assert fees[1].utxos[0] in SetOf(GroupUtxos(fees[1..]));
    }
  }

  lemma {:induction false} HopsCustomers(groups: seq<seq<Account>>, k: nat, coin: Utxo, terms: Terms)
    requires HopFees(groups, terms.est) <= coin.value
    ensures Customers(Hops(groups, k, coin, terms)) == Map(CustomerOutput, Flatten(groups))
  {
    if groups != [] {
      var next := NextCoin(groups[0], k, coin, terms.est);
      HopsCustomers(groups[1..], k + 1, next, terms);
      HopPays(groups[0], coin, terms);
      var txs := Hops(groups, k, coin, terms);
      assert txs[1..] == Hops(groups[1..], k + 1, next, terms);
      assert Map(CustomersOf, txs)[1..] == Map(CustomersOf, txs[1..]);
      MapConcat(CustomerOutput, groups[0], Flatten(groups[1..]));
    }
  }

  /** The plan pays each funded non-fee account its whole balance, once, and nobody else. */
  lemma CustomersPaidInFull(accounts: seq<Account>, terms: Terms, threshold: nat, funded: seq<Account>, fee: Account,
                            groups: seq<seq<Account>>)
    requires Plans(accounts, terms, threshold, funded, fee, groups)
    ensures multiset(Customers(ChainPlan(groups, fee, terms).transactions)) ==
            multiset(Map(CustomerOutput, NonFee(terms.feeIdx, funded)))
  {
    var hops, final := Hops(groups, 0, fee.utxos[0], terms), FinalTx(groups, fee, terms);
    HopsCustomers(groups, 0, fee.utxos[0], terms);
    FinalPays(groups, fee, terms);
    MapConcat(CustomersOf, hops, [final]);
    assert Map(CustomersOf, [final]) == [CustomersOf(final)];
    FlattenConcat(Map(CustomersOf, hops), [CustomersOf(final)]);
    FlattenSingle(CustomersOf(final));
    GroupsPartition(threshold, NonFee(terms.feeIdx, funded));
    MapPermutation(CustomerOutput, Flatten(groups), NonFee(terms.feeIdx, funded));
  }

  lemma {:induction false} MapPermutation<T, U>(f: T -> U, xs: seq<T>, ys: seq<T>)
    requires multiset(xs) == multiset(ys)
    ensures multiset(Map(f, xs)) == multiset(Map(f, ys))
  {
    if xs == [] {
      assert |multiset(ys)| == 0;
    } else {
      var i := MoveToFront(xs, ys);
      MapPermutation(f, xs[1..], ys[..i] + ys[i + 1..]);
      MapAt(f, ys, i);
      MapCons(f, xs);
    }
  }

  lemma MapCons<T, U>(f: T -> U, xs: seq<T>)
    requires xs != []
    ensures multiset(Map(f, xs)) == multiset{f(xs[0])} + multiset(Map(f, xs[1..]))
  {
  }

  lemma MapAt<T, U>(f: T -> U, ys: seq<T>, i: nat)
    requires i < |ys|
    ensures multiset(Map(f, ys)) == multiset{f(ys[i])} + multiset(Map(f, ys[..i] + ys[i + 1..]))
  {
    MapWithout(f, ys, i);
    WithoutCounts(Map(f, ys), i);
  }

  lemma MapWithout<T, U>(f: T -> U, ys: seq<T>, i: nat)
    requires i < |ys|
    ensures Map(f, ys[..i] + ys[i + 1..]) == Without(Map(f, ys), i)
  {
    MapConcat(f, ys[..i], ys[i + 1..]);
    MapPrefix(f, ys, i);
    MapSuffix(f, ys, i + 1);
  }

  lemma MapPrefix<T, U>(f: T -> U, ys: seq<T>, i: nat)
    requires i <= |ys|
    ensures Map(f, ys[..i]) == Map(f, ys)[..i]
  {
  }

  lemma MapSuffix<T, U>(f: T -> U, ys: seq<T>, i: nat)
    requires i <= |ys|
    ensures Map(f, ys[i..]) == Map(f, ys)[i..]
  {
  }

  lemma WithoutCounts<T>(xs: seq<T>, i: nat)
    requires i < |xs|
    ensures multiset(xs) == multiset{xs[i]} + multiset(Without(xs, i))
  {
    assert xs == xs[..i] + [xs[i]] + xs[i + 1..];
  }

  /** Satoshi for satoshi: what goes in comes out as customer payments, final change and fees. */
  lemma ValueConserved(accounts: seq<Account>, terms: Terms, threshold: nat, funded: seq<Account>, fee: Account,
                       groups: seq<seq<Account>>)
    requires Plans(accounts, terms, threshold, funded, fee, groups)
    ensures var plan := ChainPlan(groups, fee, terms);
            Sum(TotalValue, funded) ==
            Sum(AmountOf, Customers(plan.transactions)) + FinalCoin(groups, fee, terms.est).value + plan.totalFees +
            Sum(TotalValue, Extra(terms.feeIdx, funded))
  {
    var nonFee, extra := NonFee(terms.feeIdx, funded), Extra(terms.feeIdx, funded);
    CustomersPaidInFull(accounts, terms, threshold, funded, fee, groups);
    SumPermutation(AmountOf, Customers(ChainPlan(groups, fee, terms).transactions), Map(CustomerOutput, nonFee));
    CustomerOutputsValue(nonFee);
    AccountsPartition(funded, fee, terms.feeIdx, threshold);
    SumPermutation(TotalValue, funded, Flatten(groups) + [fee] + extra);
    SumConcat(TotalValue, Flatten(groups) + [fee], extra);
    SumConcat(TotalValue, Flatten(groups), [fee]);
    SumSingle(TotalValue, fee);
    GroupsPartition(threshold, nonFee);
    SumPermutation(TotalValue, Flatten(groups), nonFee);
  }

  lemma {:induction false} HopsSourceCount(groups: seq<seq<Account>>, k: nat, coin: Utxo, terms: Terms)
    requires HopFees(groups, terms.est) <= coin.value
    ensures Sum(SourceCount, Hops(groups, k, coin, terms)) == InputCount(Flatten(groups)) + |groups|
  {
    if groups != [] {
      HopsSourceCount(groups[1..], k + 1, NextCoin(groups[0], k, coin, terms.est), terms);
      HopSize(groups[0], coin, terms);
      SumConcat(UtxoCount, groups[0], Flatten(groups[1..]));
    }
  }

  /** The plan's shape: one transaction more than groups, only the last is final, and it counts every source. */
  lemma PlanShape(groups: seq<seq<Account>>, fee: Account, terms: Terms)
    requires fee.utxos != [] && HopFees(groups, terms.est) <= fee.utxos[0].value
    requires PreflightFees(groups, fee, terms.est) <= TotalValue(fee)
    ensures var plan := ChainPlan(groups, fee, terms);
            && |plan.transactions| == |groups| + 1
            && (forall i :: 0 <= i < |plan.transactions| ==> (plan.transactions[i].isFeeFinal <==> i == |groups|))
            && plan.utxoCount == Sum(SourceCount, plan.transactions)
            && plan.utxoCount == |ChainCoins(groups, fee)| + (|plan.transactions| - 1)
  {
    var hops, final := Hops(groups, 0, fee.utxos[0], terms), FinalTx(groups, fee, terms);
    HopsSourceCount(groups, 0, fee.utxos[0], terms);
    GroupUtxosCount(Flatten(groups));
    SumConcat(SourceCount, hops, [final]);
    SumSingle(SourceCount, final);
    FinalCoinsAre(groups, fee, terms.est);
    forall i | 0 <= i < |groups| ensures !(hops + [final])[i].isFeeFinal {
      assert hops[i] in hops;
    }
  }

  /** Hop `i + 1` spends the change of hop `i`, as its last source. */
  lemma {:induction false} HopSpendsPredecessor(groups: seq<seq<Account>>, k: nat, coin: Utxo, terms: Terms, i: nat)
    requires HopFees(groups, terms.est) <= coin.value && i < |groups|
    ensures var sources := Hops(groups, k, coin, terms)[i].sources;
            |sources| > 0 && sources[|sources| - 1] == if i == 0 then coin.outpoint else Synthetic(k + i - 1)
  {
    if i > 0 {
      HopSpendsPredecessor(groups[1..], k + 1, NextCoin(groups[0], k, coin, terms.est), terms, i - 1);
    }
  }

  /** The placeholder of transaction `k` is output `k` of the all-zero transaction id, while 32 bits hold it. */
  lemma PlaceholderIs(k: nat)
    ensures Synthetic(k) == OutPoint(0, k) <==> k <= 0xFFFF_FFFF
  {
  }

  /** The placeholders of the first `n` transactions differ exactly when there are at most 2^32 of them. */
  lemma PlaceholdersDistinct(n: nat)
    ensures (forall i, j :: 0 <= i < j < n ==> Synthetic(i) != Synthetic(j)) <==> n <= U32_LIMIT
  {
    if n > U32_LIMIT {
      assert Synthetic(0) == Synthetic(U32_LIMIT);
    }
  }

  /** A fee account with a single coin never underflows once the pre-flight has passed. */
  lemma SingleCoinNeverUnderflows(groups: seq<seq<Account>>, fee: Account, terms: Terms)
    requires |fee.utxos| == 1 && PreflightFees(groups, fee, terms.est) <= TotalValue(fee)
    ensures HopFees(groups, terms.est) <= fee.utxos[0].value
  {
    assert fee.utxos == [fee.utxos[0]];
    SumSingle(UtxoValue, fee.utxos[0]);
  }

  /** With several coins it can: a fee account of 1 and 99999 satoshi passes the pre-flight and underflows at once. */
  lemma SeveralCoinsCanUnderflow()
    ensures var fee := Account(0, [Utxo(OutPoint(1, 0), 1), Utxo(OutPoint(1, 1), 99999)], "fee");
            var customer := Account(1, [Utxo(OutPoint(2, 0), 5000)], "customer");
            var terms := Terms(0, FeeAt(250));
            var groups := Groups(0, NonFee(0, [fee, customer]));
            && Funded([fee, customer]) == [fee, customer] && FindAccount(0, [fee, customer]) == Some(fee)
            && PreflightFees(groups, fee, terms.est) <= TotalValue(fee)
            && HopFees(groups, terms.est) > fee.utxos[0].value
  {
    var c0, c1 := Utxo(OutPoint(1, 0), 1), Utxo(OutPoint(1, 1), 99999);
    var fee := Account(0, [c0, c1], "fee");
    var customer := Account(1, [Utxo(OutPoint(2, 0), 5000)], "customer");
    var est := FeeAt(250);
    assert [fee, customer][1..] == [customer] && [customer][1..] == [];
    assert Filter(HasUtxos(), [customer]) == [customer];
    assert Filter(HasUtxos(), [fee, customer]) == [fee, customer];
    assert Filter(Negate(IsFeeAccount(0)), [customer]) == [customer];
    assert NonFee(0, [fee, customer]) == [customer];
    assert Filter(AtLeast(0), [customer]) == [customer];
    assert Filter(Negate(AtLeast(0)), [customer]) == [];
    assert Map(Singleton, [customer]) == [[customer]];
    assert Groups(0, [customer]) == [[customer]];
    HopFeesAppend([], [customer], est);
    assert [] + [[customer]] == [[customer]];
    SingletonHopFee(customer, est);
    assert est(2, 2) == EstimateFee(2, 2, 250) == 284;
    assert est(2, 1) == EstimateFee(2, 1, 250) == 252;
    assert [c0, c1][1..] == [c1];
    SumSingle(UtxoValue, c1);
  }

  // ----- The single sweep -----

  /** What the fee accounts among `xs` are charged, each of them the whole fee. */
  function Charged(idx: nat, fee: nat, xs: seq<Account>): nat {
    if xs == [] then 0 else (if xs[0].idx == idx then fee else 0) + Charged(idx, fee, xs[1..])
  }

  /** Fee accounts lose the fee, each of them; the others keep their balance. */
  lemma {:induction false} SingleOutputsValue(terms: Terms, fee: nat, xs: seq<Account>)
    requires forall a :: a in xs && a.idx == terms.feeIdx ==> fee <= TotalValue(a)
    ensures Sum(AmountOf, Map(SweepOutput(terms, fee), xs)) + Charged(terms.feeIdx, fee, xs) == Sum(TotalValue, xs)
  {
    if xs != [] {
      SingleOutputsValue(terms, fee, xs[1..]);
      var outputs := Map(SweepOutput(terms, fee), xs);
      assert outputs[1..] == Map(SweepOutput(terms, fee), xs[1..]);
      assert outputs[0] == SweepOutput(terms, fee)(xs[0]);
      assert xs[0] in xs;
    }
  }

  lemma {:induction false} ChargedIs(idx: nat, fee: nat, xs: seq<Account>)
    ensures var n := |Filter(IsFeeAccount(idx), xs)|;
            Charged(idx, fee, xs) >= (if n == 0 then 0 else if n == 1 then fee else fee + fee)
    ensures |Filter(IsFeeAccount(idx), xs)| <= 1 ==> Charged(idx, fee, xs) <= fee
    ensures fee == 0 ==> Charged(idx, fee, xs) == 0
    ensures |Filter(IsFeeAccount(idx), xs)| == 0 ==> Charged(idx, fee, xs) == 0
  {
    if xs != [] {
      ChargedIs(idx, fee, xs[1..]);
    }
  }

  /** The one transaction balances exactly when the fee index occurs once, or nothing is charged. */
  lemma SingleSweepBalances(accounts: seq<Account>, oldNetwork: NetworkType, newNetwork: NetworkType, terms: Terms)
    requires SinglePlan(accounts, oldNetwork, newNetwork, terms).Planned?
    ensures var plan := SinglePlan(accounts, oldNetwork, newNetwork, terms).plan;
            var funded, tx := Funded(accounts), plan.transactions[0];
            && plan.transactions == [tx] && plan.utxoCount == |tx.sources|
            && tx.sources == Outpoints(GroupUtxos(funded))
            && plan.totalFees == terms.est(|tx.sources|, |tx.outputs|)
            && (Sum(UtxoValue, GroupUtxos(funded)) == Sum(AmountOf, tx.outputs) + plan.totalFees <==>
                |Filter(IsFeeAccount(terms.feeIdx), funded)| == 1 || SingleFee(funded, terms.est) == 0)
  {
    var funded := Funded(accounts);
    var fee := SingleFee(funded, terms.est);
    SingleOutputsValue(terms, fee, funded);
    ChargedIs(terms.feeIdx, fee, funded);
    GroupUtxosValue(funded);
    GroupUtxosCount(funded);
    FindIsFirst(terms.feeIdx, funded);
  }

  /**
   A fee index on two funded accounts: the single sweep charges both, and the batched one leaves
   the second behind.
   */
  lemma RepeatedFeeIndexFails(network: NetworkType)
    ensures var accounts, terms := [OneCoin(0), OneCoin(0)], Terms(0, FeeAt(250));
            var outcome := SinglePlan(accounts, network, network, terms);
            && outcome.Planned?
            && Sum(UtxoValue, GroupUtxos(accounts)) !=
               Sum(AmountOf, outcome.plan.transactions[0].outputs) + outcome.plan.totalFees
            && SetOf(GroupUtxos(Extra(0, Funded(accounts)))) != {}
  {
    var accounts, terms := [OneCoin(0), OneCoin(0)], Terms(0, FeeAt(250));
    FilterAll(HasUtxos(), accounts);
    FilterAll(IsFeeAccount(0), accounts);
    SumConcat(UtxoCount, [OneCoin(0)], [OneCoin(0)]);
    SumSingle(UtxoCount, OneCoin(0));
    assert accounts == [OneCoin(0)] + [OneCoin(0)];
    SumSingle(UtxoValue, Utxo(OutPoint(1, 0), 100000));
    assert SingleFee(accounts, terms.est) == EstimateFee(2, 2, 250) == 284;
    SingleSweepBalances(accounts, network, network, terms);
    NothingLeftIffFeeIndexUnique(accounts, 0);
  }

  // ----- The two totals compared -----

  function RawWeight(inputs: nat, outputs: nat): nat {
    4 * (OVERHEAD_VBYTES + inputs * INPUT_VBYTES + outputs * OUTPUT_VBYTES)
  }

  function HopWeights(groups: seq<seq<Account>>): nat {
    if groups == [] then 0 else RawWeight(InputCount(groups[0]) + 1, |groups[0]| + 1) + HopWeights(groups[1..])
  }

  ghost predicate Fits(rate: nat, weight: nat) {
    weight < U64_LIMIT && rate * weight + 999 < U64_LIMIT
  }

  /** An estimate that fits 64 bits is the exact fee rounded up to a satoshi. */
  lemma EstimateRoundsUp(inputs: nat, outputs: nat, rate: nat)
    requires Fits(rate, RawWeight(inputs, outputs))
    ensures rate * RawWeight(inputs, outputs) <= 1000 * EstimateFee(inputs, outputs, rate)
    ensures 1000 * EstimateFee(inputs, outputs, rate) <= rate * RawWeight(inputs, outputs) + 999
    ensures RawWeight(inputs, outputs) == 40 + 420 * inputs + 128 * outputs
  {
  }

  lemma FitsSmaller(rate: nat, weight: nat, smaller: nat)
    requires Fits(rate, weight) && smaller <= weight
    ensures Fits(rate, smaller)
  {
    assert rate * weight - rate * smaller == rate * (weight - smaller);
  }

  /** The exact fees of the hops, in thousandths of a satoshi. */
  function HopCosts(groups: seq<seq<Account>>, rate: nat): nat {
    if groups == [] then 0
    else rate * RawWeight(InputCount(groups[0]) + 1, |groups[0]| + 1) + HopCosts(groups[1..], rate)
  }

  lemma {:induction false} HopCostsAre(groups: seq<seq<Account>>, rate: nat)
    ensures HopCosts(groups, rate) == rate * HopWeights(groups)
  {
    if groups != [] {
      HopCostsAre(groups[1..], rate);
      var w, ws := RawWeight(InputCount(groups[0]) + 1, |groups[0]| + 1), HopWeights(groups[1..]);
      Distributes(rate, w, ws);
    }
  }

  lemma Distributes(a: int, b: int, c: int)
    ensures a * (b + c) == a * b + a * c
  {
  }

  lemma {:induction false} HopFeesRoundUp(groups: seq<seq<Account>>, rate: nat, bound: nat)
    requires Fits(rate, bound)
    requires forall g :: g in groups ==> RawWeight(InputCount(g) + 1, |g| + 1) <= bound
    ensures HopCosts(groups, rate) <= 1000 * HopFees(groups, FeeAt(rate)) <= HopCosts(groups, rate) + 999 * |groups|
  {
    if groups != [] {
      HopFeesRoundUp(groups[1..], rate, bound);
      HopRoundsUp(groups[0], rate, bound);
    }
  }

  lemma HopRoundsUp(g: seq<Account>, rate: nat, bound: nat)
    requires Fits(rate, bound) && RawWeight(InputCount(g) + 1, |g| + 1) <= bound
    ensures rate * RawWeight(InputCount(g) + 1, |g| + 1) <= 1000 * HopFee(g, FeeAt(rate))
    ensures 1000 * HopFee(g, FeeAt(rate)) <= rate * RawWeight(InputCount(g) + 1, |g| + 1) + 999
  {
    FitsSmaller(rate, bound, RawWeight(InputCount(g) + 1, |g| + 1));
    EstimateRoundsUp(InputCount(g) + 1, |g| + 1, rate);
  }

  /** Every hop adds one input, one output and one overhead to the weight of the single sweep. */
  lemma {:induction false} HopWeightsAre(groups: seq<seq<Account>>)
    ensures HopWeights(groups) ==
            4 * (INPUT_VBYTES * InputCount(Flatten(groups)) + OUTPUT_VBYTES * |Flatten(groups)|) +
            RawWeight(1, 1) * |groups|
  {
    if groups != [] {
      HopWeightsAre(groups[1..]);
      SumConcat(UtxoCount, groups[0], Flatten(groups[1..]));
    }
  }

  lemma {:induction false} GroupFitsFlat(groups: seq<seq<Account>>)
    ensures forall g :: g in groups ==> InputCount(g) <= InputCount(Flatten(groups)) && |g| <= |Flatten(groups)|
  {
    if groups != [] {
      GroupFitsFlat(groups[1..]);
      SumConcat(UtxoCount, groups[0], Flatten(groups[1..]));
    }
  }

  /** The exact batched fee is the exact single fee plus one hop's worth for every hop. */
  lemma ExactFees(groups: seq<seq<Account>>, feeCoins: nat, rate: nat)
    ensures HopCosts(groups, rate) + rate * RawWeight(feeCoins, 1) ==
            rate * RawWeight(InputCount(Flatten(groups)) + feeCoins, |Flatten(groups)| + 1) +
            |groups| * (rate * RawWeight(1, 1))
  {
    HopCostsAre(groups, rate);
    HopWeightsAre(groups);
    ExactArithmetic(rate, HopWeights(groups), RawWeight(feeCoins, 1),
                    RawWeight(InputCount(Flatten(groups)) + feeCoins, |Flatten(groups)| + 1),
                    RawWeight(1, 1), |groups|);
  }

  lemma ExactArithmetic(rate: int, hops: int, last: int, single: int, hop: int, n: int)
    requires hops + last == single + hop * n
    ensures rate * hops + rate * last == rate * single + n * (rate * hop)
  {
    Distributes(rate, hops, last);
    Distributes(rate, single, hop * n);
    assert rate * (hop * n) == n * (rate * hop);
  }

  /** Rounding up `n + 1` parts instead of the whole adds less than `n` satoshi, and no less than nothing. */
  lemma RoundingArithmetic(n: nat, hops: int, last: int, single: int, hop: int,
                           hopFees: int, lastFee: int, singleFee: int, hopFee: int)
    requires hops + last == single + n * hop && hop >= 0
    requires hops <= 1000 * hopFees <= hops + 999 * n
    requires last <= 1000 * lastFee <= last + 999
    requires single <= 1000 * singleFee <= single + 999
    requires hop <= 1000 * hopFee
    ensures singleFee <= hopFees + lastFee <= singleFee + n * (hopFee + 1)
  {
    assert 0 <= n * hop;
    assert n * hop <= n * (1000 * hopFee) == 1000 * (n * hopFee);
    Distributes(n, hopFee, 1);
  }

  /**
   Batching costs at least the single sweep and, when the single estimate fits 64 bits, at most
   one satoshi and one extra input and output more per hop.
   */
  lemma FeeBounds(funded: seq<Account>, fee: Account, idx: nat, threshold: nat, rate: nat)
    requires FindAccount(idx, funded) == Some(fee) && Extra(idx, funded) == []
    requires forall a :: a in funded ==> a.utxos != []
    ensures var groups := Groups(threshold, NonFee(idx, funded));
            var single, batched := SingleFee(funded, FeeAt(rate)), PreflightFees(groups, fee, FeeAt(rate));
            && single <= batched
            && (Fits(rate, RawWeight(InputCount(funded), |funded|)) ==>
                batched <= single + |groups| * (EstimateFee(1, 1, rate) + 1))
  {
    var groups := Groups(threshold, NonFee(idx, funded));
    var inputs, outputs := InputCount(funded), |funded|;
    FundedCounts(funded, fee, idx, threshold);
    assert SingleFee(funded, FeeAt(rate)) == EstimateFee(inputs, outputs, rate);
    if Fits(rate, RawWeight(inputs, outputs)) {
      FeeBoundsFitting(groups, |fee.utxos|, rate);
    } else {
      EstimateOverflows(inputs, outputs, rate);
    }
  }

  lemma FundedCounts(funded: seq<Account>, fee: Account, idx: nat, threshold: nat)
    requires FindAccount(idx, funded) == Some(fee) && Extra(idx, funded) == []
    ensures var flat := Flatten(Groups(threshold, NonFee(idx, funded)));
            InputCount(funded) == InputCount(flat) + |fee.utxos| && |funded| == |flat| + 1
  {
    var flat := Flatten(Groups(threshold, NonFee(idx, funded)));
    AccountsPartition(funded, fee, idx, threshold);
    assert flat + [fee] + [] == flat + [fee];
    SumPermutation(UtxoCount, funded, flat + [fee]);
    SumConcat(UtxoCount, flat, [fee]);
    SumSingle(UtxoCount, fee);
    assert |multiset(funded)| == |funded| && |multiset(flat + [fee])| == |flat| + 1;
  }

  /** An estimate that does not fit 64 bits is zero. */
  lemma EstimateOverflows(inputs: nat, outputs: nat, rate: nat)
    requires !Fits(rate, RawWeight(inputs, outputs))
    ensures EstimateFee(inputs, outputs, rate) == 0
  {
    if RawWeight(inputs, outputs) >= U64_LIMIT {
      assert EstimateWeight(inputs, outputs) == 0 && rate * 0 == 0;
    }
  }

  lemma FeeBoundsFitting(groups: seq<seq<Account>>, feeCoins: nat, rate: nat)
    requires feeCoins >= 1
    requires Fits(rate, RawWeight(InputCount(Flatten(groups)) + feeCoins, |Flatten(groups)| + 1))
    ensures var single := EstimateFee(InputCount(Flatten(groups)) + feeCoins, |Flatten(groups)| + 1, rate);
            var batched := HopFees(groups, FeeAt(rate)) + EstimateFee(feeCoins, 1, rate);
            single <= batched <= single + |groups| * (EstimateFee(1, 1, rate) + 1)
  {
    var hops, last, single, hop := ExactParts(groups, feeCoins, rate);
    RoundingArithmetic(|groups|, hops, last, single, hop, HopFees(groups, FeeAt(rate)), EstimateFee(feeCoins, 1, rate),
                       EstimateFee(InputCount(Flatten(groups)) + feeCoins, |Flatten(groups)| + 1, rate),
                       EstimateFee(1, 1, rate));
  }

  /**
   The exact fees behind the estimates: of the hops, the last transaction, the single sweep, and
   one input and output.
   */
  lemma ExactParts(groups: seq<seq<Account>>, feeCoins: nat, rate: nat)
      returns (hops: int, last: int, single: int, hop: int)
    requires feeCoins >= 1
    requires Fits(rate, RawWeight(InputCount(Flatten(groups)) + feeCoins, |Flatten(groups)| + 1))
    ensures hops + last == single + |groups| * hop && hop >= 0
    ensures hops <= 1000 * HopFees(groups, FeeAt(rate)) <= hops + 999 * |groups|
    ensures last <= 1000 * EstimateFee(feeCoins, 1, rate) <= last + 999
    ensures single <= 1000 * EstimateFee(InputCount(Flatten(groups)) + feeCoins, |Flatten(groups)| + 1, rate) <=
            single + 999
    ensures hop <= 1000 * EstimateFee(1, 1, rate)
  {
    var n, m := InputCount(Flatten(groups)) + feeCoins, |Flatten(groups)| + 1;
    GroupFitsFlat(groups);
    HopFeesRoundUp(groups, rate, RawWeight(n, m));
    ExactFees(groups, feeCoins, rate);
    hops := HopCosts(groups, rate);
    last := ExactEstimate(feeCoins, 1, rate, RawWeight(n, m));
    single := ExactEstimate(n, m, rate, RawWeight(n, m));
    hop := ExactEstimate(1, 1, rate, RawWeight(n, m));
  }

  lemma ExactEstimate(inputs: nat, outputs: nat, rate: nat, bound: nat) returns (exact: int)
    requires Fits(rate, bound) && RawWeight(inputs, outputs) <= bound
    ensures exact == rate * RawWeight(inputs, outputs) >= 0
    ensures exact <= 1000 * EstimateFee(inputs, outputs, rate) <= exact + 999
  {
    FitsSmaller(rate, bound, RawWeight(inputs, outputs));
    EstimateRoundsUp(inputs, outputs, rate);
    exact := rate * RawWeight(inputs, outputs);
  }

  const OVERFLOWING_RATE: nat := 0x20_0000_0000_0000

  function OneCoin(idx: nat): Account { Account(idx, [Utxo(OutPoint(idx + 1, 0), 100000)], "account") }

  /**
   When the single estimate overflows it is zero, and the upper bound can fail: a fee account and
   three customers, each with one coin, and each customer large.
   */
  lemma UpperBoundNeedsFit()
    ensures var funded, rate := [OneCoin(0), OneCoin(1), OneCoin(2), OneCoin(3)], OVERFLOWING_RATE;
            var groups := Groups(0, NonFee(0, funded));
            var single, batched := SingleFee(funded, FeeAt(rate)), PreflightFees(groups, OneCoin(0), FeeAt(rate));
            && Funded(funded) == funded && FindAccount(0, funded) == Some(OneCoin(0)) && Extra(0, funded) == []
            && !Fits(rate, RawWeight(InputCount(funded), |funded|)) && single == 0
            && batched > single + |groups| * (EstimateFee(1, 1, rate) + 1)
  {
    FourAccounts();
    FourAccountFees(FeeAt(OVERFLOWING_RATE));
    OverflowingEstimates();
  }

  lemma OverflowingEstimates()
    ensures var rate := OVERFLOWING_RATE;
            && !Fits(rate, RawWeight(4, 4)) && EstimateFee(4, 4, rate) == 0
            && 3 * EstimateFee(2, 2, rate) + EstimateFee(1, 1, rate) > 3 * (EstimateFee(1, 1, rate) + 1)
  {
  }

  lemma FourAccountFees(est: FeeEstimate)
    ensures var funded := [OneCoin(0), OneCoin(1), OneCoin(2), OneCoin(3)];
            var groups := Groups(0, NonFee(0, funded));
            && InputCount(funded) == 4 && |groups| == 3 && SingleFee(funded, est) == est(4, 4)
            && PreflightFees(groups, OneCoin(0), est) == 3 * est(2, 2) + est(1, 1)
  {
    FourAccounts();
    ThreeHops(est);
    LargeFeesSum([OneCoin(1), OneCoin(2), OneCoin(3)], est);
  }

  lemma FourAccounts()
    ensures var funded := [OneCoin(0), OneCoin(1), OneCoin(2), OneCoin(3)];
            var customers := [OneCoin(1), OneCoin(2), OneCoin(3)];
            && Funded(funded) == funded && FindAccount(0, funded) == Some(OneCoin(0)) && Extra(0, funded) == []
            && NonFee(0, funded) == customers && Groups(0, customers) == Map(Singleton, customers)
            && InputCount(funded) == InputCount(customers) + 1
  {
    var customers := [OneCoin(1), OneCoin(2), OneCoin(3)];
    assert [OneCoin(0), OneCoin(1), OneCoin(2), OneCoin(3)] == [OneCoin(0)] + customers;
    CustomersFilter();
    FilterPrepend(HasUtxos(), OneCoin(0), customers);
    FilterPrepend(IsFeeAccount(0), OneCoin(0), customers);
    FilterPrepend(Negate(IsFeeAccount(0)), OneCoin(0), customers);
    SumConcat(UtxoCount, [OneCoin(0)], customers);
    SumSingle(UtxoCount, OneCoin(0));
  }

  lemma CustomersFilter()
    ensures var customers := [OneCoin(1), OneCoin(2), OneCoin(3)];
            && Filter(HasUtxos(), customers) == customers && Filter(IsFeeAccount(0), customers) == []
            && Filter(Negate(IsFeeAccount(0)), customers) == customers
            && Groups(0, customers) == Map(Singleton, customers) && |Groups(0, customers)| == 3
  {
    var customers := [OneCoin(1), OneCoin(2), OneCoin(3)];
    FilterAll(HasUtxos(), customers);
    FilterNone(IsFeeAccount(0), customers);
    FilterAll(Negate(IsFeeAccount(0)), customers);
    FilterAll(AtLeast(0), customers);
    FilterNone(Negate(AtLeast(0)), customers);
    assert Map(Singleton, customers) + [] == Map(Singleton, customers);
  }

  lemma {:induction false} FilterAll<T>(p: T -> bool, xs: seq<T>)
    requires forall i :: 0 <= i < |xs| ==> p(xs[i])
    ensures Filter(p, xs) == xs
  {
    if xs != [] {
      FilterAll(p, xs[1..]);
    }
  }

  lemma {:induction false} FilterNone<T>(p: T -> bool, xs: seq<T>)
    requires forall i :: 0 <= i < |xs| ==> !p(xs[i])
    ensures Filter(p, xs) == []
  {
    if xs != [] {
      FilterNone(p, xs[1..]);
    }
  }

  lemma ThreeHops(est: FeeEstimate)
    ensures var customers := [OneCoin(1), OneCoin(2), OneCoin(3)];
            Sum(LargeFee(est), customers) == 3 * est(2, 2) && InputCount(customers) == 3
  {
    var rest := [OneCoin(2), OneCoin(3)];
    var customers := [OneCoin(1)] + rest;
    assert customers == [OneCoin(1), OneCoin(2), OneCoin(3)] && rest == [OneCoin(2)] + [OneCoin(3)];
    SumConcat(LargeFee(est), [OneCoin(1)], rest);
    SumConcat(LargeFee(est), [OneCoin(2)], [OneCoin(3)]);
    SumConcat(UtxoCount, [OneCoin(1)], rest);
    SumConcat(UtxoCount, [OneCoin(2)], [OneCoin(3)]);
    forall idx: nat ensures Sum(LargeFee(est), [OneCoin(idx)]) == est(2, 2) && Sum(UtxoCount, [OneCoin(idx)]) == 1 {
      SumSingle(LargeFee(est), OneCoin(idx));
      SumSingle(UtxoCount, OneCoin(idx));
    }
  }

  /** Both totals ignore the order of the accounts. */
  lemma TotalsIgnoreOrder(accounts: seq<Account>, other: seq<Account>, idx: nat, threshold: nat, est: FeeEstimate)
    requires multiset(accounts) == multiset(other)
    requires |Filter(IsFeeAccount(idx), Funded(accounts))| == 1
    ensures var funded, funded' := Funded(accounts), Funded(other);
            var found := FindAccount(idx, funded);
            && SingleFee(funded, est) == SingleFee(funded', est)
            && found.Some? && FindAccount(idx, funded') == found
            && PreflightFees(Groups(threshold, NonFee(idx, funded)), found.value, est) ==
               PreflightFees(Groups(threshold, NonFee(idx, funded')), found.value, est)
  {
    var funded, funded' := Funded(accounts), Funded(other);
    FilterPermutation(HasUtxos(), accounts, other);
    SumPermutation(UtxoCount, funded, funded');
    assert |multiset(funded)| == |funded| && |multiset(funded')| == |funded'|;
    SameOnlyFeeAccount(funded, funded', idx);
    FilterPermutation(Negate(IsFeeAccount(idx)), funded, funded');
    HopFeesIgnoreOrder(NonFee(idx, funded), NonFee(idx, funded'), threshold, est);
  }

  lemma SameOnlyFeeAccount(funded: seq<Account>, funded': seq<Account>, idx: nat)
    requires multiset(funded) == multiset(funded') && |Filter(IsFeeAccount(idx), funded)| == 1
    ensures FindAccount(idx, funded).Some? && FindAccount(idx, funded') == FindAccount(idx, funded)
  {
    var fees, fees' := Filter(IsFeeAccount(idx), funded), Filter(IsFeeAccount(idx), funded');
    FindIsFirst(idx, funded);
    FindIsFirst(idx, funded');
    FilterPermutation(IsFeeAccount(idx), funded, funded');
    assert |multiset(fees)| == |fees| && |multiset(fees')| == |fees'|;
    assert fees'[0] in multiset(fees);
  }

  lemma HopFeesIgnoreOrder(nonFee: seq<Account>, other: seq<Account>, threshold: nat, est: FeeEstimate)
    requires multiset(nonFee) == multiset(other)
    ensures HopFees(Groups(threshold, nonFee), est) == HopFees(Groups(threshold, other), est)
  {
    FilterPermutation(AtLeast(threshold), nonFee, other);
    FilterPermutation(Negate(AtLeast(threshold)), nonFee, other);
    HopFeesOfGroups(threshold, nonFee, est);
    HopFeesOfGroups(threshold, other, est);
    SumPermutation(LargeFee(est), Filter(AtLeast(threshold), nonFee), Filter(AtLeast(threshold), other));
    BundleFeePermutation(Filter(Negate(AtLeast(threshold)), nonFee), Filter(Negate(AtLeast(threshold)), other), est);
  }

  function BundleFee(small: seq<Account>, est: FeeEstimate): nat {
    if small == [] then 0 else HopFee(small, est)
  }

  lemma BundleFeePermutation(small: seq<Account>, other: seq<Account>, est: FeeEstimate)
    requires multiset(small) == multiset(other)
    ensures BundleFee(small, est) == BundleFee(other, est)
  {
    SumPermutation(UtxoCount, small, other);
    assert |multiset(small)| == |small| && |multiset(other)| == |other|;
  }

  lemma HopFeesOfGroups(threshold: nat, nonFee: seq<Account>, est: FeeEstimate)
    ensures HopFees(Groups(threshold, nonFee), est) ==
            Sum(LargeFee(est), Filter(AtLeast(threshold), nonFee)) +
            BundleFee(Filter(Negate(AtLeast(threshold)), nonFee), est)
  {
    var large, small := Filter(AtLeast(threshold), nonFee), Filter(Negate(AtLeast(threshold)), nonFee);
    HopFeesConcat(Map(Singleton, large), Bundle(small), est);
    LargeFeesSum(large, est);
    assert HopFees([small], est) == HopFee(small, est) + HopFees([], est) by {
      assert [small][1..] == [];
    }
  }

  function LargeFee(est: FeeEstimate): Account -> nat {
    (a: Account) => HopFee([a], est)
  }

  lemma {:induction false} LargeFeesSum(large: seq<Account>, est: FeeEstimate)
    ensures HopFees(Map(Singleton, large), est) == Sum(LargeFee(est), large)
  {
    if large != [] {
      LargeFeesSum(large[1..], est);
      assert Map(Singleton, large)[1..] == Map(Singleton, large[1..]);
    }
  }
}
