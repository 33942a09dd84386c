/**
 Who is paid what by the sweep plans, said of the accounts' own fields: index, destination and
 the values of their coins.
 */
module SweepPayments {
  import opened Seqs
  import opened Networks
  import opened SweepPlanner
  import opened SweepGuarantees
  import opened SweepTheorems

  function CoinSum(us: seq<Utxo>): nat {
    if us == [] then 0 else us[0].value + CoinSum(us[1..])
  }

  lemma {:induction false} CoinSumIs(us: seq<Utxo>)
    ensures Sum(UtxoValue, us) == CoinSum(us)
  {
    if us != [] {
      CoinSumIs(us[1..]);
    }
  }

  /** How many of the accounts hold coins, do not pay the fees, and have this index, destination and balance. */
  function Payees(accounts: seq<Account>, feeIdx: nat, idx: nat, address: Address, amount: nat): nat {
    if accounts == [] then 0
    else
      var a := accounts[0];
      (if a.utxos != [] && a.idx != feeIdx && a.idx == idx && a.destination == address && CoinSum(a.utxos) == amount
       then 1 else 0) + Payees(accounts[1..], feeIdx, idx, address, amount)
  }

  /** How many of the accounts hold coins, pay the fees and have this balance. */
  function Payers(accounts: seq<Account>, feeIdx: nat, amount: nat): nat {
    if accounts == [] then 0
    else
      var a := accounts[0];
      (if a.utxos != [] && a.idx == feeIdx && CoinSum(a.utxos) == amount then 1 else 0) +
      Payers(accounts[1..], feeIdx, amount)
  }

  // ----- The batched plan -----

  lemma {:induction false} PayeesCounted(accounts: seq<Account>, feeIdx: nat, idx: nat, address: Address, amount: nat)
    ensures multiset(Map(CustomerOutput, NonFee(feeIdx, Funded(accounts))))[Customer(idx, address, amount)] ==
            Payees(accounts, feeIdx, idx, address, amount)
  {
    if accounts != [] {
      var a, rest := accounts[0], NonFee(feeIdx, Funded(accounts[1..]));
      PayeesCounted(accounts[1..], feeIdx, idx, address, amount);
      CoinSumIs(a.utxos);
      FilterPrepend(Negate(IsFeeAccount(feeIdx)), a, Funded(accounts[1..]));
      MapCons(CustomerOutput, [a] + rest);
      assert ([a] + rest)[1..] == rest;
    }
  }

  function Outputs(txs: seq<SweepTransaction>): multiset<Output> {
    if txs == [] then multiset{} else multiset(txs[0].outputs) + Outputs(txs[1..])
  }

  lemma {:induction false} CustomersAmongOutputs(os: seq<Output>, o: Output)
    requires o.Customer?
    ensures multiset(Filter(Negate(IsChange()), os))[o] == multiset(os)[o]
  {
    if os != [] {
      CustomersAmongOutputs(os[1..], o);
      FilterPrepend(Negate(IsChange()), os[0], os[1..]);
      assert os == [os[0]] + os[1..];
    }
  }

  lemma {:induction false} CustomersCounted(txs: seq<SweepTransaction>, o: Output)
    requires o.Customer?
    ensures multiset(Customers(txs))[o] == Outputs(txs)[o]
  {
    if txs != [] {
      CustomersCounted(txs[1..], o);
      CustomersAmongOutputs(txs[0].outputs, o);
      assert Map(CustomersOf, txs)[1..] == Map(CustomersOf, txs[1..]);
      assert Customers(txs) == CustomersOf(txs[0]) + Customers(txs[1..]);
    }
  }

  /**
   Whatever index, address and amount: the batched plan has as many such customer outputs as there
   are accounts with coins, other than the fee accounts, with this index, destination and balance.
   */
  lemma BatchedPayments(accounts: seq<Account>, terms: Terms, threshold: nat, funded: seq<Account>, fee: Account,
                        groups: seq<seq<Account>>, idx: nat, address: Address, amount: nat)
    requires Plans(accounts, terms, threshold, funded, fee, groups)
    ensures Outputs(ChainPlan(groups, fee, terms).transactions)[Customer(idx, address, amount)] ==
            Payees(accounts, terms.feeIdx, idx, address, amount)
  {
    CustomersPaidInFull(accounts, terms, threshold, funded, fee, groups);
    CustomersCounted(ChainPlan(groups, fee, terms).transactions, Customer(idx, address, amount));
    PayeesCounted(accounts, terms.feeIdx, idx, address, amount);
  }

  /** An account has a hop of its own exactly from the threshold on; the others share the last hop. */
  lemma GroupsSplit(threshold: nat, nonFee: seq<Account>, i: nat)
    requires i < |Groups(threshold, nonFee)|
    ensures var groups := Groups(threshold, nonFee);
            || (|groups[i]| == 1 && CoinSum(groups[i][0].utxos) >= threshold)
            || (i == |groups| - 1 && groups[i] != [] && forall a :: a in groups[i] ==> CoinSum(a.utxos) < threshold)
  {
    var large, small := Filter(AtLeast(threshold), nonFee), Filter(Negate(AtLeast(threshold)), nonFee);
    FilterMembers(AtLeast(threshold), nonFee);
    FilterMembers(Negate(AtLeast(threshold)), nonFee);
    if i < |large| {
      CoinSumIs(large[i].utxos);
      assert large[i] in large;
    } else {
      forall a | a in small ensures CoinSum(a.utxos) < threshold {
        CoinSumIs(a.utxos);
      }
    }
  }

  /** Large accounts keep their order, and so do small ones. */
  lemma GroupsInOrder(threshold: nat, nonFee: seq<Account>)
    ensures Flatten(Groups(threshold, nonFee)) ==
            Filter((a: Account) => CoinSum(a.utxos) >= threshold, nonFee) +
            Filter((a: Account) => CoinSum(a.utxos) < threshold, nonFee)
  {
    var large, small := Filter(AtLeast(threshold), nonFee), Filter(Negate(AtLeast(threshold)), nonFee);
    FlattenConcat(Map(Singleton, large), Bundle(small));
    SingletonsFlatten(large);
    FlattenSingle(small);
    assert Flatten(Bundle(small)) == small;
    forall a: Account ensures TotalValue(a) == CoinSum(a.utxos) {
      CoinSumIs(a.utxos);
    }
    SameFilter(AtLeast(threshold), (a: Account) => CoinSum(a.utxos) >= threshold, nonFee);
    SameFilter(Negate(AtLeast(threshold)), (a: Account) => CoinSum(a.utxos) < threshold, nonFee);
  }

  lemma {:induction false} SameFilter<T(!new)>(p: T -> bool, q: T -> bool, xs: seq<T>)
    requires forall x :: p(x) <==> q(x)
    ensures Filter(p, xs) == Filter(q, xs)
  {
    if xs != [] {
      SameFilter(p, q, xs[1..]);
    }
  }

  /** Each account of the group is paid its balance at its destination, in order; then one change of the fee account. */
  ghost predicate PaysGroup(outputs: seq<Output>, g: seq<Account>, feeIdx: nat, change: int) {
    && |outputs| == |g| + 1
    && (forall j :: 0 <= j < |g| ==> outputs[j] == Customer(g[j].idx, g[j].destination, CoinSum(g[j].utxos)))
    && outputs[|g|].FeeChange? && outputs[|g|].accountIdx == feeIdx && outputs[|g|].amount == change
  }

  lemma HopPaysGroup(g: seq<Account>, coin: Utxo, terms: Terms)
    requires HopFee(g, terms.est) <= coin.value
    ensures PaysGroup(Hop(g, coin, terms).outputs, g, terms.feeIdx, coin.value - HopFee(g, terms.est))
  {
    forall j | 0 <= j < |g| ensures CustomerOutput(g[j]) == Customer(g[j].idx, g[j].destination, CoinSum(g[j].utxos)) {
      CoinSumIs(g[j].utxos);
    }
  }

  lemma HopFeesFrom(groups: seq<seq<Account>>, i: nat, est: FeeEstimate)
    requires 0 < i < |groups|
    ensures HopFees(groups[..i + 1], est) == HopFee(groups[0], est) + HopFees(groups[1..][..i], est)
  {
    assert groups[..i + 1][1..] == groups[1..][..i];
  }

  /** Hop `i` pays its group, and gives as change the first fee coin less all the fees up to this hop. */
  lemma {:induction false} HopPayments(groups: seq<seq<Account>>, k: nat, coin: Utxo, terms: Terms, i: nat)
    requires HopFees(groups, terms.est) <= coin.value && i < |groups|
    ensures PaysGroup(Hops(groups, k, coin, terms)[i].outputs, groups[i], terms.feeIdx,
                      coin.value - HopFees(groups[..i + 1], terms.est))
  {
    if i > 0 {
      HopFeesFrom(groups, i, terms.est);
      HopPayments(groups[1..], k + 1, NextCoin(groups[0], k, coin, terms.est), terms, i - 1);
    } else {
      HopPaysGroup(groups[0], coin, terms);
      assert groups[..1] == [groups[0]] && [groups[0]][1..] == [];
    }
  }

  /** The last transaction gives the fee account all its coins back, less every fee of the plan. */
  lemma FinalPayment(groups: seq<seq<Account>>, fee: Account, terms: Terms)
    requires fee.utxos != []
    requires HopFees(groups, terms.est) <= fee.utxos[0].value &&
             PreflightFees(groups, fee, terms.est) <= TotalValue(fee)
    ensures var plan := ChainPlan(groups, fee, terms);
            |plan.transactions| > 0 && CoinSum(fee.utxos) >= plan.totalFees &&
            plan.transactions[|plan.transactions| - 1].outputs ==
              [FeeChange(terms.feeIdx, CoinSum(fee.utxos) - plan.totalFees)]
  {
    CoinSumIs(fee.utxos);
  }

  // ----- The single sweep -----

  /** Every account of the fee index can pay the fee. */
  ghost predicate Covered(funded: seq<Account>, feeIdx: nat, fee: nat) {
    forall a :: a in funded && a.idx == feeIdx ==> fee <= TotalValue(a)
  }

  /** The outputs have as many payments, and changes, of these fields as there are accounts to pay so. */
  ghost predicate Pays(outputs: multiset<Output>, accounts: seq<Account>, feeIdx: nat, fee: nat,
                       idx: nat, address: Address, amount: nat)
  {
    && outputs[Customer(idx, address, amount)] == Payees(accounts, feeIdx, idx, address, amount)
    && outputs[FeeChange(idx, amount)] == if idx == feeIdx then Payers(accounts, idx, amount + fee) else 0
  }

  /**
   The outputs pay each account with coins its balance at its destination, and each fee account its
   balance less the fee, whatever the index, address and amount.
   */
  ghost predicate PaysAccounts(outputs: multiset<Output>, accounts: seq<Account>, feeIdx: nat, fee: nat) {
    forall idx: nat, address, amount: nat :: Pays(outputs, accounts, feeIdx, fee, idx, address, amount)
  }

  /** What one account is paid by the single sweep. */
  lemma SweepOutputIs(terms: Terms, fee: nat, a: Account)
    requires a.idx == terms.feeIdx ==> fee <= TotalValue(a)
    ensures CoinSum(a.utxos) == TotalValue(a)
    ensures SweepOutput(terms, fee)(a) ==
            if a.idx == terms.feeIdx then FeeChange(a.idx, CoinSum(a.utxos) - fee)
            else Customer(a.idx, a.destination, CoinSum(a.utxos))
  {
    CoinSumIs(a.utxos);
  }

  lemma FundedHead(accounts: seq<Account>)
    requires accounts != []
    ensures Funded(accounts) == if accounts[0].utxos != [] then [accounts[0]] + Funded(accounts[1..])
            else Funded(accounts[1..])
  {
  }

  lemma PaysNone(outputs: multiset<Output>, accounts: seq<Account>, feeIdx: nat, fee: nat,
                 idx: nat, address: Address, amount: nat)
    requires accounts != [] && accounts[0].utxos == []
    requires Pays(outputs, accounts[1..], feeIdx, fee, idx, address, amount)
    ensures Pays(outputs, accounts, feeIdx, fee, idx, address, amount)
  {
  }

  lemma PaysOne(rest: multiset<Output>, o: Output, accounts: seq<Account>, feeIdx: nat, fee: nat,
                idx: nat, address: Address, amount: nat)
    requires accounts != [] && accounts[0].utxos != [] &&
             (accounts[0].idx == feeIdx ==> fee <= CoinSum(accounts[0].utxos))
    requires var a := accounts[0];
             o == if a.idx == feeIdx then FeeChange(a.idx, CoinSum(a.utxos) - fee)
                  else Customer(a.idx, a.destination, CoinSum(a.utxos))
    requires Pays(rest, accounts[1..], feeIdx, fee, idx, address, amount)
    ensures Pays(multiset{o} + rest, accounts, feeIdx, fee, idx, address, amount)
  {
  }

  lemma {:induction false} SingleCounted(terms: Terms, fee: nat, accounts: seq<Account>, idx: nat, address: Address,
                                         amount: nat)
    requires Covered(Funded(accounts), terms.feeIdx, fee)
    ensures Pays(multiset(Map(SweepOutput(terms, fee), Funded(accounts))), accounts, terms.feeIdx, fee,
                 idx, address, amount)
  {
    if accounts != [] {
      var a, rest, f := accounts[0], Funded(accounts[1..]), SweepOutput(terms, fee);
      FundedHead(accounts);
      SingleCounted(terms, fee, accounts[1..], idx, address, amount);
      if a.utxos == [] {
        PaysNone(multiset(Map(f, rest)), accounts, terms.feeIdx, fee, idx, address, amount);
      } else {
        assert a in Funded(accounts);
        SweepOutputIs(terms, fee, a);
        MapCons(f, [a] + rest);
        assert ([a] + rest)[1..] == rest;
        PaysOne(multiset(Map(f, rest)), f(a), accounts, terms.feeIdx, fee, idx, address, amount);
      }
    }
  }

  lemma SinglePlanIs(accounts: seq<Account>, oldNetwork: NetworkType, newNetwork: NetworkType, terms: Terms)
    ensures var outcome, fee := SinglePlan(accounts, oldNetwork, newNetwork, terms),
                                SingleFee(Funded(accounts), terms.est);
            outcome.Planned? ==>
              && Covered(Funded(accounts), terms.feeIdx, fee)
              && outcome.plan == MigrationPlan([
                   SweepTransaction(Outpoints(GroupUtxos(Funded(accounts))),
                                    Map(SweepOutput(terms, fee), Funded(accounts)), true)],
                   fee, InputCount(Funded(accounts)))
  {
  }

  lemma OutputsPay(outputs: seq<Output>, terms: Terms, fee: nat, accounts: seq<Account>)
    requires outputs == Map(SweepOutput(terms, fee), Funded(accounts)) && Covered(Funded(accounts), terms.feeIdx, fee)
    ensures PaysAccounts(multiset(outputs), accounts, terms.feeIdx, fee)
  {
    forall idx: nat, address, amount: nat
      ensures Pays(multiset(outputs), accounts, terms.feeIdx, fee, idx, address, amount)
    {
      SingleCounted(terms, fee, accounts, idx, address, amount);
    }
  }

  /** The single sweep is one final transaction that spends every coin, in order, and pays every account. */
  lemma SinglePayments(accounts: seq<Account>, oldNetwork: NetworkType, newNetwork: NetworkType, terms: Terms)
    ensures var outcome := SinglePlan(accounts, oldNetwork, newNetwork, terms);
            outcome.Planned? ==>
              && |outcome.plan.transactions| == 1 && outcome.plan.transactions[0].isFeeFinal
              && outcome.plan.utxoCount == CoinCount(accounts)
              && outcome.plan.transactions[0].sources == Outpoints(GroupUtxos(Funded(accounts)))
              && PaysAccounts(multiset(outcome.plan.transactions[0].outputs), accounts, terms.feeIdx,
                              outcome.plan.totalFees)
  {
    SinglePlanIs(accounts, oldNetwork, newNetwork, terms);
    FundedSize(accounts);
    var outcome := SinglePlan(accounts, oldNetwork, newNetwork, terms);
    if outcome.Planned? {
      OutputsPay(outcome.plan.transactions[0].outputs, terms, outcome.plan.totalFees, accounts);
    }
  }

  function CoinCount(accounts: seq<Account>): nat {
    if accounts == [] then 0 else |accounts[0].utxos| + CoinCount(accounts[1..])
  }

  function FundedCount(accounts: seq<Account>): nat {
    if accounts == [] then 0 else (if accounts[0].utxos == [] then 0 else 1) + FundedCount(accounts[1..])
  }

  lemma {:induction false} FundedSize(accounts: seq<Account>)
    ensures InputCount(Funded(accounts)) == CoinCount(accounts) && |Funded(accounts)| == FundedCount(accounts)
  {
    if accounts != [] {
      FundedSize(accounts[1..]);
      var rest := Funded(accounts[1..]);
      assert Funded(accounts) == if accounts[0].utxos != [] then [accounts[0]] + rest else rest;
      assert ([accounts[0]] + rest)[1..] == rest;
    }
  }

  /**
   When the single sweep has started, with `fee` the first funded account of the fee index: it is
   refused when that account cannot pay the estimate for all coins and accounts, it underflows when
   a further one of that index cannot, and is planned otherwise.
   */
  lemma SinglePlanDecides(accounts: seq<Account>, network: NetworkType, terms: Terms)
    requires StartPlan(accounts, network, network, terms).Ready?
    ensures var fee, required := StartPlan(accounts, network, network, terms).fee,
                                 terms.est(CoinCount(accounts), FundedCount(accounts));
            var outcome := SinglePlan(accounts, network, network, terms);
            && (CoinSum(fee.utxos) < required ==>
                  outcome == Refused(InsufficientFeeBalance(terms.feeIdx, CoinSum(fee.utxos), required)))
            && (outcome.Underflow? <==>
                  && CoinSum(fee.utxos) >= required
                  && exists a :: a in accounts && a.utxos != [] && a.idx == terms.feeIdx && CoinSum(a.utxos) < required)
            && (outcome.Planned? <==>
                  forall a :: a in accounts && a.utxos != [] && a.idx == terms.feeIdx ==> CoinSum(a.utxos) >= required)
            && (outcome.Planned? ==> outcome.plan.totalFees == required)
  {
    var fee := StartPlan(accounts, network, network, terms).fee;
    FundedSize(accounts);
    FilterMembers(HasUtxos(), accounts);
    forall a: Account ensures TotalValue(a) == CoinSum(a.utxos) {
      CoinSumIs(a.utxos);
    }
    assert fee in accounts && fee.utxos != [] && fee.idx == terms.feeIdx;
  }
}
