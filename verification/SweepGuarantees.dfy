/**
 What the sweep plans of `SweepPlanner` guarantee.

 `Execute` runs a plan against a ledger of unspent coins: every source must be there, once, the
 inputs must pay the outputs and the estimated fee to the satoshi, and the fee change appears
 under the placeholder of its transaction for a later one to spend.
 */
module SweepGuarantees {
  import opened Seqs
  import opened SweepPlanner

  type Ledger = map<OutPoint, nat>

  function SourceValue(ledger: Ledger, ops: seq<OutPoint>): nat
    requires forall op :: op in ops ==> op in ledger
  {
    if ops == [] then 0 else ledger[ops[0]] + SourceValue(ledger, ops[1..])
  }

  function IsChange(): Output -> bool { (o: Output) => o.FeeChange? }

  function CustomersOf(tx: SweepTransaction): seq<Output> { Filter(Negate(IsChange()), tx.outputs) }
  function Customers(txs: seq<SweepTransaction>): seq<Output> { Flatten(Map(CustomersOf, txs)) }
  function ChangeAmount(tx: SweepTransaction): nat { Sum(AmountOf, Filter(IsChange(), tx.outputs)) }

  ghost predicate CanSpend(ledger: Ledger, tx: SweepTransaction, est: FeeEstimate) {
    && NoDup(tx.sources)
    && (forall op :: op in tx.sources ==> op in ledger)
    && SourceValue(ledger, tx.sources) ==
       Sum(AmountOf, tx.outputs) + est(|tx.sources|, |tx.outputs|)
  }

  function Spend(ledger: Ledger, tx: SweepTransaction, k: nat): Ledger {
    (ledger - (set op | op in tx.sources))[Synthetic(k) := ChangeAmount(tx)]
  }

  ghost function Execute(ledger: Ledger, txs: seq<SweepTransaction>, k: nat, est: FeeEstimate): Option<Ledger>
    decreases txs
  {
    if txs == [] then Some(ledger)
    else if CanSpend(ledger, txs[0], est) then Execute(Spend(ledger, txs[0], k), txs[1..], k + 1, est)
    else None
  }

  function SetOf(us: seq<Utxo>): set<Utxo> { set u | u in us }

  /** The ledger holds exactly the coins `us`. */
  ghost predicate Holds(ledger: Ledger, us: set<Utxo>) {
    && (forall u :: u in us ==> u.outpoint in ledger && ledger[u.outpoint] == u.value)
    && (forall op :: op in ledger ==> exists u :: u in us && u.outpoint == op)
  }

  /** No two coins share an outpoint. */
  ghost predicate Distinct(us: set<Utxo>) {
    forall u, v {:trigger u in us, v in us} :: u in us && v in us && u.outpoint == v.outpoint ==> u == v
  }

  /** Coins that exist on chain: distinct outpoints, none of them a placeholder. */
  ghost predicate RealCoins(us: set<Utxo>) {
    Distinct(us) && forall u :: u in us ==> u.outpoint.txid != ZERO_TXID
  }

  // ----- Coins of groups -----

  lemma {:induction false} GroupUtxosConcat(g: seq<Account>, h: seq<Account>)
    ensures GroupUtxos(g + h) == GroupUtxos(g) + GroupUtxos(h)
  {
    MapConcat(UtxosOf, g, h);
    FlattenConcat(Map(UtxosOf, g), Map(UtxosOf, h));
  }

  lemma {:induction false} GroupUtxosValue(g: seq<Account>)
    ensures Sum(UtxoValue, GroupUtxos(g)) == Sum(TotalValue, g)
  {
    if g != [] {
      GroupUtxosValue(g[1..]);
      assert Map(UtxosOf, g)[1..] == Map(UtxosOf, g[1..]);
      SumConcat(UtxoValue, g[0].utxos, GroupUtxos(g[1..]));
    }
  }

  lemma {:induction false} CustomerOutputsValue(g: seq<Account>)
    ensures Sum(AmountOf, Map(CustomerOutput, g)) == Sum(TotalValue, g)
  {
    if g != [] {
      CustomerOutputsValue(g[1..]);
      assert Map(CustomerOutput, g)[1..] == Map(CustomerOutput, g[1..]);
    }
  }

  lemma {:induction false} SourceValueOfCoins(ledger: Ledger, us: seq<Utxo>)
    requires forall u :: u in us ==> u.outpoint in ledger && ledger[u.outpoint] == u.value
    ensures forall op :: op in Outpoints(us) ==> op in ledger
    ensures SourceValue(ledger, Outpoints(us)) == Sum(UtxoValue, us)
  {
    if us != [] {
      SourceValueOfCoins(ledger, us[1..]);
      assert Outpoints(us)[1..] == Outpoints(us[1..]);
    }
  }

  /** The outputs of a hop: the customers, then one fee change. */
  lemma HopOutputs(g: seq<Account>, change: Output)
    requires change.FeeChange?
    ensures var outputs := Map(CustomerOutput, g) + [change];
            && Filter(IsChange(), outputs) == [change]
            && Filter(Negate(IsChange()), outputs) == Map(CustomerOutput, g)
            && Sum(AmountOf, outputs) == Sum(TotalValue, g) + change.amount
  {
    CustomersOnly(Map(CustomerOutput, g));
    FilterConcat(IsChange(), Map(CustomerOutput, g), [change]);
    FilterConcat(Negate(IsChange()), Map(CustomerOutput, g), [change]);
    CustomerOutputsValue(g);
    SumConcat(AmountOf, Map(CustomerOutput, g), [change]);
    SumSingle(AmountOf, change);
  }

  lemma {:induction false} CustomersOnly(os: seq<Output>)
    requires forall o :: o in os ==> o.Customer?
    ensures Filter(IsChange(), os) == [] && Filter(Negate(IsChange()), os) == os
  {
    if os != [] {
      CustomersOnly(os[1..]);
      assert os == [os[0]] + os[1..];
      assert os[0].Customer? && !IsChange()(os[0]);
    }
  }

  // ----- Running the chain -----

  /** A transaction that spends the coins `spent` leaves `kept` and its own change. */
  lemma SpendStep(ledger: Ledger, spent: seq<Utxo>, kept: set<Utxo>, tx: SweepTransaction, k: nat, est: FeeEstimate,
                  change: Utxo)
    requires change == Utxo(Synthetic(k), ChangeAmount(tx))
    requires Holds(ledger, SetOf(spent) + kept)
    requires NoDup(spent) && SetOf(spent) !! kept && Distinct(SetOf(spent) + kept)
    requires RealCoins(kept)
    requires tx.sources == Outpoints(spent)
    requires Sum(UtxoValue, spent) == Sum(AmountOf, tx.outputs) + est(|tx.sources|, |tx.outputs|)
    ensures CanSpend(ledger, tx, est)
    ensures Holds(Spend(ledger, tx, k), {change} + kept)
  {
    forall i, j | 0 <= i < j < |spent| ensures tx.sources[i] != tx.sources[j] {
      assert spent[i] in SetOf(spent) && spent[j] in SetOf(spent);
    }
    forall u | u in spent ensures u.outpoint in ledger && ledger[u.outpoint] == u.value {
      assert u in SetOf(spent);
    }
    SourceValueOfCoins(ledger, spent);
    var after := Spend(ledger, tx, k);
    forall u | u in kept ensures u.outpoint in after && after[u.outpoint] == u.value {
      forall i | 0 <= i < |spent| ensures tx.sources[i] != u.outpoint {
        assert spent[i] in SetOf(spent);
      }
    }
    forall op | op in after && op != Synthetic(k) ensures exists u :: u in kept && u.outpoint == op {
      var u :| u in SetOf(spent) + kept && u.outpoint == op;
    }
    assert change in {change} + kept;
  }

  /** The coins a chain of `groups` spends besides the fee coin, and those it must leave alone. */
  ghost predicate Apart(us: seq<Utxo>, coin: Utxo, kept: set<Utxo>) {
    && NoDup(us) && SetOf(us) !! kept
    && RealCoins(SetOf(us) + kept)
    && forall u :: u in SetOf(us) + kept ==> u.outpoint != coin.outpoint
  }

  lemma ApartSplits(us: seq<Utxo>, vs: seq<Utxo>, coin: Utxo, kept: set<Utxo>, k: nat)
    requires Apart(us + vs, coin, kept)
    ensures SetOf(us + vs) + kept == SetOf(us) + (SetOf(vs) + kept)
    ensures Apart(us, coin, SetOf(vs) + kept)
    ensures forall c: Utxo :: c.outpoint == Synthetic(k) ==> Apart(vs, c, kept)
  {
    assert forall i :: 0 <= i < |us| ==> (us + vs)[i] == us[i];
    assert forall i :: 0 <= i < |vs| ==> (us + vs)[|us| + i] == vs[i];
  }

  lemma CoinsWithLast(us: seq<Utxo>, last: Utxo)
    ensures Outpoints(us + [last]) == Outpoints(us) + [last.outpoint]
    ensures Sum(UtxoValue, us + [last]) == Sum(UtxoValue, us) + last.value
  {
    SumConcat(UtxoValue, us, [last]);
    SumSingle(UtxoValue, last);
  }

  lemma HopSize(g: seq<Account>, coin: Utxo, terms: Terms)
    requires HopFee(g, terms.est) <= coin.value
    ensures |Hop(g, coin, terms).sources| == InputCount(g) + 1
    ensures |Hop(g, coin, terms).outputs| == |g| + 1
  {
    GroupUtxosCount(g);
  }

  /** What a hop pays: its customers in full, and the rest of the fee coin, less the fee, as change. */
  lemma HopPays(g: seq<Account>, coin: Utxo, terms: Terms)
    requires HopFee(g, terms.est) <= coin.value
    ensures ChangeAmount(Hop(g, coin, terms)) == coin.value - HopFee(g, terms.est)
    ensures CustomersOf(Hop(g, coin, terms)) == Map(CustomerOutput, g)
    ensures Sum(AmountOf, Hop(g, coin, terms).outputs) == Sum(TotalValue, g) + coin.value - HopFee(g, terms.est)
  {
    HopOutputs(g, FeeChange(terms.feeIdx, coin.value - HopFee(g, terms.est)));
    SumSingle(AmountOf, FeeChange(terms.feeIdx, coin.value - HopFee(g, terms.est)));
  }

  /** A hop pays its customers, its fee, and leaves the next fee coin. */
  lemma HopSpends(ledger: Ledger, g: seq<Account>, k: nat, coin: Utxo, kept: set<Utxo>, terms: Terms)
    requires HopFee(g, terms.est) <= coin.value
    requires Apart(GroupUtxos(g), coin, kept)
    requires Holds(ledger, {coin} + (SetOf(GroupUtxos(g)) + kept))
    ensures CanSpend(ledger, Hop(g, coin, terms), terms.est)
    ensures Holds(Spend(ledger, Hop(g, coin, terms), k), {NextCoin(g, k, coin, terms.est)} + kept)
  {
    var us := GroupUtxos(g);
    var spent := us + [coin];
    assert SetOf(spent) + kept == {coin} + (SetOf(us) + kept);
    assert coin !in SetOf(us);
    CoinsWithLast(us, coin);
    GroupUtxosValue(g);
    HopPays(g, coin, terms);
    HopSize(g, coin, terms);
    SpendStep(ledger, spent, kept, Hop(g, coin, terms), k, terms.est, NextCoin(g, k, coin, terms.est));
  }

  lemma ExecuteStep(ledger: Ledger, tx: SweepTransaction, txs: seq<SweepTransaction>, k: nat, est: FeeEstimate)
    requires CanSpend(ledger, tx, est)
    ensures Execute(ledger, [tx] + txs, k, est) == Execute(Spend(ledger, tx, k), txs, k + 1, est)
  {
    assert ([tx] + txs)[1..] == txs;
  }

  /** Running one more transaction after a run. */
  lemma {:induction false} ExecuteThen(ledger: Ledger, txs: seq<SweepTransaction>, k: nat, est: FeeEstimate,
                                       mid: Ledger, tx: SweepTransaction)
    requires Execute(ledger, txs, k, est) == Some(mid) && CanSpend(mid, tx, est)
    ensures Execute(ledger, txs + [tx], k, est) == Some(Spend(mid, tx, k + |txs|))
    decreases txs
  {
    if txs == [] {
      assert txs + [tx] == [tx] + [];
      ExecuteStep(ledger, tx, [], k, est);
    } else {
      var next := Spend(ledger, txs[0], k);
      ExecuteThen(next, txs[1..], k + 1, est, mid, tx);
      ExecuteStep(ledger, txs[0], txs[1..] + [tx], k, est);
      assert txs + [tx] == [txs[0]] + (txs[1..] + [tx]);
    }
  }

  /** The hops run one after the other; `kept` stays untouched. */
  lemma {:induction false} HopsExecute(ledger: Ledger, groups: seq<seq<Account>>, k: nat, coin: Utxo, kept: set<Utxo>,
                                       terms: Terms)
    returns (after: Ledger)
    requires HopFees(groups, terms.est) <= coin.value
    requires Apart(GroupUtxos(Flatten(groups)), coin, kept)
    requires Holds(ledger, {coin} + (SetOf(GroupUtxos(Flatten(groups))) + kept))
    ensures Holds(after, {FeeCoinAfter(groups, k, coin, terms.est)} + kept)
    ensures Execute(ledger, Hops(groups, k, coin, terms), k, terms.est) == Some(after)
    decreases groups
  {
    if groups == [] {
      assert {coin} + (SetOf(GroupUtxos(Flatten(groups))) + kept) == {coin} + kept;
      after := ledger;
    } else {
      var g, later := groups[0], GroupUtxos(Flatten(groups[1..]));
      GroupUtxosConcat(g, Flatten(groups[1..]));
      ApartSplits(GroupUtxos(g), later, coin, kept, k);
      HopSpends(ledger, g, k, coin, SetOf(later) + kept, terms);
      var next, tx := NextCoin(g, k, coin, terms.est), Hop(g, coin, terms);
      after := HopsExecute(Spend(ledger, tx, k), groups[1..], k + 1, next, kept, terms);
      ExecuteStep(ledger, tx, Hops(groups[1..], k + 1, next, terms), k, terms.est);
    }
  }

  /** All the coins of a chain: those of its groups, and the fee account's. */
  function ChainCoins(groups: seq<seq<Account>>, fee: Account): seq<Utxo> {
    GroupUtxos(Flatten(groups)) + fee.utxos
  }

  /**
   A planned chain runs to its end on any ledger that has its coins: each source is spent once, in
   a state that holds it, and nothing is left of those coins but the final fee change.
   */
  lemma ChainExecutes(ledger: Ledger, groups: seq<seq<Account>>, fee: Account, others: set<Utxo>, terms: Terms)
    returns (after: Ledger)
    requires fee.utxos != [] && HopFees(groups, terms.est) <= fee.utxos[0].value
    requires PreflightFees(groups, fee, terms.est) <= TotalValue(fee)
    requires NoDup(ChainCoins(groups, fee)) && SetOf(ChainCoins(groups, fee)) !! others
    requires RealCoins(SetOf(ChainCoins(groups, fee)) + others)
    requires Holds(ledger, SetOf(ChainCoins(groups, fee)) + others)
    ensures Execute(ledger, ChainPlan(groups, fee, terms).transactions, 0, terms.est) == Some(after)
    ensures Holds(after, {FinalCoin(groups, fee, terms.est)} + others)
  {
    var mid;
    mid, after := ChainSteps(ledger, groups, fee, others, terms);
    ChainEnds(ledger, groups, fee, terms, mid);
  }

  lemma ChainEnds(ledger: Ledger, groups: seq<seq<Account>>, fee: Account, terms: Terms, mid: Ledger)
    requires fee.utxos != [] && HopFees(groups, terms.est) <= fee.utxos[0].value
    requires PreflightFees(groups, fee, terms.est) <= TotalValue(fee)
    requires Execute(ledger, Hops(groups, 0, fee.utxos[0], terms), 0, terms.est) == Some(mid)
    requires CanSpend(mid, FinalTx(groups, fee, terms), terms.est)
    ensures Execute(ledger, ChainPlan(groups, fee, terms).transactions, 0, terms.est) ==
            Some(Spend(mid, FinalTx(groups, fee, terms), |groups|))
  {
    ExecuteThen(ledger, Hops(groups, 0, fee.utxos[0], terms), 0, terms.est, mid, FinalTx(groups, fee, terms));
  }

  lemma ChainSteps(ledger: Ledger, groups: seq<seq<Account>>, fee: Account, others: set<Utxo>, terms: Terms)
    returns (mid: Ledger, after: Ledger)
    requires fee.utxos != [] && HopFees(groups, terms.est) <= fee.utxos[0].value
    requires PreflightFees(groups, fee, terms.est) <= TotalValue(fee)
    requires NoDup(ChainCoins(groups, fee)) && SetOf(ChainCoins(groups, fee)) !! others
    requires RealCoins(SetOf(ChainCoins(groups, fee)) + others)
    requires Holds(ledger, SetOf(ChainCoins(groups, fee)) + others)
    ensures Execute(ledger, Hops(groups, 0, fee.utxos[0], terms), 0, terms.est) == Some(mid)
    ensures CanSpend(mid, FinalTx(groups, fee, terms), terms.est)
    ensures after == Spend(mid, FinalTx(groups, fee, terms), |groups|)
    ensures Holds(after, {FinalCoin(groups, fee, terms.est)} + others)
  {
    mid := HopsRun(ledger, groups, fee, others, terms);
    after := Spend(mid, FinalTx(groups, fee, terms), |groups|);
    FinalSpends(mid, groups, fee, others, terms);
  }

  /** The part of the run before the last transaction. */
  lemma HopsRun(ledger: Ledger, groups: seq<seq<Account>>, fee: Account, others: set<Utxo>, terms: Terms)
    returns (mid: Ledger)
    requires fee.utxos != [] && HopFees(groups, terms.est) <= fee.utxos[0].value
    requires NoDup(ChainCoins(groups, fee)) && SetOf(ChainCoins(groups, fee)) !! others
    requires RealCoins(SetOf(ChainCoins(groups, fee)) + others)
    requires Holds(ledger, SetOf(ChainCoins(groups, fee)) + others)
    ensures Execute(ledger, Hops(groups, 0, fee.utxos[0], terms), 0, terms.est) == Some(mid)
    ensures Holds(mid, {FeeCoinAfter(groups, 0, fee.utxos[0], terms.est)} + (SetOf(fee.utxos[1..]) + others))
    ensures NoDup(fee.utxos) && SetOf(fee.utxos) !! others && RealCoins(SetOf(fee.utxos) + others)
  {
    FeeCoinApart(GroupUtxos(Flatten(groups)), fee.utxos, others);
    mid := HopsExecute(ledger, groups, 0, fee.utxos[0], SetOf(fee.utxos[1..]) + others, terms);
  }

  /** The first fee coin is apart from the customers' coins and from the other fee coins. */
  lemma FeeCoinApart(us: seq<Utxo>, fees: seq<Utxo>, others: set<Utxo>)
    requires fees != [] && NoDup(us + fees) && SetOf(us + fees) !! others
    requires RealCoins(SetOf(us + fees) + others)
    ensures Apart(us, fees[0], SetOf(fees[1..]) + others)
    ensures SetOf(us + fees) + others == {fees[0]} + (SetOf(us) + (SetOf(fees[1..]) + others))
    ensures NoDup(fees) && SetOf(fees) !! others && RealCoins(SetOf(fees) + others)
  {
    assert forall i :: 0 <= i < |us| ==> (us + fees)[i] == us[i];
    assert forall i :: 0 <= i < |fees| ==> (us + fees)[|us| + i] == fees[i];
    assert fees == [fees[0]] + fees[1..];
    assert SetOf(us + fees) == SetOf(us) + SetOf(fees);
    assert SetOf(fees) == {fees[0]} + SetOf(fees[1..]);
    forall u | u in SetOf(us) + (SetOf(fees[1..]) + others) ensures u.outpoint != fees[0].outpoint {
      assert u in SetOf(us + fees) + others && fees[0] in SetOf(us + fees) + others;
    }
  }

  /** The one coin a finished chain leaves: the fee account's remainder. */
  function FinalCoin(groups: seq<seq<Account>>, fee: Account, est: FeeEstimate): Utxo
    requires PreflightFees(groups, fee, est) <= TotalValue(fee)
  {
    Utxo(Synthetic(|groups|), TotalValue(fee) - PreflightFees(groups, fee, est))
  }

  /** The coins the last transaction spends. */
  function FinalCoins(groups: seq<seq<Account>>, fee: Account, est: FeeEstimate): seq<Utxo>
    requires fee.utxos != [] && HopFees(groups, est) <= fee.utxos[0].value
  {
    if groups == [] then fee.utxos else fee.utxos[1..] + [FeeCoinAfter(groups, 0, fee.utxos[0], est)]
  }

  lemma FinalPays(groups: seq<seq<Account>>, fee: Account, terms: Terms)
    requires fee.utxos != [] && PreflightFees(groups, fee, terms.est) <= TotalValue(fee)
    ensures var tx, change := FinalTx(groups, fee, terms), TotalValue(fee) - PreflightFees(groups, fee, terms.est);
            ChangeAmount(tx) == Sum(AmountOf, tx.outputs) == change && CustomersOf(tx) == []
  {
    FinalOutputs(FeeChange(terms.feeIdx, TotalValue(fee) - PreflightFees(groups, fee, terms.est)));
  }

  lemma FinalCoinsAre(groups: seq<seq<Account>>, fee: Account, est: FeeEstimate)
    requires fee.utxos != [] && HopFees(groups, est) <= fee.utxos[0].value
    ensures FinalSources(fee, |groups|) == Outpoints(FinalCoins(groups, fee, est))
    ensures |FinalCoins(groups, fee, est)| == |fee.utxos|
    ensures Sum(UtxoValue, FinalCoins(groups, fee, est)) == TotalValue(fee) - HopFees(groups, est)
  {
    assert fee.utxos == [fee.utxos[0]] + fee.utxos[1..];
    assert Outpoints(fee.utxos)[1..] == Outpoints(fee.utxos[1..]);
    CoinsWithLast(fee.utxos[1..], FeeCoinAfter(groups, 0, fee.utxos[0], est));
  }

  lemma FinalBalance(groups: seq<seq<Account>>, fee: Account, terms: Terms)
    requires fee.utxos != [] && HopFees(groups, terms.est) <= fee.utxos[0].value
    requires PreflightFees(groups, fee, terms.est) <= TotalValue(fee)
    ensures var tx, spent := FinalTx(groups, fee, terms), FinalCoins(groups, fee, terms.est);
            && tx.sources == Outpoints(spent)
            && FinalCoin(groups, fee, terms.est) == Utxo(Synthetic(|groups|), ChangeAmount(tx))
            && Sum(UtxoValue, spent) == Sum(AmountOf, tx.outputs) + terms.est(|tx.sources|, |tx.outputs|)
  {
    FinalCoinsAre(groups, fee, terms.est);
    FinalPays(groups, fee, terms);
  }

  /** The last transaction consolidates the fee account. */
  lemma FinalSpends(ledger: Ledger, groups: seq<seq<Account>>, fee: Account, others: set<Utxo>, terms: Terms)
    requires fee.utxos != [] && HopFees(groups, terms.est) <= fee.utxos[0].value
    requires PreflightFees(groups, fee, terms.est) <= TotalValue(fee)
    requires NoDup(fee.utxos) && SetOf(fee.utxos) !! others && RealCoins(SetOf(fee.utxos) + others)
    requires Holds(ledger, {FeeCoinAfter(groups, 0, fee.utxos[0], terms.est)} + (SetOf(fee.utxos[1..]) + others))
    ensures CanSpend(ledger, FinalTx(groups, fee, terms), terms.est)
    ensures Holds(Spend(ledger, FinalTx(groups, fee, terms), |groups|),
                  {FinalCoin(groups, fee, terms.est)} + others)
  {
    var spent, tx := FinalCoins(groups, fee, terms.est), FinalTx(groups, fee, terms);
    FinalApart(fee.utxos, FeeCoinAfter(groups, 0, fee.utxos[0], terms.est), spent, others);
    FinalBalance(groups, fee, terms);
    SpendStep(ledger, spent, others, tx, |groups|, terms.est, FinalCoin(groups, fee, terms.est));
  }

  lemma FinalApart(fees: seq<Utxo>, last: Utxo, spent: seq<Utxo>, others: set<Utxo>)
    requires fees != [] && NoDup(fees) && SetOf(fees) !! others && RealCoins(SetOf(fees) + others)
    requires (spent == fees && last == fees[0]) || (spent == fees[1..] + [last] && last.outpoint.txid == ZERO_TXID)
    ensures NoDup(spent) && SetOf(spent) !! others && Distinct(SetOf(spent) + others)
    ensures SetOf(spent) + others == {last} + (SetOf(fees[1..]) + others)
  {
    assert fees == [fees[0]] + fees[1..];
    assert forall u :: u in fees[1..] ==> u in SetOf(fees);
    assert last !in fees[1..];
  }

  lemma FinalOutputs(change: Output)
    requires change.FeeChange?
    ensures Filter(IsChange(), [change]) == [change] && Filter(Negate(IsChange()), [change]) == []
    ensures Sum(AmountOf, [change]) == change.amount
  {
    assert [change][1..] == [];
    SumSingle(AmountOf, change);
  }
}
