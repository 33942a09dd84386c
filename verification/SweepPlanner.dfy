/**
 The two multi-account sweep algorithms of src/migration.rs.

 `SinglePlan` sweeps every account in one transaction. `BatchedSweep.Plan` builds a chain: each
 hop pays one large account (or the bundle of small ones) and returns the fee account's change,
 which the next hop spends through a placeholder outpoint; the fee account itself moves last.
 An `Amount` subtraction that would go below zero aborts the original; here it is `Underflow`.
 */
module SweepPlanner {
  import opened Seqs
  import opened Networks

  const U64_LIMIT: nat := 0x1_0000_0000_0000_0000
  const U32_LIMIT: nat := 0x1_0000_0000
  const OVERHEAD_VBYTES: nat := 10
  const INPUT_VBYTES: nat := 105
  const OUTPUT_VBYTES: nat := 32
  /** The transaction id whose 32 bytes are all zero. */
  const ZERO_TXID: nat := 0

  type Address = string

  datatype OutPoint = OutPoint(txid: nat, vout: nat)
  datatype Utxo = Utxo(outpoint: OutPoint, value: nat)
  datatype Account = Account(idx: nat, utxos: seq<Utxo>, destination: Address)

  datatype Output =
    | Customer(accountIdx: nat, address: Address, amount: nat)
    | FeeChange(accountIdx: nat, amount: nat)

  datatype SweepTransaction = SweepTransaction(sources: seq<OutPoint>, outputs: seq<Output>, isFeeFinal: bool)
  datatype MigrationPlan = MigrationPlan(transactions: seq<SweepTransaction>, totalFees: nat, utxoCount: nat)

  datatype MigrationError =
    | NetworkMismatch(oldNetwork: NetworkType, newNetwork: NetworkType)
    | NoUtxos
    | InvalidConfig(missingFeeAccount: nat)
    | InsufficientFeeBalance(feeAccountIdx: nat, available: nat, required: nat)

  datatype Outcome = Planned(plan: MigrationPlan) | Refused(error: MigrationError) | Underflow

  /** A fee, given the number of inputs and of outputs. */
  type FeeEstimate = (nat, nat) -> nat

  /** What both algorithms are told: who pays the fees, and how they are estimated. */
  datatype Terms = Terms(feeIdx: nat, est: FeeEstimate)

  // ----- Fee estimation -----

  /** Weight of a transaction; a weight that does not fit 64 bits falls back to zero. */
  function EstimateWeight(inputs: nat, outputs: nat): nat {
    var vbytes := OVERHEAD_VBYTES + inputs * INPUT_VBYTES + outputs * OUTPUT_VBYTES;
    if 4 * vbytes < U64_LIMIT then 4 * vbytes else 0
  }

  /** `FeeRate::fee_wu`: rate times weight over 1000, rounded up; None when 64 bits overflow. */
  function FeeForWeight(rate: nat, weight: nat): Option<nat> {
    if rate * weight + 999 < U64_LIMIT then Some((rate * weight + 999) / 1000) else None
  }

  function EstimateFee(inputs: nat, outputs: nat, rate: nat): nat {
    match FeeForWeight(rate, EstimateWeight(inputs, outputs))
    case Some(fee) => fee
    case None => 0
  }

  /** The estimate at a fee rate, in satoshi per 1000 weight units. */
  function FeeAt(rate: nat): FeeEstimate {
    (inputs: nat, outputs: nat) => EstimateFee(inputs, outputs, rate)
  }

  // ----- Accounts -----

  function UtxoValue(u: Utxo): nat { u.value }
  function OutPointOf(u: Utxo): OutPoint { u.outpoint }
  function UtxosOf(a: Account): seq<Utxo> { a.utxos }
  function UtxoCount(a: Account): nat { |a.utxos| }
  function TotalValue(a: Account): nat { Sum(UtxoValue, a.utxos) }
  function AmountOf(o: Output): nat { o.amount }
  function SourceCount(tx: SweepTransaction): nat { |tx.sources| }
  function CustomerOutput(a: Account): Output { Customer(a.idx, a.destination, TotalValue(a)) }
  function Singleton(a: Account): seq<Account> { [a] }

  function GroupUtxos(g: seq<Account>): seq<Utxo> { Flatten(Map(UtxosOf, g)) }
  function Outpoints(us: seq<Utxo>): seq<OutPoint> { Map(OutPointOf, us) }
  function InputCount(g: seq<Account>): nat { Sum(UtxoCount, g) }

  function HasUtxos(): Account -> bool { (a: Account) => a.utxos != [] }
  function IsFeeAccount(idx: nat): Account -> bool { (a: Account) => a.idx == idx }
  function AtLeast(threshold: nat): Account -> bool { (a: Account) => TotalValue(a) >= threshold }

  function Funded(accounts: seq<Account>): seq<Account> { Filter(HasUtxos(), accounts) }

  /** The first account with index `idx`. */
  function FindAccount(idx: nat, accounts: seq<Account>): (found: Option<Account>)
    ensures found.Some? ==> found.value in accounts && found.value.idx == idx
    ensures found.None? ==> forall a :: a in accounts ==> a.idx != idx
  {
    if accounts == [] then None
    else if accounts[0].idx == idx then Some(accounts[0])
    else FindAccount(idx, accounts[1..])
  }

  function NonFee(idx: nat, funded: seq<Account>): seq<Account> {
    Filter(Negate(IsFeeAccount(idx)), funded)
  }

  /** One group per large account, in order, and one for all the small accounts together. */
  function Groups(threshold: nat, nonFee: seq<Account>): seq<seq<Account>> {
    var large := Filter(AtLeast(threshold), nonFee);
    var small := Filter(Negate(AtLeast(threshold)), nonFee);
    Map(Singleton, large) + Bundle(small)
  }

  function Bundle(small: seq<Account>): seq<seq<Account>> {
    if small == [] then [] else [small]
  }

  // ----- The chain of hops, as values -----

  /** The placeholder for the change of transaction `k`; the index is cut to 32 bits. */
  function Synthetic(k: nat): OutPoint {
    OutPoint(ZERO_TXID, k % U32_LIMIT)
  }

  /** One hop spends the group's coins and the fee coin, so it has one input and one output more than the group. */
  function HopFee(g: seq<Account>, est: FeeEstimate): nat {
    est(InputCount(g) + 1, |g| + 1)
  }

  function HopFees(groups: seq<seq<Account>>, est: FeeEstimate): nat {
    if groups == [] then 0 else HopFee(groups[0], est) + HopFees(groups[1..], est)
  }

  function Hop(g: seq<Account>, feeCoin: Utxo, terms: Terms): SweepTransaction
    requires HopFee(g, terms.est) <= feeCoin.value
  {
    SweepTransaction(
      Outpoints(GroupUtxos(g)) + [feeCoin.outpoint],
      Map(CustomerOutput, g) + [FeeChange(terms.feeIdx, feeCoin.value - HopFee(g, terms.est))],
      false)
  }

  /** The change of hop `k`, which is the fee coin of the hop after it. */
  function NextCoin(g: seq<Account>, k: nat, feeCoin: Utxo, est: FeeEstimate): Utxo
    requires HopFee(g, est) <= feeCoin.value
  {
    Utxo(Synthetic(k), feeCoin.value - HopFee(g, est))
  }

  /** The fee coin left after the hops of `groups`, the first of which has number `k`. */
  function FeeCoinAfter(groups: seq<seq<Account>>, k: nat, feeCoin: Utxo, est: FeeEstimate): (coin: Utxo)
    requires HopFees(groups, est) <= feeCoin.value
    ensures coin.value == feeCoin.value - HopFees(groups, est)
    ensures coin.outpoint == if groups == [] then feeCoin.outpoint else Synthetic(k + |groups| - 1)
  {
    if groups == [] then feeCoin
    else FeeCoinAfter(groups[1..], k + 1, NextCoin(groups[0], k, feeCoin, est), est)
  }

  function Hops(groups: seq<seq<Account>>, k: nat, feeCoin: Utxo, terms: Terms): (txs: seq<SweepTransaction>)
    requires HopFees(groups, terms.est) <= feeCoin.value
    ensures |txs| == |groups|
    ensures forall tx :: tx in txs ==> !tx.isFeeFinal
  {
    if groups == [] then []
    else [Hop(groups[0], feeCoin, terms)] +
         Hops(groups[1..], k + 1, NextCoin(groups[0], k, feeCoin, terms.est), terms)
  }

  function FinalSources(fee: Account, hops: nat): seq<OutPoint>
    requires fee.utxos != []
  {
    if hops == 0 then Outpoints(fee.utxos) else Outpoints(fee.utxos)[1..] + [Synthetic(hops - 1)]
  }

  /** All the fees of a batched sweep: what the pre-flight check asks of the fee account. */
  function PreflightFees(groups: seq<seq<Account>>, fee: Account, est: FeeEstimate): nat {
    HopFees(groups, est) + est(|fee.utxos|, 1)
  }

  /** The transaction that moves the fee account last. */
  function FinalTx(groups: seq<seq<Account>>, fee: Account, terms: Terms): SweepTransaction
    requires fee.utxos != []
    requires PreflightFees(groups, fee, terms.est) <= TotalValue(fee)
  {
    SweepTransaction(
      FinalSources(fee, |groups|),
      [FeeChange(terms.feeIdx, TotalValue(fee) - PreflightFees(groups, fee, terms.est))],
      true)
  }

  function ChainPlan(groups: seq<seq<Account>>, fee: Account, terms: Terms): MigrationPlan
    requires fee.utxos != []
    requires HopFees(groups, terms.est) <= fee.utxos[0].value
    requires PreflightFees(groups, fee, terms.est) <= TotalValue(fee)
  {
    var txs := Hops(groups, 0, fee.utxos[0], terms) + [FinalTx(groups, fee, terms)];
    MigrationPlan(txs, PreflightFees(groups, fee, terms.est), Sum(SourceCount, txs))
  }

  /** The part of `plan` that both algorithms start with: the funded accounts and the fee account, or a refusal. */
  datatype Start = Ready(funded: seq<Account>, fee: Account) | NotReady(error: MigrationError)

  function StartPlan(accounts: seq<Account>, oldNetwork: NetworkType, newNetwork: NetworkType, terms: Terms): (s: Start)
    ensures s.Ready? ==> s.fee in s.funded && s.fee.idx == terms.feeIdx && s.fee.utxos != []
    ensures s.Ready? ==> s.funded == Funded(accounts) && oldNetwork == newNetwork
  {
    var funded := Funded(accounts);
    FilterMembers(HasUtxos(), accounts);
    if oldNetwork != newNetwork then NotReady(NetworkMismatch(oldNetwork, newNetwork))
    else if funded == [] then NotReady(NoUtxos)
    else match FindAccount(terms.feeIdx, funded)
         case None => NotReady(InvalidConfig(terms.feeIdx))
         case Some(fee) => Ready(funded, fee)
  }

  function SweepOutput(terms: Terms, fee: nat): Account -> Output {
    (a: Account) =>
      if a.idx == terms.feeIdx && fee <= TotalValue(a) then FeeChange(a.idx, TotalValue(a) - fee)
      else CustomerOutput(a)
  }

  /** The single-transaction sweep (`AccountForAccountSweep::plan`). */
  function SinglePlan(accounts: seq<Account>, oldNetwork: NetworkType, newNetwork: NetworkType, terms: Terms): Outcome {
    match StartPlan(accounts, oldNetwork, newNetwork, terms)
    case NotReady(e) => Refused(e)
    case Ready(funded, feeAccount) =>
      var fee := SingleFee(funded, terms.est);
      if TotalValue(feeAccount) < fee then
        Refused(InsufficientFeeBalance(terms.feeIdx, TotalValue(feeAccount), fee))
      else if exists a :: a in funded && a.idx == terms.feeIdx && TotalValue(a) < fee then
        Underflow
      else
        var tx := SweepTransaction(Outpoints(GroupUtxos(funded)), Map(SweepOutput(terms, fee), funded), true);
        Planned(MigrationPlan([tx], fee, InputCount(funded)))
  }

  function SingleFee(funded: seq<Account>, est: FeeEstimate): nat {
    est(InputCount(funded), |funded|)
  }

  // ----- The batched algorithm -----

  /** `txs` are the hops of `groups`, starting from `feeCoin`; the two totals are theirs. */
  ghost predicate IsBuilt(txs: seq<SweepTransaction>, utxoCount: nat, fees: nat,
                          groups: seq<seq<Account>>, feeCoin: Utxo, terms: Terms)
  {
    && HopFees(groups, terms.est) <= feeCoin.value
    && txs == Hops(groups, 0, feeCoin, terms)
    && utxoCount == Sum(SourceCount, txs)
    && fees == HopFees(groups, terms.est)
  }

  /** Mutable state threaded through the batched builders. */
  class BatchedPlanState {
    var sweepTransactions: seq<SweepTransaction>
    var totalUtxoCount: nat
    var cumulativeFee: nat

    constructor ()
      ensures sweepTransactions == [] && totalUtxoCount == 0 && cumulativeFee == 0
    {
      sweepTransactions, totalUtxoCount, cumulativeFee := [], 0, 0;
    }

    /** The hops of `groups` were built, starting from `feeCoin`. */
    ghost predicate Built(groups: seq<seq<Account>>, feeCoin: Utxo, terms: Terms)
      reads this
    {
      IsBuilt(sweepTransactions, totalUtxoCount, cumulativeFee, groups, feeCoin, terms)
    }

    /** Records the hop of one more group, with its fee and its inputs. */
    method Push(tx: SweepTransaction, txFee: nat, inputs: nat,
                ghost groups: seq<seq<Account>>, ghost g: seq<Account>, ghost feeCoin: Utxo, ghost terms: Terms)
      requires Built(groups, feeCoin, terms)
      requires txFee == HopFee(g, terms.est) <= feeCoin.value - cumulativeFee && inputs == InputCount(g)
      requires tx == Hop(g, FeeCoinAfter(groups, 0, feeCoin, terms.est), terms)
      modifies this
      ensures Built(groups + [g], feeCoin, terms)
    {
      BuildStep(sweepTransactions, totalUtxoCount, cumulativeFee, groups, g, feeCoin, terms, tx);
      cumulativeFee := cumulativeFee + txFee;
      totalUtxoCount := totalUtxoCount + inputs + 1;
      sweepTransactions := sweepTransactions + [tx];
    }
  }

  class BatchedSweep {
    const feeAccountIdx: nat
    const smallAccountThreshold: nat

    constructor (feeAccountIdx: nat, smallAccountThreshold: nat)
      ensures this.feeAccountIdx == feeAccountIdx && this.smallAccountThreshold == smallAccountThreshold
    {
      this.feeAccountIdx := feeAccountIdx;
      this.smallAccountThreshold := smallAccountThreshold;
    }

    /** The transaction of one large account. False when its fee change would go below zero. */
    static method PlanLargeAccount(state: BatchedPlanState, acct: Account, feeInput: OutPoint, feeInputValue: nat,
                                   terms: Terms, ghost groups: seq<seq<Account>>, ghost coin: Utxo)
      returns (ok: bool)
      requires state.Built(groups, coin, terms) && feeInputValue == coin.value - state.cumulativeFee
      requires Utxo(feeInput, feeInputValue) == FeeCoinAfter(groups, 0, coin, terms.est)
      modifies state
      ensures ok <==> terms.est(|acct.utxos| + 1, 2) <= feeInputValue
      ensures ok ==> state.Built(groups + [[acct]], coin, terms)
    {
      var acctInputs := |acct.utxos|;
      var txFee := terms.est(acctInputs + 1, 2);
      if feeInputValue < txFee {
        return false;
      }
      SingletonHopFee(acct, terms.est);
      SingletonHop(acct, Utxo(feeInput, feeInputValue), terms);
      var tx := SweepTransaction(
        Outpoints(acct.utxos) + [feeInput],
        [CustomerOutput(acct), FeeChange(terms.feeIdx, feeInputValue - txFee)],
        false);
      state.Push(tx, txFee, acctInputs, groups, [acct], coin, terms);
      ok := true;
    }

    /** One transaction per large account. False when a fee change would go below zero. */
    static method PlanLargeAccounts(state: BatchedPlanState, large: seq<Account>, feeUtxos: seq<OutPoint>,
                                    initialFeeUtxoValue: nat, terms: Terms)
      returns (ok: bool)
      requires feeUtxos != []
      requires state.Built([], Utxo(feeUtxos[0], initialFeeUtxoValue), terms)
      modifies state
      ensures ok <==> HopFees(Map(Singleton, large), terms.est) <= initialFeeUtxoValue
      ensures ok ==> state.Built(Map(Singleton, large), Utxo(feeUtxos[0], initialFeeUtxoValue), terms)
    {
      ghost var coin := Utxo(feeUtxos[0], initialFeeUtxoValue);
      ghost var groups := Map(Singleton, large);
      for txIdx := 0 to |large|
        invariant state.Built(groups[..txIdx], coin, terms)
      {
        var acct := large[txIdx];
        var feeInput := if txIdx == 0 then feeUtxos[0] else Synthetic(txIdx - 1);
        var feeInputValue := if txIdx == 0 then initialFeeUtxoValue else initialFeeUtxoValue - state.cumulativeFee;
        LargeFeeStep(large, txIdx, state.cumulativeFee, coin, terms.est);
        LargeFeeCoin(large, txIdx, state.cumulativeFee, coin, terms.est);
        var built := PlanLargeAccount(state, acct, feeInput, feeInputValue, terms, groups[..txIdx], coin);
        if !built {
          return false;
        }
      }
      assert groups[..|large|] == groups;
      ok := true;
    }

    /** The one transaction for all small accounts. False when its fee change would go below zero. */
    static method PlanSmallBundle(state: BatchedPlanState, small: seq<Account>, feeUtxos: seq<OutPoint>,
                                  initialFeeUtxoValue: nat, terms: Terms, precedingTxCount: nat,
                                  ghost before: seq<seq<Account>>)
      returns (ok: bool)
      requires feeUtxos != [] && precedingTxCount == |before|
      requires state.Built(before, Utxo(feeUtxos[0], initialFeeUtxoValue), terms)
      modifies state
      ensures ok <==> HopFees(before + [small], terms.est) <= initialFeeUtxoValue
      ensures ok ==> state.Built(before + [small], Utxo(feeUtxos[0], initialFeeUtxoValue), terms)
    {
      ghost var coin := Utxo(feeUtxos[0], initialFeeUtxoValue);
      var smallInputs := InputCount(small);
      var txFee := terms.est(smallInputs + 1, |small| + 1);
      var feeInput := if precedingTxCount == 0 then feeUtxos[0] else Synthetic(precedingTxCount - 1);
      var source := Outpoints(GroupUtxos(small)) + [feeInput];
      var feeInputValue :=
        if precedingTxCount == 0 then initialFeeUtxoValue else initialFeeUtxoValue - state.cumulativeFee;
      HopFeesAppend(before, small, terms.est);
      if feeInputValue < txFee {
        return false;
      }
      var tx := SweepTransaction(
        source, Map(CustomerOutput, small) + [FeeChange(terms.feeIdx, feeInputValue - txFee)], false);
      state.Push(tx, txFee, smallInputs, before, small, coin, terms);
      ok := true;
    }

    static method EstimateTotalFees(large: seq<Account>, small: seq<Account>, feeUtxoCount: nat, est: FeeEstimate)
      returns (total: nat)
      ensures total == HopFees(Map(Singleton, large) + Bundle(small), est) + est(feeUtxoCount, 1)
    {
      total := 0;
      ghost var groups := Map(Singleton, large);
      for i := 0 to |large|
        invariant total == HopFees(groups[..i], est)
      {
        total := total + est(|large[i].utxos| + 1, 2);
        HopFeesAppend(groups[..i], [large[i]], est);
        SingletonHopFee(large[i], est);
        assert groups[..i + 1] == groups[..i] + [[large[i]]];
      }
      assert groups[..|large|] == groups;
      HopFeesConcat(groups, Bundle(small), est);
      if small != [] {
        var smallInputCount := InputCount(small) + 1;
        total := total + est(smallInputCount, |small| + 1);
      }
      total := total + est(feeUtxoCount, 1);
    }

    /** The last transaction: what is left of the fee account, with the change of the last hop. */
    static method PlanFeeAccount(state: BatchedPlanState, fee: Account, terms: Terms, ghost groups: seq<seq<Account>>)
      returns (plan: MigrationPlan)
      requires fee.utxos != [] && state.Built(groups, fee.utxos[0], terms)
      requires PreflightFees(groups, fee, terms.est) <= TotalValue(fee)
      modifies state
      ensures plan == ChainPlan(groups, fee, terms)
    {
      ghost var txs, count, fees := state.sweepTransactions, state.totalUtxoCount, state.cumulativeFee;
      var feeMigrationFee := terms.est(|fee.utxos|, 1);
      state.cumulativeFee := state.cumulativeFee + feeMigrationFee;
      var feeSource := Outpoints(fee.utxos);
      if state.sweepTransactions != [] {
        feeSource := feeSource[1..] + [Synthetic(|state.sweepTransactions| - 1)];
      }
      var feeAccountRemaining := TotalValue(fee) - state.cumulativeFee;
      state.totalUtxoCount := state.totalUtxoCount + |feeSource|;
      var final := SweepTransaction(feeSource, [FeeChange(terms.feeIdx, feeAccountRemaining)], true);
      state.sweepTransactions := state.sweepTransactions + [final];
      plan := MigrationPlan(state.sweepTransactions, state.cumulativeFee, state.totalUtxoCount);
      FinalStep(groups, fee, terms, txs, count, fees, plan);
    }

    /** Plans the chain; the pre-flight looks at the fee account's total, the hops draw on its first coin. */
    method Plan(accounts: seq<Account>, oldNetwork: NetworkType, newNetwork: NetworkType, rate: nat)
        returns (outcome: Outcome)
      ensures var terms := Terms(feeAccountIdx, FeeAt(rate));
              match StartPlan(accounts, oldNetwork, newNetwork, terms)
              case NotReady(e) => outcome == Refused(e)
              case Ready(funded, fee) =>
                var est := FeeAt(rate);
                var groups := Groups(smallAccountThreshold, NonFee(feeAccountIdx, funded));
                var required := PreflightFees(groups, fee, est);
                if TotalValue(fee) < required then
                  outcome == Refused(InsufficientFeeBalance(feeAccountIdx, TotalValue(fee), required))
                else if fee.utxos[0].value < HopFees(groups, est) then outcome == Underflow
                else outcome == Planned(ChainPlan(groups, fee, terms))
    {
      var terms := Terms(feeAccountIdx, FeeAt(rate));
      var start := StartPlan(accounts, oldNetwork, newNetwork, terms);
      if start.NotReady? {
        return Refused(start.error);
      }
      var funded, fee := start.funded, start.fee;
      var feeAccountTotal := TotalValue(fee);
      var initialFeeUtxoValue := fee.utxos[0].value;
      var nonFee := NonFee(feeAccountIdx, funded);
      var large := Filter(AtLeast(smallAccountThreshold), nonFee);
      var small := Filter(Negate(AtLeast(smallAccountThreshold)), nonFee);
      var plannedFees := EstimateTotalFees(large, small, |fee.utxos|, terms.est);
      if feeAccountTotal < plannedFees {
        return Refused(InsufficientFeeBalance(feeAccountIdx, feeAccountTotal, plannedFees));
      }
      var feeUtxos := Outpoints(fee.utxos);
      var state := new BatchedPlanState();
      ghost var groups := Map(Singleton, large) + Bundle(small);
      HopFeesConcat(Map(Singleton, large), Bundle(small), terms.est);
      assert fee.utxos[0] == Utxo(feeUtxos[0], initialFeeUtxoValue);
      var ok := PlanLargeAccounts(state, large, feeUtxos, initialFeeUtxoValue, terms);
      if !ok {
        return Underflow;
      }
      if small != [] {
        ok := PlanSmallBundle(state, small, feeUtxos, initialFeeUtxoValue, terms, |large|, Map(Singleton, large));
        if !ok {
          return Underflow;
        }
      } else {
        assert groups == Map(Singleton, large);
      }
      var plan := PlanFeeAccount(state, fee, terms, groups);
      outcome := Planned(plan);
    }
  }

  // ----- Facts about groups and hops -----

  lemma {:induction false} GroupUtxosCount(g: seq<Account>)
    ensures |GroupUtxos(g)| == InputCount(g)
  {
    if g != [] {
      GroupUtxosCount(g[1..]);
      assert Map(UtxosOf, g)[1..] == Map(UtxosOf, g[1..]);
    }
  }

  lemma {:induction false} HopFeesConcat(gs: seq<seq<Account>>, hs: seq<seq<Account>>, est: FeeEstimate)
    ensures HopFees(gs + hs, est) == HopFees(gs, est) + HopFees(hs, est)
  {
    if gs == [] {
      assert gs + hs == hs;
    } else {
      HopFeesConcat(gs[1..], hs, est);
      assert (gs + hs)[1..] == gs[1..] + hs;
    }
  }

  lemma HopFeesPrefix(gs: seq<seq<Account>>, n: nat, est: FeeEstimate)
    requires n <= |gs|
    ensures HopFees(gs[..n], est) <= HopFees(gs, est)
  {
    HopFeesConcat(gs[..n], gs[n..], est);
    assert gs == gs[..n] + gs[n..];
  }

  /** Adding a group at the end adds one hop, paid from the change of the hop before. */
  lemma {:induction false} HopsAppend(gs: seq<seq<Account>>, g: seq<Account>, k: nat, coin: Utxo, terms: Terms)
    requires HopFees(gs + [g], terms.est) <= coin.value
    ensures HopFees(gs, terms.est) + HopFee(g, terms.est) == HopFees(gs + [g], terms.est)
    ensures Hops(gs + [g], k, coin, terms) ==
            Hops(gs, k, coin, terms) + [Hop(g, FeeCoinAfter(gs, k, coin, terms.est), terms)]
  {
    HopFeesAppend(gs, g, terms.est);
    if gs == [] {
      assert gs + [g] == [g];
    } else {
      assert (gs + [g])[1..] == gs[1..] + [g];
      HopsAppend(gs[1..], g, k + 1, NextCoin(gs[0], k, coin, terms.est), terms);
    }
  }

  lemma HopFeesAppend(gs: seq<seq<Account>>, g: seq<Account>, est: FeeEstimate)
    ensures HopFees(gs + [g], est) == HopFees(gs, est) + HopFee(g, est)
  {
    HopFeesConcat(gs, [g], est);
    assert HopFees([g], est) == HopFee(g, est);
  }

  /** One builder step: a hop for `g`, spending the coin left by the hops before. */
  lemma BuildStep(txs: seq<SweepTransaction>, utxoCount: nat, fees: nat, groups: seq<seq<Account>>,
                  g: seq<Account>, coin: Utxo, terms: Terms, tx: SweepTransaction)
    requires IsBuilt(txs, utxoCount, fees, groups, coin, terms)
    requires HopFee(g, terms.est) <= coin.value - fees
    requires tx == Hop(g, FeeCoinAfter(groups, 0, coin, terms.est), terms)
    ensures IsBuilt(txs + [tx], utxoCount + InputCount(g) + 1, fees + HopFee(g, terms.est), groups + [g], coin, terms)
  {
    HopFeesAppend(groups, g, terms.est);
    HopsAppend(groups, g, 0, coin, terms);
    SumConcat(SourceCount, txs, [tx]);
    SumSingle(SourceCount, tx);
    GroupUtxosCount(g);
  }

  /** The fee of account `i` joins the fees so far; when it cannot be paid, neither can all the fees. */
  lemma LargeFeeStep(large: seq<Account>, i: nat, fees: nat, coin: Utxo, est: FeeEstimate)
    requires i < |large| && fees == HopFees(Map(Singleton, large)[..i], est)
    ensures Map(Singleton, large)[..i + 1] == Map(Singleton, large)[..i] + [[large[i]]]
    ensures var fee := est(|large[i].utxos| + 1, 2);
            fee == HopFee([large[i]], est) && InputCount([large[i]]) == |large[i].utxos| &&
            HopFees(Map(Singleton, large)[..i + 1], est) == fees + fee <= HopFees(Map(Singleton, large), est)
  {
    var groups := Map(Singleton, large);
    SingletonHopFee(large[i], est);
    HopFeesAppend(groups[..i], [large[i]], est);
    assert groups[..i + 1] == groups[..i] + [[large[i]]];
    HopFeesPrefix(groups, i + 1, est);
  }

  /** The fee coin of hop `i`: the first one, or the placeholder of the hop before, less the fees so far. */
  lemma LargeFeeCoin(large: seq<Account>, i: nat, fees: nat, coin: Utxo, est: FeeEstimate)
    requires i < |large| && fees == HopFees(Map(Singleton, large)[..i], est) <= coin.value
    ensures FeeCoinAfter(Map(Singleton, large)[..i], 0, coin, est) ==
            Utxo(if i == 0 then coin.outpoint else Synthetic(i - 1), coin.value - fees)
  {
    assert i == 0 ==> Map(Singleton, large)[..i] == [];
  }

  /** Moving the fee account last completes the plan. */
  lemma FinalStep(groups: seq<seq<Account>>, fee: Account, terms: Terms,
                  txs: seq<SweepTransaction>, utxoCount: nat, fees: nat, plan: MigrationPlan)
    requires fee.utxos != [] && IsBuilt(txs, utxoCount, fees, groups, fee.utxos[0], terms)
    requires PreflightFees(groups, fee, terms.est) <= TotalValue(fee)
    requires plan.totalFees == fees + terms.est(|fee.utxos|, 1)
    requires plan.utxoCount == utxoCount + |FinalSources(fee, |groups|)|
    requires plan.transactions == txs + [FinalTx(groups, fee, terms)]
    ensures plan == ChainPlan(groups, fee, terms)
  {
    SumConcat(SourceCount, txs, [FinalTx(groups, fee, terms)]);
    SumSingle(SourceCount, FinalTx(groups, fee, terms));
  }

  lemma SingletonHopFee(a: Account, est: FeeEstimate)
    ensures InputCount([a]) == |a.utxos|
    ensures HopFee([a], est) == est(|a.utxos| + 1, 2)
  {
    SumSingle(UtxoCount, a);
  }

  /** The transaction built for a large account is the hop of its one-account group. */
  lemma SingletonHop(a: Account, coin: Utxo, terms: Terms)
    requires HopFee([a], terms.est) <= coin.value
    ensures Hop([a], coin, terms) ==
            SweepTransaction(
              Outpoints(a.utxos) + [coin.outpoint],
              [CustomerOutput(a), FeeChange(terms.feeIdx, coin.value - HopFee([a], terms.est))],
              false)
  {
    assert Map(UtxosOf, [a]) == [a.utxos];
    FlattenSingle(a.utxos);
    assert Map(CustomerOutput, [a]) == [CustomerOutput(a)];
  }
}
