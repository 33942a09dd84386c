/**
 What an application keeps: the aggregate of the change sets it was handed, merged pass by pass
 and replaced when a pass rebuilt the wallet. Over every run it reloads to the live wallet.
 */
module ChainSyncPersistence {
  import opened Seqs
  import opened Blocks
  import opened ChainSync
  import opened ChainSyncTheorems
  import opened ChainSyncGuarantees
  import opened ChainSyncResults
  import opened ChainSyncConditions

  // ----- Loading -----

  function Kept(chain: map<nat, Option<Block>>): set<nat> {
    set h | h in chain && chain[h].Some?
  }

  function Highest(hs: set<nat>): (m: nat)
    requires hs != {}
    ensures m in hs && forall h :: h in hs ==> h <= m
  {
    HighestExists(hs);
    var m :| m in hs && IsHighest(m, hs);
    m
  }

  predicate IsHighest(m: nat, hs: set<nat>) {
    forall h :: h in hs ==> h <= m
  }

  lemma {:induction false} HighestExists(hs: set<nat>)
    requires hs != {}
    ensures exists m :: m in hs && IsHighest(m, hs)
  {
    var x :| x in hs;
    if hs == {x} {
      assert IsHighest(x, hs);
    } else {
      HighestExists(hs - {x});
      var m :| m in hs - {x} && IsHighest(m, hs - {x});
      assert forall y :: y in hs ==> y == x || y in hs - {x};
      var highest := if m >= x then m else x;
      assert highest in hs && IsHighest(highest, hs);
    }
  }

  /** The wallet a change set describes; None without a genesis checkpoint. */
  function Load(cs: ChangeSet): Option<State> {
    if 0 !in Kept(cs.chain) then None
    else
      var heights := Kept(cs.chain);
      Some(State(LocalChain(cs.chain[Highest(heights)].value, heights), cs.txs, cs.anchors, cs.indices, NOTHING))
  }

  function Recorded(chain: map<nat, Option<Block>>, h: nat): Option<Block> {
    if h in chain then chain[h] else None
  }

  ghost predicate Agrees(chain: map<nat, Option<Block>>, c: LocalChain) {
    forall h: nat :: Recorded(chain, h) == Lookup(c, h)
  }

  /** The change set records exactly this wallet. */
  ghost predicate Describes(cs: ChangeSet, s: State) {
    && Agrees(cs.chain, s.chain)
    && cs.txs == s.txs && cs.anchors == s.anchors && cs.indices == s.indices
  }

  lemma DescribesLoads(cs: ChangeSet, s: State)
    requires ValidChain(s.chain) && Describes(cs, s)
    ensures Load(cs) == Some(TakeStaged(s))
  {
    forall h: nat ensures h in Kept(cs.chain) <==> h in s.chain.heights {
      assert Recorded(cs.chain, h) == Lookup(s.chain, h);
    }
    assert Kept(cs.chain) == s.chain.heights;
    assert Highest(s.chain.heights) == Height(s.chain.tip);
    assert Recorded(cs.chain, Height(s.chain.tip)) == Some(s.chain.tip);
  }

  // ----- Staging records every step -----

  lemma MergeNothing(cs: ChangeSet)
    ensures Merge(cs, NOTHING) == cs && Merge(NOTHING, cs) == cs
  {
  }

  lemma ChainDiffRecords(before: LocalChain, after: LocalChain, recorded: map<nat, Option<Block>>,
      staged: map<nat, Option<Block>>)
    requires Agrees(recorded + staged, before)
    ensures Agrees(recorded + (staged + ChainDiff(before, after)), after)
  {
    forall h: nat ensures Recorded(recorded + (staged + ChainDiff(before, after)), h) == Lookup(after, h) {
      assert Recorded(recorded + staged, h) == Lookup(before, h);
    }
  }

  lemma ApplyRecords(world: World, base: ChangeSet, s: State, blk: Block, conn: Block)
    requires Describes(Merge(base, s.staged), s) && ApplyBlock(world, s, blk, conn).Some?
    ensures var s1 := ApplyBlock(world, s, blk, conn).value; Describes(Merge(base, s1.staged), s1)
  {
    var s1 := ApplyBlock(world, s, blk, conn).value;
    ChainDiffRecords(s.chain, s1.chain, base.chain, s.staged.chain);
    assert Merge(base, s1.staged).txs == s1.txs;
    assert Merge(base, s1.staged).anchors == s1.anchors;
  }

  lemma {:induction false} DriveRecords(env: Env, base: ChangeSet, s: State, start: nat, last: nat, count: nat)
    requires last <= Height(env.node.tip) && Describes(Merge(base, s.staged), s)
    ensures var d := DriveFrom(env, s, start, last, count); Describes(Merge(base, d.s.staged), d.s)
    decreases Height(env.node.tip) - last
  {
    var e := Emit(env, start, last);
    if e.Emitted? {
      var next := ApplyBlock(env.world, s, e.blk, e.connectedTo);
      if next.Some? {
        ApplyRecords(env.world, base, s, e.blk, e.connectedTo);
        DriveRecords(env, base, next.value, start, Height(e.blk), SaturatingSucc(count));
      }
    }
  }

  lemma MempoolRecords(world: World, base: ChangeSet, s: State, mempool: seq<Txid>)
    requires Describes(Merge(base, s.staged), s)
    ensures var s2 := ApplyUnconfirmed(world, s, mempool); Describes(Merge(base, s2.staged), s2)
  {
    var s2 := ApplyUnconfirmed(world, s, mempool);
    assert Merge(base, s2.staged).chain == Merge(base, s.staged).chain;
    assert Merge(base, s2.staged).txs == s2.txs;
  }

  lemma RevealRecords(base: ChangeSet, s: State, keychain: Keychain, index: nat)
    requires Describes(Merge(base, s.staged), s)
    ensures var s2 := RevealTo(s, keychain, index); Describes(Merge(base, s2.staged), s2)
  {
    var s2 := RevealTo(s, keychain, index);
    assert Merge(base, s2.staged).chain == Merge(base, s.staged).chain;
  }

  // ----- Sessions -----

  /** A live wallet and the aggregate its application has saved. */
  datatype Session = Session(wallet: State, saved: Option<ChangeSet>)

  datatype Event =
    | Synced(node: Node, skips: bool)
    | Revealed(keychain: Keychain, index: nat)
    | Persisted
    | Reloaded

  function MergeInto(saved: Option<ChangeSet>, changes: Option<ChangeSet>): Option<ChangeSet> {
    if changes.None? then saved
    else if saved.None? then changes
    else Some(Merge(saved.value, changes.value))
  }

  /** What the application does with a pass: merge its changes, or replace what it has. */
  function Store(saved: Option<ChangeSet>, outcome: Outcome): Option<ChangeSet> {
    match outcome
    case Err(_) => saved
    case Ok(result) => if result.reorgRebuilt then result.changeset else MergeInto(saved, result.changeset)
  }

  function Step(world: World, s: Session, e: Event): Session {
    match e
    case Synced(node, skips) =>
      var pass := Sync(Env(world, node, skips), s.wallet);
      Session(pass.after, Store(s.saved, pass.outcome))
    case Revealed(keychain, index) => s.(wallet := RevealTo(s.wallet, keychain, index))
    case Persisted => Session(TakeStaged(s.wallet), MergeInto(s.saved, StagedOf(s.wallet)))
    case Reloaded =>
      if s.saved.None? then Session(Fresh(Indices(None, None)), None)
      else match Load(s.saved.value)
        case None => s
        case Some(w) => s.(wallet := w)
  }

  const START: Session := Session(Fresh(Indices(None, None)), None)

  function Run(world: World, s: Session, events: seq<Event>): Session
    decreases |events|
  {
    if events == [] then s else Run(world, Step(world, s, events[0]), events[1..])
  }

  function Aggregate(saved: Option<ChangeSet>): ChangeSet {
    if saved.None? then NOTHING else saved.value
  }

  /** The saved aggregate, with what is still staged, is the live wallet; and it reloads by itself. */
  ghost predicate Synchronized(world: World, s: Session) {
    && ValidState(world, s.wallet)
    && Describes(Merge(Aggregate(s.saved), s.wallet.staged), s.wallet)
    && (s.saved.Some? ==> exists w :: Saved(world, s.saved.value, w))
  }

  ghost predicate Saved(world: World, cs: ChangeSet, w: State) {
    ValidState(world, w) && w.staged == NOTHING && Describes(cs, w)
  }

  lemma StartIsSynchronized(world: World)
    ensures Synchronized(world, START)
  {
    FreshDescribed(Indices(None, None));
  }

  lemma FreshDescribed(indices: Indices)
    ensures Describes(Merge(NOTHING, Fresh(indices).staged), Fresh(indices))
  {
  }

  /** A state with nothing staged is what was saved. */
  lemma TakenIsSaved(world: World, saved: Option<ChangeSet>, s: State)
    requires ValidState(world, s) && Describes(Merge(Aggregate(saved), s.staged), s)
    ensures Synchronized(world, Session(TakeStaged(s), MergeInto(saved, StagedOf(s))))
  {
    var stored := MergeInto(saved, StagedOf(s));
    MergeNothing(Aggregate(saved));
    MergeNothing(s.staged);
    assert Aggregate(stored) == Merge(Aggregate(saved), s.staged);
    MergeNothing(Aggregate(stored));
    assert stored.Some? ==> Saved(world, stored.value, TakeStaged(s));
  }

  lemma QuietSyncs(env: Env, s: Session)
    requires Synchronized(env.world, s) && Quiet(env, s.wallet)
    ensures Synchronized(env.world, Step(env.world, s, Synced(env.node, env.skips)))
  {
    var base := Aggregate(s.saved);
    var s1 := QuietPass(env, s.wallet);
    DriveRecords(env, base, s.wallet, Height(s.wallet.chain.tip), Fork(env, s.wallet), 0);
    MempoolRecords(env.world, base, s1, env.node.mempool);
    var s2 := ApplyUnconfirmed(env.world, s1, env.node.mempool);
    OutcomeGroundTruth(env, s.wallet);
    assert ValidState(env.world, s2);
    TakenIsSaved(env.world, s.saved, s2);
    QuietChanges(env, s.wallet, s1);
  }

  lemma QuietChanges(env: Env, s: State, s1: State)
    requires Quiet(env, s) && DriveOf(env, s).Drove? && s1 == DriveOf(env, s).s
    ensures Sync(env, s).outcome.result.changeset == StagedOf(ApplyUnconfirmed(env.world, s1, env.node.mempool))
  {
    OnlyRebuildsReport(env, s);
  }

  /** The change set of a rebuild describes the whole rebuilt wallet. */
  lemma RebuildDescribes(env: Env, s: State, before: set<Txid>)
    ensures var pass := Rebuild(env, s, before);
            && pass.outcome.Ok? && pass.outcome.result.changeset.Some?
            && Describes(pass.outcome.result.changeset.value, pass.after)
  {
    var f := Fresh(s.indices);
    FreshDescribed(s.indices);
    DriveRecords(env, NOTHING, f, 0, 0, 0);
    RebuildScans(env, s, before);
    var driven := DriveFrom(env, f, 0, 0, 0).s;
    MempoolRecords(env.world, NOTHING, driven, env.node.mempool);
    var scanned := ApplyUnconfirmed(env.world, driven, env.node.mempool);
    MergeNothing(scanned.staged);
    assert Recorded(scanned.staged.chain, 0) == Lookup(scanned.chain, 0);
    assert Lookup(scanned.chain, 0).Some?;
  }

  lemma RebuiltChanges(env: Env, s: State)
    requires ValidState(env.world, s) && Rebuilds(env, s)
    ensures var pass := Sync(env, s);
            && pass.outcome.result.changeset.Some? && Describes(pass.outcome.result.changeset.value, pass.after)
  {
    var before := Confirmed(s);
    match DriveOf(env, s)
    case Broken(_) =>
    case Stuck(x, _) =>
      RebuildDescribes(env, x, before);
    case Drove(x, _) =>
      RebuildDescribes(env, x, before);
      RebuildDescribes(env, ApplyUnconfirmed(env.world, x, env.node.mempool), before);
  }

  lemma RebuildSyncs(env: Env, s: Session)
    ensures Synchronized(env.world, s) && Rebuilds(env, s.wallet) ==>
            Synchronized(env.world, Step(env.world, s, Synced(env.node, env.skips)))
  {
    if Synchronized(env.world, s) && Rebuilds(env, s.wallet) {
      var pass := Sync(env, s.wallet);
      RebuiltChanges(env, s.wallet);
      OutcomeGroundTruth(env, s.wallet);
      MergeNothing(pass.outcome.result.changeset.value);
      assert Saved(env.world, pass.outcome.result.changeset.value, pass.after);
    }
  }

  lemma StepKeepsSynchronized(world: World, s: Session, e: Event)
    requires Synchronized(world, s)
    ensures Synchronized(world, Step(world, s, e))
  {
    match e
    case Synced(node, skips) =>
      var env := Env(world, node, skips);
      SyncFails(env, s.wallet);
      if Quiet(env, s.wallet) {
        QuietSyncs(env, s);
      } else if Rebuilds(env, s.wallet) {
        RebuildSyncs(env, s);
      }
    case Revealed(keychain, index) =>
      RevealRecords(Aggregate(s.saved), s.wallet, keychain, index);
      RevealKeepsRelevance(world, s.wallet, keychain, index);
    case Persisted =>
      TakenIsSaved(world, s.saved, s.wallet);
    case Reloaded =>
      if s.saved.None? {
        StartIsSynchronized(world);
      } else {
        var w :| Saved(world, s.saved.value, w);
        DescribesLoads(s.saved.value, w);
        MergeNothing(s.saved.value);
      }
  }

  lemma RevealKeepsRelevance(world: World, s: State, keychain: Keychain, index: nat)
    requires ValidState(world, s)
    ensures ValidState(world, RevealTo(s, keychain, index))
  {
    var s2 := RevealTo(s, keychain, index);
    forall t | t in s2.txs ensures Relevant(world, s2.indices, t) {
      var script :| script in world.touches(t) && IsRevealed(s.indices, script);
      assert IsRevealed(s2.indices, script);
    }
  }

  /** Every run: after any passes, reveals, saves and reloads, what is saved and staged loads to the live wallet. */
  lemma {:induction false} RunsReload(world: World, s: Session, events: seq<Event>)
    requires Synchronized(world, s)
    ensures var end := Run(world, s, events);
            && Synchronized(world, end)
            && Load(Merge(Aggregate(end.saved), end.wallet.staged)) == Some(TakeStaged(end.wallet))
            && (end.wallet.staged == NOTHING ==> Load(Aggregate(end.saved)) == Some(end.wallet))
    decreases |events|
  {
    if events == [] {
      DescribesLoads(Merge(Aggregate(s.saved), s.wallet.staged), s.wallet);
      MergeNothing(Aggregate(s.saved));
    } else {
      StepKeepsSynchronized(world, s, events[0]);
      RunsReload(world, Step(world, s, events[0]), events[1..]);
    }
  }

  /**
   In every run, a pass within the emitter's reach brings the wallet to ground truth, exactly
   unless it stays behind, and what was saved loads to it.
   */
  lemma RunsReachGroundTruth(world: World, events: seq<Event>, node: Node, skips: bool)
    ensures var env, w := Env(world, node, skips), Run(world, START, events).wallet;
            var end := Step(world, Run(world, START, events), Synced(node, skips));
            InReach(env, w) ==>
              && (GroundTruth(env, end.wallet) <==> !StaysBehind(env, w))
              && Load(Aggregate(end.saved)) == Some(end.wallet)
  {
    var env, before := Env(world, node, skips), Run(world, START, events);
    StartIsSynchronized(world);
    RunsReload(world, START, events);
    if InReach(env, before.wallet) {
      SyncGroundTruth(env, before.wallet);
      StepKeepsSynchronized(world, before, Synced(node, skips));
      RunsReload(world, Step(world, before, Synced(node, skips)), []);
    }
  }

  /** With nothing staged the saved aggregate describes the live wallet. */
  lemma StoredIsLive(world: World, s: Session)
    requires Synchronized(world, s) && s.wallet.staged == NOTHING
    ensures s.saved.Some? ==> Saved(world, s.saved.value, s.wallet)
  {
    MergeNothing(Aggregate(s.saved));
  }

  // ----- Faithful over runs -----

  /** A newly revealed script has a payment on the chain the wallet is at, which nothing scans again. */
  ghost predicate Overlooks(world: World, s: State, keychain: Keychain, index: nat) {
    exists t :: t in ChainTxs(s.chain.tip) && Relevant(world, RevealTo(s, keychain, index).indices, t) &&
                !Relevant(world, s.indices, t)
  }

  /** A reveal keeps the wallet the scan of its chain exactly when it overlooks nothing. */
  lemma RevealIsFaithful(world: World, s: State, keychain: Keychain, index: nat)
    requires ValidState(world, s) && Faithful(world, s)
    ensures Faithful(world, RevealTo(s, keychain, index)) <==> !Overlooks(world, s, keychain, index)
  {
    var s2 := RevealTo(s, keychain, index);
    assert Confirmed(s2) == Confirmed(s);
    forall t | Relevant(world, s.indices, t) ensures Relevant(world, s2.indices, t) {
      var script :| script in world.touches(t) && IsRevealed(s.indices, script);
      assert IsRevealed(s2.indices, script);
    }
    if Overlooks(world, s, keychain, index) {
      var t :| t in ChainTxs(s.chain.tip) && Relevant(world, s2.indices, t) && !Relevant(world, s.indices, t);
      assert t in Scan(world, s2.indices, s.chain.tip) && t !in Scan(world, s.indices, s.chain.tip);
    } else {
      assert Scan(world, s2.indices, s.chain.tip) == Scan(world, s.indices, s.chain.tip);
    }
  }

  /** A payment scanned past before its script was revealed stays unseen. */
  lemma OverlookedPayment()
    ensures var world := OnePayment();
            var s := State(LocalChain(Mined(Genesis, [PAID], 0), {0, 1}), {}, {}, Indices(None, None), NOTHING);
            && ValidState(world, s) && Faithful(world, s) && Overlooks(world, s, External, 0)
            && !Faithful(world, RevealTo(s, External, 0))
  {
    var world, tip := OnePayment(), Mined(Genesis, [PAID], 0);
    var s := State(LocalChain(tip, {0, 1}), {}, {}, Indices(None, None), NOTHING);
    assert Height(tip) == 1 && ValidState(world, s) && Confirmed(s) == {};
    assert Scan(world, s.indices, tip) == {};
    PaymentIsRelevant(Indices(Some(0), None));
    assert RevealTo(s, External, 0).indices == Indices(Some(0), None);
    assert PAID in BlockTxs(tip) && PAID in ChainTxs(tip);
    RevealIsFaithful(world, s, External, 0);
  }

  /** The live wallet is the scan of its chain, and so is the one the saved aggregate loads to. */
  ghost predicate AllFaithful(world: World, s: Session) {
    && Synchronized(world, s) && Faithful(world, s.wallet)
    && (s.saved.Some? ==> exists w :: Saved(world, s.saved.value, w) && Faithful(world, w))
  }

  /** No pass loses a payment and no reveal overlooks one. */
  ghost predicate Harmless(world: World, s: Session, e: Event) {
    match e
    case Synced(node, skips) =>
      InReach(Env(world, node, skips), s.wallet) ==> !Loses(Env(world, node, skips), s.wallet)
    case Revealed(keychain, index) => !Overlooks(world, s.wallet, keychain, index)
    case _ => true
  }

  ghost predicate HarmlessRun(world: World, s: Session, events: seq<Event>)
    decreases |events|
  {
    events == [] || (Harmless(world, s, events[0]) && HarmlessRun(world, Step(world, s, events[0]), events[1..]))
  }

  lemma FreshIsFaithful(world: World, indices: Indices)
    ensures Faithful(world, Fresh(indices)) && ValidState(world, Fresh(indices))
  {
    assert Scan(world, indices, Genesis) == {};
  }

  /** A pass or a reveal keeps the live wallet faithful exactly when it is harmless. */
  lemma LiveStaysFaithful(world: World, s: Session, e: Event)
    requires AllFaithful(world, s) && (e.Synced? || e.Revealed?)
    ensures Faithful(world, Step(world, s, e).wallet) <==> Harmless(world, s, e)
  {
    match e
    case Synced(node, skips) =>
      var env := Env(world, node, skips);
      SyncFails(env, s.wallet);
      if InReach(env, s.wallet) {
        SyncIsFaithful(env, s.wallet);
      }
    case Revealed(keychain, index) =>
      RevealIsFaithful(world, s.wallet, keychain, index);
  }

  lemma StepStaysFaithful(world: World, s: Session, e: Event)
    requires AllFaithful(world, s) && Harmless(world, s, e)
    ensures AllFaithful(world, Step(world, s, e))
  {
    StepKeepsSynchronized(world, s, e);
    match e
    case Synced(node, skips) =>
      LiveStaysFaithful(world, s, e);
      StoredAfterPass(world, s, node, skips);
    case Revealed(_, _) =>
      LiveStaysFaithful(world, s, e);
    case Persisted =>
      SameView(world, s.wallet);
      StoredIsLive(world, Step(world, s, e));
    case Reloaded =>
      FreshIsFaithful(world, Indices(None, None));
      if s.saved.Some? {
        var w :| Saved(world, s.saved.value, w) && Faithful(world, w);
        DescribesLoads(s.saved.value, w);
      }
  }

  /** A failed pass changes nothing; after any other the saved aggregate describes the live wallet. */
  lemma StoredAfterPass(world: World, s: Session, node: Node, skips: bool)
    requires Synchronized(world, s)
    ensures var end := Step(world, s, Synced(node, skips));
            end == s || (end.saved.Some? ==> Saved(world, end.saved.value, end.wallet))
  {
    var env := Env(world, node, skips);
    SyncFails(env, s.wallet);
    if InReach(env, s.wallet) {
      SyncGroundTruth(env, s.wallet);
      StepKeepsSynchronized(world, s, Synced(node, skips));
      StoredIsLive(world, Step(world, s, Synced(node, skips)));
    }
  }

  /** In every run without a harmful step the live wallet is the from-genesis scan of the chain it is at. */
  lemma {:induction false} RunsStayFaithful(world: World, s: Session, events: seq<Event>)
    requires AllFaithful(world, s) && HarmlessRun(world, s, events)
    ensures AllFaithful(world, Run(world, s, events))
    decreases |events|
  {
    if events != [] {
      StepStaysFaithful(world, s, events[0]);
      RunsStayFaithful(world, Step(world, s, events[0]), events[1..]);
    }
  }

  /** A new wallet, revealed up to any indices, is where such runs may start. */
  lemma FreshSessionFaithful(world: World, indices: Indices)
    ensures AllFaithful(world, Session(Fresh(indices), None))
  {
    FreshIsFaithful(world, indices);
    FreshDescribed(indices);
  }

  /** After any run, harmful steps included, a pass that rebuilds makes everything faithful again. */
  lemma RebuildRestoresFaith(world: World, s: Session, node: Node, skips: bool)
    requires Synchronized(world, s)
    requires InReach(Env(world, node, skips), s.wallet) && WillRebuild(Env(world, node, skips), s.wallet)
    ensures AllFaithful(world, Step(world, s, Synced(node, skips)))
  {
    var env := Env(world, node, skips);
    RebuildsExactly(env, s.wallet);
    RebuiltIsFaithful(env, s.wallet);
    StepKeepsSynchronized(world, s, Synced(node, skips));
    OutcomeGroundTruth(env, s.wallet);
    StoredIsLive(world, Step(world, s, Synced(node, skips)));
  }

  // ----- Every height -----

  /** The live wallet holds every height up to its tip, and so does the one the saved aggregate loads to. */
  ghost predicate AllFull(world: World, s: Session) {
    && Synchronized(world, s) && Full(s.wallet.chain)
    && (s.saved.Some? ==> exists w :: Saved(world, s.saved.value, w) && Full(w.chain))
  }

  lemma StepKeepsFull(world: World, s: Session, e: Event)
    requires AllFull(world, s)
    ensures AllFull(world, Step(world, s, e))
  {
    StepKeepsSynchronized(world, s, e);
    match e
    case Synced(node, skips) =>
      SyncKeepsFull(Env(world, node, skips), s.wallet);
      StoredAfterPass(world, s, node, skips);
    case Revealed(_, _) =>
    case Persisted =>
      StoredIsLive(world, Step(world, s, e));
    case Reloaded =>
      if s.saved.Some? {
        var w :| Saved(world, s.saved.value, w) && Full(w.chain);
        DescribesLoads(s.saved.value, w);
      }
  }

  lemma {:induction false} RunsKeepFull(world: World, s: Session, events: seq<Event>)
    requires AllFull(world, s)
    ensures AllFull(world, Run(world, s, events))
    decreases |events|
  {
    if events != [] {
      StepKeepsFull(world, s, events[0]);
      RunsKeepFull(world, Step(world, s, events[0]), events[1..]);
    }
  }

  /**
   In every run from a new wallet, a pass can lose a payment only when the emitter resumes at the
   start height and the wallet's chain forked from the node's exactly two blocks below its tip.
   */
  lemma RunsLoseOnlyTwoDeep(world: World, events: seq<Event>, node: Node, skips: bool)
    ensures var env, w := Env(world, node, skips), Run(world, START, events).wallet;
            InReach(env, w) && Loses(env, w) ==> skips && Height(w.chain.tip) - Fork(env, w) == 2
  {
    var env, w := Env(world, node, skips), Run(world, START, events).wallet;
    StartIsSynchronized(world);
    RunsKeepFull(world, START, events);
    if InReach(env, w) {
      OnlyTwoDeepLoses(env, w);
    }
  }

  // ----- What a pass hands over -----

  /** From `a` to `b`, what was staged is joined by what is new, and by nothing else. */
  ghost predicate StagesNew(a: State, b: State) {
    && a.txs <= b.txs && a.anchors <= b.anchors && b.indices == a.indices
    && b.staged.txs == a.staged.txs + (b.txs - a.txs)
    && b.staged.anchors == a.staged.anchors + (b.anchors - a.anchors)
    && b.staged.indices == a.staged.indices
  }

  lemma StagesNewTwice(a: State, b: State, c: State)
    requires StagesNew(a, b) && StagesNew(b, c)
    ensures StagesNew(a, c)
  {
    assert c.txs - a.txs == (b.txs - a.txs) + (c.txs - b.txs);
    assert c.anchors - a.anchors == (b.anchors - a.anchors) + (c.anchors - b.anchors);
  }

  lemma ApplyStagesNew(world: World, s: State, blk: Block, conn: Block)
    requires ApplyBlock(world, s, blk, conn).Some?
    ensures StagesNew(s, ApplyBlock(world, s, blk, conn).value)
  {
    var txs := RelevantTxs(world, s.indices, BlockTxs(blk));
    var anchors := Anchored(txs, blk);
    assert s.txs + txs - s.txs == txs - s.txs;
    assert s.anchors + anchors - s.anchors == anchors - s.anchors;
  }

  lemma {:induction false} DriveStagesNew(env: Env, s: State, start: nat, last: nat, count: nat)
    requires last <= Height(env.node.tip)
    ensures StagesNew(s, DriveFrom(env, s, start, last, count).s)
    decreases Height(env.node.tip) - last
  {
    var e := Emit(env, start, last);
    if e.Emitted? {
      var next := ApplyBlock(env.world, s, e.blk, e.connectedTo);
      if next.Some? {
        ApplyStagesNew(env.world, s, e.blk, e.connectedTo);
        DriveStagesNew(env, next.value, start, Height(e.blk), SaturatingSucc(count));
        StagesNewTwice(s, next.value, DriveFrom(env, next.value, start, Height(e.blk), SaturatingSucc(count)).s);
      }
    }
  }

  lemma DriveAndMempoolStageNew(env: Env, s: State, start: nat, last: nat)
    requires last <= Height(env.node.tip)
    ensures var x := DriveFrom(env, s, start, last, 0).s;
            x.indices == s.indices && StagesNew(s, ApplyUnconfirmed(env.world, x, env.node.mempool))
  {
    DriveStagesNew(env, s, start, last, 0);
    var x := DriveFrom(env, s, start, last, 0).s;
    var txs := RelevantTxs(env.world, x.indices, TxidSet(env.node.mempool));
    assert x.txs + txs - x.txs == txs - x.txs;
    StagesNewTwice(s, x, ApplyUnconfirmed(env.world, x, env.node.mempool));
  }

  /** `handed` is what was staged in `from` and what `after` has beyond it. */
  ghost predicate HandsOver(from: State, after: State, handed: Option<ChangeSet>) {
    after.staged == NOTHING && StagesNew(from, after.(staged := Aggregate(handed)))
  }

  lemma RebuildHandsOver(env: Env, s: State, before: set<Txid>)
    ensures var pass := Rebuild(env, s, before);
            pass.outcome.Ok? && HandsOver(Fresh(s.indices), pass.after, pass.outcome.result.changeset)
  {
    RebuildScans(env, s, before);
    DriveAndMempoolStageNew(env, Fresh(s.indices), 0, 0);
  }

  /**
   The change set of a successful pass: what was still staged and the transactions and anchors the
   wallet did not have, of which a wallet that was rebuilt had none.
   */
  lemma ChangesetIsNew(env: Env, s: State)
    requires Sync(env, s).outcome.Ok?
    ensures var pass := Sync(env, s);
            HandsOver(if pass.outcome.result.reorgRebuilt then Fresh(s.indices) else s, pass.after,
                      pass.outcome.result.changeset)
  {
    var start, before := Height(s.chain.tip), Confirmed(s);
    DriveStagesNew(env, s, start, Agreement(s.chain, env.node.tip), 0);
    DriveAndMempoolStageNew(env, s, start, Agreement(s.chain, env.node.tip));
    OnlyRebuildsReport(env, s);
    match DriveFrom(env, s, start, Agreement(s.chain, env.node.tip), 0)
    case Broken(_) =>
    case Stuck(x, _) => RebuildHandsOver(env, x, before);
    case Drove(x, _) =>
      RebuildHandsOver(env, x, before);
      RebuildHandsOver(env, ApplyUnconfirmed(env.world, x, env.node.mempool), before);
  }

  // ----- Replace, not merge -----

  /** A scan from genesis never drops a checkpoint. */
  ghost predicate NoDrops(chain: map<nat, Option<Block>>) {
    forall h :: h in chain ==> chain[h].Some?
  }

  /** One block on top of the wallet's tip drops no checkpoint. */
  lemma StepNeverDrops(world: World, s: State, tip: Block, last: nat)
    requires ValidState(world, s) && NoDrops(s.staged.chain)
    requires last < Height(tip) && s.chain.tip == At(tip, last)
    ensures var next := ApplyBlock(world, s, At(tip, last + 1), At(tip, last));
            && next.Some? && ValidState(world, next.value) && NoDrops(next.value.staged.chain)
            && next.value.chain.tip == At(tip, last + 1)
  {
    StepLevel(world, s, tip, last);
    GrowingNeverDrops(s.chain, ApplyBlock(world, s, At(tip, last + 1), At(tip, last)).value.chain);
  }

  lemma {:induction false} DriveNeverDrops(env: Env, s: State, start: nat, last: nat, count: nat)
    requires ValidState(env.world, s) && NoDrops(s.staged.chain)
    requires last <= Height(env.node.tip) && s.chain.tip == At(env.node.tip, last) && (env.skips ==> start <= last)
    ensures NoDrops(DriveFrom(env, s, start, last, count).s.staged.chain)
    decreases Height(env.node.tip) - last
  {
    if last < Height(env.node.tip) {
      StepNeverDrops(env.world, s, env.node.tip, last);
      var next := ApplyBlock(env.world, s, At(env.node.tip, last + 1), At(env.node.tip, last)).value;
      DriveUnfolds(env, s, start, last, count);
      DriveNeverDrops(env, next, start, last + 1, SaturatingSucc(count));
    }
  }

  lemma GrowingNeverDrops(before: LocalChain, after: LocalChain)
    requires ValidChain(after) && before.heights <= after.heights
    ensures NoDrops(ChainDiff(before, after))
  {
  }

  lemma RebuildNeverDrops(env: Env, s: State, before: set<Txid>)
    ensures var pass := Rebuild(env, s, before);
            && pass.outcome.Ok? && pass.outcome.result.changeset.Some?
            && NoDrops(pass.outcome.result.changeset.value.chain)
  {
    RebuildDescribes(env, s, before);
    var f := Fresh(s.indices);
    assert ValidState(env.world, f) && At(env.node.tip, 0) == Genesis;
    DriveNeverDrops(env, f, 0, 0, 0);
  }

  lemma RebuiltNeverDrops(env: Env, s: State)
    requires Rebuilds(env, s)
    ensures var pass := Sync(env, s);
            && pass.outcome.result.changeset.Some? && NoDrops(pass.outcome.result.changeset.value.chain)
  {
    var before := Confirmed(s);
    match DriveOf(env, s)
    case Broken(_) =>
    case Stuck(x, _) =>
      RebuildNeverDrops(env, x, before);
    case Drove(x, _) =>
      RebuildNeverDrops(env, x, before);
      RebuildNeverDrops(env, ApplyUnconfirmed(env.world, x, env.node.mempool), before);
  }

  predicate Within(chain: map<nat, Option<Block>>, c: LocalChain) {
    forall h :: h in Kept(chain) ==> h <= Height(c.tip)
  }

  /** Nothing in the earlier aggregate is news to the wallet `s`. */
  predicate Covered(earlier: ChangeSet, s: State) {
    && earlier.txs <= s.txs && earlier.anchors <= s.anchors && MergeIndices(earlier.indices, s.indices) == s.indices
    && Within(earlier.chain, s.chain)
  }

  /** Nothing in the earlier aggregate is missing from the node and its mempool, or revealed further. */
  ghost predicate KnownToNode(earlier: ChangeSet, env: Env, indices: Indices) {
    && earlier.txs <= Scan(env.world, indices, env.node.tip) +
       RelevantTxs(env.world, indices, TxidSet(env.node.mempool))
    && earlier.anchors <= AnchorsAbove(env.world, indices, env.node.tip, 0)
    && MergeIndices(earlier.indices, indices) == indices
    && forall h :: h in Kept(earlier.chain) ==> h <= Height(env.node.tip)
  }

  lemma MergedChain(earlier: map<nat, Option<Block>>, changes: map<nat, Option<Block>>, c: LocalChain)
    requires NoDrops(changes) && Agrees(changes, c)
    requires ValidChain(c) && forall h: nat :: h <= Height(c.tip) ==> h in c.heights
    ensures Within(earlier, c) ==> Agrees(earlier + changes, c)
    ensures Kept(earlier + changes) == c.heights ==> Within(earlier, c)
  {
    forall h: nat
      ensures h in changes <==> h <= Height(c.tip)
      ensures h in changes ==> changes[h].Some?
    {
      assert Recorded(changes, h) == Lookup(c, h);
    }
    if Within(earlier, c) {
      forall h: nat ensures Recorded(earlier + changes, h) == Lookup(c, h) {
        assert Recorded(changes, h) == Lookup(c, h);
        assert h in earlier && earlier[h].Some? ==> h in Kept(earlier);
      }
    }
    assert forall h :: h in Kept(earlier) && h > Height(c.tip) ==> h in Kept(earlier + changes);
  }

  lemma MergedLoads(earlier: ChangeSet, changes: ChangeSet, after: State)
    requires ValidChain(after.chain) && after.staged == NOTHING && Describes(changes, after)
    requires Within(earlier.chain, after.chain) ==> Agrees(earlier.chain + changes.chain, after.chain)
    requires Kept(earlier.chain + changes.chain) == after.chain.heights ==> Within(earlier.chain, after.chain)
    ensures Load(Merge(earlier, changes)) == Some(after) <==> Covered(earlier, after)
  {
    var merged := Merge(earlier, changes);
    if Covered(earlier, after) {
      assert merged.txs == after.txs && merged.anchors == after.anchors;
      assert Describes(merged, after);
      DescribesLoads(merged, after);
    }
    if Load(merged) == Some(after) {
      assert earlier.txs <= merged.txs && earlier.anchors <= merged.anchors;
      assert Kept(merged.chain) == after.chain.heights;
    }
  }

  lemma ScannedChain(env: Env, indices: Indices, s: State)
    requires Scanned(env, indices, s)
    ensures ValidChain(s.chain) && forall h: nat :: h <= Height(s.chain.tip) ==> h in s.chain.heights
  {
    var top := Height(env.node.tip);
    forall h: nat ensures h in {0} + Heights(0, top) <==> h <= top {
    }
    assert s.chain.heights == {0} + Heights(0, top);
  }

  lemma RebuiltIsMerged(env: Env, s: State, earlier: ChangeSet)
    requires ValidState(env.world, s) && Rebuilds(env, s) && Sync(env, s).outcome.result.changeset.Some?
    ensures var pass := Sync(env, s);
            Load(Merge(earlier, pass.outcome.result.changeset.value)) == Some(pass.after) <==>
              Covered(earlier, pass.after)
  {
    var after, changes := Sync(env, s).after, Sync(env, s).outcome.result.changeset.value;
    RebuiltChanges(env, s);
    RebuiltNeverDrops(env, s);
    RebuiltPass(env, s);
    ScannedChain(env, s.indices, after);
    MergedChain(earlier.chain, changes.chain, after.chain);
    MergedLoads(earlier, changes, after);
  }

  /**
   Merging the change set of a rebuild, where the contract is to replace, gives back the rebuilt
   wallet only if the earlier aggregate held no transaction, anchor or height that the node has not.
   */
  lemma MergingARebuild(env: Env, s: State, earlier: ChangeSet)
    requires ValidState(env.world, s) && InReach(env, s) && WillRebuild(env, s)
    ensures var pass := Sync(env, s);
            && pass.outcome.Ok? && pass.outcome.result.changeset.Some?
            && (Load(Merge(earlier, pass.outcome.result.changeset.value)) == Some(pass.after) <==>
                KnownToNode(earlier, env, s.indices))
  {
    RebuildsExactly(env, s);
    RebuiltChanges(env, s);
    RebuiltPass(env, s);
    RebuiltIsMerged(env, s, earlier);
    assert Covered(earlier, Sync(env, s).after) <==> KnownToNode(earlier, env, s.indices);
  }
}
