/**
 What decides a pass, said of the wallet and the node before it: when it rebuilds, when it leaves
 the wallet the from-genesis scan of the node's chain, and what it loses and evicts.
 */
module ChainSyncConditions {
  import opened Seqs
  import opened Blocks
  import opened ChainSync
  import opened ChainSyncTheorems
  import opened ChainSyncGuarantees
  import opened ChainSyncResults

  /** The first block the emitter sends connects to the wallet's checkpoints. */
  predicate FirstConnects(env: Env, s: State) {
    || Fork(env, s) == Height(s.chain.tip)
    || (ResumeBelow(env, s) < Height(env.node.tip) &&
        Connect(s.chain, At(env.node.tip, ResumeBelow(env, s) + 1), At(env.node.tip, Fork(env, s))).Some?)
  }

  /** The wallet with every block the emitter sends, and nothing staged. */
  ghost function CaughtUpState(env: Env, s: State): State {
    var tip, resume := env.node.tip, ResumeBelow(env, s);
    State(
      LocalChain(tip, KeptHeights(s, Fork(env, s)) + {resume} + Heights(resume, Height(tip))),
      s.txs + TxsAbove(env.world, s.indices, tip, resume),
      s.anchors + AnchorsAbove(env.world, s.indices, tip, resume),
      s.indices,
      NOTHING)
  }

  /** Either signal: an anchor off the chain, or an unconfirmed transaction that is not in the mempool. */
  ghost predicate Signals(env: Env, s: State) {
    || HasOrphanedAnchor(s)
    || HasStaleUnconfirmed(env.world, ApplyUnconfirmed(env.world, s, env.node.mempool), TxidSet(env.node.mempool))
  }

  ghost predicate WillRebuild(env: Env, s: State) {
    if Behind(env, s) then Signals(env, s) else !FirstConnects(env, s) || Signals(env, CaughtUpState(env, s))
  }

  // ----- When a pass rebuilds -----

  lemma SignalsIgnoreStaged(env: Env, s: State)
    ensures Signals(env, TakeStaged(s)) <==> Signals(env, s)
  {
    var a, b := ApplyUnconfirmed(env.world, TakeStaged(s), env.node.mempool),
      ApplyUnconfirmed(env.world, s, env.node.mempool);
    assert TakeStaged(a) == TakeStaged(b);
    SameView(env.world, a);
    SameView(env.world, b);
    SameView(env.world, s);
  }

  /** After a drive that got through, the signals decide: a demotion alone never does. */
  lemma SignalsDecide(env: Env, s: State)
    requires ValidState(env.world, s) && DriveOf(env, s).Drove?
    ensures Sync(env, s).outcome.Ok? && (Rebuilds(env, s) <==> Signals(env, DriveOf(env, s).s))
  {
    var s1, before := DriveOf(env, s).s, Confirmed(s);
    if !(before <= Confirmed(s1)) {
      DemotionImpliesOrphan(env, s);
    }
    RebuildScans(env, s1, before);
    RebuildScans(env, ApplyUnconfirmed(env.world, s1, env.node.mempool), before);
  }

  lemma Applies(world: World, s: State, blk: Block, conn: Block)
    ensures ApplyBlock(world, s, blk, conn).Some? <==> Connect(s.chain, blk, conn).Some?
  {
  }

  /** After a fork the first block decides: it does not connect, or the drive catches up. */
  lemma ForkConnects(env: Env, s: State)
    requires ValidState(env.world, s) && Fork(env, s) < Height(s.chain.tip)
    requires InReach(env, s) && ResumeBelow(env, s) < Height(env.node.tip) && FirstConnects(env, s)
    ensures DriveOf(env, s).Drove? && Reached(env, s, DriveOf(env, s).s)
  {
    var tip, next := env.node.tip, ResumeBelow(env, s) + 1;
    FirstEmission(env, s);
    Applies(env.world, s, At(tip, next), At(tip, Fork(env, s)));
    DriveFork(env, s, next, 1);
  }

  lemma ForkSticks(env: Env, s: State)
    requires Fork(env, s) < Height(s.chain.tip) && ResumeBelow(env, s) < Height(env.node.tip)
    requires ApplyBlock(env.world, s, At(env.node.tip, ResumeBelow(env, s) + 1), At(env.node.tip, Fork(env, s))).None?
    ensures DriveOf(env, s).Stuck?
  {
    FirstEmission(env, s);
  }

  /** Not behind, and within reach: the drive gets stuck at its first block, or catches up. */
  lemma DriveDecided(env: Env, s: State)
    requires ValidState(env.world, s) && InReach(env, s) && !Behind(env, s)
    ensures if FirstConnects(env, s) then DriveOf(env, s).Drove? && Reached(env, s, DriveOf(env, s).s)
            else DriveOf(env, s).Stuck?
  {
    if Fork(env, s) == Height(s.chain.tip) {
      DriveExtends(env, s);
    } else if FirstConnects(env, s) {
      ForkConnects(env, s);
    } else {
      Applies(env.world, s, At(env.node.tip, ResumeBelow(env, s) + 1), At(env.node.tip, Fork(env, s)));
      ForkSticks(env, s);
    }
  }

  lemma StuckRebuilds(env: Env, s: State)
    requires DriveOf(env, s).Stuck?
    ensures Rebuilds(env, s)
  {
    RebuildScans(env, DriveOf(env, s).s, Confirmed(s));
  }

  /** A pass rebuilds exactly when its first block does not connect or a signal is on once it caught up. */
  lemma RebuildsExactly(env: Env, s: State)
    requires ValidState(env.world, s) && InReach(env, s)
    ensures Rebuilds(env, s) <==> WillRebuild(env, s)
  {
    if Behind(env, s) {
      BehindPass(env, s);
    } else {
      DriveDecided(env, s);
      if FirstConnects(env, s) {
        SignalsDecide(env, s);
        SignalsIgnoreStaged(env, DriveOf(env, s).s);
        assert TakeStaged(DriveOf(env, s).s) == CaughtUpState(env, s);
      } else {
        StuckRebuilds(env, s);
      }
    }
  }

  // ----- When a pass is exact -----

  lemma WithinReach(env: Env, s: State)
    requires InReach(env, s)
    ensures Fork(env, s) <= ResumeBelow(env, s) <= Height(env.node.tip)
  {
  }

  /**
   The pass loses a payment: the emitter leaves out blocks, nothing makes the wallet rebuild, and
   the blocks left out hold a relevant transaction that the wallet has no other anchor for.
   */
  ghost predicate Loses(env: Env, s: State)
    requires InReach(env, s)
  {
    WithinReach(env, s);
    && !WillRebuild(env, s)
    && !(SkippedTxs(env, s) <= TxsOf(s.anchors) + TxsAbove(env.world, s.indices, env.node.tip, ResumeBelow(env, s)))
  }

  lemma SkippedTxsSplit(env: Env, s: State)
    requires InReach(env, s)
    ensures Fork(env, s) <= ResumeBelow(env, s) <= Height(env.node.tip)
    ensures Scan(env.world, s.indices, env.node.tip) ==
            Scan(env.world, s.indices, At(env.node.tip, Fork(env, s))) + SkippedTxs(env, s) +
            TxsAbove(env.world, s.indices, env.node.tip, ResumeBelow(env, s))
    ensures ResumeBelow(env, s) == Fork(env, s) ==> SkippedTxs(env, s) == {}
  {
    var tip, fork, resume := env.node.tip, Fork(env, s), ResumeBelow(env, s);
    ScanSplits(env.world, s.indices, tip, resume);
    ScanSplits(env.world, s.indices, At(tip, resume), fork);
    AtAt(tip, resume, fork);
  }

  /** The anchors of a wallet that is a scan cover the chain it shares with the node. */
  lemma AnchorsCoverFork(env: Env, s: State)
    requires ValidState(env.world, s) && Faithful(env.world, s)
    ensures Scan(env.world, s.indices, At(env.node.tip, Fork(env, s))) <= TxsOf(s.anchors)
  {
    SharedPrefix(env, s);
    AgreementIs(s.chain, env.node.tip, Height(s.chain.tip));
    ScanSplits(env.world, s.indices, s.chain.tip, Fork(env, s));
  }

  lemma QuietExactness(env: Env, s: State)
    requires ValidState(env.world, s) && Faithful(env.world, s) && InReach(env, s)
    requires Quiet(env, s) && !Behind(env, s)
    ensures Fork(env, s) <= ResumeBelow(env, s) <= Height(env.node.tip)
    ensures Faithful(env.world, Sync(env, s).after) <==>
            SkippedTxs(env, s) <= TxsOf(s.anchors) + TxsAbove(env.world, s.indices, env.node.tip, ResumeBelow(env, s))
  {
    SkippedTxsSplit(env, s);
    QuietConfirms(env, s);
    AnchorsCoverFork(env, s);
    ConfirmedIsScanned(env, s);
  }

  /** What a quiet pass confirms is on the node's chain and relevant. */
  lemma ConfirmedIsScanned(env: Env, s: State)
    requires ValidState(env.world, s) && Quiet(env, s) && !Behind(env, s)
    ensures Confirmed(Sync(env, s).after) <= Scan(env.world, s.indices, env.node.tip)
  {
    var after := Sync(env, s).after;
    OutcomeGroundTruth(env, s);
    QuietConfirms(env, s);
    forall t | t in Confirmed(after) ensures Relevant(env.world, s.indices, t) {
      ConfirmedIsRelevant(env.world, after, t);
    }
  }

  /**
   Of a wallet that was the scan of its chain: after the pass it is one again exactly unless the
   pass loses a payment.
   */
  lemma SyncIsFaithful(env: Env, s: State)
    requires ValidState(env.world, s) && Faithful(env.world, s) && InReach(env, s)
    ensures Sync(env, s).outcome.Ok? && Sync(env, s).after.indices == s.indices
    ensures Faithful(env.world, Sync(env, s).after) <==> !Loses(env, s)
  {
    SyncGroundTruth(env, s);
    RebuildsExactly(env, s);
    SkippedTxsSplit(env, s);
    if ResumeBelow(env, s) == Fork(env, s) {
      SyncRefinesScan(env, s);
    } else if Rebuilds(env, s) {
      RebuiltIsFaithful(env, s);
    } else {
      QuietExactness(env, s);
      QuietConfirms(env, s);
    }
  }

  // ----- Healthy wallets -----

  predicate AnchoredAbove(s: State, fork: nat) {
    exists a :: a in s.anchors && Height(a.1) > fork
  }

  /** In a healthy wallet an anchor is orphaned by catching up exactly when it is above the fork. */
  lemma OrphansAreAboveFork(env: Env, s: State)
    requires ValidState(env.world, s) && InReach(env, s) && !Behind(env, s) && !HasOrphanedAnchor(s)
    ensures HasOrphanedAnchor(CaughtUpState(env, s)) <==> AnchoredAbove(s, Fork(env, s))
  {
    var c := CaughtUpState(env, s);
    SharedPrefix(env, s);
    forall a | a in c.anchors
      ensures InChain(c.chain, a.1) <==> !(a in s.anchors && Height(a.1) > Fork(env, s))
    {
      AnchorAfterCatchingUp(env, s, a);
    }
    if AnchoredAbove(s, Fork(env, s)) {
      var a :| a in s.anchors && Height(a.1) > Fork(env, s);
      assert a in c.anchors;
    }
  }

  lemma AnchorAfterCatchingUp(env: Env, s: State, a: (Txid, Block))
    requires ValidState(env.world, s) && InReach(env, s) && !Behind(env, s) && !HasOrphanedAnchor(s)
    requires a in CaughtUpState(env, s).anchors
    ensures InChain(CaughtUpState(env, s).chain, a.1) <==> !(a in s.anchors && Height(a.1) > Fork(env, s))
  {
    var tip, h, resume := env.node.tip, Height(a.1), ResumeBelow(env, s);
    SharedPrefix(env, s);
    AnchorsAboveAre(env.world, s.indices, tip, resume, a);
    if a in s.anchors {
      assert InChain(s.chain, a.1);
      if h <= Fork(env, s) {
        AtAt(s.chain.tip, Fork(env, s), h);
        AtAt(tip, Fork(env, s), h);
      }
    }
  }

  /**
   A healthy wallet that will not rebuild is the from-genesis scan of the node's chain after the
   pass exactly when the blocks between the fork and the first emitted block hold nothing relevant
   that is not also in a block the wallet has or is sent.
   */
  lemma QuietIsFaithful(env: Env, s: State)
    requires ValidState(env.world, s) && Faithful(env.world, s) && !HasOrphanedAnchor(s)
    requires InReach(env, s) && !Behind(env, s) && !WillRebuild(env, s)
    ensures Fork(env, s) <= ResumeBelow(env, s) <= Height(env.node.tip)
    ensures Faithful(env.world, Sync(env, s).after) <==>
            SkippedTxs(env, s) <= Scan(env.world, s.indices, At(env.node.tip, Fork(env, s))) +
                                  TxsAbove(env.world, s.indices, env.node.tip, ResumeBelow(env, s))
  {
    SyncIsFaithful(env, s);
    OrphansAreAboveFork(env, s);
    SharedAnchors(env, s);
  }

  /**
   A healthy wallet below the node's height, after a fork: the pass leaves it exact when its first
   block does not connect, when the wallet has an anchor above the fork, when an unconfirmed
   transaction is stale, or when the blocks left out hold nothing new. And only then.
   */
  lemma HealthySyncIsFaithful(env: Env, s: State)
    requires ValidState(env.world, s) && Faithful(env.world, s) && !HasOrphanedAnchor(s)
    requires Fork(env, s) < Height(s.chain.tip) <= Height(env.node.tip)
    ensures Fork(env, s) <= ResumeBelow(env, s) < Height(env.node.tip)
    ensures var tip, fork, resume := env.node.tip, Fork(env, s), ResumeBelow(env, s);
            Faithful(env.world, Sync(env, s).after) <==>
              || Connect(s.chain, At(tip, resume + 1), At(tip, fork)).None?
              || AnchoredAbove(s, fork)
              || HasStaleUnconfirmed(env.world, ApplyUnconfirmed(env.world, CaughtUpState(env, s), env.node.mempool),
                                     TxidSet(env.node.mempool))
              || SkippedTxs(env, s) <= Scan(env.world, s.indices, At(tip, fork)) +
                 TxsAbove(env.world, s.indices, tip, resume)
  {
    ForkedBelow(env, s);
    OrphansAreAboveFork(env, s);
    if WillRebuild(env, s) {
      SyncIsFaithful(env, s);
    } else {
      QuietIsFaithful(env, s);
    }
  }

  lemma ForkedBelow(env: Env, s: State)
    requires Fork(env, s) < Height(s.chain.tip) <= Height(env.node.tip)
    ensures Fork(env, s) <= ResumeBelow(env, s) < Height(env.node.tip) && !Behind(env, s)
    ensures FirstConnects(env, s) <==>
            Connect(s.chain, At(env.node.tip, ResumeBelow(env, s) + 1), At(env.node.tip, Fork(env, s))).Some?
  {
  }

  /** Without an anchor above the fork, the anchors of a healthy wallet are the scan up to the fork. */
  lemma SharedAnchors(env: Env, s: State)
    requires ValidState(env.world, s) && Faithful(env.world, s) && !HasOrphanedAnchor(s)
    requires !AnchoredAbove(s, Fork(env, s))
    ensures TxsOf(s.anchors) == Scan(env.world, s.indices, At(env.node.tip, Fork(env, s)))
  {
    var fork := Fork(env, s);
    AnchorsCoverFork(env, s);
    SharedPrefix(env, s);
    AgreementIs(s.chain, env.node.tip, Height(s.chain.tip));
    forall a | a in s.anchors ensures a.0 in Scan(env.world, s.indices, At(env.node.tip, fork)) {
      assert InChain(s.chain, a.1) && Height(a.1) <= fork;
      AtAt(s.chain.tip, fork, Height(a.1));
      BlockTxsOnChain(a.1, At(s.chain.tip, fork));
    }
  }

  // ----- What a pass reports -----

  /** A count that 32 bits hold, or the largest that they do. */
  function Capped(n: nat): nat {
    if n <= 0xFFFF_FFFF then n else 0xFFFF_FFFF
  }

  /** If the drive got through, it counted on from `count` for `left` blocks. */
  ghost predicate Counted(d: Drive, count: nat, left: int) {
    d.Drove? ==> d.count == if count + left <= 0xFFFF_FFFF then count + left else 0xFFFF_FFFF
  }

  lemma CountsOn(d: Drive, count: nat, left: nat)
    requires count <= 0xFFFF_FFFF && left > 0 && Counted(d, SaturatingSucc(count), left - 1)
    ensures Counted(d, count, left)
  {
  }

  /** A drive that gets through counts one for every block above `last`. */
  lemma {:induction false} DriveCounts(env: Env, s: State, start: nat, last: nat, count: nat)
    requires last <= Height(env.node.tip) && (env.skips ==> start <= last) && count <= 0xFFFF_FFFF
    ensures Counted(DriveFrom(env, s, start, last, count), count, Height(env.node.tip) - last)
    decreases Height(env.node.tip) - last
  {
    var tip := env.node.tip;
    if last == Height(tip) {
      DriveEnds(env, s, start, last, count);
    } else {
      var applied := ApplyBlock(env.world, s, At(tip, last + 1), At(tip, last));
      if applied.Some? {
        DriveUnfolds(env, s, start, last, count);
        DriveCounts(env, applied.value, start, last + 1, SaturatingSucc(count));
        CountsOn(DriveFrom(env, s, start, last, count), count, Height(tip) - last);
      } else {
        DriveSticks(env, s, start, last, count);
      }
    }
  }

  lemma DriveEnds(env: Env, s: State, start: nat, last: nat, count: nat)
    requires last == Height(env.node.tip) && (env.skips ==> start <= last)
    ensures DriveFrom(env, s, start, last, count) == Drove(s, count)
  {
  }

  lemma DriveSticks(env: Env, s: State, start: nat, last: nat, count: nat)
    requires last < Height(env.node.tip) && (env.skips ==> start <= last)
    requires ApplyBlock(env.world, s, At(env.node.tip, last + 1), At(env.node.tip, last)).None?
    ensures DriveFrom(env, s, start, last, count).Stuck?
  {
  }

  /** The first block after a fork leaves a valid wallet at that block. */
  lemma AdvancesAfterFork(env: Env, s: State)
    requires ValidState(env.world, s) && Fork(env, s) < Height(s.chain.tip)
    requires ResumeBelow(env, s) < Height(env.node.tip) && FirstConnects(env, s)
    ensures var tip, next := env.node.tip, ResumeBelow(env, s) + 1;
            var s1 := ApplyBlock(env.world, s, At(tip, next), At(tip, Fork(env, s)));
            && s1.Some? && ValidState(env.world, s1.value) && s1.value.chain.tip == At(tip, next)
            && DriveOf(env, s) == DriveFrom(env, s1.value, Height(s.chain.tip), next, 1)
  {
    var tip, next := env.node.tip, ResumeBelow(env, s) + 1;
    AgreementIs(s.chain, tip, Height(s.chain.tip));
    Applies(env.world, s, At(tip, next), At(tip, Fork(env, s)));
    StepFork(env, s, Fork(env, s), next);
    FirstEmission(env, s);
  }

  /** The blocks a pass applies after a fork. */
  lemma ForkApplies(env: Env, s: State)
    requires ValidState(env.world, s) && InReach(env, s) && !Behind(env, s)
    requires Fork(env, s) < Height(s.chain.tip) && FirstConnects(env, s)
    ensures DriveOf(env, s).Drove? && Counted(DriveOf(env, s), 0, Height(env.node.tip) - ResumeBelow(env, s))
  {
    var tip, next := env.node.tip, ResumeBelow(env, s) + 1;
    AdvancesAfterFork(env, s);
    var s1 := ApplyBlock(env.world, s, At(tip, next), At(tip, Fork(env, s))).value;
    DriveLevel(env, s1, Height(s.chain.tip), next, 1);
    DriveCounts(env, s1, Height(s.chain.tip), next, 1);
  }

  /** The blocks a pass applies before it looks at the signals. */
  lemma DriveApplies(env: Env, s: State)
    requires ValidState(env.world, s) && InReach(env, s) && (Behind(env, s) || FirstConnects(env, s))
    ensures DriveOf(env, s).Drove?
    ensures Counted(DriveOf(env, s), 0, if Behind(env, s) then 0 else Height(env.node.tip) - ResumeBelow(env, s))
  {
    WithinReach(env, s);
    if Fork(env, s) == Height(s.chain.tip) {
      DriveExtends(env, s);
      DriveCounts(env, s, Fork(env, s), Fork(env, s), 0);
    } else if Behind(env, s) {
      NothingEmitted(env, s);
    } else {
      ForkApplies(env, s);
    }
  }

  lemma QuietReports(env: Env, s: State)
    requires Quiet(env, s)
    ensures var pass := Sync(env, s);
            && DriveOf(env, s).Drove? && pass.outcome.result.blocksSynced == DriveOf(env, s).count
            && pass.outcome.result.newMempoolTxs == Capped(|env.node.mempool|)
            && pass.outcome.result.tipHeight == Height(pass.after.chain.tip)
  {
    OnlyRebuildsReport(env, s);
  }

  lemma OnlyRebuildsReport(env: Env, s: State)
    ensures forall x, before :: Rebuild(env, x, before).outcome.Ok? ==>
            Rebuild(env, x, before).outcome.result.reorgRebuilt
  {
  }

  lemma RebuildReports(env: Env, s: State, before: set<Txid>)
    ensures var pass := Rebuild(env, s, before);
            && pass.outcome.Ok? && pass.outcome.result.blocksSynced == Capped(Height(env.node.tip))
            && pass.outcome.result.newMempoolTxs == Capped(|env.node.mempool|)
            && pass.outcome.result.tipHeight == Height(pass.after.chain.tip)
  {
    RebuildScans(env, s, before);
    DriveCounts(env, Fresh(s.indices), 0, 0, 0);
  }

  /** The counters of a pass that will rebuild. */
  lemma RebuiltReports(env: Env, s: State)
    requires Rebuilds(env, s)
    ensures var pass := Sync(env, s);
            && pass.outcome.result.blocksSynced == Capped(Height(env.node.tip))
            && pass.outcome.result.newMempoolTxs == Capped(|env.node.mempool|)
            && pass.outcome.result.tipHeight == Height(pass.after.chain.tip)
  {
    var before := Confirmed(s);
    match DriveOf(env, s)
    case Broken(_) =>
    case Stuck(x, _) =>
      RebuildReports(env, x, before);
    case Drove(x, _) =>
      RebuildReports(env, x, before);
      RebuildReports(env, ApplyUnconfirmed(env.world, x, env.node.mempool), before);
  }

  /** How many blocks a pass applies, said of wallet and node before it. */
  ghost function BlocksAhead(env: Env, s: State): int {
    if WillRebuild(env, s) then Height(env.node.tip)
    else if Behind(env, s) then 0
    else Height(env.node.tip) - ResumeBelow(env, s)
  }

  /**
   The counters of every successful pass: the wallet's height after it, the size of the mempool, and
   the blocks above the last one left out, or above genesis when it rebuilds, each cut to 32 bits.
   */
  lemma SyncReports(env: Env, s: State)
    requires ValidState(env.world, s) && InReach(env, s)
    ensures Sync(env, s).outcome.Ok? && BlocksAhead(env, s) >= 0
    ensures var pass := Sync(env, s);
            && pass.outcome.result.tipHeight == Height(pass.after.chain.tip)
            && pass.outcome.result.newMempoolTxs == Capped(|env.node.mempool|)
            && pass.outcome.result.blocksSynced == Capped(BlocksAhead(env, s))
            && (pass.outcome.result.reorgRebuilt <==> WillRebuild(env, s))
  {
    SyncFails(env, s);
    RebuildsExactly(env, s);
    WithinReach(env, s);
    if WillRebuild(env, s) {
      RebuiltReports(env, s);
    } else {
      DriveApplies(env, s);
      QuietReports(env, s);
    }
  }

  // ----- Nothing lost, evictions exact -----

  /** The outcome of a pass, under the condition that it rebuilds. */
  lemma RebuildOutcome(env: Env, s: State)
    requires ValidState(env.world, s) && InReach(env, s) && WillRebuild(env, s)
    ensures var pass := Sync(env, s);
            && pass.outcome.Ok? && Scanned(env, s.indices, pass.after)
            && pass.outcome.result.evictedTxids == SortedTxids(Confirmed(s) - Canonical(env.world, pass.after))
  {
    RebuildsExactly(env, s);
    RebuiltPass(env, s);
  }

  lemma QuietOutcome(env: Env, s: State)
    requires ValidState(env.world, s) && InReach(env, s) && !WillRebuild(env, s)
    ensures Sync(env, s).outcome.Ok? && Sync(env, s).outcome.result.evictedTxids == []
  {
    SyncFails(env, s);
    RebuildsExactly(env, s);
    QuietEvictsNothing(env, s);
  }

  lemma QuietEvictsNothing(env: Env, s: State)
    requires Quiet(env, s)
    ensures Sync(env, s).outcome.result.evictedTxids == []
  {
    OnlyEmitterFails(env, s);
  }

  /** Every transaction confirmed before and still on the node's chain is confirmed after a rebuild. */
  lemma RebuildLosesNothing(env: Env, s: State)
    requires ValidState(env.world, s) && InReach(env, s) && WillRebuild(env, s)
    ensures Confirmed(s) * ChainTxs(env.node.tip) <= Confirmed(Sync(env, s).after)
  {
    RebuildOutcome(env, s);
    ScannedLosesNothing(env, s, Sync(env, s).after);
  }

  lemma ScannedLosesNothing(env: Env, s: State, after: State)
    requires ValidState(env.world, s) && Scanned(env, s.indices, after)
    ensures Confirmed(s) * ChainTxs(env.node.tip) <= Confirmed(after)
  {
    ScannedView(env, s.indices, after);
    forall t | t in Confirmed(s) ensures Relevant(env.world, s.indices, t) {
      ConfirmedIsRelevant(env.world, s, t);
    }
  }

  /** The transaction waits in the mempool, and nothing on the node's chain or in its mempool displaces it. */
  ghost predicate Requeued(env: Env, indices: Indices, t: Txid) {
    var onChain := Scan(env.world, indices, env.node.tip);
    && t in env.node.mempool
    && !env.world.displaced(onChain + RelevantTxs(env.world, indices, TxidSet(env.node.mempool)), onChain, t)
  }

  ghost predicate Evicted(env: Env, s: State, t: Txid) {
    t in Confirmed(s) && t !in ChainTxs(env.node.tip) && !Requeued(env, s.indices, t)
  }

  /**
   Evicted are, when the pass rebuilds, the transactions confirmed before that are no longer on the
   chain and not waiting in the mempool. Each is listed once, in order.
   */
  lemma EvictionsExact(env: Env, s: State)
    requires ValidState(env.world, s) && InReach(env, s)
    ensures Sync(env, s).outcome.Ok?
    ensures var evicted := Sync(env, s).outcome.result.evictedTxids;
            && (forall i, j :: 0 <= i < j < |evicted| ==> evicted[i] < evicted[j])
            && (forall t :: t in evicted <==> WillRebuild(env, s) && Evicted(env, s, t))
  {
    if WillRebuild(env, s) {
      RebuildOutcome(env, s);
      forall t {
        EvictedIs(env, s, Sync(env, s).after, t);
      }
    } else {
      QuietOutcome(env, s);
    }
  }

  lemma EvictedIs(env: Env, s: State, after: State, t: Txid)
    requires ValidState(env.world, s) && Scanned(env, s.indices, after)
    ensures t in Confirmed(s) - Canonical(env.world, after) <==> Evicted(env, s, t)
  {
    ScannedView(env, s.indices, after);
    if t in Confirmed(s) {
      ConfirmedIsRelevant(env.world, s, t);
      assert t in Unconfirmed(env.world, after) ==> t in TxidSet(env.node.mempool);
    }
  }

  // ----- Wallets that hold every height -----

  ghost predicate Full(c: LocalChain) {
    forall h: nat :: h in c.heights <==> h <= Height(c.tip)
  }

  lemma ConnectAtTip(c: LocalChain, blk: Block, conn: Block)
    requires Full(c) && InChain(c, conn) && Height(conn) < Height(c.tip) == Height(blk)
    ensures Connect(c, blk, conn).Some? <==> Height(blk) - Height(conn) <= 2
  {
    var above := set h | h in c.heights && h > Height(conn);
    assert Height(blk) in above && Height(conn) + 1 in above;
  }

  /**
   For an emitter that resumes at the start height, the first block connects exactly to a fork at
   most two blocks deep.
   */
  lemma FullConnects(env: Env, s: State)
    requires ValidState(env.world, s) && Full(s.chain) && env.skips
    requires Fork(env, s) < Height(s.chain.tip) <= Height(env.node.tip)
    ensures FirstConnects(env, s) <==> Height(s.chain.tip) - Fork(env, s) <= 2
  {
    AgreementIs(s.chain, env.node.tip, Height(s.chain.tip));
    ConnectAtTip(s.chain, At(env.node.tip, Height(s.chain.tip)), At(env.node.tip, Fork(env, s)));
  }

  /** Only a reorganization exactly two blocks deep can lose a payment. */
  lemma OnlyTwoDeepLoses(env: Env, s: State)
    requires ValidState(env.world, s) && Full(s.chain) && InReach(env, s)
    ensures Loses(env, s) ==> env.skips && Height(s.chain.tip) - Fork(env, s) == 2
  {
    if Loses(env, s) {
      SkippedTxsSplit(env, s);
      FullConnects(env, s);
    }
  }

  /** With every height held, any other pass keeps a wallet the scan of its chain. */
  lemma OtherwiseFaithful(env: Env, s: State)
    requires ValidState(env.world, s) && Faithful(env.world, s) && Full(s.chain) && InReach(env, s)
    requires env.skips ==> Height(s.chain.tip) - Fork(env, s) != 2
    ensures Faithful(env.world, Sync(env, s).after)
  {
    SyncIsFaithful(env, s);
    OnlyTwoDeepLoses(env, s);
  }

  /** A pass keeps a wallet that holds every height one. */
  lemma SyncKeepsFull(env: Env, s: State)
    requires ValidState(env.world, s) && Full(s.chain)
    ensures Full(Sync(env, s).after.chain)
  {
    SyncFails(env, s);
    if Rebuilds(env, s) {
      RebuiltPass(env, s);
      HeightsFill(Height(env.node.tip));
    } else if Quiet(env, s) {
      var s1 := QuietShape(env, s);
      if !Behind(env, s) {
        RebuildsExactly(env, s);
        CatchingUpFills(env, s);
      }
    }
  }

  lemma HeightsFill(top: nat)
    ensures forall h: nat :: h in {0} + Heights(0, top) <==> h <= top
  {
    forall h: nat ensures h in {0} + Heights(0, top) <==> h <= top {
    }
  }

  lemma CatchingUpFills(env: Env, s: State)
    requires ValidState(env.world, s) && Full(s.chain) && InReach(env, s) && !Behind(env, s) && FirstConnects(env, s)
    ensures Full(CaughtUpState(env, s).chain)
  {
    var fork, resume, top := Fork(env, s), ResumeBelow(env, s), Height(env.node.tip);
    if env.skips && fork < Height(s.chain.tip) {
      FullConnects(env, s);
    }
    assert resume <= fork + 1;
    forall h: nat ensures h in KeptHeights(s, fork) + {resume} + Heights(resume, top) <==> h <= top {
      assert h in KeptHeights(s, fork) <==> h <= fork;
    }
  }

  // ----- A payment lost -----

  const PAID: Txid := 7
  const PAYEE: Script := Script(External, 0)

  /** Transaction `PAID` pays the first external script; pending transactions are never displaced. */
  function OnePayment(): World {
    World(t => if t == PAID then {PAYEE} else {}, (txs, confirmed, t) => false)
  }

  /**
   An emitter that resumes at its start height can lose a payment in an ordinary reorganization:
   wallet and node part at genesis, the payment is in the first block of the node's longer branch.
   */
  lemma SkippingLosesPayment()
    ensures var world, indices := OnePayment(), Indices(Some(0), None);
            var mine := Mined(Mined(Genesis, [], 0), [], 0);
            var theirs := Mined(Mined(Mined(Genesis, [PAID], 1), [], 1), [], 1);
            var s := State(LocalChain(mine, {0, 1, 2}), {}, {}, indices, NOTHING);
            var env := Env(world, Node(theirs, []), true);
            && ValidState(world, s) && Faithful(world, s) && !HasOrphanedAnchor(s) && Full(s.chain)
            && InReach(env, s) && Loses(env, s)
            && PAID in Scan(world, indices, theirs) && PAID !in Confirmed(Sync(env, s).after)
            && !Faithful(world, Sync(env, s).after)
  {
    var world, indices := OnePayment(), Indices(Some(0), None);
    var mine := Mined(Mined(Genesis, [], 0), [], 0);
    var second := Mined(Mined(Genesis, [PAID], 1), [], 1);
    var theirs := Mined(second, [], 1);
    var s := State(LocalChain(mine, {0, 1, 2}), {}, {}, indices, NOTHING);
    var env := Env(world, Node(theirs, []), true);
    assert Height(mine) == 2;
    BranchHeights(theirs, second, second.parent);
    ForkAtGenesis(s.chain, theirs);
    PaymentIsRelevant(indices);
    assert ChainTxs(mine) == {};
    FullConnects(env, s);
    NothingAbove(world, indices, theirs, second);
    var c := CaughtUpState(env, s);
    assert c.anchors == {} && c.txs == {};
    assert ApplyUnconfirmed(world, c, []).txs == {};
    assert !Signals(env, c);
    SkippedPayment(env, s, second.parent);
    assert PAID in BlockTxs(second.parent) && PAID in ChainTxs(second.parent);
    assert ChainTxs(second) == ChainTxs(second.parent) + {} && ChainTxs(theirs) == ChainTxs(second) + {};
    SyncIsFaithful(env, s);
    RebuildsExactly(env, s);
    QuietConfirms(env, s);
  }

  lemma PaymentIsRelevant(indices: Indices)
    requires indices == Indices(Some(0), None)
    ensures Relevant(OnePayment(), indices, PAID)
  {
    assert PAYEE in OnePayment().touches(PAID) && IsRevealed(indices, PAYEE);
  }

  lemma ForkAtGenesis(c: LocalChain, tip: Block)
    requires c == LocalChain(Mined(Mined(Genesis, [], 0), [], 0), {0, 1, 2})
    requires Height(tip) == 3 && At(tip, 1) == Mined(Genesis, [PAID], 1) && At(tip, 2).nonce == 1
    ensures Agreement(c, tip) == 0
  {
    assert Height(c.tip) == 2 && At(c.tip, 1) == Mined(Genesis, [], 0);
    assert AgreementBelow(c, tip, 1) == 0;
  }

  lemma BranchHeights(tip: Block, second: Block, first: Block)
    requires tip == Mined(second, [], 1) && second == Mined(first, [], 1) && first == Mined(Genesis, [PAID], 1)
    ensures Height(tip) == 3 && At(tip, 2) == second && At(tip, 1) == first
  {
    assert Height(first) == 1 && Height(second) == 2;
    assert At(tip, 2) == At(second, 2) == second;
    assert At(tip, 1) == At(second, 1);
    assert At(second, 1) == At(first, 1) == first;
  }

  /** Two empty blocks add no anchors and no transactions. */
  lemma NothingAbove(world: World, indices: Indices, tip: Block, second: Block)
    requires Height(tip) == 3 && At(tip, 2) == second && BlockTxs(second) == {} && BlockTxs(tip) == {}
    ensures AnchorsAbove(world, indices, tip, 1) == {} && TxsAbove(world, indices, tip, 1) == {}
  {
    assert AnchorsAbove(world, indices, tip, 3) == {} && TxsAbove(world, indices, tip, 3) == {};
    assert AnchorsAbove(world, indices, tip, 2) == {} && TxsAbove(world, indices, tip, 2) == {};
  }

  lemma SkippedPayment(env: Env, s: State, first: Block)
    requires InReach(env, s) && Fork(env, s) == 0 && ResumeBelow(env, s) == 1 <= Height(env.node.tip)
    requires At(env.node.tip, 1) == first && Height(first) == 1
    requires PAID in BlockTxs(first) && Relevant(env.world, s.indices, PAID)
    ensures PAID in SkippedTxs(env, s)
  {
    assert At(first, 1) == first;
  }

  // ----- A stale anchor -----

  /**
   A demotion implies an orphaned anchor, but not conversely: after a reload the stale anchor is
   there and nothing is demoted.
   */
  lemma OrphanWithoutDemotion()
    ensures var env, s := StaleEnv(), StaleWallet();
            && ValidState(env.world, s) && DriveOf(env, s) == Drove(s, 0)
            && Confirmed(s) == {} && HasOrphanedAnchor(s) && Rebuilds(env, s)
  {
    StaleWalletIs();
    OrphanRebuilds(StaleEnv(), StaleWallet());
  }

  /** A node at an empty block, its mempool empty. */
  function StaleEnv(): Env {
    Env(OnePayment(), Node(Mined(Genesis, [], 1), []), true)
  }

  /** At the node's tip no block comes, and an orphaned anchor alone makes the wallet rebuild. */
  lemma OrphanRebuilds(env: Env, s: State)
    requires ValidState(env.world, s) && s.chain.tip == env.node.tip && HasOrphanedAnchor(s)
    ensures DriveOf(env, s) == Drove(s, 0) && Rebuilds(env, s)
  {
    DriveExtends(env, s);
    SignalsDecide(env, s);
  }

  /** A wallet at an empty block, with an anchor to another block of the same height. */
  function StaleWallet(): State {
    State(LocalChain(Mined(Genesis, [], 1), {0, 1}), {PAID}, {(PAID, Mined(Genesis, [PAID], 0))},
      Indices(Some(0), None), NOTHING)
  }

  lemma StaleWalletIs()
    ensures ValidState(StaleEnv().world, StaleWallet()) && StaleWallet().chain.tip == StaleEnv().node.tip
    ensures HasOrphanedAnchor(StaleWallet()) && Confirmed(StaleWallet()) == {}
  {
    PaymentIsRelevant(Indices(Some(0), None));
    assert PAID in BlockTxs(Mined(Genesis, [PAID], 0));
    StaleAnchor(StaleWallet(), Mined(Genesis, [], 1), Mined(Genesis, [PAID], 0));
  }

  lemma StaleAnchor(s: State, tip: Block, stale: Block)
    requires s.chain.tip == tip && Height(tip) == Height(stale) && tip != stale && s.anchors == {(PAID, stale)}
    ensures HasOrphanedAnchor(s) && Confirmed(s) == {}
  {
    assert !InChain(s.chain, stale);
    assert (PAID, stale) in s.anchors;
  }
}
