/** The results about one sync pass: errors, ground truth, the refinement of the scan, idempotence, detectors. */
module ChainSyncResults {
  import opened Seqs
  import opened Blocks
  import opened ChainSync
  import opened ChainSyncTheorems
  import opened ChainSyncGuarantees

  predicate Quiet(env: Env, s: State) {
    Sync(env, s).outcome.Ok? && !Sync(env, s).outcome.result.reorgRebuilt
  }

  predicate Rebuilds(env: Env, s: State) {
    Sync(env, s).outcome.Ok? && Sync(env, s).outcome.result.reorgRebuilt
  }

  // ----- Errors -----

  /** The only failure is the emitter's: a rebuild always succeeds. */
  lemma OnlyEmitterFails(env: Env, s: State)
    ensures DriveOf(env, s).Broken? ==> Sync(env, s) == Pass(DriveOf(env, s).s, Err(Rpc))
    ensures !DriveOf(env, s).Broken? ==> Sync(env, s).outcome.Ok?
  {
    var before := Confirmed(s);
    match DriveOf(env, s)
    case Broken(_) =>
    case Stuck(x, _) =>
      RebuildScans(env, x, before);
    case Drove(x, _) =>
      RebuildScans(env, x, before);
      RebuildScans(env, ApplyUnconfirmed(env.world, x, env.node.mempool), before);
  }

  lemma BrokenDrive(env: Env, s: State)
    requires ValidState(env.world, s)
    ensures DriveOf(env, s).Broken? <==> env.skips && Height(env.node.tip) < Height(s.chain.tip)
    ensures DriveOf(env, s).Broken? ==> DriveOf(env, s).s == s
  {
    if Fork(env, s) == Height(s.chain.tip) {
      DriveExtends(env, s);
    } else {
      DriveReorganizes(env, s);
      if env.skips && Height(env.node.tip) < Height(s.chain.tip) {
        StartsTooHigh(env, s);
      }
    }
  }

  lemma StartsTooHigh(env: Env, s: State)
    requires Fork(env, s) < Height(s.chain.tip)
    requires env.skips && Height(env.node.tip) < Height(s.chain.tip)
    ensures DriveOf(env, s).Broken?
  {
  }

  /**
   A pass fails exactly when the emitter asks for a start height the node has not reached; the
   wallet is then untouched.
   */
  lemma SyncFails(env: Env, s: State)
    requires ValidState(env.world, s)
    ensures Sync(env, s).outcome.Err? <==> env.skips && Height(env.node.tip) < Height(s.chain.tip)
    ensures Sync(env, s).outcome.Err? ==> Sync(env, s) == Pass(s, Err(Rpc))
  {
    OnlyEmitterFails(env, s);
    BrokenDrive(env, s);
  }

  // ----- Ground truth -----

  /** Where a quiet pass leaves the wallet. */
  lemma QuietShape(env: Env, s: State) returns (s1: State)
    requires ValidState(env.world, s) && Quiet(env, s)
    ensures Sync(env, s).after == TakeStaged(ApplyUnconfirmed(env.world, s1, env.node.mempool))
    ensures ValidState(env.world, s1) && !HasOrphanedAnchor(s1)
    ensures if Behind(env, s) then s1 == s else Reached(env, s, s1)
  {
    s1 := QuietPass(env, s);
    if Fork(env, s) == Height(s.chain.tip) {
      DriveExtends(env, s);
    } else {
      DriveReorganizes(env, s);
    }
  }

  /** Mempool transactions do not change what is confirmed in a wallet whose anchors are in its graph. */
  lemma MempoolKeepsConfirmed(world: World, s: State, mempool: seq<Txid>)
    requires ValidState(world, s)
    ensures var s2 := ApplyUnconfirmed(world, s, mempool);
            && ValidState(world, s2) && Confirmed(s2) == Confirmed(s)
            && HasOrphanedAnchor(s2) == HasOrphanedAnchor(s)
  {
  }

  /** Where a successful pass leaves the wallet, by what the pass did. */
  lemma OutcomeGroundTruth(env: Env, s: State)
    requires ValidState(env.world, s) && Sync(env, s).outcome.Ok?
    ensures ValidState(env.world, Sync(env, s).after) && Sync(env, s).after.staged == NOTHING
    ensures GroundTruth(env, Sync(env, s).after) <==> Rebuilds(env, s) || !Behind(env, s)
  {
    var after := Sync(env, s).after;
    if Rebuilds(env, s) {
      RebuiltPass(env, s);
      ScannedView(env, s.indices, after);
      ScanIsOnChain(env.world, s.indices, env.node.tip);
    } else {
      var s1 := QuietShape(env, s);
      var s2 := ApplyUnconfirmed(env.world, s1, env.node.mempool);
      MempoolKeepsConfirmed(env.world, s1, env.node.mempool);
      SameView(env.world, s2);
      if !Behind(env, s) {
        QuietGroundTruth(env, s, s2);
      }
    }
  }

  lemma ScanIsOnChain(world: World, indices: Indices, tip: Block)
    ensures Scan(world, indices, tip) <= ChainTxs(tip)
  {
  }

  lemma QuietGroundTruth(env: Env, s: State, s2: State)
    requires ValidState(env.world, s2) && !HasOrphanedAnchor(s2)
    requires s2.chain.tip == env.node.tip && Sync(env, s).after == TakeStaged(s2) && Quiet(env, s)
    requires ValidState(env.world, s)
    ensures GroundTruth(env, Sync(env, s).after)
  {
    var s1 := QuietPass(env, s);
    var after := Sync(env, s).after;
    SameView(env.world, s2);
    ConfirmedOnChain(env.world, after);
    SameView(env.world, ApplyUnconfirmed(env.world, s1, env.node.mempool));
  }

  lemma ConfirmedOnChain(world: World, s: State)
    requires ValidState(world, s)
    ensures Confirmed(s) <= ChainTxs(s.chain.tip)
  {
    forall t | t in Confirmed(s) ensures t in ChainTxs(s.chain.tip) {
      var a :| a in s.anchors && InChain(s.chain, a.1) && a.0 == t;
      BlockTxsOnChain(a.1, s.chain.tip);
    }
  }

  /** The emitter's start height is on the node's chain, if it insists on one. */
  predicate InReach(env: Env, s: State) {
    env.skips ==> Height(s.chain.tip) <= Height(env.node.tip)
  }

  /** The node's tip is an old checkpoint, and neither a stale anchor nor the mempool gives it away. */
  predicate StaysBehind(env: Env, s: State) {
    && Behind(env, s) && !HasOrphanedAnchor(s)
    && !HasStaleUnconfirmed(env.world, ApplyUnconfirmed(env.world, s, env.node.mempool), TxidSet(env.node.mempool))
  }

  /** Behind the wallet's tip the emitter sends nothing, and only the signals in the wallet itself can fire. */
  lemma BehindPass(env: Env, s: State)
    requires ValidState(env.world, s) && InReach(env, s) && Behind(env, s)
    ensures Sync(env, s).outcome.Ok? && (Rebuilds(env, s) <==> !StaysBehind(env, s))
  {
    NothingEmitted(env, s);
    RebuildScans(env, s, Confirmed(s));
    RebuildScans(env, ApplyUnconfirmed(env.world, s, env.node.mempool), Confirmed(s));
  }

  /**
   Within the emitter's reach a pass succeeds and leaves the wallet at the node's tip, with
   nothing confirmed or pending that the node does not have and no orphaned anchor, exactly unless
   the node's tip is an old checkpoint of the wallet and nothing in the wallet looks wrong.
   */
  lemma SyncGroundTruth(env: Env, s: State)
    requires ValidState(env.world, s) && InReach(env, s)
    ensures Sync(env, s).outcome.Ok?
    ensures ValidState(env.world, Sync(env, s).after) && Sync(env, s).after.staged == NOTHING
    ensures GroundTruth(env, Sync(env, s).after) <==> !StaysBehind(env, s)
  {
    SyncFails(env, s);
    OutcomeGroundTruth(env, s);
    if Behind(env, s) {
      BehindPass(env, s);
    }
  }

  /** The exception is real: the node went back one block and the wallet keeps it. */
  lemma BehindKeepsAbandonedBlock()
    ensures var world := World(t => {}, (txs, confirmed, t) => false);
            var tip := Mined(Genesis, [], 0);
            var s := State(LocalChain(tip, {0, 1}), {}, {}, Indices(None, None), NOTHING);
            var env := Env(world, Node(Genesis, []), false);
            ValidState(world, s) && Quiet(env, s) && !GroundTruth(env, Sync(env, s).after)
  {
    var world := World(t => {}, (txs, confirmed, t) => false);
    var tip := Mined(Genesis, [], 0);
    var s := State(LocalChain(tip, {0, 1}), {}, {}, Indices(None, None), NOTHING);
    var env := Env(world, Node(Genesis, []), false);
    assert ValidState(world, s);
    assert Height(tip) == 1 && Fork(env, s) == 0;
    NothingEmitted(env, s);
    assert DriveOf(env, s) == Drove(s, 0);
    assert Quiet(env, s);
    SyncGroundTruth(env, s);
  }

  // ----- Exactness -----

  /** A rebuilt wallet is the from-genesis scan, whatever it was before. */
  lemma RebuiltIsFaithful(env: Env, s: State)
    requires ValidState(env.world, s) && Rebuilds(env, s)
    ensures Faithful(env.world, Sync(env, s).after) && Sync(env, s).after.indices == s.indices
  {
    RebuiltPass(env, s);
    ScannedView(env, s.indices, Sync(env, s).after);
  }

  /** What a quiet pass confirms: what the wallet had anchors for, and what the emitter sent. */
  lemma QuietConfirms(env: Env, s: State)
    requires ValidState(env.world, s) && Quiet(env, s) && !Behind(env, s)
    ensures var after := Sync(env, s).after;
            && after.indices == s.indices && after.chain.tip == env.node.tip
            && Confirmed(after) == TxsOf(s.anchors) + TxsAbove(env.world, s.indices, env.node.tip, ResumeBelow(env, s))
  {
    var s1 := QuietShape(env, s);
    MempoolKeepsConfirmed(env.world, s1, env.node.mempool);
    SameView(env.world, ApplyUnconfirmed(env.world, s1, env.node.mempool));
    ConfirmedWhole(s1);
    TxsAboveAre(env.world, s.indices, env.node.tip, ResumeBelow(env, s));
  }

  /** Below the fork the wallet's chain and the node's are the same. */
  lemma SharedPrefix(env: Env, s: State)
    requires ValidState(env.world, s)
    ensures At(s.chain.tip, Fork(env, s)) == At(env.node.tip, Fork(env, s))
    ensures forall h :: h in s.chain.heights && Fork(env, s) < h <= Height(env.node.tip) ==>
              At(s.chain.tip, h) != At(env.node.tip, h)
  {
    AgreementIs(s.chain, env.node.tip, Height(s.chain.tip));
    assert forall h :: h in s.chain.heights ==> Lookup(s.chain, h) == Some(At(s.chain.tip, h));
  }

  /** The relevant transactions of the blocks the emitter leaves out. */
  function SkippedTxs(env: Env, s: State): set<Txid>
    requires ResumeBelow(env, s) <= Height(env.node.tip)
  {
    TxsAbove(env.world, s.indices, At(env.node.tip, ResumeBelow(env, s)), Fork(env, s))
  }

  /** No block is left out: the emitter goes on right after the fork. */
  predicate ResumesAtFork(env: Env, s: State) {
    InReach(env, s) && ResumeBelow(env, s) == Fork(env, s)
  }

  /**
   The refinement: when the emitter resumes at the fork, a pass succeeds, and a wallet that was
   the scan of the chain it last synced to is so again: of the node's chain, unless it stays behind.
   */
  lemma SyncRefinesScan(env: Env, s: State)
    requires ValidState(env.world, s) && Faithful(env.world, s) && ResumesAtFork(env, s)
    ensures Sync(env, s).outcome.Ok?
    ensures Faithful(env.world, Sync(env, s).after) && Sync(env, s).after.indices == s.indices
    ensures Sync(env, s).after.chain.tip == env.node.tip <==> !StaysBehind(env, s)
  {
    SyncGroundTruth(env, s);
    if Rebuilds(env, s) {
      RebuiltIsFaithful(env, s);
      RebuiltPass(env, s);
    } else if Behind(env, s) {
      var s1 := QuietShape(env, s);
      MempoolKeepsConfirmed(env.world, s1, env.node.mempool);
      SameView(env.world, ApplyUnconfirmed(env.world, s1, env.node.mempool));
    } else {
      QuietRefinesScan(env, s);
    }
    if Behind(env, s) {
      BehindPass(env, s);
    }
  }

  lemma QuietRefinesScan(env: Env, s: State)
    requires ValidState(env.world, s) && Quiet(env, s) && !Behind(env, s)
    requires Faithful(env.world, s) && ResumesAtFork(env, s)
    ensures Faithful(env.world, Sync(env, s).after) && Sync(env, s).after.indices == s.indices
    ensures Sync(env, s).after.chain.tip == env.node.tip
  {
    var after, fork := Sync(env, s).after, Fork(env, s);
    OutcomeGroundTruth(env, s);
    QuietConfirms(env, s);
    SharedPrefix(env, s);
    ScanSplits(env.world, s.indices, s.chain.tip, fork);
    ScanSplits(env.world, s.indices, env.node.tip, fork);
    assert Confirmed(s) <= TxsOf(s.anchors);
    assert forall t :: t in Confirmed(after) ==> t in after.txs;
  }

  lemma ConfirmedIsRelevant(world: World, s: State, t: Txid)
    requires ValidState(world, s) && t in Confirmed(s)
    ensures Relevant(world, s.indices, t)
  {
  }

  // ----- Idempotence -----

  /**
   After any successful pass, another one against the same node changes nothing, applies no
   block, stages nothing, evicts nothing and does not rebuild.
   */
  lemma SyncIdempotent(env: Env, s: State)
    requires ValidState(env.world, s) && InReach(env, s)
    ensures Sync(env, s).outcome.Ok?
    ensures var after := Sync(env, s).after;
            Sync(env, after) == Pass(after,
              Ok(SyncResult(None, 0, ClampU32(|env.node.mempool|), Height(after.chain.tip), [], false)))
  {
    var after := Sync(env, s).after;
    SyncFails(env, s);
    SyncSettles(env, s);
    SecondDrive(env, s);
    NothingNew(env, after);
    SettledPass(env, after);
  }

  lemma NothingNew(env: Env, s: State)
    requires s.staged == NOTHING && RelevantTxs(env.world, s.indices, TxidSet(env.node.mempool)) - s.txs == {}
    ensures ApplyUnconfirmed(env.world, s, env.node.mempool) == s
  {
    var found := RelevantTxs(env.world, s.indices, TxidSet(env.node.mempool));
    forall t | t in found ensures t in s.txs {
      assert t !in found - s.txs;
    }
    assert s.txs + found == s.txs;
  }

  lemma SettledPass(env: Env, s: State)
    requires DriveOf(env, s) == Drove(s, 0) && s.staged == NOTHING && !HasOrphanedAnchor(s)
    requires ApplyUnconfirmed(env.world, s, env.node.mempool) == s
    requires !HasStaleUnconfirmed(env.world, s, TxidSet(env.node.mempool))
    ensures Sync(env, s) == Pass(s, Ok(SyncResult(None, 0, ClampU32(|env.node.mempool|), Height(s.chain.tip),
                                                    [], false)))
  {
  }

  /** What the second pass looks at: the wallet holds the mempool, and no signal fires. */
  lemma SyncSettles(env: Env, s: State)
    requires ValidState(env.world, s) && Sync(env, s).outcome.Ok?
    ensures var after := Sync(env, s).after;
            && after.staged == NOTHING && !HasOrphanedAnchor(after)
            && !HasStaleUnconfirmed(env.world, after, TxidSet(env.node.mempool))
            && RelevantTxs(env.world, after.indices, TxidSet(env.node.mempool)) - after.txs == {}
  {
    var after := Sync(env, s).after;
    if Rebuilds(env, s) {
      RebuiltPass(env, s);
      ScannedView(env, s.indices, after);
    } else {
      var s1 := QuietPass(env, s);
      MempoolSettles(env, s1);
    }
  }

  lemma MempoolSettles(env: Env, s1: State)
    requires !HasOrphanedAnchor(s1)
    ensures var s2 := ApplyUnconfirmed(env.world, s1, env.node.mempool);
            && !HasOrphanedAnchor(TakeStaged(s2))
            && HasStaleUnconfirmed(env.world, TakeStaged(s2), TxidSet(env.node.mempool)) ==
               HasStaleUnconfirmed(env.world, s2, TxidSet(env.node.mempool))
            && RelevantTxs(env.world, s2.indices, TxidSet(env.node.mempool)) - s2.txs == {}
  {
    SameView(env.world, ApplyUnconfirmed(env.world, s1, env.node.mempool));
  }

  lemma SecondDrive(env: Env, s: State)
    requires ValidState(env.world, s) && Sync(env, s).outcome.Ok?
    ensures DriveOf(env, Sync(env, s).after) == Drove(Sync(env, s).after, 0)
  {
    var after := Sync(env, s).after;
    OutcomeGroundTruth(env, s);
    if GroundTruth(env, after) {
      assert Fork(env, after) == Height(after.chain.tip);
      DriveExtends(env, after);
    } else {
      var s1 := QuietShape(env, s);
      NothingEmitted(env, after);
      SyncFails(env, s);
    }
  }

  // ----- Detectors -----

  /** A same-pass demotion leaves an orphaned anchor: anchors are never dropped. */
  lemma DemotionImpliesOrphan(env: Env, s: State)
    requires ValidState(env.world, s) && DriveOf(env, s).Drove?
    requires !(Confirmed(s) <= Confirmed(DriveOf(env, s).s))
    ensures HasOrphanedAnchor(DriveOf(env, s).s)
  {
    if Fork(env, s) == Height(s.chain.tip) {
      DriveExtends(env, s);
    } else {
      DriveReorganizes(env, s);
    }
    var s1 := DriveOf(env, s).s;
    var t :| t in Confirmed(s) && t !in Confirmed(s1);
    var a :| a in s.anchors && a.0 in s.txs && a.0 == t;
    assert a in s1.anchors && a.0 in s1.txs;
  }
}
