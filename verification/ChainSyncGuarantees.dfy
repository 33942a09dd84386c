/** What is above a height, what a rebuild leaves, and what ground truth means; steps to the results. */
module ChainSyncGuarantees {
  import opened Blocks
  import opened ChainSync
  import opened ChainSyncTheorems

  function TxsOf(anchors: set<(Txid, Block)>): set<Txid> { set a | a in anchors :: a.0 }

  // ----- What is above a height -----

  lemma {:induction false} AnchorsAboveAre(world: World, indices: Indices, tip: Block, lo: nat, a: (Txid, Block))
    ensures a in AnchorsAbove(world, indices, tip, lo) <==>
            lo < Height(a.1) && OnChain(a.1, tip) && a.0 in BlockTxs(a.1) && Relevant(world, indices, a.0)
    decreases Height(tip) - lo
  {
    if lo < Height(tip) {
      AnchorsAboveAre(world, indices, tip, lo + 1, a);
    }
  }

  lemma {:induction false} TxsAboveAre(world: World, indices: Indices, tip: Block, lo: nat)
    ensures TxsAbove(world, indices, tip, lo) == TxsOf(AnchorsAbove(world, indices, tip, lo))
    decreases Height(tip) - lo
  {
    if lo < Height(tip) {
      TxsAboveAre(world, indices, tip, lo + 1);
      var found, blk := RelevantTxs(world, indices, BlockTxs(At(tip, lo + 1))), At(tip, lo + 1);
      forall t | t in found ensures t in TxsOf(AnchorsAbove(world, indices, tip, lo)) {
        assert (t, blk) in Anchored(found, blk);
      }
    }
  }

  /** The scan of a chain is the scan up to a height and what is above it. */
  lemma {:induction false} ScanSplits(world: World, indices: Indices, tip: Block, lo: nat)
    requires lo <= Height(tip)
    ensures Scan(world, indices, tip) == Scan(world, indices, At(tip, lo)) + TxsAbove(world, indices, tip, lo)
    decreases Height(tip) - lo
  {
    if lo < Height(tip) {
      ScanSplits(world, indices, tip, lo + 1);
      AtParent(tip, lo + 1);
    }
  }

  lemma FullScan(world: World, indices: Indices, tip: Block)
    ensures TxsAbove(world, indices, tip, 0) == Scan(world, indices, tip)
  {
    ScanSplits(world, indices, tip, 0);
    assert At(tip, 0) == Genesis;
  }

  // ----- The rebuild -----

  /** What a from-genesis scan of the node leaves. */
  ghost predicate Scanned(env: Env, indices: Indices, s: State) {
    && s.indices == indices
    && s.chain == LocalChain(env.node.tip, {0} + Heights(0, Height(env.node.tip)))
    && s.anchors == AnchorsAbove(env.world, indices, env.node.tip, 0)
    && s.txs == Scan(env.world, indices, env.node.tip) + RelevantTxs(env.world, indices, TxidSet(env.node.mempool))
  }

  /** The rebuild cannot fail, whatever the wallet and the node. */
  lemma RebuildScans(env: Env, s: State, before: set<Txid>)
    ensures var pass := Rebuild(env, s, before);
            && pass.outcome.Ok? && pass.outcome.result.reorgRebuilt
            && Scanned(env, s.indices, pass.after) && pass.after.staged == NOTHING
            && pass.outcome.result.evictedTxids == SortedTxids(before - Canonical(env.world, pass.after))
            && pass.outcome.result.tipHeight == Height(env.node.tip)
  {
    var f := Fresh(s.indices);
    assert At(env.node.tip, 0) == Genesis;
    assert ValidState(env.world, f);
    DriveLevel(env, f, 0, 0, 0);
    FullScan(env.world, s.indices, env.node.tip);
    var driven := DriveFrom(env, f, 0, 0, 0).s;
    assert {} + AnchorsAbove(env.world, s.indices, env.node.tip, 0) ==
      AnchorsAbove(env.world, s.indices, env.node.tip, 0);
    var scanned := ApplyUnconfirmed(env.world, driven, env.node.mempool);
    assert Scanned(env, s.indices, scanned);
    SameView(env.world, scanned);
  }

  /** Taking the staged changes does not change what the wallet shows. */
  lemma SameView(world: World, s: State)
    ensures Confirmed(TakeStaged(s)) == Confirmed(s)
    ensures Unconfirmed(world, TakeStaged(s)) == Unconfirmed(world, s)
    ensures HasOrphanedAnchor(TakeStaged(s)) == HasOrphanedAnchor(s)
  {
  }

  lemma ConfirmedWhole(s: State)
    requires !HasOrphanedAnchor(s) && forall a :: a in s.anchors ==> a.0 in s.txs
    ensures Confirmed(s) == TxsOf(s.anchors)
  {
  }

  lemma ScannedView(env: Env, indices: Indices, s: State)
    requires Scanned(env, indices, s)
    ensures ValidState(env.world, s) && !HasOrphanedAnchor(s)
    ensures Confirmed(s) == Scan(env.world, indices, env.node.tip)
    ensures Unconfirmed(env.world, s) <= TxidSet(env.node.mempool)
  {
    var tip := env.node.tip;
    FullScan(env.world, indices, tip);
    TxsAboveAre(env.world, indices, tip, 0);
    forall a | a in s.anchors
      ensures InChain(s.chain, a.1) && a.0 in BlockTxs(a.1) && a.0 in s.txs
    {
      AnchorsAboveAre(env.world, indices, tip, 0, a);
    }
    ConfirmedWhole(s);
  }

  // ----- Ground truth -----

  /** The wallet is at the node's tip and shows nothing the node does not have. */
  ghost predicate GroundTruth(env: Env, s: State) {
    && s.chain.tip == env.node.tip
    && Confirmed(s) <= ChainTxs(env.node.tip)
    && Unconfirmed(env.world, s) <= TxidSet(env.node.mempool)
    && !HasOrphanedAnchor(s)
  }

  /** A pass that neither stops with an error nor rebuilds: the emitter drove to `s1`, and no signal fired. */
  lemma QuietPass(env: Env, s: State) returns (s1: State)
    requires ValidState(env.world, s)
    requires Sync(env, s).outcome.Ok? && !Sync(env, s).outcome.result.reorgRebuilt
    ensures DriveOf(env, s).Drove? && s1 == DriveOf(env, s).s
    ensures Confirmed(s) <= Confirmed(s1) && !HasOrphanedAnchor(s1)
    ensures var s2 := ApplyUnconfirmed(env.world, s1, env.node.mempool);
            Sync(env, s).after == TakeStaged(s2) && !HasStaleUnconfirmed(env.world, s2, TxidSet(env.node.mempool))
  {
    var before := Confirmed(s);
    match DriveOf(env, s)
    case Broken(_) =>
    case Stuck(x, _) =>
      RebuildScans(env, x, before);
    case Drove(x, _) =>
      s1 := x;
      RebuildScans(env, x, before);
      RebuildScans(env, ApplyUnconfirmed(env.world, x, env.node.mempool), before);
  }

  /** A pass that rebuilds. */
  lemma RebuiltPass(env: Env, s: State)
    requires ValidState(env.world, s)
    requires Sync(env, s).outcome.Ok? && Sync(env, s).outcome.result.reorgRebuilt
    ensures Scanned(env, s.indices, Sync(env, s).after) && Sync(env, s).after.staged == NOTHING
    ensures Sync(env, s).outcome.result.evictedTxids ==
            SortedTxids(Confirmed(s) - Canonical(env.world, Sync(env, s).after))
  {
    DriveKeepsIndices(env, s);
    var before := Confirmed(s);
    match DriveOf(env, s)
    case Broken(_) =>
    case Stuck(x, _) =>
      RebuildScans(env, x, before);
    case Drove(x, _) =>
      RebuildScans(env, x, before);
      RebuildScans(env, ApplyUnconfirmed(env.world, x, env.node.mempool), before);
  }

  lemma DriveKeepsIndices(env: Env, s: State)
    requires ValidState(env.world, s)
    ensures DriveOf(env, s).s.indices == s.indices
  {
    if Fork(env, s) < Height(s.chain.tip) {
      DriveReorganizes(env, s);
    } else {
      DriveExtends(env, s);
    }
  }
}
