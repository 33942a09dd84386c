/** What a sync pass guarantees, from any valid wallet and against any node. */
module ChainSyncTheorems {
  import opened Seqs
  import opened Blocks
  import opened ChainSync

  /**
   A wallet as BDK can hold it: anchors name blocks that contain their transaction, and only
   relevant transactions enter the graph. Nothing says that the anchors are on the local chain:
   a reloaded wallet may carry the damage of an old reorganization.
   */
  ghost predicate ValidState(world: World, s: State) {
    && ValidChain(s.chain)
    && (forall a :: a in s.anchors ==> a.0 in BlockTxs(a.1) && a.0 in s.txs)
    && (forall t :: t in s.txs ==> Relevant(world, s.indices, t))
  }

  /** The simple scan a wallet is meant to equal. */
  function Scan(world: World, indices: Indices, tip: Block): set<Txid> {
    RelevantTxs(world, indices, ChainTxs(tip))
  }

  /** The wallet's confirmed set is the scan of the chain it last synced to. */
  ghost predicate Faithful(world: World, s: State) {
    Confirmed(s) == Scan(world, s.indices, s.chain.tip)
  }

  /** Anchors for every relevant transaction above height `lo`. */
  ghost function AnchorsAbove(world: World, indices: Indices, tip: Block, lo: nat): set<(Txid, Block)>
    decreases Height(tip) - lo
  {
    if lo >= Height(tip) then {}
    else
      Anchored(RelevantTxs(world, indices, BlockTxs(At(tip, lo + 1))), At(tip, lo + 1)) +
      AnchorsAbove(world, indices, tip, lo + 1)
  }

  /** The relevant transactions above height `lo`. */
  function TxsAbove(world: World, indices: Indices, tip: Block, lo: nat): set<Txid>
    decreases Height(tip) - lo
  {
    if lo >= Height(tip) then {}
    else RelevantTxs(world, indices, BlockTxs(At(tip, lo + 1))) + TxsAbove(world, indices, tip, lo + 1)
  }

  // ----- Driving the emitter -----

  lemma {:induction false} AgreementIs(c: LocalChain, tip: Block, h: nat)
    requires ValidChain(c) && h <= Height(c.tip)
    ensures Lookup(c, AgreementBelow(c, tip, h)) == Some(At(tip, AgreementBelow(c, tip, h)))
    ensures forall k :: AgreementBelow(c, tip, h) < k <= h && k <= Height(tip) ==> Lookup(c, k) != Some(At(tip, k))
  {
    if h > 0 && !(h <= Height(tip) && Lookup(c, h) == Some(At(tip, h))) {
      AgreementIs(c, tip, h - 1);
    }
  }

  lemma ConnectLevel(c: LocalChain, tip: Block, last: nat)
    requires ValidChain(c) && last < Height(tip) && c.tip == At(tip, last)
    ensures Connect(c, At(tip, last + 1), At(tip, last)) == Some(LocalChain(At(tip, last + 1), c.heights + {last + 1}))
  {
    AtParent(tip, last + 1);
    assert InChain(c, At(tip, last));
    assert (set h | h in c.heights && h > last) == {};
    assert (set h | h in c.heights && h <= last) + {last, last + 1} == c.heights + {last + 1};
  }

  /** A block that connects keeps the wallet valid and adds its relevant transactions and their anchors. */
  lemma Applied(world: World, s: State, blk: Block, conn: Block)
    requires ValidState(world, s) && Connect(s.chain, blk, conn).Some? && ValidChain(Connect(s.chain, blk, conn).value)
    ensures var next, found := ApplyBlock(world, s, blk, conn), RelevantTxs(world, s.indices, BlockTxs(blk));
            && next.Some? && ValidState(world, next.value)
            && next.value.chain == Connect(s.chain, blk, conn).value && next.value.indices == s.indices
            && next.value.anchors == s.anchors + Anchored(found, blk) && next.value.txs == s.txs + found
  {
  }

  /** What is above a height is what the next block holds and what is above that. */
  lemma AboveNext(world: World, indices: Indices, tip: Block, lo: nat, anchors: set<(Txid, Block)>, txs: set<Txid>)
    requires lo < Height(tip)
    ensures var blk := At(tip, lo + 1);
            var found := RelevantTxs(world, indices, BlockTxs(blk));
            && anchors + Anchored(found, blk) + AnchorsAbove(world, indices, tip, lo + 1) ==
               anchors + AnchorsAbove(world, indices, tip, lo)
            && txs + found + TxsAbove(world, indices, tip, lo + 1) == txs + TxsAbove(world, indices, tip, lo)
  {
  }

  /** One block on top of the wallet's tip. */
  lemma StepLevel(world: World, s: State, tip: Block, last: nat)
    requires ValidState(world, s) && last < Height(tip) && s.chain.tip == At(tip, last)
    ensures var next := ApplyBlock(world, s, At(tip, last + 1), At(tip, last));
            && next.Some? && ValidState(world, next.value)
            && next.value.chain == LocalChain(At(tip, last + 1), s.chain.heights + {last + 1})
            && next.value.anchors + AnchorsAbove(world, s.indices, tip, last + 1) ==
               s.anchors + AnchorsAbove(world, s.indices, tip, last)
            && next.value.txs + TxsAbove(world, s.indices, tip, last + 1) ==
               s.txs + TxsAbove(world, s.indices, tip, last)
            && next.value.indices == s.indices
  {
    ConnectLevel(s.chain, tip, last);
    Applied(world, s, At(tip, last + 1), At(tip, last));
    AboveNext(world, s.indices, tip, last, s.anchors, s.txs);
  }

  /** The heights above `lo`, up to `hi`. */
  function Heights(lo: nat, hi: nat): (hs: set<nat>)
    ensures forall h :: h in hs <==> lo < h <= hi
  {
    if hi <= lo then {} else Heights(lo, hi - 1) + {hi}
  }

  lemma HeightsNext(lo: nat, hi: nat)
    requires lo < hi
    ensures Heights(lo, hi) == {lo + 1} + Heights(lo + 1, hi)
  {
  }

  lemma HeightsJoin(kept: set<nat>, lo: nat, hi: nat)
    requires lo < hi
    ensures kept + {lo} + Heights(lo, hi) == kept + {lo, lo + 1} + Heights(lo + 1, hi)
  {
    HeightsNext(lo, hi);
  }

  /** `after` is `s` with every block of the node above `last`, on a chain that keeps the heights `kept`. */
  ghost predicate CaughtUp(env: Env, s: State, kept: set<nat>, last: nat, after: State) {
    && after.indices == s.indices
    && after.chain == LocalChain(env.node.tip, kept + Heights(last, Height(env.node.tip)))
    && after.anchors == s.anchors + AnchorsAbove(env.world, s.indices, env.node.tip, last)
    && after.txs == s.txs + TxsAbove(env.world, s.indices, env.node.tip, last)
  }

  lemma CaughtUpStep(env: Env, s: State, last: nat, after: State)
    requires last < Height(env.node.tip) && ValidState(env.world, s) && s.chain.tip == At(env.node.tip, last)
    requires var next := ApplyBlock(env.world, s, At(env.node.tip, last + 1), At(env.node.tip, last));
             next.Some? && CaughtUp(env, next.value, next.value.chain.heights, last + 1, after)
    ensures CaughtUp(env, s, s.chain.heights, last, after)
  {
    StepLevel(env.world, s, env.node.tip, last);
    HeightsNext(last, Height(env.node.tip));
  }

  /** From its own tip a wallet takes every block the node has, and ends at the node's tip. */
  lemma {:induction false} DriveLevel(env: Env, s: State, start: nat, last: nat, count: nat)
    requires ValidState(env.world, s)
    requires last <= Height(env.node.tip) && s.chain.tip == At(env.node.tip, last)
    requires env.skips ==> start <= last
    ensures var d := DriveFrom(env, s, start, last, count);
            && d.Drove? && ValidState(env.world, d.s) && CaughtUp(env, s, s.chain.heights, last, d.s)
            && (last == Height(env.node.tip) ==> d == Drove(s, count))
    decreases Height(env.node.tip) - last
  {
    var tip := env.node.tip;
    if last < Height(tip) {
      StepLevel(env.world, s, tip, last);
      var next := ApplyBlock(env.world, s, At(tip, last + 1), At(tip, last)).value;
      DriveLevel(env, next, start, last + 1, SaturatingSucc(count));
      DriveUnfolds(env, s, start, last, count);
      CaughtUpStep(env, s, last, DriveFrom(env, s, start, last, count).s);
    } else {
      LevelAtTip(env, s, start, count);
    }
  }

  /** At the node's tip there is nothing to take. */
  lemma LevelAtTip(env: Env, s: State, start: nat, count: nat)
    requires ValidState(env.world, s) && s.chain.tip == At(env.node.tip, Height(env.node.tip))
    requires env.skips ==> start <= Height(env.node.tip)
    ensures DriveFrom(env, s, start, Height(env.node.tip), count) == Drove(s, count)
    ensures CaughtUp(env, s, s.chain.heights, Height(env.node.tip), s)
  {
    assert AnchorsAbove(env.world, s.indices, env.node.tip, Height(env.node.tip)) == {};
  }

  /** The drive after its first block, from the wallet's own tip. */
  lemma DriveUnfolds(env: Env, s: State, start: nat, last: nat, count: nat)
    requires last < Height(env.node.tip) && (env.skips ==> start <= last)
    requires ApplyBlock(env.world, s, At(env.node.tip, last + 1), At(env.node.tip, last)).Some?
    ensures DriveFrom(env, s, start, last, count) ==
            DriveFrom(env, ApplyBlock(env.world, s, At(env.node.tip, last + 1), At(env.node.tip, last)).value,
                      start, last + 1, SaturatingSucc(count))
  {
  }

  // ----- The drive as a whole -----

  /** Where the wallet and the node part. */
  function Fork(env: Env, s: State): nat { Agreement(s.chain, env.node.tip) }

  /** The node's tip is a checkpoint below the wallet's tip: the node has nothing to say about the blocks above. */
  predicate Behind(env: Env, s: State) {
    Fork(env, s) == Height(env.node.tip) < Height(s.chain.tip)
  }

  /** The height below the first block the emitter sends. */
  function ResumeBelow(env: Env, s: State): nat {
    var start := Height(s.chain.tip);
    if env.skips && Fork(env, s) < start then start - 1 else Fork(env, s)
  }

  function KeptHeights(s: State, fork: nat): set<nat> {
    set h | h in s.chain.heights && h <= fork
  }

  lemma ConnectFork(c: LocalChain, tip: Block, fork: nat, next: nat)
    requires ValidChain(c) && fork < next <= Height(tip) && Lookup(c, fork) == Some(At(tip, fork))
    requires Connect(c, At(tip, next), At(tip, fork)).Some?
    ensures var c1 := Connect(c, At(tip, next), At(tip, fork)).value;
            ValidChain(c1) && c1 == LocalChain(At(tip, next), (set h | h in c.heights && h <= fork) + {next - 1, next})
  {
    assert 0 in (set h | h in c.heights && h <= fork);
  }

  /** The first block after the fork replaces the checkpoints above it, if it connects. */
  lemma StepFork(env: Env, s: State, fork: nat, next: nat)
    requires ValidState(env.world, s) && fork < next <= Height(env.node.tip)
    requires Lookup(s.chain, fork) == Some(At(env.node.tip, fork))
    requires ApplyBlock(env.world, s, At(env.node.tip, next), At(env.node.tip, fork)).Some?
    ensures var s1 := ApplyBlock(env.world, s, At(env.node.tip, next), At(env.node.tip, fork)).value;
            && ValidState(env.world, s1) && s1.indices == s.indices
            && s1.chain == LocalChain(At(env.node.tip, next), KeptHeights(s, fork) + {next - 1, next})
            && s1.anchors + AnchorsAbove(env.world, s.indices, env.node.tip, next) ==
               s.anchors + AnchorsAbove(env.world, s.indices, env.node.tip, next - 1)
            && s1.txs + TxsAbove(env.world, s.indices, env.node.tip, next) ==
               s.txs + TxsAbove(env.world, s.indices, env.node.tip, next - 1)
  {
    ConnectFork(s.chain, env.node.tip, fork, next);
    Applied(env.world, s, At(env.node.tip, next), At(env.node.tip, fork));
    AboveNext(env.world, s.indices, env.node.tip, next - 1, s.anchors, s.txs);
  }

  /** Catching up after the first block is catching up from below it. */
  lemma CaughtUpJoin(env: Env, s: State, kept: set<nat>, next: nat, s1: State, after: State)
    requires 0 < next <= Height(env.node.tip) && s1.indices == s.indices && s1.chain.heights == kept + {next - 1, next}
    requires s1.anchors + AnchorsAbove(env.world, s.indices, env.node.tip, next) ==
             s.anchors + AnchorsAbove(env.world, s.indices, env.node.tip, next - 1)
    requires s1.txs + TxsAbove(env.world, s.indices, env.node.tip, next) ==
             s.txs + TxsAbove(env.world, s.indices, env.node.tip, next - 1)
    requires CaughtUp(env, s1, s1.chain.heights, next, after)
    ensures CaughtUp(env, s, kept + {next - 1}, next - 1, after)
  {
    HeightsJoin(kept, next - 1, Height(env.node.tip));
  }

  lemma CaughtUpFork(env: Env, s: State, fork: nat, next: nat, after: State)
    requires ValidState(env.world, s) && fork < next <= Height(env.node.tip)
    requires Lookup(s.chain, fork) == Some(At(env.node.tip, fork))
    requires var s1 := ApplyBlock(env.world, s, At(env.node.tip, next), At(env.node.tip, fork));
             s1.Some? && CaughtUp(env, s1.value, s1.value.chain.heights, next, after)
    ensures CaughtUp(env, s, KeptHeights(s, fork) + {next - 1}, next - 1, after)
  {
    StepFork(env, s, fork, next);
    var s1 := ApplyBlock(env.world, s, At(env.node.tip, next), At(env.node.tip, fork)).value;
    CaughtUpJoin(env, s, KeptHeights(s, fork), next, s1, after);
  }

  lemma DriveFork(env: Env, s: State, next: nat, count: nat)
    requires ValidState(env.world, s) && Fork(env, s) < next <= Height(env.node.tip)
    requires env.skips ==> next >= Height(s.chain.tip)
    requires ApplyBlock(env.world, s, At(env.node.tip, next), At(env.node.tip, Fork(env, s))).Some?
    ensures var s1 := ApplyBlock(env.world, s, At(env.node.tip, next), At(env.node.tip, Fork(env, s))).value;
            var d := DriveFrom(env, s1, Height(s.chain.tip), next, count);
            && d.Drove? && ValidState(env.world, d.s)
            && CaughtUp(env, s, KeptHeights(s, Fork(env, s)) + {next - 1}, next - 1, d.s)
  {
    var fork, tip := Fork(env, s), env.node.tip;
    AgreementIs(s.chain, tip, Height(s.chain.tip));
    var s1 := ApplyBlock(env.world, s, At(tip, next), At(tip, fork)).value;
    assert ValidState(env.world, s1) && s1.chain.tip == At(tip, next) by {
      StepFork(env, s, fork, next);
    }
    DriveLevel(env, s1, Height(s.chain.tip), next, count);
    CaughtUpFork(env, s, fork, next, DriveFrom(env, s1, Height(s.chain.tip), next, count).s);
  }

  /** What the emitter loop of a valid wallet comes to when every block connects. */
  ghost predicate Reached(env: Env, s: State, s1: State) {
    && ValidState(env.world, s1)
    && CaughtUp(env, s, KeptHeights(s, Fork(env, s)) + {ResumeBelow(env, s)}, ResumeBelow(env, s), s1)
  }

  function DriveOf(env: Env, s: State): Drive {
    DriveFrom(env, s, Height(s.chain.tip), Fork(env, s), 0)
  }

  lemma DriveExtends(env: Env, s: State)
    requires ValidState(env.world, s) && Fork(env, s) == Height(s.chain.tip)
    ensures DriveOf(env, s).Drove? && Reached(env, s, DriveOf(env, s).s) && !Behind(env, s)
    ensures s.chain.tip == env.node.tip ==> DriveOf(env, s) == Drove(s, 0)
  {
    AgreementIs(s.chain, env.node.tip, Height(s.chain.tip));
    assert KeptHeights(s, Fork(env, s)) + {Fork(env, s)} == s.chain.heights;
    DriveLevel(env, s, Height(s.chain.tip), Fork(env, s), 0);
  }

  /** The state after the first block of a drive, and the rest of it. */
  function Continued(env: Env, start: nat, next: nat, applied: Option<State>, before: State): Drive
    requires next <= Height(env.node.tip)
  {
    match applied
    case None => Stuck(before, next)
    case Some(s1) => DriveFrom(env, s1, start, next, 1)
  }

  lemma DriveStarts(env: Env, s: State, start: nat, last: nat)
    requires last <= Height(env.node.tip)
    ensures Emit(env, start, last).RpcError? ==> DriveFrom(env, s, start, last, 0) == Broken(s)
    ensures Emit(env, start, last).NoMoreBlocks? ==> DriveFrom(env, s, start, last, 0) == Drove(s, 0)
    ensures Emit(env, start, last).Emitted? ==>
              var blk, conn := Emit(env, start, last).blk, Emit(env, start, last).connectedTo;
              DriveFrom(env, s, start, last, 0) ==
                Continued(env, start, Height(blk), ApplyBlock(env.world, s, blk, conn), s)
  {
  }

  /** Below the tip there is nothing left to emit after the fork. */
  lemma NothingEmitted(env: Env, s: State)
    requires Fork(env, s) < Height(s.chain.tip) && ResumeBelow(env, s) >= Height(env.node.tip)
    ensures DriveOf(env, s) == if env.skips then Broken(s) else Drove(s, 0)
  {
    DriveStarts(env, s, Height(s.chain.tip), Fork(env, s));
  }

  lemma EmitsFirst(env: Env, s: State)
    requires Fork(env, s) < Height(s.chain.tip) && ResumeBelow(env, s) < Height(env.node.tip)
    ensures Emit(env, Height(s.chain.tip), Fork(env, s)) ==
            Emitted(At(env.node.tip, ResumeBelow(env, s) + 1), At(env.node.tip, Fork(env, s)))
  {
  }

  lemma DriveEmits(env: Env, s: State, start: nat, last: nat, next: nat)
    requires last <= Height(env.node.tip) && next <= Height(env.node.tip)
    requires Emit(env, start, last) == Emitted(At(env.node.tip, next), At(env.node.tip, last))
    ensures DriveFrom(env, s, start, last, 0) ==
            Continued(env, start, next, ApplyBlock(env.world, s, At(env.node.tip, next), At(env.node.tip, last)), s)
  {
    DriveStarts(env, s, start, last);
  }

  /** The first emission after a fork below the tip. */
  lemma FirstEmission(env: Env, s: State)
    requires Fork(env, s) < Height(s.chain.tip) && ResumeBelow(env, s) < Height(env.node.tip)
    ensures var tip, next := env.node.tip, ResumeBelow(env, s) + 1;
            DriveOf(env, s) ==
            Continued(env, Height(s.chain.tip), next, ApplyBlock(env.world, s, At(tip, next), At(tip, Fork(env, s))), s)
  {
    EmitsFirst(env, s);
    DriveEmits(env, s, Height(s.chain.tip), Fork(env, s), ResumeBelow(env, s) + 1);
  }

  lemma DriveReorganizes(env: Env, s: State)
    requires ValidState(env.world, s) && Fork(env, s) < Height(s.chain.tip)
    ensures var d := DriveOf(env, s);
            match d
            case Broken(s1) => s1 == s && env.skips && Height(env.node.tip) < Height(s.chain.tip)
            case Stuck(s1, _) => s1 == s
            case Drove(s1, _) => if Behind(env, s) then !env.skips && s1 == s else Reached(env, s, s1)
  {
    var tip, fork, next := env.node.tip, Fork(env, s), ResumeBelow(env, s) + 1;
    if next > Height(tip) {
      NothingEmitted(env, s);
    } else {
      FirstEmission(env, s);
      if ApplyBlock(env.world, s, At(tip, next), At(tip, fork)).Some? {
        DriveFork(env, s, next, 1);
      }
    }
  }
}
