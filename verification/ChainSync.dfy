/**
 The reorg-aware sync of src/chain_sync.rs: a wallet pulls blocks and mempool from a node,
 looks for the traces of a reorganization, and rebuilds from genesis when it finds one.

 The parts of BDK the code drives (local chain, transaction graph, emitter) are modelled by what
 the code relies on: checkpoints along one chain, anchors that are never dropped, a merge that
 overwrites conflicting heights or refuses to connect.
 */
module ChainSync {
  import opened Seqs
  import opened Blocks

  const U32_MAX: nat := 0xFFFF_FFFF

  // ----- What the wallet watches -----

  datatype Keychain = External | Internal
  datatype Script = Script(keychain: Keychain, index: nat)

  /** The last revealed index of each keychain. */
  datatype Indices = Indices(external: Option<nat>, internal: Option<nat>)

  /**
   Facts about transactions that do not change: the wallet scripts each one pays or spends, and
   which unconfirmed ones give way, given everything in the graph and what of it is confirmed.
   */
  datatype World = World(touches: Txid -> set<Script>, displaced: (set<Txid>, set<Txid>, Txid) -> bool)

  predicate IsRevealed(indices: Indices, script: Script) {
    var last := if script.keychain.External? then indices.external else indices.internal;
    last.Some? && script.index <= last.value
  }

  /** The scan matches a transaction only through revealed scripts. */
  predicate Relevant(world: World, indices: Indices, t: Txid) {
    exists script :: script in world.touches(t) && IsRevealed(indices, script)
  }

  function RelevantTxs(world: World, indices: Indices, txs: set<Txid>): set<Txid> {
    set t | t in txs && Relevant(world, indices, t)
  }

  function TxidSet(txs: seq<Txid>): set<Txid> { set t | t in txs }

  // ----- Local chain -----

  /** The checkpoints a wallet keeps: some heights of the chain that ends in `tip`. */
  datatype LocalChain = LocalChain(tip: Block, heights: set<nat>)

  ghost predicate ValidChain(c: LocalChain) {
    && 0 in c.heights && Height(c.tip) in c.heights
    && forall h :: h in c.heights ==> h <= Height(c.tip)
  }

  function Lookup(c: LocalChain, h: nat): Option<Block> {
    if h in c.heights && h <= Height(c.tip) then Some(At(c.tip, h)) else None
  }

  predicate InChain(c: LocalChain, b: Block) {
    Lookup(c, Height(b)) == Some(b)
  }

  /**
   Connecting `blk` through `conn`, the highest block the wallet shares with the chain of `blk`.
   Checkpoints above `conn` are on another branch. They are overwritten if the lowest of them is
   at the height of `blk` or of its parent; otherwise the update cannot tell what to do with
   them and does not connect.
   */
  function Connect(c: LocalChain, blk: Block, conn: Block): Option<LocalChain> {
    var above := set h | h in c.heights && h > Height(conn);
    var top := Height(blk);
    if blk.Mined? && InChain(c, conn) && Height(conn) < top &&
       (above == {} || ((top in above || top - 1 in above) && forall h :: h in above ==> h >= top - 1))
    then Some(LocalChain(blk, (set h | h in c.heights && h <= Height(conn)) + {top - 1, top}))
    else None
  }

  // ----- Change sets -----

  datatype ChangeSet = ChangeSet(chain: map<nat, Option<Block>>, txs: set<Txid>, anchors: set<(Txid, Block)>,
    indices: Indices)

  const NOTHING: ChangeSet := ChangeSet(map[], {}, {}, Indices(None, None))

  function MaxIndex(a: Option<nat>, b: Option<nat>): Option<nat> {
    if a.None? then b else if b.None? then a else if a.value <= b.value then b else a
  }

  function MergeIndices(a: Indices, b: Indices): Indices {
    Indices(MaxIndex(a.external, b.external), MaxIndex(a.internal, b.internal))
  }

  function Merge(a: ChangeSet, b: ChangeSet): ChangeSet {
    ChangeSet(a.chain + b.chain, a.txs + b.txs, a.anchors + b.anchors, MergeIndices(a.indices, b.indices))
  }

  /** The heights whose checkpoint changes; None where it is dropped. */
  function ChainDiff(before: LocalChain, after: LocalChain): map<nat, Option<Block>> {
    map h | h in before.heights + after.heights && Lookup(before, h) != Lookup(after, h) :: Lookup(after, h)
  }

  // ----- Wallet states -----

  datatype State = State(chain: LocalChain, txs: set<Txid>, anchors: set<(Txid, Block)>, indices: Indices,
    staged: ChangeSet)

  /** A new wallet, revealed up to `indices`; everything about it is still staged. */
  function Fresh(indices: Indices): State {
    State(LocalChain(Genesis, {0}), {}, {}, indices, ChangeSet(map[0 := Some(Genesis)], {}, {}, indices))
  }

  function Anchored(txs: set<Txid>, blk: Block): set<(Txid, Block)> {
    set t | t in txs :: (t, blk)
  }

  function ApplyBlock(world: World, s: State, blk: Block, conn: Block): Option<State> {
    match Connect(s.chain, blk, conn)
    case None => None
    case Some(chain) =>
      var txs := RelevantTxs(world, s.indices, BlockTxs(blk));
      var anchors := Anchored(txs, blk);
      var diff := ChangeSet(ChainDiff(s.chain, chain), txs - s.txs, anchors - s.anchors, Indices(None, None));
      Some(State(chain, s.txs + txs, s.anchors + anchors, s.indices, Merge(s.staged, diff)))
  }

  function ApplyUnconfirmed(world: World, s: State, mempool: seq<Txid>): State {
    var txs := RelevantTxs(world, s.indices, TxidSet(mempool));
    s.(txs := s.txs + txs, staged := Merge(s.staged, NOTHING.(txs := txs - s.txs)))
  }

  function Confirmed(s: State): set<Txid> {
    set a | a in s.anchors && a.0 in s.txs && InChain(s.chain, a.1) :: a.0
  }

  function Unconfirmed(world: World, s: State): set<Txid> {
    set t | t in s.txs && t !in Confirmed(s) && !world.displaced(s.txs, Confirmed(s), t)
  }

  /** The transactions the wallet shows. */
  function Canonical(world: World, s: State): set<Txid> {
    Confirmed(s) + Unconfirmed(world, s)
  }

  predicate HasOrphanedAnchor(s: State) {
    exists a :: a in s.anchors && !InChain(s.chain, a.1)
  }

  predicate HasStaleUnconfirmed(world: World, s: State, mempool: set<Txid>) {
    exists t :: t in Unconfirmed(world, s) && t !in mempool
  }

  // ----- The node and the emitter -----

  datatype Node = Node(tip: Block, mempool: seq<Txid>)

  /**
   What a pass runs against. `skips` says where the emitter resumes after a fork: at its start
   height, leaving out the blocks between, or right after the fork.
   */
  datatype Env = Env(world: World, node: Node, skips: bool)

  /** The highest checkpoint at or below `h` that is on the node's chain. */
  function AgreementBelow(c: LocalChain, tip: Block, h: nat): (a: nat)
    ensures a <= h && a <= Height(tip)
  {
    if h == 0 then 0
    else if h <= Height(tip) && Lookup(c, h) == Some(At(tip, h)) then h
    else AgreementBelow(c, tip, h - 1)
  }

  function Agreement(c: LocalChain, tip: Block): nat {
    AgreementBelow(c, tip, Height(c.tip))
  }

  datatype Emission = Emitted(blk: Block, connectedTo: Block) | NoMoreBlocks | RpcError

  /** What the emitter answers after having agreed on, or emitted, the block at height `last`. */
  function Emit(env: Env, start: nat, last: nat): Emission
    requires last <= Height(env.node.tip)
  {
    var tip := env.node.tip;
    var next := if env.skips && last < start then start else last + 1;
    if next <= Height(tip) then Emitted(At(tip, next), At(tip, last))
    else if env.skips && last < start then RpcError
    else NoMoreBlocks
  }

  // ----- A pass, as a function of the state -----

  datatype SyncResult = SyncResult(
    changeset: Option<ChangeSet>,
    blocksSynced: nat,
    newMempoolTxs: nat,
    tipHeight: nat,
    evictedTxids: seq<Txid>,
    reorgRebuilt: bool)

  datatype SyncError = Rpc | ApplyBlockFailed(height: nat)
  datatype Outcome = Ok(result: SyncResult) | Err(error: SyncError)
  datatype Pass = Pass(after: State, outcome: Outcome)

  datatype Drive = Drove(s: State, count: nat) | Stuck(s: State, height: nat) | Broken(s: State)

  function SaturatingSucc(n: nat): nat {
    if n < U32_MAX then n + 1 else U32_MAX
  }

  function ClampU32(n: nat): nat {
    if n <= U32_MAX then n else U32_MAX
  }

  /** Applying every block the emitter has left after height `last`; `count` blocks were applied before. */
  function DriveFrom(env: Env, s: State, start: nat, last: nat, count: nat): Drive
    requires last <= Height(env.node.tip)
    decreases Height(env.node.tip) - last
  {
    match Emit(env, start, last)
    case RpcError => Broken(s)
    case NoMoreBlocks => Drove(s, count)
    case Emitted(blk, conn) =>
      match ApplyBlock(env.world, s, blk, conn)
      case None => Stuck(s, Height(blk))
      case Some(s') => DriveFrom(env, s', start, Height(blk), SaturatingSucc(count))
  }

  function TakeStaged(s: State): State { s.(staged := NOTHING) }

  function StagedOf(s: State): Option<ChangeSet> {
    if s.staged == NOTHING then None else Some(s.staged)
  }

  function Rebuild(env: Env, s: State, beforeConfirmed: set<Txid>): Pass {
    match DriveFrom(env, Fresh(s.indices), 0, 0, 0)
    case Broken(_) => Pass(s, Err(Rpc))
    case Stuck(_, h) => Pass(s, Err(ApplyBlockFailed(h)))
    case Drove(driven, count) =>
      var rebuilt := ApplyUnconfirmed(env.world, driven, env.node.mempool);
      var evicted := SortedTxids(beforeConfirmed - Canonical(env.world, rebuilt));
      Pass(TakeStaged(rebuilt),
           Ok(SyncResult(StagedOf(rebuilt), count, ClampU32(|env.node.mempool|), Height(rebuilt.chain.tip),
                         evicted, true)))
  }

  function Sync(env: Env, s: State): Pass
  {
    var before := Confirmed(s);
    match DriveFrom(env, s, Height(s.chain.tip), Agreement(s.chain, env.node.tip), 0)
    case Broken(s1) => Pass(s1, Err(Rpc))
    case Stuck(s1, _) => Rebuild(env, s1, before)
    case Drove(s1, count) =>
      if !(before <= Confirmed(s1)) || HasOrphanedAnchor(s1) then Rebuild(env, s1, before)
      else
        var s2 := ApplyUnconfirmed(env.world, s1, env.node.mempool);
        if HasStaleUnconfirmed(env.world, s2, TxidSet(env.node.mempool)) then Rebuild(env, s2, before)
        else Pass(TakeStaged(s2),
                  Ok(SyncResult(StagedOf(s2), count, ClampU32(|env.node.mempool|), Height(s2.chain.tip), [], false)))
  }

  // ----- Sorting -----

  function Least(s: set<Txid>): (m: Txid)
    requires s != {}
    ensures m in s && forall x :: x in s ==> m <= x
  {
    LeastExists(s);
    var m :| m in s && IsLeast(m, s);
    m
  }

  predicate IsLeast(m: Txid, s: set<Txid>) {
    forall x :: x in s ==> m <= x
  }

  lemma {:induction false} LeastExists(s: set<Txid>)
    requires s != {}
    ensures exists m :: m in s && IsLeast(m, s)
  {
    var x :| x in s;
    if s == {x} {
      assert IsLeast(x, s);
    } else {
      LeastExists(s - {x});
      var m :| m in s - {x} && IsLeast(m, s - {x});
      assert forall y :: y in s ==> y == x || y in s - {x};
      var least := if m <= x then m else x;
      assert least in s && IsLeast(least, s);
    }
  }

  /** The elements of a set, in increasing order. */
  function SortedTxids(s: set<Txid>): (xs: seq<Txid>)
    ensures forall x :: x in xs <==> x in s
    ensures forall i, j :: 0 <= i < j < |xs| ==> xs[i] < xs[j]
  {
    if s == {} then [] else [Least(s)] + SortedTxids(s - {Least(s)})
  }

  // ----- The wallet and the emitter, as objects -----

  class Wallet {
    var chain: LocalChain
    var txs: set<Txid>
    var anchors: set<(Txid, Block)>
    var indices: Indices
    var staged: ChangeSet

    function AsState(): State
      reads this
    {
      State(chain, txs, anchors, indices, staged)
    }

    /** A new wallet, with nothing revealed. */
    constructor ()
      ensures AsState() == Fresh(Indices(None, None))
    {
      chain, txs, anchors, indices := LocalChain(Genesis, {0}), {}, {}, Indices(None, None);
      staged := ChangeSet(map[0 := Some(Genesis)], {}, {}, Indices(None, None));
    }

    /** Reveals the scripts of `keychain` up to `index`. */
    method RevealAddressesTo(keychain: Keychain, index: nat)
      modifies this
      ensures AsState() == RevealTo(old(AsState()), keychain, index)
    {
      var extra := if keychain.External? then Indices(Some(index), None) else Indices(None, Some(index));
      indices := MergeIndices(indices, extra);
      staged := Merge(staged, NOTHING.(indices := extra));
    }

    method ApplyBlockConnectedTo(world: World, blk: Block, conn: Block) returns (ok: bool)
      modifies this
      ensures ok == ApplyBlock(world, old(AsState()), blk, conn).Some?
      ensures ok ==> AsState() == ApplyBlock(world, old(AsState()), blk, conn).value
      ensures !ok ==> AsState() == old(AsState())
    {
      var connected := Connect(chain, blk, conn);
      if connected.None? {
        return false;
      }
      var found := RelevantTxs(world, indices, BlockTxs(blk));
      var anchored := Anchored(found, blk);
      staged := Merge(staged, ChangeSet(ChainDiff(chain, connected.value), found - txs, anchored - anchors,
        Indices(None, None)));
      chain, txs, anchors := connected.value, txs + found, anchors + anchored;
      ok := true;
    }

    method ApplyUnconfirmedTxs(world: World, mempool: seq<Txid>)
      modifies this
      ensures AsState() == ApplyUnconfirmed(world, old(AsState()), mempool)
    {
      var found := RelevantTxs(world, indices, TxidSet(mempool));
      staged := Merge(staged, NOTHING.(txs := found - txs));
      txs := txs + found;
    }

    method Take() returns (changes: Option<ChangeSet>)
      modifies this
      ensures changes == StagedOf(old(AsState())) && AsState() == TakeStaged(old(AsState()))
    {
      changes := StagedOf(AsState());
      staged := NOTHING;
    }

    /** Replaces this wallet by another. */
    method Become(other: Wallet)
      modifies this
      ensures AsState() == old(other.AsState())
    {
      chain, txs, anchors, indices, staged := other.chain, other.txs, other.anchors, other.indices, other.staged;
    }
  }

  function RevealTo(s: State, keychain: Keychain, index: nat): State {
    var extra := if keychain.External? then Indices(Some(index), None) else Indices(None, Some(index));
    s.(indices := MergeIndices(s.indices, extra), staged := Merge(s.staged, NOTHING.(indices := extra)))
  }

  class Emitter {
    const env: Env
    const start: nat
    var last: nat

    ghost predicate Valid()
      reads this
    {
      last <= Height(env.node.tip)
    }

    constructor (env: Env, checkpoints: LocalChain, start: nat)
      ensures Valid() && this.env == env && this.start == start
      ensures last == Agreement(checkpoints, env.node.tip)
    {
      this.env := env;
      this.start := start;
      last := Agreement(checkpoints, env.node.tip);
    }

    method NextBlock() returns (e: Emission)
      requires Valid()
      modifies this
      ensures Valid() && e == Emit(env, start, old(last))
      ensures last == if e.Emitted? then Height(e.blk) else old(last)
    {
      e := Emit(env, start, last);
      if e.Emitted? {
        last := Height(e.blk);
      }
    }
  }

  /** Drives `wallet` to the node's tip, recovering from reorganizations. */
  method EmitterSync(wallet: Wallet, env: Env) returns (outcome: Outcome)
    modifies wallet
    ensures Pass(wallet.AsState(), outcome) == Sync(env, old(wallet.AsState()))
  {
    var beforeConfirmed := Confirmed(wallet.AsState());
    var emitter := new Emitter(env, wallet.chain, Height(wallet.chain.tip));
    ghost var drive := DriveFrom(env, wallet.AsState(), emitter.start, emitter.last, 0);
    var blocksSynced := 0;
    while true
      invariant emitter.Valid()
      invariant DriveFrom(env, wallet.AsState(), emitter.start, emitter.last, blocksSynced) == drive
      decreases Height(env.node.tip) - emitter.last
    {
      var event := emitter.NextBlock();
      if event.RpcError? {
        return Err(Rpc);
      }
      if event.NoMoreBlocks? {
        break;
      }
      var ok := wallet.ApplyBlockConnectedTo(env.world, event.blk, event.connectedTo);
      if !ok {
        outcome := RebuildOnReorg(wallet, env, beforeConfirmed);
        return;
      }
      blocksSynced := SaturatingSucc(blocksSynced);
    }
    var afterConfirmed := Confirmed(wallet.AsState());
    var demoted := !(beforeConfirmed <= afterConfirmed);
    if demoted || HasOrphanedAnchor(wallet.AsState()) {
      outcome := RebuildOnReorg(wallet, env, beforeConfirmed);
      return;
    }
    var mempool := env.node.mempool;
    var newMempoolTxs := ClampU32(|mempool|);
    var mempoolTxids := TxidSet(mempool);
    wallet.ApplyUnconfirmedTxs(env.world, mempool);
    if HasStaleUnconfirmed(env.world, wallet.AsState(), mempoolTxids) {
      outcome := RebuildOnReorg(wallet, env, beforeConfirmed);
      return;
    }
    var tipHeight := Height(wallet.chain.tip);
    var changeset := wallet.Take();
    outcome := Ok(SyncResult(changeset, blocksSynced, newMempoolTxs, tipHeight, [], false));
  }

  /** A new wallet that reveals what `indices` say, before anything is scanned. */
  method NewWalletRevealed(indices: Indices) returns (wallet: Wallet)
    ensures fresh(wallet) && wallet.AsState() == Fresh(indices)
  {
    wallet := new Wallet();
    if indices.external.Some? {
      wallet.RevealAddressesTo(External, indices.external.value);
    }
    if indices.internal.Some? {
      wallet.RevealAddressesTo(Internal, indices.internal.value);
    }
  }

  /** Scans the node's chain from genesis with a new wallet and swaps it in. */
  method RebuildOnReorg(wallet: Wallet, env: Env, beforeConfirmed: set<Txid>) returns (outcome: Outcome)
    modifies wallet
    ensures Pass(wallet.AsState(), outcome) == Rebuild(env, old(wallet.AsState()), beforeConfirmed)
  {
    var rebuilt := NewWalletRevealed(wallet.indices);
    var emitter := new Emitter(env, rebuilt.chain, Height(rebuilt.chain.tip));
    ghost var drive := DriveFrom(env, Fresh(wallet.indices), 0, 0, 0);
    var blocksSynced := 0;
    while true
      invariant emitter.Valid() && emitter.env == env && emitter.start == 0
      invariant wallet.AsState() == old(wallet.AsState())
      invariant DriveFrom(env, rebuilt.AsState(), 0, emitter.last, blocksSynced) == drive
      decreases Height(env.node.tip) - emitter.last
    {
      var event := emitter.NextBlock();
      if event.RpcError? {
        return Err(Rpc);
      }
      if event.NoMoreBlocks? {
        break;
      }
      var ok := rebuilt.ApplyBlockConnectedTo(env.world, event.blk, event.connectedTo);
      if !ok {
        return Err(ApplyBlockFailed(Height(event.blk)));
      }
      blocksSynced := SaturatingSucc(blocksSynced);
    }
    var newMempoolTxs := ClampU32(|env.node.mempool|);
    rebuilt.ApplyUnconfirmedTxs(env.world, env.node.mempool);
    var evicted := SortedTxids(beforeConfirmed - Canonical(env.world, rebuilt.AsState()));
    var tipHeight := Height(rebuilt.chain.tip);
    wallet.Become(rebuilt);
    var changeset := wallet.Take();
    outcome := Ok(SyncResult(changeset, blocksSynced, newMempoolTxs, tipHeight, evicted, true));
  }
}
