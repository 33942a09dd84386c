/**
 Blocks and chains, as a node and a wallet see them.

 A block is its own hash: it holds its parent, so two blocks are equal only when their whole
 ancestry is. `nonce` tells apart blocks with the same parent and transactions.
 */
module Blocks {

  type Txid = nat

  datatype Block = Genesis | Mined(parent: Block, txs: seq<Txid>, nonce: nat)

  function Height(b: Block): nat {
    match b
    case Genesis => 0
    case Mined(p, _, _) => Height(p) + 1
  }

  /** The ancestor of `tip` at height `h`. */
  function At(tip: Block, h: nat): (b: Block)
    requires h <= Height(tip)
    ensures Height(b) == h
  {
    if h == Height(tip) then tip else At(tip.parent, h)
  }

  function BlockTxs(b: Block): set<Txid> {
    match b
    case Genesis => {}
    case Mined(_, txs, _) => set t | t in txs
  }

  /** Every transaction of the chain that ends in `tip`. */
  function ChainTxs(tip: Block): set<Txid> {
    match tip
    case Genesis => {}
    case Mined(p, _, _) => ChainTxs(p) + BlockTxs(tip)
  }

  predicate OnChain(b: Block, tip: Block) {
    Height(b) <= Height(tip) && At(tip, Height(b)) == b
  }

  lemma {:induction false} AtAt(tip: Block, h: nat, k: nat)
    requires k <= h <= Height(tip)
    ensures At(At(tip, h), k) == At(tip, k)
  {
    if h < Height(tip) {
      AtAt(tip.parent, h, k);
    }
  }

  lemma {:induction false} AtParent(tip: Block, h: nat)
    requires 0 < h <= Height(tip)
    ensures At(tip, h).Mined? && At(tip, h).parent == At(tip, h - 1)
  {
    if h < Height(tip) {
      AtParent(tip.parent, h);
    }
  }

  /** A transaction is on the chain when it is in the block at some height. */
  lemma ChainTxsAt(tip: Block, t: Txid)
    ensures t in ChainTxs(tip) <==> exists h: nat :: h <= Height(tip) && t in BlockTxs(At(tip, h))
  {
    if t in ChainTxs(tip) {
      var h := MinedAt(tip, t);
    }
    forall h: nat | h <= Height(tip) && t in BlockTxs(At(tip, h)) ensures t in ChainTxs(tip) {
      MinedOnChain(tip, t, h);
    }
  }

  lemma {:induction false} MinedAt(tip: Block, t: Txid) returns (h: nat)
    requires t in ChainTxs(tip)
    ensures h <= Height(tip) && t in BlockTxs(At(tip, h))
  {
    if t in BlockTxs(tip) {
      h := Height(tip);
    } else {
      h := MinedAt(tip.parent, t);
    }
  }

  lemma {:induction false} MinedOnChain(tip: Block, t: Txid, h: nat)
    requires h <= Height(tip) && t in BlockTxs(At(tip, h))
    ensures t in ChainTxs(tip)
  {
    if h < Height(tip) {
      MinedOnChain(tip.parent, t, h);
    }
  }

  lemma BlockTxsOnChain(b: Block, tip: Block)
    requires OnChain(b, tip)
    ensures BlockTxs(b) <= ChainTxs(tip)
  {
    forall t | t in BlockTxs(b) ensures t in ChainTxs(tip) {
      ChainTxsAt(tip, t);
      assert t in BlockTxs(At(tip, Height(b)));
    }
  }
}
