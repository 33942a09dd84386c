/** The key list of a descriptor does not depend on how, in what order or under what names keys were added. */
module DescriptorTheorems {
  import opened Seqs
  import opened Text
  import opened Networks
  import opened Descriptors

  // ----- Sorting -----

  lemma {:induction false} InsertKeeps<T>(sorted: seq<(string, T)>, k: (string, T))
    ensures multiset(StableInsert(sorted, k)) == multiset(sorted) + multiset{k}
  {
    if sorted != [] && !Before(k.0, sorted[0].0) {
      InsertKeeps(sorted[1..], k);
      assert sorted == [sorted[0]] + sorted[1..];
    }
  }

  lemma {:induction false} SortKeeps<T>(keyed: seq<(string, T)>)
    ensures multiset(StableSort(keyed)) == multiset(keyed) && |StableSort(keyed)| == |keyed|
  {
    if keyed != [] {
      var init, last := keyed[..|keyed| - 1], keyed[|keyed| - 1];
      SortKeeps(init);
      InsertKeeps(StableSort(init), last);
      assert keyed == init + [last];
      assert |multiset(StableSort(keyed))| == |multiset(keyed)|;
    }
  }

  ghost predicate Ascending<T>(keyed: seq<(string, T)>) {
    forall i, j :: 0 <= i < j < |keyed| ==> !Before(keyed[j].0, keyed[i].0)
  }

  lemma NotBefore(a: string, b: string, c: string)
    requires !Before(b, a) && !Before(c, b)
    ensures !Before(c, a)
  {
    BeforeIsTotal(a, b);
    BeforeIsTotal(b, c);
    if Before(a, b) && Before(b, c) {
      BeforeIsTransitive(a, b, c);
    }
    BeforeIsTotal(a, c);
  }

  lemma {:induction false} InsertAscends<T>(sorted: seq<(string, T)>, k: (string, T))
    requires Ascending(sorted)
    ensures Ascending(StableInsert(sorted, k))
  {
    if sorted == [] {
    } else if Before(k.0, sorted[0].0) {
      BeforeIsTotal(k.0, sorted[0].0);
      forall j | 0 <= j < |sorted| ensures !Before(sorted[j].0, k.0) {
        if j > 0 {
          NotBefore(k.0, sorted[0].0, sorted[j].0);
        }
      }
    } else {
      var tail := StableInsert(sorted[1..], k);
      InsertAscends(sorted[1..], k);
      InsertKeeps(sorted[1..], k);
      forall j | 0 <= j < |tail| ensures !Before(tail[j].0, sorted[0].0) {
        assert tail[j] in multiset(sorted[1..]) + multiset{k};
        assert tail[j] == k || tail[j] in sorted[1..];
      }
    }
  }

  lemma {:induction false} SortAscends<T>(keyed: seq<(string, T)>)
    ensures Ascending(StableSort(keyed))
  {
    if keyed != [] {
      SortAscends(keyed[..|keyed| - 1]);
      InsertAscends(StableSort(keyed[..|keyed| - 1]), keyed[|keyed| - 1]);
    }
  }

  /** Elements sorted by the same key are the same element. */
  ghost predicate KeysTell<T(!new)>(keyed: multiset<(string, T)>) {
    forall x, y {:trigger keyed[x], keyed[y]} :: keyed[x] > 0 && keyed[y] > 0 && x.0 == y.0 ==> x == y
  }

  lemma SameHead<T(!new)>(xs: seq<(string, T)>, ys: seq<(string, T)>)
    requires xs != [] && ys != [] && Ascending(xs) && Ascending(ys)
    requires multiset(xs) == multiset(ys) && KeysTell(multiset(xs))
    ensures xs[0] == ys[0] && multiset(xs[1..]) == multiset(ys[1..])
  {
    var x, y := xs[0], ys[0];
    assert x in multiset(ys) && y in multiset(xs);
    HeadIsLeast(ys, x);
    HeadIsLeast(xs, y);
    BeforeIsTotal(x.0, y.0);
    assert x == y;
    MultisetTail(xs);
    MultisetTail(ys);
  }

  lemma HeadIsLeast<T>(xs: seq<(string, T)>, x: (string, T))
    requires Ascending(xs) && x in xs
    ensures !Before(x.0, xs[0].0)
  {
    var i :| 0 <= i < |xs| && xs[i] == x;
    BeforeIsTotal(x.0, x.0);
  }

  lemma MultisetTail<T>(xs: seq<T>)
    requires xs != []
    ensures multiset(xs[1..]) == multiset(xs) - multiset{xs[0]}
  {
    assert xs == [xs[0]] + xs[1..];
  }

  lemma {:induction false} AscendingIsUnique<T(!new)>(xs: seq<(string, T)>, ys: seq<(string, T)>)
    requires Ascending(xs) && Ascending(ys) && multiset(xs) == multiset(ys) && KeysTell(multiset(xs))
    ensures xs == ys
  {
    assert |multiset(xs)| == |xs| && |multiset(ys)| == |ys|;
    if xs != [] {
      SameHead(xs, ys);
      assert xs == [xs[0]] + xs[1..] && ys == [ys[0]] + ys[1..];
      assert multiset(xs[1..]) <= multiset(xs);
      TailAscends(xs);
      TailAscends(ys);
      AscendingIsUnique(xs[1..], ys[1..]);
    }
  }

  lemma TailAscends<T>(xs: seq<(string, T)>)
    requires xs != [] && Ascending(xs)
    ensures Ascending(xs[1..])
  {
  }

  // ----- Insertion order -----

  /** The entries after adding the signers one by one. */
  function Entries(signers: seq<Signer>): map<string, KeyEntry> {
    if signers == [] then map[]
    else
      var last := signers[|signers| - 1];
      Entries(signers[..|signers| - 1])[last.id := last.key]
  }

  ghost predicate DistinctIds(signers: seq<Signer>) {
    forall i, j :: 0 <= i < j < |signers| ==> signers[i].id != signers[j].id
  }

  lemma {:induction false} EntriesHold(signers: seq<Signer>, i: nat)
    requires DistinctIds(signers) && i < |signers|
    ensures signers[i].id in Entries(signers) && Entries(signers)[signers[i].id] == signers[i].key
  {
    if i < |signers| - 1 {
      EntriesHold(signers[..|signers| - 1], i);
    }
  }

  lemma {:induction false} EntryFrom(signers: seq<Signer>, id: string) returns (i: nat)
    requires id in Entries(signers)
    ensures i < |signers| && signers[i].id == id
  {
    if signers[|signers| - 1].id == id {
      i := |signers| - 1;
    } else {
      i := EntryFrom(signers[..|signers| - 1], id);
    }
  }

  /** Every entry of `xs` is an entry of `ys`. */
  lemma EntriesIncluded(xs: seq<Signer>, ys: seq<Signer>, id: string)
    requires DistinctIds(xs) && DistinctIds(ys) && forall s :: s in xs ==> s in ys
    requires id in Entries(xs)
    ensures id in Entries(ys) && Entries(ys)[id] == Entries(xs)[id]
  {
    var i := EntryFrom(xs, id);
    EntriesHold(xs, i);
    assert xs[i] in ys;
    var j :| 0 <= j < |ys| && ys[j] == xs[i];
    EntriesHold(ys, j);
  }

  /** The same signers in any order leave the same entries, and so the same descriptor. */
  lemma InsertionOrderIrrelevant(xs: seq<Signer>, ys: seq<Signer>)
    requires DistinctIds(xs) && DistinctIds(ys) && forall s :: s in xs <==> s in ys
    ensures Entries(xs) == Entries(ys)
  {
    forall id | id in Entries(xs) ensures id in Entries(ys) && Entries(ys)[id] == Entries(xs)[id] {
      EntriesIncluded(xs, ys, id);
    }
    forall id | id in Entries(ys) ensures id in Entries(xs) {
      EntriesIncluded(ys, xs, id);
    }
  }

  // ----- Names and modes -----

  /** The entries in the order a taproot descriptor lists them. */
  function OrderedEntries(entries: map<string, KeyEntry>): seq<KeyEntry> {
    Map((k: (string, KeyEntry)) => k.1, StableSort(WithXonly(entries, SortedKeys(entries.Keys))))
  }

  function WithXonly(entries: map<string, KeyEntry>, ids: seq<string>): (keyed: seq<(string, KeyEntry)>)
    requires forall id :: id in ids ==> id in entries
  {
    seq(|ids|, i requires 0 <= i < |ids| => (entries[ids[i]].xpub.xonly, entries[ids[i]]))
  }

  function Encode(mode: KeyMode): ((string, KeyEntry)) -> Keyed {
    (k: (string, KeyEntry)) => (k.0, BuildTaprootKey(mode, k.1))
  }

  lemma {:induction false} InsertCommutes(mode: KeyMode, sorted: seq<(string, KeyEntry)>, k: (string, KeyEntry))
    ensures StableInsert(Map(Encode(mode), sorted), Encode(mode)(k)) == Map(Encode(mode), StableInsert(sorted, k))
  {
    var encoded := Map(Encode(mode), sorted);
    if sorted != [] {
      assert encoded[1..] == Map(Encode(mode), sorted[1..]);
      InsertCommutes(mode, sorted[1..], k);
      assert StableInsert(encoded, Encode(mode)(k)) == Map(Encode(mode), StableInsert(sorted, k));
    }
  }

  lemma {:induction false} SortCommutes(mode: KeyMode, keyed: seq<(string, KeyEntry)>)
    ensures StableSort(Map(Encode(mode), keyed)) == Map(Encode(mode), StableSort(keyed))
  {
    if keyed != [] {
      var init, last := keyed[..|keyed| - 1], keyed[|keyed| - 1];
      SortCommutes(mode, init);
      assert Map(Encode(mode), keyed)[..|keyed| - 1] == Map(Encode(mode), init);
      InsertCommutes(mode, StableSort(init), last);
    }
  }

  /** Both key modes list the same entries in the same order: only the encoding of each key differs. */
  lemma ModeKeepsOrder(c: Config)
    ensures SortedTaprootKeys(c) == Map((e: KeyEntry) => BuildTaprootKey(c.mode, e), OrderedEntries(c.entries))
  {
    var ids := SortedKeys(c.entries.Keys);
    var keyed := WithXonly(c.entries, ids);
    assert KeyedEntries(c, ids) == Map(Encode(c.mode), keyed);
    SortCommutes(c.mode, keyed);
  }

  /** With distinct x-only keys the order is set by the keys alone: ids may be anything. */
  lemma TaprootIgnoresIds(a: map<string, KeyEntry>, b: map<string, KeyEntry>)
    requires multiset(WithXonly(a, SortedKeys(a.Keys))) == multiset(WithXonly(b, SortedKeys(b.Keys)))
    requires KeysTell(multiset(WithXonly(a, SortedKeys(a.Keys))))
    ensures OrderedEntries(a) == OrderedEntries(b)
  {
    var xs, ys := WithXonly(a, SortedKeys(a.Keys)), WithXonly(b, SortedKeys(b.Keys));
    SortKeeps(xs);
    SortKeeps(ys);
    SortAscends(xs);
    SortAscends(ys);
    AscendingIsUnique(StableSort(xs), StableSort(ys));
  }

  // ----- Duplicates -----

  /** Distinct ids may hide equal keys: exactly then is the key list refused. */
  lemma {:induction false} RepeatedIsExact(keys: seq<DescriptorKey>, seen: set<string>)
    ensures FirstRepeated(keys, seen).None? <==> NoDup(Texts(keys)) && forall k :: k in Texts(keys) ==> k !in seen
    ensures FirstRepeated(keys, seen).Some? ==> FirstRepeated(keys, seen).value in Texts(keys)
  {
    if keys != [] {
      var text, rest := KeyText(keys[0]), Texts(keys[1..]);
      RepeatedIsExact(keys[1..], seen + {text});
      assert Texts(keys) == [text] + rest;
      NoDupHead(text, rest);
    }
  }

  lemma NoDupHead(x: string, rest: seq<string>)
    ensures NoDup([x] + rest) <==> NoDup(rest) && x !in rest
  {
    var all := [x] + rest;
    assert forall i :: 0 <= i < |rest| ==> all[i + 1] == rest[i];
    if NoDup(all) {
      forall i, j | 0 <= i < j < |rest| ensures rest[i] != rest[j] {
        assert all[i + 1] != all[j + 1];
      }
      forall i | 0 <= i < |rest| ensures rest[i] != x {
        assert all[0] != all[i + 1];
      }
    }
  }

  /**
   A descriptor is built exactly from a non-empty set of different keys on a Bitcoin network that
   miniscript accepts.
   */
  lemma BuiltExactly(lib: Library, c: Config)
    ensures Built(lib, c).Ok? <==>
            c.entries != map[] && c.network.Bitcoin? && OnNetwork(c) && NoDup(Texts(CosignerKeys(c))) &&
              lib.accepts(Body(lib, c))
  {
    RepeatedIsExact(CosignerKeys(c), {});
  }

  /** The repeated key is the first one whose text was there before. */
  lemma {:induction false} RepeatedIsFirst(keys: seq<DescriptorKey>, seen: set<string>) returns (j: nat)
    requires FirstRepeated(keys, seen).Some?
    ensures j < |keys| && FirstRepeated(keys, seen) == Some(KeyText(keys[j]))
    ensures KeyText(keys[j]) in seen || exists i :: 0 <= i < j && KeyText(keys[i]) == KeyText(keys[j])
    ensures forall i :: 0 <= i < j ==> KeyText(keys[i]) !in seen
    ensures forall h, i :: 0 <= h < i < j ==> KeyText(keys[h]) != KeyText(keys[i])
  {
    var text := KeyText(keys[0]);
    if text in seen {
      j := 0;
    } else {
      var k := RepeatedIsFirst(keys[1..], seen + {text});
      j := k + 1;
      assert forall i :: 0 < i <= j ==> keys[i] == keys[1..][i - 1];
      if KeyText(keys[j]) !in seen && KeyText(keys[j]) != text {
        var i :| 0 <= i < k && KeyText(keys[1..][i]) == KeyText(keys[1..][k]);
        assert KeyText(keys[i + 1]) == KeyText(keys[j]);
      }
    }
  }

  /** Every key is on the builder's network: main net keys exactly on main net. */
  ghost predicate KeysOnNetwork(c: Config) {
    forall id :: id in c.entries ==> (c.entries[id].xpub.mainnet <==> c.network == Bitcoin(Mainnet))
  }

  /** Each refusal of the builder, in the order of the checks. */
  lemma BuildRefusals(lib: Library, c: Config)
    ensures var r, keys := Built(lib, c), CosignerKeys(c);
            && (r == Err(NoSigners) <==> c.entries == map[])
            && (r == Err(UnsupportedNetwork) <==> c.entries != map[] && c.network.Elements?)
            && (r == Err(NetworkMismatch) <==> c.entries != map[] && c.network.Bitcoin? && !KeysOnNetwork(c))
            && (r.Err? && r.error.DuplicateKey? <==>
                  c.entries != map[] && c.network.Bitcoin? && KeysOnNetwork(c) && !NoDup(Texts(keys)))
            && (r == Err(Miniscript) <==>
                  && c.entries != map[] && c.network.Bitcoin? && KeysOnNetwork(c) && NoDup(Texts(keys))
                  && !lib.accepts(Body(lib, c)))
            && (r.Ok? ==> r.value.body == Body(lib, c))
  {
    RepeatedIsExact(CosignerKeys(c), {});
    assert OnNetwork(c) <==> KeysOnNetwork(c);
  }

  /** Each refusal of the policy accessor, in the order of the checks. */
  lemma PolicyRefusals(lib: Library, c: Config)
    ensures var r := Policy(lib, c);
            && (r == Err(NeedsNumsXpub) <==> c.internalKey.RawNums?)
            && (r == Err(NeedsTaproot) <==> c.internalKey.NumsXpub? && c.scriptType.Wsh?)
            && (r == Err(UnsupportedNetwork) <==> c.internalKey.NumsXpub? && c.scriptType.Tr? && c.network.Elements?)
            && (r.Ok? <==> c.internalKey.NumsXpub? && c.scriptType.Tr? && c.network.Bitcoin?)
  {
  }

  // ----- Ties -----

  /** The elements sorted by this key, in order. */
  function Tied<T>(x: string, keyed: seq<(string, T)>): seq<(string, T)> {
    if keyed == [] then []
    else (if keyed[0].0 == x then [keyed[0]] else []) + Tied(x, keyed[1..])
  }

  lemma {:induction false} TiedSnoc<T>(x: string, keyed: seq<(string, T)>, k: (string, T))
    ensures Tied(x, keyed + [k]) == Tied(x, keyed) + (if k.0 == x then [k] else [])
  {
    if keyed == [] {
      assert keyed + [k] == [k] && [k][1..] == [];
    } else {
      TiedSnoc(x, keyed[1..], k);
      assert (keyed + [k])[1..] == keyed[1..] + [k];
    }
  }

  lemma {:induction false} InsertIsStable<T>(x: string, sorted: seq<(string, T)>, k: (string, T))
    requires Ascending(sorted)
    ensures Tied(x, StableInsert(sorted, k)) == Tied(x, sorted) + (if k.0 == x then [k] else [])
  {
    TiedHead(x, k, sorted);
    if sorted == [] || Before(k.0, sorted[0].0) {
      if k.0 == x {
        NoneTied(x, sorted);
      }
    } else {
      InsertIsStable(x, sorted[1..], k);
      TiedHead(x, sorted[0], sorted[1..]);
      TiedHead(x, sorted[0], StableInsert(sorted[1..], k));
      assert sorted == [sorted[0]] + sorted[1..];
    }
  }

  lemma TiedHead<T>(x: string, head: (string, T), rest: seq<(string, T)>)
    ensures Tied(x, [head] + rest) == (if head.0 == x then [head] else []) + Tied(x, rest)
  {
    assert ([head] + rest)[1..] == rest;
  }

  lemma {:induction false} NoneTied<T>(x: string, sorted: seq<(string, T)>)
    requires Ascending(sorted) && (sorted != [] ==> Before(x, sorted[0].0))
    ensures Tied(x, sorted) == []
  {
    if sorted != [] {
      BeforeIsTotal(x, sorted[0].0);
      if |sorted| > 1 {
        assert !Before(sorted[1].0, sorted[0].0);
        BeforeIsTotal(sorted[0].0, sorted[1].0);
        if Before(sorted[0].0, sorted[1].0) {
          BeforeIsTransitive(x, sorted[0].0, sorted[1].0);
        }
      }
      NoneTied(x, sorted[1..]);
    }
  }

  /** Keys that sort alike keep the order of their ids. */
  lemma {:induction false} SortIsStable<T>(x: string, keyed: seq<(string, T)>)
    ensures Tied(x, StableSort(keyed)) == Tied(x, keyed)
  {
    if keyed != [] {
      var init, last := keyed[..|keyed| - 1], keyed[|keyed| - 1];
      SortIsStable(x, init);
      SortAscends(init);
      InsertIsStable(x, StableSort(init), last);
      TiedSnoc(x, init, last);
      assert keyed == init + [last];
    }
  }
}
