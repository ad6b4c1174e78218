/** The stored block tree and the paths through it (the block index behind internal/chain/chain.go). */
module BlockTree {
  import opened Types
  import opened Params
  import opened Utxo
  import opened Target
  import opened Headers
  import opened BlockRules
  import opened History

  /** What the block index keeps of a block: its data, height and accumulated work. */
  datatype Rec = Rec(block: Block, height: nat, work: nat)

  type Index = map<Hash, Rec>

  function Prev(r: Rec): Hash {
    r.block.header.prevBlock
  }

  function GenesisRec(p: ChainParams): Rec {
    Rec(p.genesisBlock, 0, CalcWork(p.genesisBlock.header.bits))
  }

  function GenesisHash(c: Crypto, p: ChainParams): Hash {
    c.blockId(p.genesisBlock.header)
  }

  /** The standing hypotheses: ideal hashing and a usable network definition. */
  ghost predicate EnvOk(c: Crypto, p: ChainParams) {
    Ideal(c) && Sane(p) && GenesisOk(c, p) && p.genesisBlock.header.prevBlock == ZERO_HASH
  }

  // ------------------------------------------------------------------------------- shape

  /** A stored block above genesis has its parent stored, one height below. */
  ghost predicate LinkedAt(ix: Index, h: Hash)
    requires h in ix
  {
    ix[h].height > 0 ==> Prev(ix[h]) in ix && ix[Prev(ix[h])].height + 1 == ix[h].height
  }

  ghost predicate Linked(ix: Index) {
    forall h {:trigger LinkedAt(ix, h)} :: h in ix ==> LinkedAt(ix, h)
  }

  /** A stored block is genesis, or a structurally valid child of a stored block with the right height and work. */
  ghost predicate NodeOk(c: Crypto, p: ChainParams, ix: Index, h: Hash)
    requires h in ix && LinkedAt(ix, h)
  {
    && c.blockId(ix[h].block.header) == h
    && if ix[h].height == 0 then ix[h] == GenesisRec(p)
       else ix[h].work == ix[Prev(ix[h])].work + CalcWork(ix[h].block.header.bits)
            && StructureOk(c, p, ix[h].block, ix[h].height)
  }

  /** The blocks from genesis to a stored block: the naive parent walk. */
  function Path(ix: Index, h: Hash): (path: seq<Block>)
    requires Linked(ix) && h in ix
    ensures |path| == ix[h].height + 1 && path[|path| - 1] == ix[h].block
    decreases ix[h].height
  {
    assert LinkedAt(ix, h);
    if ix[h].height == 0 then [ix[h].block] else Path(ix, Prev(ix[h])) + [ix[h].block]
  }

  function HeadersOf(blocks: seq<Block>): (r: seq<Header>)
    ensures |r| == |blocks| && forall i :: 0 <= i < |blocks| ==> r[i] == blocks[i].header
  {
    if blocks == [] then [] else HeadersOf(blocks[..|blocks| - 1]) + [blocks[|blocks| - 1].header]
  }

  ghost predicate RulesAt(p: ChainParams, ix: Index, h: Hash)
    requires Linked(ix) && h in ix && Sane(p)
  {
    HeadersOk(p, HeadersOf(Path(ix, h)))
  }

  ghost predicate TreeOk(c: Crypto, p: ChainParams, ix: Index) {
    && Linked(ix) && Sane(p)
    && GenesisHash(c, p) in ix && ix[GenesisHash(c, p)] == GenesisRec(p)
    && (forall h {:trigger NodeOk(c, p, ix, h)} :: h in ix ==> LinkedAt(ix, h) && NodeOk(c, p, ix, h))
    && (forall h {:trigger RulesAt(p, ix, h)} :: h in ix ==> RulesAt(p, ix, h))
  }

  ghost predicate Extends(ix: Index, ix': Index) {
    forall h :: h in ix ==> h in ix' && ix'[h] == ix[h]
  }

  /** The way to `h` leads through `x`. */
  ghost predicate OnWay(ix: Index, h: Hash, x: Hash) {
    Linked(ix) && h in ix && x in ix && Path(ix, x) <= Path(ix, h)
  }

  lemma {:induction false} ExtendsItself(ix: Index)
    ensures Extends(ix, ix)
  {
  }

  lemma {:induction false} PathStable(ix: Index, ix': Index, h: Hash)
    requires Linked(ix) && Linked(ix') && Extends(ix, ix') && h in ix
    ensures Path(ix', h) == Path(ix, h)
    decreases ix[h].height
  {
    assert LinkedAt(ix, h) && LinkedAt(ix', h);
    if ix[h].height > 0 { PathStable(ix, ix', Prev(ix[h])); }
  }

  /** A record that may enter the tree. */
  ghost predicate Admissible(c: Crypto, p: ChainParams, ix: Index, h: Hash, r: Rec)
    requires Linked(ix) && Sane(p)
  {
    && c.blockId(r.block.header) == h
    && Prev(r) in ix && r.height == ix[Prev(r)].height + 1
    && r.work == ix[Prev(r)].work + CalcWork(r.block.header.bits)
    && StructureOk(c, p, r.block, r.height)
    && MayFollow(p, HeadersOf(Path(ix, Prev(r))), r.block.header)
  }

  /** Writing a hash again writes what is already there: the index only ever grows. */
  lemma {:induction false} RewriteIsIdentity(c: Crypto, p: ChainParams, ix: Index, h: Hash, r: Rec)
    requires Ideal(c) && TreeOk(c, p, ix) && Admissible(c, p, ix, h, r) && h in ix && ix[h].height > 0
    ensures ix[h] == r
  {
    assert LinkedAt(ix, h) && NodeOk(c, p, ix, h);
    HeaderDeterminesBlock(c, p, ix[h].block, r.block, ix[h].height, r.height);
  }

  lemma {:induction false} HeadersOfAppend(blocks: seq<Block>, b: Block)
    ensures HeadersOf(blocks + [b]) == HeadersOf(blocks) + [b.header]
  {
    assert (blocks + [b])[..|blocks|] == blocks;
  }

  lemma {:induction false} InsertLinked(ix: Index, h: Hash, r: Rec)
    requires Linked(ix) && h !in ix && Prev(r) in ix && r.height == ix[Prev(r)].height + 1
    ensures Linked(ix[h := r]) && Extends(ix, ix[h := r])
    ensures Path(ix[h := r], h) == Path(ix, Prev(r)) + [r.block]
  {
    var ix' := ix[h := r];
    assert Prev(r) != h;
    forall k {:trigger LinkedAt(ix', k)} | k in ix' ensures LinkedAt(ix', k) {
      if k != h { assert LinkedAt(ix, k); }
    }
    PathStable(ix, ix', Prev(r));
  }

  lemma {:induction false} NodeStable(c: Crypto, p: ChainParams, ix: Index, ix': Index, h: Hash)
    requires h in ix && LinkedAt(ix, h) && Extends(ix, ix') && NodeOk(c, p, ix, h)
    ensures LinkedAt(ix', h) && NodeOk(c, p, ix', h)
  {
  }

  lemma {:induction false} NewNodeOk(c: Crypto, p: ChainParams, ix: Index, h: Hash, r: Rec)
    requires Linked(ix) && Sane(p) && Admissible(c, p, ix, h, r) && h !in ix
    ensures LinkedAt(ix[h := r], h) && NodeOk(c, p, ix[h := r], h)
  {
    assert Prev(r) != h;
  }

  lemma {:induction false} RulesStable(p: ChainParams, ix: Index, ix': Index, h: Hash)
    requires Sane(p) && Linked(ix) && Linked(ix') && Extends(ix, ix') && h in ix && RulesAt(p, ix, h)
    ensures RulesAt(p, ix', h)
  {
    PathStable(ix, ix', h);
  }

  lemma {:induction false} InsertNodes(c: Crypto, p: ChainParams, ix: Index, h: Hash, r: Rec, k: Hash)
    requires TreeOk(c, p, ix) && Admissible(c, p, ix, h, r) && h !in ix && k in ix[h := r]
    ensures LinkedAt(ix[h := r], k) && NodeOk(c, p, ix[h := r], k)
  {
    if k == h {
      NewNodeOk(c, p, ix, h, r);
    } else {
      assert LinkedAt(ix, k) && NodeOk(c, p, ix, k);
      NodeStable(c, p, ix, ix[h := r], k);
    }
  }

  lemma {:induction false} InsertRules(c: Crypto, p: ChainParams, ix: Index, h: Hash, r: Rec, k: Hash)
    requires TreeOk(c, p, ix) && Admissible(c, p, ix, h, r) && h !in ix && k in ix[h := r] && Linked(ix[h := r])
    ensures RulesAt(p, ix[h := r], k)
  {
    InsertLinked(ix, h, r);
    if k == h {
      NewPathOk(c, p, ix, h, r);
    } else {
      assert RulesAt(p, ix, k);
      RulesStable(p, ix, ix[h := r], k);
    }
  }

  lemma {:induction false} InsertNew(c: Crypto, p: ChainParams, ix: Index, h: Hash, r: Rec)
    requires TreeOk(c, p, ix) && Admissible(c, p, ix, h, r) && h !in ix
    ensures TreeOk(c, p, ix[h := r])
  {
    hide NodeOk, RulesAt, LinkedAt, Path;
    var ix' := ix[h := r];
    InsertLinked(ix, h, r);
    forall k {:trigger NodeOk(c, p, ix', k)} | k in ix' ensures LinkedAt(ix', k) && NodeOk(c, p, ix', k) { InsertNodes(c, p, ix, h, r, k); }
    forall k {:trigger RulesAt(p, ix', k)} | k in ix' ensures RulesAt(p, ix', k) { InsertRules(c, p, ix, h, r, k); }
  }

  /** Admitting a block keeps the tree, and every other path. */
  lemma {:induction false} InsertKeepsTree(c: Crypto, p: ChainParams, ix: Index, h: Hash, r: Rec)
    requires EnvOk(c, p) && TreeOk(c, p, ix) && Admissible(c, p, ix, h, r) && h != GenesisHash(c, p)
    ensures TreeOk(c, p, ix[h := r]) && Extends(ix, ix[h := r])
    ensures Path(ix[h := r], h) == Path(ix, Prev(r)) + [r.block]
  {
    if h in ix {
      HeightZeroIsGenesis(c, p, ix, h);
      RewriteIsIdentity(c, p, ix, h, r);
      assert ix[h := r] == ix;
    } else {
      InsertLinked(ix, h, r);
      InsertNew(c, p, ix, h, r);
    }
  }

  lemma {:induction false} HeightZeroIsGenesis(c: Crypto, p: ChainParams, ix: Index, h: Hash)
    requires TreeOk(c, p, ix) && h in ix
    ensures ix[h].height == 0 <==> h == GenesisHash(c, p)
  {
    assert LinkedAt(ix, h) && NodeOk(c, p, ix, h);
  }

  lemma {:induction false} NodeStructure(c: Crypto, p: ChainParams, ix: Index, h: Hash)
    requires TreeOk(c, p, ix) && h in ix && ix[h].height > 0
    ensures Prev(ix[h]) in ix && ix[Prev(ix[h])].height + 1 == ix[h].height
    ensures StructureOk(c, p, ix[h].block, ix[h].height) && ix[h].block.transactions != []
    ensures ix[h].work == ix[Prev(ix[h])].work + CalcWork(ix[h].block.header.bits)
  {
    assert LinkedAt(ix, h) && NodeOk(c, p, ix, h);
  }

  lemma {:induction false} NewPathOk(c: Crypto, p: ChainParams, ix: Index, h: Hash, r: Rec)
    requires TreeOk(c, p, ix) && Admissible(c, p, ix, h, r)
    ensures HeadersOk(p, HeadersOf(Path(ix, Prev(r)) + [r.block]))
  {
    var before := Path(ix, Prev(r));
    assert RulesAt(p, ix, Prev(r));
    HeadersOfAppend(before, r.block);
    var hs := HeadersOf(before) + [r.block.header];
    assert hs[..|hs| - 1] == HeadersOf(before);
  }

  /** No stored block has the zero hash, so a block with a stored parent is never genesis. */
  lemma {:induction false} StoredIsNotZero(c: Crypto, p: ChainParams, ix: Index, h: Hash)
    requires EnvOk(c, p) && TreeOk(c, p, ix) && h in ix
    ensures h != ZERO_HASH
  {
    assert LinkedAt(ix, h) && NodeOk(c, p, ix, h);
  }

  lemma {:induction false} ChildIsNotGenesis(c: Crypto, p: ChainParams, ix: Index, b: Block)
    requires EnvOk(c, p) && TreeOk(c, p, ix) && b.header.prevBlock in ix
    ensures c.blockId(b.header) != GenesisHash(c, p)
  {
    StoredIsNotZero(c, p, ix, b.header.prevBlock);
  }

  // -------------------------------------------------------------------- ancestor lookup

  /** What the ancestor closure answers: the collected side-chain headers first, then the main chain. */
  function Lookup(ancestors: map<nat, Header>, at: map<nat, Hash>, ix: Index): Ancestors {
    (i: nat) =>
      if i in ancestors then Some(ancestors[i])
      else if i in at && at[i] in ix then Some(ix[at[i]].block.header)
      else None
  }

  /** The closure and the naive parent walk agree at every height up to the parent. */
  lemma {:induction false} LookupAgrees(ix: Index, at: map<nat, Hash>, n: nat, tip: Hash, parent: Hash, fork: Hash,
                                        ancestors: map<nat, Header>)
    requires Linked(ix) && MainOk(ix, at, n, tip) && parent in ix && fork in ix
    requires ix[fork].height <= n && at[ix[fork].height] == fork && ix[fork].height <= ix[parent].height
    requires Path(ix, parent)[..ix[fork].height + 1] == Path(ix, fork)
    requires forall i: nat :: i in ancestors <==> ix[fork].height < i <= ix[parent].height
    requires forall i: nat :: i in ancestors ==> ancestors[i] == Path(ix, parent)[i].header
    ensures AgreeUpTo(Lookup(ancestors, at, ix), OnPath(HeadersOf(Path(ix, parent))), ix[parent].height)
  {
    var path := Path(ix, parent);
    forall i: nat | 0 <= i <= ix[parent].height
      ensures Lookup(ancestors, at, ix)(i) == OnPath(HeadersOf(path))(i)
    {
      if i <= ix[fork].height {
        MainPrefix(ix, at, n, tip, ix[fork].height);
        MainBlockAt(ix, at, n, tip, i);
        assert path[i] == path[..ix[fork].height + 1][i] == Path(ix, tip)[i];
      }
    }
  }

  // ------------------------------------------------------------------------- main chain

  /** `at` lists, by height, the path from genesis to `tip`. */
  ghost predicate MainOk(ix: Index, at: map<nat, Hash>, n: nat, tip: Hash) {
    && (forall i: nat :: i in at <==> i <= n)
    && at[n] == tip
    && (forall i: nat :: i <= n ==> at[i] in ix && ix[at[i]].height == i)
    && (forall i: nat {:trigger Prev(ix[at[i]])} :: 0 < i <= n ==> Prev(ix[at[i]]) == at[i - 1])
  }

  lemma {:induction false} MainAt(ix: Index, at: map<nat, Hash>, n: nat, tip: Hash, i: nat)
    requires MainOk(ix, at, n, tip) && i <= n
    ensures i in at && at[i] in ix && ix[at[i]].height == i && at[n] == tip
    ensures i > 0 ==> i - 1 in at && Prev(ix[at[i]]) == at[i - 1]
  {
  }

  lemma {:induction false} MainHeights(ix: Index, at: map<nat, Hash>, n: nat, tip: Hash)
    requires MainOk(ix, at, n, tip)
    ensures forall i: nat :: i in at <==> i <= n
  {
  }

  lemma {:induction false} MainPrefix(ix: Index, at: map<nat, Hash>, n: nat, tip: Hash, k: nat)
    requires Linked(ix) && MainOk(ix, at, n, tip) && k <= n
    ensures Path(ix, at[k]) == Path(ix, tip)[..k + 1]
  {
    if k < n {
      var at' := at - {n};
      assert MainOk(ix, at', n - 1, at[n - 1]);
      MainPrefix(ix, at', n - 1, at[n - 1], k);
      assert LinkedAt(ix, tip);
      assert Path(ix, tip) == Path(ix, at[n - 1]) + [ix[tip].block];
    } else {
      assert Path(ix, tip)[..n + 1] == Path(ix, tip);
    }
  }

  lemma {:induction false} MainBlockAt(ix: Index, at: map<nat, Hash>, n: nat, tip: Hash, k: nat)
    requires Linked(ix) && MainOk(ix, at, n, tip) && k <= n
    ensures Path(ix, tip)[k] == ix[at[k]].block
  {
    MainPrefix(ix, at, n, tip, k);
    assert Path(ix, at[k])[k] == ix[at[k]].block;
  }

  /** Cutting the main chain back to a height. */
  lemma {:induction false} MainTruncate(ix: Index, at: map<nat, Hash>, n: nat, tip: Hash, at': map<nat, Hash>, k: nat)
    requires MainOk(ix, at, n, tip) && k <= n
    requires (forall i: nat :: i in at' <==> i <= k) && (forall i: nat :: i <= k ==> at'[i] == at[i])
    ensures MainOk(ix, at', k, at[k])
  {
  }

  /** Growing it by a stored child of its tip. */
  lemma {:induction false} MainExtend(ix: Index, at: map<nat, Hash>, n: nat, tip: Hash, h: Hash)
    requires Linked(ix) && MainOk(ix, at, n, tip) && h in ix && ix[h].height == n + 1 && Prev(ix[h]) == tip
    ensures MainOk(ix, at[n + 1 := h], n + 1, h)
    ensures Path(ix, h) == Path(ix, tip) + [ix[h].block]
  {
    assert LinkedAt(ix, h);
  }

  lemma {:induction false} MainStable(ix: Index, ix': Index, at: map<nat, Hash>, n: nat, tip: Hash)
    requires MainOk(ix, at, n, tip) && Extends(ix, ix')
    ensures MainOk(ix', at, n, tip)
  {
  }

  // ------------------------------------------------------------------------- chain work

  function PathWork(blocks: seq<Block>): nat {
    if blocks == [] then 0 else PathWork(blocks[..|blocks| - 1]) + CalcWork(blocks[|blocks| - 1].header.bits)
  }

  /** The stored work of a block is the sum of the work of its ancestors and itself. */
  lemma {:induction false} WorkIsPathSum(c: Crypto, p: ChainParams, ix: Index, h: Hash)
    requires TreeOk(c, p, ix) && h in ix
    ensures ix[h].work == PathWork(Path(ix, h))
    decreases ix[h].height
  {
    assert LinkedAt(ix, h) && NodeOk(c, p, ix, h);
    if ix[h].height > 0 {
      var prev := Prev(ix[h]);
      WorkIsPathSum(c, p, ix, prev);
      assert (Path(ix, prev) + [ix[h].block])[..|Path(ix, prev)|] == Path(ix, prev);
    } else {
      var path := Path(ix, h);
      assert path[..0] == [] && PathWork(path[..0]) == 0;
    }
  }
}
