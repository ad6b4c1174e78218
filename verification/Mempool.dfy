/** The mempool index and the block template (internal/mempool/mempool.go, internal/miner/miner.go). */
module Mempool {
  import opened Types
  import opened Params
  import opened Utxo
  import opened TxValidation
  import opened Supply
  import opened Codec
  import opened Wire
  import opened Target
  import opened BlockRules

  datatype TxEntry = TxEntry(tx: Transaction, hash: Hash, fee: u64, feeRate: u64)

  type Pool = map<Hash, TxEntry>

  // -------------------------------------------------------------------- the outpoint index

  /** `spent` maps exactly the inputs of the pool's transactions, each to the one that spends it. */
  ghost predicate IndexOk(txs: Pool, spent: map<OutPoint, Hash>) {
    && (forall op :: op in spent ==> spent[op] in txs && op in InputSet(txs[spent[op]].tx.inputs))
    && (forall h, op :: h in txs && op in InputSet(txs[h].tx.inputs) ==> op in spent && spent[op] == h)
  }

  /** Hence no two entries spend the same outpoint, and the index has no other outpoint. */
  lemma {:induction false} EntriesAreDisjoint(txs: Pool, spent: map<OutPoint, Hash>, h: Hash, k: Hash)
    requires IndexOk(txs, spent) && h in txs && k in txs && h != k
    ensures InputSet(txs[h].tx.inputs) !! InputSet(txs[k].tx.inputs)
  {
    forall op | op in InputSet(txs[h].tx.inputs) ensures op !in InputSet(txs[k].tx.inputs) {
      assert op in spent && spent[op] == h;
    }
  }

  function Claim(spent: map<OutPoint, Hash>, ins: seq<TxInput>, h: Hash): map<OutPoint, Hash> {
    spent + map op | op in InputSet(ins) :: h
  }

  lemma {:induction false} ClaimKeepsIndex(txs: Pool, spent: map<OutPoint, Hash>, e: TxEntry)
    requires IndexOk(txs, spent) && e.hash !in txs && InputSet(e.tx.inputs) !! spent.Keys
    ensures IndexOk(txs[e.hash := e], Claim(spent, e.tx.inputs, e.hash))
  {
  }

  lemma {:induction false} ReleaseKeepsIndex(txs: Pool, spent: map<OutPoint, Hash>, h: Hash)
    requires IndexOk(txs, spent) && h in txs
    ensures IndexOk(txs - {h}, spent - InputSet(txs[h].tx.inputs))
  {
    forall k, op | k in txs - {h} && op in InputSet(txs[k].tx.inputs) ensures op !in InputSet(txs[h].tx.inputs) {
      EntriesAreDisjoint(txs, spent, h, k);
    }
  }

  // ------------------------------------------------------------------- the order on entries

  /** Higher fee rate first, then the smaller hash read as a little-endian number. */
  predicate Before(a: TxEntry, b: TxEntry) {
    a.feeRate > b.feeRate || (a.feeRate == b.feeRate && FromLE(a.hash) < FromLE(b.hash))
  }

  lemma {:induction false} BeforeIsTotal(a: TxEntry, b: TxEntry)
    requires |a.hash| == |b.hash| && a.hash != b.hash
    ensures Before(a, b) || Before(b, a)
  {
    LEInvertsFromLE(a.hash);
    LEInvertsFromLE(b.hash);
  }

  ghost predicate Ordered(es: seq<TxEntry>) {
    forall i, j :: 0 <= i < j < |es| ==> Before(es[i], es[j])
  }

  /** Descending fee rates, and ascending hash numbers among equals. */
  ghost predicate ByFeeRate(es: seq<TxEntry>) {
    forall i, j :: 0 <= i < j < |es| ==>
      es[i].feeRate >= es[j].feeRate && (es[i].feeRate == es[j].feeRate ==> FromLE(es[i].hash) < FromLE(es[j].hash))
  }

  lemma {:induction false} OrderedIsByFeeRate(es: seq<TxEntry>)
    ensures Ordered(es) <==> ByFeeRate(es)
  {
    hide FromLE;
  }

  ghost predicate Lists(es: seq<TxEntry>, txs: Pool) {
    && (forall i :: 0 <= i < |es| ==> es[i].hash in txs && txs[es[i].hash] == es[i])
    && (forall h :: h in txs ==> txs[h] in es)
  }

  lemma {:induction false} OrderedHead(xs: seq<TxEntry>, ys: seq<TxEntry>)
    requires Ordered(xs) && Ordered(ys) && xs != [] && ys != []
    requires xs[0] in ys && ys[0] in xs
    ensures xs[0] == ys[0]
  {
  }

  ghost function EntrySet(es: seq<TxEntry>): set<TxEntry> {
    set e | e in es
  }

  lemma {:induction false} ListedIsNotEmpty(es: seq<TxEntry>)
    ensures es != [] ==> EntrySet(es) != {}
  {
    if es != [] { assert es[0] in EntrySet(es); }
  }

  /** One set of entries has one ordered listing: the order in which a map is walked does not matter. */
  lemma {:induction false} OrderIsUnique(xs: seq<TxEntry>, ys: seq<TxEntry>)
    requires Ordered(xs) && Ordered(ys) && EntrySet(xs) == EntrySet(ys)
    ensures xs == ys
  {
    if xs == [] {
      assert EntrySet(xs) == {};
      ListedIsNotEmpty(ys);
    } else {
      assert xs[0] in EntrySet(ys);
      assert ys[0] in EntrySet(xs);
      OrderedHead(xs, ys);
      TailSet(xs);
      TailSet(ys);
      OrderIsUnique(xs[1..], ys[1..]);
      assert xs == [xs[0]] + xs[1..] && ys == [ys[0]] + ys[1..];
    }
  }

  lemma {:induction false} TailSet(xs: seq<TxEntry>)
    requires Ordered(xs) && xs != []
    ensures EntrySet(xs[1..]) == EntrySet(xs) - {xs[0]} && Ordered(xs[1..])
  {
    assert xs == [xs[0]] + xs[1..];
    forall e | e in xs[1..] ensures e != xs[0] {
      var i :| 0 <= i < |xs| - 1 && xs[1..][i] == e;
      assert Before(xs[0], xs[i + 1]);
    }
  }

  /** The first of a pool in that order. */
  method First(txs: Pool) returns (m: TxEntry)
    requires txs != map[] && HashesOk(txs)
    ensures m.hash in txs && txs[m.hash] == m && forall h :: h in txs && h != m.hash ==> Before(m, txs[h])
  {
    var h0 :| h0 in txs;
    m := txs[h0];
    var left := txs.Keys - {h0};
    while left != {}
      invariant left <= txs.Keys && m.hash in txs && txs[m.hash] == m && m.hash !in left
      invariant forall h :: h in txs && h !in left && h != m.hash ==> Before(m, txs[h])
      decreases |left|
    {
      var h :| h in left;
      var e := txs[h];
      BeforeIsTotal(e, m);
      if Before(e, m) { m := e; }
      left := left - {h};
    }
  }

  ghost predicate HashesOk(txs: Pool) {
    forall h :: h in txs ==> txs[h].hash == h && |h| == HASH_SIZE
  }

  /** `es` lists in order what is not left, all of it before everything that is. */
  ghost predicate SortedSoFar(txs: Pool, left: Pool, es: seq<TxEntry>) {
    && (forall h :: h in left ==> h in txs && left[h] == txs[h])
    && (forall h :: h in txs && h !in left ==> txs[h] in es)
    && (forall i :: 0 <= i < |es| ==> es[i].hash in txs && txs[es[i].hash] == es[i])
    && Ordered(es) && (forall i, h :: 0 <= i < |es| && h in left ==> Before(es[i], left[h]))
    && |es| + |left| == |txs|
  }

  lemma {:induction false} SortedNext(txs: Pool, left: Pool, es: seq<TxEntry>, m: TxEntry)
    requires SortedSoFar(txs, left, es) && m.hash in left && left[m.hash] == m
    requires forall h :: h in left && h != m.hash ==> Before(m, left[h])
    ensures SortedSoFar(txs, left - {m.hash}, es + [m])
  {
    hide Before;
    var es', left' := es + [m], left - {m.hash};
    assert left'.Keys == left.Keys - {m.hash};
    forall h | h in txs && h !in left' ensures txs[h] in es' {
      if h == m.hash { assert es'[|es|] == m; }
    }
  }

  method SortEntries(txs: Pool) returns (es: seq<TxEntry>)
    requires HashesOk(txs)
    ensures Ordered(es) && Lists(es, txs) && |es| == |txs|
  {
    hide Before;
    es := [];
    var left := txs;
    while left != map[]
      invariant SortedSoFar(txs, left, es) && HashesOk(left)
      decreases |left|
    {
      var m := First(left);
      SortedNext(txs, left, es, m);
      es := es + [m];
      left := left - {m.hash};
    }
  }

  lemma {:induction false} TxHasBytes(tx: Transaction)
    ensures |EncTx(tx)| >= 8
  {
  }

  ghost predicate AllCurrent(verify: ScriptCheck, p: ChainParams, s: Coins, height: nat, txs: Pool) {
    forall h :: h in txs ==> TxOk(verify, p, s, height, txs[h].tx) && txs[h].fee == FeeOf(s, txs[h].tx)
  }

  lemma {:induction false} CurrentAfter(verify: ScriptCheck, p: ChainParams, s: Coins, height: nat, txs: Pool)
    requires AllCurrent(verify, p, s, height, txs)
    ensures forall h :: AllCurrent(verify, p, s, height, txs - {h})
  {
    hide TxOk, FeeOf;
  }

  lemma {:induction false} CurrentWith(verify: ScriptCheck, p: ChainParams, s: Coins, height: nat, txs: Pool, e: TxEntry)
    requires AllCurrent(verify, p, s, height, txs) && TxOk(verify, p, s, height, e.tx) && e.fee == FeeOf(s, e.tx)
    ensures AllCurrent(verify, p, s, height, txs[e.hash := e])
  {
    hide TxOk, FeeOf;
  }

  // ---------------------------------------------------------------------------- the class

  class Mempool {
    const ids: TxIds
    const verify: ScriptCheck
    const p: ChainParams

    var txs: Pool
    var spentOutpoints: map<OutPoint, Hash>
    var utxoSet: Coins
    var tipHeight: nat

    ghost predicate Valid()
      reads this
    {
      && IndexOk(txs, spentOutpoints) && HashesOk(txs)
      && (forall h :: h in txs ==> ids(txs[h].tx) == h && !IsCoinbase(txs[h].tx))
    }

    constructor (ids: TxIds, verify: ScriptCheck, p: ChainParams, coins: Coins)
      ensures this.ids == ids && this.verify == verify && this.p == p
      ensures Valid() && txs == map[] && spentOutpoints == map[] && utxoSet == coins && tipHeight == 0
    {
      this.ids, this.verify, this.p := ids, verify, p;
      txs, spentOutpoints, utxoSet, tipHeight := map[], map[], coins, 0;
    }

    /** Every entry validates alone on the present set, for the fee it is stored with. */
    ghost predicate Current()
      reads this
    {
      AllCurrent(verify, p, utxoSet, tipHeight + 1, txs)
    }

    /** What AddTx lets in. */
    ghost predicate Admits(tx: Transaction)
      reads this
    {
      && !IsCoinbase(tx) && ids(tx) !in txs && |txs| % TWO32 < p.maxMempoolSize
      && InputSet(tx.inputs) !! spentOutpoints.Keys
      && TxOk(verify, p, utxoSet, tipHeight + 1, tx)
      && FeeOf(utxoSet, tx) >= p.minRelayTxFee
    }

    method Conflicts(ins: seq<TxInput>) returns (r: bool)
      ensures r <==> !(InputSet(ins) !! spentOutpoints.Keys)
    {
      for i := 0 to |ins|
        invariant InputSet(ins[..i]) !! spentOutpoints.Keys
      {
        assert ins[..i + 1][..i] == ins[..i];
        if ins[i].previousOutPoint in spentOutpoints {
          assert ins[i].previousOutPoint in InputSet(ins);
          return true;
        }
      }
      assert ins[..|ins|] == ins;
      return false;
    }

    /** The checks of AddTx: the fee of an admissible transaction. */
    method Vet(tx: Transaction) returns (r: Option<u64>)
      ensures r.Some? <==> Admits(tx)
      ensures r.Some? ==> r.value == FeeOf(utxoSet, tx)
    {
      hide TxOk, IsCoinbase, FeeOf, InputSet;
      if IsCoinbase(tx) || tx.inputs == [] || tx.outputs == [] { EmptyIsNotOk(verify, p, utxoSet, tipHeight + 1, tx); return None; }
      if ids(tx) in txs || |txs| % TWO32 >= p.maxMempoolSize { return None; }
      var conflict := Conflicts(tx.inputs);
      if conflict { return None; }
      var fee := ValidateSingleTransaction(verify, p, utxoSet, tipHeight, tx);
      if fee.None? || (p.minRelayTxFee > 0 && fee.value < p.minRelayTxFee) { return None; }
      return fee;
    }

    /** Validates and adds: exactly the admissible transactions enter, and each claims exactly its own inputs. */
    method AddTx(tx: Transaction) returns (ok: bool)
      requires Valid() && HashesFit(tx) && |ids(tx)| == HASH_SIZE
      modifies this`txs, this`spentOutpoints
      ensures Valid() && (ok <==> old(Admits(tx))) && (old(Current()) ==> Current())
      ensures !ok ==> txs == old(txs) && spentOutpoints == old(spentOutpoints)
      ensures ok ==>
                && txs.Keys == old(txs).Keys + {ids(tx)} && (forall h :: h in old(txs) ==> txs[h] == old(txs)[h])
                && txs[ids(tx)].tx == tx && txs[ids(tx)].fee == FeeOf(utxoSet, tx)
                && txs[ids(tx)].feeRate == FeeOf(utxoSet, tx) / |EncTx(tx)|
                && spentOutpoints == Claim(old(spentOutpoints), tx.inputs, ids(tx))
    {
      hide IndexOk, TxOk, IsCoinbase, Claim, FeeOf, EncTx, HashesFit, InputSet, HashesOk, AllCurrent;
      var fee := Vet(tx);
      if fee.None? { return false; }
      var size := SerializeSize(tx);
      TxHasBytes(tx);
      Insert(TxEntry(tx, ids(tx), fee.value, fee.value / size));
      return true;
    }

    method Insert(entry: TxEntry)
      requires Valid() && entry.hash == ids(entry.tx) && |entry.hash| == HASH_SIZE && !IsCoinbase(entry.tx)
      requires entry.hash !in txs && InputSet(entry.tx.inputs) !! spentOutpoints.Keys
      requires TxOk(verify, p, utxoSet, tipHeight + 1, entry.tx) && entry.fee == FeeOf(utxoSet, entry.tx)
      modifies this`txs, this`spentOutpoints
      ensures Valid() && txs == old(txs)[entry.hash := entry] && (old(Current()) ==> Current())
      ensures spentOutpoints == Claim(old(spentOutpoints), entry.tx.inputs, entry.hash)
    {
      hide IndexOk, Claim, TxOk, FeeOf, AllCurrent;
      if Current() { CurrentWith(verify, p, utxoSet, tipHeight + 1, txs, entry); }
      ClaimKeepsIndex(txs, spentOutpoints, entry);
      txs := txs[entry.hash := entry];
      ClaimInputs(entry.tx.inputs, entry.hash);
    }

    static lemma {:induction false} EmptyIsNotOk(verify: ScriptCheck, p: ChainParams, s: Coins, height: nat, tx: Transaction)
      ensures tx.inputs == [] || tx.outputs == [] ==> !TxOk(verify, p, s, height, tx)
    {
    }

    method ClaimInputs(ins: seq<TxInput>, hash: Hash)
      modifies this`spentOutpoints
      ensures spentOutpoints == Claim(old(spentOutpoints), ins, hash)
    {
      for i := 0 to |ins|
        invariant spentOutpoints == Claim(old(spentOutpoints), ins[..i], hash)
      {
        assert ins[..i + 1][..i] == ins[..i];
        spentOutpoints := spentOutpoints[ins[i].previousOutPoint := hash];
      }
      assert ins[..|ins|] == ins;
    }

    /** Removes a transaction and releases exactly its inputs; an unknown hash changes nothing. */
    method RemoveTx(hash: Hash)
      requires Valid()
      modifies this`txs, this`spentOutpoints
      ensures Valid() && txs == old(txs) - {hash} && (old(Current()) ==> Current())
      ensures spentOutpoints == if hash in old(txs) then old(spentOutpoints) - InputSet(old(txs)[hash].tx.inputs)
                                else old(spentOutpoints)
    {
      hide IndexOk, TxOk, FeeOf, InputSet, AllCurrent;
      if Current() { CurrentAfter(verify, p, utxoSet, tipHeight + 1, txs); }
      if hash !in txs {
        assert txs - {hash} == txs;
        return;
      }
      var ins := txs[hash].tx.inputs;
      ReleaseKeepsIndex(txs, spentOutpoints, hash);
      ReleaseInputs(ins);
      txs := txs - {hash};
    }

    method ReleaseInputs(ins: seq<TxInput>)
      modifies this`spentOutpoints
      ensures spentOutpoints == old(spentOutpoints) - InputSet(ins)
    {
      for i := 0 to |ins|
        invariant spentOutpoints == old(spentOutpoints) - InputSet(ins[..i])
      {
        assert ins[..i + 1][..i] == ins[..i];
        spentOutpoints := spentOutpoints - {ins[i].previousOutPoint};
      }
      assert ins[..|ins|] == ins;
    }

    /** Removes the transactions of an accepted block. */
    method RemoveTxs(hashes: seq<Hash>)
      requires Valid()
      modifies this`txs, this`spentOutpoints
      ensures Valid() && txs == old(txs) - (set h | h in hashes) && (old(Current()) ==> Current())
    {
      hide IndexOk, TxOk, FeeOf, AllCurrent;
      for i := 0 to |hashes|
        invariant Valid() && txs == old(txs) - (set h | h in hashes[..i]) && (old(Current()) ==> Current())
      {
        assert hashes[..i + 1] == hashes[..i] + [hashes[i]];
        RemoveTx(hashes[i]);
      }
      assert hashes[..|hashes|] == hashes;
    }

    /** Removes the entry with the lowest fee rate, the smaller hash first among equals. */
    method EvictLowestFeeRate() returns (evicted: bool)
      requires Valid()
      modifies this`txs, this`spentOutpoints
      ensures Valid() && (evicted <==> old(txs) != map[]) && (old(Current()) ==> Current())
      ensures !evicted ==> txs == old(txs)
      ensures evicted ==> exists h :: IsLowest(old(txs), h) && txs == old(txs) - {h}
    {
      hide IndexOk, TxOk, FeeOf, Current;
      if txs == map[] { return false; }
      var h := Lowest(txs);
      RemoveTx(h);
      return true;
    }

    lemma {:induction false} CurrentIsStillValid(order: seq<TxEntry>)
      requires Valid() && Lists(order, txs)
      ensures Current() ==> StillValid(verify, p, utxoSet, tipHeight + 1, order)
    {
      hide TxOk, FeeOf, IsCoinbase, IndexOk;
    }

    /** An atomic snapshot in template order, with the fees it may claim. */
    method BlockTemplate() returns (template: seq<Option<Transaction>>, totalFees: u64)
      requires Valid()
      ensures exists order ::
                && ByFeeRate(order) && Ordered(order) && Lists(order, txs) && Filled(template, totalFees, order)
                && (Current() ==> StillValid(verify, p, utxoSet, tipHeight + 1, order))
    {
      hide IndexOk, Ordered, Lists, TxOk, FeeOf, StillValid, Filled, FeeSum, InputSet, IsCoinbase, HashesOk, Current;
      var entries := SortEntries(txs);
      CurrentIsStillValid(entries);
      OrderedIsByFeeRate(entries);
      template, totalFees := FillTemplate(entries);
    }

    /** The template loop, which stops when the total would overflow. */
    static method FillTemplate(entries: seq<TxEntry>) returns (template: seq<Option<Transaction>>, totalFees: u64)
      ensures Filled(template, totalFees, entries)
    {
      totalFees := 0;
      template := seq(|entries|, _ => None);
      for i := 0 to |entries|
        invariant |template| == |entries| && totalFees == FeeSum(entries[..i])
        invariant forall j :: 0 <= j < |entries| ==> template[j] == if j < i then Some(entries[j].tx) else None
      {
        template := template[i := Some(entries[i].tx)];
        assert entries[..i + 1][..i] == entries[..i];
        FeeSumPrefix(entries, i + 1);
        if Add64(totalFees, entries[i].fee) < totalFees {
          assert CutAt(template, totalFees, entries, i);
          return;
        }
        totalFees := Add64(totalFees, entries[i].fee);
      }
      assert entries[..|entries|] == entries;
    }
  }

  /** Nothing in the pool has a lower rate, or the same rate and a smaller hash. */
  ghost predicate IsLowest(txs: Pool, h: Hash) {
    h in txs && forall k :: k in txs && k != h ==>
      txs[h].feeRate < txs[k].feeRate || (txs[h].feeRate == txs[k].feeRate && FromLE(h) < FromLE(k))
  }

  method Lowest(txs: Pool) returns (lowest: Hash)
    requires txs != map[] && HashesOk(txs)
    ensures IsLowest(txs, lowest)
  {
    hide FromLE;
    lowest :| lowest in txs;
    var left := txs.Keys - {lowest};
    while left != {}
      invariant left <= txs.Keys && lowest in txs && lowest !in left
      invariant forall k :: k in txs && k !in left && k != lowest ==>
                  txs[lowest].feeRate < txs[k].feeRate || (txs[lowest].feeRate == txs[k].feeRate && FromLE(lowest) < FromLE(k))
      decreases |left|
    {
      var h :| h in left;
      LEInvertsFromLE(h);
      LEInvertsFromLE(lowest);
      if txs[h].feeRate < txs[lowest].feeRate || (txs[h].feeRate == txs[lowest].feeRate && FromLE(h) < FromLE(lowest)) {
        lowest := h;
      }
      left := left - {h};
    }
  }

  // -------------------------------------------------------------------------- the template

  function FeeSum(es: seq<TxEntry>): nat {
    if es == [] then 0 else FeeSum(es[..|es| - 1]) + es[|es| - 1].fee
  }

  lemma {:induction false} FeeSumPrefix(es: seq<TxEntry>, i: nat)
    requires i <= |es|
    ensures FeeSum(es[..i]) <= FeeSum(es)
  {
    if i == |es| {
      assert es[..i] == es;
    } else {
      assert es[..|es| - 1][..i] == es[..i];
      FeeSumPrefix(es[..|es| - 1], i);
    }
  }

  /** The total stops before the entry that would overflow it, and everything behind that entry is missing. */
  ghost predicate CutAt(template: seq<Option<Transaction>>, totalFees: u64, order: seq<TxEntry>, k: nat) {
    && k < |order| == |template| && totalFees == FeeSum(order[..k]) && FeeSum(order[..k + 1]) >= TWO64
    && forall j :: 0 <= j < |order| ==> template[j] == if j <= k then Some(order[j].tx) else None
  }

  /** Every entry and the exact fees, or a total that stopped before it overflowed. */
  ghost predicate Filled(template: seq<Option<Transaction>>, totalFees: u64, order: seq<TxEntry>) {
    && |template| == |order|
    && (FeeSum(order) < TWO64 ==>
          totalFees == FeeSum(order) && forall i :: 0 <= i < |order| ==> template[i] == Some(order[i].tx))
    && (FeeSum(order) >= TWO64 ==> exists k :: CutAt(template, totalFees, order, k))
  }

  // ----------------------------------------------------------------- the block built from it

  function TemplateTxs(es: seq<TxEntry>): (r: seq<Transaction>)
    ensures |r| == |es| && forall i :: 0 <= i < |es| ==> r[i] == es[i].tx
  {
    if es == [] then [] else TemplateTxs(es[..|es| - 1]) + [es[|es| - 1].tx]
  }

  /** Every entry would still be admitted on its own by the same UTXO set at the same height, for the same fee. */
  ghost predicate StillValid(verify: ScriptCheck, p: ChainParams, s: Coins, height: nat, es: seq<TxEntry>) {
    forall i :: 0 <= i < |es| ==>
      !IsCoinbase(es[i].tx) && TxOk(verify, p, s, height, es[i].tx) && es[i].fee == FeeOf(s, es[i].tx)
  }

  ghost predicate DisjointInputs(es: seq<TxEntry>) {
    forall i, j :: 0 <= i < j < |es| ==> InputSet(es[i].tx.inputs) !! InputSet(es[j].tx.inputs)
  }

  lemma {:induction false} TemplateIsDisjoint(txs: Pool, spent: map<OutPoint, Hash>, es: seq<TxEntry>)
    requires IndexOk(txs, spent) && Ordered(es) && Lists(es, txs)
    ensures DisjointInputs(es)
  {
    hide IndexOk, InputSet;
    forall i, j | 0 <= i < j < |es| ensures InputSet(es[i].tx.inputs) !! InputSet(es[j].tx.inputs) {
      assert Before(es[i], es[j]);
      EntriesAreDisjoint(txs, spent, es[i].hash, es[j].hash);
    }
  }

  lemma {:induction false} TemplateSpends(es: seq<TxEntry>, cb: Transaction, op: OutPoint)
    requires IsCoinbase(cb) && op in SpentSet([cb] + TemplateTxs(es))
    ensures exists i :: 0 <= i < |es| && op in InputSet(es[i].tx.inputs)
  {
    var txs := [cb] + TemplateTxs(es);
    assert es == [] ==> txs == [cb];
    CoinbaseSpendsNothing(cb);
    if es != [] {
      var init := es[..|es| - 1];
      assert txs[..|txs| - 1] == [cb] + TemplateTxs(init);
      if op in SpentSet(txs[..|txs| - 1]) {
        TemplateSpends(init, cb, op);
        var i :| 0 <= i < |init| && op in InputSet(init[i].tx.inputs);
        assert es[i] == init[i];
      } else {
        assert op in InputSet(es[|es| - 1].tx.inputs);
      }
    }
  }

  lemma {:induction false} CoinbaseSpendsNothing(cb: Transaction)
    requires IsCoinbase(cb)
    ensures SpentSet([cb]) == {}
  {
    assert [cb][..0] == [];
    assert SpentSet([cb][..0]) == {};
  }

  /** The coinbase and the template pass the block loop, with exactly the template's fees. */
  lemma {:induction false} TemplatePasses(verify: ScriptCheck, p: ChainParams, s: Coins, height: nat, cb: Transaction, es: seq<TxEntry>)
    requires IsCoinbase(cb) && forall i :: 0 <= i < |cb.outputs| ==> cb.outputs[i].value > 0
    requires StillValid(verify, p, s, height, es) && DisjointInputs(es) && FeeSum(es) < TWO64
    ensures TxsOk(verify, p, s, height, [cb] + TemplateTxs(es))
    ensures Fees(s, [cb] + TemplateTxs(es)) == FeeSum(es)
  {
    hide TxOk, FeeOf, InputSet, StepOk, StillValid, DisjointInputs;
    var txs := [cb] + TemplateTxs(es);
    if es == [] {
      assert txs == [cb] && txs[..0] == [];
      assert Fees(s, txs[..0]) == 0;
      CoinbaseStep(verify, p, s, height, SpentSet(txs[..0]), cb);
    } else {
      var init := es[..|es| - 1];
      assert txs[..|txs| - 1] == [cb] + TemplateTxs(init);
      FeeSumPrefix(es, |es| - 1);
      LastStep(verify, p, s, height, cb, es);
      TemplatePasses(verify, p, s, height, cb, init);
    }
  }

  lemma {:induction false} CoinbaseStep(verify: ScriptCheck, p: ChainParams, s: Coins, height: nat, spent: set<OutPoint>, cb: Transaction)
    requires IsCoinbase(cb) && forall i :: 0 <= i < |cb.outputs| ==> cb.outputs[i].value > 0
    ensures StepOk(verify, p, s, height, spent, cb)
  {
  }

  /** The last entry of a template may follow the others. */
  lemma {:induction false} LastStep(verify: ScriptCheck, p: ChainParams, s: Coins, height: nat, cb: Transaction, es: seq<TxEntry>)
    requires IsCoinbase(cb) && es != [] && StillValid(verify, p, s, height, es) && DisjointInputs(es)
    ensures var init, last := es[..|es| - 1], es[|es| - 1];
            && StepOk(verify, p, s, height, SpentSet([cb] + TemplateTxs(init)), last.tx)
            && !IsCoinbase(last.tx) && last.fee == FeeOf(s, last.tx)
            && StillValid(verify, p, s, height, init) && DisjointInputs(init)
  {
    hide TxOk, FeeOf, InputSet, SpentSet;
    var init, last := es[..|es| - 1], es[|es| - 1];
    var spent := SpentSet([cb] + TemplateTxs(init));
    forall op | op in spent ensures op !in InputSet(last.tx.inputs) {
      TemplateSpends(init, cb, op);
      var i :| 0 <= i < |init| && op in InputSet(init[i].tx.inputs);
      assert es[i] == init[i];
    }
  }

  /** Fees come out of the coins that are spent, so they never exceed what the set holds. */
  lemma {:induction false} FeesWithinTotal(verify: ScriptCheck, p: ChainParams, s: Coins, height: nat, es: seq<TxEntry>)
    requires StillValid(verify, p, s, height, es) && DisjointInputs(es)
    ensures FeeSum(es) <= Total(s)
  {
    var rest := RemainingAfter(verify, p, s, height, es);
  }

  lemma {:induction false} RemainingAfter(verify: ScriptCheck, p: ChainParams, s: Coins, height: nat, es: seq<TxEntry>)
    returns (rest: Coins)
    requires StillValid(verify, p, s, height, es) && DisjointInputs(es)
    ensures FeeSum(es) + Total(rest) <= Total(s)
    ensures forall op :: op in s && (forall i :: 0 <= i < |es| ==> op !in InputSet(es[i].tx.inputs)) ==> op in rest
    ensures forall op :: op in rest ==> op in s && rest[op] == s[op]
  {
    if es == [] {
      rest := s;
    } else {
      var init, tx := es[..|es| - 1], es[|es| - 1].tx;
      assert forall i :: 0 <= i < |init| ==> init[i] == es[i];
      var before := RemainingAfter(verify, p, s, height, init);
      forall op | op in InputSet(tx.inputs) ensures op in before {
        var i := InputSetMember(tx.inputs, op);
        assert Spendable(p, s, height, tx.inputs[i].previousOutPoint);
      }
      SpendingReduces(s, before, tx.inputs);
      rest := before - InputSet(tx.inputs);
    }
  }

  /** The block a miner builds: a coinbase that takes subsidy and fees, then the template. */
  ghost predicate IsTemplateBlock(p: ChainParams, height: nat, es: seq<TxEntry>, b: Block) {
    && b.transactions != [] && b.transactions[1..] == TemplateTxs(es)
    && var cb := b.transactions[0];
       IsCoinbase(cb) && |cb.outputs| == 1 && cb.outputs[0].value > 0
       && cb.outputs[0].value == CalcSubsidy(p, height) + FeeSum(es)
  }

  /** Whenever every entry still validates alone, that block passes input validation with exactly the template's fees. */
  lemma {:induction false} TemplateBlockIsValid(verify: ScriptCheck, p: ChainParams, s: Coins, height: nat, txs: Pool,
                                                spent: map<OutPoint, Hash>, es: seq<TxEntry>, b: Block)
    requires IndexOk(txs, spent) && Ordered(es) && Lists(es, txs) && StillValid(verify, p, s, height, es)
    requires IsTemplateBlock(p, height, es, b)
    ensures BlockInputsOk(verify, p, s, height, b) && Fees(s, b.transactions) == FeeSum(es)
  {
    hide IndexOk, StillValid, TxsOk, CalcSubsidy, Ordered, Lists, DisjointInputs, FeeSum, Fees;
    var cb := b.transactions[0];
    assert b.transactions == [cb] + TemplateTxs(es);
    TemplateIsDisjoint(txs, spent, es);
    TemplatePasses(verify, p, s, height, cb, es);
    assert cb.outputs[..0] == [];
    assert SumOut(cb.outputs[..0]) == 0;
  }

  /** A block that passes can be built exactly when subsidy and fees together are positive and fit in 64 bits. */
  lemma {:induction false} TemplateMinesIff(verify: ScriptCheck, p: ChainParams, s: Coins, height: nat, txs: Pool,
                                            spent: map<OutPoint, Hash>, es: seq<TxEntry>, header: Header, tag: Bytes, script: Bytes)
    requires IndexOk(txs, spent) && Ordered(es) && Lists(es, txs) && StillValid(verify, p, s, height, es)
    ensures (exists b :: IsTemplateBlock(p, height, es, b) && BlockInputsOk(verify, p, s, height, b)) <==>
            0 < CalcSubsidy(p, height) + FeeSum(es) < TWO64
  {
    hide IndexOk, Ordered, Lists, StillValid, BlockInputsOk, CalcSubsidy, FeeSum;
    var total := CalcSubsidy(p, height) + FeeSum(es);
    if 0 < total < TWO64 {
      var cb := Transaction(1, [TxInput(OutPoint(ZERO_HASH, 0xFFFF_FFFF), tag, 0xFFFF_FFFF)], [TxOutput(total, script)], 0);
      var b := Block(header, [cb] + TemplateTxs(es));
      assert b.transactions[1..] == TemplateTxs(es);
      TemplateBlockIsValid(verify, p, s, height, txs, spent, es, b);
    }
  }

  /** When they do not fit, no coinbase at all makes the template pass. */
  lemma {:induction false} OverflowingFeesAreRefused(verify: ScriptCheck, p: ChainParams, s: Coins, height: nat, es: seq<TxEntry>, b: Block)
    requires b.transactions != [] && b.transactions[1..] == TemplateTxs(es) && IsCoinbase(b.transactions[0])
    requires StillValid(verify, p, s, height, es) && DisjointInputs(es)
    requires CalcSubsidy(p, height) + FeeSum(es) >= TWO64
    ensures !BlockInputsOk(verify, p, s, height, b)
  {
    hide StillValid, CalcSubsidy, DisjointInputs;
    var cb := b.transactions[0];
    assert b.transactions == [cb] + TemplateTxs(es);
    TemplateFees(verify, p, s, height, cb, es);
  }

  lemma {:induction false} TemplateFees(verify: ScriptCheck, p: ChainParams, s: Coins, height: nat, cb: Transaction, es: seq<TxEntry>)
    requires IsCoinbase(cb) && StillValid(verify, p, s, height, es)
    ensures Fees(s, [cb] + TemplateTxs(es)) == FeeSum(es)
  {
    hide TxOk, FeeOf;
    var txs := [cb] + TemplateTxs(es);
    if es == [] {
      assert txs == [cb] && txs[..0] == [];
      assert Fees(s, txs[..0]) == 0;
    } else {
      var init := es[..|es| - 1];
      assert txs[..|txs| - 1] == [cb] + TemplateTxs(init);
      TemplateFees(verify, p, s, height, cb, init);
    }
  }

  /** Whoever walks the map, however: one pool has one template. */
  lemma {:induction false} TemplateIsDetermined(txs: Pool, xs: seq<TxEntry>, ys: seq<TxEntry>)
    requires Ordered(xs) && Lists(xs, txs) && Ordered(ys) && Lists(ys, txs)
    ensures xs == ys
  {
    hide Before;
    assert EntrySet(xs) == EntrySet(ys);
    OrderIsUnique(xs, ys);
  }
}
