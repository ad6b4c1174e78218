/** The mutable UTXO set: the loops of internal/utxo/utxo.go, proved against the functions of Utxo. */
module UtxoSet {
  import opened Types
  import opened Utxo
  import opened History

  function Added(adds: seq<(OutPoint, Entry)>): Coins {
    if adds == [] then map[] else Added(adds[..|adds| - 1])[adds[|adds| - 1].0 := adds[|adds| - 1].1]
  }

  function KeySet(keys: seq<OutPoint>): set<OutPoint> {
    if keys == [] then {} else KeySet(keys[..|keys| - 1]) + {keys[|keys| - 1]}
  }

  lemma {:induction false} SpendInputsFailsEarly(s: Coins, w: Pending, ins: seq<TxInput>, i: nat)
    requires i <= |ins| && SpendInputs(s, w, ins[..i]).None?
    ensures SpendInputs(s, w, ins).None?
  {
    if i == |ins| {
      assert ins[..i] == ins;
    } else {
      assert ins[..|ins| - 1][..i] == ins[..i];
      SpendInputsFailsEarly(s, w, ins[..|ins| - 1], i);
    }
  }

  lemma {:induction false} ApplyTxsFailsEarly(ids: TxIds, s: Coins, txs: seq<Transaction>, height: nat, t: nat)
    requires t <= |txs| && ApplyTxs(ids, s, txs[..t], height).None?
    ensures ApplyTxs(ids, s, txs, height).None?
  {
    if t == |txs| {
      assert txs[..t] == txs;
    } else {
      assert txs[..|txs| - 1][..t] == txs[..t];
      ApplyTxsFailsEarly(ids, s, txs[..|txs| - 1], height, t);
    }
  }

  class Set {
    var entries: Coins

    constructor ()
      ensures entries == map[]
    {
      entries := map[];
    }

    /** Applies a block atomically: either the whole of Connect, or nothing. */
    method ConnectBlock(ids: TxIds, b: Block, height: nat) returns (r: Option<seq<SpentOutput>>)
      modifies this
      ensures match Connect(ids, old(entries), b, height)
              case None => r == None && entries == old(entries)
              case Some(c) => r == Some(c.undo) && entries == c.coins
    {
      var txs := b.transactions;
      var undo: seq<SpentOutput> := [];
      var toRemove: seq<OutPoint> := [];
      var toAdd: seq<(OutPoint, Entry)> := [];
      var spentInBlock: set<OutPoint> := {};
      var createdInBlock: Coins := map[];

      var t := 0;
      while t < |txs|
        invariant t <= |txs| && entries == old(entries)
        invariant ApplyTxs(ids, entries, txs[..t], height) ==
                  Some(Pending(spentInBlock, createdInBlock, Added(toAdd), undo))
        invariant KeySet(toRemove) == spentInBlock
      {
        var tx := txs[t];
        assert txs[..t + 1][..t] == txs[..t];
        if !IsCoinbase(tx) {
          var w := Pending(spentInBlock, createdInBlock, Added(toAdd), undo);
          var spending, removed := SpendTxInputs(w, tx, toRemove);
          if spending.None? {
            ApplyTxsFailsEarly(ids, entries, txs, height, t + 1);
            return None;
          }
          spentInBlock, createdInBlock := spending.value.spent, spending.value.created;
          undo, toRemove := spending.value.undo, removed;
          SpendInputsSpent(entries, w, tx.inputs);
        }
        createdInBlock, toAdd := CreateOutputs(ids(tx), tx, height, createdInBlock, toAdd);
        t := t + 1;
      }
      assert txs[..t] == txs;
      RemoveAll(toRemove);
      AddUnspent(toAdd, spentInBlock);
      return Some(undo);
    }

    /** The input loop of one transaction, with its own duplicate check. */
    method SpendTxInputs(w: Pending, tx: Transaction, removed0: seq<OutPoint>)
      returns (r: Option<Pending>, removed: seq<OutPoint>)
      requires KeySet(removed0) == w.spent
      ensures r == SpendInputs(entries, w, tx.inputs)
      ensures r.Some? ==> KeySet(removed) == r.value.spent
    {
      var seenInTx: set<OutPoint> := {};
      var p := w;
      removed := removed0;
      for i := 0 to |tx.inputs|
        invariant seenInTx <= p.spent
        invariant SpendInputs(entries, w, tx.inputs[..i]) == Some(p)
        invariant KeySet(removed) == p.spent
      {
        var op := tx.inputs[i].previousOutPoint;
        assert tx.inputs[..i + 1][..i] == tx.inputs[..i];
        var found := if op in p.created then Some(p.created[op])
                     else if op in entries then Some(entries[op]) else None;
        if op in seenInTx || op in p.spent || found.None? {
          SpendInputsFailsEarly(entries, w, tx.inputs, i + 1);
          return None, removed;
        }
        seenInTx := seenInTx + {op};
        assert (removed + [op])[..|removed|] == removed;
        removed := removed + [op];
        p := Pending(p.spent + {op}, p.created - {op}, p.added, p.undo + [SpentOutput(op, found.value)]);
      }
      assert tx.inputs[..|tx.inputs|] == tx.inputs;
      return Some(p), removed;
    }

    static method CreateOutputs(id: Hash, tx: Transaction, height: nat, created0: Coins, adds0: seq<(OutPoint, Entry)>)
      returns (created: Coins, adds: seq<(OutPoint, Entry)>)
      ensures created == created0 + OutputsOf(id, tx, height)
      ensures Added(adds) == Added(adds0) + OutputsOf(id, tx, height)
    {
      created, adds := created0, adds0;
      for o := 0 to |tx.outputs|
        invariant created == created0 + FirstOutputs(id, tx, height, o)
        invariant Added(adds) == Added(adds0) + FirstOutputs(id, tx, height, o)
      {
        var key, entry := OutPoint(id, o), EntryFor(tx, o, height);
        created := created[key := entry];
        assert (adds + [(key, entry)])[..|adds|] == adds;
        adds := adds + [(key, entry)];
      }
    }

    method RemoveAll(keys: seq<OutPoint>)
      modifies this
      ensures entries == old(entries) - KeySet(keys)
    {
      for i := 0 to |keys|
        invariant entries == old(entries) - KeySet(keys[..i])
      {
        assert keys[..i + 1][..i] == keys[..i];
        entries := entries - {keys[i]};
      }
      assert keys[..|keys|] == keys;
    }

    method AddUnspent(adds: seq<(OutPoint, Entry)>, spent: set<OutPoint>)
      modifies this
      ensures entries == old(entries) + (Added(adds) - spent)
    {
      for i := 0 to |adds|
        invariant entries == old(entries) + (Added(adds[..i]) - spent)
      {
        assert adds[..i + 1][..i] == adds[..i];
        if adds[i].0 !in spent { entries := entries[adds[i].0 := adds[i].1]; }
      }
      assert adds[..|adds|] == adds;
    }

    /** Adds the genesis outputs, leaving placeholders out. */
    method ConnectGenesis(ids: TxIds, b: Block)
      modifies this
      ensures entries == old(entries) + GenesisCoins(ids, b.transactions)
    {
      hide KeptOutputs, GenesisCoins, OutputsOf;
      var txs := b.transactions;
      GenesisNext(ids, txs, 0);
      for t := 0 to |txs|
        invariant entries == old(entries) + GenesisCoins(ids, txs[..t])
      {
        GenesisNext(ids, txs, t);
        AddKept(ids(txs[t]), txs[t]);
      }
      assert txs[..|txs|] == txs;
    }

    static lemma {:induction false} GenesisNext(ids: TxIds, txs: seq<Transaction>, t: nat)
      ensures GenesisCoins(ids, txs[..0]) == map[]
      ensures t < |txs| ==>
                GenesisCoins(ids, txs[..t + 1]) == GenesisCoins(ids, txs[..t]) + KeptOutputs(OutputsOf(ids(txs[t]), txs[t], 0))
    {
      hide KeptOutputs, OutputsOf;
      if t < |txs| { assert txs[..t + 1][..t] == txs[..t]; }
    }

    method AddKept(id: Hash, tx: Transaction)
      modifies this
      ensures entries == old(entries) + KeptOutputs(OutputsOf(id, tx, 0))
    {
      hide FirstOutputs, KeptOutputs;
      NoneKept(id, tx);
      for o := 0 to |tx.outputs|
        invariant entries == old(entries) + KeptOutputs(FirstOutputs(id, tx, 0, o))
      {
        KeepOne(id, tx, o);
        if !IsLegacyPlaceholder(tx.outputs[o].pkScript) {
          entries := entries[OutPoint(id, o) := EntryFor(tx, o, 0)];
        }
      }
    }

    static lemma {:induction false} NoneKept(id: Hash, tx: Transaction)
      ensures KeptOutputs(FirstOutputs(id, tx, 0, 0)) == map[]
    {
    }

    static lemma {:induction false} KeepOne(id: Hash, tx: Transaction, o: nat)
      requires o < |tx.outputs|
      ensures KeptOutputs(FirstOutputs(id, tx, 0, o + 1)) ==
              if IsLegacyPlaceholder(tx.outputs[o].pkScript) then KeptOutputs(FirstOutputs(id, tx, 0, o))
              else KeptOutputs(FirstOutputs(id, tx, 0, o))[OutPoint(id, o) := EntryFor(tx, o, 0)]
    {
      FirstOutputsAre(id, tx, 0, o);
    }

    /** Reverses a block with its undo data. */
    method DisconnectBlock(ids: TxIds, b: Block, undo: seq<SpentOutput>)
      modifies this
      ensures entries == Disconnect(ids, old(entries), b, undo)
    {
      var txs := b.transactions;
      var toRemove: seq<OutPoint> := [];
      var t := |txs|;
      assert txs[..t] == txs;
      while t > 0
        invariant 0 <= t <= |txs|
        invariant KeySet(toRemove) + OutputKeys(ids, txs[..t]) == OutputKeys(ids, txs)
        invariant entries == old(entries)
      {
        t := t - 1;
        assert txs[..t + 1][..t] == txs[..t];
        var tx, id := txs[t], ids(txs[t]);
        ghost var before := KeySet(toRemove);
        for o := 0 to |tx.outputs|
          invariant KeySet(toRemove) == before + FirstOutputs(id, tx, 0, o).Keys
          invariant entries == old(entries)
        {
          assert (toRemove + [OutPoint(id, o)])[..|toRemove|] == toRemove;
          toRemove := toRemove + [OutPoint(id, o)];
        }
      }
      RemoveAll(toRemove);
      ghost var base := entries;
      for i := 0 to |undo|
        invariant entries == Restore(base, undo[..i])
      {
        assert undo[..i + 1][..i] == undo[..i];
        entries := entries[undo[i].outPoint := undo[i].entry];
      }
      assert undo[..|undo|] == undo;
    }
  }
}
