/** The serialisers and deserialisers as loops over a writer and a reader, proved against the functions of Codec. */
module Wire {
  import opened Types
  import opened Arith
  import opened Codec

  lemma {:induction false} EncManyAppend<T>(enc: T -> Bytes, xs: seq<T>, x: T)
    ensures EncMany(enc, xs + [x]) == EncMany(enc, xs) + enc(x)
  {
    if xs == [] {
      assert [] + [x] == [x] && [x][1..] == [];
      assert EncMany(enc, [x][1..]) == [];
    } else {
      assert (xs + [x])[1..] == xs[1..] + [x];
      EncManyAppend(enc, xs[1..], x);
    }
  }

  /** What decoding amounts to once some elements are already read. */
  function Resume<T>(done: seq<T>, r: Parsed<seq<T>>): Parsed<seq<T>> {
    if r.Bad? then Bad else Ok(done + r.value, r.rest)
  }

  lemma {:induction false} ResumeStep<T>(dec: Bytes -> Parsed<T>, done: seq<T>, k: nat, rest: Bytes)
    requires k > 0
    ensures Resume(done, DecMany(dec, k, rest)) ==
            if dec(rest).Bad? then Bad
            else Resume(done + [dec(rest).value], DecMany(dec, k - 1, dec(rest).rest))
  {
    if dec(rest).Ok? {
      var others := DecMany(dec, k - 1, dec(rest).rest);
      if others.Ok? { assert done + ([dec(rest).value] + others.value) == (done + [dec(rest).value]) + others.value; }
    }
  }

  lemma {:induction false} ResumeFromNothing<T>(r: Parsed<seq<T>>)
    ensures Resume([], r) == r
  {
    if r.Ok? { assert [] + r.value == r.value; }
  }

  /** An io.Writer over a growing slice. */
  class Writer {
    var buf: Bytes

    constructor ()
      ensures buf == []
    {
      buf := [];
    }

    method Write(p: Bytes)
      modifies this
      ensures buf == old(buf) + p
    {
      buf := buf + p;
    }

    method WriteList<T>(enc: T -> Bytes, xs: seq<T>)
      modifies this
      ensures buf == old(buf) + EncList(enc, xs)
    {
      Write(PutVarInt(|xs| % TWO64));
      ghost var start := buf;
      for i := 0 to |xs|
        invariant buf == start + EncMany(enc, xs[..i])
      {
        assert xs[..i + 1] == xs[..i] + [xs[i]];
        EncManyAppend(enc, xs[..i], xs[i]);
        Write(enc(xs[i]));
      }
      assert xs[..|xs|] == xs;
    }

    method WriteTx(tx: Transaction)
      modifies this
      ensures buf == old(buf) + EncTx(tx)
    {
      hide LE, EncList, EncInput, EncOutput;
      Write(LE(tx.version, 4));
      WriteList(EncInput, tx.inputs);
      WriteList(EncOutput, tx.outputs);
      Write(LE(tx.lockTime, 4));
    }

    method WriteBlock(b: Block)
      modifies this
      ensures buf == old(buf) + EncBlock(b)
    {
      hide EncHeader, EncList, EncTx;
      Write(EncHeader(b.header));
      WriteList(EncTx, b.transactions);
    }
  }

  /** An io.Reader over the bytes not yet consumed. */
  class Reader {
    var rest: Bytes

    constructor (bs: Bytes)
      ensures rest == bs
    {
      rest := bs;
    }

    /** Takes one value with a pure decoder. */
    method Read<T>(dec: Bytes -> Parsed<T>) returns (r: Option<T>)
      modifies this
      ensures match dec(old(rest))
              case Bad => r == None
              case Ok(v, tail) => r == Some(v) && rest == tail
    {
      var p := dec(rest);
      if p.Bad? { return None; }
      rest := p.rest;
      return Some(p.value);
    }

    method ReadList<T>(dec: Bytes -> Parsed<T>, max: nat) returns (r: Option<seq<T>>)
      modifies this
      ensures match DecList(dec, max, old(rest))
              case Bad => r == None
              case Ok(v, tail) => r == Some(v) && rest == tail
    {
      var count := ReadVarInt(rest);
      if count.Bad? || count.value > max { return None; }
      rest := count.rest;
      ghost var n, start := count.value, rest;
      var xs: seq<T> := [];
      ResumeFromNothing(DecMany(dec, n, start));
      for i := 0 to count.value
        invariant DecMany(dec, n, start) == Resume(xs, DecMany(dec, n - i, rest))
      {
        ResumeStep(dec, xs, n - i, rest);
        var x := Read(dec);
        if x.None? { return None; }
        xs := xs + [x.value];
      }
      assert xs + [] == xs;
      return Some(xs);
    }

    method ReadTx() returns (r: Option<Transaction>)
      modifies this
      ensures match DecTx(old(rest))
              case Bad => r == None
              case Ok(v, tail) => r == Some(v) && rest == tail
    {
      Widths();
      var version := Read(bs => ReadInt(4, bs));
      if version.None? { return None; }
      var inputs := ReadList(DecInput, MAX_TX_INPUTS);
      if inputs.None? { return None; }
      var outputs := ReadList(DecOutput, MAX_TX_OUTPUTS);
      if outputs.None? { return None; }
      var lockTime := Read(bs => ReadInt(4, bs));
      if lockTime.None? { return None; }
      return Some(Transaction(version.value, inputs.value, outputs.value, lockTime.value));
    }

    method ReadBlock() returns (r: Option<Block>)
      modifies this
      ensures match DecBlock(old(rest))
              case Bad => r == None
              case Ok(v, tail) => r == Some(v) && rest == tail
    {
      var header := Read(DecHeader);
      if header.None? { return None; }
      var txs := ReadList(DecTx, MAX_BLOCK_TX_COUNT);
      if txs.None? { return None; }
      return Some(Block(header.value, txs.value));
    }
  }

  // ------------------------------------------------------------------------------- sizes

  function InputSize(i: TxInput): nat {
    36 + VarIntSize(|i.signatureScript| % TWO64) + |i.signatureScript| + 4
  }

  function OutputSize(o: TxOutput): nat {
    8 + VarIntSize(|o.pkScript| % TWO64) + |o.pkScript|
  }

  predicate HashesFit(tx: Transaction) {
    forall i :: 0 <= i < |tx.inputs| ==> |tx.inputs[i].previousOutPoint.hash| == HASH_SIZE
  }

  /** The size computed without serialising is the exact length. */
  method SerializeSize(tx: Transaction) returns (n: nat)
    requires HashesFit(tx)
    ensures n == |EncTx(tx)|
  {
    n := 4 + VarIntSize(|tx.inputs| % TWO64);
    ghost var header := n;
    VarIntRoundTrip(|tx.inputs| % TWO64, []);
    for i := 0 to |tx.inputs|
      invariant n == header + |EncMany(EncInput, tx.inputs[..i])|
    {
      assert tx.inputs[..i + 1] == tx.inputs[..i] + [tx.inputs[i]];
      EncManyAppend(EncInput, tx.inputs[..i], tx.inputs[i]);
      VarIntRoundTrip(|tx.inputs[i].signatureScript| % TWO64, []);
      n := n + InputSize(tx.inputs[i]);
    }
    assert tx.inputs[..|tx.inputs|] == tx.inputs;
    n := n + VarIntSize(|tx.outputs| % TWO64);
    VarIntRoundTrip(|tx.outputs| % TWO64, []);
    ghost var middle := n;
    for i := 0 to |tx.outputs|
      invariant n == middle + |EncMany(EncOutput, tx.outputs[..i])|
    {
      assert tx.outputs[..i + 1] == tx.outputs[..i] + [tx.outputs[i]];
      EncManyAppend(EncOutput, tx.outputs[..i], tx.outputs[i]);
      VarIntRoundTrip(|tx.outputs[i].pkScript| % TWO64, []);
      n := n + OutputSize(tx.outputs[i]);
    }
    assert tx.outputs[..|tx.outputs|] == tx.outputs;
    n := n + 4;
  }

  /** Writing and reading back through the loops, with anything behind. */
  method TransmitBlock(b: Block, tail: Bytes) returns (r: Option<Block>, rest: Bytes)
    requires BlockFits(b)
    ensures r == Some(b) && rest == tail
  {
    hide EncBlock, DecBlock, BlockFits;
    var w := new Writer();
    w.WriteBlock(b);
    w.Write(tail);
    assert w.buf == EncBlock(b) + tail;
    var reader := new Reader(w.buf);
    BlockRoundTrip(b, tail);
    r := reader.ReadBlock();
    rest := reader.rest;
  }
}
