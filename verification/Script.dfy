/** The script engine and the standard scripts it runs (internal/script/script.go, internal/crypto/keys.go). */
module Script {
  import opened Types
  import opened Params
  import opened Utxo
  import opened TxValidation
  import opened BlockRules
  import opened History

  const OP_FALSE: u8 := 0x00
  const OP_PUSHDATA1: u8 := 0x4c
  const OP_PUSHDATA2: u8 := 0x4d
  const OP_1: u8 := 0x51
  const OP_RETURN: u8 := 0x6a
  const OP_DUP: u8 := 0x76
  const OP_EQUAL: u8 := 0x87
  const OP_EQUALVERIFY: u8 := 0x88
  const OP_HASH160: u8 := 0xa9
  const OP_CHECKSIG: u8 := 0xac

  const MAX_STACK: nat := 1000
  const MAX_SCRIPT: nat := 10000
  const MAX_OPS: nat := 201
  const MAX_ELEMENT: nat := 520
  const SIGHASH_ALL: u8 := 0x01
  const KEY_HASH_SIZE: nat := 20

  type Stack = seq<Bytes>

  /** The foreign code: the 160-bit hash, and parsing and checking a DER signature against the spend. */
  datatype Env = Env(hash160: Bytes -> Bytes, signed: (Bytes, Bytes) -> bool)

  ghost predicate EnvSane(e: Env) {
    forall bs :: |e.hash160(bs)| == KEY_HASH_SIZE
  }

  function Bool(b: bool): Bytes {
    if b then [1] else []
  }

  /** What OP_CHECKSIG decides. */
  predicate SigOk(e: Env, sig: Bytes, pub: Bytes) {
    |sig| >= 2 && sig[|sig| - 1] == SIGHASH_ALL && e.signed(sig[..|sig| - 1], pub)
  }

  /** A signature as scripts carry it: a nonempty DER string that was signed, and then the byte 0x01. */
  ghost predicate Signs(e: Env, sig: Bytes, pub: Bytes) {
    exists der :: der != [] && sig == der + [0x01] && e.signed(der, pub)
  }

  lemma {:induction false} SigOkIff(e: Env, sig: Bytes, pub: Bytes)
    ensures SigOk(e, sig, pub) <==> Signs(e, sig, pub)
  {
    if SigOk(e, sig, pub) {
      assert sig == sig[..|sig| - 1] + [0x01];
    }
    forall der | der != [] && sig == der + [0x01] && e.signed(der, pub) ensures SigOk(e, sig, pub) {
      assert sig[..|sig| - 1] == der;
    }
  }

  // ------------------------------------------------------------------- the meaning of a step

  datatype Next = Fail | Next(pos: nat, stack: Stack)

  /** A push of `n` bytes that start at `pos`. */
  function Push(script: Bytes, pos: nat, n: nat, stack: Stack): Next {
    if pos + n > |script| || n > MAX_ELEMENT then Fail else Next(pos + n, stack + [script[pos..pos + n]])
  }

  /** An opcode that pushes data, at `pos - 1`. */
  function StepPush(script: Bytes, op: u8, pos: nat, stack: Stack): Next
    requires op <= OP_PUSHDATA2
  {
    if op == OP_FALSE then Next(pos, stack + [[]])
    else if op <= 0x4b then Push(script, pos, op, stack)
    else if op == OP_PUSHDATA1 then
      if pos >= |script| then Fail else Push(script, pos + 1, script[pos], stack)
    else
      if pos + 2 > |script| then Fail else Push(script, pos + 2, (script[pos] as int) + 256 * (script[pos + 1] as int), stack)
  }

  /** Any other opcode: what it does to the stack, if it is allowed. */
  function StepOp(e: Env, op: u8, stack: Stack): Option<Stack> {
    var n := |stack|;
    if op == OP_1 then Some(stack + [[1]])
    else if op == OP_DUP then
      if n < 1 then None else Some(stack + [stack[n - 1]])
    else if op == OP_HASH160 then
      if n < 1 then None else Some(stack[..n - 1] + [e.hash160(stack[n - 1])])
    else if op == OP_EQUAL then
      if n < 2 then None else Some(stack[..n - 2] + [Bool(stack[n - 2] == stack[n - 1])])
    else if op == OP_EQUALVERIFY then
      if n < 2 || stack[n - 2] != stack[n - 1] then None else Some(stack[..n - 2])
    else if op == OP_CHECKSIG then
      if n < 2 then None else Some(stack[..n - 2] + [Bool(SigOk(e, stack[n - 2], stack[n - 1]))])
    else None
  }

  function Step(e: Env, script: Bytes, pos: nat, stack: Stack): Next
    requires pos < |script|
  {
    var op := script[pos];
    var next := if op <= OP_PUSHDATA2 then StepPush(script, op, pos + 1, stack)
                else var s := StepOp(e, op, stack); if s.None? then Fail else Next(pos + 1, s.value);
    if next.Fail? || |next.stack| > MAX_STACK then Fail else next
  }

  function Exec(e: Env, script: Bytes, pos: nat, numOps: nat, stack: Stack): Option<Stack>
    decreases |script| - pos
  {
    if pos >= |script| then Some(stack) else
    var ops := numOps + if script[pos] > OP_PUSHDATA2 then 1 else 0;
    if ops > MAX_OPS then None else
    var next := Step(e, script, pos, stack);
    if next.Fail? then None else Exec(e, script, next.pos, ops, next.stack)
  }

  /** One script from its start. */
  function Execute(e: Env, script: Bytes, stack: Stack): Option<Stack> {
    if |script| > MAX_SCRIPT then None else Exec(e, script, 0, 0, stack)
  }

  function IsTrue(data: Bytes): bool {
    if data == [] then false
    else if data[0] != 0 then !(|data| == 1 && data[0] == 0x80)
    else IsTrue(data[1..])
  }

  /** The stack the locking script starts on. */
  function StackAfter(e: Env, sigScript: Bytes): Option<Stack> {
    Execute(e, sigScript, [])
  }

  predicate Verified(e: Env, sigScript: Bytes, pkScript: Bytes) {
    && pkScript != [] && pkScript[0] != OP_RETURN
    && var st := StackAfter(e, sigScript);
       && st.Some?
       && var fin := Execute(e, pkScript, st.value);
          fin.Some? && |fin.value| == 1 && IsTrue(fin.value[0])
  }

  // ----------------------------------------------------------------------------- limits

  ghost predicate StackOk(stack: Stack) {
    |stack| <= MAX_STACK && forall i :: 0 <= i < |stack| ==> |stack[i]| <= MAX_ELEMENT
  }

  /** Every step keeps the stack within its limits, whatever the script. */
  lemma {:induction false} StepKeepsLimits(e: Env, script: Bytes, pos: nat, stack: Stack)
    requires EnvSane(e) && StackOk(stack) && pos < |script|
    ensures var next := Step(e, script, pos, stack);
            next.Next? ==> StackOk(next.stack) && pos < next.pos <= |script|
  {
  }

  /** So does a whole execution. */
  lemma {:induction false} ExecKeepsLimits(e: Env, script: Bytes, pos: nat, numOps: nat, stack: Stack)
    requires EnvSane(e) && StackOk(stack)
    ensures var r := Exec(e, script, pos, numOps, stack); r.Some? ==> StackOk(r.value)
    decreases |script| - pos
  {
    hide Step;
    if pos < |script| {
      StepKeepsLimits(e, script, pos, stack);
      var next := Step(e, script, pos, stack);
      if next.Next? { ExecKeepsLimits(e, script, next.pos, numOps + if script[pos] > OP_PUSHDATA2 then 1 else 0, next.stack); }
    }
  }

  // -------------------------------------------------------------------------- the engine

  class Engine {
    const e: Env
    var stack: Stack

    constructor (env: Env)
      ensures e == env && stack == []
    {
      e, stack := env, [];
    }

    /** Pushes the bytes after a push opcode; `pos` is behind the opcode. */
    method PushData(script: Bytes, op: u8, pos: nat) returns (ok: bool, next: nat)
      requires pos <= |script| && op <= OP_PUSHDATA2
      modifies this
      ensures var r := StepPush(script, op, pos, old(stack));
              if r.Fail? then !ok else ok && next == r.pos && stack == r.stack
    {
      next := pos;
      if op == OP_FALSE {
        stack := stack + [[]];
        return true, next;
      }
      var n: nat := op;
      if op == OP_PUSHDATA1 {
        if next >= |script| { return false, next; }
        n, next := script[next], next + 1;
      } else if op == OP_PUSHDATA2 {
        if next + 2 > |script| { return false, next; }
        n, next := (script[next] as int) + 256 * (script[next + 1] as int), next + 2;
      }
      if next + n > |script| || n > MAX_ELEMENT { return false, next; }
      stack := stack + [script[next..next + n]];
      return true, next + n;
    }

    /** Pops and pushes for every other opcode. */
    method Operate(op: u8) returns (ok: bool)
      modifies this
      ensures match StepOp(e, op, old(stack))
              case None => !ok
              case Some(s) => ok && stack == s
    {
      var n := |stack|;
      if op == OP_1 {
        stack := stack + [[1]];
      } else if op == OP_DUP {
        if n < 1 { return false; }
        stack := stack + [stack[n - 1]];
      } else if op == OP_HASH160 {
        if n < 1 { return false; }
        var data := Pop();
        stack := stack + [e.hash160(data)];
      } else if op == OP_EQUAL || op == OP_EQUALVERIFY || op == OP_CHECKSIG {
        if n < 2 { return false; }
        var b := Pop();
        var a := Pop();
        if op == OP_EQUAL {
          stack := stack + [Bool(a == b)];
        } else if op == OP_EQUALVERIFY {
          if a != b { return false; }
        } else {
          stack := stack + [Bool(SigOk(e, a, b))];
        }
      } else {
        return false;
      }
      return true;
    }

    method Pop() returns (top: Bytes)
      requires stack != []
      modifies this
      ensures stack == old(stack)[..|old(stack)| - 1] && top == old(stack)[|old(stack)| - 1]
    {
      top := stack[|stack| - 1];
      stack := stack[..|stack| - 1];
    }

    /** The interpreter loop. Between any two opcodes the stack is within its limits. */
    method ExecuteScript(script: Bytes) returns (ok: bool)
      requires EnvSane(e) && StackOk(stack)
      modifies this
      ensures match Execute(e, script, old(stack))
              case None => !ok
              case Some(s) => ok && stack == s && StackOk(stack)
    {
      hide StackOk, StepPush, StepOp;
      if |script| > MAX_SCRIPT { return false; }
      var numOps, pos: nat := 0, 0;
      while pos < |script|
        invariant pos <= |script| && numOps <= MAX_OPS && StackOk(stack)
        invariant Exec(e, script, 0, 0, old(stack)) == Exec(e, script, pos, numOps, stack)
        decreases |script| - pos
      {
        StepKeepsLimits(e, script, pos, stack);
        ghost var next := Step(e, script, pos, stack);
        var op := script[pos];
        if op > OP_PUSHDATA2 {
          numOps := numOps + 1;
          if numOps > MAX_OPS { return false; }
          ok := Operate(op);
          pos := pos + 1;
        } else {
          ok, pos := PushData(script, op, pos + 1);
        }
        assert next == if ok && |stack| <= MAX_STACK then Next(pos, stack) else Fail;
        if !ok || |stack| > MAX_STACK { return false; }
      }
      return true;
    }
  }

  /** The scan of CastToBool: the first non-zero byte decides. */
  method CastToBool(data: Bytes) returns (r: bool)
    ensures r == IsTrue(data)
  {
    for i := 0 to |data|
      invariant IsTrue(data) == IsTrue(data[i..])
    {
      if data[i] != 0 { return !(i == |data| - 1 && data[i] == 0x80); }
    }
    return false;
  }

  method Verify(e: Env, sigScript: Bytes, pkScript: Bytes) returns (ok: bool)
    requires EnvSane(e)
    ensures ok <==> Verified(e, sigScript, pkScript)
  {
    hide Execute;
    if |pkScript| == 0 || pkScript[0] == OP_RETURN { return false; }
    var vm := new Engine(e);
    ok := vm.ExecuteScript(sigScript);
    if !ok { return false; }
    ok := vm.ExecuteScript(pkScript);
    if !ok || |vm.stack| == 0 { return false; }
    var top := CastToBool(vm.stack[|vm.stack| - 1]);
    return top && |vm.stack| == 1;
  }

  // ---------------------------------------------------------------------------- P2PKH

  function MakeP2PKHScript(keyHash: Bytes): Bytes {
    [OP_DUP, OP_HASH160, 20] + keyHash + [OP_EQUALVERIFY, OP_CHECKSIG]
  }

  function MakeP2PKHSignatureScript(sig: Bytes, pub: Bytes): Bytes {
    [|sig| % 256] + sig + [|pub| % 256] + pub
  }

  predicate IsP2PKHScript(s: Bytes) {
    |s| == 25 && s[0] == OP_DUP && s[1] == OP_HASH160 && s[2] == 0x14 && s[23] == OP_EQUALVERIFY && s[24] == OP_CHECKSIG
  }

  /** The pattern matches exactly the scripts the builder makes. */
  lemma {:induction false} P2PKHPattern(s: Bytes)
    ensures IsP2PKHScript(s) <==> exists h :: |h| == KEY_HASH_SIZE && s == MakeP2PKHScript(h)
    ensures IsP2PKHScript(s) ==> s == MakeP2PKHScript(s[3..23])
  {
    if IsP2PKHScript(s) {
      assert s == MakeP2PKHScript(s[3..23]);
    }
  }

  /** One opcode that is not a push. */
  lemma {:induction false} ExecOp(e: Env, script: Bytes, pos: nat, numOps: nat, stack: Stack)
    requires pos < |script| && script[pos] > OP_PUSHDATA2 && numOps < MAX_OPS
    ensures var s := StepOp(e, script[pos], stack);
            Exec(e, script, pos, numOps, stack) ==
            if s.None? || |s.value| > MAX_STACK then None else Exec(e, script, pos + 1, numOps + 1, s.value)
  {
  }

  lemma {:induction false} PushKeyHash(e: Env, h: Bytes, stack: Stack)
    requires |h| == KEY_HASH_SIZE
    ensures Exec(e, MakeP2PKHScript(h), 2, 2, stack) ==
            if |stack| >= MAX_STACK then None else Exec(e, MakeP2PKHScript(h), 23, 2, stack + [h])
  {
    assert MakeP2PKHScript(h)[3..23] == h;
  }

  lemma {:induction false} ExecEnd(e: Env, script: Bytes, numOps: nat, stack: Stack)
    ensures Exec(e, script, |script|, numOps, stack) == Some(stack)
  {
  }

  /** What the locking script makes of any stack. */
  lemma {:induction false} LockingScript(e: Env, h: Bytes, stack: Stack)
    requires EnvSane(e) && |h| == KEY_HASH_SIZE && StackOk(stack)
    ensures var n := |stack|;
            Execute(e, MakeP2PKHScript(h), stack) ==
            if 2 <= n <= MAX_STACK - 2 && e.hash160(stack[n - 1]) == h
            then Some(stack[..n - 2] + [Bool(SigOk(e, stack[n - 2], stack[n - 1]))])
            else None
  {
    hide Exec, Step;
    var script, n := MakeP2PKHScript(h), |stack|;
    ExecOp(e, script, 0, 0, stack);
    if 1 <= n < MAX_STACK {
      var s1, s2 := stack + [stack[n - 1]], stack + [e.hash160(stack[n - 1])];
      ExecOp(e, script, 1, 1, s1);
      assert s1[..n] == stack;
      PushKeyHash(e, h, s2);
      var s3 := s2 + [h];
      if |s3| <= MAX_STACK {
        ExecOp(e, script, 23, 2, s3);
        assert s3[..n] == stack;
        if e.hash160(stack[n - 1]) == h {
          ExecOp(e, script, 24, 3, stack);
          if n >= 2 { ExecEnd(e, script, 4, stack[..n - 2] + [Bool(SigOk(e, stack[n - 2], stack[n - 1]))]); }
        }
      }
    }
  }

  /**
   * A P2PKH output opens exactly for a signature script that leaves [sig, pub] with the embedded hash and a signature
   * that checks without its last byte, whatever else that script does.
   */
  lemma {:induction false} P2PKHOpensIff(e: Env, sigScript: Bytes, h: Bytes)
    requires EnvSane(e) && |h| == KEY_HASH_SIZE
    ensures Verified(e, sigScript, MakeP2PKHScript(h)) <==>
            exists der, pub :: der != [] && e.signed(der, pub) && e.hash160(pub) == h && StackAfter(e, sigScript) == Some([der + [0x01], pub])
  {
    hide Exec, Signs, SigOk;
    ExecKeepsLimits(e, sigScript, 0, 0, []);
    var st := StackAfter(e, sigScript);
    if st.Some? { LockingScript(e, h, st.value); }
    assert IsTrue([1]) && !IsTrue([]);
    if st.Some? && |st.value| == 2 { SigOkIff(e, st.value[0], st.value[1]); }
    LeavesPair(e, st, h);
  }

  lemma {:induction false} LeavesPair(e: Env, st: Option<Stack>, h: Bytes)
    ensures (exists der, pub :: der != [] && e.signed(der, pub) && e.hash160(pub) == h && st == Some([der + [0x01], pub])) <==>
            st.Some? && |st.value| == 2 && e.hash160(st.value[1]) == h && Signs(e, st.value[0], st.value[1])
  {
    if st.Some? && |st.value| == 2 && e.hash160(st.value[1]) == h && Signs(e, st.value[0], st.value[1]) {
      var der :| der != [] && st.value[0] == der + [0x01] && e.signed(der, st.value[1]);
      assert st.value == [der + [0x01], st.value[1]];
    }
  }

  /** One direct push. */
  lemma {:induction false} ExecPush(e: Env, script: Bytes, pos: nat, data: Bytes, stack: Stack)
    requires pos + 1 + |data| <= |script| && |data| <= 75 && script[pos] == |data| && |stack| < MAX_STACK
    requires script[pos + 1..pos + 1 + |data|] == data
    ensures Exec(e, script, pos, 0, stack) == Exec(e, script, pos + 1 + |data|, 0, stack + [data])
  {
    assert Step(e, script, pos, stack) == Next(pos + 1 + |data|, stack + [data]);
  }

  /** The signature script the wallet builds is such a script, for every DER string of up to 74 bytes and key of up to 75. */
  lemma {:induction false} BuiltSpendVerifies(e: Env, der: Bytes, pub: Bytes)
    requires EnvSane(e) && 1 <= |der| <= 74 && |pub| <= 75 && e.signed(der, pub)
    ensures StackAfter(e, MakeP2PKHSignatureScript(der + [0x01], pub)) == Some([der + [0x01], pub])
    ensures Verified(e, MakeP2PKHSignatureScript(der + [0x01], pub), MakeP2PKHScript(e.hash160(pub)))
  {
    hide Step, Verified;
    var sig := der + [0x01];
    var script := MakeP2PKHSignatureScript(sig, pub);
    var mid := 1 + |sig|;
    assert script[1..mid] == sig;
    assert script[mid + 1..mid + 1 + |pub|] == pub;
    ExecPush(e, script, 0, sig, []);
    ExecPush(e, script, mid, pub, [sig]);
    assert [] + [sig] == [sig] && [sig] + [pub] == [sig, pub];
    P2PKHOpensIff(e, script, e.hash160(pub));
  }

  // ------------------------------------------------------------- what block validation adds

  /** The spend a signature commits to. */
  type SigCheck = (Bytes, Bytes, Transaction, nat, Bytes) -> bool

  function EnvFor(hash160: Bytes -> Bytes, ecdsa: SigCheck, tx: Transaction, i: nat, pk: Bytes): Env {
    Env(hash160, (der, pub) => ecdsa(der, pub, tx, i, pk))
  }

  /** The script check of transaction validation is this engine. */
  ghost predicate RunsScripts(verify: ScriptCheck, hash160: Bytes -> Bytes, ecdsa: SigCheck) {
    forall sig, pk, tx, i :: verify(sig, pk, tx, i) == Verified(EnvFor(hash160, ecdsa, tx, i, pk), sig, pk)
  }

  /** The signature script of input `i` leaves a signature over that input and a key with the given hash. */
  ghost predicate ShowsKey(hash160: Bytes -> Bytes, ecdsa: SigCheck, tx: Transaction, i: nat, h: Bytes)
    requires i < |tx.inputs|
  {
    exists der, pub :: der != [] && ecdsa(der, pub, tx, i, MakeP2PKHScript(h)) && hash160(pub) == h
                       && StackAfter(EnvFor(hash160, ecdsa, tx, i, MakeP2PKHScript(h)), tx.inputs[i].signatureScript) == Some([der + [0x01], pub])
  }

  /** In an accepted block every spend of a P2PKH coin shows its key and a signature on that very input. */
  lemma {:induction false} AcceptedSpendIsSigned(verify: ScriptCheck, hash160: Bytes -> Bytes, ecdsa: SigCheck, p: ChainParams,
                                                 s: Coins, height: nat, b: Block, t: nat, i: nat, h: Bytes)
    requires RunsScripts(verify, hash160, ecdsa) && (forall bs :: |hash160(bs)| == KEY_HASH_SIZE) && |h| == KEY_HASH_SIZE
    requires b.transactions != [] && BlockInputsOk(verify, p, s, height, b)
    requires t < |b.transactions| && !IsCoinbase(b.transactions[t]) && i < |b.transactions[t].inputs|
    ensures var tx := b.transactions[t];
            var op := tx.inputs[i].previousOutPoint;
            op in s && (s[op].pkScript == MakeP2PKHScript(h) ==> ShowsKey(hash160, ecdsa, tx, i, h))
  {
    hide Verified, StackAfter, BlockInputsOk, IsCoinbase;
    var tx := b.transactions[t];
    SpendableInput(verify, p, s, height, b, t, i);
    P2PKHOpensIff(EnvFor(hash160, ecdsa, tx, i, MakeP2PKHScript(h)), tx.inputs[i].signatureScript, h);
  }

  /**
   * From the output to its spend: whatever an accepted block spends was an unspent output of the chain below it. If that
   * output pays to a key hash, the spend shows the key and a signature on that very input; if a coinbase made it, it is
   * mature.
   */
  lemma {:induction false} SpendOfOutputIsSigned(c: Crypto, p: ChainParams, hash160: Bytes -> Bytes, ecdsa: SigCheck, blocks: seq<Block>,
                                                 b: Block, t: nat, k: nat) returns (i: nat, u: nat)
    requires Ideal(c) && GenesisOk(c, p) && ChainOk(c, p, blocks) && StructureOk(c, p, b, |blocks|)
    requires BlockInputsOk(c.verify, p, Replay(c.txId, blocks), |blocks|, b)
    requires RunsScripts(c.verify, hash160, ecdsa) && forall bs :: |hash160(bs)| == KEY_HASH_SIZE
    requires t < |b.transactions| && !IsCoinbase(b.transactions[t]) && k < |b.transactions[t].inputs|
    ensures var tx := b.transactions[t]; var op := tx.inputs[k].previousOutPoint;
            && IsOutput(blocks, i, u, op.index) && op.hash == c.txId(blocks[i].transactions[u]) && op !in SpentOn(blocks)
            && (IsCoinbase(blocks[i].transactions[u]) ==> |blocks| - i >= p.coinbaseMaturity)
            && forall h :: |h| == KEY_HASH_SIZE && blocks[i].transactions[u].outputs[op.index].pkScript == MakeP2PKHScript(h) ==>
                 ShowsKey(hash160, ecdsa, tx, k, h)
  {
    hide StructureOk, BlockInputsOk, ChainOk, Replay, SpentOn, IsCoinbase, ShowsKey, RunsScripts, Ideal, GenesisOk;
    i, u := SpendIsOfOutput(c, p, blocks, b, t, k);
    var op := b.transactions[t].inputs[k].previousOutPoint;
    HasTransactions(c, p, b, |blocks|);
    forall h | |h| == KEY_HASH_SIZE && blocks[i].transactions[u].outputs[op.index].pkScript == MakeP2PKHScript(h)
      ensures ShowsKey(hash160, ecdsa, b.transactions[t], k, h)
    {
      AcceptedSpendIsSigned(c.verify, hash160, ecdsa, p, Replay(c.txId, blocks), |blocks|, b, t, k, h);
    }
  }

}
