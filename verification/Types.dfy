/** The values every component shares: bounded integers, bytes, transactions and blocks. */
module Types {
  const TWO32: int := 0x1_0000_0000
  const TWO64: int := 0x1_0000_0000_0000_0000

  type u8 = x: int | 0 <= x < 0x100
  type u32 = x: int | 0 <= x < 0x1_0000_0000
  type u64 = x: int | 0 <= x < 0x1_0000_0000_0000_0000

  type Bytes = seq<u8>

  // The source fixes a hash at 32 bytes. The length is left open here so that "no two
  // transactions share an id" is a hypothesis some function meets; the codecs ask for 32.
  type Hash = Bytes

  const HASH_SIZE: nat := 32
  const ZERO_HASH: Hash := [0, 0, 0, 0, 0, 0, 0, 0, 0, 0, 0, 0, 0, 0, 0, 0,
                            0, 0, 0, 0, 0, 0, 0, 0, 0, 0, 0, 0, 0, 0, 0, 0]

  datatype Option<+T> = None | Some(value: T)

  datatype OutPoint = OutPoint(hash: Hash, index: nat)

  datatype TxInput = TxInput(previousOutPoint: OutPoint, signatureScript: Bytes, sequence: u32)

  datatype TxOutput = TxOutput(value: u64, pkScript: Bytes)

  datatype Transaction = Transaction(version: u32, inputs: seq<TxInput>, outputs: seq<TxOutput>, lockTime: u32)

  datatype Header = Header(version: u32, prevBlock: Hash, merkleRoot: Hash, timestamp: u32, bits: u32, nonce: u32)

  datatype Block = Block(header: Header, transactions: seq<Transaction>)

  /** Transaction ids come from a function the model never looks inside. */
  type TxIds = Transaction -> Hash

  predicate IsCoinbaseInput(i: TxInput) {
    i.previousOutPoint.hash == ZERO_HASH && i.previousOutPoint.index == 0xFFFF_FFFF
  }

  predicate IsCoinbase(tx: Transaction) {
    |tx.inputs| == 1 && IsCoinbaseInput(tx.inputs[0])
  }

  /** uint64 addition as the machine does it. */
  function Add64(a: u64, b: u64): u64 {
    if a + b < TWO64 then a + b else a + b - TWO64
  }

  ghost predicate Injective<A(!new), B>(f: A -> B) {
    forall x, y :: f(x) == f(y) ==> x == y
  }
}
