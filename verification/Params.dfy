/** Network parameters and the subsidy schedule (internal/params). */
module Params {
  import opened Types
  import opened Arith

  const MAX_MONEY: u64 := 2_099_999_997_690_000

  datatype TimestampRule = PrevPlusOne | Median11 | UnknownRule

  datatype ChainParams = ChainParams(
    genesisBlock: Block,
    retargetInterval: u32,
    targetTimespan: int,       // seconds
    maxTimeFutureDrift: u32,   // seconds
    minTimestampRule: TimestampRule,
    initialBits: u32,
    minBits: u32,
    noRetarget: bool,
    maxBlockSize: u32,
    maxBlockTxCount: u32,
    initialSubsidy: u64,
    subsidyHalvingInterval: u32,
    coinbaseMaturity: u32,
    maxReorgDepth: u32,
    maxMempoolSize: u32,
    minRelayTxFee: u64)

  function CalcSubsidy(p: ChainParams, height: nat): u64 {
    if p.subsidyHalvingInterval == 0 then p.initialSubsidy
    else
      var halvings := height / p.subsidyHalvingInterval;
      if halvings >= 64 then 0 else Halved(p.initialSubsidy, halvings)
  }

  /** A right shift of a uint64. */
  function Halved(x: u64, n: nat): (r: u64)
    ensures r == x / Pow2(n)
  {
    if n == 0 then x else
    HalvedStep(x, n);
    Halved(x, n - 1) / 2
  }

  lemma {:induction false} HalvedStep(x: nat, n: nat)
    requires n > 0
    ensures x / Pow2(n) == (x / Pow2(n - 1)) / 2
  {
    DivDiv(x, Pow2(n - 1), 2);
  }
}
