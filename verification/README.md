# Fairchain, modelled in Dafny

A model of the consensus core of the Fairchain node: the chain manager with its reorganisations, orphan pool and
restarts, the UTXO transition and its undo data, transaction and header rules, canonical encodings, the script engine,
the mempool and its block template, and the wallet's coin selection. `dafny verify dfyconfig.toml` checks all of it.

What the theorems come to:

- **Memory is replay.** Whatever blocks arrive in whatever order, the in-memory UTXO set is the replay, from empty, of
  the path to the tip. A reorganisation through stored undo data refines replay; a failed one puts tip, work, both
  indexes and the set back. What becomes of a block with a known parent is a function of the state it meets
  (`Decision.Due`): a switch fails exactly for a branch that does not validate, or where undo data above the fork is
  missing; in a run from a first start undo data never is (`Chain.Run`).
- **Crash safety.** In a step that begins with disk equal to memory, every store call up to and including the first
  failed switch leaves a disk whose coins are the replay of the path to its best block; without a failed switch that is
  every store call. Opening any such disk gives a consistent node, whether the set is loaded, the tip advanced or the
  set rebuilt. A failed switch leaves the coins of exactly the block where it stopped. From any disk, and for every
  outcome, disk equals memory afterwards exactly under a condition on the state before (`Decision.SyncDue`): after an
  extension or a completed switch, when the two agreed on everything it did not touch.
- **Orphans are connected.** The sweep through the pool after a block follows a queue of rounds exactly
  (`Sweep.Swept`): the orphans that leave are those whose parent was settled, and each of them was handled or passed
  over because a sibling with smaller hash bytes reorganised the chain. A handled one is admitted, breaks a rule on its
  own ancestors, or is stored and could not be switched to. What joins the queue is settled unless a later
  reorganisation drops it, and there are only four reasons for an orphan to go on waiting for a known block
  (`Sweep.StillWaiting`).
- **The UTXO set is the unspent outputs.** On every accepted chain an output is a coin exactly if nothing on the chain
  spends it, with its own value, script, height and coinbase flag; and whatever a block spends is traced back to the
  output that made it, mature if minted, signed for if it pays to a key hash (`Script.SpendOfOutputIsSigned`).
- **Fork choice.** Every stored work is the sum over its path, and a block's work is 2^256 over its target plus one. The
  tip is the unique best of all admitted blocks: by work, so that a shorter branch of harder targets wins
  (`ForkChoice.HarderBranchBeats`), and then by the first byte in which the hashes differ. Two nodes that admitted the
  same blocks have the same tip, main chain and UTXO set.
- **No id repeats, value is conserved, the supply is bounded**, on every accepted chain.
- **Difficulty has its value**: a retarget is the greatest target compact bits can express within the limit and the
  tip's target times the clamped window over the target time (`Headers.RetargetValue`).
- **Rules depend on ancestors only**: targets stay within the limit on every branch, and median time never goes back.
- **Encodings are canonical**, merkle roots commit to duplicate-free lists, Base58 inverts both ways.
- **P2PKH opens exactly** for [sig, pub] with the right hash and a valid signature; the mempool's outpoint index is
  exact, and while its entries validate its template makes a valid block; coin selection is optimal.

## Modules

| module | what it holds |
|---|---|
| Types, Arith, Params | shared values, integer facts, parameters and subsidy |
| Codec, Wire, UndoCodec | encodings as functions, the writing and reading loops, stored undo data |
| Merkle, BlockRules, Headers, MedianTime, Target | commitment, structure, difficulty and time rules |
| Utxo, UtxoSet, TxValidation | the UTXO transition, its loops, transaction rules |
| History, Supply | replay of a chain, freshness of ids, conservation |
| BlockTree, ChainState, ForkChoice | the stored tree, states and disks as values, the order on tips |
| Decision, OrphanQueue, Sweep, Chain | what is due to a block, orphans and their fate, the sweep through the pool, the chain manager |
| Locator, Network | locators between peers, all nodes and mainnet |
| Witness, Example | that the hypotheses can be met, and a small network on which blocks get in |
| Cases, Spoiled | states in which a valid block is refused or lost, and a run after which the store cannot be opened |
| Script, Mempool, Wallet, Base58 | the smaller machines |

Hash functions, signature checks and clocks are parameters. Theorems that need collision freedom take it as a hypothesis
(`BlockRules.Ideal`: injective ids, transaction ids apart from inner nodes, no zero block hash); a hash has no fixed
length here, so that such functions exist. `Witness` builds them and shows that mainnet meets every standing hypothesis
with them; the block hashes it builds meet the target of `Example`'s network, so that blocks get in. Codecs ask for 32
bytes. Amounts, timestamps and bits are bounded integers with their wrap-around written out; heights are unbounded
naturals, since the coinbase check refuses a height of 2^32. The disk is a value changed by atomic store calls; block
and undo bytes count from the index write that points at them. A ghost log holds the disk after every call.

Where code and comments differ, the model follows the code:

- `DisconnectBlock` restores outputs a block created and spent itself, so it inverts `ConnectBlock` exactly when the
  block spends only what was there before (`Utxo.DisconnectInvertsIff`); input validation ensures that.
- After a failed reorganisation memory is restored and the flushed coins are not. Disk and memory then differ exactly
  when the first step of the switch could be made: the tip could be disconnected, or, with the fork at the tip, the
  first block connected (`Decision.Idle`). A later extension or completed switch repairs the disk exactly when the two
  agree on everything it does not touch (`Decision.SyncDue`); when only the tip was disconnected and the next block
  extends it, exactly when the tip block spent nothing and the next block spends all it created
  (`ChainState.NextBatchMendsIff`). `Spoiled.NextBlockSpoils` runs a node from an empty store through a failed switch to
  a valid next block that leaves a spent coin on disk.
- A rebuild puts entries and deletes none. It leaves the disk right exactly when every stored coin belongs to the
  rebuilt set (`Chain.Chain.RebuildUtxoSet`); after an interrupted disconnect of the tip, exactly when that block spends
  nothing (`ChainState.InterruptedDisconnectHealsIff`). The node in memory is right either way, but the disk then has
  best equal to tip with foreign coins, and a further restart has nothing right to load (`Chain.Chain.Open`);
  `Spoiled.RestartSpoils` is such a restart.
- Undo data lost to a power cut after the tip write is not regenerated; every later reorganisation across those blocks
  fails and restores memory (`Chain.Chain.Reorg`), even to a valid branch (`Cases.UndoLossBlocks`).
- With a depth limit a heavier branch can be refused: exactly when the block is acceptable, beats the tip, does not
  extend it, and forks further below the tip than the limit (`Decision.Due`; `Cases.DepthLimitRefuses` is one that is
  valid). The tip is then no longer the best admitted block, and that is the only way to lose it
  (`Chain.Chain.AcceptBlock`). An orphan refused like this does not join the orphan queue.
- A reorganisation inside orphan processing drops the rest of the queue and of the children in hand. The dropped
  children are gone, valid or not (`Cases.SecondSiblingIsLost`). Orphans stay in the pool beside a known parent when it
  was known before, was kept as too deep, was dropped from the queue, or is a block the reorganisation went through and
  never queued (`Sweep.StillWaiting`); without a reorganisation and a branch too deep none does (`Sweep.QuietSweep`).
- A restart knows every stored block, also those a failed reorganisation had stored. The tip is still the best of them
  exactly when it beats those that were not admitted, and from a first start only invalid blocks are not admitted
  (`Chain.Restart`, `Chain.Run`).
- The locator takes eleven unit steps before its distance doubles.
- With `NoRetarget` the expected bits are the initial bits, not the parent's.
- The template stops filling its slots when the fee total would overflow, which takes a UTXO set worth 2^64 or more.
- The wallet's size estimate covers the signed payment up to 252 inputs. From 253 on the input count takes two bytes more,
  and the estimate falls short exactly when the signatures do not save them (`Wallet.EstimateCoversIff`,
  `Wallet.LongPaymentExists`).
- The miner's sum of subsidy and fees is not guarded: a block that passes exists exactly when it is positive and below
  2^64 (`Mempool.TemplateMinesIff`).

## Model

| member | source | states |
|---|---|---|
| `Chain.Chain.ProcessBlock` | internal/chain/chain.go:451-642 | for every block and every state: memory stays the replay of the path to the tip; the answer is the one due to the state it met; refusals change nothing and a failed reorganisation restores memory; the pool afterwards is exactly what the sweep from the block leaves, each event of it due on the disk it met, and the events say exactly what is admitted and why a block is known; the tip stays the unique best admitted block, without a depth limit; the pool keeps its cap; a step that began in sync logs only disks a restart can use up to and including its first failed switch, and ends in sync if there is none |
| `Chain.Chain.HandleKnown` | internal/chain/chain.go:502-642 | the same for a block with a known parent together with the orphans that waited for it; the outcome is exactly the one due |
| `Chain.Chain.AcceptBlock` | internal/chain/chain.go:511-637 | the outcome is the one due; for each outcome the exact memory and index; disk equals memory afterwards exactly as the state before decides, from any disk; a failed switch restores memory and leaves on disk the coins of exactly the block where it stopped; best-tip is lost exactly when the branch is too deep |
| `Decision.RejectedIsRefusable` | internal/chain/chain.go:510-563 | a refusal, whatever the tip, means the block breaks a rule on its own ancestors or its inputs fail on the replay of the chain below it |
| `Decision.SwitchSame` | internal/chain/chain.go:599-622 | storing the block first changes neither its fork, nor whether the switch succeeds, nor where it stops |
| `Decision.SwitchStable` | internal/chain/chain.go:1055-1068 | nor does entering its height first, as the orphan path does |
| `Chain.Chain.CheckNewBlock` | internal/chain/chain.go:510-533 | accepts exactly the blocks whose bits, proof of work, timestamp and structure meet the rules computed on their own ancestors, and computes height and work |
| `Chain.Chain.BuildAncestorLookup` | internal/chain/chain.go:1107-1141 | the lookup agrees with the naive parent walk at every height up to the parent, whichever chain is active |
| `Chain.Chain.ExtendMain` | internal/chain/chain.go:552-597 | extends exactly when inputs validate; new tip, indexes, work and UTXO set; disk stays equal to memory, or, from a usable disk, usable exactly when the two agreed away from the block; a refusal leaves no trace |
| `Chain.Chain.PersistExtension` | internal/chain/chain.go:564-591 | index with undo data, UTXO batch, tip: the exact disk; from a usable disk the last one is usable exactly when the batch gave the replay, and then all of them are |
| `Chain.Chain.AcceptSide` | internal/chain/chain.go:623-636 | a block with too little work enters index and height map and nothing else moves |
| `Chain.Chain.AcceptReorg` | internal/chain/chain.go:599-622 | stores the block, then switches, keeps it beside the chain as too deep, or restores memory, exactly as the depth test, the undo data and the branch decide; the exact disk after a failure |
| `Chain.Chain.Reorg` | internal/chain/chain.go:709-899 | disconnecting through stored undo data and reconnecting refines replay; too deep exactly by the depth test, failed exactly when undo data above the fork is missing or the branch does not validate; failure restores tip, work, both indexes and the UTXO set and leaves on disk the block where it stopped; success forgets exactly the disconnected heights and adds the connected ones, and leaves disk equal to memory exactly when the two agreed on what it did not touch; from sync every disk on the way is one a restart can use |
| `Chain.Chain.SwitchOver` | internal/chain/chain.go:770-899 | along a given branch: succeeds exactly when every block above the fork has undo data and the branch validates, else memory is as before |
| `Chain.Chain.FindFork` | internal/chain/chain.go:738-762 | the branch is the parent-linked path from just above the nearest main-chain ancestor to the new tip |
| `Chain.Chain.DisconnectTo` | internal/chain/chain.go:785-818 | after each step the UTXO set, and the flushed one, is the replay of the path to the block below; stops exactly at the highest block without undo data; disk and memory move together on what was touched and keep the rest |
| `Chain.Chain.RemoveAbove` | internal/chain/chain.go:820-826 | the main chain cut back to the fork; exactly its blocks above the fork are no longer known |
| `Chain.Chain.ConnectBranch` | internal/chain/chain.go:837-861 | each connected block was validated on the replay below it; stops exactly above the last validated block of the branch; collects the undo data of its own path; exact new heights; disk and memory move together |
| `Chain.Chain.WriteUndoData` | internal/chain/chain.go:879-896 | undo data of exactly the connected blocks is added, each write leaving a usable disk |
| `Chain.Chain.HandleOrphan` | internal/chain/chain.go:975-1073 | one orphan whose parent has been connected: its outcome is the one due; it joins the queue exactly when it extends the tip or stays beside it, is alone in it exactly after a reorganisation; it is admitted, breaks a rule, or is stored and could not be switched to |
| `OrphanQueue.DueFate` | internal/chain/chain.go:975-1073 | whatever is due to a block with a known parent, it is then admitted, breaks a rule, or is stored and its branch is invalid or undo data was missing |
| `OrphanQueue.FatedStays` | internal/chain/chain.go:941-1076 | and no later block changes that |
| `Chain.Chain.ProcessOrphans` | internal/chain/chain.go:941-1076 | terminates by 2*orphans + queue; the rounds are the sweep: pool, queue and settled blocks are exactly those of the rounds, each event was due on the disk it met, and each block handled met its fate |
| `Sweep.SweepEmpties` | internal/chain/chain.go:941-1076 | exactly the children of settled blocks leave the pool, and they are exactly those handled or passed over for a sibling with smaller hash bytes that reorganised the chain |
| `Sweep.SweepSettles` | internal/chain/chain.go:941-1076 | settled are only the block and blocks that joined the queue: all that reorganised the chain, and all that no later reorganisation dropped |
| `Sweep.SweepFates` | internal/chain/chain.go:975-1073 | every orphan that left met its fate or was passed over, and settled blocks are admitted |
| `Sweep.StillWaiting` | internal/chain/chain.go:1055-1073 | an orphan waits for a known block only if that block was known before, is too deep, was dropped from the queue, or lies on a branch a reorganisation connected |
| `Sweep.QuietSweep` | internal/chain/chain.go:941-1076 | without a reorganisation and a branch too deep no orphan waits for a known block |
| `Sweep.OneOutcome` | internal/chain/chain.go:975-1073 | disk and tip alone decide what is due to a block |
| `Cases.SecondSiblingIsLost` | internal/chain/chain.go:1055-1068 | two valid orphans of one parent that both beat the tip: the one with smaller bytes makes the node switch, the other leaves the pool unseen |
| `Chain.Chain.TakeChildren` | internal/chain/chain.go:948-965 | takes exactly the children of the parent out of the pool, in byte order of their hashes |
| `Chain.Chain.KeepOrphan` | internal/chain/chain.go:487-491 | the expired go, then one more only from a pool still full, nothing else; the block is in, and the pool never exceeds its cap |
| `OrphanQueue.SortHashes` | internal/chain/chain.go:963-965 | the same hashes, each once, in byte order |
| `Chain.Chain.Open` | internal/chain/chain.go:103-204 | any usable disk gives a consistent node on the chain it selects that knows every stored block; every disk before the last store call can be opened again; the last can exactly when disk equals memory, which is exactly when no stored coin is foreign to that chain |
| `Chain.Chain.InitGenesis` | internal/chain/chain.go:261-308 | a new store gives a node in sync at genesis that is its own best tip; interrupted anywhere, the store can be opened again |
| `Chain.Chain.Load` | internal/chain/chain.go:109-203 | tip selection between tip and chainstate; the UTXO set is the replay of the selected chain whether loaded, advanced or rebuilt; tip and best agree afterwards, and the disk is usable exactly when in sync |
| `Chain.Chain.WalkBack` | internal/chain/chain.go:126-142 | lists the path by height and sums to the stored chain work |
| `Chain.Chain.RebuildUtxoSet` | internal/chain/chain.go:220-259 | the rebuilt set is the replay of the main chain; on disk it goes over what was there, which is exact just when nothing else was stored |
| `Chain.Run` | internal/chain/chain.go:451-642 | any sequence of blocks from first start: consistent, every main block undoable, best tip, pool bounded, in sync unless an invalid block was stored, and only invalid blocks are not admitted |
| `Chain.RestartAfterCrash` | internal/chain/chain.go:103-204 | power lost between any two store calls up to the first failed switch: the restarted node is consistent on the chain the disk selects, and its disk can be opened once more exactly when it is in sync |
| `Chain.Restart` | internal/chain/chain.go:103-204 | a node in sync restarts in sync on the same chain; its tip is the best of all stored blocks exactly when it beats those never admitted |
| `ChainState.StepBack` | internal/chain/chain.go:785-818 | disconnecting a validated block with its undo data gives the replay up to its parent |
| `ChainState.StepForward` | internal/chain/chain.go:837-853 | validating and connecting a stored child gives the replay up to it |
| `ChainState.AdmitStep` | internal/chain/chain.go:535-550 | admitting a block keeps tree, undo data and memory consistent and changes no other path |
| `ChainState.ExtendStep` | internal/chain/chain.go:552-597 | extending by a validated child of the tip keeps all of it, one block higher |
| `ChainState.PersistExactIff` | internal/chain/chain.go:648-672 | the batch of a block leaves disk equal to memory exactly when they agreed away from what the block touches |
| `ChainState.BackTracks` | internal/chain/chain.go:785-818 | disconnecting on disk and in memory: they agree on what the block touches, and the rest is as it was |
| `ChainState.ForwardTracks` | internal/chain/chain.go:648-672 | so does connecting, by the block's batch |
| `ChainState.TracksIff` | internal/chain/chain.go:785-861 | after any number of such steps disk equals memory exactly when they agreed on what no step touched |
| `ChainState.BatchUsableIff` | internal/chain/chain.go:648-672 | a batch leaves a usable disk exactly when it wrote the replay of its best block |
| `ChainState.NextBatchMendsIff` | internal/chain/chain.go:648-672 | after a failed switch that stopped just below the tip, the next block's batch mends the disk exactly when the tip block spent nothing and the next block spends all it created |
| `Spoiled.NextBlockSpoils` | internal/chain/chain.go:451-642 | a run from an empty store: two blocks, a switch that fails, and a valid next block after which the store cannot be opened although best equals tip |
| `Spoiled.RestartSpoils` | internal/chain/chain.go:103-204 | the same run stopped after the failed switch: the restart gives a right node and a store that cannot be opened again |
| `Cases.UndoLossBlocks` | internal/chain/chain.go:785-818 | a node in sync whose tip has lost its undo data refuses a heavier valid branch |
| `Cases.DepthLimitRefuses` | internal/chain/chain.go:764-767 | a node in sync with a depth limit of one keeps a heavier valid branch beside the chain |
| `Example.GetsIn` | internal/chain/chain.go:510-533 | on the example network every block that fits its height and comes later than its parent meets proof of work, difficulty, time and structure rules |
| `ChainState.InterruptedDisconnectHealsIff` | internal/chain/chain.go:148-196 | after an interrupted disconnect of the tip, the flush of the rebuilt set restores the disk exactly when the tip block spends nothing |
| `BlockTree.InsertKeepsTree` | internal/chain/chain.go:535-550 | the stored tree stays linked, with true heights, work and rules on every path |
| `BlockTree.RewriteIsIdentity` | internal/chain/chain.go:539-550 | writing a stored hash again writes the record that is there |
| `BlockTree.LookupAgrees` | internal/chain/chain.go:1134-1139 | side-chain headers over main-chain headers read as the path of the parent |
| `BlockTree.WorkIsPathSum` | internal/chain/chain.go:527-533 | stored chain work is the sum of block work over the path |
| `ForkChoice.BytesLessTrichotomy` | internal/chain/chain.go:599-599 | the tie-break on hash bytes is a total strict order |
| `ForkChoice.BytesLessIff` | internal/chain/chain.go:599-599 | one hash is less exactly when it has the smaller byte, or ends, where the two first differ |
| `ForkChoice.BestHasSmallerByte` | internal/chain/chain.go:599-599 | among blocks of equal work the best tip has the smaller byte at the first difference |
| `Decision.TieIsDecided` | internal/chain/chain.go:599-636 | a block with as much work as the tip becomes the tip if its hash has the smaller byte at the first difference, unless too deep or failing, and stays beside the chain if it has the larger |
| `ForkChoice.HarderBranchBeats` | internal/chain/chain.go:527-533 | from a common ancestor a branch of harder targets wins whatever the lengths, when its length outweighs the ratio of the targets |
| `ForkChoice.TwoBeatThree` | internal/chain/chain.go:527-533 | two blocks at a quarter of a target beat three at that target |
| `ForkChoice.AdmitWinner` | internal/chain/chain.go:599-599 | a block that beats the tip beats everything the tip beat |
| `ForkChoice.AdmitLoser` | internal/chain/chain.go:623-636 | a block that does not beat the tip loses to it |
| `ForkChoice.LimitGivesWork` | internal/consensus/pow/engine.go:33-36 | under a limit that fits 256 bits every block that passes the header rules carries work |
| `ForkChoice.SameBlocksSameTip` | internal/chain/chain.go:599-599 | one set of admitted blocks has one best tip |
| `ForkChoice.BestIfUnbeaten` | internal/chain/chain.go:103-142 | the best admitted block is the best stored one exactly when it beats the stored blocks that were not admitted |
| `Network.NodesAgree` | internal/chain/chain.go:527-641 | two nodes that admitted the same blocks have the same tip, work, main chain and UTXO set |
| `Network.NodeCoins` | internal/utxo/utxo.go:216-308 | on every reachable node an output of the main chain is a coin exactly if nothing on that chain spends it, with its own value, script, height and coinbase flag |
| `Network.NodeTie` | internal/chain/chain.go:599-599 | no admitted block of the tip's work has a smaller byte where the hashes first differ |
| `Network.MainnetBlockWork` | internal/crypto/target.go:96-105 | a mainnet block at the limit is worth 1048577 |
| `Network.NodeSupply` | internal/utxo/utxo.go:200-211 | on every reachable node the UTXO value is at most the kept genesis outputs plus all subsidies up to the tip |
| `Network.NodeBlock` | internal/chain/chain.go:527-533 | for every stored block: work is the sum over its path, and the target is within the limit |
| `Network.NodeMedianTime` | internal/consensus/validation.go:166-194 | along every stored branch median time past never decreases |
| `Network.MainnetMeetsHypotheses` | internal/params/networks.go:37-64 | the shipped genesis and parameters meet the hypotheses of the theorems |
| `Network.MainnetWorkCounts` | internal/params/networks.go:78-79 | the shipped limit fits 256 bits |
| `Network.MainnetNodeSupply` | internal/params/networks.go:12-12 | on mainnet no node ever holds more than MaxMoneyValue, so the overflow sentinel is never reached |
| `UtxoSet.Set.ConnectBlock` | internal/utxo/utxo.go:216-308 | the loops compute Connect, or fail and change nothing |
| `UtxoSet.Set.DisconnectBlock` | internal/utxo/utxo.go:313-342 | the loops compute Disconnect |
| `UtxoSet.Set.ConnectGenesis` | internal/utxo/utxo.go:349-373 | adds the genesis outputs except placeholders |
| `Utxo.ConnectClosedForm` | internal/utxo/utxo.go:216-308 | a successful connect removes what the block spends and adds the outputs it leaves unspent |
| `Utxo.CreatedCoin` | internal/utxo/utxo.go:275-300 | after a block each output it did not spend itself is a coin with that output's value and script, the block's height and whether a coinbase made it |
| `Utxo.DisconnectAfterConnect` | internal/utxo/utxo.go:313-342 | with fresh keys the result is the old set plus exactly the outputs created and spent inside the block |
| `Utxo.DisconnectInvertsIff` | internal/utxo/utxo.go:313-342 | hence an inverse exactly when the block spends only what was there before |
| `TxValidation.AcceptedBlockReverses` | internal/consensus/txvalidation.go:26-157 | an accepted block connects, and with fresh keys disconnects to the old set |
| `UndoCodec.EntryRoundTrip` | internal/utxo/utxo.go:22-59 | a stored entry reads back |
| `UndoCodec.EntryLayout` | internal/utxo/utxo.go:22-59 | value, height, coinbase flag, script behind its length |
| `UndoCodec.UndoRoundTrip` | internal/utxo/utxo.go:83-144 | undo data reads back |
| `UndoCodec.SpentLayout` | internal/utxo/utxo.go:83-144 | outpoint hash, outpoint index, stored entry behind its length |
| `UndoCodec.DeserializeUndoData` | internal/utxo/utxo.go:107-144 | the offset loop computes the decoder |
| `UndoCodec.StoredUndoReverses` | internal/utxo/utxo.go:83-144 | undo data after the codec round trip still restores the old set exactly |
| `TxValidation.ValidateTransactionInputs` | internal/consensus/txvalidation.go:26-157 | accepts exactly the blocks that meet the rules on exact sums and returns the exact fees: the wrap guards lose nothing |
| `TxValidation.ValidateSingleTransaction` | internal/consensus/txvalidation.go:161-250 | accepts exactly the transactions that may spend at the next height, with the exact fee |
| `TxValidation.CheckInputs` | internal/consensus/txvalidation.go:52-97 | distinct, present, mature inputs not spent earlier in the block; the guarded total is the exact total |
| `Supply.TotalValue` | internal/utxo/utxo.go:200-211 | the exact sum below 2^64, the sentinel otherwise |
| `Supply.BlockConservesValue` | internal/consensus/txvalidation.go:92-156 | connecting an accepted block changes the total by what the coinbase takes less the fees |
| `Supply.SupplyBound` | internal/consensus/txvalidation.go:92-156 | on every accepted chain the total is at most genesis plus subsidies |
| `Supply.SubsidyHalves` | internal/params/params.go:63-72 | the schedule in full: the first era pays the initial subsidy, one interval later a block pays half, down to zero |
| `Supply.ScheduleBound` | internal/params/params.go:63-72 | what is issued and what may still be issued stays below two first eras, at every height |
| `Supply.MainnetSupply` | internal/params/networks.go:85-86 | on mainnet that is at most MaxMoneyValue |
| `Params.Halved` | internal/params/params.go:63-72 | the shift is division by a power of two |
| `History.NoTxIdRepeats` | internal/consensus/validation.go:35-67 | no transaction id repeats along an accepted chain, in one block or across blocks |
| `History.NextBlockReverses` | internal/consensus/txvalidation.go:56-97 | so the next accepted block creates fresh keys and its undo data reverses it |
| `History.ReplayExtends` | internal/chain/chain.go:220-239 | replay of one more accepted block is connect on the replay before it |
| `History.OutputIsCoin` | internal/utxo/utxo.go:216-308 | on an accepted chain an output is a coin exactly if no transaction of the chain spends it and it is no genesis placeholder, with its exact entry |
| `History.CoinIsOutput` | internal/utxo/utxo.go:216-308 | and every coin is such an output |
| `History.SpendIsOfOutput` | internal/consensus/txvalidation.go:52-97 | what an accepted block spends is an unspent output of the chain below, and at least the maturity above its block if a coinbase made it |
| `BlockRules.ValidateBlockStructure` | internal/consensus/validation.go:23-98 | accepts exactly the blocks that meet the structure rules |
| `BlockRules.ValidateCoinbaseScriptSig` | internal/consensus/validation.go:134-163 | accepts exactly the scripts that encode the height |
| `BlockRules.MinerHeightDecodes` | internal/miner/miner.go:167-174 | the script the miner writes encodes its height |
| `BlockRules.HeaderDeterminesBlock` | internal/consensus/validation.go:51-76 | two structurally valid blocks with one header are one block |
| `Merkle.ComputeMerkleRoot` | internal/crypto/merkle.go:12-35 | the level loop computes the root |
| `Merkle.MerkleRootIsUnique` | internal/crypto/merkle.go:12-35 | duplicate-free lists with one root are one list, whatever their lengths |
| `Merkle.TwinExistsIff` | internal/consensus/validation.go:51-56 | without the duplicate check a list of distinct leaves shares its root with another list exactly when its length is not a power of two |
| `Merkle.TwinSharesRoot` | internal/crypto/merkle.go:12-35 | then repeating the last complete subtree keeps the root |
| `Target.BigToCompactIsFloor` | internal/crypto/target.go:36-66 | encodes to the greatest compact value not above the target |
| `Target.NegativeRoundsUp` | internal/crypto/target.go:36-66 | a negative number encodes to the least compact value not below it |
| `Target.DecodeEncodeDecode` | internal/crypto/target.go:15-66 | decode, encode, decode is decode for every 32-bit pattern |
| `Target.WorkIsPositiveIff` | internal/crypto/target.go:96-105 | work is positive exactly for a positive target below 2^256 |
| `Target.WorkFallsWithTarget` | internal/crypto/target.go:96-105 | a smaller target is worth at least as much work |
| `Target.WorkIsQuotient` | internal/crypto/target.go:96-105 | work is 2^256 over the target plus one, rounded down, and nothing for a target that is not positive |
| `Target.FillTarget` | internal/crypto/target.go:70-82 | the byte loop writes the target modulo 2^256, least significant byte first |
| `Target.HashToBig` | internal/crypto/target.go:85-92 | the reversed bytes read big-endian are the little-endian value |
| `Target.Less` | internal/types/hash.go:80-91 | the byte loop compares 256-bit little-endian numbers |
| `Target.ValidateProofOfWork` | internal/crypto/target.go:108-114 | accepts exactly hashes at most the target bytes |
| `Target.PowMeansBelowTarget` | internal/crypto/target.go:108-114 | for targets that fit, that is a comparison of numbers |
| `Target.PowComparesMagnitude` | internal/crypto/target.go:70-114 | for any bits it compares the hash with the magnitude of the target modulo 2^256 |
| `Headers.RetargetStaysWithin` | internal/consensus/pow/engine.go:70-93 | a retarget never passes the limit, whatever the signs, if what it asks for can be encoded; from a target that is not negative it can, and the result is at most fourfold and not negative |
| `Headers.RetargetMonotone` | internal/consensus/pow/engine.go:70-93 | a longer window never lowers the target |
| `Headers.RetargetKeepsSteady` | internal/consensus/pow/engine.go:70-93 | a window of exactly the target time keeps it |
| `Headers.RetargetValue` | internal/consensus/pow/engine.go:54-94 | at a boundary the new target is the greatest compact one not above the limit and not above the tip's target times the clamped time since the window's first header over the target time |
| `Headers.BitsGoOn` | internal/consensus/pow/engine.go:54-66 | elsewhere the tip's bits go on, or the initial bits without retargeting |
| `Headers.TargetsStayWithinLimit` | internal/consensus/pow/engine.go:54-94 | along every accepted chain targets stay within the limit, one step at most fourfold |
| `Headers.RulesDependOnAncestorsOnly` | internal/consensus/pow/engine.go:54-94 | expected bits and median time are functions of the ancestors up to the parent |
| `Headers.MayFollowByLookup` | internal/consensus/validation.go:104-125 | checked through any agreeing lookup the rules are those of the path |
| `Headers.CalcMedianTimePast` | internal/consensus/validation.go:166-194 | collecting, sorting in place and taking the middle computes the median of the window |
| `Headers.WindowIsLastEleven` | internal/consensus/validation.go:166-181 | the window holds the timestamps of the last eleven blocks, or of all |
| `Headers.ValidateHeaderTimestamp` | internal/consensus/validation.go:104-125 | accepts exactly the timestamps the rule allows, with the uint32 sum of now and drift |
| `Headers.MedianTimeNeverDecreases` | internal/consensus/validation.go:104-125 | under median-11 median time past never decreases, growing windows included |
| `MedianTime.SortInPlace` | internal/consensus/validation.go:182-190 | the in-place insertion sort |
| `MedianTime.SortedIsSorted` | internal/consensus/validation.go:182-190 | gives an ascending permutation |
| `MedianTime.MedianByCount` | internal/consensus/validation.go:192-193 | the result is the middle: it reaches m exactly when at most half the window is below m |
| `MedianTime.MedianNeverDecreases` | internal/consensus/validation.go:166-194 | a time above the median never lowers it, full window or not |
| `Codec.VarIntRoundTrip` | internal/types/transaction.go:67-131 | a varint reads back and has the size VarIntSize says |
| `Codec.VarIntCanonical` | internal/types/transaction.go:88-168 | whatever decodes is the only encoding of its value |
| `Codec.VarIntLayout` | internal/types/transaction.go:67-85 | one byte below 253, else marker 253, 254 or 255 and the least of two, four or eight bytes that hold the value, lowest first |
| `Codec.TxRoundTrip` | internal/types/transaction.go:185-331 | a transaction followed by anything reads back with exactly that rest |
| `Codec.TxCanonical` | internal/types/transaction.go:289-380 | the bytes a transaction was read from are its serialisation |
| `Codec.TxLayout` | internal/types/transaction.go:212-242 | version, counted inputs, counted outputs, lock time |
| `Codec.InputLayout` | internal/types/transaction.go:212-242 | outpoint hash, outpoint index, script behind its length, sequence |
| `Codec.OutputLayout` | internal/types/transaction.go:212-242 | value, script behind its length |
| `Codec.CoinbaseOnWire` | internal/types/transaction.go:28-53 | a transaction of one input is a coinbase exactly if its outpoint is 32 zero bytes and four bytes 255 on the wire |
| `Codec.HeaderRoundTrip` | internal/types/block.go:39-64 | the 80-byte header reads back |
| `Codec.HeaderLayout` | internal/types/block.go:39-64 | version, parent, merkle root, time, bits and nonce at their byte positions, lowest byte first |
| `Codec.BlockRoundTrip` | internal/types/block.go:70-113 | a block followed by anything reads back with exactly that rest |
| `Codec.BlockCanonical` | internal/types/block.go:95-113 | the bytes a block was read from are its serialisation |
| `Wire.Writer.WriteTx` | internal/types/transaction.go:212-242 | the writing loops append the encoding |
| `Wire.Writer.WriteBlock` | internal/types/block.go:70-83 | the writing loops append the encoding |
| `Wire.Reader.ReadTx` | internal/types/transaction.go:289-331 | the reading loops compute the decoder, errors included |
| `Wire.Reader.ReadBlock` | internal/types/block.go:95-113 | the reading loops compute the decoder, errors included |
| `Wire.SerializeSize` | internal/types/transaction.go:185-209 | the size computed without serialising is the exact length |
| `Wire.TransmitBlock` | internal/types/block.go:70-113 | writing and reading through the loops returns the block and the bytes behind it |
| `Script.Verify` | internal/script/script.go:46-87 | accepts exactly the spends the step semantics verifies |
| `Script.Engine.ExecuteScript` | internal/script/script.go:96-264 | the interpreter loop computes the step semantics; between opcodes at most 1000 items of at most 520 bytes |
| `Script.StepKeepsLimits` | internal/script/script.go:96-264 | every opcode keeps those limits |
| `Script.CastToBool` | internal/script/script.go:309-320 | the byte scan decides truth, negative zero being false |
| `Script.LockingScript` | internal/script/script.go:96-264 | what the P2PKH script makes of any stack |
| `Script.P2PKHOpensIff` | internal/script/script.go:46-87 | a P2PKH output opens exactly when the signature script leaves [der + 0x01, pub] with a nonempty DER string that signs and a key with the embedded hash |
| `Script.BuiltSpendVerifies` | internal/crypto/keys.go:90-97 | for every DER string of up to 74 bytes that signs and every key of up to 75, the built signature script leaves [der + 0x01, pub] and opens its output |
| `Script.P2PKHPattern` | internal/crypto/keys.go:67-109 | the pattern matches exactly the scripts the builder makes |
| `Script.AcceptedSpendIsSigned` | internal/consensus/txvalidation.go:56-97 | in an accepted block every spend of a P2PKH coin shows its key and a DER string, without the hash-type byte, that signs that input |
| `Script.SpendOfOutputIsSigned` | internal/consensus/txvalidation.go:56-97 | from the output to its spend: the output of the chain that is spent is unspent and mature, and if it pays to a key hash the spend shows the key and a signature |
| `Script.SigOkIff` | internal/script/script.go:205-235 | what OP_CHECKSIG accepts is a nonempty signed DER string followed by 0x01 |
| `Mempool.Mempool.AddTx` | internal/mempool/mempool.go:58-127 | admits exactly the admissible transactions and claims exactly their inputs |
| `Mempool.Mempool.RemoveTx` | internal/mempool/mempool.go:157-182 | removes one entry and releases exactly its inputs |
| `Mempool.Mempool.RemoveTxs` | internal/mempool/mempool.go:164-170 | removes exactly the listed entries |
| `Mempool.Mempool.EvictLowestFeeRate` | internal/mempool/mempool.go:296-317 | removes the entry of lowest fee rate, smaller hash first |
| `Mempool.EntriesAreDisjoint` | internal/mempool/mempool.go:27-34 | no two entries share an outpoint |
| `Mempool.Mempool.BlockTemplate` | internal/mempool/mempool.go:196-224 | all entries by descending fee rate, ascending hash number among equals, with their exact fee total; on overflow the total stops and the rest of the slots stay empty |
| `Mempool.TemplateIsDetermined` | internal/mempool/mempool.go:200-210 | the order does not depend on how the map is walked |
| `Mempool.OrderedIsByFeeRate` | internal/mempool/mempool.go:200-210 | the template order is descending fee rate, then ascending hash number |
| `Mempool.TemplateBlockIsValid` | internal/miner/miner.go:96-107 | template plus a coinbase of subsidy and fees passes input validation with exactly those fees |
| `Mempool.TemplateMinesIff` | internal/miner/miner.go:96-107 | such a block exists and passes exactly when subsidy and fees together are positive and below 2^64 |
| `Mempool.OverflowingFeesAreRefused` | internal/consensus/txvalidation.go:140-156 | beyond that no coinbase makes the template pass |
| `Mempool.FeesWithinTotal` | internal/mempool/mempool.go:212-222 | the fees never exceed the value of the set, so the overflow exit needs an overflowing set |
| `Wallet.SelectCoins` | internal/wallet/txbuilder.go:165-186 | takes the shortest covering prefix, or none covers |
| `Wallet.FrontIsBest` | internal/wallet/txbuilder.go:64-67 | of all choices of equally many coins the front of the descending list is worth most |
| `Wallet.SelectionIsBest` | internal/wallet/txbuilder.go:165-186 | so the selection has the fewest inputs of any covering subset and fails only when no subset covers |
| `Wallet.SplitChange` | internal/wallet/txbuilder.go:97-145 | fee and change never underflow, and the fee lies between the two-output estimate and that plus dust |
| `Wallet.BuildTransaction` | internal/wallet/txbuilder.go:34-147 | fails exactly for a zero amount or when nothing covers; otherwise fewest inputs, value conserved, bounded fee, version 1 and the tip height as lock time |
| `Wallet.FilterSpendable` | internal/wallet/txbuilder.go:188-206 | keeps exactly the ripe coins in order |
| `Wallet.RipeIsSpendable` | internal/wallet/txbuilder.go:188-206 | ripe is exactly what consensus lets the next block spend, not above the tip, with confirmations that do not wrap |
| `Wallet.PaymentIsAcceptable` | internal/consensus/txvalidation.go:161-250 | the payment passes every value rule and consensus sees the fee the wallet paid |
| `Wallet.EstimateCoversIff` | internal/wallet/txbuilder.go:12-18 | the size estimate reaches the bytes of the signed payment exactly when shorter signatures save what the input count needs; with at most 252 inputs and usual signatures it always does |
| `Wallet.EveryByteIsPaid` | internal/wallet/txbuilder.go:97-145 | then the fee is at least the asked rate for every byte of the signed payment |
| `Base58.Encode` | internal/crypto/base58.go:16-34 | the division and reversal loops compute the encoding |
| `Base58.Decode` | internal/crypto/base58.go:37-58 | the accumulation loop computes the decoding, or refuses a foreign character |
| `Base58.DecodeInvertsEncode` | internal/crypto/base58.go:16-58 | decoding an encoding gives the bytes back, leading zeros included |
| `Base58.EncodeInvertsDecode` | internal/crypto/base58.go:16-58 | encoding a decoding gives the string back |
| `Base58.AddressIsCanonical` | internal/crypto/base58.go:79-107 | an address decodes to its version and payload and is the only string that does |
| `Locator.BlockLocator` | internal/chain/chain.go:375-408 | terminates without the uint32 step wrapping; entries lie at the stated distances and end at genesis |
| `Locator.LocatorShape` | internal/chain/chain.go:375-408 | strictly descending from tip to genesis, at most 43 entries against a decode cap of 500 |
| `Locator.ResolveStart` | internal/p2p/manager.go:1372-1381 | the first locator hash on the peer's main chain |
| `Locator.ResolvePeerStart` | internal/p2p/manager.go:1372-1381 | a common block no further below the fork than the fork is below the tip, and the fork itself within ten |
| `Locator.ForkExists` | internal/chain/chain.go:412-424 | any two consistent nodes have exactly such a fork height |

## Left out

- Networking, peers, bans, RPC, command line, configuration, logging and metrics: input and output around the core.
- LevelDB, bbolt and flat files: maps with atomic writes stand for them; storage errors and their early exits do not occur.
- Locks: every modelled operation holds one throughout, so sequential methods stand for them.
- Clocks and orphan expiry: the time read for each block, and the set of expired orphans, are arguments.
- SHA-256, RIPEMD-160, ECDSA, DER parsing and signature hashes: uninterpreted functions.
- The genesis hash comparison at first start: the parameters are taken to carry the right hash.
- Headers whose parent hash differs from the stored parent: the store is keyed by that hash, so the comparison cannot fail.
- The chain manager holds its UTXO set as a value and applies the functions of Utxo; UtxoSet.Set shows that the loops compute them. Undo data in the index is kept decoded; UndoCodec shows that decoding gives it back.
- Sharing of one UTXO set object between mempool and chain: the mempool works on the set it is given.
- Output indexes and transaction counts of 2^32 and more, and stored lengths of 2^63 and more, where the source would truncate or stop.
- Mempool persistence, wallet keys, signing and address derivation, WIF, mining loops and chain statistics: no new properties of interest.
- BuiltSpendVerifies: signatures and keys of more than 75 bytes, for which the length byte is no longer a plain push; real ones have at most 73 and 33.
- RetargetStaysWithin: a negative target whose wanted value needs more bytes than the compact exponent holds; a chain whose genesis target is within the limit has none.
