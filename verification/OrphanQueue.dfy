/** Orphans waiting for their parents, the queue that connects them, and what becomes of each (internal/chain/chain.go). */
module OrphanQueue {
  import opened Types
  import opened Params
  import opened BlockRules
  import opened History
  import opened Headers
  import opened BlockTree
  import opened ChainState
  import opened ForkChoice
  import opened Decision

  const MAX_ORPHAN_BLOCKS: nat := 100

  ghost predicate OrphansOk(c: Crypto, orphans: map<Hash, Block>) {
    forall h :: h in orphans ==> c.blockId(orphans[h].header) == h
  }

  ghost function HashSet(hs: seq<Hash>): set<Hash> {
    set x | x in hs
  }

  /** The smallest hash of a set, in byte order. */
  method MinHash(s: set<Hash>) returns (m: Hash)
    requires s != {}
    ensures m in s && forall x :: x in s ==> x == m || BytesLess(m, x)
  {
    m :| m in s;
    var left := s - {m};
    while left != {}
      invariant left <= s && m in s && m !in left
      invariant forall x :: x in s && x !in left ==> x == m || BytesLess(m, x)
      decreases |left|
    {
      var x :| x in left;
      if BytesLess(x, m) {
        forall y | y in s && y !in left ensures BytesLess(x, y) {
          if y != m { BytesLessTransitive(x, m, y); }
        }
        m := x;
      } else {
        BytesLessTrichotomy(m, x);
      }
      left := left - {x};
    }
  }

  /** Listed in byte order, each hash once. */
  ghost predicate InOrder(xs: seq<Hash>) {
    forall i, j :: 0 <= i < j < |xs| ==> BytesLess(xs[i], xs[j])
  }

  lemma {:induction false} HashSetGrows(xs: seq<Hash>, ys: seq<Hash>)
    requires |ys| <= 1
    ensures HashSet(xs + ys) == HashSet(xs) + if ys == [] then {} else {ys[0]}
    ensures HashSet([]) == {}
  {
  }

  lemma {:induction false} SuffixGrows(xs: seq<Hash>, i: nat)
    requires i < |xs|
    ensures HashSet(xs[i..]) == HashSet(xs[i + 1..]) + {xs[i]}
  {
    assert xs[i..] == [xs[i]] + xs[i + 1..];
  }

  method SortHashes(s: set<Hash>) returns (xs: seq<Hash>)
    ensures InOrder(xs) && HashSet(xs) == s && |xs| == |s|
  {
    hide BytesLess, HashSet;
    xs := [];
    var left := s;
    HashSetGrows([], []);
    while left != {}
      invariant left <= s && InOrder(xs) && HashSet(xs) == s - left && |xs| + |left| == |s|
      invariant forall i, x :: 0 <= i < |xs| && x in left ==> BytesLess(xs[i], x)
      decreases |left|
    {
      var m := MinHash(left);
      HashSetGrows(xs, [m]);
      xs := xs + [m];
      left := left - {m};
    }
  }

  // ---------------------------------------------------------------- orphans and their queue

  datatype OrphanEntry = OrphanEntry(hash: Hash, block: Block)

  function EntryHashes(entries: seq<OrphanEntry>): (r: seq<Hash>)
    ensures |r| == |entries| && forall i :: 0 <= i < |r| ==> r[i] == entries[i].hash
  {
    seq(|entries|, i requires 0 <= i < |entries| => entries[i].hash)
  }

  function Others(pool: map<Hash, Block>, parent: Hash): map<Hash, Block> {
    map h | h in pool && pool[h].header.prevBlock != parent :: pool[h]
  }

  /** All children of `parent` in the pool, in byte order of their hashes. */
  ghost predicate IsListing(entries: seq<OrphanEntry>, pool: map<Hash, Block>, parent: Hash) {
    && InOrder(EntryHashes(entries)) && HashSet(EntryHashes(entries)) == pool.Keys - Others(pool, parent).Keys
    && forall i :: 0 <= i < |entries| ==>
         && entries[i].hash in pool && entries[i].block == pool[entries[i].hash]
         && entries[i].block.header.prevBlock == parent
  }

  lemma {:induction false} OthersAreOk(c: Crypto, pool: map<Hash, Block>, parent: Hash)
    requires OrphansOk(c, pool)
    ensures OrphansOk(c, Others(pool, parent))
  {
  }

  lemma {:induction false} PoolSplits(pool: map<Hash, Block>, gone: set<Hash>)
    requires gone <= pool.Keys
    ensures |pool - gone| + |gone| == |pool|
  {
    assert (pool - gone).Keys == pool.Keys - gone;
    assert |pool.Keys - gone| + |gone| == |pool.Keys|;
  }

  ghost predicate Distinct(xs: seq<Hash>) {
    forall i, j :: 0 <= i < j < |xs| ==> xs[i] != xs[j]
  }

  /** A known block none of whose children can be on the main chain. */
  ghost predicate Frontier(ix: Index, v: View, q: Hash) {
    q in ix && q in v.heightOf && (q == v.tip || OffMain(v.at, q))
  }

  ghost predicate QueueOk(ix: Index, v: View, queue: seq<Hash>) {
    Distinct(queue) && forall i :: 0 <= i < |queue| ==> Frontier(ix, v, queue[i])
  }

  /** Children of `parent`, taken from the pool, that are not on the main chain and not in the queue. */
  ghost predicate EntriesOk(c: Crypto, at: map<nat, Hash>, parent: Hash, entries: seq<OrphanEntry>, queue: seq<Hash>) {
    && Distinct(EntryHashes(entries))
    && forall i :: 0 <= i < |entries| ==>
         && c.blockId(entries[i].block.header) == entries[i].hash && entries[i].block.header.prevBlock == parent
         && OffMain(at, entries[i].hash) && entries[i].hash !in queue
  }

  /** A child of a frontier block is not on the main chain. */
  lemma {:induction false} ChildOffMain(c: Crypto, p: ChainParams, ix: Index, v: View, parent: Hash, b: Block)
    requires EnvOk(c, p) && TreeOk(c, p, ix) && ViewOk(c, p, ix, v)
    requires Frontier(ix, v, parent) && b.header.prevBlock == parent
    ensures OffMain(v.at, c.blockId(b.header))
  {
    hide TreeOk, Good, CoinsAt, EnvOk;
    StoredIsNotZero(c, p, ix, parent);
    forall i | i in v.at ensures v.at[i] != c.blockId(b.header) {
      MainAt(ix, v.at, v.height, v.tip, i);
      if i > 0 { MainAt(ix, v.at, v.height, v.tip, i - 1); }
      if v.at[i] == c.blockId(b.header) { SameHeader(c, p, ix, v.at[i], b); }
    }
  }

  lemma {:induction false} SameHeader(c: Crypto, p: ChainParams, ix: Index, h: Hash, b: Block)
    requires EnvOk(c, p) && TreeOk(c, p, ix) && h in ix && c.blockId(b.header) == h
    ensures ix[h].block.header == b.header && (ix[h].height == 0 ==> Prev(ix[h]) == ZERO_HASH)
  {
    assert LinkedAt(ix, h) && NodeOk(c, p, ix, h);
  }

  /** What was known stays known, except the block in hand. */
  ghost predicate StaysKnown(heightOf: map<Hash, nat>, heightOf': map<Hash, nat>, h: Hash) {
    heightOf.Keys - {h} <= heightOf'.Keys
  }

  lemma {:induction false} QueueStable(ix: Index, ix': Index, v: View, v': View, queue: seq<Hash>, h: Hash)
    requires QueueOk(ix, v, queue) && Extends(ix, ix') && h !in queue
    requires v'.at == v.at && v'.tip == v.tip && StaysKnown(v.heightOf, v'.heightOf, h)
    ensures QueueOk(ix', v', queue)
  {
    hide OffMain;
    forall i | 0 <= i < |queue| ensures Frontier(ix', v', queue[i]) {
      assert Frontier(ix, v, queue[i]) && queue[i] in queue;
    }
  }

  lemma {:induction false} QueuePush(ix: Index, v: View, queue: seq<Hash>, h: Hash)
    requires QueueOk(ix, v, queue) && Frontier(ix, v, h) && h !in queue
    ensures QueueOk(ix, v, queue + [h])
  {
    hide OffMain;
  }

  /** Extending the tip by a child of it keeps every other frontier block on the frontier. */
  lemma {:induction false} QueueExtend(ix: Index, ix': Index, v: View, v': View, n: nat, queue: seq<Hash>, h: Hash)
    requires QueueOk(ix, v, queue) && Extends(ix, ix') && v.tip !in queue && h in ix' && h !in queue
    requires v'.at == v.at[n := h] && v'.tip == h && h in v'.heightOf && StaysKnown(v.heightOf, v'.heightOf, h)
    ensures QueueOk(ix', v', queue + [h])
    ensures forall x :: x != h && OffMain(v.at, x) ==> OffMain(v'.at, x)
  {
    forall i | 0 <= i < |queue| ensures Frontier(ix', v', queue[i]) {
      assert Frontier(ix, v, queue[i]) && queue[i] in queue;
    }
  }

  lemma {:induction false} FirstEntry(c: Crypto, at: map<nat, Hash>, parent: Hash, entries: seq<OrphanEntry>, queue: seq<Hash>)
    requires EntriesOk(c, at, parent, entries, queue) && entries != []
    ensures EntriesOk(c, at, parent, [entries[0]], queue)
  {
    hide OffMain;
  }

  lemma {:induction false} OtherEntries(c: Crypto, at: map<nat, Hash>, at': map<nat, Hash>, parent: Hash,
                                        entries: seq<OrphanEntry>, queue: seq<Hash>, queue': seq<Hash>)
    requires EntriesOk(c, at, parent, entries, queue) && entries != []
    requires queue' == queue || queue' == queue + [entries[0].hash]
    requires forall x :: x != entries[0].hash && OffMain(at, x) ==> OffMain(at', x)
    ensures EntriesOk(c, at', parent, entries[1..], queue')
  {
    hide OffMain;
    var rest := entries[1..];
    forall i | 0 <= i < |rest| ensures rest[i].hash != entries[0].hash {
      assert EntryHashes(entries)[0] != EntryHashes(entries)[i + 1];
    }
    forall i, j | 0 <= i < j < |rest| ensures rest[i].hash != rest[j].hash {
      assert EntryHashes(entries)[i + 1] != EntryHashes(entries)[j + 1];
    }
  }

  lemma {:induction false} EntryListed(entries: seq<OrphanEntry>, i: nat)
    requires i < |entries|
    ensures entries[i].hash in EntryHashes(entries) && entries[i].hash in HashSet(EntryHashes(entries))
  {
    assert EntryHashes(entries)[i] == entries[i].hash;
  }

  lemma {:induction false} Pushed(queue: seq<Hash>, queue': seq<Hash>, h: Hash, outcome: Option<Outcome>)
    requires queue' == QueueAfter(queue, h, outcome)
    ensures HashSet(queue') <= HashSet(queue) + {h} && |queue'| <= |queue| + 1
    ensures outcome.Some? && Admits(outcome.value) && !outcome.value.DeepSideChain? ==> h in HashSet(queue')
    ensures if outcome == Some(Reorganized) then queue' == [h]
            else HashSet(queue) <= HashSet(queue') && (queue' == queue || queue' == queue + [h])
  {
  }

  lemma {:induction false} QueuePop(ix: Index, v: View, queue: seq<Hash>)
    requires QueueOk(ix, v, queue) && queue != []
    ensures QueueOk(ix, v, queue[1..]) && queue[0] !in queue[1..] && Frontier(ix, v, queue[0])
    ensures HashSet(queue) == HashSet(queue[1..]) + {queue[0]}
  {
    hide OffMain;
    assert queue == [queue[0]] + queue[1..];
  }

  /** What the pool lists for a parent from the queue can be handled. */
  lemma {:induction false} ListingIsOk(c: Crypto, p: ChainParams, ix: Index, v: View, pool: map<Hash, Block>,
                                       queue: seq<Hash>, entries: seq<OrphanEntry>)
    requires EnvOk(c, p) && TreeOk(c, p, ix) && ViewOk(c, p, ix, v) && OrphansOk(c, pool)
    requires queue != [] && QueueOk(ix, v, queue) && HashSet(queue) !! pool.Keys
    requires IsListing(entries, pool, queue[0])
    ensures EntriesOk(c, v.at, queue[0], entries, queue[1..]) && queue[0] !in EntryHashes(entries)
  {
    hide EnvOk, TreeOk, ViewOk, OffMain;
    var parent := queue[0];
    QueuePop(ix, v, queue);
    forall i | 0 <= i < |entries|
      ensures c.blockId(entries[i].block.header) == entries[i].hash && OffMain(v.at, entries[i].hash)
      ensures entries[i].hash !in queue
    {
      ChildOffMain(c, p, ix, v, parent, entries[i].block);
      assert entries[i].hash !in HashSet(queue);
    }
    forall i, j | 0 <= i < j < |entries| ensures entries[i].hash != entries[j].hash {
      BytesLessTrichotomy(EntryHashes(entries)[i], EntryHashes(entries)[j]);
    }
  }

  ghost predicate SubPool(pool: map<Hash, Block>, pool0: map<Hash, Block>) {
    forall h :: h in pool ==> h in pool0 && pool[h] == pool0[h]
  }

  /** What is left of a pool once the children of the settled blocks are gone. */
  function Unsettled(pool: map<Hash, Block>, settled: set<Hash>): map<Hash, Block> {
    map h | h in pool && pool[h].header.prevBlock !in settled :: pool[h]
  }

  lemma {:induction false} SettleOne(pool: map<Hash, Block>, settled: set<Hash>, parent: Hash)
    ensures Others(Unsettled(pool, settled), parent) == Unsettled(pool, settled + {parent})
    ensures SubPool(Unsettled(pool, settled), pool) && Unsettled(pool, {}) == pool
  {
  }

  /** Room is made by dropping the expired, and one more only from a pool that is still full. */
  ghost predicate RoomMade(pool: map<Hash, Block>, expired: set<Hash>, cap: nat, room: map<Hash, Block>) {
    exists gone: set<Hash> :: |gone| <= 1 && room == (pool - expired) - gone && (gone == {} || |pool - expired| >= cap)
  }

  lemma {:induction false} RoomIs(pool: map<Hash, Block>, expired: set<Hash>, cap: nat, gone: set<Hash>)
    requires |gone| <= 1 && (gone == {} || |pool - expired| >= cap)
    ensures RoomMade(pool, expired, cap, (pool - expired) - gone)
  {
  }

  /** The pool after room was made and the block put in. */
  ghost predicate Joined(pool: map<Hash, Block>, expired: set<Hash>, h: Hash, b: Block, pool': map<Hash, Block>) {
    exists room :: RoomMade(pool, expired, MAX_ORPHAN_BLOCKS, room) && pool' == room[h := b]
  }

  lemma {:induction false} JoinedIs(pool: map<Hash, Block>, expired: set<Hash>, h: Hash, b: Block, room: map<Hash, Block>)
    requires RoomMade(pool, expired, MAX_ORPHAN_BLOCKS, room)
    ensures Joined(pool, expired, h, b, room[h := b]) && SubPool(room, pool)
  {
    hide RoomMade;
    RoomIsSub(pool, expired, room);
  }

  lemma {:induction false} RoomIsSub(pool: map<Hash, Block>, expired: set<Hash>, room: map<Hash, Block>)
    requires RoomMade(pool, expired, MAX_ORPHAN_BLOCKS, room)
    ensures SubPool(room, pool)
  {
  }

  /** So nothing is in the pool that was not there before, except the block. */
  lemma {:induction false} JoinedSub(pool: map<Hash, Block>, expired: set<Hash>, h: Hash, b: Block, pool': map<Hash, Block>)
    requires Joined(pool, expired, h, b, pool')
    ensures h in pool' && pool'[h] == b && forall k :: k in pool' && k != h ==> k in pool && pool'[k] == pool[k]
  {
    hide RoomMade;
    var room :| RoomMade(pool, expired, MAX_ORPHAN_BLOCKS, room) && pool' == room[h := b];
    RoomIsSub(pool, expired, room);
  }

  // --------------------------------------------------------------------- the fate of an orphan

  /** Where a handled orphan may go in the queue: behind it, alone in it, or nowhere. */
  function QueueAfter(queue: seq<Hash>, h: Hash, outcome: Option<Outcome>): seq<Hash> {
    match outcome
    case Some(Extended) => queue + [h]
    case Some(SideChain) => queue + [h]
    case Some(Reorganized) => [h]
    case _ => queue
  }

  /** A handled orphan is admitted, breaks a rule, or is stored and could not be switched to: its branch is invalid or undo data was missing. */
  ghost predicate Fated(c: Crypto, p: ChainParams, ix: Index, admitted: set<Hash>, undoable: bool, h: Hash, b: Block, now: u32) {
    h in admitted || Refusable(c, p, ix, h, b, now) || (h in ix && (!Good(c, p, ix, h) || !undoable))
  }

  /** Whatever is decided about a block with a known parent, that is its fate. */
  lemma {:induction false} DueFate(c: Crypto, p: ChainParams, ix: Index, ix': Index, undo: map<Hash, Undo>, v: View, admitted: set<Hash>,
                                   h: Hash, b: Block, now: u32)
    requires ViewOk(c, p, ix, v) && Linked(ix) && Sane(p) && b.header.prevBlock in ix
    requires var r := Due(c, p, ix, undo, v, h, b, now);
             ix' == (if r.Rejected? then ix else ix[h := ChildRec(ix, b)]) && (Admits(r) ==> h in admitted)
    ensures Fated(c, p, ix', admitted, MainHasUndo(v.at, undo), h, b, now)
    ensures Due(c, p, ix, undo, v, h, b, now).ReorgFailed? ==> h in ix' && (!MainHasUndo(v.at, undo) || !Good(c, p, ix', h))
  {
    hide ViewOk, Refusable, Good, Due, ForkOf, MainHasUndo, UndoMissing, Linked, Sane;
    var r := Due(c, p, ix, undo, v, h, b, now);
    DueMeans(c, p, ix, undo, v, h, b, now);
    if r.Rejected? {
      Rejection(c, p, ix, undo, v, h, b, now);
    } else if r.ReorgFailed? && MainHasUndo(v.at, undo) {
      NothingMissing(v.at, undo, ForkOf(ix, v, b));
    }
  }

  lemma {:induction false} Rejection(c: Crypto, p: ChainParams, ix: Index, undo: map<Hash, Undo>, v: View, h: Hash, b: Block, now: u32)
    requires ViewOk(c, p, ix, v) && Linked(ix) && Sane(p) && b.header.prevBlock in ix
    requires Due(c, p, ix, undo, v, h, b, now).Rejected?
    ensures Refusable(c, p, ix, h, b, now)
  {
    hide ViewOk, Refusable, Acceptable, Beats, SwitchFails;
    RejectedIsRefusable(c, p, ix, v, h, b, now);
  }

  lemma {:induction false} FatedStays(c: Crypto, p: ChainParams, ix: Index, ix': Index, admitted: set<Hash>, admitted': set<Hash>,
                                      undoable: bool, undoable': bool, h: Hash, b: Block, now: u32)
    requires Fated(c, p, ix, admitted, undoable, h, b, now)
    requires Linked(ix) && Linked(ix') && Extends(ix, ix') && admitted <= admitted' && (undoable' ==> undoable)
    ensures Fated(c, p, ix', admitted', undoable', h, b, now)
  {
    hide Refusable, ChainOk, Linked;
    if Refusable(c, p, ix, h, b, now) { RefusableStays(c, p, ix, ix', h, b, now); }
    if h in ix && !Good(c, p, ix, h) { PathStable(ix, ix', h); }
  }

  // ------------------------------------------------------------------------- interrupted runs

  /** How much of the log can be started from, and whether a failed switch tore disk and memory apart at its end. */
  datatype Safety = Safety(usable: nat, torn: bool)

  /** Every disk up to `usable` can be started from: all of them, or those up to the first failed switch. */
  ghost predicate SafeLog(c: Crypto, p: ChainParams, log: seq<Disk>, from: nat, s: Safety) {
    && from <= s.usable <= |log| && AllRecoverable(c, p, log[..s.usable], from)
    && if s.torn then TornAt(c, p, log, s.usable) else s.usable == |log|
  }

  /** The disk before position `n` of the log is what a failed switch left of an earlier one. */
  ghost predicate TornAt(c: Crypto, p: ChainParams, log: seq<Disk>, n: nat) {
    n <= |log| && exists j :: 0 <= j < n - 1 && FailedSwitch(c, p, log[j], log[n - 1])
  }

  lemma {:induction false} SafeSoFar(c: Crypto, p: ChainParams, log: seq<Disk>, from: nat, torn: bool)
    requires from <= |log| && AllRecoverable(c, p, log, from)
    requires torn ==> TornAt(c, p, log, |log|)
    ensures SafeLog(c, p, log, from, Safety(|log|, torn))
  {
    hide TornAt;
    assert log[..|log|] == log;
  }

  /** One step after another: the first tear counts. */
  lemma {:induction false} SafeJoin(c: Crypto, p: ChainParams, log: seq<Disk>, log': seq<Disk>, from: nat, s: Safety, t: Safety)
    requires log <= log' && SafeLog(c, p, log, from, s) && (!s.torn ==> SafeLog(c, p, log', |log|, t))
    ensures SafeLog(c, p, log', from, if s.torn then s else t)
  {
    hide Recoverable, FailedSwitch;
    if s.torn {
      assert log'[..s.usable] == log[..s.usable];
      var j :| 0 <= j < s.usable - 1 && FailedSwitch(c, p, log[j], log[s.usable - 1]);
      assert log'[j] == log[j] && log'[s.usable - 1] == log[s.usable - 1];
    } else {
      assert log[..|log|] == log;
      forall i | from <= i < t.usable ensures Recoverable(c, p, log'[..t.usable][i]) {
        if i < |log| { assert log'[i] == log[i]; }
      }
    }
  }

  lemma {:induction false} SafeJoinIf(c: Crypto, p: ChainParams, sync: bool, log: seq<Disk>, log': seq<Disk>, from: nat, s: Safety, t: Safety)
    requires sync ==> log <= log' && SafeLog(c, p, log, from, s) && (!s.torn ==> SafeLog(c, p, log', |log|, t))
    ensures sync ==> SafeLog(c, p, log', from, if s.torn then s else t)
  {
    hide SafeLog;
    if sync { SafeJoin(c, p, log, log', from, s, t); }
  }
}
