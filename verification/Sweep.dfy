/** The sweep through the orphan pool after a block is connected, round by round, and what it leaves behind (internal/chain/chain.go). */
module Sweep {
  import opened Types
  import opened Params
  import opened Utxo
  import opened TxValidation
  import opened Target
  import opened BlockRules
  import opened History
  import opened Headers
  import opened BlockTree
  import opened ChainState
  import opened ForkChoice
  import opened Decision
  import opened OrphanQueue

  /** A block that was handled: where in the log the disk is that it met, and what became of it. */
  datatype Event = Event(hash: Hash, block: Block, met: nat, outcome: Outcome)

  /** The children of one parent, as far as they were handled. */
  datatype Round = Round(parent: Hash, events: seq<Event>)

  // ----------------------------------------------------------------------------- one event

  /** What is due to a block on this disk. */
  ghost predicate DueAt(c: Crypto, p: ChainParams, d: Disk, h: Hash, b: Block, now: u32, r: Outcome) {
    exists v :: ViewOk(c, p, d.index, v) && d.tip == Some(v.tip) && Due(c, p, d.index, d.undo, v, h, b, now) == r
  }

  /** Each was due on the disk it met, and they met them in the order of the log. */
  ghost predicate EventsOk(c: Crypto, p: ChainParams, log: seq<Disk>, from: nat, clock: Hash -> u32, es: seq<Event>) {
    && (forall e :: e in es ==> from <= e.met < |log| && DueAt(c, p, log[e.met], e.hash, e.block, clock(e.hash), e.outcome))
    && (forall i, j :: 0 <= i < j < |es| ==> es[i].met <= es[j].met)
  }

  ghost predicate EventsFated(c: Crypto, p: ChainParams, ix: Index, admitted: set<Hash>, undoable: bool, clock: Hash -> u32, es: seq<Event>) {
    forall e :: e in es ==> Fated(c, p, ix, admitted, undoable, e.hash, e.block, clock(e.hash))
  }

  ghost function AdmittedBy(es: seq<Event>): set<Hash> {
    set e | e in es && Admits(e.outcome) :: e.hash
  }

  /** The block joins the queue. */
  predicate Queues(r: Outcome) {
    r.Extended? || r.SideChain? || r.Reorganized?
  }

  ghost function QueuedBy(es: seq<Event>): set<Hash> {
    set e | e in es && Queues(e.outcome) :: e.hash
  }

  /** Why a block is known: it was before, an event admitted it, or a reorganisation went through it. */
  ghost predicate KnownBy(ix: Index, known: set<Hash>, es: seq<Event>, x: Hash) {
    x in known || x in AdmittedBy(es) || exists e :: e in es && e.outcome.Reorganized? && OnWay(ix, e.hash, x)
  }

  ghost predicate AllKnownBy(ix: Index, known: set<Hash>, es: seq<Event>, known': set<Hash>) {
    forall x :: x in known' ==> KnownBy(ix, known, es, x)
  }

  lemma {:induction false} OnWayStays(ix: Index, ix': Index, h: Hash, x: Hash)
    requires OnWay(ix, h, x) && Linked(ix') && Extends(ix, ix')
    ensures OnWay(ix', h, x)
  {
    hide Linked;
    PathStable(ix, ix', h);
    PathStable(ix, ix', x);
  }

  lemma {:induction false} NoEvents(c: Crypto, p: ChainParams, ix: Index, log: seq<Disk>, from: nat, admitted: set<Hash>, undoable: bool,
                                    clock: Hash -> u32, known: set<Hash>)
    ensures EventsOk(c, p, log, from, clock, []) && EventsFated(c, p, ix, admitted, undoable, clock, [])
    ensures AdmittedBy([]) == {} && AllKnownBy(ix, known, [], known)
  {
    hide DueAt, Fated, OnWay;
  }

  lemma {:induction false} OneEvent(c: Crypto, p: ChainParams, ix: Index, log: seq<Disk>, from: nat, admitted: set<Hash>, undoable: bool,
                                    clock: Hash -> u32, e: Event)
    requires from <= e.met < |log| && DueAt(c, p, log[e.met], e.hash, e.block, clock(e.hash), e.outcome)
    requires Fated(c, p, ix, admitted, undoable, e.hash, e.block, clock(e.hash))
    ensures EventsOk(c, p, log, from, clock, [e]) && EventsFated(c, p, ix, admitted, undoable, clock, [e])
    ensures AdmittedBy([e]) == if Admits(e.outcome) then {e.hash} else {}
  {
    hide DueAt, Fated;
    assert e in [e];
  }

  /** Earlier events and later ones. */
  lemma {:induction false} EventsJoin(c: Crypto, p: ChainParams, log: seq<Disk>, log': seq<Disk>, from: nat, mid: nat, clock: Hash -> u32,
                                      es: seq<Event>, more: seq<Event>)
    requires EventsOk(c, p, log, from, clock, es) && EventsOk(c, p, log', mid, clock, more) && log <= log' && from <= mid && |log| <= mid + 1
    ensures EventsOk(c, p, log', from, clock, es + more)
    ensures AdmittedBy(es + more) == AdmittedBy(es) + AdmittedBy(more)
    ensures QueuedBy(es + more) == QueuedBy(es) + QueuedBy(more)
  {
    hide DueAt;
    forall e | e in es + more ensures from <= e.met < |log'| && DueAt(c, p, log'[e.met], e.hash, e.block, clock(e.hash), e.outcome) {
      if e in es { assert log'[e.met] == log[e.met]; }
    }
    forall i, j | 0 <= i < j < |es + more| ensures (es + more)[i].met <= (es + more)[j].met {
      if i < |es| <= j { assert es[i] in es && more[j - |es|] in more; }
    }
  }

  lemma {:induction false} FatesJoin(c: Crypto, p: ChainParams, ix: Index, ix': Index, admitted: set<Hash>, admitted': set<Hash>,
                                     undoable: bool, undoable': bool, clock: Hash -> u32, es: seq<Event>, more: seq<Event>)
    requires EventsFated(c, p, ix, admitted, undoable, clock, es) && EventsFated(c, p, ix', admitted', undoable', clock, more)
    requires Linked(ix) && Linked(ix') && Extends(ix, ix') && admitted <= admitted' && (undoable ==> undoable')
    ensures EventsFated(c, p, ix', admitted', undoable, clock, es + more)
  {
    hide Fated, Linked, Extends;
    ExtendsItself(ix');
    forall e | e in es + more ensures Fated(c, p, ix', admitted', undoable, e.hash, e.block, clock(e.hash)) {
      if e in es {
        FatedStays(c, p, ix, ix', admitted, admitted', undoable, undoable, e.hash, e.block, clock(e.hash));
      } else {
        FatedStays(c, p, ix', ix', admitted', admitted', undoable', undoable, e.hash, e.block, clock(e.hash));
      }
    }
  }

  lemma {:induction false} KnownJoin(ix: Index, ix': Index, known: set<Hash>, known1: set<Hash>, known2: set<Hash>, es: seq<Event>, more: seq<Event>)
    requires AllKnownBy(ix, known, es, known1) && AllKnownBy(ix', known1, more, known2)
    requires Linked(ix') && Extends(ix, ix')
    ensures AllKnownBy(ix', known, es + more, known2)
  {
    hide Linked, OnWay, Extends;
    forall x | x in known2 ensures KnownBy(ix', known, es + more, x) {
      if x in AdmittedBy(more) {
      } else if x in known1 {
        assert KnownBy(ix, known, es, x);
        if e :| e in es && e.outcome.Reorganized? && OnWay(ix, e.hash, x) {
          OnWayStays(ix, ix', e.hash, x);
          assert e in es + more;
        }
      } else {
        assert KnownBy(ix', known1, more, x);
        var e :| e in more && e.outcome.Reorganized? && OnWay(ix', e.hash, x);
        assert e in es + more;
      }
    }
  }

  // ----------------------------------------------------------------------------- a story

  /** What events tell of a node: the disks it logged, the stored tree, what was admitted, whether it can undo, what it knows. */
  datatype Chapter = Chapter(log: seq<Disk>, index: Index, admitted: set<Hash>, undoable: bool, known: set<Hash>)

  function Newest(log: seq<Disk>): nat {
    if log == [] then 0 else |log| - 1
  }

  /** The events lead from `a` to `b`: each was due on the disk it met and is fated, and they say what is admitted and known. */
  ghost predicate Story(c: Crypto, p: ChainParams, a: Chapter, b: Chapter, clock: Hash -> u32, es: seq<Event>) {
    && a.log != [] && a.log <= b.log && Linked(a.index) && Linked(b.index) && Extends(a.index, b.index) && (a.undoable ==> b.undoable)
    && EventsOk(c, p, b.log, Newest(a.log), clock, es) && EventsFated(c, p, b.index, b.admitted, a.undoable, clock, es)
    && b.admitted == a.admitted + AdmittedBy(es) && AllKnownBy(b.index, a.known, es, b.known)
  }

  lemma {:induction false} StoryBegins(c: Crypto, p: ChainParams, a: Chapter, clock: Hash -> u32)
    requires a.log != [] && Linked(a.index)
    ensures Story(c, p, a, a, clock, [])
  {
    hide EventsOk, EventsFated, AdmittedBy, AllKnownBy, Linked;
    NoEvents(c, p, a.index, a.log, Newest(a.log), a.admitted, a.undoable, clock, a.known);
  }

  lemma {:induction false} StoryOfOne(c: Crypto, p: ChainParams, a: Chapter, b: Chapter, clock: Hash -> u32, e: Event)
    requires a.log != [] && a.log <= b.log && Linked(a.index) && Linked(b.index) && Extends(a.index, b.index) && (a.undoable ==> b.undoable)
    requires e.met == Newest(a.log) && DueAt(c, p, a.log[|a.log| - 1], e.hash, e.block, clock(e.hash), e.outcome)
    requires Fated(c, p, b.index, b.admitted, a.undoable, e.hash, e.block, clock(e.hash))
    requires b.admitted == if Admits(e.outcome) then a.admitted + {e.hash} else a.admitted
    requires AllKnownBy(b.index, a.known, [e], b.known)
    ensures Story(c, p, a, b, clock, [e])
  {
    hide DueAt, Fated, EventsOk, EventsFated, AdmittedBy, AllKnownBy, Linked, Extends;
    assert b.log[e.met] == a.log[e.met];
    OneEvent(c, p, b.index, b.log, Newest(a.log), b.admitted, a.undoable, clock, e);
  }

  lemma {:induction false} StoryGoesOn(c: Crypto, p: ChainParams, a: Chapter, b: Chapter, d: Chapter, clock: Hash -> u32,
                                       es: seq<Event>, more: seq<Event>)
    requires Story(c, p, a, b, clock, es) && Story(c, p, b, d, clock, more)
    ensures Story(c, p, a, d, clock, es + more) && a.admitted <= b.admitted <= d.admitted
  {
    hide EventsOk, EventsFated, AdmittedBy, AllKnownBy, Linked, QueuedBy;
    EventsJoin(c, p, b.log, d.log, Newest(a.log), Newest(b.log), clock, es, more);
    FatesJoin(c, p, b.index, d.index, b.admitted, d.admitted, a.undoable, b.undoable, clock, es, more);
    KnownJoin(b.index, d.index, a.known, b.known, d.known, es, more);
  }

  // ----------------------------------------------------------------------------- one round

  ghost function QueueThrough(queue: seq<Hash>, es: seq<Event>): seq<Hash> {
    if es == [] then queue
    else QueueAfter(QueueThrough(queue, es[..|es| - 1]), es[|es| - 1].hash, Some(es[|es| - 1].outcome))
  }

  /** The first of the listed children, none of which reorganised the chain, except perhaps the last. */
  ghost predicate Handling(entries: seq<OrphanEntry>, es: seq<Event>) {
    && |es| <= |entries|
    && (forall i :: 0 <= i < |es| ==> es[i].hash == entries[i].hash && es[i].block == entries[i].block)
    && (forall i :: 0 <= i < |es| - 1 ==> !es[i].outcome.Reorganized?)
  }

  /** The last event reorganised the chain. */
  predicate Resets(es: seq<Event>) {
    es != [] && es[|es| - 1].outcome.Reorganized?
  }

  /** All children of the first in the queue, in byte order, or up to one that reorganises the chain. */
  ghost predicate RoundOk(pool: map<Hash, Block>, queue: seq<Hash>, r: Round) {
    && queue != [] && r.parent == queue[0]
    && exists entries :: IsListing(entries, pool, r.parent) && Handling(entries, r.events) && (|r.events| == |entries| || Resets(r.events))
  }

  lemma {:induction false} HandlingNext(entries: seq<OrphanEntry>, es: seq<Event>, queue: seq<Hash>, e: Event)
    requires Handling(entries, es) && !Resets(es) && |es| < |entries|
    requires e.hash == entries[|es|].hash && e.block == entries[|es|].block
    ensures Handling(entries, es + [e]) && (Resets(es + [e]) <==> e.outcome.Reorganized?)
    ensures QueueThrough(queue, es + [e]) == QueueAfter(QueueThrough(queue, es), e.hash, Some(e.outcome))
  {
    assert (es + [e])[..|es|] == es;
  }

  // ---------------------------------------------------------------------------- the rounds

  function Parents(rounds: seq<Round>): set<Hash> {
    if rounds == [] then {} else Parents(rounds[..|rounds| - 1]) + {rounds[|rounds| - 1].parent}
  }

  function Flat(rounds: seq<Round>): seq<Event> {
    if rounds == [] then [] else Flat(rounds[..|rounds| - 1]) + rounds[|rounds| - 1].events
  }

  ghost function QueueAt(queue: seq<Hash>, rounds: seq<Round>): seq<Hash> {
    if rounds == [] then queue else
    var before := QueueAt(queue, rounds[..|rounds| - 1]);
    if before == [] then [] else QueueThrough(before[1..], rounds[|rounds| - 1].events)
  }

  /** Round after round, each on the pool and the queue that the rounds before it left. */
  ghost predicate Played(pool: map<Hash, Block>, queue: seq<Hash>, rounds: seq<Round>) {
    rounds == [] ||
    var init := rounds[..|rounds| - 1];
    Played(pool, queue, init) && RoundOk(Unsettled(pool, Parents(init)), QueueAt(queue, init), rounds[|rounds| - 1])
  }

  lemma {:induction false} NextRound(pool: map<Hash, Block>, queue: seq<Hash>, rounds: seq<Round>, r: Round)
    requires Played(pool, queue, rounds) && RoundOk(Unsettled(pool, Parents(rounds)), QueueAt(queue, rounds), r)
    ensures Played(pool, queue, rounds + [r]) && Parents(rounds + [r]) == Parents(rounds) + {r.parent}
    ensures Flat(rounds + [r]) == Flat(rounds) + r.events
    ensures QueueAt(queue, rounds + [r]) == QueueThrough(QueueAt(queue, rounds)[1..], r.events)
    ensures Unsettled(pool, Parents(rounds + [r])) == Others(Unsettled(pool, Parents(rounds)), r.parent)
  {
    hide RoundOk;
    assert (rounds + [r])[..|rounds|] == rounds;
    RoundHasParent(Unsettled(pool, Parents(rounds)), QueueAt(queue, rounds), r);
    SettleOne(pool, Parents(rounds), r.parent);
  }

  lemma {:induction false} RoundHasParent(pool: map<Hash, Block>, queue: seq<Hash>, r: Round)
    requires RoundOk(pool, queue, r)
    ensures queue != [] && r.parent == queue[0]
  {
  }

  // ------------------------------------------------------------------- who leaves the pool

  /** A sibling with smaller hash bytes reorganised the chain, and the rest of the children was dropped. */
  ghost predicate PassedOver(pool: map<Hash, Block>, es: seq<Event>, h: Hash)
    requires h in pool
  {
    exists e :: e in es && e.outcome.Reorganized? && e.block.header.prevBlock == pool[h].header.prevBlock && BytesLess(e.hash, h)
  }

  ghost predicate WasHandled(pool: map<Hash, Block>, es: seq<Event>, h: Hash)
    requires h in pool
  {
    exists e :: e in es && e.hash == h && e.block == pool[h]
  }

  lemma {:induction false} RoundSettles(pool: map<Hash, Block>, queue: seq<Hash>, r: Round, h: Hash)
    requires RoundOk(pool, queue, r) && h in pool && pool[h].header.prevBlock == r.parent
    ensures WasHandled(pool, r.events, h) || PassedOver(pool, r.events, h)
  {
    hide BytesLess;
    var entries :| IsListing(entries, pool, r.parent) && Handling(entries, r.events) && (|r.events| == |entries| || Resets(r.events));
    assert h in HashSet(EntryHashes(entries));
    var i :| 0 <= i < |entries| && EntryHashes(entries)[i] == h;
    var es := r.events;
    if i < |es| {
      assert es[i] in es;
    } else {
      var j := |es| - 1;
      assert BytesLess(EntryHashes(entries)[j], EntryHashes(entries)[i]);
      assert es[j] in es;
    }
  }

  /** Every orphan that waited for a settled block was handled or passed over. */
  lemma {:induction false} AllSettle(pool: map<Hash, Block>, queue: seq<Hash>, rounds: seq<Round>, h: Hash)
    requires Played(pool, queue, rounds) && h in pool && pool[h].header.prevBlock in Parents(rounds)
    ensures WasHandled(pool, Flat(rounds), h) || PassedOver(pool, Flat(rounds), h)
  {
    hide RoundOk;
    var init, r := rounds[..|rounds| - 1], rounds[|rounds| - 1];
    if pool[h].header.prevBlock in Parents(init) {
      AllSettle(pool, queue, init, h);
      StillSo(pool, pool, Flat(init), r.events, h);
    } else {
      var rest := Unsettled(pool, Parents(init));
      RoundSettles(rest, QueueAt(queue, init), r, h);
      StillSo(rest, pool, Flat(init), r.events, h);
    }
  }

  lemma {:induction false} StillSo(pool: map<Hash, Block>, pool': map<Hash, Block>, es: seq<Event>, more: seq<Event>, h: Hash)
    requires h in pool && h in pool' && pool[h] == pool'[h]
    ensures WasHandled(pool, es, h) || WasHandled(pool, more, h) ==> WasHandled(pool', es + more, h)
    ensures PassedOver(pool, es, h) || PassedOver(pool, more, h) ==> PassedOver(pool', es + more, h)
  {
    hide BytesLess;
    forall e | e in es || e in more ensures e in es + more {}
  }

  /** Only orphans of the pool are handled, and only children of settled blocks. */
  lemma {:induction false} OnlyFromPool(pool: map<Hash, Block>, queue: seq<Hash>, rounds: seq<Round>, e: Event)
    requires Played(pool, queue, rounds) && e in Flat(rounds)
    ensures e.hash in pool && e.block == pool[e.hash] && e.block.header.prevBlock in Parents(rounds)
  {
    hide InOrder, EntryHashes, HashSet;
    var init, r := rounds[..|rounds| - 1], rounds[|rounds| - 1];
    if e in Flat(init) {
      OnlyFromPool(pool, queue, init, e);
    } else {
      var rest := Unsettled(pool, Parents(init));
      var entries: seq<OrphanEntry> :| IsListing(entries, rest, r.parent) && Handling(entries, r.events);
      var i :| 0 <= i < |r.events| && r.events[i] == e;
      assert entries[i].hash in rest;
    }
  }

  // ------------------------------------------------------------------------ who is settled

  lemma {:induction false} ThroughAdds(queue: seq<Hash>, es: seq<Event>)
    ensures HashSet(QueueThrough(queue, es)) <= HashSet(queue) + QueuedBy(es)
    ensures Resets(es) ==> QueueThrough(queue, es) == [es[|es| - 1].hash]
  {
    if es != [] {
      var init, e := es[..|es| - 1], es[|es| - 1];
      ThroughAdds(queue, init);
      assert es == init + [e];
      Pushed(QueueThrough(queue, init), QueueThrough(queue, es), e.hash, Some(e.outcome));
      assert QueuedBy(init) <= QueuedBy(es) && (Queues(e.outcome) ==> e.hash in QueuedBy(es));
    }
  }

  /** Only the block itself and blocks that joined the queue are settled. */
  lemma {:induction false} SettledWasQueued(pool: map<Hash, Block>, queue: seq<Hash>, rounds: seq<Round>)
    requires Played(pool, queue, rounds)
    ensures Parents(rounds) + HashSet(QueueAt(queue, rounds)) <= HashSet(queue) + QueuedBy(Flat(rounds))
  {
    hide RoundOk, HashSet, QueueThrough;
    if rounds != [] {
      var init, r := rounds[..|rounds| - 1], rounds[|rounds| - 1];
      SettledWasQueued(pool, queue, init);
      var q := QueueAt(queue, init);
      RoundHasParent(Unsettled(pool, Parents(init)), q, r);
      Popped(q);
      ThroughAdds(q[1..], r.events);
      QueuedJoin(Flat(init), r.events);
    }
  }

  lemma {:induction false} Popped(queue: seq<Hash>)
    requires queue != []
    ensures HashSet(queue) == HashSet(queue[1..]) + {queue[0]}
  {
    assert queue == [queue[0]] + queue[1..];
  }

  lemma {:induction false} QueuedJoin(es: seq<Event>, more: seq<Event>)
    ensures QueuedBy(es + more) == QueuedBy(es) + QueuedBy(more)
  {
  }

  /** No event from position `i` on reorganises the chain. */
  predicate Calm(es: seq<Event>, i: nat) {
    forall j :: i <= j < |es| ==> !es[j].outcome.Reorganized?
  }

  lemma {:induction false} ThroughKeeps(queue: seq<Hash>, es: seq<Event>, i: nat)
    requires Calm(es, i) && i <= |es|
    ensures i == 0 ==> HashSet(queue) <= HashSet(QueueThrough(queue, es))
    ensures 0 < i && Queues(es[i - 1].outcome) ==> es[i - 1].hash in HashSet(QueueThrough(queue, es))
  {
    if |es| > 0 {
      var init, e := es[..|es| - 1], es[|es| - 1];
      Pushed(QueueThrough(queue, init), QueueThrough(queue, es), e.hash, Some(e.outcome));
      if i < |es| { ThroughKeeps(queue, init, i); }
    }
  }

  lemma {:induction false} NoRounds(rounds: seq<Round>)
    ensures rounds == [] ==> Flat(rounds) == []
  {
  }

  lemma {:induction false} LastRound(pool: map<Hash, Block>, queue: seq<Hash>, rounds: seq<Round>)
    requires Played(pool, queue, rounds) && rounds != []
    ensures var init, r := rounds[..|rounds| - 1], rounds[|rounds| - 1];
            var q := QueueAt(queue, init);
            && Played(pool, queue, init) && q != [] && r.parent == q[0] && HashSet(q) == HashSet(q[1..]) + {r.parent}
            && QueueAt(queue, rounds) == QueueThrough(q[1..], r.events)
            && Flat(rounds) == Flat(init) + r.events && Parents(rounds) == Parents(init) + {r.parent}
            && forall i :: 0 <= i < |r.events| - 1 ==> !r.events[i].outcome.Reorganized?
  {
    hide QueueThrough, HashSet, IsListing;
    Popped(QueueAt(queue, rounds[..|rounds| - 1]));
  }

  /** What joined the queue and was not dropped by a later reorganisation is settled or still queued. */
  lemma {:induction false} QueuedIsSettled(pool: map<Hash, Block>, queue: seq<Hash>, rounds: seq<Round>, i: nat)
    requires Played(pool, queue, rounds) && i < |Flat(rounds)| && Queues(Flat(rounds)[i].outcome) && Calm(Flat(rounds), i + 1)
    ensures Flat(rounds)[i].hash in Parents(rounds) + HashSet(QueueAt(queue, rounds))
  {
    hide HashSet, QueueThrough, Played, QueueAt, Parents, Flat, Queues;
    NoRounds(rounds);
    var init, r := rounds[..|rounds| - 1], rounds[|rounds| - 1];
    LastRound(pool, queue, rounds);
    var q, n := QueueAt(queue, init), |Flat(init)|;
    assert forall j :: 0 <= j < |r.events| ==> r.events[j] == Flat(rounds)[n + j];
    if i < n {
      assert forall j :: i + 1 <= j < n ==> Flat(rounds)[j] == Flat(init)[j];
      QueuedIsSettled(pool, queue, init, i);
      ThroughKeeps(q[1..], r.events, 0);
    } else {
      ThroughKeeps(q[1..], r.events, i - n + 1);
    }
  }

  /** What reorganised the chain is settled, or the only one queued. */
  lemma {:induction false} ReorganizerIsSettled(pool: map<Hash, Block>, queue: seq<Hash>, rounds: seq<Round>, e: Event)
    requires Played(pool, queue, rounds) && e in Flat(rounds) && e.outcome.Reorganized?
    ensures e.hash in Parents(rounds) || QueueAt(queue, rounds) == [e.hash]
  {
    hide HashSet, QueueThrough, Played, QueueAt, Parents, Flat;
    NoRounds(rounds);
    var init, r := rounds[..|rounds| - 1], rounds[|rounds| - 1];
    LastRound(pool, queue, rounds);
    var q := QueueAt(queue, init);
    if e in Flat(init) {
      ReorganizerIsSettled(pool, queue, init, e);
    } else {
      var i :| 0 <= i < |r.events| && r.events[i] == e;
      ThroughAdds(q[1..], r.events);
    }
  }

  // ------------------------------------------------------------------------ what it comes to

  /** The whole sweep: from one parent until the queue is empty. */
  ghost predicate Swept(pool: map<Hash, Block>, parent: Hash, rounds: seq<Round>, pool': map<Hash, Block>) {
    Played(pool, [parent], rounds) && QueueAt([parent], rounds) == [] && pool' == Unsettled(pool, Parents(rounds))
  }

  lemma {:induction false} FirstIsSettled(pool: map<Hash, Block>, queue: seq<Hash>, rounds: seq<Round>)
    requires Played(pool, queue, rounds) && rounds != []
    ensures queue != [] && queue[0] in Parents(rounds)
  {
    hide QueueThrough, HashSet;
    LastRound(pool, queue, rounds);
    var init := rounds[..|rounds| - 1];
    if init != [] { FirstIsSettled(pool, queue, init); }
  }

  /** Exactly the children of settled blocks leave the pool, and each of them was handled or passed over. */
  lemma {:induction false} SweepEmpties(pool: map<Hash, Block>, parent: Hash, rounds: seq<Round>, pool': map<Hash, Block>, h: Hash)
    requires Swept(pool, parent, rounds, pool') && h in pool
    ensures h !in pool' <==> pool[h].header.prevBlock in Parents(rounds)
    ensures h !in pool' <==> WasHandled(pool, Flat(rounds), h) || PassedOver(pool, Flat(rounds), h)
  {
    hide Played, Parents, Flat, QueueAt, BytesLess;
    if pool[h].header.prevBlock in Parents(rounds) { AllSettle(pool, [parent], rounds, h); }
    forall e | e in Flat(rounds) ensures e.block.header.prevBlock in Parents(rounds) { OnlyFromPool(pool, [parent], rounds, e); }
  }

  /** Settled are the block itself and blocks that joined the queue, all of them except those dropped by a later reorganisation. */
  lemma {:induction false} SweepSettles(pool: map<Hash, Block>, parent: Hash, rounds: seq<Round>, pool': map<Hash, Block>)
    requires Swept(pool, parent, rounds, pool')
    ensures parent in Parents(rounds) && Parents(rounds) <= {parent} + QueuedBy(Flat(rounds))
    ensures forall i :: 0 <= i < |Flat(rounds)| && Queues(Flat(rounds)[i].outcome) && Calm(Flat(rounds), i + 1) ==>
              Flat(rounds)[i].hash in Parents(rounds)
    ensures forall e :: e in Flat(rounds) && e.outcome.Reorganized? ==> e.hash in Parents(rounds)
  {
    hide Played, Parents, Flat, QueueThrough, QueuedBy, Calm, Queues;
    assert rounds != [];
    FirstIsSettled(pool, [parent], rounds);
    SettledWasQueued(pool, [parent], rounds);
    forall i | 0 <= i < |Flat(rounds)| && Queues(Flat(rounds)[i].outcome) && Calm(Flat(rounds), i + 1)
      ensures Flat(rounds)[i].hash in Parents(rounds)
    {
      QueuedIsSettled(pool, [parent], rounds, i);
    }
    forall e | e in Flat(rounds) && e.outcome.Reorganized? ensures e.hash in Parents(rounds) {
      ReorganizerIsSettled(pool, [parent], rounds, e);
    }
  }

  /**
   * Why children of a known block may go on waiting: it was known before, it was kept beside the chain as too deep, it
   * was dropped from the queue by a later reorganisation, or a reorganisation went through it.
   */
  ghost predicate Stranded(ix: Index, known: set<Hash>, es: seq<Event>, x: Hash) {
    || x in known
    || (exists i :: 0 <= i < |es| && es[i].hash == x && (es[i].outcome.DeepSideChain? || (Queues(es[i].outcome) && !Calm(es, i + 1))))
    || exists e :: e in es && e.outcome.Reorganized? && OnWay(ix, e.hash, x)
  }

  /** There is no other reason. */
  lemma {:induction false} StillWaiting(pool: map<Hash, Block>, rounds: seq<Round>, pool': map<Hash, Block>, ix: Index, own: Event,
                                        known: set<Hash>, known': set<Hash>, h: Hash)
    requires Swept(pool, own.hash, rounds, pool') && AllKnownBy(ix, known, [own] + Flat(rounds), known')
    requires h in pool' && pool'[h].header.prevBlock in known'
    ensures Stranded(ix, known, [own] + Flat(rounds), pool'[h].header.prevBlock)
  {
    hide Played, Flat, QueueAt, OnWay, Calm, Queues;
    var es, x := Flat(rounds), pool'[h].header.prevBlock;
    var all := [own] + es;
    assert KnownBy(ix, known, all, x);
    SweepSettles(pool, own.hash, rounds, pool');
    if x !in known && x in AdmittedBy(all) {
      var e :| e in all && Admits(e.outcome) && e.hash == x;
      var i :| 0 <= i < |all| && all[i] == e;
      assert i > 0 && es[i - 1] == e;
      AdmitsOrDeep(e.outcome);
      if Calm(all, i + 1) { CalmShift(own, es, i); }
    }
  }

  lemma {:induction false} AdmitsOrDeep(r: Outcome)
    ensures Admits(r) <==> Queues(r) || r.DeepSideChain?
  {
  }

  lemma {:induction false} CalmShift(own: Event, es: seq<Event>, i: nat)
    requires Calm([own] + es, i + 1)
    ensures Calm(es, i)
  {
    forall j | i <= j < |es| ensures !es[j].outcome.Reorganized? { assert es[j] == ([own] + es)[j + 1]; }
  }

  /** Every orphan that left the pool met its fate, or a sibling before it reorganised the chain; settled blocks are admitted. */
  lemma {:induction false} SweepFates(c: Crypto, p: ChainParams, a: Chapter, b: Chapter, clock: Hash -> u32, own: Event,
                                      pool: map<Hash, Block>, rounds: seq<Round>, pool': map<Hash, Block>)
    requires Swept(pool, own.hash, rounds, pool') && Story(c, p, a, b, clock, [own] + Flat(rounds)) && Admits(own.outcome)
    ensures Parents(rounds) <= b.admitted
    ensures forall h :: h in pool && h !in pool' ==>
              Fated(c, p, b.index, b.admitted, a.undoable, h, pool[h], clock(h)) || PassedOver(pool, Flat(rounds), h)
  {
    hide Swept, Fated, DueAt, Parents, Flat, Linked, Extends, AllKnownBy, BytesLess, PassedOver;
    var es := Flat(rounds);
    assert ([own] + es)[0] == own;
    SweepSettles(pool, own.hash, rounds, pool');
    forall e | e in es ensures e in [own] + es {}
    forall h | h in pool && h !in pool' ensures Fated(c, p, b.index, b.admitted, a.undoable, h, pool[h], clock(h)) || PassedOver(pool, es, h) {
      SweepEmpties(pool, own.hash, rounds, pool', h);
      if e :| e in es && e.hash == h && e.block == pool[h] { assert e in [own] + es; }
    }
  }

  /** No orphan waits for a block that is known. */
  ghost predicate NoneOverdue(pool: map<Hash, Block>, known: set<Hash>) {
    forall h :: h in pool ==> pool[h].header.prevBlock !in known
  }

  /** Without a reorganisation and without a branch kept as too deep, none does afterwards if none did before. */
  lemma {:induction false} QuietSweep(ix: Index, own: Event, pool: map<Hash, Block>, rounds: seq<Round>, pool': map<Hash, Block>,
                                      known: set<Hash>, known': set<Hash>)
    requires Swept(pool, own.hash, rounds, pool') && AllKnownBy(ix, known, [own] + Flat(rounds), known') && NoneOverdue(pool, known)
    requires forall e :: e in [own] + Flat(rounds) ==> !e.outcome.Reorganized? && !e.outcome.DeepSideChain?
    ensures NoneOverdue(pool', known')
  {
    hide Played, Flat, QueueAt, AllKnownBy, OnWay, Queues;
    var es := [own] + Flat(rounds);
    forall h | h in pool' && pool'[h].header.prevBlock in known' ensures false {
      StillWaiting(pool, rounds, pool', ix, own, known, known', h);
      assert forall i :: 0 <= i < |es| ==> es[i] in es;
    }
  }

  // ---------------------------------------------------------------- one disk, one outcome

  /** On the main chain is what is listed by height, whatever else is known. */
  lemma {:induction false} OnMainIff(ix: Index, v: View, x: Hash)
    requires MainOk(ix, v.at, v.height, v.tip) && HeightsOk(ix, v.heightOf, v.at, v.height)
    ensures OnMain(v.heightOf, v.at, x) <==> !OffMain(v.at, x)
  {
  }

  lemma {:induction false} SameMain(ix: Index, at: map<nat, Hash>, at': map<nat, Hash>, n: nat, tip: Hash, i: nat)
    requires MainOk(ix, at, n, tip) && MainOk(ix, at', n, tip) && i <= n
    ensures at[i] == at'[i]
    decreases n - i
  {
    MainAt(ix, at, n, tip, i);
    MainAt(ix, at', n, tip, i);
    if i < n {
      MainAt(ix, at, n, tip, i + 1);
      MainAt(ix, at', n, tip, i + 1);
      SameMain(ix, at, at', n, tip, i + 1);
    }
  }

  lemma {:induction false} SameAncestor(ix: Index, v: View, v': View, x: Hash)
    requires Linked(ix) && x in ix && forall y :: OnMain(v.heightOf, v.at, y) <==> OnMain(v'.heightOf, v'.at, y)
    ensures MainAncestor(ix, v.heightOf, v.at, x) == MainAncestor(ix, v'.heightOf, v'.at, x)
    decreases ix[x].height
  {
    hide OnMain;
    assert LinkedAt(ix, x);
    if ix[x].height > 0 { SameAncestor(ix, v, v', Prev(ix[x])); }
  }

  /** A disk and its tip decide what is due to a block. */
  lemma {:induction false} OneOutcome(c: Crypto, p: ChainParams, d: Disk, h: Hash, b: Block, now: u32, r: Outcome, r': Outcome)
    requires DueAt(c, p, d, h, b, now, r) && DueAt(c, p, d, h, b, now, r')
    ensures r == r'
  {
    hide Due, ViewOk;
    var v :| ViewOk(c, p, d.index, v) && d.tip == Some(v.tip) && Due(c, p, d.index, d.undo, v, h, b, now) == r;
    var v' :| ViewOk(c, p, d.index, v') && d.tip == Some(v'.tip) && Due(c, p, d.index, d.undo, v', h, b, now) == r';
    SameDue(c, p, d.index, d.undo, v, v', h, b, now);
  }

  lemma {:induction false} SameDue(c: Crypto, p: ChainParams, ix: Index, undo: map<Hash, Undo>, v: View, v': View, h: Hash, b: Block, now: u32)
    requires ViewOk(c, p, ix, v) && ViewOk(c, p, ix, v') && v.tip == v'.tip
    ensures Due(c, p, ix, undo, v, h, b, now) == Due(c, p, ix, undo, v', h, b, now)
  {
    hide Good, CoinsAt, Linked, NewBlockOk, BlockInputsOk, Beats, CalcWork, OffMain, OnMain, MainAncestor, Sane, UndoMissing;
    var prev := b.header.prevBlock;
    ViewFacts(c, p, ix, v);
    ViewFacts(c, p, ix, v');
    SameChain(ix, v, v');
    forall y ensures OnMain(v.heightOf, v.at, y) <==> OnMain(v'.heightOf, v'.at, y) { OnMainIff(ix, v, y); OnMainIff(ix, v', y); }
    if prev in ix { SameAncestor(ix, v, v', prev); }
  }

  lemma {:induction false} SameChain(ix: Index, v: View, v': View)
    requires MainOk(ix, v.at, v.height, v.tip) && MainOk(ix, v'.at, v'.height, v'.tip) && v.tip == v'.tip && v.height == v'.height
    ensures v.at == v'.at
  {
    forall i: nat | i <= v.height ensures v.at[i] == v'.at[i] { SameMain(ix, v.at, v'.at, v.height, v.tip, i); }
    assert v.at.Keys == v'.at.Keys;
  }
}
