/**
  The life of blocks under implicit producers: any number of threads, each enqueueing to its
  own sub-queue and dequeueing, singly or in bulk, from any sub-queue, with one shared pool
  and free list of blocks.  Steps are atomic operations, interleaved in any order.

  The free list is the set of nodes given to it, which module FreeList shows to be handed out
  one owner at a time; try_get may also fail.  A block index is a map from block numbers (index
  divided by BLOCK_SIZE) to blocks, without the null entries; module ImplicitIndex shows that the
  ring of entries in the code gives what this map has.  A dequeue starts here with its
  fetch_add on headIndex, which module Tickets shows to stay within the tail.
 */
module ImplicitBlocks {
  import opened Basics

  /** A thread enqueueing to its own sub-queue, or dequeueing indices i up to end from sub-queue p. */
  datatype PC =
    | Idle
    | CheckRoom
    | InsertEntry
    | CheckPool
    | TakeFromPool
    | TryFreeList
    | Create
    | Reset(block: Block)
    | Attach(block: Block)
    | Store
    | Publish
    | Find(p: Thread, i: nat, end: nat)
    | SetEmpty(p: Thread, i: nat, end: nat, block: Block)
    | Detach(p: Thread, i: nat, end: nat, block: Block, number: nat)
    | Release(p: Thread, i: nat, end: nat, block: Block)

  datatype Sub = Sub(tail: nat, head: nat, tailBlock: Block, index: map<nat, Block>)

  /** Blocks below poolSize are the initial pool, of which those from poolIndex on are unused;
      blocks from poolSize up to created were allocated later. */
  datatype State = State(
    subs: map<Thread, Sub>,
    counters: map<Block, nat>,
    poolSize: nat,
    poolIndex: nat,
    created: nat,
    free: set<Block>,
    pcs: map<Thread, PC>)

  /** Enq resolves a started enqueue's next step: whether allocation succeeds, and what the free list hands out. */
  datatype Action =
    | StartEnqueue(thread: Thread)
    | Enq(thread: Thread, ok: bool, freed: Option<Block>)
    | Claim(thread: Thread, p: Thread, count: nat)
    | Deq(thread: Thread)

  function SubAt(subs: map<Thread, Sub>, p: Thread): Sub {
    if p in subs then subs[p] else Sub(0, 0, 0, map[])
  }

  function Counter(counters: map<Block, nat>, b: Block): nat {
    if b in counters then counters[b] else 0
  }

  function BlockOf(index: map<nat, Block>, k: nat): Block {
    if k in index then index[k] else 0
  }

  predicate Enqueueing(pc: PC) {
    !pc.Idle? && !Dequeueing(pc)
  }

  predicate Dequeueing(pc: PC) {
    pc.Find? || pc.SetEmpty? || pc.Detach? || pc.Release?
  }

  predicate Enabled(s: State, a: Action) {
    a.thread in s.pcs &&
    match a
    case StartEnqueue(t) => s.pcs[t] == Idle
    case Enq(t, _, freed) => Enqueueing(s.pcs[t]) && (freed.Some? ==> freed.value in s.free)
    case Claim(t, p, n) => s.pcs[t] == Idle && n > 0 && SubAt(s.subs, p).head + n <= SubAt(s.subs, p).tail
    case Deq(t) => Dequeueing(s.pcs[t])
  }

  function Apply(s: State, a: Action): State
    requires Enabled(s, a)
  {
    match a
    case StartEnqueue(t) =>
      s.(pcs := s.pcs[t := if SubAt(s.subs, t).tail % BLOCK_SIZE == 0 then CheckRoom else Store])
    case Enq(t, ok, freed) => EnqueueStep(s, t, s.pcs[t], ok, freed)
    case Claim(t, p, n) =>
      var q := SubAt(s.subs, p);
      s.(subs := s.subs[p := q.(head := q.head + n)], pcs := s.pcs[t := Find(p, q.head, q.head + n)])
    case Deq(t) => DequeueStep(s, t, s.pcs[t])
  }

  function EnqueueStep(s: State, t: Thread, pc: PC, ok: bool, freed: Option<Block>): State {
    var q := SubAt(s.subs, t);
    match pc
    case CheckRoom =>
      s.(pcs := s.pcs[t := if CircularLess(q.head, q.tail + BLOCK_SIZE) then InsertEntry else Idle])
    case InsertEntry =>
      s.(pcs := s.pcs[t := if ok then CheckPool else Idle])
    case CheckPool =>
      s.(pcs := s.pcs[t := if s.poolIndex >= s.poolSize then TryFreeList else TakeFromPool])
    case TakeFromPool =>
      s.(poolIndex := s.poolIndex + 1,
         pcs := s.pcs[t := if s.poolIndex < s.poolSize then Reset(s.poolIndex) else TryFreeList])
    case TryFreeList =>
      if freed.Some? then s.(free := s.free - {freed.value}, pcs := s.pcs[t := Reset(freed.value)])
      else s.(pcs := s.pcs[t := Create])
    case Create =>
      if ok then s.(created := s.created + 1, pcs := s.pcs[t := Reset(s.created)])
      else s.(pcs := s.pcs[t := Idle])
    case Reset(b) =>
      s.(counters := s.counters[b := 0], pcs := s.pcs[t := Attach(b)])
    case Attach(b) =>
      s.(subs := s.subs[t := q.(index := q.index[q.tail / BLOCK_SIZE := b], tailBlock := b)], pcs := s.pcs[t := Store])
    case Store =>
      s.(pcs := s.pcs[t := Publish])
    case Publish =>
      s.(subs := s.subs[t := q.(tail := q.tail + 1)], pcs := s.pcs[t := Idle])
    case _ => s
  }

  function Continue(p: Thread, i: nat, end: nat): PC {
    if i == end then Idle else Find(p, i, end)
  }

  function DequeueStep(s: State, t: Thread, pc: PC): State {
    match pc
    case Find(p, i, end) =>
      s.(pcs := s.pcs[t := SetEmpty(p, i, end, BlockOf(SubAt(s.subs, p).index, i / BLOCK_SIZE))])
    case SetEmpty(p, i, end, b) =>
      var count := Counter(s.counters, b) + (if i <= PartEnd(i, end) then PartEnd(i, end) - i else 0);
      s.(counters := s.counters[b := count],
         pcs := s.pcs[t := if count == BLOCK_SIZE then Detach(p, PartEnd(i, end), end, b, i / BLOCK_SIZE)
                           else Continue(p, PartEnd(i, end), end)])
    case Detach(p, i, end, b, k) =>
      var q := SubAt(s.subs, p);
      s.(subs := s.subs[p := q.(index := q.index - {k})], pcs := s.pcs[t := Release(p, i, end, b)])
    case Release(p, i, end, b) =>
      s.(free := s.free + {b}, pcs := s.pcs[t := Continue(p, i, end)])
    case _ => s
  }

  ghost predicate Init(s: State) {
    && s.subs == map[] && s.counters == map[] && s.poolIndex == 0 && s.created == s.poolSize && s.free == {}
    && (forall t | t in s.pcs :: s.pcs[t] == Idle)
  }

  ghost predicate Legal(s: State, run: seq<Action>)
    decreases |run|
  {
    run == [] || (Enabled(s, run[0]) && Legal(Apply(s, run[0]), run[1..]))
  }

  ghost function Final(s: State, run: seq<Action>): State
    requires Legal(s, run)
    decreases |run|
  {
    if run == [] then s else Final(Apply(s, run[0]), run[1..])
  }

  ghost predicate Reachable(s: State) {
    exists s0, run :: Init(s0) && Legal(s0, run) && s == Final(s0, run)
  }

  // ---------------------------------------------------------------------------
  // The invariant, over a witness of every block's place and every index's fate
  // ---------------------------------------------------------------------------

  /** Leaving is in the index of p still, but drained and about to be detached by a thread. */
  datatype Place =
    | Nowhere
    | InPool
    | OnFreeList
    | InIndex(p: Thread, number: nat)
    | Leaving(p: Thread, number: nat, thread: Thread)
    | InHands(thread: Thread)

  datatype Fate = Waiting | Claimed(thread: Thread) | Done

  /** fates[p] tells, for each index of p that was claimed, by whom, or that it is done with. */
  datatype Witness = Witness(places: map<Block, Place>, fates: map<Thread, seq<Fate>>)

  function PlaceOf(places: map<Block, Place>, b: Block): Place {
    if b in places then places[b] else Nowhere
  }

  function FatesOf(fates: map<Thread, seq<Fate>>, p: Thread): seq<Fate> {
    if p in fates then fates[p] else []
  }

  function FateAt(fates: seq<Fate>, i: nat): Fate {
    if i < |fates| then fates[i] else Waiting
  }

  /** How many of the n indices from lo on are done with. */
  function DoneCount(fates: seq<Fate>, lo: nat, n: nat): (c: nat)
    ensures c <= n
  {
    if n == 0 then 0 else DoneCount(fates, lo, n - 1) + (if FateAt(fates, lo + n - 1) == Done then 1 else 0)
  }

  /** Where a thread is in enqueue, as far as its own sub-queue is concerned. */
  datatype Phase = Outside | Starting | Filling

  function PhaseOf(pc: PC): Phase {
    if pc.Store? || pc.Publish? then Filling else if Enqueueing(pc) then Starting else Outside
  }

  /** The number of blocks started, given where the enqueueing thread is. */
  function Started(phase: Phase, tail: nat): nat {
    if phase.Filling? then tail / BLOCK_SIZE + 1 else (tail + BLOCK_SIZE - 1) / BLOCK_SIZE
  }

  function PCOf(pcs: map<Thread, PC>, t: Thread): PC {
    if t in pcs then pcs[t] else Idle
  }

  /** Every index of a started block that is not done with is in a block of the index. */
  ghost predicate SubOk(q: Sub, fates: seq<Fate>, phase: Phase) {
    && |fates| == q.head <= q.tail
    && (forall i: nat | i < q.head :: fates[i] != Waiting)
    && (forall i: nat | i < Started(phase, q.tail) * BLOCK_SIZE && FateAt(fates, i) != Done ::
         i / BLOCK_SIZE in q.index)
    && (forall k | k in q.index :: k < Started(phase, q.tail))
    && (phase.Filling? || q.tail % BLOCK_SIZE != 0 ==> q.tailBlock == BlockOf(q.index, q.tail / BLOCK_SIZE))
    && (phase.Starting? ==> q.tail % BLOCK_SIZE == 0)
  }

  ghost predicate SubsOk(subs: map<Thread, Sub>, fates: map<Thread, seq<Fate>>, pcs: map<Thread, PC>) {
    forall p :: SubOk(SubAt(subs, p), FatesOf(fates, p), PhaseOf(PCOf(pcs, p)))
  }

  /** The block in hand, allocated and not attached or detached and not released. */
  function Hand(pc: PC): Option<Block> {
    match pc
    case Reset(b) => Some(b)
    case Attach(b) => Some(b)
    case Release(_, _, _, b) => Some(b)
    case _ => None
  }

  /** Each structure holds the blocks whose place says so. */
  ghost predicate PlacesOk(s: State, places: map<Block, Place>) {
    && s.poolSize <= s.created
    && (forall b: Block :: PlaceOf(places, b) == Nowhere <==> s.created <= b)
    && (forall b: Block :: PlaceOf(places, b) == InPool <==> s.poolIndex <= b < s.poolSize)
    && (forall b: Block :: b in s.free <==> PlaceOf(places, b) == OnFreeList)
  }

  ghost predicate IndexesOk(subs: map<Thread, Sub>, places: map<Block, Place>) {
    && (forall p, k | k in SubAt(subs, p).index ::
          var w := PlaceOf(places, BlockOf(SubAt(subs, p).index, k));
          (w.InIndex? || w.Leaving?) && w.p == p && w.number == k)
    && (forall b: Block | PlaceOf(places, b).InIndex? || PlaceOf(places, b).Leaving? ::
          var w := PlaceOf(places, b);
          w.number in SubAt(subs, w.p).index && BlockOf(SubAt(subs, w.p).index, w.number) == b)
  }

  /** A block's counter is the number of its indices done with; when that is all of them one thread is detaching it. */
  ghost predicate BlockOk(b: Block, w: Place, counter: nat, fates: map<Thread, seq<Fate>>, pcs: map<Thread, PC>) {
    match w
    case InIndex(p, k) =>
      counter == DoneCount(FatesOf(fates, p), k * BLOCK_SIZE, BLOCK_SIZE) < BLOCK_SIZE
    case Leaving(p, k, t) =>
      && counter == DoneCount(FatesOf(fates, p), k * BLOCK_SIZE, BLOCK_SIZE) == BLOCK_SIZE
      && PCOf(pcs, t).Detach? && PCOf(pcs, t).p == p && PCOf(pcs, t).number == k && PCOf(pcs, t).block == b
    case InHands(t) =>
      Hand(PCOf(pcs, t)) == Some(b) && (PCOf(pcs, t).Attach? ==> counter == 0)
    case _ => true
  }

  ghost predicate BlocksOk(places: map<Block, Place>, counters: map<Block, nat>, fates: map<Thread, seq<Fate>>,
      pcs: map<Thread, PC>)
  {
    forall b: Block :: BlockOk(b, PlaceOf(places, b), Counter(counters, b), fates, pcs)
  }

  ghost predicate Claims(fates: seq<Fate>, t: Thread, i: nat, end: nat) {
    forall j: nat | i <= j < end :: FateAt(fates, j) == Claimed(t)
  }

  /** What a thread's program counter says is so. */
  ghost predicate ThreadOk(pc: PC, t: Thread, g: Witness) {
    match pc
    case Reset(b) => PlaceOf(g.places, b) == InHands(t)
    case Attach(b) => PlaceOf(g.places, b) == InHands(t)
    case Find(p, i, end) => i < end && Claims(FatesOf(g.fates, p), t, i, end)
    case SetEmpty(p, i, end, b) =>
      && i < end && Claims(FatesOf(g.fates, p), t, i, end)
      && PlaceOf(g.places, b) == InIndex(p, i / BLOCK_SIZE)
    case Detach(p, i, end, b, k) =>
      i <= end && Claims(FatesOf(g.fates, p), t, i, end) && PlaceOf(g.places, b) == Leaving(p, k, t)
    case Release(p, i, end, b) =>
      i <= end && Claims(FatesOf(g.fates, p), t, i, end) && PlaceOf(g.places, b) == InHands(t)
    case _ => true
  }

  ghost predicate ThreadsOk(pcs: map<Thread, PC>, g: Witness) {
    forall t | t in pcs :: ThreadOk(pcs[t], t, g)
  }

  /** The thread dequeues, or is about to dequeue, index j of sub-queue p. */
  predicate StillTakes(pc: PC, p: Thread, j: nat) {
    match pc
    case Find(r, i, end) => r == p && i <= j < end
    case SetEmpty(r, i, end, _) => r == p && i <= j < end
    case Detach(r, i, end, _, _) => r == p && i <= j < end
    case Release(r, i, end, _) => r == p && i <= j < end
    case _ => false
  }

  /** Every claimed index is still to be taken by the thread that claimed it. */
  ghost predicate HeldOk(fates: map<Thread, seq<Fate>>, pcs: map<Thread, PC>) {
    forall p, j: nat | FateAt(FatesOf(fates, p), j).Claimed? ::
      StillTakes(PCOf(pcs, FateAt(FatesOf(fates, p), j).thread), p, j)
  }

  ghost predicate Inv(s: State, g: Witness) {
    && SubsOk(s.subs, g.fates, s.pcs)
    && PlacesOk(s, g.places)
    && IndexesOk(s.subs, g.places)
    && BlocksOk(g.places, s.counters, g.fates, s.pcs)
    && ThreadsOk(s.pcs, g)
    && HeldOk(g.fates, s.pcs)
  }

  // ---------------------------------------------------------------------------
  // What a step does to each part of the invariant
  // ---------------------------------------------------------------------------

  /** Thread t acts on sub-queue p; if that is not its own it stays in its phase. */
  lemma SubsMove(subs: map<Thread, Sub>, fates: map<Thread, seq<Fate>>, pcs: map<Thread, PC>, t: Thread, pc: PC,
      p: Thread,
                 subs': map<Thread, Sub>, fates': map<Thread, seq<Fate>>)
    requires SubsOk(subs, fates, pcs) && t in pcs
    requires forall r | r != p :: SubAt(subs', r) == SubAt(subs, r) && FatesOf(fates', r) == FatesOf(fates, r)
    requires p == t || PhaseOf(pc) == PhaseOf(pcs[t])
    requires SubOk(SubAt(subs', p), FatesOf(fates', p), if p == t then PhaseOf(pc) else PhaseOf(PCOf(pcs, p)))
    ensures SubsOk(subs', fates', pcs[t := pc])
  {
    hide SubOk, PhaseOf, SubAt, FatesOf;
    forall r
      ensures SubOk(SubAt(subs', r), FatesOf(fates', r), PhaseOf(PCOf(pcs[t := pc], r)))
    {
      assert SubOk(SubAt(subs, r), FatesOf(fates, r), PhaseOf(PCOf(pcs, r)));
    }
  }

  /** Only block b, the one thread t is busy with if any, changes its place or counter; no index becomes done with. */
  lemma BlocksMove(places: map<Block, Place>, counters: map<Block, nat>, fates: map<Thread, seq<Fate>>,
      pcs: map<Thread, PC>,
                   t: Thread, pc: PC, b: Block, places': map<Block, Place>, counters': map<Block, nat>)
    requires BlocksOk(places, counters, fates, pcs) && t in pcs
    requires forall m | m != b ::
          PlaceOf(places', m) == PlaceOf(places, m) && Counter(counters', m) == Counter(counters, m)
    requires Hand(pcs[t]).Some? ==> Hand(pcs[t]).value == b
    requires pcs[t].Detach? ==> pcs[t].block == b
    requires BlockOk(b, PlaceOf(places', b), Counter(counters', b), fates, pcs[t := pc])
    ensures BlocksOk(places', counters', fates, pcs[t := pc])
  {
    hide DoneCount, PlaceOf, Counter, FatesOf;
    forall m: Block
      ensures BlockOk(m, PlaceOf(places', m), Counter(counters', m), fates, pcs[t := pc])
    {
      assert BlockOk(m, PlaceOf(places, m), Counter(counters, m), fates, pcs);
    }
  }

  /** Nothing another thread relies on changes. */
  lemma ThreadStays(pc: PC, u: Thread, g: Witness, g': Witness)
    requires ThreadOk(pc, u, g)
    requires forall p, i: nat | FateAt(FatesOf(g.fates, p), i) == Claimed(u) ::
          FateAt(FatesOf(g'.fates, p), i) == Claimed(u)
    requires forall b: Block | PlaceOf(g.places, b) == InHands(u) :: PlaceOf(g'.places, b) == InHands(u)
    requires forall b: Block | PlaceOf(g.places, b).Leaving? && PlaceOf(g.places, b).thread == u ::
          PlaceOf(g'.places, b) == PlaceOf(g.places, b)
    requires pc.SetEmpty? ==> PlaceOf(g'.places, pc.block) == PlaceOf(g.places, pc.block)
    ensures ThreadOk(pc, u, g')
  {
    hide FateAt, FatesOf, PlaceOf;
  }

  /** Thread t acts on block b, which no other thread relies on; the fates stay. */
  lemma ThreadsMove(pcs: map<Thread, PC>, g: Witness, t: Thread, pc: PC, b: Block, places': map<Block, Place>)
    requires ThreadsOk(pcs, g) && t in pcs
    requires forall m | m != b :: PlaceOf(places', m) == PlaceOf(g.places, m)
    requires var w := PlaceOf(g.places, b);
      PlaceOf(places', b) == w || w == Nowhere || w == InPool || w == OnFreeList || w == InHands(t)
          || (w.Leaving? && w.thread == t)
    requires ThreadOk(pc, t, g.(places := places'))
    ensures ThreadsOk(pcs[t := pc], g.(places := places'))
  {
    var pcs' := pcs[t := pc];
    forall u | u in pcs'
      ensures ThreadOk(pcs'[u], u, g.(places := places'))
    {
      if u != t {
        hide FateAt, FatesOf, PlaceOf;
        assert ThreadOk(pcs[u], u, g);
        ThreadStays(pcs[u], u, g, g.(places := places'));
      }
    }
  }

  /** Thread t changes, and with it the fates of indices it claimed or claims. */
  lemma HeldMove(fates: map<Thread, seq<Fate>>, pcs: map<Thread, PC>, t: Thread, pc: PC, fates': map<Thread, seq<Fate>>)
    requires HeldOk(fates, pcs) && t in pcs
    requires forall p, j: nat | FateAt(FatesOf(fates', p), j) == Claimed(t) :: StillTakes(pc, p, j)
    requires forall u, p, j: nat | u != t && FateAt(FatesOf(fates', p), j) == Claimed(u) ::
          FateAt(FatesOf(fates, p), j) == Claimed(u)
    ensures HeldOk(fates', pcs[t := pc])
  {
    hide StillTakes, FateAt, FatesOf;
  }

  lemma HeldKeep(fates: map<Thread, seq<Fate>>, pcs: map<Thread, PC>, t: Thread, pc: PC)
    requires HeldOk(fates, pcs) && t in pcs
    requires forall p, j: nat | StillTakes(pcs[t], p, j) :: StillTakes(pc, p, j)
    ensures HeldOk(fates, pcs[t := pc])
  {
    hide StillTakes, FateAt, FatesOf;
  }

  lemma InvOf(s: State, g: Witness)
    requires SubsOk(s.subs, g.fates, s.pcs) && PlacesOk(s, g.places) && IndexesOk(s.subs, g.places)
    requires BlocksOk(g.places, s.counters, g.fates, s.pcs) && ThreadsOk(s.pcs, g) && HeldOk(g.fates, s.pcs)
    ensures Inv(s, g)
  {
  }

  lemma Parts(s: State, g: Witness)
    requires Inv(s, g)
    ensures SubsOk(s.subs, g.fates, s.pcs) && PlacesOk(s, g.places) && IndexesOk(s.subs, g.places)
    ensures BlocksOk(g.places, s.counters, g.fates, s.pcs) && ThreadsOk(s.pcs, g) && HeldOk(g.fates, s.pcs)
  {
  }

  lemma ThreadFacts(s: State, g: Witness, t: Thread)
    requires Inv(s, g) && t in s.pcs
    ensures ThreadOk(s.pcs[t], t, g)
    ensures SubOk(SubAt(s.subs, t), FatesOf(g.fates, t), PhaseOf(s.pcs[t]))
  {
    hide PlacesOk, IndexesOk, BlocksOk, ThreadOk, SubOk, PhaseOf, SubAt, FatesOf;
    assert PCOf(s.pcs, t) == s.pcs[t];
  }

  lemma SubFacts(s: State, g: Witness, p: Thread)
    requires Inv(s, g)
    ensures SubOk(SubAt(s.subs, p), FatesOf(g.fates, p), PhaseOf(PCOf(s.pcs, p)))
  {
    hide PlacesOk, IndexesOk, BlocksOk, ThreadsOk, SubOk;
  }

  lemma BlockFacts(s: State, g: Witness, b: Block)
    requires Inv(s, g)
    ensures BlockOk(b, PlaceOf(g.places, b), Counter(s.counters, b), g.fates, s.pcs)
    ensures PlaceOf(g.places, b) == Nowhere <==> s.created <= b
    ensures PlaceOf(g.places, b) == InPool <==> s.poolIndex <= b < s.poolSize
    ensures b in s.free <==> PlaceOf(g.places, b) == OnFreeList
    ensures PlaceOf(g.places, b).InIndex? || PlaceOf(g.places, b).Leaving? ==>
              var w := PlaceOf(g.places, b);
              w.number in SubAt(s.subs, w.p).index && BlockOf(SubAt(s.subs, w.p).index, w.number) == b
  {
    hide SubsOk, ThreadsOk, BlockOk, PlaceOf, Counter, SubAt;
  }

  lemma IndexFacts(s: State, g: Witness, p: Thread, k: nat)
    requires Inv(s, g) && k in SubAt(s.subs, p).index
    ensures var w := PlaceOf(g.places, BlockOf(SubAt(s.subs, p).index, k));
          (w.InIndex? || w.Leaving?) && w.p == p && w.number == k
  {
    hide SubsOk, PlacesOk, ThreadsOk, BlocksOk, PlaceOf, SubAt;
  }

  // ---------------------------------------------------------------------------
  // Steps
  // ---------------------------------------------------------------------------

  /** A step by which thread t moves on with its sub-queue, and no block changes its place. */
  lemma QuietStep(s: State, g: Witness, t: Thread, pc: PC, s': State)
    requires Inv(s, g) && t in s.pcs
    requires Hand(pc) == Hand(s.pcs[t]) == None && !pc.Detach? && !s.pcs[t].Detach?
    requires forall r | r != t :: SubAt(s'.subs, r) == SubAt(s.subs, r)
    requires SubOk(SubAt(s'.subs, t), FatesOf(g.fates, t), PhaseOf(pc))
          && SubAt(s'.subs, t).index == SubAt(s.subs, t).index
    requires s' == s.(subs := s'.subs, pcs := s.pcs[t := pc])
    requires ThreadOk(pc, t, g)
    requires forall p, j: nat | StillTakes(s.pcs[t], p, j) :: StillTakes(pc, p, j)
    ensures Inv(s', g)
  {
    hide Inv, HeldOk, SubsOk, BlocksOk, ThreadsOk, SubOk, ThreadOk, PlaceOf, Counter, FatesOf;
    Parts(s, g);
    BlockFacts(s, g, 0);
    SubsMove(s.subs, g.fates, s.pcs, t, pc, t, s'.subs, g.fates);
    BlocksMove(g.places, s.counters, g.fates, s.pcs, t, pc, 0, g.places, s.counters);
    ThreadsMove(s.pcs, g, t, pc, 0, g.places);
    hide SubAt;
    assert IndexesOk(s'.subs, g.places);
    HeldKeep(g.fates, s.pcs, t, pc);
    InvOf(s', g);
  }

  lemma StartSub(q: Sub, f: seq<Fate>)
    requires SubOk(q, f, Outside)
    ensures SubOk(q, f, if q.tail % BLOCK_SIZE == 0 then Starting else Filling)
  {
    assert q.tail % BLOCK_SIZE != 0 ==> Started(Filling, q.tail) == Started(Outside, q.tail);
  }

  lemma StepStartEnqueue(s: State, g: Witness, t: Thread)
    requires Inv(s, g) && t in s.pcs && s.pcs[t] == Idle
    ensures Inv(Apply(s, StartEnqueue(t)), g)
  {
    hide Inv, FatesOf, SubOk;
    ThreadFacts(s, g, t);
    StartSub(SubAt(s.subs, t), FatesOf(g.fates, t));
    var s' := Apply(s, StartEnqueue(t));
    QuietStep(s, g, t, s'.pcs[t], s');
  }

  /** The steps of enqueue before it has a block, when they do not yield one. */
  lemma StepSearch(s: State, g: Witness, t: Thread, pc: PC)
    requires Inv(s, g) && t in s.pcs
    requires PhaseOf(s.pcs[t]) == Starting && Hand(s.pcs[t]) == None
    requires pc == Idle || (PhaseOf(pc) == Starting && Hand(pc) == None)
    ensures Inv(s.(pcs := s.pcs[t := pc]), g)
  {
    ThreadFacts(s, g, t);
    hide Inv, FatesOf;
    QuietStep(s, g, t, pc, s.(pcs := s.pcs[t := pc]));
  }

  /** TakeFromPool finds the pool used up by others since its check. */
  lemma StepPoolEmpty(s: State, g: Witness, t: Thread)
    requires Inv(s, g) && t in s.pcs && s.pcs[t] == TakeFromPool && s.poolIndex >= s.poolSize
    ensures Inv(s.(poolIndex := s.poolIndex + 1, pcs := s.pcs[t := TryFreeList]), g)
  {
    StepSearch(s, g, t, TryFreeList);
    var s' := s.(pcs := s.pcs[t := TryFreeList]);
    hide Inv, HeldOk, SubsOk, IndexesOk, BlocksOk, ThreadsOk;
    Parts(s', g);
    InvOf(s'.(poolIndex := s.poolIndex + 1), g);
  }

  /** Thread t gets hold of block b from the pool, the free list or the allocator. */
  lemma StepObtain(s: State, g: Witness, t: Thread, b: Block, s': State)
    requires Inv(s, g) && t in s.pcs && PhaseOf(s.pcs[t]) == Starting && Hand(s.pcs[t]) == None
    requires var w := PlaceOf(g.places, b); w == InPool || w == OnFreeList || w == Nowhere
    requires s' == s.(poolIndex := s'.poolIndex, created := s'.created, free := s'.free, pcs := s.pcs[t := Reset(b)])
    requires PlacesOk(s', g.places[b := InHands(t)])
    ensures Inv(s', g.(places := g.places[b := InHands(t)]))
  {
    hide Inv, HeldOk, SubsOk, BlocksOk, ThreadsOk, SubOk, PlacesOk, Counter, FatesOf;
    Parts(s, g);
    ThreadFacts(s, g, t);
    var places' := g.places[b := InHands(t)];
    assert SubOk(SubAt(s.subs, t), FatesOf(g.fates, t), PhaseOf(Reset(b)));
    SubsMove(s.subs, g.fates, s.pcs, t, Reset(b), t, s.subs, g.fates);
    BlocksMove(g.places, s.counters, g.fates, s.pcs, t, Reset(b), b, places', s.counters);
    ThreadsMove(s.pcs, g, t, Reset(b), b, places');
    IndexesKeep(s.subs, g.places, b, InHands(t));
    HeldKeep(g.fates, s.pcs, t, Reset(b));
    InvOf(s', g.(places := places'));
  }

  /** A block that is in no index goes to a place in no index. */
  lemma IndexesKeep(subs: map<Thread, Sub>, places: map<Block, Place>, b: Block, w: Place)
    requires IndexesOk(subs, places)
    requires !PlaceOf(places, b).InIndex? && !PlaceOf(places, b).Leaving? && !w.InIndex? && !w.Leaving?
    ensures IndexesOk(subs, places[b := w])
  {
    hide SubAt, BlockOf;
    var places' := places[b := w];
    forall p, k | k in SubAt(subs, p).index
      ensures var w' := PlaceOf(places', BlockOf(SubAt(subs, p).index, k));
        (w'.InIndex? || w'.Leaving?) && w'.p == p && w'.number == k
    {
      assert BlockOf(SubAt(subs, p).index, k) != b;
    }
    forall m: Block | PlaceOf(places', m).InIndex? || PlaceOf(places', m).Leaving?
      ensures var w' := PlaceOf(places', m);
        w'.number in SubAt(subs, w'.p).index && BlockOf(SubAt(subs, w'.p).index, w'.number) == m
    {
      assert PlaceOf(places', m) == PlaceOf(places, m);
    }
  }

  lemma StepReset(s: State, g: Witness, t: Thread, b: Block)
    requires Inv(s, g) && t in s.pcs && s.pcs[t] == Reset(b)
    ensures Inv(s.(counters := s.counters[b := 0], pcs := s.pcs[t := Attach(b)]), g)
  {
    hide Inv, HeldOk, SubsOk, BlocksOk, ThreadsOk, SubOk, IndexesOk, FatesOf;
    Parts(s, g);
    ThreadFacts(s, g, t);
    SubsMove(s.subs, g.fates, s.pcs, t, Attach(b), t, s.subs, g.fates);
    BlocksMove(g.places, s.counters, g.fates, s.pcs, t, Attach(b), b, g.places, s.counters[b := 0]);
    ThreadsMove(s.pcs, g, t, Attach(b), b, g.places);
    HeldKeep(g.fates, s.pcs, t, Attach(b));
    InvOf(s.(counters := s.counters[b := 0], pcs := s.pcs[t := Attach(b)]), g);
  }

  lemma {:induction false} NoneDone(fates: seq<Fate>, lo: nat, n: nat)
    requires |fates| <= lo
    ensures DoneCount(fates, lo, n) == 0
  {
    if n > 0 {
      NoneDone(fates, lo, n - 1);
    }
  }

  lemma AttachSub(q: Sub, fates: seq<Fate>, b: Block)
    requires SubOk(q, fates, Starting)
    ensures SubOk(q.(index := q.index[q.tail / BLOCK_SIZE := b], tailBlock := b), fates, Filling)
    ensures q.tail / BLOCK_SIZE !in q.index && |fates| <= q.tail / BLOCK_SIZE * BLOCK_SIZE
  {
  }

  lemma AttachIndexes(subs: map<Thread, Sub>, places: map<Block, Place>, t: Thread, b: Block, q: Sub, k: nat)
    requires IndexesOk(subs, places) && PlaceOf(places, b) == InHands(t)
    requires k !in SubAt(subs, t).index && q.index == SubAt(subs, t).index[k := b]
    ensures IndexesOk(subs[t := q], places[b := InIndex(t, k)])
  {
    var subs', places' := subs[t := q], places[b := InIndex(t, k)];
    forall p, j | j in SubAt(subs', p).index
      ensures var w := PlaceOf(places', BlockOf(SubAt(subs', p).index, j));
        (w.InIndex? || w.Leaving?) && w.p == p && w.number == j
    {
      if p != t || j != k {
        assert j in SubAt(subs, p).index;
        assert BlockOf(SubAt(subs, p).index, j) != b;
      }
    }
    forall m: Block | PlaceOf(places', m).InIndex? || PlaceOf(places', m).Leaving?
      ensures var w := PlaceOf(places', m);
        w.number in SubAt(subs', w.p).index && BlockOf(SubAt(subs', w.p).index, w.number) == m
    {
      if m != b {
        assert PlaceOf(places', m) == PlaceOf(places, m);
      }
    }
  }

  lemma StepAttach(s: State, g: Witness, t: Thread, b: Block)
    requires Inv(s, g) && t in s.pcs && s.pcs[t] == Attach(b)
    ensures Inv(EnqueueStep(s, t, s.pcs[t], true, None),
                g.(places := g.places[b := InIndex(t, SubAt(s.subs, t).tail / BLOCK_SIZE)]))
  {
    hide Inv, HeldOk, SubsOk, BlocksOk, ThreadsOk, SubOk, IndexesOk, FatesOf;
    Parts(s, g);
    ThreadFacts(s, g, t);
    BlockFacts(s, g, b);
    var q := SubAt(s.subs, t);
    var k := q.tail / BLOCK_SIZE;
    var q' := q.(index := q.index[k := b], tailBlock := b);
    var places' := g.places[b := InIndex(t, k)];
    AttachSub(q, FatesOf(g.fates, t), b);
    NoneDone(FatesOf(g.fates, t), k * BLOCK_SIZE, BLOCK_SIZE);
    hide DoneCount;
    SubsMove(s.subs, g.fates, s.pcs, t, Store, t, s.subs[t := q'], g.fates);
    BlocksMove(g.places, s.counters, g.fates, s.pcs, t, Store, b, places', s.counters);
    ThreadsMove(s.pcs, g, t, Store, b, places');
    AttachIndexes(s.subs, g.places, t, b, q', k);
    HeldKeep(g.fates, s.pcs, t, Store);
    InvOf(EnqueueStep(s, t, s.pcs[t], true, None), g.(places := places'));
  }

  lemma StepStore(s: State, g: Witness, t: Thread)
    requires Inv(s, g) && t in s.pcs && s.pcs[t] == Store
    ensures Inv(s.(pcs := s.pcs[t := Publish]), g)
  {
    ThreadFacts(s, g, t);
    hide Inv, FatesOf, SubOk;
    QuietStep(s, g, t, Publish, s.(pcs := s.pcs[t := Publish]));
  }

  lemma PublishSub(q: Sub, fates: seq<Fate>)
    requires SubOk(q, fates, Filling)
    ensures SubOk(q.(tail := q.tail + 1), fates, Outside)
  {
    assert Started(Outside, q.tail + 1) == Started(Filling, q.tail);
  }

  lemma StepPublish(s: State, g: Witness, t: Thread)
    requires Inv(s, g) && t in s.pcs && s.pcs[t] == Publish
    ensures Inv(EnqueueStep(s, t, s.pcs[t], true, None), g)
  {
    hide *;
    ThreadFacts(s, g, t);
    PublishedState(s, g, t);
    PublishSub(SubAt(s.subs, t), FatesOf(g.fates, t));
    QuietStep(s, g, t, Idle, EnqueueStep(s, t, Publish, true, None));
  }

  lemma PublishedState(s: State, g: Witness, t: Thread)
    requires t in s.pcs && s.pcs[t] == Publish
    ensures var s' := EnqueueStep(s, t, Publish, true, None);
      && s' == s.(subs := s'.subs, pcs := s.pcs[t := Idle])
      && SubAt(s'.subs, t) == SubAt(s.subs, t).(tail := SubAt(s.subs, t).tail + 1)
      && (forall r | r != t :: SubAt(s'.subs, r) == SubAt(s.subs, r))
    ensures PhaseOf(Publish) == Filling && PhaseOf(Idle) == Outside
    ensures Hand(Publish) == Hand(Idle) == None && ThreadOk(Idle, t, g)
    ensures forall p, j: nat :: !StillTakes(Publish, p, j)
  {
  }

  lemma EnqueueKeepsInv(s: State, g: Witness, t: Thread, ok: bool, freed: Option<Block>) returns (g': Witness)
    requires Inv(s, g) && t in s.pcs && Enqueueing(s.pcs[t]) && (freed.Some? ==> freed.value in s.free)
    ensures Inv(EnqueueStep(s, t, s.pcs[t], ok, freed), g')
  {
    hide Inv;
    g' := g;
    match s.pcs[t]
    case CheckRoom => StepSearch(s, g, t, EnqueueStep(s, t, s.pcs[t], ok, freed).pcs[t]);
    case InsertEntry => StepSearch(s, g, t, if ok then CheckPool else Idle);
    case CheckPool => StepSearch(s, g, t, if s.poolIndex >= s.poolSize then TryFreeList else TakeFromPool);
    case TakeFromPool =>
      if s.poolIndex < s.poolSize {
        g' := ObtainFrom(s, g, t, s.poolIndex, EnqueueStep(s, t, s.pcs[t], ok, freed));
      } else {
        StepPoolEmpty(s, g, t);
      }
    case TryFreeList =>
      if freed.Some? {
        g' := ObtainFrom(s, g, t, freed.value, EnqueueStep(s, t, s.pcs[t], ok, freed));
      } else {
        StepSearch(s, g, t, Create);
      }
    case Create =>
      if ok {
        g' := ObtainFrom(s, g, t, s.created, EnqueueStep(s, t, s.pcs[t], ok, freed));
      } else {
        StepSearch(s, g, t, Idle);
      }
    case Reset(b) => StepReset(s, g, t, b);
    case Attach(b) =>
      StepAttach(s, g, t, b);
      g' := g.(places := g.places[b := InIndex(t, SubAt(s.subs, t).tail / BLOCK_SIZE)]);
    case Store => StepStore(s, g, t);
    case Publish => StepPublish(s, g, t);
  }

  lemma ObtainFrom(s: State, g: Witness, t: Thread, b: Block, s': State) returns (g': Witness)
    requires Inv(s, g) && t in s.pcs && PhaseOf(s.pcs[t]) == Starting && Hand(s.pcs[t]) == None
    requires
      || (b == s.poolIndex < s.poolSize && s' == s.(poolIndex := b + 1, pcs := s.pcs[t := Reset(b)]))
      || (b in s.free && s' == s.(free := s.free - {b}, pcs := s.pcs[t := Reset(b)]))
      || (b == s.created && s' == s.(created := b + 1, pcs := s.pcs[t := Reset(b)]))
    ensures Inv(s', g')
  {
    var places' := g.places[b := InHands(t)];
    BlockFacts(s, g, b);
    ObtainPlaces(s, g, t, b, s');
    hide Inv, PlacesOk;
    StepObtain(s, g, t, b, s');
    g' := g.(places := places');
  }

  lemma ObtainPlaces(s: State, g: Witness, t: Thread, b: Block, s': State)
    requires Inv(s, g)
    requires
      || (b == s.poolIndex < s.poolSize && s' == s.(poolIndex := b + 1, pcs := s.pcs[t := Reset(b)]))
      || (b in s.free && s' == s.(free := s.free - {b}, pcs := s.pcs[t := Reset(b)]))
      || (b == s.created && s' == s.(created := b + 1, pcs := s.pcs[t := Reset(b)]))
    ensures PlacesOk(s', g.places[b := InHands(t)])
  {
    hide SubsOk, IndexesOk, BlocksOk, ThreadsOk;
    var places' := g.places[b := InHands(t)];
    assert forall m: Block | m != b :: PlaceOf(places', m) == PlaceOf(g.places, m);
    assert PlaceOf(g.places, b) == InPool || PlaceOf(g.places, b) == OnFreeList || PlaceOf(g.places, b) == Nowhere;
  }

  lemma {:induction false} CountAgree(f: seq<Fate>, f': seq<Fate>, lo: nat, n: nat)
    requires forall i: nat | lo <= i < lo + n :: (FateAt(f, i) == Done) == (FateAt(f', i) == Done)
    ensures DoneCount(f, lo, n) == DoneCount(f', lo, n)
  {
    if n > 0 {
      CountAgree(f, f', lo, n - 1);
    }
  }

  lemma {:induction false} AllDone(f: seq<Fate>, lo: nat, n: nat, i: nat)
    requires DoneCount(f, lo, n) == n && lo <= i < lo + n
    ensures FateAt(f, i) == Done
  {
    if i < lo + n - 1 {
      AllDone(f, lo, n - 1, i);
    }
  }

  /** f with the indices from i up to end done with. */
  function MarkDone(f: seq<Fate>, i: nat, end: nat): (r: seq<Fate>)
    ensures |r| == |f|
    ensures forall j: nat :: FateAt(r, j) == if j < |f| && i <= j < end then Done else FateAt(f, j)
  {
    seq(|f|, j requires 0 <= j < |f| => if i <= j < end then Done else f[j])
  }

  lemma {:induction false} CountMark(f: seq<Fate>, lo: nat, n: nat, i: nat, end: nat)
    requires i <= end <= |f| && lo <= i
    requires forall j: nat | i <= j < end :: FateAt(f, j) != Done
    ensures DoneCount(MarkDone(f, i, end), lo, n) ==
            DoneCount(f, lo, n) + (if lo + n <= i then 0 else if lo + n <= end then lo + n - i else end - i)
  {
    if n > 0 {
      CountMark(f, lo, n - 1, i, end);
    }
  }

  /** No index becomes or stops being done with, and thread t has no block before or after. */
  lemma BlocksFates(places: map<Block, Place>, counters: map<Block, nat>, fates: map<Thread, seq<Fate>>,
      pcs: map<Thread, PC>,
                    t: Thread, pc: PC, fates': map<Thread, seq<Fate>>)
    requires BlocksOk(places, counters, fates, pcs) && t in pcs
    requires Hand(pcs[t]) == None && !pcs[t].Detach? && Hand(pc) == None && !pc.Detach?
    requires forall p, i: nat :: (FateAt(FatesOf(fates, p), i) == Done) == (FateAt(FatesOf(fates', p), i) == Done)
    ensures BlocksOk(places, counters, fates', pcs[t := pc])
  {
    hide PlaceOf, Counter, FatesOf, DoneCount;
    forall m: Block
      ensures BlockOk(m, PlaceOf(places, m), Counter(counters, m), fates', pcs[t := pc])
    {
      var w := PlaceOf(places, m);
      assert BlockOk(m, w, Counter(counters, m), fates, pcs);
      if w.InIndex? || w.Leaving? {
        CountAgree(FatesOf(fates, w.p), FatesOf(fates', w.p), w.number * BLOCK_SIZE, BLOCK_SIZE);
      }
    }
  }

  lemma ClaimSub(q: Sub, f: seq<Fate>, phase: Phase, t: Thread, n: nat)
    requires SubOk(q, f, phase) && q.head + n <= q.tail
    ensures SubOk(q.(head := q.head + n), f + seq(n, _ => Claimed(t)), phase)
    ensures Claims(f + seq(n, _ => Claimed(t)), t, q.head, q.head + n) && |f| == q.head
  {
    hide Started;
    var f' := f + seq(n, _ => Claimed(t));
    forall i: nat | i < q.head + n
      ensures f'[i] != Waiting
    {
      assert i < |f| ==> f'[i] == f[i];
    }
  }

  /** Claiming changes fates from Waiting to Claimed only. */
  lemma ClaimFates(fates: map<Thread, seq<Fate>>, p: Thread, t: Thread, n: nat, fates': map<Thread, seq<Fate>>)
    requires fates' == fates[p := FatesOf(fates, p) + seq(n, _ => Claimed(t))]
    ensures FatesOf(fates', p) == FatesOf(fates, p) + seq(n, _ => Claimed(t))
    ensures forall r | r != p :: FatesOf(fates', r) == FatesOf(fates, r)
    ensures forall r, i: nat :: (FateAt(FatesOf(fates, r), i) == Done) == (FateAt(FatesOf(fates', r), i) == Done)
    ensures forall u, r, i: nat | FateAt(FatesOf(fates, r), i) == Claimed(u) ::
          FateAt(FatesOf(fates', r), i) == Claimed(u)
  {
  }

  lemma StepClaim(s: State, g: Witness, t: Thread, p: Thread, n: nat)
    requires Inv(s, g) && Enabled(s, Claim(t, p, n))
    ensures Inv(Apply(s, Claim(t, p, n)), g.(fates := g.fates[p := FatesOf(g.fates, p) + seq(n, _ => Claimed(t))]))
  {
    hide Inv, HeldOk, SubsOk, PlacesOk, BlocksOk, ThreadsOk, SubOk, IndexesOk, FateAt, Started, FatesOf, Claims,
        PlaceOf;
    var q, f := SubAt(s.subs, p), FatesOf(g.fates, p);
    var f' := f + seq(n, _ => Claimed(t));
    var g' := g.(fates := g.fates[p := f']);
    var pc := Find(p, q.head, q.head + n);
    var s' := Apply(s, Claim(t, p, n));
    SubFacts(s, g, p);
    Parts(s, g);
    ClaimFates(g.fates, p, t, n, g'.fates);
    ClaimSub(q, f, PhaseOf(PCOf(s.pcs, p)), t, n);
    SubsMove(s.subs, g.fates, s.pcs, t, pc, p, s'.subs, g'.fates);
    BlocksFates(g.places, s.counters, g.fates, s.pcs, t, pc, g'.fates);
    ThreadsFates(s.pcs, g, t, pc, g');
    IndexesSame(s.subs, s'.subs, g.places);
    PlacesSame(s, s', g.places);
    ClaimHeld(g.fates, s.pcs, p, t, q.head, n, g'.fates);
    InvOf(s', g');
  }

  lemma ClaimHeld(fates: map<Thread, seq<Fate>>, pcs: map<Thread, PC>, p: Thread, t: Thread, head: nat, n: nat,
      fates': map<Thread, seq<Fate>>)
    requires HeldOk(fates, pcs) && t in pcs && pcs[t] == Idle && |FatesOf(fates, p)| == head
    requires fates' == fates[p := FatesOf(fates, p) + seq(n, _ => Claimed(t))]
    ensures HeldOk(fates', pcs[t := Find(p, head, head + n)])
  {
    forall r, j: nat | FateAt(FatesOf(fates', r), j) == Claimed(t)
      ensures StillTakes(Find(p, head, head + n), r, j)
    {
      assert FateAt(FatesOf(fates, r), j) != Claimed(t) by {
        assert !StillTakes(PCOf(pcs, t), r, j);
      }
    }
    HeldMove(fates, pcs, t, Find(p, head, head + n), fates');
  }

  lemma PlacesSame(s: State, s': State, places: map<Block, Place>)
    requires PlacesOk(s, places) && s' == s.(subs := s'.subs, counters := s'.counters, pcs := s'.pcs)
    ensures PlacesOk(s', places)
  {
  }

  lemma BeyondWaits(f: seq<Fate>)
    ensures forall i: nat | |f| <= i :: FateAt(f, i) == Waiting
  {
  }

  lemma IndexesSame(subs: map<Thread, Sub>, subs': map<Thread, Sub>, places: map<Block, Place>)
    requires IndexesOk(subs, places) && forall r :: SubAt(subs', r).index == SubAt(subs, r).index
    ensures IndexesOk(subs', places)
  {
    hide SubAt, BlockOf, PlaceOf;
  }

  /** The fates of indices that others claimed stay, and so do the places. */
  lemma ThreadsFates(pcs: map<Thread, PC>, g: Witness, t: Thread, pc: PC, g': Witness)
    requires ThreadsOk(pcs, g) && t in pcs && g'.places == g.places
    requires forall u, p, i: nat | u != t && FateAt(FatesOf(g.fates, p), i) == Claimed(u) ::
          FateAt(FatesOf(g'.fates, p), i) == Claimed(u)
    requires ThreadOk(pc, t, g')
    ensures ThreadsOk(pcs[t := pc], g')
  {
    var pcs' := pcs[t := pc];
    forall u | u in pcs'
      ensures ThreadOk(pcs'[u], u, g')
    {
      if u != t {
        hide FateAt, FatesOf, PlaceOf, ThreadOk;
        ThreadStays(pcs[u], u, g, g');
      }
    }
  }

  /** The lookup of a claimed index finds the block that index is in. */
  lemma FindBlock(s: State, g: Witness, t: Thread, p: Thread, i: nat, end: nat)
    requires Inv(s, g) && t in s.pcs && s.pcs[t] == Find(p, i, end)
    ensures i / BLOCK_SIZE in SubAt(s.subs, p).index
    ensures PlaceOf(g.places, BlockOf(SubAt(s.subs, p).index, i / BLOCK_SIZE)) == InIndex(p, i / BLOCK_SIZE)
  {
    ThreadFacts(s, g, t);
    SubFacts(s, g, p);
    var f := FatesOf(g.fates, p);
    var k := i / BLOCK_SIZE;
    assert FateAt(f, i) == Claimed(t);
    assert i < |f| by { BeyondWaits(f); }
    IndexFacts(s, g, p, k);
    var b := BlockOf(SubAt(s.subs, p).index, k);
    BlockFacts(s, g, b);
    hide Inv, DoneCount, FateAt, SubOk, ThreadOk;
    if PlaceOf(g.places, b).Leaving? {
      AllDone(f, k * BLOCK_SIZE, BLOCK_SIZE, i);
      assert false;
    }
  }

  lemma StepFind(s: State, g: Witness, t: Thread, p: Thread, i: nat, end: nat)
    requires Inv(s, g) && t in s.pcs && s.pcs[t] == Find(p, i, end)
    ensures Inv(DequeueStep(s, t, s.pcs[t]), g)
  {
    FindBlock(s, g, t, p, i, end);
    ThreadFacts(s, g, t);
    hide Inv, SubOk, FatesOf, PlaceOf, SubAt;
    QuietStep(s, g, t, SetEmpty(p, i, end, BlockOf(SubAt(s.subs, p).index, i / BLOCK_SIZE)),
        DequeueStep(s, t, s.pcs[t]));
  }

  // ---------------------------------------------------------------------------
  // The step that counts elements as dequeued
  // ---------------------------------------------------------------------------

  lemma MarkSub(q: Sub, f: seq<Fate>, phase: Phase, i: nat, end: nat)
    requires SubOk(q, f, phase)
    ensures SubOk(q, MarkDone(f, i, end), phase)
  {
    hide Started;
    var f' := MarkDone(f, i, end);
    forall j: nat | j < q.head
      ensures f'[j] != Waiting
    {
      assert FateAt(f', j) == f'[j];
    }
  }

  /** Counting part of block b as done with: its new count, and no other block's count changes. */
  lemma MarkBlocks(s: State, g: Witness, t: Thread, p: Thread, i: nat, pe: nat, b: Block, pc: PC, w: Place,
      counters': map<Block, nat>)
    requires Inv(s, g) && t in s.pcs && Hand(s.pcs[t]) == None && !s.pcs[t].Detach?
    requires PlaceOf(g.places, b) == InIndex(p, i / BLOCK_SIZE) && i <= pe <= (i / BLOCK_SIZE + 1) * BLOCK_SIZE
    requires pe <= |FatesOf(g.fates, p)| && forall j: nat | i <= j < pe :: FateAt(FatesOf(g.fates, p), j) == Claimed(t)
    requires forall m | m != b :: Counter(counters', m) == Counter(s.counters, m)
    requires Counter(counters', b) == Counter(s.counters, b) + (pe - i)
    requires var k := i / BLOCK_SIZE;
      if Counter(counters', b) == BLOCK_SIZE then w == Leaving(p, k, t) && pc.Detach? && pc.p == p && pc.number == k
          && pc.block == b
      else w == InIndex(p, k) && !pc.Detach? && Hand(pc) == None
    ensures BlocksOk(g.places[b := w], counters', g.fates[p := MarkDone(FatesOf(g.fates, p), i, pe)], s.pcs[t := pc])
    ensures Counter(counters', b) == DoneCount(MarkDone(FatesOf(g.fates, p), i, pe), i / BLOCK_SIZE * BLOCK_SIZE,
          BLOCK_SIZE)
  {
    var k := i / BLOCK_SIZE;
    var f := FatesOf(g.fates, p);
    var f' := MarkDone(f, i, pe);
    var fates' := g.fates[p := f'];
    hide Inv, DoneCount, MarkDone, Counter;
    CountMark(f, k * BLOCK_SIZE, BLOCK_SIZE, i, pe);
    BlockFacts(s, g, b);
    forall m: Block
      ensures BlockOk(m, PlaceOf(g.places[b := w], m), Counter(counters', m), fates', s.pcs[t := pc])
    {
      if m != b {
        BlockFacts(s, g, m);
        OtherBlock(s, g, p, k, b, m);
        MarkOther(m, PlaceOf(g.places, m), Counter(s.counters, m), g.fates, s.pcs, t, pc, p, i, pe);
      }
    }
  }

  lemma MarkOther(m: Block, w: Place, c: nat, fates: map<Thread, seq<Fate>>, pcs: map<Thread, PC>, t: Thread, pc: PC,
      p: Thread, i: nat, pe: nat)
    requires BlockOk(m, w, c, fates, pcs) && t in pcs && Hand(pcs[t]) == None && !pcs[t].Detach?
    requires i <= pe <= (i / BLOCK_SIZE + 1) * BLOCK_SIZE
    requires (w.InIndex? || w.Leaving?) && w.p == p ==> w.number != i / BLOCK_SIZE
    ensures BlockOk(m, w, c, fates[p := MarkDone(FatesOf(fates, p), i, pe)], pcs[t := pc])
  {
    var f := FatesOf(fates, p);
    var f' := MarkDone(f, i, pe);
    hide DoneCount, MarkDone, Hand;
    if (w.InIndex? || w.Leaving?) && w.p == p {
      CountAgree(f, f', w.number * BLOCK_SIZE, BLOCK_SIZE);
    }
  }

  /** Another block in the same index is in another entry. */
  lemma OtherBlock(s: State, g: Witness, p: Thread, k: nat, b: Block, m: Block)
    requires Inv(s, g) && PlaceOf(g.places, b) == InIndex(p, k) && m != b
    ensures var v := PlaceOf(g.places, m); (v.InIndex? || v.Leaving?) && v.p == p ==> v.number != k
  {
    BlockFacts(s, g, b);
    BlockFacts(s, g, m);
  }

  lemma SameBlockIndexes(s: State, g: Witness, p: Thread, k: nat, b: Block, places': map<Block, Place>, w: Place)
    requires Inv(s, g) && PlaceOf(g.places, b) == InIndex(p, k)
    requires (w.InIndex? || w.Leaving?) && w.p == p && w.number == k && places' == g.places[b := w]
    ensures IndexesOk(s.subs, places')
  {
    hide SubsOk, PlacesOk, BlocksOk, ThreadsOk;
    forall r, j | j in SubAt(s.subs, r).index
      ensures var v := PlaceOf(places', BlockOf(SubAt(s.subs, r).index, j));
            (v.InIndex? || v.Leaving?) && v.p == r && v.number == j
    {
      assert var v := PlaceOf(g.places, BlockOf(SubAt(s.subs, r).index, j)); v.p == r && v.number == j;
    }
    forall m: Block | PlaceOf(places', m).InIndex? || PlaceOf(places', m).Leaving?
      ensures var v := PlaceOf(places', m);
        v.number in SubAt(s.subs, v.p).index && BlockOf(SubAt(s.subs, v.p).index, v.number) == m
    {
      assert PlaceOf(g.places, m).InIndex? || PlaceOf(g.places, m).Leaving?;
    }
  }

  /** Other threads keep what they rely on when t counts its part of block b. */
  lemma MarkThreads(pcs: map<Thread, PC>, g: Witness, t: Thread, p: Thread, i: nat, pe: nat, b: Block, pc: PC, w: Place)
    requires ThreadsOk(pcs, g) && t in pcs && PlaceOf(g.places, b) == InIndex(p, i / BLOCK_SIZE)
    requires forall j: nat | i <= j < pe :: FateAt(FatesOf(g.fates, p), j) == Claimed(t)
    requires var f' := MarkDone(FatesOf(g.fates, p), i, pe);
      w != InIndex(p, i / BLOCK_SIZE) ==> DoneCount(f', i / BLOCK_SIZE * BLOCK_SIZE, BLOCK_SIZE) == BLOCK_SIZE
    requires ThreadOk(pc, t, Witness(g.places[b := w], g.fates[p := MarkDone(FatesOf(g.fates, p), i, pe)]))
    ensures ThreadsOk(pcs[t := pc], Witness(g.places[b := w], g.fates[p := MarkDone(FatesOf(g.fates, p), i, pe)]))
  {
    var f' := MarkDone(FatesOf(g.fates, p), i, pe);
    var g' := Witness(g.places[b := w], g.fates[p := f']);
    var k := i / BLOCK_SIZE;
    var pcs' := pcs[t := pc];
    forall u | u in pcs'
      ensures ThreadOk(pcs'[u], u, g')
    {
      if u != t {
        assert ThreadOk(pcs[u], u, g);
        if pcs[u].SetEmpty? && pcs[u].block == b && w != InIndex(p, k) {
          assert FateAt(FatesOf(g.fates, p), pcs[u].i) == Claimed(u);
          AllDone(f', k * BLOCK_SIZE, BLOCK_SIZE, pcs[u].i);
          assert false;
        }
        hide DoneCount, MarkDone, ThreadOk, FateAt;
        ThreadStays(pcs[u], u, g, g');
      }
    }
  }

  /** The part of the thread's claim that lies in one block. */
  lemma PartFacts(s: State, g: Witness, t: Thread, p: Thread, i: nat, end: nat, b: Block)
    requires Inv(s, g) && t in s.pcs && s.pcs[t] == SetEmpty(p, i, end, b)
    ensures var f, pe := FatesOf(g.fates, p), PartEnd(i, end);
      && i < pe <= end && pe <= (i / BLOCK_SIZE + 1) * BLOCK_SIZE && pe <= |f|
      && (forall j: nat | i <= j < pe :: FateAt(f, j) == Claimed(t))
      && Claims(MarkDone(f, i, pe), t, pe, end)
    ensures PlaceOf(g.places, b) == InIndex(p, i / BLOCK_SIZE)
  {
    ThreadFacts(s, g, t);
    var f, pe := FatesOf(g.fates, p), PartEnd(i, end);
    hide Inv;
    assert FateAt(f, pe - 1) == Claimed(t);
    BeyondWaits(f);
  }

  lemma StepSetEmpty(s: State, g: Witness, t: Thread, p: Thread, i: nat, end: nat, b: Block)
    requires Inv(s, g) && t in s.pcs && s.pcs[t] == SetEmpty(p, i, end, b)
    ensures Inv(DequeueStep(s, t, s.pcs[t]),
                Witness(g.places[b := if Counter(DequeueStep(s, t, s.pcs[t]).counters, b) == BLOCK_SIZE
                                      then Leaving(p, i / BLOCK_SIZE, t) else InIndex(p, i / BLOCK_SIZE)],
                        g.fates[p := MarkDone(FatesOf(g.fates, p), i, PartEnd(i, end))]))
  {
    hide Inv, HeldOk, SubsOk, PlacesOk, BlocksOk, ThreadsOk, IndexesOk, DoneCount, SubOk, FateAt, Claims, MarkDone,
        PartEnd;
    var f, pe, k := FatesOf(g.fates, p), PartEnd(i, end), i / BLOCK_SIZE;
    var s' := DequeueStep(s, t, s.pcs[t]);
    var pc := s'.pcs[t];
    var w := if Counter(s'.counters, b) == BLOCK_SIZE then Leaving(p, k, t) else InIndex(p, k);
    var g' := Witness(g.places[b := w], g.fates[p := MarkDone(f, i, pe)]);
    Parts(s, g);
    PartFacts(s, g, t, p, i, end, b);
    SubFacts(s, g, p);
    MarkSub(SubAt(s.subs, p), f, PhaseOf(PCOf(s.pcs, p)), i, pe);
    SubsMove(s.subs, g.fates, s.pcs, t, pc, p, s.subs, g'.fates);
    MarkBlocks(s, g, t, p, i, pe, b, pc, w, s'.counters);
    MarkThreads(s.pcs, g, t, p, i, pe, b, pc, w);
    SameBlockIndexes(s, g, p, k, b, g'.places, w);
    MarkPlaces(s, g, b, w, s');
    MarkHeld(g.fates, s.pcs, t, p, i, end, b, pc);
    InvOf(s', g');
  }

  lemma MarkHeld(fates: map<Thread, seq<Fate>>, pcs: map<Thread, PC>, t: Thread, p: Thread, i: nat, end: nat, b: Block,
      pc: PC)
    requires HeldOk(fates, pcs) && t in pcs && pcs[t] == SetEmpty(p, i, end, b)
    requires i < PartEnd(i, end) <= end && PartEnd(i, end) <= |FatesOf(fates, p)|
    requires pc == Continue(p, PartEnd(i, end), end)
          || (pc.Detach? && pc.p == p && pc.i == PartEnd(i, end) && pc.end == end)
    ensures HeldOk(fates[p := MarkDone(FatesOf(fates, p), i, PartEnd(i, end))], pcs[t := pc])
  {
    var fates' := fates[p := MarkDone(FatesOf(fates, p), i, PartEnd(i, end))];
    hide MarkDone, PartEnd;
    forall r, j: nat | FateAt(FatesOf(fates', r), j) == Claimed(t)
      ensures StillTakes(pc, r, j)
    {
      assert FateAt(FatesOf(fates, r), j) == Claimed(t);
      assert StillTakes(PCOf(pcs, t), r, j);
    }
    hide StillTakes;
    HeldMove(fates, pcs, t, pc, fates');
  }

  /** Outside the pool, the free list and the unallocated. */
  predicate InUse(w: Place) {
    w.InIndex? || w.Leaving? || w.InHands?
  }

  lemma MarkPlaces(s: State, g: Witness, b: Block, w: Place, s': State)
    requires PlacesOk(s, g.places) && InUse(PlaceOf(g.places, b)) && InUse(w)
    requires s' == s.(subs := s'.subs, counters := s'.counters, pcs := s'.pcs)
    ensures PlacesOk(s', g.places[b := w])
  {
    var places' := g.places[b := w];
    forall m: Block
      ensures PlaceOf(places', m) == Nowhere <==> PlaceOf(g.places, m) == Nowhere
      ensures PlaceOf(places', m) == InPool <==> PlaceOf(g.places, m) == InPool
      ensures PlaceOf(places', m) == OnFreeList <==> PlaceOf(g.places, m) == OnFreeList
    {
    }
  }

  // ---------------------------------------------------------------------------
  // Detaching and releasing a drained block
  // ---------------------------------------------------------------------------

  /** A drained block lies wholly before the head, so the tail is not inside it. */
  lemma DrainedBeforeHead(q: Sub, f: seq<Fate>, phase: Phase, k: nat)
    requires SubOk(q, f, phase) && DoneCount(f, k * BLOCK_SIZE, BLOCK_SIZE) == BLOCK_SIZE
    ensures (k + 1) * BLOCK_SIZE <= q.head <= q.tail
    ensures forall i: nat | i / BLOCK_SIZE == k :: FateAt(f, i) == Done
  {
    hide DoneCount, Started;
    forall i: nat | i / BLOCK_SIZE == k
      ensures FateAt(f, i) == Done
    {
      AllDone(f, k * BLOCK_SIZE, BLOCK_SIZE, i);
    }
    assert FateAt(f, k * BLOCK_SIZE + BLOCK_SIZE - 1) == Done;
  }

  lemma DetachSub(q: Sub, f: seq<Fate>, phase: Phase, k: nat)
    requires SubOk(q, f, phase) && DoneCount(f, k * BLOCK_SIZE, BLOCK_SIZE) == BLOCK_SIZE
    ensures SubOk(q.(index := q.index - {k}), f, phase)
  {
    DrainedBeforeHead(q, f, phase, k);
    hide DoneCount;
  }

  lemma DetachIndexes(subs: map<Thread, Sub>, places: map<Block, Place>, p: Thread, k: nat, b: Block,
      subs': map<Thread, Sub>, t: Thread)
    requires IndexesOk(subs, places) && PlaceOf(places, b).Leaving? && PlaceOf(places, b).p == p
          && PlaceOf(places, b).number == k
    requires forall r | r != p :: SubAt(subs', r) == SubAt(subs, r)
    requires SubAt(subs', p).index == SubAt(subs, p).index - {k}
    ensures IndexesOk(subs', places[b := InHands(t)])
  {
    hide SubAt;
    var places' := places[b := InHands(t)];
    forall r, j | j in SubAt(subs', r).index
      ensures var v := PlaceOf(places', BlockOf(SubAt(subs', r).index, j));
            (v.InIndex? || v.Leaving?) && v.p == r && v.number == j
    {
      assert j in SubAt(subs, r).index;
      assert BlockOf(SubAt(subs', r).index, j) == BlockOf(SubAt(subs, r).index, j);
    }
    forall m: Block | PlaceOf(places', m).InIndex? || PlaceOf(places', m).Leaving?
      ensures var v := PlaceOf(places', m);
        v.number in SubAt(subs', v.p).index && BlockOf(SubAt(subs', v.p).index, v.number) == m
    {
      assert PlaceOf(places', m) == PlaceOf(places, m);
    }
  }

  lemma StepDetach(s: State, g: Witness, t: Thread, p: Thread, i: nat, end: nat, b: Block, k: nat)
    requires Inv(s, g) && t in s.pcs && s.pcs[t] == Detach(p, i, end, b, k)
    ensures Inv(DequeueStep(s, t, s.pcs[t]), g.(places := g.places[b := InHands(t)]))
  {
    hide Inv, HeldOk, SubsOk, PlacesOk, BlocksOk, ThreadsOk, IndexesOk, DoneCount, SubOk, FateAt, Claims, FatesOf,
        Counter;
    var s' := DequeueStep(s, t, s.pcs[t]);
    var pc := Release(p, i, end, b);
    Parts(s, g);
    ThreadFacts(s, g, t);
    BlockFacts(s, g, b);
    SubFacts(s, g, p);
    DetachSub(SubAt(s.subs, p), FatesOf(g.fates, p), PhaseOf(PCOf(s.pcs, p)), k);
    SubsMove(s.subs, g.fates, s.pcs, t, pc, p, s'.subs, g.fates);
    BlocksMove(g.places, s.counters, g.fates, s.pcs, t, pc, b, g.places[b := InHands(t)], s.counters);
    ThreadsMove(s.pcs, g, t, pc, b, g.places[b := InHands(t)]);
    DetachIndexes(s.subs, g.places, p, k, b, s'.subs, t);
    MarkPlaces(s, g, b, InHands(t), s');
    HeldKeep(g.fates, s.pcs, t, pc);
    InvOf(s', g.(places := g.places[b := InHands(t)]));
  }

  lemma ReleasePlaces(s: State, g: Witness, b: Block, s': State, t: Thread)
    requires PlacesOk(s, g.places) && PlaceOf(g.places, b) == InHands(t)
    requires s' == s.(free := s.free + {b}, pcs := s'.pcs)
    ensures PlacesOk(s', g.places[b := OnFreeList])
  {
    var places' := g.places[b := OnFreeList];
    forall m: Block
      ensures PlaceOf(places', m) == Nowhere <==> PlaceOf(g.places, m) == Nowhere
      ensures PlaceOf(places', m) == InPool <==> PlaceOf(g.places, m) == InPool
      ensures m in s'.free <==> PlaceOf(places', m) == OnFreeList
    {
      assert m in s.free <==> PlaceOf(g.places, m) == OnFreeList;
    }
  }

  lemma StepRelease(s: State, g: Witness, t: Thread, p: Thread, i: nat, end: nat, b: Block)
    requires Inv(s, g) && t in s.pcs && s.pcs[t] == Release(p, i, end, b)
    ensures Inv(DequeueStep(s, t, s.pcs[t]), g.(places := g.places[b := OnFreeList]))
  {
    hide Inv, HeldOk, SubsOk, PlacesOk, BlocksOk, ThreadsOk, IndexesOk, SubOk, FateAt, Claims, FatesOf, Counter;
    var s' := DequeueStep(s, t, s.pcs[t]);
    var pc := Continue(p, i, end);
    Parts(s, g);
    ThreadFacts(s, g, t);
    assert SubOk(SubAt(s.subs, t), FatesOf(g.fates, t), PhaseOf(pc));
    SubsMove(s.subs, g.fates, s.pcs, t, pc, t, s.subs, g.fates);
    BlocksMove(g.places, s.counters, g.fates, s.pcs, t, pc, b, g.places[b := OnFreeList], s.counters);
    ThreadsMove(s.pcs, g, t, pc, b, g.places[b := OnFreeList]);
    IndexesKeep(s.subs, g.places, b, OnFreeList);
    ReleasePlaces(s, g, b, s', t);
    HeldKeep(g.fates, s.pcs, t, pc);
    InvOf(s', g.(places := g.places[b := OnFreeList]));
  }

  lemma DequeueKeepsInv(s: State, g: Witness, t: Thread) returns (g': Witness)
    requires Inv(s, g) && t in s.pcs && Dequeueing(s.pcs[t])
    ensures Inv(DequeueStep(s, t, s.pcs[t]), g')
  {
    hide Inv, DequeueStep;
    g' := g;
    match s.pcs[t]
    case Find(p, i, end) => StepFind(s, g, t, p, i, end);
    case SetEmpty(p, i, end, b) =>
      StepSetEmpty(s, g, t, p, i, end, b);
      g' := Witness(g.places[b := if Counter(DequeueStep(s, t, s.pcs[t]).counters, b) == BLOCK_SIZE
                                  then Leaving(p, i / BLOCK_SIZE, t) else InIndex(p, i / BLOCK_SIZE)],
                    g.fates[p := MarkDone(FatesOf(g.fates, p), i, PartEnd(i, end))]);
    case Detach(p, i, end, b, k) => StepDetach(s, g, t, p, i, end, b, k); g' := g.(places := g.places[b := InHands(t)]);
    case Release(p, i, end, b) => StepRelease(s, g, t, p, i, end, b); g' := g.(places := g.places[b := OnFreeList]);
  }

  lemma StepKeepsInv(s: State, g: Witness, a: Action) returns (g': Witness)
    requires Inv(s, g) && Enabled(s, a)
    ensures Inv(Apply(s, a), g')
  {
    hide Inv, DequeueStep, EnqueueStep;
    match a
    case StartEnqueue(t) => StepStartEnqueue(s, g, t); g' := g;
    case Enq(t, ok, freed) => g' := EnqueueKeepsInv(s, g, t, ok, freed);
    case Claim(t, p, n) =>
      StepClaim(s, g, t, p, n);
      g' := g.(fates := g.fates[p := FatesOf(g.fates, p) + seq(n, _ => Claimed(t))]);
    case Deq(t) => g' := DequeueKeepsInv(s, g, t);
  }

  // ---------------------------------------------------------------------------
  // What holds in every reachable state
  // ---------------------------------------------------------------------------

  ghost function InitWitness(s: State): Witness {
    Witness(map b: nat | 0 <= b < s.poolSize && InitiallyPooled(b, s) :: InPool, map[])
  }

  predicate InitiallyPooled(b: nat, s: State) {
    b < s.poolSize
  }

  lemma InitInv(s: State)
    requires Init(s)
    ensures Inv(s, InitWitness(s))
  {
  }

  lemma {:induction false} RunKeepsInv(s: State, g: Witness, run: seq<Action>) returns (g': Witness)
    requires Inv(s, g) && Legal(s, run)
    ensures Inv(Final(s, run), g')
    decreases |run|
  {
    hide Inv;
    if run == [] {
      g' := g;
    } else {
      g' := StepKeepsInv(s, g, run[0]);
      g' := RunKeepsInv(Apply(s, run[0]), g', run[1..]);
    }
  }

  lemma ReachableInv(s: State) returns (g: Witness)
    requires Reachable(s)
    ensures Inv(s, g)
  {
    hide Inv, Init;
    var s0, run :| Init(s0) && Legal(s0, run) && s == Final(s0, run);
    InitInv(s0);
    g := RunKeepsInv(s0, InitWitness(s0), run);
  }

  /** Block b is in place w, as the structures of the state themselves tell. */
  predicate Occupies(s: State, b: Block, w: Place) {
    match w
    case Nowhere => s.created <= b
    case InPool => s.poolIndex <= b < s.poolSize
    case OnFreeList => b in s.free
    case InIndex(p, k) => k in SubAt(s.subs, p).index && BlockOf(SubAt(s.subs, p).index, k) == b
    case Leaving(_, _, _) => false
    case InHands(t) => t in s.pcs && Hand(s.pcs[t]) == Some(b)
  }

  /** Every block is in exactly one place: unallocated, in the pool, on the free list, in one entry of one index, or in
      one thread's hands. */
  lemma OnePlace(s: State, b: Block) returns (w: Place)
    requires Reachable(s)
    ensures forall v :: Occupies(s, b, v) <==> v == w
  {
    var g := ReachableInv(s);
    hide Reachable;
    BlockFacts(s, g, b);
    var x := PlaceOf(g.places, b);
    w := if x.Leaving? then InIndex(x.p, x.number) else x;
    forall v
      ensures Occupies(s, b, v) <==> v == w
    {
      if Occupies(s, b, v) {
        PlaceFound(s, g, b, v);
      }
    }
  }

  lemma PlaceFound(s: State, g: Witness, b: Block, v: Place)
    requires Inv(s, g) && Occupies(s, b, v)
    ensures var x := PlaceOf(g.places, b); v == if x.Leaving? then InIndex(x.p, x.number) else x
  {
    BlockFacts(s, g, b);
    match v
    case InIndex(p, k) => IndexFacts(s, g, p, k);
    case InHands(t) => ThreadFacts(s, g, t);
    case _ =>
  }

  /** A claimed index not yet taken is found: the index entry of its block is not null. */
  lemma FindSucceeds(s: State, t: Thread, p: Thread, i: nat, end: nat)
    requires Reachable(s) && t in s.pcs && s.pcs[t] == Find(p, i, end)
    ensures i < end && i / BLOCK_SIZE in SubAt(s.subs, p).index
    ensures forall j: nat | i <= j < end :: j / BLOCK_SIZE in SubAt(s.subs, p).index
  {
    var g := ReachableInv(s);
    hide Reachable, Inv, ThreadOk, SubOk;
    FindBlock(s, g, t, p, i, end);
    ThreadFacts(s, g, t);
    SubFacts(s, g, p);
    ClaimedIndexed(SubAt(s.subs, p), g, PhaseOf(PCOf(s.pcs, p)), t, p, i, end);
  }

  /** Claimed indices are not done with, so the index has the blocks of all of them. */
  lemma ClaimedIndexed(q: Sub, g: Witness, phase: Phase, t: Thread, p: Thread, i: nat, end: nat)
    requires SubOk(q, FatesOf(g.fates, p), phase) && ThreadOk(Find(p, i, end), t, g)
    ensures i < end && forall j: nat | i <= j < end :: j / BLOCK_SIZE in q.index
  {
    var f := FatesOf(g.fates, p);
    forall j: nat | i <= j < end
      ensures j / BLOCK_SIZE in q.index
    {
      assert FateAt(f, j) == Claimed(t);
      assert j < |f| by { BeyondWaits(f); }
    }
  }

  lemma NoTakers(s: State, g: Witness, p: Thread, k: nat)
    requires Inv(s, g) && forall i: nat | i / BLOCK_SIZE == k :: FateAt(FatesOf(g.fates, p), i) == Done
    ensures forall u, j: nat | u in s.pcs && StillTakes(s.pcs[u], p, j) :: j / BLOCK_SIZE != k
  {
    forall u, j: nat | u in s.pcs && StillTakes(s.pcs[u], p, j)
      ensures j / BLOCK_SIZE != k
    {
      ThreadFacts(s, g, u);
      assert FateAt(FatesOf(g.fates, p), j) == Claimed(u);
    }
  }

  /** What the witness says of a block about to be detached: it is drained, and its one thread is the detaching one. */
  lemma DetachedFacts(s: State, g: Witness, t: Thread, p: Thread, i: nat, end: nat, b: Block, k: nat)
    requires Inv(s, g) && t in s.pcs && s.pcs[t] == Detach(p, i, end, b, k)
    ensures PlaceOf(g.places, b) == Leaving(p, k, t)
    ensures Occupies(s, b, InIndex(p, k)) && Counter(s.counters, b) == BLOCK_SIZE
    ensures DoneCount(FatesOf(g.fates, p), k * BLOCK_SIZE, BLOCK_SIZE) == BLOCK_SIZE
  {
    ThreadFacts(s, g, t);
    BlockFacts(s, g, b);
    hide Inv, DoneCount, FatesOf, Counter, SubAt, SubOk, StillTakes;
  }

  lemma DetachesAlone(s: State, g: Witness, t: Thread, b: Block, u: Thread)
    requires Inv(s, g) && PlaceOf(g.places, b).Leaving? && PlaceOf(g.places, b).thread == t
    requires u in s.pcs && s.pcs[u].Detach? && s.pcs[u].block == b
    ensures u == t
  {
    ThreadFacts(s, g, u);
    hide Inv, SubOk, FatesOf, Claims;
  }

  /** A block is released by one thread only, when all its elements are dequeued, and with the tail past it. */
  lemma ReleasedWhenDrained(s: State, t: Thread, p: Thread, i: nat, end: nat, b: Block, k: nat)
    requires Reachable(s) && t in s.pcs && s.pcs[t] == Detach(p, i, end, b, k)
    ensures Occupies(s, b, InIndex(p, k)) && Counter(s.counters, b) == BLOCK_SIZE
    ensures (k + 1) * BLOCK_SIZE <= SubAt(s.subs, p).head <= SubAt(s.subs, p).tail
    ensures forall u, j: nat | u in s.pcs && StillTakes(s.pcs[u], p, j) :: j / BLOCK_SIZE != k
    ensures forall u | u in s.pcs && s.pcs[u].Detach? && s.pcs[u].block == b :: u == t
  {
    var g := ReachableInv(s);
    hide Reachable, Inv, Occupies, DoneCount, SubOk, StillTakes, PlaceOf, FatesOf, FateAt, Counter, SubAt;
    DetachedFacts(s, g, t, p, i, end, b, k);
    SubFacts(s, g, p);
    DrainedBeforeHead(SubAt(s.subs, p), FatesOf(g.fates, p), PhaseOf(PCOf(s.pcs, p)), k);
    NoTakers(s, g, p, k);
    forall u | u in s.pcs && s.pcs[u].Detach? && s.pcs[u].block == b
      ensures u == t
    {
      DetachesAlone(s, g, t, b, u);
    }
  }

  /** set_empty's assertion: a block whose element is just dequeued was not counted full before. */
  lemma CounterBelow(s: State, t: Thread, p: Thread, i: nat, end: nat, b: Block)
    requires Reachable(s) && t in s.pcs && s.pcs[t] == SetEmpty(p, i, end, b)
    ensures Counter(s.counters, b) < BLOCK_SIZE
  {
    hide *;
    var g := ReachableInv(s);
    ThreadFacts(s, g, t);
    BlockFacts(s, g, b);
    CountedBelow(s, g, t, p, i, end, b);
  }

  lemma CountedBelow(s: State, g: Witness, t: Thread, p: Thread, i: nat, end: nat, b: Block)
    requires ThreadOk(SetEmpty(p, i, end, b), t, g)
    requires BlockOk(b, PlaceOf(g.places, b), Counter(s.counters, b), g.fates, s.pcs)
    ensures Counter(s.counters, b) < BLOCK_SIZE
  {
    hide DoneCount, PlaceOf, Counter, Claims, FatesOf;
  }

  /** The enqueueing thread stores into the block that its index holds for the tail. */
  lemma StoresIntoOwnBlock(s: State, t: Thread)
    requires Reachable(s) && t in s.pcs && s.pcs[t] == Store
    ensures Occupies(s, SubAt(s.subs, t).tailBlock, InIndex(t, SubAt(s.subs, t).tail / BLOCK_SIZE))
  {
    var g := ReachableInv(s);
    ThreadFacts(s, g, t);
    var q, f := SubAt(s.subs, t), FatesOf(g.fates, t);
    assert FateAt(f, q.tail) != Done by { BeyondWaits(f); }
  }

  /** A thread starts a block only where one begins. */
  lemma StartsAtEdge(s: State, t: Thread)
    requires Reachable(s) && t in s.pcs
    ensures PhaseOf(s.pcs[t]).Starting? ==> SubAt(s.subs, t).tail % BLOCK_SIZE == 0
  {
    var g := ReachableInv(s);
    hide Reachable, Inv;
    ThreadFacts(s, g, t);
  }

  /** How many blocks are started by a tail, around a block's edge. */
  lemma StartedAtEdge(tail: nat)
    ensures tail % BLOCK_SIZE == 0 ==> Started(Starting, tail) == Started(Outside, tail) == tail / BLOCK_SIZE
    ensures tail % BLOCK_SIZE != 0 ==> Started(Outside, tail) == Started(Filling, tail)
    ensures Started(Filling, tail) == tail / BLOCK_SIZE + 1 == Started(Outside, tail + 1)
  {
  }

  /** Block number k of sub-queue p was started, and has left the index. */
  predicate Left(s: State, p: Thread, k: nat) {
    k < Started(PhaseOf(PCOf(s.pcs, p)), SubAt(s.subs, p).tail) && k !in SubAt(s.subs, p).index
  }

  lemma StepStaysLeft(s: State, g: Witness, a: Action, p: Thread, k: nat)
    requires Inv(s, g) && Enabled(s, a) && Left(s, p, k)
    ensures Left(Apply(s, a), p, k)
  {
    ThreadFacts(s, g, a.thread);
    SubFacts(s, g, p);
    hide Inv, FatesOf, FateAt, Counter;
    LeftFrame(s, a, p, k);
  }

  lemma LeftFrame(s: State, a: Action, p: Thread, k: nat)
    requires Enabled(s, a) && Left(s, p, k)
    requires PhaseOf(PCOf(s.pcs, a.thread)).Starting? ==> SubAt(s.subs, a.thread).tail % BLOCK_SIZE == 0
    ensures Left(Apply(s, a), p, k)
  {
    hide Counter, PartEnd;
  }

  lemma {:induction false} StaysLeft(s: State, g: Witness, run: seq<Action>, p: Thread, k: nat)
    requires Inv(s, g) && Legal(s, run) && Left(s, p, k)
    ensures Left(Final(s, run), p, k)
    decreases |run|
  {
    hide Inv, Left;
    if run != [] {
      StepStaysLeft(s, g, run[0], p, k);
      var g' := StepKeepsInv(s, g, run[0]);
      StaysLeft(Apply(s, run[0]), g', run[1..], p, k);
    }
  }

  /** A block number that was released never comes back, so each is released once. */
  lemma ReleasedOnce(s: State, run: seq<Action>, p: Thread, k: nat)
    requires Reachable(s) && Legal(s, run) && Left(s, p, k)
    ensures Left(Final(s, run), p, k)
  {
    var g := ReachableInv(s);
    StaysLeft(s, g, run, p, k);
  }

  lemma {:induction false} DoneBefore(f: seq<Fate>, lo: nat, n: nat)
    requires lo + n <= |f| && forall i: nat | i < |f| :: f[i] == Done
    ensures DoneCount(f, lo, n) == n
  {
    if n > 0 {
      DoneBefore(f, lo, n - 1);
    }
  }

  lemma IdleTakesNothing(pcs: map<Thread, PC>, t: Thread, p: Thread, i: nat)
    requires forall u | u in pcs :: pcs[u] == Idle
    ensures !StillTakes(PCOf(pcs, t), p, i)
  {
  }

  lemma QuietFates(s: State, g: Witness, p: Thread)
    requires Inv(s, g) && forall t | t in s.pcs :: s.pcs[t] == Idle
    ensures forall i: nat | i < |FatesOf(g.fates, p)| :: FatesOf(g.fates, p)[i] == Done
  {
    SubFacts(s, g, p);
    var f := FatesOf(g.fates, p);
    forall i: nat | i < |f|
      ensures f[i] == Done
    {
      IdleTakesNothing(s.pcs, if f[i].Claimed? then f[i].thread else 0, p, i);
      assert FateAt(f, i) == f[i];
    }
  }

  lemma UndrainedKept(q: Sub, f: seq<Fate>, k: nat)
    requires SubOk(q, f, Outside)
    ensures q.head < (k + 1) * BLOCK_SIZE && k * BLOCK_SIZE < q.tail ==> k in q.index
    ensures k in q.index ==> k * BLOCK_SIZE < q.tail
    ensures |f| == q.head
  {
    if q.head < (k + 1) * BLOCK_SIZE && k * BLOCK_SIZE < q.tail {
      var i := k * BLOCK_SIZE + BLOCK_SIZE - 1;
      assert FateAt(f, i) == Waiting && i / BLOCK_SIZE == k;
    }
  }

  /** Between calls an index holds exactly the started blocks that are not drained: nothing is leaked or lost. */
  lemma QuietIndex(s: State, p: Thread, k: nat)
    requires Reachable(s) && forall t | t in s.pcs :: s.pcs[t] == Idle
    ensures var q := SubAt(s.subs, p);
      k in q.index <==> q.head < (k + 1) * BLOCK_SIZE && k * BLOCK_SIZE < q.tail
  {
    var g := ReachableInv(s);
    hide Reachable;
    SubFacts(s, g, p);
    var q, f := SubAt(s.subs, p), FatesOf(g.fates, p);
    UndrainedKept(q, f, k);
    hide SubOk;
    if k in q.index {
      IndexFacts(s, g, p, k);
      var b := BlockOf(q.index, k);
      BlockFacts(s, g, b);
      if (k + 1) * BLOCK_SIZE <= q.head {
        QuietFates(s, g, p);
        DoneBefore(f, k * BLOCK_SIZE, BLOCK_SIZE);
        assert false;
      }
    }
  }

  // ---------------------------------------------------------------------------
  // What a step changes for sub-queue p
  // ---------------------------------------------------------------------------

  /** The blocks of p's index after the step. */
  function IndexAfter(s: State, p: Thread, a: Action): map<nat, Block>
    requires Enabled(s, a)
  {
    var q := SubAt(s.subs, p);
    var pc := s.pcs[a.thread];
    if a.Enq? && a.thread == p && pc.Attach? then q.index[q.tail / BLOCK_SIZE := pc.block]
    else if a.Deq? && pc.Detach? && pc.p == p then q.index - {pc.number}
    else q.index
  }

  lemma IndexChanges(s: State, p: Thread, a: Action)
    requires Enabled(s, a)
    ensures SubAt(Apply(s, a).subs, p).index == IndexAfter(s, p, a)
  {
    match a
    case Deq(t) =>
      hide PartEnd, Counter, EnqueueStep;
    case Enq(t, ok, freed) =>
      hide DequeueStep, CircularLess;
    case _ =>
      hide EnqueueStep, DequeueStep;
  }

  /** Only the acting thread moves. */
  lemma OneMoves(s: State, a: Action)
    requires Enabled(s, a)
    ensures Apply(s, a).pcs == s.pcs[a.thread := Apply(s, a).pcs[a.thread]]
  {
    hide SubAt, Counter, PartEnd, CircularLess;
    match a
    case Deq(t) =>
    case Enq(t, ok, freed) =>
    case _ =>
  }

  /** p's tail and its place in an enqueue, after the step. */
  lemma TailChanges(s: State, p: Thread, a: Action)
    requires Enabled(s, a)
    ensures var s' := Apply(s, a); var pc, pc' := PCOf(s.pcs, p), PCOf(s'.pcs, p);
      var tail, tail' := SubAt(s.subs, p).tail, SubAt(s'.subs, p).tail;
      if a.Enq? && a.thread == p && pc.Publish? then tail' == tail + 1 && pc' == Idle
      else
        && tail' == tail
        && (a.Enq? && a.thread == p && pc.Attach? ==> PhaseOf(pc') == Filling)
        && (a == StartEnqueue(p) ==>
              pc == Idle && PhaseOf(pc') == if tail % BLOCK_SIZE == 0
                  then Starting else Filling)
        && (a.Enq? && a.thread == p && !pc.Attach? ==> PhaseOf(pc') == PhaseOf(pc) || pc' == Idle)
        && (a.Enq? && a.thread == p && pc.Store? ==> pc' == Publish)
        && (!(a.Enq? && a.thread == p) && a != StartEnqueue(p) ==> PhaseOf(pc') == PhaseOf(pc))
  {
    match a
    case Deq(t) =>
      hide PartEnd, Counter, EnqueueStep;
    case Enq(t, ok, freed) =>
      hide DequeueStep, CircularLess;
    case _ =>
      hide EnqueueStep, DequeueStep;
  }

  /** Only a claim moves a head on. */
  lemma HeadChanges(s: State, p: Thread, a: Action)
    requires Enabled(s, a)
    ensures SubAt(Apply(s, a).subs, p).head == SubAt(s.subs, p).head + if a.Claim? && a.p == p then a.count else 0
  {
    match a
    case Deq(t) =>
      hide PartEnd, Counter, EnqueueStep;
    case Enq(t, ok, freed) =>
      hide DequeueStep, CircularLess;
    case _ =>
      hide EnqueueStep, DequeueStep;
  }

  // ---------------------------------------------------------------------------
  // The machine gets to the states the theorems speak of
  // ---------------------------------------------------------------------------

  lemma {:induction false} OneStepMore(s: State, run: seq<Action>, a: Action)
    requires Legal(s, run) && Enabled(Final(s, run), a)
    ensures Legal(s, run + [a]) && Final(s, run + [a]) == Apply(Final(s, run), a)
    decreases |run|
  {
    hide Apply, Enabled;
    if run == [] {
      assert run + [a] == [a] && [a][1..] == [];
    } else {
      assert (run + [a])[1..] == run[1..] + [a];
      OneStepMore(Apply(s, run[0]), run[1..], a);
    }
  }

  /** The state after one step more. */
  lemma Go(s: State, a: Action) returns (s': State)
    requires Reachable(s) && Enabled(s, a)
    ensures Reachable(s') && s' == Apply(s, a)
  {
    hide Init, Legal, Final, Apply, Enabled;
    var s0, run :| Init(s0) && Legal(s0, run) && s == Final(s0, run);
    OneStepMore(s0, run, a);
    s' := Apply(s, a);
  }

  lemma InitReachable(s: State)
    requires Init(s)
    ensures Reachable(s)
  {
    hide Init;
    assert Legal(s, []) && s == Final(s, []);
  }

  /** A block is taken from the pool. */
  lemma RunToBlock() returns (s: State)
    ensures Reachable(s) && 0 in s.pcs && s.pcs[0] == Reset(0) && SubAt(s.subs, 0) == Sub(0, 0, 0, map[])
  {
    hide Reachable, Legal, Final;
    s := State(map[], map[], 1, 0, 1, {}, map[0 := Idle]);
    InitReachable(s);
    s := Go(s, StartEnqueue(0));
    s := Go(s, Enq(0, true, None));
    s := Go(s, Enq(0, true, None));
    s := Go(s, Enq(0, true, None));
    s := Go(s, Enq(0, true, None));
  }

  /** An element is stored in it. */
  lemma RunToStored() returns (s: State)
    ensures Reachable(s) && 0 in s.pcs && s.pcs[0] == Idle && SubAt(s.subs, 0).tail == 1 && SubAt(s.subs, 0).head == 0
    ensures BlockOf(SubAt(s.subs, 0).index, 0) == 0 && Counter(s.counters, 0) == 0
  {
    hide Reachable, Legal, Final, Init;
    s := RunToBlock();
    s := Go(s, Enq(0, true, None));
    s := Go(s, Enq(0, true, None));
    s := Go(s, Enq(0, true, None));
    s := Go(s, Enq(0, true, None));
  }

  /** A thread has found the block of the index it claimed. */
  lemma RunToFound() returns (s: State)
    ensures Reachable(s) && 0 in s.pcs && s.pcs[0] == SetEmpty(0, 0, 1, 0)
  {
    hide Reachable, Legal, Final, Init;
    s := RunToStored();
    s := Go(s, Claim(0, 0, 1));
    s := Go(s, Deq(0));
  }

  /** The first block is filled up to n elements. */
  lemma {:induction false} RunToFilled(n: nat) returns (s: State)
    requires 1 <= n <= BLOCK_SIZE
    ensures Reachable(s) && 0 in s.pcs && s.pcs[0] == Idle && SubAt(s.subs, 0).tail == n && SubAt(s.subs, 0).head == 0
    ensures BlockOf(SubAt(s.subs, 0).index, 0) == 0 && Counter(s.counters, 0) == 0
  {
    hide Reachable, Legal, Final, Init, DequeueStep, CircularLess;
    if n == 1 {
      s := RunToStored();
    } else {
      s := RunToFilled(n - 1);
      s := Go(s, StartEnqueue(0));
      s := Go(s, Enq(0, true, None));
      s := Go(s, Enq(0, true, None));
    }
  }

  /** A thread has dequeued all of it and is about to detach it. */
  lemma RunToDetach() returns (s: State)
    ensures Reachable(s) && 0 in s.pcs && s.pcs[0] == Detach(0, BLOCK_SIZE, BLOCK_SIZE, 0, 0)
  {
    hide Reachable, Legal, Final, Init, EnqueueStep, CircularLess;
    s := RunToFilled(BLOCK_SIZE);
    s := Go(s, Claim(0, 0, BLOCK_SIZE));
    s := Go(s, Deq(0));
    s := Go(s, Deq(0));
  }
}
