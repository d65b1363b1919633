/**
  What implicit producers do with elements: the machine of ImplicitBlocks with the contents of the blocks, what was
  enqueued, and what each dequeue has taken.  Every sub-queue is a first-in first-out queue, whatever becomes of its
  blocks and whoever shares them.
 */
module ImplicitElements {
  import opened Basics
  import Blocks = ImplicitBlocks

  /** A dequeue: the first index it claimed, and what it has taken since. */
  datatype Call = Call(from: nat, got: seq<Option<int>>)

  /** pending is the element of each thread's enqueue, enq what was enqueued to each sub-queue. */
  datatype Queue = Queue(
    b: Blocks.State,
    cells: map<Cell, Option<int>>,
    pending: map<Thread, int>,
    enq: map<Thread, seq<int>>,
    calls: map<Thread, Call>)

  /** A step of ImplicitBlocks, an enqueue with its element, or the moving of one element out of its block. */
  datatype Step =
    | Begin(thread: Thread, x: int)
    | OfBlocks(a: Blocks.Action)
    | TakeOne(thread: Thread)

  function PendingOf(pending: map<Thread, int>, t: Thread): int {
    if t in pending then pending[t] else 0
  }

  function EnqOf(enq: map<Thread, seq<int>>, p: Thread): seq<int> {
    if p in enq then enq[p] else []
  }

  function CallOf(calls: map<Thread, Call>, t: Thread): Call {
    if t in calls then calls[t] else Call(0, [])
  }

  /** The next index the thread's dequeue takes. */
  function NextIndex(calls: map<Thread, Call>, t: Thread): nat {
    CallOf(calls, t).from + |CallOf(calls, t).got|
  }

  predicate Enabled(s: Queue, step: Step) {
    match step
    case Begin(t, _) => Blocks.Enabled(s.b, Blocks.StartEnqueue(t))
    case OfBlocks(a) =>
      && !a.StartEnqueue? && Blocks.Enabled(s.b, a)
      && (a.Deq? && s.b.pcs[a.thread].SetEmpty? ==>
            NextIndex(s.calls, a.thread) == PartEnd(s.b.pcs[a.thread].i, s.b.pcs[a.thread].end))
    case TakeOne(t) =>
      && t in s.b.pcs && s.b.pcs[t].SetEmpty?
      && NextIndex(s.calls, t) < PartEnd(s.b.pcs[t].i, s.b.pcs[t].end)
  }

  /** Where the enqueueing thread puts its element. */
  function TailCell(b: Blocks.State, t: Thread): Cell {
    Cell(Blocks.SubAt(b.subs, t).tailBlock, Blocks.SubAt(b.subs, t).tail % BLOCK_SIZE)
  }

  function Apply(s: Queue, step: Step): Queue
    requires Enabled(s, step)
  {
    match step
    case Begin(t, x) => s.(b := Blocks.Apply(s.b, Blocks.StartEnqueue(t)), pending := s.pending[t := x])
    case OfBlocks(a) =>
      var s' := s.(b := Blocks.Apply(s.b, a));
      (match a
       case Enq(t, _, _) =>
         if s.b.pcs[t].Store? then s'.(cells := s.cells[TailCell(s.b, t) := Some(PendingOf(s.pending, t))])
         else if s.b.pcs[t].Publish? then
           s'.(enq := s.enq[t := EnqOf(s.enq, t) + [PendingOf(s.pending, t)]])
         else s'
       case Claim(t, p, _) => s'.(calls := s.calls[t := Call(Blocks.SubAt(s.b.subs, p).head, [])])
       case _ => s')
    case TakeOne(t) =>
      var c := Cell(s.b.pcs[t].block, NextIndex(s.calls, t) % BLOCK_SIZE);
      var call := CallOf(s.calls, t);
      s.(cells := s.cells[c := None], calls := s.calls[t := call.(got := call.got + [Content(s.cells, c)])])
  }

  ghost predicate Init(s: Queue) {
    Blocks.Init(s.b) && s.cells == map[] && s.pending == map[] && s.enq == map[] && s.calls == map[]
  }

  ghost predicate Legal(s: Queue, run: seq<Step>)
    decreases |run|
  {
    run == [] || (Enabled(s, run[0]) && Legal(Apply(s, run[0]), run[1..]))
  }

  ghost function Final(s: Queue, run: seq<Step>): Queue
    requires Legal(s, run)
    decreases |run|
  {
    if run == [] then s else Final(Apply(s, run[0]), run[1..])
  }

  ghost predicate Reachable(s: Queue) {
    exists s0, run :: Init(s0) && Legal(s0, run) && s == Final(s0, run)
  }

  // ---------------------------------------------------------------------------
  // What ImplicitBlocks says of indices and their blocks
  // ---------------------------------------------------------------------------

  /** No two threads take the same index. */
  lemma OneTaker(b: Blocks.State, t: Thread, u: Thread, p: Thread, j: nat)
    requires Blocks.Reachable(b) && t in b.pcs && u in b.pcs
    requires Blocks.StillTakes(b.pcs[t], p, j) && Blocks.StillTakes(b.pcs[u], p, j)
    ensures t == u
  {
    var g := Blocks.ReachableInv(b);
    hide Blocks.Reachable, Blocks.Inv;
    Blocks.ThreadFacts(b, g, t);
    Blocks.ThreadFacts(b, g, u);
    assert Blocks.FateAt(Blocks.FatesOf(g.fates, p), j) == Blocks.Claimed(t);
    assert Blocks.FateAt(Blocks.FatesOf(g.fates, p), j) == Blocks.Claimed(u);
  }

  /** A taken index is below the head, and its block in the index. */
  lemma TakerIndexed(b: Blocks.State, t: Thread, p: Thread, j: nat)
    requires Blocks.Reachable(b) && t in b.pcs && Blocks.StillTakes(b.pcs[t], p, j)
    ensures j < Blocks.SubAt(b.subs, p).head <= Blocks.SubAt(b.subs, p).tail
    ensures j / BLOCK_SIZE in Blocks.SubAt(b.subs, p).index
  {
    var g := Blocks.ReachableInv(b);
    hide Blocks.Reachable, Blocks.Inv, Blocks.SubOk;
    Blocks.ThreadFacts(b, g, t);
    Blocks.SubFacts(b, g, p);
    var f := Blocks.FatesOf(g.fates, p);
    assert Blocks.FateAt(f, j) == Blocks.Claimed(t);
    ClaimedIndex(Blocks.SubAt(b.subs, p), f, Blocks.PhaseOf(Blocks.PCOf(b.pcs, p)), j);
  }

  lemma ClaimedIndex(q: Blocks.Sub, f: seq<Blocks.Fate>, phase: Blocks.Phase, j: nat)
    requires Blocks.SubOk(q, f, phase) && Blocks.FateAt(f, j).Claimed?
    ensures j < q.head <= q.tail && j / BLOCK_SIZE in q.index
  {
    assert j < |f|;
    Blocks.StartedAtEdge(q.tail);
  }

  /** The block of every element from the head on is in the index. */
  lemma WaitingIndexed(b: Blocks.State, p: Thread, j: nat)
    requires Blocks.Reachable(b)
    requires var q := Blocks.SubAt(b.subs, p);
      q.head <= j && (j < q.tail || (j == q.tail && Blocks.PhaseOf(Blocks.PCOf(b.pcs, p)) == Blocks.Filling))
    ensures j / BLOCK_SIZE in Blocks.SubAt(b.subs, p).index
  {
    var g := Blocks.ReachableInv(b);
    hide Blocks.Reachable, Blocks.Inv, Blocks.SubOk;
    Blocks.SubFacts(b, g, p);
    WaitingIndex(Blocks.SubAt(b.subs, p), Blocks.FatesOf(g.fates, p), Blocks.PhaseOf(Blocks.PCOf(b.pcs, p)), j);
  }

  lemma WaitingIndex(q: Blocks.Sub, f: seq<Blocks.Fate>, phase: Blocks.Phase, j: nat)
    requires Blocks.SubOk(q, f, phase) && q.head <= j && (j < q.tail || (j == q.tail && phase == Blocks.Filling))
    ensures j / BLOCK_SIZE in q.index
  {
    assert Blocks.FateAt(f, j) == Blocks.Waiting;
    assert j < Blocks.Started(phase, q.tail) * BLOCK_SIZE;
  }

  /** A block is in one entry of one index only. */
  lemma OneEntry(b: Blocks.State, p: Thread, k: nat, q: Thread, l: nat)
    requires Blocks.Reachable(b) && k in Blocks.SubAt(b.subs, p).index && l in Blocks.SubAt(b.subs, q).index
    requires Blocks.BlockOf(Blocks.SubAt(b.subs, p).index, k) == Blocks.BlockOf(Blocks.SubAt(b.subs, q).index, l)
    ensures p == q && k == l
  {
    var m := Blocks.BlockOf(Blocks.SubAt(b.subs, p).index, k);
    var w := Blocks.OnePlace(b, m);
    assert Blocks.Occupies(b, m, Blocks.InIndex(p, k)) && Blocks.Occupies(b, m, Blocks.InIndex(q, l));
    hide Blocks.Reachable;
  }

  /** The block a thread takes elements from is that of its index. */
  lemma HoldsOwnBlock(b: Blocks.State, t: Thread, p: Thread, i: nat, end: nat, m: Block)
    requires Blocks.Reachable(b) && t in b.pcs && b.pcs[t] == Blocks.SetEmpty(p, i, end, m)
    ensures m == Blocks.BlockOf(Blocks.SubAt(b.subs, p).index, i / BLOCK_SIZE)
    ensures i / BLOCK_SIZE in Blocks.SubAt(b.subs, p).index && i < end
  {
    var g := Blocks.ReachableInv(b);
    hide Blocks.Reachable, Blocks.Inv;
    Blocks.ThreadFacts(b, g, t);
    Blocks.BlockFacts(b, g, m);
  }

  // ---------------------------------------------------------------------------
  // The invariant
  // ---------------------------------------------------------------------------

  /** Where the element of index j of p is. */
  function CellAt(b: Blocks.State, p: Thread, j: nat): Cell {
    Cell(Blocks.BlockOf(Blocks.SubAt(b.subs, p).index, j / BLOCK_SIZE), j % BLOCK_SIZE)
  }

  /** The elements of p in memory: those enqueued, and the one about to be. */
  function StoredOf(s: Queue, p: Thread): seq<int> {
    if Blocks.PCOf(s.b.pcs, p).Publish? then EnqOf(s.enq, p) + [PendingOf(s.pending, p)] else EnqOf(s.enq, p)
  }

  /** Index j of p is stored and not taken: nobody has claimed it, or the one who has is still to take it. */
  predicate Wanted(s: Queue, p: Thread, j: nat) {
    j < |StoredOf(s, p)| &&
    (Blocks.SubAt(s.b.subs, p).head <= j ||
     exists t | t in s.b.pcs :: Blocks.StillTakes(s.b.pcs[t], p, j) && NextIndex(s.calls, t) <= j)
  }

  /** Every element that is wanted is where its index says. */
  ghost predicate CellsOk(s: Queue) {
    forall p, j: nat | Wanted(s, p, j) :: Content(s.cells, CellAt(s.b, p, j)) == Some(StoredOf(s, p)[j])
  }

  /** What a dequeueing thread has taken is what was enqueued from its first index on, as far as it has come. */
  predicate CallOk(pc: Blocks.PC, call: Call, enq: map<Thread, seq<int>>) {
    match pc
    case Find(p, i, end) => call.from + |call.got| == i && Got(call.got, EnqOf(enq, p), call.from, i)
    case SetEmpty(p, i, end, _) =>
      i <= call.from + |call.got| <= PartEnd(i, end) && Got(call.got, EnqOf(enq, p), call.from, call.from + |call.got|)
    case Detach(p, i, _, _, _) => call.from + |call.got| == i && Got(call.got, EnqOf(enq, p), call.from, i)
    case Release(p, i, _, _) => call.from + |call.got| == i && Got(call.got, EnqOf(enq, p), call.from, i)
    case _ => true
  }

  ghost predicate CallsOk(s: Queue) {
    forall t | t in s.b.pcs :: CallOk(s.b.pcs[t], CallOf(s.calls, t), s.enq)
  }

  ghost predicate TailsOk(s: Queue) {
    forall p :: |EnqOf(s.enq, p)| == Blocks.SubAt(s.b.subs, p).tail
  }

  ghost predicate Inv(s: Queue) {
    Blocks.Reachable(s.b) && TailsOk(s) && CallsOk(s) && CellsOk(s)
  }

  // ---------------------------------------------------------------------------
  // Every step keeps elements in place
  // ---------------------------------------------------------------------------

  lemma PublishMoves(b: Blocks.State, p: Thread, a: Blocks.Action)
    requires Blocks.Enabled(b, a)
    ensures var pc, pc' := Blocks.PCOf(b.pcs, p), Blocks.PCOf(Blocks.Apply(b, a).pcs, p);
      pc'.Publish? <==> if a.thread == p then a.Enq? && pc.Store? else pc.Publish?
  {
    Blocks.OneMoves(b, a);
    hide Blocks.SubAt, Blocks.Counter, PartEnd, CircularLess;
    match a
    case Deq(t) =>
    case Enq(t, ok, freed) =>
    case _ =>
  }

  /** The acting thread still takes only what it took, or claims what is from the head on. */
  lemma TakesAfter(b: Blocks.State, p: Thread, a: Blocks.Action, j: nat)
    requires Blocks.Enabled(b, a) && (a.Deq? && b.pcs[a.thread].SetEmpty? ==> b.pcs[a.thread].i < b.pcs[a.thread].end)
    ensures var t := a.thread; var pc' := Blocks.Apply(b, a).pcs[t];
      Blocks.StillTakes(pc', p, j) ==>
        if a.Claim? then a.p == p && Blocks.SubAt(b.subs, p).head <= j else a.Deq? && Blocks.StillTakes(b.pcs[t], p, j)
  {
    hide Blocks.Counter, CircularLess;
    match a
    case Deq(t) =>
      hide Blocks.EnqueueStep;
    case Enq(t, ok, freed) =>
      hide Blocks.DequeueStep;
    case _ =>
      hide Blocks.EnqueueStep, Blocks.DequeueStep;
  }

  /** How many elements of p are in memory. */
  lemma StoredCount(s: Queue, p: Thread)
    requires TailsOk(s)
    ensures |StoredOf(s, p)| == Blocks.SubAt(s.b.subs, p).tail + if Blocks.PCOf(s.b.pcs, p).Publish? then 1 else 0
    ensures |EnqOf(s.enq, p)| == Blocks.SubAt(s.b.subs, p).tail
    ensures forall j: nat | j < |EnqOf(s.enq, p)| :: StoredOf(s, p)[j] == EnqOf(s.enq, p)[j]
  {
    hide EnqOf, PendingOf, Blocks.SubAt, Blocks.PCOf;
  }

  lemma WantedIndexed(s: Queue, p: Thread, j: nat)
    requires Blocks.Reachable(s.b) && TailsOk(s) && Wanted(s, p, j)
    ensures j / BLOCK_SIZE in Blocks.SubAt(s.b.subs, p).index
  {
    StoredCount(s, p);
    hide Blocks.Reachable, TailsOk, StoredOf, Blocks.StillTakes, NextIndex;
    if Blocks.SubAt(s.b.subs, p).head <= j {
      WaitingIndexed(s.b, p, j);
    } else {
      var t :| t in s.b.pcs && Blocks.StillTakes(s.b.pcs[t], p, j) && NextIndex(s.calls, t) <= j;
      TakerIndexed(s.b, t, p, j);
    }
  }

  /** Distinct indices with their blocks in an index have distinct cells. */
  lemma CellsDistinct(b: Blocks.State, p: Thread, j: nat, q: Thread, l: nat)
    requires Blocks.Reachable(b)
    requires j / BLOCK_SIZE in Blocks.SubAt(b.subs, p).index && l / BLOCK_SIZE in Blocks.SubAt(b.subs, q).index
    requires CellAt(b, p, j) == CellAt(b, q, l)
    ensures p == q && j == l
  {
    OneEntry(b, p, j / BLOCK_SIZE, q, l / BLOCK_SIZE);
    hide Blocks.Reachable, Blocks.BlockOf;
  }

  /** An index that is wanted keeps its cell over a step of ImplicitBlocks. */
  lemma CellStays(s: Queue, a: Blocks.Action, p: Thread, j: nat)
    requires Blocks.Reachable(s.b) && Blocks.Enabled(s.b, a)
    requires j / BLOCK_SIZE in Blocks.SubAt(Blocks.Apply(s.b, a).subs, p).index
    requires j < Blocks.SubAt(s.b.subs, p).tail
             || (j == Blocks.SubAt(s.b.subs, p).tail && Blocks.PhaseOf(Blocks.PCOf(s.b.pcs, p)) == Blocks.Filling)
    ensures CellAt(Blocks.Apply(s.b, a), p, j) == CellAt(s.b, p, j)
  {
    Blocks.IndexChanges(s.b, p, a);
    if a.thread == p && a.Enq? && s.b.pcs[p].Attach? {
      Blocks.StartsAtEdge(s.b, p);
    }
    hide Blocks.Reachable, Blocks.Apply;
  }

  /** What is wanted after a step of ImplicitBlocks was wanted before, or is the element just stored. */
  lemma WantedBefore(s: Queue, a: Blocks.Action, s': Queue, p: Thread, j: nat)
    requires Blocks.Reachable(s.b) && TailsOk(s) && CallsOk(s) && Blocks.Enabled(s.b, a) && s'.b == Blocks.Apply(s.b, a)
    requires s'.calls == s.calls || (a.Claim? && forall u | u != a.thread :: CallOf(s'.calls, u) == CallOf(s.calls, u))
    requires Wanted(s', p, j)
    ensures Blocks.SubAt(s.b.subs, p).head <= j ||
            exists t | t in s.b.pcs :: Blocks.StillTakes(s.b.pcs[t], p, j) && NextIndex(s.calls, t) <= j
  {
    Blocks.HeadChanges(s.b, p, a);
    Blocks.OneMoves(s.b, a);
    if a.Deq? && s.b.pcs[a.thread].SetEmpty? {
      var pc := s.b.pcs[a.thread];
      HoldsOwnBlock(s.b, a.thread, pc.p, pc.i, pc.end, pc.block);
    }
    TakesAfter(s.b, p, a, j);
    hide Blocks.Reachable, Blocks.Apply, TailsOk, CallsOk, StoredOf, Blocks.StillTakes, Blocks.SubAt, CallOf;
    if Blocks.SubAt(s.b.subs, p).head > j {
      var t :| t in s'.b.pcs && Blocks.StillTakes(s'.b.pcs[t], p, j) && NextIndex(s'.calls, t) <= j;
      if t == a.thread {
        assert !a.Claim?;
      }
      assert Blocks.StillTakes(s.b.pcs[t], p, j) && NextIndex(s.calls, t) <= j;
    }
  }

  /** The step of ImplicitBlocks in a step of this machine. */
  function ActionOf(step: Step): Blocks.Action
    requires !step.TakeOne?
  {
    if step.Begin? then Blocks.StartEnqueue(step.thread) else step.a
  }

  lemma ActionEnabled(s: Queue, step: Step)
    requires !step.TakeOne? && Enabled(s, step)
    ensures Blocks.Enabled(s.b, ActionOf(step)) && Apply(s, step).b == Blocks.Apply(s.b, ActionOf(step))
  {
    hide Blocks.Apply, Blocks.Enabled;
  }

  /** What is enqueued and what is taken, after a step of ImplicitBlocks. */
  lemma RecordsAfter(s: Queue, step: Step, p: Thread)
    requires !step.TakeOne? && Enabled(s, step)
    ensures var s' := Apply(s, step); var a := ActionOf(step); var t := a.thread;
      && EnqOf(s'.enq, p) == EnqOf(s.enq, p)
           + (if a.Enq? && t == p && Blocks.PCOf(s.b.pcs, p).Publish? then [PendingOf(s.pending, p)] else [])
      && (!(step.Begin? && t == p) ==> PendingOf(s'.pending, p) == PendingOf(s.pending, p))
      && (if a.Claim? then s'.calls == s.calls[t := Call(Blocks.SubAt(s.b.subs, a.p).head, [])]
          else s'.calls == s.calls)
      && (if a.Enq? && Blocks.PCOf(s.b.pcs, t).Store?
          then s'.cells == s.cells[TailCell(s.b, t) := Some(PendingOf(s.pending, t))] else s'.cells == s.cells)
  {
    hide Blocks.Apply, Blocks.SubAt, TailCell;
  }

  lemma TailsStep(s: Queue, step: Step)
    requires TailsOk(s) && Enabled(s, step)
    ensures TailsOk(Apply(s, step))
  {
    var s' := Apply(s, step);
    if step.TakeOne? {
      assert s'.b == s.b && s'.enq == s.enq;
    } else {
      ActionEnabled(s, step);
      hide EnqOf, Blocks.SubAt, Blocks.PCOf, Apply, Enabled, Blocks.Apply, Blocks.Enabled, ActionOf;
      forall p
        ensures |EnqOf(s'.enq, p)| == Blocks.SubAt(s'.b.subs, p).tail
      {
        RecordsAfter(s, step, p);
        Blocks.TailChanges(s.b, p, ActionOf(step));
        assert |EnqOf(s.enq, p)| == Blocks.SubAt(s.b.subs, p).tail;
      }
    }
  }

  /** What is in memory of p's elements after a step of ImplicitBlocks: as before, or with the element just stored. */
  lemma StoredAfter(s: Queue, step: Step, p: Thread)
    requires !step.TakeOne? && Enabled(s, step)
    ensures var s' := Apply(s, step); var a := ActionOf(step);
      StoredOf(s', p) ==
      if a.Enq? && a.thread == p && Blocks.PCOf(s.b.pcs, p).Store? then EnqOf(s.enq, p) + [PendingOf(s.pending, p)]
      else StoredOf(s, p)
  {
    ActionEnabled(s, step);
    RecordsAfter(s, step, p);
    PublishMoves(s.b, p, ActionOf(step));
    BeginsIdle(s, step);
    hide Apply, Enabled, Blocks.Apply, Blocks.Enabled, EnqOf, PendingOf, Blocks.SubAt;
    assert EnqOf(s.enq, p) + [] == EnqOf(s.enq, p);
  }

  lemma BeginsIdle(s: Queue, step: Step)
    requires !step.TakeOne? && Enabled(s, step)
    ensures step.Begin? ==> Blocks.PCOf(s.b.pcs, step.thread) == Blocks.Idle
    ensures ActionOf(step).thread in s.b.pcs
  {
  }

  /** An index wanted after the step, but for the one just stored, was wanted before and has its cell still. */
  lemma WantedStays(s: Queue, step: Step, p: Thread, j: nat)
    requires Inv(s) && Enabled(s, step) && !step.TakeOne? && Wanted(Apply(s, step), p, j)
    requires Blocks.Reachable(Apply(s, step).b) && TailsOk(Apply(s, step))
    requires j < |StoredOf(s, p)|
    ensures Wanted(s, p, j) && CellAt(Apply(s, step).b, p, j) == CellAt(s.b, p, j)
    ensures j / BLOCK_SIZE in Blocks.SubAt(s.b.subs, p).index
  {
    var s', a := Apply(s, step), ActionOf(step);
    ActionEnabled(s, step);
    RecordsAfter(s, step, p);
    CallsElsewhere(s, s', a);
    StoredCount(s, p);
    InFilling(s.b, p);
    hide Apply, Enabled, Blocks.Reachable, Blocks.Apply, Blocks.Enabled, TailsOk, CallsOk, CellsOk, CellAt, StoredOf,
         Blocks.SubAt, Blocks.StillTakes, NextIndex, Blocks.PhaseOf, Blocks.PCOf;
    WantedIndexed(s', p, j);
    WantedBefore(s, a, s', p, j);
    CellStays(s, a, p, j);
    WantedIndexed(s, p, j);
  }

  lemma InFilling(b: Blocks.State, p: Thread)
    ensures Blocks.PCOf(b.pcs, p).Publish? || Blocks.PCOf(b.pcs, p).Store? ==>
              Blocks.PhaseOf(Blocks.PCOf(b.pcs, p)) == Blocks.Filling
  {
  }

  lemma CallsElsewhere(s: Queue, s': Queue, a: Blocks.Action)
    requires if a.Claim? then s'.calls == s.calls[a.thread := Call(Blocks.SubAt(s.b.subs, a.p).head, [])]
             else s'.calls == s.calls
    ensures s'.calls == s.calls || (a.Claim? && forall u | u != a.thread :: CallOf(s'.calls, u) == CallOf(s.calls, u))
  {
  }

  /** Where the enqueueing thread stores is the cell of its tail. */
  lemma StoreCell(b: Blocks.State, t: Thread)
    requires Blocks.Reachable(b) && t in b.pcs && b.pcs[t].Store?
    ensures TailCell(b, t) == CellAt(b, t, Blocks.SubAt(b.subs, t).tail)
    ensures Blocks.SubAt(b.subs, t).tail / BLOCK_SIZE in Blocks.SubAt(b.subs, t).index
  {
    Blocks.StoresIntoOwnBlock(b, t);
    hide Blocks.Reachable;
  }

  lemma CellsStep(s: Queue, step: Step)
    requires Inv(s) && Enabled(s, step) && !step.TakeOne?
    requires Blocks.Reachable(Apply(s, step).b) && TailsOk(Apply(s, step))
    ensures CellsOk(Apply(s, step))
  {
    var s', a := Apply(s, step), ActionOf(step);
    hide *;
    forall p, j: nat | Wanted(s', p, j)
      ensures Content(s'.cells, CellAt(s'.b, p, j)) == Some(StoredOf(s', p)[j])
    {
      OneCell(s, step, p, j);
    }
    AllCells(s');
  }

  lemma AllCells(s: Queue)
    requires forall p, j: nat | Wanted(s, p, j) :: Content(s.cells, CellAt(s.b, p, j)) == Some(StoredOf(s, p)[j])
    ensures CellsOk(s)
  {
  }

  lemma CellIs(s: Queue, p: Thread, j: nat)
    requires CellsOk(s) && Wanted(s, p, j)
    ensures Content(s.cells, CellAt(s.b, p, j)) == Some(StoredOf(s, p)[j])
  {
    hide Content, CellAt, StoredOf;
  }

  lemma ContentAfter(cells: map<Cell, Option<int>>, c: Cell, v: Option<int>, d: Cell)
    ensures Content(cells[c := v], d) == if c == d then v else Content(cells, d)
  {
  }

  lemma WantedCount(s: Queue, p: Thread, j: nat)
    requires Wanted(s, p, j)
    ensures j < |StoredOf(s, p)|
  {
  }

  lemma InvParts(s: Queue)
    requires Inv(s)
    ensures Blocks.Reachable(s.b) && TailsOk(s) && CallsOk(s) && CellsOk(s)
  {
  }

  lemma OneCell(s: Queue, step: Step, p: Thread, j: nat)
    requires Inv(s) && Enabled(s, step) && !step.TakeOne? && Wanted(Apply(s, step), p, j)
    requires Blocks.Reachable(Apply(s, step).b) && TailsOk(Apply(s, step))
    ensures var s' := Apply(s, step);
      j < |StoredOf(s', p)| && Content(s'.cells, CellAt(s'.b, p, j)) == Some(StoredOf(s', p)[j])
  {
    hide *;
    var s', a := Apply(s, step), ActionOf(step);
    var t := a.thread;
    InvParts(s);
    ActionEnabled(s, step);
    RecordsAfter(s, step, p);
    RecordsAfter(s, step, t);
    StoredAfter(s, step, p);
    StoredCount(s, p);
    WantedCount(s', p, j);
    BeginsIdle(s, step);
    var stores := a.Enq? && Blocks.PCOf(s.b.pcs, t).Store?;
    var c := TailCell(s.b, t);
    if stores {
      PlaceIs(s.b, t);
      StoreCell(s.b, t);
      ContentAfter(s.cells, c, Some(PendingOf(s.pending, t)), CellAt(s'.b, p, j));
    }
    if stores && t == p && j == |EnqOf(s.enq, p)| {
      InFilling(s.b, p);
      WantedIndexed(s', p, j);
      CellStays(s, a, p, j);
    } else {
      WantedStays(s, step, p, j);
      CellIs(s, p, j);
      if stores && c == CellAt(s.b, p, j) {
        CellsDistinct(s.b, t, Blocks.SubAt(s.b.subs, t).tail, p, j);
      }
    }
  }

  lemma PlaceOf(b: Blocks.State, t: Thread)
    ensures t in b.pcs ==> Blocks.PCOf(b.pcs, t) == b.pcs[t]
    ensures t in b.pcs && Blocks.Dequeueing(b.pcs[t]) ==> b.pcs[t] != Blocks.Idle
  {
  }

  lemma PlaceIs(b: Blocks.State, t: Thread)
    requires t in b.pcs
    ensures Blocks.PCOf(b.pcs, t) == b.pcs[t]
  {
  }

  // ---------------------------------------------------------------------------
  // Taking an element
  // ---------------------------------------------------------------------------

  lemma CallIs(s: Queue, t: Thread)
    requires CallsOk(s) && t in s.b.pcs
    ensures CallOk(s.b.pcs[t], CallOf(s.calls, t), s.enq)
  {
    hide CallOk;
  }

  lemma InPart(i: nat, n: nat, end: nat)
    requires i <= n < PartEnd(i, end) && i < end
    ensures n < end && n / BLOCK_SIZE == i / BLOCK_SIZE
  {
  }

  /** What a dequeueing thread is about to take out of its block is the element enqueued with its next index. */
  lemma TakesElement(s: Queue, t: Thread)
    requires Inv(s) && Enabled(s, TakeOne(t))
    ensures var pc, n := s.b.pcs[t], NextIndex(s.calls, t);
      && pc.i <= n < pc.end && Blocks.StillTakes(pc, pc.p, n) && Wanted(s, pc.p, n)
      && Cell(pc.block, n % BLOCK_SIZE) == CellAt(s.b, pc.p, n) && n < |EnqOf(s.enq, pc.p)|
      && n / BLOCK_SIZE in Blocks.SubAt(s.b.subs, pc.p).index
      && Content(s.cells, Cell(pc.block, n % BLOCK_SIZE)) == Some(EnqOf(s.enq, pc.p)[n])
  {
    var pc, n := s.b.pcs[t], NextIndex(s.calls, t);
    InvParts(s);
    CallIs(s, t);
    assert pc.i <= n;
    assert CellAt(s.b, pc.p, n) ==
           Cell(Blocks.BlockOf(Blocks.SubAt(s.b.subs, pc.p).index, n / BLOCK_SIZE), n % BLOCK_SIZE);
    HoldsOwnBlock(s.b, t, pc.p, pc.i, pc.end, pc.block);
    InPart(pc.i, n, pc.end);
    assert Blocks.StillTakes(pc, pc.p, n);
    hide Inv, TailsOk, CallsOk, CellsOk, CallOk, Blocks.Reachable, Blocks.StillTakes, CellAt, Content, EnqOf,
         Blocks.SubAt, PartEnd;
    TakerIndexed(s.b, t, pc.p, n);
    StoredCount(s, pc.p);
    assert Wanted(s, pc.p, n) by { hide StoredOf, NextIndex; }
    CellIs(s, pc.p, n);
  }

  /** What is wanted behind a taken element was wanted before, and is another one. */
  lemma WantedAfterTake(s: Queue, t: Thread, q: Thread, j: nat)
    requires Inv(s) && Enabled(s, TakeOne(t)) && Wanted(Apply(s, TakeOne(t)), q, j)
    ensures Wanted(s, q, j) && !(q == s.b.pcs[t].p && j == NextIndex(s.calls, t))
    ensures StoredOf(Apply(s, TakeOne(t)), q) == StoredOf(s, q)
  {
    var s', pc, n := Apply(s, TakeOne(t)), s.b.pcs[t], NextIndex(s.calls, t);
    TakesElement(s, t);
    InvParts(s);
    TakerIndexed(s.b, t, pc.p, n);
    assert s'.b == s.b && s'.enq == s.enq && s'.pending == s.pending && NextIndex(s'.calls, t) == n + 1;
    assert forall u | u != t :: NextIndex(s'.calls, u) == NextIndex(s.calls, u);
    hide Inv, Apply, Enabled, Blocks.Reachable, Blocks.StillTakes, NextIndex, CellAt, Content, Blocks.SubAt, EnqOf;
    if Blocks.SubAt(s.b.subs, q).head > j {
      var u :| u in s'.b.pcs && Blocks.StillTakes(s'.b.pcs[u], q, j) && NextIndex(s'.calls, u) <= j;
      assert NextIndex(s.calls, u) <= j;
      if q == pc.p && j == n {
        OneTaker(s.b, t, u, q, j);
        assert false;
      }
    }
  }

  lemma TakeCells(s: Queue, t: Thread)
    requires Inv(s) && Enabled(s, TakeOne(t))
    ensures CellsOk(Apply(s, TakeOne(t)))
  {
    var s' := Apply(s, TakeOne(t));
    TakeIs(s, t);
    hide *;
    TakesElement(s, t);
    InvParts(s);
    forall q, j: nat | Wanted(s', q, j)
      ensures Content(s'.cells, CellAt(s'.b, q, j)) == Some(StoredOf(s', q)[j])
    {
      TakenCell(s, t, q, j);
    }
    AllCells(s');
  }

  lemma TakeIs(s: Queue, t: Thread)
    requires Enabled(s, TakeOne(t))
    ensures var s' := Apply(s, TakeOne(t)); var c := Cell(s.b.pcs[t].block, NextIndex(s.calls, t) % BLOCK_SIZE);
      && t in s.b.pcs && s.b.pcs[t].SetEmpty?
      && s'.b == s.b && s'.enq == s.enq && s'.pending == s.pending && s'.cells == s.cells[c := None]
      && CallOf(s'.calls, t) == Call(CallOf(s.calls, t).from, CallOf(s.calls, t).got + [Content(s.cells, c)])
      && forall u | u != t :: CallOf(s'.calls, u) == CallOf(s.calls, u)
  {
    hide Content;
  }

  lemma TakenCell(s: Queue, t: Thread, q: Thread, j: nat)
    requires Inv(s) && Enabled(s, TakeOne(t)) && Wanted(Apply(s, TakeOne(t)), q, j)
    ensures var s' := Apply(s, TakeOne(t));
      j < |StoredOf(s', q)| && Content(s'.cells, CellAt(s'.b, q, j)) == Some(StoredOf(s', q)[j])
  {
    var s', pc, n := Apply(s, TakeOne(t)), s.b.pcs[t], NextIndex(s.calls, t);
    var c := Cell(pc.block, n % BLOCK_SIZE);
    hide *;
    TakeIs(s, t);
    TakesElement(s, t);
    InvParts(s);
    WantedAfterTake(s, t, q, j);
    WantedCount(s, q, j);
    WantedIndexed(s, q, j);
    CellIs(s, q, j);
    ContentAfter(s.cells, c, None, CellAt(s.b, q, j));
    if c == CellAt(s.b, q, j) {
      CellsDistinct(s.b, pc.p, n, q, j);
    }
  }

  lemma TakeCalls(s: Queue, t: Thread)
    requires Inv(s) && Enabled(s, TakeOne(t))
    ensures CallsOk(Apply(s, TakeOne(t)))
  {
    var s', pc := Apply(s, TakeOne(t)), s.b.pcs[t];
    var c := Cell(pc.block, NextIndex(s.calls, t) % BLOCK_SIZE);
    assert NextIndex(s.calls, t) < PartEnd(pc.i, pc.end);
    TakeIs(s, t);
    TakesElement(s, t);
    InvParts(s);
    hide Inv, Apply, Enabled, CellsOk, TailsOk, Content, CellAt, Wanted, EnqOf, PartEnd, Blocks.Reachable, CallOf;
    forall u | u in s'.b.pcs
      ensures CallOk(s'.b.pcs[u], CallOf(s'.calls, u), s'.enq)
    {
      CallIs(s, u);
    }
  }

  // ---------------------------------------------------------------------------
  // Calls over the other steps
  // ---------------------------------------------------------------------------

  /** b begins with a. */
  predicate Extends(a: seq<int>, b: seq<int>) {
    |a| <= |b| && b[..|a|] == a
  }

  /** Enqueueing leaves what was taken as it is. */
  lemma GotStays(got: seq<Option<int>>, enq: seq<int>, enq': seq<int>, from: nat, i: nat)
    requires Got(got, enq, from, i) && Extends(enq, enq')
    ensures Got(got, enq', from, i)
  {
    forall k | 0 <= k < |got|
      ensures got[k] == Some(enq'[from + k])
    {
      assert enq'[..|enq|][from + k] == enq[from + k];
    }
  }

  lemma CallStays(pc: Blocks.PC, call: Call, enq: map<Thread, seq<int>>, enq': map<Thread, seq<int>>)
    requires CallOk(pc, call, enq)
    requires forall p :: Extends(EnqOf(enq, p), EnqOf(enq', p))
    ensures CallOk(pc, call, enq')
  {
    hide EnqOf, Got, PartEnd, Extends;
    if Blocks.Dequeueing(pc) {
      GotStays(call.got, EnqOf(enq, pc.p), EnqOf(enq', pc.p), call.from, call.from + |call.got|);
    }
  }

  lemma EnqueuedMore(s: Queue, step: Step)
    requires !step.TakeOne? && Enabled(s, step)
    ensures forall p :: Extends(EnqOf(s.enq, p), EnqOf(Apply(s, step).enq, p))
  {
    hide Apply, Enabled, EnqOf, ActionOf, PendingOf, Blocks.PCOf;
    forall p
      ensures Extends(EnqOf(s.enq, p), EnqOf(Apply(s, step).enq, p))
    {
      RecordsAfter(s, step, p);
    }
  }

  /** Where a dequeueing thread goes, its call fits. */
  lemma OwnCall(s: Queue, step: Step)
    requires Inv(s) && Enabled(s, step) && !step.TakeOne?
    ensures var s', t := Apply(s, step), ActionOf(step).thread;
      t in s'.b.pcs && CallOk(s'.b.pcs[t], CallOf(s'.calls, t), s.enq)
  {
    var s', a := Apply(s, step), ActionOf(step);
    var t := a.thread;
    hide *;
    InvParts(s);
    ActionEnabled(s, step);
    BeginsIdle(s, step);
    CallIs(s, t);
    RecordsAfter(s, step, t);
    if a.Deq? {
      DequeueCall(s, t);
    } else if a.Claim? {
      StoredCount(s, a.p);
      ClaimCall(s, a);
    } else {
      NoCall(s.b, a, CallOf(s'.calls, t), s.enq);
    }
  }

  lemma DequeueCall(s: Queue, t: Thread)
    requires Blocks.Reachable(s.b) && Enabled(s, OfBlocks(Blocks.Deq(t)))
    requires CallOk(s.b.pcs[t], CallOf(s.calls, t), s.enq)
    ensures var b' := Blocks.Apply(s.b, Blocks.Deq(t)); t in b'.pcs && CallOk(b'.pcs[t], CallOf(s.calls, t), s.enq)
  {
    var pc := s.b.pcs[t];
    hide EnqOf, Got, Blocks.Reachable, Blocks.EnqueueStep, Blocks.Counter, Blocks.BlockOf;
    if pc.SetEmpty? {
      HoldsOwnBlock(s.b, t, pc.p, pc.i, pc.end, pc.block);
      assert NextIndex(s.calls, t) == PartEnd(pc.i, pc.end);
    } else if pc.Find? {
      Blocks.FindSucceeds(s.b, t, pc.p, pc.i, pc.end);
      assert pc.i < PartEnd(pc.i, pc.end);
    }
    hide PartEnd;
  }

  lemma ClaimCall(s: Queue, a: Blocks.Action)
    requires Blocks.Enabled(s.b, a) && a.Claim? && Blocks.SubAt(s.b.subs, a.p).tail == |EnqOf(s.enq, a.p)|
    ensures var b', t := Blocks.Apply(s.b, a), a.thread;
      var calls := s.calls[t := Call(Blocks.SubAt(s.b.subs, a.p).head, [])];
      t in b'.pcs && CallOk(b'.pcs[t], CallOf(calls, t), s.enq)
  {
    hide EnqOf, Blocks.SubAt;
  }

  lemma NoCall(b: Blocks.State, a: Blocks.Action, call: Call, enq: map<Thread, seq<int>>)
    requires Blocks.Enabled(b, a) && (a.Enq? || a.StartEnqueue?)
    ensures var b', t := Blocks.Apply(b, a), a.thread; t in b'.pcs && CallOk(b'.pcs[t], call, enq)
  {
    hide EnqOf, Got, PartEnd, Blocks.SubAt, CircularLess, Blocks.DequeueStep;
    match a
    case Enq(_, ok, freed) =>
    case _ =>
  }

  lemma CallsStep(s: Queue, step: Step)
    requires Inv(s) && Enabled(s, step) && !step.TakeOne?
    ensures CallsOk(Apply(s, step))
  {
    var s', a := Apply(s, step), ActionOf(step);
    InvParts(s);
    ActionEnabled(s, step);
    Blocks.OneMoves(s.b, a);
    RecordsAfter(s, step, a.thread);
    CallsElsewhere(s, s', a);
    EnqueuedMore(s, step);
    OwnCall(s, step);
    hide Inv, Apply, Enabled, CellsOk, TailsOk, CallOk, EnqOf, Extends, Blocks.Reachable, Blocks.Apply, Blocks.Enabled,
         CallOf, ActionOf, Blocks.SubAt;
    forall u | u in s'.b.pcs
      ensures CallOk(s'.b.pcs[u], CallOf(s'.calls, u), s'.enq)
    {
      if u != a.thread {
        CallIs(s, u);
      }
      CallStays(s'.b.pcs[u], CallOf(s'.calls, u), s.enq, s'.enq);
    }
  }

  lemma StepKeepsInv(s: Queue, step: Step)
    requires Inv(s) && Enabled(s, step)
    ensures Inv(Apply(s, step))
  {
    hide *;
    InvParts(s);
    TailsStep(s, step);
    if step.TakeOne? {
      TakeIs(s, step.thread);
      TakeCells(s, step.thread);
      TakeCalls(s, step.thread);
    } else {
      ActionEnabled(s, step);
      var b' := Blocks.Go(s.b, ActionOf(step));
      CallsStep(s, step);
      CellsStep(s, step);
    }
    InvOf(Apply(s, step));
  }

  lemma InvOf(s: Queue)
    requires Blocks.Reachable(s.b) && TailsOk(s) && CallsOk(s) && CellsOk(s)
    ensures Inv(s)
  {
  }

  lemma InitInv(s: Queue)
    requires Init(s)
    ensures Inv(s)
  {
    Blocks.InitReachable(s.b);
    hide Blocks.Reachable;
    assert forall p :: Blocks.SubAt(s.b.subs, p).tail == 0;
    assert forall p :: StoredOf(s, p) == [];
  }

  // ---------------------------------------------------------------------------
  // Refinement of plain queues
  // ---------------------------------------------------------------------------

  /** What callers see: an enqueue or a dequeue takes effect, a dequeue returns its elements. */
  datatype Event =
    | Silent
    | Enqueued(p: Thread, x: int)
    | Dequeued(thread: Thread, p: Thread, count: nat)
    | Returned(thread: Thread, got: seq<Option<int>>)

  /** A queue for each producer, and the elements dequeued by threads that have not returned. */
  datatype Queues = Queues(queues: map<Thread, seq<int>>, taken: map<Thread, seq<int>>)

  predicate Allows(f: Queues, e: Event) {
    match e
    case Dequeued(t, p, n) => 0 < n <= |EnqOf(f.queues, p)| && t !in f.taken
    case Returned(t, got) => t in f.taken && Gives(got, f.taken[t])
    case _ => true
  }

  function Next(f: Queues, e: Event): Queues
    requires Allows(f, e)
  {
    match e
    case Silent => f
    case Enqueued(p, x) => f.(queues := f.queues[p := EnqOf(f.queues, p) + [x]])
    case Dequeued(t, p, n) =>
      Queues(f.queues[p := EnqOf(f.queues, p)[n..]], f.taken[t := EnqOf(f.queues, p)[..n]])
    case Returned(t, _) => f.(taken := f.taken - {t})
  }

  /** The events are those of plain queues in state f. */
  ghost predicate Accepts(f: Queues, events: seq<Event>)
    decreases |events|
  {
    events == [] || (Allows(f, events[0]) && Accepts(Next(f, events[0]), events[1..]))
  }

  function EventOf(s: Queue, step: Step): Event
    requires Enabled(s, step)
  {
    match step
    case OfBlocks(Enq(t, _, _)) =>
      if s.b.pcs[t].Publish? then Enqueued(t, PendingOf(s.pending, t)) else Silent
    case OfBlocks(Claim(t, p, n)) => Dequeued(t, p, n)
    case OfBlocks(Deq(t)) =>
      if Blocks.PCOf(Blocks.Apply(s.b, step.a).pcs, t).Idle? then Returned(t, CallOf(s.calls, t).got) else Silent
    case _ => Silent
  }

  ghost function Events(s: Queue, run: seq<Step>): seq<Event>
    requires Legal(s, run)
    decreases |run|
  {
    if run == [] then [] else [EventOf(s, run[0])] + Events(Apply(s, run[0]), run[1..])
  }

  /** The thread is to give back these elements. */
  predicate Owes(s: Queue, t: Thread, xs: seq<int>)
    requires t in s.b.pcs
  {
    var pc := s.b.pcs[t];
    var from := CallOf(s.calls, t).from;
    Blocks.Dequeueing(pc) && from <= pc.end <= |EnqOf(s.enq, pc.p)| && xs == EnqOf(s.enq, pc.p)[from..pc.end]
  }

  /** f are the queues that s stands for. */
  ghost predicate Represents(s: Queue, f: Queues) {
    && (forall p :: Blocks.SubAt(s.b.subs, p).head <= |EnqOf(s.enq, p)| &&
          EnqOf(f.queues, p) == EnqOf(s.enq, p)[Blocks.SubAt(s.b.subs, p).head..])
    && (forall t :: t in f.taken <==> t in s.b.pcs && Blocks.Dequeueing(s.b.pcs[t]))
    && (forall t | t in f.taken :: Owes(s, t, f.taken[t]))
  }

  lemma SliceExtends(a: seq<int>, b: seq<int>, lo: nat, hi: nat)
    requires Extends(a, b) && lo <= hi <= |a|
    ensures b[lo..hi] == a[lo..hi]
  {
    SliceOfPrefix(b, |a|, lo, hi);
  }

  /** What another thread owes stays the same. */
  lemma OwesStays(s: Queue, s': Queue, t: Thread, xs: seq<int>)
    requires t in s.b.pcs && t in s'.b.pcs && Owes(s, t, xs)
    requires Blocks.Dequeueing(s'.b.pcs[t]) && s'.b.pcs[t].p == s.b.pcs[t].p && s'.b.pcs[t].end == s.b.pcs[t].end
    requires CallOf(s'.calls, t).from == CallOf(s.calls, t).from
    requires Extends(EnqOf(s.enq, s.b.pcs[t].p), EnqOf(s'.enq, s.b.pcs[t].p))
    ensures Owes(s', t, xs)
  {
    var pc := s.b.pcs[t];
    SliceExtends(EnqOf(s.enq, pc.p), EnqOf(s'.enq, pc.p), CallOf(s.calls, t).from, pc.end);
    hide EnqOf, CallOf;
  }

  /** A dequeueing thread goes on with the same dequeue, or has returned. */
  predicate Onward(pc: Blocks.PC, pc': Blocks.PC)
    requires Blocks.Dequeueing(pc)
  {
    pc' == Blocks.Idle || (Blocks.Dequeueing(pc') && pc'.p == pc.p && pc'.end == pc.end)
  }

  /** Where the acting thread's step of ImplicitBlocks takes it. */
  lemma OwnPlace(b: Blocks.State, a: Blocks.Action)
    requires Blocks.Enabled(b, a)
    ensures var t := a.thread; var pc, pc' := b.pcs[t], Blocks.Apply(b, a).pcs[t];
      && (a.Deq? ==> Blocks.Dequeueing(pc) && Onward(pc, pc'))
      && (a.Deq? && pc' == Blocks.Idle ==>
            (pc.SetEmpty? && PartEnd(pc.i, pc.end) == pc.end) || (pc.Release? && pc.i == pc.end))
      && (a.Claim? ==> pc == Blocks.Idle && pc' == Blocks.Find(a.p, Blocks.SubAt(b.subs, a.p).head,
            Blocks.SubAt(b.subs, a.p).head + a.count))
      && (a.Enq? || a.StartEnqueue? ==> !Blocks.Dequeueing(pc) && !Blocks.Dequeueing(pc'))
  {
    hide Blocks.Counter, PartEnd, CircularLess, Blocks.BlockOf;
    match a
    case Deq(t) =>
      hide Blocks.EnqueueStep;
    case Enq(t, ok, freed) =>
      hide Blocks.DequeueStep;
    case _ =>
      hide Blocks.EnqueueStep, Blocks.DequeueStep;
  }

  /** With its last step a thread has got all it claimed. */
  lemma GotAll(s: Queue, t: Thread, xs: seq<int>)
    requires Inv(s) && t in s.b.pcs && Enabled(s, OfBlocks(Blocks.Deq(t))) && Owes(s, t, xs)
    requires Blocks.PCOf(Blocks.Apply(s.b, Blocks.Deq(t)).pcs, t).Idle?
    ensures Gives(CallOf(s.calls, t).got, xs)
  {
    var pc := s.b.pcs[t];
    InvParts(s);
    CallIs(s, t);
    OwnPlace(s.b, Blocks.Deq(t));
    Blocks.OneMoves(s.b, Blocks.Deq(t));
    assert NextIndex(s.calls, t) == pc.end;
    hide Inv, Enabled, CellsOk, TailsOk, CallsOk, EnqOf, CallOf, PartEnd, Blocks.Reachable, Blocks.Apply;
  }

  /** Each step is one of a plain queue, or none. */
  lemma StepRefines(s: Queue, step: Step, f: Queues)
    requires Inv(s) && Enabled(s, step) && Represents(s, f)
    ensures Allows(f, EventOf(s, step)) && Represents(Apply(s, step), Next(f, EventOf(s, step)))
  {
    if step.TakeOne? {
      TakeRefines(s, step.thread, f);
    } else {
      BlocksStepRefines(s, step, f);
    }
  }

  lemma TakeRefines(s: Queue, t: Thread, f: Queues)
    requires Enabled(s, TakeOne(t)) && Represents(s, f)
    ensures EventOf(s, TakeOne(t)) == Silent && Represents(Apply(s, TakeOne(t)), f)
  {
    var s' := Apply(s, TakeOne(t));
    hide *;
    TakeIs(s, t);
    TakeIsSilent(s, t);
    forall p
      ensures QueueIs(s', f, p)
    {
      QueueOf(s, f, p);
      SameQueue(s, s', f, p);
    }
    forall u
      ensures TakenIs(s', f, u)
    {
      TakenOf(s, f, u);
      assert CallOf(s'.calls, u).from == CallOf(s.calls, u).from;
      SameTaken(s, s', f, u);
    }
    RepresentsIf(s', f);
  }

  lemma TakeIsSilent(s: Queue, t: Thread)
    requires Enabled(s, TakeOne(t))
    ensures EventOf(s, TakeOne(t)) == Silent
  {
  }

  /** p's queue is what s stands for. */
  ghost predicate QueueIs(s: Queue, f: Queues, p: Thread) {
    Blocks.SubAt(s.b.subs, p).head <= |EnqOf(s.enq, p)| &&
    EnqOf(f.queues, p) == EnqOf(s.enq, p)[Blocks.SubAt(s.b.subs, p).head..]
  }

  /** And so is what thread u owes. */
  ghost predicate TakenIs(s: Queue, f: Queues, u: Thread) {
    && (u in f.taken <==> u in s.b.pcs && Blocks.Dequeueing(s.b.pcs[u]))
    && (u in f.taken ==> Owes(s, u, f.taken[u]))
  }

  lemma RepresentsIf(s: Queue, f: Queues)
    requires (forall p :: QueueIs(s, f, p)) && forall u :: TakenIs(s, f, u)
    ensures Represents(s, f)
  {
    hide Owes, EnqOf, Blocks.SubAt, Blocks.Dequeueing;
    forall p
      ensures Blocks.SubAt(s.b.subs, p).head <= |EnqOf(s.enq, p)| &&
              EnqOf(f.queues, p) == EnqOf(s.enq, p)[Blocks.SubAt(s.b.subs, p).head..]
    {
      assert QueueIs(s, f, p);
    }
    forall u
      ensures u in f.taken <==> u in s.b.pcs && Blocks.Dequeueing(s.b.pcs[u])
      ensures u in f.taken ==> Owes(s, u, f.taken[u])
    {
      assert TakenIs(s, f, u);
    }
  }

  lemma QueueOf(s: Queue, f: Queues, p: Thread)
    requires Represents(s, f)
    ensures QueueIs(s, f, p)
  {
    hide Owes, EnqOf, Blocks.SubAt, Blocks.Dequeueing;
  }

  lemma TakenOf(s: Queue, f: Queues, u: Thread)
    requires Represents(s, f)
    ensures TakenIs(s, f, u)
  {
    hide Owes, EnqOf, Blocks.SubAt, Blocks.Dequeueing;
  }

  lemma SameQueue(s: Queue, s': Queue, f: Queues, p: Thread)
    requires s'.b == s.b && s'.enq == s.enq && QueueIs(s, f, p)
    ensures QueueIs(s', f, p)
  {
    hide EnqOf, Blocks.SubAt;
  }

  lemma SameTaken(s: Queue, s': Queue, f: Queues, u: Thread)
    requires s'.b == s.b && s'.enq == s.enq && CallOf(s'.calls, u).from == CallOf(s.calls, u).from && TakenIs(s, f, u)
    ensures TakenIs(s', f, u)
  {
    hide EnqOf, CallOf;
  }

  /** How many elements an event takes from p's queue, and what it puts to it. */
  function TakenBy(e: Event, p: Thread): nat {
    if e.Dequeued? && e.p == p then e.count else 0
  }

  function AddedBy(e: Event, p: Thread): seq<int> {
    if e.Enqueued? && e.p == p then [e.x] else []
  }

  lemma QueueNext(f: Queues, e: Event, p: Thread)
    requires Allows(f, e)
    ensures TakenBy(e, p) <= |EnqOf(f.queues, p)|
    ensures EnqOf(Next(f, e).queues, p) == EnqOf(f.queues, p)[TakenBy(e, p)..] + AddedBy(e, p)
  {
    hide Gives;
  }

  /** p's head and what was enqueued to p, after the step. */
  lemma SubAfter(s: Queue, step: Step, p: Thread)
    requires !step.TakeOne? && Enabled(s, step)
    ensures var s', e := Apply(s, step), EventOf(s, step);
      && Blocks.SubAt(s'.b.subs, p).head == Blocks.SubAt(s.b.subs, p).head + TakenBy(e, p)
      && EnqOf(s'.enq, p) == EnqOf(s.enq, p) + AddedBy(e, p)
  {
    hide Enabled, Apply, EnqOf, EventOf, Blocks.SubAt, ActionOf, Blocks.Apply, Blocks.Enabled, PendingOf, CallOf,
         TailCell;
    ActionEnabled(s, step);
    RecordsAfter(s, step, p);
    Blocks.HeadChanges(s.b, p, ActionOf(step));
    EventIs(s, step);
  }

  lemma Moved(q: seq<int>, enq: seq<int>, head: nat, n: nat, more: seq<int>)
    requires head <= |enq| && q == enq[head..] && n <= |q|
    ensures head + n <= |enq + more| && q[n..] + more == (enq + more)[head + n..]
  {
  }

  /** The queue of p after the step. */
  lemma QueueAfter(s: Queue, step: Step, f: Queues, p: Thread)
    requires Inv(s) && Enabled(s, step) && !step.TakeOne? && Represents(s, f) && Allows(f, EventOf(s, step))
    ensures QueueIs(Apply(s, step), Next(f, EventOf(s, step)), p)
  {
    var e := EventOf(s, step);
    var s', f' := Apply(s, step), Next(f, e);
    hide *;
    SubAfter(s, step, p);
    QueueOf(s, f, p);
    QueueParts(s, f, p);
    QueueNext(f, e, p);
    QueueMoves(s, f, s', f', p, TakenBy(e, p), AddedBy(e, p));
  }

  lemma QueueParts(s: Queue, f: Queues, p: Thread)
    requires QueueIs(s, f, p)
    ensures Blocks.SubAt(s.b.subs, p).head <= |EnqOf(s.enq, p)|
    ensures EnqOf(f.queues, p) == EnqOf(s.enq, p)[Blocks.SubAt(s.b.subs, p).head..]
  {
    hide EnqOf, Blocks.SubAt;
  }

  lemma QueueMoves(s: Queue, f: Queues, s': Queue, f': Queues, p: Thread, n: nat, more: seq<int>)
    requires Blocks.SubAt(s.b.subs, p).head <= |EnqOf(s.enq, p)|
    requires EnqOf(f.queues, p) == EnqOf(s.enq, p)[Blocks.SubAt(s.b.subs, p).head..]
    requires Blocks.SubAt(s'.b.subs, p).head == Blocks.SubAt(s.b.subs, p).head + n
    requires EnqOf(s'.enq, p) == EnqOf(s.enq, p) + more
    requires n <= |EnqOf(f.queues, p)| && EnqOf(f'.queues, p) == EnqOf(f.queues, p)[n..] + more
    ensures QueueIs(s', f', p)
  {
    Moved(EnqOf(f.queues, p), EnqOf(s.enq, p), Blocks.SubAt(s.b.subs, p).head, n, more);
    hide EnqOf, Blocks.SubAt;
  }

  lemma EventIs(s: Queue, step: Step)
    requires Enabled(s, step) && !step.TakeOne?
    ensures var e, a := EventOf(s, step), ActionOf(step);
      match e
      case Enqueued(p, x) =>
        a.Enq? && a.thread == p && Blocks.PCOf(s.b.pcs, p).Publish? && x == PendingOf(s.pending, p)
      case Dequeued(t, p, n) => a == Blocks.Claim(t, p, n)
      case Returned(t, got) => a == Blocks.Deq(t) && Blocks.PCOf(Blocks.Apply(s.b, a).pcs, t).Idle?
                               && got == CallOf(s.calls, t).got
      case Silent => !a.Claim? && !(a.Enq? && Blocks.PCOf(s.b.pcs, a.thread).Publish?)
                     && !(a.Deq? && Blocks.PCOf(Blocks.Apply(s.b, a).pcs, a.thread).Idle?)
  {
    hide Blocks.Apply, PendingOf, CallOf;
  }

  lemma EventAllowed(s: Queue, step: Step, f: Queues)
    requires Inv(s) && Enabled(s, step) && !step.TakeOne? && Represents(s, f)
    ensures Allows(f, EventOf(s, step))
  {
    var a := ActionOf(step);
    var t := a.thread;
    ActionEnabled(s, step);
    BeginsIdle(s, step);
    EventIs(s, step);
    OwnPlace(s.b, a);
    InvParts(s);
    if a.Claim? {
      StoredCount(s, a.p);
      assert Blocks.SubAt(s.b.subs, a.p).head + a.count <= Blocks.SubAt(s.b.subs, a.p).tail && a.count > 0;
    } else if a.Deq? && Blocks.PCOf(Blocks.Apply(s.b, a).pcs, t).Idle? {
      assert t in f.taken && Owes(s, t, f.taken[t]);
      hide Represents;
      GotAll(s, t, f.taken[t]);
    }
    hide Inv, Apply, Enabled, EnqOf, Blocks.Apply, Blocks.Enabled, EventOf, ActionOf, PendingOf, CallOf, Gives, Owes,
         Blocks.Reachable, CallsOk, CellsOk;
  }

  /** What another thread owes is left alone by an event. */
  lemma TakenOther(f: Queues, e: Event, u: Thread)
    requires Allows(f, e) && (e.Dequeued? || e.Returned? ==> e.thread != u)
    ensures u in Next(f, e).taken <==> u in f.taken
    ensures u in f.taken ==> Next(f, e).taken[u] == f.taken[u]
  {
    hide Gives, EnqOf;
  }

  /** A thread at the same place, or further on in the same dequeue, owes the same. */
  lemma TakenStays(s: Queue, s': Queue, f: Queues, f': Queues, u: Thread)
    requires TakenIs(s, f, u) && (u in f'.taken <==> u in f.taken) && (u in f.taken ==> f'.taken[u] == f.taken[u])
    requires u in s'.b.pcs <==> u in s.b.pcs
    requires u in s.b.pcs ==> Blocks.Dequeueing(s'.b.pcs[u]) == Blocks.Dequeueing(s.b.pcs[u])
    requires u in s.b.pcs && Blocks.Dequeueing(s.b.pcs[u]) ==>
               s'.b.pcs[u].p == s.b.pcs[u].p && s'.b.pcs[u].end == s.b.pcs[u].end
    requires CallOf(s'.calls, u) == CallOf(s.calls, u)
    requires u in s.b.pcs && Blocks.Dequeueing(s.b.pcs[u]) ==>
               Extends(EnqOf(s.enq, s.b.pcs[u].p), EnqOf(s'.enq, s.b.pcs[u].p))
    ensures TakenIs(s', f', u)
  {
    hide Owes, EnqOf, CallOf, Extends, Blocks.Dequeueing;
    if u in f.taken {
      OwesStays(s, s', u, f.taken[u]);
    }
  }

  /** What the step leaves alone of a thread that does not act. */
  lemma OtherPlace(s: Queue, step: Step, u: Thread)
    requires Enabled(s, step) && !step.TakeOne? && u != ActionOf(step).thread
    ensures var s' := Apply(s, step);
      && (u in s'.b.pcs <==> u in s.b.pcs) && (u in s.b.pcs ==> s'.b.pcs[u] == s.b.pcs[u])
      && CallOf(s'.calls, u) == CallOf(s.calls, u)
  {
    var s', a := Apply(s, step), ActionOf(step);
    hide Enabled, Apply, ActionOf, Blocks.Apply, Blocks.Enabled, EnqOf, PendingOf, Blocks.SubAt, Blocks.PCOf, TailCell;
    ActionEnabled(s, step);
    BeginsIdle(s, step);
    Blocks.OneMoves(s.b, a);
    RecordsAfter(s, step, u);
  }

  lemma EnqueuedAt(s: Queue, step: Step, p: Thread)
    requires !step.TakeOne? && Enabled(s, step)
    ensures Extends(EnqOf(s.enq, p), EnqOf(Apply(s, step).enq, p))
  {
    hide Apply, Enabled, EnqOf, ActionOf, PendingOf, Blocks.PCOf;
    RecordsAfter(s, step, p);
  }

  /** Events of the acting thread only. */
  lemma EventThread(s: Queue, step: Step)
    requires Enabled(s, step) && !step.TakeOne?
    ensures var e := EventOf(s, step); e.Dequeued? || e.Returned? ==> e.thread == ActionOf(step).thread
  {
    hide Blocks.Apply, PendingOf, CallOf;
  }

  lemma OtherTaken(s: Queue, step: Step, f: Queues, u: Thread)
    requires Inv(s) && Enabled(s, step) && !step.TakeOne? && Represents(s, f) && Allows(f, EventOf(s, step))
    requires u != ActionOf(step).thread
    ensures TakenIs(Apply(s, step), Next(f, EventOf(s, step)), u)
  {
    var e := EventOf(s, step);
    hide *;
    OtherPlace(s, step, u);
    EventThread(s, step);
    TakenOther(f, e, u);
    TakenOf(s, f, u);
    if u in s.b.pcs && Blocks.Dequeueing(s.b.pcs[u]) {
      DequeueingHas(s.b.pcs[u]);
      EnqueuedAt(s, step, s.b.pcs[u].p);
    }
    TakenStays(s, Apply(s, step), f, Next(f, e), u);
  }

  lemma DequeueingHas(pc: Blocks.PC)
    requires Blocks.Dequeueing(pc)
    ensures pc.Find? || pc.SetEmpty? || pc.Detach? || pc.Release?
  {
  }

  /** With its last step a thread owes nothing more. */
  lemma NothingOwed(f: Queues, e: Event, s: Queue)
    requires Allows(f, e) && e.Returned? && (e.thread in s.b.pcs ==> !Blocks.Dequeueing(s.b.pcs[e.thread]))
    ensures TakenIs(s, Next(f, e), e.thread)
  {
    hide Gives, Owes;
  }

  lemma OwnTaken(s: Queue, step: Step, f: Queues)
    requires Inv(s) && Enabled(s, step) && !step.TakeOne? && Represents(s, f) && Allows(f, EventOf(s, step))
    requires !ActionOf(step).Claim?
    ensures TakenIs(Apply(s, step), Next(f, EventOf(s, step)), ActionOf(step).thread)
  {
    var s', a, e := Apply(s, step), ActionOf(step), EventOf(s, step);
    var t := a.thread;
    hide *;
    ActionEnabled(s, step);
    BeginsIdle(s, step);
    EventIs(s, step);
    OwnPlace(s.b, a);
    Blocks.OneMoves(s.b, a);
    RecordsAfter(s, step, t);
    TakenOf(s, f, t);
    PlaceOf(s.b, t);
    PlaceOf(s'.b, t);
    IdleIsOut();
    if Blocks.Dequeueing(s.b.pcs[t]) {
      DequeueingHas(s.b.pcs[t]);
      EnqueuedAt(s, step, s.b.pcs[t].p);
    }
    if e.Returned? {
      NothingOwed(f, e, s');
    } else {
      TakenOther(f, e, t);
      OnwardIs(s.b.pcs[t], s'.b.pcs[t]);
      TakenStays(s, s', f, Next(f, e), t);
    }
  }

  lemma IdleIsOut()
    ensures !Blocks.Dequeueing(Blocks.Idle)
  {
  }

  lemma OnwardIs(pc: Blocks.PC, pc': Blocks.PC)
    ensures Blocks.Dequeueing(pc) && Onward(pc, pc') && pc' != Blocks.Idle ==>
              Blocks.Dequeueing(pc') && pc'.p == pc.p && pc'.end == pc.end
  {
  }

  /** What thread u owes after the step. */
  lemma TakenAfter(s: Queue, step: Step, f: Queues, u: Thread)
    requires Inv(s) && Enabled(s, step) && !step.TakeOne? && Represents(s, f) && Allows(f, EventOf(s, step))
    ensures TakenIs(Apply(s, step), Next(f, EventOf(s, step)), u)
  {
    hide *;
    if u != ActionOf(step).thread {
      OtherTaken(s, step, f, u);
    } else if ActionOf(step).Claim? {
      ClaimOwes(s, step, f);
    } else {
      OwnTaken(s, step, f);
    }
  }

  lemma ClaimOwes(s: Queue, step: Step, f: Queues)
    requires Inv(s) && Enabled(s, step) && !step.TakeOne? && Represents(s, f) && Allows(f, EventOf(s, step))
    requires ActionOf(step).Claim?
    ensures TakenIs(Apply(s, step), Next(f, EventOf(s, step)), ActionOf(step).thread)
  {
    var s', a := Apply(s, step), ActionOf(step);
    ActionEnabled(s, step);
    OwnPlace(s.b, a);
    Blocks.OneMoves(s.b, a);
    InvParts(s);
    StoredCount(s, a.p);
    var head, enq := Blocks.SubAt(s.b.subs, a.p).head, EnqOf(s.enq, a.p);
    assert EnqOf(f.queues, a.p) == enq[head..] && head <= |enq|;
    assert s'.calls == s.calls[a.thread := Call(head, [])] && s'.enq == s.enq;
    assert EventOf(s, step) == Dequeued(a.thread, a.p, a.count);
    assert head + a.count <= Blocks.SubAt(s.b.subs, a.p).tail;
    hide Inv, Represents, Apply, Enabled, EnqOf, Blocks.Apply, Blocks.Enabled, EventOf, ActionOf, PendingOf, Gives,
         Blocks.SubAt, Blocks.Reachable, CallsOk, CellsOk, TailsOk;
    assert enq[head..][..a.count] == enq[head..head + a.count];
  }

  lemma BlocksStepRefines(s: Queue, step: Step, f: Queues)
    requires Inv(s) && Enabled(s, step) && !step.TakeOne? && Represents(s, f)
    ensures Allows(f, EventOf(s, step)) && Represents(Apply(s, step), Next(f, EventOf(s, step)))
  {
    EventAllowed(s, step, f);
    var s', f' := Apply(s, step), Next(f, EventOf(s, step));
    hide *;
    forall p
      ensures QueueIs(s', f', p)
    {
      QueueAfter(s, step, f, p);
    }
    forall u
      ensures TakenIs(s', f', u)
    {
      TakenAfter(s, step, f, u);
    }
    RepresentsIf(s', f');
  }

  lemma {:induction false} RunRefines(s: Queue, run: seq<Step>, f: Queues)
    requires Inv(s) && Legal(s, run) && Represents(s, f)
    ensures Accepts(f, Events(s, run))
    decreases |run|
  {
    hide Inv, Represents, Allows, Next, EventOf, Apply, Enabled;
    if run != [] {
      var e := EventOf(s, run[0]);
      StepRefines(s, run[0], f);
      StepKeepsInv(s, run[0]);
      RunRefines(Apply(s, run[0]), run[1..], Next(f, e));
      assert Events(s, run)[1..] == Events(Apply(s, run[0]), run[1..]);
    }
  }

  /** However any number of threads enqueue, each to its own sub-queue, and dequeue from any, singly or in bulk, each
      sub-queue behaves as a plain first-in first-out queue; blocks may be shared, released and used again. */
  lemma FifoRefinement(s: Queue, run: seq<Step>)
    requires Init(s) && Legal(s, run)
    ensures Accepts(Queues(map[], map[]), Events(s, run))
  {
    InitInv(s);
    assert Represents(s, Queues(map[], map[])) by { hide Inv; }
    RunRefines(s, run, Queues(map[], map[]));
  }

  // ---------------------------------------------------------------------------
  // What holds in every reachable state, and a run to an element
  // ---------------------------------------------------------------------------

  lemma {:induction false} RunKeepsInv(s: Queue, run: seq<Step>)
    requires Inv(s) && Legal(s, run)
    ensures Inv(Final(s, run))
    decreases |run|
  {
    hide Inv, Apply, Enabled;
    if run != [] {
      StepKeepsInv(s, run[0]);
      RunKeepsInv(Apply(s, run[0]), run[1..]);
    }
  }

  /** What a thread takes out of a block is the element enqueued with its next index, however the blocks of all
      sub-queues were shared, released and used again. */
  lemma TakenIsEnqueued(s: Queue, t: Thread)
    requires Reachable(s) && Enabled(s, TakeOne(t))
    ensures var pc, n := s.b.pcs[t], NextIndex(s.calls, t);
      && n < |EnqOf(s.enq, pc.p)|
      && Content(s.cells, Cell(pc.block, n % BLOCK_SIZE)) == Some(EnqOf(s.enq, pc.p)[n])
  {
    hide Init, Inv, Enabled;
    var s0, run :| Init(s0) && Legal(s0, run) && s == Final(s0, run);
    InitInv(s0);
    RunKeepsInv(s0, run);
    TakesElement(s, t);
  }

  lemma {:induction false} OneStepMore(s: Queue, run: seq<Step>, step: Step)
    requires Legal(s, run) && Enabled(Final(s, run), step)
    ensures Legal(s, run + [step]) && Final(s, run + [step]) == Apply(Final(s, run), step)
    decreases |run|
  {
    hide Apply, Enabled;
    if run == [] {
      assert run + [step] == [step] && [step][1..] == [];
    } else {
      assert (run + [step])[1..] == run[1..] + [step];
      OneStepMore(Apply(s, run[0]), run[1..], step);
    }
  }

  /** The state after one step more. */
  lemma Go(s: Queue, step: Step) returns (s': Queue)
    requires Reachable(s) && Enabled(s, step)
    ensures Reachable(s') && s' == Apply(s, step)
  {
    hide Init, Legal, Final, Apply, Enabled;
    var s0, run :| Init(s0) && Legal(s0, run) && s == Final(s0, run);
    OneStepMore(s0, run, step);
    s' := Apply(s, step);
  }

  lemma InitReachable(s: Queue)
    requires Init(s)
    ensures Reachable(s)
  {
    hide Init;
    assert Legal(s, []) && s == Final(s, []);
  }

  /** A step of thread 0's enqueue that stores and publishes nothing. */
  lemma EnqueueGo(s: Queue) returns (s': Queue)
    requires Reachable(s) && 0 in s.b.pcs && Blocks.Enqueueing(s.b.pcs[0]) && !s.b.pcs[0].Store? && !s.b.pcs[0].Publish?
    ensures Reachable(s') && s' == s.(b := Blocks.EnqueueStep(s.b, 0, s.b.pcs[0], true, None))
  {
    hide Reachable, Blocks.EnqueueStep;
    s' := Go(s, OfBlocks(Blocks.Enq(0, true, None)));
  }

  /** Thread 0 is about to take a block for its first element. */
  lemma RunToPool() returns (s: Queue)
    ensures Reachable(s) && s.cells == map[] && s.enq == map[] && s.pending == map[0 := 42]
    ensures s.b == Blocks.State(map[], map[], 1, 0, 1, {}, map[0 := Blocks.TakeFromPool, 1 := Blocks.Idle])
  {
    hide Reachable;
    assert CircularLess(0, 0 + BLOCK_SIZE) by { BelowHalf(); }
    s := Queue(Blocks.State(map[], map[], 1, 0, 1, {}, map[0 := Blocks.Idle, 1 := Blocks.Idle]), map[], map[], map[],
               map[]);
    InitReachable(s);
    s := Go(s, Begin(0, 42));
    hide Apply, Enabled, CircularLess;
    s := EnqueueGo(s);
    s := EnqueueGo(s);
    s := EnqueueGo(s);
  }

  lemma BelowHalf()
    ensures CircularLess(0, 0 + BLOCK_SIZE)
  {
  }

  /** It has put the block into its index. */
  lemma RunToBlock() returns (s: Queue)
    ensures Reachable(s) && s.cells == map[] && s.enq == map[] && s.pending == map[0 := 42]
    ensures s.b.pcs == map[0 := Blocks.Store, 1 := Blocks.Idle]
    ensures s.b.subs == map[0 := Blocks.Sub(0, 0, 0, map[0 := 0])]
  {
    hide Reachable, Apply, Enabled, CircularLess;
    s := RunToPool();
    s := EnqueueGo(s);
    s := EnqueueGo(s);
    s := EnqueueGo(s);
  }

  /** The element is enqueued. */
  lemma RunToEnqueued() returns (s: Queue)
    ensures Reachable(s) && s.b.pcs == map[0 := Blocks.Idle, 1 := Blocks.Idle]
    ensures EnqOf(s.enq, 0) == [42] && s.b.subs == map[0 := Blocks.Sub(1, 0, 0, map[0 := 0])]
  {
    hide Reachable, CircularLess;
    s := RunToBlock();
    s := Go(s, OfBlocks(Blocks.Enq(0, true, None)));
    s := Go(s, OfBlocks(Blocks.Enq(0, true, None)));
  }

  /** Another thread has taken it. */
  lemma RunToTaken() returns (s: Queue)
    ensures Reachable(s) && 1 in s.b.pcs && s.b.pcs[1].SetEmpty? && CallOf(s.calls, 1).got == [Some(42)]
  {
    hide Reachable, Legal, Final, Init, PendingOf;
    s := RunToEnqueued();
    s := Go(s, OfBlocks(Blocks.Claim(1, 0, 1)));
    s := Go(s, OfBlocks(Blocks.Deq(1)));
    TakenIsEnqueued(s, 1);
    s := Go(s, TakeOne(1));
  }
}
