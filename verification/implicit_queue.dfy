/**
  An implicit producer as a whole: the life of its blocks (ImplicitBlocks) and the rings of its block index
  (ImplicitIndex) in one machine.

  ImplicitBlocks takes the index for a map; ImplicitIndex takes for granted that threads look up only what the map has
  and clear an entry only when they are alone with it.  Here each thread does both: where it claims, attaches, counts or
  detaches in the one, it moves in the other, and in every reachable state the two fit.
 */
module ImplicitQueue {
  import opened Basics
  import Blocks = ImplicitBlocks
  import Index = ImplicitIndex

  /** The blocks of all sub-queues, and the rings of one producer's. */
  datatype Joint = Joint(b: Blocks.State, x: Index.Index)

  /** A step of ImplicitBlocks, with what goes with it in the rings; or one in the rings alone: of a look-up, or of the
      enqueueing thread on its way to an entry or back. */
  datatype Step = OfBlocks(a: Blocks.Action) | ReadRing(t: Thread) | WriteRing(grown: bool)

  /** What each thread must have done in the rings first: its look-up before it uses a block, the insertion of an entry
      before it goes for a block, and the rewinding after a failure before anything else. */
  predicate Ready(j: Joint, p: Thread, a: Blocks.Action)
    requires a.thread in j.b.pcs
  {
    var pc := j.b.pcs[a.thread];
    match a
    case StartEnqueue(t) => t == p ==> j.x.writer == Index.Rest
    case Claim(t, _, _) => t == p ==> j.x.writer == Index.Rest
    case Deq(t) => pc.Find? && pc.p == p ==> t in j.x.readers && j.x.readers[t].Holds?
    case Enq(t, ok, _) =>
      t == p && pc == Blocks.InsertEntry ==> if ok then j.x.writer.Requisitioned? else j.x.writer == Index.Rest
  }

  predicate Enabled(j: Joint, p: Thread, step: Step) {
    match step
    case OfBlocks(a) => Blocks.Enabled(j.b, a) && Ready(j, p, a)
    case ReadRing(t) => t in j.x.readers && j.x.readers[t] != Index.Away && !j.x.readers[t].Holds?
    case WriteRing(_) =>
      p in j.b.pcs &&
      ((j.b.pcs[p] == Blocks.InsertEntry && !j.x.writer.Requisitioned?) ||
       (j.b.pcs[p] == Blocks.Idle && j.x.writer != Index.Rest))
  }

  /** What the acting thread does in the rings of p. */
  function RingMove(b: Blocks.State, p: Thread, a: Blocks.Action): Option<Index.Move>
    requires Blocks.Enabled(b, a)
  {
    var pc := b.pcs[a.thread];
    match a
    case StartEnqueue(_) => None
    case Claim(t, q, n) =>
      var head := Blocks.SubAt(b.subs, p).head;
      if q == p then Some(Index.Begin(t, head, head + n)) else None
    case Deq(t) =>
      if pc.SetEmpty? && pc.p == p then
        (if Blocks.DequeueStep(b, t, pc).pcs[t].Detach? then None else Some(Index.Leave(t, false)))
      else if pc.Detach? && pc.p == p then Some(Index.Leave(t, true))
      else None
    case Enq(t, ok, _) =>
      if t == p && pc.Attach? then Some(Index.Write(Some(pc.block)))
      else if t == p && pc.Create? && !ok then Some(Index.Write(None))
      else None
  }

  /** A move in the rings; that it is one the rings allow is shown below. */
  ghost function MoveRing(x: Index.Index, m: Option<Index.Move>): Index.Index {
    if m.Some? && Index.Enabled(x, m.value) then Index.Apply(x, m.value) else x
  }

  ghost function Apply(j: Joint, p: Thread, step: Step): Joint
    requires Enabled(j, p, step)
  {
    match step
    case OfBlocks(a) => Joint(Blocks.Apply(j.b, a), MoveRing(j.x, RingMove(j.b, p, a)))
    case ReadRing(t) => j.(x := MoveRing(j.x, Some(Index.Read(t))))
    case WriteRing(grown) => j.(x := MoveRing(j.x, Some(Index.Write(if grown then Some(0) else None))))
  }

  ghost predicate Init(j: Joint) {
    Blocks.Init(j.b) && Index.Init(j.x) && j.x.readers.Keys == j.b.pcs.Keys
  }

  ghost predicate Legal(j: Joint, p: Thread, run: seq<Step>)
    decreases |run|
  {
    run == [] || (Enabled(j, p, run[0]) && Index.Roomy(j.x) && Legal(Apply(j, p, run[0]), p, run[1..]))
  }

  ghost function Final(j: Joint, p: Thread, run: seq<Step>): Joint
    requires Legal(j, p, run)
    decreases |run|
  {
    if run == [] then j else Final(Apply(j, p, run[0]), p, run[1..])
  }

  ghost predicate Reachable(j: Joint, p: Thread) {
    exists j0, run :: Init(j0) && Legal(j0, p, run) && j == Final(j0, p, run)
  }

  // ---------------------------------------------------------------------------
  // How the two fit
  // ---------------------------------------------------------------------------

  /** What a thread at this place does in the rings of p. */
  predicate Follows(pc: Blocks.PC, p: Thread, r: Index.Reader) {
    match pc
    case Find(q, i, end) => if q == p then At(r, i, end) else r == Index.Away
    case SetEmpty(q, i, end, _) => if q == p then r.Holds? && At(r, i, end) else r == Index.Away
    case Detach(q, i, end, _, k) =>
      if q == p then r.Holds? && At(r, r.i, end) && r.i / BLOCK_SIZE == k && i == PartEnd(r.i, end) else r == Index.Away
    case Release(q, i, end, _) => if q == p && i != end then r.Holds? && At(r, i, end) else r == Index.Away
    case _ => r == Index.Away
  }

  /** A reader with these indices to go. */
  predicate At(r: Index.Reader, i: nat, end: nat) {
    r != Index.Away && r.i == i < end == r.end
  }

  /** The enqueueing thread has an entry while it goes for a block; else it is at no entry, or giving one back. */
  predicate WriterFollows(pc: Blocks.PC, w: Index.Writer) {
    match pc
    case InsertEntry => !w.Rewind? && !w.ClearValue?
    case CheckPool => w.Requisitioned?
    case TakeFromPool => w.Requisitioned?
    case TryFreeList => w.Requisitioned?
    case Create => w.Requisitioned?
    case Reset(_) => w.Requisitioned?
    case Attach(_) => w.Requisitioned?
    case Idle => w == Index.Rest || w.Rewind? || w.ClearValue?
    case _ => w == Index.Rest
  }

  /** The number of blocks p has started. */
  function StartedBy(b: Blocks.State, p: Thread): nat {
    Blocks.Started(Blocks.PhaseOf(Blocks.PCOf(b.pcs, p)), Blocks.SubAt(b.subs, p).tail)
  }

  ghost predicate ReadersFollow(b: Blocks.State, x: Index.Index, p: Thread) {
    x.readers.Keys == b.pcs.Keys && forall u | u in b.pcs :: Follows(b.pcs[u], p, x.readers[u])
  }

  /** The rings have the blocks of p's index, their readers are the threads that dequeue from p, and their writer is
      p. */
  ghost predicate Together(b: Blocks.State, x: Index.Index, p: Thread) {
    && x.live == Blocks.SubAt(b.subs, p).index
    && ReadersFollow(b, x, p)
    && WriterFollows(Blocks.PCOf(b.pcs, p), x.writer)
    && x.started == StartedBy(b, p)
  }

  ghost predicate Inv(j: Joint, p: Thread) {
    Blocks.Reachable(j.b) && Index.Reachable(j.x) && Together(j.b, j.x, p)
  }

  // ---------------------------------------------------------------------------
  // Every step keeps the two together
  // ---------------------------------------------------------------------------

  lemma StartedChanges(b: Blocks.State, p: Thread, a: Blocks.Action)
    requires Blocks.Reachable(b) && Blocks.Enabled(b, a)
    ensures var attaches := a.Enq? && a.thread == p && b.pcs[p].Attach?;
      && (attaches ==> StartedBy(b, p) == Blocks.SubAt(b.subs, p).tail / BLOCK_SIZE)
      && StartedBy(Blocks.Apply(b, a), p) == StartedBy(b, p) + if attaches then 1 else 0
  {
    if p in b.pcs {
      Blocks.StartsAtEdge(b, p);
    }
    hide Blocks.Reachable, Blocks.Counter, PartEnd, CircularLess;
    Blocks.TailChanges(b, p, a);
    hide Blocks.Apply;
    Blocks.StartedAtEdge(Blocks.SubAt(b.subs, p).tail);
  }

  /** The acting thread's new place and its new reader fit, and the others are as before. */
  lemma ReadersStep(b: Blocks.State, x: Index.Index, p: Thread, a: Blocks.Action, x': Index.Index)
    requires Blocks.Enabled(b, a) && ReadersFollow(b, x, p)
    requires x'.readers.Keys == x.readers.Keys && forall u | u in x.readers && u != a.thread ::
          x'.readers[u] == x.readers[u]
    requires a.thread in x.readers ==> Follows(Blocks.Apply(b, a).pcs[a.thread], p, x'.readers[a.thread])
    ensures ReadersFollow(Blocks.Apply(b, a), x', p)
  {
    Blocks.OneMoves(b, a);
    hide Blocks.Apply, Follows, Blocks.Enabled;
  }

  /** The parts of fitting together, from what the step changes. */
  lemma TogetherStep(b: Blocks.State, x: Index.Index, p: Thread, a: Blocks.Action, x': Index.Index)
    requires Blocks.Reachable(b) && Blocks.Enabled(b, a) && Together(b, x, p)
    requires x'.live == Blocks.IndexAfter(b, p, a)
    requires x'.readers.Keys == x.readers.Keys && forall u | u in x.readers && u != a.thread ::
          x'.readers[u] == x.readers[u]
    requires a.thread in x.readers ==> Follows(Blocks.Apply(b, a).pcs[a.thread], p, x'.readers[a.thread])
    requires WriterFollows(Blocks.PCOf(Blocks.Apply(b, a).pcs, p), x'.writer)
    requires x'.started == x.started + if a.Enq? && a.thread == p && b.pcs[p].Attach? then 1 else 0
    ensures Together(Blocks.Apply(b, a), x', p)
  {
    Blocks.IndexChanges(b, p, a);
    StartedChanges(b, p, a);
    hide Blocks.Apply, Follows, Blocks.Enabled, Blocks.Reachable, Blocks.IndexAfter, WriterFollows, StartedBy,
         ReadersFollow;
    ReadersStep(b, x, p, a, x');
  }

  lemma ReaderOf(b: Blocks.State, x: Index.Index, p: Thread, t: Thread)
    requires Together(b, x, p) && t in b.pcs
    ensures t in x.readers && Follows(b.pcs[t], p, x.readers[t]) && x.live == Blocks.SubAt(b.subs, p).index
    ensures WriterFollows(Blocks.PCOf(b.pcs, p), x.writer)
  {
    hide Follows, WriterFollows, StartedBy;
  }

  /** The writer stays where it is, and fits, when its own thread dequeues or another one acts. */
  lemma WriterStays(b: Blocks.State, x: Index.Index, p: Thread, a: Blocks.Action)
    requires Blocks.Enabled(b, a) && Together(b, x, p) && (a.Claim? || a.Deq? || a.thread != p)
    requires a.Claim? && a.thread == p ==> x.writer == Index.Rest
    ensures WriterFollows(Blocks.PCOf(Blocks.Apply(b, a).pcs, p), x.writer)
  {
    Blocks.OneMoves(b, a);
    ReaderPart(b, x, p);
    if a.thread == p {
      OwnPlace(b, a);
    }
    hide Blocks.Apply, ReadersFollow, StartedBy, Together;
  }

  lemma ReaderPart(b: Blocks.State, x: Index.Index, p: Thread)
    requires Together(b, x, p)
    ensures ReadersFollow(b, x, p) && WriterFollows(Blocks.PCOf(b.pcs, p), x.writer)
  {
    hide ReadersFollow, WriterFollows, StartedBy;
  }

  /** Where a thread goes that claims or dequeues. */
  lemma OwnPlace(b: Blocks.State, a: Blocks.Action)
    requires Blocks.Enabled(b, a) && (a.Claim? || a.Deq?)
    ensures var pc := Blocks.Apply(b, a).pcs[a.thread]; Blocks.Dequeueing(pc) || pc == Blocks.Idle
  {
    hide PartEnd, Blocks.Counter;
  }

  lemma ClaimedLive(b: Blocks.State, p: Thread, t: Thread, n: nat)
    requires Blocks.Reachable(b) && Blocks.Enabled(b, Blocks.Claim(t, p, n))
    ensures var q := Blocks.SubAt(b.subs, p); Index.RangeLive(q.index, q.head, q.head + n)
  {
    var i := Blocks.SubAt(b.subs, p).head;
    var b' := Blocks.Go(b, Blocks.Claim(t, p, n));
    Blocks.FindSucceeds(b', t, p, i, i + n);
    hide Blocks.Reachable;
    forall k: nat | Within(i, i + n, k)
      ensures k in Blocks.SubAt(b.subs, p).index
    {
      var j := if k * BLOCK_SIZE < i then i else k * BLOCK_SIZE;
      assert i <= j < i + n && j / BLOCK_SIZE == k;
    }
  }

  /** A thread that claims indices of p begins to look them up: the rings have all their blocks. */
  lemma ClaimStep(b: Blocks.State, x: Index.Index, p: Thread, t: Thread, n: nat)
    requires Blocks.Reachable(b) && Together(b, x, p) && Blocks.Enabled(b, Blocks.Claim(t, p, n))
    requires t == p ==> x.writer == Index.Rest
    ensures var m := Index.Begin(t, Blocks.SubAt(b.subs, p).head, Blocks.SubAt(b.subs, p).head + n);
      Index.Enabled(x, m) && Together(Blocks.Apply(b, Blocks.Claim(t, p, n)), Index.Apply(x, m), p)
  {
    var i := Blocks.SubAt(b.subs, p).head;
    var a := Blocks.Claim(t, p, n);
    ReaderOf(b, x, p, t);
    ClaimedLive(b, p, t, n);
    WriterStays(b, x, p, a);
    hide Blocks.Reachable, Together, Index.RangeLive;
    TogetherStep(b, x, p, a, Index.Apply(x, Index.Begin(t, i, i + n)));
  }

  /** Steps that do nothing in the rings. */
  lemma SilentStep(b: Blocks.State, x: Index.Index, p: Thread, a: Blocks.Action)
    requires Blocks.Reachable(b) && Together(b, x, p) && Blocks.Enabled(b, a) && RingMove(b, p, a) == None
    requires Ready(Joint(b, x), p, a)
    ensures Together(Blocks.Apply(b, a), x, p)
  {
    ReaderOf(b, x, p, a.thread);
    SilentReader(b, x, p, a);
    SilentWriter(b, x, p, a);
    SilentIndex(b, p, a);
    hide *;
    TogetherStep(b, x, p, a, x);
  }

  lemma SilentIndex(b: Blocks.State, p: Thread, a: Blocks.Action)
    requires Blocks.Enabled(b, a) && RingMove(b, p, a) == None
    ensures Blocks.IndexAfter(b, p, a) == Blocks.SubAt(b.subs, p).index
    ensures !(a.Enq? && a.thread == p && b.pcs[p].Attach?)
  {
    hide Blocks.DequeueStep;
  }

  lemma SilentReader(b: Blocks.State, x: Index.Index, p: Thread, a: Blocks.Action)
    requires Blocks.Enabled(b, a) && RingMove(b, p, a) == None && Ready(Joint(b, x), p, a)
    requires a.thread in x.readers && Follows(b.pcs[a.thread], p, x.readers[a.thread])
    ensures Follows(Blocks.Apply(b, a).pcs[a.thread], p, x.readers[a.thread])
  {
    hide Blocks.Counter, CircularLess;
    match a
    case Deq(t) =>
      hide Blocks.SubAt, Blocks.BlockOf;
      if b.pcs[t].SetEmpty? && b.pcs[t].p == p {
        assert Blocks.DequeueStep(b, t, b.pcs[t]).pcs[t].Detach?;
        hide PartEnd;
      }
    case Enq(t, ok, freed) =>
      hide PartEnd;
    case _ =>
  }

  lemma SilentWriter(b: Blocks.State, x: Index.Index, p: Thread, a: Blocks.Action)
    requires Blocks.Enabled(b, a) && Together(b, x, p) && RingMove(b, p, a) == None && Ready(Joint(b, x), p, a)
    ensures WriterFollows(Blocks.PCOf(Blocks.Apply(b, a).pcs, p), x.writer)
  {
    if a.Claim? || a.Deq? || a.thread != p {
      hide RingMove, Blocks.Apply;
      WriterStays(b, x, p, a);
    } else {
      ReaderPart(b, x, p);
      hide Together, ReadersFollow, Blocks.Counter, PartEnd, CircularLess;
    }
  }

  /** Where a thread goes on in the rings is where its part of a block ends. */
  lemma PartsEnd(rings: seq<Index.Ring>, r: Index.Reader)
    requires r.Holds? && r.i < r.end
    ensures var next := Index.Onward(rings, r); var i := PartEnd(r.i, r.end);
      if i == r.end then next == Index.Away else next.Holds? && next.i == i < r.end == next.end
  {
  }

  /** A thread that counts its elements of a block as dequeued, and is not the last to, goes on in the rings. */
  lemma CountStep(b: Blocks.State, x: Index.Index, p: Thread, t: Thread)
    requires Blocks.Reachable(b) && Together(b, x, p) && t in b.pcs && b.pcs[t].SetEmpty? && b.pcs[t].p == p
    requires !Blocks.DequeueStep(b, t, b.pcs[t]).pcs[t].Detach?
    ensures var a, m := Blocks.Deq(t), Index.Leave(t, false);
      Index.Enabled(x, m) && Together(Blocks.Apply(b, a), Index.Apply(x, m), p)
  {
    var a := Blocks.Deq(t);
    ReaderOf(b, x, p, t);
    CountedPlace(b, t, b.pcs[t], x.rings, x.readers[t], p);
    WriterStays(b, x, p, a);
    hide Blocks.Reachable, Blocks.DequeueStep, Together, Follows, Index.Onward;
    TogetherStep(b, x, p, a, Index.Apply(x, Index.Leave(t, false)));
  }

  lemma CountedPlace(b: Blocks.State, t: Thread, pc: Blocks.PC, rings: seq<Index.Ring>, r: Index.Reader, p: Thread)
    requires t in b.pcs && pc == b.pcs[t] && pc.SetEmpty? && pc.p == p && Follows(pc, p, r)
    requires !Blocks.DequeueStep(b, t, pc).pcs[t].Detach?
    ensures r.Holds? && Follows(Blocks.DequeueStep(b, t, pc).pcs[t], p, Index.Onward(rings, r))
  {
    PartsEnd(rings, r);
    hide PartEnd, Blocks.Counter, Index.Onward;
  }

  /** Who is busy with block k in the rings is about to detach it, or has an index of it to take still. */
  lemma BusyTakes(pc: Blocks.PC, p: Thread, r: Index.Reader, k: nat) returns (j: nat)
    requires Follows(pc, p, r) && Index.BusyWith(r, k)
    ensures (pc.Detach? && pc.number == k && pc.p == p) || (Blocks.StillTakes(pc, p, j) && j / BLOCK_SIZE == k)
  {
    j := if k * BLOCK_SIZE < r.i then r.i else k * BLOCK_SIZE;
    assert j / BLOCK_SIZE == k && r.i <= j < r.end;
  }

  lemma OthersElsewhere(b: Blocks.State, x: Index.Index, p: Thread, t: Thread, u: Thread)
    requires Blocks.Reachable(b) && Together(b, x, p) && t in b.pcs && b.pcs[t].Detach? && b.pcs[t].p == p
    requires u in b.pcs && u != t
    ensures u in x.readers && !Index.BusyWith(x.readers[u], b.pcs[t].number)
  {
    var pc := b.pcs[t];
    var k := pc.number;
    Blocks.ReleasedWhenDrained(b, t, p, pc.i, pc.end, pc.block, k);
    ReaderOf(b, x, p, u);
    var r := x.readers[u];
    hide Blocks.Reachable, Together, Follows;
    if Index.BusyWith(r, k) {
      var j := BusyTakes(b.pcs[u], p, r, k);
      if b.pcs[u].Detach? && b.pcs[u].number == k {
        Blocks.ReleasedWhenDrained(b, u, p, b.pcs[u].i, b.pcs[u].end, b.pcs[u].block, k);
      }
    }
  }

  /** The last one is alone with the block: it clears the entry, and the map loses what the rings lose. */
  lemma DetachStep(b: Blocks.State, x: Index.Index, p: Thread, t: Thread)
    requires Blocks.Reachable(b) && Together(b, x, p) && t in b.pcs && b.pcs[t].Detach? && b.pcs[t].p == p
    ensures var a, m := Blocks.Deq(t), Index.Leave(t, true);
      Index.Enabled(x, m) && Together(Blocks.Apply(b, a), Index.Apply(x, m), p)
  {
    var a := Blocks.Deq(t);
    ReaderOf(b, x, p, t);
    DetachedPlace(b, t, b.pcs[t], x.rings, x.readers[t], p);
    WriterStays(b, x, p, a);
    assert x.readers.Keys == b.pcs.Keys;
    hide Blocks.Reachable, Blocks.DequeueStep, Together, Follows, Index.Onward, Index.BusyWith;
    forall u | u in x.readers && u != t
      ensures !Index.BusyWith(x.readers[u], b.pcs[t].number)
    {
      OthersElsewhere(b, x, p, t, u);
    }
    TogetherStep(b, x, p, a, Index.Apply(x, Index.Leave(t, true)));
  }

  lemma DetachedPlace(b: Blocks.State, t: Thread, pc: Blocks.PC, rings: seq<Index.Ring>, r: Index.Reader, p: Thread)
    requires t in b.pcs && pc == b.pcs[t] && pc.Detach? && pc.p == p && Follows(pc, p, r)
    ensures r.Holds? && r.i / BLOCK_SIZE == pc.number
    ensures Follows(Blocks.DequeueStep(b, t, pc).pcs[t], p, Index.Onward(rings, r))
  {
    PartsEnd(rings, r);
    hide PartEnd, Index.Onward;
  }

  /** The entry of the enqueueing thread gets the block that is attached. */
  lemma AttachStep(b: Blocks.State, x: Index.Index, p: Thread, a: Blocks.Action)
    requires Blocks.Reachable(b) && Together(b, x, p) && Blocks.Enabled(b, a) && a.Enq? && a.thread == p
          && b.pcs[p].Attach?
    ensures Together(Blocks.Apply(b, a), Index.Apply(x, Index.Write(Some(b.pcs[p].block))), p)
  {
    ReaderOf(b, x, p, p);
    StartedChanges(b, p, a);
    assert x.started == Blocks.SubAt(b.subs, p).tail / BLOCK_SIZE;
    hide Blocks.Reachable, StartedBy, Together;
    TogetherStep(b, x, p, a, Index.Apply(x, Index.Write(Some(b.pcs[p].block))));
  }

  /** Without a block it goes back to its entry to give it back. */
  lemma FailStep(b: Blocks.State, x: Index.Index, p: Thread, a: Blocks.Action)
    requires Blocks.Reachable(b) && Together(b, x, p) && Blocks.Enabled(b, a) && a.Enq? && a.thread == p
    requires b.pcs[p].Create? && !a.ok
    ensures Together(Blocks.Apply(b, a), Index.Apply(x, Index.Write(None)), p)
  {
    ReaderOf(b, x, p, p);
    hide Blocks.Reachable, StartedBy, Together;
    TogetherStep(b, x, p, a, Index.Apply(x, Index.Write(None)));
  }

  /** A step of a look-up. */
  lemma ReadStep(b: Blocks.State, x: Index.Index, p: Thread, t: Thread)
    requires Together(b, x, p) && t in x.readers && x.readers[t] != Index.Away && !x.readers[t].Holds?
    ensures Index.Enabled(x, Index.Read(t)) && Together(b, Index.Apply(x, Index.Read(t)), p)
  {
    ReadPlace(x, t);
    hide WriterFollows, StartedBy, Index.ReaderStep;
  }

  lemma ReadPlace(x: Index.Index, t: Thread)
    requires t in x.readers && x.readers[t] != Index.Away && !x.readers[t].Holds?
    ensures var x' := Index.ReaderStep(x, t, x.readers[t]);
      && x' == x.(readers := x.readers[t := x'.readers[t]])
      && x'.readers[t] != Index.Away && x'.readers[t].i == x.readers[t].i && x'.readers[t].end == x.readers[t].end
  {
    hide Index.KeyAt, Index.SlotAt, Index.RingAt;
  }

  /** A step of the enqueueing thread on its way to an entry, or giving it back. */
  lemma WriteStep(b: Blocks.State, x: Index.Index, p: Thread, block: Option<Block>)
    requires Together(b, x, p) && p in b.pcs
    requires (b.pcs[p] == Blocks.InsertEntry && !x.writer.Requisitioned?)
          || (b.pcs[p] == Blocks.Idle && x.writer != Index.Rest)
    ensures Together(b, Index.Apply(x, Index.Write(block)), p)
  {
    ReaderPart(b, x, p);
    WritePlace(x, block);
    hide ReadersFollow, StartedBy, Index.WriterStep;
  }

  lemma WritePlace(x: Index.Index, block: Option<Block>)
    ensures var x' := Index.WriterStep(x, block);
      && x'.readers == x.readers
      && (!x.writer.Requisitioned? ==> x'.live == x.live && x'.started == x.started)
      && (!x.writer.Requisitioned? && !x.writer.Rewind? && !x.writer.ClearValue? ==>
           !x'.writer.Rewind? && !x'.writer.ClearValue?)
      && (x.writer.Rewind? ==> x'.writer.ClearValue?) && (x.writer.ClearValue? ==> x'.writer == Index.Rest)
  {
    hide Index.Grown, Index.SetTail, Index.SlotAt, Index.Newest, Index.KeyAt, Index.Base, Pow2;
    match x.writer
    case CheckSlot =>
    case GrowRing =>
    case Requisitioned(_) =>
    case _ =>
  }

  // ---------------------------------------------------------------------------
  // In every reachable state
  // ---------------------------------------------------------------------------

  /** What goes with a step of ImplicitBlocks is a move the rings allow, and the two stay together. */
  lemma BlocksStepTogether(b: Blocks.State, x: Index.Index, p: Thread, a: Blocks.Action)
    requires Blocks.Reachable(b) && Together(b, x, p) && Blocks.Enabled(b, a) && Ready(Joint(b, x), p, a)
    ensures var m := RingMove(b, p, a);
      (m.Some? ==> Index.Enabled(x, m.value)) && Together(Blocks.Apply(b, a), MoveRing(x, m), p)
  {
    hide Blocks.Reachable, Together, Blocks.Apply, Index.Apply, Blocks.DequeueStep;
    var pc := b.pcs[a.thread];
    if RingMove(b, p, a) == None {
      SilentStep(b, x, p, a);
    } else if a.Claim? {
      ClaimStep(b, x, p, a.thread, a.count);
    } else if a.Deq? && pc.SetEmpty? {
      CountStep(b, x, p, a.thread);
    } else if a.Deq? {
      DetachStep(b, x, p, a.thread);
    } else if pc.Attach? {
      AttachStep(b, x, p, a);
    } else {
      FailStep(b, x, p, a);
    }
  }

  lemma InvParts(j: Joint, p: Thread)
    ensures Inv(j, p) <==> Blocks.Reachable(j.b) && Index.Reachable(j.x) && Together(j.b, j.x, p)
  {
    hide Blocks.Reachable, Index.Reachable, Together;
  }

  lemma MovedReachable(x: Index.Index, m: Option<Index.Move>)
    requires Index.Reachable(x) && Index.Roomy(x)
    ensures Index.Reachable(MoveRing(x, m))
  {
    hide Index.Reachable, Index.Apply, Index.Enabled;
    if m.Some? && Index.Enabled(x, m.value) {
      var x' := Index.Go(x, m.value);
    }
  }

  /** Every step of the joint machine keeps the two together, and each of them among its reachable states. */
  lemma StepKeepsInv(j: Joint, p: Thread, step: Step)
    requires Inv(j, p) && Enabled(j, p, step) && Index.Roomy(j.x)
    ensures Inv(Apply(j, p, step), p)
  {
    hide Blocks.Reachable, Index.Reachable, Together, Inv, Blocks.Apply, Blocks.Enabled, RingMove, MoveRing,
        Index.Roomy;
    InvParts(j, p);
    InvParts(Apply(j, p, step), p);
    match step
    case OfBlocks(a) =>
      var b' := Blocks.Go(j.b, a);
      BlocksStepTogether(j.b, j.x, p, a);
      MovedReachable(j.x, RingMove(j.b, p, a));
    case ReadRing(t) =>
      ReadStep(j.b, j.x, p, t);
      MovedReachable(j.x, Some(Index.Read(t)));
      Moved(j.x, Index.Read(t));
    case WriteRing(grown) =>
      var block := if grown then Some(0) else None;
      WriteStep(j.b, j.x, p, block);
      MovedReachable(j.x, Some(Index.Write(block)));
      Moved(j.x, Index.Write(block));
  }

  lemma Moved(x: Index.Index, m: Index.Move)
    ensures Index.Enabled(x, m) ==> MoveRing(x, Some(m)) == Index.Apply(x, m)
    ensures m.Write? ==> Index.Enabled(x, m)
  {
    hide Index.Apply;
  }

  lemma InitInv(j: Joint, p: Thread)
    requires Init(j)
    ensures Inv(j, p)
  {
    Blocks.InitReachable(j.b);
    Index.InitReachable(j.x);
    hide Blocks.Reachable, Index.Reachable;
  }

  lemma {:induction false} RunKeepsInv(j: Joint, p: Thread, run: seq<Step>)
    requires Inv(j, p) && Legal(j, p, run)
    ensures Inv(Final(j, p, run), p)
    decreases |run|
  {
    hide Inv, Apply, Enabled, Index.Roomy;
    if run != [] {
      StepKeepsInv(j, p, run[0]);
      RunKeepsInv(Apply(j, p, run[0]), p, run[1..]);
    }
  }

  /** After every run of all threads the rings have exactly the blocks of p's index, and both machines are in states of
      theirs, so that all that is shown of either holds. */
  lemma AlwaysTogether(j: Joint, p: Thread)
    requires Reachable(j, p)
    ensures Blocks.Reachable(j.b) && Index.Reachable(j.x) && Together(j.b, j.x, p)
    ensures j.x.live == Blocks.SubAt(j.b.subs, p).index
  {
    var j0, run :| Init(j0) && Legal(j0, p, run) && j == Final(j0, p, run);
    InitInv(j0, p);
    RunKeepsInv(j0, p, run);
    InvParts(j, p);
    SameBlocks(j, p);
    hide *;
  }

  lemma SameBlocks(j: Joint, p: Thread)
    requires Inv(j, p)
    ensures j.x.live == Blocks.SubAt(j.b.subs, p).index
  {
    hide Blocks.Reachable, Index.Reachable, ReadersFollow, WriterFollows, StartedBy;
  }

  /** What ImplicitIndex takes for granted of its readers and its writer is so: whatever goes with a step of the blocks
      is a move the rings allow. */
  lemma RingsAllow(j: Joint, p: Thread, a: Blocks.Action)
    requires Reachable(j, p) && Enabled(j, p, OfBlocks(a))
    ensures var m := RingMove(j.b, p, a); m.Some? ==> Index.Enabled(j.x, m.value)
  {
    AlwaysTogether(j, p);
    hide Reachable, Blocks.Reachable, Index.Reachable, Together, Index.Enabled, Blocks.Apply, RingMove, MoveRing;
    BlocksStepTogether(j.b, j.x, p, a);
  }

  /** What ImplicitBlocks takes from the map is what is in the rings: the block a thread goes on with is that of the
      entry it has looked up. */
  lemma FoundIsHeld(j: Joint, p: Thread, t: Thread)
    requires Reachable(j, p) && t in j.b.pcs && j.b.pcs[t].Find? && j.b.pcs[t].p == p
    requires Enabled(j, p, OfBlocks(Blocks.Deq(t)))
    ensures var pc := Blocks.DequeueStep(j.b, t, j.b.pcs[t]).pcs[t];
      && t in j.x.readers && j.x.readers[t].Holds? && pc.SetEmpty?
      && Index.ValueAt(j.x.values, j.x.readers[t].entry) == Some(pc.block)
  {
    AlwaysTogether(j, p);
    var r := j.x.readers[t];
    ReaderOf(j.b, j.x, p, t);
    Index.LookUpIsMap(j.x, t, r.i, r.end, r.ring, r.at, r.entry);
    hide Reachable, Blocks.Reachable, Index.Reachable, Together;
  }

  // ---------------------------------------------------------------------------
  // No thread waits for another
  // ---------------------------------------------------------------------------

  /** How many steps in the rings a thread at this place has before its next one in ImplicitBlocks. */
  function RingSteps(j: Joint, p: Thread, t: Thread): nat
    requires t in j.b.pcs
  {
    var pc := j.b.pcs[t];
    if pc.Find? && pc.p == p && t in j.x.readers then
      match j.x.readers[t]
      case LoadRing(_, _) => 3
      case LoadTail(_, _, _) => 2
      case LoadKey(_, _, _, _) => 1
      case _ => 0
    else if t == p && pc == Blocks.InsertEntry then
      match j.x.writer
      case Rest => 7
      case CheckSlot => 6
      case GrowRing => 5
      case CheckFresh => 4
      case WriteKey(_) => 3
      case PublishTail(_) => 2
      case _ => 0
    else if t == p && pc == Blocks.Idle then
      match j.x.writer
      case Rewind(_) => 2
      case ClearValue(_) => 1
      case _ => 0
    else 0
  }

  /** t's step, in ImplicitBlocks or in the rings. */
  predicate StepOf(j: Joint, p: Thread, t: Thread, step: Step) {
    match step
    case OfBlocks(a) => a.thread == t
    case ReadRing(u) => u == t
    case WriteRing(_) => t == p
  }

  /** In every reachable state a thread in the middle of a call has a step of its own that it can take: one of
      ImplicitBlocks, or one in the rings that brings the next such one nearer. */
  lemma NeverWaits(j: Joint, p: Thread, t: Thread) returns (step: Step)
    requires Reachable(j, p) && t in j.b.pcs && (j.b.pcs[t] != Blocks.Idle || RingSteps(j, p, t) > 0)
    ensures Enabled(j, p, step) && StepOf(j, p, t, step)
    ensures !step.OfBlocks? ==>
              t in Apply(j, p, step).b.pcs && RingSteps(Apply(j, p, step), p, t) < RingSteps(j, p, t)
  {
    AlwaysTogether(j, p);
    hide Reachable, Together, Apply, RingSteps, Blocks.Reachable, Index.Reachable;
    var pc := j.b.pcs[t];
    ReaderPlace(j, p, t);
    if pc.Find? && pc.p == p && !j.x.readers[t].Holds? {
      step := ReadRing(t);
      ReaderAdvances(j, p, t);
    } else if t == p && (pc == Blocks.InsertEntry || pc == Blocks.Idle) && RingSteps(j, p, t) > 0 {
      step := WriteRing(true);
      WriterAdvances(j, p);
    } else if Blocks.Dequeueing(pc) {
      step := OfBlocks(Blocks.Deq(t));
    } else {
      step := OfBlocks(Blocks.Enq(t, true, None));
      WriterPlace(j, p);
      AtEntry(j, p);
    }
  }

  lemma AtEntry(j: Joint, p: Thread)
    ensures p in j.b.pcs && j.b.pcs[p] == Blocks.InsertEntry && RingSteps(j, p, p) == 0 ==>
              j.x.writer.Requisitioned? || j.x.writer.Rewind? || j.x.writer.ClearValue?
  {
  }

  lemma ReaderPlace(j: Joint, p: Thread, t: Thread)
    requires Together(j.b, j.x, p) && t in j.b.pcs
    ensures t in j.x.readers && Follows(j.b.pcs[t], p, j.x.readers[t])
  {
    hide Follows;
  }

  lemma WriterPlace(j: Joint, p: Thread)
    requires Together(j.b, j.x, p)
    ensures p in j.b.pcs && j.b.pcs[p] == Blocks.InsertEntry ==> !j.x.writer.Rewind? && !j.x.writer.ClearValue?
  {
  }

  lemma ReaderAdvances(j: Joint, p: Thread, t: Thread)
    requires Together(j.b, j.x, p) && t in j.b.pcs && j.b.pcs[t].Find? && j.b.pcs[t].p == p
    requires t in j.x.readers && !j.x.readers[t].Holds? && j.x.readers[t] != Index.Away
    ensures Enabled(j, p, ReadRing(t))
    ensures RingSteps(Apply(j, p, ReadRing(t)), p, t) < RingSteps(j, p, t)
  {
    hide Together, Index.RangeLive, Index.BusyWith;
  }

  lemma WriterAdvances(j: Joint, p: Thread)
    requires p in j.b.pcs && (j.b.pcs[p] == Blocks.InsertEntry || j.b.pcs[p] == Blocks.Idle) && RingSteps(j, p, p) > 0
    ensures Enabled(j, p, WriteRing(true))
    ensures RingSteps(Apply(j, p, WriteRing(true)), p, p) < RingSteps(j, p, p)
  {
    hide Index.Newest, Index.SlotAt, Index.KeyAt, Index.Grown, Index.SetTail, Index.Base, Pow2;
  }

  // ---------------------------------------------------------------------------
  // The machine gets to the states the theorems speak of
  // ---------------------------------------------------------------------------

  lemma {:induction false} OneStepMore(j: Joint, p: Thread, run: seq<Step>, step: Step)
    requires Legal(j, p, run) && Enabled(Final(j, p, run), p, step) && Index.Roomy(Final(j, p, run).x)
    ensures Legal(j, p, run + [step]) && Final(j, p, run + [step]) == Apply(Final(j, p, run), p, step)
    decreases |run|
  {
    hide Apply, Enabled, Index.Roomy;
    if run == [] {
      assert run + [step] == [step] && [step][1..] == [];
    } else {
      assert (run + [step])[1..] == run[1..] + [step];
      OneStepMore(Apply(j, p, run[0]), p, run[1..], step);
    }
  }

  /** The state after one step more. */
  lemma Go(j: Joint, p: Thread, step: Step) returns (j': Joint)
    requires Reachable(j, p) && Enabled(j, p, step) && Index.Roomy(j.x)
    ensures Reachable(j', p) && j' == Apply(j, p, step)
  {
    hide Init, Legal, Final, Apply, Enabled, Index.Roomy;
    var j0, run :| Init(j0) && Legal(j0, p, run) && j == Final(j0, p, run);
    OneStepMore(j0, p, run, step);
    j' := Apply(j, p, step);
  }

  /** Producer 0 is about to insert an entry. */
  lemma RunToInsert() returns (j: Joint)
    ensures Reachable(j, 0) && j.b == Blocks.State(map[], map[], 0, 0, 0, {}, map[0 := Blocks.InsertEntry])
    ensures j.x == Index.Index([Index.Ring(1, [0, 1], 1)], map[], map[], 2, 0, Index.Rest, map[0 := Index.Away], map[])
  {
    hide Reachable, Legal, Final, Index.Grown, Index.ReaderStep, Index.Onward, Blocks.DequeueStep, Index.WriterStep,
        CircularLess;
    var x := Index.Index([Index.Ring(1, [0, 1], 1)], map[], map[], 2, 0, Index.Rest, map[0 := Index.Away], map[]);
    j := Joint(Blocks.State(map[], map[], 0, 0, 0, {}, map[0 := Blocks.Idle]), x);
    assert Pow2(1) == 2 && seq(2, i => i) == [0, 1];
    InitReachable(j, 0);
    BelowHalf();
    hide Init, Index.Init, Blocks.Init;
    j := Go(j, 0, OfBlocks(Blocks.StartEnqueue(0)));
    j := Go(j, 0, OfBlocks(Blocks.Enq(0, true, None)));
  }

  /** It has found the first slot unused. */
  lemma RunToSlot() returns (j: Joint)
    ensures Reachable(j, 0) && j.b == Blocks.State(map[], map[], 0, 0, 0, {}, map[0 := Blocks.InsertEntry])
    ensures j.x == Index.Index([Index.Ring(1, [0, 1], 1)], map[], map[], 2, 0, Index.WriteKey(0), map[0 := Index.Away],
          map[])
  {
    hide Reachable, Legal, Final, Init, Index.Init, Blocks.Init, Index.Grown, Index.ReaderStep, Index.Onward,
        Blocks.Apply;
    j := RunToInsert();
    assert Pow2(1) == 2;
    j := Go(j, 0, WriteRing(false));
    j := Go(j, 0, WriteRing(false));
  }

  /** It has its entry and is about to look for a block. */
  lemma RunToEntry() returns (j: Joint)
    ensures Reachable(j, 0) && j.b == Blocks.State(map[], map[], 0, 0, 0, {}, map[0 := Blocks.CheckPool])
    ensures j.x == Index.Index([Index.Ring(1, [0, 1], 0)], map[0 := 0], map[], 2, 0, Index.Requisitioned(0),
          map[0 := Index.Away], map[])
  {
    hide Reachable, Legal, Final, Init, Index.Init, Blocks.Init, Index.Grown, Index.ReaderStep, Index.Onward;
    j := RunToSlot();
    j := Go(j, 0, WriteRing(false));
    j := Go(j, 0, WriteRing(false));
    j := Go(j, 0, OfBlocks(Blocks.Enq(0, true, None)));
  }

  /** It has a block to attach. */
  lemma RunToAttach() returns (j: Joint)
    ensures Reachable(j, 0) && j.b == Blocks.State(map[], map[0 := 0], 0, 0, 1, {}, map[0 := Blocks.Attach(0)])
    ensures j.x == Index.Index([Index.Ring(1, [0, 1], 0)], map[0 := 0], map[], 2, 0, Index.Requisitioned(0),
          map[0 := Index.Away], map[])
  {
    hide Reachable, Legal, Final, Init, Index.Init, Blocks.Init, Index.WriterStep, Index.ReaderStep, Index.Onward;
    j := RunToEntry();
    j := Go(j, 0, OfBlocks(Blocks.Enq(0, true, None)));
    j := Go(j, 0, OfBlocks(Blocks.Enq(0, true, None)));
    j := Go(j, 0, OfBlocks(Blocks.Enq(0, true, None)));
    j := Go(j, 0, OfBlocks(Blocks.Enq(0, true, None)));
  }

  /** An element is enqueued. */
  lemma RunToEnqueued() returns (j: Joint)
    ensures Reachable(j, 0)
    ensures j.b == Blocks.State(map[0 := Blocks.Sub(1, 0, 0, map[0 := 0])], map[0 := 0], 0, 0, 1, {},
          map[0 := Blocks.Idle])
    ensures j.x == Index.Index([Index.Ring(1, [0, 1], 0)], map[0 := 0], map[0 := 0], 2, 1, Index.Rest,
          map[0 := Index.Away], map[0 := 0])
  {
    hide Reachable, Legal, Final, Init, Index.Init, Blocks.Init, Index.Grown, Index.ReaderStep, Index.Onward;
    j := RunToAttach();
    j := Go(j, 0, OfBlocks(Blocks.Enq(0, true, None)));
    j := Go(j, 0, OfBlocks(Blocks.Enq(0, true, None)));
    j := Go(j, 0, OfBlocks(Blocks.Enq(0, true, None)));
  }

  lemma OneLive()
    ensures Index.RangeLive(map[0 := 0], 0, 1)
  {
  }

  /** A thread has claimed it and looked its block up, and may go on with it. */
  lemma RunToFound() returns (j: Joint)
    ensures Reachable(j, 0) && 0 in j.b.pcs && j.b.pcs[0] == Blocks.Find(0, 0, 1)
          && Enabled(j, 0, OfBlocks(Blocks.Deq(0)))
  {
    hide Reachable, Legal, Final, Init, Index.Init, Blocks.Init, Index.WriterStep, Index.Onward, Index.RangeLive;
    j := RunToEnqueued();
    OneLive();
    j := Go(j, 0, OfBlocks(Blocks.Claim(0, 0, 1)));
    j := Go(j, 0, ReadRing(0));
    j := Go(j, 0, ReadRing(0));
    j := Go(j, 0, ReadRing(0));
  }

  lemma BelowHalf()
    ensures CircularLess(0, 0 + BLOCK_SIZE)
  {
  }

  lemma InitReachable(j: Joint, p: Thread)
    requires Init(j)
    ensures Reachable(j, p)
  {
    hide Init;
    assert Legal(j, p, []) && j == Final(j, p, []);
  }
}
