/**
  What implicit producers get done: every enqueue ends, with its element in the queue unless there is no leeway or an
  allocation fails; blocks are allocated only when the pool is used up; every dequeue ends; and the insertion of a block
  into the index ends, with the block in it unless an allocation fails.

  All of it holds whatever the other threads do in between.
 */
module ImplicitProgress {
  import opened Basics
  import Blocks = ImplicitBlocks
  import Index = ImplicitIndex

  // ---------------------------------------------------------------------------
  // Enqueueing
  // ---------------------------------------------------------------------------

  /** Another block keeps the tail less than half the index range ahead of the head; that is what the comparison of
      wrapped words says. */
  lemma LeewayIs(head: nat, tail: nat)
    requires head <= tail <= head + HALF
    ensures CircularLess(head, tail + BLOCK_SIZE) <==> tail - head + BLOCK_SIZE < HALF
  {
    var d: int := tail + BLOCK_SIZE - head;
    assert head - (tail + BLOCK_SIZE) == 0 - d;
    ModUnique(0 - d, WORD_SIZE, -1, WORD_SIZE - d);
  }

  function StepsLeft(pc: Blocks.PC): nat {
    match pc
    case Publish => 1
    case Store => 2
    case Attach(_) => 3
    case Reset(_) => 4
    case Create => 5
    case TryFreeList => 6
    case TakeFromPool => 7
    case CheckPool => 8
    case InsertEntry => 9
    case CheckRoom => 10
    case _ => 0
  }

  const ENQUEUE_STEPS: nat := 10

  /** The step gives t's enqueue up, for lack of leeway or for an allocation that failed. */
  predicate Refuses(s: Blocks.State, a: Blocks.Action, t: Thread) {
    && a.Enq? && a.thread == t
    && match Blocks.PCOf(s.pcs, t)
       case CheckRoom => !CircularLess(Blocks.SubAt(s.subs, t).head, Blocks.SubAt(s.subs, t).tail + BLOCK_SIZE)
       case InsertEntry => !a.ok
       case Create => !a.ok
       case _ => false
  }

  ghost predicate Refused(s: Blocks.State, run: seq<Blocks.Action>, t: Thread)
    requires Blocks.Legal(s, run)
    decreases |run|
  {
    run != [] && (Refuses(s, run[0], t) || Refused(Blocks.Apply(s, run[0]), run[1..], t))
  }

  /** t starts no other call. */
  predicate SameCall(run: seq<Blocks.Action>, t: Thread) {
    forall i | 0 <= i < |run| && run[i].thread == t :: run[i].Enq? || run[i].Deq?
  }

  predicate AllocationsSucceed(run: seq<Blocks.Action>, t: Thread) {
    forall i | 0 <= i < |run| && run[i].Enq? && run[i].thread == t :: run[i].ok
  }

  /** How many of the steps are t's. */
  function StepsOf(run: seq<Blocks.Action>, t: Thread): nat {
    if run == [] then 0 else (if run[0].thread == t then 1 else 0) + StepsOf(run[1..], t)
  }

  function TailOf(s: Blocks.State, t: Thread): nat {
    Blocks.SubAt(s.subs, t).tail
  }

  function HeadOf(s: Blocks.State, t: Thread): nat {
    Blocks.SubAt(s.subs, t).head
  }

  /** One step of t's enqueue. */
  lemma EnqueueMoves(s: Blocks.State, t: Thread, ok: bool, freed: Option<Block>)
    requires t in s.pcs && Blocks.Enqueueing(s.pcs[t]) && Blocks.Enabled(s, Blocks.Enq(t, ok, freed))
    ensures var a := Blocks.Enq(t, ok, freed); var s' := Blocks.Apply(s, a);
      && t in s'.pcs && StepsLeft(s'.pcs[t]) < StepsLeft(s.pcs[t])
      && (s'.pcs[t] != Blocks.Idle ==>
            Blocks.Enqueueing(s'.pcs[t]) && !Refuses(s, a, t) && TailOf(s', t) == TailOf(s, t))
      && (s'.pcs[t] == Blocks.Idle ==> TailOf(s', t) == TailOf(s, t) + if Refuses(s, a, t) then 0 else 1)
  {
    hide CircularLess, Blocks.DequeueStep;
    match s.pcs[t]
    case TakeFromPool =>
    case TryFreeList =>
    case _ =>
  }

  /** The steps of other threads leave t's enqueue where it is. */
  lemma OthersLeave(s: Blocks.State, a: Blocks.Action, t: Thread)
    requires Blocks.Enabled(s, a) && t in s.pcs && a.thread != t
    ensures var s' := Blocks.Apply(s, a);
      && t in s'.pcs && s'.pcs[t] == s.pcs[t] && TailOf(s', t) == TailOf(s, t) && !Refuses(s, a, t)
      && HeadOf(s', t) >= HeadOf(s, t)
  {
    Blocks.OneMoves(s, a);
    Blocks.TailChanges(s, t, a);
    Blocks.HeadChanges(s, t, a);
    hide Blocks.Apply, Blocks.SubAt;
  }

  /** A thread between calls starts none. */
  lemma {:induction false} NothingMore(s: Blocks.State, run: seq<Blocks.Action>, t: Thread)
    requires Blocks.Legal(s, run) && SameCall(run, t) && t in s.pcs && s.pcs[t] == Blocks.Idle
    ensures var z := Blocks.Final(s, run);
      t in z.pcs && z.pcs[t] == Blocks.Idle && TailOf(z, t) == TailOf(s, t) && !Refused(s, run, t)
      && StepsOf(run, t) == 0
    decreases |run|
  {
    if run != [] {
      IdleActs(s, run[0], t);
      OthersLeave(s, run[0], t);
      hide Blocks.Apply, Refuses, TailOf, HeadOf;
      NothingMore(Blocks.Apply(s, run[0]), run[1..], t);
    }
  }

  lemma IdleActs(s: Blocks.State, a: Blocks.Action, t: Thread)
    requires Blocks.Enabled(s, a) && t in s.pcs && s.pcs[t] == Blocks.Idle && (a.thread == t ==> a.Enq? || a.Deq?)
    ensures a.thread != t
  {
  }

  lemma MoveOrLeave(s: Blocks.State, a: Blocks.Action, t: Thread)
    requires Blocks.Enabled(s, a) && t in s.pcs && Blocks.Enqueueing(s.pcs[t]) && (a.thread == t ==> a.Enq? || a.Deq?)
    ensures var s' := Blocks.Apply(s, a);
      && t in s'.pcs && StepsLeft(s'.pcs[t]) + (if a.thread == t then 1 else 0) <= StepsLeft(s.pcs[t])
      && (s'.pcs[t] != Blocks.Idle ==>
            Blocks.Enqueueing(s'.pcs[t]) && !Refuses(s, a, t) && TailOf(s', t) == TailOf(s, t))
      && (s'.pcs[t] == Blocks.Idle ==> TailOf(s', t) == TailOf(s, t) + if Refuses(s, a, t) then 0 else 1)
  {
    if a.thread == t {
      assert a.Enq?;
      EnqueueMoves(s, t, a.ok, a.freed);
    } else {
      OthersLeave(s, a, t);
    }
    hide Blocks.Apply, Refuses, TailOf, HeadOf, StepsLeft;
  }

  lemma {:induction false} OutcomeFrom(s: Blocks.State, run: seq<Blocks.Action>, t: Thread)
    requires Blocks.Legal(s, run) && SameCall(run, t) && t in s.pcs && Blocks.Enqueueing(s.pcs[t])
    ensures var z := Blocks.Final(s, run);
      && t in z.pcs
      && if z.pcs[t] != Blocks.Idle then
           && !Refused(s, run, t) && TailOf(z, t) == TailOf(s, t)
           && StepsLeft(z.pcs[t]) + StepsOf(run, t) <= StepsLeft(s.pcs[t])
         else TailOf(z, t) == TailOf(s, t) + if Refused(s, run, t) then 0 else 1
    decreases |run|
  {
    hide Blocks.Apply, Blocks.Enabled, Refuses, TailOf, HeadOf, StepsLeft, Blocks.Enqueueing;
    if run != [] {
      var s' := Blocks.Apply(s, run[0]);
      MoveOrLeave(s, run[0], t);
      if s'.pcs[t] == Blocks.Idle {
        NothingMore(s', run[1..], t);
      } else {
        OutcomeFrom(s', run[1..], t);
      }
    } else {
      IdleEnqueues(s.pcs[t]);
    }
  }

  lemma IdleEnqueues(pc: Blocks.PC)
    requires Blocks.Enqueueing(pc)
    ensures pc != Blocks.Idle && StepsLeft(pc) > 0
  {
  }

  lemma AfterStart(s: Blocks.State, run: seq<Blocks.Action>, t: Thread)
    requires Blocks.Legal(s, [Blocks.StartEnqueue(t)] + run)
    ensures var a := Blocks.StartEnqueue(t);
      && Blocks.Enabled(s, a) && t in s.pcs && Blocks.Legal(Blocks.Apply(s, a), run)
      && Blocks.Final(s, [a] + run) == Blocks.Final(Blocks.Apply(s, a), run)
    ensures var s' := Blocks.Apply(s, Blocks.StartEnqueue(t));
      && t in s'.pcs && Blocks.Enqueueing(s'.pcs[t]) && StepsLeft(s'.pcs[t]) <= ENQUEUE_STEPS
      && s'.subs == s.subs
  {
    var all := [Blocks.StartEnqueue(t)] + run;
    assert all[0] == Blocks.StartEnqueue(t) && all[1..] == run;
  }

  lemma StillLeft(pc: Blocks.PC)
    ensures Blocks.Enqueueing(pc) ==> StepsLeft(pc) > 0
  {
  }

  /** An enqueue that has returned moved the tail on by one, unless some step of it found no leeway or a failed
      allocation: then, and only then, it left the tail as it was.  It returns within ten of its own steps. */
  lemma EnqueueOutcome(s: Blocks.State, run: seq<Blocks.Action>, t: Thread)
    requires Blocks.Legal(s, [Blocks.StartEnqueue(t)] + run) && SameCall(run, t)
    ensures var a := Blocks.StartEnqueue(t); Blocks.Enabled(s, a) && Blocks.Legal(Blocks.Apply(s, a), run)
    ensures var a := Blocks.StartEnqueue(t); var z := Blocks.Final(s, [a] + run);
      && t in z.pcs
      && (z.pcs[t] == Blocks.Idle ==>
            TailOf(z, t) == TailOf(s, t) + if Refused(Blocks.Apply(s, a), run, t) then 0 else 1)
      && (StepsOf(run, t) >= ENQUEUE_STEPS ==> z.pcs[t] == Blocks.Idle)
  {
    hide *;
    AfterStart(s, run, t);
    var s' := Blocks.Apply(s, Blocks.StartEnqueue(t));
    OutcomeFrom(s', run, t);
    var z := Blocks.Final(s', run);
    SameTail(s, s', t);
    EnqueueingStays(s', run, t);
    StillLeft(z.pcs[t]);
  }

  lemma SameTail(s: Blocks.State, s': Blocks.State, t: Thread)
    requires s'.subs == s.subs
    ensures TailOf(s', t) == TailOf(s, t) && HeadOf(s', t) == HeadOf(s, t)
  {
  }

  /** Until it returns, t is enqueueing. */
  lemma {:induction false} EnqueueingStays(s: Blocks.State, run: seq<Blocks.Action>, t: Thread)
    requires Blocks.Legal(s, run) && SameCall(run, t) && t in s.pcs
             && (Blocks.Enqueueing(s.pcs[t]) || s.pcs[t] == Blocks.Idle)
    ensures var z := Blocks.Final(s, run); t in z.pcs && (Blocks.Enqueueing(z.pcs[t]) || z.pcs[t] == Blocks.Idle)
    decreases |run|
  {
    hide Blocks.Apply, Blocks.Enabled, Refuses, TailOf, HeadOf, StepsLeft, Blocks.Enqueueing;
    if run != [] {
      if s.pcs[t] == Blocks.Idle {
        IdleActs(s, run[0], t);
        OthersLeave(s, run[0], t);
      } else {
        MoveOrLeave(s, run[0], t);
      }
      EnqueueingStays(Blocks.Apply(s, run[0]), run[1..], t);
    }
  }

  /** There is leeway. */
  predicate Roomy(s: Blocks.State, t: Thread) {
    HeadOf(s, t) <= TailOf(s, t) && TailOf(s, t) - HeadOf(s, t) + BLOCK_SIZE < HALF
  }

  lemma {:induction false} NotRefused(s: Blocks.State, run: seq<Blocks.Action>, t: Thread)
    requires Blocks.Reachable(s) && Blocks.Legal(s, run) && SameCall(run, t) && AllocationsSucceed(run, t)
    requires Roomy(s, t) && t in s.pcs && Blocks.Enqueueing(s.pcs[t])
    ensures !Refused(s, run, t)
    decreases |run|
  {
    hide Blocks.Apply, Blocks.Enabled, TailOf, HeadOf, StepsLeft, Blocks.Enqueueing, Blocks.Reachable, CircularLess;
    if run != [] {
      var s' := Blocks.Go(s, run[0]);
      MoveOrLeave(s, run[0], t);
      HeadOnward(s, run[0], t);
      HeadBelow(s', t);
      RoomyAllows(s, run[0], t);
      if s'.pcs[t] == Blocks.Idle {
        NothingMore(s', run[1..], t);
      } else {
        hide Refuses;
        NotRefused(s', run[1..], t);
      }
    }
  }

  lemma HeadOnward(s: Blocks.State, a: Blocks.Action, t: Thread)
    requires Blocks.Enabled(s, a)
    ensures HeadOf(Blocks.Apply(s, a), t) >= HeadOf(s, t)
  {
    Blocks.HeadChanges(s, t, a);
    hide Blocks.Apply, Blocks.SubAt;
  }

  lemma HeadBelow(s: Blocks.State, t: Thread)
    requires Blocks.Reachable(s)
    ensures HeadOf(s, t) <= TailOf(s, t)
  {
    var g := Blocks.ReachableInv(s);
    hide Blocks.Reachable, Blocks.Inv;
    Blocks.SubFacts(s, g, t);
  }

  lemma RoomyAllows(s: Blocks.State, a: Blocks.Action, t: Thread)
    requires Roomy(s, t) && (a.Enq? && a.thread == t ==> a.ok)
    ensures !Refuses(s, a, t)
  {
    LeewayIs(HeadOf(s, t), TailOf(s, t));
    hide CircularLess;
  }

  /** An enqueue with leeway, whose allocations succeed, puts its element into the queue within ten of its own steps. */
  lemma EnqueueSucceeds(s: Blocks.State, run: seq<Blocks.Action>, t: Thread)
    requires Blocks.Reachable(s) && Blocks.Legal(s, [Blocks.StartEnqueue(t)] + run) && SameCall(run, t)
    requires AllocationsSucceed(run, t) && TailOf(s, t) - HeadOf(s, t) + BLOCK_SIZE < HALF
    ensures var z := Blocks.Final(s, [Blocks.StartEnqueue(t)] + run);
      && t in z.pcs && (z.pcs[t] == Blocks.Idle ==> TailOf(z, t) == TailOf(s, t) + 1)
      && (StepsOf(run, t) >= ENQUEUE_STEPS ==> z.pcs[t] == Blocks.Idle)
  {
    hide Blocks.Reachable, Blocks.Legal, Blocks.Final, Blocks.Apply, TailOf, HeadOf, StepsOf, Blocks.Enqueueing,
         StepsLeft, Blocks.Enabled, Refuses, SameCall, AllocationsSucceed, Refused;
    EnqueueOutcome(s, run, t);
    AfterStart(s, run, t);
    HeadBelow(s, t);
    var s' := Blocks.Go(s, Blocks.StartEnqueue(t));
    SameTail(s, s', t);
    NotRefused(s', run, t);
  }

  // ---------------------------------------------------------------------------
  // Allocation
  // ---------------------------------------------------------------------------

  /** A thread that has passed the pool found it used up. */
  ghost predicate PoolPassed(s: Blocks.State) {
    forall t | t in s.pcs && (s.pcs[t].TryFreeList? || s.pcs[t].Create?) :: s.poolIndex >= s.poolSize
  }

  lemma PoolStep(s: Blocks.State, a: Blocks.Action)
    requires PoolPassed(s) && Blocks.Enabled(s, a)
    ensures PoolPassed(Blocks.Apply(s, a))
  {
    Blocks.OneMoves(s, a);
    PoolMoves(s, a);
    hide Blocks.Apply, Blocks.Enabled;
  }

  lemma PoolMoves(s: Blocks.State, a: Blocks.Action)
    requires Blocks.Enabled(s, a)
    ensures var s' := Blocks.Apply(s, a); var pc, pc' := s.pcs[a.thread], s'.pcs[a.thread];
      && s'.poolIndex >= s.poolIndex && s'.poolSize == s.poolSize
      && (pc'.TryFreeList? || pc'.Create? ==> s'.poolIndex >= s'.poolSize || pc.TryFreeList? || pc.Create?)
  {
    hide CircularLess, Blocks.Counter, PartEnd, Blocks.SubAt;
    match a
    case Deq(_) =>
    case _ =>
  }

  lemma {:induction false} PoolRun(s: Blocks.State, run: seq<Blocks.Action>)
    requires PoolPassed(s) && Blocks.Legal(s, run)
    ensures PoolPassed(Blocks.Final(s, run))
    decreases |run|
  {
    hide Blocks.Apply, Blocks.Enabled, PoolPassed;
    if run != [] {
      PoolStep(s, run[0]);
      PoolRun(Blocks.Apply(s, run[0]), run[1..]);
    }
  }

  /** A block is allocated only when the initial pool is used up and try_get came back without one; and it is one that
      was nowhere before. */
  lemma AllocatesLast(s: Blocks.State, a: Blocks.Action)
    requires Blocks.Reachable(s) && Blocks.Enabled(s, a) && Blocks.Apply(s, a).created != s.created
    ensures a.Enq? && s.pcs[a.thread].Create? && s.poolIndex >= s.poolSize
    ensures Blocks.Occupies(s, s.created, Blocks.Nowhere) && Blocks.Apply(s, a).created == s.created + 1
    ensures Blocks.Occupies(Blocks.Apply(s, a), s.created, Blocks.InHands(a.thread))
  {
    var s0, run :| Blocks.Init(s0) && Blocks.Legal(s0, run) && s == Blocks.Final(s0, run);
    PoolRun(s0, run);
    hide Blocks.Reachable, Blocks.Legal, Blocks.Final, CircularLess, Blocks.Counter, PartEnd, Blocks.SubAt;
    match a
    case Deq(_) =>
    case Enq(_, _, _) =>
    case _ =>
  }

  // ---------------------------------------------------------------------------
  // Dequeueing
  // ---------------------------------------------------------------------------

  function Span(i: nat, end: nat): nat {
    if i < end then end - i else 0
  }

  /** A bound on the steps a dequeueing thread has left. */
  function Left(pc: Blocks.PC): nat {
    match pc
    case Find(_, i, end) => 4 * Span(i, end)
    case SetEmpty(_, i, end, _) => 4 * Span(PartEnd(i, end), end) + 3
    case Detach(_, i, end, _, _) => 4 * Span(i, end) + 2
    case Release(_, i, end, _) => 4 * Span(i, end) + 1
    case _ => 0
  }

  /** A dequeueing thread has an index left, or its last block to give back. */
  predicate Busy(pc: Blocks.PC) {
    match pc
    case Find(_, i, end) => i < end
    case SetEmpty(_, i, end, _) => i < end
    case Detach(_, i, end, _, _) => i <= end
    case Release(_, i, end, _) => i <= end
    case _ => false
  }

  lemma DequeueMoves(s: Blocks.State, t: Thread)
    requires t in s.pcs && Busy(s.pcs[t])
    ensures var s' := Blocks.DequeueStep(s, t, s.pcs[t]);
      && t in s'.pcs && Left(s'.pcs[t]) < Left(s.pcs[t]) && (Busy(s'.pcs[t]) || s'.pcs[t] == Blocks.Idle)
  {
    var pc := s.pcs[t];
    if pc.Find? || pc.SetEmpty? {
      assert pc.i < PartEnd(pc.i, pc.end) <= pc.end;
    }
    hide PartEnd, Blocks.Counter, Blocks.BlockOf;
  }

  lemma {:induction false} LeftFalls(s: Blocks.State, run: seq<Blocks.Action>, t: Thread)
    requires Blocks.Legal(s, run) && SameCall(run, t) && t in s.pcs && (Busy(s.pcs[t]) || s.pcs[t] == Blocks.Idle)
    ensures var z := Blocks.Final(s, run);
      && t in z.pcs && (Busy(z.pcs[t]) || z.pcs[t] == Blocks.Idle)
      && Left(z.pcs[t]) + StepsOf(run, t) <= Left(s.pcs[t])
    decreases |run|
  {
    hide Blocks.Apply, Left, Busy, Refuses, TailOf, HeadOf;
    if run != [] {
      var s' := Blocks.Apply(s, run[0]);
      if run[0].thread == t {
        BusyActs(s, run[0], t);
        DequeueMoves(s, t);
      } else {
        OthersLeave(s, run[0], t);
      }
      LeftFalls(s', run[1..], t);
    }
  }

  lemma BusyActs(s: Blocks.State, a: Blocks.Action, t: Thread)
    requires Blocks.Enabled(s, a) && a.thread == t && (a.Enq? || a.Deq?) && (Busy(s.pcs[t]) || s.pcs[t] == Blocks.Idle)
    ensures a.Deq? && Busy(s.pcs[t]) && Blocks.Apply(s, a) == Blocks.DequeueStep(s, t, s.pcs[t])
  {
    hide Blocks.DequeueStep, Blocks.EnqueueStep;
  }

  lemma ClaimBegins(s: Blocks.State, t: Thread, p: Thread, n: nat, run: seq<Blocks.Action>)
    requires Blocks.Legal(s, [Blocks.Claim(t, p, n)] + run)
    ensures var a := Blocks.Claim(t, p, n); var s' := Blocks.Apply(s, a);
      && Blocks.Enabled(s, a) && Blocks.Legal(s', run) && Blocks.Final(s, [a] + run) == Blocks.Final(s', run)
      && t in s'.pcs && Busy(s'.pcs[t]) && Left(s'.pcs[t]) == 4 * n
  {
    var all := [Blocks.Claim(t, p, n)] + run;
    assert all[0] == Blocks.Claim(t, p, n) && all[1..] == run;
  }

  /** A dequeue of n elements returns within 4 * n steps of its own, releasing the blocks it drained on its way; no step
      of it ever has to wait. */
  lemma DequeueReturns(s: Blocks.State, t: Thread, p: Thread, n: nat, run: seq<Blocks.Action>)
    requires Blocks.Legal(s, [Blocks.Claim(t, p, n)] + run) && SameCall(run, t)
    ensures var z := Blocks.Final(s, [Blocks.Claim(t, p, n)] + run);
      && t in z.pcs && StepsOf(run, t) <= 4 * n
      && (StepsOf(run, t) == 4 * n ==> z.pcs[t] == Blocks.Idle)
      && (z.pcs[t] != Blocks.Idle ==> Blocks.Enabled(z, Blocks.Deq(t)))
  {
    hide *;
    ClaimBegins(s, t, p, n, run);
    var s' := Blocks.Apply(s, Blocks.Claim(t, p, n));
    LeftFalls(s', run, t);
    BusyIs(Blocks.Final(s', run), t);
  }

  lemma BusyIs(z: Blocks.State, t: Thread)
    requires t in z.pcs && (Busy(z.pcs[t]) || z.pcs[t] == Blocks.Idle)
    ensures z.pcs[t] != Blocks.Idle ==> Left(z.pcs[t]) > 0 && Blocks.Enabled(z, Blocks.Deq(t))
  {
  }

  // ---------------------------------------------------------------------------
  // The block index
  // ---------------------------------------------------------------------------

  /** A bound on the steps the insertion of a block has left. */
  function WriterLeft(w: Index.Writer): nat {
    match w
    case Rest => 0
    case ClearValue(_) => 1
    case Rewind(_) => 2
    case Requisitioned(_) => 3
    case PublishTail(_) => 4
    case WriteKey(_) => 5
    case CheckFresh => 6
    case GrowRing => 7
    case CheckSlot => 8
  }

  /** The step finds that an allocation failed. */
  predicate Fails(s: Index.Index, m: Index.Move) {
    m.Write? && m.block == None && (s.writer.GrowRing? || s.writer.Requisitioned?)
  }

  /** The insertion is giving its entry back. */
  predicate GivingBack(w: Index.Writer) {
    w.Rewind? || w.ClearValue?
  }

  ghost predicate Failed(s: Index.Index, run: seq<Index.Move>)
    requires Index.Legal(s, run)
    decreases |run|
  {
    run != [] && (Fails(s, run[0]) || Failed(Index.Apply(s, run[0]), run[1..]))
  }

  /** Once at rest the writer starts no other insertion. */
  ghost predicate OneInsertion(s: Index.Index, run: seq<Index.Move>)
    requires Index.Legal(s, run)
    decreases |run|
  {
    run == [] || ((run[0].Write? ==> s.writer != Index.Rest) && OneInsertion(Index.Apply(s, run[0]), run[1..]))
  }

  function Writes(run: seq<Index.Move>): nat {
    if run == [] then 0 else (if run[0].Write? then 1 else 0) + Writes(run[1..])
  }

  lemma WriterMoves(s: Index.Index, block: Option<Block>)
    requires s.writer != Index.Rest
    ensures var m := Index.Write(block); var s' := Index.WriterStep(s, block);
      && WriterLeft(s'.writer) < WriterLeft(s.writer)
      && (s'.writer != Index.Rest ==> s'.started == s.started)
      && (s'.writer != Index.Rest ==> (GivingBack(s'.writer) <==> GivingBack(s.writer) || Fails(s, m)))
      && (s'.writer == Index.Rest ==>
            s'.started == s.started + if GivingBack(s.writer) || Fails(s, m) then 0 else 1)
  {
    hide Index.Newest, Index.SlotAt, Index.KeyAt, Index.Grown, Index.SetTail, Index.Base, Pow2;
  }

  lemma ReadersLeave(s: Index.Index, m: Index.Move)
    requires Index.Enabled(s, m) && !m.Write?
    ensures var s' := Index.Apply(s, m); s'.writer == s.writer && s'.started == s.started && !Fails(s, m)
  {
    hide Index.BusyWith, Index.RangeLive, Index.Onward;
  }

  lemma InsertMoves(s: Index.Index, m: Index.Move)
    requires Index.Enabled(s, m) && (m.Write? ==> s.writer != Index.Rest)
    ensures var s' := Index.Apply(s, m); var n := if m.Write? then 1 else 0;
      && WriterLeft(s'.writer) + n <= WriterLeft(s.writer)
      && (s.writer == Index.Rest ==> s'.writer == Index.Rest && !Fails(s, m) && s'.started == s.started)
      && (s'.writer != Index.Rest ==> s'.started == s.started)
      && (s'.writer != Index.Rest ==> (GivingBack(s'.writer) <==> GivingBack(s.writer) || Fails(s, m)))
      && (s.writer != Index.Rest && s'.writer == Index.Rest ==>
            s'.started == s.started + if GivingBack(s.writer) || Fails(s, m) then 0 else 1)
  {
    if m.Write? {
      WriterMoves(s, m.block);
      hide Index.WriterStep, GivingBack, WriterLeft, Fails;
    } else {
      ReadersLeave(s, m);
      hide Index.Apply, Index.Enabled, GivingBack, WriterLeft, Fails;
    }
  }

  lemma {:induction false} InsertFrom(s: Index.Index, run: seq<Index.Move>)
    requires Index.Legal(s, run) && OneInsertion(s, run)
    ensures var z := Index.Final(s, run);
      && WriterLeft(z.writer) + Writes(run) <= WriterLeft(s.writer)
      && (s.writer == Index.Rest ==> z.writer == Index.Rest && z.started == s.started && !Failed(s, run))
      && (z.writer != Index.Rest ==> z.started == s.started)
      && (z.writer != Index.Rest ==> (GivingBack(z.writer) <==> GivingBack(s.writer) || Failed(s, run)))
      && (s.writer != Index.Rest && z.writer == Index.Rest ==>
            z.started == s.started + if GivingBack(s.writer) || Failed(s, run) then 0 else 1)
    decreases |run|
  {
    hide Index.Apply, Index.Enabled, Index.Roomy, GivingBack, WriterLeft, Fails;
    if run != [] {
      InsertMoves(s, run[0]);
      InsertFrom(Index.Apply(s, run[0]), run[1..]);
    }
  }

  lemma StartsInsertion(s: Index.Index, run: seq<Index.Move>, first: Option<Block>)
    requires s.writer == Index.Rest && Index.Legal(s, [Index.Write(first)] + run)
    ensures var m := Index.Write(first); var s' := Index.Apply(s, m);
      && Index.Enabled(s, m) && Index.Legal(s', run) && Index.Final(s, [m] + run) == Index.Final(s', run)
      && s'.writer == Index.CheckSlot && s'.started == s.started
  {
    var all := [Index.Write(first)] + run;
    assert all[0] == Index.Write(first) && all[1..] == run;
  }

  lemma CheckSlotLeft()
    ensures WriterLeft(Index.CheckSlot) == 8 && !GivingBack(Index.CheckSlot) && WriterLeft(Index.Rest) == 0
    ensures forall w :: WriterLeft(w) == 0 ==> w == Index.Rest
  {
  }

  /** An insertion that has ended put one more block into the index, unless an allocation failed: then, and only then,
      the index has the blocks it had.  It ends within nine of its own steps, through the doubling of the ring or the
      rewinding of its tail. */
  lemma InsertOutcome(s: Index.Index, run: seq<Index.Move>, first: Option<Block>)
    requires s.writer == Index.Rest && Index.Legal(s, [Index.Write(first)] + run)
    requires Index.Legal(Index.Apply(s, Index.Write(first)), run)
    requires OneInsertion(Index.Apply(s, Index.Write(first)), run)
    ensures var z := Index.Final(s, [Index.Write(first)] + run);
      && (z.writer == Index.Rest ==>
            z.started == s.started + if Failed(Index.Apply(s, Index.Write(first)), run) then 0 else 1)
      && (z.writer != Index.Rest ==> z.started == s.started)
      && (Writes(run) >= 8 ==> z.writer == Index.Rest)
  {
    hide *;
    StartsInsertion(s, run, first);
    CheckSlotLeft();
    InsertFrom(Index.Apply(s, Index.Write(first)), run);
  }

  /** With the step that ends an insertion the index has the block under the next number. */
  lemma InsertedBlock(s: Index.Index, block: Option<Block>)
    requires Index.WriterStep(s, block).started != s.started
    ensures block.Some? && Index.WriterStep(s, block).live == s.live[s.started := block.value]
    ensures Index.WriterStep(s, block).started == s.started + 1
  {
    hide Index.Newest, Index.SlotAt, Index.KeyAt, Index.Grown, Index.SetTail, Index.Base, Pow2;
  }
}
