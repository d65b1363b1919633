/**
  What an explicit producer gets done: every enqueue ends, in the queue unless there is no leeway or an allocation
  fails; a drained block is used again before any is allocated; and every dequeue ends.

  All of it holds whatever the other threads do in between.
 */
module ExplicitProgress {
  import opened Basics
  import opened ExplicitProducer

  // ---------------------------------------------------------------------------
  // Enqueueing
  // ---------------------------------------------------------------------------

  /** There is leeway: another block keeps the tail less than half the index range ahead of the head. */
  predicate Roomy(s: State) {
    s.tail - s.head + BLOCK_SIZE < HALF
  }

  /** The comparison of wrapped indices says just that. */
  lemma RoomyIs(s: State, g: Witness)
    requires Inv(s, g) && Windowed(s)
    ensures CircularLess(s.head, s.tail + BLOCK_SIZE) <==> Roomy(s)
  {
    ProducerFacts(s, g);
    LowBound(s, g);
    hide Inv, IndexFits, Scanned, HeaderOk, HeadersOk, Current, NextBlock, BlockAt;
    var d: int := s.tail + BLOCK_SIZE - s.head;
    assert s.tail <= |g.blocks| * BLOCK_SIZE;
    assert 0 < d <= HALF + BLOCK_SIZE;
    assert s.head - (s.tail + BLOCK_SIZE) == 0 - d;
    ModUnique(0 - d, WORD_SIZE, -1, WORD_SIZE - d);
  }

  /** The number of steps an enqueue has left at most. */
  function StepsLeft(pc: Producer): nat {
    match pc
    case Ready => 0
    case Publish(_) => 1
    case Store(_) => 2
    case PublishFront(_) => 3
    case WriteEntry(_) => 4
    case Reuse(_) => 5
    case Requisition(_) => 5
    case Grow(_) => 6
    case Leeway(_) => 7
    case Scan(_, j) => 8 + if j < BLOCK_SIZE then BLOCK_SIZE - j else 0
  }

  const ENQUEUE_STEPS: nat := 40

  /** The element being enqueued. */
  function ElementOf(pc: Producer): int
    requires pc != Ready
  {
    pc.x
  }

  /** The step gives the enqueue up, for lack of leeway or for an allocation that failed. */
  predicate Refuses(s: State, a: Action) {
    a.Produce? && match s.producer
      case Leeway(_) => !Roomy(s)
      case Grow(_) => !a.ok
      case Requisition(_) => !a.ok
      case _ => false
  }

  /** Some step of the run does. */
  ghost predicate Refused(s: State, run: seq<Action>)
    requires Legal(s, run)
    decreases |run|
  {
    run != [] && (Refuses(s, run[0]) || Refused(Apply(s, run[0]), run[1..]))
  }

  /** All steps but starts of an enqueue. */
  predicate SameCall(run: seq<Action>) {
    forall i | 0 <= i < |run| :: !run[i].Enqueue?
  }

  predicate AllocationsSucceed(run: seq<Action>) {
    forall i | 0 <= i < |run| && run[i].Produce? :: run[i].ok
  }

  /** How many of the steps are the enqueueing thread's. */
  function Produces(run: seq<Action>): nat {
    if run == [] then 0 else (if run[0].Produce? then 1 else 0) + Produces(run[1..])
  }

  /** One step of the enqueueing thread. */
  lemma ProducerMovesOn(s: State, g: Witness, ok: bool, b: Block)
    requires Inv(s, g) && Windowed(s) && Enabled(s, Produce(ok, b))
    ensures var a := Produce(ok, b); var s' := Apply(s, a);
      && StepsLeft(s'.producer) < StepsLeft(s.producer)
      && (s'.producer != Ready ==> !Refuses(s, a) && ElementOf(s'.producer) == ElementOf(s.producer)
                                   && s'.tail == s.tail && s'.enq == s.enq)
      && (s'.producer == Ready && Refuses(s, a) ==> s'.tail == s.tail && s'.enq == s.enq)
      && (s'.producer == Ready && !Refuses(s, a) ==>
            s'.tail == s.tail + 1 && s'.enq == s.enq + [ElementOf(s.producer)])
  {
    hide *;
    RoomyIs(s, g);
    ProducerStepMoves(s, ok, b);
  }

  lemma ProducerStepMoves(s: State, ok: bool, b: Block)
    requires Enabled(s, Produce(ok, b)) && (CircularLess(s.head, s.tail + BLOCK_SIZE) <==> Roomy(s))
    ensures var a := Produce(ok, b); var s' := Apply(s, a);
      && StepsLeft(s'.producer) < StepsLeft(s.producer)
      && (s'.producer != Ready ==> !Refuses(s, a) && ElementOf(s'.producer) == ElementOf(s.producer)
                                   && s'.tail == s.tail && s'.enq == s.enq)
      && (s'.producer == Ready && Refuses(s, a) ==> s'.tail == s.tail && s'.enq == s.enq)
      && (s'.producer == Ready && !Refuses(s, a) ==>
            s'.tail == s.tail + 1 && s'.enq == s.enq + [ElementOf(s.producer)])
  {
    ProduceIs(s, ok, b);
    NextPlace(s, ok, b);
    QueueAfter(s, ok, b);
    hide *;
  }

  lemma ProduceIs(s: State, ok: bool, b: Block)
    requires Enabled(s, Produce(ok, b))
    ensures Apply(s, Produce(ok, b)) == ProducerStep(s, s.producer, ok, b) && s.producer != Ready
  {
    hide ProducerStep;
  }

  lemma NextPlace(s: State, ok: bool, b: Block)
    requires s.producer != Ready && (CircularLess(s.head, s.tail + BLOCK_SIZE) <==> Roomy(s))
    ensures var pc := ProducerStep(s, s.producer, ok, b).producer;
      && StepsLeft(pc) < StepsLeft(s.producer)
      && (pc != Ready ==> !Refuses(s, Produce(ok, b)) && ElementOf(pc) == ElementOf(s.producer))
      && (pc == Ready <==> s.producer.Publish? || Refuses(s, Produce(ok, b)))
  {
    hide Flag, NextBlock, ResetEmpty, CopyEntries, Current, SetCurrent, Pow2, Wrap, CircularLess, Roomy;
  }

  lemma QueueAfter(s: State, ok: bool, b: Block)
    requires s.producer != Ready
    ensures var s' := ProducerStep(s, s.producer, ok, b);
      if s.producer.Publish? then
        s'.tail == s.tail + 1 && s'.enq == s.enq + [ElementOf(s.producer)] && !Refuses(s, Produce(ok, b))
      else s'.tail == s.tail && s'.enq == s.enq
  {
    hide Flag, NextBlock, ResetEmpty, CopyEntries, Current, SetCurrent, Pow2, Wrap, CircularLess, Roomy;
  }

  /** Steps of other threads leave the enqueue where it is, and the head only moves on. */
  lemma OthersLeave(s: State, a: Action)
    requires Enabled(s, a) && (a.Claim? || a.Consume?)
    ensures var s' := Apply(s, a);
      && s'.producer == s.producer && s'.tail == s.tail && s'.enq == s.enq && s'.head >= s.head
      && s'.next == s.next && s'.slotsUsed == s.slotsUsed && s'.headers == s.headers && s'.tailBlock == s.tailBlock
  {
    hide LookUp, PartEnd, Content, EntryAt, HeaderAt;
    if a.Consume? {
      match s.consumers[a.thread]
      case Take(_, _, _, _, _, _, _, _) =>
      case SetEmpty(_, _, _, _, _, _, _, _) =>
      case _ =>
    }
  }

  /** Between enqueues no step changes what is in the queue. */
  lemma {:induction false} NothingMore(s: State, run: seq<Action>)
    requires Legal(s, run) && SameCall(run) && s.producer == Ready
    ensures var z := Final(s, run);
      && z.producer == Ready && z.tail == s.tail && z.enq == s.enq && z.next == s.next && z.slotsUsed == s.slotsUsed
      && |z.headers| == |s.headers|
    ensures !Refused(s, run) && Produces(run) == 0
    decreases |run|
  {
    if run != [] {
      OthersLeave(s, run[0]);
      hide Apply;
      NothingMore(Apply(s, run[0]), run[1..]);
    }
  }

  lemma {:induction false} OutcomeFrom(s: State, g: Witness, run: seq<Action>)
    requires Inv(s, g) && Legal(s, run) && SameCall(run) && s.producer != Ready
    ensures var z := Final(s, run);
      if z.producer != Ready then
        && !Refused(s, run) && z.tail == s.tail && z.enq == s.enq
        && StepsLeft(z.producer) + Produces(run) <= StepsLeft(s.producer)
      else if Refused(s, run) then z.tail == s.tail && z.enq == s.enq
      else z.tail == s.tail + 1 && z.enq == s.enq + [ElementOf(s.producer)]
    decreases |run|
  {
    hide Inv, Apply, Enabled, Refuses, Windowed, StepsLeft, ElementOf;
    if run != [] {
      var s' := Apply(s, run[0]);
      var g' := StepKeepsInv(s, g, run[0]);
      MoveOrLeave(s, g, run[0]);
      if s'.producer == Ready {
        NothingMore(s', run[1..]);
      } else {
        OutcomeFrom(s', g', run[1..]);
      }
    }
  }

  lemma MoveOrLeave(s: State, g: Witness, a: Action)
    requires Inv(s, g) && Windowed(s) && Enabled(s, a) && !a.Enqueue? && s.producer != Ready
    ensures var s' := Apply(s, a); var n := if a.Produce? then 1 else 0;
      && StepsLeft(s'.producer) + n <= StepsLeft(s.producer)
      && (s'.producer != Ready ==> !Refuses(s, a) && ElementOf(s'.producer) == ElementOf(s.producer)
                                   && s'.tail == s.tail && s'.enq == s.enq)
      && (s'.producer == Ready && Refuses(s, a) ==> s'.tail == s.tail && s'.enq == s.enq)
      && (s'.producer == Ready && !Refuses(s, a) ==>
            s'.tail == s.tail + 1 && s'.enq == s.enq + [ElementOf(s.producer)])
  {
    if a.Produce? {
      ProducerMovesOn(s, g, a.ok, a.block);
    } else {
      OthersLeave(s, a);
    }
    hide Inv, Apply, Enabled, StepsLeft, ElementOf;
  }

  lemma StartsEnqueue(s: State, x: int)
    requires s.producer == Ready
    ensures var s' := Apply(s, Enqueue(x));
      && s'.producer != Ready && ElementOf(s'.producer) == x && StepsLeft(s'.producer) <= ENQUEUE_STEPS
      && s' == s.(producer := s'.producer)
  {
  }

  lemma AfterStart(s: State, g: Witness, x: int, run: seq<Action>)
    requires Inv(s, g) && s.producer == Ready && Legal(s, [Enqueue(x)] + run)
    ensures Enabled(s, Enqueue(x)) && Inv(Apply(s, Enqueue(x)), g) && Legal(Apply(s, Enqueue(x)), run)
    ensures Final(s, [Enqueue(x)] + run) == Final(Apply(s, Enqueue(x)), run)
  {
    assert ([Enqueue(x)] + run)[1..] == run && ([Enqueue(x)] + run)[0] == Enqueue(x);
    hide Inv, Apply;
    StepEnqueue(s, g, x);
    assert Apply(s, Enqueue(x)) == s.(producer := StartOf(s, x)) by { StartIs(s, x); }
  }

  lemma StartIs(s: State, x: int)
    requires s.producer == Ready
    ensures Apply(s, Enqueue(x)) == s.(producer := StartOf(s, x))
  {
  }

  /** An enqueue that has returned put its element at the end of the queue, unless some step of it found no leeway or a
      failed allocation: then, and only then, it left the queue as it was.  It returns within forty of its own
      steps. */
  lemma EnqueueOutcome(s: State, x: int, run: seq<Action>)
    requires Reachable(s) && s.producer == Ready && Legal(s, [Enqueue(x)] + run) && SameCall(run)
    ensures Enabled(s, Enqueue(x)) && Legal(Apply(s, Enqueue(x)), run)
    ensures var z := Final(s, [Enqueue(x)] + run);
      if z.producer != Ready then z.tail == s.tail && z.enq == s.enq && Produces(run) < ENQUEUE_STEPS
      else if Refused(Apply(s, Enqueue(x)), run) then z.tail == s.tail && z.enq == s.enq
      else z.tail == s.tail + 1 && z.enq == s.enq + [x]
  {
    var g := ReachableInv(s);
    hide *;
    AfterStart(s, g, x, run);
    StartsEnqueue(s, x);
    OutcomeFrom(Apply(s, Enqueue(x)), g, run);
    StillLeft(Final(s, [Enqueue(x)] + run).producer);
  }

  lemma StillLeft(pc: Producer)
    ensures pc != Ready ==> StepsLeft(pc) > 0
  {
  }

  /** With leeway at its start, and allocations that succeed, nothing refuses an enqueue. */
  lemma {:induction false} NotRefused(s: State, g: Witness, run: seq<Action>)
    requires Inv(s, g) && Legal(s, run) && SameCall(run) && AllocationsSucceed(run) && Roomy(s) && s.producer != Ready
    ensures !Refused(s, run)
    decreases |run|
  {
    hide Inv, Apply, Enabled, Windowed, StepsLeft, ElementOf;
    if run != [] {
      var s' := Apply(s, run[0]);
      var g' := StepKeepsInv(s, g, run[0]);
      MoveOrLeave(s, g, run[0]);
      if s'.producer == Ready {
        NothingMore(s', run[1..]);
      } else {
        HeadKeeps(s, run[0]);
        NotRefused(s', g', run[1..]);
      }
    }
  }

  lemma HeadKeeps(s: State, a: Action)
    requires Enabled(s, a)
    ensures Apply(s, a).head >= s.head
  {
    if a.Claim? || a.Consume? {
      OthersLeave(s, a);
    }
    hide LookUp, PartEnd, Content, EntryAt, HeaderAt, Flag, NextBlock, ResetEmpty, CopyEntries, Current, SetCurrent,
         ConsumerStep;
  }

  /** An enqueue with leeway, whose allocations succeed, puts its element into the queue within forty of its own steps:
      across the scanning and reuse of a block, the growth of the index and the insertion of a new block. */
  lemma EnqueueSucceeds(s: State, x: int, run: seq<Action>)
    requires Reachable(s) && s.producer == Ready && CircularLess(s.head, s.tail + BLOCK_SIZE)
    requires Legal(s, [Enqueue(x)] + run) && SameCall(run) && AllocationsSucceed(run)
    ensures var z := Final(s, [Enqueue(x)] + run);
      && (z.producer == Ready ==> z.tail == s.tail + 1 && z.enq == s.enq + [x])
      && (Produces(run) >= ENQUEUE_STEPS ==> z.producer == Ready)
  {
    var g := ReachableInv(s);
    LegalStart(s, [Enqueue(x)] + run);
    EnqueueOutcome(s, x, run);
    RoomyIs(s, g);
    AfterStart(s, g, x, run);
    StartsEnqueue(s, x);
    assert Roomy(Apply(s, Enqueue(x))) && Apply(s, Enqueue(x)).producer != Ready;
    hide *;
    NotRefused(Apply(s, Enqueue(x)), g, run);
  }

  lemma LegalStart(s: State, run: seq<Action>)
    requires Legal(s, run) && run != []
    ensures Windowed(s)
  {
  }

  // ---------------------------------------------------------------------------
  // An enqueue alone
  // ---------------------------------------------------------------------------

  /** The enqueue has a new block yet to insert, perhaps. */
  predicate MayInsert(pc: Producer) {
    pc.Scan? || pc.Leeway? || pc.Grow? || pc.Requisition?
  }

  /** Block b is fresh, and another block fits the window, as long as they may be needed. */
  predicate Supplied(s: State, b: Block) {
    Windowed(s) && (MayInsert(s.producer) ==> b !in s.next && s.slotsUsed * BLOCK_SIZE + BLOCK_SIZE <= HALF)
  }

  lemma SuppliedAfter(s: State, b: Block)
    requires s.producer != Ready && Supplied(s, b)
    ensures Enabled(s, Produce(true, b)) && Supplied(Apply(s, Produce(true, b)), b)
  {
    hide Flag, NextBlock, ResetEmpty, CopyEntries, Current, SetCurrent, Pow2, Wrap, CircularLess;
    match s.producer
    case Scan(_, j) =>
    case _ =>
  }

  lemma {:induction false} AloneFrom(s: State, g: Witness, b: Block) returns (run: seq<Action>)
    requires Inv(s, g) && Supplied(s, b)
    ensures Legal(s, run) && Final(s, run).producer == Ready
    ensures forall i | 0 <= i < |run| :: run[i] == Produce(true, b)
    decreases StepsLeft(s.producer)
  {
    hide Inv, Apply, StepsLeft, Supplied, Enabled;
    if s.producer == Ready {
      run := [];
    } else {
      var a := Produce(true, b);
      SuppliedAfter(s, b);
      assert Windowed(s) by { SuppliedIs(s, b); }
      var g' := StepKeepsInv(s, g, a);
      ProducerMovesOn(s, g, true, b);
      var rest := AloneFrom(Apply(s, a), g', b);
      run := [a] + rest;
      assert run[1..] == rest;
    }
  }

  lemma SuppliedIs(s: State, b: Block)
    requires Supplied(s, b)
    ensures Windowed(s)
  {
  }

  /** Left alone, with leeway and a fresh block at hand, an enqueue puts its element into the queue. */
  lemma EnqueueAlone(s: State, x: int, b: Block) returns (run: seq<Action>)
    requires Reachable(s) && s.producer == Ready && CircularLess(s.head, s.tail + BLOCK_SIZE)
    requires b !in s.next && s.slotsUsed * BLOCK_SIZE + BLOCK_SIZE <= HALF
    ensures forall i | 0 <= i < |run| :: run[i] == Produce(true, b)
    ensures Legal(s, [Enqueue(x)] + run)
    ensures var z := Final(s, [Enqueue(x)] + run);
      z.producer == Ready && z.tail == s.tail + 1 && z.enq == s.enq + [x]
  {
    var g := ReachableInv(s);
    StartIs(s, x);
    StepEnqueue(s, g, x);
    var s' := Apply(s, Enqueue(x));
    assert Supplied(s', b);
    hide Inv, Apply, StepsLeft, Supplied, StartOf, Reachable;
    run := AloneFrom(s', g, b);
    assert ([Enqueue(x)] + run)[1..] == run;
    EnqueueSucceeds(s, x, run);
  }

  // ---------------------------------------------------------------------------
  // Drained blocks are used again
  // ---------------------------------------------------------------------------

  /** All flags of the oldest block are set. */
  predicate Drained(s: State) {
    s.tailBlock.Some? && forall j: nat | j < BLOCK_SIZE :: Flag(s.flags, Cell(NextBlock(s), j))
  }

  /** The enqueue is on its way to the oldest block, or past finding it, without a new one. */
  predicate OnReuse(s: State) {
    match s.producer
    case Scan(_, _) => Drained(s)
    case Leeway(_) => false
    case Grow(_) => false
    case Requisition(_) => false
    case _ => true
  }

  lemma DrainedStays(s: State, s': State)
    requires Drained(s) && s'.next == s.next && s'.tailBlock == s.tailBlock
    requires forall c | Flag(s.flags, c) :: Flag(s'.flags, c)
    ensures Drained(s')
  {
    hide Flag;
    assert NextBlock(s') == NextBlock(s);
  }

  lemma ReuseGoesOn(s: State, g: Witness, a: Action)
    requires Inv(s, g) && Windowed(s) && Enabled(s, a) && !a.Enqueue? && OnReuse(s) && s.producer != Ready
    ensures var s' := Apply(s, a);
      && OnReuse(s') && !Refuses(s, a) && s'.next == s.next && s'.slotsUsed == s.slotsUsed
      && |s'.headers| == |s.headers|
  {
    if a.Produce? {
      ProduceIs(s, a.ok, a.block);
      assert s.producer.Scan? ==> s.producer.flag < BLOCK_SIZE && |s.headers| > 0 by {
        ProducerFacts(s, g);
        hide Inv, HeaderOk, HeadersOk, IndexFits, Scanned, Current, BlockAt, NextBlock;
      }
      assert |s.headers| > 0 by { ProducerFacts(s, g); hide *; }
      hide Inv, Apply, Enabled;
      ReuseStep(s, a.ok, a.block);
    } else {
      OthersLeave(s, a);
      FlagsStay(s, a);
      hide Inv, Apply, Flag, Drained, NextBlock;
      if s.producer.Scan? {
        DrainedStays(s, Apply(s, a));
      }
    }
  }

  lemma ReuseStep(s: State, ok: bool, b: Block)
    requires OnReuse(s) && s.producer != Ready && |s.headers| > 0 && (s.producer.Scan? ==> s.producer.flag < BLOCK_SIZE)
    ensures var s' := ProducerStep(s, s.producer, ok, b);
      && OnReuse(s') && !Refuses(s, Produce(ok, b)) && s'.next == s.next && s'.slotsUsed == s.slotsUsed
      && |s'.headers| == |s.headers|
  {
    hide Flag, Pow2, Wrap, ResetEmpty, CopyEntries, CircularLess;
    match s.producer
    case Scan(_, j) => assert Flag(s.flags, Cell(NextBlock(s), j));
    case _ =>
  }

  /** Dequeueing threads only set flags. */
  lemma FlagsStay(s: State, a: Action)
    requires Enabled(s, a) && (a.Claim? || a.Consume?)
    ensures forall c | Flag(s.flags, c) :: Flag(Apply(s, a).flags, c)
  {
    hide LookUp, PartEnd, Content, EntryAt, HeaderAt;
    if a.Consume? {
      match s.consumers[a.thread]
      case Take(_, _, _, _, _, _, _, _) =>
      case SetEmpty(_, _, _, _, _, _, _, _) =>
      case _ =>
    }
  }

  lemma {:induction false} ReuseRuns(s: State, g: Witness, run: seq<Action>)
    requires Inv(s, g) && Legal(s, run) && SameCall(run) && OnReuse(s) && s.producer != Ready
    ensures var z := Final(s, run);
      !Refused(s, run) && z.next == s.next && z.slotsUsed == s.slotsUsed && |z.headers| == |s.headers|
    decreases |run|
  {
    hide Inv, Apply, Enabled, Windowed, OnReuse, Refuses;
    if run != [] {
      var s' := Apply(s, run[0]);
      var g' := StepKeepsInv(s, g, run[0]);
      ReuseGoesOn(s, g, run[0]);
      if s'.producer == Ready {
        NothingMore(s', run[1..]);
      } else {
        ReuseRuns(s', g', run[1..]);
      }
    }
  }

  /** At the end of a block, with the oldest block of the ring drained, an enqueue always succeeds and takes that block:
      it needs no leeway, no new block and no larger index. */
  lemma DrainedIsReused(s: State, x: int, run: seq<Action>)
    requires Reachable(s) && s.producer == Ready && s.tail % BLOCK_SIZE == 0 && Drained(s)
    requires Legal(s, [Enqueue(x)] + run) && SameCall(run)
    ensures var z := Final(s, [Enqueue(x)] + run);
      && z.next == s.next && z.slotsUsed == s.slotsUsed && |z.headers| == |s.headers|
      && (z.producer == Ready ==> z.tail == s.tail + 1 && z.enq == s.enq + [x])
  {
    var g := ReachableInv(s);
    AfterStart(s, g, x, run);
    StartIs(s, x);
    EnqueueOutcome(s, x, run);
    var s' := Apply(s, Enqueue(x));
    DrainedStays(s, s');
    assert s'.producer == Scan(x, 0) && OnReuse(s');
    hide *;
    ReuseRuns(s', g, run);
  }

  // ---------------------------------------------------------------------------
  // Every index is somebody's until its flag is set
  // ---------------------------------------------------------------------------

  /** A thread at pc has i claimed and not taken. */
  predicate HasClaimed(pc: Consumer, i: nat) {
    match pc
    case Idle => false
    case SetEmpty(_, end, _, _, _, first, _, _) => PartEnd(first, end) <= i < end
    case _ => pc.index <= i < pc.end
  }

  /** A thread at pc has taken i and not set its flag. */
  predicate HasTaken(pc: Consumer, i: nat) {
    match pc
    case Take(index, _, _, _, _, first, _, _) => first <= i < index
    case SetEmpty(index, _, _, _, _, first, _, _) => first <= i <= index
    case _ => false
  }

  /** What becomes of an index is in the hands of a thread that is at work on it. */
  predicate InHands(pcs: map<Thread, Consumer>, f: Fate, i: nat) {
    match f
    case Claimed(t) => t in pcs && HasClaimed(pcs[t], i)
    case Emptied(t) => t in pcs && HasTaken(pcs[t], i)
    case _ => true
  }

  ghost predicate AllInHands(s: State, g: Witness) {
    forall i: nat :: InHands(s.consumers, At(g.at, i), i)
  }

  lemma StepInHands(s: State, g: Witness, a: Action, g': Witness)
    requires Inv(s, g) && Enabled(s, a) && AllInHands(s, g) && g'.at == FatesAfter(s, g.at, a)
    ensures AllInHands(Apply(s, a), g')
  {
    if a.Consume? {
      assert ConsumerOk(s.consumers[a.thread], a.thread, s.enq, g) by { ThreadFacts(s, g, a.thread); }
      ConsumerAlone(s, a.thread);
      hide Inv, AllInHands, InHands, ConsumerOk, ConsumerStep, FatesAfter;
      forall i: nat
        ensures InHands(Apply(s, a).consumers, At(g'.at, i), i)
      {
        HandsAt(s, g, i);
        ConsumeInHands(s, g, a.thread, i);
      }
      AllHands(Apply(s, a), g');
    } else if a.Claim? {
      hide Inv;
    } else {
      OthersIdle(s, a);
      hide Inv, Apply, InHands;
    }
  }

  lemma AllHands(s: State, g: Witness)
    requires forall i: nat :: InHands(s.consumers, At(g.at, i), i)
    ensures AllInHands(s, g)
  {
  }

  /** The enqueueing thread does nothing to the others. */
  lemma OthersIdle(s: State, a: Action)
    requires Enabled(s, a) && (a.Produce? || a.Enqueue?)
    ensures Apply(s, a).consumers == s.consumers
  {
    if a.Produce? {
      ProduceIs(s, a.ok, a.block);
      hide *;
      ConsumersStay(s, a.ok, a.block);
    } else {
      hide ProducerStep, ConsumerStep;
    }
  }

  lemma ConsumersStay(s: State, ok: bool, b: Block)
    ensures ProducerStep(s, s.producer, ok, b).consumers == s.consumers
  {
    hide Flag, NextBlock, ResetEmpty, CopyEntries, Current, SetCurrent, Pow2, Wrap, CircularLess;
  }

  lemma HandsAt(s: State, g: Witness, i: nat)
    requires AllInHands(s, g)
    ensures InHands(s.consumers, At(g.at, i), i)
  {
  }

  lemma ConsumeInHands(s: State, g: Witness, t: Thread, i: nat)
    requires t in s.consumers && s.consumers[t] != Idle && ConsumerOk(s.consumers[t], t, s.enq, g)
    requires InHands(s.consumers, At(g.at, i), i)
    requires var s' := ConsumerStep(s, t, s.consumers[t]); s'.consumers == s.consumers[t := s'.consumers[t]]
    ensures InHands(ConsumerStep(s, t, s.consumers[t]).consumers, At(FatesAfter(s, g.at, Consume(t)), i), i)
  {
    var pc := s.consumers[t];
    hide InHeader, FrontSeen, LookUp, BlockAt, SeenAt, EntryAt, HeaderAt, Wrap, Fated, SlotIs, Content, Got;
    if pc.SetEmpty? || pc.Take? {
      PartFacts(pc.index, pc.first, pc.end);
    }
    hide PartEnd;
  }

  lemma {:induction false} RunInHands(s: State, g: Witness, run: seq<Action>) returns (g': Witness)
    requires Inv(s, g) && Legal(s, run) && AllInHands(s, g)
    ensures Inv(Final(s, run), g') && AllInHands(Final(s, run), g')
    decreases |run|
  {
    hide Inv, AllInHands, Apply, FatesAfter;
    if run == [] {
      g' := g;
    } else {
      g' := StepKeepsInv(s, g, run[0]);
      StepInHands(s, g, run[0], g');
      g' := RunInHands(Apply(s, run[0]), g', run[1..]);
    }
  }

  lemma ReachableInHands(s: State) returns (g: Witness)
    requires Reachable(s)
    ensures Inv(s, g) && AllInHands(s, g)
  {
    hide Inv, Init;
    var s0, run :| Init(s0) && Legal(s0, run) && s == Final(s0, run);
    InitInv(s0);
    g := RunInHands(s0, InitWitness(s0), run);
  }

  /** Between dequeues the flag of every index of the oldest block that was claimed is set; so a block is drained as
      soon as the head is past it and no dequeue is under way. */
  lemma QuietIsDrained(s: State)
    requires Reachable(s) && s.producer == Ready && s.tail % BLOCK_SIZE == 0 && s.slotsUsed > 0
    requires forall t | t in s.consumers :: s.consumers[t] == Idle
    requires s.tail - s.slotsUsed * BLOCK_SIZE + BLOCK_SIZE <= s.head
    ensures Drained(s)
  {
    hide *;
    var g := ReachableInHands(s);
    OldestBlock(s, g);
    TailBlockIs(s, g);
    DrainedIf(s);
    BelowHead(s, |g.blocks|, g.low);
    forall j: nat | j < BLOCK_SIZE
      ensures Flag(s.flags, Cell(NextBlock(s), j))
    {
      OldestFlag(s, g, j);
    }
  }

  lemma BelowHead(s: State, count: nat, low: nat)
    requires count * BLOCK_SIZE == s.tail && s.slotsUsed + low == count
    requires s.tail - s.slotsUsed * BLOCK_SIZE + BLOCK_SIZE <= s.head
    ensures low * BLOCK_SIZE + BLOCK_SIZE <= s.head
  {
  }

  lemma OldestFlag(s: State, g: Witness, j: nat)
    requires Inv(s, g) && AllInHands(s, g) && j < BLOCK_SIZE && g.low < |g.blocks|
    requires forall t | t in s.consumers :: s.consumers[t] == Idle
    requires g.low * BLOCK_SIZE + BLOCK_SIZE <= s.head && NextBlock(s) == BlockAt(g.blocks, g.low)
    ensures Flag(s.flags, Cell(NextBlock(s), j))
  {
    hide Inv, AllInHands, InHands, Flag, NextBlock, BlockAt, At;
    var i := g.low * BLOCK_SIZE + (BLOCK_SIZE - 1 - j);
    HandsAt(s, g, i);
    IdleHands(s, g, i);
    FlagSet(s, g, i);
    PlaceInBlock(g.low, BLOCK_SIZE - 1 - j);
  }

  lemma PlaceInBlock(k: nat, r: nat)
    requires r < BLOCK_SIZE
    ensures var i := k * BLOCK_SIZE + r; i / BLOCK_SIZE == k && i % BLOCK_SIZE == r
  {
  }

  lemma DrainedIf(s: State)
    ensures s.tailBlock.Some? && (forall j: nat | j < BLOCK_SIZE :: Flag(s.flags, Cell(NextBlock(s), j))) ==> Drained(s)
  {
  }

  /** With nobody at work, an index below the head is done with. */
  lemma IdleHands(s: State, g: Witness, i: nat)
    requires Inv(s, g) && i < s.head && InHands(s.consumers, At(g.at, i), i)
    requires forall t | t in s.consumers :: s.consumers[t] == Idle
    ensures At(g.at, i) == Done
  {
    RingFacts(s, g);
    hide Inv, RingOk, At;
  }

  /** The oldest block, at the end of a block. */
  lemma OldestBlock(s: State, g: Witness)
    requires Inv(s, g) && s.producer == Ready && s.tail % BLOCK_SIZE == 0
    ensures |g.blocks| * BLOCK_SIZE == s.tail && s.slotsUsed + g.low == |g.blocks|
  {
    assert TailFits(Ready, s.tail, |g.blocks|) && s.slotsUsed + g.low == |g.blocks| by {
      ProducerFacts(s, g);
      hide Inv, HeaderOk, HeadersOk, IndexFits, Scanned, TailFits, Current, BlockAt, NextBlock;
    }
    hide Inv;
  }

  lemma TailBlockIs(s: State, g: Witness)
    requires Inv(s, g) && s.slotsUsed > 0
    ensures s.tailBlock.Some? && g.low < |g.blocks| && NextBlock(s) == BlockAt(g.blocks, g.low)
  {
    ProducerFacts(s, g);
    hide Inv, HeaderOk, HeadersOk, IndexFits, Scanned, TailFits, Current, BlockAt, NextBlock;
  }

  lemma FlagSet(s: State, g: Witness, i: nat)
    requires Inv(s, g) && At(g.at, i) == Done && g.low * BLOCK_SIZE <= i < |g.blocks| * BLOCK_SIZE
    ensures Flag(s.flags, Cell(BlockAt(g.blocks, i / BLOCK_SIZE), BLOCK_SIZE - 1 - i % BLOCK_SIZE))
  {
    hide RingOk, FatesOk, CellsOk, HeadersOk, ConsumersOk, ProducerOk, At, BlockAt;
  }

  // ---------------------------------------------------------------------------
  // Dequeueing
  // ---------------------------------------------------------------------------

  /** A bound on the steps a dequeueing thread has left. */
  function Left(pc: Consumer): nat {
    match pc
    case Idle => 0
    case LoadHeader(i, end) => 3 * Span(i, end) + 3
    case LoadFront(i, end, _) => 3 * Span(i, end) + 2
    case LoadBase(i, end, _, _) => 3 * Span(i, end) + 1
    case LoadBlock(i, end, _, _, _, _) => 3 * Span(i, end)
    case Take(i, end, _, _, _, first, _, _) =>
      3 * Span(PartEnd(first, end), end) + Span(i, PartEnd(first, end)) + Span(first, PartEnd(first, end))
    case SetEmpty(i, end, _, _, _, first, _, _) => 3 * Span(PartEnd(first, end), end) + Span(first, i) + 1
  }

  function Span(i: nat, end: nat): nat {
    if i < end then end - i else 0
  }

  lemma ConsumeLowers(s: State, g: Witness, t: Thread)
    requires t in s.consumers && s.consumers[t] != Idle && ConsumerOk(s.consumers[t], t, s.enq, g)
    ensures Left(ConsumerStep(s, t, s.consumers[t]).consumers[t]) < Left(s.consumers[t])
  {
    var pc := s.consumers[t];
    hide InHeader, FrontSeen, LookUp, At, BlockAt, SeenAt, EntryAt, HeaderAt, Wrap, Fated, SlotIs, Content, Got;
    if pc.SetEmpty? || pc.Take? {
      PartFacts(pc.index, pc.first, pc.end);
    } else if pc.LoadBlock? {
      PartBegins(pc.index, pc.end);
    }
    hide PartEnd;
  }

  /** How many of the steps are thread t's, on its way through a dequeue. */
  function Consumes(run: seq<Action>, t: Thread): nat {
    if run == [] then 0 else (if run[0] == Consume(t) then 1 else 0) + Consumes(run[1..], t)
  }

  lemma LeftAfter(s: State, g: Witness, a: Action, t: Thread)
    requires Inv(s, g) && Enabled(s, a) && t in s.consumers && !(a.Claim? && a.thread == t)
    ensures var s' := Apply(s, a);
      && t in s'.consumers
      && Left(s'.consumers[t]) + (if a == Consume(t) then 1 else 0) <= Left(s.consumers[t])
  {
    if a.Consume? {
      ConsumerAlone(s, a.thread);
      if a.thread == t {
        ThreadFacts(s, g, t);
        ConsumeLowers(s, g, t);
      }
      hide Inv, ConsumerStep, Left;
    } else {
      hide Inv, Left;
      if !a.Claim? {
        OthersIdle(s, a);
        hide Apply;
      }
    }
  }

  lemma {:induction false} LeftFalls(s: State, g: Witness, run: seq<Action>, t: Thread)
    requires Inv(s, g) && Legal(s, run) && t in s.consumers
    requires forall i | 0 <= i < |run| && run[i].Claim? :: run[i].thread != t
    ensures t in Final(s, run).consumers && Left(Final(s, run).consumers[t]) + Consumes(run, t) <= Left(s.consumers[t])
    decreases |run|
  {
    hide Inv, Apply, Left, Enabled, Windowed;
    if run != [] {
      var g' := StepKeepsInv(s, g, run[0]);
      LeftAfter(s, g, run[0], t);
      LeftFalls(Apply(s, run[0]), g', run[1..], t);
    }
  }

  /** A dequeue of n elements returns within 3 * n + 3 steps of its own, whatever the others do; no step of it ever
      has to wait. */
  lemma DequeueReturns(s: State, t: Thread, n: nat, run: seq<Action>)
    requires Reachable(s) && Legal(s, [Claim(t, n)] + run)
    requires forall i | 0 <= i < |run| && run[i].Claim? :: run[i].thread != t
    ensures var z := Final(s, [Claim(t, n)] + run);
      && t in z.consumers && Consumes(run, t) <= 3 * n + 3
      && (Consumes(run, t) == 3 * n + 3 ==> z.consumers[t] == Idle)
      && (z.consumers[t] != Idle ==> Enabled(z, Consume(t)))
  {
    hide *;
    var g := ReachableInv(s);
    ClaimBegins(s, t, n, run);
    var s' := Apply(s, Claim(t, n));
    var g' := StepKeepsInv(s, g, Claim(t, n));
    LeftFalls(s', g', run, t);
    var g2 := RunKeepsInv(s', g', run);
    ThreadFacts(Final(s', run), g2, t);
    LeftZero(Final(s', run), g2, t);
    NeverWaits(Final(s', run), t);
  }

  lemma ClaimBegins(s: State, t: Thread, n: nat, run: seq<Action>)
    requires Legal(s, [Claim(t, n)] + run)
    ensures Enabled(s, Claim(t, n)) && Windowed(s)
    ensures var s' := Apply(s, Claim(t, n));
      && Legal(s', run) && Final(s, [Claim(t, n)] + run) == Final(s', run)
      && t in s'.consumers && Left(s'.consumers[t]) == 3 * n + 3
  {
    var all := [Claim(t, n)] + run;
    assert all[0] == Claim(t, n) && all[1..] == run;
  }

  lemma NeverWaits(s: State, t: Thread)
    requires t in s.consumers
    ensures s.consumers[t] != Idle ==> Enabled(s, Consume(t))
  {
  }

  lemma LeftZero(s: State, g: Witness, t: Thread)
    requires t in s.consumers && ConsumerOk(s.consumers[t], t, s.enq, g)
    ensures Left(s.consumers[t]) == 0 ==> s.consumers[t] == Idle
  {
    hide InHeader, FrontSeen, At, BlockAt, SeenAt, Fated, SlotIs, Got;
  }
}
