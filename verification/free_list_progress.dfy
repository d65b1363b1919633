/**
  What calls of the free list get done.  A thread that runs alone, wherever the others are stopped, finishes its call in
  a few steps; try_get comes back without a node only if it saw the list empty; and a node added is one that a later
  try_get returns.
 */
module FreeListProgress {
  import opened Basics
  import opened FreeList

  // ---------------------------------------------------------------------------
  // A thread alone finishes its call
  // ---------------------------------------------------------------------------

  /** Letting go of n, a thread that holds the last reference puts it on the list. */
  predicate LastReference(s: State, n: Node) {
    Word(s.refs, n) == SHOULD_BE_ON_FREELIST + 1
  }

  /** The thread would not get a reference. */
  predicate MissesRef(s: State, h: Node, r: nat) {
    r % (REFS_MASK + 1) == 0 || Word(s.refs, h) != r
  }

  /** A bound on the steps a thread at pc takes alone. */
  function StepsAlone(s: State, pc: PC): nat {
    match pc
    case Idle => 0
    case DropTwo(_) => 1
    case CheckTaken(_) => 2
    case SwapHead(h, _) => if s.head == Some(h) then 3 else if LastReference(s, h) then 17 else 8
    case LoadNext(h) => if s.head == Some(h) then 4 else if LastReference(s, h) then 18 else 9
    case TakeRef(h, r) => if MissesRef(s, h, r) then 8 else if s.head == Some(h) then 5 else 10
    case LoadRefs(h) => if s.head == Some(h) then 6 else 11
    case LoadHead => if s.head == None then 1 else 7
    case DropOne(p, c) =>
      if LastReference(s, p) then 16 else if c == None then 1 else if c == s.head then 7 else 12
    case Publish(_, seen, _) => if s.head == seen then 12 else 16
    case StoreRef(_, seen, _) => if s.head == seen then 13 else 17
    case LinkNext(_, seen, _) => if s.head == seen then 14 else 18
    case Unpublish(_, seen, _) => if s.head == seen then 15 else 19
    case StartLink(_, _) => 15
    case Adding(_) => 16
  }

  const MOST_STEPS: nat := 19

  /** The word of a listed node counts at least the list's reference. */
  lemma HeadHasReference(s: State, g: Witness, h: Node)
    requires Inv(s, g) && s.head == Some(h)
    ensures Word(s.refs, h) % (REFS_MASK + 1) != 0
  {
    HeadListed(s, g, h);
    NodeFacts(s, g, h);
    hide Inv, RefCount;
  }

  lemma HeadListed(s: State, g: Witness, h: Node)
    requires Inv(s, g) && s.head == Some(h)
    ensures At(g.at, h) == Listed
  {
    assert h in g.list;
  }

  lemma OneMoreIsNotLast(r: nat)
    requires r % (REFS_MASK + 1) != 0
    ensures FetchAdd(r, 1) != SHOULD_BE_ON_FREELIST + 1
  {
  }

  /** Each of its steps brings a thread that runs alone nearer to the end of its call. */
  lemma AloneLowers(s: State, g: Witness, t: Thread)
    requires Inv(s, g) && t in s.pcs && s.pcs[t] != Idle
    ensures var s' := RunStep(s, t, s.pcs[t]);
      t in s'.pcs && StepsAlone(s', s'.pcs[t]) < StepsAlone(s, s.pcs[t]) <= MOST_STEPS
  {
    hide *;
    var pc := s.pcs[t];
    if pc.LoadRefs? && s.head == Some(pc.head) {
      HeadHasReference(s, g, pc.head);
    }
    if Linking(pc) {
      LinkStep(s, t, pc);
    } else {
      TakeStep(s, t, pc);
    }
  }

  predicate Linking(pc: PC) {
    pc.Adding? || pc.StartLink? || pc.LinkNext? || pc.StoreRef? || pc.Publish? || pc.Unpublish?
  }

  lemma LinkStep(s: State, t: Thread, pc: PC)
    requires t in s.pcs && Linking(pc)
    ensures var s' := RunStep(s, t, pc); t in s'.pcs && StepsAlone(s', s'.pcs[t]) < StepsAlone(s, pc) <= MOST_STEPS
  {
    hide FetchAdd, LastReference, MissesRef;
    match pc
    case Publish(_, _, r) =>
    case Unpublish(_, _, r) =>
    case _ =>
  }

  lemma TakeStep(s: State, t: Thread, pc: PC)
    requires t in s.pcs && pc != Idle && !Linking(pc)
    requires pc.LoadRefs? && s.head == Some(pc.head) ==> Word(s.refs, pc.head) % (REFS_MASK + 1) != 0
    ensures var s' := RunStep(s, t, pc); t in s'.pcs && StepsAlone(s', s'.pcs[t]) < StepsAlone(s, pc) <= MOST_STEPS
  {
    if pc.TakeRef? && !MissesRef(s, pc.head, pc.refs) {
      OneMoreIsNotLast(pc.refs);
    }
    hide FetchAdd;
    match pc
    case TakeRef(_, _) =>
    case DropOne(_, _) =>
    case SwapHead(_, _) =>
    case _ =>
  }

  lemma OthersStay(s: State, t: Thread)
    requires t in s.pcs
    ensures var s' := RunStep(s, t, s.pcs[t]); s'.pcs == s.pcs[t := if t in s'.pcs then s'.pcs[t] else Idle]
  {
    hide FetchAdd, Word, NextOf;
  }

  /** All steps are t's. */
  predicate Alone(run: seq<Label>, t: Thread) {
    forall i | 0 <= i < |run| :: run[i] == Label(t, Run)
  }

  /** From every reachable state, a thread that runs alone finishes its call within nineteen steps, wherever the others
      are stopped. */
  lemma AloneFinishes(s: State, t: Thread) returns (run: seq<Label>)
    requires Reachable(s) && t in s.pcs
    ensures Alone(run, t) && |run| <= MOST_STEPS
    ensures Legal(s, run) && Final(s, run).pcs == s.pcs[t := Idle]
  {
    var g := ReachableInv(s);
    hide Inv;
    run := FinishFrom(s, g, t);
    if s.pcs[t] != Idle {
      AloneLowers(s, g, t);
    }
  }

  lemma {:induction false} FinishFrom(s: State, g: Witness, t: Thread) returns (run: seq<Label>)
    requires Inv(s, g) && t in s.pcs
    ensures Alone(run, t) && |run| <= StepsAlone(s, s.pcs[t])
    ensures Legal(s, run) && Final(s, run).pcs == s.pcs[t := Idle]
    decreases StepsAlone(s, s.pcs[t])
  {
    hide Inv, RunStep, StepsAlone;
    if s.pcs[t] == Idle {
      run := [];
    } else {
      var l := Label(t, Run);
      AloneLowers(s, g, t);
      OthersStay(s, t);
      StepKeepsInv(s, g, l);
      var rest := FinishFrom(Apply(s, l), Move(s, g, l), t);
      run := [l] + rest;
      assert run[1..] == rest;
    }
  }

  // ---------------------------------------------------------------------------
  // What a lone call does
  // ---------------------------------------------------------------------------

  ghost predicate Quiet(s: State) {
    forall t | t in s.pcs :: s.pcs[t] == Idle
  }

  /** On its way through add. */
  predicate InAdd(pc: PC) {
    match pc
    case Adding(_) => true
    case StartLink(_, r) => r == ToCaller
    case LinkNext(_, _, r) => r == ToCaller
    case StoreRef(_, _, r) => r == ToCaller
    case Publish(_, _, r) => r == ToCaller
    case Unpublish(_, _, r) => r == ToCaller
    case _ => false
  }

  lemma AddGoesOn(s: State, t: Thread)
    requires t in s.pcs && InAdd(s.pcs[t])
    ensures var s' := RunStep(s, t, s.pcs[t]);
      t in s'.pcs && s'.given == s.given && (InAdd(s'.pcs[t]) || s'.pcs[t] == Idle)
  {
    hide FetchAdd, Word;
  }

  lemma {:induction false} AddRuns(s: State, t: Thread, run: seq<Label>)
    requires t in s.pcs && (InAdd(s.pcs[t]) || s.pcs[t] == Idle) && Alone(run, t) && Legal(s, run)
    ensures Final(s, run).given == s.given
    decreases |run|
  {
    if run != [] {
      AddGoesOn(s, t);
      hide RunStep, InAdd;
      AddRuns(Apply(s, run[0]), t, run[1..]);
    }
  }

  /** Between calls, adding a node puts it on the list, with all that were there. */
  lemma AddAlone(s: State, t: Thread, n: Node) returns (run: seq<Label>)
    requires Reachable(s) && Quiet(s) && t in s.pcs && n !in s.given
    ensures Alone(run, t) && Legal(s, [Label(t, CallAdd(n))] + run)
    ensures var z := Final(s, [Label(t, CallAdd(n))] + run);
      && Quiet(z) && z.given == s.given + {n}
      && exists list: seq<Node> :: Chain(z.head, z.next, list) && NoDup(list) && forall m ::
           m in list <==> m in s.given || m == n
  {
    var l := Label(t, CallAdd(n));
    var s' := Go(s, l);
    hide Reachable, RunStep;
    run := AloneFinishes(s', t);
    AddRuns(s', t, run);
    assert ([l] + run)[1..] == run;
    var z := Final(s', run);
    RunReachable(s', run);
    QuiescentListIsComplete(z);
    var list: seq<Node> :| Chain(z.head, z.next, list) && NoDup(list) && forall m :: m in list <==> m in z.given;
    assert forall m :: m in list <==> m in s.given || m == n;
  }

  lemma {:induction false} RunReachable(s: State, run: seq<Label>)
    requires Reachable(s) && Legal(s, run)
    ensures Reachable(Final(s, run))
    decreases |run|
  {
    hide Apply, Enabled, Reachable;
    if run != [] {
      var s' := Go(s, run[0]);
      RunReachable(s', run[1..]);
    }
  }

  /** Where a lone try_get that started in s is, with n the first node of the list. */
  predicate OnTheWay(s: State, z: State, t: Thread, n: Node)
    requires t in z.pcs
  {
    && z.given == s.given && z.next == s.next
    && match z.pcs[t]
       case LoadHead => z.head == Some(n) && Word(z.refs, n) % (REFS_MASK + 1) != 0
       case LoadRefs(h) => h == n && z.head == Some(n) && Word(z.refs, n) % (REFS_MASK + 1) != 0
       case TakeRef(h, r) => h == n && z.head == Some(n) && r == Word(z.refs, n) && r % (REFS_MASK + 1) != 0
       case LoadNext(h) => h == n && z.head == Some(n)
       case SwapHead(h, x) => h == n && z.head == Some(n) && x == NextOf(s.next, n)
       case CheckTaken(h) => h == n && z.head == NextOf(s.next, n)
       case DropTwo(h) => h == n && z.head == NextOf(s.next, n)
       case _ => false
  }

  lemma WayGoesOn(s: State, z: State, t: Thread, n: Node)
    requires t in z.pcs && OnTheWay(s, z, t, n)
    ensures var z' := RunStep(z, t, z.pcs[t]);
      && t in z'.pcs
      && if z.pcs[t].DropTwo? then z'.pcs[t] == Idle && z'.given == s.given - {n} && z'.head == NextOf(s.next, n)
         else OnTheWay(s, z', t, n)
  {
    hide FetchAdd;
  }

  lemma {:induction false} GetRuns(s: State, z: State, t: Thread, n: Node, run: seq<Label>)
    requires t in z.pcs && OnTheWay(s, z, t, n) && Alone(run, t) && Legal(z, run)
    requires t in Final(z, run).pcs && Final(z, run).pcs[t] == Idle
    ensures Final(z, run).given == s.given - {n} && Final(z, run).head == NextOf(s.next, n)
    decreases |run|
  {
    assert z.pcs[t] != Idle;
    WayGoesOn(s, z, t, n);
    hide RunStep, OnTheWay;
    var z' := Apply(z, run[0]);
    if z.pcs[t].DropTwo? {
      NothingLeft(z', t, run[1..]);
    } else {
      GetRuns(s, z', t, n, run[1..]);
    }
  }

  /** A thread between calls takes no step. */
  lemma NothingLeft(s: State, t: Thread, run: seq<Label>)
    requires t in s.pcs && s.pcs[t] == Idle && Alone(run, t) && Legal(s, run)
    ensures run == []
  {
    var first := if run == [] then Label(t, Run) else run[0];
    assert first == Label(t, Run) && !Enabled(s, first);
  }

  /** Between calls, with any node on the list, try_get takes the first one, and only it, from the list. */
  lemma GetAlone(s: State, t: Thread) returns (run: seq<Label>, n: Node)
    requires Reachable(s) && Quiet(s) && t in s.pcs && s.given != {}
    ensures Alone(run, t) && Legal(s, [Label(t, CallGet)] + run)
    ensures s.head == Some(n) && n in s.given
    ensures var z := Final(s, [Label(t, CallGet)] + run);
      Quiet(z) && z.given == s.given - {n} && z.head == NextOf(s.next, n)
  {
    var g := ReachableInv(s);
    QuietHead(s);
    n := s.head.value;
    HeadHasReference(s, g, n);
    hide Reachable, Inv, RunStep;
    var s' := Go(s, Label(t, CallGet));
    assert OnTheWay(s, s', t, n);
    run := AloneFinishes(s', t);
    assert ([Label(t, CallGet)] + run)[1..] == run;
    GetRuns(s, s', t, n, run);
  }

  lemma QuietHead(s: State)
    requires Reachable(s) && Quiet(s) && s.given != {}
    ensures s.head.Some? && s.head.value in s.given
  {
    hide Reachable;
    QuiescentListIsComplete(s);
    var list: seq<Node> :| Chain(s.head, s.next, list) && NoDup(list) && forall n :: n in list <==> n in s.given;
    var m :| m in s.given;
    assert m in list && list[0] in list;
  }

  // ---------------------------------------------------------------------------
  // No node without an empty list
  // ---------------------------------------------------------------------------

  /** On its way through try_get. */
  predicate InGet(pc: PC) {
    match pc
    case Idle => false
    case _ => !InAdd(pc)
  }

  /** The thread has seen an empty list and remembers it. */
  predicate RemembersEmpty(pc: PC) {
    match pc
    case DropOne(_, c) => c == None
    case StartLink(_, r) => r == ToLoop(None)
    case LinkNext(_, _, r) => r == ToLoop(None)
    case StoreRef(_, _, r) => r == ToLoop(None)
    case Publish(_, _, r) => r == ToLoop(None)
    case Unpublish(_, _, r) => r == ToLoop(None)
    case _ => false
  }

  /** In some step of the run t reads the head, and the list is empty. */
  ghost predicate SeesEmpty(s: State, run: seq<Label>, t: Thread)
    requires Legal(s, run)
    decreases |run|
  {
    run != [] &&
    ((run[0] == Label(t, Run) && (s.pcs[t].LoadHead? || s.pcs[t].SwapHead?) && s.head == None) ||
     SeesEmpty(Apply(s, run[0]), run[1..], t))
  }

  /** In some step of the run t takes a node for its caller. */
  ghost predicate Takes(s: State, run: seq<Label>, t: Thread)
    requires Legal(s, run)
    decreases |run|
  {
    run != [] &&
    ((run[0] == Label(t, Run) && s.pcs[t].DropTwo? && Apply(s, run[0]).given == s.given - {s.pcs[t].head}) ||
     Takes(Apply(s, run[0]), run[1..], t))
  }

  /** t starts no other call. */
  predicate OneCall(run: seq<Label>, t: Thread) {
    forall i | 0 <= i < |run| && run[i].thread == t :: run[i].action == Run
  }

  lemma GetStep(s: State, t: Thread)
    requires t in s.pcs && InGet(s.pcs[t])
    ensures var s' := RunStep(s, t, s.pcs[t]); var pc := s.pcs[t];
      && t in s'.pcs
      && (s'.pcs[t] == Idle ==>
            RemembersEmpty(pc) || (pc.LoadHead? && s.head == None) || (pc.DropTwo? && s'.given == s.given - {pc.head}))
      && (s'.pcs[t] != Idle ==> InGet(s'.pcs[t]))
      && (RemembersEmpty(s'.pcs[t]) ==> RemembersEmpty(pc) || (pc.SwapHead? && s.head == None))
  {
    hide FetchAdd, Word, NextOf;
  }

  lemma OtherStep(s: State, l: Label, t: Thread)
    requires Enabled(s, l) && l.thread != t && t in s.pcs
    ensures t in Apply(s, l).pcs && Apply(s, l).pcs[t] == s.pcs[t]
  {
    hide FetchAdd, Word, NextOf;
  }

  lemma {:induction false} GetFrom(s: State, run: seq<Label>, t: Thread)
    requires Legal(s, run) && OneCall(run, t) && t in s.pcs && InGet(s.pcs[t])
    requires t in Final(s, run).pcs && Final(s, run).pcs[t] == Idle
    ensures RemembersEmpty(s.pcs[t]) || SeesEmpty(s, run, t) || Takes(s, run, t)
    decreases |run|
  {
    hide RunStep, InGet, RemembersEmpty;
    assert s.pcs[t] != Idle by { BusyInGet(s.pcs[t]); }
    var s' := Apply(s, run[0]);
    if run[0].thread == t {
      assert run[0] == Label(t, Run);
      GetStep(s, t);
      if s'.pcs[t] != Idle {
        GetFrom(s', run[1..], t);
      }
    } else {
      OtherStep(s, run[0], t);
      hide Apply;
      GetFrom(s', run[1..], t);
    }
  }

  lemma BusyInGet(pc: PC)
    ensures InGet(pc) ==> pc != Idle
  {
  }

  /** A try_get that has returned took a node for its caller, or read the head of an empty list; whatever other threads
      did meanwhile. */
  lemma GetTakesOrSeesEmpty(s: State, run: seq<Label>, t: Thread)
    requires Legal(s, [Label(t, CallGet)] + run) && OneCall(run, t)
    requires var z := Final(s, [Label(t, CallGet)] + run); t in z.pcs && z.pcs[t] == Idle
    ensures Enabled(s, Label(t, CallGet)) && Legal(Apply(s, Label(t, CallGet)), run)
    ensures var s' := Apply(s, Label(t, CallGet)); SeesEmpty(s', run, t) || Takes(s', run, t)
  {
    assert ([Label(t, CallGet)] + run)[1..] == run && ([Label(t, CallGet)] + run)[0] == Label(t, CallGet);
    GetFrom(Apply(s, Label(t, CallGet)), run, t);
  }
}
