/**
  The reference-counted lock-free free list as a machine whose steps are the atomic
  operations of any number of threads, interleaved in any order under sequential
  consistency.

  A node's 32-bit word packs a reference count (low 31 bits) with the
  should-be-on-free-list flag (top bit); all updates of it wrap at 2^32.  Nodes are never
  deallocated while the list lives, so every node exists from the start, with word 0 and
  a null next pointer, in its callers' hands.
 */
module FreeList {
  import opened Basics

  type Node = nat
  const REFS_MASK: nat := 0x7FFF_FFFF
  const SHOULD_BE_ON_FREELIST: nat := 0x8000_0000

  function FetchAdd(was: nat, delta: int): nat {
    (was + delta) % WORD32
  }

  /** What follows the inlined adding loop: return from add, or go on in try_get with a head. */
  datatype Return = ToCaller | ToLoop(head: Option<Node>)

  /** Program counter of one thread together with its live local variables. */
  datatype PC =
    | Idle
    | Adding(node: Node)
    | LoadHead
    | LoadRefs(head: Node)
    | TakeRef(head: Node, refs: nat)
    | LoadNext(head: Node)
    | SwapHead(head: Node, next: Option<Node>)
    | CheckTaken(head: Node)
    | DropTwo(head: Node)
    | DropOne(prev: Node, current: Option<Node>)
    | StartLink(node: Node, ret: Return)
    | LinkNext(node: Node, seen: Option<Node>, ret: Return)
    | StoreRef(node: Node, seen: Option<Node>, ret: Return)
    | Publish(node: Node, seen: Option<Node>, ret: Return)
    | Unpublish(node: Node, seen: Option<Node>, ret: Return)

  /** Shared memory, the nodes given to the list and not taken back, and the threads. */
  datatype State = State(
    head: Option<Node>,
    refs: map<Node, nat>,
    next: map<Node, Option<Node>>,
    given: set<Node>,
    pcs: map<Thread, PC>)

  function Word(refs: map<Node, nat>, n: Node): nat {
    if n in refs then refs[n] else 0
  }

  function NextOf(next: map<Node, Option<Node>>, n: Node): Option<Node> {
    if n in next then next[n] else None
  }

  /** A caller starts add on a node it holds, starts try_get, or a started call takes a step. */
  datatype Action = CallAdd(node: Node) | CallGet | Run

  datatype Label = Label(thread: Thread, action: Action)

  predicate Enabled(s: State, l: Label) {
    && l.thread in s.pcs
    && match l.action
       case CallAdd(n) => s.pcs[l.thread] == Idle && n !in s.given
       case CallGet => s.pcs[l.thread] == Idle
       case Run => s.pcs[l.thread] != Idle
  }

  /** The loop test of try_get on a head that has just been obtained. */
  function LoopWith(head: Option<Node>): PC {
    if head.None? then Idle else LoadRefs(head.value)
  }

  function AfterLink(ret: Return): PC {
    match ret
    case ToCaller => Idle
    case ToLoop(head) => LoopWith(head)
  }

  function Apply(s: State, l: Label): State
    requires Enabled(s, l)
  {
    match l.action
    case CallAdd(n) => s.(given := s.given + {n}, pcs := s.pcs[l.thread := Adding(n)])
    case CallGet => s.(pcs := s.pcs[l.thread := LoadHead])
    case Run => RunStep(s, l.thread, s.pcs[l.thread])
  }

  /** One atomic operation of thread t, whose program counter is pc. */
  function RunStep(s: State, t: Thread, pc: PC): State {
    match pc
    case Idle => s
    case Adding(n) =>
      var was := Word(s.refs, n);
      s.(refs := s.refs[n := FetchAdd(was, SHOULD_BE_ON_FREELIST)],
         pcs := s.pcs[t := if was == 0 then StartLink(n, ToCaller) else Idle])
    case LoadHead =>
      s.(pcs := s.pcs[t := LoopWith(s.head)])
    case LoadRefs(h) =>
      s.(pcs := s.pcs[t := TakeRef(h, Word(s.refs, h))])
    case TakeRef(h, r) =>
      if r % (REFS_MASK + 1) == 0 || Word(s.refs, h) != r then
        s.(pcs := s.pcs[t := LoadHead])
      else
        s.(refs := s.refs[h := FetchAdd(r, 1)], pcs := s.pcs[t := LoadNext(h)])
    case LoadNext(h) =>
      s.(pcs := s.pcs[t := SwapHead(h, NextOf(s.next, h))])
    case SwapHead(h, x) =>
      if s.head == Some(h) then
        s.(head := x, pcs := s.pcs[t := CheckTaken(h)])
      else
        s.(pcs := s.pcs[t := DropOne(h, s.head)])
    case CheckTaken(h) =>
      s.(pcs := s.pcs[t := DropTwo(h)])
    case DropTwo(h) =>
      s.(refs := s.refs[h := FetchAdd(Word(s.refs, h), -2)],
         given := s.given - {h},
         pcs := s.pcs[t := Idle])
    case DropOne(p, c) =>
      var was := Word(s.refs, p);
      s.(refs := s.refs[p := FetchAdd(was, -1)],
         pcs := s.pcs[t := if was == SHOULD_BE_ON_FREELIST + 1 then StartLink(p, ToLoop(c)) else LoopWith(c)])
    case StartLink(n, r) =>
      s.(pcs := s.pcs[t := LinkNext(n, s.head, r)])
    case LinkNext(n, h, r) =>
      s.(next := s.next[n := h], pcs := s.pcs[t := StoreRef(n, h, r)])
    case StoreRef(n, h, r) =>
      s.(refs := s.refs[n := 1], pcs := s.pcs[t := Publish(n, h, r)])
    case Publish(n, h, r) =>
      if s.head == h then
        s.(head := Some(n), pcs := s.pcs[t := AfterLink(r)])
      else
        s.(pcs := s.pcs[t := Unpublish(n, s.head, r)])
    case Unpublish(n, h, r) =>
      var was := Word(s.refs, n);
      s.(refs := s.refs[n := FetchAdd(was, SHOULD_BE_ON_FREELIST - 1)],
         pcs := s.pcs[t := if was == 1 then LinkNext(n, h, r) else AfterLink(r)])
  }

  /** No thread has started; fewer threads than the 31-bit count can hold. */
  ghost predicate Init(s: State) {
    && s.head == None && s.refs == map[] && s.next == map[] && s.given == {}
    && (forall t | t in s.pcs :: s.pcs[t] == Idle)
    && |s.pcs| < REFS_MASK
  }

  ghost predicate Legal(s: State, run: seq<Label>)
    decreases |run|
  {
    run == [] || (Enabled(s, run[0]) && Legal(Apply(s, run[0]), run[1..]))
  }

  ghost function Final(s: State, run: seq<Label>): State
    requires Legal(s, run)
    decreases |run|
  {
    if run == [] then s else Final(Apply(s, run[0]), run[1..])
  }

  // ---------------------------------------------------------------------------
  // References and ownership, read off the program counters
  // ---------------------------------------------------------------------------

  /** The thread counts once in n's reference count. */
  predicate HoldsRef(pc: PC, n: Node) {
    match pc
    case LoadNext(h) => h == n
    case SwapHead(h, _) => h == n
    case CheckTaken(h) => h == n
    case DropTwo(h) => h == n
    case DropOne(p, _) => p == n
    case _ => false
  }

  function Holders(pcs: map<Thread, PC>, n: Node): set<Thread> {
    set t | t in pcs && HoldsRef(pcs[t], n)
  }

  /** The number of references threads hold on n. */
  function RefCount(pcs: map<Thread, PC>, n: Node): nat {
    |Holders(pcs, n)|
  }

  datatype Role = Giving | Linking | Publishing | Taking

  datatype Duty = NoDuty | Duty(node: Node, role: Role)

  /** The node this program counter is exclusively responsible for, if any. */
  function DutyOf(pc: PC): Duty {
    match pc
    case Adding(n) => Duty(n, Giving)
    case StartLink(n, _) => Duty(n, Linking)
    case LinkNext(n, _, _) => Duty(n, Linking)
    case StoreRef(n, _, _) => Duty(n, Linking)
    case Publish(n, _, _) => Duty(n, Publishing)
    case Unpublish(n, _, _) => Duty(n, Publishing)
    case CheckTaken(h) => Duty(h, Taking)
    case DropTwo(h) => Duty(h, Taking)
    case _ => NoDuty
  }

  /** list spells out the nodes reachable from head through next. */
  ghost predicate Chain(head: Option<Node>, next: map<Node, Option<Node>>, list: seq<Node>)
    decreases |list|
  {
    if list == [] then head == None
    else head == Some(list[0]) && Chain(NextOf(next, list[0]), next, list[1..])
  }

  // ---------------------------------------------------------------------------
  // The inductive invariant, over a witness saying where each node is
  // ---------------------------------------------------------------------------

  datatype Where = Held | Listed | Pending | With(thread: Thread, role: Role)

  datatype Witness = Witness(list: seq<Node>, at: map<Node, Where>)

  function At(at: map<Node, Where>, n: Node): Where {
    if n in at then at[n] else Held
  }

  function ExpectedWord(w: Where, count: nat): nat {
    (if w == Pending || (w.With? && w.role == Linking) then SHOULD_BE_ON_FREELIST else 0) +
    (if w == Listed || (w.With? && (w.role == Publishing || w.role == Taking)) then 1 else 0) +
    count
  }

  /** Nobody refers to a node being linked, and somebody must still let go of a pending one. */
  predicate CountFits(w: Where, count: nat) {
    && (w.With? && w.role == Linking ==> count == 0)
    && (w == Pending ==> count > 0)
  }

  ghost predicate Placed(s: State, g: Witness) {
    && NoDup(g.list)
    && Chain(s.head, s.next, g.list)
    && (forall n :: n in g.list <==> At(g.at, n) == Listed)
    && (forall n :: n in s.given <==> At(g.at, n) != Held)
  }

  ghost predicate Owned(pcs: map<Thread, PC>, at: map<Node, Where>) {
    && (forall t | t in pcs && DutyOf(pcs[t]).Duty? ::
          At(at, DutyOf(pcs[t]).node) == With(t, DutyOf(pcs[t]).role))
    && (forall n | At(at, n).With? ::
          At(at, n).thread in pcs && DutyOf(pcs[At(at, n).thread]) == Duty(n, At(at, n).role))
  }

  ghost predicate Counted(refs: map<Node, nat>, pcs: map<Thread, PC>, at: map<Node, Where>) {
    forall n :: Word(refs, n) == ExpectedWord(At(at, n), RefCount(pcs, n)) && CountFits(At(at, n), RefCount(pcs, n))
  }

  /** What a thread remembers about next pointers is still true. */
  ghost predicate RemembersWell(next: map<Node, Option<Node>>, pc: PC) {
    match pc
    case SwapHead(h, x) => NextOf(next, h) == x
    case StoreRef(n, h, _) => NextOf(next, n) == h
    case Publish(n, h, _) => NextOf(next, n) == h
    case _ => true
  }

  ghost predicate Remembered(next: map<Node, Option<Node>>, pcs: map<Thread, PC>) {
    forall t | t in pcs :: RemembersWell(next, pcs[t])
  }

  ghost predicate Inv(s: State, g: Witness) {
    && |s.pcs| < REFS_MASK
    && Placed(s, g)
    && Owned(s.pcs, g.at)
    && Counted(s.refs, s.pcs, g.at)
    && Remembered(s.next, s.pcs)
  }

  // ---------------------------------------------------------------------------
  // What moving one thread or one node does to each part of the invariant
  // ---------------------------------------------------------------------------

  /** Moving one thread changes only what that thread contributes to a count. */
  lemma CountAfter(pcs: map<Thread, PC>, t: Thread, pc: PC, n: Node)
    requires t in pcs
    ensures HoldsRef(pcs[t], n) ==> RefCount(pcs, n) > 0
    ensures RefCount(pcs[t := pc], n) ==
            RefCount(pcs, n) - (if HoldsRef(pcs[t], n) then 1 else 0) + (if HoldsRef(pc, n) then 1 else 0)
  {
    var others := Holders(pcs, n) - {t};
    assert Holders(pcs[t := pc], n) == if HoldsRef(pc, n) then others + {t} else others;
    assert Holders(pcs, n) == if HoldsRef(pcs[t], n) then others + {t} else others;
  }

  lemma SetBound<T>(a: set<T>, b: set<T>)
    requires a <= b
    ensures |a| <= |b|
  {
    assert b == a + (b - a);
  }

  lemma FewHolders(pcs: map<Thread, PC>, n: Node)
    ensures RefCount(pcs, n) <= |pcs|
  {
    SetBound(Holders(pcs, n), pcs.Keys);
    assert |pcs.Keys| == |pcs|;
  }

  lemma SameThreads(pcs: map<Thread, PC>, t: Thread, pc: PC)
    requires t in pcs
    ensures |pcs[t := pc]| == |pcs|
  {
    assert pcs[t := pc].Keys == pcs.Keys;
    assert |pcs.Keys| == |pcs| && |pcs[t := pc].Keys| == |pcs[t := pc]|;
  }

  lemma {:induction false} ChainFrame(head: Option<Node>, next: map<Node, Option<Node>>, list: seq<Node>, n: Node,
      x: Option<Node>)
    requires Chain(head, next, list) && n !in list
    ensures Chain(head, next[n := x], list)
    decreases |list|
  {
    if list != [] {
      ChainFrame(NextOf(next, list[0]), next, list[1..], n, x);
    }
  }

  /** Thread t moves to pc, and n, the only node its duty may concern, to place w. */
  lemma OwnedMove(pcs: map<Thread, PC>, at: map<Node, Where>, t: Thread, pc: PC, n: Node, w: Where)
    requires Owned(pcs, at) && t in pcs
    requires At(at, n).With? ==> At(at, n).thread == t
    requires DutyOf(pcs[t]).Duty? ==> DutyOf(pcs[t]).node == n
    requires DutyOf(pc) == if w.With? then Duty(n, w.role) else NoDuty
    requires w.With? ==> w.thread == t
    ensures Owned(pcs[t := pc], at[n := w])
  {
    var pcs', at' := pcs[t := pc], at[n := w];
    forall m | At(at', m).With?
      ensures At(at', m).thread in pcs' && DutyOf(pcs'[At(at', m).thread]) == Duty(m, At(at', m).role)
    {
      if m != n {
        assert At(at', m) == At(at, m);
      }
    }
    forall u | u in pcs' && DutyOf(pcs'[u]).Duty?
      ensures At(at', DutyOf(pcs'[u]).node) == With(u, DutyOf(pcs'[u]).role)
    {
      if u != t {
        assert At(at, DutyOf(pcs[u]).node) == With(u, DutyOf(pcs[u]).role);
      }
    }
  }

  lemma OwnedKeep(pcs: map<Thread, PC>, at: map<Node, Where>, t: Thread, pc: PC)
    requires Owned(pcs, at) && t in pcs && DutyOf(pc) == DutyOf(pcs[t])
    ensures Owned(pcs[t := pc], at)
  {
    hide DutyOf;
  }

  /** The references of thread t change on node n at most, whose word and place change to fit. */
  lemma CountedMove(refs: map<Node, nat>, pcs: map<Thread, PC>, at: map<Node, Where>, t: Thread, pc: PC, n: Node,
                    refs': map<Node, nat>, at': map<Node, Where>)
    requires Counted(refs, pcs, at) && t in pcs
    requires forall m | m != n :: HoldsRef(pc, m) == HoldsRef(pcs[t], m)
    requires forall m | m != n :: Word(refs', m) == Word(refs, m)
    requires forall m | m != n :: At(at', m) == At(at, m)
    requires Word(refs', n) == ExpectedWord(At(at', n), RefCount(pcs[t := pc], n))
    requires CountFits(At(at', n), RefCount(pcs[t := pc], n))
    ensures Counted(refs', pcs[t := pc], at')
  {
    hide HoldsRef, RefCount, ExpectedWord, CountFits;
    forall m
      ensures Word(refs', m) == ExpectedWord(At(at', m), RefCount(pcs[t := pc], m)) &&
              CountFits(At(at', m), RefCount(pcs[t := pc], m))
    {
      CountAfter(pcs, t, pc, m);
      if m != n {
        assert RefCount(pcs[t := pc], m) == RefCount(pcs, m);
        assert Word(refs, m) == ExpectedWord(At(at, m), RefCount(pcs, m)) && CountFits(At(at, m), RefCount(pcs, m));
      }
    }
  }

  lemma RememberedMove(next: map<Node, Option<Node>>, pcs: map<Thread, PC>, t: Thread, pc: PC)
    requires Remembered(next, pcs) && RemembersWell(next, pc)
    ensures Remembered(next, pcs[t := pc])
  {
    hide RemembersWell;
  }

  /** Node n moves to place w, off the list before and after. */
  lemma PlacedMove(s: State, g: Witness, n: Node, s': State, w: Where)
    requires Placed(s, g) && At(g.at, n) != Listed && w != Listed
    requires s'.head == s.head && s'.next == s.next
    requires forall m :: m in s'.given <==> if m == n then w != Held else m in s.given
    ensures Placed(s', g.(at := g.at[n := w]))
  {
    hide Chain, NoDup;
    forall m
      ensures m in g.list <==> At(g.at[n := w], m) == Listed
      ensures m in s'.given <==> At(g.at[n := w], m) != Held
    {
      assert m in g.list <==> At(g.at, m) == Listed;
      assert m in s.given <==> At(g.at, m) != Held;
    }
  }

  // ---------------------------------------------------------------------------
  // Every step keeps the invariant
  // ---------------------------------------------------------------------------

  /** Thread t moves to pc and node n to place w, both off the list. */
  lemma ChangeKeepsInv(s: State, g: Witness, t: Thread, pc: PC, n: Node, s': State, w: Where)
    requires Inv(s, g) && t in s.pcs
    requires s'.head == s.head && s'.next == s.next && s'.pcs == s.pcs[t := pc]
    requires forall m | m != n :: Word(s'.refs, m) == Word(s.refs, m)
    requires forall m :: m in s'.given <==> if m == n then w != Held else m in s.given
    requires At(g.at, n) != Listed && w != Listed
    requires At(g.at, n).With? ==> At(g.at, n).thread == t
    requires DutyOf(s.pcs[t]).Duty? ==> DutyOf(s.pcs[t]).node == n
    requires w.With? ==> w.thread == t
    requires DutyOf(pc) == if w.With? then Duty(n, w.role) else NoDuty
    requires forall m | m != n :: HoldsRef(pc, m) == HoldsRef(s.pcs[t], m)
    requires Word(s'.refs, n) == ExpectedWord(w, RefCount(s'.pcs, n)) && CountFits(w, RefCount(s'.pcs, n))
    requires RemembersWell(s.next, pc)
    ensures Inv(s', g.(at := g.at[n := w]))
  {
    hide Placed, Owned, Counted, Remembered, DutyOf, HoldsRef, ExpectedWord, CountFits, RemembersWell, RefCount;
    PlacedMove(s, g, n, s', w);
    OwnedMove(s.pcs, g.at, t, pc, n, w);
    CountedMove(s.refs, s.pcs, g.at, t, pc, n, s'.refs, g.at[n := w]);
    RememberedMove(s.next, s.pcs, t, pc);
    SameThreads(s.pcs, t, pc);
  }

  /** Thread t moves to pc with its duty unchanged, and n's word follows n's references. */
  lemma RecountKeepsInv(s: State, g: Witness, t: Thread, pc: PC, n: Node, word: nat)
    requires Inv(s, g) && t in s.pcs && DutyOf(pc) == DutyOf(s.pcs[t])
    requires forall m | m != n :: HoldsRef(pc, m) == HoldsRef(s.pcs[t], m)
    requires word == ExpectedWord(At(g.at, n), RefCount(s.pcs[t := pc], n))
    requires CountFits(At(g.at, n), RefCount(s.pcs[t := pc], n))
    requires RemembersWell(s.next, pc)
    ensures Inv(s.(refs := s.refs[n := word], pcs := s.pcs[t := pc]), g)
  {
    hide Owned, Counted, Remembered, DutyOf, HoldsRef, ExpectedWord, CountFits, RemembersWell, RefCount, Chain, NoDup,
        At;
    OwnedKeep(s.pcs, g.at, t, pc);
    CountedMove(s.refs, s.pcs, g.at, t, pc, n, s.refs[n := word], g.at);
    RememberedMove(s.next, s.pcs, t, pc);
    SameThreads(s.pcs, t, pc);
  }

  /** A step of thread t that leaves memory, duties and references alone. */
  lemma QuietStep(s: State, g: Witness, t: Thread, pc: PC)
    requires Inv(s, g) && t in s.pcs && DutyOf(pc) == DutyOf(s.pcs[t])
    requires forall m :: HoldsRef(pc, m) == HoldsRef(s.pcs[t], m)
    requires RemembersWell(s.next, pc)
    ensures Inv(s.(pcs := s.pcs[t := pc]), g)
  {
    hide Owned, Counted, Remembered, DutyOf, HoldsRef, RemembersWell, RefCount, Chain, NoDup, At;
    OwnedKeep(s.pcs, g.at, t, pc);
    QuietCounts(s.refs, s.pcs, g.at, t, pc);
    RememberedMove(s.next, s.pcs, t, pc);
    SameThreads(s.pcs, t, pc);
  }

  lemma QuietCounts(refs: map<Node, nat>, pcs: map<Thread, PC>, at: map<Node, Where>, t: Thread, pc: PC)
    requires Counted(refs, pcs, at) && t in pcs
    requires forall m :: HoldsRef(pc, m) == HoldsRef(pcs[t], m)
    ensures Counted(refs, pcs[t := pc], at)
  {
    hide HoldsRef, RefCount, ExpectedWord, CountFits, At, Word;
    forall m
      ensures RefCount(pcs[t := pc], m) == RefCount(pcs, m)
    {
      CountAfter(pcs, t, pc, m);
    }
  }

  lemma NodeFacts(s: State, g: Witness, n: Node)
    requires Inv(s, g)
    ensures Word(s.refs, n) == ExpectedWord(At(g.at, n), RefCount(s.pcs, n))
    ensures CountFits(At(g.at, n), RefCount(s.pcs, n)) && RefCount(s.pcs, n) < REFS_MASK
    ensures n in s.given <==> At(g.at, n) != Held
    ensures n in g.list <==> At(g.at, n) == Listed
  {
    FewHolders(s.pcs, n);
  }

  lemma ThreadFacts(s: State, g: Witness, t: Thread)
    requires Inv(s, g) && t in s.pcs
    ensures RemembersWell(s.next, s.pcs[t])
    ensures DutyOf(s.pcs[t]).Duty? ==> At(g.at, DutyOf(s.pcs[t]).node) == With(t, DutyOf(s.pcs[t]).role)
  {
  }

  /** Where the nodes are after a step. */
  ghost function Move(s: State, g: Witness, l: Label): Witness
    requires Enabled(s, l)
  {
    match l.action
    case CallAdd(n) => g.(at := g.at[n := With(l.thread, Giving)])
    case CallGet => g
    case Run => MoveRun(s, g, l.thread, s.pcs[l.thread])
  }

  ghost function MoveRun(s: State, g: Witness, t: Thread, pc: PC): Witness {
    match pc
    case Adding(n) =>
      g.(at := g.at[n := if Word(s.refs, n) == 0 then With(t, Linking) else Pending])
    case SwapHead(h, _) =>
      if s.head == Some(h) && g.list != [] then Witness(g.list[1..], g.at[h := With(t, Taking)]) else g
    case DropTwo(h) =>
      g.(at := g.at[h := Held])
    case DropOne(p, _) =>
      if Word(s.refs, p) == SHOULD_BE_ON_FREELIST + 1 then g.(at := g.at[p := With(t, Linking)]) else g
    case StoreRef(n, _, _) =>
      g.(at := g.at[n := With(t, Publishing)])
    case Publish(n, h, _) =>
      if s.head == h then Witness([n] + g.list, g.at[n := Listed]) else g
    case Unpublish(n, _, _) =>
      g.(at := g.at[n := if Word(s.refs, n) == 1 then With(t, Linking) else Pending])
    case _ => g
  }

  lemma StepCallAdd(s: State, g: Witness, t: Thread, n: Node)
    requires Inv(s, g) && t in s.pcs && s.pcs[t] == Idle && n !in s.given
    ensures Inv(s.(given := s.given + {n}, pcs := s.pcs[t := Adding(n)]), g.(at := g.at[n := With(t, Giving)]))
  {
    hide Inv, RefCount;
    NodeFacts(s, g, n);
    CountAfter(s.pcs, t, Adding(n), n);
    ChangeKeepsInv(s, g, t, Adding(n), n, s.(given := s.given + {n}, pcs := s.pcs[t := Adding(n)]), With(t, Giving));
  }

  lemma StepAdding(s: State, g: Witness, t: Thread, n: Node)
    requires Inv(s, g) && t in s.pcs && s.pcs[t] == Adding(n)
    ensures Inv(RunStep(s, t, Adding(n)), MoveRun(s, g, t, Adding(n)))
  {
    hide Inv, RefCount;
    NodeFacts(s, g, n);
    ThreadFacts(s, g, t);
    var s' := RunStep(s, t, Adding(n));
    if Word(s.refs, n) == 0 {
      CountAfter(s.pcs, t, StartLink(n, ToCaller), n);
      ChangeKeepsInv(s, g, t, StartLink(n, ToCaller), n, s', With(t, Linking));
    } else {
      CountAfter(s.pcs, t, Idle, n);
      ChangeKeepsInv(s, g, t, Idle, n, s', Pending);
    }
  }

  lemma StepTakeRef(s: State, g: Witness, t: Thread, pc: PC)
    requires Inv(s, g) && t in s.pcs && s.pcs[t] == pc && pc.TakeRef?
    ensures Inv(RunStep(s, t, pc), g)
  {
    hide Inv, RefCount;
    var h := pc.head;
    if pc.refs % (REFS_MASK + 1) == 0 || Word(s.refs, h) != pc.refs {
      QuietStep(s, g, t, LoadHead);
    } else {
      NodeFacts(s, g, h);
      CountAfter(s.pcs, t, LoadNext(h), h);
      RecountKeepsInv(s, g, t, LoadNext(h), h, FetchAdd(pc.refs, 1));
    }
  }

  lemma StepSwapHead(s: State, g: Witness, t: Thread, pc: PC)
    requires Inv(s, g) && t in s.pcs && s.pcs[t] == pc && pc.SwapHead?
    ensures Inv(RunStep(s, t, pc), MoveRun(s, g, t, pc))
  {
    var h, x := pc.head, pc.next;
    ThreadFacts(s, g, t);
    if s.head == Some(h) {
      assert g.list != [] && g.list[0] == h;
      PopPlaced(s, g, t, x, CheckTaken(h));
      hide Placed, Owned, Remembered, Counted, RefCount;
      NodeFacts(s, g, h);
      CountAfter(s.pcs, t, CheckTaken(h), h);
      OwnedMove(s.pcs, g.at, t, CheckTaken(h), h, With(t, Taking));
      CountedMove(s.refs, s.pcs, g.at, t, CheckTaken(h), h, s.refs, g.at[h := With(t, Taking)]);
      RememberedMove(s.next, s.pcs, t, CheckTaken(h));
      SameThreads(s.pcs, t, CheckTaken(h));
    } else {
      QuietStep(s, g, t, DropOne(h, s.head));
    }
  }

  lemma PopPlaced(s: State, g: Witness, t: Thread, x: Option<Node>, pc: PC)
    requires Placed(s, g) && g.list != [] && NextOf(s.next, g.list[0]) == x
    ensures Placed(s.(head := x, pcs := s.pcs[t := pc]), Witness(g.list[1..], g.at[g.list[0] := With(t, Taking)]))
    ensures At(g.at, g.list[0]) == Listed
  {
    var h := g.list[0];
    assert g.list == [h] + g.list[1..];
    forall n
      ensures n in g.list[1..] <==> At(g.at[h := With(t, Taking)], n) == Listed
      ensures n in s.given <==> At(g.at[h := With(t, Taking)], n) != Held
    {
      assert n in g.list <==> At(g.at, n) == Listed;
      assert h in g.list && At(g.at, h) == Listed;
    }
  }

  lemma StepDropTwo(s: State, g: Witness, t: Thread, h: Node)
    requires Inv(s, g) && t in s.pcs && s.pcs[t] == DropTwo(h)
    ensures Inv(RunStep(s, t, DropTwo(h)), MoveRun(s, g, t, DropTwo(h)))
  {
    hide Inv, RefCount;
    NodeFacts(s, g, h);
    ThreadFacts(s, g, t);
    CountAfter(s.pcs, t, Idle, h);
    ChangeKeepsInv(s, g, t, Idle, h, RunStep(s, t, DropTwo(h)), Held);
  }

  lemma StepDropOne(s: State, g: Witness, t: Thread, pc: PC)
    requires Inv(s, g) && t in s.pcs && s.pcs[t] == pc && pc.DropOne?
    ensures Inv(RunStep(s, t, pc), MoveRun(s, g, t, pc))
  {
    hide Inv, RefCount;
    var p := pc.prev;
    NodeFacts(s, g, p);
    if Word(s.refs, p) == SHOULD_BE_ON_FREELIST + 1 {
      CountAfter(s.pcs, t, StartLink(p, ToLoop(pc.current)), p);
      ChangeKeepsInv(s, g, t, StartLink(p, ToLoop(pc.current)), p, RunStep(s, t, pc), With(t, Linking));
    } else {
      CountAfter(s.pcs, t, LoopWith(pc.current), p);
      RecountKeepsInv(s, g, t, LoopWith(pc.current), p, FetchAdd(Word(s.refs, p), -1));
    }
  }

  lemma StepLinkNext(s: State, g: Witness, t: Thread, pc: PC)
    requires Inv(s, g) && t in s.pcs && s.pcs[t] == pc && pc.LinkNext?
    ensures Inv(RunStep(s, t, pc), g)
  {
    var n, h := pc.node, pc.seen;
    var pc' := StoreRef(n, h, pc.ret);
    NodeFacts(s, g, n);
    ThreadFacts(s, g, t);
    ChainFrame(s.head, s.next, g.list, n, h);
    forall u | u in s.pcs && u != t
      ensures RemembersWell(s.next[n := h], s.pcs[u])
    {
      ThreadFacts(s, g, u);
      CountAfter(s.pcs, u, s.pcs[u], n);
    }
    assert Remembered(s.next[n := h], s.pcs[t := pc']);
    hide Owned, Counted, Remembered, Chain, NoDup, RefCount;
    OwnedKeep(s.pcs, g.at, t, pc');
    QuietCounts(s.refs, s.pcs, g.at, t, pc');
    SameThreads(s.pcs, t, pc');
  }

  lemma StepStoreRef(s: State, g: Witness, t: Thread, pc: PC)
    requires Inv(s, g) && t in s.pcs && s.pcs[t] == pc && pc.StoreRef?
    ensures Inv(RunStep(s, t, pc), MoveRun(s, g, t, pc))
  {
    hide Inv, RefCount;
    var n := pc.node;
    var pc' := Publish(n, pc.seen, pc.ret);
    NodeFacts(s, g, n);
    ThreadFacts(s, g, t);
    CountAfter(s.pcs, t, pc', n);
    ChangeKeepsInv(s, g, t, pc', n, RunStep(s, t, pc), With(t, Publishing));
  }

  lemma StepPublish(s: State, g: Witness, t: Thread, pc: PC)
    requires Inv(s, g) && t in s.pcs && s.pcs[t] == pc && pc.Publish?
    ensures Inv(RunStep(s, t, pc), MoveRun(s, g, t, pc))
  {
    var n := pc.node;
    NodeFacts(s, g, n);
    ThreadFacts(s, g, t);
    if s.head == pc.seen {
      var pc' := AfterLink(pc.ret);
      PushPlaced(s, g, t, n, pc');
      hide Placed, Owned, Remembered, Counted, RefCount;
      CountAfter(s.pcs, t, pc', n);
      OwnedMove(s.pcs, g.at, t, pc', n, Listed);
      CountedMove(s.refs, s.pcs, g.at, t, pc', n, s.refs, g.at[n := Listed]);
      RememberedMove(s.next, s.pcs, t, pc');
      SameThreads(s.pcs, t, pc');
    } else {
      QuietStep(s, g, t, Unpublish(n, s.head, pc.ret));
    }
  }

  lemma PushPlaced(s: State, g: Witness, t: Thread, n: Node, pc: PC)
    requires Placed(s, g) && NextOf(s.next, n) == s.head && At(g.at, n).With?
    ensures Placed(s.(head := Some(n), pcs := s.pcs[t := pc]), Witness([n] + g.list, g.at[n := Listed]))
  {
    var list' := [n] + g.list;
    assert list'[1..] == g.list;
    forall m
      ensures m in list' <==> At(g.at[n := Listed], m) == Listed
      ensures m in s.given <==> At(g.at[n := Listed], m) != Held
    {
      assert m in g.list <==> At(g.at, m) == Listed;
      assert m in s.given <==> At(g.at, m) != Held;
    }
  }

  lemma StepUnpublish(s: State, g: Witness, t: Thread, pc: PC)
    requires Inv(s, g) && t in s.pcs && s.pcs[t] == pc && pc.Unpublish?
    ensures Inv(RunStep(s, t, pc), MoveRun(s, g, t, pc))
  {
    hide Inv, RefCount;
    var n := pc.node;
    var s' := RunStep(s, t, pc);
    NodeFacts(s, g, n);
    ThreadFacts(s, g, t);
    if Word(s.refs, n) == 1 {
      CountAfter(s.pcs, t, LinkNext(n, pc.seen, pc.ret), n);
      ChangeKeepsInv(s, g, t, LinkNext(n, pc.seen, pc.ret), n, s', With(t, Linking));
    } else {
      CountAfter(s.pcs, t, AfterLink(pc.ret), n);
      ChangeKeepsInv(s, g, t, AfterLink(pc.ret), n, s', Pending);
    }
  }

  lemma StepKeepsInv(s: State, g: Witness, l: Label)
    requires Inv(s, g) && Enabled(s, l)
    ensures Inv(Apply(s, l), Move(s, g, l))
  {
    hide Inv;
    var t := l.thread;
    match l.action
    case CallAdd(n) => StepCallAdd(s, g, t, n);
    case CallGet => QuietStep(s, g, t, LoadHead);
    case Run =>
      var pc := s.pcs[t];
      match pc
      case Adding(n) => StepAdding(s, g, t, n);
      case LoadHead => QuietStep(s, g, t, LoopWith(s.head));
      case LoadRefs(h) => QuietStep(s, g, t, TakeRef(h, Word(s.refs, h)));
      case TakeRef(_, _) => StepTakeRef(s, g, t, pc);
      case LoadNext(h) => QuietStep(s, g, t, SwapHead(h, NextOf(s.next, h)));
      case SwapHead(_, _) => StepSwapHead(s, g, t, pc);
      case CheckTaken(h) => QuietStep(s, g, t, DropTwo(h));
      case DropTwo(h) => StepDropTwo(s, g, t, h);
      case DropOne(_, _) => StepDropOne(s, g, t, pc);
      case StartLink(n, r) => QuietStep(s, g, t, LinkNext(n, s.head, r));
      case LinkNext(_, _, _) => StepLinkNext(s, g, t, pc);
      case StoreRef(_, _, _) => StepStoreRef(s, g, t, pc);
      case Publish(_, _, _) => StepPublish(s, g, t, pc);
      case Unpublish(_, _, _) => StepUnpublish(s, g, t, pc);
  }

  // ---------------------------------------------------------------------------
  // What holds in every reachable state
  // ---------------------------------------------------------------------------

  ghost predicate Reachable(s: State) {
    exists s0, run :: Init(s0) && Legal(s0, run) && s == Final(s0, run)
  }

  lemma InitInv(s: State)
    requires Init(s)
    ensures Inv(s, Witness([], map[]))
  {
    forall n: Node
      ensures RefCount(s.pcs, n) == 0
    {
      assert Holders(s.pcs, n) == {};
    }
    var g := Witness([], map[]);
    assert Chain(s.head, s.next, g.list);
    assert Counted(s.refs, s.pcs, g.at) by { hide RefCount; }
  }

  lemma {:induction false} RunKeepsInv(s: State, g: Witness, run: seq<Label>) returns (g': Witness)
    requires Inv(s, g) && Legal(s, run)
    ensures Inv(Final(s, run), g')
    decreases |run|
  {
    hide Inv;
    if run == [] {
      g' := g;
    } else {
      StepKeepsInv(s, g, run[0]);
      g' := RunKeepsInv(Apply(s, run[0]), Move(s, g, run[0]), run[1..]);
    }
  }

  lemma ReachableInv(s: State) returns (g: Witness)
    requires Reachable(s)
    ensures Inv(s, g)
  {
    hide Inv;
    var s0, run :| Init(s0) && Legal(s0, run) && s == Final(s0, run);
    InitInv(s0);
    g := RunKeepsInv(s0, Witness([], map[]), run);
  }

  predicate InCallersHands(s: State, n: Node) {
    n !in s.given
  }

  /** Thread t alone is responsible for n: it is giving, linking, publishing or taking it. */
  predicate OwnedBy(s: State, t: Thread, n: Node) {
    t in s.pcs && DutyOf(s.pcs[t]).Duty? && DutyOf(s.pcs[t]).node == n
  }

  /** The thread that has just swung the head finds the flag of its node clear. */
  lemma AssertionHolds(s: State, t: Thread, h: Node)
    requires Reachable(s) && t in s.pcs && s.pcs[t] == CheckTaken(h)
    ensures Word(s.refs, h) / SHOULD_BE_ON_FREELIST == 0
  {
    var g := ReachableInv(s);
    NodeFacts(s, g, h);
    ThreadFacts(s, g, t);
  }

  /** A node has one owner at most: its callers, one thread, or the repetition-free list. */
  lemma SingleOwner(s: State)
    requires Reachable(s)
    ensures forall n, t, u | OwnedBy(s, t, n) && OwnedBy(s, u, n) :: t == u
    ensures forall n, t | OwnedBy(s, t, n) :: !InCallersHands(s, n)
    ensures exists list: seq<Node> :: Chain(s.head, s.next, list) && NoDup(list) &&
              forall n | n in list :: !InCallersHands(s, n) && forall t :: !OwnedBy(s, t, n)
  {
    var g := ReachableInv(s);
    forall n, t | OwnedBy(s, t, n)
      ensures At(g.at, n) == With(t, DutyOf(s.pcs[t]).role) && !InCallersHands(s, n)
    {
      ThreadFacts(s, g, t);
      NodeFacts(s, g, n);
    }
    forall n | n in g.list
      ensures !InCallersHands(s, n) && forall t :: !OwnedBy(s, t, n)
    {
      NodeFacts(s, g, n);
    }
    assert Chain(s.head, s.next, g.list) && NoDup(g.list);
  }

  lemma OnlyLinkNextStoresNext(s: State, t: Thread, pc: PC, n: Node)
    requires !(pc.LinkNext? && pc.node == n)
    ensures NextOf(RunStep(s, t, pc).next, n) == NextOf(s.next, n)
  {
  }

  /** While any thread holds a reference on n, no step of any thread changes n's next pointer. */
  lemma NextStableWhileReferenced(s: State, l: Label, u: Thread, n: Node)
    requires Reachable(s) && Enabled(s, l) && u in s.pcs && HoldsRef(s.pcs[u], n)
    ensures NextOf(Apply(s, l).next, n) == NextOf(s.next, n)
  {
    var g := ReachableInv(s);
    hide Inv, Reachable, RunStep, RefCount;
    if l.action.Run? && s.pcs[l.thread].LinkNext? && s.pcs[l.thread].node == n {
      ThreadFacts(s, g, l.thread);
      NodeFacts(s, g, n);
      CountAfter(s.pcs, u, s.pcs[u], n);
    } else if l.action.Run? {
      OnlyLinkNextStoresNext(s, l.thread, s.pcs[l.thread], n);
    }
  }

  /** No update of a node's word wraps: its low 31 bits are the threads' references, plus one for the list. */
  lemma WordsNeverWrap(s: State, n: Node)
    requires Reachable(s)
    ensures var low := Word(s.refs, n) % SHOULD_BE_ON_FREELIST;
      low == RefCount(s.pcs, n) || low == RefCount(s.pcs, n) + 1
  {
    var g := ReachableInv(s);
    hide Inv, Reachable, RefCount;
    NodeFacts(s, g, n);
    var low := Word(s.refs, n) - if At(g.at, n) == Pending || (At(g.at, n).With? && At(g.at, n).role == Linking)
                                 then SHOULD_BE_ON_FREELIST else 0;
    assert 0 <= low < SHOULD_BE_ON_FREELIST;
  }

  /** try_get hands out only a node that was given to the list and not handed out since. */
  lemma GetReturnsGivenNode(s: State, t: Thread, h: Node)
    requires Reachable(s) && t in s.pcs && s.pcs[t] == DropTwo(h)
    ensures h in s.given
    ensures forall u | OwnedBy(s, u, h) :: u == t
    ensures Apply(s, Label(t, Run)).given == s.given - {h}
  {
    var g := ReachableInv(s);
    ThreadFacts(s, g, t);
    NodeFacts(s, g, h);
    SingleOwner(s);
    assert OwnedBy(s, t, h);
  }

  /** No node is lost: once all calls have returned, the list holds exactly the nodes given. */
  lemma QuiescentListIsComplete(s: State)
    requires Reachable(s) && forall t | t in s.pcs :: s.pcs[t] == Idle
    ensures exists list: seq<Node> :: Chain(s.head, s.next, list) && NoDup(list) && forall n ::
          n in list <==> n in s.given
  {
    var g := ReachableInv(s);
    forall n
      ensures n in g.list <==> n in s.given
    {
      NodeFacts(s, g, n);
      assert Holders(s.pcs, n) == {};
      if At(g.at, n).With? {
        assert s.pcs[At(g.at, n).thread] == Idle;
      }
    }
    assert Chain(s.head, s.next, g.list) && NoDup(g.list);
  }

  // ---------------------------------------------------------------------------
  // The machine gets to the states the theorems speak of
  // ---------------------------------------------------------------------------

  lemma {:induction false} OneStepMore(s: State, run: seq<Label>, l: Label)
    requires Legal(s, run) && Enabled(Final(s, run), l)
    ensures Legal(s, run + [l]) && Final(s, run + [l]) == Apply(Final(s, run), l)
    decreases |run|
  {
    hide Apply, Enabled;
    if run == [] {
      assert run + [l] == [l] && [l][1..] == [];
    } else {
      assert (run + [l])[1..] == run[1..] + [l];
      OneStepMore(Apply(s, run[0]), run[1..], l);
    }
  }

  /** The state after one step more. */
  lemma Go(s: State, l: Label) returns (s': State)
    requires Reachable(s) && Enabled(s, l)
    ensures Reachable(s') && s' == Apply(s, l)
  {
    hide Init, Legal, Final, Apply, Enabled;
    var s0, run :| Init(s0) && Legal(s0, run) && s == Final(s0, run);
    OneStepMore(s0, run, l);
    s' := Apply(s, l);
  }

  lemma InitReachable(s: State)
    requires Init(s)
    ensures Reachable(s)
  {
    hide Init;
    assert Legal(s, []) && s == Final(s, []);
  }

  /** A node is being linked in. */
  lemma RunToLinking() returns (s: State)
    ensures Reachable(s) && s.head == None && 7 in s.given && s.pcs == map[0 := LinkNext(7, None, ToCaller), 1 := Idle]
  {
    hide Reachable, Legal, Final;
    s := State(None, map[], map[], {}, map[0 := Idle, 1 := Idle]);
    InitReachable(s);
    s := Go(s, Label(0, CallAdd(7)));
    s := Go(s, Label(0, Run));
    s := Go(s, Label(0, Run));
  }

  /** It is on the list. */
  lemma RunToGiven() returns (s: State)
    ensures Reachable(s) && s.head == Some(7) && Word(s.refs, 7) == 1 && 1 in s.pcs && s.pcs[1] == Idle && 7 in s.given
  {
    hide Reachable, Legal, Final, Init;
    s := RunToLinking();
    s := Go(s, Label(0, Run));
    s := Go(s, Label(0, Run));
    s := Go(s, Label(0, Run));
  }

  /** Another thread has just taken it. */
  lemma RunToTaken() returns (s: State)
    ensures Reachable(s) && 1 in s.pcs && s.pcs[1] == CheckTaken(7) && OwnedBy(s, 1, 7)
  {
    hide Reachable, Legal, Final, Init;
    s := RunToGiven();
    s := Go(s, Label(1, CallGet));
    s := Go(s, Label(1, Run));
    s := Go(s, Label(1, Run));
    s := Go(s, Label(1, Run));
    s := Go(s, Label(1, Run));
    s := Go(s, Label(1, Run));
  }
}
