/**
  The ticket scheme by which any number of consumers dequeue from one producer's
  sub-queue without ever taking an index that has not been enqueued.

  The counters are kept as they count, before wrapping; every comparison is the code's own
  comparison of the wrapped 64-bit words.  Enqueueing is the producer's publication of new
  elements.  `handed` records which thread each dequeued index was given to, and `claims` what each
  dequeue was given: the head it found when it moved the head on, and by how much it did.
 */
module Tickets {
  import opened Basics

  function Min(a: nat, b: nat): nat {
    if a < b then a else b
  }

  /** One thread inside dequeue_bulk(max); dequeue is the case max = 1 (see SingleIsBulkOfOne). */
  datatype PC =
    | Idle
    | LoadTail(max: nat)
    | LoadOvercommit(max: nat, tail: nat)
    | LoadOptimistic(max: nat, tail: nat, over: nat)
    | Reserve(over: nat, desired: nat)
    | Settle(over: nat, desired: nat, my: nat)
    | PayBack(my: nat, actual: nat, refund: nat)
    | TakeHead(my: nat, actual: nat)
    | GiveUp(my: nat, desired: nat)

  datatype Claim = Claim(thread: Thread, first: nat, count: nat)

  datatype State = State(
    tail: nat,
    head: nat,
    optimistic: nat,
    overcommit: nat,
    handed: seq<Thread>,
    claims: seq<Claim>,
    pcs: map<Thread, PC>)

  datatype Action = Enqueue(count: nat) | Start(thread: Thread, max: nat) | Run(thread: Thread)

  predicate Enabled(s: State, a: Action) {
    match a
    case Enqueue(_) => true
    case Start(t, _) => t in s.pcs && s.pcs[t] == Idle
    case Run(t) => t in s.pcs && s.pcs[t] != Idle
  }

  function Apply(s: State, a: Action): State
    requires Enabled(s, a)
  {
    match a
    case Enqueue(n) => s.(tail := s.tail + n)
    case Start(t, max) => s.(pcs := s.pcs[t := LoadTail(max)])
    case Run(t) => RunStep(s, t, s.pcs[t])
  }

  /** How many tickets dequeue_bulk asks for, or none when it sees the queue as empty. */
  function Desired(tail: nat, optimistic: nat, over: nat, max: nat): Option<nat> {
    var room := Wrap(Wrap(tail) - Wrap(optimistic - over));
    if CircularLess(0, room) then Some(Min(room, max)) else None
  }

  /** How many of its tickets a thread may use once it has them, or none. */
  function Actual(tail: nat, my: nat, over: nat, desired: nat): Option<nat> {
    var room := Wrap(Wrap(tail) - Wrap(my - over));
    if CircularLess(0, room) then Some(Min(desired, room)) else None
  }

  /** One atomic operation of thread t, whose program counter is pc. */
  function RunStep(s: State, t: Thread, pc: PC): State {
    match pc
    case Idle => s
    case LoadTail(max) =>
      s.(pcs := s.pcs[t := LoadOvercommit(max, s.tail)])
    case LoadOvercommit(max, tail) =>
      s.(pcs := s.pcs[t := LoadOptimistic(max, tail, s.overcommit)])
    case LoadOptimistic(max, tail, over) =>
      var d := Desired(tail, s.optimistic, over, max);
      s.(pcs := s.pcs[t := if d.Some? then Reserve(over, d.value) else Idle])
    case Reserve(over, desired) =>
      s.(optimistic := s.optimistic + desired, pcs := s.pcs[t := Settle(over, desired, s.optimistic)])
    case Settle(over, desired, my) =>
      var a := Actual(s.tail, my, over, desired);
      s.(pcs := s.pcs[t := if a.None? then GiveUp(my, desired)
                           else if a.value < desired then PayBack(my, a.value, desired - a.value)
                           else TakeHead(my, a.value)])
    case PayBack(my, actual, refund) =>
      s.(overcommit := s.overcommit + refund, pcs := s.pcs[t := TakeHead(my, actual)])
    case TakeHead(my, actual) =>
      s.(head := s.head + actual, handed := s.handed + seq(actual, _ => t), claims :=
          s.claims + [Claim(t, s.head, actual)],
         pcs := s.pcs[t := Idle])
    case GiveUp(my, desired) =>
      s.(overcommit := s.overcommit + desired, pcs := s.pcs[t := Idle])
  }

  /** The differences the code compares fit in a signed word, as for any queue of fewer than 2^63 pending operations. */
  ghost predicate Windowed(s: State) {
    forall t | t in s.pcs ::
      match s.pcs[t]
      case LoadOptimistic(_, tail, over) => -HALF <= tail - (s.optimistic - over) < HALF
      case Settle(over, _, my) => -HALF <= s.tail - (my - over) < HALF
      case _ => true
  }

  ghost predicate Init(s: State) {
    && s.tail == 0 && s.head == 0 && s.optimistic == 0 && s.overcommit == 0 && s.handed == [] && s.claims == []
    && (forall t | t in s.pcs :: s.pcs[t] == Idle)
  }

  ghost predicate Legal(s: State, run: seq<Action>)
    decreases |run|
  {
    run == [] || (Enabled(s, run[0]) && Windowed(s) && Legal(Apply(s, run[0]), run[1..]))
  }

  ghost function Final(s: State, run: seq<Action>): State
    requires Legal(s, run)
    decreases |run|
  {
    if run == [] then s else Final(Apply(s, run[0]), run[1..])
  }

  ghost predicate Reachable(s: State) {
    exists s0, run :: Init(s0) && Legal(s0, run) && s == Final(s0, run)
  }

  // ---------------------------------------------------------------------------
  // The code's word comparisons
  // ---------------------------------------------------------------------------

  lemma RoomIsDifference(tail: int, count: int)
    requires -HALF <= tail - count < HALF
    ensures var room := Wrap(Wrap(tail) - Wrap(count));
      if tail > count then CircularLess(0, room) && room == tail - count else !CircularLess(0, room)
  {
    var room := Wrap(Wrap(tail) - Wrap(count));
    assert room == Wrap(tail - count);
    if tail > count {
      assert room == tail - count;
    } else if tail < count {
      assert room == tail - count + WORD_SIZE;
    }
  }

  /** dequeue's two tests are those of dequeue_bulk(1), so dequeue is not modelled twice. */
  lemma SingleIsBulkOfOne(tail: nat, optimistic: nat, over: nat)
    ensures CircularLess(Wrap(optimistic - over), Wrap(tail)) <==> Desired(tail, optimistic, over, 1) == Some(1)
    ensures CircularLess(Wrap(optimistic - over), Wrap(tail)) <==> Actual(tail, optimistic, over, 1) == Some(1)
    ensures !CircularLess(Wrap(optimistic - over), Wrap(tail)) ==>
              Desired(tail, optimistic, over, 1) == None && Actual(tail, optimistic, over, 1) == None
  {
    var a, b := Wrap(optimistic - over), Wrap(tail);
    var room: int := Wrap(b - a);
    assert room == if b >= a then b - a else b - a + WORD_SIZE;
    assert Wrap(a - b) == if room == 0 then 0 else WORD_SIZE - room;
    assert Wrap(0 - room) == if room == 0 then 0 else WORD_SIZE - room;
  }

  // ---------------------------------------------------------------------------
  // The invariant: one ticket per unit of the optimistic count
  // ---------------------------------------------------------------------------

  /** Taken and Paid tickets are settled; the others are still in one thread's hands. */
  datatype Ticket = Open(holder: Thread) | Granted(holder: Thread) | Rejected(holder: Thread) | Taken | Paid

  datatype Kind = IsTaken | IsPaid | IsGranted | IsRejected

  /** Granted counts tickets whose index is taken too, Rejected those paid back too. */
  predicate Is(k: Kind, x: Ticket) {
    match k
    case IsTaken => x.Taken?
    case IsPaid => x.Paid?
    case IsGranted => x.Granted? || x.Taken?
    case IsRejected => x.Rejected? || x.Paid?
  }

  /** The number of tickets of kind k among the first n. */
  function Count(g: seq<Ticket>, k: Kind, n: nat): nat
    requires n <= |g|
  {
    if n == 0 then 0 else Count(g, k, n - 1) + (if Is(k, g[n - 1]) then 1 else 0)
  }

  /** The tickets a thread holds: first, number, and the number among them granted (the rest rejected). */
  predicate HoldsTicket(pc: PC, i: nat) {
    match pc
    case Settle(_, desired, my) => my <= i < my + desired
    case PayBack(my, actual, refund) => my <= i < my + actual + refund
    case TakeHead(my, actual) => my <= i < my + actual
    case GiveUp(my, desired) => my <= i < my + desired
    case _ => false
  }

  function TicketOf(pc: PC, t: Thread, i: nat): Ticket {
    match pc
    case PayBack(my, actual, _) => if i < my + actual then Granted(t) else Rejected(t)
    case TakeHead(_, _) => Granted(t)
    case GiveUp(_, _) => Rejected(t)
    case _ => Open(t)
  }

  ghost predicate OwnsTickets(g: seq<Ticket>, t: Thread, pc: PC) {
    forall i: nat | HoldsTicket(pc, i) :: i < |g| && g[i] == TicketOf(pc, t, i)
  }

  ghost predicate Owned(g: seq<Ticket>, pcs: map<Thread, PC>) {
    && (forall t | t in pcs :: OwnsTickets(g, t, pcs[t]))
    && (forall i: nat | i < |g| && !g[i].Taken? && !g[i].Paid? ::
         g[i].holder in pcs && HoldsTicket(pcs[g[i].holder], i))
  }

  /** A granted ticket's rank, less the rejected tickets before it, is an enqueued index. */
  ghost predicate Covered(g: seq<Ticket>, tail: nat) {
    forall p: nat | p < |g| && Is(IsGranted, g[p]) :: p + 1 - Count(g, IsRejected, p) <= tail
  }

  /** The overcommit a thread once read is at most the rejections before its tickets. */
  ghost predicate Stale(g: seq<Ticket>, overcommit: nat, pc: PC) {
    match pc
    case LoadOptimistic(_, _, over) => over <= overcommit
    case Reserve(over, _) => over <= overcommit
    case Settle(over, desired, my) => my + desired <= |g| && over <= Count(g, IsRejected, my)
    case PayBack(my, actual, refund) => my + actual + refund <= |g|
    case TakeHead(my, actual) => my + actual <= |g|
    case GiveUp(my, desired) => my + desired <= |g|
    case _ => true
  }

  ghost predicate Inv(s: State, g: seq<Ticket>) {
    && |g| == s.optimistic
    && s.head == Count(g, IsTaken, |g|) == |s.handed|
    && s.overcommit == Count(g, IsPaid, |g|)
    && Covered(g, s.tail)
    && Owned(g, s.pcs)
    && (forall t | t in s.pcs :: Stale(g, s.overcommit, s.pcs[t]))
  }

  /** g with n tickets from lo on replaced by x. */
  function SetRange(g: seq<Ticket>, lo: nat, n: nat, x: Ticket): (r: seq<Ticket>)
    requires lo + n <= |g|
    ensures |r| == |g|
    ensures forall i | 0 <= i < |g| :: r[i] == if lo <= i < lo + n then x else g[i]
  {
    g[..lo] + seq(n, _ => x) + g[lo + n..]
  }

  /** Retyping a range whose tickets agree on kind k shifts the count by the part of the range before m. */
  lemma {:induction false} CountSetRange(g: seq<Ticket>, lo: nat, n: nat, x: Ticket, k: Kind, was: bool, m: nat)
    requires lo + n <= |g| && m <= |g|
    requires forall i | lo <= i < lo + n :: Is(k, g[i]) == was
    ensures var part := if m <= lo then 0 else if m <= lo + n then m - lo else n;
      Count(SetRange(g, lo, n, x), k, m) ==
      Count(g, k, m) + (if Is(k, x) then part else 0) - (if was then part else 0)
  {
    if m > 0 {
      CountSetRange(g, lo, n, x, k, was, m - 1);
    }
  }

  lemma {:induction false} CountAgree(g: seq<Ticket>, r: seq<Ticket>, k: Kind, m: nat)
    requires m <= |g| && m <= |r|
    requires forall i | 0 <= i < m :: Is(k, g[i]) == Is(k, r[i])
    ensures Count(g, k, m) == Count(r, k, m)
  {
    if m > 0 {
      CountAgree(g, r, k, m - 1);
    }
  }

  lemma {:induction false} CountExtend(g: seq<Ticket>, ext: seq<Ticket>, k: Kind, m: nat)
    requires m <= |g|
    ensures Count(g + ext, k, m) == Count(g, k, m)
  {
    if m > 0 {
      CountExtend(g, ext, k, m - 1);
    }
  }

  lemma {:induction false} CountOpen(g: seq<Ticket>, n: nat, t: Thread, k: Kind, m: nat)
    requires |g| <= m <= |g| + n
    ensures Count(g + seq(n, _ => Open(t)), k, m) == Count(g, k, |g|)
  {
    CountExtend(g, seq(n, _ => Open(t)), k, |g|);
    if m > |g| {
      CountOpen(g, n, t, k, m - 1);
    }
  }

  lemma {:induction false} CountMonotone(g: seq<Ticket>, k: Kind, a: nat, b: nat)
    requires a <= b <= |g|
    ensures Count(g, k, a) <= Count(g, k, b)
  {
    if a < b {
      CountMonotone(g, k, a, b - 1);
    }
  }

  /** Settled kinds are contained in the kinds decided: taken in granted, paid in rejected. */
  lemma {:induction false} CountKinds(g: seq<Ticket>, n: nat)
    requires n <= |g|
    ensures Count(g, IsTaken, n) <= Count(g, IsGranted, n)
    ensures Count(g, IsPaid, n) <= Count(g, IsRejected, n)
    ensures Count(g, IsGranted, n) + Count(g, IsRejected, n) <= n
  {
    if n > 0 {
      CountKinds(g, n - 1);
    }
  }

  /** No more tickets are granted than elements were enqueued. */
  lemma {:induction false} GrantedFit(g: seq<Ticket>, tail: nat, n: nat)
    requires Covered(g, tail) && n <= |g|
    ensures Count(g, IsGranted, n) <= tail
  {
    if n > 0 {
      GrantedFit(g, tail, n - 1);
      if Is(IsGranted, g[n - 1]) {
        CountKinds(g, n - 1);
      }
    }
  }

  // ---------------------------------------------------------------------------
  // Every step keeps the invariant
  // ---------------------------------------------------------------------------

  /** Rejections are never withdrawn, so what threads remember stays safe. */
  ghost predicate Grows(g: seq<Ticket>, g': seq<Ticket>) {
    && |g| <= |g'|
    && forall m: nat | m <= |g| :: Count(g, IsRejected, m) <= Count(g', IsRejected, m)
  }

  lemma StaleGrows(s: State, g: seq<Ticket>, g': seq<Ticket>, over: nat, t: Thread, pc: PC)
    requires Inv(s, g) && Grows(g, g') && s.overcommit <= over && Stale(g', over, pc)
    ensures var pcs' := s.pcs[t := pc]; forall u | u in pcs' :: Stale(g', over, pcs'[u])
  {
    hide Count, Covered, Owned, Grows;
    var pcs' := s.pcs[t := pc];
    forall u | u in pcs'
      ensures Stale(g', over, pcs'[u])
    {
      if u != t {
        StaleStays(g, g', s.overcommit, over, s.pcs[u]);
      }
    }
  }

  lemma StaleStays(g: seq<Ticket>, g': seq<Ticket>, over: nat, over': nat, pc: PC)
    requires Stale(g, over, pc) && Grows(g, g') && over <= over'
    ensures Stale(g', over', pc)
  {
    if pc.Settle? {
      assert pc.my <= |g|;
      assert Count(g, IsRejected, pc.my) <= Count(g', IsRejected, pc.my);
    }
  }

  /** Thread t moves to pc; only tickets it holds, or new ones, change. */
  lemma OwnedMove(g: seq<Ticket>, pcs: map<Thread, PC>, t: Thread, pc: PC, g': seq<Ticket>)
    requires Owned(g, pcs) && t in pcs && |g| <= |g'|
    requires forall i: nat | HoldsTicket(pc, i) :: i < |g'| && g'[i] == TicketOf(pc, t, i)
    requires forall i: nat | i < |g| && !HoldsTicket(pcs[t], i) :: g'[i] == g[i]
    requires forall i: nat | i < |g'| && (i >= |g| || HoldsTicket(pcs[t], i)) ::
          HoldsTicket(pc, i) || g'[i].Taken? || g'[i].Paid?
    ensures Owned(g', pcs[t := pc])
  {
    var pcs' := pcs[t := pc];
    forall u | u in pcs'
      ensures OwnsTickets(g', u, pcs'[u])
    {
      if u != t {
        OthersKeep(g, pcs, t, u, g');
      }
    }
    hide TicketOf;
    forall i: nat | i < |g'| && !g'[i].Taken? && !g'[i].Paid?
      ensures g'[i].holder in pcs' && HoldsTicket(pcs'[g'[i].holder], i)
    {
      if i < |g| && !HoldsTicket(pcs[t], i) {
        assert g'[i] == g[i];
      } else {
        OwnTicket(pc, t, i);
      }
    }
  }

  lemma OthersKeep(g: seq<Ticket>, pcs: map<Thread, PC>, t: Thread, u: Thread, g': seq<Ticket>)
    requires Owned(g, pcs) && t in pcs && u in pcs && u != t && |g| <= |g'|
    requires forall i: nat | i < |g| && !HoldsTicket(pcs[t], i) :: g'[i] == g[i]
    ensures OwnsTickets(g', u, pcs[u])
  {
    assert OwnsTickets(g, u, pcs[u]) && OwnsTickets(g, t, pcs[t]);
    forall i: nat | HoldsTicket(pcs[u], i)
      ensures i < |g'| && g'[i] == TicketOf(pcs[u], u, i)
    {
      OwnTicket(pcs[u], u, i);
      OwnTicket(pcs[t], t, i);
      assert g[i] == TicketOf(pcs[u], u, i);
      assert !HoldsTicket(pcs[t], i);
    }
  }

  lemma OwnTicket(pc: PC, t: Thread, i: nat)
    ensures !TicketOf(pc, t, i).Taken? && !TicketOf(pc, t, i).Paid? && TicketOf(pc, t, i).holder == t
  {
  }

  /** A step that changes only thread t's program counter, and no ticket it holds. */
  lemma QuietStep(s: State, g: seq<Ticket>, t: Thread, pc: PC)
    requires Inv(s, g) && t in s.pcs && Stale(g, s.overcommit, pc)
    requires forall i: nat :: !HoldsTicket(pc, i) && !HoldsTicket(s.pcs[t], i)
    ensures Inv(s.(pcs := s.pcs[t := pc]), g)
  {
    hide Count, Covered, HoldsTicket, TicketOf, Stale;
    OwnedMove(g, s.pcs, t, pc, g);
  }

  /** Granting or rejecting n open tickets from lo on. */
  lemma SetRangeGrows(g: seq<Ticket>, lo: nat, n: nat, x: Ticket)
    requires lo + n <= |g|
    requires forall i | lo <= i < lo + n ::
          g[i].Open? || (Is(IsRejected, x) && Is(IsRejected, g[i])) || (Is(IsGranted, x) && Is(IsGranted, g[i]))
    ensures Grows(g, SetRange(g, lo, n, x))
  {
    forall m: nat | m <= |g|
      ensures Count(g, IsRejected, m) <= Count(SetRange(g, lo, n, x), IsRejected, m)
    {
      RejectedGrows(g, SetRange(g, lo, n, x), m);
    }
  }

  lemma {:induction false} RejectedGrows(g: seq<Ticket>, g': seq<Ticket>, m: nat)
    requires m <= |g| <= |g'|
    requires forall i: nat | i < m && Is(IsRejected, g[i]) :: Is(IsRejected, g'[i])
    ensures Count(g, IsRejected, m) <= Count(g', IsRejected, m)
  {
    if m > 0 {
      RejectedGrows(g, g', m - 1);
    }
  }

  /** Coverage survives when new grants are covered and nothing rejected is withdrawn. */
  lemma CoveredGrows(g: seq<Ticket>, g': seq<Ticket>, tail: nat, tail': nat)
    requires Covered(g, tail) && Grows(g, g') && tail <= tail'
    requires forall p: nat | p < |g'| && Is(IsGranted, g'[p]) && !(p < |g| && Is(IsGranted, g[p])) ::
               p + 1 - Count(g', IsRejected, p) <= tail'
    ensures Covered(g', tail')
  {
    hide Count, Is;
  }

  lemma StepReserve(s: State, g: seq<Ticket>, t: Thread, over: nat, desired: nat)
    requires Inv(s, g) && t in s.pcs && s.pcs[t] == Reserve(over, desired)
    ensures Inv(RunStep(s, t, s.pcs[t]), g + seq(desired, _ => Open(t)))
  {
    var g' := g + seq(desired, _ => Open(t));
    var pc := Settle(over, desired, s.optimistic);
    CountOpen(g, desired, t, IsTaken, |g'|);
    CountOpen(g, desired, t, IsPaid, |g'|);
    CountExtend(g, seq(desired, _ => Open(t)), IsRejected, |g|);
    CountKinds(g, |g|);
    assert Stale(g, s.overcommit, s.pcs[t]);
    forall m: nat | m <= |g|
      ensures Count(g, IsRejected, m) == Count(g', IsRejected, m)
    {
      CountExtend(g, seq(desired, _ => Open(t)), IsRejected, m);
    }
    hide Count;
    CoveredGrows(g, g', s.tail, s.tail);
    OwnedMove(g, s.pcs, t, pc, g');
    StaleGrows(s, g, g', s.overcommit, t, pc);
  }

  function SettlePC(a: Option<nat>, my: nat, desired: nat): PC {
    if a.None? then GiveUp(my, desired)
    else if a.value < desired then PayBack(my, a.value, desired - a.value)
    else TakeHead(my, a.value)
  }

  /** g after t's tickets from my on are decided: n granted, the rest of desired rejected. */
  function Decide(g: seq<Ticket>, t: Thread, my: nat, n: nat, desired: nat): (r: seq<Ticket>)
    requires n <= desired && my + desired <= |g|
    ensures |r| == |g|
    ensures forall i | 0 <= i < |g| ::
              r[i] == if my <= i < my + n then Granted(t) else if my + n <= i < my + desired then Rejected(t) else g[i]
  {
    SetRange(SetRange(g, my, n, Granted(t)), my + n, desired - n, Rejected(t))
  }

  lemma DecideCounts(g: seq<Ticket>, t: Thread, my: nat, n: nat, desired: nat)
    requires n <= desired && my + desired <= |g|
    requires forall i | my <= i < my + desired :: g[i] == Open(t)
    ensures var r := Decide(g, t, my, n, desired);
      && Count(r, IsTaken, |g|) == Count(g, IsTaken, |g|)
      && Count(r, IsPaid, |g|) == Count(g, IsPaid, |g|)
      && Grows(g, r)
  {
    var r := Decide(g, t, my, n, desired);
    CountAgree(g, r, IsTaken, |g|);
    CountAgree(g, r, IsPaid, |g|);
    forall m: nat | m <= |g|
      ensures Count(g, IsRejected, m) <= Count(r, IsRejected, m)
    {
      RejectedGrows(g, r, m);
    }
  }

  lemma DecideCovered(g: seq<Ticket>, tail: nat, over: nat, t: Thread, my: nat, n: nat, desired: nat)
    requires n <= desired && my + desired <= |g| && Covered(g, tail)
    requires forall i | my <= i < my + desired :: g[i] == Open(t)
    requires over <= Count(g, IsRejected, my) && (n > 0 ==> my + n - over <= tail)
    ensures Covered(Decide(g, t, my, n, desired), tail)
  {
    var r := Decide(g, t, my, n, desired);
    DecideCounts(g, t, my, n, desired);
    hide Count;
    forall p: nat | p < |r| && Is(IsGranted, r[p]) && !(p < |g| && Is(IsGranted, g[p]))
      ensures p + 1 - Count(r, IsRejected, p) <= tail
    {
      assert my <= p < my + n;
      assert Count(g, IsRejected, my) <= Count(r, IsRejected, my);
      CountMonotone(r, IsRejected, my, p);
    }
    CoveredGrows(g, r, tail, tail);
  }

  lemma DecideOwned(g: seq<Ticket>, pcs: map<Thread, PC>, t: Thread, over: nat, my: nat, n: nat, desired: nat, pc: PC)
    requires Owned(g, pcs) && t in pcs && pcs[t] == Settle(over, desired, my)
    requires n <= desired && my + desired <= |g|
    requires pc == PayBack(my, n, desired - n) || (pc == TakeHead(my, n) && n == desired)
          || (pc == GiveUp(my, desired) && n == 0)
    ensures Owned(Decide(g, t, my, n, desired), pcs[t := pc])
    ensures forall i | my <= i < my + desired :: g[i] == Open(t)
  {
    forall i: nat | my <= i < my + desired
      ensures g[i] == Open(t)
    {
      assert HoldsTicket(pcs[t], i);
    }
    OwnedMove(g, pcs, t, pc, Decide(g, t, my, n, desired));
  }

  lemma StepSettle(s: State, g: seq<Ticket>, t: Thread, over: nat, desired: nat, my: nat, n: nat)
    requires Inv(s, g) && t in s.pcs && s.pcs[t] == Settle(over, desired, my) && Windowed(s)
    requires n == match Actual(s.tail, my, over, desired) case None => 0 case Some(k) => k
    ensures n <= desired && my + desired <= |g|
    ensures Inv(RunStep(s, t, s.pcs[t]), Decide(g, t, my, n, desired))
  {
    hide Inv, Decide;
    HeldTickets(s, g, t);
    InvParts(s, g);
    SettleAmount(s.tail, over, desired, my);
    SettleInv(s, g, t, over, desired, my, n, SettlePC(Actual(s.tail, my, over, desired), my, desired));
  }

  lemma SettleAmount(tail: nat, over: nat, desired: nat, my: nat)
    requires -HALF <= tail - (my - over) < HALF
    ensures var a := Actual(tail, my, over, desired); a.Some? ==> a.value <= desired && my + a.value - over <= tail
  {
    RoomIsDifference(tail, my - over);
  }

  lemma SettleInv(s: State, g: seq<Ticket>, t: Thread, over: nat, desired: nat, my: nat, n: nat, pc: PC)
    requires Inv(s, g) && t in s.pcs && s.pcs[t] == Settle(over, desired, my)
    requires n <= desired && my + desired <= |g| && (n > 0 ==> my + n - over <= s.tail)
    requires pc == PayBack(my, n, desired - n) || (pc == TakeHead(my, n) && n == desired)
          || (pc == GiveUp(my, desired) && n == 0)
    ensures Inv(s.(pcs := s.pcs[t := pc]), Decide(g, t, my, n, desired))
  {
    assert Stale(g, s.overcommit, s.pcs[t]);
    hide Count, Owned, Covered, Decide, HoldsTicket;
    DecideOwned(g, s.pcs, t, over, my, n, desired, pc);
    DecideCounts(g, t, my, n, desired);
    DecideCovered(g, s.tail, over, t, my, n, desired);
    StaleGrows(s, g, Decide(g, t, my, n, desired), s.overcommit, t, pc);
  }

  /** Thread t settles n of its decided tickets from lo on: takes granted ones or pays back rejected ones. */
  lemma SettledTickets(s: State, g: seq<Ticket>, t: Thread, lo: nat, n: nat, x: Ticket, pc: PC)
    requires Inv(s, g) && t in s.pcs && lo + n <= |g| && (x == Taken || x == Paid)
    requires forall i: nat | lo <= i < lo + n :: g[i] == if x == Taken then Granted(t) else Rejected(t)
    requires forall i: nat :: HoldsTicket(s.pcs[t], i) <==> HoldsTicket(pc, i) || lo <= i < lo + n
    requires forall i: nat | HoldsTicket(pc, i) :: !(lo <= i < lo + n) && TicketOf(pc, t, i) == TicketOf(s.pcs[t], t, i)
    ensures var g' := SetRange(g, lo, n, x);
      && Count(g', IsTaken, |g|) == Count(g, IsTaken, |g|) + (if x == Taken then n else 0)
      && Count(g', IsPaid, |g|) == Count(g, IsPaid, |g|) + (if x == Paid then n else 0)
      && Covered(g', s.tail) && Owned(g', s.pcs[t := pc]) && Grows(g, g')
  {
    var g' := SetRange(g, lo, n, x);
    CountSetRange(g, lo, n, x, IsTaken, false, |g|);
    CountSetRange(g, lo, n, x, IsPaid, false, |g|);
    SetRangeGrows(g, lo, n, x);
    forall i: nat | HoldsTicket(pc, i)
      ensures i < |g'| && g'[i] == TicketOf(pc, t, i)
    {
      assert HoldsTicket(s.pcs[t], i);
    }
    hide Count, HoldsTicket, TicketOf;
    CoveredGrows(g, g', s.tail, s.tail);
    OwnedMove(g, s.pcs, t, pc, g');
  }

  /** The invariant after such a step, whose counters move by n. */
  lemma SettledInv(s: State, g: seq<Ticket>, t: Thread, lo: nat, n: nat, x: Ticket, pc: PC, s': State)
    requires Inv(s, g) && t in s.pcs && lo + n <= |g| && (x == Taken || x == Paid)
    requires forall i: nat | lo <= i < lo + n :: g[i] == if x == Taken then Granted(t) else Rejected(t)
    requires forall i: nat :: HoldsTicket(s.pcs[t], i) <==> HoldsTicket(pc, i) || lo <= i < lo + n
    requires forall i: nat | HoldsTicket(pc, i) :: !(lo <= i < lo + n) && TicketOf(pc, t, i) == TicketOf(s.pcs[t], t, i)
    requires s'.tail == s.tail && s'.optimistic == s.optimistic && s'.pcs == s.pcs[t := pc]
    requires s'.head == |s'.handed| == s.head + (if x == Taken then n else 0)
    requires s'.overcommit == s.overcommit + (if x == Paid then n else 0)
    requires forall g': seq<Ticket> | |g'| == |g| :: Stale(g', s'.overcommit, pc)
    ensures Inv(s', SetRange(g, lo, n, x))
  {
    hide Count, HoldsTicket, TicketOf, Covered, Owned, Grows, SetRange, Stale;
    SettledTickets(s, g, t, lo, n, x, pc);
    StaleGrows(s, g, SetRange(g, lo, n, x), s'.overcommit, t, pc);
  }

  lemma HeldTickets(s: State, g: seq<Ticket>, t: Thread)
    requires Inv(s, g) && t in s.pcs
    ensures Stale(g, s.overcommit, s.pcs[t])
    ensures forall i: nat | HoldsTicket(s.pcs[t], i) :: i < |g| && g[i] == TicketOf(s.pcs[t], t, i)
  {
  }

  lemma StepPayBack(s: State, g: seq<Ticket>, t: Thread, my: nat, actual: nat, refund: nat)
    requires Inv(s, g) && t in s.pcs && s.pcs[t] == PayBack(my, actual, refund)
    ensures my + actual + refund <= |g| && Inv(RunStep(s, t, s.pcs[t]), SetRange(g, my + actual, refund, Paid))
  {
    hide Inv, SetRange;
    HeldTickets(s, g, t);
    assert forall i: nat | my <= i < my + actual + refund :: HoldsTicket(s.pcs[t], i);
    InvParts(s, g);
    SettledInv(s, g, t, my + actual, refund, Paid, TakeHead(my, actual), RunStep(s, t, s.pcs[t]));
  }

  lemma StepTakeHead(s: State, g: seq<Ticket>, t: Thread, my: nat, actual: nat)
    requires Inv(s, g) && t in s.pcs && s.pcs[t] == TakeHead(my, actual)
    ensures my + actual <= |g| && Inv(RunStep(s, t, s.pcs[t]), SetRange(g, my, actual, Taken))
  {
    hide Inv, SetRange;
    HeldTickets(s, g, t);
    assert forall i: nat | my <= i < my + actual :: HoldsTicket(s.pcs[t], i);
    InvParts(s, g);
    SettledInv(s, g, t, my, actual, Taken, Idle, RunStep(s, t, s.pcs[t]));
  }

  lemma StepGiveUp(s: State, g: seq<Ticket>, t: Thread, my: nat, desired: nat)
    requires Inv(s, g) && t in s.pcs && s.pcs[t] == GiveUp(my, desired)
    ensures my + desired <= |g| && Inv(RunStep(s, t, s.pcs[t]), SetRange(g, my, desired, Paid))
  {
    hide Inv, SetRange;
    HeldTickets(s, g, t);
    assert forall i: nat | my <= i < my + desired :: HoldsTicket(s.pcs[t], i);
    InvParts(s, g);
    SettledInv(s, g, t, my, desired, Paid, Idle, RunStep(s, t, s.pcs[t]));
  }

  lemma InvParts(s: State, g: seq<Ticket>)
    requires Inv(s, g)
    ensures |g| == s.optimistic && s.head == |s.handed|
  {
  }

  lemma StepKeepsInv(s: State, g: seq<Ticket>, a: Action) returns (g': seq<Ticket>)
    requires Inv(s, g) && Enabled(s, a) && Windowed(s)
    ensures Inv(Apply(s, a), g')
  {
    g' := g;
    match a
    case Enqueue(n) =>
      assert Covered(g, s.tail + n) by { hide Count; }
    case Start(t, max) => QuietStep(s, g, t, LoadTail(max));
    case Run(t) =>
      match s.pcs[t]
      case LoadTail(max) => QuietStep(s, g, t, LoadOvercommit(max, s.tail));
      case LoadOvercommit(max, tail) => QuietStep(s, g, t, LoadOptimistic(max, tail, s.overcommit));
      case LoadOptimistic(max, tail, over) =>
        assert Stale(g, s.overcommit, s.pcs[t]);
        var d := Desired(tail, s.optimistic, over, max);
        QuietStep(s, g, t, if d.Some? then Reserve(over, d.value) else Idle);
      case Reserve(over, desired) =>
        StepReserve(s, g, t, over, desired);
        g' := g + seq(desired, _ => Open(t));
      case Settle(over, desired, my) =>
        var n := match Actual(s.tail, my, over, desired) case None => 0 case Some(k) => k;
        StepSettle(s, g, t, over, desired, my, n);
        g' := Decide(g, t, my, n, desired);
      case PayBack(my, actual, refund) =>
        StepPayBack(s, g, t, my, actual, refund);
        g' := SetRange(g, my + actual, refund, Paid);
      case TakeHead(my, actual) =>
        StepTakeHead(s, g, t, my, actual);
        g' := SetRange(g, my, actual, Taken);
      case GiveUp(my, desired) =>
        StepGiveUp(s, g, t, my, desired);
        g' := SetRange(g, my, desired, Paid);
  }

  // ---------------------------------------------------------------------------
  // What holds in every reachable state
  // ---------------------------------------------------------------------------

  lemma InitInv(s: State)
    requires Init(s)
    ensures Inv(s, [])
  {
  }

  lemma {:induction false} RunKeepsInv(s: State, g: seq<Ticket>, run: seq<Action>) returns (g': seq<Ticket>)
    requires Inv(s, g) && Legal(s, run)
    ensures Inv(Final(s, run), g')
    decreases |run|
  {
    hide Inv;
    if run == [] {
      g' := g;
    } else {
      g' := StepKeepsInv(s, g, run[0]);
      g' := RunKeepsInv(Apply(s, run[0]), g', run[1..]);
    }
  }

  lemma ReachableInv(s: State) returns (g: seq<Ticket>)
    requires Reachable(s)
    ensures Inv(s, g)
  {
    hide Inv;
    var s0, run :| Init(s0) && Legal(s0, run) && s == Final(s0, run);
    InitInv(s0);
    g := RunKeepsInv(s0, [], run);
  }

  /** Consumers never take an index that is not enqueued, nor give back more tickets than they drew. */
  lemma HeadNeverPassesTail(s: State)
    requires Reachable(s)
    ensures s.head <= s.tail
    ensures s.overcommit <= s.optimistic
    ensures s.head + s.overcommit <= s.optimistic
    ensures |s.handed| == s.head
  {
    var g := ReachableInv(s);
    CountKinds(g, |g|);
    GrantedFit(g, s.tail, |g|);
  }

  /** The indices thread t is about to take, on top of those already taken, are enqueued. */
  lemma TakingIsSafe(s: State, t: Thread, my: nat, actual: nat)
    requires Reachable(s) && t in s.pcs && s.pcs[t] == TakeHead(my, actual) && Windowed(s)
    ensures s.head + actual <= s.tail
    ensures Apply(s, Run(t)).handed == s.handed + seq(actual, _ => t)
  {
    var g := ReachableInv(s);
    StepTakeHead(s, g, t, my, actual);
    var g' := SetRange(g, my, actual, Taken);
    var s' := RunStep(s, t, s.pcs[t]);
    assert Inv(s', g');
    hide SetRange;
    CountKinds(g', |g'|);
    GrantedFit(g', s.tail, |g'|);
  }

  predicate Covers(c: Claim, i: nat) {
    c.first <= i < c.first + c.count
  }

  /** Where claim k begins; behind the last, the head. */
  function FirstOf(claims: seq<Claim>, head: nat, k: nat): nat {
    if k < |claims| then claims[k].first else head
  }

  /** The indices of a claim were handed to its thread. */
  ghost predicate Given(c: Claim, handed: seq<Thread>) {
    c.first + c.count <= |handed| && forall i | c.first <= i < c.first + c.count :: handed[i] == c.thread
  }

  /** The claims one behind the other, from 0 up to the head. */
  ghost predicate Tiled(claims: seq<Claim>, head: nat, handed: seq<Thread>) {
    && |handed| == head && FirstOf(claims, head, 0) == 0
    && forall k: nat | k < |claims| :: claims[k].first + claims[k].count == FirstOf(claims, head, k + 1)
         && Given(claims[k], handed)
  }

  lemma StepTiles(s: State, a: Action)
    requires Enabled(s, a) && Tiled(s.claims, s.head, s.handed)
    ensures var s' := Apply(s, a); Tiled(s'.claims, s'.head, s'.handed)
  {
    var s' := Apply(s, a);
    if a.Run? && s.pcs[a.thread].TakeHead? {
      var t := a.thread;
      assert a == Run(t);
      StepClaims(s, t, s.pcs[t].my, s.pcs[t].actual);
      hide Apply, RunStep;
      ClaimTiles(s.claims, s.head, s.handed, Claim(t, s.head, s.pcs[t].actual));
    } else {
      assert s'.claims == s.claims && s'.head == s.head && s'.handed == s.handed;
    }
  }

  lemma ClaimTiles(claims: seq<Claim>, head: nat, handed: seq<Thread>, c: Claim)
    requires Tiled(claims, head, handed) && c.first == head
    ensures Tiled(claims + [c], head + c.count, handed + seq(c.count, _ => c.thread))
  {
    var claims', head', handed' := claims + [c], head + c.count, handed + seq(c.count, _ => c.thread);
    forall k: nat | k < |claims'|
      ensures claims'[k].first + claims'[k].count == FirstOf(claims', head', k + 1) && Given(claims'[k], handed')
    {
      if k < |claims| {
        assert claims'[k] == claims[k] && Given(claims[k], handed);
      }
    }
  }

  lemma StepClaims(s: State, t: Thread, my: nat, actual: nat)
    requires t in s.pcs && s.pcs[t] == TakeHead(my, actual)
    ensures var s' := Apply(s, Run(t));
      && s'.claims == s.claims + [Claim(t, s.head, actual)] && s'.head == s.head + actual
      && s'.handed == s.handed + seq(actual, _ => t)
  {
  }

  lemma {:induction false} RunTiles(s: State, run: seq<Action>)
    requires Legal(s, run) && Tiled(s.claims, s.head, s.handed)
    ensures var s' := Final(s, run); Tiled(s'.claims, s'.head, s'.handed)
    decreases |run|
  {
    if run != [] {
      StepTiles(s, run[0]);
      hide Apply, Tiled;
      RunTiles(Apply(s, run[0]), run[1..]);
    }
  }

  lemma TileAt(claims: seq<Claim>, head: nat, handed: seq<Thread>, k: nat)
    requires Tiled(claims, head, handed) && k < |claims|
    ensures claims[k].first == FirstOf(claims, head, k) && Given(claims[k], handed)
    ensures claims[k].first + claims[k].count == FirstOf(claims, head, k + 1) && head == |handed|
  {
  }

  lemma TileStart(claims: seq<Claim>, head: nat, handed: seq<Thread>)
    requires Tiled(claims, head, handed)
    ensures FirstOf(claims, head, 0) == 0 && FirstOf(claims, head, |claims|) == head == |handed|
  {
  }

  lemma {:induction false} ClaimsInOrder(claims: seq<Claim>, head: nat, handed: seq<Thread>, j: nat, k: nat)
    requires Tiled(claims, head, handed) && j < k <= |claims|
    ensures claims[j].first + claims[j].count <= FirstOf(claims, head, k)
    decreases k
  {
    hide *;
    TileAt(claims, head, handed, k - 1);
    if j + 1 < k {
      ClaimsInOrder(claims, head, handed, j, k - 1);
    }
  }

  lemma {:induction false} SomeClaimCovers(claims: seq<Claim>, head: nat, handed: seq<Thread>, i: nat, n: nat)
      returns (k: nat)
    requires Tiled(claims, head, handed) && n <= |claims| && i < FirstOf(claims, head, n)
    ensures k < n && Covers(claims[k], i)
    decreases n
  {
    hide Tiled, FirstOf;
    TileStart(claims, head, handed);
    TileAt(claims, head, handed, n - 1);
    k := n - 1;
    if i < claims[k].first {
      k := SomeClaimCovers(claims, head, handed, i, n - 1);
    }
  }

  /** Some dequeue was given index i. */
  predicate Claimed(claims: seq<Claim>, i: nat) {
    exists k :: 0 <= k < |claims| && Covers(claims[k], i)
  }

  lemma ClaimedBelow(claims: seq<Claim>, head: nat, handed: seq<Thread>, i: nat)
    requires Tiled(claims, head, handed)
    ensures Claimed(claims, i) <==> i < head
  {
    hide Tiled, FirstOf;
    TileStart(claims, head, handed);
    if i < head {
      var k := SomeClaimCovers(claims, head, handed, i, |claims|);
    } else if k :| 0 <= k < |claims| && Covers(claims[k], i) {
      ClaimsInOrder(claims, head, handed, k, |claims|);
    }
  }

  /** What the dequeues were given is apart, and together it is everything up to the head: every index is dequeued by
      exactly one call, and by the thread it was handed to. */
  lemma ExactlyOnce(s: State)
    requires Reachable(s)
    ensures forall j, k | 0 <= j < k < |s.claims| :: s.claims[j].first + s.claims[j].count <= s.claims[k].first
    ensures forall i: nat :: Claimed(s.claims, i) <==> i < s.head
    ensures |s.handed| == s.head && forall k | 0 <= k < |s.claims| :: Given(s.claims[k], s.handed)
  {
    AllTiled(s);
    hide *;
    forall j, k | 0 <= j < k < |s.claims|
      ensures s.claims[j].first + s.claims[j].count <= s.claims[k].first
    {
      ClaimsInOrder(s.claims, s.head, s.handed, j, k);
      TileAt(s.claims, s.head, s.handed, k);
    }
    forall i: nat
      ensures Claimed(s.claims, i) <==> i < s.head
    {
      ClaimedBelow(s.claims, s.head, s.handed, i);
    }
    forall k | 0 <= k < |s.claims|
      ensures Given(s.claims[k], s.handed)
    {
      TileAt(s.claims, s.head, s.handed, k);
    }
    TileStart(s.claims, s.head, s.handed);
  }

  lemma AllTiled(s: State)
    requires Reachable(s)
    ensures Tiled(s.claims, s.head, s.handed)
  {
    var s0, run :| Init(s0) && Legal(s0, run) && s == Final(s0, run);
    RunTiles(s0, run);
    hide Legal, Final, Tiled;
  }

  ghost predicate Quiet(s: State) {
    forall t | t in s.pcs :: s.pcs[t] == Idle
  }

  lemma {:induction false} SettledCount(g: seq<Ticket>, n: nat)
    requires n <= |g| && forall i | 0 <= i < n :: g[i].Taken? || g[i].Paid?
    ensures Count(g, IsTaken, n) + Count(g, IsPaid, n) == n
  {
    if n > 0 {
      SettledCount(g, n - 1);
    }
  }

  /** Between calls every ticket is settled: each was used for an index or paid back. */
  lemma QuietBalance(s: State)
    requires Reachable(s) && Quiet(s)
    ensures s.optimistic == s.head + s.overcommit
  {
    var g := ReachableInv(s);
    forall i: nat | i < |g|
      ensures g[i].Taken? || g[i].Paid?
    {
      assert !HoldsTicket(Idle, i);
    }
    SettledCount(g, |g|);
  }

  lemma LegalCons(s: State, a: Action, run: seq<Action>)
    requires Enabled(s, a) && Windowed(s) && Legal(Apply(s, a), run)
    ensures Legal(s, [a] + run) && Final(s, [a] + run) == Final(Apply(s, a), run)
  {
    assert ([a] + run)[1..] == run;
  }

  /** Thread t, alone, is on its way to taking k indices. */
  ghost predicate OnTrack(s: State, pc: PC, max: nat, k: nat) {
    && s.head <= s.tail < s.head + HALF
    && k == Min(max, s.tail - s.head)
    && match pc
       case LoadTail(m) => m == max && s.optimistic == s.head + s.overcommit
       case LoadOvercommit(m, tail) => m == max && s.optimistic == s.head + s.overcommit && tail == s.tail
       case LoadOptimistic(m, tail, over) =>
         m == max && s.optimistic == s.head + s.overcommit && tail == s.tail && over == s.overcommit
       case Reserve(over, desired) =>
         s.head < s.tail && s.optimistic == s.head + s.overcommit && over == s.overcommit && desired == k
       case Settle(over, desired, my) => s.head < s.tail && my == s.head + over && desired == k
       case TakeHead(my, actual) => actual == k
       case _ => false
  }

  function StepsLeft(pc: PC): nat {
    match pc
    case LoadTail(_) => 6
    case LoadOvercommit(_, _) => 5
    case LoadOptimistic(_, _, _) => 4
    case Reserve(_, _) => 3
    case Settle(_, _, _) => 2
    case _ => 1
  }

  ghost predicate OthersIdle(s: State, t: Thread) {
    forall u | u in s.pcs && u != t :: s.pcs[u] == Idle
  }

  /** One step of the lone thread: it stays on track, or it has taken its k indices. */
  lemma TrackStep(s: State, t: Thread, max: nat, k: nat)
    requires t in s.pcs && OthersIdle(s, t) && OnTrack(s, s.pcs[t], max, k)
    ensures Windowed(s) && s.pcs[t] != Idle
    ensures var s' := RunStep(s, t, s.pcs[t]);
      && t in s'.pcs && OthersIdle(s', t)
      && if s'.pcs[t] == Idle then s'.handed == s.handed + seq(k, _ => t)
         else s'.handed == s.handed && OnTrack(s', s'.pcs[t], max, k) && StepsLeft(s'.pcs[t]) < StepsLeft(s.pcs[t])
  {
    hide Desired, Actual;
    match s.pcs[t]
    case LoadOptimistic(m, tail, over) => DesiredAlone(s.tail, s.head, over, max);
    case Settle(over, desired, my) => DesiredAlone(s.tail, s.head, over, desired);
    case _ =>
  }

  lemma DesiredAlone(tail: nat, head: nat, over: nat, max: nat)
    requires head <= tail < head + HALF
    ensures Desired(tail, head + over, over, max) == Actual(tail, head + over, over, max)
    ensures Desired(tail, head + over, over, max) == if tail == head then None else Some(Min(max, tail - head))
  {
    RoomIsDifference(tail, head);
  }

  lemma {:induction false} FinishAlone(s: State, t: Thread, max: nat, k: nat) returns (run: seq<Action>)
    requires t in s.pcs && OthersIdle(s, t) && OnTrack(s, s.pcs[t], max, k)
    ensures Legal(s, run) && forall a | a in run :: a == Run(t)
    ensures var s' := Final(s, run); Quiet(s') && s'.handed == s.handed + seq(k, _ => t)
    decreases StepsLeft(s.pcs[t])
  {
    hide OnTrack, RunStep, StepsLeft;
    TrackStep(s, t, max, k);
    var s' := Apply(s, Run(t));
    var rest: seq<Action> := [];
    if s'.pcs[t] != Idle {
      rest := FinishAlone(s', t, max, k);
    }
    LegalCons(s, Run(t), rest);
    run := [Run(t)] + rest;
  }

  /** However the counters came to be, a lone dequeue takes all it asks for of what is there: no element is stranded. */
  lemma NothingStranded(s: State, t: Thread, max: nat) returns (run: seq<Action>)
    requires Reachable(s) && Quiet(s) && t in s.pcs && s.tail - s.head < HALF
    ensures s.head <= s.tail && Legal(s, [Start(t, max)] + run) && forall a | a in run :: a == Run(t)
    ensures var s' := Final(s, [Start(t, max)] + run);
      Quiet(s') && s'.handed == s.handed + seq(Min(max, s.tail - s.head), _ => t)
  {
    QuietBalance(s);
    HeadNeverPassesTail(s);
    var s' := Apply(s, Start(t, max));
    run := FinishAlone(s', t, max, Min(max, s.tail - s.head));
    LegalCons(s, Start(t, max), run);
  }

  // ---------------------------------------------------------------------------
  // The machine gets to the states the theorems speak of
  // ---------------------------------------------------------------------------

  lemma {:induction false} OneStepMore(s: State, run: seq<Action>, a: Action)
    requires Legal(s, run) && Enabled(Final(s, run), a) && Windowed(Final(s, run))
    ensures Legal(s, run + [a]) && Final(s, run + [a]) == Apply(Final(s, run), a)
    decreases |run|
  {
    hide Apply, Enabled, Windowed;
    if run == [] {
      assert run + [a] == [a] && [a][1..] == [];
    } else {
      assert (run + [a])[1..] == run[1..] + [a];
      OneStepMore(Apply(s, run[0]), run[1..], a);
    }
  }

  /** The state after one step more. */
  lemma Go(s: State, a: Action) returns (s': State)
    requires Reachable(s) && Enabled(s, a) && Windowed(s)
    ensures Reachable(s') && s' == Apply(s, a)
  {
    hide Init, Legal, Final, Apply, Enabled, Windowed;
    var s0, run :| Init(s0) && Legal(s0, run) && s == Final(s0, run);
    OneStepMore(s0, run, a);
    s' := Apply(s, a);
  }

  lemma InitReachable(s: State)
    requires Init(s)
    ensures Reachable(s)
  {
    hide Init;
    assert Legal(s, []) && s == Final(s, []);
  }

  lemma TestsAlone()
    ensures Desired(1, 0, 0, 1) == Some(1) && Actual(1, 0, 0, 1) == Some(1)
  {
  }

  /** A consumer has seen the one element there is. */
  lemma RunToReserve() returns (s: State)
    ensures Reachable(s) && s.pcs.Keys == {0} && s.pcs[0] == Reserve(0, 1) && s.tail == 1 && s.optimistic == 0
  {
    hide Reachable, Legal, Final, Desired, Actual;
    TestsAlone();
    s := State(0, 0, 0, 0, [], [], map[0 := Idle]);
    InitReachable(s);
    s := Go(s, Enqueue(1));
    s := Go(s, Start(0, 1));
    s := Go(s, Run(0));
    s := Go(s, Run(0));
    s := Go(s, Run(0));
  }

  /** A consumer is about to take it. */
  lemma RunToTaking() returns (s: State)
    ensures Reachable(s) && Windowed(s) && 0 in s.pcs && s.pcs[0] == TakeHead(0, 1)
  {
    s := RunToReserve();
    hide Reachable, Legal, Final, Desired, Actual;
    TestsAlone();
    s := Go(s, Run(0));
    s := Go(s, Run(0));
  }
}
