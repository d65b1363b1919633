/**
  A call of get_or_add_implicit_producer returns: a thread that runs alone finishes it, wherever the other threads are
  stopped, as long as none of them is stopped in the middle of replacing the table.
 */
module ProducerTableProgress {
  import opened Basics
  import opened ProducerTable

  /** Nobody but t may hold the lock. */
  predicate LockFree(s: State, t: Thread) {
    t in s.pcs && (s.locked ==> HoldsLock(s.pcs[t]))
  }

  /** There is room for an entry with count n in this table. */
  predicate HasRoom(s: State, main: nat, n: nat) {
    n < Room(TableAt(s.tables, main).capacity)
  }

  /** Which part of the call the thread is in, counted from its end. */
  function Stage(s: State, pc: PC): nat {
    match pc
    case Idle => 0
    case StoreValue(_, _, _) => 1
    case ProbePut(_, _, _) => 2
    case SwapKey(_, _, _) => 2
    case CreateProducer(_, _) => 3
    case CheckRoom(main, n) => if HasRoom(s, main, n) then 4 else 11
    case Unlock(main, n) => if HasRoom(s, main, n) then 5 else 12
    case CheckLocked(_, _) => 6
    case ReloadLocked(_) => 7
    case TryLock(_, _) => 8
    case CheckSize(_, _) => 9
    case ReloadMain(_) => 10
    case DrawCount(_) => 13
    case Probe(_, _, _) => 14
    case LoadMain => 15
  }

  predicate Probing(pc: PC) {
    pc.Probe? || pc.ProbePut? || pc.SwapKey?
  }

  /** Outside the probing loops each step takes the thread to a later part; a table that it replaces has room for its
      entry. */
  lemma StageFalls(s: State, t: Thread, pc: PC)
    requires t in s.pcs && s.pcs[t] == pc && pc != Idle && (s.locked ==> HoldsLock(pc))
    requires pc.CheckLocked? ==> 0 < TableAt(s.tables, pc.main).capacity
    ensures var s' := RunStep(s, t, pc);
      && t in s'.pcs && (s'.locked ==> HoldsLock(s'.pcs[t]))
      && (!Probing(pc) ==> Stage(s', s'.pcs[t]) < Stage(s, pc))
      && (Probing(pc) ==> Stage(s', s'.pcs[t]) <= Stage(s, pc))
  {
    if pc.CheckLocked? {
      LockedStageFalls(s, t, pc);
    } else {
      hide SlotAt, SetTable, TableAt, Hash, ValueAt, Last;
      if pc.CheckSize? {
        HalfIsRoom(s, pc.main, pc.count);
      }
      hide HasRoom;
      match pc
      case Unlock(_, _) =>
      case TryLock(_, _) =>
      case _ =>
    }
  }

  lemma HalfIsRoom(s: State, main: nat, n: nat)
    ensures n < TableAt(s.tables, main).capacity / 2 ==> HasRoom(s, main, n)
  {
  }

  /** A table that is replaced is replaced by one with room. */
  lemma LockedStageFalls(s: State, t: Thread, pc: PC)
    requires t in s.pcs && s.pcs[t] == pc && pc.CheckLocked? && 0 < TableAt(s.tables, pc.main).capacity
    ensures var s' := RunStep(s, t, pc);
      && t in s'.pcs && HoldsLock(s'.pcs[t]) && Stage(s', s'.pcs[t]) < Stage(s, pc)
  {
  }

  /** One more thing is returned with the last step, and nothing before. */
  lemma ReturnsAtEnd(s: State, t: Thread, pc: PC) returns (p: Producer)
    requires t in s.pcs && s.pcs[t] == pc && pc != Idle
    ensures var s' := RunStep(s, t, pc);
      && t in s'.pcs && s'.pcs == s.pcs[t := s'.pcs[t]]
      && s'.returned == if s'.pcs[t] == Idle then s.returned + [Return(t, p)] else s.returned
  {
    hide SlotAt, SetTable, Hash, TableAt;
    p := 0;
    match pc
    case Probe(main, v, j) => p := ValueAt(TableAt(s.tables, v).values,
                                           SlotAt(Hash(s.hashes, t), j, TableAt(s.tables, v).capacity));
    case StoreValue(_, _, q) => p := q;
    case _ =>
  }

  lemma CapacityPositive(s: State, main: nat)
    requires Reachable(s)
    ensures 0 < TableAt(s.tables, main).capacity
  {
    var g := ReachableInv(s);
    hide HomesOk, LockOk, DrawsOk, ThreadsOk, KeyOk, ValueOk;
    assert main < |s.tables| ==> TableOk(TableAt(s.tables, main), main, s.hashes, g, s.pcs);
  }

  /** All steps are t's. */
  predicate Alone(run: seq<Action>, t: Thread) {
    forall i | 0 <= i < |run| :: run[i] == Run(t)
  }

  /** A thread that runs alone comes to the end of its call and is given a producer, unless another thread is stopped
      with the lock. */
  lemma {:induction false} CallReturns(s: State, t: Thread) returns (run: seq<Action>, p: Producer)
    requires Reachable(s) && LockFree(s, t) && s.pcs[t] != Idle
    ensures Alone(run, t) && Legal(s, run)
    ensures var z := Final(s, run); z.pcs == s.pcs[t := Idle] && z.returned == s.returned + [Return(t, p)]
    ensures LockFree(Final(s, run), t) && Reachable(Final(s, run))
    decreases Stage(s, s.pcs[t]), ProbesLeft(s, t).0, ProbesLeft(s, t).1
  {
    var a := Run(t);
    var s' := Go(s, a);
    hide Reachable, RunStep, Stage, ProbesLeft, Probing;
    if s.pcs[t].CheckLocked? {
      CapacityPositive(s, s.pcs[t].main);
    }
    StageFalls(s, t, s.pcs[t]);
    p := ReturnsAtEnd(s, t, s.pcs[t]);
    if s'.pcs[t] == Idle {
      run := [a];
      assert run[1..] == [];
    } else {
      if Probing(s.pcs[t]) {
        assert s.pcs[t].Probe? || s.pcs[t].ProbePut? || s.pcs[t].SwapKey? by { ProbingIs(s.pcs[t]); }
        ProbingEnds(s, t);
      }
      var rest;
      rest, p := CallReturns(s', t);
      run := [a] + rest;
      assert run[1..] == rest;
    }
  }

  lemma ProbingIs(pc: PC)
    ensures Probing(pc) <==> pc.Probe? || pc.ProbePut? || pc.SwapKey?
  {
  }

  /** Two calls of a thread that runs alone, one after the other, give it the same producer. */
  lemma SameAgain(s: State, t: Thread) returns (run: seq<Action>, again: seq<Action>, p: Producer)
    requires Reachable(s) && t in s.pcs && s.pcs[t] == Idle && !s.locked
    ensures Alone(run, t) && Alone(again, t) && Legal(s, [Call(t)] + run)
    ensures var z := Final(s, [Call(t)] + run);
      && Legal(z, [Call(t)] + again)
      && Final(z, [Call(t)] + again).returned == s.returned + [Return(t, p), Return(t, p)]
  {
    hide Reachable, RunStep;
    var s1 := Go(s, Call(t));
    run, p := CallReturns(s1, t);
    assert ([Call(t)] + run)[1..] == run;
    var z := Final(s1, run);
    var z1 := Go(z, Call(t));
    var q;
    again, q := CallReturns(z1, t);
    assert ([Call(t)] + again)[1..] == again;
    var y := Final(z1, again);
    assert y.returned == s.returned + [Return(t, p)] + [Return(t, q)];
    var n := |s.returned|;
    assert y.returned[n] == Return(t, p) && y.returned[n + 1] == Return(t, q);
    OneProducerPerThread(y, n, n + 1);
    assert p == q;
    assert y.returned == s.returned + [Return(t, p), Return(t, p)];
  }

  /** A table is replaced by the smallest one, twice its size or twice that and so on, of which the count is less than
      half. */
  lemma {:induction false} GrownIsLeast(c: nat, count: nat) returns (e: nat)
    requires 0 < c
    ensures e >= 1 && Grown(c, count) == c * Pow2(e) && count < c * Pow2(e - 1)
    ensures e > 1 ==> count >= c * Pow2(e - 2)
    decreases 2 * count + 2 - c
  {
    assert Pow2(0) == 1 && Pow2(1) == 2;
    if count < c {
      e := 1;
    } else {
      hide Pow2;
      var f := GrownIsLeast(2 * c, count);
      e := f + 1;
      Doubled(c, f);
      Doubled(c, f - 1);
      if f > 1 {
        Doubled(c, f - 2);
      }
    }
  }

  lemma Doubled(c: nat, e: nat)
    ensures 2 * c * Pow2(e) == c * Pow2(e + 1)
  {
  }
}
