/**
  The upload pipeline ends under every fair interleaving.

  A schedule gives one turn after the other to the chunker, a stage or the sender, for ever; a turn of a thread that has
  ended is lost.  It is fair if every thread gets turns again and again.  The servers' answers come with the turns.
 */
module Fairness {
  import opened Basics
  import opened Pipeline

  datatype Actor = TheChunker | TheStage(i: nat) | TheSender

  function By(a: Action): Actor {
    match a
    case StepChunker => TheChunker
    case StepStage(i, _) => TheStage(i)
    case StepSender => TheSender
  }

  type Schedule = nat -> Action

  function Turned(s: State, a: Action): State {
    if Enabled(s, a) then Apply(s, a) else s
  }

  /** The state after n turns. */
  function After(s: State, schedule: Schedule, n: nat): State {
    if n == 0 then s else Turned(After(s, schedule, n - 1), schedule(n - 1))
  }

  predicate HasTurn(schedule: Schedule, actor: Actor, m: nat) {
    By(schedule(m)) == actor
  }

  ghost predicate Comes(schedule: Schedule, actor: Actor, n: nat) {
    exists m: nat :: n <= m && HasTurn(schedule, actor, m)
  }

  /** Every thread has a turn behind every point. */
  ghost predicate Fair(schedule: Schedule, stages: nat) {
    forall actor: Actor, n: nat | actor.TheStage? ==> actor.i < stages :: Comes(schedule, actor, n)
  }

  // ---------------------------------------------------------------------------
  // A thread that can lower the measure can do so until it does
  // ---------------------------------------------------------------------------

  /** By some steps of its own the actor would lower the measure. */
  predicate Ready(s: State, actor: Actor)
    requires Shaped(s)
  {
    match actor
    case TheChunker => !s.queues[0].done && s.queues[0].items == []
    case TheStage(i) =>
      i < |s.stages| && s.stages[i].pc != Finished && Active(s.stages[i], s.queues[i])
          && |s.queues[i + 1].items| < CAPACITY
    case TheSender => s.sender.pc != SenderFinished && (s.queues[|s.stages|].items != [] || s.queues[|s.stages|].done)
  }

  /** How many of its steps come before the one that does. */
  function Wait(s: State, actor: Actor): nat
    requires Shaped(s)
  {
    match actor
    case TheChunker => 0
    case TheStage(i) => if i < |s.stages| then StageWait(s.stages[i], s.queues[i]) else 0
    case TheSender => SenderWait(s.sender, s.queues[|s.stages|])
  }

  /** Lower than before, or nearer to being lowered by the actor. */
  predicate GetsNearer(s: State, s': State, actor: Actor)
    requires Shaped(s) && Shaped(s')
  {
    Measure(s') < Measure(s) || (Measure(s') == Measure(s) && Ready(s', actor) && Wait(s', actor) < Wait(s, actor))
  }

  lemma StageTurn(s: State, i: nat, required: seq<bool>, ids: seq<nat>, recipes: nat)
    requires Inv(s, ids, recipes) && Ready(s, TheStage(i))
    ensures Enabled(s, StepStage(i, required)) && Shaped(Apply(s, StepStage(i, required)))
    ensures GetsNearer(s, Apply(s, StepStage(i, required)), TheStage(i))
  {
    hide Inv, Measure, StageOk, Active, StageWait, StageStep, Share;
    InvStage(s, i, ids, recipes);
    StageEnabled(s, i, required);
    StageMeasure(s, i, required);
    StageAlone(s.stages[i], s.queues[i], s.queues[i + 1], required);
    StageShare(s.stages[i], s.queues[i], s.queues[i + 1], required);
    hide Apply, Enabled;
  }

  /** The actor's own turn lowers the measure or brings it one step nearer to doing so. */
  lemma OwnTurn(s: State, a: Action, ids: seq<nat>, recipes: nat)
    requires Inv(s, ids, recipes) && Ready(s, By(a))
    ensures Enabled(s, a) && Shaped(Apply(s, a)) && GetsNearer(s, Apply(s, a), By(a))
  {
    match a
    case StepChunker =>
      hide Inv, Measure;
      ChunkerMeasure(s);
    case StepSender =>
      InvSender(s, ids, recipes);
      SenderMeasure(s);
      hide Inv, Measure;
      SenderTurn(s.sender, s.queues[|s.stages|]);
      hide SenderOk, SenderStep, SenderGetsOn, SenderWait;
    case StepStage(i, required) =>
      hide Inv, Apply, Enabled, Ready, GetsNearer;
      StageTurn(s, i, required, ids, recipes);
  }

  lemma SenderTurn(n: Sender, input: Queue)
    requires SenderOk(n, input) && n.pc != SenderFinished && (input.items != [] || input.done)
    ensures var r := SenderStep(n, input);
      SenderGetsOn(n, input, r.0, r.1) || (r.1 == input && r.0.pc != SenderFinished
          && SenderWait(r.0, input) < SenderWait(n, input))
  {
  }

  /** A step of a stage that does not lower its share changes no queue. */
  lemma StageQuiet(g: Stage, input: Queue, output: Queue, required: seq<bool>)
    requires StageOk(g, input, output)
    ensures var r := StageStep(g, input, output, required);
      Share(r.0, r.1, r.2) == Share(g, input, output) ==> r.1 == input && r.2 == output
  {
    var r := StageStep(g, input, output, required);
    HeldIs(g);
    HeldIs(r.0);
    hide Held, Mark;
  }

  lemma SenderQuiet(n: Sender, input: Queue)
    ensures var r := SenderStep(n, input); !SenderGetsOn(n, input, r.0, r.1) ==> r.1 == input
  {
  }

  /** The states have the same queues, and the same threads but for one. */
  predicate OnlyThread(s: State, s': State, actor: Actor) {
    && s'.queues == s.queues && |s'.stages| == |s.stages|
    && (forall i | 0 <= i < |s.stages| && actor != TheStage(i) :: s'.stages[i] == s.stages[i])
    && (actor != TheSender ==> s'.sender == s.sender)
  }

  lemma QuietStage(s: State, i: nat, required: seq<bool>, ids: seq<nat>, recipes: nat)
    requires Inv(s, ids, recipes) && Enabled(s, StepStage(i, required))
    ensures var s' := Apply(s, StepStage(i, required));
      Shaped(s') && (Measure(s') == Measure(s) ==> OnlyThread(s, s', TheStage(i)))
  {
    hide Inv, Measure, StageOk, StageStep, Share;
    InvStage(s, i, ids, recipes);
    StageEnabled(s, i, required);
    StageShare(s.stages[i], s.queues[i], s.queues[i + 1], required);
    StageMeasure(s, i, required);
    StageQuiet(s.stages[i], s.queues[i], s.queues[i + 1], required);
    var s' := Apply(s, StepStage(i, required));
    if Measure(s') == Measure(s) {
      assert s'.queues == s.queues[i := s.queues[i]][i + 1 := s.queues[i + 1]] == s.queues;
    }
  }

  lemma QuietSender(s: State, ids: seq<nat>, recipes: nat)
    requires Inv(s, ids, recipes) && Enabled(s, StepSender)
    ensures var s' := Apply(s, StepSender); Shaped(s') && (Measure(s') == Measure(s) ==> OnlyThread(s, s', TheSender))
  {
    InvSender(s, ids, recipes);
    SenderMeasure(s);
    SenderQuiet(s.sender, s.queues[|s.stages|]);
    hide Inv, Measure, SenderStep, SenderGetsOn, SenderOk;
  }

  /** A step that does not lower the measure changes nothing but its thread's own place. */
  lemma QuietStep(s: State, a: Action, ids: seq<nat>, recipes: nat)
    requires Inv(s, ids, recipes) && Enabled(s, a)
    ensures Shaped(Apply(s, a)) && (Measure(Apply(s, a)) == Measure(s) ==> OnlyThread(s, Apply(s, a), By(a)))
  {
    match a
    case StepChunker =>
      hide Inv, Measure;
      ChunkerMeasure(s);
    case StepSender =>
      hide Inv, Measure, OnlyThread, Apply;
      QuietSender(s, ids, recipes);
    case StepStage(i, required) =>
      hide Inv, Measure, OnlyThread, Apply;
      QuietStage(s, i, required, ids, recipes);
  }

  lemma OthersReady(s: State, s': State, other: Actor, actor: Actor)
    requires Shaped(s) && Shaped(s') && OnlyThread(s, s', other) && other != actor && Ready(s, actor)
    ensures Ready(s', actor) && Wait(s', actor) == Wait(s, actor)
  {
    hide Active, StageWait, SenderWait;
  }

  /** Any turn lowers the measure, or leaves the actor as near to lowering it; its own turn brings it nearer. */
  lemma AnyTurn(s: State, a: Action, actor: Actor, ids: seq<nat>, recipes: nat)
    requires Inv(s, ids, recipes) && Ready(s, actor)
    ensures var s' := Turned(s, a);
      && Inv(s', ids, recipes) && Measure(s') <= Measure(s)
      && (Measure(s') == Measure(s) ==>
            Ready(s', actor) && Wait(s', actor) <= Wait(s, actor)
                && (By(a) == actor ==> Wait(s', actor) < Wait(s, actor)))
  {
    hide Inv, Measure, Ready, Wait, Apply, OnlyThread;
    if By(a) == actor {
      OwnTurn(s, a, ids, recipes);
    }
    if Enabled(s, a) {
      StepKeepsInv(s, a, ids, recipes);
      MeasureNeverRises(s, a, ids, recipes);
      if By(a) != actor {
        QuietStep(s, a, ids, recipes);
        if Measure(Apply(s, a)) == Measure(s) {
          OthersReady(s, Apply(s, a), By(a), actor);
        }
      }
    }
  }

  // ---------------------------------------------------------------------------
  // So the measure falls
  // ---------------------------------------------------------------------------

  /** While the sender has not finished, somebody is ready. */
  lemma SomebodyReady(s: State, ids: seq<nat>, recipes: nat) returns (actor: Actor)
    requires Inv(s, ids, recipes) && s.sender.pc != SenderFinished
    ensures Ready(s, actor) && (actor.TheStage? ==> actor.i < |s.stages|)
  {
    var n := |s.stages|;
    InvSender(s, ids, recipes);
    if s.queues[n].items != [] || s.queues[n].done {
      actor := TheSender;
    } else {
      actor := ReadyBefore(s, n, ids, recipes);
    }
  }

  lemma {:induction false} ReadyBefore(s: State, j: nat, ids: seq<nat>, recipes: nat) returns (actor: Actor)
    requires Inv(s, ids, recipes) && j < |s.queues| && s.queues[j].items == [] && !s.queues[j].done
    ensures Ready(s, actor) && (actor.TheStage? ==> actor.i < |s.stages|)
    decreases j
  {
    if j == 0 {
      actor := TheChunker;
    } else {
      var i := j - 1;
      InvStage(s, i, ids, recipes);
      hide Inv, StageWait;
      if Active(s.stages[i], s.queues[i]) {
        actor := TheStage(i);
      } else {
        actor := ReadyBefore(s, i, ids, recipes);
      }
    }
  }

  lemma {:induction false} InvAfter(s: State, schedule: Schedule, n: nat, ids: seq<nat>, recipes: nat)
    requires Inv(s, ids, recipes)
    ensures Inv(After(s, schedule, n), ids, recipes) && |After(s, schedule, n).stages| == |s.stages|
  {
    if n > 0 {
      InvAfter(s, schedule, n - 1, ids, recipes);
      var t := After(s, schedule, n - 1);
      if Enabled(t, schedule(n - 1)) {
        StepKeepsInv(t, schedule(n - 1), ids, recipes);
        StagesStay(t, schedule(n - 1));
      }
      hide Inv, Apply, Enabled;
    }
  }

  lemma StagesStay(s: State, a: Action)
    requires Enabled(s, a)
    ensures |Apply(s, a).stages| == |s.stages|
  {
    hide StageStep, SenderStep;
  }

  lemma ShapedAfter(s: State, ids: seq<nat>, recipes: nat)
    requires Inv(s, ids, recipes)
    ensures Shaped(s)
  {
  }

  /** From turn n to turn m: the measure is lower, or the actor is as near to lowering it. */
  lemma {:induction false} Meanwhile(s: State, schedule: Schedule, n: nat, m: nat, actor: Actor, ids: seq<nat>,
      recipes: nat)
    requires n <= m && Inv(After(s, schedule, n), ids, recipes) && Shaped(After(s, schedule, n))
          && Ready(After(s, schedule, n), actor)
    ensures var t, t' := After(s, schedule, n), After(s, schedule, m);
      && Inv(t', ids, recipes) && Shaped(t') && Measure(t') <= Measure(t)
      && (Measure(t') == Measure(t) ==> Ready(t', actor) && Wait(t', actor) <= Wait(t, actor))
    decreases m
  {
    hide Inv, Measure, Ready, Wait, Turned;
    if n < m {
      Meanwhile(s, schedule, n, m - 1, actor, ids, recipes);
      var t := After(s, schedule, m - 1);
      if Measure(t) == Measure(After(s, schedule, n)) {
        AnyTurn(t, schedule(m - 1), actor, ids, recipes);
      } else {
        TurnKeeps(t, schedule(m - 1), ids, recipes);
      }
      ShapedAfter(After(s, schedule, m), ids, recipes);
    }
  }

  lemma TurnKeeps(s: State, a: Action, ids: seq<nat>, recipes: nat)
    requires Inv(s, ids, recipes)
    ensures Inv(Turned(s, a), ids, recipes) && Shaped(s) && Shaped(Turned(s, a)) && Measure(Turned(s, a)) <= Measure(s)
  {
    ShapedAfter(s, ids, recipes);
    hide Inv, Measure, Apply;
    if Enabled(s, a) {
      StepKeepsInv(s, a, ids, recipes);
      MeasureNeverRises(s, a, ids, recipes);
    }
  }

  /** Sooner or later a ready actor lowers the measure, unless it was lowered before. */
  lemma {:induction false} Lowered(s: State, schedule: Schedule, n: nat, actor: Actor, ids: seq<nat>, recipes: nat)
      returns (m: nat)
    requires Inv(After(s, schedule, n), ids, recipes) && Shaped(After(s, schedule, n))
          && Ready(After(s, schedule, n), actor)
    requires forall k: nat :: Comes(schedule, actor, k)
    ensures n <= m && Inv(After(s, schedule, m), ids, recipes) && Shaped(After(s, schedule, m))
    ensures Measure(After(s, schedule, m)) < Measure(After(s, schedule, n))
    decreases Wait(After(s, schedule, n), actor)
  {
    hide Inv, Measure, Ready, Wait, Turned;
    assert Comes(schedule, actor, n);
    var k: nat :| n <= k && HasTurn(schedule, actor, k);
    Meanwhile(s, schedule, n, k, actor, ids, recipes);
    var t := After(s, schedule, k);
    m := k + 1;
    if Measure(t) == Measure(After(s, schedule, n)) {
      AnyTurn(t, schedule(k), actor, ids, recipes);
      ShapedAfter(After(s, schedule, m), ids, recipes);
      if Measure(After(s, schedule, m)) == Measure(t) {
        m := Lowered(s, schedule, m, actor, ids, recipes);
      }
    } else {
      m := k;
    }
  }

  lemma {:induction false} FinishedFrom(s: State, schedule: Schedule, n: nat, ids: seq<nat>, recipes: nat)
      returns (m: nat)
    requires Inv(After(s, schedule, n), ids, recipes) && Shaped(After(s, schedule, n))
    requires Fair(schedule, |After(s, schedule, n).stages|)
    ensures n <= m && After(s, schedule, m).sender.pc == SenderFinished
    decreases Measure(After(s, schedule, n))
  {
    hide Inv, Measure, Ready, Turned;
    var t := After(s, schedule, n);
    m := n;
    if t.sender.pc != SenderFinished {
      var actor := SomebodyReady(t, ids, recipes);
      assert forall k: nat :: Comes(schedule, actor, k);
      m := Lowered(s, schedule, n, actor, ids, recipes);
      StagesAfter(s, schedule, n, m);
      m := FinishedFrom(s, schedule, m, ids, recipes);
    }
  }

  lemma {:induction false} StagesAfter(s: State, schedule: Schedule, n: nat, m: nat)
    requires n <= m
    ensures |After(s, schedule, m).stages| == |After(s, schedule, n).stages|
    decreases m
  {
    if n < m {
      StagesAfter(s, schedule, n, m - 1);
      var t := After(s, schedule, m - 1);
      if Enabled(t, schedule(m - 1)) {
        StagesStay(t, schedule(m - 1));
      }
      hide Apply, Enabled;
    }
  }

  lemma Snoc(s: State, run: seq<Action>, a: Action)
    requires Legal(s, run) && Enabled(Final(s, run), a)
    ensures Legal(s, run + [a]) && Final(s, run + [a]) == Apply(Final(s, run), a)
    decreases |run|
  {
    hide Apply, Enabled;
    if run == [] {
      assert run + [a] == [a] && [a][1..] == [];
    } else {
      assert (run + [a])[1..] == run[1..] + [a];
      Snoc(Apply(s, run[0]), run[1..], a);
    }
  }

  /** What n turns lead to, a run leads to. */
  lemma {:induction false} AfterIsRun(s: State, schedule: Schedule, n: nat) returns (run: seq<Action>)
    ensures Legal(s, run) && Final(s, run) == After(s, schedule, n)
  {
    hide Apply, Enabled;
    run := [];
    if n > 0 {
      run := AfterIsRun(s, schedule, n - 1);
      if Enabled(Final(s, run), schedule(n - 1)) {
        Snoc(s, run, schedule(n - 1));
        run := run + [schedule(n - 1)];
      }
    }
  }

  /** Under every fair schedule the sender finishes, with all chunks in order in its recipe list and those marked for
      upload sent. */
  lemma FairDelivery(s: State, schedule: Schedule, n: nat) returns (m: nat)
    requires Init(s) && Fair(schedule, |s.stages|) && Ids(s.rest) == Numbers(n)
    ensures var t := After(s, schedule, m);
      && t.sender.pc == SenderFinished
      && |t.sender.list| == n && (forall i | 0 <= i < n :: t.sender.list[i].Chunk? && t.sender.list[i].id == i)
      && t.sender.recipes == Recipes(s.rest)
      && t.sender.sent == Uploads(t.sender.list)
  {
    InitInv(s);
    ShapedAfter(s, Ids(s.rest), Recipes(s.rest));
    hide Inv, Measure, Init, Fair, Numbers, Ids, Recipes, Uploads;
    assert After(s, schedule, 0) == s;
    m := FinishedFrom(s, schedule, 0, Ids(s.rest), Recipes(s.rest));
    var run := AfterIsRun(s, schedule, m);
    FinishedInOrder(s, run, n);
  }

  /** When the sender has finished, so has everybody before it, and nothing is left in any queue. */
  lemma {:induction false} FinishedBefore(s: State, j: nat, ids: seq<nat>, recipes: nat)
    requires Inv(s, ids, recipes) && s.sender.pc == SenderFinished && j <= |s.stages|
    ensures forall i | |s.stages| - j <= i <= |s.stages| :: s.queues[i] == Queue([], true)
    ensures forall i | |s.stages| - j <= i < |s.stages| :: s.stages[i].pc == Finished
    decreases j
  {
    if j == 0 {
      InvSender(s, ids, recipes);
    } else {
      FinishedBefore(s, j - 1, ids, recipes);
      var i := |s.stages| - j;
      InvStage(s, i, ids, recipes);
      hide Inv;
      assert s.queues[i + 1] == Queue([], true);
    }
  }

  /** Under every fair schedule every thread ends. */
  lemma AllEnd(s: State, schedule: Schedule) returns (m: nat)
    requires Init(s) && Fair(schedule, |s.stages|)
    ensures var t := After(s, schedule, m);
      && Shaped(t) && t.sender.pc == SenderFinished && (forall i | 0 <= i < |t.stages| :: t.stages[i].pc == Finished)
      && forall j | 0 <= j < |t.queues| :: t.queues[j] == Queue([], true)
  {
    InitInv(s);
    ShapedAfter(s, Ids(s.rest), Recipes(s.rest));
    m := FinishedFrom(s, schedule, 0, Ids(s.rest), Recipes(s.rest));
    InvAfter(s, schedule, m, Ids(s.rest), Recipes(s.rest));
    ShapedAfter(After(s, schedule, m), Ids(s.rest), Recipes(s.rest));
    hide Inv, Init, Fair, Measure;
    FinishedBefore(After(s, schedule, m), |After(s, schedule, m).stages|, Ids(s.rest), Recipes(s.rest));
  }

  /** One turn for everybody in turn. */
  function RoundRobin(stages: nat): Schedule {
    n => var k := n % (stages + 2); if k == 0
        then StepChunker else if k <= stages then StepStage(k - 1, []) else StepSender
  }

  /** There are fair schedules. */
  lemma RoundRobinFair(stages: nat)
    ensures Fair(RoundRobin(stages), stages)
  {
    var schedule := RoundRobin(stages);
    forall actor: Actor, n: nat | actor.TheStage? ==> actor.i < stages
      ensures Comes(schedule, actor, n)
    {
      var k := match actor case TheChunker => 0 case TheStage(i) => i + 1 case TheSender => stages + 1;
      var m := n * (stages + 2) + k;
      ModUnique(m, stages + 2, n, k);
      MulMono(1, stages + 2, n);
      assert n <= m && HasTurn(schedule, actor, m);
    }
  }
}
