/**
  Which chunks are uploaded: those the server required when a marking stage asked for its batch, and no others.  And how
  they go: in full batches, but for the last one.
 */
module Marks {
  import opened Basics
  import opened Pipeline

  /** Entry k of a marked batch is as it was, but that a chunk the server requires is marked. */
  lemma {:induction false} MarkAt(batch: seq<Item>, required: seq<bool>, k: nat)
    requires k < |batch|
    ensures Mark(batch, required)[k] ==
            if batch[k].Chunk? && k < |required| && required[k] then Chunk(batch[k].id, true) else batch[k]
    decreases |batch|
  {
    if k > 0 {
      MarkAt(batch[1..], if required == [] then [] else required[1..], k - 1);
    }
  }

  /** The server requires chunk c, entry k of the batch it is asked for. */
  predicate RequiredAt(batch: seq<Item>, required: seq<bool>, c: nat, k: nat) {
    k < |batch| && k < |required| && required[k] && batch[k].Chunk? && batch[k].id == c
  }

  /** With this step a stage asks the server for its batch, and is answered that chunk c is required. */
  ghost predicate Requires(s: State, a: Action, c: nat) {
    && a.StepStage? && a.i < |s.stages|
    && var g := s.stages[a.i];
    && g.pc == Check && g.marking && (|g.batch| == g.limit || g.job)
    && exists k: nat :: RequiredAt(g.batch, a.required, c, k)
  }

  /** In some step of the run a stage is answered so. */
  ghost predicate RequiredIn(s: State, run: seq<Action>, c: nat)
    requires Legal(s, run)
    decreases |run|
  {
    run != [] && (Requires(s, run[0], c) || RequiredIn(Apply(s, run[0]), run[1..], c))
  }

  /** A marked chunk c is with the stage, or in one of the queues around it. */
  predicate AtStage(g: Stage, input: Queue, output: Queue, c: nat) {
    Chunk(c, true) in Held(g) || Chunk(c, true) in input.items || Chunk(c, true) in output.items
  }

  predicate InQueues(s: State, c: nat) {
    exists j | 0 <= j < |s.queues| :: Chunk(c, true) in s.queues[j].items
  }

  predicate InStages(s: State, c: nat) {
    exists i | 0 <= i < |s.stages| :: Chunk(c, true) in Held(s.stages[i])
  }

  /** A marked chunk c is somewhere. */
  predicate IsMarked(s: State, c: nat) {
    Chunk(c, true) in s.rest || InQueues(s, c) || InStages(s, c) || Chunk(c, true) in s.sender.list
  }

  lemma InMarked(batch: seq<Item>, required: seq<bool>, c: nat)
    ensures Chunk(c, true) in Mark(batch, required) <==>
            Chunk(c, true) in batch || exists k: nat :: RequiredAt(batch, required, c, k)
  {
    var r := Mark(batch, required);
    hide Mark;
    forall k: nat | k < |batch|
      ensures r[k] == if batch[k].Chunk? && k < |required| && required[k] then Chunk(batch[k].id, true) else batch[k]
    {
      MarkAt(batch, required, k);
    }
    if Chunk(c, true) in batch {
      var k: nat :| k < |batch| && batch[k] == Chunk(c, true);
      assert r[k] == Chunk(c, true);
    }
    if k: nat :| RequiredAt(batch, required, c, k) {
      assert r[k] == Chunk(c, true);
    }
    if Chunk(c, true) in r {
      var k: nat :| k < |r| && r[k] == Chunk(c, true);
      assert batch[k] == Chunk(c, true) || RequiredAt(batch, required, c, k);
    }
  }

  lemma HeldAtFlush(g: Stage, c: nat)
    requires g.pc.Flush? && g.pc.next < |g.batch|
    ensures Chunk(c, true) in g.batch[g.pc.next..] <==>
            g.batch[g.pc.next] == Chunk(c, true) || Chunk(c, true) in g.batch[g.pc.next + 1..]
  {
    assert g.batch[g.pc.next..] == [g.batch[g.pc.next]] + g.batch[g.pc.next + 1..];
  }

  lemma FirstOf(items: seq<Item>, c: nat)
    requires items != []
    ensures Chunk(c, true) in items <==> items[0] == Chunk(c, true) || Chunk(c, true) in items[1..]
  {
    assert items == [items[0]] + items[1..];
  }

  /** A stage's step moves marked chunks about, and marks those it is told to. */
  lemma StageMarks(g: Stage, input: Queue, output: Queue, required: seq<bool>, c: nat)
    requires StageOk(g, input, output)
    ensures var r := StageStep(g, input, output, required);
      AtStage(r.0, r.1, r.2, c) <==>
      AtStage(g, input, output, c) ||
      (g.pc == Check && g.marking && (|g.batch| == g.limit || g.job)
       && exists k: nat :: RequiredAt(g.batch, required, c, k))
  {
    hide RequiredAt, Mark;
    match g.pc
    case Check =>
      InMarked(g.batch, required, c);
      assert Mark(g.batch, required)[0..] == Mark(g.batch, required) && g.batch[0..] == g.batch;
    case Flush(k) =>
      if k < |g.batch| {
        HeldAtFlush(g, c);
      }
    case Pop =>
      if input.items != [] {
        FirstOf(input.items, c);
      }
    case _ =>
  }

  // ---------------------------------------------------------------------------
  // The whole chain
  // ---------------------------------------------------------------------------

  /** A marked chunk c is in a queue from the given set. */
  predicate InQueue(s: State, j: nat, c: nat) {
    j < |s.queues| && Chunk(c, true) in s.queues[j].items
  }

  predicate InStage(s: State, i: nat, c: nat) {
    i < |s.stages| && Chunk(c, true) in Held(s.stages[i])
  }

  /** Somewhere else than with stage i or in the queues around it. */
  ghost predicate AwayFromStage(s: State, i: nat, c: nat) {
    || Chunk(c, true) in s.rest || Chunk(c, true) in s.sender.list
    || (exists j: nat :: j != i && j != i + 1 && InQueue(s, j, c))
    || (exists k: nat :: k != i && InStage(s, k, c))
  }

  lemma MarkedParts(s: State, c: nat)
    ensures InQueues(s, c) <==> exists j: nat :: InQueue(s, j, c)
    ensures InStages(s, c) <==> exists k: nat :: InStage(s, k, c)
  {
    hide Held;
    if InQueues(s, c) {
      var j :| 0 <= j < |s.queues| && Chunk(c, true) in s.queues[j].items;
      assert InQueue(s, j, c);
    }
    if InStages(s, c) {
      var k :| 0 <= k < |s.stages| && Chunk(c, true) in Held(s.stages[k]);
      assert InStage(s, k, c);
    }
  }

  lemma AroundStage(s: State, i: nat, c: nat)
    requires Shaped(s) && i < |s.stages|
    ensures IsMarked(s, c) <==> AtStage(s.stages[i], s.queues[i], s.queues[i + 1], c) || AwayFromStage(s, i, c)
  {
    MarkedParts(s, c);
    hide Held, InQueues, InStages;
    assert InQueue(s, i, c) <==> Chunk(c, true) in s.queues[i].items;
    assert InQueue(s, i + 1, c) <==> Chunk(c, true) in s.queues[i + 1].items;
    assert InStage(s, i, c) <==> Chunk(c, true) in Held(s.stages[i]);
  }

  lemma AwayStays(s: State, i: nat, required: seq<bool>, c: nat)
    requires Enabled(s, StepStage(i, required))
    ensures AwayFromStage(Apply(s, StepStage(i, required)), i, c) <==> AwayFromStage(s, i, c)
  {
    var s' := Apply(s, StepStage(i, required));
    hide Held, StageStep;
    assert forall j: nat | j != i && j != i + 1 :: InQueue(s', j, c) <==> InQueue(s, j, c);
    assert forall k: nat | k != i :: InStage(s', k, c) <==> InStage(s, k, c);
    hide InQueue, InStage;
  }

  lemma StageStepMarks(s: State, i: nat, required: seq<bool>, c: nat)
    requires Enabled(s, StepStage(i, required)) && StageOk(s.stages[i], s.queues[i], s.queues[i + 1])
    ensures var a := StepStage(i, required); IsMarked(Apply(s, a), c) <==> IsMarked(s, c) || Requires(s, a, c)
  {
    var s' := Apply(s, StepStage(i, required));
    var r := StageStep(s.stages[i], s.queues[i], s.queues[i + 1], required);
    assert Shaped(s') && s'.stages[i] == r.0 && s'.queues[i] == r.1 && s'.queues[i + 1] == r.2;
    hide StageStep, StageOk, IsMarked, AwayFromStage, AtStage, RequiredAt;
    StageMarks(s.stages[i], s.queues[i], s.queues[i + 1], required, c);
    AroundStage(s, i, c);
    AroundStage(s', i, c);
    AwayStays(s, i, required, c);
  }

  /** The queues and stages but queue j are the same. */
  lemma OneQueueMoves(s: State, s': State, j: nat, c: nat)
    requires |s'.queues| == |s.queues| && s'.stages == s.stages
    requires forall k: nat | k < |s.queues| && k != j :: s'.queues[k] == s.queues[k]
    ensures InStages(s', c) <==> InStages(s, c)
    ensures InQueues(s, c) <==> InQueue(s, j, c) || exists k: nat :: k != j && InQueue(s, k, c)
    ensures InQueues(s', c) <==> InQueue(s', j, c) || exists k: nat :: k != j && InQueue(s, k, c)
  {
    MarkedParts(s, c);
    MarkedParts(s', c);
    hide Held, InQueues, InStages;
    assert forall k: nat | k != j :: InQueue(s', k, c) <==> InQueue(s, k, c);
    assert forall k: nat :: InStage(s', k, c) <==> InStage(s, k, c);
  }

  lemma ChunkerStepMarks(s: State, c: nat)
    requires Enabled(s, StepChunker)
    ensures IsMarked(Apply(s, StepChunker), c) <==> IsMarked(s, c)
  {
    var s' := Apply(s, StepChunker);
    OneQueueMoves(s, s', 0, c);
    if s.rest != [] {
      FirstOf(s.rest, c);
    }
    hide InStages, InQueues;
  }

  lemma SenderStepMarks(s: State, c: nat)
    requires Enabled(s, StepSender)
    ensures IsMarked(Apply(s, StepSender), c) <==> IsMarked(s, c)
  {
    var n := |s.stages|;
    var s' := Apply(s, StepSender);
    OneQueueMoves(s, s', n, c);
    if s.queues[n].items != [] {
      FirstOf(s.queues[n].items, c);
    }
    hide InStages, InQueues;
  }

  lemma StepMarks(s: State, a: Action, ids: seq<nat>, recipes: nat, c: nat)
    requires Inv(s, ids, recipes) && Enabled(s, a)
    ensures IsMarked(Apply(s, a), c) <==> IsMarked(s, c) || Requires(s, a, c)
  {
    match a
    case StepChunker =>
      ChunkerStepMarks(s, c);
      hide Inv, Apply, IsMarked;
    case StepSender =>
      SenderStepMarks(s, c);
      hide Inv, Apply, IsMarked;
    case StepStage(i, required) =>
      assert StageOk(s.stages[i], s.queues[i], s.queues[i + 1]);
      hide Inv, Apply, IsMarked, StageOk, Requires;
      StageStepMarks(s, i, required, c);
  }

  lemma {:induction false} RunMarks(s: State, run: seq<Action>, ids: seq<nat>, recipes: nat, c: nat)
    requires Inv(s, ids, recipes) && Legal(s, run)
    ensures IsMarked(Final(s, run), c) <==> IsMarked(s, c) || RequiredIn(s, run, c)
    decreases |run|
  {
    hide Inv, Apply, IsMarked, Requires, Enabled;
    if run != [] {
      StepMarks(s, run[0], ids, recipes, c);
      StepKeepsInv(s, run[0], ids, recipes);
      RunMarks(Apply(s, run[0]), run[1..], ids, recipes, c);
    }
  }

  lemma {:induction false} InUploads(items: seq<Item>, c: nat)
    ensures c in Uploads(items) <==> Chunk(c, true) in items
    decreases |items|
  {
    if items != [] {
      FirstOf(items, c);
      InUploads(items[1..], c);
    }
  }

  lemma {:induction false} NoIds(items: seq<Item>, c: nat)
    requires Ids(items) == []
    ensures Chunk(c, true) !in items
    decreases |items|
  {
    if items != [] {
      FirstOf(items, c);
      NoIds(items[1..], c);
    }
  }

  lemma EmptyParts(s: State, j: nat)
    requires Shaped(s) && j < |s.queues| && UpIds(s, j) == []
    ensures Ids(s.queues[j].items) == [] && (j == 0 ==> Ids(s.rest) == [])
    ensures j > 0 ==> Ids(Held(s.stages[j - 1])) == [] && UpIds(s, j - 1) == []
  {
    assert |UpIds(s, j)| == 0;
    hide Ids, Held;
  }

  lemma {:induction false} NoneUp(s: State, j: nat, c: nat)
    requires Shaped(s) && j < |s.queues| && UpIds(s, j) == []
    ensures Chunk(c, true) !in s.rest
    ensures forall k: nat | k <= j :: !InQueue(s, k, c)
    ensures forall k: nat | k < j :: !InStage(s, k, c)
    decreases j
  {
    hide Held, Ids, UpIds;
    EmptyParts(s, j);
    NoIds(s.queues[j].items, c);
    if j == 0 {
      NoIds(s.rest, c);
    } else {
      NoIds(Held(s.stages[j - 1]), c);
      NoneUp(s, j - 1, c);
    }
  }

  /** When the sender has finished, the chunks it sent are exactly those the server required, if none came marked. */
  lemma SentAreRequired(s: State, run: seq<Action>, n: nat, c: nat)
    requires Init(s) && Legal(s, run) && Ids(s.rest) == Numbers(n) && Chunk(c, true) !in s.rest
    ensures var t := Final(s, run);
      t.sender.pc == SenderFinished ==> (c in t.sender.sent <==> RequiredIn(s, run, c))
  {
    var t := Final(s, run);
    InitInv(s);
    RunKeepsInv(s, run, Ids(s.rest), Recipes(s.rest));
    RunMarks(s, run, Ids(s.rest), Recipes(s.rest), c);
    NotMarkedYet(s, c);
    FinishedInOrder(s, run, n);
    InUploads(t.sender.list, c);
    if t.sender.pc == SenderFinished {
      NothingElse(s, t, n);
      NoneUp(t, |t.stages|, c);
      MarkedParts(t, c);
    }
    hide Inv, Init, Legal, InQueues, InStages, InQueue, InStage;
  }

  lemma NotMarkedYet(s: State, c: nat)
    requires Init(s) && Chunk(c, true) !in s.rest
    ensures !IsMarked(s, c)
  {
  }

  /** All chunks are in the recipe list. */
  lemma NothingElse(s: State, t: State, n: nat)
    requires Inv(t, Numbers(n), Recipes(s.rest)) && |t.sender.list| == n
    requires forall i | 0 <= i < n :: t.sender.list[i].Chunk?
    ensures UpIds(t, |t.stages|) == []
  {
    ChunkIds(t.sender.list);
    hide Ids, UpIds;
    assert |Numbers(n)| == n;
    assert |Ids(t.sender.list) + UpIds(t, |t.stages|)| == n;
  }

  // ---------------------------------------------------------------------------
  // Full batches
  // ---------------------------------------------------------------------------

  /** A stage forwards a full batch, or its last one. */
  predicate StageFull(g: Stage) {
    g.pc.Flush? ==> |g.batch| == g.limit || g.job
  }

  /** What the sender has sent is a number of full batches, as long as it has not finished, and the next one is no
      larger than a full one. */
  predicate SenderFull(n: Sender) {
    && 0 < n.limit && (n.pc != SenderFinished ==> |n.sent| % n.limit == 0)
    && |n.batch| <= n.limit && (n.pc != SenderCheck && n.pc != SenderFinished ==> |n.batch| < n.limit)
  }

  ghost predicate AllFull(s: State) {
    Shaped(s) && (forall i | 0 <= i < |s.stages| :: StageFull(s.stages[i])) && SenderFull(s.sender)
  }

  lemma StageFills(g: Stage, input: Queue, output: Queue, required: seq<bool>)
    requires StageFull(g)
    ensures StageFull(StageStep(g, input, output, required).0)
  {
    hide Mark;
  }

  lemma FullMore(a: nat, n: nat)
    requires 0 < n && a % n == 0
    ensures (a + n) % n == 0
  {
    ModAdd(a, n, n);
  }

  lemma SenderFills(n: Sender, input: Queue)
    requires SenderFull(n) && n.pc != SenderFinished
    ensures SenderFull(SenderStep(n, input).0)
  {
    if |n.batch| == n.limit {
      FullMore(|n.sent|, n.limit);
    }
  }

  lemma StepFull(s: State, a: Action)
    requires AllFull(s) && Enabled(s, a)
    ensures AllFull(Apply(s, a))
  {
    match a
    case StepChunker =>
    case StepSender =>
      SenderFills(s.sender, s.queues[|s.stages|]);
      hide SenderStep, SenderFull;
    case StepStage(i, required) =>
      StageFills(s.stages[i], s.queues[i], s.queues[i + 1], required);
      hide StageStep, StageFull;
  }

  lemma {:induction false} RunFull(s: State, run: seq<Action>)
    requires AllFull(s) && Legal(s, run)
    ensures AllFull(Final(s, run))
    decreases |run|
  {
    hide AllFull, Apply, Enabled;
    if run != [] {
      StepFull(s, run[0]);
      RunFull(Apply(s, run[0]), run[1..]);
    }
  }

  /** Every stage forwards batches of its limit, and the sender sends such, but for the last batch of each. */
  lemma FullBatches(s: State, run: seq<Action>)
    requires Init(s) && Legal(s, run)
    ensures AllFull(Final(s, run))
  {
    assert AllFull(s);
    RunFull(s, run);
  }
}
