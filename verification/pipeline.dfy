/**
  The upload pipeline: the chunker feeds a chain of stages through bounded queues with done
  flags, and the sender at the end collects the recipe list and sends the chunks to upload.

  The chain has any number of stages; the program's are the fingerprinter (batches of one),
  the key client and the proof-of-ownership client, which also marks chunks for upload.  Steps of
  the threads interleave in any order; no operation fails.
 */
module Pipeline {

  /** Slots of a message queue. */
  const CAPACITY: nat := 5000

  datatype Item = Chunk(id: nat, upload: bool) | Recipe

  datatype Queue = Queue(items: seq<Item>, done: bool)

  /** Where a stage's loop is; Flush(next) has pushed the batch up to next. */
  datatype StagePC = Poll | SeeEmpty | Pop | PushRecipe | Check | Flush(next: nat) | SetDone | Finished

  /** limit is the batch size; a marking stage sets the upload marks of its batch from the server's answer. */
  datatype Stage = Stage(limit: nat, marking: bool, pc: StagePC, job: bool, batch: seq<Item>)

  datatype SenderPC = SenderPoll | SenderSeeEmpty | SenderPop | SenderCheck | SenderFinished

  /** list is the recipe list, sent the chunks sent so far, batch those packed for the next send. */
  datatype Sender = Sender(limit: nat, pc: SenderPC, job: bool, batch: seq<nat>, sent: seq<nat>, list: seq<Item>,
      recipes: nat)

  /** Stage i takes from queue i and puts to queue i + 1; rest is what the chunker has yet to put to queue 0. */
  datatype State = State(rest: seq<Item>, queues: seq<Queue>, stages: seq<Stage>, sender: Sender)

  /** A step of the chunker, of one stage, or of the sender; required is what a marking stage looks at of
      the server's answer. */
  datatype Action = StepChunker | StepStage(i: nat, required: seq<bool>) | StepSender

  predicate Shaped(s: State) {
    |s.queues| == |s.stages| + 1
  }

  predicate Enabled(s: State, a: Action) {
    Shaped(s) &&
    match a
    case StepChunker => !s.queues[0].done
    case StepStage(i, required) => i < |s.stages| && s.stages[i].pc != Finished
    case StepSender => s.sender.pc != SenderFinished
  }

  /** A push spins while the queue is full. */
  function Push(q: Queue, x: Item): Queue {
    if |q.items| < CAPACITY then q.(items := q.items + [x]) else q
  }

  /** The marks of a batch: chunks the server requires are marked for upload. */
  function Mark(batch: seq<Item>, required: seq<bool>): (r: seq<Item>)
    ensures |r| == |batch|
  {
    if batch == [] then []
    else
      var x := batch[0];
      var need := required != [] && required[0];
      [if x.Chunk? && need then x.(upload := true) else x]
          + Mark(batch[1..], if required == [] then [] else required[1..])
  }

  function Apply(s: State, a: Action): State
    requires Enabled(s, a)
  {
    match a
    case StepChunker =>
      if s.rest == [] then s.(queues := s.queues[0 := s.queues[0].(done := true)])
      else if |s.queues[0].items| < CAPACITY then
        s.(rest := s.rest[1..], queues := s.queues[0 := Push(s.queues[0], s.rest[0])])
      else s
    case StepStage(i, required) =>
      var r := StageStep(s.stages[i], s.queues[i], s.queues[i + 1], required);
      s.(stages := s.stages[i := r.0], queues := s.queues[i := r.1][i + 1 := r.2])
    case StepSender =>
      var r := SenderStep(s.sender, s.queues[|s.stages|]);
      s.(sender := r.0, queues := s.queues[|s.stages| := r.1])
  }

  /** One step of a stage between its input and its output queue. */
  function StageStep(g: Stage, input: Queue, output: Queue, required: seq<bool>): (Stage, Queue, Queue) {
    match g.pc
    case Poll => (g.(pc := if input.done then SeeEmpty else Pop), input, output)
    case SeeEmpty => (g.(pc := Pop, job := g.job || input.items == []), input, output)
    case Pop =>
      if input.items == [] then (g.(pc := Check), input, output)
      else
        var x := input.items[0];
        var input' := input.(items := input.items[1..]);
        if x.Recipe? then (g.(pc := PushRecipe), input', output)
        else (g.(pc := Check, batch := g.batch + [x]), input', output)
    case PushRecipe =>
      if |output.items| < CAPACITY then (g.(pc := Poll), input, Push(output, Recipe)) else (g, input, output)
    case Check =>
      if |g.batch| == g.limit || g.job then
        (g.(pc := Flush(0), batch := if g.marking then Mark(g.batch, required) else g.batch), input, output)
      else (g.(pc := Poll), input, output)
    case Flush(k) =>
      if k >= |g.batch| then (g.(pc := if g.job then SetDone else Poll, batch := []), input, output)
      else if |output.items| < CAPACITY then (g.(pc := Flush(k + 1)), input, Push(output, g.batch[k]))
      else (g, input, output)
    case SetDone => (g.(pc := Finished), input, output.(done := true))
    case Finished => (g, input, output)
  }

  function SenderStep(n: Sender, input: Queue): (Sender, Queue) {
    match n.pc
    case SenderPoll => (n.(pc := if input.done then SenderSeeEmpty else SenderPop), input)
    case SenderSeeEmpty => (n.(pc := SenderPop, job := n.job || input.items == []), input)
    case SenderPop =>
      if input.items == [] then (n.(pc := SenderCheck), input)
      else
        var x := input.items[0];
        var input' := input.(items := input.items[1..]);
        if x.Recipe? then (n.(pc := SenderPoll, recipes := n.recipes + 1), input')
        else (n.(pc := SenderCheck, list := n.list + [x], batch := if x.upload then n.batch + [x.id] else n.batch),
            input')
    case SenderCheck =>
      var n' := if |n.batch| == n.limit || n.job then n.(sent := n.sent + n.batch, batch := []) else n;
      (n'.(pc := if n.job then SenderFinished else SenderPoll), input)
    case SenderFinished => (n, input)
  }

  // ---------------------------------------------------------------------------
  // What is where
  // ---------------------------------------------------------------------------

  /** The ids of the chunks among items, in order. */
  function Ids(items: seq<Item>): seq<nat> {
    if items == [] then []
    else (if items[0].Chunk? then [items[0].id] else []) + Ids(items[1..])
  }

  function Recipes(items: seq<Item>): nat {
    if items == [] then 0 else (if items[0].Recipe? then 1 else 0) + Recipes(items[1..])
  }

  /** The ids of the chunks marked for upload. */
  function Uploads(items: seq<Item>): seq<nat> {
    if items == [] then []
    else (if items[0].Chunk? && items[0].upload then [items[0].id] else []) + Uploads(items[1..])
  }

  /** What a stage has popped and not pushed on. */
  function Held(g: Stage): seq<Item> {
    (if g.pc.Flush? && g.pc.next <= |g.batch| then g.batch[g.pc.next..] else g.batch) +
    (if g.pc.PushRecipe? then [Recipe] else [])
  }

  /** The ids of the chunks in queue j and before it, the first to come first. */
  function UpIds(s: State, j: nat): seq<nat>
    requires Shaped(s) && j < |s.queues|
    decreases j
  {
    Ids(s.queues[j].items) + (if j == 0 then Ids(s.rest) else Ids(Held(s.stages[j - 1])) + UpIds(s, j - 1))
  }

  /** The number of recipes there. */
  function UpRecipes(s: State, j: nat): nat
    requires Shaped(s) && j < |s.queues|
    decreases j
  {
    Recipes(s.queues[j].items) + (if j == 0 then Recipes(s.rest)
        else Recipes(Held(s.stages[j - 1])) + UpRecipes(s, j - 1))
  }

  /** The chunks are numbered from 0 in the order the chunker makes them. */
  function Numbers(n: nat): seq<nat> {
    seq(n, i => i)
  }

  ghost predicate Init(s: State) {
    && Shaped(s)
    && (forall j | 0 <= j < |s.queues| :: s.queues[j] == Queue([], false))
    && (forall i | 0 <= i < |s.stages| :: s.stages[i] == Stage(s.stages[i].limit, s.stages[i].marking, Poll, false, [])
         && 0 < s.stages[i].limit)
    && s.sender == Sender(s.sender.limit, SenderPoll, false, [], [], [], 0) && 0 < s.sender.limit
  }

  ghost predicate Legal(s: State, run: seq<Action>)
    decreases |run|
  {
    run == [] || (Enabled(s, run[0]) && Legal(Apply(s, run[0]), run[1..]))
  }

  ghost function Final(s: State, run: seq<Action>): State
    requires Legal(s, run)
    decreases |run|
  {
    if run == [] then s else Final(Apply(s, run[0]), run[1..])
  }

  // ---------------------------------------------------------------------------
  // The invariant
  // ---------------------------------------------------------------------------

  /** A stage has seen its input done and empty before it says so; a done output means it is finished and
      empty-handed. */
  ghost predicate StageOk(g: Stage, input: Queue, output: Queue) {
    && (g.pc.SeeEmpty? ==> input.done)
    && (g.job ==> input.done && input.items == [])
    && (output.done <==> g.pc == Finished)
    && (g.pc == SetDone || g.pc == Finished ==> g.job && g.batch == [])
    && (g.pc.Flush? ==> g.pc.next <= |g.batch|)
    && (g.pc == Poll || g.pc == SeeEmpty || g.pc == PushRecipe ==> !g.job)
    && (g.pc == Poll || g.pc == SeeEmpty || g.pc == PushRecipe || g.pc == Pop ==> |g.batch| < g.limit)
    && (g.pc == Check ==> |g.batch| <= g.limit)
    && 0 < g.limit
    && (forall k | 0 <= k < |g.batch| :: g.batch[k].Chunk?)
  }

  ghost predicate SenderOk(n: Sender, input: Queue) {
    && (n.pc.SenderSeeEmpty? ==> input.done)
    && (n.job ==> input.done && input.items == [])
    && (n.pc == SenderPoll || n.pc == SenderSeeEmpty ==> !n.job)
    && (n.pc == SenderFinished ==> n.job && n.batch == [])
    && n.sent + n.batch == Uploads(n.list)
    && (forall k | 0 <= k < |n.list| :: n.list[k].Chunk?)
  }

  ghost predicate Inv(s: State, ids: seq<nat>, recipes: nat) {
    && Shaped(s)
    && (forall j | 0 <= j < |s.queues| :: |s.queues[j].items| <= CAPACITY)
    && (forall i | 0 <= i < |s.stages| :: StageOk(s.stages[i], s.queues[i], s.queues[i + 1]))
    && SenderOk(s.sender, s.queues[|s.stages|])
    && (s.queues[0].done ==> s.rest == [])
    && Ids(s.sender.list) + UpIds(s, |s.stages|) == ids
    && s.sender.recipes + UpRecipes(s, |s.stages|) == recipes
  }

  lemma {:induction false} IdsAppend(a: seq<Item>, b: seq<Item>)
    ensures Ids(a + b) == Ids(a) + Ids(b)
    ensures Recipes(a + b) == Recipes(a) + Recipes(b)
    decreases |a|
  {
    if a == [] {
      assert a + b == b;
    } else {
      IdsAppend(a[1..], b);
      assert (a + b)[1..] == a[1..] + b;
      Associate(if a[0].Chunk? then [a[0].id] else [], Ids(a[1..]), Ids(b));
    }
  }

  lemma {:induction false} UploadsAppend(a: seq<Item>, b: seq<Item>)
    ensures Uploads(a + b) == Uploads(a) + Uploads(b)
    decreases |a|
  {
    if a == [] {
      assert a + b == b;
    } else {
      UploadsAppend(a[1..], b);
      assert (a + b)[1..] == a[1..] + b;
      Associate(if a[0].Chunk? && a[0].upload then [a[0].id] else [], Uploads(a[1..]), Uploads(b));
    }
  }

  lemma {:induction false} MarkKeeps(batch: seq<Item>, required: seq<bool>)
    ensures Ids(Mark(batch, required)) == Ids(batch) && Recipes(Mark(batch, required)) == Recipes(batch)
    ensures forall k | 0 <= k < |batch| :: Mark(batch, required)[k].Chunk? == batch[k].Chunk?
  {
    if batch != [] {
      MarkKeeps(batch[1..], if required == [] then [] else required[1..]);
    }
  }

  // ---------------------------------------------------------------------------
  // Each thread keeps the flow
  // ---------------------------------------------------------------------------

  /** What flows through a stage: its output queue, what it holds, its input queue. */
  function Through(g: Stage, input: Queue, output: Queue): seq<nat> {
    Ids(output.items) + Ids(Held(g)) + Ids(input.items)
  }

  function RecipesThrough(g: Stage, input: Queue, output: Queue): nat {
    Recipes(output.items) + Recipes(Held(g)) + Recipes(input.items)
  }

  /** What a stage holds, by where it is. */
  lemma HeldIs(g: Stage)
    ensures !g.pc.Flush? && g.pc != PushRecipe ==> Held(g) == g.batch
    ensures g.pc == PushRecipe ==> Held(g) == g.batch + [Recipe]
    ensures g.pc.Flush? && g.pc.next <= |g.batch| ==> Held(g) == g.batch[g.pc.next..]
  {
  }

  /** No step of a stage loses, repeats or reorders chunks, or loses a recipe. */
  lemma StageKeepsFlow(g: Stage, input: Queue, output: Queue, required: seq<bool>)
    requires StageOk(g, input, output)
    ensures var r := StageStep(g, input, output, required);
      Through(r.0, r.1, r.2) == Through(g, input, output)
          && RecipesThrough(r.0, r.1, r.2) == RecipesThrough(g, input, output)
  {
    HeldIs(g);
    HeldIs(StageStep(g, input, output, required).0);
    hide Held, Ids, Recipes, Mark;
    match g.pc
    case Pop =>
      if input.items != [] {
        PopFlow(g, input);
        Associate(Ids(output.items), Ids(g.batch), Ids(input.items));
        Associate(Ids(output.items), Ids(g.batch + [input.items[0]]), Ids(input.items[1..]));
      }
    case PushRecipe =>
      IdsAppend(output.items, [Recipe]);
      IdsAppend(g.batch, [Recipe]);
      OneRecipe();
      assert Ids(output.items) + [] == Ids(output.items) && Ids(g.batch) + [] == Ids(g.batch);
    case Check =>
      CheckFlow(g, input, output, required);
    case Flush(k) =>
      if k < |g.batch| {
        FlushFlow(g.batch, k, output.items);
      } else {
        assert g.batch[k..] == [];
      }
    case _ =>
  }

  lemma Associate(a: seq<nat>, b: seq<nat>, c: seq<nat>)
    ensures (a + b) + c == a + (b + c)
  {
  }

  lemma OneRecipe()
    ensures Ids([Recipe]) == [] && Recipes([Recipe]) == 1
  {
  }

  lemma CheckFlow(g: Stage, input: Queue, output: Queue, required: seq<bool>)
    requires g.pc == Check
    ensures var r := StageStep(g, input, output, required);
      Through(r.0, r.1, r.2) == Through(g, input, output)
          && RecipesThrough(r.0, r.1, r.2) == RecipesThrough(g, input, output)
  {
    var r := StageStep(g, input, output, required).0;
    HeldIs(g);
    HeldIs(r);
    MarkKeeps(g.batch, required);
    assert r.batch[0..] == r.batch;
    hide Ids, Recipes, Mark, Held;
  }

  lemma PopFlow(g: Stage, input: Queue)
    requires g.pc == Pop && input.items != []
    ensures var x := input.items[0];
      && Ids(g.batch) + Ids(input.items) == Ids(g.batch + [x]) + Ids(input.items[1..])
      && Recipes(g.batch) + Recipes(input.items) == Recipes(g.batch + [x]) + Recipes(input.items[1..])
  {
    var x := input.items[0];
    assert input.items == [x] + input.items[1..];
    IdsAppend([x], input.items[1..]);
    IdsAppend(g.batch, [x]);
  }

  lemma FlushFlow(batch: seq<Item>, k: nat, out: seq<Item>)
    requires k < |batch|
    ensures Ids(out + [batch[k]]) + Ids(batch[k + 1..]) == Ids(out) + Ids(batch[k..])
    ensures Recipes(out + [batch[k]]) + Recipes(batch[k + 1..]) == Recipes(out) + Recipes(batch[k..])
  {
    assert batch[k..] == [batch[k]] + batch[k + 1..];
    IdsAppend([batch[k]], batch[k + 1..]);
    IdsAppend(out, [batch[k]]);
  }

  lemma StageKeepsOk(g: Stage, input: Queue, output: Queue, required: seq<bool>)
    requires StageOk(g, input, output) && |input.items| <= CAPACITY && |output.items| <= CAPACITY
    ensures var r := StageStep(g, input, output, required);
      && StageOk(r.0, r.1, r.2) && |r.1.items| <= CAPACITY && |r.2.items| <= CAPACITY
      && r.1.done == input.done && (input.done && input.items == [] ==> r.1 == input)
      && (output.done ==> r.2 == output)
      && (r.2.done && !output.done ==> r.2.items == output.items)
  {
    if g.pc == Check {
      MarkKeeps(g.batch, required);
    }
  }

  lemma SenderKeepsOk(n: Sender, input: Queue)
    requires SenderOk(n, input) && |input.items| <= CAPACITY
    ensures var r := SenderStep(n, input);
      && SenderOk(r.0, r.1) && |r.1.items| <= CAPACITY && r.1.done == input.done
      && (input.done && input.items == [] ==> r.1 == input)
      && Ids(r.0.list) + Ids(r.1.items) == Ids(n.list) + Ids(input.items)
      && r.0.recipes + Recipes(r.1.items) == n.recipes + Recipes(input.items)
  {
    if n.pc == SenderPop && input.items != [] {
      SenderTakes(n, input);
    } else {
      hide Ids, Recipes, Uploads;
    }
  }

  lemma SenderTakes(n: Sender, input: Queue)
    requires n.pc == SenderPop && input.items != []
    ensures var x := input.items[0];
      && Ids(n.list + [x]) + Ids(input.items[1..]) == Ids(n.list) + Ids(input.items)
      && Recipes(input.items) == (if x.Recipe? then 1 else 0) + Recipes(input.items[1..])
      && (x.Recipe? ==> Ids(input.items) == Ids(input.items[1..]))
      && Uploads(n.list + [x]) == Uploads(n.list) + (if x.Chunk? && x.upload then [x.id] else [])
  {
    hide *;
    var x := input.items[0];
    IdsOfOne(x);
    IdsAppend(n.list, [x]);
    IdsOfNext(input.items);
    UploadsAppend(n.list, [x]);
    Associate(Ids(n.list), Ids([x]), Ids(input.items[1..]));
    assert x.Recipe? ==> Ids([x]) + Ids(input.items[1..]) == Ids(input.items[1..]);
  }

  lemma IdsOfNext(items: seq<Item>)
    requires items != []
    ensures Ids(items) == Ids([items[0]]) + Ids(items[1..])
    ensures Recipes(items) == Recipes([items[0]]) + Recipes(items[1..])
  {
    assert items == [items[0]] + items[1..];
    IdsAppend([items[0]], items[1..]);
  }

  lemma IdsOfOne(x: Item)
    ensures Ids([x]) == if x.Chunk? then [x.id] else []
    ensures Recipes([x]) == if x.Recipe? then 1 else 0
    ensures Uploads([x]) == if x.Chunk? && x.upload then [x.id] else []
  {
    assert [x][1..] == [];
  }

  // ---------------------------------------------------------------------------
  // The whole chain
  // ---------------------------------------------------------------------------

  /** Everything behind queue j. */
  function Behind(s: State, j: nat): seq<nat>
    requires Shaped(s) && j < |s.queues|
  {
    if j == 0 then Ids(s.rest) else Ids(Held(s.stages[j - 1])) + UpIds(s, j - 1)
  }

  function RecipesBehind(s: State, j: nat): nat
    requires Shaped(s) && j < |s.queues|
  {
    if j == 0 then Recipes(s.rest) else Recipes(Held(s.stages[j - 1])) + UpRecipes(s, j - 1)
  }

  /** The two states agree on everything up to and including queue j. */
  ghost predicate SameUpTo(s: State, s': State, j: nat) {
    && Shaped(s) && Shaped(s') && |s'.queues| == |s.queues| && j < |s.queues| && s'.rest == s.rest
    && (forall i | 0 <= i <= j :: s'.queues[i] == s.queues[i])
    && (forall i | 0 <= i < j :: s'.stages[i] == s.stages[i])
  }

  lemma {:induction false} UpSame(s: State, s': State, j: nat)
    requires SameUpTo(s, s', j)
    ensures UpIds(s', j) == UpIds(s, j) && UpRecipes(s', j) == UpRecipes(s, j)
    decreases j
  {
    if j > 0 {
      UpSame(s, s', j - 1);
    }
  }

  /** Beyond queue k nothing changes, and up to it nothing changes in sum. */
  lemma {:induction false} UpFrom(s: State, s': State, k: nat, j: nat)
    requires Shaped(s) && Shaped(s') && |s'.queues| == |s.queues| && k <= j < |s.queues|
    requires UpIds(s', k) == UpIds(s, k) && UpRecipes(s', k) == UpRecipes(s, k)
    requires forall i | k < i < |s.queues| :: s'.queues[i] == s.queues[i]
    requires forall i | k <= i < |s.stages| :: s'.stages[i] == s.stages[i]
    ensures UpIds(s', j) == UpIds(s, j) && UpRecipes(s', j) == UpRecipes(s, j)
    decreases j
  {
    if j > k {
      UpFrom(s, s', k, j - 1);
    }
  }

  /** What is upstream of a stage's output, taken apart at the stage. */
  lemma UpSplit(s: State, i: nat)
    requires Shaped(s) && i < |s.stages|
    ensures UpIds(s, i + 1) == Through(s.stages[i], s.queues[i], s.queues[i + 1]) + Behind(s, i)
    ensures UpRecipes(s, i + 1) == RecipesThrough(s.stages[i], s.queues[i], s.queues[i + 1]) + RecipesBehind(s, i)
  {
    var out, held, rest := Ids(s.queues[i + 1].items), Ids(Held(s.stages[i])), Ids(s.queues[i].items);
    Associate(held, rest, Behind(s, i));
    Associate(out, held, rest + Behind(s, i));
    Associate(out + held, rest, Behind(s, i));
    assert UpIds(s, i + 1) == out + (held + (rest + Behind(s, i)));
  }

  lemma BehindSame(s: State, s': State, i: nat)
    requires Shaped(s) && Shaped(s') && |s'.queues| == |s.queues| && i < |s.queues| && s'.rest == s.rest
    requires forall k | 0 <= k < i :: s'.queues[k] == s.queues[k] && s'.stages[k] == s.stages[k]
    ensures Behind(s', i) == Behind(s, i) && RecipesBehind(s', i) == RecipesBehind(s, i)
  {
    if i > 0 {
      UpSame(s, s', i - 1);
    }
  }

  lemma StageStepFlow(s: State, i: nat, required: seq<bool>)
    requires Enabled(s, StepStage(i, required)) && StageOk(s.stages[i], s.queues[i], s.queues[i + 1])
    ensures var s' := Apply(s, StepStage(i, required));
      Shaped(s') && UpIds(s', |s.stages|) == UpIds(s, |s.stages|)
          && UpRecipes(s', |s.stages|) == UpRecipes(s, |s.stages|)
  {
    var s' := Apply(s, StepStage(i, required));
    StageKeepsFlow(s.stages[i], s.queues[i], s.queues[i + 1], required);
    hide StageStep, Through, RecipesThrough, UpIds, UpRecipes, StageOk;
    UpSplit(s, i);
    UpSplit(s', i);
    BehindSame(s, s', i);
    UpFrom(s, s', i + 1, |s.stages|);
  }

  lemma StageStepKeepsInv(s: State, i: nat, required: seq<bool>, ids: seq<nat>, recipes: nat)
    requires Inv(s, ids, recipes) && Enabled(s, StepStage(i, required))
    ensures Inv(Apply(s, StepStage(i, required)), ids, recipes)
  {
    var n := |s.stages|;
    var s' := Apply(s, StepStage(i, required));
    var r := StageStep(s.stages[i], s.queues[i], s.queues[i + 1], required);
    StageStepFlow(s, i, required);
    StageKeepsOk(s.stages[i], s.queues[i], s.queues[i + 1], required);
    hide StageStep, UpIds, UpRecipes, SenderOk, StageOk, Ids;
    NeighboursOk(s, i, r.0, r.1, r.2);
    SenderKept(s.sender, s.queues[n], s'.queues[n]);
  }

  lemma SenderKept(n: Sender, input: Queue, input': Queue)
    requires SenderOk(n, input) && (input.done ==> input'.done)
          && (input.done && input.items == [] ==> input'.items == [])
    ensures SenderOk(n, input')
  {
  }

  /** The stages before and after a stepping stage keep what they know about the queues they share with it. */
  lemma NeighboursOk(s: State, i: nat, g: Stage, input: Queue, output: Queue)
    requires Shaped(s) && i < |s.stages|
    requires forall k | 0 <= k < |s.stages| :: StageOk(s.stages[k], s.queues[k], s.queues[k + 1])
    requires StageOk(g, input, output)
    requires input.done == s.queues[i].done && (input.done && s.queues[i].items == [] ==> input == s.queues[i])
    requires s.queues[i + 1].done ==> output == s.queues[i + 1]
    ensures var queues, stages := s.queues[i := input][i + 1 := output], s.stages[i := g];
      forall k | 0 <= k < |stages| :: StageOk(stages[k], queues[k], queues[k + 1])
  {
    var queues, stages := s.queues[i := input][i + 1 := output], s.stages[i := g];
    forall k | 0 <= k < |stages|
      ensures StageOk(stages[k], queues[k], queues[k + 1])
    {
      assert StageOk(s.stages[k], s.queues[k], s.queues[k + 1]);
    }
  }

  lemma ChunkerStepKeepsInv(s: State, ids: seq<nat>, recipes: nat)
    requires Inv(s, ids, recipes) && Enabled(s, StepChunker)
    ensures Inv(Apply(s, StepChunker), ids, recipes)
  {
    var n := |s.stages|;
    var s' := Apply(s, StepChunker);
    if s.rest != [] && |s.queues[0].items| < CAPACITY {
      var x := s.rest[0];
      assert s.rest == [x] + s.rest[1..];
      IdsAppend([x], s.rest[1..]);
      IdsAppend(s.queues[0].items, [x]);
      Associate(Ids(s.queues[0].items), Ids([x]), Ids(s.rest[1..]));
    }
    hide Ids, Recipes;
    assert UpIds(s', 0) == UpIds(s, 0) && UpRecipes(s', 0) == UpRecipes(s, 0);
    UpFrom(s, s', 0, n);
    hide UpIds, UpRecipes, StageOk, SenderOk;
    FirstOk(s, s');
    if n == 0 {
      SenderKept(s.sender, s.queues[0], s'.queues[0]);
    }
  }

  lemma FirstOk(s: State, s': State)
    requires Shaped(s) && s'.stages == s.stages && |s'.queues| == |s.queues|
    requires forall k | 0 < k < |s.queues| :: s'.queues[k] == s.queues[k]
    requires !s.queues[0].done
    requires forall k | 0 <= k < |s.stages| :: StageOk(s.stages[k], s.queues[k], s.queues[k + 1])
    ensures forall k | 0 <= k < |s.stages| :: StageOk(s'.stages[k], s'.queues[k], s'.queues[k + 1])
  {
    forall k | 0 <= k < |s.stages|
      ensures StageOk(s'.stages[k], s'.queues[k], s'.queues[k + 1])
    {
      assert StageOk(s.stages[k], s.queues[k], s.queues[k + 1]);
    }
  }

  lemma SenderStepKeepsInv(s: State, ids: seq<nat>, recipes: nat)
    requires Inv(s, ids, recipes) && Enabled(s, StepSender)
    ensures Inv(Apply(s, StepSender), ids, recipes)
  {
    var n := |s.stages|;
    var s' := Apply(s, StepSender);
    var input, input' := s.queues[n], s'.queues[n];
    SenderKeepsOk(s.sender, input);
    BehindSame(s, s', n);
    hide SenderStep, Ids, Recipes, SenderOk;
    Associate(Ids(s.sender.list), Ids(input.items), Behind(s, n));
    Associate(Ids(s'.sender.list), Ids(input'.items), Behind(s, n));
    assert UpIds(s, n) == Ids(input.items) + Behind(s, n) && UpIds(s', n) == Ids(input'.items) + Behind(s, n);
    LastOk(s, s');
  }

  lemma LastOk(s: State, s': State)
    requires Shaped(s) && s'.stages == s.stages && |s'.queues| == |s.queues|
    requires forall k | 0 <= k < |s.stages| :: s'.queues[k] == s.queues[k]
    requires s'.queues[|s.stages|].done == s.queues[|s.stages|].done
    requires forall k | 0 <= k < |s.stages| :: StageOk(s.stages[k], s.queues[k], s.queues[k + 1])
    ensures forall k | 0 <= k < |s.stages| :: StageOk(s'.stages[k], s'.queues[k], s'.queues[k + 1])
  {
    forall k | 0 <= k < |s.stages|
      ensures StageOk(s'.stages[k], s'.queues[k], s'.queues[k + 1])
    {
      assert StageOk(s.stages[k], s.queues[k], s.queues[k + 1]);
    }
  }

  lemma StepKeepsInv(s: State, a: Action, ids: seq<nat>, recipes: nat)
    requires Inv(s, ids, recipes) && Enabled(s, a)
    ensures Inv(Apply(s, a), ids, recipes)
  {
    hide Inv, Apply;
    match a
    case StepChunker => ChunkerStepKeepsInv(s, ids, recipes);
    case StepStage(i, required) => StageStepKeepsInv(s, i, required, ids, recipes);
    case StepSender => SenderStepKeepsInv(s, ids, recipes);
  }

  lemma {:induction false} InitUp(s: State, j: nat)
    requires Init(s) && j < |s.queues|
    ensures UpIds(s, j) == Ids(s.rest) && UpRecipes(s, j) == Recipes(s.rest)
    decreases j
  {
    if j > 0 {
      InitUp(s, j - 1);
      assert Held(s.stages[j - 1]) == [];
    }
  }

  lemma InitInv(s: State)
    requires Init(s)
    ensures Inv(s, Ids(s.rest), Recipes(s.rest))
  {
    InitUp(s, |s.stages|);
  }

  lemma {:induction false} RunKeepsInv(s: State, run: seq<Action>, ids: seq<nat>, recipes: nat)
    requires Inv(s, ids, recipes) && Legal(s, run)
    ensures Inv(Final(s, run), ids, recipes)
    decreases |run|
  {
    hide Inv, Apply;
    if run != [] {
      StepKeepsInv(s, run[0], ids, recipes);
      RunKeepsInv(Apply(s, run[0]), run[1..], ids, recipes);
    }
  }

  /** Chunks delivered, in queues and in batches always add up, in order, to the chunks the chunker started with; so do
      recipes. */
  lemma NothingLost(s: State, run: seq<Action>)
    requires Init(s) && Legal(s, run)
    ensures var t := Final(s, run);
      && Shaped(t)
      && Ids(t.sender.list) + UpIds(t, |t.stages|) == Ids(s.rest)
      && t.sender.recipes + UpRecipes(t, |t.stages|) == Recipes(s.rest)
  {
    InitInv(s);
    RunKeepsInv(s, run, Ids(s.rest), Recipes(s.rest));
  }

  lemma {:induction false} DoneMeansEmpty(s: State, ids: seq<nat>, recipes: nat, j: nat)
    requires Inv(s, ids, recipes) && j < |s.queues| && s.queues[j].done
    ensures Behind(s, j) == [] && RecipesBehind(s, j) == 0
    decreases j
  {
    if j > 0 {
      assert StageOk(s.stages[j - 1], s.queues[j - 1], s.queues[j]);
      assert Held(s.stages[j - 1]) == [];
      DoneMeansEmpty(s, ids, recipes, j - 1);
      assert UpIds(s, j - 1) == Ids(s.queues[j - 1].items) + Behind(s, j - 1);
    }
  }

  /** A done flag is set only when everything has been forwarded: nothing is left behind the queue it marks. */
  lemma DoneAfterForwarding(s: State, run: seq<Action>, j: nat)
    requires Init(s) && Legal(s, run)
    ensures var t := Final(s, run);
      Shaped(t) && (j < |t.queues| && t.queues[j].done ==> Behind(t, j) == [] && RecipesBehind(t, j) == 0)
  {
    InitInv(s);
    RunKeepsInv(s, run, Ids(s.rest), Recipes(s.rest));
    var t := Final(s, run);
    if j < |t.queues| && t.queues[j].done {
      DoneMeansEmpty(t, Ids(s.rest), Recipes(s.rest), j);
    }
  }

  /** When the sender has finished its recipe list is the chunks 0, 1, 2, ... in order, every recipe has arrived, and
      the
      chunks sent are those of the list that are marked for upload, in order. */
  lemma FinishedInOrder(s: State, run: seq<Action>, n: nat)
    requires Init(s) && Legal(s, run) && Ids(s.rest) == Numbers(n)
    ensures var t := Final(s, run);
      t.sender.pc == SenderFinished ==>
        && |t.sender.list| == n && (forall i | 0 <= i < n :: t.sender.list[i].Chunk? && t.sender.list[i].id == i)
        && t.sender.recipes == Recipes(s.rest)
        && t.sender.sent == Uploads(t.sender.list)
  {
    InitInv(s);
    RunKeepsInv(s, run, Ids(s.rest), Recipes(s.rest));
    var t := Final(s, run);
    if t.sender.pc == SenderFinished {
      DoneMeansEmpty(t, Ids(s.rest), Recipes(s.rest), |t.stages|);
      assert UpIds(t, |t.stages|) == Ids(t.queues[|t.stages|].items) + Behind(t, |t.stages|);
      assert Ids(t.sender.list) == Numbers(n);
      ChunkIds(t.sender.list);
      forall i | 0 <= i < n
        ensures t.sender.list[i].id == i
      {
        assert Ids(t.sender.list)[i] == i;
      }
    }
  }

  lemma {:induction false} ChunkIds(items: seq<Item>)
    requires forall k | 0 <= k < |items| :: items[k].Chunk?
    ensures |Ids(items)| == |items| && forall k | 0 <= k < |items| :: Ids(items)[k] == items[k].id
  {
    if items != [] {
      ChunkIds(items[1..]);
    }
  }

  // ---------------------------------------------------------------------------
  // Progress
  // ---------------------------------------------------------------------------

  /** The number of items in queue j and before it. */
  function Count(s: State, j: nat): nat
    requires Shaped(s) && j < |s.queues|
    decreases j
  {
    |s.queues[j].items| + (if j == 0 then |s.rest| else |Held(s.stages[j - 1])| + Count(s, j - 1))
  }

  /** The pops and pushes still to be made by everybody up to the taker of queue j. */
  function Moves(s: State, j: nat): nat
    requires Shaped(s) && j < |s.queues|
    decreases j
  {
    Count(s, j) + (if j == 0 then |s.rest| else |Held(s.stages[j - 1])| + Count(s, j - 1) + Moves(s, j - 1))
  }

  function Flags(g: Stage): nat {
    (if g.job then 0 else 1) + (if g.pc == Finished then 0 else 1)
  }

  function AllFlags(stages: seq<Stage>): nat {
    if stages == [] then 0 else Flags(stages[0]) + AllFlags(stages[1..])
  }

  /** Items by the moves they have left, and flags not yet set. */
  function Measure(s: State): nat
    requires Shaped(s)
  {
    Moves(s, |s.stages|) + AllFlags(s.stages) + (if s.queues[0].done then 0 else 1)
    + (if s.sender.job then 0 else 1) + (if s.sender.pc == SenderFinished then 0 else 1)
  }

  /** A stage's share of the measure: an item has three moves left in its input, two in its hands, one in its output. */
  function Share(g: Stage, input: Queue, output: Queue): nat {
    |output.items| + 2 * |Held(g)| + 3 * |input.items| + Flags(g)
  }

  /** A step of a stage keeps the number of items and does not raise its share. */
  lemma StageShare(g: Stage, input: Queue, output: Queue, required: seq<bool>)
    requires StageOk(g, input, output)
    ensures var r := StageStep(g, input, output, required);
      && |r.2.items| + |Held(r.0)| + |r.1.items| == |output.items| + |Held(g)| + |input.items|
      && Share(r.0, r.1, r.2) <= Share(g, input, output)
  {
    HeldIs(g);
    HeldIs(StageStep(g, input, output, required).0);
    hide Held;
  }

  lemma {:induction false} CountSame(s: State, s': State, j: nat)
    requires SameUpTo(s, s', j)
    ensures Count(s', j) == Count(s, j) && Moves(s', j) == Moves(s, j)
    decreases j
  {
    if j > 0 {
      CountSame(s, s', j - 1);
    }
  }

  lemma {:induction false} MovesFrom(s: State, s': State, k: nat, j: nat)
    requires Shaped(s) && Shaped(s') && |s'.queues| == |s.queues| && k <= j < |s.queues|
    requires Count(s', k) == Count(s, k)
    requires forall i | k < i < |s.queues| :: s'.queues[i] == s.queues[i]
    requires forall i | k <= i < |s.stages| :: s'.stages[i] == s.stages[i]
    ensures Count(s', j) == Count(s, j) && Moves(s', j) - Moves(s, j) == Moves(s', k) - Moves(s, k)
    decreases j
  {
    if j > k {
      MovesFrom(s, s', k, j - 1);
    }
  }

  lemma {:induction false} FlagsUpdate(stages: seq<Stage>, i: nat, g: Stage)
    requires i < |stages|
    ensures AllFlags(stages[i := g]) - AllFlags(stages) == Flags(g) - Flags(stages[i])
    decreases |stages|
  {
    hide Flags;
    if i > 0 {
      FlagsUpdate(stages[1..], i - 1, g);
      assert stages[i := g][1..] == stages[1..][i - 1 := g];
    } else {
      assert stages[i := g][1..] == stages[1..];
    }
  }

  /** The states differ in stage i and its two queues only. */
  ghost predicate OnlyStage(s: State, s': State, i: nat) {
    && Shaped(s) && Shaped(s') && |s'.queues| == |s.queues| && i < |s.stages| && s'.rest == s.rest
         && s'.sender == s.sender
    && (forall k | 0 <= k < |s.queues| && k != i && k != i + 1 :: s'.queues[k] == s.queues[k])
    && s'.queues[i].done == s.queues[i].done
    && |s'.stages| == |s.stages| && s'.stages == s.stages[i := s'.stages[i]]
  }

  lemma StageStepLocal(s: State, i: nat, required: seq<bool>)
    requires Enabled(s, StepStage(i, required))
    ensures OnlyStage(s, Apply(s, StepStage(i, required)), i)
  {
    StageInputFlag(s.stages[i], s.queues[i], s.queues[i + 1], required);
    hide StageStep;
    assert Apply(s, StepStage(i, required)).stages ==
           s.stages[i := StageStep(s.stages[i], s.queues[i], s.queues[i + 1], required).0];
  }

  lemma LocalMeasure(s: State, s': State, i: nat)
    requires OnlyStage(s, s', i)
    requires |s'.queues[i + 1].items| + |Held(s'.stages[i])| + |s'.queues[i].items| ==
             |s.queues[i + 1].items| + |Held(s.stages[i])| + |s.queues[i].items|
    ensures Measure(s') - Measure(s) ==
            Share(s'.stages[i], s'.queues[i], s'.queues[i + 1]) - Share(s.stages[i], s.queues[i], s.queues[i + 1])
  {
    hide Held, Moves, Count, AllFlags, Flags;
    FlagsUpdate(s.stages, i, s'.stages[i]);
    StageMoves(s, s', i);
    MovesFrom(s, s', i + 1, |s.stages|);
  }

  /** The measure changes by what the stepping stage's share changes by. */
  lemma StageMeasure(s: State, i: nat, required: seq<bool>)
    requires Enabled(s, StepStage(i, required)) && StageOk(s.stages[i], s.queues[i], s.queues[i + 1])
    ensures var s' := Apply(s, StepStage(i, required));
      Shaped(s') && Measure(s') - Measure(s) ==
        Share(s'.stages[i], s'.queues[i], s'.queues[i + 1]) - Share(s.stages[i], s.queues[i], s.queues[i + 1])
  {
    hide StageStep, Held, StageOk, Measure, Share;
    StageShare(s.stages[i], s.queues[i], s.queues[i + 1], required);
    StageStepLocal(s, i, required);
    LocalMeasure(s, Apply(s, StepStage(i, required)), i);
  }

  lemma StageInputFlag(g: Stage, input: Queue, output: Queue, required: seq<bool>)
    ensures StageStep(g, input, output, required).1.done == input.done
  {
  }

  lemma StageMoves(s: State, s': State, i: nat)
    requires Shaped(s) && Shaped(s') && |s'.queues| == |s.queues| && i < |s.stages| && s'.rest == s.rest
    requires forall k | 0 <= k < i :: s'.queues[k] == s.queues[k] && s'.stages[k] == s.stages[k]
    requires |s'.queues[i + 1].items| + |Held(s'.stages[i])| + |s'.queues[i].items| ==
             |s.queues[i + 1].items| + |Held(s.stages[i])| + |s.queues[i].items|
    ensures Count(s', i + 1) == Count(s, i + 1)
    ensures Moves(s', i + 1) - Moves(s, i + 1) ==
            |s'.queues[i + 1].items| + 2 * |Held(s'.stages[i])| + 3 * |s'.queues[i].items|
            - (|s.queues[i + 1].items| + 2 * |Held(s.stages[i])| + 3 * |s.queues[i].items|)
  {
    hide Held;
    if i > 0 {
      CountSame(s, s', i - 1);
    }
    assert Count(s', i) - |s'.queues[i].items| == Count(s, i) - |s.queues[i].items|;
    assert Moves(s', i) - |s'.queues[i].items| == Moves(s, i) - |s.queues[i].items|;
  }

  /** What the sender and its queue add to the measure. */
  function SenderShare(n: Sender, input: Queue): nat {
    |input.items| + (if n.job then 0 else 1) + (if n.pc == SenderFinished then 0 else 1)
  }

  lemma SenderShareFalls(n: Sender, input: Queue)
    requires SenderOk(n, input)
    ensures var r := SenderStep(n, input);
      && SenderShare(r.0, r.1) <= SenderShare(n, input) && r.1.done == input.done
      && (n.pc != SenderFinished && SenderGetsOn(n, input, r.0, r.1) ==> SenderShare(r.0, r.1) < SenderShare(n, input))
  {
  }

  /** A step of the sender that takes an item, meets the done flag, or finishes. */
  predicate SenderGetsOn(n: Sender, input: Queue, n': Sender, input': Queue) {
    |input'.items| < |input.items| || (n'.job && !n.job) || n'.pc == SenderFinished
  }

  lemma LastQueueMoves(s: State, s': State)
    requires Shaped(s) && Shaped(s') && |s'.queues| == |s.queues| && s'.rest == s.rest && s'.stages == s.stages
    requires forall k | 0 <= k < |s.stages| :: s'.queues[k] == s.queues[k]
    ensures var n := |s.stages|; Moves(s', n) - Moves(s, n) == |s'.queues[n].items| - |s.queues[n].items|
  {
    var n := |s.stages|;
    if n > 0 {
      CountSame(s, s', n - 1);
    }
    hide Held;
    assert Count(s', n) - |s'.queues[n].items| == Count(s, n) - |s.queues[n].items|;
  }

  lemma SenderMeasure(s: State)
    requires Enabled(s, StepSender) && SenderOk(s.sender, s.queues[|s.stages|])
    ensures var s' := Apply(s, StepSender); var n := |s.stages|;
      && Shaped(s') && |s'.stages| == n && Measure(s') <= Measure(s)
      && (SenderGetsOn(s.sender, s.queues[n], s'.sender, s'.queues[n]) ==> Measure(s') < Measure(s))
  {
    var n := |s.stages|;
    SenderShareFalls(s.sender, s.queues[n]);
    hide SenderStep, Moves, Count, Held, AllFlags, SenderOk;
    LastQueueMoves(s, Apply(s, StepSender));
  }

  lemma ChunkerMeasure(s: State)
    requires Enabled(s, StepChunker)
    ensures var s' := Apply(s, StepChunker);
      && Shaped(s') && Measure(s') <= Measure(s)
      && (s.rest == [] || |s.queues[0].items| < CAPACITY ==> Measure(s') < Measure(s))
  {
    var s' := Apply(s, StepChunker);
    hide Held, AllFlags;
    assert Count(s', 0) == Count(s, 0);
    MovesFrom(s, s', 0, |s.stages|);
  }

  /** No step raises the measure. */
  lemma MeasureNeverRises(s: State, a: Action, ids: seq<nat>, recipes: nat)
    requires Inv(s, ids, recipes) && Enabled(s, a)
    ensures Shaped(Apply(s, a)) && Measure(Apply(s, a)) <= Measure(s)
  {
    match a
    case StepChunker =>
      hide Inv;
      ChunkerMeasure(s);
    case StepSender =>
      hide StageOk;
      SenderMeasure(s);
    case StepStage(i, required) =>
      assert StageOk(s.stages[i], s.queues[i], s.queues[i + 1]);
      StageInputFlag(s.stages[i], s.queues[i], s.queues[i + 1], required);
      StageMeasure(s, i, required);
      StageShare(s.stages[i], s.queues[i], s.queues[i + 1], required);
  }

  /** The steps a stage takes before one that lowers the measure. */
  function StageWait(g: Stage, input: Queue): nat {
    var poll := if input.items != [] then 2 else 1;
    var full := if g.batch != [] then 1 else 2;
    match g.pc
    case Flush(k) => if k < |g.batch| then 0 else if g.job then 1 else 1 + poll
    case Check => if |g.batch| == g.limit || g.job then full else 1 + poll
    case Poll => poll
    case SeeEmpty => if input.items != [] then 1 else 0
    case Pop => if input.items != [] then 0 else if g.job then 1 + full else 2 + poll
    case _ => 0
  }

  /** The stage has something to do, or will see that its input is done. */
  predicate Active(g: Stage, input: Queue) {
    || input.items != [] || input.done
    || g.pc == PushRecipe || g.pc == SetDone || (g.pc.Flush? && g.pc.next < |g.batch|)
    || (g.pc == Check && |g.batch| == g.limit)
  }

  /** With room in its output an active stage lowers its share now, or only moves on towards doing so. */
  lemma StageAlone(g: Stage, input: Queue, output: Queue, required: seq<bool>)
    requires StageOk(g, input, output) && g.pc != Finished && Active(g, input) && |output.items| < CAPACITY
    ensures var r := StageStep(g, input, output, required);
      || Share(r.0, r.1, r.2) < Share(g, input, output)
      || (r.1 == input && r.2 == output && r.0.pc != Finished && Active(r.0, input)
           && StageWait(r.0, input) < StageWait(g, input))
  {
    var r := StageStep(g, input, output, required);
    HeldIs(g);
    HeldIs(r.0);
    hide Held, Mark;
  }

  /** A few steps of one thread that lower the measure. */
  ghost predicate Productive(s: State, actor: Action, run: seq<Action>) {
    && Shaped(s) && |run| <= 5 && Legal(s, run) && (forall a | a in run :: a == actor)
    && Shaped(Final(s, run)) && Measure(Final(s, run)) < Measure(s)
  }

  lemma OneStep(s: State, a: Action)
    requires Enabled(s, a)
    ensures Legal(s, [a]) && Final(s, [a]) == Apply(s, a)
  {
    assert [a][1..] == [];
  }

  lemma OneMore(s: State, a: Action, run: seq<Action>)
    requires Enabled(s, a) && Legal(Apply(s, a), run)
    ensures Legal(s, [a] + run) && Final(s, [a] + run) == Final(Apply(s, a), run)
  {
    assert ([a] + run)[1..] == run;
  }

  lemma {:induction false} StageProgress(s: State, i: nat, ids: seq<nat>, recipes: nat) returns (run: seq<Action>)
    requires Inv(s, ids, recipes) && i < |s.stages| && s.stages[i].pc != Finished
    requires Active(s.stages[i], s.queues[i]) && |s.queues[i + 1].items| < CAPACITY
    ensures Legal(s, run) && |run| <= StageWait(s.stages[i], s.queues[i]) + 1 && forall a | a in run ::
          a == StepStage(i, [])
    ensures Shaped(Final(s, run)) && Measure(Final(s, run)) < Measure(s)
    decreases StageWait(s.stages[i], s.queues[i])
  {
    var a := StepStage(i, []);
    var s' := Apply(s, a);
    hide *;
    InvStage(s, i, ids, recipes);
    StageEnabled(s, i, []);
    StepKeepsInv(s, a, ids, recipes);
    InvStage(s', i, ids, recipes);
    MeasureNeverRises(s, a, ids, recipes);
    StageMeasure(s, i, []);
    StageAlone(s.stages[i], s.queues[i], s.queues[i + 1], []);
    if Measure(s') < Measure(s) {
      OneStep(s, a);
      run := [a];
    } else {
      var rest := StageProgress(s', i, ids, recipes);
      OneMore(s, a, rest);
      run := [a] + rest;
    }
  }

  lemma StageEnabled(s: State, i: nat, required: seq<bool>)
    requires Shaped(s) && i < |s.stages| && s.stages[i].pc != Finished
    ensures Enabled(s, StepStage(i, required))
    ensures var s' := Apply(s, StepStage(i, required));
          var r := StageStep(s.stages[i], s.queues[i], s.queues[i + 1], required);
      && |s'.stages| == |s.stages| && |s'.queues| == |s.queues|
      && s'.stages[i] == r.0 && s'.queues[i] == r.1 && s'.queues[i + 1] == r.2
  {
  }

  lemma InvStage(s: State, i: nat, ids: seq<nat>, recipes: nat)
    requires Inv(s, ids, recipes) && i < |s.stages|
    ensures Shaped(s) && StageOk(s.stages[i], s.queues[i], s.queues[i + 1])
  {
  }

  lemma InvSender(s: State, ids: seq<nat>, recipes: nat)
    requires Inv(s, ids, recipes)
    ensures Shaped(s) && SenderOk(s.sender, s.queues[|s.stages|])
  {
  }

  function SenderWait(n: Sender, input: Queue): nat {
    match n.pc
    case SenderPoll => if input.items != [] then 2 else 1
    case SenderSeeEmpty => if input.items != [] then 1 else 0
    case SenderPop => if input.items != [] then 0 else if n.job then 1 else 3
    case SenderCheck => if n.job then 0 else if input.items != [] then 3 else 2
    case SenderFinished => 0
  }

  /** With something in its queue, or its queue done, the sender lowers the measure now or soon. */
  lemma {:induction false} SenderProgress(s: State, ids: seq<nat>, recipes: nat) returns (run: seq<Action>)
    requires Inv(s, ids, recipes) && s.sender.pc != SenderFinished
    requires s.queues[|s.stages|].items != [] || s.queues[|s.stages|].done
    ensures Legal(s, run) && |run| <= SenderWait(s.sender, s.queues[|s.stages|]) + 1 && forall a | a in run ::
          a == StepSender
    ensures Shaped(Final(s, run)) && Measure(Final(s, run)) < Measure(s)
    decreases SenderWait(s.sender, s.queues[|s.stages|])
  {
    var s' := Apply(s, StepSender);
    StepKeepsInv(s, StepSender, ids, recipes);
    InvSender(s, ids, recipes);
    SenderMeasure(s);
    hide Inv, Measure;
    if Measure(s') < Measure(s) {
      OneStep(s, StepSender);
      run := [StepSender];
    } else {
      var rest := SenderProgress(s', ids, recipes);
      OneMore(s, StepSender, rest);
      run := [StepSender] + rest;
    }
  }

  lemma Waits(g: Stage, n: Sender, input: Queue)
    ensures StageWait(g, input) <= 4 && SenderWait(n, input) <= 4
  {
  }

  /** If the taker of queue j waits for more, somebody before it can go on. */
  lemma {:induction false} UpstreamProgress(s: State, j: nat, ids: seq<nat>, recipes: nat)
      returns (actor: Action, run: seq<Action>)
    requires Inv(s, ids, recipes) && j < |s.queues| && s.queues[j].items == [] && !s.queues[j].done
    ensures Productive(s, actor, run)
    decreases j
  {
    if j == 0 {
      ChunkerMeasure(s);
      hide Inv, Measure, Apply;
      OneStep(s, StepChunker);
      actor, run := StepChunker, [StepChunker];
    } else {
      var i := j - 1;
      InvStage(s, i, ids, recipes);
      hide Inv, Measure, StageWait, SenderWait;
      Waits(s.stages[i], s.sender, s.queues[i]);
      if Active(s.stages[i], s.queues[i]) {
        actor := StepStage(i, []);
        run := StageProgress(s, i, ids, recipes);
      } else {
        actor, run := UpstreamProgress(s, i, ids, recipes);
      }
    }
  }

  lemma Progress(s: State, ids: seq<nat>, recipes: nat) returns (actor: Action, run: seq<Action>)
    requires Inv(s, ids, recipes) && s.sender.pc != SenderFinished
    ensures Productive(s, actor, run)
  {
    InvSender(s, ids, recipes);
    var n := |s.stages|;
    hide Inv, Measure, SenderOk, StageWait, SenderWait;
    if s.queues[n].items != [] || s.queues[n].done {
      Waits(Stage(0, false, Poll, false, []), s.sender, s.queues[n]);
      actor := StepSender;
      run := SenderProgress(s, ids, recipes);
    } else {
      actor, run := UpstreamProgress(s, n, ids, recipes);
    }
  }

  /** In every reachable state in which the sender has not finished, some thread, by at most five steps of its own,
      brings the end nearer. */
  lemma AlwaysProgress(s0: State, steps: seq<Action>) returns (actor: Action, run: seq<Action>)
    requires Init(s0) && Legal(s0, steps) && Final(s0, steps).sender.pc != SenderFinished
    ensures Productive(Final(s0, steps), actor, run)
  {
    hide Inv, Productive;
    InitInv(s0);
    RunKeepsInv(s0, steps, Ids(s0.rest), Recipes(s0.rest));
    actor, run := Progress(Final(s0, steps), Ids(s0.rest), Recipes(s0.rest));
  }
}
