/**
  One explicit producer's sub-queue: a ring of blocks that grows and is reused in place, and
  a circular block index that doubles, used by one enqueueing thread and any number of
  dequeueing threads whose atomic operations interleave in any order.

  Indices are kept as they count; what the code stores and compares are the wrapped words.
  A dequeueing thread, singly or in bulk, starts here with the fetch_add on headIndex, which module
  Tickets shows to happen only while as many enqueued elements are left.  `enq` records what was enqueued.
 */
module ExplicitProducer {
  import opened Basics

  datatype Entry = Entry(base: nat, block: Block)

  /** A block index of 2^log entries; front is the slot of the newest published entry. */
  datatype Header = Header(log: nat, front: nat, entries: map<nat, Entry>)

  /** The enqueueing thread, with the element it enqueues. */
  datatype Producer =
    | Ready
    | Scan(x: int, flag: nat)
    | Reuse(x: int)
    | Leeway(x: int)
    | Grow(x: int)
    | Requisition(x: int)
    | WriteEntry(x: int)
    | PublishFront(x: int)
    | Store(x: int)
    | Publish(x: int)

  /** A dequeueing thread with the indices from index up to end that it has yet to take; dequeue is the case of one.
      Block by block it takes the elements from first on and then sets their flags, the last one's first; from is
      the first index it claimed, and got what it has taken since. */
  datatype Consumer =
    | Idle
    | LoadHeader(index: nat, end: nat)
    | LoadFront(index: nat, end: nat, header: nat)
    | LoadBase(index: nat, end: nat, header: nat, front: nat)
    | LoadBlock(index: nat, end: nat, header: nat, at: nat, from: nat, got: seq<Option<int>>)
    | Take(index: nat, end: nat, header: nat, at: nat, block: Block, first: nat, from: nat, got: seq<Option<int>>)
    | SetEmpty(index: nat, end: nat, header: nat, at: nat, block: Block, first: nat, from: nat, got: seq<Option<int>>)

  datatype State = State(
    tail: nat,
    head: nat,
    tailBlock: Option<Block>,
    next: map<Block, Block>,
    flags: map<Cell, bool>,
    cells: map<Cell, Option<int>>,
    headers: seq<Header>,
    slotsUsed: nat,
    front: nat,
    producer: Producer,
    consumers: map<Thread, Consumer>,
    enq: seq<int>)

  /** Produce carries the outcome of an allocation and the block the pool hands out. */
  datatype Action = Enqueue(x: int) | Produce(ok: bool, block: Block) | Claim(thread: Thread, count: nat)
      | Consume(thread: Thread)

  function NextOf(next: map<Block, Block>, b: Block): Block {
    if b in next then next[b] else b
  }

  predicate Flag(flags: map<Cell, bool>, c: Cell) {
    c in flags && flags[c]
  }

  function EntryAt(entries: map<nat, Entry>, k: nat): Entry {
    if k in entries then entries[k] else Entry(0, 0)
  }

  function ResetEmpty(flags: map<Cell, bool>, b: Block): map<Cell, bool> {
    map c | c in flags :: c.block != b && flags[c]
  }

  /** The block behind the tail in the ring. */
  function NextBlock(s: State): Block {
    if s.tailBlock.None? then 0 else NextOf(s.next, s.tailBlock.value)
  }

  function Current(s: State): Header {
    if s.headers == [] then Header(0, 0, map[]) else s.headers[|s.headers| - 1]
  }

  function SetCurrent(s: State, h: Header): seq<Header> {
    if s.headers == [] then [h] else s.headers[|s.headers| - 1 := h]
  }

  /** Where new_block_index reads the j-th entry it copies. */
  function SourceSlot(n: nat, front: nat, used: nat, j: nat): nat
    requires n > 0
  {
    (front - used + j) % n
  }

  /** The last used entries of an index of n, as an index of twice the size starts with them. */
  function CopyEntries(entries: map<nat, Entry>, n: nat, front: nat, used: nat): map<nat, Entry>
    requires n > 0
  {
    map j: nat | 0 <= j < used :: EntryAt(entries, SourceSlot(n, front, used, j))
  }

  predicate Enabled(s: State, a: Action) {
    match a
    case Enqueue(_) => s.producer == Ready
    case Produce(ok, b) => s.producer != Ready && (s.producer.Requisition? && ok ==> b !in s.next)
    case Claim(t, n) => t in s.consumers && s.consumers[t] == Idle && 0 < n <= s.tail - s.head
    case Consume(t) => t in s.consumers && s.consumers[t] != Idle
  }

  /** Where enqueue goes first: on in its block, or to start another. */
  function StartOf(s: State, x: int): Producer {
    if s.tail % BLOCK_SIZE != 0 then Store(x) else if s.tailBlock.Some? then Scan(x, 0) else Leeway(x)
  }

  function Apply(s: State, a: Action): State
    requires Enabled(s, a)
  {
    match a
    case Enqueue(x) =>
      s.(producer := StartOf(s, x))
    case Produce(ok, b) => ProducerStep(s, s.producer, ok, b)
    case Claim(t, n) => s.(head := s.head + n, consumers := s.consumers[t := LoadHeader(s.head, s.head + n)])
    case Consume(t) => ConsumerStep(s, t, s.consumers[t])
  }

  function ProducerStep(s: State, pc: Producer, ok: bool, b: Block): State {
    match pc
    case Ready => s
    case Scan(x, j) =>
      s.(producer := if !Flag(s.flags, Cell(NextBlock(s), j)) then Leeway(x)
                     else if j + 1 < BLOCK_SIZE then Scan(x, j + 1)
                     else Reuse(x))
    case Reuse(x) =>
      s.(tailBlock := Some(NextBlock(s)), flags := ResetEmpty(s.flags, NextBlock(s)), producer := WriteEntry(x))
    case Leeway(x) =>
      s.(producer := if !CircularLess(s.head, s.tail + BLOCK_SIZE) then Ready
                     else if s.slotsUsed == Pow2(Current(s).log) then Grow(x)
                     else Requisition(x))
    case Grow(x) =>
      if !ok then s.(producer := Ready)
      else
        var h := Current(s);
        s.(headers := s.headers + [Header(h.log + 1, Wrap(s.slotsUsed - 1),
                                          CopyEntries(h.entries, Pow2(h.log), s.front, s.slotsUsed))],
           front := s.slotsUsed,
           producer := Requisition(x))
    case Requisition(x) =>
      if !ok then s.(producer := Ready)
      else
        s.(next := if s.tailBlock.None? then s.next[b := b] else s.next[b := NextBlock(s)][s.tailBlock.value := b],
           flags := ResetEmpty(s.flags, b),
           tailBlock := Some(b),
           slotsUsed := s.slotsUsed + 1,
           producer := WriteEntry(x))
    case WriteEntry(x) =>
      var h := Current(s);
      var block := if s.tailBlock.Some? then s.tailBlock.value else 0;
      s.(headers := SetCurrent(s, h.(entries := h.entries[s.front := Entry(Wrap(s.tail), block)])),
         producer := PublishFront(x))
    case PublishFront(x) =>
      var h := Current(s);
      s.(headers := SetCurrent(s, h.(front := s.front)),
         front := (s.front + 1) % Pow2(h.log),
         producer := Store(x))
    case Store(x) =>
      var block := if s.tailBlock.Some? then s.tailBlock.value else 0;
      s.(cells := s.cells[Cell(block, s.tail % BLOCK_SIZE) := Some(x)], producer := Publish(x))
    case Publish(x) =>
      s.(tail := s.tail + 1, enq := s.enq + [x], producer := Ready)
  }

  /** The slot of the block that holds index i, as the code computes it from the front slot and its base.
      BLOCK_SIZE is unsigned, so the division is unsigned although the difference was cast to signed. */
  function LookUp(i: nat, front: nat, base: nat, log: nat): nat {
    (front + Wrap(Wrap(i) - Wrap(i) % BLOCK_SIZE - base) / BLOCK_SIZE) % Pow2(log)
  }

  function HeaderAt(headers: seq<Header>, v: nat): Header {
    if v < |headers| then headers[v] else Header(0, 0, map[])
  }

  function ConsumerStep(s: State, t: Thread, pc: Consumer): State {
    match pc
    case Idle => s
    case LoadHeader(i, end) =>
      s.(consumers := s.consumers[t := LoadFront(i, end, if s.headers == [] then 0 else |s.headers| - 1)])
    case LoadFront(i, end, v) => s.(consumers := s.consumers[t := LoadBase(i, end, v, HeaderAt(s.headers, v).front)])
    case LoadBase(i, end, v, f) =>
      var h := HeaderAt(s.headers, v);
      s.(consumers := s.consumers[t := LoadBlock(i, end, v, LookUp(i, f, EntryAt(h.entries, f).base, h.log), i, [])])
    case LoadBlock(i, end, v, at, from, got) =>
      s.(consumers := s.consumers[t := Take(i, end, v, at, EntryAt(HeaderAt(s.headers, v).entries, at).block, i, from,
          got)])
    case Take(i, end, v, at, b, first, from, got) =>
      var c := Cell(b, i % BLOCK_SIZE);
      var got' := got + [Content(s.cells, c)];
      s.(cells := s.cells[c := None],
         consumers := s.consumers[t := if i + 1 < PartEnd(first, end) then Take(i + 1, end, v, at, b, first, from, got')
                                       else SetEmpty(i, end, v, at, b, first, from, got')])
    case SetEmpty(i, end, v, at, b, first, from, got) =>
      s.(flags := s.flags[Cell(b, BLOCK_SIZE - 1 - i % BLOCK_SIZE) := true],
         consumers := s.consumers[t := if i > first then pc.(index := i - 1) else Onward(s.headers, pc)])
  }

  /** Where a thread goes from a block it is done with: to the next slot of the index it loaded, or back to its
      caller. */
  function Onward(headers: seq<Header>, pc: Consumer): Consumer
    requires pc.SetEmpty?
  {
    var next := PartEnd(pc.first, pc.end);
    if next >= pc.end then Idle
    else LoadBlock(next, pc.end, pc.header, (pc.at + 1) % Pow2(HeaderAt(headers, pc.header).log), pc.from, pc.got)
  }

  /** No thread has started; the index has at least EXPLICIT_INITIAL_INDEX_SIZE entries. */
  ghost predicate Init(s: State) {
    && s.tail == 0 && s.head == 0 && s.tailBlock == None && s.next == map[] && s.flags == map[] && s.cells == map[]
    && |s.headers| == 1 && 5 <= s.headers[0].log <= 59
    && s.slotsUsed == 0 && s.front == 0 && s.producer == Ready && s.enq == []
    && (forall t | t in s.consumers :: s.consumers[t] == Idle)
  }

  /** The live window, from the oldest block in the ring to the newest, spans at most half the index range. */
  predicate Windowed(s: State) {
    s.slotsUsed * BLOCK_SIZE <= HALF
  }

  ghost predicate Legal(s: State, run: seq<Action>)
    decreases |run|
  {
    run == [] || (Enabled(s, run[0]) && Windowed(s) && Legal(Apply(s, run[0]), run[1..]))
  }

  ghost function Final(s: State, run: seq<Action>): State
    requires Legal(s, run)
    decreases |run|
  {
    if run == [] then s else Final(Apply(s, run[0]), run[1..])
  }

  ghost predicate Reachable(s: State) {
    exists s0, run :: Init(s0) && Legal(s0, run) && s == Final(s0, run)
  }

  // ---------------------------------------------------------------------------
  // Slots of a circular index
  // ---------------------------------------------------------------------------

  /** The slot of block number k in an index of size n whose slot 0 belongs to block number first. */
  function SlotOf(n: nat, first: nat, k: nat): nat
    requires n > 0
  {
    (k - first) % n
  }

  /** The slot some places on from that of block k is that of the block as many further. */
  lemma SlotFurther(n: nat, first: nat, k: nat, m: nat)
    requires n > 0
    ensures (SlotOf(n, first, k) + m) % n == SlotOf(n, first, k + m)
  {
    ModAdd(k - first, m, n);
    assert k - first + m == k + m - first;
  }

  lemma SlotNext(n: nat, first: nat, k: nat)
    requires n > 0
    ensures (SlotOf(n, first, k) + 1) % n == SlotOf(n, first, k + 1)
  {
    ModAdd(k - first, 1, n);
    assert (k - first) + 1 == (k + 1) - first;
  }

  /** Blocks fewer than n apart have different slots. */
  lemma SlotsDiffer(n: nat, first: nat, k: nat, l: nat)
    requires n > 0 && k < l < k + n
    ensures SlotOf(n, first, k) != SlotOf(n, first, l)
  {
    var q := (k - first) / n;
    var r := (k - first) % n;
    assert l - first == q * n + (r + (l - k));
    if r + (l - k) < n {
      ModUnique(l - first, n, q, r + (l - k));
    } else {
      assert l - first == (q + 1) * n + (r + (l - k) - n);
      ModUnique(l - first, n, q + 1, r + (l - k) - n);
    }
  }

  /** What new_block_index copies to slot j is the entry of the j-th live block. */
  lemma SourceOf(n: nat, first: nat, count: nat, used: nat, j: nat)
    requires n > 0 && used <= count
    ensures SourceSlot(n, SlotOf(n, first, count), used, j) == SlotOf(n, first, count - used + j)
  {
    var x, y := count - first, j - used;
    ModAdd(x, y, n);
    assert SlotOf(n, first, count) - used + j == x % n + y;
    assert (count - used + j) - first == x + y;
  }

  /** The copying loop of new_block_index reaches the front again exactly when all used entries are copied. */
  lemma CopyEnds(n: nat, front: nat, used: nat, j: nat)
    requires front < n && 0 < j <= used <= n
    ensures SourceSlot(n, front, used, j) == front <==> j == used
  {
    var d := used - j;
    if d <= front {
      ModUnique(front - d, n, 0, front - d);
    } else {
      ModUnique(front - d, n, -1, front - d + n);
    }
  }

  lemma SourceNext(n: nat, front: nat, used: nat, j: nat)
    requires n > 0
    ensures SourceSlot(n, front, used, 0) == (front - used) % n
    ensures (SourceSlot(n, front, used, j) + 1) % n == SourceSlot(n, front, used, j + 1)
  {
    var x: int := front - used + j;
    ModAdd(x, 1, n);
    assert front - used + (j + 1) == x + 1;
  }

  /** The copying loop of new_block_index. */
  method CopyIndex(entries: map<nat, Entry>, n: nat, front: nat, used: nat) returns (copied: map<nat, Entry>, j: nat)
    requires front < n && used <= n
    ensures copied == CopyEntries(entries, n, front, used)
    ensures j == used
  {
    copied, j := map[], 0;
    hide SourceSlot, EntryAt;
    SourceNext(n, front, used, 0);
    if used != 0 {
      var i := (front - used) % n;
      while true
        invariant j < used && i == SourceSlot(n, front, used, j)
        invariant forall k :: k in copied <==> 0 <= k < j
        invariant forall k: nat | k < j :: copied[k] == EntryAt(entries, SourceSlot(n, front, used, k))
        decreases used - j
      {
        copied := copied[j := EntryAt(entries, i)];
        SourceNext(n, front, used, j);
        j, i := j + 1, (i + 1) % n;
        CopyEnds(n, front, used, j);
        if i == front {
          break;
        }
      }
    }
  }

  lemma {:induction false} Pow2Split(a: nat, b: nat)
    ensures Pow2(a + b) == Pow2(a) * Pow2(b)
  {
    if a > 0 {
      Pow2Split(a - 1, b);
      Pow2Step(a - 1);
      Pow2Step(a - 1 + b);
      hide Pow2;
      TwiceProduct(Pow2(a - 1), Pow2(b));
      assert a - 1 + b + 1 == a + b;
    } else {
      assert Pow2(0) == 1;
    }
  }

  lemma TwiceProduct(x: nat, y: nat)
    ensures 2 * x * y == 2 * (x * y)
  {
  }

  lemma Pow2Step(e: nat)
    ensures Pow2(e + 1) == 2 * Pow2(e)
  {
  }

  lemma Pow2OfTwo()
    ensures Pow2(2) == 4
  {
  }

  lemma Pow2OfWindow()
    ensures Pow2(59) * BLOCK_SIZE == WORD_SIZE
    ensures Pow2(58) * BLOCK_SIZE == HALF
  {
    hide Pow2;
    Pow2OfTwo();
    Pow2Split(2, 2);
    Pow2Split(4, 4);
    Pow2Split(8, 8);
    Pow2Split(16, 16);
    Pow2Split(32, 16);
    Pow2Split(48, 8);
    Pow2Split(56, 2);
    Pow2Step(58);
  }

  /** The number of blocks in the index range. */
  const SPAN: int := 0x0800_0000_0000_0000

  /** An index of at most 2^59 entries divides the number of blocks in the index range evenly. */
  lemma SizeDivides(log: nat) returns (q: nat)
    requires log <= 59
    ensures q * Pow2(log) == SPAN
  {
    Pow2Split(59 - log, log);
    Pow2OfWindow();
    q := Pow2(59 - log);
  }

  lemma WrapBase(i: nat)
    ensures Wrap(i) - Wrap(i) % BLOCK_SIZE == Wrap(i / BLOCK_SIZE * BLOCK_SIZE)
  {
    var k := i / BLOCK_SIZE;
    var q := i / WORD_SIZE;
    var m: int := WORD_SIZE / BLOCK_SIZE;
    var w := Wrap(i);
    assert w == i - q * WORD_SIZE;
    assert w % BLOCK_SIZE == i % BLOCK_SIZE by {
      assert i == q * WORD_SIZE + w;
      assert q * WORD_SIZE == (q * m) * BLOCK_SIZE;
      assert i == (q * m + w / BLOCK_SIZE) * BLOCK_SIZE + w % BLOCK_SIZE;
      ModUnique(i, BLOCK_SIZE, q * m + w / BLOCK_SIZE, w % BLOCK_SIZE);
    }
    assert k * BLOCK_SIZE == i - i % BLOCK_SIZE;
    assert k * BLOCK_SIZE == q * WORD_SIZE + (w - w % BLOCK_SIZE);
    ModUnique(k * BLOCK_SIZE, WORD_SIZE, q, w - w % BLOCK_SIZE);
  }

  /** The unsigned quotient for the block d blocks before the front. */
  lemma BlocksBack(i: nat, d: nat)
    requires d < SPAN
    ensures Wrap(Wrap(i) - Wrap(i) % BLOCK_SIZE - Wrap((i / BLOCK_SIZE + d) * BLOCK_SIZE)) / BLOCK_SIZE ==
            if d == 0 then 0 else SPAN - d
  {
    var ib := i / BLOCK_SIZE;
    var y: int := 0 - d * BLOCK_SIZE;
    WrapBase(i);
    hide Wrap;
    WrapDifference(ib * BLOCK_SIZE, (ib + d) * BLOCK_SIZE);
    assert ib * BLOCK_SIZE - (ib + d) * BLOCK_SIZE == y;
    BelowZero(d);
  }

  lemma WrapDifference(a: int, b: int)
    ensures Wrap(Wrap(a) - Wrap(b)) == Wrap(a - b)
  {
    var p, q := a / WORD_SIZE, b / WORD_SIZE;
    assert Wrap(a) - Wrap(b) == (a - b) + (q - p) * WORD_SIZE;
    ModAddMultiple(a - b, q - p, WORD_SIZE);
  }

  lemma BelowZero(d: nat)
    requires d < SPAN
    ensures Wrap(0 - d * BLOCK_SIZE) / BLOCK_SIZE == if d == 0 then 0 else SPAN - d
  {
    if d > 0 {
      ModUnique(0 - d * BLOCK_SIZE, WORD_SIZE, -1, (SPAN - d) * BLOCK_SIZE);
    }
  }

  lemma SlotBack(n: nat, first: nat, k: nat, d: nat, q: nat)
    requires n > 0 && d <= k && d < SPAN && q * n == SPAN
    ensures (SlotOf(n, first, k) + if d == 0 then 0 else SPAN - d) % n == SlotOf(n, first, k - d)
  {
    var f := SlotOf(n, first, k);
    var x: int, y: int := k - first, 0 - d;
    ModAdd(x, y, n);
    assert x + y == (k - d) - first;
    var back: int := f - d;
    ModAddMultiple(back, q, n);
    assert f + (SPAN - d) == back + q * n;
    if d == 0 {
      assert f + 0 == back;
    }
  }

  /** From the slot and base of any later block, the wrapped arithmetic of dequeue finds the slot of i's block. */
  lemma LookUpFinds(log: nat, first: nat, i: nat, k: nat)
    requires log <= 59 && i / BLOCK_SIZE <= k && k - i / BLOCK_SIZE < SPAN
    ensures LookUp(i, SlotOf(Pow2(log), first, k), Wrap(k * BLOCK_SIZE), log) ==
          SlotOf(Pow2(log), first, i / BLOCK_SIZE)
  {
    hide SlotOf, Wrap, Pow2;
    var d := k - i / BLOCK_SIZE;
    var q := SizeDivides(log);
    BlocksBack(i, d);
    SlotBack(Pow2(log), first, k, d, q);
  }

  // ---------------------------------------------------------------------------
  // The invariant, over a witness of every block started and every index's fate
  // ---------------------------------------------------------------------------

  datatype Fate = Waiting | Claimed(thread: Thread) | Emptied(thread: Thread) | Done

  /** What one block index holds: blocks numbered from first (in slot 0) on, below indexed; published below
      published. */
  datatype Mark = Mark(log: nat, first: nat, indexed: nat, published: nat)

  /** blocks[k] is the block used for indices from k * BLOCK_SIZE; those from number low on make up the ring.
      seen is the number of the block each dequeueing thread took for the front. */
  datatype Witness = Witness(
    blocks: seq<Block>,
    low: nat,
    at: map<nat, Fate>,
    marks: seq<Mark>,
    seen: map<Thread, nat>)

  function At(at: map<nat, Fate>, i: nat): Fate {
    if i in at then at[i] else Waiting
  }

  function BlockAt(blocks: seq<Block>, k: nat): Block {
    if k < |blocks| then blocks[k] else 0
  }

  function SeenAt(seen: map<Thread, nat>, t: Thread): nat {
    if t in seen then seen[t] else 0
  }

  function CellOf(blocks: seq<Block>, i: nat): Cell {
    Cell(BlockAt(blocks, i / BLOCK_SIZE), i % BLOCK_SIZE)
  }

  function FlagOf(blocks: seq<Block>, i: nat): Cell {
    Cell(BlockAt(blocks, i / BLOCK_SIZE), BLOCK_SIZE - 1 - i % BLOCK_SIZE)
  }

  /** The ring runs through the live blocks in the order they were started, and back to the oldest. */
  ghost predicate RingOk(tailBlock: Option<Block>, next: map<Block, Block>, blocks: seq<Block>, low: nat) {
    && (if blocks == [] then low == 0 && tailBlock == None
        else low < |blocks| && tailBlock == Some(blocks[|blocks| - 1]))
    && (forall k | low <= k < |blocks| :: BlockAt(blocks, k) in next &&
          NextOf(next, BlockAt(blocks, k)) == BlockAt(blocks, if k + 1 < |blocks| then k + 1 else low))
    && (forall k, l | low <= k < l < |blocks| :: BlockAt(blocks, k) != BlockAt(blocks, l))
  }

  ghost predicate FatesOk(head: nat, at: map<nat, Fate>, low: nat) {
    && (forall i: nat :: At(at, i) == Waiting <==> head <= i)
    && (forall i: nat | i < low * BLOCK_SIZE :: At(at, i) == Done)
  }

  ghost predicate FlagsOk(flags: map<Cell, bool>, blocks: seq<Block>, low: nat, at: map<nat, Fate>) {
    forall i: nat | low * BLOCK_SIZE <= i < |blocks| * BLOCK_SIZE ::
        Flag(flags, FlagOf(blocks, i)) == (At(at, i) == Done)
  }

  /** Elements stored and not yet taken are where their index says. */
  ghost predicate CellsOk(cells: map<Cell, Option<int>>, blocks: seq<Block>, low: nat, at: map<nat, Fate>,
      stored: seq<int>)
  {
    forall i: nat | low * BLOCK_SIZE <= i < |stored| && (At(at, i).Waiting? || At(at, i).Claimed?) ::
      Content(cells, CellOf(blocks, i)) == Some(stored[i])
  }

  /** The elements in memory: those enqueued, and the one about to be. */
  function Stored(pc: Producer, enq: seq<int>): seq<int> {
    if pc.Publish? then enq + [pc.x] else enq
  }

  ghost predicate HeaderOk(h: Header, m: Mark, blocks: seq<Block>, low: nat) {
    && h.log == m.log <= 59
    && m.first <= low
    && m.first <= m.published <= m.indexed <= |blocks|
    && m.indexed <= low + Pow2(m.log)
    && (forall k: nat | low <= k < m.indexed ::
          EntryAt(h.entries, SlotOf(Pow2(m.log), m.first, k)) == Entry(Wrap(k * BLOCK_SIZE), BlockAt(blocks, k)))
    && (m.first < m.published ==> h.front == SlotOf(Pow2(m.log), m.first, m.published - 1))
  }

  ghost predicate HeadersOk(headers: seq<Header>, marks: seq<Mark>, blocks: seq<Block>, low: nat) {
    && |headers| == |marks|
    && forall v | 0 <= v < |headers| :: HeaderOk(headers[v], marks[v], blocks, low)
  }

  function LastMark(marks: seq<Mark>): Mark {
    if marks == [] then Mark(0, 0, 0, 0) else marks[|marks| - 1]
  }

  /** The blocks started so far, count of them, fit the tail and the producer's place in enqueue. */
  predicate TailFits(pc: Producer, tail: nat, count: nat) {
    match pc
    case Ready => count * BLOCK_SIZE < tail + BLOCK_SIZE && tail <= count * BLOCK_SIZE
    case Scan(_, j) => j < BLOCK_SIZE && 0 < count && tail == count * BLOCK_SIZE
    case Reuse(_) => 0 < count && tail == count * BLOCK_SIZE
    case Leeway(_) => tail == count * BLOCK_SIZE
    case Grow(_) => tail == count * BLOCK_SIZE
    case Requisition(_) => tail == count * BLOCK_SIZE
    case WriteEntry(_) => tail + BLOCK_SIZE == count * BLOCK_SIZE
    case PublishFront(_) => tail + BLOCK_SIZE == count * BLOCK_SIZE
    case Store(_) => tail < count * BLOCK_SIZE <= tail + BLOCK_SIZE
    case Publish(_) => tail < count * BLOCK_SIZE <= tail + BLOCK_SIZE
  }

  /** How much room the index must have, and how much of it is filled and published. */
  predicate IndexFits(pc: Producer, m: Mark, front: nat, used: nat, count: nat) {
    && (if pc.Grow? then used == Pow2(m.log) else if pc.Requisition? then used < Pow2(m.log) else used <= Pow2(m.log))
    && m.indexed == (if pc.WriteEntry? && 0 < count then count - 1 else count)
    && m.published == (if (pc.WriteEntry? || pc.PublishFront?) && 0 < count then count - 1 else count)
    && m.first <= m.published
    && front == SlotOf(Pow2(m.log), m.first, m.published)
  }

  /** The flags of the oldest block that the producer has found set. */
  ghost predicate Scanned(pc: Producer, low: nat, at: map<nat, Fate>) {
    match pc
    case Scan(_, j) => forall i: nat | low * BLOCK_SIZE + BLOCK_SIZE <= i + j && i < low * BLOCK_SIZE + BLOCK_SIZE ::
        At(at, i) == Done
    case Reuse(_) => forall i: nat | low * BLOCK_SIZE <= i < low * BLOCK_SIZE + BLOCK_SIZE :: At(at, i) == Done
    case _ => true
  }

  ghost predicate ProducerOk(pc: Producer, tail: nat, head: nat, used: nat, front: nat, g: Witness) {
    && head <= tail
    && used + g.low == |g.blocks|
    && TailFits(pc, tail, |g.blocks|)
    && g.marks != []
    && IndexFits(pc, LastMark(g.marks), front, used, |g.blocks|)
    && Scanned(pc, g.low, g.at)
  }

  /** Header v was read after i's block was published in it. */
  predicate InHeader(marks: seq<Mark>, v: nat, i: nat) {
    v < |marks| && i / BLOCK_SIZE < marks[v].published
  }

  /** Block number k was the front of header v, not before i's block. */
  predicate FrontSeen(marks: seq<Mark>, v: nat, i: nat, f: nat, k: nat) {
    v < |marks| && i / BLOCK_SIZE <= k < marks[v].published && f == SlotOf(Pow2(marks[v].log), marks[v].first, k)
  }

  /** The slot of i's block in header v. */
  predicate SlotIs(marks: seq<Mark>, v: nat, i: nat, at: nat) {
    v < |marks| && at == SlotOf(Pow2(marks[v].log), marks[v].first, i / BLOCK_SIZE)
  }

  /** All of the indices have this fate. */
  ghost predicate Fated(at: map<nat, Fate>, f: Fate, lo: nat, hi: nat) {
    forall j: nat | lo <= j < hi :: At(at, j) == f
  }

  /** A thread that claimed indices up to end and loaded header v after their blocks were published in it. */
  ghost predicate Claims(t: Thread, i: nat, end: nat, v: nat, enq: seq<int>, g: Witness) {
    Fated(g.at, Claimed(t), i, end) && end <= |enq| && 0 < end && InHeader(g.marks, v, end - 1)
  }

  /** A thread at a block, whose elements from first up to the end of its part it takes. */
  ghost predicate AtBlock(pc: Consumer, enq: seq<int>, g: Witness)
    requires pc.Take? || pc.SetEmpty?
  {
    && pc.first <= pc.index < PartEnd(pc.first, pc.end) && SlotIs(g.marks, pc.header, pc.first, pc.at)
    && pc.block == BlockAt(g.blocks, pc.index / BLOCK_SIZE) && pc.index / BLOCK_SIZE < |g.blocks|
  }

  ghost predicate ConsumerOk(pc: Consumer, t: Thread, enq: seq<int>, g: Witness) {
    match pc
    case Idle => true
    case LoadHeader(i, end) => Fated(g.at, Claimed(t), i, end) && i < end <= |enq|
    case LoadFront(i, end, v) => i < end && Claims(t, i, end, v, enq, g)
    case LoadBase(i, end, v, f) => i < end && Claims(t, i, end, v, enq, g)
        && FrontSeen(g.marks, v, i, f, SeenAt(g.seen, t))
    case LoadBlock(i, end, v, at, from, got) =>
      i < end && Claims(t, i, end, v, enq, g) && SlotIs(g.marks, v, i, at) && Got(got, enq, from, i)
    case Take(i, end, v, at, b, first, from, got) =>
      && AtBlock(pc, enq, g) && Fated(g.at, Emptied(t), first, i) && Claims(t, i, end, v, enq, g)
      && Got(got, enq, from, i)
    case SetEmpty(i, end, v, at, b, first, from, got) =>
      && AtBlock(pc, enq, g) && Fated(g.at, Emptied(t), first, i + 1) && Claims(t, PartEnd(first, end), end, v, enq, g)
      && Got(got, enq, from, PartEnd(first, end))
  }

  ghost predicate ConsumersOk(pcs: map<Thread, Consumer>, enq: seq<int>, g: Witness) {
    forall t | t in pcs :: ConsumerOk(pcs[t], t, enq, g)
  }

  ghost predicate Parts(s: State, g: Witness) {
    && RingOk(s.tailBlock, s.next, g.blocks, g.low)
    && FatesOk(s.head, g.at, g.low)
    && FlagsOk(s.flags, g.blocks, g.low, g.at)
    && CellsOk(s.cells, g.blocks, g.low, g.at, Stored(s.producer, s.enq))
    && HeadersOk(s.headers, g.marks, g.blocks, g.low)
    && ConsumersOk(s.consumers, s.enq, g)
  }

  ghost predicate Inv(s: State, g: Witness) {
    && |s.enq| == s.tail
    && Parts(s, g)
    && ProducerOk(s.producer, s.tail, s.head, s.slotsUsed, s.front, g)
  }

  // ---------------------------------------------------------------------------
  // Steps of a dequeueing thread
  // ---------------------------------------------------------------------------

  /** Distinct live indices have distinct cells and distinct flags. */
  lemma CellsDistinct(tailBlock: Option<Block>, next: map<Block, Block>, blocks: seq<Block>, low: nat, i: nat, j: nat)
    requires RingOk(tailBlock, next, blocks, low) && i != j
    requires low * BLOCK_SIZE <= i < |blocks| * BLOCK_SIZE && low * BLOCK_SIZE <= j < |blocks| * BLOCK_SIZE
    ensures CellOf(blocks, i) != CellOf(blocks, j) && FlagOf(blocks, i) != FlagOf(blocks, j)
  {
    var k, l := i / BLOCK_SIZE, j / BLOCK_SIZE;
    assert low <= k < |blocks| && low <= l < |blocks|;
    if k == l {
      assert i % BLOCK_SIZE != j % BLOCK_SIZE;
    } else if k < l {
      assert BlockAt(blocks, k) != BlockAt(blocks, l);
    } else {
      assert BlockAt(blocks, l) != BlockAt(blocks, k);
    }
  }

  /** The fate of the index is as before, or it was unclaimed or t's own. */
  predicate FateKept(at: map<nat, Fate>, at': map<nat, Fate>, t: Thread, j: nat) {
    At(at', j) == At(at, j) || At(at, j) == Waiting || At(at, j) == Claimed(t) || At(at, j) == Emptied(t)
  }

  /** Thread t alone changes, together with the fates of indices that were unclaimed or t's own. */
  lemma ConsumersMove(pcs: map<Thread, Consumer>, enq: seq<int>, g: Witness, t: Thread, pc: Consumer, g': Witness)
    requires ConsumersOk(pcs, enq, g) && t in pcs
    requires g'.blocks == g.blocks && g'.marks == g.marks
    requires forall u | u != t :: SeenAt(g'.seen, u) == SeenAt(g.seen, u)
    requires forall j: nat :: FateKept(g.at, g'.at, t, j)
    requires ConsumerOk(pc, t, enq, g')
    ensures ConsumersOk(pcs[t := pc], enq, g')
  {
    var pcs' := pcs[t := pc];
    hide ConsumerOk, At, SeenAt;
    forall u | u in pcs'
      ensures ConsumerOk(pcs'[u], u, enq, g')
    {
      if u != t {
        OtherConsumer(pcs[u], u, enq, g, t, g');
      }
    }
  }

  lemma OtherConsumer(pc: Consumer, u: Thread, enq: seq<int>, g: Witness, t: Thread, g': Witness)
    requires ConsumerOk(pc, u, enq, g) && u != t
    requires g'.blocks == g.blocks && g'.marks == g.marks && SeenAt(g'.seen, u) == SeenAt(g.seen, u)
    requires forall j: nat :: FateKept(g.at, g'.at, t, j)
    ensures ConsumerOk(pc, u, enq, g')
  {
    hide InHeader, FrontSeen, SlotIs, Got, At, SeenAt, BlockAt, PartEnd;
    forall j: nat
      ensures At(g.at, j) == Claimed(u) || At(g.at, j) == Emptied(u) ==> At(g'.at, j) == At(g.at, j)
    {
      assert FateKept(g.at, g'.at, t, j);
    }
  }

  /** What the invariant says about one thread, and about the oldest block it can need. */
  lemma ThreadFacts(s: State, g: Witness, t: Thread)
    requires Inv(s, g) && t in s.consumers
    ensures ConsumerOk(s.consumers[t], t, s.enq, g)
    ensures |s.enq| == s.tail && s.head <= s.tail
    ensures forall i: nat | At(g.at, i) != Done :: g.low * BLOCK_SIZE <= i && g.low <= i / BLOCK_SIZE
    ensures g.marks != [] && |g.marks| == |s.headers|
  {
    hide RingOk, FlagsOk, CellsOk, TailFits, IndexFits, Scanned, HeaderOk, ConsumerOk;
    forall i: nat | At(g.at, i) != Done
      ensures g.low * BLOCK_SIZE <= i && g.low <= i / BLOCK_SIZE
    {
      if i < g.low * BLOCK_SIZE {
        assert false;
      }
    }
  }

  lemma HeaderFacts(s: State, g: Witness, v: nat)
    requires Inv(s, g) && v < |g.marks|
    ensures v < |s.headers| && HeaderOk(s.headers[v], g.marks[v], g.blocks, g.low)
  {
    hide RingOk, FatesOk, FlagsOk, CellsOk, ProducerOk, HeaderOk, ConsumersOk;
  }

  /** A step of thread t that reads only: it learns something true. */
  lemma ReadStep(s: State, g: Witness, t: Thread, pc: Consumer, k: nat)
    requires Inv(s, g) && t in s.consumers
    requires ConsumerOk(pc, t, s.enq, g.(seen := g.seen[t := k]))
    ensures Inv(s.(consumers := s.consumers[t := pc]), g.(seen := g.seen[t := k]))
  {
    hide RingOk, FatesOk, FlagsOk, CellsOk, HeadersOk, TailFits, IndexFits, Scanned, ConsumerOk, ConsumersOk;
    ConsumersMove(s.consumers, s.enq, g, t, pc, g.(seen := g.seen[t := k]));
  }

  lemma StepLoadHeader(s: State, g: Witness, t: Thread, i: nat, end: nat)
    requires Inv(s, g) && t in s.consumers && s.consumers[t] == LoadHeader(i, end)
    ensures Inv(ConsumerStep(s, t, s.consumers[t]), g.(seen := g.seen[t := 0]))
  {
    ThreadFacts(s, g, t);
    TailPublished(s, g);
    hide Inv, At;
    ReadStep(s, g, t, LoadFront(i, end, |s.headers| - 1), 0);
  }

  /** Every enqueued element's block is published in the current index. */
  lemma TailPublished(s: State, g: Witness)
    requires Inv(s, g)
    ensures g.marks != [] && |s.headers| == |g.marks|
    ensures forall i: nat | i < s.tail :: i / BLOCK_SIZE < g.marks[|g.marks| - 1].published
  {
    hide RingOk, FatesOk, FlagsOk, CellsOk, ConsumersOk, HeaderOk, Scanned, SlotOf;
  }

  lemma StepLoadFront(s: State, g: Witness, t: Thread, i: nat, end: nat, v: nat)
    requires Inv(s, g) && t in s.consumers && s.consumers[t] == LoadFront(i, end, v)
    ensures v < |g.marks| && g.marks[v].published > 0
    ensures Inv(ConsumerStep(s, t, s.consumers[t]), g.(seen := g.seen[t := g.marks[v].published - 1]))
  {
    hide Inv, HeaderOk, At, SlotOf, Pow2, EntryAt, BlockAt, Claims, FrontSeen, SeenAt, ConsumerOk, ConsumerStep, Fated;
    ThreadFacts(s, g, t);
    FrontReady(t, i, end, v, s.enq, g);
    ClaimFacts(t, i, end, v, s.enq, g);
    HeaderFacts(s, g, v);
    FrontIs(s.headers[v], g.marks[v], g.blocks, g.low, i / BLOCK_SIZE);
    ClaimsSeen(t, i, end, v, s.enq, g, g.marks[v].published - 1);
    FrontNow(g.marks, v, i, g.seen, t);
    FrontState(s, t, i, end, v);
    BaseReady(t, i, end, v, s.headers[v].front, s.enq, g.(seen := g.seen[t := g.marks[v].published - 1]));
    ReadStep(s, g, t, LoadBase(i, end, v, s.headers[v].front), g.marks[v].published - 1);
  }

  lemma FrontReady(t: Thread, i: nat, end: nat, v: nat, enq: seq<int>, g: Witness)
    requires ConsumerOk(LoadFront(i, end, v), t, enq, g)
    ensures i < end && Claims(t, i, end, v, enq, g)
  {
    hide Claims;
  }

  lemma BaseReady(t: Thread, i: nat, end: nat, v: nat, f: nat, enq: seq<int>, g: Witness)
    requires i < end && Claims(t, i, end, v, enq, g) && FrontSeen(g.marks, v, i, f, SeenAt(g.seen, t))
    ensures ConsumerOk(LoadBase(i, end, v, f), t, enq, g)
  {
    hide Claims, FrontSeen;
  }

  lemma FrontState(s: State, t: Thread, i: nat, end: nat, v: nat)
    requires t in s.consumers && s.consumers[t] == LoadFront(i, end, v) && v < |s.headers|
    ensures ConsumerStep(s, t, s.consumers[t]) ==
          s.(consumers := s.consumers[t := LoadBase(i, end, v, s.headers[v].front)])
  {
  }

  /** The entry of block number k in a header. */
  lemma EntryIs(h: Header, m: Mark, blocks: seq<Block>, low: nat, k: nat)
    requires HeaderOk(h, m, blocks, low) && low <= k < m.published
    ensures EntryAt(h.entries, SlotOf(Pow2(m.log), m.first, k)) == Entry(Wrap(k * BLOCK_SIZE), BlockAt(blocks, k))
    ensures h.log == m.log <= 59 && k < |blocks|
  {
    hide SlotOf, Wrap, Pow2, EntryAt, BlockAt;
  }

  /** A thread's first index is one of those it claimed, and its block is live. */
  lemma ClaimFacts(t: Thread, i: nat, end: nat, v: nat, enq: seq<int>, g: Witness)
    requires Claims(t, i, end, v, enq, g) && i < end
    ensures At(g.at, i) == Claimed(t) && v < |g.marks| && i / BLOCK_SIZE < g.marks[v].published
  {
  }

  lemma FrontIs(h: Header, m: Mark, blocks: seq<Block>, low: nat, k: nat)
    requires HeaderOk(h, m, blocks, low) && low <= k < m.published
    ensures h.front == SlotOf(Pow2(m.log), m.first, m.published - 1)
  {
    hide SlotOf, Pow2, EntryAt, BlockAt;
  }

  /** The newest block published is a front not before i's block. */
  lemma FrontNow(marks: seq<Mark>, v: nat, i: nat, seen: map<Thread, nat>, t: Thread)
    requires v < |marks| && i / BLOCK_SIZE < marks[v].published
    ensures var k := marks[v].published - 1;
      FrontSeen(marks, v, i, SlotOf(Pow2(marks[v].log), marks[v].first, k), SeenAt(seen[t := k], t))
  {
    hide SlotOf, Pow2;
  }

  /** What a thread claims does not depend on what threads have seen. */
  lemma ClaimsSeen(t: Thread, i: nat, end: nat, v: nat, enq: seq<int>, g: Witness, k: nat)
    requires Claims(t, i, end, v, enq, g)
    ensures Claims(t, i, end, v, enq, g.(seen := g.seen[t := k]))
  {
  }

  lemma StepLoadBase(s: State, g: Witness, t: Thread, i: nat, end: nat, v: nat, f: nat)
    requires Inv(s, g) && t in s.consumers && s.consumers[t] == LoadBase(i, end, v, f) && Windowed(s)
    ensures Inv(ConsumerStep(s, t, s.consumers[t]), g.(seen := g.seen[t := 0]))
  {
    ThreadFacts(s, g, t);
    WindowFacts(s, g);
    hide Inv, HeaderOk, At, SlotOf, Pow2, Wrap, EntryAt, BlockAt, LookUp, Claims, SeenAt;
    var k := SeenAt(g.seen, t);
    ClaimFacts(t, i, end, v, s.enq, g);
    HeaderFacts(s, g, v);
    var m := g.marks[v];
    EntryIs(s.headers[v], m, g.blocks, g.low, k);
    LookUpFinds(m.log, m.first, i, k);
    ReadStep(s, g, t, LoadBlock(i, end, v, SlotOf(Pow2(m.log), m.first, i / BLOCK_SIZE), i, []), 0);
  }

  /** The part of a block's indices that begins at i does not end there. */
  lemma PartBegins(i: nat, end: nat)
    requires i < end
    ensures i < PartEnd(i, end) <= end
  {
  }

  /** Indices of one part are in one block, and the next part begins in the next block. */
  lemma PartFacts(i: nat, first: nat, end: nat)
    requires first <= i < PartEnd(first, end)
    ensures i / BLOCK_SIZE == first / BLOCK_SIZE && i < end && PartEnd(first, end) <= end
    ensures PartEnd(first, end) < end ==> PartEnd(first, end) / BLOCK_SIZE == first / BLOCK_SIZE + 1
  {
  }

  lemma StepLoadBlock(s: State, g: Witness, t: Thread, i: nat, end: nat, v: nat, at: nat, from: nat,
      got: seq<Option<int>>)
    requires Inv(s, g) && t in s.consumers && s.consumers[t] == LoadBlock(i, end, v, at, from, got)
    ensures Inv(ConsumerStep(s, t, s.consumers[t]), g.(seen := g.seen[t := 0]))
  {
    ThreadFacts(s, g, t);
    hide Inv, HeaderOk, At, SlotOf, Pow2, Wrap, EntryAt, BlockAt, Claims, PartEnd;
    ClaimFacts(t, i, end, v, s.enq, g);
    HeaderFacts(s, g, v);
    EntryIs(s.headers[v], g.marks[v], g.blocks, g.low, i / BLOCK_SIZE);
    PartBegins(i, end);
    ReadStep(s, g, t, Take(i, end, v, at, BlockAt(g.blocks, i / BLOCK_SIZE), i, from, got), 0);
  }

  lemma WindowFacts(s: State, g: Witness)
    requires Inv(s, g) && Windowed(s)
    ensures |g.blocks| < g.low + SPAN
  {
    hide RingOk, FatesOk, FlagsOk, CellsOk, ConsumersOk, HeadersOk, Scanned, TailFits, IndexFits;
  }

  /** Fates move on, never back from Done; the producer is not concerned. */
  lemma ProducerFate(pc: Producer, tail: nat, head: nat, used: nat, front: nat, g: Witness, at': map<nat, Fate>,
      head': nat)
    requires ProducerOk(pc, tail, head, used, front, g) && head' <= tail
    requires forall j: nat | At(g.at, j) == Done :: At(at', j) == Done
    ensures ProducerOk(pc, tail, head', used, front, g.(at := at'))
  {
    hide TailFits, IndexFits, At;
  }

  /** n indices from lo on are claimed by t. */
  function ClaimRange(at: map<nat, Fate>, lo: nat, n: nat, t: Thread): (r: map<nat, Fate>)
    ensures forall j: nat :: At(r, j) == if lo <= j < lo + n then Claimed(t) else At(at, j)
    decreases n
  {
    if n == 0 then at
    else
      var before := ClaimRange(at, lo, n - 1, t);
      OneFate(before, lo + n - 1, Claimed(t), before[lo + n - 1 := Claimed(t)]);
      before[lo + n - 1 := Claimed(t)]
  }

  lemma StepClaim(s: State, g: Witness, t: Thread, n: nat)
    requires Inv(s, g) && t in s.consumers && s.consumers[t] == Idle && 0 < n <= s.tail - s.head
    ensures Inv(Apply(s, Claim(t, n)), g.(at := ClaimRange(g.at, s.head, n, t)))
  {
    hide RingOk, HeadersOk, ProducerOk, ConsumersOk, CellOf, FlagOf, Flag, Content, At, ClaimRange;
    var g' := g.(at := ClaimRange(g.at, s.head, n, t));
    assert forall j: nat | s.head <= j :: At(g.at, j) == Waiting;
    ProducerFate(s.producer, s.tail, s.head, s.slotsUsed, s.front, g, g'.at, s.head + n);
    ConsumersMove(s.consumers, s.enq, g, t, LoadHeader(s.head, s.head + n), g');
  }

  /** Index i of an element in memory lies in a live block. */
  lemma StoredFit(s: State, g: Witness)
    requires Inv(s, g)
    ensures |Stored(s.producer, s.enq)| <= |g.blocks| * BLOCK_SIZE
    ensures s.head <= s.tail <= |g.blocks| * BLOCK_SIZE
  {
    hide RingOk, FatesOk, FlagsOk, CellsOk, ConsumersOk, HeadersOk, Scanned, IndexFits;
  }

  /** Emptying i's cell leaves every other stored element in place. */
  lemma TakeCells(s: State, g: Witness, i: nat, t: Thread, stored: seq<int>)
    requires RingOk(s.tailBlock, s.next, g.blocks, g.low) && CellsOk(s.cells, g.blocks, g.low, g.at, stored)
    requires |stored| <= |g.blocks| * BLOCK_SIZE && g.low * BLOCK_SIZE <= i < |g.blocks| * BLOCK_SIZE
    ensures CellsOk(s.cells[CellOf(g.blocks, i) := None], g.blocks, g.low, g.at[i := Emptied(t)], stored)
  {
    hide RingOk, CellOf, FlagOf;
    var at' := g.at[i := Emptied(t)];
    var cells' := s.cells[CellOf(g.blocks, i) := None];
    forall j: nat | g.low * BLOCK_SIZE <= j < |stored| && (At(at', j).Waiting? || At(at', j).Claimed?)
      ensures Content(cells', CellOf(g.blocks, j)) == Some(stored[j])
    {
      CellsDistinct(s.tailBlock, s.next, g.blocks, g.low, i, j);
      assert Content(s.cells, CellOf(g.blocks, j)) == Some(stored[j]);
    }
  }

  /** The fates around an index that is taken, or marked empty. */
  lemma OneFate(at: map<nat, Fate>, i: nat, f: Fate, at': map<nat, Fate>)
    requires at' == at[i := f]
    ensures forall j: nat :: At(at', j) == if j == i then f else At(at, j)
  {
  }

  /** What the thread has got, with one element more. */
  lemma GotMore(got: seq<Option<int>>, enq: seq<int>, from: nat, i: nat)
    requires Got(got, enq, from, i) && i < |enq|
    ensures Got(got + [Some(enq[i])], enq, from, i + 1)
  {
  }

  lemma TakenOk(s: State, g: Witness, t: Thread, pc: Consumer, g': Witness)
    requires pc.Take? && ConsumerOk(pc, t, s.enq, g) && g' == g.(at := g.at[pc.index := Emptied(t)])
    ensures pc.index < |s.enq|
    ensures var got := pc.got + [Some(s.enq[pc.index])];
      ConsumerOk(if pc.index + 1 < PartEnd(pc.first, pc.end)
                 then Take(pc.index + 1, pc.end, pc.header, pc.at, pc.block, pc.first, pc.from, got)
                 else SetEmpty(pc.index, pc.end, pc.header, pc.at, pc.block, pc.first, pc.from, got), t, s.enq, g')
  {
    OneFate(g.at, pc.index, Emptied(t), g'.at);
    PartFacts(pc.index, pc.first, pc.end);
    GotMore(pc.got, s.enq, pc.from, pc.index);
    hide At, InHeader, SlotIs, BlockAt, Got;
    if pc.index + 1 < PartEnd(pc.first, pc.end) {
      PartFacts(pc.index + 1, pc.first, pc.end);
    }
    hide PartEnd;
  }

  /** The element of an index that is claimed and not yet taken is where the thread looks for it. */
  lemma TakeFacts(s: State, g: Witness, t: Thread)
    requires Inv(s, g) && t in s.consumers && s.consumers[t].Take?
    ensures var pc := s.consumers[t];
      pc.index < |s.enq| && Content(s.cells, Cell(pc.block, pc.index % BLOCK_SIZE)) == Some(s.enq[pc.index])
    ensures var i := s.consumers[t].index;
      && At(g.at, i) == Claimed(t) && g.low * BLOCK_SIZE <= i < |g.blocks| * BLOCK_SIZE
      && Cell(s.consumers[t].block, i % BLOCK_SIZE) == CellOf(g.blocks, i)
  {
    ThreadFacts(s, g, t);
    StoredFit(s, g);
    var pc := s.consumers[t];
    PartFacts(pc.index, pc.first, pc.end);
    assert At(g.at, pc.index) == Claimed(t);
    assert CellOf(g.blocks, pc.index) == Cell(pc.block, pc.index % BLOCK_SIZE);
    hide RingOk, FatesOk, FlagsOk, HeadersOk, ProducerOk, ConsumersOk, ConsumerOk, PartEnd, CellOf, At;
  }

  /** The parts of the invariant, one by one. */
  lemma AllParts(s: State, g: Witness)
    requires Inv(s, g)
    ensures |s.enq| == s.tail && s.head <= s.tail && Parts(s, g)
    ensures RingOk(s.tailBlock, s.next, g.blocks, g.low) && FatesOk(s.head, g.at, g.low)
    ensures FlagsOk(s.flags, g.blocks, g.low, g.at)
          && CellsOk(s.cells, g.blocks, g.low, g.at, Stored(s.producer, s.enq))
    ensures HeadersOk(s.headers, g.marks, g.blocks, g.low) && ConsumersOk(s.consumers, s.enq, g)
    ensures ProducerOk(s.producer, s.tail, s.head, s.slotsUsed, s.front, g)
  {
    hide RingOk, FatesOk, FlagsOk, CellsOk, HeadersOk, ConsumersOk, TailFits, IndexFits, Scanned;
  }

  lemma FromParts(s: State, g: Witness)
    requires |s.enq| == s.tail
    requires RingOk(s.tailBlock, s.next, g.blocks, g.low) && FatesOk(s.head, g.at, g.low)
    requires FlagsOk(s.flags, g.blocks, g.low, g.at)
          && CellsOk(s.cells, g.blocks, g.low, g.at, Stored(s.producer, s.enq))
    requires HeadersOk(s.headers, g.marks, g.blocks, g.low) && ConsumersOk(s.consumers, s.enq, g)
    requires ProducerOk(s.producer, s.tail, s.head, s.slotsUsed, s.front, g)
    ensures Inv(s, g)
  {
    hide RingOk, FatesOk, FlagsOk, CellsOk, HeadersOk, ConsumersOk, ProducerOk;
  }

  /** The fate of a claimed index moves on. */
  lemma FateMoves(head: nat, at: map<nat, Fate>, low: nat, i: nat, f: Fate, at': map<nat, Fate>)
    requires FatesOk(head, at, low) && at' == at[i := f] && At(at, i) != Waiting && At(at, i) != Done && f != Waiting
    ensures FatesOk(head, at', low) && forall j: nat | At(at, j) == Done :: At(at', j) == Done
  {
    OneFate(at, i, f, at');
    hide At;
  }

  lemma FlagsKeep(flags: map<Cell, bool>, blocks: seq<Block>, low: nat, at: map<nat, Fate>, i: nat, f: Fate,
      at': map<nat, Fate>)
    requires FlagsOk(flags, blocks, low, at) && at' == at[i := f] && At(at, i) != Done && f != Done
    ensures FlagsOk(flags, blocks, low, at')
  {
    OneFate(at, i, f, at');
    hide At, Flag, FlagOf;
  }

  lemma CellsKeep(cells: map<Cell, Option<int>>, blocks: seq<Block>, low: nat, at: map<nat, Fate>, stored: seq<int>,
      i: nat,
                  at': map<nat, Fate>)
    requires CellsOk(cells, blocks, low, at, stored) && at' == at[i := Done]
    ensures CellsOk(cells, blocks, low, at', stored)
  {
    OneFate(at, i, Done, at');
    hide At, Content, CellOf;
  }

  lemma OwnFate(g: Witness, t: Thread, i: nat, f: Fate, g': Witness)
    requires g' == g.(at := g.at[i := f]) && (At(g.at, i) == Claimed(t) || At(g.at, i) == Emptied(t))
    ensures forall j: nat :: FateKept(g.at, g'.at, t, j)
  {
    OneFate(g.at, i, f, g'.at);
    hide At;
  }

  lemma TakeState(s: State, t: Thread, c: Cell)
    requires t in s.consumers && s.consumers[t].Take?
          && c == Cell(s.consumers[t].block, s.consumers[t].index % BLOCK_SIZE)
    ensures var pc := s.consumers[t]; var got := pc.got + [Content(s.cells, c)];
      ConsumerStep(s, t, pc) == s.(cells := s.cells[c := None],
        consumers := s.consumers[t := if pc.index + 1 < PartEnd(pc.first, pc.end)
                                      then Take(pc.index + 1, pc.end, pc.header, pc.at, pc.block, pc.first, pc.from,
                                          got)
                                      else SetEmpty(pc.index, pc.end, pc.header, pc.at, pc.block, pc.first, pc.from,
                                          got)])
  {
    hide PartEnd, Content;
  }

  lemma StepTake(s: State, g: Witness, t: Thread)
    requires Inv(s, g) && t in s.consumers && s.consumers[t].Take?
    ensures Inv(ConsumerStep(s, t, s.consumers[t]), g.(at := g.at[s.consumers[t].index := Emptied(t)]))
  {
    hide *;
    var pc := s.consumers[t];
    var i := pc.index;
    var g' := g.(at := g.at[i := Emptied(t)]);
    var s' := ConsumerStep(s, t, pc);
    AllParts(s, g);
    ThreadFacts(s, g, t);
    StoredFit(s, g);
    TakeFacts(s, g, t);
    TakeState(s, t, CellOf(g.blocks, i));
    FateMoves(s.head, g.at, g.low, i, Emptied(t), g'.at);
    FlagsKeep(s.flags, g.blocks, g.low, g.at, i, Emptied(t), g'.at);
    TakeCells(s, g, i, t, Stored(s.producer, s.enq));
    ProducerFate(s.producer, s.tail, s.head, s.slotsUsed, s.front, g, g'.at, s.head);
    TakenOk(s, g, t, pc, g');
    OwnFate(g, t, i, Emptied(t), g');
    ConsumersMove(s.consumers, s.enq, g, t, s'.consumers[t], g');
    FromParts(s', g');
  }

  lemma SetEmptyFlags(s: State, g: Witness, i: nat)
    requires RingOk(s.tailBlock, s.next, g.blocks, g.low) && FlagsOk(s.flags, g.blocks, g.low, g.at)
    requires g.low * BLOCK_SIZE <= i < |g.blocks| * BLOCK_SIZE
    ensures FlagsOk(s.flags[FlagOf(g.blocks, i) := true], g.blocks, g.low, g.at[i := Done])
  {
    hide RingOk, CellOf, FlagOf;
    var flags' := s.flags[FlagOf(g.blocks, i) := true];
    forall j: nat | g.low * BLOCK_SIZE <= j < |g.blocks| * BLOCK_SIZE
      ensures Flag(flags', FlagOf(g.blocks, j)) == (At(g.at[i := Done], j) == Done)
    {
      if j != i {
        CellsDistinct(s.tailBlock, s.next, g.blocks, g.low, i, j);
        assert Flag(s.flags, FlagOf(g.blocks, j)) == (At(g.at, j) == Done);
      }
    }
  }

  lemma EmptiedOk(s: State, g: Witness, t: Thread, pc: Consumer, g': Witness)
    requires pc.SetEmpty? && ConsumerOk(pc, t, s.enq, g) && g' == g.(at := g.at[pc.index := Done])
    requires |s.headers| == |g.marks| && forall v: nat | v < |s.headers| :: s.headers[v].log == g.marks[v].log
    ensures ConsumerOk(if pc.index > pc.first then pc.(index := pc.index - 1) else Onward(s.headers, pc), t, s.enq, g')
  {
    OneFate(g.at, pc.index, Done, g'.at);
    PartFacts(pc.index, pc.first, pc.end);
    hide At, InHeader, BlockAt, Got;
    if pc.index > pc.first {
      PartFacts(pc.index - 1, pc.first, pc.end);
      hide PartEnd, SlotIs;
    } else if PartEnd(pc.first, pc.end) < pc.end {
      var m := g.marks[pc.header];
      SlotNext(Pow2(m.log), m.first, pc.first / BLOCK_SIZE);
      hide PartEnd, SlotOf, Pow2;
    }
  }

  lemma HeaderLogs(s: State, g: Witness)
    requires Inv(s, g)
    ensures |s.headers| == |g.marks| && forall v: nat | v < |s.headers| :: s.headers[v].log == g.marks[v].log
  {
    hide RingOk, FatesOk, FlagsOk, CellsOk, ProducerOk, HeaderOk, ConsumersOk;
    forall v: nat | v < |s.headers|
      ensures s.headers[v].log == g.marks[v].log
    {
      HeaderLog(s.headers[v], g.marks[v], g.blocks, g.low);
    }
  }

  lemma HeaderLog(h: Header, m: Mark, blocks: seq<Block>, low: nat)
    requires HeaderOk(h, m, blocks, low)
    ensures h.log == m.log
  {
  }

  /** The flag of an index that is taken and not yet marked empty is where the thread sets it. */
  lemma EmptyFacts(s: State, g: Witness, t: Thread)
    requires Inv(s, g) && t in s.consumers && s.consumers[t].SetEmpty?
    ensures var i := s.consumers[t].index;
      && At(g.at, i) == Emptied(t) && g.low * BLOCK_SIZE <= i < |g.blocks| * BLOCK_SIZE
      && Cell(s.consumers[t].block, BLOCK_SIZE - 1 - i % BLOCK_SIZE) == FlagOf(g.blocks, i)
  {
    ThreadFacts(s, g, t);
    var pc := s.consumers[t];
    assert At(g.at, pc.index) == Emptied(t);
    hide Inv, PartEnd, At, Claims, Got;
  }

  lemma EmptyState(s: State, t: Thread, c: Cell)
    requires t in s.consumers && s.consumers[t].SetEmpty?
    requires c == Cell(s.consumers[t].block, BLOCK_SIZE - 1 - s.consumers[t].index % BLOCK_SIZE)
    ensures var pc := s.consumers[t];
      ConsumerStep(s, t, pc) == s.(flags := s.flags[c := true],
        consumers := s.consumers[t := if pc.index > pc.first
            then pc.(index := pc.index - 1) else Onward(s.headers, pc)])
  {
    hide Onward;
  }

  lemma StepSetEmpty(s: State, g: Witness, t: Thread)
    requires Inv(s, g) && t in s.consumers && s.consumers[t].SetEmpty?
    ensures Inv(ConsumerStep(s, t, s.consumers[t]), g.(at := g.at[s.consumers[t].index := Done]))
  {
    hide *;
    var pc := s.consumers[t];
    var i := pc.index;
    var g' := g.(at := g.at[i := Done]);
    var s' := ConsumerStep(s, t, pc);
    AllParts(s, g);
    ThreadFacts(s, g, t);
    EmptyFacts(s, g, t);
    HeaderLogs(s, g);
    EmptyState(s, t, FlagOf(g.blocks, i));
    FateMoves(s.head, g.at, g.low, i, Done, g'.at);
    SetEmptyFlags(s, g, i);
    CellsKeep(s.cells, g.blocks, g.low, g.at, Stored(s.producer, s.enq), i, g'.at);
    ProducerFate(s.producer, s.tail, s.head, s.slotsUsed, s.front, g, g'.at, s.head);
    EmptiedOk(s, g, t, pc, g');
    OwnFate(g, t, i, Done, g');
    ConsumersMove(s.consumers, s.enq, g, t, s'.consumers[t], g');
    FromParts(s', g');
  }

  // ---------------------------------------------------------------------------
  // Steps of the enqueueing thread
  // ---------------------------------------------------------------------------

  /** Later states only add elements, blocks, headers and published entries. */
  ghost predicate Later(enq: seq<int>, g: Witness, enq': seq<int>, g': Witness) {
    && enq <= enq'
    && g.blocks <= g'.blocks
    && g'.at == g.at && g'.seen == g.seen
    && |g.marks| <= |g'.marks|
    && forall v | 0 <= v < |g.marks| ::
         && g'.marks[v].log == g.marks[v].log && g'.marks[v].first == g.marks[v].first
         && g.marks[v].published <= g'.marks[v].published
  }

  lemma ConsumersLater(pcs: map<Thread, Consumer>, enq: seq<int>, g: Witness, enq': seq<int>, g': Witness)
    requires ConsumersOk(pcs, enq, g) && Later(enq, g, enq', g')
    ensures ConsumersOk(pcs, enq', g')
  {
    hide ConsumerOk, Later;
    forall t | t in pcs
      ensures ConsumerOk(pcs[t], t, enq', g')
    {
      ConsumerLater(pcs[t], t, enq, g, enq', g');
    }
  }

  lemma ConsumerLater(pc: Consumer, t: Thread, enq: seq<int>, g: Witness, enq': seq<int>, g': Witness)
    requires ConsumerOk(pc, t, enq, g) && Later(enq, g, enq', g')
    ensures ConsumerOk(pc, t, enq', g')
  {
    hide SlotOf, Wrap, Pow2, At, SeenAt, PartEnd;
  }

  /** A step that moves only the producer's program counter. */
  lemma ProducerMoves(s: State, g: Witness, pc: Producer)
    requires Inv(s, g) && !pc.Publish? && !s.producer.Publish?
    requires ProducerOk(pc, s.tail, s.head, s.slotsUsed, s.front, g)
    ensures Inv(s.(producer := pc), g)
  {
    hide RingOk, FatesOk, FlagsOk, CellsOk, HeadersOk, ProducerOk, ConsumersOk;
  }

  lemma ProducerFacts(s: State, g: Witness)
    requires Inv(s, g)
    ensures ProducerOk(s.producer, s.tail, s.head, s.slotsUsed, s.front, g) && |s.enq| == s.tail
    ensures |s.headers| == |g.marks| > 0 && HeadersOk(s.headers, g.marks, g.blocks, g.low)
    ensures HeaderOk(Current(s), LastMark(g.marks), g.blocks, g.low)
    ensures g.blocks != [] ==> g.low < |g.blocks| && NextBlock(s) == BlockAt(g.blocks, g.low)
    ensures if g.blocks == [] then s.tailBlock == None && g.low == 0 else s.tailBlock == Some(g.blocks[|g.blocks| - 1])
  {
    hide FatesOk, FlagsOk, CellsOk, ConsumersOk, TailFits, IndexFits, Scanned, HeaderOk;
    if g.blocks != [] {
      assert s.tailBlock.value == BlockAt(g.blocks, |g.blocks| - 1);
    }
  }

  /** enqueue starts a block exactly when the blocks started are full. */
  lemma StartFits(tail: nat, count: nat)
    requires TailFits(Ready, tail, count)
    ensures tail % BLOCK_SIZE != 0 ==> tail < count * BLOCK_SIZE <= tail + BLOCK_SIZE
    ensures tail % BLOCK_SIZE == 0 ==> tail == count * BLOCK_SIZE
  {
  }

  lemma StepEnqueue(s: State, g: Witness, x: int)
    requires Inv(s, g) && s.producer == Ready
    ensures Inv(Apply(s, Enqueue(x)), g)
  {
    ProducerFacts(s, g);
    StartFits(s.tail, |g.blocks|);
    hide Inv, SlotOf, HeaderOk, Pow2, RingOk, NextBlock, Current;
    var pc := StartOf(s, x);
    assert ProducerOk(pc, s.tail, s.head, s.slotsUsed, s.front, g);
    ProducerMoves(s, g, pc);
  }

  lemma StepScan(s: State, g: Witness, x: int, j: nat)
    requires Inv(s, g) && s.producer == Scan(x, j)
    ensures Inv(ProducerStep(s, s.producer, true, 0), g)
  {
    ProducerFacts(s, g);
    ScanFlag(s, g, j);
    hide Inv;
    hide SlotOf, HeaderOk;
    ProducerMoves(s, g, ProducerStep(s, s.producer, true, 0).producer);
  }

  lemma ScanFlag(s: State, g: Witness, j: nat)
    requires Inv(s, g) && g.blocks != [] && g.low < |g.blocks| && NextBlock(s) == BlockAt(g.blocks, g.low)
          && j < BLOCK_SIZE
    ensures Flag(s.flags, Cell(NextBlock(s), j)) ==> At(g.at, g.low * BLOCK_SIZE + (BLOCK_SIZE - 1 - j)) == Done
  {
    hide RingOk, FatesOk, CellsOk, HeadersOk, ProducerOk, ConsumersOk;
    var i := g.low * BLOCK_SIZE + (BLOCK_SIZE - 1 - j);
    assert FlagOf(g.blocks, i) == Cell(NextBlock(s), j);
  }

  lemma StepLeeway(s: State, g: Witness, x: int)
    requires Inv(s, g) && s.producer == Leeway(x)
    ensures Inv(ProducerStep(s, s.producer, true, 0), g)
  {
    ProducerFacts(s, g);
    hide Inv;
    hide SlotOf;
    ProducerMoves(s, g, ProducerStep(s, s.producer, true, 0).producer);
  }

  lemma SizeBound(log: nat)
    requires Pow2(log) * BLOCK_SIZE <= HALF
    ensures log <= 58
  {
    hide Pow2;
    Pow2OfWindow();
    Pow2Mono(59, log);
  }

  lemma {:induction false} Pow2Mono(a: nat, b: nat)
    ensures a <= b ==> Pow2(a) <= Pow2(b)
    decreases b
  {
    if a < b {
      Pow2Mono(a, b - 1);
    }
  }

  lemma GrownEntry(h: Header, m: Mark, blocks: seq<Block>, low: nat, front: nat, used: nat, k: nat)
    requires HeaderOk(h, m, blocks, low) && m.indexed == m.published == |blocks| && used + low == |blocks|
    requires used == Pow2(m.log) && front == SlotOf(used, m.first, |blocks|) && low <= k < |blocks|
    ensures EntryAt(CopyEntries(h.entries, used, front, used), SlotOf(2 * used, low, k)) ==
            Entry(Wrap(k * BLOCK_SIZE), BlockAt(blocks, k))
  {
    ModUnique(k - low, 2 * used, 0, k - low);
    SourceOf(used, m.first, |blocks|, used, k - low);
    hide Pow2;
    assert EntryAt(h.entries, SlotOf(used, m.first, k)) == Entry(Wrap(k * BLOCK_SIZE), BlockAt(blocks, k));
  }

  /** A doubled index is in order for the live blocks. */
  lemma GrownHeader(h: Header, m: Mark, blocks: seq<Block>, low: nat, front: nat, used: nat)
    requires HeaderOk(h, m, blocks, low) && m.indexed == m.published == |blocks| && used + low == |blocks|
    requires used == Pow2(m.log) && used * BLOCK_SIZE <= HALF && front == SlotOf(Pow2(m.log), m.first, |blocks|)
    ensures HeaderOk(Header(h.log + 1, Wrap(used - 1), CopyEntries(h.entries, Pow2(h.log), front, used)),
                     Mark(m.log + 1, low, |blocks|, |blocks|), blocks, low)
    ensures used == SlotOf(Pow2(m.log + 1), low, |blocks|)
  {
    SizeBound(m.log);
    Pow2Step(m.log);
    LastSlots(used, low);
    var copied := CopyEntries(h.entries, used, front, used);
    hide Pow2, SlotOf, EntryAt, BlockAt, Wrap, CopyEntries;
    forall k: nat | low <= k < |blocks|
      ensures EntryAt(copied, SlotOf(2 * used, low, k)) == Entry(Wrap(k * BLOCK_SIZE), BlockAt(blocks, k))
    {
      GrownEntry(h, m, blocks, low, front, used, k);
    }
  }

  lemma LastSlots(used: nat, low: nat)
    requires 0 < used <= HALF
    ensures SlotOf(2 * used, low, low + used) == used
    ensures SlotOf(2 * used, low, low + used - 1) == used - 1 == Wrap(used - 1)
  {
    ModUnique(used, 2 * used, 0, used);
    ModUnique(used - 1, 2 * used, 0, used - 1);
  }

  ghost function Grown(g: Witness): Witness {
    g.(marks := g.marks + [Mark(LastMark(g.marks).log + 1, g.low, |g.blocks|, |g.blocks|)])
  }

  lemma StepGrow(s: State, g: Witness, x: int)
    requires Inv(s, g) && s.producer == Grow(x) && Windowed(s)
    ensures Inv(ProducerStep(s, s.producer, true, 0), Grown(g))
  {
    hide Inv, Parts, HeaderOk, Pow2, SlotOf, CopyEntries, NextBlock, Current;
    var s', g' := ProducerStep(s, s.producer, true, 0), Grown(g);
    var m := LastMark(g.marks);
    ProducerFacts(s, g);
    GrownHeader(Current(s), m, g.blocks, g.low, s.front, s.slotsUsed);
    Pow2Step(m.log);
    assert Current(s).log == m.log by { CurrentLog(s, g); }
    assert ProducerOk(s'.producer, s'.tail, s'.head, s'.slotsUsed, s'.front, g');
    HeadersAppend(s.headers, g.marks, g.blocks, g.low, s'.headers[|s.headers|], g'.marks[|g.marks|]);
    HeaderParts(s, g, s', g');
    InvOf(s', g');
  }

  lemma HeadersAppend(headers: seq<Header>, marks: seq<Mark>, blocks: seq<Block>, low: nat, h: Header, m: Mark)
    requires HeadersOk(headers, marks, blocks, low) && HeaderOk(h, m, blocks, low)
    ensures HeadersOk(headers + [h], marks + [m], blocks, low)
  {
    hide HeaderOk;
  }

  lemma CurrentLog(s: State, g: Witness)
    requires HeaderOk(Current(s), LastMark(g.marks), g.blocks, g.low)
    ensures Current(s).log == LastMark(g.marks).log
  {
  }

  lemma InvOf(s: State, g: Witness)
    requires |s.enq| == s.tail && Parts(s, g) && ProducerOk(s.producer, s.tail, s.head, s.slotsUsed, s.front, g)
    ensures Inv(s, g)
  {
  }

  lemma HeaderParts(s: State, g: Witness, s': State, g': Witness)
    requires Inv(s, g) && Later(s.enq, g, s'.enq, g') && Stored(s'.producer, s'.enq) == Stored(s.producer, s.enq)
    requires s' == s.(headers := s'.headers, front := s'.front, producer := s'.producer)
    requires g'.blocks == g.blocks && g'.low == g.low && HeadersOk(s'.headers, g'.marks, g.blocks, g.low)
    ensures Parts(s', g')
  {
    hide RingOk, FatesOk, FlagsOk, CellsOk, HeadersOk, ProducerOk, ConsumersOk;
    ConsumersLater(s.consumers, s.enq, g, s'.enq, g');
  }

  /** Live cells and flags keep their place when a block is added at the end. */
  lemma BlocksExtend(blocks: seq<Block>, b: Block)
    ensures forall k: nat | k < |blocks| :: BlockAt(blocks + [b], k) == BlockAt(blocks, k)
    ensures BlockAt(blocks + [b], |blocks|) == b
  {
  }

  lemma HeadersExtend(headers: seq<Header>, marks: seq<Mark>, blocks: seq<Block>, low: nat, b: Block, low': nat)
    requires HeadersOk(headers, marks, blocks, low) && low <= low'
    ensures HeadersOk(headers, marks, blocks + [b], low')
  {
    BlocksExtend(blocks, b);
    forall v | 0 <= v < |headers|
      ensures HeaderOk(headers[v], marks[v], blocks + [b], low')
    {
      hide SlotOf, Pow2, Wrap, BlockAt, EntryAt;
      assert HeaderOk(headers[v], marks[v], blocks, low);
    }
  }

  /** Starting a block that no live block is: its flags are cleared, the others' are not touched. */
  lemma StartFlags(flags: map<Cell, bool>, blocks: seq<Block>, low: nat, at: map<nat, Fate>, b: Block, low': nat,
      head: nat)
    requires FlagsOk(flags, blocks, low, at) && FatesOk(head, at, low) && low <= low' <= |blocks|
          && head <= |blocks| * BLOCK_SIZE
    requires forall k: nat | low' <= k < |blocks| :: BlockAt(blocks, k) != b
    ensures FlagsOk(ResetEmpty(flags, b), blocks + [b], low', at)
  {
    BlocksExtend(blocks, b);
    hide BlockAt;
    forall i: nat | low' * BLOCK_SIZE <= i < |blocks + [b]| * BLOCK_SIZE
      ensures Flag(ResetEmpty(flags, b), FlagOf(blocks + [b], i)) == (At(at, i) == Done)
    {
      if i < |blocks| * BLOCK_SIZE {
        var k := i / BLOCK_SIZE;
        assert low' <= k < |blocks|;
        assert FlagOf(blocks + [b], i) == FlagOf(blocks, i);
        assert Flag(flags, FlagOf(blocks, i)) == (At(at, i) == Done);
      } else {
        assert i / BLOCK_SIZE == |blocks|;
        assert At(at, i) == Waiting;
      }
    }
  }

  lemma StartCells(cells: map<Cell, Option<int>>, blocks: seq<Block>, low: nat, at: map<nat, Fate>, stored: seq<int>,
      b: Block, low': nat)
    requires CellsOk(cells, blocks, low, at, stored) && low <= low' && |stored| <= |blocks| * BLOCK_SIZE
    ensures CellsOk(cells, blocks + [b], low', at, stored)
  {
    BlocksExtend(blocks, b);
    hide BlockAt;
    forall i: nat | low' * BLOCK_SIZE <= i < |stored| && (At(at, i).Waiting? || At(at, i).Claimed?)
      ensures Content(cells, CellOf(blocks + [b], i)) == Some(stored[i])
    {
      assert i / BLOCK_SIZE < |blocks|;
      assert CellOf(blocks + [b], i) == CellOf(blocks, i);
    }
  }

  lemma RingInsert(s: State, g: Witness, b: Block)
    requires RingOk(s.tailBlock, s.next, g.blocks, g.low) && b !in s.next
    ensures RingOk(Some(b), if s.tailBlock.None?
          then s.next[b := b] else s.next[b := NextBlock(s)][s.tailBlock.value := b],
                   g.blocks + [b], g.low)
    ensures forall k: nat | g.low <= k < |g.blocks| :: BlockAt(g.blocks, k) != b
  {
    BlocksExtend(g.blocks, b);
    var n := |g.blocks|;
    if n > 0 {
      assert BlockAt(g.blocks, n - 1) == s.tailBlock.value;
      hide BlockAt;
      forall k: nat | g.low <= k < n
        ensures BlockAt(g.blocks, k) != b
      {
        assert BlockAt(g.blocks, k) in s.next;
      }
    }
  }

  /** The parts of the invariant after b becomes the tail block. */
  lemma StartParts(s: State, g: Witness, s': State, g': Witness, b: Block, low': nat)
    requires Inv(s, g) && g' == g.(blocks := g.blocks + [b], low := low') && g.low <= low' <= |g.blocks|
    requires Stored(s'.producer, s.enq) == Stored(s.producer, s.enq) == s.enq
    requires s' == s.(next := s'.next, flags := ResetEmpty(s.flags, b), tailBlock := Some(b),
                      slotsUsed := s'.slotsUsed, producer := s'.producer)
    requires RingOk(s'.tailBlock, s'.next, g'.blocks, g'.low) && FatesOk(s.head, g.at, low')
    requires forall k: nat | low' <= k < |g.blocks| :: BlockAt(g.blocks, k) != b
    ensures Parts(s', g')
  {
    StoredFit(s, g);
    hide RingOk, FatesOk, FlagsOk, CellsOk, HeadersOk, ConsumersOk, ProducerOk, ResetEmpty, BlockAt;
    StartFlags(s.flags, g.blocks, g.low, g.at, b, low', s.head);
    StartCells(s.cells, g.blocks, g.low, g.at, s.enq, b, low');
    HeadersExtend(s.headers, g.marks, g.blocks, g.low, b, low');
    ConsumersLater(s.consumers, s.enq, g, s.enq, g');
  }

  lemma RingFacts(s: State, g: Witness)
    requires Inv(s, g)
    ensures RingOk(s.tailBlock, s.next, g.blocks, g.low) && FatesOk(s.head, g.at, g.low)
  {
    hide RingOk, FatesOk, FlagsOk, CellsOk, HeadersOk, ConsumersOk, ProducerOk;
  }

  lemma StepRequisition(s: State, g: Witness, x: int, b: Block)
    requires Inv(s, g) && s.producer == Requisition(x) && b !in s.next
    ensures Inv(ProducerStep(s, s.producer, true, b), g.(blocks := g.blocks + [b]))
  {
    hide Inv, Parts, HeaderOk, HeadersOk, RingOk, FatesOk, Pow2, SlotOf, NextBlock, Current, BlockAt, ResetEmpty;
    ProducerFacts(s, g);
    RingFacts(s, g);
    var s', g' := ProducerStep(s, s.producer, true, b), g.(blocks := g.blocks + [b]);
    RingInsert(s, g, b);
    StartParts(s, g, s', g', b, g.low);
    InvOf(s', g');
  }

  lemma RingRotate(s: State, g: Witness)
    requires RingOk(s.tailBlock, s.next, g.blocks, g.low) && g.blocks != []
    ensures RingOk(Some(BlockAt(g.blocks, g.low)), s.next, g.blocks + [BlockAt(g.blocks, g.low)], g.low + 1)
    ensures forall k: nat | g.low + 1 <= k < |g.blocks| :: BlockAt(g.blocks, k) != BlockAt(g.blocks, g.low)
  {
    var b := BlockAt(g.blocks, g.low);
    BlocksExtend(g.blocks, b);
    hide BlockAt;
    assert BlockAt(g.blocks, g.low) in s.next;
    assert (g.blocks + [b])[|g.blocks|] == b;
  }

  lemma FatesAdvance(head: nat, at: map<nat, Fate>, low: nat)
    requires FatesOk(head, at, low) && Scanned(Reuse(0), low, at)
    ensures FatesOk(head, at, low + 1)
  {
  }

  lemma StepReuse(s: State, g: Witness, x: int)
    requires Inv(s, g) && s.producer == Reuse(x)
    ensures Inv(ProducerStep(s, s.producer, true, 0), g.(blocks := g.blocks + [NextBlock(s)], low := g.low + 1))
  {
    hide Inv, Parts, HeaderOk, HeadersOk, RingOk, FatesOk, Pow2, SlotOf, NextBlock, Current, BlockAt, ResetEmpty;
    ProducerFacts(s, g);
    RingFacts(s, g);
    var b := NextBlock(s);
    var s', g' := ProducerStep(s, s.producer, true, 0), g.(blocks := g.blocks + [b], low := g.low + 1);
    FatesAdvance(s.head, g.at, g.low);
    RingRotate(s, g);
    StartParts(s, g, s', g', b, g.low + 1);
    InvOf(s', g');
  }

  /** The mark of the current header is replaced. */
  ghost function Remark(g: Witness, m: Mark): Witness {
    g.(marks := if g.marks == [] then [] else g.marks[|g.marks| - 1 := m])
  }

  lemma SetHeader(s: State, g: Witness, h: Header, m: Mark)
    requires HeadersOk(s.headers, g.marks, g.blocks, g.low) && g.marks != [] && HeaderOk(h, m, g.blocks, g.low)
    ensures HeadersOk(SetCurrent(s, h), Remark(g, m).marks, g.blocks, g.low)
    ensures LastMark(Remark(g, m).marks) == m
    ensures var n := LastMark(g.marks);
      m.log == n.log && m.first == n.first && n.published <= m.published ==> Later(s.enq, g, s.enq, Remark(g, m))
  {
    hide HeaderOk;
  }

  lemma WrittenHeader(h: Header, m: Mark, blocks: seq<Block>, low: nat, tail: nat)
    requires HeaderOk(h, m, blocks, low) && low <= m.indexed == |blocks| - 1 && tail == m.indexed * BLOCK_SIZE
    requires |blocks| <= low + Pow2(m.log)
    ensures HeaderOk(h.(entries := h.entries[SlotOf(Pow2(m.log), m.first, m.indexed) :=
          Entry(Wrap(tail), BlockAt(blocks, m.indexed))]),
                     m.(indexed := m.indexed + 1), blocks, low)
  {
    var n := Pow2(m.log);
    var entries' := h.entries[SlotOf(n, m.first, m.indexed) := Entry(Wrap(tail), BlockAt(blocks, m.indexed))];
    forall k: nat | low <= k < m.indexed + 1
      ensures EntryAt(entries', SlotOf(n, m.first, k)) == Entry(Wrap(k * BLOCK_SIZE), BlockAt(blocks, k))
    {
      if k < m.indexed {
        SlotsDiffer(n, m.first, k, m.indexed);
      }
    }
  }

  lemma StepWriteEntry(s: State, g: Witness, x: int)
    requires Inv(s, g) && s.producer == WriteEntry(x)
    ensures Inv(ProducerStep(s, s.producer, true, 0), Remark(g, LastMark(g.marks).(indexed := |g.blocks|)))
  {
    hide Inv, Parts, HeaderOk, HeadersOk, Pow2, SlotOf, Wrap, NextBlock, Current, SetCurrent;
    ProducerFacts(s, g);
    var m := LastMark(g.marks);
    var m' := m.(indexed := |g.blocks|);
    var s', g' := ProducerStep(s, s.producer, true, 0), Remark(g, m');
    var h' := Current(s).(entries := Current(s).entries[s.front := Entry(Wrap(s.tail), s.tailBlock.value)]);
    assert s.tailBlock.value == BlockAt(g.blocks, m.indexed);
    WrittenHeader(Current(s), m, g.blocks, g.low, s.tail);
    SetHeader(s, g, h', m');
    HeaderParts(s, g, s', g');
    InvOf(s', g');
  }

  lemma PublishedHeader(h: Header, m: Mark, blocks: seq<Block>, low: nat, front: nat)
    requires HeaderOk(h, m, blocks, low) && m.published < m.indexed
          && front == SlotOf(Pow2(m.log), m.first, m.published)
    ensures h.log == m.log
    ensures HeaderOk(h.(front := front), m.(published := m.published + 1), blocks, low)
  {
    hide SlotOf, Wrap, Pow2, EntryAt;
  }

  lemma StepPublishFront(s: State, g: Witness, x: int)
    requires Inv(s, g) && s.producer == PublishFront(x)
    ensures Inv(ProducerStep(s, s.producer, true, 0), Remark(g, LastMark(g.marks).(published := |g.blocks|)))
  {
    hide Inv, Parts, HeaderOk, HeadersOk, Pow2, SlotOf, NextBlock, Current, SetCurrent;
    ProducerFacts(s, g);
    var m := LastMark(g.marks);
    var m' := m.(published := |g.blocks|);
    var s', g' := ProducerStep(s, s.producer, true, 0), Remark(g, m');
    var h' := Current(s).(front := s.front);
    PublishedHeader(Current(s), m, g.blocks, g.low, s.front);
    SlotNext(Pow2(m.log), m.first, m.published);
    SetHeader(s, g, h', m');
    HeaderParts(s, g, s', g');
    InvOf(s', g');
  }

  lemma StoreCell(cells: map<Cell, Option<int>>, tailBlock: Option<Block>, next: map<Block, Block>,
                  blocks: seq<Block>, low: nat, at: map<nat, Fate>, enq: seq<int>, x: int)
    requires CellsOk(cells, blocks, low, at, enq) && RingOk(tailBlock, next, blocks, low)
          && |enq| < |blocks| * BLOCK_SIZE
    ensures CellsOk(cells[CellOf(blocks, |enq|) := Some(x)], blocks, low, at, enq + [x])
  {
    hide RingOk, CellOf, FlagOf;
    var cells' := cells[CellOf(blocks, |enq|) := Some(x)];
    forall i: nat | low * BLOCK_SIZE <= i < |enq + [x]| && (At(at, i).Waiting? || At(at, i).Claimed?)
      ensures Content(cells', CellOf(blocks, i)) == Some((enq + [x])[i])
    {
      if i < |enq| {
        CellsDistinct(tailBlock, next, blocks, low, i, |enq|);
        assert Content(cells, CellOf(blocks, i)) == Some(enq[i]);
      }
    }
  }

  lemma StepStore(s: State, g: Witness, x: int)
    requires Inv(s, g) && s.producer == Store(x)
    ensures Inv(ProducerStep(s, s.producer, true, 0), g)
  {
    ProducerFacts(s, g);
    assert s.tail / BLOCK_SIZE == |g.blocks| - 1 && s.tail < |g.blocks| * BLOCK_SIZE;
    assert Cell(s.tailBlock.value, s.tail % BLOCK_SIZE) == CellOf(g.blocks, s.tail);
    hide HeaderOk, RingOk, FatesOk, FlagsOk, CellsOk, HeadersOk, ConsumersOk, Pow2, SlotOf, CellOf;
    StoreCell(s.cells, s.tailBlock, s.next, g.blocks, g.low, g.at, s.enq, x);
  }

  lemma StepPublish(s: State, g: Witness, x: int)
    requires Inv(s, g) && s.producer == Publish(x)
    ensures Inv(ProducerStep(s, s.producer, true, 0), g)
  {
    ProducerFacts(s, g);
    hide HeaderOk, RingOk, FatesOk, FlagsOk, CellsOk, HeadersOk, ConsumersOk, Pow2, SlotOf;
    ConsumersLater(s.consumers, s.enq, g, s.enq + [x], g);
  }

  lemma StepFail(s: State, g: Witness)
    requires Inv(s, g) && (s.producer.Grow? || s.producer.Requisition?)
    ensures Inv(s.(producer := Ready), g)
  {
    ProducerFacts(s, g);
    hide Inv, SlotOf, HeaderOk, RingOk, NextBlock, Current;
    ProducerMoves(s, g, Ready);
  }

  /** What a step does to the fates of indices. */
  function FatesAfter(s: State, at: map<nat, Fate>, a: Action): map<nat, Fate>
    requires Enabled(s, a)
  {
    match a
    case Claim(t, n) => ClaimRange(at, s.head, n, t)
    case Consume(t) =>
      var pc := s.consumers[t];
      if pc.Take? then at[pc.index := Emptied(t)] else if pc.SetEmpty? then at[pc.index := Done] else at
    case _ => at
  }

  lemma StepKeepsInv(s: State, g: Witness, a: Action) returns (g': Witness)
    requires Inv(s, g) && Enabled(s, a) && Windowed(s)
    ensures Inv(Apply(s, a), g') && g'.at == FatesAfter(s, g.at, a)
  {
    hide Inv, Windowed, Grown, Remark;
    match a
    case Enqueue(x) => StepEnqueue(s, g, x); g' := g;
    case Claim(t, n) => StepClaim(s, g, t, n); g' := g.(at := ClaimRange(g.at, s.head, n, t));
    case Consume(t) => g' := ConsumeKeepsInv(s, g, t);
    case Produce(ok, b) => g' := ProduceKeepsInv(s, g, ok, b);
  }

  lemma ConsumeKeepsInv(s: State, g: Witness, t: Thread) returns (g': Witness)
    requires Inv(s, g) && t in s.consumers && s.consumers[t] != Idle && Windowed(s)
    ensures Inv(ConsumerStep(s, t, s.consumers[t]), g') && g'.at == FatesAfter(s, g.at, Consume(t))
  {
    hide Inv, Windowed, ConsumerStep;
    match s.consumers[t]
    case LoadHeader(i, end) => StepLoadHeader(s, g, t, i, end); g' := g.(seen := g.seen[t := 0]);
    case LoadFront(i, end, v) => StepLoadFront(s, g, t, i, end, v);
        g' := g.(seen := g.seen[t := g.marks[v].published - 1]);
    case LoadBase(i, end, v, f) => StepLoadBase(s, g, t, i, end, v, f); g' := g.(seen := g.seen[t := 0]);
    case LoadBlock(i, end, v, at, from, got) => StepLoadBlock(s, g, t, i, end, v, at, from, got);
        g' := g.(seen := g.seen[t := 0]);
    case Take(i, _, _, _, _, _, _, _) => StepTake(s, g, t); g' := g.(at := g.at[i := Emptied(t)]);
    case SetEmpty(i, _, _, _, _, _, _, _) => StepSetEmpty(s, g, t); g' := g.(at := g.at[i := Done]);
  }

  lemma ProduceKeepsInv(s: State, g: Witness, ok: bool, b: Block) returns (g': Witness)
    requires Inv(s, g) && s.producer != Ready && (s.producer.Requisition? && ok ==> b !in s.next) && Windowed(s)
    ensures Inv(ProducerStep(s, s.producer, ok, b), g') && g'.at == g.at
  {
    assert Grown(g).at == g.at && forall m :: Remark(g, m).at == g.at;
    hide Inv, Windowed, Grown, Remark, NextBlock, Current, ResetEmpty, CopyEntries, SetCurrent;
    g' := g;
    match s.producer
    case Scan(x, j) => StepScan(s, g, x, j);
    case Reuse(x) => StepReuse(s, g, x); g' := g.(blocks := g.blocks + [NextBlock(s)], low := g.low + 1);
    case Leeway(x) => StepLeeway(s, g, x);
    case Grow(x) =>
      if ok {
        StepGrow(s, g, x); g' := Grown(g);
      } else {
        StepFail(s, g);
      }
    case Requisition(x) =>
      if ok {
        StepRequisition(s, g, x, b); g' := g.(blocks := g.blocks + [b]);
      } else {
        StepFail(s, g);
      }
    case WriteEntry(x) => StepWriteEntry(s, g, x); g' := Remark(g, LastMark(g.marks).(indexed := |g.blocks|));
    case PublishFront(x) => StepPublishFront(s, g, x); g' := Remark(g, LastMark(g.marks).(published := |g.blocks|));
    case Store(x) => StepStore(s, g, x);
    case Publish(x) => StepPublish(s, g, x);
  }

  // ---------------------------------------------------------------------------
  // What holds in every reachable state
  // ---------------------------------------------------------------------------

  ghost function InitWitness(s: State): Witness {
    Witness([], 0, map[], [Mark(Current(s).log, 0, 0, 0)], map[])
  }

  lemma InitInv(s: State)
    requires Init(s)
    ensures Inv(s, InitWitness(s))
  {
    hide Pow2;
    assert SlotOf(Pow2(s.headers[0].log), 0, 0) == 0;
  }

  lemma {:induction false} RunKeepsInv(s: State, g: Witness, run: seq<Action>) returns (g': Witness)
    requires Inv(s, g) && Legal(s, run)
    ensures Inv(Final(s, run), g')
    decreases |run|
  {
    hide Inv;
    if run == [] {
      g' := g;
    } else {
      g' := StepKeepsInv(s, g, run[0]);
      g' := RunKeepsInv(Apply(s, run[0]), g', run[1..]);
    }
  }

  lemma ReachableInv(s: State) returns (g: Witness)
    requires Reachable(s)
    ensures Inv(s, g)
  {
    hide Inv, Init;
    var s0, run :| Init(s0) && Legal(s0, run) && s == Final(s0, run);
    InitInv(s0);
    g := RunKeepsInv(s0, InitWitness(s0), run);
  }

  /** The block a dequeueing thread has looked up, or come to, holds the element of its index, whatever the wrapping,
      the reuse of blocks and the doubling of the index in between. */
  lemma LookUpFindsElement(s: State, t: Thread)
    requires Reachable(s) && t in s.consumers && s.consumers[t].Take?
    ensures var pc := s.consumers[t];
      pc.index < |s.enq| && Content(s.cells, Cell(pc.block, pc.index % BLOCK_SIZE)) == Some(s.enq[pc.index])
  {
    var g := ReachableInv(s);
    TakeFacts(s, g, t);
  }

  /** Bulk dequeueing walks on through the one index it loaded: m slots behind the one found stands the entry of the
      block m further, which holds the elements of all the claimed indices there, however blocks were reused and the
      index was replaced meanwhile. */
  lemma WalkFindsBlocks(s: State, t: Thread, m: nat, j: nat)
    requires Reachable(s) && t in s.consumers && s.consumers[t].LoadBlock?
    requires var pc := s.consumers[t]; pc.index <= j < pc.end && j / BLOCK_SIZE == pc.index / BLOCK_SIZE + m
    ensures var pc := s.consumers[t]; var h := HeaderAt(s.headers, pc.header);
      var b := EntryAt(h.entries, (pc.at + m) % Pow2(h.log)).block;
      j < |s.enq| && Content(s.cells, Cell(b, j % BLOCK_SIZE)) == Some(s.enq[j])
  {
    var g := ReachableInv(s);
    var pc := s.consumers[t];
    ThreadFacts(s, g, t);
    StoredFit(s, g);
    SlotInHeader(s, g, t, m, j);
    assert At(g.at, j) == Claimed(t);
    ClaimedElement(s, g, j);
    hide *;
  }

  lemma SlotInHeader(s: State, g: Witness, t: Thread, m: nat, j: nat)
    requires Inv(s, g) && t in s.consumers && s.consumers[t].LoadBlock?
    requires var pc := s.consumers[t]; pc.index <= j < pc.end && j / BLOCK_SIZE == pc.index / BLOCK_SIZE + m
    ensures var pc := s.consumers[t]; var h := HeaderAt(s.headers, pc.header);
      && EntryAt(h.entries, (pc.at + m) % Pow2(h.log)).block == BlockAt(g.blocks, j / BLOCK_SIZE)
      && CellOf(g.blocks, j) == Cell(BlockAt(g.blocks, j / BLOCK_SIZE), j % BLOCK_SIZE)
  {
    var pc := s.consumers[t];
    var v := pc.header;
    ThreadFacts(s, g, t);
    assert At(g.at, j) == Claimed(t);
    assert j / BLOCK_SIZE < g.marks[v].published;
    hide Inv, HeaderOk, At, SlotOf, Pow2, Wrap, EntryAt, BlockAt, Got;
    HeaderFacts(s, g, v);
    SlotFurther(Pow2(g.marks[v].log), g.marks[v].first, pc.index / BLOCK_SIZE, m);
    EntryIs(s.headers[v], g.marks[v], g.blocks, g.low, j / BLOCK_SIZE);
  }

  /** The element of a claimed index that is not yet taken is in its cell. */
  lemma ClaimedElement(s: State, g: Witness, j: nat)
    requires Inv(s, g) && At(g.at, j).Claimed? && j < |s.enq| && g.low * BLOCK_SIZE <= j
    ensures Content(s.cells, CellOf(g.blocks, j)) == Some(s.enq[j])
  {
    hide RingOk, FatesOk, FlagsOk, HeadersOk, ProducerOk, ConsumersOk, CellOf, At, Content;
  }

  /** set_empty's assertion, and set_many_empty's: the flag of an index is clear until its one taker sets it. */
  lemma FlagStillClear(s: State, t: Thread)
    requires Reachable(s) && t in s.consumers && s.consumers[t].SetEmpty?
    ensures !Flag(s.flags, Cell(s.consumers[t].block, BLOCK_SIZE - 1 - s.consumers[t].index % BLOCK_SIZE))
  {
    var g := ReachableInv(s);
    EmptyFacts(s, g, t);
    hide RingOk, FatesOk, CellsOk, HeadersOk, ProducerOk, ConsumersOk, FlagOf, At;
  }

  /** enqueue's assertion: the head it reads is not past the tail, as wrapped words compare. */
  lemma HeadNotPastTail(s: State, x: int)
    requires Reachable(s) && Windowed(s) && s.producer == Leeway(x)
    ensures !CircularLess(s.tail, s.head)
  {
    var g := ReachableInv(s);
    ProducerFacts(s, g);
    LowBound(s, g);
    hide Inv, HeaderOk, HeadersOk, SlotOf, Pow2, IndexFits, BlockAt, Current, NextBlock, CircularLess, Reachable;
    NotPast(s.tail, s.head, s.slotsUsed);
  }

  lemma NotPast(tail: nat, head: nat, used: nat)
    requires 0 <= tail - head <= used * BLOCK_SIZE <= HALF
    ensures !CircularLess(tail, head)
  {
  }

  lemma LowBound(s: State, g: Witness)
    requires Inv(s, g)
    ensures g.low * BLOCK_SIZE <= s.head
  {
    hide RingOk, FlagsOk, CellsOk, HeadersOk, ProducerOk, ConsumersOk;
    assert At(g.at, s.head) != Done;
  }

  /** The producer reuses a block only when no dequeueing thread is still at an element in it. */
  lemma ReusedBlockIsFree(s: State, x: int, t: Thread)
    requires Reachable(s) && s.producer == Reuse(x) && t in s.consumers
          && (s.consumers[t].Take? || s.consumers[t].SetEmpty?)
    ensures s.consumers[t].block != NextBlock(s)
  {
    var g := ReachableInv(s);
    var i := s.consumers[t].index;
    ThreadFacts(s, g, t);
    ProducerFacts(s, g);
    RingFacts(s, g);
    if s.consumers[t].Take? {
      TakeFacts(s, g, t);
    } else {
      EmptyFacts(s, g, t);
    }
    hide Inv, HeaderOk, HeadersOk, SlotOf, Pow2, IndexFits, Current, NextBlock, PartEnd, Claims, Got, SlotIs;
    assert At(g.at, i) != Done;
    assert i / BLOCK_SIZE != g.low;
    assert BlockAt(g.blocks, i / BLOCK_SIZE) != BlockAt(g.blocks, g.low);
  }

  // ---------------------------------------------------------------------------
  // Refinement of a plain queue
  // ---------------------------------------------------------------------------

  /** What callers see: enqueue takes effect, a dequeue takes effect, a dequeue returns its element. */
  datatype Event = Silent | Enqueued(x: int) | Dequeued(thread: Thread, count: nat)
      | Returned(thread: Thread, got: seq<Option<int>>)

  /** A queue, and the elements already dequeued by threads that have not returned. */
  datatype Fifo = Fifo(queue: seq<int>, taken: map<Thread, seq<int>>)

  /** The events are those of a plain queue in state f. */
  ghost predicate Accepts(f: Fifo, events: seq<Event>)
    decreases |events|
  {
    events == [] ||
    var rest := events[1..];
    match events[0]
    case Silent => Accepts(f, rest)
    case Enqueued(x) => Accepts(f.(queue := f.queue + [x]), rest)
    case Dequeued(t, n) =>
      0 < n <= |f.queue| && t !in f.taken && Accepts(Fifo(f.queue[n..], f.taken[t := f.queue[..n]]), rest)
    case Returned(t, got) =>
      t in f.taken && Gives(got, f.taken[t]) && Accepts(f.(taken := f.taken - {t}), rest)
  }

  function EventOf(s: State, a: Action): Event {
    match a
    case Produce(_, _) => if s.producer.Publish? then Enqueued(s.producer.x) else Silent
    case Claim(t, n) => Dequeued(t, n)
    case Consume(t) => if t in s.consumers && Returns(s.consumers[t]) then Returned(t, s.consumers[t].got) else Silent
    case Enqueue(_) => Silent
  }

  /** The next step of the thread is its last. */
  predicate Returns(pc: Consumer) {
    pc.SetEmpty? && pc.index <= pc.first && PartEnd(pc.first, pc.end) >= pc.end
  }

  ghost function Events(s: State, run: seq<Action>): seq<Event>
    requires Legal(s, run)
    decreases |run|
  {
    if run == [] then [] else [EventOf(s, run[0])] + Events(Apply(s, run[0]), run[1..])
  }

  /** The first index a thread claimed. */
  function FromOf(pc: Consumer): nat {
    match pc
    case Idle => 0
    case LoadHeader(i, _) => i
    case LoadFront(i, _, _) => i
    case LoadBase(i, _, _, _) => i
    case LoadBlock(_, _, _, _, from, _) => from
    case Take(_, _, _, _, _, _, from, _) => from
    case SetEmpty(_, _, _, _, _, _, from, _) => from
  }

  /** The thread is to give back these elements. */
  predicate Owes(pc: Consumer, enq: seq<int>, xs: seq<int>) {
    pc != Idle && FromOf(pc) < pc.end <= |enq| && xs == enq[FromOf(pc)..pc.end]
  }

  /** f is the queue that s stands for. */
  ghost predicate Represents(s: State, f: Fifo) {
    && s.head <= |s.enq| && f.queue == s.enq[s.head..]
    && (forall t :: t in f.taken <==> t in s.consumers && s.consumers[t] != Idle)
    && (forall t | t in f.taken :: Owes(s.consumers[t], s.enq, f.taken[t]))
  }

  ghost function NextFifo(f: Fifo, e: Event): Fifo {
    match e
    case Silent => f
    case Enqueued(x) => f.(queue := f.queue + [x])
    case Dequeued(t, n) => if n > |f.queue| then f else Fifo(f.queue[n..], f.taken[t := f.queue[..n]])
    case Returned(t, _) => f.(taken := f.taken - {t})
  }

  ghost predicate Allows(f: Fifo, e: Event) {
    match e
    case Dequeued(t, n) => 0 < n <= |f.queue| && t !in f.taken
    case Returned(t, got) => t in f.taken && Gives(got, f.taken[t])
    case _ => true
  }

  lemma AcceptsCons(f: Fifo, e: Event, rest: seq<Event>)
    requires Allows(f, e) && Accepts(NextFifo(f, e), rest)
    ensures Accepts(f, [e] + rest)
  {
    assert ([e] + rest)[1..] == rest;
  }

  /** Each step is allowed by the queue it stands for, and leads to the queue that allows it. */
  lemma StepRefines(s: State, g: Witness, a: Action, f: Fifo)
    requires Inv(s, g) && Enabled(s, a) && Represents(s, f)
    ensures Allows(f, EventOf(s, a)) && Represents(Apply(s, a), NextFifo(f, EventOf(s, a)))
  {
    match a
    case Enqueue(_) =>
    case Produce(ok, b) => ProducerRefines(s, g, ok, b, f);
    case Claim(t, n) =>
      assert |s.enq| == s.tail by { ThreadFacts(s, g, t); }
      hide Inv;
      ClaimRefines(s, t, n, f);
    case Consume(t) =>
      assert ConsumerOk(s.consumers[t], t, s.enq, g) by { ThreadFacts(s, g, t); }
      hide Inv, ConsumerOk;
      ConsumerRefines(s, g, t, f);
  }

  lemma ClaimRefines(s: State, t: Thread, n: nat, f: Fifo)
    requires t in s.consumers && s.consumers[t] == Idle && 0 < n <= s.tail - s.head && |s.enq| == s.tail
          && Represents(s, f)
    ensures Allows(f, Dequeued(t, n)) && Represents(Apply(s, Claim(t, n)), NextFifo(f, Dequeued(t, n)))
  {
    assert f.queue[..n] == s.enq[s.head..s.head + n];
    assert f.queue[n..] == s.enq[s.head + n..];
  }

  lemma SliceAppend(a: seq<int>, k: nat, x: int)
    requires k <= |a|
    ensures (a + [x])[k..] == a[k..] + [x]
  {
  }

  lemma ProducerRefines(s: State, g: Witness, ok: bool, b: Block, f: Fifo)
    requires Inv(s, g) && s.producer != Ready && Represents(s, f)
    ensures Represents(ProducerStep(s, s.producer, ok, b), NextFifo(f, EventOf(s, Produce(ok, b))))
  {
    hide Inv;
    var s' := ProducerStep(s, s.producer, ok, b);
    assert s'.head == s.head && s'.consumers == s.consumers;
    if s.producer.Publish? {
      SliceAppend(s.enq, s.head, s.producer.x);
      forall t | t in f.taken
        ensures Owes(s.consumers[t], s'.enq, f.taken[t])
      {
        OwesLater(s.consumers[t], s.enq, s.producer.x, f.taken[t]);
      }
    }
  }

  lemma OwesLater(pc: Consumer, enq: seq<int>, x: int, xs: seq<int>)
    requires Owes(pc, enq, xs)
    ensures Owes(pc, enq + [x], xs)
  {
  }

  /** A thread's step leaves the elements it owes the same; with its last it has got them. */
  lemma ConsumerOwes(s: State, g: Witness, t: Thread, xs: seq<int>)
    requires t in s.consumers && s.consumers[t] != Idle && ConsumerOk(s.consumers[t], t, s.enq, g)
          && Owes(s.consumers[t], s.enq, xs)
    ensures var pc := s.consumers[t]; var pc' := ConsumerStep(s, t, pc).consumers[t];
      if Returns(pc) then pc' == Idle && Gives(pc.got, xs) else Owes(pc', s.enq, xs)
  {
    hide InHeader, FrontSeen, LookUp, At, BlockAt, SeenAt, EntryAt, HeaderAt, Wrap, Fated, SlotIs;
    var pc := s.consumers[t];
    if pc.SetEmpty? {
      PartFacts(pc.index, pc.first, pc.end);
    }
    hide PartEnd;
  }

  lemma ConsumerAlone(s: State, t: Thread)
    requires t in s.consumers
    ensures var s' := ConsumerStep(s, t, s.consumers[t]);
      && s'.head == s.head && s'.enq == s.enq && s'.consumers == s.consumers[t := s'.consumers[t]]
  {
    hide LookUp, PartEnd, Content, EntryAt, HeaderAt;
    match s.consumers[t]
    case SetEmpty(_, _, _, _, _, _, _, _) =>
    case Take(_, _, _, _, _, _, _, _) =>
    case _ =>
  }

  lemma ConsumerRefines(s: State, g: Witness, t: Thread, f: Fifo)
    requires t in s.consumers && s.consumers[t] != Idle && ConsumerOk(s.consumers[t], t, s.enq, g) && Represents(s, f)
    ensures Allows(f, EventOf(s, Consume(t)))
    ensures Represents(ConsumerStep(s, t, s.consumers[t]), NextFifo(f, EventOf(s, Consume(t))))
  {
    ConsumerOwes(s, g, t, f.taken[t]);
    ConsumerAlone(s, t);
    hide ConsumerOk, ConsumerStep, Owes, Returns, Gives;
  }

  lemma {:induction false} RunRefines(s: State, g: Witness, run: seq<Action>, f: Fifo)
    requires Inv(s, g) && Legal(s, run) && Represents(s, f)
    ensures Accepts(f, Events(s, run))
    decreases |run|
  {
    hide Inv, Represents, Allows, NextFifo, EventOf;
    if run != [] {
      var e := EventOf(s, run[0]);
      StepRefines(s, g, run[0], f);
      var g' := StepKeepsInv(s, g, run[0]);
      RunRefines(Apply(s, run[0]), g', run[1..], NextFifo(f, e));
      AcceptsCons(f, e, Events(Apply(s, run[0]), run[1..]));
    }
  }

  /** Whatever the interleaving, the producer and its dequeueing threads behave as one plain first-in first-out
      queue. */
  lemma FifoRefinement(s: State, run: seq<Action>)
    requires Init(s) && Legal(s, run)
    ensures Accepts(Fifo([], map[]), Events(s, run))
  {
    InitInv(s);
    RunRefines(s, InitWitness(s), run, Fifo([], map[]));
  }

  // ---------------------------------------------------------------------------
  // The machine gets to the states the theorems speak of
  // ---------------------------------------------------------------------------

  lemma {:induction false} OneStepMore(s: State, run: seq<Action>, a: Action)
    requires Legal(s, run) && Enabled(Final(s, run), a) && Windowed(Final(s, run))
    ensures Legal(s, run + [a]) && Final(s, run + [a]) == Apply(Final(s, run), a)
    decreases |run|
  {
    hide Apply, Enabled, Windowed;
    if run == [] {
      assert run + [a] == [a] && [a][1..] == [];
    } else {
      assert (run + [a])[1..] == run[1..] + [a];
      OneStepMore(Apply(s, run[0]), run[1..], a);
    }
  }

  /** The state after one step more. */
  lemma Go(s: State, a: Action) returns (s': State)
    requires Reachable(s) && Enabled(s, a) && Windowed(s)
    ensures Reachable(s') && s' == Apply(s, a)
  {
    hide Init, Legal, Final, Apply, Enabled, Windowed;
    var s0, run :| Init(s0) && Legal(s0, run) && s == Final(s0, run);
    OneStepMore(s0, run, a);
    s' := Apply(s, a);
  }

  lemma InitReachable(s: State)
    requires Init(s)
    ensures Reachable(s)
  {
    hide Init;
    assert Legal(s, []) && s == Final(s, []);
  }

  lemma BelowHalf()
    ensures CircularLess(0, 0 + BLOCK_SIZE)
  {
  }

  /** The first block is there. */
  lemma RunToBlock() returns (s: State)
    ensures Reachable(s) && s.tail == 0 && s.head == 0 && s.slotsUsed == 1 && s.front == 0 && s.enq == []
    ensures s.producer == WriteEntry(42) && s.tailBlock == Some(9) && s.next == map[9 := 9]
    ensures s.consumers == map[0 := Idle] && s.headers == [Header(5, 0, map[])]
  {
    hide Reachable, Legal, Final, Pow2, ResetEmpty, CopyEntries, Wrap;
    assert CircularLess(0, 0 + BLOCK_SIZE) by { BelowHalf(); }
    s := State(0, 0, None, map[], map[], map[], [Header(5, 0, map[])], 0, 0, Ready, map[0 := Idle], []);
    InitReachable(s);
    s := Go(s, Enqueue(42));
    s := Go(s, Produce(true, 0));
    s := Go(s, Produce(true, 9));
  }

  /** The block is in the index. */
  lemma RunToIndexed() returns (s: State)
    ensures Reachable(s) && s.tail == 0 && s.head == 0 && s.enq == [] && s.producer == Store(42)
          && s.tailBlock == Some(9)
    ensures s.next == map[9 := 9] && s.slotsUsed == 1 && s.consumers == map[0 := Idle]
          && s.headers == [Header(5, 0, map[0 := Entry(0, 9)])]
  {
    hide Reachable, Legal, Final, Init, ConsumerStep, CopyEntries, ResetEmpty, NextBlock, StartOf;
    s := RunToBlock();
    s := Go(s, Produce(true, 0));
    s := Go(s, Produce(true, 0));
  }

  /** The first element is enqueued. */
  lemma RunToEnqueued() returns (s: State)
    ensures Reachable(s) && s.tail == 1 && s.head == 0 && s.enq == [42] && s.producer == Ready && s.tailBlock == Some(9)
    ensures s.next == map[9 := 9] && s.slotsUsed == 1 && s.consumers == map[0 := Idle]
          && s.headers == [Header(5, 0, map[0 := Entry(0, 9)])]
  {
    hide Reachable, Legal, Final, Init, ConsumerStep, CopyEntries, ResetEmpty, NextBlock, StartOf;
    s := RunToIndexed();
    s := Go(s, Produce(true, 0));
    s := Go(s, Produce(true, 0));
  }

  /** A consumer has looked its block up. */
  lemma RunToTake() returns (s: State)
    ensures Reachable(s) && 0 in s.consumers && s.consumers[0] == Take(0, 1, 0, 0, 9, 0, 0, [])
  {
    hide Reachable, Legal, Final, Init;
    s := RunToEnqueued();
    s := Go(s, Claim(0, 1));
    s := Go(s, Consume(0));
    s := Go(s, Consume(0));
    s := Go(s, Consume(0));
    s := Go(s, Consume(0));
  }

  /** The state after an enqueue into the block at hand. */
  lemma StoreOne(s: State, x: int) returns (s': State)
    requires Reachable(s) && Windowed(s) && s.producer == Ready && s.tail % BLOCK_SIZE != 0 && s.tailBlock.Some?
    ensures Reachable(s')
    ensures s' == s.(cells := s.cells[Cell(s.tailBlock.value, s.tail % BLOCK_SIZE) := Some(x)], tail := s.tail + 1,
          enq := s.enq + [x])
  {
    hide Reachable, Legal, Final, Init, ConsumerStep, CopyEntries, ResetEmpty, NextBlock;
    s' := Go(s, Enqueue(x));
    s' := Go(s', Produce(true, 0));
    s' := Go(s', Produce(true, 0));
  }

  /** What the runs below keep: one block in the ring, and one consumer. */
  predicate OneBlock(s: State) {
    && s.slotsUsed == 1 && s.tailBlock == Some(9) && NextBlock(s) == 9 && s.consumers.Keys == {0}
    && s.headers == [Header(5, 0, map[0 := Entry(0, 9)])]
  }

  /** n elements fill the first block. */
  lemma {:induction false} RunToFilled(n: nat) returns (s: State)
    requires 1 <= n <= BLOCK_SIZE
    ensures Reachable(s) && s.tail == n && s.head == 0 && s.producer == Ready && OneBlock(s) && s.consumers[0] == Idle
  {
    hide Reachable, Legal, Final, Init;
    if n == 1 {
      s := RunToEnqueued();
    } else {
      var before := RunToFilled(n - 1);
      s := StoreOne(before, n);
    }
  }

  /** A consumer that claimed all of them is about to take the n-th. */
  lemma {:induction false} RunToTaking(n: nat) returns (s: State)
    requires n < BLOCK_SIZE
    ensures Reachable(s) && s.tail == s.head == BLOCK_SIZE && s.producer == Ready && OneBlock(s)
    ensures s.consumers[0].Take? && s.consumers[0] == Take(n, BLOCK_SIZE, 0, 0, 9, 0, 0, s.consumers[0].got)
  {
    hide Reachable, Legal, Final, Init, ProducerStep, Content;
    if n == 0 {
      s := RunToFilled(BLOCK_SIZE);
      s := Go(s, Claim(0, BLOCK_SIZE));
      s := Go(s, Consume(0));
      s := Go(s, Consume(0));
      s := Go(s, Consume(0));
      s := Go(s, Consume(0));
    } else {
      s := RunToTaking(n - 1);
      s := Go(s, Consume(0));
    }
  }

  /** It has set the flags of all indices behind the n-th. */
  lemma {:induction false} RunToEmptying(n: nat) returns (s: State)
    requires n < BLOCK_SIZE
    ensures Reachable(s) && s.tail == s.head == BLOCK_SIZE && s.producer == Ready && OneBlock(s)
    ensures s.consumers[0].SetEmpty? && s.consumers[0] == SetEmpty(n, BLOCK_SIZE, 0, 0, 9, 0, 0, s.consumers[0].got)
    ensures forall k: nat | k + n + 1 < BLOCK_SIZE :: Flag(s.flags, Cell(9, k))
    decreases BLOCK_SIZE - n
  {
    hide Reachable, Legal, Final, Init, ProducerStep, Content;
    if n + 1 == BLOCK_SIZE {
      s := RunToTaking(n);
      s := Go(s, Consume(0));
    } else {
      s := RunToEmptying(n + 1);
      s := Go(s, Consume(0));
    }
  }

  /** The producer has found n flags set. */
  lemma {:induction false} RunToScanned(n: nat) returns (s: State)
    requires n < BLOCK_SIZE
    ensures Reachable(s) && s.producer == Scan(7, n) && OneBlock(s) && s.consumers[0] == Idle
    ensures forall k: nat | k < BLOCK_SIZE :: Flag(s.flags, Cell(9, k))
  {
    hide Reachable, Legal, Final, Init, Content;
    if n == 0 {
      s := RunToEmptying(0);
      s := Go(s, Consume(0));
      s := Go(s, Enqueue(7));
    } else {
      s := RunToScanned(n - 1);
      hide ConsumerStep;
      s := Go(s, Produce(true, 0));
    }
  }

  /** It reuses the block. */
  lemma RunToReuse() returns (s: State)
    ensures Reachable(s) && s.producer == Reuse(7)
  {
    hide Reachable, Legal, Final, Init, ConsumerStep;
    s := RunToScanned(BLOCK_SIZE - 1);
    s := Go(s, Produce(true, 0));
  }
}
