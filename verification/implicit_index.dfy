/**
  An implicit producer's block index: a ring of pointers to shared entries, which one enqueueing thread fills, rewinds
  and doubles, while other threads look blocks up in it and clear the entries of drained blocks.

  Module ImplicitBlocks takes such an index for a map from block numbers to blocks; here that map is kept beside the
  ring as `live`, and what threads find in the ring is shown to be what the map has.  Keys are wrapped words.
 */
module ImplicitIndex {
  import opened Basics
  import opened ExplicitProducer

  type EntryId = nat

  /** No multiple of BLOCK_SIZE, so no block's base. */
  const INVALID_BLOCK_BASE: nat := 1

  /** An index of 2^log pointers to entries, with the position of the newest one. */
  datatype Ring = Ring(log: nat, slots: seq<EntryId>, tail: nat)

  /** The enqueueing thread between two blocks, and in insert_block_index_entry, new_block_index and what follows
      them. */
  datatype Writer =
    | Rest
    | CheckSlot
    | WriteKey(slot: nat)
    | PublishTail(slot: nat)
    | Requisitioned(slot: nat)
    | Rewind(slot: nat)
    | ClearValue(slot: nat)
    | GrowRing
    | CheckFresh

  /** A thread that dequeues the indices from i up to end: it looks up the block of i, may clear its entry, and goes on
      to the next slot of the same ring for the next block.  For a single element end is i + 1. */
  datatype Reader =
    | Away
    | LoadRing(i: nat, end: nat)
    | LoadTail(i: nat, end: nat, ring: nat)
    | LoadKey(i: nat, end: nat, ring: nat, tail: nat)
    | Holds(i: nat, end: nat, ring: nat, at: nat, entry: EntryId)

  /** started counts the blocks inserted for good; entries from next on are not allocated. */
  datatype Index = Index(
    rings: seq<Ring>,
    keys: map<EntryId, nat>,
    values: map<EntryId, Block>,
    next: EntryId,
    started: nat,
    writer: Writer,
    readers: map<Thread, Reader>,
    live: map<nat, Block>)

  /** block: what requisition_block gave, or nothing if it, or in GrowRing the allocation, failed. A thread leaves a
      block
      that it found drained or not. */
  datatype Move = Write(block: Option<Block>) | Begin(thread: Thread, i: nat, end: nat) | Read(thread: Thread)
      | Leave(thread: Thread, drained: bool)

  function KeyAt(keys: map<EntryId, nat>, x: EntryId): nat {
    if x in keys then keys[x] else INVALID_BLOCK_BASE
  }

  function ValueAt(values: map<nat, Block>, x: nat): Option<Block> {
    if x in values then Some(values[x]) else None
  }

  function RingAt(rings: seq<Ring>, v: nat): Ring {
    if v < |rings| then rings[v] else Ring(0, [0], 0)
  }

  function SlotAt(slots: seq<EntryId>, j: nat): EntryId {
    if j < |slots| then slots[j] else 0
  }

  function Newest(s: Index): Ring {
    RingAt(s.rings, if s.rings == [] then 0 else |s.rings| - 1)
  }

  function SetTail(s: Index, tail: nat): seq<Ring> {
    if s.rings == [] then [] else s.rings[|s.rings| - 1 := s.rings[|s.rings| - 1].(tail := tail)]
  }

  function Base(n: nat): nat {
    Wrap(n * BLOCK_SIZE)
  }

  /** The pointers of a ring from the oldest to the newest. */
  function Copied(r: Ring): (c: seq<EntryId>)
    ensures |c| == Pow2(r.log)
  {
    seq<EntryId>(Pow2(r.log), j requires 0 <= j < Pow2(r.log) => SlotAt(r.slots, (r.tail + 1 + j) % Pow2(r.log)))
  }

  function NewEntries(next: EntryId, n: nat): (r: seq<EntryId>)
    ensures |r| == n && forall j | 0 <= j < n :: r[j] == next + j
    decreases n
  {
    if n == 0 then [] else NewEntries(next, n - 1) + [next + n - 1]
  }

  /** What new_block_index makes of a full ring: its pointers from the oldest to the newest, then pointers to new
      entries. */
  function Grown(r: Ring, next: EntryId): Ring {
    var n := Pow2(r.log);
    Ring(r.log + 1, Copied(r) + NewEntries(next, n), n - 1)
  }

  function WriterStep(s: Index, block: Option<Block>): Index {
    var r := Newest(s);
    var n := Pow2(r.log);
    var newTail := (r.tail + 1) % n;
    match s.writer
    case Rest => s.(writer := CheckSlot)
    case CheckSlot =>
      var x := SlotAt(r.slots, newTail);
      s.(writer := if KeyAt(s.keys, x) == INVALID_BLOCK_BASE || x !in s.values then WriteKey(newTail) else GrowRing)
    case GrowRing =>
      if block == None then s.(writer := Rest)
      else s.(rings := s.rings + [Grown(r, s.next)], next := s.next + n, writer := CheckFresh)
    case CheckFresh => s.(writer := WriteKey(newTail))
    case WriteKey(j) => s.(keys := s.keys[SlotAt(r.slots, j) := Base(s.started)], writer := PublishTail(j))
    case PublishTail(j) => s.(rings := SetTail(s, j), writer := Requisitioned(j))
    case Requisitioned(j) =>
      if block == None then s.(writer := Rewind(j))
      else s.(values := s.values[SlotAt(r.slots, j) := block.value], live := s.live[s.started := block.value],
              started := s.started + 1, writer := Rest)
    case Rewind(j) => s.(rings := SetTail(s, (r.tail + n - 1) % n), writer := ClearValue(j))
    case ClearValue(j) => s.(values := s.values - {SlotAt(r.slots, j)}, writer := Rest)
  }

  function ReaderStep(s: Index, t: Thread, pc: Reader): Index {
    match pc
    case Away => s
    case LoadRing(i, end) => s.(readers := s.readers[t := LoadTail(i, end, if s.rings == [] then 0 else |s.rings| - 1)])
    case LoadTail(i, end, v) => s.(readers := s.readers[t := LoadKey(i, end, v, RingAt(s.rings, v).tail)])
    case LoadKey(i, end, v, j) =>
      var r := RingAt(s.rings, v);
      var at := LookUp(i, j, KeyAt(s.keys, SlotAt(r.slots, j)), r.log);
      s.(readers := s.readers[t := Holds(i, end, v, at, SlotAt(r.slots, at))])
    case Holds(_, _, _, _, _) => s
  }

  /** Where a thread goes from a block it is done with: to the next slot of the ring it loaded, while it has indices
      left. */
  function Onward(rings: seq<Ring>, pc: Reader): Reader {
    if pc.Holds? && (pc.i / BLOCK_SIZE + 1) * BLOCK_SIZE < pc.end then
      var r := RingAt(rings, pc.ring);
      var at := (pc.at + 1) % Pow2(r.log);
      Holds((pc.i / BLOCK_SIZE + 1) * BLOCK_SIZE, pc.end, pc.ring, at, SlotAt(r.slots, at))
    else Away
  }

  /** A thread is busy with an index of block k, or is still to come to one. */
  predicate BusyWith(pc: Reader, k: nat) {
    pc != Away && Within(pc.i, pc.end, k)
  }

  /** The map has the blocks of all the indices. */
  ghost predicate RangeLive(live: map<nat, Block>, i: nat, end: nat) {
    i < end && forall k: nat | Within(i, end, k) :: k in live
  }

  /** A thread begins only with indices whose blocks the map has (ImplicitBlocks.FindSucceeds), and clears an entry only
      when it is the last to be busy with the block (ImplicitBlocks.ReleasedWhenDrained). */
  ghost predicate Enabled(s: Index, m: Move) {
    match m
    case Write(_) => true
    case Begin(t, i, end) => t in s.readers && s.readers[t] == Away && RangeLive(s.live, i, end)
    case Read(t) => t in s.readers && s.readers[t] != Away && !s.readers[t].Holds?
    case Leave(t, drained) =>
      && t in s.readers && s.readers[t].Holds?
      && (drained ==> forall u | u in s.readers && u != t :: !BusyWith(s.readers[u], s.readers[t].i / BLOCK_SIZE))
  }

  function Apply(s: Index, m: Move): Index
    requires Enabled(s, m)
  {
    match m
    case Write(block) => WriterStep(s, block)
    case Begin(t, i, end) => s.(readers := s.readers[t := LoadRing(i, end)])
    case Read(t) => ReaderStep(s, t, s.readers[t])
    case Leave(t, drained) =>
      var s' := s.(readers := s.readers[t := Onward(s.rings, s.readers[t])]);
      if drained then s'.(values := s.values - {s.readers[t].entry}, live := s.live - {s.readers[t].i / BLOCK_SIZE})
          else s'
  }

  /** As the constructor leaves it: one ring of unused entries, its tail just before the first. */
  ghost predicate Init(s: Index) {
    && |s.rings| == 1 && 1 <= s.rings[0].log <= 59
    && s.rings[0] == Ring(s.rings[0].log, seq(Pow2(s.rings[0].log), j => j), Pow2(s.rings[0].log) - 1)
    && s.keys == map[] && s.values == map[] && s.next == Pow2(s.rings[0].log) && s.started == 0 && s.writer == Rest
    && s.live == map[] && forall t | t in s.readers :: s.readers[t] == Away
  }

  /** A ring about to be doubled is below the 2^59 pointers to blocks that an index range of 2^64 can have. */
  predicate Roomy(s: Index) {
    s.writer == GrowRing ==> Newest(s).log < 59
  }

  ghost predicate Legal(s: Index, run: seq<Move>)
    decreases |run|
  {
    run == [] || (Enabled(s, run[0]) && Roomy(s) && Legal(Apply(s, run[0]), run[1..]))
  }

  ghost function Final(s: Index, run: seq<Move>): Index
    requires Legal(s, run)
    decreases |run|
  {
    if run == [] then s else Final(Apply(s, run[0]), run[1..])
  }

  ghost predicate Reachable(s: Index) {
    exists s0, run :: Init(s0) && Legal(s0, run) && s == Final(s0, run)
  }

  // ---------------------------------------------------------------------------
  // The invariant
  // ---------------------------------------------------------------------------

  /** The entry of each block number, as far as the newest ring fixes it; how many of them have had their keys written;
      and for each ring the number of its slot 0 and of the entries fixed while it was the newest. */
  datatype Plan = Plan(entries: seq<EntryId>, keyed: nat, firsts: seq<nat>, ends: seq<nat>, seen: map<Thread, nat>)

  function EntryOf(entries: seq<EntryId>, n: nat): EntryId {
    if n < |entries| then entries[n] else 0
  }

  function At(xs: seq<nat>, v: nat): nat {
    if v < |xs| then xs[v] else 0
  }

  function Seen(seen: map<Thread, nat>, t: Thread): nat {
    if t in seen then seen[t] else 0
  }

  /** The ring has the entries of the last numbers before end. */
  ghost predicate RingOk(r: Ring, first: nat, end: nat, entries: seq<EntryId>) {
    && r.log <= 59 && |r.slots| == Pow2(r.log)
    && first + Pow2(r.log) <= end <= |entries|
    && forall n: nat | n < end <= n + Pow2(r.log) ::
         SlotAt(r.slots, SlotOf(Pow2(r.log), first, n)) == EntryOf(entries, n)
  }

  ghost predicate RingsOk(rings: seq<Ring>, g: Plan) {
    && rings != [] && |rings| == |g.firsts| == |g.ends|
    && At(g.ends, |rings| - 1) == |g.entries|
    && (forall v: nat | v < |rings| :: RingOk(RingAt(rings, v), At(g.firsts, v), At(g.ends, v), g.entries))
    && (forall v: nat | v < |rings| - 1 :: LeftFull(RingAt(rings, v), At(g.firsts, v), At(g.ends, v), g.keyed))
  }

  /** A ring that was replaced keeps its tail at the last of its entries. */
  predicate LeftFull(r: Ring, first: nat, end: nat, keyed: nat) {
    0 < end <= keyed && r.tail == SlotOf(Pow2(r.log), first, end - 1)
  }

  /** The first number whose entry is fixed by the newest ring. */
  function Low(s: Index, g: Plan): int {
    |g.entries| - Pow2(Newest(s).log)
  }

  function NewestFirst(s: Index, g: Plan): nat {
    At(g.firsts, if s.rings == [] then 0 else |s.rings| - 1)
  }

  /** In the window of the newest ring, keys are the bases of their numbers and values are those of the map. */
  ghost predicate EntryGood(keys: map<EntryId, nat>, values: map<EntryId, Block>, live: map<nat, Block>, keyed: nat,
      n: nat, x: EntryId)
  {
    && KeyAt(keys, x) == (if n < keyed then Base(n) else INVALID_BLOCK_BASE)
    && ValueAt(values, x) == ValueAt(live, n)
  }

  ghost predicate EntriesOk(s: Index, g: Plan) {
    && (forall n: nat | Low(s, g) <= n < |g.entries| :: EntryGood(s.keys, s.values, s.live, g.keyed, n, g.entries[n]))
    && (forall n, m | Low(s, g) <= n < m < |g.entries| && 0 <= n :: g.entries[n] != g.entries[m])
    && (forall n: nat | n < |g.entries| :: g.entries[n] < s.next)
    && (forall x | x in s.keys || x in s.values :: x < s.next)
    && (forall n | n in s.live :: Low(s, g) <= n < s.started)
  }

  ghost predicate WriterOk(s: Index, g: Plan) {
    var r := Newest(s);
    var n := Pow2(r.log);
    var first := NewestFirst(s, g);
    && s.started <= g.keyed <= |g.entries| && g.keyed <= s.started + 1 && Low(s, g) <= s.started
    && (if s.writer.Requisitioned? || s.writer.Rewind?
         then g.keyed == s.started + 1 && r.tail == SlotOf(n, first, s.started)
        else r.tail == SlotOf(n, first, s.started + n - 1))
    && match s.writer
       case Rest => true
       case CheckSlot => true
       case GrowRing => g.keyed == s.started == |g.entries|
       case CheckFresh => g.keyed == s.started < |g.entries|
       case WriteKey(j) => j == SlotOf(n, first, s.started) && (s.started == |g.entries| ==> Low(s, g) !in s.live)
       case PublishTail(j) => j == SlotOf(n, first, s.started) && g.keyed == s.started + 1
       case Requisitioned(j) => j == SlotOf(n, first, s.started)
       case Rewind(j) => j == SlotOf(n, first, s.started)
       case ClearValue(j) => j == SlotOf(n, first, s.started) && g.keyed == s.started + 1
  }

  /** The ring a reader has loaded covers the block. */
  predicate Covers(rings: seq<Ring>, g: Plan, v: nat, k: nat) {
    v < |rings| && k < At(g.ends, v) <= k + Pow2(RingAt(rings, v).log)
  }

  /** It covers all blocks of the reader's indices. */
  ghost predicate CoversAll(rings: seq<Ring>, g: Plan, v: nat, i: nat, end: nat) {
    forall k: nat | Within(i, end, k) :: Covers(rings, g, v, k)
  }

  ghost predicate ReaderOk(pc: Reader, seen: nat, s: Index, g: Plan) {
    match pc
    case Away => true
    case LoadRing(i, end) => RangeLive(s.live, i, end)
    case LoadTail(i, end, v) => RangeLive(s.live, i, end) && CoversAll(s.rings, g, v, i, end)
    case LoadKey(i, end, v, j) =>
      && RangeLive(s.live, i, end) && CoversAll(s.rings, g, v, i, end)
      && i / BLOCK_SIZE <= seen < g.keyed && seen < At(g.ends, v)
      && j == SlotOf(Pow2(RingAt(s.rings, v).log), At(g.firsts, v), seen)
    case Holds(i, end, v, at, x) =>
      && RangeLive(s.live, i, end) && CoversAll(s.rings, g, v, i, end)
      && at == SlotOf(Pow2(RingAt(s.rings, v).log), At(g.firsts, v), i / BLOCK_SIZE)
      && x == EntryOf(g.entries, i / BLOCK_SIZE)
  }

  /** The block of the first index is one of them. */
  lemma FirstWithin(i: nat, end: nat)
    requires i < end
    ensures Within(i, end, i / BLOCK_SIZE)
  {
  }

  lemma HoldsFacts(pc: Reader, seen: nat, s: Index, g: Plan)
    requires ReaderOk(pc, seen, s, g) && pc.Holds?
    ensures RangeLive(s.live, pc.i, pc.end) && CoversAll(s.rings, g, pc.ring, pc.i, pc.end)
    ensures pc.i / BLOCK_SIZE in s.live && Covers(s.rings, g, pc.ring, pc.i / BLOCK_SIZE)
    ensures pc.at == SlotOf(Pow2(RingAt(s.rings, pc.ring).log), At(g.firsts, pc.ring), pc.i / BLOCK_SIZE)
    ensures pc.entry == EntryOf(g.entries, pc.i / BLOCK_SIZE)
  {
    FirstWithin(pc.i, pc.end);
    hide Within, SlotOf, Pow2, Covers;
  }

  ghost predicate ReadersOk(s: Index, g: Plan) {
    forall t | t in s.readers :: ReaderOk(s.readers[t], Seen(g.seen, t), s, g)
  }

  ghost predicate Inv(s: Index, g: Plan) {
    RingsOk(s.rings, g) && EntriesOk(s, g) && WriterOk(s, g) && ReadersOk(s, g)
  }

  lemma InvParts(s: Index, g: Plan)
    requires Inv(s, g)
    ensures RingsOk(s.rings, g) && EntriesOk(s, g) && WriterOk(s, g) && ReadersOk(s, g)
  {
    hide RingsOk, EntriesOk, WriterOk, ReadersOk;
  }

  lemma InvOf(s: Index, g: Plan)
    requires RingsOk(s.rings, g) && EntriesOk(s, g) && WriterOk(s, g) && ReadersOk(s, g)
    ensures Inv(s, g)
  {
    hide RingsOk, EntriesOk, WriterOk, ReadersOk;
  }

  /** The newest ring, spelled out. */
  lemma NewestFacts(s: Index, g: Plan)
    requires RingsOk(s.rings, g)
    ensures var r := Newest(s); var v: nat := |s.rings| - 1;
      && s.rings != [] && r == RingAt(s.rings, v) && RingOk(r, NewestFirst(s, g), |g.entries|, g.entries)
      && At(g.ends, v) == |g.entries| && NewestFirst(s, g) == At(g.firsts, v)
      && r.log <= 59 && |r.slots| == Pow2(r.log) && NewestFirst(s, g) + Pow2(r.log) <= |g.entries|
      && 0 <= Low(s, g)
  {
    hide LeftFull, SlotOf, Pow2;
    assert RingOk(RingAt(s.rings, |s.rings| - 1), At(g.firsts, |s.rings| - 1), At(g.ends, |s.rings| - 1), g.entries);
  }

  lemma RingFacts(s: Index, g: Plan, v: nat)
    requires RingsOk(s.rings, g) && v < |s.rings|
    ensures RingOk(RingAt(s.rings, v), At(g.firsts, v), At(g.ends, v), g.entries)
    ensures if v == |s.rings| - 1 then RingAt(s.rings, v) == Newest(s) && At(g.ends, v) == |g.entries|
          && At(g.firsts, v) == NewestFirst(s, g)
            else LeftFull(RingAt(s.rings, v), At(g.firsts, v), At(g.ends, v), g.keyed)
  {
    hide RingOk, LeftFull;
  }

  lemma RingHas(r: Ring, first: nat, end: nat, entries: seq<EntryId>, n: nat)
    requires RingOk(r, first, end, entries) && n < end <= n + Pow2(r.log)
    ensures SlotAt(r.slots, SlotOf(Pow2(r.log), first, n)) == EntryOf(entries, n)
  {
  }

  /** Slots come round. */
  lemma SlotAround(n: nat, first: nat, k: nat)
    requires n > 0
    ensures SlotOf(n, first, k + n) == SlotOf(n, first, k)
  {
    ModAddMultiple(k - first, 1, n);
    assert k + n - first == k - first + 1 * n;
  }

  /** The slot behind the tail is that of the next block number. */
  lemma BehindTail(n: nat, first: nat, started: nat)
    requires n > 0
    ensures (SlotOf(n, first, started + n - 1) + 1) % n == SlotOf(n, first, started)
    ensures (SlotOf(n, first, started) + n - 1) % n == SlotOf(n, first, started + n - 1)
  {
    SlotNext(n, first, started + n - 1);
    SlotAround(n, first, started);
    ModAdd(started - first, n - 1, n);
    assert started - first + (n - 1) == started + n - 1 - first;
  }

  // ---------------------------------------------------------------------------
  // What a step leaves as it is
  // ---------------------------------------------------------------------------

  /** Rings are only added, the plan only grows, and blocks some reader other than t is busy with stay. */
  ghost predicate Extends(s: Index, g: Plan, s': Index, g': Plan) {
    && |s.rings| <= |s'.rings| && (forall v: nat | v < |s.rings| :: RingAt(s'.rings, v).log == RingAt(s.rings, v).log)
    && (forall v: nat | v < |s.rings| :: At(g'.firsts, v) == At(g.firsts, v))
    && (forall v: nat | v < |s.rings| :: At(g'.ends, v) == At(g.ends, v) || (v == |s.rings| - 1 == |s'.rings| - 1
         && At(g'.ends, v) == |g'.entries|))
    && |g.entries| <= |g'.entries| && (forall n: nat | n < |g.entries| ::
         EntryOf(g'.entries, n) == EntryOf(g.entries, n))
    && g.keyed <= g'.keyed && RingsOk(s'.rings, g') && EntriesOk(s', g')
    && (forall v: nat | v < |s.rings| :: At(g.ends, v) <= At(g'.ends, v))
  }

  lemma CoversKeeps(s: Index, g: Plan, s': Index, g': Plan, v: nat, k: nat)
    requires Extends(s, g, s', g') && Covers(s.rings, g, v, k) && k in s'.live
    ensures Covers(s'.rings, g', v, k)
  {
    NewestFacts(s', g');
    hide RingsOk, Pow2, RingOk, EntryGood;
    assert Low(s', g') <= k;
  }

  lemma ReaderKeeps(pc: Reader, seen: nat, s: Index, g: Plan, s': Index, g': Plan)
    requires ReaderOk(pc, seen, s, g) && Extends(s, g, s', g') && LiveStarted(s, g)
    requires pc != Away ==> RangeLive(s'.live, pc.i, pc.end)
    ensures ReaderOk(pc, seen, s', g')
  {
    hide RingsOk, EntriesOk, Covers, SlotOf, Pow2, Within;
    if pc.LoadTail? || pc.LoadKey? || pc.Holds? {
      forall k: nat | Within(pc.i, pc.end, k)
        ensures Covers(s'.rings, g', pc.ring, k)
      {
        CoversKeeps(s, g, s', g', pc.ring, k);
      }
      FirstWithin(pc.i, pc.end);
      CoversInside(s.rings, g, pc.ring, pc.i / BLOCK_SIZE);
    }
  }

  lemma CoversInside(rings: seq<Ring>, g: Plan, v: nat, k: nat)
    requires Covers(rings, g, v, k)
    ensures v < |rings|
  {
  }

  /** Live blocks are started, and their entries fixed. */
  ghost predicate LiveStarted(s: Index, g: Plan) {
    forall n | n in s.live :: n < |g.entries|
  }

  lemma LiveFacts(s: Index, g: Plan, k: nat)
    requires EntriesOk(s, g) && WriterOk(s, g) && k in s.live
    ensures Low(s, g) <= k < s.started <= g.keyed <= |g.entries|
  {
    hide EntryGood, SlotOf;
  }

  lemma AllLiveStarted(s: Index, g: Plan)
    requires EntriesOk(s, g) && WriterOk(s, g)
    ensures LiveStarted(s, g)
  {
    hide EntryGood, SlotOf;
  }

  /** All readers but t are as before; t, if it has a new place, is in order there. */
  lemma ReadersKeep(s: Index, g: Plan, s': Index, g': Plan)
    requires ReadersOk(s, g) && LiveStarted(s, g) && Extends(s, g, s', g') && s'.readers == s.readers
          && g'.seen == g.seen
    requires forall k | k in s.live :: k in s'.live
    ensures ReadersOk(s', g')
  {
    hide Extends, ReaderOk, LiveStarted;
    forall t | t in s'.readers
      ensures ReaderOk(s'.readers[t], Seen(g'.seen, t), s', g')
    {
      ReaderLive(s.readers[t], Seen(g.seen, t), s, g);
      RangeStays(s.live, s'.live, s.readers[t]);
      ReaderKeeps(s.readers[t], Seen(g.seen, t), s, g, s', g');
    }
  }

  lemma RangeStays(live: map<nat, Block>, live': map<nat, Block>, pc: Reader)
    requires pc != Away ==> RangeLive(live, pc.i, pc.end)
    requires forall k | k in live :: k in live'
    ensures pc != Away ==> RangeLive(live', pc.i, pc.end)
  {
    hide Within;
  }

  lemma ReaderLive(pc: Reader, seen: nat, s: Index, g: Plan)
    requires ReaderOk(pc, seen, s, g)
    ensures pc != Away ==> RangeLive(s.live, pc.i, pc.end)
  {
    hide RangeLive, CoversAll, SlotOf, Pow2;
  }

  // ---------------------------------------------------------------------------
  // The steps of the writer
  // ---------------------------------------------------------------------------

  /** The entry behind the tail: the one planned for the next block, or the oldest in the ring. */
  lemma NextEntry(s: Index, g: Plan)
    requires RingsOk(s.rings, g) && EntriesOk(s, g) && WriterOk(s, g)
    ensures var r := Newest(s); var n := Pow2(r.log); var x := SlotAt(r.slots, SlotOf(n, NewestFirst(s, g), s.started));
      if s.started < |g.entries| then x == g.entries[s.started]
          else Low(s, g) >= 0 && x == g.entries[Low(s, g)] && s.started == |g.entries|
  {
    var r := Newest(s);
    var n := Pow2(r.log);
    NewestFacts(s, g);
    hide EntriesOk, LeftFull, Pow2;
    if s.started < |g.entries| {
      RingHas(r, NewestFirst(s, g), |g.entries|, g.entries, s.started);
    } else {
      SlotAround(n, NewestFirst(s, g), Low(s, g));
      RingHas(r, NewestFirst(s, g), |g.entries|, g.entries, Low(s, g));
    }
  }

  lemma WindowEntry(s: Index, g: Plan, n: nat)
    requires EntriesOk(s, g) && Low(s, g) <= n < |g.entries|
    ensures KeyAt(s.keys, g.entries[n]) == if n < g.keyed then Base(n) else INVALID_BLOCK_BASE
    ensures ValueAt(s.values, g.entries[n]) == ValueAt(s.live, n)
  {
    assert EntryGood(s.keys, s.values, s.live, g.keyed, n, g.entries[n]);
  }

  lemma BaseIsValid(n: nat)
    ensures Base(n) != INVALID_BLOCK_BASE
  {
    assert n * BLOCK_SIZE % BLOCK_SIZE == 0;
    assert Wrap(n * BLOCK_SIZE) % BLOCK_SIZE == n * BLOCK_SIZE % BLOCK_SIZE;
  }

  /** Nothing but the writer's place changes. */
  lemma OnlyWriter(s: Index, g: Plan, w: Writer)
    requires Inv(s, g) && WriterOk(s.(writer := w), g)
    ensures Inv(s.(writer := w), g)
  {
    InvParts(s, g);
    var s' := s.(writer := w);
    hide RingOk, LeftFull, EntryGood, ReaderOk, WriterOk, Pow2, SlotOf;
    forall t | t in s'.readers
      ensures ReaderOk(s'.readers[t], Seen(g.seen, t), s', g)
    {
      ReaderSame(s.readers[t], Seen(g.seen, t), s, s', g);
    }
    InvOf(s', g);
  }

  lemma ReaderSame(pc: Reader, seen: nat, s: Index, s': Index, g: Plan)
    requires ReaderOk(pc, seen, s, g) && s'.rings == s.rings && s'.live == s.live
    ensures ReaderOk(pc, seen, s', g)
  {
    hide SlotOf, Pow2;
  }

  /** What the check of the slot behind the tail finds. */
  lemma CheckFinds(s: Index, g: Plan)
    requires RingsOk(s.rings, g) && EntriesOk(s, g) && WriterOk(s, g) && s.writer == CheckSlot
    ensures var j := SlotOf(Pow2(Newest(s).log), NewestFirst(s, g), s.started);
      && (Newest(s).tail + 1) % Pow2(Newest(s).log) == j
      && (KeyAt(s.keys, SlotAt(Newest(s).slots, j)) == INVALID_BLOCK_BASE || SlotAt(Newest(s).slots, j) !in s.values
          <==> s.started < |g.entries| || Low(s, g) !in s.live)
  {
    hide *;
    NewestFacts(s, g);
    NextEntry(s, g);
    TailAtRest(s, g);
    BehindTail(Pow2(Newest(s).log), NewestFirst(s, g), s.started);
    if s.started < |g.entries| {
      WindowEntry(s, g, s.started);
      NotLive(s, g, s.started);
      NoValue(s.values, g.entries[s.started]);
    } else {
      WindowEntry(s, g, Low(s, g));
      BaseIsValid(Low(s, g));
      NoValue(s.values, g.entries[Low(s, g)]);
      NoValue(s.live, Low(s, g));
    }
  }

  lemma TailAtRest(s: Index, g: Plan)
    requires WriterOk(s, g) && !s.writer.Requisitioned? && !s.writer.Rewind?
    ensures Newest(s).tail == SlotOf(Pow2(Newest(s).log), NewestFirst(s, g), s.started + Pow2(Newest(s).log) - 1)
    ensures s.started <= g.keyed <= s.started + 1 && g.keyed <= |g.entries|
    ensures Low(s, g) <= s.started && Low(s, g) < |g.entries|
  {
    hide SlotOf;
  }

  lemma NoValue(values: map<nat, Block>, x: nat)
    ensures ValueAt(values, x) == None <==> x !in values
  {
  }

  lemma StepCheck(s: Index, g: Plan)
    requires Inv(s, g) && s.writer == CheckSlot
    ensures Inv(WriterStep(s, None), g)
  {
    hide Inv, RingsOk, ReadersOk, EntriesOk, SlotOf, Pow2, RingOk, KeyAt, SlotAt;
    InvParts(s, g);
    CheckFinds(s, g);
    OnlyWriter(s, g, WriterStep(s, None).writer);
  }

  lemma NotLive(s: Index, g: Plan, n: nat)
    requires EntriesOk(s, g) && s.started <= n
    ensures n !in s.live && ValueAt(s.live, n) == None
  {
    hide EntryGood;
  }

  /** One entry of the window changes, with its number in the map and among the keyed ones. */
  lemma OneEntryChanges(s: Index, g: Plan, s': Index, g': Plan, n0: nat)
    requires EntriesOk(s, g) && Low(s, g) == Low(s', g') <= n0 < |g.entries| && g'.entries == g.entries
          && s'.next == s.next
    requires forall x | x != g.entries[n0] ::
          KeyAt(s'.keys, x) == KeyAt(s.keys, x) && ValueAt(s'.values, x) == ValueAt(s.values, x)
    requires forall n: nat | n != n0 :: ValueAt(s'.live, n) == ValueAt(s.live, n) && (n < g'.keyed <==> n < g.keyed)
    requires EntryGood(s'.keys, s'.values, s'.live, g'.keyed, n0, g.entries[n0])
    requires forall x | x in s'.keys || x in s'.values :: x == g.entries[n0] || x in s.keys || x in s.values
    requires forall n | n in s'.live :: Low(s, g) <= n < s'.started
    ensures EntriesOk(s', g')
  {
    hide KeyAt, ValueAt, Low, Base;
    forall n: nat | Low(s', g') <= n < |g'.entries|
      ensures EntryGood(s'.keys, s'.values, s'.live, g'.keyed, n, g'.entries[n])
    {
      assert EntryGood(s.keys, s.values, s.live, g.keyed, n, g.entries[n]);
      if n != n0 {
        EntriesDiffer(s, g, n, n0);
      }
    }
  }

  lemma EntriesDiffer(s: Index, g: Plan, n: nat, m: nat)
    requires EntriesOk(s, g) && Low(s, g) <= n < |g.entries| && Low(s, g) <= m < |g.entries| && n != m
    ensures g.entries[n] != g.entries[m]
  {
    hide EntryGood, Low;
  }

  /** The newest ring's tail may move; what is loaded from older rings stays. */
  lemma RingsSame(s: Index, g: Plan, s': Index, g': Plan)
    requires RingsOk(s.rings, g) && |s'.rings| == |s.rings| && g'.firsts == g.firsts && g'.ends == g.ends
          && g'.entries == g.entries
    requires g.keyed <= g'.keyed
    requires forall v: nat | v < |s.rings| ::
          RingAt(s'.rings, v).log == RingAt(s.rings, v).log && RingAt(s'.rings, v).slots == RingAt(s.rings, v).slots
    requires forall v: nat | v < |s.rings| - 1 :: RingAt(s'.rings, v) == RingAt(s.rings, v)
    ensures RingsOk(s'.rings, g') && Low(s', g') == Low(s, g) && NewestFirst(s', g') == NewestFirst(s, g)
    ensures Newest(s').log == Newest(s).log && Newest(s').slots == Newest(s).slots
    ensures EntriesOk(s', g') ==> Extends(s, g, s', g')
  {
    hide EntriesOk, SlotOf, Pow2, SlotAt, EntryOf;
    forall v: nat | v < |s'.rings|
      ensures RingOk(RingAt(s'.rings, v), At(g'.firsts, v), At(g'.ends, v), g'.entries)
    {
      assert RingOk(RingAt(s.rings, v), At(g.firsts, v), At(g.ends, v), g.entries);
    }
    forall v: nat | v < |s'.rings| - 1
      ensures LeftFull(RingAt(s'.rings, v), At(g'.firsts, v), At(g'.ends, v), g'.keyed)
    {
      assert LeftFull(RingAt(s.rings, v), At(g.firsts, v), At(g.ends, v), g.keyed);
    }
  }

  lemma TailMoved(s: Index, tail: nat)
    requires s.rings != []
    ensures var rings := SetTail(s, tail);
      && |rings| == |s.rings|
      && (forall v: nat | v < |s.rings| :: RingAt(rings, v).log == RingAt(s.rings, v).log
           && RingAt(rings, v).slots == RingAt(s.rings, v).slots)
      && (forall v: nat | v < |s.rings| - 1 :: RingAt(rings, v) == RingAt(s.rings, v))
      && RingAt(rings, |s.rings| - 1) == Newest(s).(tail := tail)
  {
  }

  /** The window, the keys, the values and the map are as before. */
  lemma EntriesSame(s: Index, g: Plan, s': Index)
    requires EntriesOk(s, g) && Low(s', g) == Low(s, g) && s'.keys == s.keys && s'.live == s.live && s'.next == s.next
          && s'.started == s.started
    requires forall x :: ValueAt(s'.values, x) == ValueAt(s.values, x)
    requires forall x | x in s'.values :: x in s.values
    ensures EntriesOk(s', g)
  {
    hide KeyAt, Low, Base;
    forall n: nat | Low(s', g) <= n < |g.entries|
      ensures EntryGood(s'.keys, s'.values, s'.live, g.keyed, n, g.entries[n])
    {
      assert EntryGood(s.keys, s.values, s.live, g.keyed, n, g.entries[n]);
    }
  }

  /** A step that moves the tail of the newest ring. */
  lemma StepTail(s: Index, g: Plan, tail: nat, w: Writer)
    requires Inv(s, g) && s.rings != [] && WriterOk(s.(rings := SetTail(s, tail), writer := w), g)
    ensures Inv(s.(rings := SetTail(s, tail), writer := w), g)
  {
    hide *;
    InvParts(s, g);
    var s' := s.(rings := SetTail(s, tail), writer := w);
    TailMoved(s, tail);
    RingsSame(s, g, s', g);
    EntriesSame(s, g, s');
    AllLiveStarted(s, g);
    ReadersKeep(s, g, s', g);
    InvOf(s', g);
  }

  lemma StepPublishTail(s: Index, g: Plan)
    requires Inv(s, g) && s.writer.PublishTail?
    ensures Inv(WriterStep(s, None), g)
  {
    InvParts(s, g);
    NewestFacts(s, g);
    TailMoved(s, s.writer.slot);
    hide Inv, RingsOk, ReadersOk, EntriesOk, SlotOf, Pow2, RingOk;
    StepTail(s, g, s.writer.slot, Requisitioned(s.writer.slot));
  }

  lemma RewindWriter(s: Index, g: Plan)
    requires RingsOk(s.rings, g) && WriterOk(s, g) && s.writer.Rewind?
    ensures var n := Pow2(Newest(s).log); var tail := (Newest(s).tail + n - 1) % n;
      && s.rings != [] && WriterStep(s, None) == s.(rings := SetTail(s, tail), writer := ClearValue(s.writer.slot))
      && WriterOk(WriterStep(s, None), g)
  {
    hide RingsOk, SlotOf, Pow2, RingOk, SetTail;
    NewestFacts(s, g);
    var n := Pow2(Newest(s).log);
    BehindTail(n, NewestFirst(s, g), s.started);
    TailMoved(s, (Newest(s).tail + n - 1) % n);
  }

  lemma StepRewind(s: Index, g: Plan)
    requires Inv(s, g) && s.writer.Rewind?
    ensures Inv(WriterStep(s, None), g)
  {
    hide *;
    InvParts(s, g);
    RewindWriter(s, g);
    var n := Pow2(Newest(s).log);
    StepTail(s, g, (Newest(s).tail + n - 1) % n, ClearValue(s.writer.slot));
  }

  /** Putting the step together: rings unchanged, one entry changed. */
  lemma StepEntry(s: Index, g: Plan, s': Index, g': Plan)
    requires Inv(s, g) && s'.rings == s.rings && s'.readers == s.readers
    requires g'.firsts == g.firsts && g'.ends == g.ends && g'.entries == g.entries && g'.seen == g.seen
          && g.keyed <= g'.keyed
    requires EntriesOk(s', g') && WriterOk(s', g') && forall k | k in s.live :: k in s'.live
    ensures Inv(s', g')
  {
    hide *;
    InvParts(s, g);
    RingsSame(s, g, s', g');
    AllLiveStarted(s, g);
    ReadersKeep(s, g, s', g');
    InvOf(s', g');
  }

  lemma WriteKeyWriter(s: Index, g: Plan, g': Plan)
    requires RingsOk(s.rings, g) && EntriesOk(s, g) && WriterOk(s, g) && s.writer.WriteKey? && s.started < |g.entries|
    requires g' == g.(keyed := s.started + 1)
    ensures WriterStep(s, None) == s.(keys := s.keys[g.entries[s.started] := Base(s.started)], writer :=
          PublishTail(s.writer.slot))
    ensures WriterOk(WriterStep(s, None), g') && g.keyed <= s.started + 1 && s.started <= g.keyed
          && Low(s, g) <= s.started
  {
    hide RingsOk, EntriesOk, SlotOf, Pow2, RingOk, Base;
    NewestFacts(s, g);
    NextEntry(s, g);
  }

  /** The key of the entry planned for the next block is written. */
  lemma StepWriteKeyPlanned(s: Index, g: Plan)
    requires Inv(s, g) && s.writer.WriteKey? && s.started < |g.entries|
    ensures Inv(WriterStep(s, None), g.(keyed := s.started + 1))
  {
    hide *;
    InvParts(s, g);
    var s', g' := WriterStep(s, None), g.(keyed := s.started + 1);
    WriteKeyWriter(s, g, g');
    KeyedEntry(s, g, s', g');
    StepEntry(s, g, s', g');
  }

  lemma KeyedEntry(s: Index, g: Plan, s': Index, g': Plan)
    requires EntriesOk(s, g) && Low(s, g) <= s.started < |g.entries| && s.started <= g.keyed <= s.started + 1
    requires g' == g.(keyed := s.started + 1)
    requires s' == s.(keys := s.keys[g.entries[s.started] := Base(s.started)], writer := s'.writer)
    ensures EntriesOk(s', g')
  {
    WindowEntry(s, g, s.started);
    NotLive(s, g, s.started);
    hide EntriesOk, Pow2, Base;
    LiveRange(s, g);
    OneEntryChanges(s, g, s', g', s.started);
  }

  lemma LiveRange(s: Index, g: Plan)
    requires EntriesOk(s, g)
    ensures forall n | n in s.live :: Low(s, g) <= n < s.started
  {
    hide EntryGood;
  }

  lemma RequisitionedWriter(s: Index, g: Plan, b: Block)
    requires RingsOk(s.rings, g) && EntriesOk(s, g) && WriterOk(s, g) && s.writer.Requisitioned?
    ensures Low(s, g) <= s.started < |g.entries| && g.keyed == s.started + 1
    ensures WriterStep(s, Some(b)) == s.(values := s.values[g.entries[s.started] := b], live := s.live[s.started := b],
                                         started := s.started + 1, writer := Rest)
    ensures WriterOk(WriterStep(s, Some(b)), g)
  {
    hide RingsOk, EntriesOk, SlotOf, Pow2, RingOk, Base;
    NewestFacts(s, g);
    NextEntry(s, g);
    SlotAround(Pow2(Newest(s).log), NewestFirst(s, g), s.started);
    assert s.started + 1 + Pow2(Newest(s).log) - 1 == s.started + Pow2(Newest(s).log);
  }

  lemma FilledEntry(s: Index, g: Plan, s': Index, b: Block)
    requires EntriesOk(s, g) && Low(s, g) <= s.started < |g.entries| && g.keyed == s.started + 1
    requires s' == s.(values := s.values[g.entries[s.started] := b], live := s.live[s.started := b], started :=
          s.started + 1, writer := Rest)
    ensures EntriesOk(s', g)
  {
    WindowEntry(s, g, s.started);
    hide EntriesOk, Pow2, Base;
    LiveRange(s, g);
    OneEntryChanges(s, g, s', g, s.started);
  }

  lemma StepRequisitioned(s: Index, g: Plan, block: Option<Block>)
    requires Inv(s, g) && s.writer.Requisitioned?
    ensures Inv(WriterStep(s, block), g)
  {
    InvParts(s, g);
    if block == None {
      hide Inv, RingsOk, ReadersOk, EntriesOk, SlotOf, Pow2;
      OnlyWriter(s, g, Rewind(s.writer.slot));
    } else {
      hide *;
      var s' := WriterStep(s, Some(block.value));
      RequisitionedWriter(s, g, block.value);
      FilledEntry(s, g, s', block.value);
      StepEntry(s, g, s', g);
    }
  }

  lemma ClearWriter(s: Index, g: Plan)
    requires RingsOk(s.rings, g) && EntriesOk(s, g) && WriterOk(s, g) && s.writer.ClearValue?
    ensures s.started < |g.entries| && Low(s, g) <= s.started
    ensures WriterStep(s, None) == s.(values := s.values - {g.entries[s.started]}, writer := Rest)
          && WriterOk(WriterStep(s, None), g)
  {
    hide RingsOk, EntriesOk, SlotOf, Pow2, RingOk, Base;
    NewestFacts(s, g);
    NextEntry(s, g);
  }

  lemma StepClear(s: Index, g: Plan)
    requires Inv(s, g) && s.writer.ClearValue?
    ensures Inv(WriterStep(s, None), g)
  {
    hide *;
    InvParts(s, g);
    ClearWriter(s, g);
    WindowEntry(s, g, s.started);
    NotLive(s, g, s.started);
    NoValue(s.values, g.entries[s.started]);
    NothingRemoved(s.values, g.entries[s.started]);
    LowSame(s, WriterStep(s, None), g);
    EntriesSame(s, g, WriterStep(s, None));
    StepEntry(s, g, WriterStep(s, None), g);
  }

  lemma LowSame(s: Index, s': Index, g: Plan)
    requires s'.rings == s.rings
    ensures Low(s', g) == Low(s, g)
  {
  }

  lemma NothingRemoved(values: map<EntryId, Block>, x: EntryId)
    requires x !in values
    ensures values - {x} == values
  {
  }

  // ---------------------------------------------------------------------------
  // Reusing the oldest entry, and growing
  // ---------------------------------------------------------------------------

  function ReusedPlan(s: Index, g: Plan): Plan {
    var x := EntryOf(g.entries, if Low(s, g) < 0 then 0 else Low(s, g));
    g.(entries := g.entries + [x], keyed := s.started + 1,
       ends := if g.ends == [] then [] else g.ends[|g.ends| - 1 := |g.entries| + 1])
  }

  /** Longer plan, same rings: what rings have is still planned. */
  lemma RingLonger(r: Ring, first: nat, end: nat, entries: seq<EntryId>, more: seq<EntryId>)
    requires RingOk(r, first, end, entries)
    ensures RingOk(r, first, end, entries + more)
  {
    hide SlotOf, Pow2;
    forall n: nat | n < end <= n + Pow2(r.log)
      ensures SlotAt(r.slots, SlotOf(Pow2(r.log), first, n)) == EntryOf(entries + more, n)
    {
      assert EntryOf(entries + more, n) == EntryOf(entries, n);
    }
  }

  /** The newest ring's window moves on by one when its oldest entry is planned again. */
  lemma RingSlides(r: Ring, first: nat, end: nat, entries: seq<EntryId>)
    requires RingOk(r, first, end, entries) && end == |entries|
    ensures RingOk(r, first, end + 1, entries + [EntryOf(entries, end - Pow2(r.log))])
  {
    var n := Pow2(r.log);
    var more := entries + [EntryOf(entries, end - n)];
    SlotAround(n, first, end - n);
    hide SlotOf, Pow2;
    forall k: nat | k < end + 1 <= k + n
      ensures SlotAt(r.slots, SlotOf(n, first, k)) == EntryOf(more, k)
    {
      if k == end {
        RingHas(r, first, end, entries, end - n);
      } else {
        assert EntryOf(more, k) == EntryOf(entries, k);
        RingHas(r, first, end, entries, k);
      }
    }
  }

  lemma ReusedRings(s: Index, g: Plan)
    requires RingsOk(s.rings, g) && g.keyed <= s.started + 1
    ensures RingsOk(s.rings, ReusedPlan(s, g))
  {
    hide Pow2, SlotOf, SlotAt;
    var g' := ReusedPlan(s, g);
    NewestFacts(s, g);
    var last: nat := |s.rings| - 1;
    RingSlides(Newest(s), NewestFirst(s, g), |g.entries|, g.entries);
    forall v: nat | v < |s.rings|
      ensures RingOk(RingAt(s.rings, v), At(g'.firsts, v), At(g'.ends, v), g'.entries)
    {
      if v < last {
        RingLonger(RingAt(s.rings, v), At(g.firsts, v), At(g.ends, v), g.entries, g'.entries[|g.entries|..]);
        assert g.entries + g'.entries[|g.entries|..] == g'.entries;
      }
    }
    hide RingOk;
    forall v: nat | v < |s.rings| - 1
      ensures LeftFull(RingAt(s.rings, v), At(g'.firsts, v), At(g'.ends, v), g'.keyed)
    {
      assert LeftFull(RingAt(s.rings, v), At(g.firsts, v), At(g.ends, v), g.keyed);
    }
  }

  lemma ReusedEntries(s: Index, g: Plan, s': Index, x: EntryId)
    requires EntriesOk(s, g) && 0 <= Low(s, g) < s.started == g.keyed == |g.entries| && Low(s, g) !in s.live
    requires x == g.entries[Low(s, g)] && s' == s.(keys := s.keys[x := Base(s.started)], writer := s'.writer)
    ensures EntriesOk(s', ReusedPlan(s, g))
  {
    var g' := ReusedPlan(s, g);
    var low := Low(s, g);
    assert g'.entries == g.entries + [x] && Low(s', g') == low + 1;
    WindowEntry(s, g, low);
    NotLive(s, g, s.started);
    NoValue(s.live, low);
    hide Base, KeyAt, ValueAt, Low;
    LowUnfolds(s, g);
    LowUnfolds(s', g');
    forall n: nat | low + 1 <= n < |g'.entries|
      ensures EntryGood(s'.keys, s'.values, s'.live, g'.keyed, n, g'.entries[n])
    {
      if n < |g.entries| {
        WindowEntry(s, g, n);
        EntriesDiffer(s, g, low, n);
        KeyElsewhere(s.keys, x, Base(s.started), g.entries[n]);
      } else {
        KeyElsewhere(s.keys, x, Base(s.started), x);
      }
    }
    forall n, m | low + 1 <= n < m < |g'.entries|
      ensures g'.entries[n] != g'.entries[m]
    {
      EntriesDiffer(s, g, n, if m < |g.entries| then m else low);
    }
  }

  lemma LowUnfolds(s: Index, g: Plan)
    ensures Low(s, g) == |g.entries| - Pow2(Newest(s).log)
  {
  }

  lemma KeyElsewhere(keys: map<EntryId, nat>, x: EntryId, key: nat, y: EntryId)
    ensures KeyAt(keys[x := key], y) == if y == x then key else KeyAt(keys, y)
  {
  }

  lemma ReusedExtends(s: Index, g: Plan, s': Index)
    requires RingsOk(s.rings, g) && RingsOk(s'.rings, ReusedPlan(s, g)) && EntriesOk(s', ReusedPlan(s, g))
    requires s'.rings == s.rings && g.keyed <= s.started + 1
    ensures Extends(s, g, s', ReusedPlan(s, g))
  {
    NewestFacts(s, g);
    hide EntriesOk, RingOk, LeftFull, Pow2, Low;
    assert forall n: nat | n < |g.entries| :: EntryOf(ReusedPlan(s, g).entries, n) == EntryOf(g.entries, n);
  }

  lemma ReuseWriter(s: Index, g: Plan)
    requires RingsOk(s.rings, g) && EntriesOk(s, g) && WriterOk(s, g) && s.writer.WriteKey? && s.started == |g.entries|
    ensures 0 <= Low(s, g) < s.started == g.keyed && Low(s, g) !in s.live
    ensures WriterStep(s, None) == s.(keys := s.keys[g.entries[Low(s, g)] := Base(s.started)], writer :=
          PublishTail(s.writer.slot))
    ensures WriterOk(WriterStep(s, None), ReusedPlan(s, g))
  {
    hide RingsOk, EntriesOk, SlotOf, Pow2, RingOk, Base;
    NewestFacts(s, g);
    NextEntry(s, g);
  }

  /** The oldest entry, whose block is drained, is used for the next block. */
  lemma StepWriteKeyReused(s: Index, g: Plan)
    requires Inv(s, g) && s.writer.WriteKey? && s.started == |g.entries|
    ensures Inv(WriterStep(s, None), ReusedPlan(s, g))
  {
    hide *;
    InvParts(s, g);
    var s', g' := WriterStep(s, None), ReusedPlan(s, g);
    ReuseWriter(s, g);
    ReusedRings(s, g);
    ReusedEntries(s, g, s', g.entries[Low(s, g)]);
    ReusedExtends(s, g, s');
    AllLiveStarted(s, g);
    SeenSame(s, g);
    ReadersKeep(s, g, s', g');
    InvOf(s', g');
  }

  lemma SeenSame(s: Index, g: Plan)
    ensures ReusedPlan(s, g).seen == g.seen
  {
  }

  function GrownPlan(s: Index, g: Plan): Plan {
    var n := Pow2(Newest(s).log);
    g.(entries := g.entries + NewEntries(s.next, n), firsts := g.firsts + [if Low(s, g) < 0 then 0 else Low(s, g)],
       ends := g.ends + [|g.entries| + n])
  }

  /** The new ring has, from its first slot on, the old ring's window and then the new entries. */
  lemma GrownRing(s: Index, g: Plan, next: EntryId)
    requires RingOk(Newest(s), NewestFirst(s, g), |g.entries|, g.entries) && Newest(s).log + 1 <= 59
    requires 0 <= Low(s, g) && s.started == |g.entries|
    requires Newest(s).tail == SlotOf(Pow2(Newest(s).log), NewestFirst(s, g), s.started + Pow2(Newest(s).log) - 1)
    ensures var n := Pow2(Newest(s).log);
      RingOk(Grown(Newest(s), next), Low(s, g), |g.entries| + n, g.entries + NewEntries(next, n))
  {
    var r := Newest(s);
    var n := Pow2(r.log);
    var low: nat := Low(s, g);
    var entries' := g.entries + NewEntries(next, n);
    var r' := Grown(r, next);
    Pow2Step(r.log);
    assert low + 2 * n == |g.entries| + n;
    hide RingOk, SlotOf, Pow2;
    forall k: nat | k < low + 2 * n <= k + 2 * n
      ensures SlotAt(r'.slots, SlotOf(2 * n, low, k)) == EntryOf(entries', k)
    {
      GrownSlot(s, g, k - low);
      EarlySlot(2 * n, low, k - low);
    }
    GrownIs(r', low, entries', 2 * n);
  }

  lemma EarlySlot(n: nat, first: nat, j: nat)
    requires j < n
    ensures SlotOf(n, first, first + j) == j
  {
    ModUnique(j, n, 0, j);
  }

  lemma GrownIs(r: Ring, first: nat, entries: seq<EntryId>, n: nat)
    requires n == Pow2(r.log) && r.log <= 59 && |r.slots| == n && first + n == |entries|
    requires forall k: nat | k < first + n <= k + n :: SlotAt(r.slots, SlotOf(n, first, k)) == EntryOf(entries, k)
    ensures RingOk(r, first, |entries|, entries)
  {
  }

  lemma GrownSlot(s: Index, g: Plan, j: nat)
    requires RingOk(Newest(s), NewestFirst(s, g), |g.entries|, g.entries)
    requires 0 <= Low(s, g) && s.started == |g.entries| && j < 2 * Pow2(Newest(s).log)
    requires Newest(s).tail == SlotOf(Pow2(Newest(s).log), NewestFirst(s, g), s.started + Pow2(Newest(s).log) - 1)
    ensures SlotAt(Grown(Newest(s), s.next).slots, j) ==
          EntryOf(g.entries + NewEntries(s.next, Pow2(Newest(s).log)), Low(s, g) + j)
  {
    hide *;
    var r := Newest(s);
    var n := Pow2(r.log);
    var first := NewestFirst(s, g);
    GrownAt(r, s.next, j);
    LowUnfolds(s, g);
    if j < n {
      CopiedSlot(n, first, s.started, j);
      RingHas(r, first, |g.entries|, g.entries, Low(s, g) + j);
      EarlyEntry(g.entries, NewEntries(s.next, n), Low(s, g) + j);
    } else {
      LateEntry(g.entries, s.next, n, j - n);
    }
  }

  lemma GrownAt(r: Ring, next: EntryId, j: nat)
    requires j < 2 * Pow2(r.log)
    ensures var n := Pow2(r.log);
      SlotAt(Grown(r, next).slots, j) == if j < n then SlotAt(r.slots, (r.tail + 1 + j) % n) else next + (j - n)
  {
    hide Pow2, SlotAt;
    SlotAtIs(Grown(r, next).slots, j);
  }

  lemma SlotAtIs(slots: seq<EntryId>, j: nat)
    requires j < |slots|
    ensures SlotAt(slots, j) == slots[j]
  {
  }

  lemma EarlyEntry(entries: seq<EntryId>, more: seq<EntryId>, k: nat)
    requires k < |entries|
    ensures EntryOf(entries + more, k) == EntryOf(entries, k)
  {
  }

  lemma LateEntry(entries: seq<EntryId>, next: EntryId, n: nat, j: nat)
    requires j < n
    ensures EntryOf(entries + NewEntries(next, n), |entries| + j) == next + j
  {
  }

  /** j behind the slot behind the tail is the slot of the j-th number of the window. */
  lemma CopiedSlot(n: nat, first: nat, started: nat, j: nat)
    requires 0 < n <= started
    ensures (SlotOf(n, first, started + n - 1) + 1 + j) % n == SlotOf(n, first, started - n + j)
  {
    var x: int := started + n - 1 - first;
    ModAdd(x, 1 + j, n);
    ModAddMultiple(started - n + j - first, 2, n);
    assert x + (1 + j) == started - n + j - first + 2 * n;
    assert x % n + (1 + j) == SlotOf(n, first, started + n - 1) + 1 + j;
  }

  lemma GrownRings(s: Index, g: Plan, s': Index)
    requires RingsOk(s.rings, g) && WriterOk(s, g) && s.writer == GrowRing && Newest(s).log + 1 <= 59
    requires s'.rings == s.rings + [Grown(Newest(s), s.next)]
    ensures RingsOk(s'.rings, GrownPlan(s, g)) && Newest(s') == Grown(Newest(s), s.next)
    ensures 0 <= Low(s, g) && Low(s', GrownPlan(s, g)) == Low(s, g) && NewestFirst(s', GrownPlan(s, g)) == Low(s, g)
  {
    var g' := GrownPlan(s, g);
    var n := Pow2(Newest(s).log);
    var more := NewEntries(s.next, n);
    NewestFacts(s, g);
    GrownRing(s, g, s.next);
    OldTail(s, g);
    Pow2Step(Newest(s).log);
    hide SlotOf, Pow2, Grown;
    forall v: nat | v < |s'.rings|
      ensures RingOk(RingAt(s'.rings, v), At(g'.firsts, v), At(g'.ends, v), g'.entries)
    {
      if v < |s.rings| {
        RingLonger(RingAt(s.rings, v), At(g.firsts, v), At(g.ends, v), g.entries, more);
      }
    }
    hide RingOk;
    forall v: nat | v < |s'.rings| - 1
      ensures LeftFull(RingAt(s'.rings, v), At(g'.firsts, v), At(g'.ends, v), g'.keyed)
    {
      if v < |s.rings| - 1 {
        assert LeftFull(RingAt(s.rings, v), At(g.firsts, v), At(g.ends, v), g.keyed);
      }
    }
  }

  /** The ring to be replaced is full, with its tail at its last entry. */
  lemma OldTail(s: Index, g: Plan)
    requires RingsOk(s.rings, g) && WriterOk(s, g) && s.writer == GrowRing
    ensures LeftFull(Newest(s), NewestFirst(s, g), |g.entries|, g.keyed) && s.started == |g.entries|
  {
    hide RingsOk, Pow2, SlotOf;
    NewestFacts(s, g);
    var n := Pow2(Newest(s).log);
    SlotAround(n, NewestFirst(s, g), s.started - 1);
    assert s.started - 1 + n == s.started + n - 1;
  }

  lemma GrownEntries(s: Index, g: Plan, s': Index)
    requires EntriesOk(s, g) && s.started == g.keyed == |g.entries| && 0 <= Low(s, g) == Low(s', GrownPlan(s, g))
    requires s' == s.(rings := s'.rings, next := s.next + Pow2(Newest(s).log), writer := s'.writer)
    ensures EntriesOk(s', GrownPlan(s, g))
  {
    var g' := GrownPlan(s, g);
    var n := Pow2(Newest(s).log);
    hide Low, Base, KeyAt, ValueAt, Pow2;
    forall k: nat | Low(s', g') <= k < |g'.entries|
      ensures EntryGood(s'.keys, s'.values, s'.live, g'.keyed, k, g'.entries[k])
    {
      if k < |g.entries| {
        assert EntryGood(s.keys, s.values, s.live, g.keyed, k, g.entries[k]);
      } else {
        NotLive(s, g, k);
        NewIsUnused(s, g'.entries[k]);
      }
    }
    forall k, m | Low(s', g') <= k < m < |g'.entries|
      ensures g'.entries[k] != g'.entries[m]
    {
      if m < |g.entries| {
        EntriesDiffer(s, g, k, m);
      }
    }
  }

  lemma NewIsUnused(s: Index, x: EntryId)
    requires (forall y | y in s.keys || y in s.values :: y < s.next) && s.next <= x
    ensures KeyAt(s.keys, x) == INVALID_BLOCK_BASE && ValueAt(s.values, x) == None
  {
  }

  lemma GrownWriter(s: Index, g: Plan, s': Index)
    requires WriterOk(s, g) && s.writer == GrowRing
          && 0 <= Low(s, g) == Low(s', GrownPlan(s, g)) == NewestFirst(s', GrownPlan(s, g))
    requires Newest(s') == Grown(Newest(s), s.next) && s'.writer == CheckFresh && s'.started == s.started
    ensures WriterOk(s', GrownPlan(s, g)) && s.started == g.keyed == |g.entries|
  {
    var n := Pow2(Newest(s).log);
    var low: nat := Low(s, g);
    Pow2Step(Newest(s).log);
    assert s.started == low + n;
    SlotAround(2 * n, low, low + n - 1);
    EarlySlot(2 * n, low, n - 1);
    assert s.started + 2 * n - 1 == low + n - 1 + 2 * n;
    hide SlotOf, Pow2, Copied;
  }

  lemma GrownExtends(s: Index, g: Plan, s': Index)
    requires RingsOk(s.rings, g) && RingsOk(s'.rings, GrownPlan(s, g)) && EntriesOk(s', GrownPlan(s, g))
    requires s'.rings == s.rings + [Grown(Newest(s), s.next)]
    ensures Extends(s, g, s', GrownPlan(s, g)) && GrownPlan(s, g).seen == g.seen
  {
    hide EntriesOk, RingOk, LeftFull, Pow2, Low, Grown;
    assert forall n: nat | n < |g.entries| :: EntryOf(GrownPlan(s, g).entries, n) == EntryOf(g.entries, n);
  }

  lemma GrowState(s: Index, block: Option<Block>)
    requires s.writer == GrowRing && block.Some?
    ensures WriterStep(s, block) ==
            s.(rings := s.rings + [Grown(Newest(s), s.next)], next := s.next + Pow2(Newest(s).log), writer :=
                CheckFresh)
  {
  }

  lemma StepGrow(s: Index, g: Plan, block: Option<Block>)
    requires Inv(s, g) && s.writer == GrowRing && block.Some? && Newest(s).log + 1 <= 59
    ensures Inv(WriterStep(s, block), GrownPlan(s, g))
  {
    hide *;
    InvParts(s, g);
    var s', g' := WriterStep(s, block), GrownPlan(s, g);
    GrowState(s, block);
    GrownRings(s, g, s');
    GrownWriter(s, g, s');
    GrownEntries(s, g, s');
    GrownExtends(s, g, s');
    AllLiveStarted(s, g);
    ReadersKeep(s, g, s', g');
    InvOf(s', g');
  }

  lemma FreshWriter(s: Index, g: Plan)
    requires RingsOk(s.rings, g) && WriterOk(s, g) && s.writer == CheckFresh
    ensures WriterStep(s, None) == s.(writer := WriterStep(s, None).writer) && WriterOk(WriterStep(s, None), g)
  {
    hide SlotOf, Pow2, RingsOk;
    NewestFacts(s, g);
    BehindTail(Pow2(Newest(s).log), NewestFirst(s, g), s.started);
  }

  lemma WriterKeepsInv(s: Index, g: Plan, block: Option<Block>) returns (g': Plan)
    requires Inv(s, g) && Roomy(s)
    ensures Inv(WriterStep(s, block), g')
  {
    g' := g;
    hide Inv, RingsOk, EntriesOk, ReadersOk, SlotOf, Pow2, Grown, SetTail, ReusedPlan, GrownPlan;
    InvParts(s, g);
    match s.writer
    case Rest => OnlyWriter(s, g, CheckSlot);
    case CheckSlot => StepCheck(s, g);
    case GrowRing =>
      if block == None {
        OnlyWriter(s, g, Rest);
      } else {
        StepGrow(s, g, block);
        g' := GrownPlan(s, g);
      }
    case CheckFresh =>
      FreshWriter(s, g);
      OnlyWriter(s, g, WriterStep(s, None).writer);
    case WriteKey(_) =>
      if s.started < |g.entries| {
        StepWriteKeyPlanned(s, g);
        g' := g.(keyed := s.started + 1);
      } else {
        StepWriteKeyReused(s, g);
        g' := ReusedPlan(s, g);
      }
    case PublishTail(_) => StepPublishTail(s, g);
    case Requisitioned(_) => StepRequisitioned(s, g, block);
    case Rewind(_) => StepRewind(s, g);
    case ClearValue(_) => StepClear(s, g);
  }

  // ---------------------------------------------------------------------------
  // The steps of readers
  // ---------------------------------------------------------------------------

  /** A reader's step to a new place: nothing else changes. */
  lemma ReaderMoves(s: Index, g: Plan, t: Thread, pc: Reader, seen: nat)
    requires Inv(s, g) && t in s.readers && ReaderOk(pc, seen, s, g)
    ensures Inv(s.(readers := s.readers[t := pc]), g.(seen := g.seen[t := seen]))
  {
    var s', g' := s.(readers := s.readers[t := pc]), g.(seen := g.seen[t := seen]);
    InvParts(s, g);
    PartsSame(s, g, s', g');
    hide ReaderOk, RingsOk, EntriesOk, WriterOk, Inv;
    forall u | u in s'.readers
      ensures ReaderOk(s'.readers[u], Seen(g'.seen, u), s', g')
    {
      if u == t {
        ReaderElsewhere(pc, seen, s, g, s', g');
      } else {
        ReaderElsewhere(s.readers[u], Seen(g.seen, u), s, g, s', g');
      }
    }
    InvOf(s', g');
  }

  lemma PartsSame(s: Index, g: Plan, s': Index, g': Plan)
    requires s' == s.(readers := s'.readers) && g' == g.(seen := g'.seen)
    ensures RingsOk(s.rings, g) ==> RingsOk(s'.rings, g')
    ensures EntriesOk(s, g) ==> EntriesOk(s', g')
    ensures WriterOk(s, g) ==> WriterOk(s', g')
  {
    hide RingOk, LeftFull, EntryGood, SlotOf, Pow2;
  }

  lemma ReaderElsewhere(pc: Reader, seen: nat, s: Index, g: Plan, s': Index, g': Plan)
    requires ReaderOk(pc, seen, s, g) && s' == s.(readers := s'.readers) && g' == g.(seen := g'.seen)
    ensures ReaderOk(pc, seen, s', g')
  {
    hide SlotOf, Pow2;
  }

  lemma ReaderAt(s: Index, g: Plan, t: Thread)
    requires Inv(s, g) && t in s.readers
    ensures ReaderOk(s.readers[t], Seen(g.seen, t), s, g)
  {
    hide ReaderOk, RingsOk, EntriesOk, WriterOk;
  }

  lemma StepLoadRing(s: Index, g: Plan, t: Thread, i: nat, end: nat)
    requires Inv(s, g) && t in s.readers && s.readers[t] == LoadRing(i, end)
    ensures Inv(ReaderStep(s, t, s.readers[t]), g.(seen := g.seen[t := 0]))
  {
    ReaderAt(s, g, t);
    InvParts(s, g);
    NewestFacts(s, g);
    hide Inv, RingsOk, EntriesOk, WriterOk, ReadersOk, SlotOf, Pow2, Within;
    forall k: nat | Within(i, end, k)
      ensures Covers(s.rings, g, |s.rings| - 1, k)
    {
      LiveFacts(s, g, k);
    }
    ReaderMoves(s, g, t, LoadTail(i, end, |s.rings| - 1), 0);
  }

  /** The number whose entry the tail of ring v stands at. */
  function TailNumber(s: Index, g: Plan, v: nat): nat {
    if v + 1 < |s.rings| then (if At(g.ends, v) == 0 then 0 else At(g.ends, v) - 1)
    else if s.writer.Requisitioned? || s.writer.Rewind? then s.started
    else if s.started == 0 then 0 else s.started - 1
  }

  lemma TailStands(s: Index, g: Plan, v: nat, k: nat)
    requires RingsOk(s.rings, g) && EntriesOk(s, g) && WriterOk(s, g) && Covers(s.rings, g, v, k) && k in s.live
    ensures var m := TailNumber(s, g, v); var r := RingAt(s.rings, v);
      k <= m < g.keyed && m < At(g.ends, v) && r.tail == SlotOf(Pow2(r.log), At(g.firsts, v), m)
  {
    hide RingsOk, EntriesOk, SlotOf, Pow2, RingOk;
    RingFacts(s, g, v);
    NewestFacts(s, g);
    LiveFacts(s, g, k);
    var n := Pow2(Newest(s).log);
    SlotAround(n, NewestFirst(s, g), s.started - 1);
    assert s.started - 1 + n == s.started + n - 1;
  }

  lemma StepLoadTail(s: Index, g: Plan, t: Thread, i: nat, end: nat, v: nat)
    requires Inv(s, g) && t in s.readers && s.readers[t] == LoadTail(i, end, v)
    ensures Inv(ReaderStep(s, t, s.readers[t]), g.(seen := g.seen[t := TailNumber(s, g, v)]))
  {
    ReaderAt(s, g, t);
    InvParts(s, g);
    FirstWithin(i, end);
    hide Inv, RingsOk, EntriesOk, WriterOk, ReadersOk, SlotOf, Pow2, TailNumber, Within, Covers;
    TailStands(s, g, v, i / BLOCK_SIZE);
    ReaderMoves(s, g, t, LoadKey(i, end, v, RingAt(s.rings, v).tail), TailNumber(s, g, v));
  }

  /** The key read at the tail is the base of its number, for no entry behind a live block's is reused. */
  lemma KeyRead(s: Index, g: Plan, i: nat, v: nat, seen: nat)
    requires RingsOk(s.rings, g) && EntriesOk(s, g) && WriterOk(s, g)
    requires i / BLOCK_SIZE in s.live && Covers(s.rings, g, v, i / BLOCK_SIZE)
    requires i / BLOCK_SIZE <= seen < g.keyed && seen < At(g.ends, v)
    ensures var r := RingAt(s.rings, v); var k := i / BLOCK_SIZE; var n := Pow2(r.log); var first := At(g.firsts, v);
      && r.log <= 59 && KeyAt(s.keys, SlotAt(r.slots, SlotOf(n, first, seen))) == Base(seen) && seen - k < n
      && SlotAt(r.slots, SlotOf(n, first, k)) == EntryOf(g.entries, k)
  {
    var k := i / BLOCK_SIZE;
    RingFacts(s, g, v);
    LiveFacts(s, g, k);
    RingHas(RingAt(s.rings, v), At(g.firsts, v), At(g.ends, v), g.entries, seen);
    RingHas(RingAt(s.rings, v), At(g.firsts, v), At(g.ends, v), g.entries, k);
    WindowEntry(s, g, seen);
    hide RingsOk, EntriesOk, WriterOk, SlotOf, Pow2, Base, KeyAt;
  }

  lemma LookUpIs(log: nat, first: nat, i: nat, m: nat)
    requires log <= 59 && i / BLOCK_SIZE <= m && m - i / BLOCK_SIZE < Pow2(log)
    ensures LookUp(i, SlotOf(Pow2(log), first, m), Base(m), log) == SlotOf(Pow2(log), first, i / BLOCK_SIZE)
  {
    var q := SizeDivides(log);
    MulMono(1, q, Pow2(log));
    MulMono(q, 0, Pow2(log));
    hide SlotOf, LookUp, Pow2, Wrap;
    LookUpFinds(log, first, i, m);
  }

  lemma StepLoadKey(s: Index, g: Plan, t: Thread, i: nat, end: nat, v: nat, j: nat)
    requires Inv(s, g) && t in s.readers && s.readers[t] == LoadKey(i, end, v, j)
    ensures Inv(ReaderStep(s, t, s.readers[t]), g.(seen := g.seen[t := 0]))
  {
    ReaderAt(s, g, t);
    InvParts(s, g);
    var seen := Seen(g.seen, t);
    FirstWithin(i, end);
    hide Inv, RingsOk, EntriesOk, WriterOk, ReadersOk, SlotOf, Pow2, LookUp, Covers, Base, Within;
    KeyRead(s, g, i, v, seen);
    LookUpIs(RingAt(s.rings, v).log, At(g.firsts, v), i, seen);
    var r := RingAt(s.rings, v);
    ReaderMoves(s, g, t, Holds(i, end, v, SlotOf(Pow2(r.log), At(g.firsts, v), i / BLOCK_SIZE),
        EntryOf(g.entries, i / BLOCK_SIZE)), 0);
  }

  lemma StepBegin(s: Index, g: Plan, t: Thread, i: nat, end: nat)
    requires Inv(s, g) && Enabled(s, Begin(t, i, end))
    ensures Inv(Apply(s, Begin(t, i, end)), g.(seen := g.seen[t := 0]))
  {
    hide Inv, SlotOf, Pow2, RangeLive;
    ReaderMoves(s, g, t, LoadRing(i, end), 0);
  }

  /** In the ring a reader has loaded, the entry of a block m further is m slots further. */
  lemma EntryFurther(s: Index, g: Plan, pc: Reader, seen: nat, m: nat)
    requires RingsOk(s.rings, g) && ReaderOk(pc, seen, s, g) && pc.Holds? && Within(pc.i, pc.end, pc.i / BLOCK_SIZE + m)
    ensures var r := RingAt(s.rings, pc.ring); var k := pc.i / BLOCK_SIZE + m; var at := (pc.at + m) % Pow2(r.log);
      && k in s.live && at == SlotOf(Pow2(r.log), At(g.firsts, pc.ring), k)
           && SlotAt(r.slots, at) == EntryOf(g.entries, k)
  {
    hide RingsOk, SlotOf, Pow2, Within, ReaderOk;
    HoldsFacts(pc, seen, s, g);
    var r := RingAt(s.rings, pc.ring);
    var k := pc.i / BLOCK_SIZE + m;
    SlotFurther(Pow2(r.log), At(g.firsts, pc.ring), pc.i / BLOCK_SIZE, m);
    assert Covers(s.rings, g, pc.ring, k);
    RingFacts(s, g, pc.ring);
    RingHas(r, At(g.firsts, pc.ring), At(g.ends, pc.ring), g.entries, k);
  }

  /** What is left to a reader that goes on is in order, and has nothing of the block it leaves. */
  lemma OnwardOk(s: Index, g: Plan, pc: Reader, seen: nat)
    requires RingsOk(s.rings, g) && ReaderOk(pc, seen, s, g) && pc.Holds?
    ensures ReaderOk(Onward(s.rings, pc), 0, s, g) && !BusyWith(Onward(s.rings, pc), pc.i / BLOCK_SIZE)
  {
    var k := pc.i / BLOCK_SIZE;
    var next := (k + 1) * BLOCK_SIZE;
    if next < pc.end {
      assert next / BLOCK_SIZE == k + 1 && Within(pc.i, pc.end, k + 1);
      assert forall m: nat | Within(next, pc.end, m) :: Within(pc.i, pc.end, m);
      EntryFurther(s, g, pc, seen, 1);
      HoldsFacts(pc, seen, s, g);
      assert !Within(next, pc.end, k);
      hide RingsOk, SlotOf, Pow2, Within, SlotAt, Covers;
    }
  }

  /** A reader leaves a block that is not drained. */
  lemma StepLeave(s: Index, g: Plan, t: Thread)
    requires Inv(s, g) && Enabled(s, Leave(t, false))
    ensures Inv(Apply(s, Leave(t, false)), g.(seen := g.seen[t := 0]))
  {
    hide Inv, RingsOk, EntriesOk, WriterOk, ReadersOk, Onward, BusyWith, ReaderOk;
    ReaderAt(s, g, t);
    InvParts(s, g);
    OnwardOk(s, g, s.readers[t], Seen(g.seen, t));
    ReaderMoves(s, g, t, Onward(s.rings, s.readers[t]), 0);
  }

  /** The last reader of a block clears its entry. */
  lemma StepDrain(s: Index, g: Plan, t: Thread)
    requires Inv(s, g) && Enabled(s, Leave(t, true))
    ensures Inv(Apply(s, Leave(t, true)), g.(seen := g.seen[t := 0]))
  {
    var k := s.readers[t].i / BLOCK_SIZE;
    var s1, g1 := s.(readers := s.readers[t := Onward(s.rings, s.readers[t])]), g.(seen := g.seen[t := 0]);
    var s' := Apply(s, Leave(t, true));
    hide Inv, RingsOk, EntriesOk, WriterOk, ReadersOk, SlotOf, Pow2, Onward, BusyWith, ReaderOk;
    ReaderAt(s, g, t);
    InvParts(s, g);
    HoldsFacts(s.readers[t], Seen(g.seen, t), s, g);
    LiveFacts(s, g, k);
    OnwardOk(s, g, s.readers[t], Seen(g.seen, t));
    ReaderMoves(s, g, t, Onward(s.rings, s.readers[t]), 0);
    InvParts(s1, g1);
    LowSame(s, s1, g1);
    LowPlan(s, g, g1);
    DrainedEntry(s1, g1, s', k);
    DrainedReaders(s1, g1, s', k);
    hide *;
    RingsSame(s1, g1, s', g1);
    DrainedWriter(s1, g1, s', k);
    InvOf(s', g1);
  }

  lemma LowPlan(s: Index, g: Plan, g': Plan)
    requires g'.entries == g.entries
    ensures Low(s, g') == Low(s, g)
  {
  }

  lemma DrainedEntry(s: Index, g: Plan, s': Index, k: nat)
    requires EntriesOk(s, g) && Low(s, g) <= k < |g.entries| && k < s.started
    requires s' == s.(values := s.values - {EntryOf(g.entries, k)}, live := s.live - {k})
    ensures EntriesOk(s', g)
  {
    WindowEntry(s, g, k);
    hide EntriesOk, Pow2, Base;
    LiveRange(s, g);
    OneEntryChanges(s, g, s', g, k);
  }

  lemma DrainedReaders(s: Index, g: Plan, s': Index, k: nat)
    requires ReadersOk(s, g) && forall u | u in s.readers :: !BusyWith(s.readers[u], k)
    requires s' == s.(values := s'.values, live := s.live - {k})
    ensures ReadersOk(s', g)
  {
    hide ReaderOk, SlotOf, Pow2, RangeLive, BusyWith;
    forall u | u in s'.readers
      ensures ReaderOk(s'.readers[u], Seen(g.seen, u), s', g)
    {
      ReaderLive(s.readers[u], Seen(g.seen, u), s, g);
      RangeWithout(s.live, s.readers[u], k);
      ReaderStays(s.readers[u], Seen(g.seen, u), s, g, s');
    }
  }

  lemma RangeWithout(live: map<nat, Block>, pc: Reader, k: nat)
    requires (pc != Away ==> RangeLive(live, pc.i, pc.end)) && !BusyWith(pc, k)
    ensures pc != Away ==> RangeLive(live - {k}, pc.i, pc.end)
  {
    hide Within;
  }

  lemma ReaderStays(pc: Reader, seen: nat, s: Index, g: Plan, s': Index)
    requires ReaderOk(pc, seen, s, g) && s'.rings == s.rings && (pc != Away ==> RangeLive(s'.live, pc.i, pc.end))
    ensures ReaderOk(pc, seen, s', g)
  {
    hide SlotOf, Pow2, RangeLive, CoversAll;
  }

  lemma DrainedWriter(s: Index, g: Plan, s': Index, k: nat)
    requires WriterOk(s, g) && s' == s.(values := s'.values, live := s.live - {k})
    ensures WriterOk(s', g)
  {
    hide SlotOf, Pow2;
  }

  lemma StepKeepsInv(s: Index, g: Plan, m: Move) returns (g': Plan)
    requires Inv(s, g) && Enabled(s, m) && Roomy(s)
    ensures Inv(Apply(s, m), g')
  {
    hide Inv, WriterStep, ReaderStep, SlotOf, Pow2, RangeLive, BusyWith, Onward, Roomy;
    match m
    case Write(block) => g' := WriterKeepsInv(s, g, block);
    case Begin(t, i, end) =>
      StepBegin(s, g, t, i, end);
      g' := g.(seen := g.seen[t := 0]);
    case Read(t) => g' := ReadKeepsInv(s, g, t);
    case Leave(t, drained) =>
      g' := g.(seen := g.seen[t := 0]);
      if drained {
        StepDrain(s, g, t);
      } else {
        StepLeave(s, g, t);
      }
  }

  lemma ReadKeepsInv(s: Index, g: Plan, t: Thread) returns (g': Plan)
    requires Inv(s, g) && Enabled(s, Read(t))
    ensures Inv(ReaderStep(s, t, s.readers[t]), g')
  {
    hide Inv, SlotOf, Pow2, ReaderStep, TailNumber;
    match s.readers[t]
    case LoadRing(i, end) =>
      StepLoadRing(s, g, t, i, end);
      g' := g.(seen := g.seen[t := 0]);
    case LoadTail(i, end, v) =>
      StepLoadTail(s, g, t, i, end, v);
      g' := g.(seen := g.seen[t := TailNumber(s, g, v)]);
    case LoadKey(i, end, v, j) =>
      StepLoadKey(s, g, t, i, end, v, j);
      g' := g.(seen := g.seen[t := 0]);
  }

  // ---------------------------------------------------------------------------
  // What holds in every reachable state
  // ---------------------------------------------------------------------------

  function InitPlan(s: Index): Plan {
    Plan(Newest(s).slots, 0, [0], [|Newest(s).slots|], map[])
  }

  lemma InitInv(s: Index)
    requires Init(s)
    ensures Inv(s, InitPlan(s))
  {
    var r := Newest(s);
    var n := Pow2(r.log);
    var g := InitPlan(s);
    hide Pow2, SlotOf;
    forall k: nat | k < n
      ensures SlotAt(r.slots, SlotOf(n, 0, k)) == EntryOf(g.entries, k)
    {
      EarlySlot(n, 0, k);
    }
    EarlySlot(n, 0, n - 1);
    InitParts(s, g);
    InvOf(s, g);
  }

  lemma InitParts(s: Index, g: Plan)
    requires Init(s) && g == InitPlan(s)
    requires var n := Pow2(Newest(s).log);
      (forall k: nat | k < n :: SlotAt(Newest(s).slots, SlotOf(n, 0, k)) == EntryOf(g.entries, k))
          && SlotOf(n, 0, n - 1) == n - 1
    ensures RingsOk(s.rings, g) && EntriesOk(s, g) && WriterOk(s, g) && ReadersOk(s, g)
  {
    hide Pow2, SlotOf;
  }

  lemma {:induction false} RunKeepsInv(s: Index, g: Plan, run: seq<Move>) returns (g': Plan)
    requires Inv(s, g) && Legal(s, run)
    ensures Inv(Final(s, run), g')
    decreases |run|
  {
    hide Inv, Enabled, Apply, Roomy;
    g' := g;
    if run != [] {
      g' := StepKeepsInv(s, g, run[0]);
      g' := RunKeepsInv(Apply(s, run[0]), g', run[1..]);
    }
  }

  lemma ReachableInv(s: Index) returns (g: Plan)
    requires Reachable(s)
    ensures Inv(s, g)
  {
    var s0, run :| Init(s0) && Legal(s0, run) && s == Final(s0, run);
    hide Inv, Init, Legal, Final;
    InitInv(s0);
    g := RunKeepsInv(s0, InitPlan(s0), run);
  }

  /** What a reader has come to, through any number of insertions, rewinds, doublings and drained blocks in between, is
      what the map of live blocks has; that its key fits and its value is not null is also what the code asserts. */
  lemma LookUpIsMap(s: Index, t: Thread, i: nat, end: nat, v: nat, at: nat, x: EntryId)
    requires Reachable(s) && t in s.readers && s.readers[t] == Holds(i, end, v, at, x)
    ensures i / BLOCK_SIZE in s.live && ValueAt(s.values, x) == Some(s.live[i / BLOCK_SIZE])
    ensures KeyAt(s.keys, x) == Base(i / BLOCK_SIZE)
  {
    var g := ReachableInv(s);
    hide Reachable, Inv, EntriesOk, WriterOk, Pow2, Base, ReaderOk;
    InvParts(s, g);
    ReaderAt(s, g, t);
    HoldsFacts(s.readers[t], Seen(g.seen, t), s, g);
    LiveFacts(s, g, i / BLOCK_SIZE);
    WindowEntry(s, g, i / BLOCK_SIZE);
  }

  /** Bulk dequeueing walks on through the one ring it loaded: m slots behind the one found stands the entry of the
      block
      m further, for every block of the claimed indices, however the ring was rewound or replaced meanwhile. */
  lemma WalkIsMap(s: Index, t: Thread, m: nat)
    requires Reachable(s) && t in s.readers && s.readers[t].Holds?
    requires Within(s.readers[t].i, s.readers[t].end, s.readers[t].i / BLOCK_SIZE + m)
    ensures var pc := s.readers[t]; var r := RingAt(s.rings, pc.ring); var k := pc.i / BLOCK_SIZE + m;
      var x := SlotAt(r.slots, (pc.at + m) % Pow2(r.log));
      k in s.live && KeyAt(s.keys, x) == Base(k) && ValueAt(s.values, x) == Some(s.live[k])
  {
    var g := ReachableInv(s);
    hide Reachable, Inv, RingsOk, EntriesOk, WriterOk, ReadersOk, Pow2, SlotOf, Base, SlotAt, KeyAt, ReaderOk, Within;
    InvParts(s, g);
    ReaderAt(s, g, t);
    EntryFurther(s, g, s.readers[t], Seen(g.seen, t), m);
    var k := s.readers[t].i / BLOCK_SIZE + m;
    LiveFacts(s, g, k);
    WindowEntry(s, g, k);
  }

  /** The code's assertion that the entry at the tail has a key. */
  lemma TailHasKey(s: Index, t: Thread, i: nat, end: nat, v: nat, j: nat)
    requires Reachable(s) && t in s.readers && s.readers[t] == LoadKey(i, end, v, j)
    ensures KeyAt(s.keys, SlotAt(RingAt(s.rings, v).slots, j)) != INVALID_BLOCK_BASE
  {
    var g := ReachableInv(s);
    FirstWithin(i, end);
    hide Reachable, Inv, RingsOk, EntriesOk, WriterOk, Pow2, SlotOf, Base, Covers, KeyAt, SlotAt, Within;
    InvParts(s, g);
    ReaderAt(s, g, t);
    KeyRead(s, g, i, v, Seen(g.seen, t));
    BaseIsValid(Seen(g.seen, t));
  }

  /** The code's assertion that behind the tail of a new ring is an unused entry. */
  lemma FreshIsUnused(s: Index)
    requires Reachable(s) && s.writer == CheckFresh
    ensures KeyAt(s.keys, SlotAt(Newest(s).slots, (Newest(s).tail + 1) % Pow2(Newest(s).log))) == INVALID_BLOCK_BASE
  {
    hide *;
    var g := ReachableInv(s);
    InvParts(s, g);
    FreshKey(s, g);
  }

  lemma FreshKey(s: Index, g: Plan)
    requires RingsOk(s.rings, g) && EntriesOk(s, g) && WriterOk(s, g) && s.writer == CheckFresh
    ensures KeyAt(s.keys, SlotAt(Newest(s).slots, (Newest(s).tail + 1) % Pow2(Newest(s).log))) == INVALID_BLOCK_BASE
  {
    hide *;
    FreshPlanned(s, g);
    TailAtRest(s, g);
    BehindTail(Pow2(Newest(s).log), NewestFirst(s, g), s.started);
    NextEntry(s, g);
    WindowEntry(s, g, s.started);
  }

  lemma FreshPlanned(s: Index, g: Plan)
    requires WriterOk(s, g) && s.writer == CheckFresh
    ensures g.keyed == s.started < |g.entries|
  {
    hide SlotOf, Pow2;
  }

  /** Every live block has an entry of its own in the newest ring. */
  lemma LiveIsIndexed(s: Index, k: nat) returns (j: nat)
    requires Reachable(s) && k in s.live
    ensures var x := SlotAt(Newest(s).slots, j);
      j < |Newest(s).slots| && KeyAt(s.keys, x) == Base(k) && ValueAt(s.values, x) == Some(s.live[k])
  {
    var g := ReachableInv(s);
    hide Reachable, Inv, RingsOk, EntriesOk, WriterOk, ReadersOk, Pow2, SlotOf, Base, SlotAt, KeyAt;
    InvParts(s, g);
    NewestFacts(s, g);
    LiveFacts(s, g, k);
    WindowEntry(s, g, k);
    var n := Pow2(Newest(s).log);
    j := SlotOf(n, NewestFirst(s, g), k);
    RingHas(Newest(s), NewestFirst(s, g), |g.entries|, g.entries, k);
    SlotInside(n, NewestFirst(s, g), k);
  }

  lemma SlotInside(n: nat, first: nat, k: nat)
    requires n > 0
    ensures SlotOf(n, first, k) < n
  {
  }

  /** The copying loop of new_block_index ends with all pointers copied. */
  method CopyRing(r: Ring) returns (index: seq<EntryId>, i: nat)
    requires |r.slots| == Pow2(r.log) && r.tail < Pow2(r.log)
    ensures i == Pow2(r.log) && index == Copied(r)
  {
    var n := Pow2(r.log);
    var pos := r.tail;
    index, i := [], 0;
    hide Pow2;
    assert (r.tail + 0) % n == r.tail by { EarlySlot(n, 0, r.tail); }
    while true
      invariant i < n && pos == (r.tail + i) % n && index == Copied(r)[..i]
      decreases n - i
    {
      ModAdd(r.tail + i, 1, n);
      CopyComesRound(n, r.tail, i + 1);
      pos := (pos + 1) % n;
      index := index + [SlotAt(r.slots, pos)];
      assert Copied(r)[..i + 1] == Copied(r)[..i] + [Copied(r)[i]];
      i := i + 1;
      if pos == r.tail {
        break;
      }
    }
    assert Copied(r)[..n] == Copied(r);
  }

  lemma CopyComesRound(n: nat, tail: nat, i: nat)
    requires tail < n && 0 < i <= n
    ensures (tail + i) % n == tail <==> i == n
  {
    if tail + i < n {
      ModUnique(tail + i, n, 0, tail + i);
    } else {
      ModUnique(tail + i, n, 1, tail + i - n);
    }
  }

  // ---------------------------------------------------------------------------
  // The machine gets to the states the theorems speak of
  // ---------------------------------------------------------------------------

  lemma {:induction false} OneStepMore(s: Index, run: seq<Move>, m: Move)
    requires Legal(s, run) && Enabled(Final(s, run), m) && Roomy(Final(s, run))
    ensures Legal(s, run + [m]) && Final(s, run + [m]) == Apply(Final(s, run), m)
    decreases |run|
  {
    hide Apply, Enabled, Roomy;
    if run == [] {
      assert run + [m] == [m] && [m][1..] == [];
    } else {
      assert (run + [m])[1..] == run[1..] + [m];
      OneStepMore(Apply(s, run[0]), run[1..], m);
    }
  }

  /** The state after one step more. */
  lemma Go(s: Index, m: Move) returns (s': Index)
    requires Reachable(s) && Enabled(s, m) && Roomy(s)
    ensures Reachable(s') && s' == Apply(s, m)
  {
    hide Init, Legal, Final, Apply, Enabled, Roomy;
    var s0, run :| Init(s0) && Legal(s0, run) && s == Final(s0, run);
    OneStepMore(s0, run, m);
    s' := Apply(s, m);
  }

  lemma InitReachable(s: Index)
    requires Init(s)
    ensures Reachable(s)
  {
    hide Init;
    assert Legal(s, []) && s == Final(s, []);
  }

  /** The enqueueing thread has found the first slot unused. */
  lemma RunToSlot() returns (s: Index)
    ensures Reachable(s) && s == Index([Ring(1, [0, 1], 1)], map[], map[], 2, 0, WriteKey(0), map[0 := Away], map[])
  {
    hide Reachable, Legal, Final;
    s := Index([Ring(1, [0, 1], 1)], map[], map[], 2, 0, Rest, map[0 := Away], map[]);
    assert Pow2(1) == 2 && seq(2, j => j) == [0, 1];
    InitReachable(s);
    hide Init, Grown, ReaderStep, Onward, RangeLive, BusyWith;
    s := Go(s, Write(None));
    s := Go(s, Write(None));
  }

  /** A block is inserted. */
  lemma RunToInserted() returns (s: Index)
    ensures Reachable(s) && s == Index([Ring(1, [0, 1], 0)], map[0 := 0], map[0 := 9], 2, 1, Rest, map[0 := Away],
          map[0 := 9])
  {
    hide Reachable, Legal, Final, Init, Grown, ReaderStep, Onward, RangeLive, BusyWith;
    s := RunToSlot();
    s := Go(s, Write(None));
    s := Go(s, Write(None));
    s := Go(s, Write(Some(9)));
  }

  /** It has found the second slot unused. */
  lemma RunToNextSlot() returns (s: Index)
    ensures Reachable(s) && s == Index([Ring(1, [0, 1], 0)], map[0 := 0], map[0 := 9], 2, 1, WriteKey(1),
          map[0 := Away], map[0 := 9])
  {
    hide Reachable, Legal, Final, Init, Grown, ReaderStep, Onward, RangeLive, BusyWith;
    s := RunToInserted();
    assert Pow2(1) == 2;
    s := Go(s, Write(None));
    s := Go(s, Write(None));
  }

  /** A second block is inserted. */
  lemma RunToTwo() returns (s: Index)
    ensures Reachable(s) && s.live == map[0 := 9, 1 := 8] && s.readers == map[0 := Away] && s.writer == Rest
    ensures s.rings == [Ring(1, [0, 1], 1)] && s.keys == map[0 := 0, 1 := Base(1)] && s.values == map[0 := 9, 1 := 8]
  {
    hide Reachable, Legal, Final, Init, Grown, ReaderStep, Onward, RangeLive, BusyWith;
    s := RunToNextSlot();
    s := Go(s, Write(None));
    s := Go(s, Write(None));
    s := Go(s, Write(Some(8)));
  }

  /** With both slots in use the ring is doubled. */
  lemma RunToFresh() returns (s: Index)
    ensures Reachable(s) && s.writer == CheckFresh && s.live == map[0 := 9, 1 := 8]
  {
    hide Reachable, Legal, Final, Init, Grown, ReaderStep, Onward, RangeLive, BusyWith, Base;
    s := RunToTwo();
    BaseIsValid(1);
    assert Pow2(1) == 2;
    s := Go(s, Write(Some(5)));
    s := Go(s, Write(Some(5)));
    s := Go(s, Write(Some(5)));
  }

  lemma TwoLive(live: map<nat, Block>)
    requires 0 in live && 1 in live
    ensures RangeLive(live, 0, BLOCK_SIZE + 1)
  {
  }

  /** A reader has looked up the first of two blocks it has indices in. */
  lemma RunToHolds() returns (s: Index)
    ensures Reachable(s) && s.live == map[0 := 9, 1 := 8] && 0 in s.readers && s.writer == Rest
    ensures s.readers[0].Holds? && s.readers[0].i == 0 && s.readers[0].end == BLOCK_SIZE + 1 && s.readers.Keys == {0}
  {
    hide Reachable, Legal, Final, Init, LookUp;
    s := RunToTwo();
    TwoLive(s.live);
    hide RangeLive;
    s := Go(s, Begin(0, 0, BLOCK_SIZE + 1));
    s := Go(s, Read(0));
    s := Go(s, Read(0));
    s := Go(s, Read(0));
  }

  /** It has cleared the first block's entry and gone on to the second. */
  lemma RunToWalk() returns (s: Index)
    ensures Reachable(s) && s.live == map[1 := 8] && 0 in s.readers && s.readers[0].Holds?
          && s.readers[0].i == BLOCK_SIZE
  {
    hide Reachable, Legal, Final, Init, LookUp;
    s := RunToHolds();
    s := Go(s, Leave(0, true));
  }
}
