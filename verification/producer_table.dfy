/**
  The table that maps thread ids to implicit producers: a chain of linear-probing hash
  tables, newest first, that threads search, extend and grow concurrently, and to whose
  newest table they move their own entry when they find it in an older one.

  Every thread has its own id.  Steps are atomic operations of any number of threads in any
  order.  Allocation succeeds and producers are not recycled, so the count only grows.
 */
module ProducerTable {
  import opened Basics

  type Producer = nat

  /** An entry's key is the empty id until some thread sets it; its value is stored after its key. */
  datatype Table = Table(capacity: nat, keys: map<nat, Thread>, values: map<nat, Producer>, prev: Option<nat>)

  /** Program counter of one call of get_or_add_implicit_producer; main is the table it treats as current. */
  datatype PC =
    | Idle
    | LoadMain
    | Probe(main: nat, table: nat, offset: nat)
    | DrawCount(main: nat)
    | CheckSize(main: nat, count: nat)
    | TryLock(main: nat, count: nat)
    | ReloadLocked(count: nat)
    | CheckLocked(main: nat, count: nat)
    | Unlock(main: nat, count: nat)
    | CheckRoom(main: nat, count: nat)
    | ReloadMain(count: nat)
    | CreateProducer(main: nat, count: nat)
    | ProbePut(main: nat, offset: nat, producer: Producer)
    | SwapKey(main: nat, offset: nat, producer: Producer)
    | StoreValue(main: nat, slot: nat, producer: Producer)

  datatype Return = Return(thread: Thread, producer: Producer)

  /** hashes gives each thread id's hash; returned records what calls returned. */
  datatype State = State(
    tables: seq<Table>,
    count: nat,
    locked: bool,
    created: nat,
    hashes: map<Thread, nat>,
    pcs: map<Thread, PC>,
    returned: seq<Return>)

  datatype Action = Call(thread: Thread) | Run(thread: Thread)

  function Hash(hashes: map<Thread, nat>, t: Thread): nat {
    if t in hashes then hashes[t] else 0
  }

  function TableAt(tables: seq<Table>, v: nat): Table {
    if v < |tables| then tables[v] else Table(1, map[], map[], None)
  }

  /** The slot probed at the given offset; capacities are powers of two, so masking is taking the remainder. */
  function SlotAt(hash: nat, offset: nat, capacity: nat): nat {
    if capacity == 0 then 0 else (hash + offset) % capacity
  }

  function ValueAt(values: map<nat, Producer>, i: nat): Producer {
    if i in values then values[i] else 0
  }

  function Last(tables: seq<Table>): nat {
    if tables == [] then 0 else |tables| - 1
  }

  /** The capacity of the table that replaces one of capacity c for the given count. */
  function Grown(c: nat, count: nat): (r: nat)
    requires 0 < c
    ensures count < r / 2 && 2 * c <= r
    decreases 2 * count + 2 - c
  {
    if count < c then 2 * c else Grown(2 * c, count)
  }

  predicate Enabled(s: State, a: Action) {
    match a
    case Call(t) => t in s.pcs && s.pcs[t] == Idle
    case Run(t) => t in s.pcs && s.pcs[t] != Idle
  }

  function Apply(s: State, a: Action): State
    requires Enabled(s, a)
  {
    match a
    case Call(t) => s.(pcs := s.pcs[t := LoadMain])
    case Run(t) => RunStep(s, t, s.pcs[t])
  }

  function Goto(s: State, t: Thread, pc: PC): State {
    s.(pcs := s.pcs[t := pc])
  }

  /** One atomic operation of thread t, whose program counter is pc. */
  function RunStep(s: State, t: Thread, pc: PC): State {
    match pc
    case Idle => s
    case LoadMain =>
      Goto(s, t, Probe(Last(s.tables), Last(s.tables), 0))
    case Probe(main, v, j) =>
      var tb := TableAt(s.tables, v);
      var i := SlotAt(Hash(s.hashes, t), j, tb.capacity);
      if i in tb.keys && tb.keys[i] == t then
        if v == main then Goto(s.(returned := s.returned + [Return(t, ValueAt(tb.values, i))]), t, Idle)
        else Goto(s, t, ProbePut(main, 0, ValueAt(tb.values, i)))
      else if i !in tb.keys then
        Goto(s, t, if tb.prev.Some? then Probe(main, tb.prev.value, 0) else DrawCount(main))
      else
        Goto(s, t, Probe(main, v, j + 1))
    case DrawCount(main) =>
      Goto(s.(count := s.count + 1), t, CheckSize(main, s.count + 1))
    case CheckSize(main, n) =>
      Goto(s, t, if n >= TableAt(s.tables, main).capacity / 2 then TryLock(main, n) else CheckRoom(main, n))
    case TryLock(main, n) =>
      if s.locked then Goto(s, t, CheckRoom(main, n))
      else Goto(s.(locked := true), t, ReloadLocked(n))
    case ReloadLocked(n) =>
      Goto(s, t, CheckLocked(Last(s.tables), n))
    case CheckLocked(main, n) =>
      var tb := TableAt(s.tables, main);
      if n >= tb.capacity / 2 && tb.capacity > 0 then
        Goto(s.(tables := s.tables + [Table(Grown(tb.capacity, n), map[], map[], Some(main))]), t,
            Unlock(|s.tables|, n))
      else
        Goto(s, t, Unlock(main, n))
    case Unlock(main, n) =>
      Goto(s.(locked := false), t, CheckRoom(main, n))
    case CheckRoom(main, n) =>
      var c := TableAt(s.tables, main).capacity;
      Goto(s, t, if n < c / 2 + c / 4 then CreateProducer(main, n) else ReloadMain(n))
    case ReloadMain(n) =>
      Goto(s, t, CheckSize(Last(s.tables), n))
    case CreateProducer(main, n) =>
      Goto(s.(created := s.created + 1), t, ProbePut(main, 0, s.created))
    case ProbePut(main, j, p) =>
      var tb := TableAt(s.tables, main);
      Goto(s, t, if SlotAt(Hash(s.hashes, t), j, tb.capacity) in tb.keys then ProbePut(main, j + 1, p)
                 else SwapKey(main, j, p))
    case SwapKey(main, j, p) =>
      var tb := TableAt(s.tables, main);
      var i := SlotAt(Hash(s.hashes, t), j, tb.capacity);
      if i in tb.keys then Goto(s, t, ProbePut(main, j + 1, p))
      else Goto(s.(tables := SetTable(s.tables, main, tb.(keys := tb.keys[i := t]))), t, StoreValue(main, i, p))
    case StoreValue(main, i, p) =>
      var tb := TableAt(s.tables, main);
      Goto(s.(tables := SetTable(s.tables, main, tb.(values := tb.values[i := p])),
              returned := s.returned + [Return(t, p)]), t, Idle)
  }

  function SetTable(tables: seq<Table>, v: nat, tb: Table): seq<Table> {
    if v < |tables| then tables[v := tb] else tables
  }

  ghost predicate Init(s: State) {
    && |s.tables| == 1 && 0 < s.tables[0].capacity
    && s.tables[0].keys == map[] && s.tables[0].values == map[] && s.tables[0].prev == None
    && s.count == 0 && !s.locked && s.created == 0 && s.returned == []
    && (forall t | t in s.pcs :: s.pcs[t] == Idle)
  }

  ghost predicate Legal(s: State, run: seq<Action>)
    decreases |run|
  {
    run == [] || (Enabled(s, run[0]) && Legal(Apply(s, run[0]), run[1..]))
  }

  ghost function Final(s: State, run: seq<Action>): State
    requires Legal(s, run)
    decreases |run|
  {
    if run == [] then s else Final(Apply(s, run[0]), run[1..])
  }

  ghost predicate Reachable(s: State) {
    exists s0, run :: Init(s0) && Legal(s0, run) && s == Final(s0, run)
  }

  // ---------------------------------------------------------------------------
  // The invariant, over a witness of who drew which count and made which producer
  // ---------------------------------------------------------------------------

  /** drew[n - 1] is the thread that drew count n, made[p] the thread that created producer p;
      home is the table a thread's id was first put into. */
  datatype Witness = Witness(
    ticket: map<Thread, nat>,
    drew: seq<Thread>,
    producer: map<Thread, Producer>,
    made: seq<Thread>,
    home: map<Thread, nat>,
    holder: Option<Thread>)

  function Ticket(g: Witness, t: Thread): nat {
    if t in g.ticket then g.ticket[t] else 0
  }

  function ProducerOf(g: Witness, t: Thread): Producer {
    if t in g.producer then g.producer[t] else 0
  }

  function Home(g: Witness, t: Thread): nat {
    if t in g.home then g.home[t] else 0
  }

  /** Keys are only put where the count is below three quarters of the capacity. */
  function Room(c: nat): nat {
    c / 2 + c / 4
  }

  ghost predicate HasKey(tb: Table, t: Thread) {
    exists i | i in tb.keys :: tb.keys[i] == t
  }

  /** All slots probed before offset j are taken. */
  ghost predicate Occupied(tb: Table, hash: nat, j: nat) {
    forall a: nat | a < j :: SlotAt(hash, a, tb.capacity) in tb.keys
  }

  /** Slot i is the one probed at offset j, after taken slots only. */
  ghost predicate Reached(tb: Table, hash: nat, i: nat, j: nat) {
    j < tb.capacity && SlotAt(hash, j, tb.capacity) == i && Occupied(tb, hash, j)
  }

  ghost predicate KeyOk(tb: Table, i: nat, hashes: map<Thread, nat>, g: Witness) {
    i in tb.keys ==>
      && 0 < Ticket(g, tb.keys[i]) < Room(tb.capacity)
      && exists j: nat :: Reached(tb, Hash(hashes, tb.keys[i]), i, j)
  }

  /** A value is that of its key's thread, once stored. */
  ghost predicate ValueOk(tb: Table, v: nat, i: nat, g: Witness, pcs: map<Thread, PC>) {
    i in tb.keys ==>
      || (tb.keys[i] in pcs && pcs[tb.keys[i]].StoreValue? && pcs[tb.keys[i]].main == v && pcs[tb.keys[i]].slot == i)
      || (i in tb.values && tb.values[i] == ProducerOf(g, tb.keys[i]))
  }

  ghost predicate TableOk(tb: Table, v: nat, hashes: map<Thread, nat>, g: Witness, pcs: map<Thread, PC>) {
    && 0 < tb.capacity
    && tb.prev == (if v == 0 then None else Some(v - 1))
    && (forall i: nat :: KeyOk(tb, i, hashes, g))
    && (forall i: nat :: ValueOk(tb, v, i, g, pcs))
    && (forall i, k | i in tb.keys && k in tb.keys && tb.keys[i] == tb.keys[k] :: i == k)
  }

  ghost predicate TablesOk(tables: seq<Table>, hashes: map<Thread, nat>, g: Witness, pcs: map<Thread, PC>) {
    && tables != []
    && (forall v: nat | v < |tables| :: TableOk(TableAt(tables, v), v, hashes, g, pcs))
    && (forall v: nat, w: nat | v <= w < |tables| :: TableAt(tables, v).capacity <= TableAt(tables, w).capacity)
  }

  /** Counts and producers are drawn once each, and a thread that has an entry drew a count. */
  ghost predicate DrawsOk(s: State, g: Witness) {
    && |g.drew| == s.count && |g.made| == s.created
    && (forall t | t in g.ticket :: 0 < Ticket(g, t) <= |g.drew| && g.drew[Ticket(g, t) - 1] == t)
    && (forall t | t in g.producer :: ProducerOf(g, t) < |g.made| && g.made[ProducerOf(g, t)] == t)
    && (forall t | t in g.home :: t in g.ticket && t in g.producer && Home(g, t) < |s.tables|
         && HasKey(TableAt(s.tables, Home(g, t)), t))
    && (forall k | 0 <= k < |s.returned| ::
          s.returned[k].thread in g.producer && s.returned[k].producer == ProducerOf(g, s.returned[k].thread))
  }

  predicate HoldsLock(pc: PC) {
    pc.ReloadLocked? || pc.CheckLocked? || pc.Unlock?
  }

  ghost predicate LockOk(locked: bool, holder: Option<Thread>, pcs: map<Thread, PC>) {
    && locked == holder.Some?
    && (forall t | t in pcs :: HoldsLock(pcs[t]) <==> holder == Some(t))
  }

  /** The thread has drawn count n and is not yet in any table. */
  ghost predicate Drawn(t: Thread, n: nat, g: Witness) {
    t in g.ticket && Ticket(g, t) == n && t !in g.home && t !in g.producer
  }

  /** Between draws: whoever has a count or a producer has an entry. */
  ghost predicate Settled(t: Thread, g: Witness) {
    (t in g.ticket || t in g.producer) ==> t in g.home
  }

  ghost predicate Putting(t: Thread, main: nat, j: nat, p: Producer, tables: seq<Table>, hashes: map<Thread, nat>,
      g: Witness)
  {
    var tb := TableAt(tables, main);
    && main < |tables|
    && t in g.ticket && Ticket(g, t) < Room(tb.capacity)
    && t in g.producer && ProducerOf(g, t) == p
    && !HasKey(tb, t)
    && j < tb.capacity && Occupied(tb, Hash(hashes, t), j)
  }

  ghost predicate ThreadOk(pc: PC, t: Thread, tables: seq<Table>, hashes: map<Thread, nat>, g: Witness) {
    match pc
    case Idle => Settled(t, g)
    case LoadMain => Settled(t, g)
    case Probe(main, v, j) =>
      && Settled(t, g)
      && v <= main < |tables| && (t in g.home ==> Home(g, t) <= v)
      && (v < main ==> !HasKey(TableAt(tables, main), t))
      && j < TableAt(tables, v).capacity && Occupied(TableAt(tables, v), Hash(hashes, t), j)
      && (forall a: nat | a < j ::
            var i := SlotAt(Hash(hashes, t), a, TableAt(tables, v).capacity);
            i in TableAt(tables, v).keys && TableAt(tables, v).keys[i] != t)
    case DrawCount(main) => main < |tables| && t !in g.ticket && t !in g.home && t !in g.producer
    case CheckSize(main, n) => main < |tables| && Drawn(t, n, g)
    case TryLock(main, n) => main < |tables| && Drawn(t, n, g)
    case ReloadLocked(n) => Drawn(t, n, g)
    case CheckLocked(main, n) => main < |tables| && main == Last(tables) && Drawn(t, n, g)
    case Unlock(main, n) => main < |tables| && Drawn(t, n, g)
    case CheckRoom(main, n) => main < |tables| && Drawn(t, n, g)
    case ReloadMain(n) => Drawn(t, n, g)
    case CreateProducer(main, n) => main < |tables| && Drawn(t, n, g) && n < Room(TableAt(tables, main).capacity)
    case ProbePut(main, j, p) => Putting(t, main, j, p, tables, hashes, g)
    case SwapKey(main, j, p) => Putting(t, main, j, p, tables, hashes, g)
    case StoreValue(main, i, p) =>
      && main < |tables| && i in TableAt(tables, main).keys && TableAt(tables, main).keys[i] == t
      && t in g.producer && ProducerOf(g, t) == p && t in g.home
  }

  ghost predicate ThreadsOk(s: State, g: Witness) {
    forall t | t in s.pcs :: ThreadOk(s.pcs[t], t, s.tables, s.hashes, g)
  }

  /** No table holds a thread's id before its home is set. */
  ghost predicate HomesOk(tables: seq<Table>, g: Witness) {
    forall v: nat, i: nat | v < |tables| && i in TableAt(tables, v).keys :: TableAt(tables, v).keys[i] in g.home
  }

  ghost predicate Inv(s: State, g: Witness) {
    && TablesOk(s.tables, s.hashes, g, s.pcs)
    && HomesOk(s.tables, g)
    && DrawsOk(s, g)
    && LockOk(s.locked, g.holder, s.pcs)
    && ThreadsOk(s, g)
  }

  // ---------------------------------------------------------------------------
  // Occupancy
  // ---------------------------------------------------------------------------

  /** Distinct numbers from 1 up to bound are fewer than bound. */
  lemma {:induction false} FewKeys(ranks: map<nat, nat>, bound: nat)
    requires forall i | i in ranks :: 0 < ranks[i] < bound
    requires forall i, k | i in ranks && k in ranks && ranks[i] == ranks[k] :: i == k
    ensures bound > 0 ==> |ranks| < bound
    ensures bound == 0 ==> |ranks| == 0
    decreases bound
  {
    if bound == 0 {
      assert ranks == map[];
    } else if i :| i in ranks && ranks[i] == bound - 1 {
      var rest := ranks - {i};
      FewKeys(rest, bound - 1);
      assert ranks == rest[i := ranks[i]];
    } else {
      if bound > 1 {
        FewKeys(ranks, bound - 1);
      } else {
        assert ranks == map[];
      }
    }
  }

  lemma TableKeys(tb: Table, v: nat, hashes: map<Thread, nat>, g: Witness, pcs: map<Thread, PC>)
    requires TableOk(tb, v, hashes, g, pcs)
    ensures 0 < tb.capacity && forall i: nat :: KeyOk(tb, i, hashes, g)
    ensures forall i, k | i in tb.keys && k in tb.keys && tb.keys[i] == tb.keys[k] :: i == k
  {
  }

  /** A table of capacity c holds fewer than 3c/4 keys, because their threads drew distinct smaller counts. */
  lemma FewEntries(tb: Table, v: nat, hashes: map<Thread, nat>, g: Witness, pcs: map<Thread, PC>)
    requires TableOk(tb, v, hashes, g, pcs)
    requires forall t | t in g.ticket :: 0 < Ticket(g, t) <= |g.drew| && g.drew[Ticket(g, t) - 1] == t
    ensures |tb.keys| < tb.capacity
    ensures tb.keys != map[] ==> 4 * |tb.keys| < 3 * tb.capacity
  {
    hide TableOk;
    var ranks := map i | i in tb.keys :: Ticket(g, tb.keys[i]);
    TableKeys(tb, v, hashes, g, pcs);
    forall i | i in ranks
      ensures 0 < ranks[i] < Room(tb.capacity)
    {
      assert KeyOk(tb, i, hashes, g);
    }
    hide KeyOk, Room;
    forall i, k | i in ranks && k in ranks && ranks[i] == ranks[k]
      ensures i == k
    {
      assert tb.keys[i] in g.ticket && tb.keys[k] in g.ticket;
      assert tb.keys[i] == g.drew[ranks[i] - 1] == tb.keys[k];
    }
    FewKeys(ranks, Room(tb.capacity));
    SameKeys(ranks, tb.keys);
    RoomIsFew(tb.capacity);
  }

  lemma RoomIsFew(c: nat)
    ensures 4 * Room(c) <= 3 * c
  {
  }

  lemma SameKeys<A, B>(a: map<nat, A>, b: map<nat, B>)
    requires a.Keys == b.Keys
    ensures |a| == |b|
  {
    assert |a| == |a.Keys| == |b.Keys| == |b|;
  }

  lemma SlotsDistinct(hash: nat, a: nat, b: nat, c: nat)
    requires a < b < c
    ensures SlotAt(hash, a, c) != SlotAt(hash, b, c)
  {
    var q := (hash + a) / c;
    var r := (hash + a) % c;
    assert hash + b == q * c + (r + (b - a));
    var d := (hash + b) / c - q;
    assert d * c == b - a + r - SlotAt(hash, b, c);
    MulMono(1, d, c);
    MulMono(d, 0, c);
  }

  /** j distinct slots of the table are taken, so there are at least j. */
  lemma {:induction false} TakenFit(taken: set<nat>, hash: nat, c: nat, j: nat)
    requires j <= c && forall a: nat | a < j :: SlotAt(hash, a, c) in taken
    ensures j <= |taken|
    decreases j
  {
    if j > 0 {
      var i := SlotAt(hash, j - 1, c);
      forall a: nat | a < j - 1
        ensures SlotAt(hash, a, c) in taken - {i}
      {
        SlotsDistinct(hash, a, j - 1, c);
      }
      TakenFit(taken - {i}, hash, c, j - 1);
    }
  }

  /** A probe that found only taken slots is still within the table. */
  lemma ProbeInside(tb: Table, v: nat, hashes: map<Thread, nat>, g: Witness, pcs: map<Thread, PC>, hash: nat, j: nat)
    requires TableOk(tb, v, hashes, g, pcs)
    requires forall t | t in g.ticket :: 0 < Ticket(g, t) <= |g.drew| && g.drew[Ticket(g, t) - 1] == t
    requires j <= tb.capacity && Occupied(tb, hash, j)
    ensures j < tb.capacity
  {
    FewEntries(tb, v, hashes, g, pcs);
    TakenFit(tb.keys.Keys, hash, tb.capacity, j);
    assert |tb.keys.Keys| == |tb.keys|;
  }

  /** Linear probing finds a key that is there: the slots before it stay taken, by others. */
  lemma EmptyMeansAbsent(tb: Table, v: nat, hashes: map<Thread, nat>, g: Witness, pcs: map<Thread, PC>, t: Thread,
      j: nat)
    requires TableOk(tb, v, hashes, g, pcs) && j < tb.capacity
    requires forall a: nat | a < j ::
               var i := SlotAt(Hash(hashes, t), a, tb.capacity); i in tb.keys && tb.keys[i] != t
    requires SlotAt(Hash(hashes, t), j, tb.capacity) !in tb.keys
    ensures !HasKey(tb, t)
  {
    forall i | i in tb.keys
      ensures tb.keys[i] != t
    {
      assert KeyOk(tb, i, hashes, g);
    }
  }

  // ---------------------------------------------------------------------------
  // What a step of thread t does to each part of the invariant
  // ---------------------------------------------------------------------------

  /** Tables stay, except that thread t may put its own id into empty slots. */
  ghost predicate TableGrows(tb: Table, tb': Table, t: Thread) {
    && tb'.capacity == tb.capacity
    && (forall i | i in tb.keys :: i in tb'.keys && tb'.keys[i] == tb.keys[i])
    && (forall i | i in tb'.keys :: i in tb.keys || tb'.keys[i] == t)
  }

  ghost predicate TablesGrow(tables: seq<Table>, tables': seq<Table>, t: Thread) {
    && |tables| <= |tables'|
    && forall v: nat | v < |tables| :: TableGrows(TableAt(tables, v), TableAt(tables', v), t)
  }

  /** The witness says the same about thread u. */
  ghost predicate Agree(g: Witness, g': Witness, u: Thread) {
    && (u in g.ticket <==> u in g'.ticket) && Ticket(g, u) == Ticket(g', u)
    && (u in g.producer <==> u in g'.producer) && ProducerOf(g, u) == ProducerOf(g', u)
    && (u in g.home <==> u in g'.home) && Home(g, u) == Home(g', u)
  }

  lemma HasKeyGrows(tb: Table, tb': Table, t: Thread, u: Thread)
    requires TableGrows(tb, tb', t) && u != t
    ensures HasKey(tb', u) <==> HasKey(tb, u)
  {
  }

  lemma ThreadStays(pc: PC, u: Thread, tables: seq<Table>, tables': seq<Table>, hashes: map<Thread, nat>, g: Witness,
      g': Witness, t: Thread)
    requires ThreadOk(pc, u, tables, hashes, g) && u != t && Agree(g, g', u)
    requires TablesGrow(tables, tables', t) && (|tables'| == |tables| || !pc.CheckLocked?)
    ensures ThreadOk(pc, u, tables', hashes, g')
  {
    hide TableAt, HasKey, Ticket, ProducerOf, Home, SlotAt, Room;
    if pc.Probe? || pc.ProbePut? || pc.SwapKey? || pc.StoreValue? || pc.CreateProducer? {
      assert TableGrows(TableAt(tables, pc.main), TableAt(tables', pc.main), t);
      HasKeyGrows(TableAt(tables, pc.main), TableAt(tables', pc.main), t, u);
      if pc.Probe? {
        assert TableGrows(TableAt(tables, pc.table), TableAt(tables', pc.table), t);
      }
    }
  }

  lemma ThreadsMove(s: State, g: Witness, t: Thread, pc: PC, s': State, g': Witness)
    requires ThreadsOk(s, g) && t in s.pcs && s'.pcs == s.pcs[t := pc] && s'.hashes == s.hashes
    requires TablesGrow(s.tables, s'.tables, t) && forall u | u != t :: Agree(g, g', u)
    requires |s'.tables| == |s.tables| || forall u | u in s.pcs && u != t :: !s.pcs[u].CheckLocked?
    requires ThreadOk(pc, t, s'.tables, s.hashes, g')
    ensures ThreadsOk(s', g')
  {
    hide ThreadOk, TablesGrow, Agree;
    forall u | u in s'.pcs
      ensures ThreadOk(s'.pcs[u], u, s'.tables, s.hashes, g')
    {
      if u != t {
        assert ThreadOk(s.pcs[u], u, s.tables, s.hashes, g);
        ThreadStays(s.pcs[u], u, s.tables, s'.tables, s.hashes, g, g', t);
      }
    }
  }

  lemma TablesSame(tables: seq<Table>, t: Thread)
    ensures TablesGrow(tables, tables, t)
  {
  }

  /** The tables stay, and what is said about threads with an entry; t has no value to store before or after. */
  lemma TablesKeep(tables: seq<Table>, hashes: map<Thread, nat>, g: Witness, pcs: map<Thread, PC>, t: Thread, pc: PC,
      g': Witness)
    requires TablesOk(tables, hashes, g, pcs) && HomesOk(tables, g) && t in pcs && !pcs[t].StoreValue?
    requires forall u | u in g.home :: Agree(g, g', u)
    ensures TablesOk(tables, hashes, g', pcs[t := pc]) && HomesOk(tables, g')
  {
    hide Reached, SlotAt, Ticket, ProducerOf, Room, TableAt;
    var pcs' := pcs[t := pc];
    forall v: nat | v < |tables|
      ensures TableOk(TableAt(tables, v), v, hashes, g', pcs')
    {
      var tb := TableAt(tables, v);
      assert TableOk(tb, v, hashes, g, pcs);
      forall i: nat
        ensures KeyOk(tb, i, hashes, g') && ValueOk(tb, v, i, g', pcs')
      {
        assert KeyOk(tb, i, hashes, g) && ValueOk(tb, v, i, g, pcs);
      }
    }
  }

  lemma InvOf(s: State, g: Witness)
    requires TablesOk(s.tables, s.hashes, g, s.pcs) && HomesOk(s.tables, g) && DrawsOk(s, g)
    requires LockOk(s.locked, g.holder, s.pcs) && ThreadsOk(s, g)
    ensures Inv(s, g)
  {
  }

  lemma Parts(s: State, g: Witness)
    requires Inv(s, g)
    ensures TablesOk(s.tables, s.hashes, g, s.pcs) && HomesOk(s.tables, g) && DrawsOk(s, g)
    ensures LockOk(s.locked, g.holder, s.pcs) && ThreadsOk(s, g)
  {
  }

  lemma ThreadFacts(s: State, g: Witness, t: Thread)
    requires Inv(s, g) && t in s.pcs
    ensures ThreadOk(s.pcs[t], t, s.tables, s.hashes, g)
    ensures s.tables != []
    ensures t in g.home ==> Home(g, t) < |s.tables|
    ensures t in g.home ==> HasKey(TableAt(s.tables, Home(g, t)), t)
    ensures t in g.home ==> t in g.ticket && t in g.producer
  {
    hide TableOk, HomesOk, LockOk, ThreadOk, HasKey, TableAt;
  }

  lemma TableFacts(s: State, g: Witness, v: nat)
    requires Inv(s, g) && v < |s.tables|
    ensures TableOk(TableAt(s.tables, v), v, s.hashes, g, s.pcs)
    ensures forall t | t in g.ticket :: 0 < Ticket(g, t) <= |g.drew| && g.drew[Ticket(g, t) - 1] == t
    ensures forall w: nat | v <= w < |s.tables| :: TableAt(s.tables, v).capacity <= TableAt(s.tables, w).capacity
    ensures forall i | i in TableAt(s.tables, v).keys :: TableAt(s.tables, v).keys[i] in g.home
  {
    hide TableOk, LockOk, ThreadsOk, TableAt;
  }

  lemma LockSame(locked: bool, holder: Option<Thread>, pcs: map<Thread, PC>, t: Thread, pc: PC)
    requires LockOk(locked, holder, pcs) && t in pcs && HoldsLock(pc) == HoldsLock(pcs[t])
    ensures LockOk(locked, holder, pcs[t := pc])
  {
    hide HoldsLock;
  }

  // ---------------------------------------------------------------------------
  // Steps
  // ---------------------------------------------------------------------------

  /** A step that only moves thread t on. */
  lemma QuietStep(s: State, g: Witness, t: Thread, pc: PC)
    requires Inv(s, g) && t in s.pcs && !s.pcs[t].StoreValue?
    requires HoldsLock(pc) == HoldsLock(s.pcs[t])
    requires ThreadOk(pc, t, s.tables, s.hashes, g)
    ensures Inv(Goto(s, t, pc), g)
  {
    hide Inv, TablesOk, HomesOk, LockOk, ThreadsOk, ThreadOk, HoldsLock, TablesGrow;
    Parts(s, g);
    TablesKeep(s.tables, s.hashes, g, s.pcs, t, pc, g);
    LockSame(s.locked, g.holder, s.pcs, t, pc);
    TablesSame(s.tables, t);
    ThreadsMove(s, g, t, pc, Goto(s, t, pc), g);
    InvOf(Goto(s, t, pc), g);
  }

  lemma StepLoadMain(s: State, g: Witness, t: Thread)
    requires Inv(s, g) && t in s.pcs && s.pcs[t] == LoadMain
    ensures Inv(RunStep(s, t, LoadMain), g)
  {
    ThreadFacts(s, g, t);
    TableFacts(s, g, Last(s.tables));
    hide Inv;
    QuietStep(s, g, t, Probe(Last(s.tables), Last(s.tables), 0));
  }

  /** Probing goes on past a slot that another thread's id takes. */
  lemma ProbeOn(s: State, g: Witness, t: Thread, main: nat, v: nat, j: nat)
    requires ThreadOk(Probe(main, v, j), t, s.tables, s.hashes, g)
    requires TableOk(TableAt(s.tables, v), v, s.hashes, g, s.pcs)
    requires forall t | t in g.ticket :: 0 < Ticket(g, t) <= |g.drew| && g.drew[Ticket(g, t) - 1] == t
    requires var i := SlotAt(Hash(s.hashes, t), j, TableAt(s.tables, v).capacity);
      i in TableAt(s.tables, v).keys && TableAt(s.tables, v).keys[i] != t
    ensures ThreadOk(Probe(main, v, j + 1), t, s.tables, s.hashes, g)
  {
    hide TableOk, SlotAt, TableAt, Hash, Ticket, HasKey, Home;
    ProbeInside(TableAt(s.tables, v), v, s.hashes, g, s.pcs, Hash(s.hashes, t), j + 1);
  }

  lemma StepProbeOn(s: State, g: Witness, t: Thread, main: nat, v: nat, j: nat)
    requires Inv(s, g) && t in s.pcs && s.pcs[t] == Probe(main, v, j)
    requires var i := SlotAt(Hash(s.hashes, t), j, TableAt(s.tables, v).capacity);
      i in TableAt(s.tables, v).keys && TableAt(s.tables, v).keys[i] != t
    ensures Inv(Goto(s, t, Probe(main, v, j + 1)), g)
  {
    hide Inv, ThreadOk, TableOk, SlotAt, TableAt, Hash, Ticket;
    ThreadFacts(s, g, t);
    ProbeBounds(s, g, t, main, v, j);
    TableFacts(s, g, v);
    ProbeOn(s, g, t, main, v, j);
    QuietStep(s, g, t, Probe(main, v, j + 1));
  }

  lemma ProbeBounds(s: State, g: Witness, t: Thread, main: nat, v: nat, j: nat)
    requires ThreadOk(Probe(main, v, j), t, s.tables, s.hashes, g)
    ensures v <= main < |s.tables| && j < TableAt(s.tables, v).capacity
    ensures v < main ==> !HasKey(TableAt(s.tables, main), t)
  {
  }

  /** A table probed to an empty slot does not have the thread's id; the search goes on in the table before it, if
      any. */
  lemma ProbeEmpty(s: State, g: Witness, t: Thread, main: nat, v: nat, j: nat)
    requires ThreadOk(Probe(main, v, j), t, s.tables, s.hashes, g)
    requires TableOk(TableAt(s.tables, v), v, s.hashes, g, s.pcs)
    requires t in g.home ==> HasKey(TableAt(s.tables, Home(g, t)), t) && t in g.ticket && t in g.producer
    requires SlotAt(Hash(s.hashes, t), j, TableAt(s.tables, v).capacity) !in TableAt(s.tables, v).keys
    requires v > 0 ==> 0 < TableAt(s.tables, v - 1).capacity
    ensures TableAt(s.tables, v).prev == if v == 0 then None else Some(v - 1)
    ensures ThreadOk(if v == 0 then DrawCount(main) else Probe(main, v - 1, 0), t, s.tables, s.hashes, g)
  {
    EmptyMeansAbsent(TableAt(s.tables, v), v, s.hashes, g, s.pcs, t, j);
    hide SlotAt, TableAt, Hash, Ticket, HasKey, Home, KeyOk, ValueOk;
    assert t in g.home ==> Home(g, t) != v;
  }

  lemma StepProbeEmpty(s: State, g: Witness, t: Thread, main: nat, v: nat, j: nat)
    requires Inv(s, g) && t in s.pcs && s.pcs[t] == Probe(main, v, j)
    requires SlotAt(Hash(s.hashes, t), j, TableAt(s.tables, v).capacity) !in TableAt(s.tables, v).keys
    ensures Inv(RunStep(s, t, s.pcs[t]), g)
  {
    hide Inv, ThreadOk, TableOk, SlotAt, TableAt, Hash, Ticket, HasKey, Home;
    ThreadFacts(s, g, t);
    ProbeBounds(s, g, t, main, v, j);
    TableFacts(s, g, v);
    if v > 0 {
      CapacityPositive(s, g, v - 1);
    }
    ProbeEmpty(s, g, t, main, v, j);
    QuietStep(s, g, t, if v == 0 then DrawCount(main) else Probe(main, v - 1, 0));
  }

  lemma CapacityPositive(s: State, g: Witness, v: nat)
    requires Inv(s, g) && v < |s.tables|
    ensures 0 < TableAt(s.tables, v).capacity
  {
    TableFacts(s, g, v);
  }

  /** Found in an older table: go on to copy the entry to the main one, where there is room for it. */
  lemma StepProbeFound(s: State, g: Witness, t: Thread, main: nat, v: nat, j: nat)
    requires Inv(s, g) && t in s.pcs && s.pcs[t] == Probe(main, v, j) && v != main
    requires var i := SlotAt(Hash(s.hashes, t), j, TableAt(s.tables, v).capacity);
      i in TableAt(s.tables, v).keys && TableAt(s.tables, v).keys[i] == t
    ensures Inv(RunStep(s, t, s.pcs[t]), g)
  {
    hide Inv, ThreadOk, TableOk, SlotAt, TableAt, Hash, Ticket, HasKey, Home;
    var i := SlotAt(Hash(s.hashes, t), j, TableAt(s.tables, v).capacity);
    ThreadFacts(s, g, t);
    ProbeBounds(s, g, t, main, v, j);
    FoundFacts(s, g, t, v, i);
    TableFacts(s, g, v);
    CapacityPositive(s, g, main);
    assert Room(TableAt(s.tables, v).capacity) <= Room(TableAt(s.tables, main).capacity);
    StartPut(s, g, t, main, ProducerOf(g, t));
    QuietStep(s, g, t, ProbePut(main, 0, ProducerOf(g, t)));
  }

  lemma StartPut(s: State, g: Witness, t: Thread, main: nat, p: Producer)
    requires main < |s.tables| && 0 < TableAt(s.tables, main).capacity && !HasKey(TableAt(s.tables, main), t)
    requires t in g.ticket && Ticket(g, t) < Room(TableAt(s.tables, main).capacity)
    requires t in g.producer && ProducerOf(g, t) == p
    ensures ThreadOk(ProbePut(main, 0, p), t, s.tables, s.hashes, g)
  {
  }

  /** A found entry of a thread that is not storing one holds the thread's producer. */
  lemma FoundFacts(s: State, g: Witness, t: Thread, v: nat, i: nat)
    requires Inv(s, g) && t in s.pcs && !s.pcs[t].StoreValue? && v < |s.tables|
    requires i in TableAt(s.tables, v).keys && TableAt(s.tables, v).keys[i] == t
    ensures t in g.home && t in g.ticket && t in g.producer
    ensures ValueAt(TableAt(s.tables, v).values, i) == ProducerOf(g, t)
    ensures Ticket(g, t) < Room(TableAt(s.tables, v).capacity)
  {
    TableFacts(s, g, v);
    assert KeyOk(TableAt(s.tables, v), i, s.hashes, g) && ValueOk(TableAt(s.tables, v), v, i, g, s.pcs);
    hide Reached, TableAt, Room, Ticket, HasKey;
    ThreadFacts(s, g, t);
  }

  lemma ReturnDraws(s: State, g: Witness, t: Thread, p: Producer, s': State)
    requires DrawsOk(s, g) && t in g.producer && ProducerOf(g, t) == p
    requires s'.returned == s.returned + [Return(t, p)] && s'.count == s.count && s'.created == s.created
    requires |s'.tables| == |s.tables|
    requires forall v: nat, u | v < |s.tables| && HasKey(TableAt(s.tables, v), u) :: HasKey(TableAt(s'.tables, v), u)
    ensures DrawsOk(s', g)
  {
    hide HasKey, TableAt, Ticket, ProducerOf, Home;
  }

  lemma StepReturn(s: State, g: Witness, t: Thread, main: nat, j: nat)
    requires Inv(s, g) && t in s.pcs && s.pcs[t] == Probe(main, main, j)
    requires var i := SlotAt(Hash(s.hashes, t), j, TableAt(s.tables, main).capacity);
      i in TableAt(s.tables, main).keys && TableAt(s.tables, main).keys[i] == t
    ensures Inv(RunStep(s, t, s.pcs[t]), g)
  {
    hide Inv, TableOk, SlotAt, Hash, Ticket, Room, DrawsOk, LockOk, TablesOk, HomesOk, ThreadsOk, TableAt, HasKey;
    var i := SlotAt(Hash(s.hashes, t), j, TableAt(s.tables, main).capacity);
    ThreadFacts(s, g, t);
    ProbeBounds(s, g, t, main, main, j);
    FoundFacts(s, g, t, main, i);
    QuietStep(s, g, t, Idle);
    var s' := RunStep(s, t, s.pcs[t]);
    Parts(s, g);
    ReturnDraws(s, g, t, ProducerOf(g, t), s');
    Parts(Goto(s, t, Idle), g);
    ThreadsSame(Goto(s, t, Idle), s', g);
    InvOf(s', g);
  }

  lemma ThreadsSame(s: State, s': State, g: Witness)
    requires ThreadsOk(s, g) && s'.pcs == s.pcs && s'.tables == s.tables && s'.hashes == s.hashes
    ensures ThreadsOk(s', g)
  {
    hide ThreadOk;
  }

  lemma StepDrawCount(s: State, g: Witness, t: Thread, main: nat)
    requires Inv(s, g) && t in s.pcs && s.pcs[t] == DrawCount(main)
    ensures Inv(RunStep(s, t, s.pcs[t]), g.(ticket := g.ticket[t := s.count + 1], drew := g.drew + [t]))
  {
    hide Inv, TablesOk, HomesOk, LockOk, ThreadsOk, DrawsOk, TableAt, HasKey, TablesGrow;
    var g' := g.(ticket := g.ticket[t := s.count + 1], drew := g.drew + [t]);
    var s' := RunStep(s, t, s.pcs[t]);
    Parts(s, g);
    ThreadFacts(s, g, t);
    TablesKeep(s.tables, s.hashes, g, s.pcs, t, CheckSize(main, s.count + 1), g');
    LockSame(s.locked, g.holder, s.pcs, t, CheckSize(main, s.count + 1));
    TablesSame(s.tables, t);
    ThreadsMove(s, g, t, CheckSize(main, s.count + 1), s', g');
    DrawTicket(s, g, t, s');
    InvOf(s', g');
  }

  lemma DrawTicket(s: State, g: Witness, t: Thread, s': State)
    requires DrawsOk(s, g) && t !in g.ticket && t !in g.home
    requires s'.count == s.count + 1 && s'.created == s.created && s'.tables == s.tables && s'.returned == s.returned
    ensures DrawsOk(s', g.(ticket := g.ticket[t := s.count + 1], drew := g.drew + [t]))
  {
    hide HasKey, TableAt;
    var g' := g.(ticket := g.ticket[t := s.count + 1], drew := g.drew + [t]);
    forall u | u in g'.ticket
      ensures 0 < Ticket(g', u) <= |g'.drew| && g'.drew[Ticket(g', u) - 1] == u
    {
      if u != t {
        assert u in g.ticket && Ticket(g', u) == Ticket(g, u);
      }
    }
  }

  lemma StepCreate(s: State, g: Witness, t: Thread, main: nat, n: nat)
    requires Inv(s, g) && t in s.pcs && s.pcs[t] == CreateProducer(main, n)
    ensures Inv(RunStep(s, t, s.pcs[t]), g.(producer := g.producer[t := s.created], made := g.made + [t]))
  {
    hide Inv, TablesOk, HomesOk, LockOk, ThreadsOk, DrawsOk, TableAt, HasKey, TablesGrow, Room, SlotAt;
    var g' := g.(producer := g.producer[t := s.created], made := g.made + [t]);
    var s' := RunStep(s, t, s.pcs[t]);
    var pc := ProbePut(main, 0, s.created);
    Parts(s, g);
    ThreadFacts(s, g, t);
    CapacityPositive(s, g, main);
    NoKeyYet(s.tables, g, t, main);
    TablesKeep(s.tables, s.hashes, g, s.pcs, t, pc, g');
    LockSame(s.locked, g.holder, s.pcs, t, pc);
    TablesSame(s.tables, t);
    StartPut(s', g', t, main, s.created);
    ThreadsMove(s, g, t, pc, s', g');
    DrawProducer(s, g, t, s');
    InvOf(s', g');
  }

  lemma NoKeyYet(tables: seq<Table>, g: Witness, t: Thread, v: nat)
    requires HomesOk(tables, g) && t !in g.home && v < |tables|
    ensures !HasKey(TableAt(tables, v), t)
  {
    hide TableAt;
  }

  lemma DrawProducer(s: State, g: Witness, t: Thread, s': State)
    requires DrawsOk(s, g) && t !in g.producer && t !in g.home
    requires s'.count == s.count && s'.created == s.created + 1 && s'.tables == s.tables && s'.returned == s.returned
    ensures DrawsOk(s', g.(producer := g.producer[t := s.created], made := g.made + [t]))
  {
    hide HasKey, TableAt;
    var g' := g.(producer := g.producer[t := s.created], made := g.made + [t]);
    forall u | u in g'.producer
      ensures ProducerOf(g', u) < |g'.made| && g'.made[ProducerOf(g', u)] == u
    {
      if u != t {
        assert u in g.producer && ProducerOf(g', u) == ProducerOf(g, u);
      }
    }
  }

  lemma StepTryLock(s: State, g: Witness, t: Thread, main: nat, n: nat)
    requires Inv(s, g) && t in s.pcs && s.pcs[t] == TryLock(main, n) && !s.locked
    ensures Inv(RunStep(s, t, s.pcs[t]), g.(holder := Some(t)))
  {
    LockMoves(s, g, t, ReloadLocked(n), true, Some(t));
  }

  /** Thread t takes or releases the lock. */
  lemma LockMoves(s: State, g: Witness, t: Thread, pc: PC, locked: bool, holder: Option<Thread>)
    requires Inv(s, g) && t in s.pcs && !s.pcs[t].StoreValue?
    requires ThreadOk(pc, t, s.tables, s.hashes, g)
    requires if locked then !s.locked && holder == Some(t) && HoldsLock(pc)
          else HoldsLock(s.pcs[t]) && holder == None && !HoldsLock(pc)
    ensures Inv(Goto(s.(locked := locked), t, pc), g.(holder := holder))
  {
    hide Inv, TablesOk, HomesOk, ThreadsOk, ThreadOk, TablesGrow, DrawsOk, LockOk;
    var g' := g.(holder := holder);
    var s' := Goto(s.(locked := locked), t, pc);
    Parts(s, g);
    LockTurn(s.locked, g.holder, s.pcs, t, pc, locked, holder);
    TablesKeep(s.tables, s.hashes, g, s.pcs, t, pc, g');
    TablesSame(s.tables, t);
    ThreadIgnoresHolder(pc, t, s.tables, s.hashes, g, g');
    ThreadsMove(s, g, t, pc, s', g');
    DrawsSame(s, g, s', g');
    InvOf(s', g');
  }

  lemma LockTurn(was: bool, owner: Option<Thread>, pcs: map<Thread, PC>, t: Thread, pc: PC, locked: bool,
      holder: Option<Thread>)
    requires LockOk(was, owner, pcs) && t in pcs
    requires if locked then !was && holder == Some(t) && HoldsLock(pc)
          else HoldsLock(pcs[t]) && holder == None && !HoldsLock(pc)
    ensures LockOk(locked, holder, pcs[t := pc])
  {
    hide HoldsLock;
  }

  lemma ThreadIgnoresHolder(pc: PC, t: Thread, tables: seq<Table>, hashes: map<Thread, nat>, g: Witness, g': Witness)
    requires ThreadOk(pc, t, tables, hashes, g) && g' == g.(holder := g'.holder)
    ensures ThreadOk(pc, t, tables, hashes, g')
  {
    hide TableAt, HasKey, SlotAt, Room;
  }

  lemma DrawsSame(s: State, g: Witness, s': State, g': Witness)
    requires DrawsOk(s, g) && g' == g.(holder := g'.holder)
    requires s'.count == s.count && s'.created == s.created && s'.returned == s.returned && s'.tables == s.tables
    ensures DrawsOk(s', g')
  {
    hide HasKey, TableAt;
  }

  lemma StepUnlock(s: State, g: Witness, t: Thread, main: nat, n: nat)
    requires Inv(s, g) && t in s.pcs && s.pcs[t] == Unlock(main, n)
    ensures Inv(RunStep(s, t, s.pcs[t]), g.(holder := None))
  {
    hide Inv, TablesOk, Drawn;
    ThreadFacts(s, g, t);
    LockMoves(s, g, t, CheckRoom(main, n), false, None);
  }

  /** A bigger empty table is appended, its prev the table that was current. */
  lemma StepGrow(s: State, g: Witness, t: Thread, main: nat, n: nat)
    requires Inv(s, g) && t in s.pcs && s.pcs[t] == CheckLocked(main, n)
    requires n >= TableAt(s.tables, main).capacity / 2 && TableAt(s.tables, main).capacity > 0
    ensures Inv(RunStep(s, t, s.pcs[t]), g)
  {
    hide Inv, TablesOk, HomesOk, LockOk, ThreadsOk, DrawsOk, TablesGrow, HasKey, TableAt;
    var s' := RunStep(s, t, s.pcs[t]);
    var pc := Unlock(|s.tables|, n);
    var tb := Table(Grown(TableAt(s.tables, main).capacity, n), map[], map[], Some(main));
    Parts(s, g);
    ThreadFacts(s, g, t);
    TablesKeep(s.tables, s.hashes, g, s.pcs, t, pc, g);
    AppendTable(s.tables, s.hashes, g, s.pcs[t := pc], tb);
    LockSame(s.locked, g.holder, s.pcs, t, pc);
    OneHolder(s.locked, g.holder, s.pcs, t);
    GrowByAppend(s.tables, tb, t);
    ThreadsMove(s, g, t, pc, s', g);
    GrowDraws(s, g, s', tb);
    InvOf(s', g);
  }

  lemma OneHolder(locked: bool, holder: Option<Thread>, pcs: map<Thread, PC>, t: Thread)
    requires LockOk(locked, holder, pcs) && t in pcs && HoldsLock(pcs[t])
    ensures forall u | u in pcs && u != t :: !pcs[u].CheckLocked?
  {
  }

  lemma GrowByAppend(tables: seq<Table>, tb: Table, t: Thread)
    ensures TablesGrow(tables, tables + [tb], t)
  {
  }

  lemma AppendTable(tables: seq<Table>, hashes: map<Thread, nat>, g: Witness, pcs: map<Thread, PC>, tb: Table)
    requires TablesOk(tables, hashes, g, pcs) && HomesOk(tables, g)
    requires tb.keys == map[] && tb.prev == Some(|tables| - 1) && TableAt(tables, |tables| - 1).capacity <= tb.capacity
    ensures TablesOk(tables + [tb], hashes, g, pcs) && HomesOk(tables + [tb], g)
  {
    hide TableAt;
    AppendAt(tables, tb);
    forall v: nat | v < |tables + [tb]|
      ensures TableOk(TableAt(tables + [tb], v), v, hashes, g, pcs)
    {
      if v < |tables| {
        hide KeyOk, ValueOk;
        assert TableOk(TableAt(tables, v), v, hashes, g, pcs);
      } else {
        assert TableOk(TableAt(tables, |tables| - 1), |tables| - 1, hashes, g, pcs);
      }
    }
  }

  lemma AppendAt(tables: seq<Table>, tb: Table)
    ensures forall v: nat | v < |tables| :: TableAt(tables + [tb], v) == TableAt(tables, v)
    ensures TableAt(tables + [tb], |tables|) == tb
  {
  }

  lemma GrowDraws(s: State, g: Witness, s': State, tb: Table)
    requires DrawsOk(s, g) && s'.tables == s.tables + [tb]
    requires s'.count == s.count && s'.created == s.created && s'.returned == s.returned
    ensures DrawsOk(s', g)
  {
    AppendAt(s.tables, tb);
    hide TableAt, HasKey;
  }

  lemma StepPutOn(s: State, g: Witness, t: Thread, main: nat, j: nat, p: Producer)
    requires Inv(s, g) && t in s.pcs && (s.pcs[t] == ProbePut(main, j, p) || s.pcs[t] == SwapKey(main, j, p))
    requires SlotAt(Hash(s.hashes, t), j, TableAt(s.tables, main).capacity) in TableAt(s.tables, main).keys
    ensures Inv(Goto(s, t, ProbePut(main, j + 1, p)), g)
  {
    hide Inv, TableOk, SlotAt, TableAt, Hash, Ticket, HasKey, Room, ProducerOf;
    ThreadFacts(s, g, t);
    TableFacts(s, g, main);
    ProbeInside(TableAt(s.tables, main), main, s.hashes, g, s.pcs, Hash(s.hashes, t), j + 1);
    QuietStep(s, g, t, ProbePut(main, j + 1, p));
  }

  ghost function PutHome(g: Witness, t: Thread, main: nat): Witness {
    if t in g.home then g else g.(home := g.home[t := main])
  }

  lemma SetTableAt(tables: seq<Table>, v: nat, tb: Table)
    requires v < |tables|
    ensures forall w: nat :: TableAt(SetTable(tables, v, tb), w) == if w == v then tb else TableAt(tables, w)
    ensures |SetTable(tables, v, tb)| == |tables|
  {
  }

  /** Thread t's id goes into an empty slot reached by probing, of a table with room for it. */
  lemma PutTable(tb: Table, v: nat, hashes: map<Thread, nat>, g: Witness, pcs: map<Thread, PC>, t: Thread, j: nat,
      p: Producer, g': Witness)
    requires TableOk(tb, v, hashes, g, pcs) && t in pcs && !pcs[t].StoreValue?
    requires var i := SlotAt(Hash(hashes, t), j, tb.capacity);
      i !in tb.keys && Reached(tb, Hash(hashes, t), i, j) && 0 < Ticket(g, t) < Room(tb.capacity) && !HasKey(tb, t)
    requires forall u :: Ticket(g', u) == Ticket(g, u) && ProducerOf(g', u) == ProducerOf(g, u)
    ensures var i := SlotAt(Hash(hashes, t), j, tb.capacity);
      TableOk(tb.(keys := tb.keys[i := t]), v, hashes, g', pcs[t := StoreValue(v, i, p)])
  {
    hide SlotAt, Ticket, ProducerOf, Room, Hash;
    var pcs' := pcs[t := StoreValue(v, SlotAt(Hash(hashes, t), j, tb.capacity), p)];
    var i := SlotAt(Hash(hashes, t), j, tb.capacity);
    var tb' := tb.(keys := tb.keys[i := t]);
    assert forall k | k in tb.keys :: tb.keys[k] != t;
    forall k: nat
      ensures KeyOk(tb', k, hashes, g')
      ensures ValueOk(tb', v, k, g', pcs')
    {
      assert KeyOk(tb, k, hashes, g) && ValueOk(tb, v, k, g, pcs);
      if k == i {
        assert Reached(tb', Hash(hashes, t), i, j);
      } else if k in tb.keys {
        var a: nat :| Reached(tb, Hash(hashes, tb.keys[k]), k, a);
        assert Reached(tb', Hash(hashes, tb.keys[k]), k, a);
      }
    }
  }

  lemma PutTables(s: State, g: Witness, t: Thread, main: nat, j: nat, p: Producer)
    requires Inv(s, g) && t in s.pcs && s.pcs[t] == SwapKey(main, j, p)
    requires SlotAt(Hash(s.hashes, t), j, TableAt(s.tables, main).capacity) !in TableAt(s.tables, main).keys
    ensures main < |s.tables|
    ensures var i := SlotAt(Hash(s.hashes, t), j, TableAt(s.tables, main).capacity);
      var tables' := SetTable(s.tables, main, TableAt(s.tables, main).(keys := TableAt(s.tables, main).keys[i := t]));
      && TablesOk(tables', s.hashes, PutHome(g, t, main), s.pcs[t := StoreValue(main, i, p)])
      && HomesOk(tables', PutHome(g, t, main))
      && TablesGrow(s.tables, tables', t)
  {
    hide Inv, TablesOk, HomesOk, LockOk, DrawsOk, ThreadsOk, SlotAt, Hash, HasKey, TableAt, Room;
    Parts(s, g);
    ThreadFacts(s, g, t);
    TableFacts(s, g, main);
    var tb := TableAt(s.tables, main);
    var i := SlotAt(Hash(s.hashes, t), j, tb.capacity);
    var tb' := tb.(keys := tb.keys[i := t]);
    var pc := StoreValue(main, i, p);
    var g' := PutHome(g, t, main);
    PutTable(tb, main, s.hashes, g, s.pcs, t, j, p, g');
    TablesKeep(s.tables, s.hashes, g, s.pcs, t, pc, g);
    ReplaceTable(s.tables, s.hashes, g, g', s.pcs[t := pc], main, tb', t);
  }

  /** Table v is replaced by one that is in order. */
  lemma ReplaceTable(tables: seq<Table>, hashes: map<Thread, nat>, g: Witness, g': Witness, pcs: map<Thread, PC>,
      v: nat, tb: Table, t: Thread)
    requires TablesOk(tables, hashes, g, pcs) && HomesOk(tables, g) && v < |tables|
    requires TableOk(tb, v, hashes, g', pcs) && TableGrows(TableAt(tables, v), tb, t)
    requires forall u :: Ticket(g', u) == Ticket(g, u) && ProducerOf(g', u) == ProducerOf(g, u)
    requires forall u | u in g.home || (u == t && HasKey(tb, t)) :: u in g'.home
    ensures TablesOk(SetTable(tables, v, tb), hashes, g', pcs) && HomesOk(SetTable(tables, v, tb), g')
    ensures TablesGrow(tables, SetTable(tables, v, tb), t)
  {
    SetTableAt(tables, v, tb);
    hide TableAt, SetTable, Ticket, ProducerOf, Reached, Room;
    var tables' := SetTable(tables, v, tb);
    forall w: nat | w < |tables'|
      ensures TableOk(TableAt(tables', w), w, hashes, g', pcs)
    {
      if w != v {
        var tw := TableAt(tables, w);
        assert TableOk(tw, w, hashes, g, pcs);
        forall k: nat
          ensures KeyOk(tw, k, hashes, g') && ValueOk(tw, w, k, g', pcs)
        {
          assert KeyOk(tw, k, hashes, g) && ValueOk(tw, w, k, g, pcs);
        }
      }
    }
  }

  lemma StepPut(s: State, g: Witness, t: Thread, main: nat, j: nat, p: Producer)
    requires Inv(s, g) && t in s.pcs && s.pcs[t] == SwapKey(main, j, p)
    requires SlotAt(Hash(s.hashes, t), j, TableAt(s.tables, main).capacity) !in TableAt(s.tables, main).keys
    ensures Inv(RunStep(s, t, s.pcs[t]), PutHome(g, t, main))
  {
    hide Inv, TablesOk, HomesOk, LockOk, DrawsOk, ThreadsOk, SlotAt, Hash, HasKey, TableAt, TablesGrow, PutHome,
        SetTable;
    PutTables(s, g, t, main, j, p);
    Parts(s, g);
    ThreadFacts(s, g, t);
    var s' := RunStep(s, t, s.pcs[t]);
    var i := SlotAt(Hash(s.hashes, t), j, TableAt(s.tables, main).capacity);
    var tb' := TableAt(s.tables, main).(keys := TableAt(s.tables, main).keys[i := t]);
    PutHomeFacts(g, t, main);
    SetTableAt(s.tables, main, tb');
    LockSame(s.locked, g.holder, s.pcs, t, StoreValue(main, i, p));
    ThreadsMove(s, g, t, StoreValue(main, i, p), s', PutHome(g, t, main));
    PutDraws(s, g, t, main, i, s');
    InvOf(s', PutHome(g, t, main));
  }

  lemma PutHomeFacts(g: Witness, t: Thread, main: nat)
    ensures forall u | u != t :: Agree(g, PutHome(g, t, main), u)
    ensures t in PutHome(g, t, main).home && PutHome(g, t, main).holder == g.holder
    ensures PutHome(g, t, main).producer == g.producer && ProducerOf(PutHome(g, t, main), t) == ProducerOf(g, t)
  {
  }

  lemma PutKeys(tables: seq<Table>, t: Thread, main: nat, i: nat, tables': seq<Table>)
    requires main < |tables| && i !in TableAt(tables, main).keys
    requires tables' == SetTable(tables, main, TableAt(tables, main).(keys := TableAt(tables, main).keys[i := t]))
    ensures |tables'| == |tables| && HasKey(TableAt(tables', main), t)
    ensures forall v: nat, u | HasKey(TableAt(tables, v), u) :: HasKey(TableAt(tables', v), u)
  {
    var tb := TableAt(tables, main);
    var tb' := tb.(keys := tb.keys[i := t]);
    SetTableAt(tables, main, tb');
    assert tb'.keys[i] == t;
    forall u | HasKey(tb, u)
      ensures HasKey(tb', u)
    {
      var k :| k in tb.keys && tb.keys[k] == u;
      assert tb'.keys[k] == u;
    }
    hide SetTable, TableAt;
  }

  lemma PutDraws(s: State, g: Witness, t: Thread, main: nat, i: nat, s': State)
    requires DrawsOk(s, g) && main < |s.tables| && t in g.ticket && t in g.producer
          && i !in TableAt(s.tables, main).keys
    requires s'.tables == SetTable(s.tables, main,
          TableAt(s.tables, main).(keys := TableAt(s.tables, main).keys[i := t]))
    requires s'.count == s.count && s'.created == s.created && s'.returned == s.returned
    ensures DrawsOk(s', PutHome(g, t, main))
  {
    hide SetTable, TableAt, HasKey;
    PutKeys(s.tables, t, main, i, s'.tables);
  }

  lemma StoreTable(tb: Table, v: nat, hashes: map<Thread, nat>, g: Witness, pcs: map<Thread, PC>, t: Thread, main: nat,
      i: nat, p: Producer)
    requires TableOk(tb, v, hashes, g, pcs) && t in pcs && pcs[t] == StoreValue(main, i, p) && ProducerOf(g, t) == p
    requires v == main ==> i in tb.keys && tb.keys[i] == t
    ensures TableOk(if v == main then tb.(values := tb.values[i := p]) else tb, v, hashes, g, pcs[t := Idle])
  {
    hide SlotAt, Ticket, ProducerOf, Room, Hash, Reached;
    var pcs' := pcs[t := Idle];
    var tb' := if v == main then tb.(values := tb.values[i := p]) else tb;
    forall k: nat
      ensures KeyOk(tb', k, hashes, g)
      ensures ValueOk(tb', v, k, g, pcs')
    {
      assert KeyOk(tb, k, hashes, g) && ValueOk(tb, v, k, g, pcs);
      StoreKeyOk(tb, tb', k, hashes, g);
    }
  }

  lemma StoreKeyOk(tb: Table, tb': Table, k: nat, hashes: map<Thread, nat>, g: Witness)
    requires KeyOk(tb, k, hashes, g) && tb' == tb.(values := tb'.values)
    ensures KeyOk(tb', k, hashes, g)
  {
    if k in tb.keys {
      var a: nat :| Reached(tb, Hash(hashes, tb.keys[k]), k, a);
      assert Reached(tb', Hash(hashes, tb.keys[k]), k, a);
    }
  }

  /** Storing a value moves no key. */
  lemma StoreKeys(tables: seq<Table>, g: Witness, main: nat, i: nat, p: Producer, tables': seq<Table>, t: Thread)
    requires main < |tables| && HomesOk(tables, g)
    requires tables' == SetTable(tables, main, TableAt(tables, main).(values := TableAt(tables, main).values[i := p]))
    ensures HomesOk(tables', g) && TablesGrow(tables, tables', t)
    ensures forall v: nat, u :: HasKey(TableAt(tables', v), u) <==> HasKey(TableAt(tables, v), u)
    ensures forall v: nat :: TableAt(tables', v).capacity == TableAt(tables, v).capacity
  {
    SetTableAt(tables, main, TableAt(tables, main).(values := TableAt(tables, main).values[i := p]));
    hide TableAt, SetTable;
    assert forall v: nat :: TableAt(tables', v).keys == TableAt(tables, v).keys;
  }

  lemma StoreTables(s: State, g: Witness, t: Thread, main: nat, i: nat, p: Producer)
    requires Inv(s, g) && t in s.pcs && s.pcs[t] == StoreValue(main, i, p)
    ensures main < |s.tables|
    ensures var tables' := SetTable(s.tables, main,
          TableAt(s.tables, main).(values := TableAt(s.tables, main).values[i := p]));
      && TablesOk(tables', s.hashes, g, s.pcs[t := Idle])
      && HomesOk(tables', g)
      && TablesGrow(s.tables, tables', t)
      && (forall v: nat, u :: HasKey(TableAt(tables', v), u) <==> HasKey(TableAt(s.tables, v), u))
  {
    hide Inv, HomesOk, LockOk, DrawsOk, ThreadsOk, TableAt, SetTable, TableOk, HasKey, TablesGrow;
    ThreadFacts(s, g, t);
    Parts(s, g);
    var tb' := TableAt(s.tables, main).(values := TableAt(s.tables, main).values[i := p]);
    var tables' := SetTable(s.tables, main, tb');
    SetTableAt(s.tables, main, tb');
    StoreKeys(s.tables, g, main, i, p, tables', t);
    var pcs' := s.pcs[t := Idle];
    forall v: nat | v < |tables'|
      ensures TableOk(TableAt(tables', v), v, s.hashes, g, pcs')
    {
      StoreTable(TableAt(s.tables, v), v, s.hashes, g, s.pcs, t, main, i, p);
    }
  }

  lemma StepStoreValue(s: State, g: Witness, t: Thread, main: nat, i: nat, p: Producer)
    requires Inv(s, g) && t in s.pcs && s.pcs[t] == StoreValue(main, i, p)
    ensures Inv(RunStep(s, t, s.pcs[t]), g)
  {
    hide Inv, TablesOk, HomesOk, LockOk, DrawsOk, ThreadsOk, SlotAt, Hash, HasKey, TableAt, TablesGrow, SetTable;
    StoreTables(s, g, t, main, i, p);
    Parts(s, g);
    ThreadFacts(s, g, t);
    var s' := RunStep(s, t, s.pcs[t]);
    SetTableAt(s.tables, main, TableAt(s.tables, main).(values := TableAt(s.tables, main).values[i := p]));
    LockSame(s.locked, g.holder, s.pcs, t, Idle);
    ThreadsMove(s, g, t, Idle, s', g);
    ReturnDraws(s, g, t, p, s');
    InvOf(s', g);
  }

  lemma StepSimple(s: State, g: Witness, t: Thread)
    requires Inv(s, g) && t in s.pcs
    requires var pc := s.pcs[t];
      || pc.CheckSize? || (pc.TryLock? && s.locked) || pc.ReloadLocked? || pc.CheckRoom? || pc.ReloadMain?
      || (pc.CheckLocked? && !(pc.count >= TableAt(s.tables, pc.main).capacity / 2))
      || (pc.ProbePut? && SlotAt(Hash(s.hashes, t), pc.offset,
           TableAt(s.tables, pc.main).capacity) !in TableAt(s.tables, pc.main).keys)
    ensures Inv(RunStep(s, t, s.pcs[t]), g)
  {
    hide Inv, HasKey, Drawn, SlotAt, Hash, TableAt;
    ThreadFacts(s, g, t);
    QuietStep(s, g, t, RunStep(s, t, s.pcs[t]).pcs[t]);
  }

  lemma ProbeKeepsInv(s: State, g: Witness, t: Thread, main: nat, v: nat, j: nat)
    requires Inv(s, g) && t in s.pcs && s.pcs[t] == Probe(main, v, j)
    ensures Inv(RunStep(s, t, s.pcs[t]), g)
  {
    hide Inv, SlotAt, TableAt, Hash;
    var i := SlotAt(Hash(s.hashes, t), j, TableAt(s.tables, v).capacity);
    if i !in TableAt(s.tables, v).keys {
      StepProbeEmpty(s, g, t, main, v, j);
    } else if TableAt(s.tables, v).keys[i] != t {
      StepProbeOn(s, g, t, main, v, j);
    } else if v == main {
      StepReturn(s, g, t, main, j);
    } else {
      StepProbeFound(s, g, t, main, v, j);
    }
  }

  lemma LockedKeepsInv(s: State, g: Witness, t: Thread, main: nat, n: nat)
    requires Inv(s, g) && t in s.pcs && s.pcs[t] == CheckLocked(main, n)
    ensures Inv(RunStep(s, t, s.pcs[t]), g)
  {
    hide Inv, TableAt, RunStep;
    assert main < |s.tables| by { ThreadFacts(s, g, t); }
    CapacityPositive(s, g, main);
    if n >= TableAt(s.tables, main).capacity / 2 {
      StepGrow(s, g, t, main, n);
    } else {
      StepSimple(s, g, t);
    }
  }

  lemma StepKeepsInv(s: State, g: Witness, a: Action) returns (g': Witness)
    requires Inv(s, g) && Enabled(s, a)
    ensures Inv(Apply(s, a), g')
  {
    hide Inv, SlotAt, TableAt, Hash, PutHome;
    g' := g;
    match a
    case Call(t) =>
      ThreadFacts(s, g, t);
      QuietStep(s, g, t, LoadMain);
    case Run(t) =>
      match s.pcs[t]
      case LoadMain => StepLoadMain(s, g, t);
      case Probe(main, v, j) => ProbeKeepsInv(s, g, t, main, v, j);
      case DrawCount(main) =>
        StepDrawCount(s, g, t, main);
        g' := g.(ticket := g.ticket[t := s.count + 1], drew := g.drew + [t]);
      case TryLock(main, n) =>
        if s.locked {
          StepSimple(s, g, t);
        } else {
          StepTryLock(s, g, t, main, n);
          g' := g.(holder := Some(t));
        }
      case CheckLocked(main, n) => LockedKeepsInv(s, g, t, main, n);
      case Unlock(main, n) => StepUnlock(s, g, t, main, n); g' := g.(holder := None);
      case CreateProducer(main, n) =>
        StepCreate(s, g, t, main, n);
        g' := g.(producer := g.producer[t := s.created], made := g.made + [t]);
      case ProbePut(main, j, p) =>
        if SlotAt(Hash(s.hashes, t), j, TableAt(s.tables, main).capacity) in TableAt(s.tables, main).keys {
          StepPutOn(s, g, t, main, j, p);
        } else {
          StepSimple(s, g, t);
        }
      case SwapKey(main, j, p) =>
        if SlotAt(Hash(s.hashes, t), j, TableAt(s.tables, main).capacity) in TableAt(s.tables, main).keys {
          StepPutOn(s, g, t, main, j, p);
        } else {
          StepPut(s, g, t, main, j, p);
          g' := PutHome(g, t, main);
        }
      case StoreValue(main, i, p) => StepStoreValue(s, g, t, main, i, p);
      case _ => StepSimple(s, g, t);
  }

  // ---------------------------------------------------------------------------
  // What holds in every reachable state
  // ---------------------------------------------------------------------------

  lemma InitInv(s: State)
    requires Init(s)
    ensures Inv(s, Witness(map[], [], map[], [], map[], None))
  {
  }

  lemma {:induction false} RunKeepsInv(s: State, g: Witness, run: seq<Action>) returns (g': Witness)
    requires Inv(s, g) && Legal(s, run)
    ensures Inv(Final(s, run), g')
    decreases |run|
  {
    hide Inv;
    if run == [] {
      g' := g;
    } else {
      g' := StepKeepsInv(s, g, run[0]);
      g' := RunKeepsInv(Apply(s, run[0]), g', run[1..]);
    }
  }

  lemma ReachableInv(s: State) returns (g: Witness)
    requires Reachable(s)
    ensures Inv(s, g)
  {
    hide Inv, Init;
    var s0, run :| Init(s0) && Legal(s0, run) && s == Final(s0, run);
    InitInv(s0);
    g := RunKeepsInv(s0, Witness(map[], [], map[], [], map[], None), run);
  }

  /** Whatever the resizes and moves in between, a thread is always given the same producer, and no other thread is. */
  lemma OneProducerPerThread(s: State, i: nat, j: nat)
    requires Reachable(s) && i < |s.returned| && j < |s.returned|
    ensures s.returned[i].thread == s.returned[j].thread <==> s.returned[i].producer == s.returned[j].producer
  {
    var g := ReachableInv(s);
    hide TablesOk, HomesOk, LockOk, ThreadsOk, HasKey, TableAt;
    var t, u := s.returned[i].thread, s.returned[j].thread;
    assert g.made[ProducerOf(g, t)] == t && g.made[ProducerOf(g, u)] == u;
  }

  /** No table ever holds three quarters of its capacity in keys, so every table has an empty slot. */
  lemma BelowThreeQuarters(s: State, v: nat)
    requires Reachable(s) && v < |s.tables|
    ensures s.tables[v].keys != map[] ==> 4 * |s.tables[v].keys| < 3 * s.tables[v].capacity
    ensures exists i: nat :: i < s.tables[v].capacity && i !in s.tables[v].keys
  {
    var g := ReachableInv(s);
    TableFacts(s, g, v);
    var tb := s.tables[v];
    assert TableAt(s.tables, v) == tb;
    FewEntries(tb, v, s.hashes, g, s.pcs);
    hide Inv, TableOk, Reachable;
    AllTaken(tb.keys.Keys, tb.capacity);
    assert |tb.keys.Keys| == |tb.keys|;
  }

  lemma {:induction false} AllTaken(taken: set<nat>, n: nat)
    ensures (forall i: nat | i < n :: i in taken) ==> n <= |taken|
    decreases n
  {
    if n > 0 {
      AllTaken(taken - {n - 1}, n - 1);
    }
  }

  /** A probe loop never leaves its table's capacity behind: every probe loop ends. */
  lemma ProbesStayInside(s: State, t: Thread)
    requires Reachable(s) && t in s.pcs
    ensures s.pcs[t].Probe? ==>
          s.pcs[t].table <= s.pcs[t].main < |s.tables| && s.pcs[t].offset < s.tables[s.pcs[t].table].capacity
    ensures s.pcs[t].ProbePut? || s.pcs[t].SwapKey? ==>
          s.pcs[t].main < |s.tables| && s.pcs[t].offset < s.tables[s.pcs[t].main].capacity
  {
    var g := ReachableInv(s);
    hide Inv, Reachable, HasKey, Occupied, SlotAt;
    ThreadFacts(s, g, t);
  }

  /** How far thread t is from the end of its probing: probes left in this table, then tables left. */
  function ProbesLeft(s: State, t: Thread): (nat, nat)
    requires t in s.pcs
  {
    match s.pcs[t]
    case Probe(_, v, j) => (v + 2, if j < TableAt(s.tables, v).capacity then TableAt(s.tables, v).capacity - j else 0)
    case ProbePut(main, j, _) => (1, if j < TableAt(s.tables, main).capacity
        then 2 * (TableAt(s.tables, main).capacity - j) else 0)
    case SwapKey(main, j, _) => (1, if j < TableAt(s.tables, main).capacity
        then 2 * (TableAt(s.tables, main).capacity - j) - 1 else 0)
    case _ => (0, 0)
  }

  /** Every probing step of a thread brings the end of its probing nearer. */
  lemma ProbingEnds(s: State, t: Thread)
    requires Reachable(s) && t in s.pcs && (s.pcs[t].Probe? || s.pcs[t].ProbePut? || s.pcs[t].SwapKey?)
    ensures var a, b := ProbesLeft(s, t), ProbesLeft(Apply(s, Run(t)), t);
      b.0 < a.0 || (b.0 == a.0 && b.1 < a.1)
  {
    var g := ReachableInv(s);
    ProbesStayInside(s, t);
    PrevIsEarlier(s, g);
    hide Inv, Reachable, SlotAt;
    hide RunStep, ProbesLeft, TableAt;
    if s.pcs[t].Probe? {
      ProbeNearer(s, t, s.pcs[t]);
    } else {
      PutNearer(s, t, s.pcs[t]);
    }
  }

  lemma ProbeNearer(s: State, t: Thread, pc: PC)
    requires t in s.pcs && s.pcs[t] == pc && pc.Probe?
    requires pc.table < |s.tables| && pc.offset < s.tables[pc.table].capacity
    requires TableAt(s.tables, pc.table).prev.Some? ==> TableAt(s.tables, pc.table).prev.value < pc.table
    ensures var a, b := ProbesLeft(s, t), ProbesLeft(RunStep(s, t, pc), t);
      b.0 < a.0 || (b.0 == a.0 && b.1 < a.1)
  {
    hide SlotAt;
  }

  lemma PrevIsEarlier(s: State, g: Witness)
    requires Inv(s, g)
    ensures forall v: nat | v < |s.tables| && TableAt(s.tables, v).prev.Some? :: TableAt(s.tables, v).prev.value < v
  {
    hide KeyOk, ValueOk, HomesOk, LockOk, DrawsOk, ThreadsOk, TableAt;
  }

  lemma PutNearer(s: State, t: Thread, pc: PC)
    requires t in s.pcs && s.pcs[t] == pc && (pc.ProbePut? || pc.SwapKey?)
    requires pc.main < |s.tables| && pc.offset < s.tables[pc.main].capacity
    ensures var a, b := ProbesLeft(s, t), ProbesLeft(RunStep(s, t, pc), t);
      b.0 < a.0 || (b.0 == a.0 && b.1 < a.1)
  {
    hide SlotAt;
  }

  // ---------------------------------------------------------------------------
  // The machine gets to the states the theorems speak of
  // ---------------------------------------------------------------------------

  lemma {:induction false} OneStepMore(s: State, run: seq<Action>, a: Action)
    requires Legal(s, run) && Enabled(Final(s, run), a)
    ensures Legal(s, run + [a]) && Final(s, run + [a]) == Apply(Final(s, run), a)
    decreases |run|
  {
    hide Apply, Enabled;
    if run == [] {
      assert run + [a] == [a] && [a][1..] == [];
    } else {
      assert (run + [a])[1..] == run[1..] + [a];
      OneStepMore(Apply(s, run[0]), run[1..], a);
    }
  }

  /** The state after one step more. */
  lemma Go(s: State, a: Action) returns (s': State)
    requires Reachable(s) && Enabled(s, a)
    ensures Reachable(s') && s' == Apply(s, a)
  {
    hide Init, Legal, Final, Apply, Enabled;
    var s0, run :| Init(s0) && Legal(s0, run) && s == Final(s0, run);
    OneStepMore(s0, run, a);
    s' := Apply(s, a);
  }

  lemma InitReachable(s: State)
    requires Init(s)
    ensures Reachable(s)
  {
    hide Init;
    assert Legal(s, []) && s == Final(s, []);
  }

  /** A thread is about to get a producer of its own. */
  lemma RunToCreate() returns (s: State)
    ensures Reachable(s) && 0 in s.pcs && s.pcs[0] == CreateProducer(0, 1) && s.created == 0 && s.returned == []
    ensures s.tables == [Table(32, map[], map[], None)] && s.hashes == map[]
  {
    hide Reachable, Legal, Final;
    s := State([Table(32, map[], map[], None)], 0, false, 0, map[], map[0 := Idle], []);
    InitReachable(s);
    s := Go(s, Call(0));
    s := Go(s, Run(0));
    s := Go(s, Run(0));
    s := Go(s, Run(0));
    s := Go(s, Run(0));
    s := Go(s, Run(0));
  }

  /** It has been given it. */
  lemma RunToReturned() returns (s: State)
    ensures Reachable(s) && s.returned == [Return(0, 0)]
  {
    hide Reachable, Legal, Final, Init;
    s := RunToCreate();
    s := Go(s, Run(0));
    s := Go(s, Run(0));
    s := Go(s, Run(0));
    s := Go(s, Run(0));
  }
}
