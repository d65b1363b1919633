/**
  Restoring a file: the server sends the chunks of a recipe in rounds, each chunk as a record labelled with its ID;
  the client takes the records apart, decrypts each chunk with the key its own recipe has for that ID, and writes the
  chunks in the order of arrival.

  Counters are 32-bit words.  Messages are delivered as sent, and whole: the size the server gives leaves out eight
  bytes for each chunk (see SentWhole).
 */
module Restore {
  import opened Basics
  import opened Bytes
  import opened Records
  import opened Storage
  import Chunking

  /** An entry of the decrypted recipe: the size of the chunk, then its hash. */
  const ENTRY: nat := 36

  function SizeAt(recipe: seq<Byte>, i: nat): nat
    requires ENTRY * (i + 1) <= |recipe|
  {
    FromLe32(recipe[ENTRY * i..ENTRY * i + 4])
  }

  function HashAt(recipe: seq<Byte>, i: nat): Hash
    requires ENTRY * (i + 1) <= |recipe|
  {
    recipe[ENTRY * i + 4..ENTRY * (i + 1)]
  }

  /** What the client asks for, one entry a chunk. */
  datatype Wish = Wish(size: nat, hash: Hash)

  predicate Sized(ws: seq<Wish>) {
    forall i | 0 <= i < |ws| :: ws[i].size < WORD32 && |ws[i].hash| == HASH_SIZE
  }

  /** The list of entries the client sends. */
  function Wishes(ws: seq<Wish>): seq<Byte> {
    if ws == [] then [] else Wishes(ws[..|ws| - 1]) + (Le32(ws[|ws| - 1].size) + ws[|ws| - 1].hash)
  }

  lemma {:induction false} WishesSize(ws: seq<Wish>)
    requires Sized(ws)
    ensures |Wishes(ws)| == ENTRY * |ws|
    decreases |ws|
  {
    if ws != [] {
      WishesSize(ws[..|ws| - 1]);
    }
  }

  /** Where the server looks for them stand size and hash of each entry. */
  lemma {:induction false} WishAt(ws: seq<Wish>, i: nat)
    requires Sized(ws) && i < |ws|
    ensures |Wishes(ws)| == ENTRY * |ws| && ENTRY * (i + 1) <= |Wishes(ws)|
    ensures SizeAt(Wishes(ws), i) == ws[i].size && HashAt(Wishes(ws), i) == ws[i].hash
    decreases |ws|
  {
    var n := |ws| - 1;
    var front, last := Wishes(ws[..n]), Le32(ws[n].size) + ws[n].hash;
    assert Sized(ws[..n]) && ws[n].size < WORD32 && |ws[n].hash| == HASH_SIZE;
    WishesSize(ws);
    WishesSize(ws[..n]);
    assert Wishes(ws) == front + last;
    hide Wishes, Le32, FromLe32, SizeAt, HashAt, Sized;
    if i < n {
      WishAt(ws[..n], i);
      EntryInFront(front, last, i);
    } else {
      Le32RoundTrip(ws[n].size);
      EntryBehind(front, ws[n].size, ws[n].hash, n);
    }
  }

  lemma EntryInFront(front: seq<Byte>, last: seq<Byte>, i: nat)
    requires ENTRY * (i + 1) <= |front|
    ensures SizeAt(front + last, i) == SizeAt(front, i) && HashAt(front + last, i) == HashAt(front, i)
  {
    hide FromLe32;
    assert (front + last)[ENTRY * i..ENTRY * i + 4] == front[ENTRY * i..ENTRY * i + 4];
    assert (front + last)[ENTRY * i + 4..ENTRY * (i + 1)] == front[ENTRY * i + 4..ENTRY * (i + 1)];
  }

  lemma EntryBehind(front: seq<Byte>, size: nat, hash: Hash, i: nat)
    requires |front| == ENTRY * i && |hash| == HASH_SIZE
    ensures var all := front + (Le32(size) + hash);
      ENTRY * (i + 1) <= |all| && SizeAt(all, i) == FromLe32(Le32(size)) && HashAt(all, i) == hash
  {
    hide FromLe32, Le32;
    var all := front + (Le32(size) + hash);
    assert all[ENTRY * i..ENTRY * i + 4] == Le32(size);
    assert all[ENTRY * i + 4..ENTRY * (i + 1)] == hash;
  }

  /** The loop of processRecipe that writes the list. */
  method AskFor(ws: seq<Wish>) returns (list: seq<Byte>)
    requires Sized(ws)
    ensures |list| == ENTRY * |ws|
    ensures forall i | 0 <= i < |ws| :: SizeAt(list, i) == ws[i].size && HashAt(list, i) == ws[i].hash
  {
    list := [];
    hide SizeAt, HashAt, Le32;
    for i := 0 to |ws|
      invariant list == Wishes(ws[..i])
    {
      assert ws[..i + 1][..i] == ws[..i];
      list := list + Le32(ws[i].size) + ws[i].hash;
      assert list == Wishes(ws[..i]) + (Le32(ws[i].size) + ws[i].hash);
    }
    assert ws[..|ws|] == ws;
    WishesSize(ws);
    forall i | 0 <= i < |ws|
      ensures SizeAt(list, i) == ws[i].size && HashAt(list, i) == ws[i].hash
    {
      WishAt(ws, i);
    }
  }

  /** The server's settings: chunks per round, and whether chunks that are not there are replaced by zeros. */
  datatype Settings = Settings(batch: nat, traceDriven: bool)

  /** What is sent for entry i: the bytes last stored under its hash, if of the right size. */
  ghost function Restored(g: Settings, log: seq<Stored>, recipe: seq<Byte>, i: nat): Option<seq<Byte>>
    requires ENTRY * (i + 1) <= |recipe|
  {
    match Contents(log, HashAt(recipe, i))
    case Some(d) => if |d| == SizeAt(recipe, i) then Some(d) else None
    case None => if g.traceDriven then Some(seq<Byte>(SizeAt(recipe, i), _ => 0)) else None
  }

  ghost predicate AllRestored(g: Settings, log: seq<Stored>, recipe: seq<Byte>, s: nat, e: nat)
    requires ENTRY * e <= |recipe|
  {
    forall i: nat | s <= i < e :: Restored(g, log, recipe, i).Some?
  }

  /** The records sent for the entries from s up to e. */
  ghost function Sent(g: Settings, log: seq<Stored>, recipe: seq<Byte>, s: nat, e: nat): (rs: seq<Record>)
    requires s <= e && ENTRY * e <= |recipe| && AllRestored(g, log, recipe, s, e)
    ensures |rs| == e - s
    ensures forall i | s <= i < e :: rs[i - s] == Record(Le32(i), Restored(g, log, recipe, i).value)
    decreases e
  {
    if s == e then [] else Sent(g, log, recipe, s, e - 1) + [Record(Le32(e - 1), Restored(g, log, recipe, e - 1).value)]
  }

  function DataSize(rs: seq<Record>): nat {
    if rs == [] then 0 else DataSize(rs[..|rs| - 1]) + |rs[|rs| - 1].data|
  }

  /** The message of a round: number of chunks, records, and the size given for the body. */
  datatype Message = Message(body: seq<Byte>, size: nat)

  function MessageOf(rs: seq<Record>): Message {
    Message(Le32(|rs|) + Pack(rs), 4 + DataSize(rs))
  }

  lemma {:induction false} PackedSize(rs: seq<Record>)
    requires forall r | r in rs :: |r.tag| == 4
    ensures |Pack(rs)| == DataSize(rs) + 8 * |rs|
    decreases |rs|
  {
    if rs != [] {
      PackedSize(rs[..|rs| - 1]);
    }
  }

  /** The size given covers the whole body only when no chunk is in it. */
  lemma SentWhole(rs: seq<Record>)
    requires forall r | r in rs :: |r.tag| == 4
    ensures MessageOf(rs).size >= |MessageOf(rs).body| <==> rs == []
  {
    PackedSize(rs);
  }

  // ---------------------------------------------------------------------------
  // The server
  // ---------------------------------------------------------------------------

  /** restoreRecipeAndChunk: the records of the entries from startID up to endID, or failure if one cannot be
      restored. */
  method RestoreRecipeAndChunk(g: Settings, store: StorageCore, recipe: seq<Byte>, startID: nat, endID: nat)
    returns (ok: bool, list: seq<Byte>, number: nat, size: nat)
    requires store.Valid() && startID <= endID < WORD32 && ENTRY * endID <= |recipe|
    modifies store`readName, store.readBody
    ensures store.Valid()
    ensures ok <==> AllRestored(g, store.disk.log, recipe, startID, endID)
    ensures ok ==> number == endID - startID
    ensures ok ==> MessageOf(Sent(g, store.disk.log, recipe, startID, endID)) == Message(Le32(number) + list, 4 + size)
  {
    hide *;
    number := Wrap32(endID - startID);
    list, size := [], 0;
    ghost var log := store.disk.log;
    RoundStart(g, log, recipe, startID, endID);
    for i := 0 to number
      invariant store.Valid() && AllRestored(g, log, recipe, startID, startID + i)
      invariant list == Pack(Sent(g, log, recipe, startID, startID + i))
      invariant size == DataSize(Sent(g, log, recipe, startID, startID + i))
    {
      var id := startID + i;
      EntryInside(recipe, endID, id);
      var chunkSize := SizeAt(recipe, id);
      var data := store.RestoreChunk(HashAt(recipe, id));
      RestoredIs(g, log, recipe, id);
      RoundMore(g, log, recipe, startID, id, endID);
      if data.None? && g.traceDriven {
        data := Some(seq<Byte>(chunkSize, _ => 0));
      }
      if data.None? || |data.value| != chunkSize {
        return false, list, number, size;
      }
      list := list + Le32(id) + Le32(chunkSize) + data.value;
      size := size + chunkSize;
    }
    ok := true;
    RoundDone(g, log, recipe, startID, endID);
  }

  lemma RoundStart(g: Settings, log: seq<Stored>, recipe: seq<Byte>, s: nat, e: nat)
    requires s <= e < WORD32 && ENTRY * e <= |recipe|
    ensures Wrap32(e - s) == e - s && ENTRY * s <= |recipe| && AllRestored(g, log, recipe, s, s)
    ensures Pack(Sent(g, log, recipe, s, s)) == [] && DataSize(Sent(g, log, recipe, s, s)) == 0
  {
  }

  lemma EntryInside(recipe: seq<Byte>, e: nat, i: nat)
    requires i < e && ENTRY * e <= |recipe|
    ensures ENTRY * i <= ENTRY * (i + 1) <= |recipe|
  {
  }

  lemma RestoredIs(g: Settings, log: seq<Stored>, recipe: seq<Byte>, i: nat)
    requires ENTRY * (i + 1) <= |recipe|
    ensures Restored(g, log, recipe, i) ==
      var found := Contents(log, HashAt(recipe, i));
      var data := if found.None? && g.traceDriven then Some(seq<Byte>(SizeAt(recipe, i), _ => 0)) else found;
      if data.None? || |data.value| != SizeAt(recipe, i) then None else data
  {
    hide Contents, HashAt, SizeAt;
  }

  /** One entry more is restored, or the range cannot be. */
  lemma RoundMore(g: Settings, log: seq<Stored>, recipe: seq<Byte>, s: nat, i: nat, e: nat)
    requires s <= i < e && ENTRY * e <= |recipe| && ENTRY * (i + 1) <= |recipe| && AllRestored(g, log, recipe, s, i)
    ensures Restored(g, log, recipe, i).None? ==> !AllRestored(g, log, recipe, s, e)
    ensures Restored(g, log, recipe, i).Some? ==>
              var d := Restored(g, log, recipe, i).value;
              var before := Sent(g, log, recipe, s, i);
              && AllRestored(g, log, recipe, s, i + 1)
              && Pack(Sent(g, log, recipe, s, i + 1)) == Pack(before) + Le32(i) + Le32(|d|) + d
              && DataSize(Sent(g, log, recipe, s, i + 1)) == DataSize(before) + |d|
  {
    hide Restored, Pack, PackRecord, Le32;
    if Restored(g, log, recipe, i).Some? {
      var d := Restored(g, log, recipe, i).value;
      var before := Sent(g, log, recipe, s, i);
      PackMore(before, Record(Le32(i), d));
      RecordText(Record(Le32(i), d));
      assert (before + [Record(Le32(i), d)])[..|before|] == before;
      assert Pack(before) + (Le32(i) + Le32(|d|) + d) == Pack(before) + Le32(i) + Le32(|d|) + d;
    }
  }

  lemma RoundDone(g: Settings, log: seq<Stored>, recipe: seq<Byte>, s: nat, e: nat)
    requires s <= e && ENTRY * e <= |recipe| && AllRestored(g, log, recipe, s, e)
    ensures var rs := Sent(g, log, recipe, s, e); MessageOf(rs) == Message(Le32(e - s) + Pack(rs), 4 + DataSize(rs))
  {
    hide Restored, Pack;
  }

  /** The rounds so far: consecutive ranges from 0 on, none larger than a batch, each sent whole. */
  ghost predicate Rounds(g: Settings, log: seq<Stored>, recipe: seq<Byte>, cuts: seq<nat>, sent: seq<Message>) {
    && |cuts| == |sent| + 1 && cuts[0] == 0
    && forall i | 0 <= i < |sent| :: Round(g, log, recipe, cuts[i], cuts[i + 1], sent[i])
  }

  ghost predicate Round(g: Settings, log: seq<Stored>, recipe: seq<Byte>, s: nat, e: nat, m: Message) {
    s <= e <= s + g.batch && ENTRY * e <= |recipe| && AllRestored(g, log, recipe, s, e) &&
    m == MessageOf(Sent(g, log, recipe, s, e))
  }

  /** The loop of runData that sends the chunks of a recipe, on a new connection.  It ends; unless a chunk cannot be
      restored, its rounds cover the recipe. */
  method SendChunks(g: Settings, store: StorageCore, recipe: seq<Byte>, total: nat)
    returns (ok: bool, sent: seq<Message>, ghost cuts: seq<nat>)
    requires store.Valid() && total < WORD32 && |recipe| == ENTRY * total && 0 < g.batch < INT_LIMIT
    modifies store`readName, store.readBody
    ensures store.Valid()
    ensures ok <==> AllRestored(g, store.disk.log, recipe, 0, total)
    ensures Rounds(g, store.disk.log, recipe, cuts, sent) && (ok ==> cuts[|sent|] == total)
  {
    hide *;
    FirstRange(total, g.batch);
    var startID, endID, restored: nat := 0, 0, 0;
    if total < g.batch {
      endID := Wrap32(total - 1);
    }
    sent, cuts := [], [0];
    ghost var log := store.disk.log;
    NothingSent(g, log, recipe);
    while restored != total
      invariant store.Valid() && startID == restored <= total && AllRestored(g, log, recipe, 0, startID)
      invariant restored != total ==> startID <= endID <= total && endID <= startID + g.batch
      invariant restored != total && startID == endID ==> startID == 0
      invariant |cuts| == |sent| + 1 && cuts[|sent|] == startID && Rounds(g, log, recipe, cuts, sent)
      decreases total - restored, if startID == endID then 1 else 0
    {
      NextRange(total, startID, endID, g.batch, |recipe|);
      var status, list, number, size := RestoreRecipeAndChunk(g, store, recipe, startID, endID);
      if !status {
        PartFails(g, log, recipe, startID, endID, total);
        return false, sent, cuts;
      }
      RangesJoin(g, log, recipe, startID, endID);
      OneRoundMore(g, log, recipe, cuts, sent, endID, Message(Le32(number) + list, 4 + size));
      sent, cuts := sent + [Message(Le32(number) + list, 4 + size)], cuts + [endID];
      restored := Wrap32(restored + number);
      startID := endID;
      var remaining := Wrap32(total - restored);
      if remaining < g.batch {
        endID := Wrap32(endID + remaining);
      } else {
        endID := Wrap32(endID + g.batch);
      }
    }
    WholeRecipe(g, log, recipe, total);
    ok := true;
  }

  /** The first range: empty, or all but the last entry. */
  lemma FirstRange(total: nat, batch: nat)
    requires total < WORD32 && 0 < batch
    ensures 0 < total < batch ==> Wrap32(total - 1) == total - 1
  {
  }

  /** The range after the one up to e: to the end of the recipe, or a whole batch. */
  lemma NextRange(total: nat, s: nat, e: nat, batch: nat, length: nat)
    requires s <= e <= total < WORD32 && length == ENTRY * total
    ensures Wrap32(s + (e - s)) == e && Wrap32(total - e) == total - e && Wrap32(e + (total - e)) == total
    ensures batch <= total - e ==> Wrap32(e + batch) == e + batch
    ensures ENTRY * e <= length
  {
  }

  lemma WholeRecipe(g: Settings, log: seq<Stored>, recipe: seq<Byte>, total: nat)
    requires |recipe| == ENTRY * total
    ensures ENTRY * total <= |recipe|
  {
  }

  lemma NothingSent(g: Settings, log: seq<Stored>, recipe: seq<Byte>)
    ensures AllRestored(g, log, recipe, 0, 0) && Rounds(g, log, recipe, [0], [])
  {
  }

  lemma PartFails(g: Settings, log: seq<Stored>, recipe: seq<Byte>, s: nat, e: nat, total: nat)
    requires s <= e <= total && ENTRY * total <= |recipe| && !AllRestored(g, log, recipe, s, e)
    ensures !AllRestored(g, log, recipe, 0, total)
  {
    hide Restored;
  }

  lemma RangesJoin(g: Settings, log: seq<Stored>, recipe: seq<Byte>, s: nat, e: nat)
    requires s <= e && ENTRY * e <= |recipe| && AllRestored(g, log, recipe, 0, s) && AllRestored(g, log, recipe, s, e)
    ensures AllRestored(g, log, recipe, 0, e)
  {
    hide Restored;
  }

  lemma OneRoundMore(g: Settings, log: seq<Stored>, recipe: seq<Byte>, cuts: seq<nat>, sent: seq<Message>, e: nat,
      m: Message)
    requires Rounds(g, log, recipe, cuts, sent) && |cuts| == |sent| + 1 && cuts[|sent|] <= e <= cuts[|sent|] + g.batch
          && ENTRY * e <= |recipe|
    requires AllRestored(g, log, recipe, cuts[|sent|], e) && m == MessageOf(Sent(g, log, recipe, cuts[|sent|], e))
    ensures Rounds(g, log, recipe, cuts + [e], sent + [m])
  {
    assert Round(g, log, recipe, cuts[|sent|], e, m);
    hide Round;
    forall i | 0 <= i < |sent + [m]|
      ensures Round(g, log, recipe, (cuts + [e])[i], (cuts + [e])[i + 1], (sent + [m])[i])
    {
      if i < |sent| {
        assert Round(g, log, recipe, cuts[i], cuts[i + 1], sent[i]);
      }
    }
  }

  // ---------------------------------------------------------------------------
  // The client
  // ---------------------------------------------------------------------------

  datatype Chunk = Chunk(id: nat, data: seq<Byte>)

  /** What the client knows: how to decrypt with a key, and the key of each chunk. */
  datatype Client = Client(decrypt: (seq<Byte>, seq<Byte>) -> seq<Byte>, keys: seq<seq<Byte>>)

  /** The record is labelled with the ID of a chunk of the recipe. */
  predicate Labelled(c: Client, r: Record) {
    |r.tag| == 4 && FromLe32(r.tag) < |c.keys| && |r.data| < INT_LIMIT
  }

  /** A record decrypted with the key for its ID. */
  function Opened(c: Client, r: Record): Chunk
    requires Labelled(c, r)
  {
    Chunk(FromLe32(r.tag), c.decrypt(c.keys[FromLe32(r.tag)], r.data))
  }

  /** The part of run that takes one message apart: its chunks go to the queue in order. */
  method ReceiveBatch(c: Client, body: seq<Byte>, queue: seq<Chunk>, ghost rs: seq<Record>, ghost trail: seq<Byte>)
    returns (out: seq<Chunk>, number: nat)
    requires body == Le32(|rs|) + Pack(rs) + trail && |rs| < INT_LIMIT && forall i | 0 <= i < |rs| :: Labelled(c, rs[i])
    ensures number == |rs| && |out| == |queue| + |rs| && out[..|queue|] == queue
    ensures forall i | 0 <= i < |rs| :: out[|queue| + i] == Opened(c, rs[i])
  {
    hide *;
    BatchParts(rs, body, trail);
    number := FromLe32(body[..4]);
    var totalRecvSize := 4;
    out := queue;
    for i := 0 to number
      invariant totalRecvSize == 4 + |Pack(rs[..i])| && |out| == |queue| + i && out[..|queue|] == queue
      invariant forall j | 0 <= j < i :: out[|queue| + j] == Opened(c, rs[j])
    {
      LabelFacts(c, rs[i]);
      RecordInBatch(rs, i, body, trail);
      FieldValues(body, totalRecvSize, rs[i]);
      var id := FromLe32(body[totalRecvSize..totalRecvSize + 4]);
      totalRecvSize := totalRecvSize + 4;
      var size := FromLe32(body[totalRecvSize..totalRecvSize + 4]);
      totalRecvSize := totalRecvSize + 4;
      var plain := c.decrypt(c.keys[id], body[totalRecvSize..totalRecvSize + size]);
      out := out + [Chunk(id, plain)];
      totalRecvSize := totalRecvSize + size;
    }
  }

  lemma LabelFacts(c: Client, r: Record)
    requires Labelled(c, r)
    ensures |r.tag| == 4 && FromLe32(r.tag) < |c.keys| && |r.data| < INT_LIMIT
    ensures Opened(c, r) == Chunk(FromLe32(r.tag), c.decrypt(c.keys[FromLe32(r.tag)], r.data))
  {
    hide FromLe32;
  }

  /** Chunk i in plain text, as the client makes it from what is restored. */
  ghost function PlainAt(g: Settings, log: seq<Stored>, recipe: seq<Byte>, c: Client, i: nat): seq<Byte>
    requires i < |c.keys| && ENTRY * (i + 1) <= |recipe| && Restored(g, log, recipe, i).Some?
  {
    c.decrypt(c.keys[i], Restored(g, log, recipe, i).value)
  }

  /** What is in the queue after the chunks up to n have come. */
  ghost predicate Arrived(g: Settings, log: seq<Stored>, recipe: seq<Byte>, c: Client, n: nat, queue: seq<Chunk>)
    requires n <= |c.keys| && ENTRY * |c.keys| <= |recipe| && AllRestored(g, log, recipe, 0, |c.keys|)
  {
    |queue| == n && forall i: nat | i < n :: queue[i] == Chunk(i, PlainAt(g, log, recipe, c, i))
  }

  /** The sizes in the recipe fit an int, as they were written. */
  predicate SmallSizes(recipe: seq<Byte>, total: nat)
    requires ENTRY * total <= |recipe|
  {
    forall i: nat | i < total :: SizeAt(recipe, i) < INT_LIMIT
  }

  /** RecvDecode::run: all rounds are received, and the queue holds the plain chunks in the order of the recipe. */
  method Receive(c: Client, sent: seq<Message>, total: nat, ghost g: Settings, ghost log: seq<Stored>,
      ghost recipe: seq<Byte>,
                 ghost cuts: seq<nat>)
    returns (queue: seq<Chunk>)
    requires total == |c.keys| < WORD32 && |recipe| == ENTRY * total && SmallSizes(recipe, total) && g.batch < INT_LIMIT
    requires AllRestored(g, log, recipe, 0, total) && Rounds(g, log, recipe, cuts, sent) && cuts[|sent|] == total
    ensures Arrived(g, log, recipe, c, total, queue)
  {
    hide *;
    var received: nat, next: nat := 0, 0;
    queue := [];
    NothingArrived(g, log, recipe, c, cuts, sent);
    while received < total
      invariant next <= |sent| && received == cuts[next] <= total && |cuts| == |sent| + 1
      invariant |queue| == received && Arrived(g, log, recipe, c, received, queue)
      decreases |sent| - next
    {
      RoundIs(g, log, recipe, cuts, sent, next, c);
      ghost var rs := Sent(g, log, recipe, cuts[next], cuts[next + 1]);
      ghost var before := queue;
      var number: nat;
      queue, number := ReceiveBatch(c, sent[next].body, queue, rs, []);
      RoundArrives(g, log, recipe, c, cuts[next], cuts[next + 1], before, queue);
      received := Wrap32(received + number);
      next := next + 1;
    }
  }

  lemma NothingArrived(g: Settings, log: seq<Stored>, recipe: seq<Byte>, c: Client, cuts: seq<nat>, sent: seq<Message>)
    requires ENTRY * |c.keys| <= |recipe| && AllRestored(g, log, recipe, 0, |c.keys|)
          && Rounds(g, log, recipe, cuts, sent)
    ensures Arrived(g, log, recipe, c, 0, []) && |cuts| == |sent| + 1 && cuts[0] == 0
  {
  }

  lemma {:induction false} CutsRise(g: Settings, log: seq<Stored>, recipe: seq<Byte>, cuts: seq<nat>,
      sent: seq<Message>, k: nat, m: nat)
    requires Rounds(g, log, recipe, cuts, sent) && k <= m <= |sent|
    ensures cuts[k] <= cuts[m]
    decreases m
  {
    if k < m {
      CutsRise(g, log, recipe, cuts, sent, k, m - 1);
      assert Round(g, log, recipe, cuts[m - 1], cuts[m], sent[m - 1]);
    }
  }

  /** The next round, as the client sees it. */
  lemma RoundIs(g: Settings, log: seq<Stored>, recipe: seq<Byte>, cuts: seq<nat>, sent: seq<Message>, k: nat, c: Client)
    requires Rounds(g, log, recipe, cuts, sent) && |cuts| == |sent| + 1 && k < |cuts|
    requires cuts[k] < cuts[|sent|] == |c.keys| < WORD32
    requires |recipe| == ENTRY * |c.keys| && SmallSizes(recipe, |c.keys|) && g.batch < INT_LIMIT
    ensures k < |sent| && cuts[k] <= cuts[k + 1] <= |c.keys| && Wrap32(cuts[k + 1]) == cuts[k + 1]
    ensures ENTRY * cuts[k + 1] <= |recipe| && AllRestored(g, log, recipe, cuts[k], cuts[k + 1])
    ensures var rs := Sent(g, log, recipe, cuts[k], cuts[k + 1]);
      && sent[k].body == Le32(|rs|) + Pack(rs) + [] && |rs| < INT_LIMIT && forall i | 0 <= i < |rs| ::
           Labelled(c, rs[i])
  {
    hide *;
    RoundAt(g, log, recipe, cuts, sent, k);
    CutsRise(g, log, recipe, cuts, sent, k + 1, |sent|);
    WordOf(cuts[k + 1]);
    RoundBody(g, log, recipe, cuts[k], cuts[k + 1], sent[k], c);
  }

  lemma RoundAt(g: Settings, log: seq<Stored>, recipe: seq<Byte>, cuts: seq<nat>, sent: seq<Message>, k: nat)
    requires Rounds(g, log, recipe, cuts, sent) && k < |sent|
    ensures |cuts| == |sent| + 1 && Round(g, log, recipe, cuts[k], cuts[k + 1], sent[k])
    ensures cuts[k] <= cuts[k + 1] && ENTRY * cuts[k + 1] <= |recipe|
          && AllRestored(g, log, recipe, cuts[k], cuts[k + 1])
  {
    assert Round(g, log, recipe, cuts[k], cuts[k + 1], sent[k]);
    hide AllRestored;
  }

  lemma WordOf(x: nat)
    ensures x < WORD32 ==> Wrap32(x) == x
  {
  }

  lemma RoundBody(g: Settings, log: seq<Stored>, recipe: seq<Byte>, s: nat, e: nat, m: Message, c: Client)
    requires Round(g, log, recipe, s, e, m) && e <= |c.keys| < WORD32 && g.batch < INT_LIMIT
    requires |recipe| == ENTRY * |c.keys| && SmallSizes(recipe, |c.keys|)
    ensures var rs := Sent(g, log, recipe, s, e);
      && m.body == Le32(|rs|) + Pack(rs) + [] && |rs| < INT_LIMIT && forall i | 0 <= i < |rs| :: Labelled(c, rs[i])
  {
    hide Pack, Le32, FromLe32, SmallSizes, Labelled, Restored;
    var rs := Sent(g, log, recipe, s, e);
    assert Le32(|rs|) + Pack(rs) + [] == Le32(|rs|) + Pack(rs);
    forall i | 0 <= i < |rs|
      ensures Labelled(c, rs[i])
    {
      SentAt(g, log, recipe, s, e, s + i);
      LabelOf(g, log, recipe, c, s + i);
    }
  }

  lemma SentAt(g: Settings, log: seq<Stored>, recipe: seq<Byte>, s: nat, e: nat, i: nat)
    requires s <= i < e && ENTRY * e <= |recipe| && AllRestored(g, log, recipe, s, e)
    ensures ENTRY * (i + 1) <= |recipe| && Restored(g, log, recipe, i).Some?
    ensures Sent(g, log, recipe, s, e)[i - s] == Record(Le32(i), Restored(g, log, recipe, i).value)
  {
    hide Restored, Le32;
  }

  lemma LabelOf(g: Settings, log: seq<Stored>, recipe: seq<Byte>, c: Client, i: nat)
    requires i < |c.keys| < WORD32 && |recipe| == ENTRY * |c.keys| && SmallSizes(recipe, |c.keys|)
    requires Restored(g, log, recipe, i).Some?
    ensures Labelled(c, Record(Le32(i), Restored(g, log, recipe, i).value)) && FromLe32(Le32(i)) == i
  {
    Le32RoundTrip(i);
    RestoredIs(g, log, recipe, i);
    hide Restored, FromLe32, Le32, Contents;
  }

  lemma RoundArrives(g: Settings, log: seq<Stored>, recipe: seq<Byte>, c: Client, s: nat, e: nat, before: seq<Chunk>,
      queue: seq<Chunk>)
    requires s <= e <= |c.keys| < WORD32 && ENTRY * |c.keys| <= |recipe| && ENTRY * e <= |recipe|
    requires AllRestored(g, log, recipe, 0, |c.keys|) && AllRestored(g, log, recipe, s, e)
    requires Arrived(g, log, recipe, c, s, before) && |queue| == e && queue[..s] == before
    requires var rs := Sent(g, log, recipe, s, e);
      forall i | 0 <= i < |rs| :: Labelled(c, rs[i]) && queue[s + i] == Opened(c, rs[i])
    ensures Arrived(g, log, recipe, c, e, queue)
  {
    hide Restored, FromLe32, Le32;
    var rs := Sent(g, log, recipe, s, e);
    forall i: nat | i < e
      ensures queue[i] == Chunk(i, PlainAt(g, log, recipe, c, i))
    {
      if i < s {
        assert queue[i] == before[i];
      } else {
        SentAt(g, log, recipe, s, e, i);
        assert queue[s + (i - s)] == Opened(c, rs[i - s]);
        Le32RoundTrip(i);
      }
    }
  }

  /** The bytes of chunks, in order. */
  function Datas(queue: seq<Chunk>): (r: seq<seq<Byte>>)
    ensures |r| == |queue| && forall i | 0 <= i < |queue| :: r[i] == queue[i].data
  {
    seq(|queue|, i requires 0 <= i < |queue| => queue[i].data)
  }

  lemma {:induction false} ConcatMore(cs: seq<seq<Byte>>, c: seq<Byte>)
    ensures Chunking.Concat(cs + [c]) == Chunking.Concat(cs) + c
    decreases |cs|
  {
    if cs == [] {
      assert cs + [c] == [c] && [c][1..] == [];
    } else {
      ConcatMore(cs[1..], c);
      assert (cs + [c])[1..] == cs[1..] + [c];
    }
  }

  /** Retriever::run: chunks are written as they come out of the queue, until all have come. */
  method Retrieve(queue: seq<Chunk>, total: nat) returns (file: seq<Byte>)
    requires total == |queue|
    ensures file == Chunking.Concat(Datas(queue))
  {
    file := [];
    var n: nat := 0;
    while n < total
      invariant n <= total && file == Chunking.Concat(Datas(queue)[..n])
    {
      ConcatMore(Datas(queue)[..n], queue[n].data);
      assert Datas(queue)[..n + 1] == Datas(queue)[..n] + [queue[n].data];
      file := file + queue[n].data;
      n := n + 1;
    }
    assert Datas(queue)[..total] == Datas(queue);
  }

  /** The whole way back: when every chunk of the recipe is stored and decrypts to its plain text, the file restored is
      the plain chunks one after the other, which for the chunks of a file is that file. */
  method RestoreFile(g: Settings, store: StorageCore, c: Client, recipe: seq<Byte>, ghost plain: seq<seq<Byte>>)
    returns (file: Option<seq<Byte>>)
    requires store.Valid() && |c.keys| == |plain| < WORD32 && |recipe| == ENTRY * |plain| && SmallSizes(recipe, |plain|)
    requires 0 < g.batch < INT_LIMIT
    requires forall i: nat | i < |plain| :: IsStored(store.disk.log, recipe, c, i, plain[i])
    modifies store`readName, store.readBody
    ensures store.Valid() && file == Some(Chunking.Concat(plain))
    ensures forall cfg, data: seq<Byte> | Chunking.Sane(cfg) && plain == Chunking.Chunks(cfg, data) ::
          file == Some(data)
  {
    hide *;
    var ok, sent, cuts := SendChunks(g, store, recipe, |c.keys|);
    ghost var log := store.disk.log;
    forall i: nat | i < |plain|
      ensures StoredIs(g, log, recipe, c, i, plain[i])
    {
      StoredIsRestored(g, log, recipe, c, i, plain[i]);
    }
    AllThere(g, log, recipe, c, plain);
    var queue := Receive(c, sent, |c.keys|, g, log, recipe, cuts);
    ArrivedPlain(g, log, recipe, c, plain, queue);
    var bytes := Retrieve(queue, |c.keys|);
    file := Some(bytes);
    forall cfg, data: seq<Byte> | Chunking.Sane(cfg) && plain == Chunking.Chunks(cfg, data)
      ensures file == Some(data)
    {
      Chunking.ChunksConcat(cfg, data);
    }
  }

  /** Entry i is stored with the right size and decrypts to the plain text. */
  ghost predicate IsStored(log: seq<Stored>, recipe: seq<Byte>, c: Client, i: nat, plain: seq<Byte>) {
    && i < |c.keys| && ENTRY * (i + 1) <= |recipe|
    && Contents(log, HashAt(recipe, i)).Some?
    && var d := Contents(log, HashAt(recipe, i)).value; |d| == SizeAt(recipe, i) && c.decrypt(c.keys[i], d) == plain
  }

  ghost predicate StoredIs(g: Settings, log: seq<Stored>, recipe: seq<Byte>, c: Client, i: nat, plain: seq<Byte>) {
    && i < |c.keys| && ENTRY * (i + 1) <= |recipe| && Restored(g, log, recipe, i).Some?
    && PlainAt(g, log, recipe, c, i) == plain
  }

  lemma StoredIsRestored(g: Settings, log: seq<Stored>, recipe: seq<Byte>, c: Client, i: nat, plain: seq<Byte>)
    requires IsStored(log, recipe, c, i, plain)
    ensures StoredIs(g, log, recipe, c, i, plain)
  {
    RestoredIs(g, log, recipe, i);
    hide Contents, Restored;
  }

  lemma AllThere(g: Settings, log: seq<Stored>, recipe: seq<Byte>, c: Client, plain: seq<seq<Byte>>)
    requires |c.keys| == |plain| && |recipe| == ENTRY * |plain|
    requires forall i: nat | i < |plain| :: StoredIs(g, log, recipe, c, i, plain[i])
    ensures AllRestored(g, log, recipe, 0, |plain|)
  {
    hide Restored, PlainAt;
    forall i: nat | i < |plain|
      ensures Restored(g, log, recipe, i).Some?
    {
      assert StoredIs(g, log, recipe, c, i, plain[i]);
    }
  }

  lemma ArrivedPlain(g: Settings, log: seq<Stored>, recipe: seq<Byte>, c: Client, plain: seq<seq<Byte>>,
      queue: seq<Chunk>)
    requires |c.keys| == |plain| && |recipe| == ENTRY * |plain| && AllRestored(g, log, recipe, 0, |plain|)
    requires forall i: nat | i < |plain| :: StoredIs(g, log, recipe, c, i, plain[i])
    requires Arrived(g, log, recipe, c, |plain|, queue)
    ensures |queue| == |plain| && Datas(queue) == plain
  {
    hide Restored, PlainAt;
    forall i: nat | i < |plain|
      ensures Datas(queue)[i] == plain[i]
    {
      assert StoredIs(g, log, recipe, c, i, plain[i]);
    }
  }
}
