/**
  Uploading: the sender packs the chunks to be uploaded into batches; the storage server takes a batch
  apart and stores its chunks one by one.
 */
module Uploads {
  import opened Basics
  import opened Bytes
  import opened ContainerNames
  import opened Records
  import opened Storage

  /** The size of a message head. */
  const HEAD: nat := 12

  predicate Sized(r: Record) {
    |r.tag| == HASH_SIZE && |r.data| < INT_LIMIT
  }

  // ---------------------------------------------------------------------------
  // The sender's batch
  // ---------------------------------------------------------------------------

  /** The batch buffer of the sender: a message head, the count, and the records so far. */
  class ChunkBatch {
    const limit: nat
    const maxChunkSize: nat
    const buffer: array<Byte>
    var size: nat
    var number: nat
    ghost var records: seq<Record>

    ghost predicate Valid()
      reads this, buffer
    {
      && buffer.Length == HEAD + 4 + limit * (HASH_SIZE + maxChunkSize + 4)
      && number == |records| <= limit < INT_LIMIT && maxChunkSize < INT_LIMIT
      && (forall r | r in records :: Sized(r))
      && HEAD + 4 <= size <= HEAD + 4 + number * (HASH_SIZE + maxChunkSize + 4)
      && size <= buffer.Length && buffer[HEAD + 4..size] == Pack(records)
    }

    constructor (sendBatchSize: nat, max: nat)
      requires sendBatchSize < INT_LIMIT && max < INT_LIMIT
      ensures Valid() && fresh(buffer) && records == [] && limit == sendBatchSize && maxChunkSize == max
    {
      limit := sendBatchSize;
      maxChunkSize := max;
      buffer := new Byte[HEAD + 4 + sendBatchSize * (HASH_SIZE + max + 4)](_ => 0);
      size := HEAD + 4;
      number := 0;
      records := [];
    }

    /** memcpy to the end of what is there. */
    method Append(bytes: seq<Byte>)
      requires size + |bytes| <= buffer.Length && HEAD + 4 <= size
      modifies this`size, buffer
      ensures size == old(size) + |bytes| && buffer[HEAD + 4..size] == old(buffer[HEAD + 4..size]) + bytes
    {
      forall i | 0 <= i < |bytes| {
        buffer[size + i] := bytes[i];
      }
      size := size + |bytes|;
    }

    /** The part of run that packs one chunk to be uploaded. */
    method Add(r: Record)
      requires Valid() && number < limit && |r.tag| == HASH_SIZE && |r.data| <= maxChunkSize
      modifies this, buffer
      ensures Valid() && records == old(records) + [r]
    {
      hide Pack, PackRecord, Le32;
      FitsNext(number, limit, HASH_SIZE + maxChunkSize + 4);
      PackMore(records, r);
      RecordText(r);
      Append(r.tag);
      Append(Le32(|r.data|));
      Append(r.data);
      number := number + 1;
      records := records + [r];
    }

    /** sendChunkList: the count goes in front of the records.  The size sent counts the head and the count twice over,
        so what is received has further bytes behind the records. */
    method Seal(stray: seq<Byte>) returns (received: seq<Byte>)
      requires Valid() && |stray| == HEAD + 4
      modifies buffer
      ensures Valid() && received == Le32(number) + Pack(records) + stray
    {
      ghost var was := buffer[HEAD + 4..size];
      forall i | 0 <= i < 4 {
        buffer[HEAD + i] := Le32(number)[i];
      }
      assert buffer[HEAD + 4..size] == was;
      assert buffer[HEAD..HEAD + 4] == Le32(number);
      assert buffer[HEAD..size] == Le32(number) + Pack(records);
      received := buffer[HEAD..size] + stray;
    }
  }

  lemma FitsNext(n: nat, limit: nat, width: nat)
    requires n < limit
    ensures (n + 1) * width == n * width + width && (n + 1) * width <= limit * width
  {
    MulMono(n + 1, limit, width);
  }

  // ---------------------------------------------------------------------------
  // The storage server takes a batch apart
  // ---------------------------------------------------------------------------

  /** The name can be stepped n times before the names run out. */
  ghost predicate Lasts(name: string, n: nat)
    decreases n
  {
    n == 0 || (!NonIncreasing(name) && Lasts(NextPermutation(name).0, n - 1))
  }

  lemma {:induction false} LastsLess(name: string, n: nat)
    requires Lasts(name, n + 1)
    ensures Lasts(name, n) && !NonIncreasing(name) && Lasts(NextPermutation(name).0, n)
    decreases n
  {
    hide NonIncreasing, NextPermutation;
    if n > 0 {
      LastsLess(NextPermutation(name).0, n - 1);
    }
  }

  /** The records rs were stored in order behind what was logged before. */
  ghost predicate Logged(was: seq<Stored>, log: seq<Stored>, rs: seq<Record>) {
    && |log| == |was| + |rs| && log[..|was|] == was
    && forall i | 0 <= i < |rs| :: Record(log[|was| + i].hash, log[|was| + i].data) == rs[i]
  }

  /** What a map from hashes to bytes holds for h after the records are written to it in order. */
  ghost function Written(before: Option<seq<Byte>>, rs: seq<Record>, h: Hash): Option<seq<Byte>> {
    if rs == [] then before
    else if rs[|rs| - 1].tag == h then Some(rs[|rs| - 1].data)
    else Written(before, rs[..|rs| - 1], h)
  }

  /** Storing records one by one is writing them to the map. */
  lemma {:induction false} LoggedContents(was: seq<Stored>, log: seq<Stored>, rs: seq<Record>, h: Hash)
    requires Logged(was, log, rs)
    ensures Contents(log, h) == Written(Contents(was, h), rs, h)
    decreases |rs|
  {
    if rs == [] {
      assert log == was;
    } else {
      var n := |log| - 1;
      assert log == log[..n] + [log[n]] && log[..n][..|was|] == was;
      LoggedContents(was, log[..n], rs[..|rs| - 1], h);
      hide Contents, LastAt;
      ContentsAfter(log[..n], log[n], h);
    }
  }

  /** storeChunks: every record of a batch is stored, in order, until the database refuses one; what follows the batch
      plays no part. */
  method StoreChunks(store: StorageCore, data: seq<Byte>, inserted: nat -> bool, ghost rs: seq<Record>,
      ghost trail: seq<Byte>)
    returns (ok: bool, ghost stored: nat)
    requires store.Valid() && Lasts(store.name, |rs|) && |rs| < INT_LIMIT
    requires data == Le32(|rs|) + Pack(rs) + trail
    requires forall r | r in rs :: Sized(r) && |r.data| <= CAPACITY
    modifies store`name, store`used, store.body, store.disk`files, store.disk`index, store.disk`log
    ensures store.Valid()
    ensures stored <= |rs| && (forall i: nat | i < stored :: inserted(i))
    ensures if ok then stored == |rs| else stored < |rs| && !inserted(stored)
    ensures Logged(old(store.disk.log), store.disk.log, rs[..stored])
    ensures forall h: Hash ::
              Contents(store.disk.log, h) == Written(old(Contents(store.disk.log, h)), rs[..stored], h)
  {
    hide *;
    BatchParts(rs, data, trail);
    var chunkNumber := FromLe32(data[..4]);
    var readSize := 4;
    ghost var log := store.disk.log;
    stored := 0;
    ok := true;
    NothingLogged(log);
    for i := 0 to chunkNumber
      invariant store.Valid() && stored == i && Lasts(store.name, |rs| - i) && readSize == 4 + |Pack(rs[..i])|
      invariant forall j: nat | j < i :: inserted(j)
      invariant Logged(log, store.disk.log, rs[..i])
    {
      SizedFacts(rs[i]);
      RecordInBatch(rs, i, data, trail);
      LastsLess(store.name, |rs| - i - 1);
      ghost var before := store.disk.log;
      ok, readSize := StoreNext(store, data, readSize, inserted(i), rs[i]);
      if !ok {
        break;
      }
      LoggedMore(log, before, store.disk.log, rs, i);
      stored := i + 1;
    }
    forall h: Hash
      ensures Contents(store.disk.log, h) == Written(Contents(log, h), rs[..stored], h)
    {
      LoggedContents(log, store.disk.log, rs[..stored], h);
    }
  }

  /** The body of the loop: the fields of one record are read and the chunk is stored. */
  method StoreNext(store: StorageCore, data: seq<Byte>, at: nat, inserted: bool, ghost r: Record)
      returns (ok: bool, next: nat)
    requires store.Valid() && !NonIncreasing(store.name) && FieldsAt(data, at, r) && Sized(r) && |r.data| <= CAPACITY
    modifies store`name, store`used, store.body, store.disk`files, store.disk`index, store.disk`log
    ensures store.Valid() && (store.name == old(store.name) || store.name == NextPermutation(old(store.name)).0)
    ensures ok == inserted && next == at + HASH_SIZE + 4 + |r.data|
    ensures if ok then ExtendedBy(old(store.disk.log), store.disk.log, r) else store.disk.log == old(store.disk.log)
  {
    hide *;
    SizedFacts(r);
    FieldValues(data, at, r);
    var readSize := at;
    var hash := data[readSize..readSize + HASH_SIZE];
    readSize := readSize + HASH_SIZE;
    var size := FromLe32(data[readSize..readSize + 4]);
    readSize := readSize + 4;
    var chunk := data[readSize..readSize + size];
    ok := store.StoreChunk(hash, chunk, inserted);
    next := readSize + size;
    if ok {
      OneMore(old(store.disk.log), Key(store.name, store.used - |chunk|, |chunk|), hash, chunk, r);
    }
  }

  lemma SizedFacts(r: Record)
    requires Sized(r)
    ensures |r.tag| == HASH_SIZE && |r.data| < INT_LIMIT
  {
  }

  ghost predicate ExtendedBy(was: seq<Stored>, log: seq<Stored>, r: Record) {
    |log| == |was| + 1 && log[..|was|] == was && Record(log[|was|].hash, log[|was|].data) == r
  }

  lemma OneMore(was: seq<Stored>, key: Key, hash: Hash, data: seq<Byte>, r: Record)
    requires hash == r.tag && data == r.data
    ensures ExtendedBy(was, was + [Stored(hash, key, data)], r)
  {
  }

  lemma NothingLogged(log: seq<Stored>)
    ensures Logged(log, log, [])
  {
  }

  lemma LoggedMore(was: seq<Stored>, before: seq<Stored>, log: seq<Stored>, rs: seq<Record>, i: nat)
    requires i < |rs| && Logged(was, before, rs[..i]) && ExtendedBy(before, log, rs[i])
    ensures Logged(was, log, rs[..i + 1])
  {
  }
}
