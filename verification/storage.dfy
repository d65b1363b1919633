/**
  The container store: chunks are appended to a current container, which is saved to a file and
  replaced when it is full; an index maps each chunk's hash to its container, offset and length; reads of
  sealed containers go through a cache of one container.

  Files, the index database and the configuration file outlive the store object: they are the
  disk.  File operations succeed; inserting into the database may fail.
 */
module Storage {
  import opened Basics
  import opened Bytes
  import opened ContainerNames

  type Hash = seq<Byte>

  /** The size of a container's body, 2 << 23 bytes. */
  const CAPACITY: nat := 16777216

  datatype Key = Key(name: string, offset: nat, length: nat)

  /** A successful store: what was stored under which hash, and where. */
  datatype Stored = Stored(hash: Hash, key: Key, data: seq<Byte>)

  // ---------------------------------------------------------------------------
  // What the log of successful stores means
  // ---------------------------------------------------------------------------

  /** The position of the last store under hash h, or -1. */
  ghost function LastAt(log: seq<Stored>, h: Hash): (i: int)
    ensures -1 <= i < |log| && (i >= 0 ==> log[i].hash == h)
    ensures forall j | i < j < |log| :: log[j].hash != h
  {
    if log == [] then -1
    else if log[|log| - 1].hash == h then |log| - 1
    else LastAt(log[..|log| - 1], h)
  }

  /** The bytes last stored under h, as a plain map from hashes to bytes would have them. */
  ghost function Contents(log: seq<Stored>, h: Hash): Option<seq<Byte>> {
    if LastAt(log, h) < 0 then None else Some(log[LastAt(log, h)].data)
  }

  lemma ContentsAfter(log: seq<Stored>, e: Stored, h: Hash)
    ensures LastAt(log + [e], h) == if e.hash == h then |log| else LastAt(log, h)
    ensures Contents(log + [e], h) == if e.hash == h then Some(e.data) else Contents(log, h)
  {
    assert (log + [e])[..|log|] == log;
  }

  ghost predicate HoldsBytes(bytes: seq<Byte>, e: Stored) {
    e.key.length == |e.data| && e.key.offset + e.key.length <= |bytes|
    && bytes[e.key.offset..e.key.offset + e.key.length] == e.data
  }

  /** An entry's range lies inside its container, the current one or a file saved under an earlier name, and holds its
      bytes. */
  ghost predicate EntryOk(e: Stored, files: map<string, seq<Byte>>, name: string, current: seq<Byte>) {
    if e.key.name == name then HoldsBytes(current, e)
    else e.key.name in files && Before(e.key.name, name) && HoldsBytes(files[e.key.name], e)
  }

  ghost predicate LogOk(log: seq<Stored>, files: map<string, seq<Byte>>, name: string, current: seq<Byte>) {
    forall i | 0 <= i < |log| :: EntryOk(log[i], files, name, current)
  }

  /** Ranges in the same container do not overlap: later stores lie behind earlier ones. */
  ghost predicate Disjoint(log: seq<Stored>) {
    forall i, j | 0 <= i < j < |log| && log[i].key.name == log[j].key.name ::
      log[i].key.offset + log[i].key.length <= log[j].key.offset
  }

  ghost predicate IndexOk(index: map<Hash, Key>, log: seq<Stored>) {
    forall h: Hash :: (h in index <==> LastAt(log, h) >= 0) && (h in index ==> index[h] == log[LastAt(log, h)].key)
  }

  /** Saved containers fit in a body, and all but the current one's have earlier names. */
  ghost predicate FilesOk(files: map<string, seq<Byte>>, name: string) {
    forall n | n in files :: |files[n]| <= CAPACITY && (n == name || Before(n, name))
  }

  /** The read cache holds the saved container it names, a sealed one. */
  ghost predicate CacheOk(readName: string, readBody: seq<Byte>, files: map<string, seq<Byte>>, name: string) {
    readName != "" ==>
      readName in files && Before(readName, name) && |files[readName]| <= |readBody|
          && readBody[..|files[readName]|] == files[readName]
  }

  /** The state of a store object: its index, its saved containers, its current container and its cache. */
  ghost predicate Good(index: map<Hash, Key>, log: seq<Stored>, files: map<string, seq<Byte>>, name: string,
                       current: seq<Byte>, readName: string, readBody: seq<Byte>)
  {
    && name != "" && IsName(name)
    && |current| <= CAPACITY == |readBody|
    && IndexOk(index, log) && Disjoint(log)
    && FilesOk(files, name)
    && LogOk(log, files, name, current)
    && CacheOk(readName, readBody, files, name)
  }

  lemma SavedFiles(files: map<string, seq<Byte>>, name: string, current: seq<Byte>)
    requires FilesOk(files, name) && |current| <= CAPACITY
    ensures FilesOk(files[name := current], name)
  {
    hide Before;
  }

  lemma SavedLog(log: seq<Stored>, files: map<string, seq<Byte>>, name: string, current: seq<Byte>)
    requires LogOk(log, files, name, current)
    ensures LogOk(log, files[name := current], name, current)
  {
    hide HoldsBytes, Before;
  }

  /** The cache is of a sealed container, so saving the current one does not concern it. */
  lemma SavedCache(readName: string, readBody: seq<Byte>, files: map<string, seq<Byte>>, name: string,
      current: seq<Byte>)
    requires CacheOk(readName, readBody, files, name)
    ensures CacheOk(readName, readBody, files[name := current], name)
  {
    BeforeIrreflexive(name);
    hide Before;
  }

  lemma SavedGood(index: map<Hash, Key>, log: seq<Stored>, files: map<string, seq<Byte>>, name: string,
                  current: seq<Byte>, readName: string, readBody: seq<Byte>)
    requires Good(index, log, files, name, current, readName, readBody)
    ensures Good(index, log, files[name := current], name, current, readName, readBody)
  {
    hide IndexOk, Disjoint, FilesOk, LogOk, CacheOk;
    SavedFiles(files, name, current);
    SavedLog(log, files, name, current);
    SavedCache(readName, readBody, files, name, current);
  }

  lemma RolledLog(log: seq<Stored>, files: map<string, seq<Byte>>, name: string, next: string, current: seq<Byte>)
    requires LogOk(log, files, name, current) && name in files && files[name] == current && Before(name, next)
    ensures LogOk(log, files, next, [])
  {
    hide HoldsBytes, Before;
    forall i | 0 <= i < |log|
      ensures EntryOk(log[i], files, next, [])
    {
      assert EntryOk(log[i], files, name, current);
      LaterName(log[i].key.name, name, next);
    }
  }

  lemma LaterName(n: string, name: string, next: string)
    requires Before(name, next) && (n == name || Before(n, name))
    ensures Before(n, next) && n != next
  {
    hide DiffersAt;
    if n != name {
      BeforeTransitive(n, name, next);
    }
    BeforeIrreflexive(next);
  }

  lemma RolledFiles(files: map<string, seq<Byte>>, name: string, next: string)
    requires FilesOk(files, name) && Before(name, next)
    ensures FilesOk(files, next)
  {
    hide Before;
    forall n | n in files
      ensures Before(n, next)
    {
      LaterName(n, name, next);
    }
  }

  lemma RolledCache(readName: string, readBody: seq<Byte>, files: map<string, seq<Byte>>, name: string, next: string)
    requires CacheOk(readName, readBody, files, name) && Before(name, next)
    ensures CacheOk(readName, readBody, files, next)
  {
    hide Before;
    if readName != "" {
      LaterName(readName, name, next);
    }
  }

  /** Under the next name every container saved so far is sealed, for names only go up. */
  lemma RolledGood(index: map<Hash, Key>, log: seq<Stored>, files: map<string, seq<Byte>>, name: string, next: string,
                   current: seq<Byte>, readName: string, readBody: seq<Byte>)
    requires Good(index, log, files, name, current, readName, readBody)
    requires name in files && files[name] == current
    requires Before(name, next) && multiset(next) == multiset(name)
    ensures Good(index, log, files, next, [], readName, readBody)
  {
    hide IndexOk, Disjoint, FilesOk, LogOk, CacheOk, Before;
    RolledLog(log, files, name, next, current);
    RolledFiles(files, name, next);
    RolledCache(readName, readBody, files, name, next);
    NotEmptyName(next);
  }

  lemma RollGood(index: map<Hash, Key>, log: seq<Stored>, files: map<string, seq<Byte>>, name: string,
                 current: seq<Byte>, readName: string, readBody: seq<Byte>)
    requires Good(index, log, files, name, current, readName, readBody)
    ensures !NonIncreasing(name) ==> Good(index, log, files[name := current], NextPermutation(name).0, [], readName,
          readBody)
  {
    hide Good, NextPermutation, NonIncreasing, Before;
    NextIsLater(name);
    SavedGood(index, log, files, name, current, readName, readBody);
    if !NonIncreasing(name) {
      RolledGood(index, log, files[name := current], name, NextPermutation(name).0, current, readName, readBody);
    }
  }

  lemma NotEmptyName(name: string)
    requires IsName(name)
    ensures name != ""
  {
    assert 'a' in multiset(FIRST_NAME) by { assert FIRST_NAME[0] == 'a'; }
  }

  /** A successful store appended at the end of the current container. */
  lemma StoredGood(index: map<Hash, Key>, log: seq<Stored>, files: map<string, seq<Byte>>, name: string,
                   current: seq<Byte>, readName: string, readBody: seq<Byte>, e: Stored)
    requires Good(index, log, files, name, current, readName, readBody)
    requires e.key == Key(name, |current|, |e.data|) && |current + e.data| <= CAPACITY
    ensures Good(index[e.hash := e.key], log + [e], files, name, current + e.data, readName, readBody)
  {
    StoredIndex(index, log, e);
    StoredLog(log, files, name, current, e);
    StoredDisjoint(log, files, name, current, e);
    hide IndexOk, Disjoint, FilesOk, LogOk, CacheOk;
  }

  lemma StoredIndex(index: map<Hash, Key>, log: seq<Stored>, e: Stored)
    requires IndexOk(index, log)
    ensures IndexOk(index[e.hash := e.key], log + [e])
  {
    forall h: Hash
      ensures LastAt(log + [e], h) == if e.hash == h then |log| else LastAt(log, h)
    {
      ContentsAfter(log, e, h);
    }
    hide LastAt;
  }

  lemma StoredLog(log: seq<Stored>, files: map<string, seq<Byte>>, name: string, current: seq<Byte>, e: Stored)
    requires LogOk(log, files, name, current) && e.key == Key(name, |current|, |e.data|)
    ensures LogOk(log + [e], files, name, current + e.data)
  {
    hide Before;
    forall i | 0 <= i < |log + [e]|
      ensures EntryOk((log + [e])[i], files, name, current + e.data)
    {
      if i < |log| {
        assert EntryOk(log[i], files, name, current);
      }
    }
  }

  lemma StoredDisjoint(log: seq<Stored>, files: map<string, seq<Byte>>, name: string, current: seq<Byte>, e: Stored)
    requires LogOk(log, files, name, current) && Disjoint(log) && e.key == Key(name, |current|, |e.data|)
    ensures Disjoint(log + [e])
  {
    hide Before;
    forall i | 0 <= i < |log| && log[i].key.name == name
      ensures log[i].key.offset + log[i].key.length <= |current|
    {
      assert EntryOk(log[i], files, name, current);
    }
  }

  /** What outlives a store object; the log is not stored, it is what the proofs speak of. */
  class Disk {
    var files: map<string, seq<Byte>>
    var config: Option<(string, nat)>
    var index: map<Hash, Key>
    ghost var log: seq<Stored>

    constructor ()
      ensures files == map[] && config == None && index == map[] && log == []
    {
      files := map[];
      config := None;
      index := map[];
      log := [];
    }

    /** The name and size of the container to carry on with. */
    function Last(): (string, nat)
      reads this
    {
      if config.Some? then config.value else (FIRST_NAME, 0)
    }

    /** The bytes of that container. */
    function LastBytes(): seq<Byte>
      reads this
    {
      if Last().0 in files then files[Last().0] else []
    }

    /** The disk as a clean shutdown leaves it, or one never used. */
    ghost predicate Clean()
      reads this
    {
      && |LastBytes()| == Last().1
      && Good(index, log, files, Last().0, LastBytes(), "", seq(CAPACITY, _ => 0))
      && (config.Some? ==> Last().0 in files)
    }
  }

  lemma EmptyCache(index: map<Hash, Key>, log: seq<Stored>, files: map<string, seq<Byte>>, name: string,
                   current: seq<Byte>, readName: string, readBody: seq<Byte>, any: seq<Byte>)
    requires Good(index, log, files, name, current, readName, readBody) && |any| == CAPACITY
    ensures Good(index, log, files, name, current, "", any)
  {
    hide IndexOk, Disjoint, FilesOk, LogOk;
  }

  /** A disk never used. */
  lemma NewDiskClean(d: Disk)
    requires d.files == map[] && d.config == None && d.index == map[] && d.log == []
    ensures d.Clean()
  {
    assert |FIRST_NAME| == 15;
  }

  class StorageCore {
    const disk: Disk
    const maxContainerSize: nat
    const body: array<Byte>
    const readBody: array<Byte>
    var name: string
    var used: nat
    var readName: string

    ghost predicate Valid()
      reads this, disk, body, readBody
    {
      && body.Length == readBody.Length == CAPACITY && body != readBody
      && maxContainerSize <= CAPACITY && used <= CAPACITY
      && Good(disk.index, disk.log, disk.files, name, body[..used], readName, readBody[..])
    }

    /** StorageCore(): carry on from a clean shutdown, or start with the first name. */
    constructor (d: Disk, max: nat)
      requires d.Clean() && max <= CAPACITY
      ensures Valid() && disk == d && fresh(body) && fresh(readBody)
      ensures name == d.Last().0 && used == d.Last().1
    {
      hide Good;
      disk := d;
      maxContainerSize := max;
      var bytes := new Byte[CAPACITY](_ => 0);
      var readBytes := new Byte[CAPACITY](_ => 0);
      body := bytes;
      readBody := readBytes;
      readName := "";
      name := d.Last().0;
      used := d.Last().1;
      new;
      assert used <= CAPACITY by { GoodSizes(d.index, d.log, d.files, name, d.LastBytes(), "", seq(CAPACITY, _ => 0)); }
      if d.config.Some? {
        Read(body, d.files[name]);
      }
      assert body[..used] == d.LastBytes();
      EmptyCache(d.index, d.log, d.files, name, d.LastBytes(), "", seq(CAPACITY, _ => 0), readBody[..]);
    }

    /** Reading a whole file into the front of a body. */
    static method Read(to: array<Byte>, from: seq<Byte>)
      requires |from| <= to.Length
      modifies to
      ensures to[..|from|] == from
      ensures to[|from|..] == old(to[|from|..])
    {
      forall i | 0 <= i < |from| {
        to[i] := from[i];
      }
    }

    /** ~StorageCore(): write the configuration and save the current container. */
    method Close()
      requires Valid()
      modifies disk`files, disk`config
      ensures disk.Clean()
      ensures disk.config == Some((name, used)) && disk.files == old(disk.files)[name := body[..used]]
    {
      hide Good;
      EmptyCache(disk.index, disk.log, disk.files, name, body[..used], readName, readBody[..], seq(CAPACITY, _ => 0));
      SavedGood(disk.index, disk.log, disk.files, name, body[..used], "", seq(CAPACITY, _ => 0));
      disk.config := Some((name, used));
      SaveToFile();
    }

    /** saveTOFile on the current container: the file gets exactly the used bytes. */
    method SaveToFile()
      requires used <= body.Length
      modifies disk`files
      ensures disk.files == old(disk.files)[name := body[..used]]
    {
      disk.files := disk.files[name := body[..used]];
    }

    /** The chunk does not fit in the current container; the sum is 32-bit. */
    predicate Full(size: nat)
      reads this
    {
      !(Wrap32(size + used) < maxContainerSize)
    }

    /** memcpy of the chunk to the end of the used part. */
    method CopyIn(data: seq<Byte>)
      requires used + |data| <= body.Length
      modifies body
      ensures body[..used + |data|] == old(body[..used]) + data
    {
      forall i | 0 <= i < |data| {
        body[used + i] := data[i];
      }
    }

    /** Sealing the current container: save it, go on to the next name, start at the front of the body. */
    method Roll()
      requires Valid()
      modifies this`name, this`used, disk`files
      ensures name == NextPermutation(old(name)).0 && used == 0
      ensures disk.files == old(disk.files)[old(name) := old(body[..used])]
      ensures !NonIncreasing(old(name)) ==> Valid()
    {
      hide Good, NextPermutation, NonIncreasing;
      RollGood(disk.index, disk.log, disk.files, name, body[..used], readName, readBody[..]);
      SaveToFile();
      name := NextPermutation(name).0;
      used := 0;
      assert body[..used] == [];
    }

    /** writeContainer: append to the current container, or seal it and start the next one.  The used size
        moves on only when the store is complete.  Nothing is promised after the names have run out. */
    method WriteContainer(data: seq<Byte>) returns (key: Key)
      requires Valid() && |data| <= CAPACITY
      modifies this`name, this`used, body, disk`files
      ensures used + |data| <= body.Length && key == Key(name, used, |data|) && body[used..used + |data|] == data
      ensures if old(used) + |data| < maxContainerSize then
                name == old(name) && used == old(used) && disk.files == old(disk.files)
              else
                && name == NextPermutation(old(name)).0 && used == 0
                && disk.files == old(disk.files)[old(name) := old(body[..used])]
      ensures old(used) + |data| < maxContainerSize || !NonIncreasing(old(name)) ==> Valid()
    {
      hide Good, NextPermutation, NonIncreasing, Full;
      GoodSizes(disk.index, disk.log, disk.files, name, body[..used], readName, readBody[..]);
      FitsBody(|data|);
      if Full(|data|) {
        Roll();
      }
      ghost var was := body[..used];
      CopyIn(data);
      assert body[..used] == was;
      key := Key(name, used, |data|);
    }

    lemma FitsBody(size: nat)
      requires size <= CAPACITY && used <= CAPACITY && maxContainerSize <= CAPACITY
      ensures Full(size) <==> used + size >= maxContainerSize
      ensures !Full(size) ==> used + size <= CAPACITY
    {
    }

    /** storeChunk.  When the database refuses the entry, the bytes written are overwritten by the next store. */
    method StoreChunk(hash: Hash, data: seq<Byte>, inserted: bool) returns (ok: bool)
      requires Valid() && |data| <= CAPACITY
      modifies this`name, this`used, body, disk`files, disk`index, disk`log
      ensures ok == inserted && (ok ==> |data| <= used)
      ensures if old(used) + |data| < maxContainerSize then
                name == old(name) && used == old(used) + (if ok then |data| else 0) && disk.files == old(disk.files)
              else
                && name == NextPermutation(old(name)).0 && used == (if ok then |data| else 0)
                && disk.files == old(disk.files)[old(name) := old(body[..used])]
      ensures old(used) + |data| < maxContainerSize || !NonIncreasing(old(name)) ==> Valid()
      ensures disk.log == if ok then old(disk.log) + [Stored(hash, Key(name, used - |data|, |data|), data)]
            else old(disk.log)
      ensures forall h: Hash :: Contents(disk.log, h) == if ok && h == hash
            then Some(data) else old(Contents(disk.log, h))
    {
      hide Good, NextPermutation, NonIncreasing, Contents, Full, LastAt;
      var key := WriteContainer(data);
      if !inserted {
        return false;
      }
      ghost var e := Stored(hash, key, data);
      forall h: Hash
        ensures Contents(disk.log + [e], h) == if h == hash then Some(data) else Contents(disk.log, h)
      {
        ContentsAfter(disk.log, e, h);
      }
      assert body[..used + |data|] == body[..used] + data;
      if old(used) + |data| < maxContainerSize || !NonIncreasing(old(name)) {
        StoredGood(disk.index, disk.log, disk.files, name, body[..used], readName, readBody[..], e);
      }
      disk.index := disk.index[hash := key];
      disk.log := disk.log + [e];
      used := used + key.length;
      ok := true;
    }

    /** restoreChunk: the bytes last stored under the hash, through every rollover, restart and cached read. */
    method RestoreChunk(hash: Hash) returns (data: Option<seq<Byte>>)
      requires Valid()
      modifies this`readName, readBody
      ensures Valid()
      ensures data == Contents(disk.log, hash)
    {
      hide Good, LastAt, HoldsBytes, Before;
      IndexFacts(disk.index, disk.log, disk.files, name, body[..used], readName, readBody[..], hash);
      if hash !in disk.index {
        return None;
      }
      var key := disk.index[hash];
      ghost var e := disk.log[LastAt(disk.log, hash)];
      var bytes := ReadContainer(key, e);
      data := Some(bytes);
    }

    /** readContainer, for the key of a logged entry: from the current body, from the cache, or from the file. */
    method ReadContainer(key: Key, ghost e: Stored) returns (data: seq<Byte>)
      requires Valid() && e in disk.log && key == e.key
      modifies this`readName, readBody
      ensures Valid()
      ensures data == e.data
    {
      hide Good, Before;
      EntryFacts(disk.index, disk.log, disk.files, name, body[..used], readName, readBody[..], e);
      GoodSizes(disk.index, disk.log, disk.files, name, body[..used], readName, readBody[..]);
      if key.name == name {
        SliceOfPrefix(body[..], used, key.offset, key.offset + key.length);
        assert body[..][..used] == body[..used];
        data := body[..][key.offset..key.offset + key.length];
      } else if readName == key.name {
        CacheFacts(disk.index, disk.log, disk.files, name, body[..used], readName, readBody[..]);
        SliceOfPrefix(readBody[..], |disk.files[key.name]|, key.offset, key.offset + key.length);
        data := readBody[..][key.offset..key.offset + key.length];
      } else {
        var file := disk.files[key.name];
        ghost var before := readBody[..];
        Read(readBody, file);
        assert readBody[..][..|file|] == file;
        SliceOfPrefix(readBody[..], |file|, key.offset, key.offset + key.length);
        data := readBody[..][key.offset..key.offset + key.length];
        CachedGood(disk.index, disk.log, disk.files, name, body[..used], readName, before, key.name, readBody[..]);
        readName := key.name;
      }
    }
  }

  /** The next name is that of a container with chunks in it only once the names have run out; those chunks are then
      looked for in the new, empty container, and are lost. */
  lemma RunOutLosesStores(index: map<Hash, Key>, log: seq<Stored>, files: map<string, seq<Byte>>, name: string,
                          current: seq<Byte>, readName: string, readBody: seq<Byte>, e: Stored)
    requires Good(index, log, files, name, current, readName, readBody)
    requires e in log && e.data != [] && e.key.name == NextPermutation(name).0
    ensures NonIncreasing(name) && !EntryOk(e, files[name := current], NextPermutation(name).0, [])
  {
    NextIsLater(name);
    EntryFacts(index, log, files, name, current, readName, readBody, e);
    hide Good, NextPermutation, NonIncreasing, DiffersAt;
    if !NonIncreasing(name) {
      BeforeIrreflexive(name);
      if e.key.name != name {
        BeforeTransitive(name, e.key.name, name);
      }
    }
  }

  lemma IndexFacts(index: map<Hash, Key>, log: seq<Stored>, files: map<string, seq<Byte>>, name: string,
                   current: seq<Byte>, readName: string, readBody: seq<Byte>, h: Hash)
    requires Good(index, log, files, name, current, readName, readBody)
    ensures h in index <==> LastAt(log, h) >= 0
    ensures h in index ==> index[h] == log[LastAt(log, h)].key
  {
  }

  lemma EntryFacts(index: map<Hash, Key>, log: seq<Stored>, files: map<string, seq<Byte>>, name: string,
                   current: seq<Byte>, readName: string, readBody: seq<Byte>, e: Stored)
    requires Good(index, log, files, name, current, readName, readBody) && e in log
    ensures EntryOk(e, files, name, current)
    ensures e.key.name != ""
  {
    assert EntryOk(e, files, name, current);
    if e.key.name != name {
      assert |e.key.name| == |name|;
    }
  }

  lemma CacheFacts(index: map<Hash, Key>, log: seq<Stored>, files: map<string, seq<Byte>>, name: string,
                   current: seq<Byte>, readName: string, readBody: seq<Byte>)
    requires Good(index, log, files, name, current, readName, readBody)
    ensures CacheOk(readName, readBody, files, name)
  {
  }

  /** The cache after a sealed container was read into it. */
  lemma CachedGood(index: map<Hash, Key>, log: seq<Stored>, files: map<string, seq<Byte>>, name: string,
      current: seq<Byte>,
                   readName: string, readBody: seq<Byte>, readName': string, readBody': seq<Byte>)
    requires Good(index, log, files, name, current, readName, readBody)
    requires readName' in files && Before(readName', name) && |readBody'| == CAPACITY
    requires |files[readName']| <= |readBody'| && readBody'[..|files[readName']|] == files[readName']
    ensures Good(index, log, files, name, current, readName', readBody')
  {
    hide IndexOk, Disjoint, FilesOk, LogOk, Before;
  }

  lemma GoodSizes(index: map<Hash, Key>, log: seq<Stored>, files: map<string, seq<Byte>>, name: string,
                  current: seq<Byte>, readName: string, readBody: seq<Byte>)
    requires Good(index, log, files, name, current, readName, readBody)
    ensures |current| <= CAPACITY == |readBody|
    ensures forall n | n in files :: |files[n]| <= CAPACITY
  {
  }
}
