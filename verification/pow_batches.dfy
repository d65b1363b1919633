/**
  Batches for the proof of ownership: the client packs the bytes of each chunk behind their length;
  the enclave takes the batch apart, hashes each chunk, and signs the list of hashes.

  Hash and MAC are any functions with results of the right size.
 */
module PowBatches {
  import opened Basics
  import opened Bytes

  /** sgx_sha256_msg and the sgx_cmac128 functions, the latter of all bytes they were updated with. */
  datatype Enclave = Enclave(sha256: seq<Byte> -> seq<Byte>, cmac: (seq<Byte>, seq<Byte>) -> seq<Byte>,
      sessionKey: seq<Byte>)

  ghost predicate Sound(e: Enclave) {
    (forall m :: |e.sha256(m)| == HASH_SIZE) && (forall k, m :: |e.cmac(k, m)| == 16)
  }

  function Frame(c: seq<Byte>): (s: seq<Byte>)
    ensures |s| == 4 + |c|
  {
    Le32(|c|) + c
  }

  /** Chunks one after the other, each behind its length. */
  function Frames(cs: seq<seq<Byte>>): seq<Byte> {
    if cs == [] then [] else Frame(cs[0]) + Frames(cs[1..])
  }

  /** The lengths fit a uint32_t. */
  predicate Sizes(cs: seq<seq<Byte>>) {
    forall i | 0 <= i < |cs| :: |cs[i]| < WORD32
  }

  /** The chunks a batch consists of, if it does. */
  function Split(s: seq<Byte>): Option<seq<seq<Byte>>>
    decreases |s|
  {
    if s == [] then Some([])
    else if |s| < 4 || |s| - 4 < FromLe32(s[..4]) then None
    else
      var n := FromLe32(s[..4]);
      var rest := Split(s[4 + n..]);
      if rest.None? then None else Some([s[4..4 + n]] + rest.value)
  }

  lemma FrameFirst(c: seq<Byte>, rest: seq<Byte>)
    requires |c| < WORD32
    ensures var s := Frame(c) + rest;
      FromLe32(s[..4]) == |c| && s[4..4 + |c|] == c && s[4 + |c|..] == rest
  {
    Le32RoundTrip(|c|);
    var s := Frame(c) + rest;
    assert s[..4] == Le32(|c|);
  }

  /** Taking apart what starts with whole frames. */
  lemma {:induction false} SplitBehind(cs: seq<seq<Byte>>, rest: seq<Byte>)
    requires Sizes(cs)
    ensures Split(Frames(cs) + rest) == match Split(rest) case None => None case Some(ds) => Some(cs + ds)
    decreases |cs|
  {
    hide Frame, Split;
    if cs == [] {
      assert Frames(cs) + rest == rest;
      assert Split(rest).Some? ==> cs + Split(rest).value == Split(rest).value;
    } else {
      var behind := Frames(cs[1..]) + rest;
      assert Frames(cs) + rest == Frame(cs[0]) + behind;
      hide Frames;
      SplitFirst(cs[0], behind);
      SplitBehind(cs[1..], rest);
      assert Split(rest).Some? ==> [cs[0]] + (cs[1..] + Split(rest).value) == cs + Split(rest).value;
    }
  }

  lemma SplitFirst(c: seq<Byte>, rest: seq<Byte>)
    requires |c| < WORD32
    ensures Split(Frame(c) + rest) == match Split(rest) case None => None case Some(ds) => Some([c] + ds)
  {
    FrameFirst(c, rest);
    hide FromLe32;
  }

  /** Every batch packed from chunks is taken apart into these chunks. */
  lemma SplitFrames(cs: seq<seq<Byte>>)
    requires Sizes(cs)
    ensures Split(Frames(cs)) == Some(cs)
  {
    SplitBehind(cs, []);
    assert Frames(cs) + [] == Frames(cs) && cs + [] == cs;
  }

  /** Whatever is taken apart was packed from the chunks found. */
  lemma {:induction false} FramesOfSplit(s: seq<Byte>)
    requires Split(s).Some?
    ensures Frames(Split(s).value) == s && Sizes(Split(s).value)
    decreases |s|
  {
    hide *;
    if s == [] {
      NothingSplit();
    } else {
      SplitParts(s);
      var n := FromLe32(s[..4]);
      var c, rest := s[4..4 + n], s[4 + n..];
      FramesOfSplit(rest);
      FramesCons(c, Split(rest).value);
      Le32OfFrom(s[..4]);
      FrameText(c);
      assert s == s[..4] + c + rest;
    }
  }

  lemma NothingSplit()
    ensures Split([]) == Some([]) && Frames([]) == [] && Sizes([])
  {
  }

  lemma SplitParts(s: seq<Byte>)
    requires s != [] && Split(s).Some?
    ensures 4 <= |s| && FromLe32(s[..4]) <= |s| - 4
    ensures var n := FromLe32(s[..4]);
      Split(s[4 + n..]).Some? && Split(s).value == [s[4..4 + n]] + Split(s[4 + n..]).value
    ensures FromLe32(s[..4]) < WORD32
  {
    hide FromLe32;
  }

  lemma FramesCons(c: seq<Byte>, cs: seq<seq<Byte>>)
    ensures Frames([c] + cs) == Frame(c) + Frames(cs)
    ensures |c| < WORD32 && Sizes(cs) ==> Sizes([c] + cs)
  {
    assert ([c] + cs)[1..] == cs;
  }

  lemma Le32OfFrom(s: seq<Byte>)
    requires |s| == 4
    ensures Le32(FromLe32(s)) == s
  {
    var x := FromLe32(s);
    var y: nat := s[1] as int + 0x100 * (s[2] as int) + 0x1_0000 * (s[3] as int);
    var z: nat := s[2] as int + 0x100 * (s[3] as int);
    assert x == 0x100 * y + s[0] as int && y == 0x100 * z + s[1] as int;
    assert x / 0x100 == y && x / 0x1_0000 == y / 0x100 == z && x / 0x100_0000 == z / 0x100 == s[3] as int;
  }

  /** The hashes of the chunks, in order. */
  function HashList(e: Enclave, cs: seq<seq<Byte>>): seq<Byte> {
    if cs == [] then [] else HashList(e, cs[..|cs| - 1]) + e.sha256(cs[|cs| - 1])
  }

  lemma {:induction false} HashAt(e: Enclave, cs: seq<seq<Byte>>, i: nat)
    requires Sound(e) && i < |cs|
    ensures |HashList(e, cs)| == HASH_SIZE * |cs|
    ensures HashList(e, cs)[HASH_SIZE * i..HASH_SIZE * (i + 1)] == e.sha256(cs[i])
    decreases |cs|
  {
    var n := |cs| - 1;
    if n > 0 {
      HashAt(e, cs[..n], if i < n then i else 0);
    }
  }

  // ---------------------------------------------------------------------------
  // The enclave
  // ---------------------------------------------------------------------------

  const WORD64: int := 0x1_0000_0000_0000_0000

  /** The test for room for a length: srcLen - sizeof(int) is 64-bit. */
  predicate NoRoom(srcLen: nat, it: nat) {
    (srcLen - 4) % WORD64 < it
  }

  /** The test finds the missing room behind every offset exactly for batches of four bytes or more. */
  lemma RoomExactly(srcLen: nat)
    requires 0 < srcLen < WORD32
    ensures (forall it: nat | it < srcLen :: NoRoom(srcLen, it) <==> srcLen < it + 4) <==> 4 <= srcLen
  {
    if srcLen < 4 {
      ModUnique(srcLen - 4, WORD64, -1, srcLen - 4 + WORD64);
      assert !NoRoom(srcLen, 0);
    } else {
      ModUnique(srcLen - 4, WORD64, 0, srcLen - 4);
    }
  }

  datatype Signed = Accepted(hashes: seq<Byte>, cmac: seq<Byte>) | Rejected(cmac: seq<Byte>)

  function Zeros(n: nat): (s: seq<Byte>)
    ensures |s| == n && forall i | 0 <= i < n :: s[i] == 0
  {
    seq<Byte>(n, _ => 0)
  }

  /** ecall_calcmac, in 32-bit arithmetic: exactly the batches packed from chunks are accepted, and the hashes are those
      of the chunks in order. */
  method CalcMac(e: Enclave, src: seq<Byte>) returns (r: Signed)
    requires |src| < WORD32 && (|src| == 0 || 4 <= |src|)
    ensures r == match Split(src)
                 case None => Rejected(Zeros(16))
                 case Some(cs) => Accepted(HashList(e, cs), e.cmac(e.sessionKey, HashList(e, cs)))
  {
    var srcLen := |src|;
    var it: nat := 0;
    var updated: seq<Byte>, hashes: seq<Byte> := [], [];
    ghost var cs: seq<seq<Byte>> := [];
    Nothing(e);
    hide *;
    while it < srcLen
      invariant it <= srcLen && Sizes(cs) && src[..it] == Frames(cs)
      invariant updated == hashes == HashList(e, cs)
      decreases srcLen - it
    {
      RoomIs(srcLen, it);
      NextFrame(src, it, cs);
      if NoRoom(srcLen, it) {
        return Rejected(Zeros(16));
      }
      var sz := FromLe32(src[it..it + 4]);
      Fits(srcLen, it + 4);
      it := Wrap32(it + 4);
      if Wrap32(srcLen - it) < sz {
        return Rejected(Zeros(16));
      }
      var hash := e.sha256(src[it..it + sz]);
      updated := updated + hash;
      hashes := hashes + hash;
      OneHashMore(e, cs, src[it..it + sz]);
      cs := cs + [src[it..it + sz]];
      Fits(srcLen, it + sz);
      it := Wrap32(it + sz);
    }
    assert src[..it] == src;
    SplitFrames(cs);
    r := Accepted(hashes, e.cmac(e.sessionKey, updated));
  }

  lemma Nothing(e: Enclave)
    ensures Sizes([]) && Frames([]) == [] && HashList(e, []) == []
  {
  }

  lemma RoomIs(srcLen: nat, it: nat)
    requires 4 <= srcLen < WORD32
    ensures NoRoom(srcLen, it) <==> srcLen < it + 4
  {
    ModUnique(srcLen - 4, WORD64, 0, srcLen - 4);
  }

  lemma Fits(srcLen: nat, x: nat)
    requires srcLen < WORD32
    ensures x <= srcLen ==> Wrap32(x) == x && Wrap32(srcLen - x) == srcLen - x
  {
  }

  lemma OneHashMore(e: Enclave, cs: seq<seq<Byte>>, c: seq<Byte>)
    ensures HashList(e, cs + [c]) == HashList(e, cs) + e.sha256(c)
  {
    assert (cs + [c])[..|cs|] == cs;
  }

  /** What stands behind whole frames decides: no frame, and the batch cannot be taken apart; or one frame more. */
  lemma NextFrame(src: seq<Byte>, it: nat, cs: seq<seq<Byte>>)
    requires it < |src| && Sizes(cs) && src[..it] == Frames(cs)
    ensures |src| < it + 4 ==> Split(src) == None
    ensures it + 4 <= |src| ==> var sz := FromLe32(src[it..it + 4]);
      && (|src| - it - 4 < sz ==> Split(src) == None)
      && (sz <= |src| - it - 4 ==> var c := src[it + 4..it + 4 + sz];
            Sizes(cs + [c]) && src[..it + 4 + sz] == Frames(cs + [c]))
  {
    hide *;
    var rest := src[it..];
    assert src == src[..it] + rest;
    SplitBehind(cs, rest);
    SplitFails(rest);
    if it + 4 <= |src| {
      assert rest[..4] == src[it..it + 4];
      var sz := FromLe32(src[it..it + 4]);
      if sz <= |src| - it - 4 {
        var c := src[it + 4..it + 4 + sz];
        Le32OfFrom(src[it..it + 4]);
        FramesMore(cs, c);
        FrameText(c);
        SizesMore(cs, c, src[it..it + 4]);
        assert src[..it + 4 + sz] == src[..it] + (src[it..it + 4] + c);
      }
    }
  }

  lemma SplitFails(s: seq<Byte>)
    requires s != []
    ensures |s| < 4 || |s| - 4 < FromLe32(s[..4]) ==> Split(s) == None
  {
    hide FromLe32;
  }

  lemma SizesMore(cs: seq<seq<Byte>>, c: seq<Byte>, length: seq<Byte>)
    requires Sizes(cs) && |length| == 4 && |c| == FromLe32(length)
    ensures Sizes(cs + [c])
  {
    hide FromLe32;
  }

  lemma {:induction false} FramesMore(cs: seq<seq<Byte>>, c: seq<Byte>)
    ensures Frames(cs + [c]) == Frames(cs) + Frame(c)
    decreases |cs|
  {
    hide Frame;
    if cs == [] {
      assert cs + [c] == [c] && [c][1..] == [];
    } else {
      FramesMore(cs[1..], c);
      assert (cs + [c])[1..] == cs[1..] + [c];
      assert Frame(cs[0]) + (Frames(cs[1..]) + Frame(c)) == (Frame(cs[0]) + Frames(cs[1..])) + Frame(c);
    }
  }

  /** Accepted are exactly the batches that are some chunks one after the other, each behind its length. */
  lemma AcceptsExactly(s: seq<Byte>)
    ensures Split(s).Some? <==> exists cs :: Sizes(cs) && Frames(cs) == s
    ensures forall cs, ds | Sizes(cs) && Sizes(ds) && Frames(cs) == Frames(ds) :: cs == ds
  {
    if Split(s).Some? {
      FramesOfSplit(s);
    }
    forall cs | Sizes(cs)
      ensures Split(Frames(cs)) == Some(cs)
    {
      SplitFrames(cs);
    }
    hide Split, Frames, Sizes;
    forall cs, ds | Sizes(cs) && Sizes(ds) && Frames(cs) == Frames(ds)
      ensures cs == ds
    {
      assert Split(Frames(cs)) == Some(cs) && Split(Frames(ds)) == Some(ds);
    }
  }

  // ---------------------------------------------------------------------------
  // The client
  // ---------------------------------------------------------------------------

  class PowBatch {
    const limit: nat
    const maxChunkSize: nat
    const buffer: array<Byte>
    var size: nat
    var number: nat
    var hashes: seq<seq<Byte>>
    ghost var chunks: seq<seq<Byte>>

    ghost predicate Valid()
      reads this, buffer
    {
      && buffer.Length == limit * (4 + maxChunkSize) && buffer.Length < WORD32
      && number == |chunks| <= limit && Sizes(chunks)
      && size <= number * (4 + maxChunkSize) && size <= buffer.Length && buffer[..size] == Frames(chunks)
    }

    constructor (powBatchSize: nat, max: nat)
      requires powBatchSize * (4 + max) < WORD32
      ensures Valid() && fresh(buffer) && chunks == [] && limit == powBatchSize && maxChunkSize == max
    {
      limit := powBatchSize;
      maxChunkSize := max;
      buffer := new Byte[powBatchSize * (4 + max)](_ => 0);
      size := 0;
      number := 0;
      hashes := [];
      chunks := [];
    }

    /** The part of run that packs one chunk. */
    method Add(c: seq<Byte>)
      requires Valid() && number < limit && |c| <= maxChunkSize && |c| < WORD32
      modifies this, buffer
      ensures Valid() && chunks == old(chunks) + [c]
    {
      hide Frames, Frame, Le32;
      NextFits(number, limit, 4 + maxChunkSize);
      FramesMore(chunks, c);
      FrameText(c);
      Append(Le32(|c|));
      Append(c);
      number := number + 1;
      chunks := chunks + [c];
    }

    method Append(bytes: seq<Byte>)
      requires size + |bytes| <= buffer.Length
      modifies this`size, buffer
      ensures size == old(size) + |bytes| && buffer[..size] == old(buffer[..size]) + bytes
    {
      forall i | 0 <= i < |bytes| {
        buffer[size + i] := bytes[i];
      }
      size := size + |bytes|;
    }

    /** The request of a batch: the enclave accepts it, and every chunk gets its own hash. */
    method Request(e: Enclave) returns (cmac: seq<Byte>)
      requires Valid() && Sound(e)
      modifies this`hashes
      ensures Valid() && |hashes| == |chunks| && forall i | 0 <= i < |chunks| :: hashes[i] == e.sha256(chunks[i])
      ensures cmac == e.cmac(e.sessionKey, HashList(e, chunks))
    {
      SplitFrames(chunks);
      FramesLength(chunks);
      var r := CalcMac(e, buffer[..size]);
      cmac := r.cmac;
      hashes := [];
      hide Split, Frames, Sound, HashList;
      for i := 0 to number
        invariant |hashes| == i && forall j | 0 <= j < i :: hashes[j] == e.sha256(chunks[j])
      {
        HashAt(e, chunks, i);
        hashes := hashes + [r.hashes[HASH_SIZE * i..HASH_SIZE * (i + 1)]];
      }
    }
  }

  /** The client's batches are empty or have room for a length. */
  lemma FramesLength(cs: seq<seq<Byte>>)
    ensures Frames(cs) == [] || 4 <= |Frames(cs)|
  {
  }

  lemma FrameText(c: seq<Byte>)
    ensures Frame(c) == Le32(|c|) + c
  {
  }

  lemma NextFits(n: nat, limit: nat, width: nat)
    requires n < limit
    ensures (n + 1) * width == n * width + width && (n + 1) * width <= limit * width
  {
    MulMono(n + 1, limit, width);
  }
}
