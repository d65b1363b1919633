/**
  Which chunks of a batch the server finds missing, and which of them the client marks for upload.

  The server answers with a flag for each chunk and with the number of chunks it misses.  It sets the flags of missing
  chunks and leaves the others as the memory was.  The client looks at as many flags, from the first on, as chunks are
  missing.
 */
module Dedup {
  import opened Basics
  import opened Bytes
  import opened Pipeline
  import opened Marks

  type Hash = seq<Byte>

  predicate Missing(known: set<Hash>, hashes: seq<Hash>, i: nat) {
    i < |hashes| && hashes[i] !in known
  }

  /** How many of the first n chunks are missing. */
  function MissingCount(known: set<Hash>, hashes: seq<Hash>, n: nat): (c: nat)
    ensures c <= n
  {
    if n == 0 then 0 else MissingCount(known, hashes, n - 1) + if Missing(known, hashes, n - 1) then 1 else 0
  }

  /** dedupByHash. */
  method DedupByHash(known: set<Hash>, hashes: seq<Hash>, out: array<bool>) returns (required: nat)
    requires out.Length == |hashes|
    modifies out
    ensures forall i: nat | i < |hashes| :: out[i] == (Missing(known, hashes, i) || old(out[i]))
    ensures required == MissingCount(known, hashes, |hashes|)
  {
    required := 0;
    for i := 0 to |hashes|
      invariant forall j: nat | j < i :: out[j] == (Missing(known, hashes, j) || old(out[j]))
      invariant forall j: nat | i <= j < |hashes| :: out[j] == old(out[j])
      invariant required == MissingCount(known, hashes, i)
    {
      if hashes[i] !in known {
        out[i] := true;
        required := required + 1;
      }
    }
  }

  /** The marking loop of the client, over a batch of chunks. */
  method MarkBatch(batch: seq<Item>, flags: seq<bool>, needed: nat) returns (marked: seq<Item>)
    requires needed <= |flags| == |batch| && forall k | 0 <= k < |batch| :: batch[k].Chunk?
    ensures marked == Mark(batch, flags[..needed])
  {
    marked := batch;
    for i := 0 to needed
      invariant |marked| == |batch|
      invariant forall k | 0 <= k < |batch| ::
          marked[k] == if k < i && flags[k] then Chunk(batch[k].id, true) else batch[k]
    {
      if flags[i] {
        marked := marked[i := marked[i].(upload := true)];
      }
    }
    forall k | 0 <= k < |batch|
      ensures marked[k] == Mark(batch, flags[..needed])[k]
    {
      MarkAt(batch, flags[..needed], k);
    }
  }

  /** The missing chunks come before all others. */
  ghost predicate MissingFirst(known: set<Hash>, hashes: seq<Hash>) {
    forall i: nat, j: nat | i < j && Missing(known, hashes, j) :: Missing(known, hashes, i)
  }

  /** What the client marks are just the missing chunks of the batch. */
  ghost predicate MarksMissing(known: set<Hash>, hashes: seq<Hash>, marked: seq<Item>)
    requires |marked| == |hashes|
  {
    forall i: nat | i < |hashes| :: (marked[i].Chunk? && marked[i].upload) <==> Missing(known, hashes, i)
  }

  lemma {:induction false} CountFirst(known: set<Hash>, hashes: seq<Hash>, n: nat)
    requires MissingFirst(known, hashes)
    ensures forall i: nat | i < n :: Missing(known, hashes, i) <==> i < MissingCount(known, hashes, n)
    decreases n
  {
    if n > 0 {
      CountFirst(known, hashes, n - 1);
      if Missing(known, hashes, n - 1) && n > 1 {
        assert Missing(known, hashes, n - 2);
      }
    }
  }

  lemma {:induction false} SomeNotMissing(known: set<Hash>, hashes: seq<Hash>, n: nat, i: nat)
    requires i < n && !Missing(known, hashes, i)
    ensures MissingCount(known, hashes, n) < n
    decreases n
  {
    if i < n - 1 {
      SomeNotMissing(known, hashes, n - 1, i);
    }
  }

  /** As many of the first n as are missing: then all of these are, or some missing one comes later. */
  lemma CountedFirst(known: set<Hash>, hashes: seq<Hash>, n: nat)
    requires n == MissingCount(known, hashes, |hashes|)
    requires forall i: nat | Missing(known, hashes, i) :: i < n
    ensures MissingFirst(known, hashes)
  {
    CountAll(known, hashes, n, |hashes|);
    forall i: nat, j: nat | i < j && Missing(known, hashes, j)
      ensures Missing(known, hashes, i)
    {
      if !Missing(known, hashes, i) {
        SomeNotMissing(known, hashes, n, i);
      }
    }
  }

  lemma {:induction false} CountAll(known: set<Hash>, hashes: seq<Hash>, n: nat, m: nat)
    requires n <= m && forall i: nat | Missing(known, hashes, i) :: i < n
    ensures MissingCount(known, hashes, m) == MissingCount(known, hashes, n)
    decreases m
  {
    if n < m {
      CountAll(known, hashes, n, m - 1);
    }
  }

  /** What the client marks, for given contents of the server's memory. */
  function Marked(known: set<Hash>, hashes: seq<Hash>, batch: seq<Item>, flags: seq<bool>): (r: seq<Item>)
    requires |flags| == |hashes| == |batch|
    ensures |r| == |batch|
  {
    Mark(batch, flags[..MissingCount(known, hashes, |hashes|)])
  }

  /** The flags the server sends: set for missing chunks, as the memory was for the others. */
  predicate FlagsSent(known: set<Hash>, hashes: seq<Hash>, flags: seq<bool>) {
    |flags| == |hashes| && forall i: nat | i < |hashes| && Missing(known, hashes, i) :: flags[i]
  }

  /** The client marks just the missing chunks, whatever the server's memory held, exactly if these come before all
      others in the batch. */
  lemma MarksMissingExactly(known: set<Hash>, hashes: seq<Hash>, batch: seq<Item>, flags: seq<bool>)
    requires FlagsSent(known, hashes, flags) && |batch| == |hashes|
    requires forall k | 0 <= k < |batch| :: batch[k].Chunk? && !batch[k].upload
    ensures MarksMissing(known, hashes, Marked(known, hashes, batch, flags)) <==> MissingFirst(known, hashes)
  {
    var n := MissingCount(known, hashes, |hashes|);
    var marked := Marked(known, hashes, batch, flags);
    forall k: nat | k < |batch|
      ensures marked[k].Chunk? && (marked[k].upload <==> k < n && flags[k])
    {
      MarkAt(batch, flags[..n], k);
    }
    hide Marked;
    if MissingFirst(known, hashes) {
      CountFirst(known, hashes, |hashes|);
    }
    if MarksMissing(known, hashes, marked) {
      forall i: nat | Missing(known, hashes, i)
        ensures i < n
      {
        assert marked[i].upload;
      }
      CountedFirst(known, hashes, n);
    }
  }

  /** A batch whose first chunk is known and whose second is missing: the missing one is not sent. */
  lemma MissingNotMarked(a: Hash, b: Hash, flags: seq<bool>)
    requires a != b && FlagsSent({a}, [a, b], flags)
    ensures Missing({a}, [a, b], 1)
    ensures Marked({a}, [a, b], [Chunk(0, false), Chunk(1, false)], flags)[1] == Chunk(1, false)
  {
    var known, hashes, batch := {a}, [a, b], [Chunk(0, false), Chunk(1, false)];
    assert MissingCount(known, hashes, 0) == 0 && MissingCount(known, hashes, 1) == 0;
    assert MissingCount(known, hashes, 2) == 1;
    MarkAt(batch, flags[..1], 1);
  }
}
