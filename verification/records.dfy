/**
  Batches of records: a count, and for each record a label of fixed size, the length of its bytes, and the bytes.
  Chunks are uploaded in this form, labelled with their hashes, and come back in it, labelled with their IDs.
 */
module Records {
  import opened Basics
  import opened Bytes

  /** Lengths and counts travel as int. */
  const INT_LIMIT: nat := 0x8000_0000

  datatype Record = Record(tag: seq<Byte>, data: seq<Byte>)

  function PackRecord(r: Record): (s: seq<Byte>)
    ensures |s| == |r.tag| + 4 + |r.data|
  {
    r.tag + Le32(|r.data|) + r.data
  }

  function Pack(rs: seq<Record>): seq<Byte> {
    if rs == [] then [] else Pack(rs[..|rs| - 1]) + PackRecord(rs[|rs| - 1])
  }

  lemma PackMore(rs: seq<Record>, r: Record)
    ensures Pack(rs + [r]) == Pack(rs) + PackRecord(r)
  {
    assert (rs + [r])[..|rs|] == rs;
  }

  /** Record i stands at the end of the first i, whatever follows. */
  lemma {:induction false} RecordAt(rs: seq<Record>, i: nat, trail: seq<Byte>)
    requires i < |rs|
    ensures |Pack(rs[..i])| + |PackRecord(rs[i])| == |Pack(rs[..i + 1])| <= |Pack(rs)|
    ensures (Pack(rs) + trail)[|Pack(rs[..i])|..|Pack(rs[..i + 1])|] == PackRecord(rs[i])
    decreases |rs|
  {
    var n := |rs| - 1;
    assert rs[..i + 1][..i] == rs[..i];
    if i == n {
      assert rs[..i + 1] == rs;
      Middle(Pack(rs[..i]), PackRecord(rs[i]), trail);
      Regroup(Pack(rs[..i]), PackRecord(rs[i]), trail);
    } else {
      var rest := PackRecord(rs[n]) + trail;
      RecordAt(rs[..n], i, rest);
      assert rs[..n][..i] == rs[..i] && rs[..n][..i + 1] == rs[..i + 1];
      Regroup(Pack(rs[..n]), PackRecord(rs[n]), trail);
    }
  }

  lemma Regroup(a: seq<Byte>, b: seq<Byte>, c: seq<Byte>)
    ensures (a + b) + c == a + (b + c)
  {
  }

  /** At this offset the fields of record r are found. */
  predicate FieldsAt(s: seq<Byte>, at: nat, r: Record) {
    var n := |r.tag|;
    && at + n + 4 + |r.data| <= |s|
    && s[at..at + n] == r.tag
    && FromLe32(s[at + n..at + n + 4]) == |r.data|
    && s[at + n + 4..at + n + 4 + |r.data|] == r.data
  }

  /** The fields of a packed record. */
  lemma RecordFields(r: Record, s: seq<Byte>, at: nat)
    requires |r.data| < INT_LIMIT && at + |PackRecord(r)| <= |s| && s[at..at + |PackRecord(r)|] == PackRecord(r)
    ensures FieldsAt(s, at, r)
  {
    var p := PackRecord(r);
    var n := |r.tag|;
    SliceOfSlice(s, at, |p|, 0, n);
    SliceOfSlice(s, at, |p|, n, n + 4);
    SliceOfSlice(s, at, |p|, n + 4, |p|);
    assert p[0..n] == r.tag;
    assert p[n..n + 4] == Le32(|r.data|);
    assert p[n + 4..|p|] == r.data;
    Le32RoundTrip(|r.data|);
    hide FromLe32, Le32;
  }

  lemma SliceOfSlice(s: seq<Byte>, at: nat, n: nat, lo: nat, hi: nat)
    requires lo <= hi <= n && at + n <= |s|
    ensures s[at..at + n][lo..hi] == s[at + lo..at + hi]
  {
    var a, b := s[at..at + n][lo..hi], s[at + lo..at + hi];
    assert forall i | 0 <= i < |a| :: a[i] == s[at + lo + i] == b[i];
  }

  lemma BatchParts(rs: seq<Record>, data: seq<Byte>, trail: seq<Byte>)
    requires data == Le32(|rs|) + Pack(rs) + trail && |rs| < INT_LIMIT
    ensures |data| >= 4 && FromLe32(data[..4]) == |rs| && Pack(rs[..0]) == [] && rs[..|rs|] == rs
  {
    Le32RoundTrip(|rs|);
    hide *;
    Regroup(Le32(|rs|), Pack(rs), trail);
    FirstPart(Le32(|rs|), Pack(rs) + trail);
    NothingPacked();
  }

  lemma FirstPart(a: seq<Byte>, b: seq<Byte>)
    ensures (a + b)[..|a|] == a
  {
  }

  lemma NothingPacked()
    ensures Pack([]) == []
  {
  }

  /** Where record i stands in a batch as it is received. */
  lemma RecordInBatch(rs: seq<Record>, i: nat, data: seq<Byte>, trail: seq<Byte>)
    requires i < |rs| && data == Le32(|rs|) + Pack(rs) + trail && |rs[i].data| < INT_LIMIT
    ensures var at := 4 + |Pack(rs[..i])|; var r := rs[i];
      at + |r.tag| + 4 + |r.data| == 4 + |Pack(rs[..i + 1])| && FieldsAt(data, at, r)
  {
    hide *;
    var a, b := |Pack(rs[..i])|, |Pack(rs[..i + 1])|;
    RecordAt(rs, i, trail);
    BehindCount(Le32(|rs|), Pack(rs), trail, a, b);
    RecordFields(rs[i], data, 4 + a);
  }

  lemma BehindCount(count: seq<Byte>, packed: seq<Byte>, trail: seq<Byte>, a: nat, b: nat)
    requires |count| == 4 && a <= b <= |packed|
    ensures (count + packed + trail)[4 + a..4 + b] == (packed + trail)[a..b]
  {
    var data := count + packed + trail;
    assert data[4..] == packed + trail;
    SliceOfSlice(data, 4, |data| - 4, a, b);
    assert data[4..4 + (|data| - 4)] == data[4..];
    SliceOfPrefix(packed + trail, |packed|, a, b);
  }

  lemma RecordText(r: Record)
    ensures PackRecord(r) == r.tag + Le32(|r.data|) + r.data
  {
  }

  lemma FieldValues(s: seq<Byte>, at: nat, r: Record)
    requires FieldsAt(s, at, r)
    ensures var n := |r.tag|;
      && at + n + 4 + |r.data| <= |s|
      && s[at..at + n] == r.tag
      && FromLe32(s[at + n..at + n + 4]) == |r.data|
      && s[at + n + 4..at + n + 4 + |r.data|] == r.data
  {
    hide FromLe32;
  }
}
