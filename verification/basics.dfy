/** Small shared vocabulary: threads and blocks, optional values, powers of two, remainders, and unsigned 64-bit
    words. */
module Basics {

  datatype Option<+T> = None | Some(value: T)

  /** No value occurs twice. */
  ghost predicate NoDup<T>(s: seq<T>) {
    forall i, j | 0 <= i < j < |s| :: s[i] != s[j]
  }

  type Thread = nat

  /** A block of a queue's elements, and how many it holds. */
  type Block = nat
  const BLOCK_SIZE: nat := 32

  /** The end of the part of [i, end) that lies in i's block. */
  function PartEnd(i: nat, end: nat): nat {
    var blockEnd := i - i % BLOCK_SIZE + BLOCK_SIZE;
    if end < blockEnd then end else blockEnd
  }

  /** Some of the indices from i up to end are in block number k. */
  predicate Within(i: nat, end: nat, k: nat) {
    i / BLOCK_SIZE <= k && k * BLOCK_SIZE < end
  }

  /** A place for an element in a block. */
  datatype Cell = Cell(block: Block, slot: nat)

  function Content(cells: map<Cell, Option<int>>, c: Cell): Option<int> {
    if c in cells then cells[c] else None
  }

  /** got is what was enqueued from index from up to i. */
  predicate Got(got: seq<Option<int>>, enq: seq<int>, from: nat, i: nat) {
    from + |got| == i <= |enq| && forall k | 0 <= k < |got| :: got[k] == Some(enq[from + k])
  }

  /** What is given back for elements xs. */
  predicate Gives(got: seq<Option<int>>, xs: seq<int>) {
    |got| == |xs| && forall k | 0 <= k < |xs| :: got[k] == Some(xs[k])
  }

  /** The 32-bit words, the 64-bit ones, and half of these. */
  const WORD32: nat := 0x1_0000_0000
  const WORD_SIZE: int := 0x1_0000_0000_0000_0000
  const HALF: int := 0x8000_0000_0000_0000

  /** The 64-bit word that holds x. */
  function Wrap(x: int): nat {
    x % WORD_SIZE
  }

  /** circular_less_than on 64-bit words: the difference, wrapped, is past the middle. */
  predicate CircularLess(a: int, b: int) {
    Wrap(a - b) > HALF
  }

  function Pow2(e: nat): (r: nat)
    ensures r > 0
  {
    if e == 0 then 1 else 2 * Pow2(e - 1)
  }

  lemma MulMono(a: int, b: int, n: nat)
    ensures a <= b ==> a * n <= b * n
  {
  }

  /** Taking a prefix that ends within the first part. */
  lemma PrefixKept<T>(a: seq<T>, b: seq<T>, m: int)
    ensures 0 <= m <= |a| ==> (a + b)[..m] == a[..m]
  {
  }

  /** The middle one of three parts. */
  lemma Middle<T>(a: seq<T>, b: seq<T>, c: seq<T>)
    ensures (a + (b + c))[|a|..|a| + |b|] == b
  {
  }

  /** A part of a prefix is that part of the whole. */
  lemma SliceOfPrefix<T>(a: seq<T>, n: nat, lo: nat, hi: nat)
    requires lo <= hi <= n <= |a|
    ensures a[..n][lo..hi] == a[lo..hi]
  {
  }

  lemma ModUnique(x: int, n: nat, q: int, r: nat)
    requires n > 0 && x == q * n + r && r < n
    ensures x % n == r
  {
    var d := x / n - q;
    assert d * n == r - x % n;
    MulMono(1, d, n);
    MulMono(d, -1, n);
  }

  /** Adding before or after reduction is the same. */
  lemma ModAdd(x: int, y: int, n: nat)
    requires n > 0
    ensures (x % n + y) % n == (x + y) % n
  {
    var r := (x % n + y) % n;
    var q := (x % n + y) / n;
    assert x + y == (x / n) * n + (q * n + r) == (x / n + q) * n + r;
    ModUnique(x + y, n, x / n + q, r);
  }

  lemma ModAddMultiple(x: int, q: int, n: nat)
    requires n > 0
    ensures (x + q * n) % n == x % n
  {
    assert x + q * n == (x / n + q) * n + x % n;
    ModUnique(x + q * n, n, x / n + q, x % n);
  }
}
