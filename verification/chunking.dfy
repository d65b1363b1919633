/**
  Content-defined chunking: a chunk ends where the fingerprint of the last bytes hits an
  anchor, or at the maximum size.  The fingerprint is a polynomial in base 257, kept in 16 bits
  and updated byte by byte with the help of two tables.
 */
module Chunking {
  import opened Basics
  import opened Bytes

  const BASE: nat := 257

  /** polyMOD_ + 1: masking with polyMOD_ takes the remainder by it. */
  const MODULUS: nat := 0x80_0000

  /** winFp is a uint16_t. */
  const WORD16: nat := 0x1_0000

  /** The polynomial of a window of bytes, the last one with power 0. */
  function Poly(w: seq<Byte>): nat {
    if w == [] then 0 else Poly(w[..|w| - 1]) * BASE + w[|w| - 1] as int
  }

  function Power(n: nat): (r: nat)
    ensures r > 0
  {
    if n == 0 then 1 else Power(n - 1) * BASE
  }

  function Fingerprint(w: seq<Byte>): nat {
    Poly(w) % WORD16
  }

  // ---------------------------------------------------------------------------
  // The chunks of a byte string
  // ---------------------------------------------------------------------------

  /** Window, minimum and maximum size, and the anchor: chunks end where the fingerprint is a multiple of it. */
  datatype Config = Config(window: nat, min: nat, max: nat, anchor: nat)

  predicate Sane(g: Config) {
    0 < g.window < g.min < g.max && 0 < g.anchor
  }

  /** A chunk that ends here ends by rule, not because the data ends. */
  predicate IsCut(g: Config, c: seq<Byte>)
    requires Sane(g)
  {
    g.min <= |c| && (|c| == g.max || Fingerprint(c[|c| - g.window..]) % g.anchor == 0)
  }

  /** The first length above n at which s has a cut, or the whole length. */
  function NextCut(g: Config, s: seq<Byte>, n: nat): (k: nat)
    requires Sane(g) && n <= |s|
    ensures n <= k <= |s| && (n < |s| ==> n < k)
    ensures k < |s| ==> IsCut(g, s[..k])
    ensures forall m | n < m < k :: !IsCut(g, s[..m])
    decreases |s| - n
  {
    if n == |s| then n
    else if IsCut(g, s[..n + 1]) then n + 1
    else NextCut(g, s, n + 1)
  }

  function Chunks(g: Config, s: seq<Byte>): seq<seq<Byte>>
    requires Sane(g)
    decreases |s|
  {
    if s == [] then []
    else
      var k := NextCut(g, s, 0);
      [s[..k]] + Chunks(g, s[k..])
  }

  function Concat(chunks: seq<seq<Byte>>): seq<Byte> {
    if chunks == [] then [] else chunks[0] + Concat(chunks[1..])
  }

  /** The chunks make up the data. */
  lemma {:induction false} ChunksConcat(g: Config, s: seq<Byte>)
    requires Sane(g)
    ensures Concat(Chunks(g, s)) == s
    decreases |s|
  {
    if s != [] {
      var k := NextCut(g, s, 0);
      ChunksConcat(g, s[k..]);
      assert Chunks(g, s)[1..] == Chunks(g, s[k..]);
      assert s == s[..k] + s[k..];
    }
  }

  /** The first chunk is not empty or too long, and if anything is behind it, it is a cut. */
  lemma FirstChunk(g: Config, s: seq<Byte>)
    requires Sane(g) && s != []
    ensures var k := NextCut(g, s, 0); 0 < k <= g.max && (s[k..] != [] ==> IsCut(g, s[..k]))
  {
    var k := NextCut(g, s, 0);
    MaxIsCut(g, s);
  }

  lemma MaxIsCut(g: Config, s: seq<Byte>)
    requires Sane(g)
    ensures g.max <= |s| ==> IsCut(g, s[..g.max])
  {
  }

  /** All chunks but the last are cuts, and so within the bounds; no chunk is empty or too long. */
  predicate SizesOk(g: Config, cs: seq<seq<Byte>>)
    requires Sane(g)
  {
    && (forall i | 0 <= i < |cs| :: 0 < |cs[i]| <= g.max)
    && (forall i | 0 <= i < |cs| - 1 :: g.min <= |cs[i]| && IsCut(g, cs[i]))
  }

  lemma SizesCons(g: Config, c: seq<Byte>, rest: seq<seq<Byte>>)
    requires Sane(g) && SizesOk(g, rest) && 0 < |c| <= g.max && (rest != [] ==> IsCut(g, c))
    ensures SizesOk(g, [c] + rest)
  {
    var cs := [c] + rest;
    forall i | 0 <= i < |cs|
      ensures 0 < |cs[i]| <= g.max && (i < |cs| - 1 ==> g.min <= |cs[i]| && IsCut(g, cs[i]))
    {
      if i > 0 {
        assert cs[i] == rest[i - 1];
      }
    }
  }

  lemma {:induction false} ChunkSizes(g: Config, s: seq<Byte>)
    requires Sane(g)
    ensures SizesOk(g, Chunks(g, s))
    decreases |s|
  {
    if s != [] {
      var k := NextCut(g, s, 0);
      FirstChunk(g, s);
      ChunkSizes(g, s[k..]);
      assert s[k..] == [] ==> Chunks(g, s[k..]) == [];
      hide SizesOk, IsCut;
      SizesCons(g, s[..k], Chunks(g, s[k..]));
    }
  }

  /** The data is a sequence of chunks that all end by rule. */
  predicate EndsAtCut(g: Config, p: seq<Byte>)
    requires Sane(g)
    decreases |p|
  {
    p == [] ||
    var k := NextCut(g, p, 0);
    IsCut(g, p[..k]) && EndsAtCut(g, p[k..])
  }

  /** A cut found in p is found with anything behind p. */
  lemma {:induction false} NextCutExtends(g: Config, p: seq<Byte>, s: seq<Byte>, n: nat)
    requires Sane(g) && n <= |p| && NextCut(g, p, n) > n && IsCut(g, p[..NextCut(g, p, n)])
    ensures NextCut(g, p + s, n) == NextCut(g, p, n)
    decreases |p| - n
  {
    hide IsCut;
    assert (p + s)[..n + 1] == p[..n + 1];
    if !IsCut(g, p[..n + 1]) {
      NextCutExtends(g, p, s, n + 1);
    }
  }

  /** If p ends at a cut, chunking p and what follows is chunking them apart: chunking falls into step again after any
      shared cut. */
  lemma {:induction false} Resynchronises(g: Config, p: seq<Byte>, s: seq<Byte>)
    requires Sane(g) && EndsAtCut(g, p)
    ensures Chunks(g, p + s) == Chunks(g, p) + Chunks(g, s)
    decreases |p|
  {
    if p == [] {
      assert p + s == s;
    } else {
      var k := NextCut(g, p, 0);
      hide IsCut;
      NextCutExtends(g, p, s, 0);
      assert (p + s)[..k] == p[..k] && (p + s)[k..] == p[k..] + s;
      Resynchronises(g, p[k..], s);
    }
  }

  /** One more byte joins the last chunk when that did not end by rule. */
  lemma {:induction false} NoCutJoins(g: Config, p: seq<Byte>, b: Byte)
    requires Sane(g) && !EndsAtCut(g, p)
    ensures Chunks(g, p + [b]) != Chunks(g, p) + [[b]]
    decreases |p|
  {
    var k := NextCut(g, p, 0);
    if IsCut(g, p[..k]) {
      NextCutExtends(g, p, [b], 0);
      assert (p + [b])[..k] == p[..k] && (p + [b])[k..] == p[k..] + [b];
      hide IsCut;
      NoCutJoins(g, p[k..], b);
      var rest := Chunks(g, p[k..] + [b]);
      assert Chunks(g, p + [b]) == [p[..k]] + rest;
      assert Chunks(g, p) == [p[..k]] + Chunks(g, p[k..]);
      assert ([p[..k]] + rest)[1..] == rest;
      assert (Chunks(g, p) + [[b]])[1..] == Chunks(g, p[k..]) + [[b]];
    } else {
      assert k == |p| && p[..k] == p && p[k..] == [];
      assert Chunks(g, p) == [p] + [];
      var m := NextCut(g, p + [b], 0);
      PrefixKept(p, [b], m);
      assert Chunks(g, p + [b])[0] == (p + [b])[..m];
    }
  }

  lemma OneByte(g: Config, b: Byte)
    requires Sane(g)
    ensures Chunks(g, [b]) == [[b]]
  {
    var s := [b];
    var k := NextCut(g, s, 0);
    assert k == 1 && s[..k] == s && s[k..] == [];
    assert Chunks(g, s[k..]) == [];
  }

  /** Chunking p apart from whatever follows it is right for all that may follow if and only if p ends at a cut. */
  lemma ResynchronisesExactly(g: Config, p: seq<Byte>)
    requires Sane(g)
    ensures EndsAtCut(g, p) <==> forall s: seq<Byte> :: Chunks(g, p + s) == Chunks(g, p) + Chunks(g, s)
  {
    if EndsAtCut(g, p) {
      forall s: seq<Byte>
        ensures Chunks(g, p + s) == Chunks(g, p) + Chunks(g, s)
      {
        Resynchronises(g, p, s);
      }
    } else {
      var s: seq<Byte> := [0];
      NoCutJoins(g, p, 0);
      OneByte(g, 0);
      assert Chunks(g, p + s) != Chunks(g, p) + Chunks(g, s);
    }
  }

  // ---------------------------------------------------------------------------
  // The rolling fingerprint
  // ---------------------------------------------------------------------------

  /** The first byte of a window weighs the highest power. */
  lemma {:induction false} PolyFirst(v: Byte, t: seq<Byte>)
    ensures Poly([v] + t) == v as int * Power(|t|) + Poly(t)
    decreases |t|
  {
    if t == [] {
      assert [v] + t == [v];
      assert [v][..0] == [];
    } else {
      var t' := t[..|t| - 1];
      PolyFirst(v, t');
      assert ([v] + t)[..|t|] == [v] + t';
    }
  }

  /** Taking the remainder by 2^23 first does not change the low 16 bits. */
  lemma LowBits(x: nat)
    ensures x % MODULUS % WORD16 == x % WORD16
  {
    var q := x / MODULUS;
    assert x == x % MODULUS + (q * 128) * WORD16;
    ModAddMultiple(x % MODULUS, q * 128, WORD16);
  }

  /** What the table takes off for byte v cancels its weight in a window. */
  predicate Cancels(r: nat, v: nat, window: nat) {
    0 < window && r < MODULUS && (r + v * Power(window - 1)) % MODULUS == 0
  }

  /** One slide: after taking off the first byte's weight, shifting and adding, the fingerprint is that of the new
      window. */
  lemma SlideIsPoly(fp: nat, v: Byte, t: seq<Byte>, b: Byte, r: nat)
    requires fp == Fingerprint([v] + t) && Cancels(r, v, |t| + 1)
    ensures ((fp + r) * BASE + b as int) % MODULUS % WORD16 == Fingerprint(t + [b])
  {
    var p := Poly([v] + t);
    var q := p / WORD16;
    PolyFirst(v, t);
    var m := (r + v as int * Power(|t|)) / MODULUS;
    assert r + v as int * Power(|t|) == m * MODULUS;
    assert fp + r == Poly(t) + (m * 128 - q) * WORD16;
    LowBits((fp + r) * BASE + b as int);
    assert (t + [b])[..|t|] == t;
    assert Poly(t + [b]) == Poly(t) * BASE + b as int;
    var x: int := Poly(t) * BASE + b as int;
    assert (fp + r) * BASE + b as int == x + ((m * 128 - q) * BASE) * WORD16;
    ModAddMultiple(x, (m * 128 - q) * BASE, WORD16);
  }

  /** The fingerprint while the first window fills up: what is there, weighed as it will be in the full window. */
  function Filling(c: seq<Byte>, window: nat): nat
    requires |c| <= window
  {
    (Poly(c) * Power(window - |c|)) % WORD16
  }

  /** The product of a byte with a reduced power, up to a multiple of 2^16. */
  lemma ReducedProduct(b: nat, w: nat) returns (q: nat)
    ensures b * w == b * (w % MODULUS) + q * WORD16
  {
    var d := w / MODULUS;
    assert w == d * MODULUS + w % MODULUS;
    q := b * d * 128;
    assert b * (d * MODULUS + w % MODULUS) == b * (d * MODULUS) + b * (w % MODULUS);
    assert b * (d * MODULUS) == b * d * 128 * WORD16;
  }

  lemma PolyAppend(c: seq<Byte>, b: Byte)
    ensures Poly(c + [b]) == Poly(c) * BASE + b as int
  {
    assert (c + [b])[..|c|] == c;
  }

  lemma Spread(p: nat, b: nat, w: nat)
    ensures (p * BASE + b) * w == p * (w * BASE) + b * w
  {
    assert (p * BASE + b) * w == p * BASE * w + b * w;
    assert p * BASE * w == p * (w * BASE);
  }

  lemma FillStep(c: seq<Byte>, b: Byte, window: nat, power: nat)
    requires |c| < window && power == Power(window - |c| - 1) % MODULUS
    ensures (Filling(c, window) + b as int * power) % MODULUS % WORD16 == Filling(c + [b], window)
  {
    var w := Power(window - |c| - 1);
    PolyAppend(c, b);
    assert Power(window - |c|) == w * BASE;
    hide Poly, Power;
    Spread(Poly(c), b, w);
    var q := ReducedProduct(b, w);
    FillSum(Poly(c) * (w * BASE), b as int * power, q, Poly(c + [b]) * w);
  }

  lemma FillSum(x: nat, y: nat, q: nat, z: nat)
    requires z == x + y + q * WORD16
    ensures (x % WORD16 + y) % MODULUS % WORD16 == z % WORD16
  {
    LowBits(x % WORD16 + y);
    var d := x / WORD16;
    assert x == x % WORD16 + d * WORD16;
    assert z == x % WORD16 + y + (d + q) * WORD16;
    ModAddMultiple(x % WORD16 + y, d + q, WORD16);
  }

  lemma FullWindow(c: seq<Byte>)
    ensures Filling(c, |c|) == Fingerprint(c)
  {
    assert Power(0) == 1;
  }

  /** No 32-bit operation of the fingerprint overflows. */
  lemma IntermediatesFit(fp: nat, b: Byte, power: nat, r: nat)
    requires fp < WORD16 && power < MODULUS && r < MODULUS
    ensures b as int * power < WORD32 && fp + b as int * power < WORD32
    ensures fp + r < WORD32 && (fp + r) * BASE < WORD32 && (fp + r) * BASE + b as int < WORD32
    ensures power * BASE < WORD32 && MODULUS - 1 - r + 1 < WORD32
  {
    assert b as int * power <= 255 * (MODULUS - 1);
  }
}
