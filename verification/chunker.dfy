/** The chunker as the program runs it: tables filled once, then one byte at a time into a chunk buffer. */
module ChunkerLoop {
  import opened Basics
  import opened Bytes
  import opened Chunking

  class Chunker {
    const window: nat
    const min: nat
    const max: nat
    const anchor: nat
    const powerLUT: array<nat>
    const removeLUT: array<nat>
    const chunkBuffer: array<Byte>

    function Settings(): Config {
      Config(window, min, max, anchor)
    }

    ghost predicate Valid()
      reads this, powerLUT, removeLUT, chunkBuffer
    {
      && Sane(Settings())
      && powerLUT.Length == window && removeLUT.Length == 256 && chunkBuffer.Length == max
      && (forall i: nat | i < window :: IsPower(powerLUT[i], i))
      && (forall v: nat | v < 256 :: Cancels(removeLUT[v], v, window))
    }

    /** ChunkerInit for variable-size chunking.  The program exits unless min < average < max. */
    constructor (windowSize: nat, minSize: nat, averageSize: nat, maxSize: nat)
      requires 0 < windowSize < minSize < averageSize < maxSize
      ensures Valid() && fresh(chunkBuffer)
      ensures window == windowSize && min == minSize && max == maxSize
      ensures anchor <= averageSize < 2 * anchor && exists bits: nat :: anchor == Pow2(bits)
    {
      var powers := FillPowers(windowSize);
      var removes := FillRemoves(windowSize, powers[windowSize - 1]);
      var bits := MaskBits(averageSize);
      window := windowSize;
      min := minSize;
      max := maxSize;
      anchor := Pow2(bits);
      powerLUT := powers;
      removeLUT := removes;
      chunkBuffer := new Byte[maxSize](_ => 0);
    }

    /** The loop that fills the table of powers, in 32-bit arithmetic. */
    static method FillPowers(windowSize: nat) returns (powers: array<nat>)
      requires 0 < windowSize
      ensures fresh(powers) && powers.Length == windowSize
      ensures forall i: nat | i < windowSize :: IsPower(powers[i], i)
    {
      powers := new nat[windowSize](_ => 0);
      powers[0] := 1;
      assert IsPower(1, 0);
      hide *;
      for i := 1 to windowSize
        invariant forall j: nat | j < i :: IsPower(powers[j], j)
      {
        PowerStep(powers[i - 1], i - 1);
        powers[i] := NextPower(powers[i - 1]);
      }
    }

    /** The loop that fills the table of what each byte's removal adds. */
    static method FillRemoves(windowSize: nat, highest: nat) returns (removes: array<nat>)
      requires 0 < windowSize && IsPower(highest, windowSize - 1)
      ensures fresh(removes) && removes.Length == 256
      ensures forall v: nat | v < 256 :: Cancels(removes[v], v, windowSize)
    {
      removes := new nat[256](_ => 0);
      hide *;
      for i := 0 to 256
        invariant forall v: nat | v < i :: Cancels(removes[v], v, windowSize)
      {
        RemoveEntryCancels(i, highest, windowSize);
        removes[i] := RemoveEntry(i, highest);
      }
    }

    /** The loop that finds the number of mask bits of the average size. */
    static method MaskBits(averageSize: nat) returns (bits: nat)
      requires 2 <= averageSize
      ensures Pow2(bits) <= averageSize < 2 * Pow2(bits)
    {
      bits := 1;
      while averageSize / Pow2(bits) != 1
        invariant Pow2(bits) <= averageSize
        decreases averageSize - Pow2(bits)
      {
        HalvesAgain(averageSize, Pow2(bits));
        bits := bits + 1;
      }
      HalvesAgain(averageSize, Pow2(bits));
    }

    /** varSizeChunking, for data that one read takes in. */
    method VarSizeChunking(data: seq<Byte>) returns (chunks: seq<seq<Byte>>)
      requires Valid()
      modifies chunkBuffer
      ensures chunks == Chunks(Settings(), data)
    {
      var fp: nat, count: nat := 0, 0;
      chunks := [];
      ValidParts();
      Begin(Settings(), data);
      hide *;
      for i := 0 to |data|
        invariant Valid() && count < max && count <= i
        invariant Pending(Settings(), chunkBuffer[..count], fp)
        invariant Done(Settings(), data, i, chunks, chunkBuffer[..count])
      {
        ghost var was := chunkBuffer[..count];
        var chunk: Option<seq<Byte>>;
        GoOn(Settings(), data, i, chunks, was, fp);
        count, fp, chunk := AddToChunk(count, fp, data[i]);
        if chunk.Some? {
          chunks := chunks + [chunk.value];
          assert chunkBuffer[..count] == [];
        }
      }
      Finish(Settings(), data, chunks, chunkBuffer[..count], fp);
      if count != 0 {
        chunks := chunks + [chunkBuffer[..count]];
      }
    }

    /** The body of the loop: one byte more, which may complete a chunk. */
    method AddToChunk(n: nat, was: nat, b: Byte) returns (count: nat, fp: nat, chunk: Option<seq<Byte>>)
      requires Valid() && n < max && Pending(Settings(), chunkBuffer[..n], was)
      modifies chunkBuffer
      ensures Valid()
      ensures if chunk.Some? then
                chunk.value == old(chunkBuffer[..n]) + [b] && IsCut(Settings(), chunk.value) && count == 0 && fp == 0 &&
                Pending(Settings(), [], 0)
              else
                count == n + 1 < max && chunkBuffer[..count] == old(chunkBuffer[..n]) + [b] &&
                Pending(Settings(), chunkBuffer[..count], fp)
    {
      hide *;
      ValidParts();
      ghost var before := chunkBuffer[..n];
      chunkBuffer[n] := b;
      StillValid();
      ghost var now := before + [b];
      assert chunkBuffer[..n + 1] == now;
      count, chunk := n + 1, None;
      if n < window {
        AddByteIs(Settings(), before, was, b, powerLUT[window - n - 1]);
        fp := AddByte(was, b, powerLUT[window - n - 1]);
        return;
      }
      FingerprintFits(Settings(), before, was);
      fp := was % MODULUS;
      assert chunkBuffer[n - window] == before[n - window];
      SlideByIs(Settings(), before, fp, b, removeLUT[chunkBuffer[n - window]]);
      fp := SlideBy(fp, removeLUT[chunkBuffer[n - window]], b);
      if count < min {
        ShortIsPending(Settings(), now, before, fp);
        return;
      }
      CutOrPending(Settings(), now, before, fp);
      NothingPending(Settings());
      if fp % anchor == 0 {
        chunk := Some(chunkBuffer[..count]);
        count, fp := 0, 0;
      }
      if count >= max {
        chunk := Some(chunkBuffer[..count]);
        count, fp := 0, 0;
      }
    }

    twostate lemma StillValid()
      requires old(Valid()) && unchanged(powerLUT) && unchanged(removeLUT)
      ensures Valid()
    {
    }

    lemma ValidParts()
      requires Valid()
      ensures Sane(Settings()) && Settings().window == window && Settings().min == min && Settings().max == max
      ensures Settings().anchor == anchor && 0 < window < min < max && 0 < anchor
      ensures powerLUT.Length == window && removeLUT.Length == 256 && chunkBuffer.Length == max
      ensures forall i: nat | i < window :: IsPower(powerLUT[i], i)
      ensures forall v: nat | v < 256 :: Cancels(removeLUT[v], v, window)
    {
    }
  }

  lemma FingerprintFits(g: Config, c: seq<Byte>, fp: nat)
    requires Pending(g, c, fp)
    ensures 0 < MODULUS && fp % MODULUS == fp
  {
  }

  /** From the minimum size on, the anchor and the maximum size decide whether the chunk ends. */
  lemma CutOrPending(g: Config, now: seq<Byte>, was: seq<Byte>, fp: nat)
    requires exists f :: Pending(g, was, f)
    requires Sane(g) && |now| == |was| + 1 && now[..|was|] == was && g.min <= |now| <= g.max
    requires fp == Fingerprint(now[|now| - g.window..])
    ensures fp % g.anchor == 0 || |now| == g.max ==> IsCut(g, now)
    ensures !(fp % g.anchor == 0 || |now| == g.max) ==> Pending(g, now, fp)
  {
    assert now == was + [now[|was|]];
    if !(fp % g.anchor == 0 || |now| == g.max) {
      NoneBefore(g, was, now[|was|]);
    }
  }

  /** A chunk under way: no cut so far, and the fingerprint of what is there. */
  ghost predicate Pending(g: Config, c: seq<Byte>, fp: nat) {
    && Sane(g) && fp < WORD16
    && (forall m | 0 < m <= |c| :: !IsCut(g, c[..m]))
    && fp == if |c| <= g.window then Filling(c, g.window) else Fingerprint(c[|c| - g.window..])
  }

  lemma NothingPending(g: Config)
    requires Sane(g)
    ensures Pending(g, [], 0)
  {
  }

  lemma NoneBefore(g: Config, c: seq<Byte>, b: Byte)
    requires Sane(g) && (forall m | 0 < m <= |c| :: !IsCut(g, c[..m])) && !IsCut(g, c + [b])
    ensures forall m | 0 < m <= |c + [b]| :: !IsCut(g, (c + [b])[..m])
  {
    hide IsCut;
    forall m | 0 < m <= |c + [b]|
      ensures !IsCut(g, (c + [b])[..m])
    {
      if m <= |c| {
        assert (c + [b])[..m] == c[..m];
      } else {
        assert (c + [b])[..m] == c + [b];
      }
    }
  }

  lemma WindowIsPending(g: Config, c: seq<Byte>, fp: nat)
    requires Pending(g, c, fp) && g.window <= |c|
    ensures fp == Fingerprint(c[|c| - g.window..])
  {
    if |c| == g.window {
      FullWindow(c);
      assert c[0..] == c;
    }
  }

  lemma ShortIsPending(g: Config, now: seq<Byte>, was: seq<Byte>, fp: nat)
    requires exists f :: Pending(g, was, f)
    requires Sane(g) && |now| == |was| + 1 && now[..|was|] == was && g.window < |now| < g.min
    requires fp == Fingerprint(now[|now| - g.window..])
    ensures Pending(g, now, fp)
  {
    assert now == was + [now[|was|]];
    NoneBefore(g, was, now[|was|]);
  }

  /** The chunk under way becomes a chunk with this byte. */
  lemma CutHere(g: Config, was: seq<Byte>, b: Byte, rest: seq<Byte>)
    requires Sane(g) && (exists f :: Pending(g, was, f)) && IsCut(g, was + [b])
    ensures Chunks(g, (was + [b]) + rest) == [was + [b]] + Chunks(g, rest)
  {
    var now := was + [b];
    var all := now + rest;
    var k := NextCut(g, all, 0);
    assert all[..|now|] == now && all[|now|..] == rest;
    hide IsCut;
    assert all == was + ([b] + rest);
    PrefixKept(was, [b] + rest, k);
  }

  /** What is left under way at the end is the last chunk. */
  lemma LastChunk(g: Config, c: seq<Byte>)
    requires Sane(g) && c != [] && exists f :: Pending(g, c, f)
    ensures Chunks(g, c) == [c]
  {
    var k := NextCut(g, c, 0);
    hide IsCut;
    assert k == |c| && c[..k] == c && c[k..] == [];
    assert Chunks(g, c[k..]) == [];
  }

  /** With i bytes read, these chunks are complete and c is under way; the rest makes up what is missing. */
  ghost predicate Done(g: Config, data: seq<Byte>, i: nat, chunks: seq<seq<Byte>>, c: seq<Byte>) {
    Sane(g) && i <= |data| && chunks + Chunks(g, c + data[i..]) == Chunks(g, data)
  }

  lemma Begin(g: Config, data: seq<Byte>)
    requires Sane(g)
    ensures Pending(g, [], 0) && Done(g, data, 0, [], [])
  {
    assert [] + data[0..] == data;
  }

  /** The next byte either goes to the chunk under way or completes it. */
  lemma GoOn(g: Config, data: seq<Byte>, i: nat, chunks: seq<seq<Byte>>, c: seq<Byte>, fp: nat)
    requires Done(g, data, i, chunks, c) && i < |data| && Pending(g, c, fp)
    ensures Done(g, data, i + 1, chunks, c + [data[i]])
    ensures IsCut(g, c + [data[i]]) ==> Done(g, data, i + 1, chunks + [c + [data[i]]], [])
  {
    var b, rest := data[i], data[i + 1..];
    assert c + data[i..] == (c + [b]) + rest;
    hide IsCut, Chunks;
    if IsCut(g, c + [b]) {
      CutHere(g, c, b, rest);
      assert [] + rest == rest;
      assert (chunks + [c + [b]]) + Chunks(g, rest) == chunks + ([c + [b]] + Chunks(g, rest));
    }
  }

  lemma Finish(g: Config, data: seq<Byte>, chunks: seq<seq<Byte>>, c: seq<Byte>, fp: nat)
    requires Done(g, data, |data|, chunks, c) && Pending(g, c, fp)
    ensures Chunks(g, data) == if c != [] then chunks + [c] else chunks
  {
    assert c + data[|data|..] == c;
    if c != [] {
      LastChunk(g, c);
    }
  }

  lemma NoWrap(x: nat)
    requires x < WORD32
    ensures Wrap32(x) == x
  {
  }

  /** An entry of the table of powers. */
  predicate IsPower(p: nat, i: nat) {
    p == Power(i) % MODULUS
  }

  /** The next power, in 32-bit arithmetic. */
  function NextPower(p: nat): nat {
    Wrap32(p * BASE) % MODULUS
  }

  /** The fingerprint with byte b added to the first window, in 32-bit arithmetic, stored in 16 bits. */
  function AddByte(fp: nat, b: Byte, power: nat): nat {
    Wrap32(fp + Wrap32(b as int * power)) % MODULUS % WORD16
  }

  /** The fingerprint after a slide that removes by r and adds byte b, in 32-bit arithmetic, stored in 16 bits. */
  function SlideBy(fp: nat, r: nat, b: Byte): nat {
    Wrap32(Wrap32(Wrap32(fp + r) * BASE) + b as int) % MODULUS % WORD16
  }

  lemma AddByteIs(g: Config, was: seq<Byte>, fp: nat, b: Byte, power: nat)
    requires Pending(g, was, fp) && |was| < g.window && IsPower(power, g.window - |was| - 1)
    ensures Pending(g, was + [b], AddByte(fp, b, power))
  {
    IntermediatesFit(fp, b, power, 0);
    NoWrap(b as int * power);
    NoWrap(fp + b as int * power);
    FillStep(was, b, g.window, power);
    NoneBefore(g, was, b);
  }

  /** No operation of a slide overflows, so it computes as with unbounded numbers. */
  lemma SlideByFits(fp: nat, r: nat, b: Byte)
    requires fp < WORD16 && r < MODULUS
    ensures SlideBy(fp, r, b) == ((fp + r) * BASE + b as int) % MODULUS % WORD16
  {
    IntermediatesFit(fp, b, 0, r);
    NoWrap(fp + r);
    NoWrap((fp + r) * BASE);
    NoWrap((fp + r) * BASE + b as int);
  }

  lemma SmallNumbers(g: Config, was: seq<Byte>, fp: nat, r: nat, v: nat)
    requires Pending(g, was, fp) && Cancels(r, v, g.window)
    ensures fp < WORD16 && r < MODULUS
  {
  }

  lemma SlideByIs(g: Config, was: seq<Byte>, fp: nat, b: Byte, r: nat)
    requires Pending(g, was, fp) && 0 < g.window <= |was| && Cancels(r, was[|was| - g.window], g.window)
    ensures SlideBy(fp, r, b) == Fingerprint((was + [b])[|was| + 1 - g.window..])
  {
    hide *;
    var v := was[|was| - g.window];
    var t := was[|was| - g.window + 1..];
    SmallNumbers(g, was, fp, r, v);
    SlideByFits(fp, r, b);
    assert was[|was| - g.window..] == [v] + t;
    WindowIsPending(g, was, fp);
    SlideIsPoly(fp, v, t, b, r);
    assert (was + [b])[|was| + 1 - g.window..] == t + [b];
  }

  lemma PowerStep(p: nat, i: nat)
    requires IsPower(p, i)
    ensures IsPower(NextPower(p), i + 1)
  {
    var q := Power(i) / MODULUS;
    IntermediatesFit(0, 0, p, 0);
    NoWrap(p * BASE);
    assert Power(i + 1) == p * BASE + (q * BASE) * MODULUS;
    ModAddMultiple(p * BASE, q * BASE, MODULUS);
  }

  /** What the table takes off for byte v, in 32-bit arithmetic. */
  function RemoveEntry(v: nat, highest: nat): nat {
    var r := Wrap32(v * highest) % MODULUS;
    if r != 0 then Wrap32(MODULUS - 1 - r + 1) % MODULUS else r
  }

  lemma RemoveEntryIs(v: nat, highest: nat)
    requires v < 256 && highest < MODULUS
    ensures var r := (v * highest) % MODULUS; RemoveEntry(v, highest) == if r != 0 then MODULUS - r else r
  {
    IntermediatesFit(0, v, highest, 0);
    NoWrap(v * highest);
    var r := (v * highest) % MODULUS;
    NoWrap(MODULUS - 1 - r + 1);
    if r != 0 {
      ModUnique(MODULUS - r, MODULUS, 0, MODULUS - r);
    }
  }

  lemma RemoveEntryCancels(v: nat, highest: nat, window: nat)
    requires v < 256 && 0 < window && IsPower(highest, window - 1)
    ensures Cancels(RemoveEntry(v, highest), v, window)
  {
    hide RemoveEntry, Power;
    RemoveEntryIs(v, highest);
    RemoveCancels(v, Power(window - 1), (v * highest) % MODULUS);
  }

  lemma RemoveCancels(v: nat, w: nat, r: nat)
    requires r == (v * (w % MODULUS)) % MODULUS
    ensures ((if r != 0 then MODULUS - r else r) + v * w) % MODULUS == 0
  {
    var q := w / MODULUS;
    var p := v * (w % MODULUS);
    assert w == q * MODULUS + w % MODULUS;
    assert v * w == (v * q) * MODULUS + p by {
      assert v * (q * MODULUS + w % MODULUS) == (v * q) * MODULUS + v * (w % MODULUS);
    }
    var k := p / MODULUS;
    assert p == k * MODULUS + r;
    var x := if r != 0 then MODULUS - r else r;
    assert x + r == 0 || x + r == MODULUS;
    var m := v * q + k + (if r != 0 then 1 else 0);
    assert x + v * w == 0 + m * MODULUS;
    ModAddMultiple(0, m, MODULUS);
  }

  lemma HalvesAgain(a: nat, p: nat)
    requires 0 < p <= a
    ensures a / p == 1 <==> a < 2 * p
    ensures a / p >= 1
  {
    assert a == (a / p) * p + a % p;
    MulMono(a / p, 0, p);
    MulMono(a / p, 1, p);
    MulMono(2, a / p, p);
  }
}
