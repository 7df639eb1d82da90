/** The index arithmetic of `scan`: where the promotion handler splits, and the chunks of a sweep. */
module Thirds {
  import opened Handler

  /** Truncated division, as machine integers divide. */
  function TruncDiv(x: int, d: int): (q: int)
    requires 0 < d
    ensures if x >= 0 then d * q <= x < d * q + d else d * q - d < x <= d * q
  {
    if x >= 0 then x / d else -((-x) / d)
  }

  function Third1(i: int, j: int): int {
    i + TruncDiv(j - i, 5)
  }

  function Third2(i: int, j: int): int {
    j - 2 * TruncDiv(j - i, 5)
  }

  /** Where the handler of `scan` cuts `[0, n)` when `progress` has been published: the loop keeps
      `[0, prom)`, the upsweep gets `[t1, t2)`. */
  datatype Cut = NoCut | Cut(prom: int, t1: int, t2: int)

  function CutRange(progress: int, n: int): Cut {
    var p := progress + 5;
    var t1, t2 := Third1(p, n), Third2(p, n);
    if p < t1 < t2 < n then Cut(p, t1, t2) else NoCut
  }

  lemma CutShape(progress: int, n: int)
    requires 0 <= progress
    ensures CutRange(progress, n).Cut? <==> progress + 10 <= n
    ensures CutRange(progress, n).Cut? ==>
              var c := CutRange(progress, n);
              && 5 <= c.prom == progress + 5 && c.prom < c.t1 < c.t2 < n
              && 5 * (c.t1 - c.prom) <= n - c.prom < 5 * (c.t1 - c.prom) + 5 && n - c.t2 == 2 * (c.t1 - c.prom)
              && Third1(c.prom, n) == c.t1 && Third2(c.prom, n) == c.t2
              && c.t2 - c.t1 < n
  {
  }

  /** Where the thirds lie, in numbers: a fifth of the range, and two fifths from its end. */
  lemma ThirdsAre(i: int, n: int)
    requires i <= n
    ensures 5 * (Third1(i, n) - i) <= n - i < 5 * (Third1(i, n) - i) + 5
    ensures n - Third2(i, n) == 2 * (Third1(i, n) - i)
  {
  }

  // ---------- machine integers ----------

  function FixedThird1(w: Width, i: int, j: int): int
    requires IsWidth(w)
  {
    Wrap(w, i + TruncDiv(Wrap(w, j - i), 5))
  }

  function FixedThird2(w: Width, i: int, j: int): int
    requires IsWidth(w)
  {
    Wrap(w, j - Wrap(w, 2 * TruncDiv(Wrap(w, j - i), 5)))
  }

  function FixedCut(w: Width, progress: int, n: int): Cut
    requires IsWidth(w)
  {
    var p := Wrap(w, progress + 5);
    var t1, t2 := FixedThird1(w, p, n), FixedThird2(w, p, n);
    if p < t1 < t2 < n then Cut(p, t1, t2) else NoCut
  }

  /** An unsigned type, or a two's complement one. */
  ghost predicate IsMachine(w: Width) {
    IsWidth(w) && 10 <= w.hi && (w.lo == 0 || w.lo == -w.hi - 1)
  }

  lemma WrapUp(w: Width, x: int)
    requires IsMachine(w) && w.hi < x <= w.hi + Count(w)
    ensures Wrap(w, x) == x - Count(w)
  {
    ModUnique(x - w.lo, 1, Count(w), x - w.lo - Count(w));
  }

  lemma WrapDown(w: Width, x: int)
    requires IsMachine(w) && w.lo - Count(w) <= x < w.lo
    ensures Wrap(w, x) == x + Count(w)
  {
    ModUnique(x - w.lo, -1, Count(w), x - w.lo + Count(w));
  }

  /** With `n + 5` representable the handler decides and cuts as on unbounded integers, also
      where `n - prom` is negative and, for an unsigned type, wraps around. */
  lemma FixedCutExact(w: Width, progress: int, n: int)
    requires IsMachine(w) && 0 <= progress <= n && Fits(w, n + 5)
    ensures FixedCut(w, progress, n) == CutRange(progress, n)
  {
    var p := progress + 5;
    hide Wrap;
    if p > n && w.lo == 0 {
      WrapDown(w, n - p);
      var d := Wrap(w, n - p);
      var q := TruncDiv(d, 5);
      assert 5 * q <= d < Count(w);
      if p + q > w.hi { WrapUp(w, p + q); }
      if n - 2 * q < w.lo { WrapDown(w, n - 2 * q); }
    }
  }

  /** The thirds of a range inside `[0, n]` do not wrap. */
  lemma FixedThirdsExact(w: Width, i: int, n: int)
    requires IsMachine(w) && 0 <= i <= n && Fits(w, n)
    ensures FixedThird1(w, i, n) == Third1(i, n) && FixedThird2(w, i, n) == Third2(i, n)
    ensures Fits(w, Third1(i, n)) && Fits(w, Third2(i, n))
  {
    hide Wrap;
  }

  // ---------- chunks ----------

  /** `scan_chunksize`: the integer square root. */
  function ChunkSize(n: nat): (r: nat)
    ensures r * r <= n < (r + 1) * (r + 1)
    ensures 0 < n ==> 0 < r <= n
  {
    if n == 0 then 0
    else
      var r := ChunkSize(n - 1);
      if (r + 1) * (r + 1) <= n then r + 1 else r
  }

  function ChunkCount(n: nat): nat
    requires 0 < n
  {
    1 + (n - 1) / ChunkSize(n)
  }

  /** The chunk of position `k`. */
  function ChunkOf(k: nat, size: nat): nat
    requires 0 < size
  {
    k / size
  }

  /** Where the chunk that starts at `start` ends. */
  function ChunkEnd(start: nat, size: nat, n: nat): nat {
    if size > n - start then n else start + size
  }

  lemma ChunkIs(k: nat, size: nat, c: nat)
    requires 0 < size
    ensures ChunkOf(k, size) == c <==> c * size <= k < c * size + size
  {
    DivMod(k, size);
    if c * size <= k < c * size + size {
      Multiple(ChunkOf(k, size) - c, size);
      assert (ChunkOf(k, size) - c) * size == ChunkOf(k, size) * size - c * size;
    }
  }

  lemma ChunkStarts(n: nat, c: nat)
    requires 0 < n
    ensures c < ChunkCount(n) <==> c * ChunkSize(n) < n
  {
    var s := ChunkSize(n);
    hide ChunkSize;
    var q := (n - 1) / s;
    DivMod(n - 1, s);
    Multiple(c - q, s);
    assert (c - q) * s == c * s - q * s;
  }

  lemma FewChunks(n: nat)
    requires 0 < n
    ensures 0 < ChunkCount(n) <= n && 0 < ChunkSize(n) <= n
  {
    var s := ChunkSize(n);
    hide ChunkSize;
    var q := (n - 1) / s;
    DivMod(n - 1, s);
    Multiplied(q, s);
  }

  lemma Multiplied(q: nat, s: nat)
    requires 0 < s
    ensures q <= q * s
  {
    NonNegative(q, s - 1);
    assert q * s == q * (s - 1) + q;
  }

  /** The chunks of `[0, n)` follow one another and the last one ends at `n`. */
  lemma Chunks(n: nat, c: nat)
    requires 0 < n && c < ChunkCount(n)
    ensures var start := c * ChunkSize(n);
            var end := ChunkEnd(start, ChunkSize(n), n);
            && start < end <= n && end <= start + ChunkSize(n)
            && (end < n ==> (c + 1) * ChunkSize(n) == end)
            && (end == n <==> c == ChunkCount(n) - 1)
  {
    ChunkStarts(n, c);
    ChunkStarts(n, c + 1);
    var s := ChunkSize(n);
    assert (c + 1) * s == c * s + s;
    hide ChunkSize; hide ChunkCount;
  }
}
