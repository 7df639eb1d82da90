/** The arithmetic of `parfor_`'s promotion handler, on unbounded and on machine integers. */
module Handler {

  function Midpoint(i: int, j: int): int {
    i + (j - i) / 2
  }

  /** `NoSplit`: at most `factor` iterations are left beyond the published progress. */
  datatype Split = NoSplit | Split(prom: int, mid: int)

  /** Where the handler cuts `[progress, end)`: the loop keeps `[progress, prom)`, `l` gets
      `[prom, mid)` and `r` gets `[mid, end)`. */
  function SplitRange(progress: int, end: int, factor: int): (s: Split)
    ensures s.Split? && 0 < factor ==> progress < s.prom <= s.mid < end
  {
    if end - progress <= factor then NoSplit
    else Split(progress + factor, Midpoint(progress + factor, end))
  }

  /** The handler splits exactly when more than the factor is left.  The parts tile the range; `r`
      always has work, `l` unless a single iteration is left for both, and `r` is the larger half. */
  lemma SplitTiles(progress: int, end: int, factor: int)
    requires 0 < factor
    ensures SplitRange(progress, end, factor).Split? <==> progress + factor < end
    ensures SplitRange(progress, end, factor).Split? ==>
              var s := SplitRange(progress, end, factor);
              && s.prom == progress + factor && s.prom <= s.mid < end
              && (s.prom < s.mid <==> 2 <= end - s.prom)
              && 0 <= (end - s.mid) - (s.mid - s.prom) <= 1
  {
  }

  // ---------- machine integers ----------

  /** An integer type by its least and greatest value. */
  datatype Width = Width(lo: int, hi: int)

  predicate Fits(w: Width, x: int) {
    w.lo <= x <= w.hi
  }

  function Count(w: Width): int {
    w.hi - w.lo + 1
  }

  ghost predicate IsWidth(w: Width) {
    w.lo <= 0 < w.hi
  }

  /** `sig` has the size of `w` or a multiple of it. */
  ghost predicate AtLeastAsWide(sig: Width, w: Width)
    requires IsWidth(w)
  {
    Count(sig) % Count(w) == 0
  }

  /** The value of `x` after conversion to `w`. */
  function Wrap(w: Width, x: int): (r: int)
    requires IsWidth(w)
    ensures Fits(w, r) && (Fits(w, x) ==> r == x)
  {
    w.lo + (x - w.lo) % Count(w)
  }

  /** The handler's cut, every operation in the index type `w`. */
  function FixedSplit(w: Width, progress: int, end: int, factor: int): Split
    requires IsWidth(w)
  {
    if Wrap(w, end - progress) <= factor then NoSplit
    else
      var prom := Wrap(w, progress + factor);
      Split(prom, Wrap(w, prom + Wrap(w, end - prom) / 2))
  }

  /** With `j - i` and the factor representable, nothing the handler computes wraps. */
  lemma FixedSplitExact(w: Width, i: int, progress: int, end: int, j: int, factor: int)
    requires IsWidth(w) && Fits(w, i) && Fits(w, j) && Fits(w, j - i)
    requires i <= progress <= end <= j && 0 < factor && Fits(w, factor)
    ensures FixedSplit(w, progress, end, factor) == SplitRange(progress, end, factor)
    ensures Fits(w, end - progress)
    ensures var s := SplitRange(progress, end, factor);
            s.Split? ==>
              && Fits(w, s.prom) && Fits(w, end - s.prom) && Fits(w, s.mid)
              && (s.prom - progress) + (s.mid - s.prom) + (end - s.mid) == end - progress
              && 0 <= s.mid - s.prom < j - i && 0 < end - s.mid < j - i
  {
  }

  /** A difference that is not representable wraps to a negative one: the handler takes what is
      left for exhausted, although more than the factor is left. */
  lemma WideRangeNeverSplits(w: Width, progress: int, end: int, factor: int)
    requires IsWidth(w) && w.lo <= progress <= end <= w.hi && 0 < factor && Fits(w, factor)
    requires !Fits(w, end - progress)
    ensures FixedSplit(w, progress, end, factor) == NoSplit && SplitRange(progress, end, factor).Split?
  {
    var d := end - progress;
    ModUnique(d - w.lo, 1, Count(w), d - w.lo - Count(w));
  }

  /** A handler call decides and cuts as on unbounded integers exactly when what is left is a
      representable number. */
  lemma SplitExactIff(w: Width, progress: int, end: int, factor: int)
    requires IsWidth(w) && w.lo <= progress <= end <= w.hi && 0 < factor && Fits(w, factor)
    ensures FixedSplit(w, progress, end, factor) == SplitRange(progress, end, factor) <==> Fits(w, end - progress)
  {
    if Fits(w, end - progress) {
      FixedSplitExact(w, progress, progress, end, end, factor);
    } else {
      WideRangeNeverSplits(w, progress, end, factor);
    }
  }

  /** What a caller of `parfor_` can check: all handler calls over `[i, j)` are right exactly when
      `j - i` is representable. */
  lemma RangeExactIff(w: Width, i: int, j: int, factor: int)
    requires IsWidth(w) && w.lo <= i <= j <= w.hi && 0 < factor && Fits(w, factor)
    ensures (forall p, e :: i <= p <= e <= j ==> FixedSplit(w, p, e, factor) == SplitRange(p, e, factor))
       <==> Fits(w, j - i)
  {
    hide FixedSplit; hide SplitRange;
    forall p, e | i <= p <= e <= j
      ensures FixedSplit(w, p, e, factor) == SplitRange(p, e, factor) <==> Fits(w, e - p)
    {
      SplitExactIff(w, p, e, factor);
    }
    if !Fits(w, j - i) {
      assert FixedSplit(w, i, j, factor) != SplitRange(i, j, factor);
    }
  }

  /** Publishing an index through a signal-safe type that is at least as wide loses nothing. */
  lemma PublishedIndex(sig: Width, w: Width, x: int)
    requires IsWidth(sig) && IsWidth(w) && AtLeastAsWide(sig, w) && Fits(w, x)
    ensures Wrap(w, Wrap(sig, x)) == x
  {
    var s, n := Count(sig), Count(w);
    var k, m := (x - sig.lo) / s, s / n;
    DivMod(x - sig.lo, s);
    DivMod(s, n);
    var y := x - k * s;
    assert y == Wrap(sig, x);
    assert k * s == (k * m) * n by { Regroup(k, m, n); }
    assert y - w.lo == (x - w.lo) + (-(k * m)) * n by { Regroup(k, m, n); }
    ModShift(x - w.lo, -(k * m), n);
    Residue(x - w.lo, n);
  }

  lemma Residue(x: int, n: int)
    requires 0 <= x < n
    ensures x % n == x
  {
  }

  lemma DivMod(x: int, n: int)
    requires 0 < n
    ensures x == (x / n) * n + x % n
  {
  }

  lemma Regroup(k: int, m: int, n: int)
    ensures k * (m * n) == (k * m) * n && -(k * (m * n)) == (-(k * m)) * n
  {
  }

  lemma ModShift(x: int, k: int, n: int)
    requires 0 < n
    ensures (x + k * n) % n == x % n
  {
    DivMod(x, n);
    assert x + k * n == (x / n + k) * n + x % n;
    ModUnique(x + k * n, x / n + k, n, x % n);
  }

  lemma ModUnique(x: int, q: int, n: int, r: int)
    requires 0 <= r < n && x == q * n + r
    ensures x % n == r
  {
    DivMod(x, n);
    assert (q - x / n) * n == x % n - r;
    Multiple(q - x / n, n);
  }

  lemma DivUnique(x: int, q: int, n: int, r: int)
    requires 0 <= r < n && x == q * n + r
    ensures x / n == q && x % n == r
  {
    ModUnique(x, q, n, r);
    DivMod(x, n);
    assert (x / n - q) * n == 0;
    Multiple(x / n - q, n);
  }

  lemma Multiple(d: int, n: int)
    requires 0 < n
    ensures 0 < d ==> n <= d * n
    ensures d < 0 ==> d * n <= -n
  {
    if 0 < d {
      NonNegative(d - 1, n);
    } else if d < 0 {
      NonNegative(-d - 1, n);
    }
  }

  lemma NonNegative(a: int, b: int)
    requires 0 <= a && 0 <= b
    ensures 0 <= a * b
  {
  }
}
