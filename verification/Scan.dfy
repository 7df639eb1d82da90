/**
 The parallel in-place scan: mutual recursion of `scan`, upsweep and downsweep
 over one array, with promotion, stealing and a failed allocation of the
 partials left open.  It refines the plain prefix loop.
 */
module Scan {
  import opened Tasks
  import opened Handler
  import opened Thirds

  /** `a` with the elements of `s` added on the right. */
  function Acc<A>(m: Monoid<A>, a: A, s: seq<A>): A {
    if s == [] then a else m.op(Acc(m, a, s[..|s| - 1]), s[|s| - 1])
  }

  lemma AccOne<A>(m: Monoid<A>, a: A, s: seq<A>, x: A)
    ensures Acc(m, a, s + [x]) == m.op(Acc(m, a, s), x)
  {
    assert (s + [x])[..|s|] == s;
  }

  lemma {:induction false} AccAppend<A>(m: Monoid<A>, a: A, s: seq<A>, t: seq<A>)
    ensures Acc(m, a, s + t) == Acc(m, Acc(m, a, s), t)
    decreases |t|
  {
    if t == [] {
      assert s + t == s;
    } else {
      var n := |t| - 1;
      assert (s + t)[..|s + t| - 1] == s + t[..n];
      AccAppend(m, a, s, t[..n]);
    }
  }

  /** A total computed apart from the identity can be added to any prefix. */
  lemma {:induction false} AccFromIdentity<A(!new)>(m: Monoid<A>, a: A, s: seq<A>)
    requires Lawful(m)
    ensures m.op(a, Acc(m, m.identity, s)) == Acc(m, a, s)
    decreases |s|
  {
    if s != [] {
      AccFromIdentity(m, a, s[..|s| - 1]);
    }
  }

  /** The inclusive prefixes of `s` onto `a`: what the plain loop leaves in place of `s`. */
  function ScanOf<A>(m: Monoid<A>, a: A, s: seq<A>): seq<A> {
    seq(|s|, k requires 0 <= k < |s| => Acc(m, a, s[..k + 1]))
  }

  lemma ScanOfAppend<A>(m: Monoid<A>, a: A, s: seq<A>, t: seq<A>)
    ensures ScanOf(m, a, s + t) == ScanOf(m, a, s) + ScanOf(m, Acc(m, a, s), t)
  {
    forall k | 0 <= k < |s| + |t|
      ensures ScanOf(m, a, s + t)[k] == (ScanOf(m, a, s) + ScanOf(m, Acc(m, a, s), t))[k]
    {
      if k < |s| {
        assert (s + t)[..k + 1] == s[..k + 1];
      } else {
        assert (s + t)[..k + 1] == s + t[..k + 1 - |s|];
        AccAppend(m, a, s, t[..k + 1 - |s|]);
      }
    }
  }

  /** `s` with `t` written over it from `lo` on. */
  function Splice<T>(s: seq<T>, lo: nat, t: seq<T>): (r: seq<T>)
    requires lo + |t| <= |s|
    ensures |r| == |s|
  {
    s[..lo] + t + s[lo + |t|..]
  }

  lemma SpliceCommute<T>(s: seq<T>, i: nat, t: seq<T>, j: nat, u: seq<T>)
    requires i + |t| <= j && j + |u| <= |s|
    ensures Splice(Splice(s, i, t), j, u) == Splice(Splice(s, j, u), i, t)
  {
  }

  /** The array `s` when the first `p` elements of its segment `[lo, lo + n)` have been scanned. */
  function Scanned<A>(m: Monoid<A>, a: A, s: seq<A>, lo: nat, n: nat, p: nat): (r: seq<A>)
    requires p <= n && lo + n <= |s|
    ensures |r| == |s|
  {
    Splice(s, lo, ScanOf(m, a, s[lo..lo + p]))
  }

  /** Scanning the next part of the segment, from the prefix reached so far. */
  lemma ScanNext<A>(m: Monoid<A>, a: A, s: seq<A>, lo: nat, n: nat, p: nat, q: nat)
    requires p <= q <= n && lo + n <= |s|
    ensures Splice(Scanned(m, a, s, lo, n, p), lo + p, ScanOf(m, Acc(m, a, s[lo..lo + p]), s[lo + p..lo + q]))
         == Scanned(m, a, s, lo, n, q)
  {
    var x, y := s[lo..lo + p], s[lo + p..lo + q];
    assert s[lo..lo + q] == x + y;
    ScanLength(m, a, x);
    ScanLength(m, Acc(m, a, x), y);
    hide Acc; hide ScanOf; hide Splice;
    ScanOfAppend(m, a, x, y);
    SpliceOnward(s, lo, ScanOf(m, a, x), ScanOf(m, Acc(m, a, x), y));
  }

  /** A partly scanned segment: untouched from `p` on, and the prefix at its end before that. */
  lemma ScannedReads<A>(m: Monoid<A>, a: A, s: seq<A>, lo: nat, n: nat, p: nat, i: nat, j: nat)
    requires p <= i <= j <= n && lo + n <= |s|
    ensures var r := Scanned(m, a, s, lo, n, p);
            r[lo + i..lo + j] == s[lo + i..lo + j] && (0 < p ==> r[lo + p - 1] == Acc(m, a, s[lo..lo + p]))
  {
    var x := s[lo..lo + p];
    ScanLength(m, a, x);
    if 0 < p { LastPrefix(m, a, x); }
    hide Acc; hide ScanOf;
    SpliceAt(s, lo, ScanOf(m, a, x));
    hide Splice;
    SameWithin(Scanned(m, a, s, lo, n, p), s, lo + i, lo + j);
  }

  lemma LastPrefix<A>(m: Monoid<A>, a: A, x: seq<A>)
    requires x != []
    ensures |ScanOf(m, a, x)| == |x| && ScanOf(m, a, x)[|x| - 1] == Acc(m, a, x)
  {
    hide Acc;
    assert x[..|x| - 1 + 1] == x;
  }

  /** Writing `t`, then `u` right after it. */
  lemma SpliceOnward<T>(s: seq<T>, lo: nat, t: seq<T>, u: seq<T>)
    requires lo + |t| + |u| <= |s|
    ensures Splice(Splice(s, lo, t), lo + |t|, u) == Splice(s, lo, t + u)
  {
  }

  lemma SameWithin<T>(r: seq<T>, s: seq<T>, i: nat, j: nat)
    requires i <= j <= |r| == |s| && forall k :: i <= k < j ==> r[k] == s[k]
    ensures r[i..j] == s[i..j]
  {
  }

  lemma ScanNone<A>(m: Monoid<A>, a: A, s: seq<A>, lo: nat, n: nat)
    requires lo + n <= |s|
    ensures Acc(m, a, []) == a && Scanned(m, a, s, lo, n, 0) == s
  {
  }

  /** One iteration of the plain loop. */
  lemma ScanOne<A>(m: Monoid<A>, a: A, s: seq<A>, lo: nat, n: nat, i: nat)
    requires i < n && lo + n <= |s|
    ensures var r := Scanned(m, a, s, lo, n, i);
            var next := m.op(Acc(m, a, s[lo..lo + i]), r[lo + i]);
            next == Acc(m, a, s[lo..lo + i + 1]) && r[lo + i := next] == Scanned(m, a, s, lo, n, i + 1)
  {
    hide Acc; hide Scanned; hide ScanOf; hide Splice;
    var r := Scanned(m, a, s, lo, n, i);
    var b, x := Acc(m, a, s[lo..lo + i]), s[lo + i];
    ScannedAt(m, a, s, lo, n, i);
    ScanNext(m, a, s, lo, n, i, i + 1);
    OneMore(s, lo, i);
    AccOne(m, a, s[lo..lo + i], x);
    ScanOfOne(m, b, x);
    SpliceOne(r, lo + i, m.op(b, x));
  }

  lemma OneMore<T>(s: seq<T>, lo: nat, i: nat)
    requires lo + i < |s|
    ensures s[lo + i..lo + (i + 1)] == [s[lo + i]] && s[lo..lo + i + 1] == s[lo..lo + i] + [s[lo + i]]
  {
  }

  lemma SpliceOne<T>(s: seq<T>, k: nat, x: T)
    requires k < |s|
    ensures Splice(s, k, [x]) == s[k := x]
  {
  }

  lemma ScannedAt<A>(m: Monoid<A>, a: A, s: seq<A>, lo: nat, n: nat, i: nat)
    requires i < n && lo + n <= |s|
    ensures Scanned(m, a, s, lo, n, i)[lo + i] == s[lo + i]
  {
    ScanLength(m, a, s[lo..lo + i]);
    SpliceAt(s, lo, ScanOf(m, a, s[lo..lo + i]));
    hide ScanOf; hide Splice;
  }

  lemma ScanOfOne<A>(m: Monoid<A>, b: A, x: A)
    ensures ScanOf(m, b, [x]) == [m.op(b, x)]
  {
    AccOne(m, b, [], x);
    assert [] + [x] == [x] == [x][..0 + 1];
  }

  // ---------- the interruptible loop ----------

  /** The variables of one call of `scan` that its body and its promotion handler share. */
  class ScanFrame {
    const w: Width
    const n: nat
    var i: nat
    var sig_safe_i: nat
    var loop_end: nat
    var promoted: bool
    var enqueued: bool
    var upArr: nat
    var upN: nat

    constructor (w: Width, n: nat)
      requires IsMachine(w) && Fits(w, n + 5)
      ensures this.n == n && this.w == w && i == sig_safe_i == 0 && loop_end == n && !promoted && Valid()
    {
      this.w, this.n := w, n;
      i, sig_safe_i, loop_end, promoted, enqueued, upArr, upN := 0, 0, n, false, false, 0, 0;
    }

    /** Either `up` has not been enqueued and the loop runs to `n`, or it covers the thirds that
        the split point `loop_end` determines. */
    ghost predicate Valid()
      reads this
    {
      && IsMachine(w) && Fits(w, n + 5)
      && sig_safe_i <= i <= loop_end <= n && i <= sig_safe_i + 1
      && (!enqueued ==> loop_end == n)
      && (enqueued ==> promoted)
      && (enqueued ==>
            && 5 <= loop_end && upArr == Third1(loop_end, n) && upArr + upN == Third2(loop_end, n)
            && loop_end < upArr < upArr + upN < n)
    }

    /** The promotion callback of `scan`. */
    method Prom()
      requires Valid() && !promoted && !enqueued
      modifies this`loop_end, this`promoted, this`enqueued, this`upArr, this`upN
      ensures Valid() && promoted
      ensures loop_end == old(loop_end) || sig_safe_i + 5 == loop_end < old(loop_end)
      ensures enqueued <==> sig_safe_i + 10 <= n
      ensures enqueued ==>
                && loop_end == sig_safe_i + 5 && 5 * (upArr - loop_end) <= n - loop_end < 5 * (upArr - loop_end) + 5
                && n - (upArr + upN) == 2 * (upArr - loop_end)
      ensures enqueued ==> CutRange(sig_safe_i, n) == Cut(loop_end, upArr, upArr + upN)
    {
      promoted := true;
      FixedCutExact(w, sig_safe_i, n);
      CutShape(sig_safe_i, n);
      match FixedCut(w, sig_safe_i, n) {
        case NoCut =>
        case Cut(prom, t1, t2) =>
          loop_end := prom;
          upArr, upN := t1, t2 - t1;
          enqueued := true;
      }
    }

    /** A heartbeat, or none, between two micro-steps. */
    method Interrupt()
      requires Valid()
      modifies this`loop_end, this`promoted, this`enqueued, this`upArr, this`upN
      ensures Valid() && (promoted == old(promoted) ==> loop_end == old(loop_end))
      ensures loop_end == old(loop_end) || sig_safe_i + 5 == loop_end < old(loop_end)
    {
      var beat: bool := *;
      if beat && !promoted { Prom(); }
    }

    /** `for (; i < loop_end; sig_safe_i = ++i) { a = binop(a, arr[i]); arr[i] = a; }` */
    method Loop<A(!new)>(m: Monoid<A>, a0: A, arr: array<A>, lo: nat)
      requires Valid() && i == sig_safe_i == 0 && lo + n <= arr.Length
      modifies this, arr
      ensures Valid() && i == loop_end
      ensures arr[..] == Scanned(m, a0, old(arr[..]), lo, n, i)
    {
      hide Acc; hide Scanned; hide Third1; hide Third2;
      ghost var s := arr[..];
      var a := a0;
      ScanNone(m, a0, s, lo, n);
      assert s[lo..lo] == [];
      while true
        invariant Valid() && i == sig_safe_i && a == Acc(m, a0, s[lo..lo + i])
        invariant arr[..] == Scanned(m, a0, s, lo, n, i)
        decreases n - i
      {
        Interrupt();
        if !(i < loop_end) { break; }
        a := Iteration(m, a0, s, a, arr, lo);
      }
      Interrupt();
    }

    /** One iteration, with its progress store. */
    method Iteration<A(!new)>(m: Monoid<A>, ghost a0: A, ghost s: seq<A>, a: A, arr: array<A>,
                              lo: nat) returns (next: A)
      requires Valid() && i == sig_safe_i < loop_end && lo + n <= arr.Length == |s|
      requires a == Acc(m, a0, s[lo..lo + i]) && arr[..] == Scanned(m, a0, s, lo, n, i)
      modifies this, arr
      ensures Valid() && i == sig_safe_i == old(i) + 1 <= n
      ensures next == Acc(m, a0, s[lo..lo + i]) && arr[..] == Scanned(m, a0, s, lo, n, i)
    {
      hide Acc; hide Scanned; hide Third1; hide Third2; hide IsMachine; hide Fits;
      ScanOne(m, a0, s, lo, n, i);
      next := m.op(a, arr[lo + i]);
      Interrupt();
      arr[lo + i] := next;
      Interrupt();
      i := i + 1;
      Interrupt();
      sig_safe_i := i;
    }
  }

  // ---------- the sweeps ----------

  /** The totals of the first `c` chunks of `x`. */
  function Totals<A>(m: Monoid<A>, x: seq<A>, c: nat): (t: seq<A>)
    requires x != [] && c <= ChunkCount(|x|)
    ensures |t| == c
  {
    seq(c, j requires 0 <= j < c => Acc(m, m.identity, Chunk(x, j)))
  }

  function Chunk<A>(x: seq<A>, c: nat): seq<A>
    requires x != [] && c < ChunkCount(|x|)
  {
    Chunks(|x|, c);
    x[c * ChunkSize(|x|)..ChunkEnd(c * ChunkSize(|x|), ChunkSize(|x|), |x|)]
  }

  /** The end of the `c`-th chunk of `x`. */
  function End<A>(x: seq<A>, c: nat): (e: nat)
    requires x != [] && c < ChunkCount(|x|)
    ensures e <= |x|
  {
    Chunks(|x|, c);
    ChunkEnd(c * ChunkSize(|x|), ChunkSize(|x|), |x|)
  }

  /** The prefixes of the chunk totals are the prefixes of `x` at the chunk ends. */
  lemma {:induction false} TotalsPrefix<A(!new)>(m: Monoid<A>, x: seq<A>, c: nat)
    requires Lawful(m) && x != [] && c < ChunkCount(|x|)
    ensures Acc(m, m.identity, Totals(m, x, c + 1)) == Acc(m, m.identity, x[..End(x, c)])
    decreases c
  {
    hide Acc; hide ChunkSize; hide ChunkCount; hide Lawful;
    var start, e := c * ChunkSize(|x|), End(x, c);
    Chunks(|x|, c);
    var total := Acc(m, m.identity, Chunk(x, c));
    assert Totals(m, x, c + 1) == Totals(m, x, c) + [total];
    AccOne(m, m.identity, Totals(m, x, c), total);
    if c == 0 {
      assert start == 0;
      AccNone(m, m.identity);
      assert x[..start] == [] && Totals(m, x, c) == [];
    } else {
      Chunks(|x|, c - 1);
      TotalsPrefix(m, x, c - 1);
      assert End(x, c - 1) == start;
    }
    AccFromIdentity(m, Acc(m, m.identity, x[..start]), Chunk(x, c));
    assert x[..e] == x[..start] + Chunk(x, c);
    AccAppend(m, m.identity, x[..start], Chunk(x, c));
  }

  /** The prefix before the `c`-th chunk of `x`. */
  lemma PrefixBefore<A(!new)>(m: Monoid<A>, b: A, x: seq<A>, c: nat)
    requires Lawful(m) && x != [] && 0 < c < ChunkCount(|x|)
    ensures c * ChunkSize(|x|) <= |x|
    ensures m.op(b, Acc(m, m.identity, x[..End(x, c - 1)])) == Acc(m, b, x[..c * ChunkSize(|x|)])
  {
    Chunks(|x|, c);
    Chunks(|x|, c - 1);
    AccFromIdentity(m, b, x[..End(x, c - 1)]);
  }

  /** The numbers below `n`. */
  function Below(n: nat): (s: set<nat>)
    ensures forall c: nat :: c in s <==> c < n
  {
    if n == 0 then {} else Below(n - 1) + {n - 1}
  }

  /** `parfor(start, end, ...)` with `binop`: the total of one chunk. */
  method Total<A(!new)>(m: Monoid<A>, arr: array<A>, lo: nat, hi: nat) returns (sum: A)
    requires lo <= hi <= arr.Length
    ensures sum == Acc(m, m.identity, arr[..][lo..hi])
  {
    ghost var s := arr[..];
    sum := m.identity;
    for k := lo to hi
      invariant sum == Acc(m, m.identity, s[lo..k])
    {
      assert s[lo..k + 1] == s[lo..k] + [s[k]];
      AccOne(m, m.identity, s[lo..k], s[k]);
      sum := m.op(sum, arr[k]);
    }
  }

  /** What the upsweep of `x` leaves in its result. */
  ghost predicate IsPartials<A(!new)>(m: Monoid<A>, x: seq<A>, partials: seq<A>)
    requires x != []
  {
    && ChunkCount(|x|) <= |partials|
    && forall c :: 0 <= c < ChunkCount(|x|) ==> partials[c] == Acc(m, m.identity, x[..End(x, c)])
  }

  /** `scan_upsweep`: the prefixes of the chunk totals, or nothing if the allocation `fails`.
      The chunks are totalled in any order. */
  method ScanUpsweep<A(!new)>(w: Width, m: Monoid<A>, arr: array<A>, lo: nat, n: nat, fails: bool)
    returns (partials: array?<A>)
    requires IsMachine(w) && Fits(w, n + 5)
    requires Lawful(m) && 0 < n && lo + n <= arr.Length
    ensures partials == null <==> fails
    ensures partials != null ==> fresh(partials) && IsPartials(m, arr[..][lo..lo + n], partials[..])
    decreases n, 2
  {
    hide Acc; hide ChunkSize; hide ChunkCount; hide Lawful; hide Totals; hide ScanOf; hide Splice; hide IsPartials;
    if fails { return null; }
    FewChunks(n);
    ghost var x := arr[..][lo..lo + n];
    var chunks := ChunkCount(n);
    partials := FillTotals(m, arr, lo, n);
    ghost var t := partials[..];
    assert t[0..0 + chunks] == t[..chunks];
    Scan(w, m, m.identity, partials, 0, chunks);
    PartialsOf(m, x, t, partials[..]);
  }

  /** The totals of all chunks, in any order. */
  method FillTotals<A(!new)>(m: Monoid<A>, arr: array<A>, lo: nat, n: nat) returns (partials: array<A>)
    requires 0 < n && lo + n <= arr.Length
    ensures fresh(partials) && partials.Length == n && ChunkCount(n) <= n
    ensures partials[..][..ChunkCount(n)] == Totals(m, arr[..][lo..lo + n], ChunkCount(n))
  {
    hide Acc; hide ChunkSize; hide ChunkCount; hide ChunkEnd; hide Totals; hide Chunk; hide Filling;
    partials := new A[n](_ => m.identity);
    var chunks := ChunkCount(n);
    FewChunks(n);
    ghost var x := arr[..][lo..lo + n];
    var todo := Below(chunks);
    NothingFilled(m, x, partials[..]);
    while todo != {}
      invariant todo <= Below(chunks) && arr[..][lo..lo + n] == x && Filling(m, x, partials[..], todo)
      decreases |todo|
    {
      var c :| c in todo;
      ghost var t := partials[..];
      FillOne(m, x, t, todo, c);
      var total := ChunkTotal(m, arr, lo, n, c);
      partials[c] := total;
      assert partials[..] == t[c := total];
      todo := todo - {c};
    }
    AllFilled(m, x, partials[..]);
  }

  method ChunkTotal<A(!new)>(m: Monoid<A>, arr: array<A>, lo: nat, n: nat, c: nat) returns (total: A)
    requires 0 < n && lo + n <= arr.Length && c < ChunkCount(n)
    ensures total == Acc(m, m.identity, Chunk(arr[..][lo..lo + n], c))
  {
    hide Acc; hide ChunkCount; hide Chunk;
    Chunks(n, c);
    ChunkAt(arr[..], lo, n, c);
    var size := ChunkSize(n);
    var start := c * size;
    total := Total(m, arr, lo + start, lo + ChunkEnd(start, size, n));
  }

  /** The totals of the chunks of `x` that are not in `todo` have been stored. */
  ghost predicate Filling<A>(m: Monoid<A>, x: seq<A>, t: seq<A>, todo: set<nat>)
    requires x != []
  {
    && ChunkCount(|x|) <= |t|
    && forall c: nat :: c < ChunkCount(|x|) && c !in todo ==> t[c] == Acc(m, m.identity, Chunk(x, c))
  }

  lemma NothingFilled<A>(m: Monoid<A>, x: seq<A>, t: seq<A>)
    requires x != [] && ChunkCount(|x|) <= |t|
    ensures Filling(m, x, t, Below(ChunkCount(|x|)))
  {
    hide Acc; hide ChunkCount; hide Chunk;
  }

  lemma FillOne<A>(m: Monoid<A>, x: seq<A>, t: seq<A>, todo: set<nat>, c: nat)
    requires x != [] && Filling(m, x, t, todo) && c < ChunkCount(|x|)
    ensures c < |t| && Filling(m, x, t[c := Acc(m, m.identity, Chunk(x, c))], todo - {c})
  {
    hide Acc; hide ChunkCount; hide Chunk;
  }

  lemma AllFilled<A>(m: Monoid<A>, x: seq<A>, t: seq<A>)
    requires x != [] && Filling(m, x, t, {})
    ensures ChunkCount(|x|) <= |t| && t[..ChunkCount(|x|)] == Totals(m, x, ChunkCount(|x|))
  {
    hide Acc; hide ChunkCount; hide Chunk;
  }

  /** A chunk of a segment, as a part of the whole. */
  lemma ChunkAt<A>(s: seq<A>, lo: nat, n: nat, c: nat)
    requires 0 < n && lo + n <= |s| && c < ChunkCount(n)
    ensures var start := c * ChunkSize(n);
            var end := ChunkEnd(start, ChunkSize(n), n);
            start <= end <= n && s[lo + start..lo + end] == Chunk(s[lo..lo + n], c)
  {
    Chunks(n, c);
    var start := c * ChunkSize(n);
    var end := ChunkEnd(start, ChunkSize(n), n);
    SliceOfSlice(s, lo, n, start, end);
    hide ChunkSize; hide ChunkEnd; hide ChunkCount;
  }

  /** Scanning the totals gives the prefixes at the chunk ends. */
  lemma PartialsOf<A(!new)>(m: Monoid<A>, x: seq<A>, t: seq<A>, r: seq<A>)
    requires Lawful(m) && x != [] && ChunkCount(|x|) <= |t| == |x|
    requires t[..ChunkCount(|x|)] == Totals(m, x, ChunkCount(|x|))
    requires r == Splice(t, 0, ScanOf(m, m.identity, t[..ChunkCount(|x|)]))
    ensures IsPartials(m, x, r)
  {
    hide Acc; hide ChunkSize; hide ChunkCount; hide Lawful;
    var chunks := ChunkCount(|x|);
    forall c | 0 <= c < chunks ensures r[c] == Acc(m, m.identity, x[..End(x, c)]) {
      assert t[..chunks][..c + 1] == Totals(m, x, c + 1);
      TotalsPrefix(m, x, c);
    }
  }

  /** Of the segment `x`, the chunks in `todo` are untouched and the others scanned. */
  ghost predicate Sweeping<A(!new)>(m: Monoid<A>, b: A, x: seq<A>, todo: set<nat>, y: seq<A>)
    requires x != []
  {
    && |y| == |x|
    && forall k :: 0 <= k < |x| ==> y[k] == if ChunkOf(k, ChunkSize(|x|)) in todo then x[k] else Acc(m, b, x[..k + 1])
  }

  lemma ChunkSwept<A(!new)>(m: Monoid<A>, b: A, x: seq<A>, todo: set<nat>, y: seq<A>, c: nat)
    requires x != [] && Sweeping(m, b, x, todo, y) && c in todo && c < ChunkCount(|x|)
    ensures var start := c * ChunkSize(|x|);
            var end := End(x, c);
            && start < end && y[start..end] == x[start..end]
            && |ScanOf(m, Acc(m, b, x[..start]), x[start..end])| == end - start
            && Sweeping(m, b, x, todo - {c}, Splice(y, start, ScanOf(m, Acc(m, b, x[..start]), x[start..end])))
  {
    hide Acc; hide ChunkSize; hide ChunkCount; hide ChunkOf; hide Splice; hide ScanOf; hide Sweeping;
    FewChunks(|x|);
    Chunks(|x|, c);
    var start, end := c * ChunkSize(|x|), End(x, c);
    forall k: nat | k < |x| ensures ChunkOf(k, ChunkSize(|x|)) == c <==> start <= k < end {
      ChunkIs(k, ChunkSize(|x|), c);
    }
    PartSwept(m, b, x, todo, y, c, start, end);
  }

  lemma PartSwept<A(!new)>(m: Monoid<A>, b: A, x: seq<A>, todo: set<nat>, y: seq<A>, c: nat, start: nat, end: nat)
    requires x != [] && 0 < ChunkSize(|x|) && Sweeping(m, b, x, todo, y) && c in todo && start <= end <= |x|
    requires forall k: nat :: k < |x| ==> (ChunkOf(k, ChunkSize(|x|)) == c <==> start <= k < end)
    ensures y[start..end] == x[start..end]
    ensures |ScanOf(m, Acc(m, b, x[..start]), x[start..end])| == end - start
    ensures Sweeping(m, b, x, todo - {c}, Splice(y, start, ScanOf(m, Acc(m, b, x[..start]), x[start..end])))
  {
    hide Acc; hide ChunkSize; hide ChunkOf; hide Splice; hide ScanOf;
    assert y[start..end] == x[start..end];
    var t := ScanOf(m, Acc(m, b, x[..start]), x[start..end]);
    ScanOfAt(m, b, x, start, end);
    SpliceAt(y, start, t);
  }

  lemma SpliceAt<T>(s: seq<T>, lo: nat, t: seq<T>)
    requires lo + |t| <= |s|
    ensures forall k :: 0 <= k < |s| ==> Splice(s, lo, t)[k] == if lo <= k < lo + |t| then t[k - lo] else s[k]
  {
  }

  /** The prefixes within a part of `x`, started from the prefix before it. */
  lemma ScanOfAt<A>(m: Monoid<A>, b: A, x: seq<A>, start: nat, end: nat)
    requires start <= end <= |x|
    ensures var t := ScanOf(m, Acc(m, b, x[..start]), x[start..end]);
            |t| == end - start && forall j :: 0 <= j < |t| ==> t[j] == Acc(m, b, x[..start + j + 1])
  {
    hide Acc;
    var t := ScanOf(m, Acc(m, b, x[..start]), x[start..end]);
    forall j | 0 <= j < |t| ensures t[j] == Acc(m, b, x[..start + j + 1]) {
      assert x[..start + j + 1] == x[..start] + x[start..end][..j + 1];
      AccAppend(m, b, x[..start], x[start..end][..j + 1]);
    }
  }

  /** Writing a part of a segment. */
  lemma SpliceWithin<T>(s: seq<T>, lo: nat, y: seq<T>, i: nat, t: seq<T>)
    requires lo + |y| <= |s| && i + |t| <= |y|
    ensures Splice(s, lo, y)[lo..lo + |y|] == y
    ensures Splice(Splice(s, lo, y), lo + i, t) == Splice(s, lo, Splice(y, i, t))
  {
  }

  /** `scan_downsweep`: every chunk is scanned from the prefix that ends before it, in any order. */
  method ScanDownsweep<A(!new)>(w: Width, m: Monoid<A>, partials: array<A>, arr: array<A>, lo: nat, n: nat)
    requires IsMachine(w) && Fits(w, n + 5)
    requires Lawful(m) && 0 < lo && 0 < n && lo + n <= arr.Length && partials != arr
    requires IsPartials(m, arr[..][lo..lo + n], partials[..])
    modifies arr
    ensures var s := old(arr[..]); arr[..] == Splice(s, lo, ScanOf(m, s[lo - 1], s[lo..lo + n]))
    decreases n, 2
  {
    hide Acc; hide ChunkSize; hide ChunkCount; hide Lawful; hide ChunkOf; hide ScanOf; hide Splice; hide Sweeping;
    hide IsPartials;
    var chunks := ChunkCount(n);
    ghost var s := arr[..];
    ghost var b, x := s[lo - 1], s[lo..lo + n];
    ghost var y := x;
    var todo := Below(chunks);
    SweepBegins(m, b, x);
    SpliceSame(s, lo, n);
    while todo != {}
      invariant todo <= Below(chunks) && |y| == n
      invariant Sweeping(m, b, x, todo, y) && arr[..] == Splice(s, lo, y)
      invariant IsPartials(m, x, partials[..])
      decreases |todo|
    {
      var c :| c in todo;
      SpliceBefore(s, lo, y);
      y := SweepChunk(w, m, partials, arr, lo, n, c, b, x, todo, s, y);
      todo := todo - {c};
    }
    SweepEnds(m, b, x, y);
  }

  lemma SpliceBefore<T>(s: seq<T>, lo: nat, t: seq<T>)
    requires 0 < lo && lo + |t| <= |s|
    ensures Splice(s, lo, t)[lo - 1] == s[lo - 1]
  {
  }

  lemma SpliceSame<T>(s: seq<T>, lo: nat, n: nat)
    requires lo + n <= |s|
    ensures Splice(s, lo, s[lo..lo + n]) == s
  {
  }

  lemma SliceOfSlice<A>(s: seq<A>, lo: nat, n: nat, i: nat, j: nat)
    requires i <= j <= n && lo + n <= |s|
    ensures s[lo + i..lo + j] == s[lo..lo + n][i..j]
  {
    var u, v := s[lo + i..lo + j], s[lo..lo + n][i..j];
    forall k | 0 <= k < |u| ensures u[k] == v[k] {
      assert s[lo + (i + k)] == s[lo..lo + n][i + k];
    }
  }

  /** One chunk of the downsweep. */
  method SweepChunk<A(!new)>(w: Width, m: Monoid<A>, partials: array<A>, arr: array<A>, lo: nat, n: nat, c: nat,
                             ghost b: A, ghost x: seq<A>, ghost todo: set<nat>, ghost s: seq<A>, ghost y: seq<A>)
    returns (ghost y': seq<A>)
    requires IsMachine(w) && Fits(w, n + 5)
    requires Lawful(m) && 0 < lo && 0 < n == |x| == |y| && lo + n <= arr.Length == |s| && partials != arr
    requires c in todo && c < ChunkCount(n) && IsPartials(m, x, partials[..]) && arr[..][lo - 1] == b
    requires Sweeping(m, b, x, todo, y) && arr[..] == Splice(s, lo, y)
    modifies arr
    ensures |y'| == n && Sweeping(m, b, x, todo - {c}, y') && arr[..] == Splice(s, lo, y')
    decreases n, 1
  {
    hide Acc; hide ChunkSize; hide ChunkCount; hide Lawful; hide ChunkOf; hide ScanOf; hide Splice; hide Sweeping;
    var size := ChunkSize(n);
    FewChunks(n);
    Chunks(n, c);
    ChunkSwept(m, b, x, todo, y, c);
    var start := c * size;
    var len := if size > n - start then n - start else size;
    var pfx := arr[lo - 1];
    if c != 0 {
      PrefixBefore(m, b, x, c);
      pfx := m.op(arr[lo - 1], partials[c - 1]);
    } else {
      assert x[..0] == [];
      AccNone(m, b);
    }
    ghost var t := ScanOf(m, Acc(m, b, x[..start]), x[start..start + len]);
    SpliceWithin(s, lo, y, start, t);
    SliceOfSlice(arr[..], lo, n, start, start + len);
    y' := Splice(y, start, t);
    Scan(w, m, pfx, arr, lo + start, len);
  }

  lemma AccNone<A>(m: Monoid<A>, b: A)
    ensures Acc(m, b, []) == b
  {
  }

  lemma SweepBegins<A(!new)>(m: Monoid<A>, b: A, x: seq<A>)
    requires x != []
    ensures Sweeping(m, b, x, Below(ChunkCount(|x|)), x)
  {
    FewChunks(|x|);
    forall k | 0 <= k < |x| ensures ChunkOf(k, ChunkSize(|x|)) in Below(ChunkCount(|x|)) {
      hide ChunkSize; hide ChunkCount; hide Below;
      ChunkIs(k, ChunkSize(|x|), ChunkOf(k, ChunkSize(|x|)));
      ChunkStarts(|x|, ChunkOf(k, ChunkSize(|x|)));
    }
  }

  lemma SweepEnds<A(!new)>(m: Monoid<A>, b: A, x: seq<A>, y: seq<A>)
    requires x != [] && Sweeping(m, b, x, {}, y)
    ensures y == ScanOf(m, b, x)
  {
    hide Acc; hide ChunkSize; hide ChunkOf;
  }

  // ---------- scan ----------

  /**
   `scan` with a start value, in place on `arr[lo..lo + n]`: for every promotion
   point, stolen or not, with or without memory for the partials, the array
   ends as the plain sequential loop leaves it, and nothing else changes.
   */
  method Scan<A(!new)>(w: Width, m: Monoid<A>, a: A, arr: array<A>, lo: nat, n: nat)
    requires IsMachine(w) && Fits(w, n + 5)
    requires Lawful(m) && lo + n <= arr.Length
    modifies arr
    ensures arr[..] == Splice(old(arr[..]), lo, ScanOf(m, a, old(arr[..])[lo..lo + n]))
    decreases n, 0
  {
    hide Acc; hide Third1; hide Third2; hide FixedThird1; hide FixedThird2; hide ScanOf; hide Splice; hide Lawful;
    ghost var s := arr[..];
    var frame := new ScanFrame(w, n);
    frame.Loop(m, a, arr, lo);
    var i := frame.i;
    if frame.promoted && i != n {
      FixedThirdsExact(w, i, n);
      Parts(w, m, a, arr, lo, n, i, FixedThird1(w, i, n), FixedThird2(w, i, n), s);
    }
  }

  /** The three parts of a promoted scan.  A thief may take the upsweep of the second part before
      the first part is scanned or after it; it reads nothing that the first part writes, so the
      two stand for its running at any time in between. */
  method Parts<A(!new)>(w: Width, m: Monoid<A>, ghost a: A, arr: array<A>, lo: nat, n: nat, i: nat, t1: nat, t2: nat,
                        ghost s: seq<A>)
    requires IsMachine(w) && Fits(w, n + 5)
    requires Lawful(m) && lo + n <= arr.Length == |s| && 0 < i < t1 < t2 < n
    requires arr[..] == Scanned(m, a, s, lo, n, i)
    modifies arr
    ensures arr[..] == Scanned(m, a, s, lo, n, n)
    decreases n - 1, 3
  {
    hide Acc; hide Scanned; hide ScanOf; hide Splice; hide Lawful; hide IsPartials;
    var stolen: bool, early: bool, fails: bool := *, *, *;
    var partials: array?<A> := null;
    ScannedReads(m, a, s, lo, n, i, t1, t2);
    if stolen && early { partials := ScanUpsweep(w, m, arr, lo + t1, t2 - t1, fails); }
    ScanNext(m, a, s, lo, n, i, t1);
    ScannedReads(m, a, s, lo, n, i, i, t1);
    Scan(w, m, arr[lo + i - 1], arr, lo + i, t1 - i);
    ScannedReads(m, a, s, lo, n, t1, t1, t2);
    if stolen && !early { partials := ScanUpsweep(w, m, arr, lo + t1, t2 - t1, fails); }
    Rest(w, m, a, partials, arr, lo, n, t1, t2, s);
  }

  /** The second and the last part: through the stolen upsweep's partials, or as one more scan. */
  method Rest<A(!new)>(w: Width, m: Monoid<A>, ghost a: A, partials: array?<A>, arr: array<A>, lo: nat, n: nat,
                       t1: nat, t2: nat, ghost s: seq<A>)
    requires IsMachine(w) && Fits(w, n + 5)
    requires Lawful(m) && lo + n <= arr.Length == |s| && 0 < t1 < t2 < n
    requires arr[..] == Scanned(m, a, s, lo, n, t1)
    requires partials != null ==> partials != arr && IsPartials(m, s[lo + t1..lo + t2], partials[..])
    modifies arr
    ensures arr[..] == Scanned(m, a, s, lo, n, n)
    decreases n - t1, 1
  {
    hide Acc; hide Scanned; hide ScanOf; hide Splice; hide Lawful; hide IsPartials;
    if partials != null {
      Stolen(w, m, a, partials, arr, lo, n, t1, t2, s);
    } else {
      ScanNext(m, a, s, lo, n, t1, n);
      ScannedReads(m, a, s, lo, n, t1, t1, n);
      Scan(w, m, arr[lo + t1 - 1], arr, lo + t1, n - t1);
    }
  }

  /** The `par` of the downsweep and the last scan.  Neither writes what the other reads, so
      running them in either order stands for running them at once. */
  method Stolen<A(!new)>(w: Width, m: Monoid<A>, ghost a: A, partials: array<A>, arr: array<A>, lo: nat, n: nat,
                         t1: nat, t2: nat, ghost s: seq<A>)
    requires IsMachine(w) && Fits(w, n + 5)
    requires Lawful(m) && lo + n <= arr.Length == |s| && 0 < t1 < t2 < n && partials != arr
    requires arr[..] == Scanned(m, a, s, lo, n, t1) && IsPartials(m, s[lo + t1..lo + t2], partials[..])
    modifies arr
    ensures arr[..] == Scanned(m, a, s, lo, n, n)
    decreases n - t1, 0
  {
    hide Acc; hide Scanned; hide ScanOf; hide Splice; hide Lawful; hide IsPartials; hide Mid;
    BothOrders(m, a, s, lo, n, t1, t2);
    ghost var r := arr[..];
    var downsweepFirst: bool := *;
    if downsweepFirst {
      ScanDownsweep(w, m, partials, arr, lo + t1, t2 - t1);
      assert arr[..] == Splice(r, lo + t1, Mid(m, a, s, lo, t1, t2)) by { MidIs(m, a, s, lo, t1, t2); }
      ScanLast(w, m, a, partials, arr, lo, n, t1, t2, s);
    } else {
      ScanLast(w, m, a, partials, arr, lo, n, t1, t2, s);
      ScanDownsweep(w, m, partials, arr, lo + t1, t2 - t1);
      MidIs(m, a, s, lo, t1, t2);
    }
  }

  /** What the downsweep and the last scan write. */
  ghost function Mid<A>(m: Monoid<A>, a: A, s: seq<A>, lo: nat, t1: nat, t2: nat): (x: seq<A>)
    requires t1 <= t2 && lo + t2 <= |s|
    ensures |x| == t2 - t1
  {
    ScanOf(m, Acc(m, a, s[lo..lo + t1]), s[lo + t1..lo + t2])
  }

  lemma MidIs<A>(m: Monoid<A>, a: A, s: seq<A>, lo: nat, t1: nat, t2: nat)
    requires t1 <= t2 && lo + t2 <= |s|
    ensures Mid(m, a, s, lo, t1, t2) == ScanOf(m, Acc(m, a, s[lo..lo + t1]), s[lo + t1..lo + t2])
  {
    hide ScanOf;
  }

  /** The two parts may be written in either order, and each leaves what the other reads. */
  lemma BothOrders<A>(m: Monoid<A>, a: A, s: seq<A>, lo: nat, n: nat, t1: nat, t2: nat)
    requires 0 < t1 < t2 < n && lo + n <= |s|
    ensures var r, mid, end := Scanned(m, a, s, lo, n, t1), Mid(m, a, s, lo, t1, t2), Mid(m, a, s, lo, t2, n);
            var x, y := Splice(r, lo + t1, mid), Splice(r, lo + t2, end);
            && Splice(x, lo + t2, end) == Scanned(m, a, s, lo, n, n) == Splice(y, lo + t1, mid)
            && x[lo + t1 - 1] == y[lo + t1 - 1] == Acc(m, a, s[lo..lo + t1])
            && r[lo + t1 - 1] == x[lo + t1 - 1] == y[lo + t1 - 1]
            && r[lo + t2..lo + n] == x[lo + t2..lo + n] == s[lo + t2..lo + n]
            && r[lo + t1..lo + t2] == y[lo + t1..lo + t2] == s[lo + t1..lo + t2]
  {
    hide Acc; hide ScanOf; hide Splice; hide Scanned;
    var r, mid, end := Scanned(m, a, s, lo, n, t1), Mid(m, a, s, lo, t1, t2), Mid(m, a, s, lo, t2, n);
    ScanNext(m, a, s, lo, n, t1, t2);
    ScanNext(m, a, s, lo, n, t2, n);
    ScannedReads(m, a, s, lo, n, t1, t1, t2);
    ScannedReads(m, a, s, lo, n, t1, t2, n);
    SpliceCommute(r, lo + t1, mid, lo + t2, end);
    SpliceAt(r, lo + t1, mid);
    SpliceAt(r, lo + t2, end);
    SameWithin(Splice(r, lo + t1, mid), r, lo + t2, lo + n);
    SameWithin(Splice(r, lo + t2, end), r, lo + t1, lo + t2);
  }

  lemma ScanLength<A>(m: Monoid<A>, a: A, s: seq<A>)
    ensures |ScanOf(m, a, s)| == |s|
  {
  }

  /** The last part: its start value, then one more scan. */
  method ScanLast<A(!new)>(w: Width, m: Monoid<A>, ghost a: A, partials: array<A>, arr: array<A>, lo: nat, n: nat,
                           t1: nat, t2: nat, ghost s: seq<A>)
    requires IsMachine(w) && Fits(w, n + 5)
    requires Lawful(m) && 0 < t1 < t2 < n && lo + n <= |s| == arr.Length && partials != arr
    requires arr[..][lo + t1 - 1] == Acc(m, a, s[lo..lo + t1]) && IsPartials(m, s[lo + t1..lo + t2], partials[..])
    requires arr[..][lo + t2..lo + n] == s[lo + t2..lo + n]
    modifies arr
    ensures arr[..] == Splice(old(arr[..]), lo + t2, Mid(m, a, s, lo, t2, n))
    decreases n - t2, 1
  {
    hide Acc; hide ScanOf; hide Splice; hide Lawful; hide IsPartials; hide Mid;
    var sum02 := LastStart(m, a, partials, arr, lo, t1, t2, s);
    MidIs(m, a, s, lo, t2, n);
    Scan(w, m, sum02, arr, lo + t2, n - t2);
  }

  /** The start value of the last part. */
  method LastStart<A(!new)>(m: Monoid<A>, ghost a: A, partials: array<A>, arr: array<A>, lo: nat, t1: nat, t2: nat,
                            ghost s: seq<A>) returns (sum02: A)
    requires Lawful(m) && 0 < t1 < t2 && lo + t2 <= |s| == arr.Length
    requires arr[..][lo + t1 - 1] == Acc(m, a, s[lo..lo + t1]) && IsPartials(m, s[lo + t1..lo + t2], partials[..])
    ensures sum02 == Acc(m, a, s[lo..lo + t2])
  {
    hide Acc; hide ChunkSize; hide Lawful;
    ghost var x := s[lo + t1..lo + t2];
    var last := (t2 - t1 - 1) / ChunkSize(t2 - t1);
    Chunks(t2 - t1, last);
    assert x[..End(x, last)] == x;
    var sum12 := partials[last];
    sum02 := m.op(arr[lo + t1 - 1], sum12);
    AccFromIdentity(m, Acc(m, a, s[lo..lo + t1]), x);
    AccAppend(m, a, s[lo..lo + t1], x);
    assert s[lo..lo + t2] == s[lo..lo + t1] + x;
  }
}
