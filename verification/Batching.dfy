/**
 Batching preserves the meaning of the loop under interruption: whatever an
 environment that plays by the promotion protocol does to the bound, the
 batched loop runs the original body on the same values in the same order, and
 leaves with the same exit values, as the original loop run without any
 interruption to the bound at which the batched loop stopped.
 */
module Batching {
  import opened LoopIR
  import opened OriginalLoop
  import opened Fable
  import Gem

  /**
   `trace` is possible when the bound is `bound`, the last published progress is
   `progress`, and a handler that knows the factor `k` may strike once, between
   any two events.
   */
  ghost predicate Legal(trace: seq<Event>, k: pos, progress: int, bound: int, shortened: bool)
    decreases |trace|, if shortened then 0 else 1
  {
    || trace == []
    || (!shortened && bound - progress > k && Legal(trace, k, progress, progress + k, true))
    || match trace[0]
       case Load(b) => b == bound && Legal(trace[1..], k, progress, bound, shortened)
       case Store(x) => Legal(trace[1..], k, x, bound, shortened)
       case Run(_) => Legal(trace[1..], k, progress, bound, shortened)
  }

  /** Every load of `trace` reads `b`. */
  predicate Reads(trace: seq<Event>, b: int) {
    forall i :: 0 <= i < |trace| && trace[i].Load? ==> trace[i].bound == b
  }

  /** The progress published last. */
  function LastStore(trace: seq<Event>, progress: int): int {
    if trace == [] then progress
    else LastStore(trace[1..], if trace[0].Store? then trace[0].progress else progress)
  }

  /** The handler strikes after `n` events: it finds more than the factor left, and shortens the
      bound to the published progress plus the factor. */
  ghost predicate StruckAt(trace: seq<Event>, k: pos, progress: int, bound: int, n: nat) {
    && n <= |trace| && Reads(trace[..n], bound)
    && bound - LastStore(trace[..n], progress) > k
    && Reads(trace[n..], LastStore(trace[..n], progress) + k)
  }

  lemma {:induction false} LegalReads(trace: seq<Event>, k: pos, progress: int, bound: int)
    ensures Legal(trace, k, progress, bound, true) <==> Reads(trace, bound)
    decreases |trace|
  {
    if trace != [] {
      var next := if trace[0].Store? then trace[0].progress else progress;
      LegalReads(trace[1..], k, next, bound);
      ReadsFirst(trace, bound);
      hide Reads;
    }
  }

  lemma ReadsFirst(trace: seq<Event>, b: int)
    requires trace != []
    ensures Reads(trace, b) <==> (trace[0].Load? ==> trace[0].bound == b) && Reads(trace[1..], b)
  {
    if Reads(trace[1..], b) && (trace[0].Load? ==> trace[0].bound == b) {
      forall i | 0 <= i < |trace| && trace[i].Load? ensures trace[i].bound == b {
        assert i > 0 ==> trace[i] == trace[1..][i - 1];
      }
    }
    if Reads(trace, b) {
      forall i | 0 <= i < |trace[1..]| && trace[1..][i].Load? ensures trace[1..][i].bound == b {
        assert trace[1..][i] == trace[i + 1];
      }
    }
  }

  /** A trace is legal exactly when the handler never strikes, or strikes once, at some moment. */
  lemma {:induction false} LegalIff(trace: seq<Event>, k: pos, progress: int, bound: int)
    ensures Legal(trace, k, progress, bound, false)
       <==> Reads(trace, bound) || exists n :: StruckAt(trace, k, progress, bound, n)
    decreases |trace|
  {
    StruckNow(trace, k, progress, bound);
    LegalReads(trace, k, progress, progress + k);
    if trace != [] {
      var next := if trace[0].Store? then trace[0].progress else progress;
      ReadsFirst(trace, bound);
      LegalIff(trace[1..], k, next, bound);
      LegalFirst(trace, k, progress, bound);
      hide StruckAt; hide Reads; hide Legal;
      if n: nat :| StruckAt(trace, k, progress, bound, n) {
        if n > 0 { StruckLater(trace, k, progress, bound, n - 1); }
      }
      if m: nat :| StruckAt(trace[1..], k, next, bound, m) {
        StruckLater(trace, k, progress, bound, m);
      }
    }
  }

  lemma LegalFirst(trace: seq<Event>, k: pos, progress: int, bound: int)
    requires trace != []
    ensures var next := if trace[0].Store? then trace[0].progress else progress;
            Legal(trace, k, progress, bound, false)
            <==> || (bound - progress > k && Legal(trace, k, progress, progress + k, true))
                 || ((trace[0].Load? ==> trace[0].bound == bound) && Legal(trace[1..], k, next, bound, false))
  {
  }

  lemma StruckNow(trace: seq<Event>, k: pos, progress: int, bound: int)
    ensures StruckAt(trace, k, progress, bound, 0) <==> bound - progress > k && Reads(trace, progress + k)
  {
    assert trace[..0] == [] && trace[0..] == trace;
  }

  lemma StruckLater(trace: seq<Event>, k: pos, progress: int, bound: int, n: nat)
    requires trace != []
    ensures var next := if trace[0].Store? then trace[0].progress else progress;
            StruckAt(trace, k, progress, bound, n + 1)
            <==> (trace[0].Load? ==> trace[0].bound == bound) && StruckAt(trace[1..], k, next, bound, n)
  {
    if n + 1 <= |trace| {
      var s := trace[..n + 1];
      assert s[0] == trace[0] && s[1..] == trace[1..][..n] && trace[n + 1..] == trace[1..][n..];
      ReadsFirst(s, bound);
      hide Reads;
    }
  }

  /** What the handler may have done to the bound meanwhile. */
  ghost predicate Struck(k: pos, progress: int, bound: int, shortened: bool, bound': int, shortened': bool) {
    || (bound' == bound && shortened' == shortened)
    || (!shortened && bound - progress > k && bound' == progress + k && shortened')
  }

  lemma LegalLoad(b: int, rest: seq<Event>, k: pos, progress: int, bound: int, shortened: bool)
    returns (bound': int, shortened': bool)
    requires Legal([Load(b)] + rest, k, progress, bound, shortened)
    ensures Struck(k, progress, bound, shortened, bound', shortened')
    ensures b == bound' && Legal(rest, k, progress, bound', shortened')
  {
    var t := [Load(b)] + rest;
    assert t[0] == Load(b) && t[1..] == rest;
    bound', shortened' := bound, shortened;
    if !(b == bound && Legal(rest, k, progress, bound, shortened)) {
      bound', shortened' := progress + k, true;
    }
  }

  lemma LegalStore(x: int, rest: seq<Event>, k: pos, progress: int, bound: int, shortened: bool)
    returns (bound': int, shortened': bool)
    requires Legal([Store(x)] + rest, k, progress, bound, shortened)
    ensures Struck(k, progress, bound, shortened, bound', shortened')
    ensures Legal(rest, k, x, bound', shortened')
  {
    var t := [Store(x)] + rest;
    assert t[0] == Store(x) && t[1..] == rest;
    bound', shortened' := bound, shortened;
    if !Legal(rest, k, x, bound, shortened) {
      bound', shortened' := progress + k, true;
    }
  }

  lemma LegalRun(v: Vec, rest: seq<Event>, k: pos, progress: int, bound: int, shortened: bool)
    returns (bound': int, shortened': bool)
    requires Legal([Run(v)] + rest, k, progress, bound, shortened)
    ensures Struck(k, progress, bound, shortened, bound', shortened')
    ensures Legal(rest, k, progress, bound', shortened')
  {
    var t := [Run(v)] + rest;
    assert t[0] == Run(v) && t[1..] == rest;
    bound', shortened' := bound, shortened;
    if !Legal(rest, k, progress, bound, shortened) {
      bound', shortened' := progress + k, true;
    }
  }

  lemma {:induction false} LegalRuns(p: Protocol, v: Vec, n: nat, rest: seq<Event>, k: pos, progress: int, bound: int,
                                     shortened: bool) returns (bound': int, shortened': bool)
    requires Legal(Runs(p, v, n) + rest, k, progress, bound, shortened)
    ensures Struck(k, progress, bound, shortened, bound', shortened')
    ensures Legal(rest, k, progress, bound', shortened')
    decreases n
  {
    bound', shortened' := bound, shortened;
    if n == 0 {
      assert Runs(p, v, 0) + rest == rest;
    } else {
      assert Runs(p, v, n) + rest == [Run(v)] + (Runs(p, Turn(p, v), n - 1) + rest);
      hide Legal;
      bound', shortened' := LegalRun(v, Runs(p, Turn(p, v), n - 1) + rest, k, progress, bound, shortened);
      bound', shortened' := LegalRuns(p, Turn(p, v), n - 1, rest, k, progress, bound', shortened');
    }
  }

  // ---------- iterations ----------

  /** The header PHIs of every iteration of a trace, in order. */
  function Bodies(trace: seq<Event>): seq<Vec> {
    if trace == [] then []
    else (if trace[0].Run? then [trace[0].phis] else []) + Bodies(trace[1..])
  }

  lemma {:induction false} BodiesAppend(s: seq<Event>, t: seq<Event>)
    ensures Bodies(s + t) == Bodies(s) + Bodies(t)
    decreases |s|
  {
    if s == [] {
      assert s + t == t;
    } else {
      assert (s + t)[1..] == s[1..] + t;
      BodiesAppend(s[1..], t);
    }
  }

  /** The header PHIs of `n` iterations from `v` on. */
  function Iterations(p: Protocol, v: Vec, n: nat): seq<Vec>
    decreases n
  {
    if n == 0 then [] else [v] + Iterations(p, Turn(p, v), n - 1)
  }

  lemma {:induction false} BodiesOfRuns(p: Protocol, v: Vec, n: nat)
    ensures Bodies(Runs(p, v, n)) == Iterations(p, v, n)
    decreases n
  {
    if n > 0 {
      BodiesOfRuns(p, Turn(p, v), n - 1);
      assert Runs(p, v, n)[1..] == Runs(p, Turn(p, v), n - 1);
    }
  }

  lemma {:induction false} IterationsAdd(p: Protocol, v: Vec, m: nat, n: nat)
    ensures Iterations(p, v, m + n) == Iterations(p, v, m) + Iterations(p, Nth(p, v, m), n)
    ensures Nth(p, v, m + n) == Nth(p, Nth(p, v, m), n)
    decreases m
  {
    if m > 0 {
      IterationsAdd(p, Turn(p, v), m - 1, n);
    }
  }

  lemma {:induction false} NthIndex(p: Protocol, v: Vec, n: nat)
    requires Accepted(p) && |v| == |p.init|
    ensures |Nth(p, v, n)| == |p.init| && Index(p, Nth(p, v, n)) == Index(p, v) + n
    decreases n
  {
    if n > 0 {
      assert Turn(p, v)[p.ind] == v[p.ind] + 1;
      NthIndex(p, Turn(p, v), n - 1);
    }
  }

  /** A loop left between two iterations hands over what it would have handed over after the last. */
  lemma ResumeIsExit(p: Protocol, v: Vec)
    requires Accepted(p) && |v| == |p.init|
    ensures ResumeOf(p, Turn(p, v)) == ExitOf(p, v)
  {
    var u := Turn(p, v);
    forall j | 0 <= j < |p.exits| ensures ResumeOf(p, u)[j] == ExitOf(p, v)[j] {
      if !p.exits[j].Invariant? {
        assert p.exits[j] in p.latch;
        var i := FirstLatch(p.latch, p.exits[j]);
        assert u[i] == Eval(p.latch[i], v, p.body(v));
      }
    }
  }

  /** The exit values after `n` iterations from `v`. */
  function ValuesAfter(p: Protocol, v: Vec, n: nat): Vec {
    if n == 0 then ResumeOf(p, v) else ExitOf(p, Nth(p, v, n - 1))
  }

  lemma ValuesAfterAdd(p: Protocol, v: Vec, m: nat, n: nat)
    requires Accepted(p) && |v| == |p.init|
    ensures ValuesAfter(p, Nth(p, v, m), n) == ValuesAfter(p, v, m + n)
  {
    hide Accepted; hide ResumeOf; hide ExitOf; hide Turn;
    if n > 0 {
      IterationsAdd(p, v, m, n - 1);
    } else if m > 0 {
      NthIndex(p, v, m - 1);
      NthSucc(p, v, m - 1);
      hide Nth;
      ResumeIsExit(p, Nth(p, v, m - 1));
    }
  }

  /** What a finished execution did: `n` iterations from `v` on, up to exactly the last bound read. */
  ghost predicate Did(p: Protocol, v: Vec, n: nat, o: Outcome) {
    && o.Left?
    && Bodies(o.trace) == Iterations(p, v, n)
    && o.values == ValuesAfter(p, v, n)
    && o.trace != [] && o.trace[|o.trace| - 1] == Load(Index(p, v) + n)
  }

  lemma DidAfter(p: Protocol, v: Vec, m: nat, n: nat, t: seq<Event>, o: Outcome)
    requires Accepted(p) && |v| == |p.init|
    requires Bodies(t) == Iterations(p, v, m) && Did(p, Nth(p, v, m), n, o)
    ensures Did(p, v, m + n, After(t, o))
  {
    hide Bodies; hide Iterations; hide Nth; hide ValuesAfter; hide Accepted;
    BodiesAppend(t, o.trace);
    IterationsAdd(p, v, m, n);
    NthIndex(p, v, m);
    ValuesAfterAdd(p, v, m, n);
  }

  /** The scalar loop, under any legal environment. */
  lemma {:induction false} ScalarDoes(p: Protocol, k: pos, v: Vec, bounds: seq<int>, bound: int, shortened: bool)
    returns (n: nat)
    requires Accepted(p) && |v| == |p.init| && Index(p, v) < bound
    requires Scalar(p, v, bounds).Left? && Legal(Scalar(p, v, bounds).trace, k, Index(p, v), bound, shortened)
    ensures 1 <= n && Index(p, v) + n <= bound && Did(p, v, n, Scalar(p, v, bounds))
    decreases |bounds|
  {
    hide Legal; hide Accepted; hide Turn; hide ExitOf; hide Did; hide Scalar; hide Bodies; hide Nth; hide Iterations;
    ScalarReads(p, v);
    var u, t, o := ScalarTurn(p, v, bounds);
    var b, s := LegalTurn(v, Index(p, u), bounds[0], o.trace, k, Index(p, v), bound, shortened);
    if Index(p, u) < bounds[0] {
      var m := ScalarDoes(p, k, u, bounds[1..], b, s);
      n := 1 + m;
      DidAfter(p, v, 1, m, t, o);
    } else {
      n := 1;
      LastTurn(p, v, t, bounds[0]);
    }
  }

  lemma ScalarReads(p: Protocol, v: Vec)
    ensures Scalar(p, v, []).Waiting?
  {
  }

  /** The first turn of a scalar loop that has a bound to read, and what follows it. */
  lemma ScalarTurn(p: Protocol, v: Vec, bounds: seq<int>) returns (u: Vec, t: seq<Event>, o: Outcome)
    requires Accepted(p) && |v| == |p.init| && bounds != []
    ensures u == Turn(p, v) == Nth(p, v, 1) && |u| == |p.init| && Index(p, u) == Index(p, v) + 1
    ensures t == [Run(v), Store(Index(p, u)), Load(bounds[0])] && Bodies(t) == Iterations(p, v, 1) == [v]
    ensures o == if Index(p, u) < bounds[0] then Scalar(p, u, bounds[1..]) else Left(ExitOf(p, v), [])
    ensures Scalar(p, v, bounds) == After(t, o)
  {
    u := Turn(p, v);
    NthIndex(p, v, 1);
    assert Nth(p, v, 1) == Nth(p, u, 0) == u && Iterations(p, v, 1) == [v] + Iterations(p, u, 0);
    t := [Run(v), Store(Index(p, u)), Load(bounds[0])];
    BodiesOfTurn(v, Index(p, u), bounds[0]);
    o := if Index(p, u) < bounds[0] then Scalar(p, u, bounds[1..]) else Left(ExitOf(p, v), []);
    hide Accepted; hide Turn; hide ExitOf; hide Bodies; hide Nth; hide Iterations;
    assert [Run(v), Store(Index(p, u))] + [Load(bounds[0])] == t;
    assert t + [] == t;
  }

  lemma LastTurn(p: Protocol, v: Vec, t: seq<Event>, b: int)
    requires Bodies(t) == Iterations(p, v, 1) && t != [] && t[|t| - 1] == Load(b) && b == Index(p, v) + 1
    ensures Did(p, v, 1, After(t, Left(ExitOf(p, v), [])))
  {
    hide ExitOf; hide Bodies; hide Iterations; hide Index; hide ValuesAfter;
    assert t + [] == t;
    ValuesAfterOne(p, v);
  }

  lemma ValuesAfterOne(p: Protocol, v: Vec)
    ensures ValuesAfter(p, v, 1) == ExitOf(p, v)
  {
    hide ExitOf;
  }

  lemma BodiesOfTurn(v: Vec, x: int, b: int)
    ensures Bodies([Run(v), Store(x), Load(b)]) == [v]
  {
    assert [Load(b)][1..] == [] && Bodies([Load(b)]) == [];
    assert [Store(x), Load(b)][1..] == [Load(b)] && Bodies([Store(x), Load(b)]) == [];
    assert [Run(v), Store(x), Load(b)][1..] == [Store(x), Load(b)];
  }

  /** One iteration, its progress store and the bound load after it. */
  lemma LegalTurn(v: Vec, x: int, b: int, rest: seq<Event>, k: pos, progress: int, bound: int, shortened: bool)
    returns (bound': int, shortened': bool)
    requires Legal([Run(v), Store(x), Load(b)] + rest, k, progress, bound, shortened)
    requires x == progress + 1 <= bound
    ensures b == bound' && x <= bound' <= bound && Legal(rest, k, x, bound', shortened')
  {
    assert [Run(v), Store(x), Load(b)] + rest == [Run(v)] + ([Store(x)] + ([Load(b)] + rest));
    hide Legal;
    bound', shortened' := LegalRun(v, [Store(x)] + ([Load(b)] + rest), k, progress, bound, shortened);
    bound', shortened' := LegalStore(x, [Load(b)] + rest, k, progress, bound', shortened');
    bound', shortened' := LegalLoad(b, rest, k, x, bound', shortened');
  }

  lemma CleanupDoes(p: Protocol, k: pos, v: Vec, bounds: seq<int>, bound: int, shortened: bool) returns (n: nat)
    requires Accepted(p) && |v| == |p.init| && Index(p, v) <= bound
    requires Cleanup(p, v, bounds).Left? && Legal(Cleanup(p, v, bounds).trace, k, Index(p, v), bound, shortened)
    ensures (Index(p, v) < bound ==> 1 <= n) && Index(p, v) + n <= bound && Did(p, v, n, Cleanup(p, v, bounds))
  {
    hide Legal; hide Accepted; hide Scalar;
    var t := [Load(bounds[0])];
    assert t[1..] == [] && Bodies(t) == [];
    assert t + [] == t;
    if Index(p, v) < bounds[0] {
      var b, s := LegalLoad(bounds[0], Scalar(p, v, bounds[1..]).trace, k, Index(p, v), bound, shortened);
      n := ScalarDoes(p, k, v, bounds[1..], b, s);
      DidAfter(p, v, 0, n, t, Scalar(p, v, bounds[1..]));
    } else {
      var b, s := LegalLoad(bounds[0], [], k, Index(p, v), bound, shortened);
      n := 0;
    }
  }

  /** The batched loop, under any legal environment. */
  lemma {:induction false} BatchedDoes(p: Protocol, k: pos, v: Vec, bounds: seq<int>, bound: int, shortened: bool)
    returns (n: nat)
    requires Accepted(p) && |v| == |p.init| && Index(p, v) <= bound
    requires Batched(p, k, v, bounds).Left? && Legal(Batched(p, k, v, bounds).trace, k, Index(p, v), bound, shortened)
    ensures (Index(p, v) < bound ==> 1 <= n) && Index(p, v) + n <= bound && Did(p, v, n, Batched(p, k, v, bounds))
    decreases |bounds|
  {
    hide Legal; hide Accepted; hide Cleanup; hide Did;
    var load := [Load(bounds[0])];
    assert load[1..] == [] && Bodies(load) == [];
    if Index(p, v) + k - 1 < bounds[0] {
      var u := Nth(p, v, k);
      NthIndex(p, v, k);
      var o := Batched(p, k, u, bounds[1..]);
      var b, s := LegalBatch(p, v, k, Index(p, u), bounds[0], o.trace, bound, shortened);
      var m := BatchedDoes(p, k, u, bounds[1..], b, s);
      n := k + m;
      var t := load + Runs(p, v, k) + [Store(Index(p, u))];
      BodiesOfBatch(p, v, k, bounds[0], Index(p, u));
      DidAfter(p, v, k, m, t, o);
    } else {
      var o := Cleanup(p, v, bounds[1..]);
      var b, s := LegalLoad(bounds[0], o.trace, k, Index(p, v), bound, shortened);
      n := CleanupDoes(p, k, v, bounds[1..], b, s);
      DidAfter(p, v, 0, n, load, o);
    }
  }

  lemma BodiesOfBatch(p: Protocol, v: Vec, k: pos, b: int, x: int)
    ensures Bodies([Load(b)] + Runs(p, v, k) + [Store(x)]) == Iterations(p, v, k)
  {
    BodiesOfRuns(p, v, k);
    BodiesAppend([Load(b)] + Runs(p, v, k), [Store(x)]);
    BodiesAppend([Load(b)], Runs(p, v, k));
    assert [Load(b)][1..] == [] && [Store(x)][1..] == [];
  }

  /** A batch that fits the bound just loaded fits every bound the handler can set meanwhile. */
  lemma LegalBatch(p: Protocol, v: Vec, k: pos, x: int, b: int, rest: seq<Event>, bound: int, shortened: bool)
    returns (bound': int, shortened': bool)
    requires Legal([Load(b)] + Runs(p, v, k) + [Store(x)] + rest, k, Index(p, v), bound, shortened)
    requires x == Index(p, v) + k <= b && Index(p, v) <= bound
    ensures x <= bound' <= bound && Legal(rest, k, x, bound', shortened')
  {
    assert [Load(b)] + Runs(p, v, k) + [Store(x)] + rest == [Load(b)] + (Runs(p, v, k) + ([Store(x)] + rest));
    hide Legal;
    bound', shortened' := LegalLoad(b, Runs(p, v, k) + ([Store(x)] + rest), k, Index(p, v), bound, shortened);
    bound', shortened' := LegalRuns(p, v, k, [Store(x)] + rest, k, Index(p, v), bound', shortened');
    bound', shortened' := LegalStore(x, rest, k, Index(p, v), bound', shortened');
  }

  // ---------- the original loop without interruption ----------

  function Constant(n: nat, e: int): seq<int> {
    seq(n, _ => e)
  }

  /** Run against a constant bound `n` iterations away, the original does these `n` iterations. */
  lemma {:induction false} UninterruptedDoes(p: Protocol, v: Vec, n: pos)
    requires Accepted(p) && |v| == |p.init|
    ensures Did(p, v, n, Scalar(p, v, Constant(n, Index(p, v) + n)))
    decreases n
  {
    hide Accepted; hide Turn; hide ExitOf; hide Did; hide Scalar;
    var e := Index(p, v) + n;
    var bounds := Constant(n, e);
    assert bounds[1..] == Constant(n - 1, e);
    var u, t, o := ScalarTurn(p, v, bounds);
    if n > 1 {
      UninterruptedDoes(p, u, n - 1);
      DidAfter(p, v, 1, n - 1, t, o);
    } else {
      LastTurn(p, v, t, e);
    }
  }

  /**
   The batched loop, entered with iterations to do and interrupted in any legal
   way, amounts to the original run without interruption to a constant bound:
   the one at which the batched loop stopped.
   */
  lemma BatchedKeepsMeaning(p: Protocol, k: pos, bounds: seq<int>, bound: int) returns (n: pos)
    requires Accepted(p) && Index(p, p.init) < bound
    requires var o := Batched(p, k, p.init, bounds); o.Left? && Legal(o.trace, k, Index(p, p.init), bound, false)
    ensures var o := Batched(p, k, p.init, bounds);
            var e := Index(p, p.init) + n;
            var o' := Scalar(p, p.init, Constant(n, e));
            && e <= bound && o.trace != [] && o.trace[|o.trace| - 1] == Load(e)
            && o'.Left? && o.values == o'.values && Bodies(o.trace) == Bodies(o'.trace)
  {
    hide Batched; hide Scalar; hide Legal; hide Accepted; hide ValuesAfter; hide Iterations;
    n := BatchedDoes(p, k, p.init, bounds, bound, false);
    UninterruptedDoes(p, p.init, n);
  }

  // ---------- the rewritten programs ----------

  /** `s` has left the loop, interrupted only as the protocol allows. */
  ghost predicate LeavesLegally(p: Protocol, k: pos, bound: int, s: State) {
    s.Finished? && Legal(s.trace, k, Index(p, p.init), bound, false)
  }

  /** `s` stopped at the bound `e`, with the iterations and the exit values of `s'`. */
  ghost predicate SameLoop(s: State, s': State, e: int) {
    && s.Finished? && s'.Finished? && s.values == s'.values
    && LastBound(s.trace, 0) == e && Bodies(s.trace) == Bodies(s'.trace)
  }

  /**
   `formBatchedLoop` preserves meaning: an execution of the rewritten blocks
   that leaves the loop, under any legal environment, has the exit values and
   the iterations of the original blocks executed against the constant bound
   `e` at which it stopped, which is the last bound it read.
   */
  lemma FableKeepsMeaning(p: Protocol, k: pos, bounds: seq<int>, bound: int, steps: nat) returns (n: pos, steps': nat)
    requires Accepted(p) && p.ind < |p.latch| && Index(p, p.init) < bound
    requires LeavesLegally(p, k, bound, Steps(p, BatchedCfg(p, k), Start(bounds), steps))
    ensures var e := Index(p, p.init) + n;
            e <= bound && SameLoop(Steps(p, BatchedCfg(p, k), Start(bounds), steps),
                                   Steps(p, OriginalCfg(p), Start(Constant(n, e)), steps'), e)
  {
    hide Legal; hide Accepted; hide BatchedCfg; hide OriginalCfg; hide Batched; hide Scalar; hide Steps; hide Start;
    var m := FableRun(p, k, bounds);
    EndIsFinal(p, BatchedCfg(p, k), Start(bounds), steps, m);
    NoTrace(Steps(p, BatchedCfg(p, k), Start(bounds), steps), Batched(p, k, p.init, bounds));
    n := BatchedKeepsMeaning(p, k, bounds, bound);
    var bounds' := Constant(n, Index(p, p.init) + n);
    steps' := OriginalRun(p, bounds');
    NoTrace(Steps(p, OriginalCfg(p), Start(bounds'), steps'), Scalar(p, p.init, bounds'));
  }

  /** The last bound a trace read, if `before` was the last one read before. */
  function LastBound(trace: seq<Event>, before: int): int
    decreases |trace|
  {
    if trace == [] then before
    else
      var e := trace[|trace| - 1];
      if e.Load? then e.bound else LastBound(trace[..|trace| - 1], before)
  }

  lemma {:induction false} LastBoundAppend(s: seq<Event>, t: seq<Event>, before: int)
    ensures LastBound(s + t, before) == LastBound(t, LastBound(s, before))
    decreases |t|
  {
    if t == [] {
      assert s + t == s;
    } else {
      var n := |t| - 1;
      assert (s + t)[..|s + t| - 1] == s + t[..n];
      LastBoundAppend(s, t[..n], before);
    }
  }

  lemma NoTrace(s: State, o: Outcome)
    requires Ends(s, [], o)
    ensures !s.At? && (s.Finished? <==> o.Left?) && s.trace == o.trace && (s.Finished? ==> s.values == o.values)
  {
    assert [] + o.trace == o.trace;
  }

  /** The rewrite of the clone chain preserves meaning in the same sense. */
  lemma GemKeepsMeaning(p: Protocol, count: pos, cfg: Cfg, bounds: seq<int>, bound: int, steps: nat)
    returns (n: pos, steps': nat)
    requires Accepted(p) && p.exits == [] && p.ind < |p.latch| == |p.init| && Index(p, p.init) < bound
    requires Gem.IsGem(p, count, cfg)
    requires LeavesLegally(p, count, bound, Steps(p, cfg, Start(bounds), steps))
    ensures var e := Index(p, p.init) + n;
            e <= bound && SameLoop(Steps(p, cfg, Start(bounds), steps),
                                   Steps(p, OriginalCfg(p), Start(Constant(n, e)), steps'), e)
  {
    hide Legal; hide Accepted; hide OriginalCfg; hide Batched; hide Scalar; hide Steps; hide Start; hide Gem.IsGem;
    var m := Gem.GemRun(p, count, cfg, bounds);
    EndIsFinal(p, cfg, Start(bounds), steps, m);
    NoTrace(Steps(p, cfg, Start(bounds), steps), Batched(p, count, p.init, bounds));
    n := BatchedKeepsMeaning(p, count, bounds, bound);
    var bounds' := Constant(n, Index(p, p.init) + n);
    steps' := OriginalRun(p, bounds');
    NoTrace(Steps(p, OriginalCfg(p), Start(bounds'), steps'), Scalar(p, p.init, bounds'));
  }

  /** On the loops both passes accept, their rewrites have the same volatile loads and stores
      and the same iterations, in the same order, for every sequence of bounds read. */
  lemma SameTraces(p: Protocol, k: pos, cfg: Cfg, bounds: seq<int>, m: nat, n: nat)
    requires Accepted(p) && p.exits == [] && p.ind < |p.latch| == |p.init| && Gem.IsGem(p, k, cfg)
    requires !Steps(p, BatchedCfg(p, k), Start(bounds), m).At? && !Steps(p, cfg, Start(bounds), n).At?
    ensures Steps(p, BatchedCfg(p, k), Start(bounds), m) == Steps(p, cfg, Start(bounds), n)
  {
    hide Accepted; hide BatchedCfg; hide Batched; hide Steps; hide Start; hide Gem.IsGem;
    var m' := FableRun(p, k, bounds);
    EndIsFinal(p, BatchedCfg(p, k), Start(bounds), m, m');
    var n' := Gem.GemRun(p, k, cfg, bounds);
    EndIsFinal(p, cfg, Start(bounds), n, n');
  }

  /** Both rewritten loops do come to their next missing bound, or to their end. */
  lemma BothHalt(p: Protocol, k: pos, cfg: Cfg, bounds: seq<int>) returns (m: nat, n: nat)
    requires Accepted(p) && p.exits == [] && p.ind < |p.latch| == |p.init| && Gem.IsGem(p, k, cfg)
    ensures !Steps(p, BatchedCfg(p, k), Start(bounds), m).At? && !Steps(p, cfg, Start(bounds), n).At?
  {
    hide Accepted; hide BatchedCfg; hide Batched; hide Steps; hide Start; hide Gem.IsGem;
    m := FableRun(p, k, bounds);
    n := Gem.GemRun(p, k, cfg, bounds);
  }
}
