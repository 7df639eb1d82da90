/**
 What batching is for, and what the promotion handler relies on, as statements
 about traces: how many bound loads and progress stores a loop makes, and that
 at every moment the published progress is the index reached, no iteration runs
 at or beyond the bound last loaded, and none runs `k` or more ahead of the
 published progress.
 */
module Pacing {
  import opened Handler
  import opened LoopIR
  import opened Fable
  import Gem
  import opened Batching
  import opened Transplant
  import opened StepChain

  // ---------- the pace of a loop, for every sequence of bounds ----------

  /** `trace` keeps the pace from an index, a published progress and a loaded bound on. */
  ghost predicate Paced(p: Protocol, trace: seq<Event>, k: pos, index: int, progress: int, bound: int)
    decreases |trace|
  {
    trace == [] ||
    match trace[0]
    case Load(b) => Paced(p, trace[1..], k, index, progress, b)
    case Store(x) => x == index && Paced(p, trace[1..], k, index, x, bound)
    case Run(v) =>
      Index(p, v) == index < bound && index < progress + k && Paced(p, trace[1..], k, index + 1, progress, bound)
  }

  lemma PacedLoad(p: Protocol, b: int, rest: seq<Event>, k: pos, index: int, progress: int, bound: int)
    requires Paced(p, rest, k, index, progress, b)
    ensures Paced(p, [Load(b)] + rest, k, index, progress, bound)
  {
    assert ([Load(b)] + rest)[1..] == rest;
  }

  lemma PacedStore(p: Protocol, rest: seq<Event>, k: pos, index: int, progress: int, bound: int)
    requires Paced(p, rest, k, index, index, bound)
    ensures Paced(p, [Store(index)] + rest, k, index, progress, bound)
  {
    assert ([Store(index)] + rest)[1..] == rest;
  }

  lemma PacedRun(p: Protocol, v: Vec, rest: seq<Event>, k: pos, index: int, progress: int, bound: int)
    requires Index(p, v) == index < bound && index < progress + k
    requires Paced(p, rest, k, index + 1, progress, bound)
    ensures Paced(p, [Run(v)] + rest, k, index, progress, bound)
  {
    assert ([Run(v)] + rest)[1..] == rest;
  }

  lemma {:induction false} PacedRuns(p: Protocol, v: Vec, s: nat, rest: seq<Event>, k: pos, progress: int, bound: int)
    requires Accepted(p) && |v| == |p.init|
    requires Index(p, v) + s <= bound && Index(p, v) + s <= progress + k
    requires Paced(p, rest, k, Index(p, v) + s, progress, bound)
    ensures Paced(p, Runs(p, v, s) + rest, k, Index(p, v), progress, bound)
    decreases s
  {
    hide Paced; hide Accepted; hide Turn; hide Index;
    if s == 0 {
      assert [] + rest == rest;
    } else {
      NthIndex(p, v, 1);
      OneTurn(p, v);
      hide Nth;
      var u := Turn(p, v);
      PacedRuns(p, u, s - 1, rest, k, progress, bound);
      PacedRun(p, v, Runs(p, u, s - 1) + rest, k, Index(p, v), progress, bound);
      assert Runs(p, v, s) + rest == [Run(v)] + (Runs(p, u, s - 1) + rest);
    }
  }

  lemma OneTurn(p: Protocol, v: Vec)
    ensures Nth(p, v, 1) == Turn(p, v) && Runs(p, v, 1) == [Run(v)]
  {
    assert Nth(p, Turn(p, v), 0) == Turn(p, v);
    assert Runs(p, Turn(p, v), 0) == [];
  }

  /** A batch of `s` iterations and its progress store. */
  lemma PacedBatch(p: Protocol, v: Vec, s: pos, rest: seq<Event>, k: pos, bound: int)
    requires Accepted(p) && |v| == |p.init| && s <= k && Index(p, v) + s <= bound
    requires Paced(p, rest, k, Index(p, v) + s, Index(p, v) + s, bound)
    ensures Paced(p, Runs(p, v, s) + ([Store(Index(p, v) + s)] + rest), k, Index(p, v), Index(p, v), bound)
  {
    hide Accepted; hide Paced;
    PacedStore(p, rest, k, Index(p, v) + s, Index(p, v), bound);
    PacedRuns(p, v, s, [Store(Index(p, v) + s)] + rest, k, Index(p, v), bound);
  }

  lemma PacedNone(p: Protocol, k: pos, index: int, bound: int)
    ensures Paced(p, [], k, index, index, bound)
  {
  }

  /** One turn of the original loop. */
  lemma PacedTurn(p: Protocol, v: Vec, b: int, rest: seq<Event>, k: pos, bound: int)
    requires Accepted(p) && |v| == |p.init| && Index(p, v) < bound
    requires Paced(p, rest, k, Index(p, v) + 1, Index(p, v) + 1, b)
    ensures Paced(p, [Run(v), Store(Index(p, v) + 1), Load(b)] + rest, k, Index(p, v), Index(p, v), bound)
  {
    hide Accepted; hide Paced; hide Index;
    PacedLoad(p, b, rest, k, Index(p, v) + 1, Index(p, v) + 1, bound);
    OneTurn(p, v);
    PacedBatch(p, v, 1, [Load(b)] + rest, k, bound);
    var x := Index(p, v) + 1;
    assert [Run(v), Store(x), Load(b)] + rest == [Run(v)] + ([Store(x)] + ([Load(b)] + rest));
  }

  /** The original loop, entered below its bound. */
  lemma {:induction false} ScalarPaced(p: Protocol, v: Vec, bounds: seq<int>, k: pos, bound: int)
    requires Accepted(p) && |v| == |p.init| && Index(p, v) < bound
    ensures Paced(p, Scalar(p, v, bounds).trace, k, Index(p, v), Index(p, v), bound)
    decreases |bounds|
  {
    hide Accepted; hide ExitOf; hide Paced; hide Turn; hide Index; hide Scalar; hide Nth; hide Runs;
    if bounds == [] {
      LastRun(p, v);
      OneTurn(p, v);
      PacedNone(p, k, Index(p, v) + 1, bound);
      PacedBatch(p, v, 1, [], k, bound);
    } else {
      var u, t, o := ScalarTurn(p, v, bounds);
      if Index(p, u) < bounds[0] {
        ScalarPaced(p, u, bounds[1..], k, bounds[0]);
      } else {
        PacedNone(p, k, Index(p, u), bounds[0]);
      }
      PacedTurn(p, v, bounds[0], o.trace, k, bound);
    }
  }

  lemma LastRun(p: Protocol, v: Vec)
    requires Accepted(p) && |v| == |p.init|
    ensures Scalar(p, v, []).trace == [Run(v)] + ([Store(Index(p, v) + 1)] + [])
  {
    assert Turn(p, v)[p.ind] == v[p.ind] + 1;
    hide ExitOf;
  }

  lemma CleanupPaced(p: Protocol, v: Vec, bounds: seq<int>, k: pos, bound: int)
    requires Accepted(p) && |v| == |p.init|
    ensures Paced(p, Cleanup(p, v, bounds).trace, k, Index(p, v), Index(p, v), bound)
  {
    hide Accepted; hide Paced; hide Index; hide Scalar; hide ResumeOf;
    PacedNone(p, k, Index(p, v), bound);
    if bounds != [] {
      var rest := [];
      if Index(p, v) < bounds[0] {
        ScalarPaced(p, v, bounds[1..], k, bounds[0]);
        rest := Scalar(p, v, bounds[1..]).trace;
      } else {
        PacedNone(p, k, Index(p, v), bounds[0]);
        assert [Load(bounds[0])] + [] == [Load(bounds[0])];
      }
      PacedLoad(p, bounds[0], rest, k, Index(p, v), Index(p, v), bound);
    }
  }

  /** The batched loop keeps the pace, whatever bounds it reads. */
  lemma {:induction false} BatchedPaced(p: Protocol, k: pos, v: Vec, bounds: seq<int>, bound: int)
    requires Accepted(p) && |v| == |p.init|
    ensures Paced(p, Batched(p, k, v, bounds).trace, k, Index(p, v), Index(p, v), bound)
    decreases |bounds|
  {
    hide Accepted; hide Paced; hide Index; hide Cleanup; hide Nth; hide Runs;
    PacedNone(p, k, Index(p, v), bound);
    if bounds != [] {
      var rest := [];
      if Index(p, v) + k - 1 < bounds[0] {
        var u := Nth(p, v, k);
        NthIndex(p, v, k);
        BatchedPaced(p, k, u, bounds[1..], bounds[0]);
        var more := Batched(p, k, u, bounds[1..]).trace;
        PacedBatch(p, v, k, more, k, bounds[0]);
        rest := Runs(p, v, k) + ([Store(Index(p, u))] + more);
        assert ([Load(bounds[0])] + Runs(p, v, k) + [Store(Index(p, u))]) + more == [Load(bounds[0])] + rest;
      } else {
        CleanupPaced(p, v, bounds[1..], k, bounds[0]);
        rest := Cleanup(p, v, bounds[1..]).trace;
      }
      PacedLoad(p, bounds[0], rest, k, Index(p, v), Index(p, v), bound);
    }
  }

  // ---------- the chain of step loops ----------

  ghost predicate StepsUpTo(stages: seq<Stage>, k: pos) {
    forall i :: 0 <= i < |stages| ==> stages[i].step <= k
  }

  /** So does the transplanted chain, whichever loops the snapshot tests skip. */
  lemma {:induction false} ChainPaced(p: Protocol, k: pos, stages: seq<Stage>, snapshot: int, v: Vec, bounds: seq<int>,
                                      bound: int)
    requires Accepted(p) && |v| == |p.init| && StepsUpTo(stages, k)
    ensures Paced(p, Chain(p, stages, snapshot, v, bounds).trace, k, Index(p, v), Index(p, v), bound)
    decreases |bounds|, |stages|, 1
  {
    hide Accepted; hide Paced; hide Index; hide Stepping; hide Exiting; hide ResumeOf; hide Fallback;
    PacedNone(p, k, Index(p, v), bound);
    if stages != [] && stages[0].skip {
      ChainPaced(p, k, stages[1..], snapshot, v, bounds, bound);
    } else if stages != [] && bounds != [] {
      var rest;
      if Index(p, v) + stages[0].step - 1 < bounds[0] {
        SteppingPaced(p, k, stages, snapshot, v, bounds[1..], bounds[0]);
        rest := Stepping(p, stages, snapshot, v, bounds[1..]).trace;
      } else {
        AcceptedShape(p);
        FallbackSettles(p, v);
        FallbackShape(p, v);
        ExitingPaced(p, k, stages, snapshot, Fallback(p, v), bounds[1..], bounds[0]);
        rest := Exiting(p, stages, snapshot, Fallback(p, v), bounds[1..]).trace;
      }
      PacedLoad(p, bounds[0], rest, k, Index(p, v), Index(p, v), bound);
    }
  }

  lemma {:induction false} SteppingPaced(p: Protocol, k: pos, stages: seq<Stage>, snapshot: int, v: Vec,
                                         bounds: seq<int>, bound: int)
    requires Accepted(p) && |v| == |p.init| && StepsUpTo(stages, k) && stages != []
    requires Index(p, v) + stages[0].step <= bound
    ensures Paced(p, Stepping(p, stages, snapshot, v, bounds).trace, k, Index(p, v), Index(p, v), bound)
    decreases |bounds|, |stages|, 2
  {
    hide Accepted; hide Paced; hide Index; hide Chain; hide Exiting; hide ResumeOf; hide Fallback; hide Nth; hide Runs;
    var s := stages[0].step;
    var u := Nth(p, v, s);
    NthIndex(p, v, s);
    var x := Index(p, u);
    var rest := [];
    var more := [];
    if bounds == [] {
      PacedNone(p, k, x, bound);
    } else {
      if x + s - 1 < bounds[0] {
        SteppingPaced(p, k, stages, snapshot, u, bounds[1..], bounds[0]);
        more := Stepping(p, stages, snapshot, u, bounds[1..]).trace;
      } else {
        ExitingPaced(p, k, stages, snapshot, u, bounds[1..], bounds[0]);
        more := Exiting(p, stages, snapshot, u, bounds[1..]).trace;
      }
      PacedLoad(p, bounds[0], more, k, x, x, bound);
      rest := [Load(bounds[0])] + more;
      assert (Runs(p, v, s) + [Store(x)] + [Load(bounds[0])]) + more == Runs(p, v, s) + ([Store(x)] + rest);
    }
    assert [Store(x)] + [] == [Store(x)];
    PacedBatch(p, v, s, rest, k, bound);
  }

  lemma {:induction false} ExitingPaced(p: Protocol, k: pos, stages: seq<Stage>, snapshot: int, v: Vec,
                                        bounds: seq<int>, bound: int)
    requires Accepted(p) && |v| == |p.init| && StepsUpTo(stages, k) && stages != []
    ensures Paced(p, Exiting(p, stages, snapshot, v, bounds).trace, k, Index(p, v), Index(p, v), bound)
    decreases |bounds|, |stages|, 0
  {
    hide Accepted; hide Paced; hide Index; hide Chain; hide Stepping; hide ResumeOf;
    PacedNone(p, k, Index(p, v), bound);
    if !(stages[0].test && Index(p, v) == snapshot) {
      ChainPaced(p, k, stages[1..], snapshot, v, bounds, bound);
    }
  }

  // ---------- how often a loop touches the shared words ----------

  function Loads(trace: seq<Event>): nat {
    if trace == [] then 0 else (if trace[0].Load? then 1 else 0) + Loads(trace[1..])
  }

  function Stores(trace: seq<Event>): nat {
    if trace == [] then 0 else (if trace[0].Store? then 1 else 0) + Stores(trace[1..])
  }

  lemma {:induction false} CountsAppend(s: seq<Event>, t: seq<Event>)
    ensures Loads(s + t) == Loads(s) + Loads(t) && Stores(s + t) == Stores(s) + Stores(t)
    decreases |s|
  {
    if s == [] {
      assert s + t == t;
    } else {
      assert (s + t)[1..] == s[1..] + t;
      CountsAppend(s[1..], t);
    }
  }

  lemma {:induction false} RunsCount(p: Protocol, v: Vec, n: nat)
    ensures Loads(Runs(p, v, n)) == 0 && Stores(Runs(p, v, n)) == 0
    decreases n
  {
    hide Turn;
    if n > 0 {
      RunsCount(p, Turn(p, v), n - 1);
      assert Runs(p, v, n)[1..] == Runs(p, Turn(p, v), n - 1);
    }
  }

  lemma OneCounts(b: int, x: int)
    ensures Loads([Load(b)]) == 1 && Stores([Load(b)]) == 0 && Loads([Store(x)]) == 0 && Stores([Store(x)]) == 1
  {
    assert [Load(b)][1..] == [] && [Store(x)][1..] == [];
  }

  /** The original loop, not interrupted: a store and a load for each iteration. */
  lemma {:induction false} ScalarCounts(p: Protocol, v: Vec, m: nat, e: int)
    requires Accepted(p) && |v| == |p.init| && Index(p, v) < e && Scalar(p, v, Constant(m, e)).Left?
    ensures var t := Scalar(p, v, Constant(m, e)).trace; Stores(t) == Loads(t) == e - Index(p, v)
    decreases m
  {
    hide Accepted; hide ExitOf; hide Turn; hide Index; hide Scalar; hide Nth; hide Iterations; hide Bodies;
    ScalarReads(p, v);
    var bounds := Constant(m, e);
    assert bounds == [] || bounds[1..] == Constant(m - 1, e);
    var u, t, o := ScalarTurn(p, v, bounds);
    if Index(p, u) < e {
      ScalarCounts(p, u, m - 1, e);
    }
    TurnCounts(v, Index(p, u), e);
    CountsAppend(t, o.trace);
  }

  lemma TurnCounts(v: Vec, x: int, b: int)
    ensures Loads([Run(v), Store(x), Load(b)]) == 1 && Stores([Run(v), Store(x), Load(b)]) == 1
    ensures Loads([]) == 0 && Stores([]) == 0
  {
    OneCounts(b, x);
    assert [Run(v), Store(x), Load(b)][1..] == [Store(x), Load(b)] && [Store(x), Load(b)][1..] == [Load(b)];
  }

  lemma CleanupCounts(p: Protocol, v: Vec, m: nat, e: int)
    requires Accepted(p) && |v| == |p.init| && Index(p, v) <= e && Cleanup(p, v, Constant(m, e)).Left?
    ensures var t := Cleanup(p, v, Constant(m, e)).trace;
            Stores(t) == e - Index(p, v) && Loads(t) == e - Index(p, v) + 1
  {
    hide Accepted; hide Index; hide Scalar; hide ResumeOf;
    var bounds := Constant(m, e);
    OneCounts(e, 0);
    if bounds != [] {
      assert bounds[1..] == Constant(m - 1, e);
      if Index(p, v) < e {
        ScalarCounts(p, v, m - 1, e);
        CountsAppend([Load(e)], Scalar(p, v, bounds[1..]).trace);
      }
    }
  }

  lemma DivStep(n: nat, k: pos)
    ensures k <= n ==> n / k == (n - k) / k + 1 && n % k == (n - k) % k
    ensures n < k ==> n / k == 0 && n % k == n
  {
    if k <= n {
      var q, r := (n - k) / k, (n - k) % k;
      DivMod(n - k, k);
      assert (q + 1) * k == q * k + k;
      DivUnique(n, q + 1, k, r);
    } else {
      DivUnique(n, 0, k, n);
    }
  }

  /** The batched loop, not interrupted: one store for each whole batch and one for each iteration
      that is left over; a load with each of these, and one for each of the two guards that fail. */
  lemma {:induction false} BatchedCounts(p: Protocol, k: pos, v: Vec, m: nat, e: int)
    requires Accepted(p) && |v| == |p.init| && Index(p, v) <= e && Batched(p, k, v, Constant(m, e)).Left?
    ensures var t, n := Batched(p, k, v, Constant(m, e)).trace, e - Index(p, v);
            Stores(t) == n / k + n % k && Loads(t) == n / k + n % k + 2
    decreases m
  {
    hide Accepted; hide Index; hide Cleanup; hide Nth; hide Runs;
    var bounds := Constant(m, e);
    var n := e - Index(p, v);
    DivStep(n, k);
    if bounds != [] {
      assert bounds[0] == e && bounds[1..] == Constant(m - 1, e);
      if Index(p, v) + k - 1 < e {
        var u := Nth(p, v, k);
        NthIndex(p, v, k);
        BatchedCounts(p, k, u, m - 1, e);
        BatchCounts(p, v, k, e, Index(p, u));
        CountsAppend([Load(e)] + Runs(p, v, k) + [Store(Index(p, u))], Batched(p, k, u, bounds[1..]).trace);
      } else {
        CleanupCounts(p, v, m - 1, e);
        OneCounts(e, 0);
        CountsAppend([Load(e)], Cleanup(p, v, bounds[1..]).trace);
      }
    }
  }

  lemma BatchCounts(p: Protocol, v: Vec, s: pos, b: int, x: int)
    ensures var t := [Load(b)] + Runs(p, v, s) + [Store(x)]; Loads(t) == 1 && Stores(t) == 1
    ensures var t := Runs(p, v, s) + [Store(x)] + [Load(b)]; Loads(t) == 1 && Stores(t) == 1
  {
    hide Runs; hide Loads; hide Stores;
    RunsCount(p, v, s);
    OneCounts(b, x);
    CountsAppend([Load(b)], Runs(p, v, s));
    CountsAppend([Load(b)] + Runs(p, v, s), [Store(x)]);
    CountsAppend(Runs(p, v, s), [Store(x)]);
    CountsAppend(Runs(p, v, s) + [Store(x)], [Load(b)]);
  }

  /** The steps a chain takes over `n` iterations: each loop that is let in as many as fit. */
  function StepCount(stages: seq<Stage>, n: nat): nat {
    if stages == [] then 0
    else if stages[0].skip then StepCount(stages[1..], n)
    else n / stages[0].step + StepCount(stages[1..], n % stages[0].step)
  }

  /** The guards that fail: one for each loop let in, up to a "no remainder" test that succeeds. */
  function GuardCount(stages: seq<Stage>, n: nat): nat {
    if stages == [] then 0
    else if stages[0].skip then GuardCount(stages[1..], n)
    else
      var left := n % stages[0].step;
      1 + if stages[0].test && left == 0 then 0 else GuardCount(stages[1..], left)
  }

  /** The chain, not interrupted from a snapshot `e` on: a store and a load for each step, and a load
      for each guard that fails. */
  lemma {:induction false} ChainCounts(p: Protocol, stages: seq<Stage>, v: Vec, m: nat, e: int)
    requires Accepted(p) && |v| == |p.init| && Index(p, v) <= e && Chain(p, stages, e, v, Constant(m, e)).Left?
    ensures var t, n := Chain(p, stages, e, v, Constant(m, e)).trace, e - Index(p, v);
            Stores(t) == StepCount(stages, n) && Loads(t) == StepCount(stages, n) + GuardCount(stages, n)
    decreases m, |stages|, 1
  {
    hide Accepted; hide Index; hide Stepping; hide Exiting; hide ResumeOf; hide Fallback;
    var bounds := Constant(m, e);
    var n := e - Index(p, v);
    if stages != [] && stages[0].skip {
      ChainCounts(p, stages[1..], v, m, e);
    } else if stages != [] && bounds != [] {
      assert bounds[0] == e && bounds[1..] == Constant(m - 1, e);
      DivStep(n, stages[0].step);
      OneCounts(e, 0);
      if Index(p, v) + stages[0].step - 1 < e {
        SteppingCounts(p, stages, v, m - 1, e);
        CountsAppend([Load(e)], Stepping(p, stages, e, v, bounds[1..]).trace);
      } else {
        AcceptedShape(p);
        FallbackSettles(p, v);
        FallbackShape(p, v);
        ExitingCounts(p, stages, Fallback(p, v), m - 1, e);
        CountsAppend([Load(e)], Exiting(p, stages, e, Fallback(p, v), bounds[1..]).trace);
      }
    }
  }

  lemma {:induction false} SteppingCounts(p: Protocol, stages: seq<Stage>, v: Vec, m: nat, e: int)
    requires Accepted(p) && |v| == |p.init| && stages != [] && !stages[0].skip && Index(p, v) + stages[0].step <= e
    requires Stepping(p, stages, e, v, Constant(m, e)).Left?
    ensures var t, n := Stepping(p, stages, e, v, Constant(m, e)).trace, e - Index(p, v);
            Stores(t) == StepCount(stages, n) && Loads(t) + 1 == StepCount(stages, n) + GuardCount(stages, n)
    decreases m, |stages|, 2
  {
    hide Accepted; hide Index; hide Chain; hide Exiting; hide ResumeOf; hide Fallback; hide Nth; hide Runs;
    var bounds := Constant(m, e);
    var s := stages[0].step;
    var u := Nth(p, v, s);
    NthIndex(p, v, s);
    DivStep(e - Index(p, v), s);
    DivStep(e - Index(p, u), s);
    assert bounds[0] == e && bounds[1..] == Constant(m - 1, e);
    BatchCounts(p, v, s, e, Index(p, u));
    if Index(p, u) + s - 1 < e {
      SteppingCounts(p, stages, u, m - 1, e);
      CountsAppend(Runs(p, v, s) + [Store(Index(p, u))] + [Load(e)], Stepping(p, stages, e, u, bounds[1..]).trace);
    } else {
      ExitingCounts(p, stages, u, m - 1, e);
      CountsAppend(Runs(p, v, s) + [Store(Index(p, u))] + [Load(e)], Exiting(p, stages, e, u, bounds[1..]).trace);
    }
  }

  lemma {:induction false} ExitingCounts(p: Protocol, stages: seq<Stage>, v: Vec, m: nat, e: int)
    requires Accepted(p) && |v| == |p.init| && stages != [] && !stages[0].skip
    requires Index(p, v) <= e < Index(p, v) + stages[0].step && Exiting(p, stages, e, v, Constant(m, e)).Left?
    ensures var t, n := Exiting(p, stages, e, v, Constant(m, e)).trace, e - Index(p, v);
            Stores(t) == StepCount(stages, n) && Loads(t) + 1 == StepCount(stages, n) + GuardCount(stages, n)
    decreases m, |stages|, 0
  {
    hide Accepted; hide Index; hide Chain; hide Stepping; hide ResumeOf;
    DivStep(e - Index(p, v), stages[0].step);
    if stages[0].test && Index(p, v) == e {
      NoSteps(stages[1..]);
    } else {
      ChainCounts(p, stages[1..], v, m, e);
    }
  }

  lemma {:induction false} NoSteps(stages: seq<Stage>)
    ensures StepCount(stages, 0) == 0
    decreases |stages|
  {
    if stages != [] {
      NoSteps(stages[1..]);
    }
  }

  // ---------- the rewritten programs ----------

  /** An execution that has come to an end amounts to its outcome. */
  lemma EndsWith(p: Protocol, cfg: Cfg, bounds: seq<int>, steps: nat, m: nat, o: Outcome)
    requires !Steps(p, cfg, Start(bounds), steps).At? && Ends(Steps(p, cfg, Start(bounds), m), [], o)
    ensures var s := Steps(p, cfg, Start(bounds), steps);
            s.trace == o.trace && (s.Finished? <==> o.Left?)
  {
    hide Steps; hide Start;
    EndIsFinal(p, cfg, Start(bounds), steps, m);
    assert [] + o.trace == o.trace;
  }

  /** `formBatchedLoop`: whenever the program stops, or waits for a bound, it has kept the pace. */
  lemma FablePace(p: Protocol, k: pos, bounds: seq<int>, steps: nat, bound: int)
    requires Accepted(p) && p.ind < |p.latch| && !Steps(p, BatchedCfg(p, k), Start(bounds), steps).At?
    ensures Paced(p, Steps(p, BatchedCfg(p, k), Start(bounds), steps).trace, k, Index(p, p.init), Index(p, p.init),
                  bound)
  {
    hide Accepted; hide BatchedCfg; hide Batched; hide Steps; hide Start; hide Paced; hide Ends; hide Index;
    var m := FableRun(p, k, bounds);
    EndsWith(p, BatchedCfg(p, k), bounds, steps, m, Batched(p, k, p.init, bounds));
    BatchedPaced(p, k, p.init, bounds, bound);
  }

  /** Not interrupted, it stores the progress once per whole batch and once per iteration left over. */
  lemma FableCounts(p: Protocol, k: pos, m: nat, e: int, steps: nat)
    requires Accepted(p) && p.ind < |p.latch| && Index(p, p.init) <= e
    requires Steps(p, BatchedCfg(p, k), Start(Constant(m, e)), steps).Finished?
    ensures var t, n := Steps(p, BatchedCfg(p, k), Start(Constant(m, e)), steps).trace, e - Index(p, p.init);
            Stores(t) == n / k + n % k && Loads(t) == n / k + n % k + 2
  {
    hide Accepted; hide BatchedCfg; hide Batched; hide Steps; hide Start; hide Ends; hide Index; hide Constant;
    var r := FableRun(p, k, Constant(m, e));
    EndsWith(p, BatchedCfg(p, k), Constant(m, e), steps, r, Batched(p, k, p.init, Constant(m, e)));
    BatchedCounts(p, k, p.init, m, e);
  }

  /** The clone chain of the other pass does the same. */
  lemma GemPace(p: Protocol, count: pos, cfg: Cfg, bounds: seq<int>, steps: nat, bound: int)
    requires Accepted(p) && p.ind < |p.latch| == |p.init| && p.exits == [] && Gem.IsGem(p, count, cfg)
    requires !Steps(p, cfg, Start(bounds), steps).At?
    ensures Paced(p, Steps(p, cfg, Start(bounds), steps).trace, count, Index(p, p.init), Index(p, p.init), bound)
  {
    hide Accepted; hide Batched; hide Steps; hide Start; hide Paced; hide Ends; hide Gem.IsGem; hide Index;
    var m := Gem.GemRun(p, count, cfg, bounds);
    EndsWith(p, cfg, bounds, steps, m, Batched(p, count, p.init, bounds));
    BatchedPaced(p, count, p.init, bounds, bound);
  }

  lemma GemCounts(p: Protocol, count: pos, cfg: Cfg, m: nat, e: int, steps: nat)
    requires Accepted(p) && p.ind < |p.latch| == |p.init| && p.exits == [] && Gem.IsGem(p, count, cfg)
    requires Index(p, p.init) <= e && Steps(p, cfg, Start(Constant(m, e)), steps).Finished?
    ensures var t, n := Steps(p, cfg, Start(Constant(m, e)), steps).trace, e - Index(p, p.init);
            Stores(t) == n / count + n % count && Loads(t) == n / count + n % count + 2
  {
    hide Accepted; hide Batched; hide Steps; hide Start; hide Ends; hide Gem.IsGem; hide Index; hide Constant;
    var r := Gem.GemRun(p, count, cfg, Constant(m, e));
    EndsWith(p, cfg, Constant(m, e), steps, r, Batched(p, count, p.init, Constant(m, e)));
    BatchedCounts(p, count, p.init, m, e);
  }

  /** The transplanted chain keeps the pace too. */
  lemma TransplantPace(p: Protocol, stages: seq<Stage>, k: pos, cfg: Cfg, bounds: seq<int>, steps: nat, bound: int)
    requires Accepted(p) && Chained(stages, k) && IsTransplant(p, stages, cfg)
    requires !Steps(p, cfg, Start(bounds), steps).At?
    ensures Paced(p, Steps(p, cfg, Start(bounds), steps).trace, k, Index(p, p.init), Index(p, p.init), bound)
  {
    hide Accepted; hide Chain; hide Steps; hide Start; hide Paced; hide Ends; hide IsTransplant; hide Index;
    var m := TransplantRun(p, stages, k, cfg, bounds);
    EndsWith(p, cfg, bounds, steps, m, Transplanted(p, stages, bounds));
    PacedNone(p, k, Index(p, p.init), bound);
    if bounds != [] {
      ChainPaced(p, k, stages, bounds[0], p.init, bounds[1..], bounds[0]);
      PacedLoad(p, bounds[0], Chain(p, stages, bounds[0], p.init, bounds[1..]).trace, k, Index(p, p.init),
                Index(p, p.init), bound);
    }
  }

  /** Not interrupted, it stores once per step, and loads once per step, once for each guard that
      fails, and once for the snapshot. */
  lemma TransplantCounts(p: Protocol, stages: seq<Stage>, k: pos, cfg: Cfg, m: nat, e: int, steps: nat)
    requires Accepted(p) && Chained(stages, k) && IsTransplant(p, stages, cfg) && Index(p, p.init) <= e
    requires Steps(p, cfg, Start(Constant(m, e)), steps).Finished?
    ensures var t, n := Steps(p, cfg, Start(Constant(m, e)), steps).trace, e - Index(p, p.init);
            && Stores(t) == StepCount(stages, n)
            && Loads(t) == StepCount(stages, n) + GuardCount(stages, n) + 1
  {
    hide Accepted; hide Chain; hide Steps; hide Start; hide Ends; hide IsTransplant; hide Index;
    var bounds := Constant(m, e);
    var r := TransplantRun(p, stages, k, cfg, bounds);
    EndsWith(p, cfg, bounds, steps, r, Transplanted(p, stages, bounds));
    if bounds != [] {
      assert bounds[0] == e && bounds[1..] == Constant(m - 1, e);
      ChainCounts(p, stages, p.init, m - 1, e);
      OneCounts(e, 0);
      CountsAppend([Load(e)], Chain(p, stages, e, p.init, bounds[1..]).trace);
    }
  }
}
