/**
 `formBatchedLoop` (fablepass): the marked loop becomes an outer batch loop
 around an inner loop of exactly `k` iterations, followed by an untouched copy
 of the original as the cleanup loop.
 */
module Fable {
  import opened LoopIR
  import opened OriginalLoop

  /** The latch values at the end of a batch: LCSSA PHIs for the values of the loop. */
  function Lcssa(p: Protocol): seq<Operand> {
    seq(|p.latch|, k requires 0 <= k < |p.latch| =>
      if p.latch[k].Invariant? then Const(p.latch[k].v) else Elem(Phis(BatchLatch), k))
  }

  /** The exit values when the cleanup guard fails. */
  function FromGuard(p: Protocol): seq<Operand> {
    seq(|p.exits|, k requires 0 <= k < |p.exits| =>
      if p.exits[k].Invariant? then Const(p.exits[k].v)
      else Elem(Phis(CleanupPreheader), FirstLatch(p.latch, p.exits[k])))
  }

  function OuterBlock(p: Protocol, k: pos): Block {
    Block([Row(Phis(BatchHeader), map[Preheader := Consts(p.init), BatchLatch := Lcssa(p)])],
          [Guard(Elem(Phis(BatchHeader), p.ind), k)], CondBr(Header, CleanupPreheader))
  }

  function InnerBlock(p: Protocol, k: pos): Block {
    Block([Row(Counter, map[BatchHeader := [Const(0)], Header := [Elem(CounterNext, 0)]]),
           Row(Phis(Header), map[BatchHeader := PhiOf(BatchHeader, |p.init|), Header := LocAll(Header, p.latch)])],
          [Iterate(Header, PhiOf(Header, |p.init|)), Increment, CounterBelow(k)], CondBr(Header, BatchLatch))
  }

  function LatchBlock(p: Protocol): Block
    requires p.ind < |p.latch|
  {
    Block([Row(Phis(BatchLatch), map[Header := LocAll(Header, p.latch)])], [Publish(Lcssa(p)[p.ind])], Br(BatchHeader))
  }

  function GuardBlock(p: Protocol): Block {
    Block([Row(Phis(CleanupPreheader), map[BatchHeader := PhiOf(BatchHeader, |p.init|)])],
          [Guard(Elem(Phis(CleanupPreheader), p.ind), 1)], CondBr(CleanupHeader, Exit))
  }

  function ExitRow(p: Protocol): Row {
    Row(Phis(Exit), map[CleanupHeader := LocAll(CleanupHeader, p.exits), CleanupPreheader := FromGuard(p)])
  }

  function BatchedCfg(p: Protocol, k: pos): Cfg
    requires p.ind < |p.latch|
  {
    map[Preheader := Block([], [], Br(BatchHeader)),
        BatchHeader := OuterBlock(p, k),
        Header := InnerBlock(p, k),
        BatchLatch := LatchBlock(p),
        CleanupPreheader := GuardBlock(p),
        CleanupHeader := ScalarBlock(p, CleanupHeader, CleanupPreheader, PhiOf(CleanupPreheader, |p.init|)),
        Exit := Block([ExitRow(p)], [], Ret)]
  }

  // ---------- one block at a time ----------

  lemma OuterStep(p: Protocol, cfg: Cfg, k: pos, pred: Label, env: Env, bounds: seq<int>, tr: seq<Event>, v: Vec)
    requires BatchHeader in cfg && cfg[BatchHeader] == OuterBlock(p, k) && |v| == |p.init| && p.ind < |v|
    requires (pred == Preheader && v == p.init) || (pred == BatchLatch && Values(env, Lcssa(p)) == v)
    ensures var s := StepBlock(p, cfg, At(pred, BatchHeader, env, bounds, tr));
            if bounds == [] then s == Blocked(tr)
            else
              && s.At? && s.pred == BatchHeader
              && s.at == (if Index(p, v) + k - 1 < bounds[0] then Header else CleanupPreheader)
              && s.bounds == bounds[1..] && s.trace == tr + [Load(bounds[0])]
              && Values(s.env, PhiOf(BatchHeader, |p.init|)) == v
  {
    ConstValues(env, p.init);
    EnterOne(cfg[BatchHeader].rows[0], pred, env);
    var env1 := env[Phis(BatchHeader) := v];
    PhiValues(env1, BatchHeader, v);
    ExecOne(p, Guard(Elem(Phis(BatchHeader), p.ind), k), Cursor(env1, false, bounds, tr, false));
  }

  lemma EnterTwo(a: Row, b: Row, pred: Label, env: Env)
    requires pred in a.incoming && pred in b.incoming
    ensures Enter([a, b], pred, env, env)
         == env[a.bank := Values(env, a.incoming[pred])][b.bank := Values(env, b.incoming[pred])]
  {
    assert [a, b][1..] == [b] && [b][1..] == [];
    var env1 := env[a.bank := Values(env, a.incoming[pred])];
    assert Enter([b], pred, env, env1) == env1[b.bank := Values(env, b.incoming[pred])];
  }

  lemma InnerStep(p: Protocol, cfg: Cfg, k: pos, pred: Label, env: Env, bounds: seq<int>, tr: seq<Event>, v: Vec,
                  c: nat)
    requires Header in cfg && cfg[Header] == InnerBlock(p, k) && |v| == |p.init| == |p.latch|
    requires || (pred == BatchHeader && Values(env, PhiOf(BatchHeader, |p.init|)) == v && c == 0)
             || (pred == Header && Values(env, LocAll(Header, p.latch)) == v && Value(env, Elem(CounterNext, 0)) == c)
    ensures var s := StepBlock(p, cfg, At(pred, Header, env, bounds, tr));
            && s.At? && s.pred == Header && s.at == (if c + 1 < k then Header else BatchLatch)
            && s.bounds == bounds && s.trace == tr + [Run(v)]
            && Values(s.env, LocAll(Header, p.latch)) == Turn(p, v) && Value(s.env, Elem(CounterNext, 0)) == c + 1
  {
    var rows := cfg[Header].rows;
    EnterTwo(rows[0], rows[1], pred, env);
    assert Values(env, rows[0].incoming[pred]) == [c];
    var env1 := env[Counter := [c]][Phis(Header) := v];
    hide Enter; hide ExecAll; hide LocAll; hide PhiOf; hide Values; hide Turn;
    InnerOps(p, k, env1, bounds, tr, v, c);
  }

  /** The operations of the inner block: one iteration, and its count. */
  lemma InnerOps(p: Protocol, k: pos, env: Env, bounds: seq<int>, tr: seq<Event>, v: Vec, c: nat)
    requires Phis(Header) in env && env[Phis(Header)] == v && Counter in env && env[Counter] == [c] && |v| == |p.init|
    ensures var env' := env[Locals(Header) := p.body(v)][CounterNext := [c + 1]];
            && ExecAll(p, [Iterate(Header, PhiOf(Header, |p.init|)), Increment, CounterBelow(k)],
                       Cursor(env, false, bounds, tr, false)) == Cursor(env', c + 1 < k, bounds, tr + [Run(v)], false)
            && Values(env', LocAll(Header, p.latch)) == Turn(p, v) && Value(env', Elem(CounterNext, 0)) == c + 1
  {
    var c0 := Cursor(env, false, bounds, tr, false);
    var c1 := c0.(env := env[Locals(Header) := p.body(v)], trace := tr + [Run(v)]);
    var c2 := c1.(env := c1.env[CounterNext := [c + 1]]);
    PhiValues(env, Header, v);
    LocValues(c2.env, Header, p.latch, v, p.body(v));
    hide LocAll; hide PhiOf; hide Values;
    assert Exec(p, Iterate(Header, PhiOf(Header, |p.init|)), c0) == c1;
    assert Exec(p, Increment, c1) == c2;
    ExecThree(p, Iterate(Header, PhiOf(Header, |p.init|)), Increment, CounterBelow(k), c0);
  }

  lemma LatchStep(p: Protocol, cfg: Cfg, env: Env, bounds: seq<int>, tr: seq<Event>, v: Vec)
    requires p.ind < |p.latch| == |v| && BatchLatch in cfg && cfg[BatchLatch] == LatchBlock(p)
    requires Values(env, LocAll(Header, p.latch)) == v
    ensures var s := StepBlock(p, cfg, At(Header, BatchLatch, env, bounds, tr));
            && s.At? && s.pred == BatchLatch && s.at == BatchHeader
            && s.bounds == bounds && s.trace == tr + [Store(Index(p, v))]
            && Values(s.env, Lcssa(p)) == v
  {
    EnterOne(cfg[BatchLatch].rows[0], Header, env);
    var env1 := env[Phis(BatchLatch) := v];
    forall k | 0 <= k < |v| ensures Value(env1, Lcssa(p)[k]) == v[k] {
      assert Values(env, LocAll(Header, p.latch))[k] == Value(env, Loc(Header, p.latch[k]));
    }
    assert Values(env1, Lcssa(p)) == v;
    ExecOne(p, Publish(Lcssa(p)[p.ind]), Cursor(env1, false, bounds, tr, false));
  }

  lemma GuardStep(p: Protocol, cfg: Cfg, env: Env, bounds: seq<int>, tr: seq<Event>, v: Vec)
    requires Accepted(p) && |v| == |p.init|
    requires CleanupPreheader in cfg && cfg[CleanupPreheader] == GuardBlock(p)
    requires Values(env, PhiOf(BatchHeader, |p.init|)) == v
    ensures var s := StepBlock(p, cfg, At(BatchHeader, CleanupPreheader, env, bounds, tr));
            if bounds == [] then s == Blocked(tr)
            else
              && s.At? && s.pred == CleanupPreheader
              && s.at == (if Index(p, v) < bounds[0] then CleanupHeader else Exit)
              && s.bounds == bounds[1..] && s.trace == tr + [Load(bounds[0])]
              && Values(s.env, PhiOf(CleanupPreheader, |p.init|)) == v && Values(s.env, FromGuard(p)) == ResumeOf(p, v)
  {
    EnterOne(cfg[CleanupPreheader].rows[0], BatchHeader, env);
    var env1 := env[Phis(CleanupPreheader) := v];
    PhiValues(env1, CleanupPreheader, v);
    assert Values(env1, FromGuard(p)) == ResumeOf(p, v);
    ExecOne(p, Guard(Elem(Phis(CleanupPreheader), p.ind), 1), Cursor(env1, false, bounds, tr, false));
  }

  // ---------- whole executions ----------

  /** The blocks of the rewritten loop. */
  ghost predicate IsBatched(p: Protocol, k: pos, cfg: Cfg)
    requires p.ind < |p.latch|
  {
    && Preheader in cfg && cfg[Preheader] == Block([], [], Br(BatchHeader))
    && BatchHeader in cfg && cfg[BatchHeader] == OuterBlock(p, k)
    && Header in cfg && cfg[Header] == InnerBlock(p, k)
    && BatchLatch in cfg && cfg[BatchLatch] == LatchBlock(p)
    && CleanupPreheader in cfg && cfg[CleanupPreheader] == GuardBlock(p)
    && CleanupHeader in cfg
    && cfg[CleanupHeader] == ScalarBlock(p, CleanupHeader, CleanupPreheader, PhiOf(CleanupPreheader, |p.init|))
    && Exit in cfg && cfg[Exit] == Block([ExitRow(p)], [], Ret)
  }

  lemma BatchedBlocks(p: Protocol, k: pos)
    requires p.ind < |p.latch|
    ensures IsBatched(p, k, BatchedCfg(p, k))
  {
    hide OuterBlock; hide InnerBlock; hide LatchBlock; hide GuardBlock; hide ScalarBlock;
  }

  /** The inner loop, from its `c`-th turn on, runs the rest of its `k` iterations. */
  lemma {:induction false} InnerRun(p: Protocol, cfg: Cfg, k: pos, pred: Label, env: Env, bounds: seq<int>,
                                    tr: seq<Event>, v: Vec, c: nat) returns (n: nat)
    requires Header in cfg && cfg[Header] == InnerBlock(p, k) && |v| == |p.init| == |p.latch| && c < k
    requires || (pred == BatchHeader && Values(env, PhiOf(BatchHeader, |p.init|)) == v && c == 0)
             || (pred == Header && Values(env, LocAll(Header, p.latch)) == v && Value(env, Elem(CounterNext, 0)) == c)
    ensures var s := Steps(p, cfg, At(pred, Header, env, bounds, tr), n);
            && s.At? && s.pred == Header && s.at == BatchLatch
            && s.bounds == bounds && s.trace == tr + Runs(p, v, k - c)
            && Values(s.env, LocAll(Header, p.latch)) == Nth(p, v, k - c)
    decreases k - c
  {
    hide InnerBlock; hide StepBlock;
    var s := StepBlock(p, cfg, At(pred, Header, env, bounds, tr));
    InnerStep(p, cfg, k, pred, env, bounds, tr, v, c);
    var m := 0;
    if c + 1 < k {
      m := InnerRun(p, cfg, k, Header, s.env, bounds, s.trace, Turn(p, v), c + 1);
      assert (tr + [Run(v)]) + Runs(p, Turn(p, v), k - c - 1) == tr + Runs(p, v, k - c);
    } else {
      assert Runs(p, v, 1) == [Run(v)] && Nth(p, v, 1) == Turn(p, v);
    }
    n := 1 + m;
    assert Steps(p, cfg, At(pred, Header, env, bounds, tr), n) == Steps(p, cfg, s, m);
  }

  lemma CleanupRun(p: Protocol, k: pos, cfg: Cfg, env: Env, bounds: seq<int>, tr: seq<Event>, v: Vec) returns (n: nat)
    requires Accepted(p) && |v| == |p.init| && IsBatched(p, k, cfg)
    requires Values(env, PhiOf(BatchHeader, |p.init|)) == v
    ensures Ends(Steps(p, cfg, At(BatchHeader, CleanupPreheader, env, bounds, tr), n), tr, Cleanup(p, v, bounds))
  {
    hide StepBlock; hide Scalar; hide Accepted; hide FromGuard; hide ResumeOf;
    var s0 := At(BatchHeader, CleanupPreheader, env, bounds, tr);
    var s := StepBlock(p, cfg, s0);
    GuardStep(p, cfg, env, bounds, tr, v);
    var m := 0;
    if bounds != [] {
      if Index(p, v) < bounds[0] {
        assert |p.latch| == |p.init| && p.ind < |v| by { AcceptedShape(p); }
        m := ScalarRun(p, cfg, CleanupHeader, CleanupPreheader, PhiOf(CleanupPreheader, |p.init|), ExitRow(p),
                       CleanupPreheader, s.env, bounds[1..], s.trace, v);
        EndsAfter(Steps(p, cfg, s, m), tr, [Load(bounds[0])], Scalar(p, v, bounds[1..]));
      } else {
        ExitStep(p, cfg, ExitRow(p), CleanupPreheader, s.env, s.bounds, s.trace);
        m := 1;
        assert Steps(p, cfg, s, 1) == Steps(p, cfg, StepBlock(p, cfg, s), 0);
      }
    }
    n := 1 + m;
    assert Steps(p, cfg, s0, n) == Steps(p, cfg, s, m);
  }

  /** Executing the rewritten loop from the batch header on is `Batched`. */
  lemma {:induction false} BatchRun(p: Protocol, k: pos, cfg: Cfg, pred: Label, env: Env, bounds: seq<int>,
                                    tr: seq<Event>, v: Vec) returns (n: nat)
    requires Accepted(p) && |v| == |p.init| && IsBatched(p, k, cfg)
    requires (pred == Preheader && v == p.init) || (pred == BatchLatch && Values(env, Lcssa(p)) == v)
    ensures Ends(Steps(p, cfg, At(pred, BatchHeader, env, bounds, tr), n), tr, Batched(p, k, v, bounds))
    decreases |bounds|
  {
    hide StepBlock; hide Cleanup; hide Accepted; hide Lcssa; hide LatchBlock; hide InnerBlock; hide OuterBlock;
    hide GuardBlock;
    AcceptedShape(p);
    var s0 := At(pred, BatchHeader, env, bounds, tr);
    var s := StepBlock(p, cfg, s0);
    OuterStep(p, cfg, k, pred, env, bounds, tr, v);
    var m := 0;
    if bounds != [] {
      if Index(p, v) + k - 1 < bounds[0] {
        m := OneBatch(p, k, cfg, s, v);
        var b := Steps(p, cfg, s, m);
        var t := [Load(bounds[0])] + Runs(p, v, k) + [Store(Index(p, Nth(p, v, k)))];
        assert b.trace == tr + t;
        NthShape(p, v, k);
        var m' := BatchRun(p, k, cfg, BatchLatch, b.env, bounds[1..], tr + t, Nth(p, v, k));
        StepsAdd(p, cfg, s, m, m');
        EndsAfter(Steps(p, cfg, b, m'), tr, t, Batched(p, k, Nth(p, v, k), bounds[1..]));
        m := m + m';
      } else {
        m := CleanupRun(p, k, cfg, s.env, s.bounds, s.trace, v);
        EndsAfter(Steps(p, cfg, s, m), tr, [Load(bounds[0])], Cleanup(p, v, bounds[1..]));
      }
    }
    n := 1 + m;
    assert Steps(p, cfg, s0, n) == Steps(p, cfg, s, m);
  }

  /** From the inner loop's entry to the next batch header: `k` iterations and one store. */
  lemma OneBatch(p: Protocol, k: pos, cfg: Cfg, s: State, v: Vec) returns (n: nat)
    requires p.ind < |p.latch| == |p.init| == |v| && IsBatched(p, k, cfg)
    requires s.At? && s.pred == BatchHeader && s.at == Header && Values(s.env, PhiOf(BatchHeader, |p.init|)) == v
    ensures var b := Steps(p, cfg, s, n);
            && b.At? && b.pred == BatchLatch && b.at == BatchHeader && b.bounds == s.bounds
            && b.trace == s.trace + Runs(p, v, k) + [Store(Index(p, Nth(p, v, k)))]
            && Values(b.env, Lcssa(p)) == Nth(p, v, k)
  {
    hide StepBlock; hide Lcssa; hide LatchBlock; hide InnerBlock; hide OuterBlock; hide GuardBlock; hide ScalarBlock;
    var m := InnerRun(p, cfg, k, BatchHeader, s.env, s.bounds, s.trace, v, 0);
    var e := Steps(p, cfg, s, m);
    NthShape(p, v, k);
    LatchStep(p, cfg, e.env, e.bounds, e.trace, Nth(p, v, k));
    n := m + 1;
    StepsAdd(p, cfg, s, m, 1);
    assert Steps(p, cfg, e, 1) == Steps(p, cfg, StepBlock(p, cfg, e), 0);
  }

  lemma RunFromStart(p: Protocol, k: pos, cfg: Cfg, bounds: seq<int>) returns (n: nat)
    requires Accepted(p) && p.ind < |p.latch| && IsBatched(p, k, cfg)
    ensures Ends(Steps(p, cfg, Start(bounds), n), [], Batched(p, k, p.init, bounds))
  {
    hide OuterBlock; hide InnerBlock; hide LatchBlock; hide GuardBlock; hide ScalarBlock; hide ExitRow;
    hide Batched; hide Ends;
    AcceptedShape(p);
    hide Accepted;
    EntryStep(p, cfg, BatchHeader, bounds);
    hide IsBatched; hide StepBlock;
    var m := BatchRun(p, k, cfg, Preheader, map[], bounds, [], p.init);
    n := 1 + m;
    assert Steps(p, cfg, Start(bounds), n) == Steps(p, cfg, At(Preheader, BatchHeader, map[], bounds, []), m);
  }

  /** `formBatchedLoop` produces a loop that executes as `Batched`, whatever bounds are read. */
  lemma FableRun(p: Protocol, k: pos, bounds: seq<int>) returns (n: nat)
    requires Accepted(p)
    ensures p.ind < |p.latch|
    ensures Ends(Steps(p, BatchedCfg(p, k), Start(bounds), n), [], Batched(p, k, p.init, bounds))
  {
    AcceptedShape(p);
    BatchedBlocks(p, k);
    hide Accepted; hide BatchedCfg; hide Batched; hide Ends; hide IsBatched; hide Steps; hide Start;
    n := RunFromStart(p, k, BatchedCfg(p, k), bounds);
  }
}
