/**
 `formBatchedLoopWithCleanup` (gempass): LLVM's checked chain of `count` clones
 of the loop block becomes one batch, and an untouched copy of the loop follows
 as the cleanup loop.  The pass takes only loops without exit PHIs.
 */
module Gem {
  import opened LoopIR
  import opened OriginalLoop

  /** The header PHIs of the `c`-th iteration of a batch, as clone `c` names them. */
  function Inputs(p: Protocol, c: nat): (os: seq<Operand>)
    ensures |os| == if c == 0 then |p.init| else |p.latch|
    decreases c, 0
  {
    if c == 0 then PhiOf(Clone(0), |p.init|) else Outputs(p, c - 1)
  }

  /** What clone `c` hands to the next iteration. */
  function Outputs(p: Protocol, c: nat): (os: seq<Operand>)
    ensures |os| == |p.latch|
    decreases c, 1
  {
    var inputs := Inputs(p, c);
    seq(|p.latch|, k requires 0 <= k < |p.latch| => Output(p.latch[k], c, inputs))
  }

  function Output(s: Source, c: nat, inputs: seq<Operand>): Operand {
    match s
    case Invariant(v) => Const(v)
    case Phi(k) => if k < |inputs| then inputs[k] else Const(0)
    case Local(k) => Elem(Locals(Clone(c)), k)
  }

  function LastClone(count: pos): Label {
    Clone(count - 1)
  }

  function ChainRow(p: Protocol, count: pos): Row {
    Row(Phis(Clone(0)), map[Preheader := Consts(p.init), LastClone(count) := Outputs(p, count - 1)])
  }

  function ChainRows(p: Protocol, count: pos, c: nat): seq<Row> {
    if c == 0 then [ChainRow(p, count)] else []
  }

  function Next(count: pos, c: nat): Label {
    if c + 1 < count then Clone(c + 1) else Clone(0)
  }

  /** A clone as LLVM's unroller leaves it: with its own store, bound load and exit. */
  function CheckedClone(p: Protocol, count: pos, c: nat): Block
    requires p.ind < |p.latch|
  {
    var next := Outputs(p, c)[p.ind];
    Block(ChainRows(p, count, c), [Iterate(Clone(c), Inputs(p, c)), Publish(next), Guard(next, 1)],
          CondBr(Next(count, c), Exit))
  }

  /** A clone inside a batch. */
  function SilentClone(p: Protocol, count: pos, c: nat): Block {
    Block(ChainRows(p, count, c), [Iterate(Clone(c), Inputs(p, c))], Br(Clone(c + 1)))
  }

  /** The last clone publishes the progress and guards the next batch. */
  function FinalClone(p: Protocol, count: pos): Block
    requires p.ind < |p.latch|
  {
    var c := count - 1;
    var next := Outputs(p, c)[p.ind];
    Block(ChainRows(p, count, c), [Iterate(Clone(c), Inputs(p, c)), Publish(next), Guard(next, count)],
          CondBr(Clone(0), CleanupPreheader))
  }

  function StartBlock(p: Protocol, count: pos): Block {
    Block([Row(Phis(CleanupPreheader), map[Preheader := Consts(p.init), LastClone(count) := Outputs(p, count - 1)])],
          [Guard(Elem(Phis(CleanupPreheader), p.ind), 1)], CondBr(CleanupHeader, Exit))
  }

  function NoExitPhis(): Row {
    Row(Phis(Exit), map[])
  }

  function UnrolledCfg(p: Protocol, count: pos): Cfg
    requires p.ind < |p.latch|
  {
    map[Preheader := Block([], [], Br(Clone(0))), Exit := Block([NoExitPhis()], [], Ret)]
    + map l | l in Clones(count) :: CheckedClone(p, count, l.k)
  }

  function Clones(count: nat): (ls: set<Label>)
    ensures forall l :: l in ls <==> l.Clone? && l.k < count
  {
    set c: nat | c < count :: Clone(c)
  }

  /** The blocks of the rewritten loop. */
  ghost predicate IsGem(p: Protocol, count: pos, cfg: Cfg)
    requires p.ind < |p.latch| == |p.init|
  {
    && Preheader in cfg
    && cfg[Preheader] == Block([], [Guard(Const(p.init[p.ind]), count)], CondBr(Clone(0), CleanupPreheader))
    && (forall c: nat :: c < count ==>
                           && Clone(c) in cfg
                           && cfg[Clone(c)] == if c + 1 < count then SilentClone(p, count, c) else FinalClone(p, count))
    && CleanupPreheader in cfg && cfg[CleanupPreheader] == StartBlock(p, count)
    && CleanupHeader in cfg
    && cfg[CleanupHeader] == ScalarBlock(p, CleanupHeader, CleanupPreheader, PhiOf(CleanupPreheader, |p.init|))
    && Exit in cfg && cfg[Exit] == Block([NoExitPhis()], [], Ret)
  }

  // ---------- values in the clone chain ----------

  /** Clone `c` reads only what the batch header and earlier clones computed. */
  ghost predicate Earlier(o: Operand, c: nat) {
    match o
    case Const(_) => true
    case Elem(b, _) => b == Phis(Clone(0)) || (b.Locals? && b.at.Clone? && b.at.k < c)
  }

  lemma {:induction false} InputsEarlier(p: Protocol, c: nat)
    ensures forall k :: 0 <= k < |Inputs(p, c)| ==> Earlier(Inputs(p, c)[k], c)
    decreases c
  {
    if c > 0 {
      InputsEarlier(p, c - 1);
      assert Inputs(p, c) == Outputs(p, c - 1);
    }
  }

  /** Running the body in clone `c` turns its inputs into its outputs. */
  lemma CloneValues(p: Protocol, c: nat, env: Env, w: Vec)
    requires |p.latch| == |p.init| && Values(env, Inputs(p, c)) == w
    ensures Values(env[Locals(Clone(c)) := p.body(w)], Outputs(p, c)) == Turn(p, w)
  {
    InputsEarlier(p, c);
    var env1 := env[Locals(Clone(c)) := p.body(w)];
    var inputs := Inputs(p, c);
    forall k | 0 <= k < |inputs| ensures Value(env1, inputs[k]) == w[k] {
      assert Earlier(inputs[k], c) && w[k] == Value(env, inputs[k]);
    }
    assert Values(env1, Outputs(p, c)) == Turn(p, w);
  }

  /** The environment in which a clone runs its body. */
  function Entered(p: Protocol, count: pos, c: nat, pred: Label, env: Env): Env {
    Enter(ChainRows(p, count, c), pred, env, env)
  }

  lemma SilentStep(p: Protocol, cfg: Cfg, count: pos, c: nat, pred: Label, env: Env, bounds: seq<int>, tr: seq<Event>,
                   w: Vec)
    requires |p.latch| == |p.init| && Clone(c) in cfg && cfg[Clone(c)] == SilentClone(p, count, c)
    requires Values(Entered(p, count, c, pred, env), Inputs(p, c)) == w
    ensures var s := StepBlock(p, cfg, At(pred, Clone(c), env, bounds, tr));
            && s.At? && s.pred == Clone(c) && s.at == Clone(c + 1) && s.bounds == bounds && s.trace == tr + [Run(w)]
            && Values(Entered(p, count, c + 1, Clone(c), s.env), Inputs(p, c + 1)) == Turn(p, w)
  {
    var env1 := Entered(p, count, c, pred, env);
    CloneValues(p, c, env1, w);
    ExecOne(p, Iterate(Clone(c), Inputs(p, c)), Cursor(env1, false, bounds, tr, false));
  }

  lemma FinalStep(p: Protocol, cfg: Cfg, count: pos, pred: Label, env: Env, bounds: seq<int>, tr: seq<Event>, w: Vec)
    requires p.ind < |p.latch| == |p.init| == |w|
    requires LastClone(count) in cfg && cfg[LastClone(count)] == FinalClone(p, count)
    requires Values(Entered(p, count, count - 1, pred, env), Inputs(p, count - 1)) == w
    ensures var s := StepBlock(p, cfg, At(pred, LastClone(count), env, bounds, tr));
            var u := Turn(p, w);
            var t := tr + [Run(w), Store(Index(p, u))];
            if bounds == [] then s == Blocked(t)
            else
              && s.At? && s.pred == LastClone(count) && s.bounds == bounds[1..] && s.trace == t + [Load(bounds[0])]
              && s.at == (if Index(p, u) + count - 1 < bounds[0] then Clone(0) else CleanupPreheader)
              && Values(s.env, Outputs(p, count - 1)) == u
  {
    var c := count - 1;
    var env1 := Entered(p, count, c, pred, env);
    CloneValues(p, c, env1, w);
    var env2 := env1[Locals(Clone(c)) := p.body(w)];
    var u := Turn(p, w);
    var next := Outputs(p, c)[p.ind];
    assert Value(env2, next) == Values(env2, Outputs(p, c))[p.ind] == Index(p, u);
    var c0 := Cursor(env1, false, bounds, tr, false);
    var c1 := Cursor(env2, false, bounds, tr + [Run(w)], false);
    var c2 := Cursor(env2, false, bounds, tr + [Run(w), Store(Index(p, u))], false);
    assert Exec(p, Iterate(Clone(c), Inputs(p, c)), c0) == c1;
    assert Exec(p, Publish(next), c1) == c2 by { assert (tr + [Run(w)]) + [Store(Index(p, u))] == c2.trace; }
    ExecThree(p, Iterate(Clone(c), Inputs(p, c)), Publish(next), Guard(next, count), c0);
  }

  // ---------- whole executions ----------

  lemma EntryValues(p: Protocol, count: pos, pred: Label, env: Env, v: Vec)
    requires |p.latch| == |p.init| == |v|
    requires (pred == Preheader && v == p.init) || (pred == LastClone(count) && Values(env, Outputs(p, count - 1)) == v)
    ensures Values(Entered(p, count, 0, pred, env), Inputs(p, 0)) == v
  {
    ConstValues(env, p.init);
    EnterOne(ChainRow(p, count), pred, env);
    PhiValues(env[Phis(Clone(0)) := v], Clone(0), v);
  }

  lemma StartStep(p: Protocol, cfg: Cfg, count: pos, pred: Label, env: Env, bounds: seq<int>, tr: seq<Event>, v: Vec)
    requires p.ind < |p.latch| == |p.init| == |v|
    requires CleanupPreheader in cfg && cfg[CleanupPreheader] == StartBlock(p, count)
    requires (pred == Preheader && v == p.init) || (pred == LastClone(count) && Values(env, Outputs(p, count - 1)) == v)
    ensures var s := StepBlock(p, cfg, At(pred, CleanupPreheader, env, bounds, tr));
            if bounds == [] then s == Blocked(tr)
            else
              && s.At? && s.pred == CleanupPreheader
              && s.at == (if Index(p, v) < bounds[0] then CleanupHeader else Exit)
              && s.bounds == bounds[1..] && s.trace == tr + [Load(bounds[0])]
              && Values(s.env, PhiOf(CleanupPreheader, |p.init|)) == v
  {
    ConstValues(env, p.init);
    EnterOne(cfg[CleanupPreheader].rows[0], pred, env);
    var env1 := env[Phis(CleanupPreheader) := v];
    PhiValues(env1, CleanupPreheader, v);
    ExecOne(p, Guard(Elem(Phis(CleanupPreheader), p.ind), 1), Cursor(env1, false, bounds, tr, false));
  }

  lemma CleanupRun(p: Protocol, cfg: Cfg, count: pos, pred: Label, env: Env, bounds: seq<int>, tr: seq<Event>, v: Vec)
    returns (n: nat)
    requires p.ind < |p.latch| == |p.init| == |v| && p.exits == [] && IsGem(p, count, cfg)
    requires (pred == Preheader && v == p.init) || (pred == LastClone(count) && Values(env, Outputs(p, count - 1)) == v)
    ensures Ends(Steps(p, cfg, At(pred, CleanupPreheader, env, bounds, tr), n), tr, Cleanup(p, v, bounds))
  {
    hide StepBlock; hide Scalar; hide StartBlock; hide SilentClone; hide FinalClone; hide Outputs; hide ScalarBlock;
    var s0 := At(pred, CleanupPreheader, env, bounds, tr);
    var s := StepBlock(p, cfg, s0);
    StartStep(p, cfg, count, pred, env, bounds, tr, v);
    var m := 0;
    assert ResumeOf(p, v) == [];
    assert LocAll(CleanupHeader, p.exits) == [];
    if bounds != [] {
      if Index(p, v) < bounds[0] {
        m := ScalarRun(p, cfg, CleanupHeader, CleanupPreheader, PhiOf(CleanupPreheader, |p.init|), NoExitPhis(),
                       CleanupPreheader, s.env, bounds[1..], s.trace, v);
        EndsAfter(Steps(p, cfg, s, m), tr, [Load(bounds[0])], Scalar(p, v, bounds[1..]));
      } else {
        ExitStep(p, cfg, NoExitPhis(), CleanupPreheader, s.env, s.bounds, s.trace);
        m := 1;
        assert Steps(p, cfg, s, 1) == Steps(p, cfg, StepBlock(p, cfg, s), 0);
      }
    }
    n := 1 + m;
    assert Steps(p, cfg, s0, n) == Steps(p, cfg, s, m);
  }

  /** What is left to do from clone `c` of a batch on. */
  function FromClone(p: Protocol, count: pos, c: nat, w: Vec, bounds: seq<int>): Outcome
    requires c < count
  {
    var u := Nth(p, w, count - c);
    After(Runs(p, w, count - c) + [Store(Index(p, u))], Batched(p, count, u, bounds))
  }

  lemma FromCloneNext(p: Protocol, count: pos, c: nat, w: Vec, bounds: seq<int>)
    requires c + 1 < count
    ensures FromClone(p, count, c, w, bounds) == After([Run(w)], FromClone(p, count, c + 1, Turn(p, w), bounds))
  {
    hide Batched;
    var n := count - c;
    var u := Nth(p, w, n);
    var rest := Runs(p, Turn(p, w), n - 1);
    assert Runs(p, w, n) + [Store(Index(p, u))] == [Run(w)] + (rest + [Store(Index(p, u))]);
    AfterAfter([Run(w)], rest + [Store(Index(p, u))], Batched(p, count, u, bounds));
  }

  lemma AfterAfter(s: seq<Event>, t: seq<Event>, o: Outcome)
    ensures After(s, After(t, o)) == After(s + t, o)
  {
    assert s + (t + o.trace) == (s + t) + o.trace;
  }

  lemma BatchedFits(p: Protocol, count: pos, u: Vec, bounds: seq<int>)
    requires bounds != [] && Index(p, u) + count - 1 < bounds[0]
    ensures Batched(p, count, u, bounds) == After([Load(bounds[0])], FromClone(p, count, 0, u, bounds[1..]))
  {
    var w := Nth(p, u, count);
    var t := Runs(p, u, count) + [Store(Index(p, w))];
    AfterAfter([Load(bounds[0])], t, Batched(p, count, w, bounds[1..]));
    assert [Load(bounds[0])] + t == [Load(bounds[0])] + Runs(p, u, count) + [Store(Index(p, w))];
  }

  lemma BatchedStops(p: Protocol, count: pos, u: Vec, bounds: seq<int>)
    ensures bounds == [] ==> Batched(p, count, u, bounds) == Waiting([])
    ensures bounds != [] && !(Index(p, u) + count - 1 < bounds[0]) ==>
              Batched(p, count, u, bounds) == After([Load(bounds[0])], Cleanup(p, u, bounds[1..]))
  {
  }

  /** Executing the rewritten loop from clone `c` on. */
  lemma {:induction false} ChainRun(p: Protocol, count: pos, cfg: Cfg, c: nat, pred: Label, env: Env, bounds: seq<int>,
                                    tr: seq<Event>, w: Vec) returns (n: nat)
    requires p.ind < |p.latch| == |p.init| == |w| && p.exits == [] && IsGem(p, count, cfg) && c < count
    requires Values(Entered(p, count, c, pred, env), Inputs(p, c)) == w
    ensures Ends(Steps(p, cfg, At(pred, Clone(c), env, bounds, tr), n), tr, FromClone(p, count, c, w, bounds))
    decreases |bounds|, count - c
  {
    hide StepBlock; hide StartBlock; hide SilentClone; hide FinalClone; hide Outputs; hide Inputs; hide ScalarBlock;
    hide Entered; hide Batched; hide FromClone;
    var s0 := At(pred, Clone(c), env, bounds, tr);
    var s := StepBlock(p, cfg, s0);
    var m := 0;
    if c + 1 < count {
      SilentStep(p, cfg, count, c, pred, env, bounds, tr, w);
      m := ChainRun(p, count, cfg, c + 1, Clone(c), s.env, bounds, s.trace, Turn(p, w));
      EndsAfter(Steps(p, cfg, s, m), tr, [Run(w)], FromClone(p, count, c + 1, Turn(p, w), bounds));
      FromCloneNext(p, count, c, w, bounds);
    } else {
      FinalStep(p, cfg, count, pred, env, bounds, tr, w);
      m := LastRun(p, count, cfg, s, bounds, tr, w);
    }
    n := 1 + m;
    assert Steps(p, cfg, s0, n) == Steps(p, cfg, s, m);
  }

  /** After the last clone of a batch: the next batch, the cleanup loop, or no bound to read. */
  lemma {:induction false} LastRun(p: Protocol, count: pos, cfg: Cfg, s: State, bounds: seq<int>, tr: seq<Event>,
                                   w: Vec)
    returns (m: nat)
    requires p.ind < |p.latch| == |p.init| == |w| && p.exits == [] && IsGem(p, count, cfg)
    requires var u := Turn(p, w);
             var t := tr + [Run(w), Store(Index(p, u))];
             if bounds == [] then s == Blocked(t)
             else
               && s.At? && s.pred == LastClone(count) && s.bounds == bounds[1..] && s.trace == t + [Load(bounds[0])]
               && s.at == (if Index(p, u) + count - 1 < bounds[0] then Clone(0) else CleanupPreheader)
               && Values(s.env, Outputs(p, count - 1)) == u
    ensures Ends(Steps(p, cfg, s, m), tr, FromClone(p, count, count - 1, w, bounds))
    decreases |bounds|, 0
  {
    hide StepBlock; hide StartBlock; hide SilentClone; hide FinalClone; hide Outputs; hide Inputs; hide ScalarBlock;
    hide Entered; hide IsGem;
    var u := Turn(p, w);
    var t := [Run(w), Store(Index(p, u))];
    assert Nth(p, w, 1) == u && Runs(p, w, 1) == [Run(w)];
    assert FromClone(p, count, count - 1, w, bounds) == After(t, Batched(p, count, u, bounds)) by {
      hide Batched;
      assert [Run(w)] + [Store(Index(p, u))] == t;
    }
    hide FromClone;
    m := 0;
    if bounds != [] {
      var t' := t + [Load(bounds[0])];
      assert s.trace == tr + t';
      if Index(p, u) + count - 1 < bounds[0] {
        EntryValues(p, count, LastClone(count), s.env, u);
        m := ChainRun(p, count, cfg, 0, LastClone(count), s.env, bounds[1..], s.trace, u);
        BatchedFits(p, count, u, bounds);
        AfterAfter(t, [Load(bounds[0])], FromClone(p, count, 0, u, bounds[1..]));
        EndsAfter(Steps(p, cfg, s, m), tr, t', FromClone(p, count, 0, u, bounds[1..]));
      } else {
        m := CleanupRun(p, cfg, count, LastClone(count), s.env, s.bounds, s.trace, u);
        AfterAfter(t, [Load(bounds[0])], Cleanup(p, u, bounds[1..]));
        EndsAfter(Steps(p, cfg, s, m), tr, t', Cleanup(p, u, bounds[1..]));
      }
    } else {
      assert tr + t == tr + (t + []);
    }
  }

  lemma PreheaderStep(p: Protocol, cfg: Cfg, count: pos, bounds: seq<int>)
    requires p.ind < |p.latch| == |p.init| && IsGem(p, count, cfg)
    ensures var s := StepBlock(p, cfg, Start(bounds));
            if bounds == [] then s == Blocked([])
            else
              && s.At? && s.pred == Preheader && s.bounds == bounds[1..] && s.trace == [Load(bounds[0])]
              && s.at == if p.init[p.ind] + count - 1 < bounds[0] then Clone(0) else CleanupPreheader
  {
    hide StartBlock; hide SilentClone; hide FinalClone; hide ScalarBlock;
    ExecOne(p, Guard(Const(p.init[p.ind]), count), Cursor(map[], false, bounds, [], false));
  }

  /** From the first bound load on. */
  lemma FirstRun(p: Protocol, count: pos, cfg: Cfg, s: State, bounds: seq<int>) returns (m: nat)
    requires p.ind < |p.latch| == |p.init| && p.exits == [] && IsGem(p, count, cfg) && bounds != []
    requires s.At? && s.pred == Preheader && s.bounds == bounds[1..] && s.trace == [Load(bounds[0])]
    requires s.at == if Index(p, p.init) + count - 1 < bounds[0] then Clone(0) else CleanupPreheader
    ensures Ends(Steps(p, cfg, s, m), [], Batched(p, count, p.init, bounds))
  {
    hide StepBlock; hide IsGem; hide FromClone; hide Entered; hide Inputs; hide Batched; hide Cleanup; hide Outputs;
    hide Steps;
    var t := [Load(bounds[0])];
    assert [] + t == t;
    if Index(p, p.init) + count - 1 < bounds[0] {
      EntryValues(p, count, Preheader, s.env, p.init);
      m := ChainRun(p, count, cfg, 0, Preheader, s.env, bounds[1..], t, p.init);
      BatchedFits(p, count, p.init, bounds);
      EndsAfter(Steps(p, cfg, s, m), [], t, FromClone(p, count, 0, p.init, bounds[1..]));
    } else {
      m := CleanupRun(p, cfg, count, Preheader, s.env, bounds[1..], t, p.init);
      BatchedStops(p, count, p.init, bounds);
      EndsAfter(Steps(p, cfg, s, m), [], t, Cleanup(p, p.init, bounds[1..]));
    }
  }

  /** `formBatchedLoopWithCleanup` produces a loop that executes as `Batched`, whatever bounds are read. */
  lemma GemRun(p: Protocol, count: pos, cfg: Cfg, bounds: seq<int>) returns (n: nat)
    requires p.ind < |p.latch| == |p.init| && p.exits == [] && IsGem(p, count, cfg)
    ensures Ends(Steps(p, cfg, Start(bounds), n), [], Batched(p, count, p.init, bounds))
  {
    hide StepBlock; hide IsGem; hide Start; hide Steps; hide Ends; hide Batched;
    var s := StepBlock(p, cfg, Start(bounds));
    PreheaderStep(p, cfg, count, bounds);
    var m := 0;
    if bounds == [] {
      BatchedStops(p, count, p.init, bounds);
      EndsWaiting([]);
      OneStep(p, cfg, s, 0);
    } else {
      m := FirstRun(p, count, cfg, s, bounds);
    }
    n := 1 + m;
    OneStep(p, cfg, Start(bounds), m);
  }
}
