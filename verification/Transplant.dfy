/**
 `transplantProbe` (fablepass): the chain of step loops that LLVM's vectorizer
 left in the probe - wide steps first, one iteration at a time last - becomes
 the batched loop.  Each step loop is guarded by a fresh bound load on entry and
 at its latch; snapshot tests may skip any loop but the last; and after some
 loops a "no remainder" test compares the real exit index with the snapshot.
 */
module Transplant {
  import opened LoopIR
  import opened OriginalLoop

  /** A step loop: iterations per step, whether the snapshot test skips it in this run, and
      whether a "no remainder" test follows it. */
  datatype Stage = Stage(step: pos, skip: bool, test: bool)

  /** The shape of an accepted probe, for the published factor `k`. */
  ghost predicate Chained(stages: seq<Stage>, k: pos) {
    && stages != []
    && (forall i :: 0 <= i < |stages| ==> stages[i].step <= k)
    && stages[|stages| - 1].step == 1 && !stages[|stages| - 1].skip
  }

  // ---------- the blocks ----------

  /** The latch inputs of the header PHIs in step loop `at`: the same value for two PHIs where the
      original loop has it so, and its loop-invariant values as they are. */
  function LatchOf(p: Protocol, at: Label): seq<Operand> {
    seq(|p.latch|, j requires 0 <= j < |p.latch| => LatchValue(p, at, p.latch[j]))
  }

  function LatchValue(p: Protocol, at: Label, s: Source): Operand {
    if s.Invariant? then Const(s.v) else Elem(Locals(at), FirstLatch(p.latch, s))
  }

  /** The latch input of the induction. */
  function NextIndex(p: Protocol, at: Label): Operand {
    if p.ind < |p.latch| then LatchValue(p, at, p.latch[p.ind]) else Const(0)
  }

  /** The last header PHI whose latch input is `s`. */
  function LastLatch(latch: seq<Source>, s: Source): (i: nat)
    ensures s in latch ==> i < |latch| && latch[i] == s && forall h :: i < h < |latch| ==> latch[h] != s
    decreases |latch|
  {
    if latch == [] then 0
    else if latch[|latch| - 1] == s then |latch| - 1
    else LastLatch(latch[..|latch| - 1], s)
  }

  predicate IsIndex(p: Protocol, s: Source) {
    p.ind < |p.latch| && s == p.latch[p.ind]
  }

  /** What the exit PHI for latch value `s` takes when step loop `i` is skipped: the entry value of
      the induction, a loop-invariant value as it is, or the entry value of the last header PHI
      with that latch value. */
  function SkippedValue(p: Protocol, i: nat, s: Source): Operand {
    if IsIndex(p, s) then Elem(Phis(Merge(i)), p.ind)
    else if s.Invariant? then Const(s.v)
    else Elem(Phis(Merge(i)), LastLatch(p.latch, s))
  }

  function SkippedOf(p: Protocol, i: nat): seq<Operand> {
    seq(|p.latch|, j requires 0 <= j < |p.latch| => SkippedValue(p, i, p.latch[j]))
  }

  /** Where the chain goes after stage `i`. */
  function NextStage(stages: seq<Stage>, i: nat): Label {
    if i + 1 < |stages| then Merge(i + 1) else Leave
  }

  /** The resume values of stage `i`, and the snapshot test that may skip it. */
  function MergeBlock(p: Protocol, stages: seq<Stage>, i: nat): Block
    requires i < |stages|
  {
    Block([Row(Phis(Merge(i)),
               if i == 0 then map[Preheader := Consts(p.init)]
               else map[Merge(i - 1) := PhiOf(Merge(i - 1), |p.init|),
                        Leaving(i - 1) := PhiOf(Leaving(i - 1), |p.init|)])],
          [], Br(if stages[i].skip then NextStage(stages, i) else Entry(i)))
  }

  function EntryBlock(p: Protocol, stages: seq<Stage>, i: nat): Block
    requires i < |stages|
  {
    Block([], [Guard(Elem(Phis(Merge(i)), p.ind), stages[i].step)], CondBr(StepLoop(i), Leaving(i)))
  }

  function StepBlockOf(p: Protocol, stages: seq<Stage>, i: nat): Block
    requires i < |stages|
  {
    var n, at := |p.init|, StepLoop(i);
    Block([Row(Phis(at), map[Entry(i) := PhiOf(Merge(i), n), at := LatchOf(p, at)])],
          [Repeat(at, PhiOf(at, n), stages[i].step), Publish(NextIndex(p, at)),
           Guard(NextIndex(p, at), stages[i].step)],
          CondBr(at, Leaving(i)))
  }

  /** The exit PHIs of stage `i`, among them the real exit index, and the "no remainder" test. */
  function LeavingBlock(p: Protocol, stages: seq<Stage>, i: nat): Block
    requires i < |stages|
  {
    var row := Row(Phis(Leaving(i)), map[StepLoop(i) := LatchOf(p, StepLoop(i)), Entry(i) := SkippedOf(p, i)]);
    if stages[i].test then
      Block([row], [Equals(Elem(Phis(Leaving(i)), p.ind), Elem(Snapshot, 0))], CondBr(Leave, NextStage(stages, i)))
    else Block([row], [], Br(NextStage(stages, i)))
  }

  /** The live-outs, as the last header PHIs hold them. */
  function LiveOuts(p: Protocol, i: nat): seq<Operand> {
    seq(|p.exits|, j requires 0 <= j < |p.exits| =>
      if p.exits[j].Invariant? then Const(p.exits[j].v)
      else if IsIndex(p, p.exits[j]) then Elem(Phis(Leaving(i)), p.ind)
      else Elem(Phis(Leaving(i)), FirstLatch(p.latch, p.exits[j])))
  }

  ghost predicate IsTransplant(p: Protocol, stages: seq<Stage>, cfg: Cfg) {
    && Preheader in cfg && cfg[Preheader] == Block([], [TakeSnapshot], Br(Merge(0)))
    && (forall i :: 0 <= i < |stages| ==>
                      && Merge(i) in cfg && cfg[Merge(i)] == MergeBlock(p, stages, i)
                      && Entry(i) in cfg && cfg[Entry(i)] == EntryBlock(p, stages, i)
                      && StepLoop(i) in cfg && cfg[StepLoop(i)] == StepBlockOf(p, stages, i)
                      && Leaving(i) in cfg && cfg[Leaving(i)] == LeavingBlock(p, stages, i))
    && Leave in cfg && IsLeave(p, stages, cfg[Leave])
  }

  ghost predicate IsLeave(p: Protocol, stages: seq<Stage>, b: Block) {
    && |b.rows| == 1 && b.rows[0].bank == Phis(Leave) && b.ops == [] && b.term == Ret
    && forall i :: 0 <= i < |stages| ==> Incoming(b.rows[0], Leaving(i)) == LiveOuts(p, i)
  }

  // ---------- the meaning of the chain ----------

  /** The resume values `v` as they leave a loop that is skipped. */
  function Fallback(p: Protocol, v: Vec): Vec {
    seq(|p.latch|, j requires 0 <= j < |p.latch| => FallbackValue(p, v, p.latch[j]))
  }

  function FallbackValue(p: Protocol, v: Vec, s: Source): int {
    if IsIndex(p, s) then Index(p, v)
    else if s.Invariant? then s.v
    else var h := LastLatch(p.latch, s); if h < |v| then v[h] else 0
  }

  /** PHIs that share a latch value agree, and one with a loop-invariant latch value has it: so it
      is as soon as an iteration has run. */
  ghost predicate Settled(p: Protocol, v: Vec) {
    && |v| == |p.latch|
    && (forall j, h :: 0 <= j < |v| && 0 <= h < |v| && p.latch[j] == p.latch[h] ==> v[j] == v[h])
    && (forall j :: 0 <= j < |v| && p.latch[j].Invariant? ==> v[j] == p.latch[j].v)
  }

  lemma NthSettled(p: Protocol, v: Vec, n: pos)
    ensures Settled(p, Nth(p, v, n))
  {
    NthSucc(p, v, n - 1);
    hide Nth;
  }

  lemma SettledFallback(p: Protocol, v: Vec)
    requires Settled(p, v)
    ensures Fallback(p, v) == v
  {
    forall j | 0 <= j < |v| ensures FallbackValue(p, v, p.latch[j]) == v[j] {
      assert p.latch[j] in p.latch;
    }
  }

  /** The recognized induction has no loop-invariant latch value. */
  lemma IndexMoves(p: Protocol)
    requires Accepted(p)
    ensures !p.latch[p.ind].Invariant?
  {
    var v := seq(|p.init|, _ => 0);
    var u := seq(|p.init|, _ => 1);
    assert Turn(p, v)[p.ind] == 1 && Turn(p, u)[p.ind] == 2;
  }

  lemma FallbackSettles(p: Protocol, v: Vec)
    requires Accepted(p) && |v| == |p.init|
    ensures Settled(p, Fallback(p, v)) && Index(p, Fallback(p, v)) == Index(p, v)
  {
    IndexMoves(p);
    hide Accepted;
  }

  /** From the resume point of the first stage on; `snapshot` is the bound loaded at the call. */
  function Chain(p: Protocol, stages: seq<Stage>, snapshot: int, v: Vec, bounds: seq<int>): Outcome
    decreases |bounds|, |stages|, 1
  {
    if stages == [] then Left(ResumeOf(p, v), [])
    else if stages[0].skip then Chain(p, stages[1..], snapshot, v, bounds)
    else if bounds == [] then Waiting([])
    else After([Load(bounds[0])],
               if Index(p, v) + stages[0].step - 1 < bounds[0] then Stepping(p, stages, snapshot, v, bounds[1..])
               else Exiting(p, stages, snapshot, Fallback(p, v), bounds[1..]))
  }

  /** From the first stage's loop on: a step, its progress store, the guard of the next step. */
  function Stepping(p: Protocol, stages: seq<Stage>, snapshot: int, v: Vec, bounds: seq<int>): Outcome
    requires stages != []
    decreases |bounds|, |stages|, 2
  {
    var s := stages[0].step;
    var u := Nth(p, v, s);
    var t := Runs(p, v, s) + [Store(Index(p, u))];
    if bounds == [] then Waiting(t)
    else After(t + [Load(bounds[0])],
               if Index(p, u) + s - 1 < bounds[0] then Stepping(p, stages, snapshot, u, bounds[1..])
               else Exiting(p, stages, snapshot, u, bounds[1..]))
  }

  function Exiting(p: Protocol, stages: seq<Stage>, snapshot: int, v: Vec, bounds: seq<int>): Outcome
    requires stages != []
    decreases |bounds|, |stages|, 0
  {
    if stages[0].test && Index(p, v) == snapshot then Left(ResumeOf(p, v), [])
    else Chain(p, stages[1..], snapshot, v, bounds)
  }

  /** The whole call: the snapshot is itself a volatile load. */
  function Transplanted(p: Protocol, stages: seq<Stage>, bounds: seq<int>): Outcome {
    if bounds == [] then Waiting([])
    else After([Load(bounds[0])], Chain(p, stages, bounds[0], p.init, bounds[1..]))
  }

  // ---------- one block at a time ----------

  /** The snapshot survives in the environment. */
  ghost predicate Holds(env: Env, snapshot: int) {
    Value(env, Elem(Snapshot, 0)) == snapshot
  }

  lemma MergeStep(p: Protocol, stages: seq<Stage>, cfg: Cfg, i: nat, pred: Label, env: Env, bounds: seq<int>,
                  tr: seq<Event>, v: Vec, snapshot: int)
    requires i < |stages| && |v| == |p.init| && Merge(i) in cfg && cfg[Merge(i)] == MergeBlock(p, stages, i)
    requires Holds(env, snapshot)
    requires if i == 0 then pred == Preheader && v == p.init
             else (pred == Merge(i - 1) || pred == Leaving(i - 1)) && Values(env, PhiOf(pred, |v|)) == v
    ensures var s := StepBlock(p, cfg, At(pred, Merge(i), env, bounds, tr));
            && s.At? && s.pred == Merge(i) && s.at == (if stages[i].skip then NextStage(stages, i) else Entry(i))
            && s.bounds == bounds && s.trace == tr && Holds(s.env, snapshot) && Values(s.env, PhiOf(Merge(i), |v|)) == v
  {
    ConstValues(env, p.init);
    EnterOne(cfg[Merge(i)].rows[0], pred, env);
    PhiValues(env[Phis(Merge(i)) := v], Merge(i), v);
  }

  lemma GuardStep(p: Protocol, stages: seq<Stage>, cfg: Cfg, i: nat, env: Env, bounds: seq<int>, tr: seq<Event>, v: Vec)
    requires i < |stages| && p.ind < |v| == |p.init| && Entry(i) in cfg && cfg[Entry(i)] == EntryBlock(p, stages, i)
    requires Values(env, PhiOf(Merge(i), |v|)) == v
    ensures var s := StepBlock(p, cfg, At(Merge(i), Entry(i), env, bounds, tr));
            if bounds == [] then s == Blocked(tr)
            else
              && s.At? && s.pred == Entry(i) && s.env == env && s.bounds == bounds[1..]
              && s.trace == tr + [Load(bounds[0])]
              && s.at == if Index(p, v) + stages[i].step - 1 < bounds[0] then StepLoop(i) else Leaving(i)
  {
    assert Value(env, PhiOf(Merge(i), |v|)[p.ind]) == Values(env, PhiOf(Merge(i), |v|))[p.ind] == Index(p, v);
    ExecOne(p, Guard(Elem(Phis(Merge(i)), p.ind), stages[i].step), Cursor(env, false, bounds, tr, false));
  }

  lemma LatchValues(p: Protocol, env: Env, at: Label, u: Vec)
    requires Settled(p, u) && Locals(at) in env && env[Locals(at)] == u
    ensures Values(env, LatchOf(p, at)) == u
    ensures p.ind < |u| ==> Value(env, NextIndex(p, at)) == Index(p, u)
  {
    forall j | 0 <= j < |u| ensures Value(env, LatchValue(p, at, p.latch[j])) == u[j] {
      assert p.latch[j] in p.latch;
    }
  }

  lemma SkippedValues(p: Protocol, i: nat, env: Env, v: Vec)
    requires |v| == |p.latch| && Values(env, PhiOf(Merge(i), |v|)) == v
    ensures Values(env, SkippedOf(p, i)) == Fallback(p, v)
  {
    forall j | 0 <= j < |v| ensures Value(env, Elem(Phis(Merge(i)), j)) == v[j] {
      assert Value(env, PhiOf(Merge(i), |v|)[j]) == Values(env, PhiOf(Merge(i), |v|))[j];
    }
    forall j | 0 <= j < |v|
      ensures Value(env, SkippedValue(p, i, p.latch[j])) == FallbackValue(p, v, p.latch[j])
    {
      assert p.latch[j] in p.latch;
    }
  }

  lemma LoopStep(p: Protocol, stages: seq<Stage>, cfg: Cfg, i: nat, pred: Label, env: Env, bounds: seq<int>,
                 tr: seq<Event>, v: Vec, snapshot: int)
    requires i < |stages| && p.ind < |v| == |p.init| == |p.latch| && Holds(env, snapshot)
    requires StepLoop(i) in cfg && cfg[StepLoop(i)] == StepBlockOf(p, stages, i)
    requires || (pred == Entry(i) && Values(env, PhiOf(Merge(i), |v|)) == v)
             || (pred == StepLoop(i) && Values(env, LatchOf(p, StepLoop(i))) == v)
    ensures var s := StepBlock(p, cfg, At(pred, StepLoop(i), env, bounds, tr));
            var u := Nth(p, v, stages[i].step);
            var t := tr + (Runs(p, v, stages[i].step) + [Store(Index(p, u))]);
            if bounds == [] then s == Blocked(t)
            else
              && s.At? && s.pred == StepLoop(i) && s.bounds == bounds[1..] && s.trace == t + [Load(bounds[0])]
              && s.at == (if Index(p, u) + stages[i].step - 1 < bounds[0] then StepLoop(i) else Leaving(i))
              && Holds(s.env, snapshot) && Values(s.env, LatchOf(p, StepLoop(i))) == u && Settled(p, u)
  {
    hide Settled; hide LatchOf; hide NextIndex; hide Values; hide PhiOf; hide Nth; hide Runs;
    var at, step := StepLoop(i), stages[i].step;
    var env1 := env[Phis(at) := v];
    EnterOne(cfg[at].rows[0], pred, env);
    PhiValues(env1, at, v);
    var u := Nth(p, v, step);
    NthShape(p, v, step);
    NthSettled(p, v, step);
    LatchValues(p, env1[Locals(at) := u], at, u);
    StepOps(p, at, step, NextIndex(p, at), env1, bounds, tr, v);
    hide Enter; hide ExecAll;
  }

  /** The operations of a step: the iterations, the progress store and the guard of the next step. */
  lemma StepOps(p: Protocol, at: Label, step: pos, next: Operand, env: Env, bounds: seq<int>, tr: seq<Event>, v: Vec)
    requires Values(env, PhiOf(at, |v|)) == v
    requires var u := Nth(p, v, step); Value(env[Locals(at) := u], next) == Index(p, u)
    ensures var u := Nth(p, v, step);
            var t := tr + (Runs(p, v, step) + [Store(Index(p, u))]);
            ExecAll(p, [Repeat(at, PhiOf(at, |v|), step), Publish(next), Guard(next, step)],
                    Cursor(env, false, bounds, tr, false)) ==
            if bounds == [] then Cursor(env[Locals(at) := u], false, [], t, true)
            else Cursor(env[Locals(at) := u], Index(p, u) + step - 1 < bounds[0], bounds[1..], t + [Load(bounds[0])],
                        false)
  {
    var u := Nth(p, v, step);
    var c0 := Cursor(env, false, bounds, tr, false);
    var c1 := Cursor(env[Locals(at) := u], false, bounds, tr + Runs(p, v, step), false);
    var c2 := c1.(trace := tr + (Runs(p, v, step) + [Store(Index(p, u))]));
    hide Nth; hide Runs; hide PhiOf; hide Values;
    assert Exec(p, Repeat(at, PhiOf(at, |v|), step), c0) == c1;
    assert Exec(p, Publish(next), c1) == c2 by {
      assert (tr + Runs(p, v, step)) + [Store(Index(p, u))] == c2.trace;
    }
    ExecThree(p, Repeat(at, PhiOf(at, |v|), step), Publish(next), Guard(next, step), c0);
  }

  lemma LeavingStep(p: Protocol, stages: seq<Stage>, cfg: Cfg, i: nat, pred: Label, env: Env, bounds: seq<int>,
                    tr: seq<Event>, v: Vec, snapshot: int)
    requires i < |stages| && p.ind < |v| == |p.init| && Accepted(p) && Settled(p, v) && Holds(env, snapshot)
    requires Leaving(i) in cfg && cfg[Leaving(i)] == LeavingBlock(p, stages, i)
    requires || (pred == Entry(i) && Values(env, SkippedOf(p, i)) == v)
             || (pred == StepLoop(i) && Values(env, LatchOf(p, StepLoop(i))) == v)
    ensures var s := StepBlock(p, cfg, At(pred, Leaving(i), env, bounds, tr));
            && s.At? && s.pred == Leaving(i) && s.bounds == bounds && s.trace == tr && Holds(s.env, snapshot)
            && s.at == (if stages[i].test && Index(p, v) == snapshot then Leave else NextStage(stages, i))
            && Values(s.env, PhiOf(Leaving(i), |v|)) == v && Values(s.env, LiveOuts(p, i)) == ResumeOf(p, v)
  {
    hide Accepted; hide LiveOuts; hide ResumeOf; hide Values; hide Settled; hide LatchOf; hide SkippedOf; hide PhiOf;
    var env1 := env[Phis(Leaving(i)) := v];
    EnterOne(cfg[Leaving(i)].rows[0], pred, env);
    PhiValues(env1, Leaving(i), v);
    LiveOutValues(p, i, env1, v);
    hide Enter;
    ExecOne(p, Equals(Elem(Phis(Leaving(i)), p.ind), Elem(Snapshot, 0)), Cursor(env1, false, bounds, tr, false));
  }

  lemma LiveOutValues(p: Protocol, i: nat, env: Env, v: Vec)
    requires Accepted(p) && Settled(p, v) && Phis(Leaving(i)) in env && env[Phis(Leaving(i))] == v
    ensures Values(env, LiveOuts(p, i)) == ResumeOf(p, v)
  {
    forall j | 0 <= j < |p.exits| ensures Value(env, LiveOuts(p, i)[j]) == ResumeOf(p, v)[j] {
      assert p.exits[j].Invariant? || p.exits[j] in p.latch;
    }
  }

  lemma LeaveStep(p: Protocol, stages: seq<Stage>, cfg: Cfg, i: nat, env: Env, bounds: seq<int>, tr: seq<Event>)
    requires i < |stages| && Leave in cfg && IsLeave(p, stages, cfg[Leave])
    ensures StepBlock(p, cfg, At(Leaving(i), Leave, env, bounds, tr)) == Finished(Values(env, LiveOuts(p, i)), tr)
  {
    var row := cfg[Leave].rows[0];
    assert cfg[Leave].rows == [row];
    EnterOne(row, Leaving(i), env);
  }

  // ---------- whole executions ----------

  lemma StageBlocks(p: Protocol, stages: seq<Stage>, cfg: Cfg, i: nat)
    requires IsTransplant(p, stages, cfg) && i < |stages|
    ensures Merge(i) in cfg && cfg[Merge(i)] == MergeBlock(p, stages, i)
    ensures Entry(i) in cfg && cfg[Entry(i)] == EntryBlock(p, stages, i)
    ensures StepLoop(i) in cfg && cfg[StepLoop(i)] == StepBlockOf(p, stages, i)
    ensures Leaving(i) in cfg && cfg[Leaving(i)] == LeavingBlock(p, stages, i)
    ensures Leave in cfg && IsLeave(p, stages, cfg[Leave])
  {
    hide MergeBlock; hide EntryBlock; hide StepBlockOf; hide LeavingBlock; hide IsLeave;
  }

  /** From the resume point of stage `i` on. */
  lemma {:induction false} ChainRun(p: Protocol, stages: seq<Stage>, cfg: Cfg, i: nat, pred: Label, env: Env,
                                    bounds: seq<int>, tr: seq<Event>, v: Vec, snapshot: int) returns (n: nat)
    requires Accepted(p) && |v| == |p.init| && IsTransplant(p, stages, cfg) && i < |stages| && Holds(env, snapshot)
    requires !stages[|stages| - 1].skip
    requires if i == 0 then pred == Preheader && v == p.init
             else (pred == Merge(i - 1) || pred == Leaving(i - 1)) && Values(env, PhiOf(pred, |v|)) == v
    ensures Ends(Steps(p, cfg, At(pred, Merge(i), env, bounds, tr), n), tr, Chain(p, stages[i..], snapshot, v, bounds))
    decreases |bounds|, |stages| - i, 1
  {
    hide StepBlock; hide MergeBlock; hide EntryBlock; hide StepBlockOf; hide LeavingBlock; hide LiveOuts; hide ResumeOf;
    hide Holds; hide IsLeave; hide Stepping; hide Exiting; hide Values; hide PhiOf; hide Steps; hide Fallback;
    AcceptedShape(p);
    StageBlocks(p, stages, cfg, i);
    hide IsTransplant;
    var s0 := At(pred, Merge(i), env, bounds, tr);
    MergeStep(p, stages, cfg, i, pred, env, bounds, tr, v, snapshot);
    var s := StepBlock(p, cfg, s0);
    assert stages[i..][0] == stages[i] && stages[i..][1..] == stages[i + 1..];
    var m;
    if stages[i].skip {
      m := ChainRun(p, stages, cfg, i + 1, Merge(i), s.env, bounds, tr, v, snapshot);
    } else {
      m := EntryRun(p, stages, cfg, i, s.env, bounds, tr, v, snapshot);
    }
    n := 1 + m;
    OneStep(p, cfg, s0, m);
  }

  lemma {:induction false} EntryRun(p: Protocol, stages: seq<Stage>, cfg: Cfg, i: nat, env: Env, bounds: seq<int>,
                                    tr: seq<Event>, v: Vec, snapshot: int) returns (n: nat)
    requires Accepted(p) && |v| == |p.init| && IsTransplant(p, stages, cfg) && i < |stages| && Holds(env, snapshot)
    requires !stages[|stages| - 1].skip && !stages[i].skip && Values(env, PhiOf(Merge(i), |v|)) == v
    ensures Ends(Steps(p, cfg, At(Merge(i), Entry(i), env, bounds, tr), n), tr,
                 Chain(p, stages[i..], snapshot, v, bounds))
    decreases |bounds|, |stages| - i, 0
  {
    hide StepBlock; hide MergeBlock; hide EntryBlock; hide StepBlockOf; hide LeavingBlock; hide LiveOuts; hide ResumeOf;
    hide Holds; hide IsLeave; hide Stepping; hide Exiting;
    AcceptedShape(p);
    StageBlocks(p, stages, cfg, i);
    hide IsTransplant;
    var s0 := At(Merge(i), Entry(i), env, bounds, tr);
    GuardStep(p, stages, cfg, i, env, bounds, tr, v);
    var s := StepBlock(p, cfg, s0);
    assert stages[i..][0] == stages[i] && stages[i..][1..] == stages[i + 1..];
    var m := 0;
    if bounds != [] {
      var t := [Load(bounds[0])];
      if Index(p, v) + stages[i].step - 1 < bounds[0] {
        m := SteppingRun(p, stages, cfg, i, Entry(i), env, bounds[1..], tr + t, v, snapshot);
        EndsAfter(Steps(p, cfg, s, m), tr, t, Stepping(p, stages[i..], snapshot, v, bounds[1..]));
      } else {
        var u := Fallback(p, v);
        SkippedValues(p, i, env, v);
        FallbackSettles(p, v);
        m := ExitingRun(p, stages, cfg, i, Entry(i), env, bounds[1..], tr + t, u, snapshot);
        EndsAfter(Steps(p, cfg, s, m), tr, t, Exiting(p, stages[i..], snapshot, u, bounds[1..]));
      }
    }
    n := 1 + m;
    OneStep(p, cfg, s0, m);
  }

  lemma {:induction false} SteppingRun(p: Protocol, stages: seq<Stage>, cfg: Cfg, i: nat, pred: Label, env: Env,
                                       bounds: seq<int>, tr: seq<Event>, v: Vec, snapshot: int) returns (n: nat)
    requires Accepted(p) && |v| == |p.init| && IsTransplant(p, stages, cfg) && i < |stages| && Holds(env, snapshot)
    requires !stages[|stages| - 1].skip
    requires || (pred == Entry(i) && Values(env, PhiOf(Merge(i), |v|)) == v)
             || (pred == StepLoop(i) && Values(env, LatchOf(p, StepLoop(i))) == v)
    ensures Ends(Steps(p, cfg, At(pred, StepLoop(i), env, bounds, tr), n), tr,
                 Stepping(p, stages[i..], snapshot, v, bounds))
    decreases |bounds|, |stages| - i, 3
  {
    hide StepBlock; hide MergeBlock; hide EntryBlock; hide StepBlockOf; hide LeavingBlock; hide LiveOuts; hide ResumeOf;
    hide Holds; hide IsLeave; hide Chain; hide Exiting; hide Values; hide LatchOf; hide PhiOf; hide Settled;
    hide Nth; hide Runs;
    AcceptedShape(p);
    StageBlocks(p, stages, cfg, i);
    hide IsTransplant;
    hide Accepted;
    var s0 := At(pred, StepLoop(i), env, bounds, tr);
    LoopStep(p, stages, cfg, i, pred, env, bounds, tr, v, snapshot);
    var s := StepBlock(p, cfg, s0);
    assert stages[i..][0] == stages[i];
    var u := Nth(p, v, stages[i].step);
    NthShape(p, v, stages[i].step);
    var t := Runs(p, v, stages[i].step) + [Store(Index(p, u))];
    var m := 0;
    if bounds != [] {
      var t' := t + [Load(bounds[0])];
      assert s.trace == tr + t';
      if Index(p, u) + stages[i].step - 1 < bounds[0] {
        m := SteppingRun(p, stages, cfg, i, StepLoop(i), s.env, bounds[1..], tr + t', u, snapshot);
        EndsAfter(Steps(p, cfg, s, m), tr, t', Stepping(p, stages[i..], snapshot, u, bounds[1..]));
      } else {
        m := ExitingRun(p, stages, cfg, i, StepLoop(i), s.env, bounds[1..], tr + t', u, snapshot);
        EndsAfter(Steps(p, cfg, s, m), tr, t', Exiting(p, stages[i..], snapshot, u, bounds[1..]));
      }
    }
    n := 1 + m;
    OneStep(p, cfg, s0, m);
  }

  lemma {:induction false} ExitingRun(p: Protocol, stages: seq<Stage>, cfg: Cfg, i: nat, pred: Label, env: Env,
                                      bounds: seq<int>, tr: seq<Event>, v: Vec, snapshot: int) returns (n: nat)
    requires Accepted(p) && |v| == |p.init| && IsTransplant(p, stages, cfg) && i < |stages| && Holds(env, snapshot)
    requires !stages[|stages| - 1].skip
    requires Settled(p, v)
    requires || (pred == Entry(i) && Values(env, SkippedOf(p, i)) == v)
             || (pred == StepLoop(i) && Values(env, LatchOf(p, StepLoop(i))) == v)
    ensures Ends(Steps(p, cfg, At(pred, Leaving(i), env, bounds, tr), n), tr,
                 Exiting(p, stages[i..], snapshot, v, bounds))
    decreases |bounds|, |stages| - i, 2
  {
    hide StepBlock; hide MergeBlock; hide EntryBlock; hide StepBlockOf; hide LeavingBlock; hide LiveOuts; hide ResumeOf;
    hide Holds; hide IsLeave; hide Settled; hide SkippedOf; hide LatchOf; hide Values; hide PhiOf; hide Steps;
    AcceptedShape(p);
    StageBlocks(p, stages, cfg, i);
    hide IsTransplant;
    var s0 := At(pred, Leaving(i), env, bounds, tr);
    LeavingStep(p, stages, cfg, i, pred, env, bounds, tr, v, snapshot);
    var s := StepBlock(p, cfg, s0);
    assert stages[i..][0] == stages[i] && stages[i..][1..] == stages[i + 1..];
    var m := 1;
    assert tr + [] == tr;
    if (stages[i].test && Index(p, v) == snapshot) || i + 1 == |stages| {
      LeaveStep(p, stages, cfg, i, s.env, bounds, tr);
      OneStep(p, cfg, s, 0);
      OneStep(p, cfg, StepBlock(p, cfg, s), 0);
    } else {
      m := ChainRun(p, stages, cfg, i + 1, Leaving(i), s.env, bounds, tr, v, snapshot);
    }
    n := 1 + m;
    OneStep(p, cfg, s0, m);
  }

  /** The rewritten probe executes as `Transplanted`, whatever bounds are read. */
  lemma TransplantRun(p: Protocol, stages: seq<Stage>, k: pos, cfg: Cfg, bounds: seq<int>) returns (n: nat)
    requires Accepted(p) && Chained(stages, k) && IsTransplant(p, stages, cfg)
    ensures Ends(Steps(p, cfg, Start(bounds), n), [], Transplanted(p, stages, bounds))
  {
    hide MergeBlock; hide EntryBlock; hide StepBlockOf; hide LeavingBlock; hide IsLeave; hide Chain; hide Accepted;
    ExecOne(p, TakeSnapshot, Cursor(map[], false, bounds, [], false));
    var s := StepBlock(p, cfg, Start(bounds));
    var m := 0;
    if bounds != [] {
      var t := [Load(bounds[0])];
      assert [] + t == t;
      hide StepBlock; hide IsTransplant;
      m := ChainRun(p, stages, cfg, 0, Preheader, s.env, bounds[1..], [] + t, p.init, bounds[0]);
      assert stages[0..] == stages;
      EndsAfter(Steps(p, cfg, s, m), [], t, Chain(p, stages, bounds[0], p.init, bounds[1..]));
    }
    n := 1 + m;
    OneStep(p, cfg, Start(bounds), m);
  }
}
