/**
 `rewriteStepLoop` as the updates it makes to the blocks of the vectorized probe.
 The limit that LLVM derived from the snapshot is used past the exit of its loop:
 as the index at which the next loop resumes, among the values the probe returns,
 and in the "no remainder" test.  `replaceOrSinkPastExit` puts the real exit index
 in its place.
 */
module TransplantRewrite {
  import opened LoopIR
  import opened OriginalLoop
  import opened FableRewrite
  import opened Transplant
  import ValueGraph
  import SunkValues
  import SinkRewrite

  // ---------- the probe as the vectorizer left it ----------

  function LimitOf(i: nat): Operand {
    Elem(Limit(i), 0)
  }

  function ProbeEntry(i: nat): Block {
    Block([], [], Br(StepLoop(i)))
  }

  /** A step loop that runs until its index reaches the limit derived from the snapshot. */
  function ProbeLoop(p: Protocol, stages: seq<Stage>, i: nat): Block
    requires i < |stages|
  {
    var n, at := |p.init|, StepLoop(i);
    Block([Row(Phis(at), map[Entry(i) := PhiOf(Merge(i), n), at := LatchOf(p, at)])],
          [Repeat(at, PhiOf(at, n), stages[i].step), Differs(NextIndex(p, at), LimitOf(i))],
          CondBr(at, Leaving(i)))
  }

  /** The "no remainder" test compares the limit with the snapshot. */
  function ProbeLeaving(p: Protocol, stages: seq<Stage>, i: nat): Block
    requires i < |stages|
  {
    var row := Row(Phis(Leaving(i)), map[StepLoop(i) := LatchOf(p, StepLoop(i))]);
    if stages[i].test then
      Block([row], [Equals(LimitOf(i), Elem(Snapshot, 0))], CondBr(Leave, NextStage(stages, i)))
    else Block([row], [], Br(NextStage(stages, i)))
  }

  /** After loop `i` the next one resumes at the limit. */
  function ResumeAtLimit(p: Protocol, i: nat): seq<Operand> {
    seq(|p.init|, j requires 0 <= j < |p.init| => if j == p.ind then LimitOf(i) else Elem(Phis(Leaving(i)), j))
  }

  function ProbeMerge(p: Protocol, stages: seq<Stage>, i: nat): Block
    requires 0 < i < |stages|
  {
    Block([Row(Phis(Merge(i)),
               map[Merge(i - 1) := PhiOf(Merge(i - 1), |p.init|), Leaving(i - 1) := ResumeAtLimit(p, i - 1)])],
          [], Br(if stages[i].skip then NextStage(stages, i) else Entry(i)))
  }

  /** Where the probe returns the index, it returns the limit. */
  function ProbeLiveOuts(p: Protocol, i: nat): seq<Operand> {
    seq(|p.exits|, j requires 0 <= j < |p.exits| =>
      if p.exits[j].Invariant? then Const(p.exits[j].v)
      else if IsIndex(p, p.exits[j]) then LimitOf(i)
      else Elem(Phis(Leaving(i)), FirstLatch(p.latch, p.exits[j])))
  }

  /** The blocks of stage `i` when the first `rewritten` stages have been rewritten. */
  ghost predicate IsStage(p: Protocol, stages: seq<Stage>, cfg: Cfg, i: nat, rewritten: nat)
    requires i < |stages|
  {
    && Entry(i) in cfg && StepLoop(i) in cfg && Leaving(i) in cfg
    && if i < rewritten then
         && cfg[Entry(i)] == EntryBlock(p, stages, i)
         && cfg[StepLoop(i)] == StepBlockOf(p, stages, i)
         && cfg[Leaving(i)] == LeavingBlock(p, stages, i)
       else
         && cfg[Entry(i)] == ProbeEntry(i)
         && cfg[StepLoop(i)] == ProbeLoop(p, stages, i)
         && cfg[Leaving(i)] == ProbeLeaving(p, stages, i)
  }

  /** The resume values of stage `i`; they change when the stage before it is rewritten. */
  ghost predicate IsMerge(p: Protocol, stages: seq<Stage>, cfg: Cfg, i: nat, rewritten: nat)
    requires i < |stages|
  {
    Merge(i) in cfg && cfg[Merge(i)] == if i <= rewritten then MergeBlock(p, stages, i) else ProbeMerge(p, stages, i)
  }

  /** The values returned after each stage, of which the first `rewritten` have been rewritten. */
  ghost predicate IsLeaveOf(p: Protocol, stages: seq<Stage>, b: Block, rewritten: nat) {
    && |b.rows| == 1 && b.rows[0].bank == Phis(Leave) && b.ops == [] && b.term == Ret
    && forall i :: 0 <= i < |stages| ==>
                     Incoming(b.rows[0], Leaving(i)) == if i < rewritten then LiveOuts(p, i) else ProbeLiveOuts(p, i)
  }

  ghost predicate IsProbe(p: Protocol, stages: seq<Stage>, cfg: Cfg, rewritten: nat) {
    && Preheader in cfg && cfg[Preheader] == Block([], [TakeSnapshot], Br(Merge(0)))
    && Leave in cfg && IsLeaveOf(p, stages, cfg[Leave], rewritten)
    && (forall i :: 0 <= i < |stages| ==> IsStage(p, stages, cfg, i, rewritten))
    && (forall i :: 0 <= i < |stages| ==> IsMerge(p, stages, cfg, i, rewritten))
  }

  // ---------- the uses of a limit as a value graph ----------

  const LIMIT: nat := 0
  const OTHER: nat := 1
  const COMPARE: nat := 2

  function NodeOf(o: Operand, limit: Operand): nat {
    if o == limit then LIMIT else OTHER
  }

  function NodesOf(os: seq<Operand>, limit: Operand): seq<nat> {
    seq(|os|, j requires 0 <= j < |os| => NodeOf(os[j], limit))
  }

  function PastUser(kind: ValueGraph.Kind, os: seq<Operand>, limit: Operand): ValueGraph.Node {
    ValueGraph.Node(kind, 0, NodesOf(os, limit), seq(|os|, _ => true), true)
  }

  /** The limit, all other values, the loop's compare and its branch; past the exit, the test, the
      PHIs of the next resume point and those of the return. */
  function LimitGraph(test: seq<Operand>, merge: seq<Operand>, leave: seq<Operand>, limit: Operand): ValueGraph.Graph {
    ValueGraph.Graph(
      [ValueGraph.Node(ValueGraph.Pure, 0, [], [], false),
       ValueGraph.Node(ValueGraph.Merge, 0, [], [], false),
       ValueGraph.Node(ValueGraph.Pure, 0, [OTHER, LIMIT], [false, false], false),
       ValueGraph.Node(ValueGraph.Merge, 0, [COMPARE], [false], false),
       PastUser(ValueGraph.Pure, test, limit),
       PastUser(ValueGraph.Merge, merge, limit),
       PastUser(ValueGraph.Merge, leave, limit)],
      LIMIT, COMPARE)
  }

  lemma LimitGraphWf(test: seq<Operand>, merge: seq<Operand>, leave: seq<Operand>, limit: Operand)
    ensures ValueGraph.Wf(LimitGraph(test, merge, leave, limit))
  {
    hide NodeOf;
    var g := LimitGraph(test, merge, leave, limit);
    forall v: nat, u: nat, k: nat | ValueGraph.IsUse(g, v, u, k)
      ensures v <= COMPARE && (u > 3 ==> v <= OTHER && g.nodes[u].after[k]) && (v == COMPARE ==> u == 3)
    {
      UseIs(test, merge, leave, limit, v, u, k);
    }
  }

  lemma UseIs(test: seq<Operand>, merge: seq<Operand>, leave: seq<Operand>, limit: Operand, v: nat, u: nat, k: nat)
    requires ValueGraph.IsUse(LimitGraph(test, merge, leave, limit), v, u, k)
    ensures u == 2 || u == 3 || (3 < u && v <= OTHER && LimitGraph(test, merge, leave, limit).nodes[u].after[k])
    ensures u == 2 ==> v <= OTHER
    ensures u == 3 ==> v == COMPARE
  {
  }

  /** Before the exit, only the loop's own compare uses the limit. */
  lemma LimitIsGood(test: seq<Operand>, merge: seq<Operand>, leave: seq<Operand>, limit: Operand)
    requires ValueGraph.Wf(LimitGraph(test, merge, leave, limit))
    ensures !ValueGraph.Bad(LimitGraph(test, merge, leave, limit), LIMIT)
  {
    hide ValueGraph.Wf;
    var g := LimitGraph(test, merge, leave, limit);
    forall u: nat, k: nat | ValueGraph.IsUse(g, LIMIT, u, k) ensures u == g.skip || g.nodes[u].after[k] {
      UseIs(test, merge, leave, limit, LIMIT, u, k);
    }
    hide LimitGraph; hide ValueGraph.IsUse;
  }

  /** `os` with `index` in place of the limit. */
  function Replaced(os: seq<Operand>, limit: Operand, index: Operand): seq<Operand> {
    seq(|os|, j requires 0 <= j < |os| => if os[j] == limit then index else os[j])
  }

  /** What the operand slots `os` hold once node `u` has the references `refs`. */
  method Redirected(os: seq<Operand>, refs: seq<SunkValues.Ref>, index: Operand) returns (r: seq<Operand>)
    requires |refs| == |os|
    ensures |r| == |os| && forall j :: 0 <= j < |os| ==> r[j] == if refs[j].Repl? then index else os[j]
  {
    r := [];
    for j := 0 to |os|
      invariant |r| == j && forall h :: 0 <= h < j ==> r[h] == if refs[h].Repl? then index else os[h]
    {
      r := r + [if refs[j].Repl? then index else os[j]];
    }
  }

  lemma SunkUser(g: ValueGraph.Graph, c: SunkValues.Code, u: nat, kind: ValueGraph.Kind, os: seq<Operand>,
                 limit: Operand)
    requires ValueGraph.Wf(g) && SunkValues.Sunk(g, c) && g.limit == LIMIT && g.skip == COMPARE
    requires COMPARE < u < |g.nodes| && g.nodes[u] == PastUser(kind, os, limit) && g.nodes[OTHER].kind.Merge?
    ensures u < |c.ops| && |c.ops[u]| == |os|
    ensures forall j :: 0 <= j < |os| ==> (c.ops[u][j].Repl? <==> os[j] == limit)
  {
    hide ValueGraph.Needed;
    forall j | 0 <= j < |os| ensures c.ops[u][j].Repl? <==> os[j] == limit {
      assert ValueGraph.IsUse(g, NodeOf(os[j], limit), u, j);
    }
  }

  /** `replaceOrSinkPastExit` on the uses past the exit: exactly those of the limit are replaced. */
  method ReplacePastExit(test: seq<Operand>, merge: seq<Operand>, leave: seq<Operand>, limit: Operand, index: Operand)
    returns (test': seq<Operand>, merge': seq<Operand>, leave': seq<Operand>)
    ensures test' == Replaced(test, limit, index) && merge' == Replaced(merge, limit, index)
    ensures leave' == Replaced(leave, limit, index)
  {
    var g := LimitGraph(test, merge, leave, limit);
    LimitGraphWf(test, merge, leave, limit);
    LimitIsGood(test, merge, leave, limit);
    hide ValueGraph.Wf; hide ValueGraph.Bad; hide SunkValues.Sunk;
    var ok, c := SinkRewrite.SinkLimit(g);
    SunkUser(g, c, 4, ValueGraph.Pure, test, limit);
    SunkUser(g, c, 5, ValueGraph.Merge, merge, limit);
    SunkUser(g, c, 6, ValueGraph.Merge, leave, limit);
    test' := Redirected(test, c.ops[4], index);
    merge' := Redirected(merge, c.ops[5], index);
    leave' := Redirected(leave, c.ops[6], index);
  }

  // ---------- the rewrite ----------

  /** `i` is the last header PHI whose latch value is `o`. */
  ghost predicate IsLast(latch: seq<Operand>, o: Operand, i: nat) {
    i < |latch| && latch[i] == o && forall h :: i < h < |latch| ==> latch[h] != o
  }

  /** What an exit PHI takes when the loop is skipped: where it takes the latch value `o` of the
      induction, the induction's entry value; a value from outside the loop as it is; and else the
      entry value of the last header PHI whose latch value is `o`. */
  method FromPreheader(o: Operand, latch: seq<Operand>, start: seq<Operand>, ind: nat) returns (r: Operand)
    requires |latch| == |start| && ind < |latch|
    ensures o == latch[ind] ==> r == start[ind]
    ensures o != latch[ind] && (o.Const? || o !in latch) ==> r == o
    ensures o != latch[ind] && !o.Const? ==> forall i: nat :: IsLast(latch, o, i) ==> r == start[i]
  {
    if o == latch[ind] { return start[ind]; }
    r := o;
    if !o.Const? {
      ghost var last := -1;
      for i := 0 to |latch|
        invariant -1 <= last < i && forall h :: last < h < i ==> latch[h] != o
        invariant if last < 0 then r == o else latch[last] == o && r == start[last]
      {
        if latch[i] == o { r, last := start[i], i; }
      }
    }
  }

  /** The block that returns, with the real exit index for loop `i`. */
  function RewrittenLeave(p: Protocol, b: Block, i: nat): Block
    requires |b.rows| == 1
  {
    b.(rows := [b.rows[0].(incoming := b.rows[0].incoming[Leaving(i) := LiveOuts(p, i)])])
  }

  /** The blocks after the rewrite of stage `i`. */
  function Rewritten(p: Protocol, stages: seq<Stage>, cfg: Cfg, i: nat): Cfg
    requires i < |stages| && Leave in cfg && |cfg[Leave].rows| == 1
  {
    var c := cfg[Leaving(i) := LeavingBlock(p, stages, i)][StepLoop(i) := StepBlockOf(p, stages, i)]
             [Entry(i) := EntryBlock(p, stages, i)][Leave := RewrittenLeave(p, cfg[Leave], i)];
    if i + 1 < |stages| then c[Merge(i + 1) := MergeBlock(p, stages, i + 1)] else c
  }

  lemma ReplacedLists(p: Protocol, i: nat)
    requires p.ind < |p.init|
    ensures var l, x := LimitOf(i), Elem(Phis(Leaving(i)), p.ind);
            && Replaced([l, Elem(Snapshot, 0)], l, x) == [x, Elem(Snapshot, 0)]
            && Replaced(ResumeAtLimit(p, i), l, x) == PhiOf(Leaving(i), |p.init|)
            && Replaced(ProbeLiveOuts(p, i), l, x) == LiveOuts(p, i)
  {
  }

  /** The exit PHIs of a skipped loop, from their values after the loop. */
  method SkippedInputs(p: Protocol, i: nat, outs: seq<Operand>, latch: seq<Operand>, start: seq<Operand>)
    returns (skipped: seq<Operand>)
    requires |p.init| == |p.latch| && p.ind < |p.latch|
    requires outs == latch == LatchOf(p, StepLoop(i)) && start == PhiOf(Merge(i), |p.init|)
    ensures skipped == SkippedOf(p, i)
  {
    skipped := [];
    for j := 0 to |outs|
      invariant |skipped| == j && forall h :: 0 <= h < j ==> skipped[h] == SkippedValue(p, i, p.latch[h])
    {
      var o := FromPreheader(outs[j], latch, start, p.ind);
      SkippedInput(p, i, latch, p.latch[j]);
      skipped := skipped + [o];
    }
  }

  lemma SkippedInput(p: Protocol, i: nat, latch: seq<Operand>, s: Source)
    requires |p.init| == |p.latch| && p.ind < |p.latch| && latch == LatchOf(p, StepLoop(i)) && s in p.latch
    ensures var o, h := LatchValue(p, StepLoop(i), s), LastLatch(p.latch, s);
            && (o == latch[p.ind] <==> IsIndex(p, s))
            && (o.Const? <==> s.Invariant?)
            && IsLast(latch, o, h)
  {
    var o, h := LatchValue(p, StepLoop(i), s), LastLatch(p.latch, s);
    forall g | 0 <= g < |latch| ensures latch[g] == o <==> p.latch[g] == s {
      SameLatch(p, StepLoop(i), p.latch[g], s);
    }
  }

  lemma SameLatch(p: Protocol, at: Label, s: Source, t: Source)
    requires s in p.latch && t in p.latch
    ensures LatchValue(p, at, s) == LatchValue(p, at, t) <==> s == t
  {
  }

  method RewriteStepLoop(code: Code, p: Protocol, stages: seq<Stage>, i: nat)
    requires |p.init| == |p.latch| && p.ind < |p.latch| && i < |stages| && IsProbe(p, stages, code.blocks, i)
    modifies code
    ensures code.blocks == Rewritten(p, stages, old(code.blocks), i)
  {
    assert IsStage(p, stages, code.blocks, i, i);
    var entry, body, exit := code.blocks[Entry(i)], code.blocks[StepLoop(i)], code.blocks[Leaving(i)];
    var leave := code.blocks[Leave];
    var last := i + 1 == |stages|;
    assert !last ==> IsMerge(p, stages, code.blocks, i + 1, i);
    // the real exit index takes the place of the limit
    var limit, index := LimitOf(i), Elem(Phis(Leaving(i)), p.ind);
    var test := if exit.ops == [] then [] else [exit.ops[0].a, exit.ops[0].b];
    var resume := if last then [] else code.blocks[Merge(i + 1)].rows[0].incoming[Leaving(i)];
    var outs := Incoming(leave.rows[0], Leaving(i));
    test, resume, outs := ReplacePastExit(test, resume, outs, limit, index);
    ReplacedLists(p, i);
    var ops := if exit.ops == [] then [] else [Equals(test[0], test[1])];
    // the next iteration's index is published at the latch, and a step guarded, there and on entry
    var start, latch := body.rows[0].incoming[Entry(i)], body.rows[0].incoming[StepLoop(i)];
    var body' := body.(ops := [body.ops[0], Publish(latch[p.ind]), Guard(latch[p.ind], stages[i].step)]);
    var entry' := Block([], [Guard(start[p.ind], stages[i].step)], CondBr(StepLoop(i), Leaving(i)));
    var skipped := SkippedInputs(p, i, exit.rows[0].incoming[StepLoop(i)], latch, start);
    var row := exit.rows[0].(incoming := exit.rows[0].incoming[Entry(i) := skipped]);
    var out := leave.rows[0].(incoming := leave.rows[0].incoming[Leaving(i) := outs]);
    assert row == LeavingBlock(p, stages, i).rows[0] && ops == LeavingBlock(p, stages, i).ops;
    assert leave.(rows := [out]) == RewrittenLeave(p, leave, i);
    code.blocks := code.blocks[Leaving(i) := exit.(rows := [row], ops := ops)][StepLoop(i) := body'][Entry(i) := entry']
    [Leave := leave.(rows := [out])];
    if !last {
      var merge := code.blocks[Merge(i + 1)];
      var at := merge.rows[0].(incoming := merge.rows[0].incoming[Leaving(i) := resume]);
      assert at.incoming == MergeBlock(p, stages, i + 1).rows[0].incoming;
      code.blocks := code.blocks[Merge(i + 1) := merge.(rows := [at])];
    }
  }

  lemma OneMore(p: Protocol, stages: seq<Stage>, cfg: Cfg, i: nat)
    requires i < |stages| && IsProbe(p, stages, cfg, i)
    ensures IsProbe(p, stages, Rewritten(p, stages, cfg, i), i + 1)
  {
    hide LeavingBlock; hide StepBlockOf; hide EntryBlock; hide MergeBlock; hide ProbeEntry; hide ProbeLoop;
    hide ProbeLeaving; hide ProbeMerge; hide LiveOuts; hide ProbeLiveOuts;
    var cfg', r := Rewritten(p, stages, cfg, i), i + 1;
    forall j | 0 <= j < |stages| ensures IsStage(p, stages, cfg', j, r) {
      assert IsStage(p, stages, cfg, j, i);
    }
    forall j | 0 <= j < |stages| ensures IsMerge(p, stages, cfg', j, r) {
      assert IsMerge(p, stages, cfg, j, i);
    }
    assert IsLeaveOf(p, stages, cfg'[Leave], r);
  }

  /** The loop over the matched step loops in `transplantProbe`. */
  method RewriteProbe(code: Code, p: Protocol, stages: seq<Stage>)
    requires |p.init| == |p.latch| && p.ind < |p.latch| && IsProbe(p, stages, code.blocks, 0)
    modifies code
    ensures IsTransplant(p, stages, code.blocks)
  {
    hide IsProbe;
    for i := 0 to |stages|
      invariant IsProbe(p, stages, code.blocks, i)
    {
      OneMore(p, stages, code.blocks, i);
      RewriteStepLoop(code, p, stages, i);
    }
    AllRewritten(p, stages, code.blocks);
  }

  lemma AllRewritten(p: Protocol, stages: seq<Stage>, cfg: Cfg)
    requires IsProbe(p, stages, cfg, |stages|)
    ensures IsTransplant(p, stages, cfg)
  {
    hide LeavingBlock; hide StepBlockOf; hide EntryBlock; hide MergeBlock; hide LiveOuts;
    forall i | 0 <= i < |stages|
      ensures Merge(i) in cfg && cfg[Merge(i)] == MergeBlock(p, stages, i)
      ensures Entry(i) in cfg && cfg[Entry(i)] == EntryBlock(p, stages, i)
      ensures StepLoop(i) in cfg && cfg[StepLoop(i)] == StepBlockOf(p, stages, i)
      ensures Leaving(i) in cfg && cfg[Leaving(i)] == LeavingBlock(p, stages, i)
    {
      assert IsStage(p, stages, cfg, i, |stages|) && IsMerge(p, stages, cfg, i, |stages|);
    }
  }
}
