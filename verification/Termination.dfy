/**
 Every run is finite up to heartbeats: a potential, fixed by the work alone,
 drops with every main-thread micro-step and every steal and never rises with a
 heartbeat, however often the handler splits the remaining work.
 */
module Termination {
  import opened Sums
  import opened Tasks
  import opened Handler
  import opened Machine
  import opened StepCases
  import opened Wrappers
  import opened FrameInvariant
  import opened StackInvariant
  import opened WorkerInvariant
  import opened StepInvariant
  import opened Stolen
  import opened SystemInvariant

  /** Credit of `n` iterations that the handler may still move into jobs. */
  function SplitCredit(n: nat): nat {
    34 * n
  }

  /** Credit of an unpromoted fork. */
  const FORK_CREDIT: nat := 8

  /** Micro-steps of `n` joins. */
  function JoinCost(n: nat): nat {
    6 * n
  }

  /** An upper bound on the micro-steps that running `t` takes, in any schedule. */
  function Cost(t: Task): nat
    decreases t, 1
  {
    match t
    case Leaf(_) => 1
    case Loop(_, items) => 10 + Iterations(items) + SplitCredit(|items|)
    case Fork(l, g, r) => 18 + FORK_CREDIT + Cost(l) + Cost(g) + Cost(r)
  }

  /** The bodies of some iterations, each with the loop's own five micro-steps. */
  function Iterations(ts: seq<Task>): nat
    decreases ts, 0
  {
    if ts == [] then 0 else 5 + Cost(ts[0]) + Iterations(ts[1..])
  }

  lemma {:induction false} IterationsAppend(s: seq<Task>, t: seq<Task>)
    ensures Iterations(s + t) == Iterations(s) + Iterations(t)
    decreases |s|
  {
    if s == [] {
      assert s + t == t;
    } else {
      IterationsAppend(s[1..], t);
      assert (s + t)[1..] == s[1..] + t;
    }
  }

  lemma IterationsSplit(ts: seq<Task>, i: nat, j: nat, k: nat)
    requires i <= j <= k <= |ts|
    ensures Iterations(ts[i..k]) == Iterations(ts[i..j]) + Iterations(ts[j..k])
  {
    assert ts[i..k] == ts[i..j] + ts[j..k];
    IterationsAppend(ts[i..j], ts[j..k]);
  }

  lemma IterationsFirst(ts: seq<Task>, i: nat, k: nat)
    requires i < k <= |ts|
    ensures Iterations(ts[i..k]) == 5 + Cost(ts[i]) + Iterations(ts[i + 1..k])
  {
    assert ts[i..k][0] == ts[i] && ts[i..k][1..] == ts[i + 1..k];
  }

  // ---------- the potential of a frame ----------

  function EntryRank(pc: Pc): nat {
    match pc
    case Enter => 5
    case Committed => 4
    case EagerOff => 3
    case EagerAct => 2
    case EagerOn => 1
    case _ => 0
  }

  /** What a frame still has to do itself, beyond its calls and its queued jobs. */
  function JoinPotential(f: Frame): nat {
    var j := JoinCost(|f.pend|);
    var held := if f.pend == [] then 0 else Cost(Last(f).task);
    match f.pc
    case Popped => 1 + j + held
    case WriteBack => j + held
    case Call => if j == 0 then 0 else j - 1 + held
    case Inline => if j == 0 then 0 else j - 2
    case Wait => 1 + j
    case _ => 2 + j
  }

  function LoopPotential(f: Frame, items: seq<Task>): nat {
    var slack := if f.promoted || |items| < f.ssi then 0 else SplitCredit(|items| - f.ssi);
    var x := if f.pc.Nested? || f.pc.Advance? then f.i + 1 else f.i;
    LoopRank(f.pc) + (if f.pc.Close? then 0 else Iterations(Slice(items, x, f.end))) + JoinCost(|f.pend|) + slack
  }

  function LoopRank(pc: Pc): nat {
    match pc
    case Close => 3
    case Test => 4
    case Body => 3
    case Nested => 7
    case Advance => 7
    case Publish => 6
    case _ => 5 + EntryRank(pc)
  }

  function ForkPotential(f: Frame, l: Task, g: Task, r: Task): nat {
    var rest := if f.promoted then JoinCost(1) else Cost(r) + FORK_CREDIT;
    match f.pc
    case AwaitRight => 2
    case Right => 3 + Cost(r)
    case AwaitGap => 9 + rest
    case Gap => 10 + Cost(g) + rest
    case Close => 11 + Cost(g) + rest
    case AwaitLeft => 12 + Cost(g) + rest
    case _ => 13 + EntryRank(f.pc) + Cost(l) + Cost(g) + rest
  }

  function Potential(f: Frame): nat {
    if f.pc.Done? then 1
    else if Joining(f.pc) then JoinPotential(f)
    else
      match f.task
      case Leaf(_) => 1
      case Loop(_, items) => LoopPotential(f, items)
      case Fork(l, g, r) => ForkPotential(f, l, g, r)
  }

  /** A fresh call of `t` has potential `Cost(t)`. */
  lemma FreshPotential(t: Task, ret: Ret, birth: nat, a0: Expr)
    ensures Potential(NewFrame(t, ret, birth, a0)) == Cost(t)
  {
    if t.Loop? {
      assert Slice(t.items, 0, |t.items|) == t.items;
    }
  }

  // ---------- the potential of a worker and of the system ----------

  function StackPotential(stack: seq<Frame>): nat {
    if stack == [] then 0 else Potential(stack[0]) + StackPotential(stack[1..])
  }

  lemma {:induction false} StackAppend(s: seq<Frame>, t: seq<Frame>)
    ensures StackPotential(s + t) == StackPotential(s) + StackPotential(t)
    decreases |s|
  {
    hide Potential;
    if s == [] {
      assert s + t == t;
    } else {
      StackAppend(s[1..], t);
      assert (s + t)[1..] == s[1..] + t;
    }
  }

  lemma StackTopPotential(s: seq<Frame>, f: Frame)
    ensures StackPotential(s + [f]) == StackPotential(s) + Potential(f)
  {
    hide Potential;
    StackAppend(s, [f]);
    assert [f][1..] == [];
  }

  function JobCost(jobs: map<nat, Job>, id: nat): nat {
    if id in jobs then 1 + Cost(jobs[id].task) else 0
  }

  function QueuePotential(deque: seq<nat>, jobs: map<nat, Job>): nat {
    if deque == [] then 0 else JobCost(jobs, deque[0]) + QueuePotential(deque[1..], jobs)
  }

  lemma {:induction false} QueueAppend(d: seq<nat>, e: seq<nat>, jobs: map<nat, Job>)
    ensures QueuePotential(d + e, jobs) == QueuePotential(d, jobs) + QueuePotential(e, jobs)
    decreases |d|
  {
    if d == [] {
      assert d + e == e;
    } else {
      QueueAppend(d[1..], e, jobs);
      assert (d + e)[1..] == d[1..] + e;
    }
  }

  lemma {:induction false} QueueExtends(d: seq<nat>, jobs: map<nat, Job>, more: map<nat, Job>)
    requires Extends(jobs, more) && forall id :: id in d ==> id in jobs
    ensures QueuePotential(d, more) == QueuePotential(d, jobs)
    decreases |d|
  {
    if d != [] {
      QueueExtends(d[1..], jobs, more);
    }
  }

  function WorkerPotential(w: Worker, jobs: map<nat, Job>): nat {
    StackPotential(w.stack) + QueuePotential(w.deque, jobs)
  }

  // ---------- the loop's own steps ----------

  lemma LoopPotentialIs(f: Frame)
    requires f.task.Loop? && !f.pc.Done? && !Joining(f.pc)
    ensures Potential(f) == LoopPotential(f, f.task.items)
  {
    hide LoopPotential;
  }

  lemma BodyPays(f: Frame)
    requires f.task.Loop? && f.pc.Body? && f.i < f.end <= |f.task.items|
    ensures forall a :: LoopPotential(f.(a := a, pc := Advance), f.task.items) + Cost(f.task.items[f.i])
                      < LoopPotential(f, f.task.items)
  {
    hide Cost; hide Iterations; hide SplitCredit; hide JoinCost;
    IterationsFirst(f.task.items, f.i, f.end);
  }

  lemma AdvancePays(f: Frame, pc: Pc)
    requires f.task.Loop? && f.pc.Advance? && f.i < f.end <= |f.task.items| && (pc.Body? || pc.Publish?)
    ensures LoopPotential(f.(i := f.i + 1, pc := pc), f.task.items) < LoopPotential(f, f.task.items)
  {
    hide Cost; hide Iterations; hide SplitCredit; hide JoinCost;
  }

  lemma PublishPays(f: Frame)
    requires f.task.Loop? && f.pc.Publish? && f.ssi <= f.i <= f.end <= |f.task.items|
    ensures LoopPotential(f.(ssi := f.i, pc := Head), f.task.items) < LoopPotential(f, f.task.items)
  {
    hide Cost; hide Iterations; hide JoinCost;
  }

  lemma TestPays(f: Frame)
    requires f.task.Loop?
    ensures f.pc.Head? ==>
              forall e :: LoopPotential(f.(seen := e, pc := Test), f.task.items) < LoopPotential(f, f.task.items)
    ensures f.pc.Test? ==> LoopPotential(f.(pc := Close), f.task.items) < LoopPotential(f, f.task.items)
    ensures f.pc.Test? ==>
              forall g :: LoopPotential(f.(goal := g, pc := Body), f.task.items) < LoopPotential(f, f.task.items)
  {
    hide Cost; hide Iterations; hide SplitCredit; hide JoinCost;
  }

  lemma LoopStepPays(f: Frame, s: nat)
    requires Shape(f) && LoopStep(f, s).Some?
    ensures Potential(LoopStep(f, s).value) < Potential(f)
  {
    hide LoopPotential; hide Potential;
    LoopPotentialIs(f);
    LoopPotentialIs(LoopStep(f, s).value);
    if f.pc.Head? || f.pc.Test? {
      TestPays(f);
    } else if f.pc.Body? {
      BodyPays(f);
    } else if f.pc.Advance? {
      AdvancePays(f, if f.i + 1 == f.goal then Publish else Body);
    } else {
      PublishPays(f);
    }
  }

  /** Steps that only move a frame on. */
  lemma RelabelPays(f: Frame, pc: Pc)
    requires Shape(f) && Relabels(f, pc) && !Awaiting(pc) && !pc.Popped?
    ensures Potential(f.(pc := pc)) < Potential(f)
  {
    hide Potential; hide Relabels; hide Awaiting;
    if Joining(f.pc) {
      JoinRelabelPays(f, pc);
    } else if f.task.Loop? {
      LoopRelabelPays(f, pc);
    } else if f.task.Fork? {
      ForkRelabelPays(f, pc);
    } else {
      LeafStays(f, pc);
    }
  }

  lemma LeafStays(f: Frame, pc: Pc)
    requires Shape(f) && f.task.Leaf?
    ensures !Relabels(f, pc)
  {
  }

  lemma JoinRelabelPays(f: Frame, pc: Pc)
    requires Shape(f) && Relabels(f, pc) && !Awaiting(pc) && !pc.Popped? && Joining(f.pc)
    ensures Potential(f.(pc := pc)) < Potential(f)
  {
    hide Cost; hide LoopPotential; hide ForkPotential; hide Looping;
  }

  lemma LoopRelabelPays(f: Frame, pc: Pc)
    requires Shape(f) && Relabels(f, pc) && !Awaiting(pc) && !Joining(f.pc) && f.task.Loop?
    ensures Potential(f.(pc := pc)) < Potential(f)
  {
    hide Cost; hide Iterations; hide ForkPotential; hide SplitCredit;
  }

  lemma ForkRelabelPays(f: Frame, pc: Pc)
    requires Shape(f) && Relabels(f, pc) && !Awaiting(pc) && !Joining(f.pc) && f.task.Fork?
    ensures Potential(f.(pc := pc)) < Potential(f)
  {
    hide Cost; hide LoopPotential;
  }

  /** The potential a frame holds for the call it is about to make. */
  lemma CallPays(f: Frame)
    requires Shape(f) && MayCall(f.pc)
    requires f.pc.Head? ==> f.task.Fork?
    ensures Potential(f.(pc := CallingPc(f.pc))) + Cost(Callee(f)) < Potential(f)
  {
    hide Potential; hide Cost; hide LoopPotential;
    if f.pc.Body? {
      var g := f.(pc := Nested);
      BodyCallPays(f);
      LoopPotentialIs(f);
      LoopPotentialIs(g);
    } else if f.pc.Call? {
      JobCallPays(f);
    } else {
      ForkCallPays(f);
    }
  }

  lemma BodyCallPays(f: Frame)
    requires f.task.Loop? && f.pc.Body? && f.i < f.end <= |f.task.items|
    ensures LoopPotential(f.(pc := Nested), f.task.items) + Cost(f.task.items[f.i]) < LoopPotential(f, f.task.items)
  {
    hide Cost; hide Iterations; hide SplitCredit; hide JoinCost;
    IterationsFirst(f.task.items, f.i, f.end);
  }

  lemma JobCallPays(f: Frame)
    requires f.pc.Call? && f.pend != []
    ensures Potential(f.(pc := Inline)) + Cost(Last(f).task) < Potential(f)
  {
    hide Cost;
  }

  lemma ForkCallPays(f: Frame)
    requires f.task.Fork? && (f.pc.Head? || f.pc.Gap? || f.pc.Right?)
    ensures Potential(f.(pc := CallingPc(f.pc))) + Cost(Callee(f)) < Potential(f)
  {
    hide Cost;
  }

  lemma ReceivePays(f: Frame, v: Expr)
    requires Shape(f) && (Awaiting(f.pc) || f.pc.Wait?)
    ensures Potential(Receive(f, v)) <= Potential(f)
    ensures f.pc.Wait? ==> Potential(Receive(f, v)) < Potential(f)
  {
    hide Iterations; hide Cost; hide SplitCredit;
    if f.pc.Nested? {
      assert Receive(f, v) == f.(a := App(f.a, v), pc := Advance);
    } else if f.pc.Wait? || f.pc.Inline? {
      JoinedPays(f, v);
    } else {
      ForkReceivePays(f, v);
    }
  }

  lemma JoinedPays(f: Frame, v: Expr)
    requires f.pend != [] && (f.pc.Inline? || f.pc.Wait?)
    ensures Potential(Receive(f, v)) <= Potential(f)
    ensures f.pc.Wait? ==> Potential(Receive(f, v)) < Potential(f)
  {
    hide Cost;
    ReceiveJobIs(f, v);
    assert |DropLast(f)| == |f.pend| - 1;
  }

  lemma ForkReceivePays(f: Frame, v: Expr)
    requires Shape(f) && f.task.Fork? && (f.pc.AwaitLeft? || f.pc.AwaitGap? || f.pc.AwaitRight?)
    ensures Potential(Receive(f, v)) <= Potential(f)
  {
    hide Cost;
  }

  lemma PopPays(f: Frame)
    requires f.pc.Join? && f.pend != []
    ensures Potential(f.(pc := Popped)) + 1 == Potential(f) + Cost(Last(f).task)
  {
  }

  // ---------- promotion ----------

  function SpawnCost(spawned: seq<Spawn>): nat {
    if spawned == [] then 0 else 1 + Cost(spawned[0].task) + SpawnCost(spawned[1..])
  }

  lemma {:induction false} SpawnCostAppend(s: seq<Spawn>, t: seq<Spawn>)
    ensures SpawnCost(s + t) == SpawnCost(s) + SpawnCost(t)
    decreases |s|
  {
    if s == [] {
      assert s + t == t;
    } else {
      SpawnCostAppend(s[1..], t);
      assert (s + t)[1..] == s[1..] + t;
    }
  }

  /** The jobs that a split makes: `r` always, `l` only if it has work. */
  ghost predicate SplitSpawn(items: seq<Task>, p: nat, mid: nat, factor: pos, spawned: seq<Spawn>) {
    && p <= mid <= |items|
    && 0 < |spawned| <= 2 && (|spawned| == 1 ==> p == mid)
    && spawned[0].task == Loop(factor, items[mid..])
    && (|spawned| == 2 ==> spawned[1].task == Loop(factor, items[p..mid]))
  }

  lemma SplitSpawnCost(items: seq<Task>, p: nat, mid: nat, factor: pos, spawned: seq<Spawn>)
    requires SplitSpawn(items, p, mid, factor, spawned)
    ensures SpawnCost(spawned) <= 22 + Iterations(items[p..]) + SplitCredit(|items| - p)
  {
    IterationsSplit(items, p, mid, |items|);
    assert items[p..|items|] == items[p..] && items[mid..|items|] == items[mid..];
    if |spawned| == 2 {
      assert spawned[1..][1..] == [];
      assert SpawnCost(spawned[1..]) == 1 + Cost(spawned[1].task) + SpawnCost(spawned[1..][1..]);
    } else {
      assert spawned[1..] == [];
    }
  }

  lemma PromoteSpawns(f: Frame, tokens: nat, next: nat)
    requires f.task.Loop? && f.end == |f.task.items| && 0 < tokens
    requires SplitRange(f.ssi, f.end, f.task.factor).Split?
    ensures var p := Promote(f, tokens, next);
            var s := SplitRange(f.ssi, f.end, f.task.factor);
            && SplitSpawn(f.task.items, s.prom, s.mid, f.task.factor, p.spawned)
            && p.frame == f.(promoted := true, end := s.prom, pend := p.frame.pend)
            && |p.frame.pend| <= 2
  {
  }

  /** What the frame's own loop gives up when `[p, end)` leaves it. */
  lemma SplitPotential(f: Frame, p: nat, pend: seq<Pend>)
    requires f.task.Loop? && Looping(f.pc) && !f.promoted && f.pend == [] && |pend| <= 2
    requires f.ssi + f.task.factor == p <= |f.task.items| == f.end
    requires (if f.pc.Nested? || f.pc.Advance? then f.i + 1 else f.i) <= p && !f.pc.Close?
    ensures LoopPotential(f.(promoted := true, end := p, pend := pend), f.task.items)
            + Iterations(f.task.items[p..]) + SplitCredit(|f.task.items| - p) + 22
         <= LoopPotential(f, f.task.items)
  {
    hide Iterations; hide LoopRank; hide JoinCost; hide SplitCredit; hide Looping;
    var items := f.task.items;
    var x := if f.pc.Nested? || f.pc.Advance? then f.i + 1 else f.i;
    IterationsSplit(items, x, p, |items|);
    assert items[p..|items|] == items[p..];
    Credits(|items|, f.ssi, p, |pend|);
  }

  /** The credit of the iterations up to the split point pays for the two jobs and their joins. */
  lemma Credits(n: nat, ssi: nat, p: nat, jobs: nat)
    requires ssi < p <= n && jobs <= 2
    ensures SplitCredit(n - p) + 22 + JoinCost(jobs) <= SplitCredit(n - ssi) + JoinCost(0)
  {
  }

  lemma PromotePays(f: Frame, tokens: nat, next: nat)
    requires FrameInv(f) && Live(f.pc) && !f.promoted && 0 < tokens
    ensures var p := Promote(f, tokens, next);
            Potential(p.frame) + SpawnCost(p.spawned) <= Potential(f)
  {
    hide Potential; hide Cost; hide SpawnCost;
    ShapeOf(f);
    if f.task.Fork? {
      hide FrameInv;
      PromoteForkPays(f, tokens, next);
      SpawnOne(Promote(f, tokens, next).spawned);
    } else if f.task.Loop? {
      PromoteLoopPays(f, tokens, next);
    }
  }

  lemma SpawnOne(spawned: seq<Spawn>)
    requires |spawned| == 1
    ensures SpawnCost(spawned) == 1 + Cost(spawned[0].task)
  {
    assert spawned[1..] == [];
  }

  lemma PromoteLoopPays(f: Frame, tokens: nat, next: nat)
    requires FrameInv(f) && Live(f.pc) && !f.promoted && 0 < tokens && f.task.Loop?
    ensures var p := Promote(f, tokens, next);
            Potential(p.frame) + SpawnCost(p.spawned) <= Potential(f)
  {
    hide Potential; hide SpawnCost; hide Live; hide LoopPotential;
    SplitFacts(f);
    hide FrameInv;
    if SplitRange(f.ssi, f.end, f.task.factor).Split? {
      SplitPays(f, tokens, next);
    } else {
      FlagPays(f);
      NoSpawnCost();
    }
  }

  lemma NoSpawnCost()
    ensures SpawnCost([]) == 0
  {
  }

  lemma SplitPays(f: Frame, tokens: nat, next: nat)
    requires f.task.Loop? && f.end == |f.task.items| && 0 < tokens && !f.promoted && f.pend == []
    requires Looping(f.pc) && !f.pc.Close? && SplitRange(f.ssi, f.end, f.task.factor).Split?
    requires (if f.pc.Nested? || f.pc.Advance? then f.i + 1 else f.i) <= f.ssi + f.task.factor
    ensures var p := Promote(f, tokens, next);
            Potential(p.frame) + SpawnCost(p.spawned) <= Potential(f)
  {
    hide Promote; hide LoopPotential; hide Potential; hide SpawnCost; hide SplitSpawn;
    var p := Promote(f, tokens, next);
    var s := SplitRange(f.ssi, f.end, f.task.factor);
    PromoteSpawns(f, tokens, next);
    SplitSpawnCost(f.task.items, s.prom, s.mid, f.task.factor, p.spawned);
    SplitPotential(f, s.prom, p.frame.pend);
    LoopPotentialIs(f);
    LoopPotentialIs(p.frame);
  }

  /** A promotion that makes no jobs gives up the credit for splitting. */
  lemma FlagPays(f: Frame)
    requires f.task.Loop? && Looping(f.pc) && !f.promoted
    ensures Potential(f.(promoted := true)) <= Potential(f)
  {
    hide Potential; hide Iterations; hide LoopRank; hide SplitCredit;
    LoopPotentialIs(f);
    LoopPotentialIs(f.(promoted := true));
  }

  lemma PromoteForkPays(f: Frame, tokens: nat, next: nat)
    requires Shape(f) && Live(f.pc) && !f.promoted && 0 < tokens && f.task.Fork?
    ensures var p := Promote(f, tokens, next);
            Potential(p.frame) + 1 + Cost(f.task.right) <= Potential(f)
  {
    hide Cost;
  }

  lemma VisitPays(f: Frame, tokens: nat, next: nat)
    requires FrameInv(f) && 0 < tokens
    ensures var p := Visit(f, tokens, next);
            Potential(p.frame) + SpawnCost(p.spawned) <= Potential(f)
  {
    hide FrameInv; hide Potential; hide Promote;
    if Live(f.pc) && !f.promoted {
      PromotePays(f, tokens, next);
    }
  }

  lemma StackCons(f: Frame, s: seq<Frame>)
    ensures StackPotential([f] + s) == Potential(f) + StackPotential(s)
  {
    hide Potential;
    assert ([f] + s)[1..] == s;
  }

  lemma {:induction false} WalkPays(stack: seq<Frame>, tokens: nat, next: nat)
    requires Frames(stack)
    ensures var w := PromoteFront(stack, tokens, next);
            StackPotential(w.stack) + SpawnCost(w.spawned) <= StackPotential(stack)
    decreases |stack|
  {
    hide FrameInv; hide Potential; hide Visit; hide StackPotential; hide SpawnCost;
    NoSpawnCost();
    if stack != [] && tokens != 0 {
      assert Frames(stack[1..]);
      VisitPays(stack[0], tokens, next);
      var p := Visit(stack[0], tokens, next);
      WalkPays(stack[1..], p.tokens, next + |p.spawned|);
      var w := PromoteFront(stack[1..], p.tokens, next + |p.spawned|);
      SpawnCostAppend(p.spawned, w.spawned);
      StackCons(p.frame, w.stack);
      StackCons(stack[0], stack[1..]);
      assert [stack[0]] + stack[1..] == stack;
    }
  }

  lemma {:induction false} SpawnQueue(jobs: map<nat, Job>, next: nat, spawned: seq<Spawn>)
    requires JobsAt(jobs, next, spawned)
    ensures QueuePotential(Ids(next, |spawned|), jobs) == SpawnCost(spawned)
    decreases |spawned|
  {
    var ids := Ids(next, |spawned|);
    if spawned != [] {
      assert ids[0] == next && ids[1..] == Ids(next + 1, |spawned| - 1);
      JobsAtSplit(jobs, next, spawned[..1], spawned[1..]);
      assert spawned[..1] + spawned[1..] == spawned;
      SpawnQueue(jobs, next + 1, spawned[1..]);
    }
  }

  // ---------- the potential of one worker ----------

  lemma TopPays(w: Worker, g: Frame, jobs: map<nat, Job>)
    requires w.stack != []
    ensures StackPotential(SetTop(w, g).stack) + Potential(Top(w)) == StackPotential(w.stack) + Potential(g)
  {
    hide Potential; hide StackPotential;
    assert w.stack == Below(w) + [Top(w)];
    StackTopPotential(Below(w), Top(w));
    StackTopPotential(Below(w), g);
  }

  lemma PushPays(w: Worker, g: Frame, t: Task, next: nat)
    requires w.stack != [] && Potential(g) + Cost(t) < Potential(Top(w))
    ensures StackPotential(Push(w, g, t, next).stack) < StackPotential(w.stack)
  {
    hide Potential; hide StackPotential; hide NewFrame; hide Cost;
    TopPays(w, g, map[]);
    FreshPotential(t, ToCaller, next, Unit);
    StackTopPotential(SetTop(w, g).stack, NewFrame(t, ToCaller, next, Unit));
  }

  lemma HandlerPays(w: Worker, t: nat, jobs: map<nat, Job>, next: nat)
    requires WorkerInv(w, jobs, next) && JobsInv(jobs, next)
    ensures var p := PromoteFront(w.stack, t, next);
            WorkerPotential(w.(stack := p.stack, tokens := p.tokens, deque := w.deque + Ids(next, |p.spawned|)),
                            AddJobs(jobs, next, p.spawned))
            <= WorkerPotential(w, jobs)
  {
    var p := PromoteFront(w.stack, t, next);
    var more := AddJobs(jobs, next, p.spawned);
    hide FrameInv; hide PromoteFront; hide AddJobs; hide StackPotential; hide QueuePotential; hide SpawnCost;
    WalkPays(w.stack, t, next);
    SpawnExtends(jobs, next, p.spawned);
    SpawnQueue(more, next, p.spawned);
    DequeKnown(w, jobs, next);
    QueueExtends(w.deque, jobs, more);
    QueueAppend(w.deque, Ids(next, |p.spawned|), more);
  }

  lemma EagerPays(w: Worker, jobs: map<nat, Job>, next: nat)
    requires WorkerInv(w, jobs, next) && JobsInv(jobs, next) && w.stack != [] && Top(w).pc.EagerAct?
    ensures var o := EagerPromote(w, jobs, next); WorkerPotential(o.worker, o.jobs) < WorkerPotential(w, jobs)
  {
    TopFrame(w, jobs, next);
    DequeKnown(w, jobs, next);
    hide WorkerInv; hide StackPotential; hide QueuePotential; hide SpawnCost;
    var f := Top(w);
    if w.tokens != 0 && !f.promoted {
      var p := Promote(f, w.tokens, next);
      PromotePays(f, w.tokens, next);
      PromoteKeepsFrame(f, w.tokens, next);
      ShapeOf(p.frame);
      RelabelPays(p.frame, EagerOn);
      hide Potential; hide FrameInv; hide Promote; hide JobsInv;
      var more := AddJobs(jobs, next, p.spawned);
      SpawnExtends(jobs, next, p.spawned);
      hide AddJobs;
      SpawnQueue(more, next, p.spawned);
      QueueExtends(w.deque, jobs, more);
      QueueAppend(w.deque, Ids(next, |p.spawned|), more);
      TopPays(w, p.frame.(pc := EagerOn), more);
    } else {
      ShapeOf(f);
      RelabelPays(f, EagerOn);
      hide Potential; hide FrameInv;
      TopPays(w, f.(pc := EagerOn), jobs);
    }
  }

  lemma BelowPays(w: Worker)
    requires w.stack != [] && Top(w).pc.Done?
    ensures StackPotential(Below(w)) + 1 == StackPotential(w.stack)
  {
    assert Potential(Top(w)) == 1;
    hide Potential; hide StackPotential;
    assert w.stack == Below(w) + [Top(w)];
    StackTopPotential(Below(w), Top(w));
  }

  lemma ReturnPays(w: Worker, jobs: map<nat, Job>, next: nat)
    requires WorkerInv(w, jobs, next) && w.stack != [] && Top(w).pc.Done? && Top(w).ret.ToCaller?
    ensures Below(w) != []
    ensures var u := w.(stack := Below(w));
            StackPotential(SetTop(u, Receive(Top(u), Top(w).a)).stack) < StackPotential(w.stack)
  {
    CallerAwaits(w, jobs, next);
    FrameOnStack(w.stack, |w.stack| - 2, jobs, next);
    hide WorkerInv; hide Potential; hide StackPotential; hide Receive; hide FrameInv;
    var u := w.(stack := Below(w));
    ShapeOf(Top(u));
    hide Shape;
    ReceivePays(Top(u), Top(w).a);
    BelowPays(w);
    TopPays(u, Receive(Top(u), Top(w).a), jobs);
  }

  lemma DonePays(w: Worker, jobs: map<nat, Job>, next: nat, s: nat)
    requires WorkerInv(w, jobs, next) && MainStep(w, jobs, next, s).Some? && Top(w).pc.Done?
    ensures var o := MainStep(w, jobs, next, s).value; WorkerPotential(o.worker, o.jobs) < WorkerPotential(w, jobs)
  {
    hide Potential; hide StackPotential; hide WorkerInv; hide FrameInv; hide Receive; hide QueuePotential;
    hide MainStep;
    Kinds(w, jobs, next, s);
    DoneIs(w, jobs, next, s);
    if Top(w).ret.ToCaller? {
      ReturnPays(w, jobs, next);
    } else {
      BelowPays(w);
      if Top(w).ret.ToJob? {
        DequeKnown(w, jobs, next);
        var id := Top(w).ret.id;
        QueueExtends(w.deque, jobs, jobs[id := jobs[id].(done := Some(Top(w).a))]);
      }
    }
  }

  lemma PopJobPays(w: Worker, jobs: map<nat, Job>, next: nat)
    requires WorkerInv(w, jobs, next) && w.stack != [] && Top(w).pc.Join? && Top(w).pend != [] && w.deque != []
    ensures WorkerPotential(SetTop(w, Top(w).(pc := Popped)).(deque := w.deque[..|w.deque| - 1]), jobs)
          < WorkerPotential(w, jobs)
  {
    hide Potential; hide StackPotential; hide FrameInv; hide QueuePotential; hide Cost;
    var f := Top(w);
    TopFrame(w, jobs, next);
    DequeEnd(w, jobs, next);
    hide WorkerInv;
    assert JobCost(jobs, Last(f).id) == 1 + Cost(Last(f).task) by {
      assert Last(f) in f.pend;
    }
    hide JobCost; hide Known;
    PopPays(f);
    TopPays(w, f.(pc := Popped), jobs);
    QueueLast(w.deque, jobs);
  }

  lemma QueueLast(d: seq<nat>, jobs: map<nat, Job>)
    requires d != []
    ensures var n := |d| - 1; QueuePotential(d, jobs) == QueuePotential(d[..n], jobs) + JobCost(jobs, d[n])
  {
    hide JobCost;
    var n := |d| - 1;
    var e := [d[n]];
    assert d == d[..n] + e && e[1..] == [];
    QueueAppend(d[..n], e, jobs);
    assert QueuePotential(e, jobs) == JobCost(jobs, e[0]) + QueuePotential(e[1..], jobs);
  }

  lemma MovePays(w: Worker, pc: Pc, jobs: map<nat, Job>, next: nat)
    requires WorkerInv(w, jobs, next) && w.stack != [] && Relabels(Top(w), pc) && !Awaiting(pc) && !pc.Popped?
    ensures StackPotential(SetTop(w, Top(w).(pc := pc)).stack) < StackPotential(w.stack)
  {
    hide Potential; hide StackPotential; hide FrameInv; hide Relabels; hide Shape;
    TopFrame(w, jobs, next);
    hide WorkerInv;
    ShapeOf(Top(w));
    RelabelPays(Top(w), pc);
    TopPays(w, Top(w).(pc := pc), jobs);
  }

  lemma SavePays(w: Worker, jobs: map<nat, Job>, t: nat)
    requires w.stack != [] && Top(w).pc.Popped?
    ensures StackPotential(SetTop(w, Top(w).(saved := t, pc := WriteBack)).stack) < StackPotential(w.stack)
  {
    var g := Top(w).(saved := t, pc := WriteBack);
    assert Potential(g) < Potential(Top(w));
    hide Potential; hide StackPotential;
    TopPays(w, g, jobs);
  }

  lemma SyncPays(w: Worker, jobs: map<nat, Job>, next: nat, s: nat)
    requires WorkerInv(w, jobs, next) && MainStep(w, jobs, next, s).Some?
    requires Top(w).pc.Join? || Top(w).pc.Popped? || Top(w).pc.WriteBack?
    ensures var o := MainStep(w, jobs, next, s).value; WorkerPotential(o.worker, o.jobs) < WorkerPotential(w, jobs)
  {
    hide WorkerInv; hide FrameInv; hide StackPotential; hide QueuePotential; hide MainStep;
    Kinds(w, jobs, next, s);
    var f := Top(w);
    if f.pc.Join? {
      JoinIs(w, jobs, next, s);
      if f.pend != [] && w.deque != [] {
        hide WorkerPotential;
        PopJobPays(w, jobs, next);
      } else {
        MovePays(w, if f.pend == [] then Done else Wait, jobs, next);
      }
    } else if f.pc.WriteBack? {
      WriteBackIs(w, jobs, next, s);
      MovePays(w, Call, jobs, next);
    } else {
      PoppedIs(w, jobs, next, s);
      if Last(f).reclaim {
        SavePays(w, jobs, w.tokens);
      } else {
        MovePays(w, Call, jobs, next);
      }
    }
  }

  lemma CallingPays(w: Worker, jobs: map<nat, Job>, next: nat, s: nat)
    requires WorkerInv(w, jobs, next) && MainStep(w, jobs, next, s).Some?
    requires MayCall(Top(w).pc) && LoopStep(Top(w), s).None?
    ensures var o := MainStep(w, jobs, next, s).value; WorkerPotential(o.worker, o.jobs) < WorkerPotential(w, jobs)
  {
    hide WorkerInv; hide StackPotential; hide QueuePotential; hide Potential; hide LoopStep; hide FrameInv;
    hide MainStep;
    hide Shape; hide Callee; hide NewFrame;
    Kinds(w, jobs, next, s);
    CallIs(w, jobs, next, s);
    var f := Top(w);
    TopFrame(w, jobs, next);
    ShapeOf(f);
    CallPays(f);
    PushPays(w, f.(pc := CallingPc(f.pc)), Callee(f), next);
  }

  lemma MovingPays(w: Worker, jobs: map<nat, Job>, next: nat, s: nat)
    requires WorkerInv(w, jobs, next) && w.stack != [] && MainStep(w, jobs, next, s).Some? && Moves(Top(w).pc)
    ensures var o := MainStep(w, jobs, next, s).value; WorkerPotential(o.worker, o.jobs) < WorkerPotential(w, jobs)
  {
    hide WorkerInv; hide StackPotential; hide QueuePotential; hide FrameInv; hide MainStep;
    MoveIs(w, jobs, next, s);
    MovedRelabels(w);
    assert !Awaiting(MovedPc(w));
    hide MovedPc; hide Relabels;
    MovePays(w, MovedPc(w), jobs, next);
  }

  lemma WaitPays(w: Worker, jobs: map<nat, Job>, next: nat, v: Expr)
    requires WorkerInv(w, jobs, next) && w.stack != [] && Top(w).pc.Wait?
    ensures WorkerPotential(SetTop(w, Receive(Top(w), v)), jobs) < WorkerPotential(w, jobs)
  {
    hide WorkerInv; hide StackPotential; hide QueuePotential; hide FrameInv; hide Potential; hide Receive; hide Shape;
    TopFrame(w, jobs, next);
    ShapeOf(Top(w));
    ReceivePays(Top(w), v);
    TopPays(w, Receive(Top(w), v), jobs);
  }

  /** Every main-thread micro-step uses up potential. */
  lemma MainStepPays(w: Worker, jobs: map<nat, Job>, next: nat, s: nat)
    requires WorkerInv(w, jobs, next) && JobsInv(jobs, next) && MainStep(w, jobs, next, s).Some?
    ensures var o := MainStep(w, jobs, next, s).value; WorkerPotential(o.worker, o.jobs) < WorkerPotential(w, jobs)
  {
    hide WorkerInv; hide WorkerPotential; hide JobsInv; hide FrameInv; hide MainStep; hide LoopStep;
    hide EagerPromote; hide Receive;
    Kinds(w, jobs, next, s);
    var f := Top(w);
    if f.pc.EagerAct? {
      EagerActIs(w, jobs, next, s);
      EagerPays(w, jobs, next);
    } else if f.pc.Wait? {
      WaitIs(w, jobs, next, s);
      WaitPays(w, jobs, next, jobs[Last(f).id].done.value);
    } else if f.pc.Done? {
      DonePays(w, jobs, next, s);
    } else if LoopStep(f, s).Some? {
      LoopIs(w, jobs, next, s);
      LoopPays(w, jobs, next, s);
    } else if Moves(f.pc) {
      MovingPays(w, jobs, next, s);
    } else if MayCall(f.pc) {
      CallingPays(w, jobs, next, s);
    } else {
      SyncPays(w, jobs, next, s);
    }
  }

  lemma LoopPays(w: Worker, jobs: map<nat, Job>, next: nat, s: nat)
    requires WorkerInv(w, jobs, next) && w.stack != [] && LoopStep(Top(w), s).Some?
    ensures WorkerPotential(SetTop(w, LoopStep(Top(w), s).value), jobs) < WorkerPotential(w, jobs)
  {
    hide WorkerInv; hide StackPotential; hide QueuePotential; hide FrameInv; hide Potential; hide LoopStep; hide Shape;
    TopFrame(w, jobs, next);
    ShapeOf(Top(w));
    LoopStepPays(Top(w), s);
    TopPays(w, LoopStep(Top(w), s).value, jobs);
  }

  // ---------- the potential of the system ----------

  function Potentials(st: State): seq<nat> {
    seq(|st.workers|, w requires 0 <= w < |st.workers| => WorkerPotential(st.workers[w], st.jobs))
  }

  function SystemPotential(st: State): nat {
    Total(Potentials(st))
  }

  lemma CommitPays(st: State, w: nat, o: Outcome, t: Task, a0: Expr)
    requires SystemInv(st, t, a0) && w < |st.workers| && Extends(st.jobs, o.jobs)
    ensures SystemPotential(Commit(st, w, o)) + WorkerPotential(st.workers[w], st.jobs)
         == SystemPotential(st) + WorkerPotential(o.worker, o.jobs)
  {
    hide WorkerInv; hide WaitRule; hide JobsInv; hide Accounted; hide RootInv; hide StackPotential; hide QueuePotential;
    hide Extends;
    var st' := Commit(st, w, o);
    forall v | 0 <= v < |st.workers| && v != w
      ensures WorkerPotential(st'.workers[v], o.jobs) == WorkerPotential(st.workers[v], st.jobs)
    {
      DequeKnown(st.workers[v], st.jobs, st.next);
      QueueExtends(st.workers[v].deque, st.jobs, o.jobs);
    }
    hide WorkerPotential;
    assert Potentials(st') == Potentials(st)[w := WorkerPotential(o.worker, o.jobs)];
    TotalUpdate(Potentials(st), w, WorkerPotential(o.worker, o.jobs));
  }

  lemma MainPays(st: State, w: nat, s: nat, t: Task, a0: Expr)
    requires SystemInv(st, t, a0) && Next(st, Main(w, s)).Some?
    ensures SystemPotential(Next(st, Main(w, s)).value) < SystemPotential(st)
  {
    var u := st.workers[w];
    hide WorkerInv; hide JobsInv; hide Accounted; hide RootInv; hide MainStep; hide WorkerPotential; hide Extends;
    hide SystemPotential;
    assert WorkerInv(u, st.jobs, st.next) && WaitRule(u);
    if u.stack != [] && Top(u).pc.Wait? {
      WaitingDequeEmpty(u, st.jobs, st.next);
    }
    hide WaitRule;
    var o := MainStep(u, st.jobs, st.next, s).value;
    MainStepGrows(u, st.jobs, st.next, s);
    MainStepKeeps(u, st.jobs, st.next, s);
    MainStepPays(u, st.jobs, st.next, s);
    CommitPays(st, w, o, t, a0);
  }

  lemma HeartbeatPays(w: Worker, jobs: map<nat, Job>, next: nat)
    requires WorkerInv(w, jobs, next) && JobsInv(jobs, next)
    ensures var o := Heartbeat(w, jobs, next); WorkerPotential(o.worker, o.jobs) <= WorkerPotential(w, jobs)
  {
    hide WorkerInv; hide JobsInv; hide WorkerPotential; hide PromoteFront; hide AddJobs; hide Ids;
    if !w.disabled {
      HandlerPays(w, Refilled(w.tokens), jobs, next);
    }
  }

  lemma BeatPays(st: State, w: nat, t: Task, a0: Expr)
    requires SystemInv(st, t, a0) && w < |st.workers|
    ensures SystemPotential(Next(st, Beat(w)).value) <= SystemPotential(st)
  {
    var u := st.workers[w];
    hide WorkerInv; hide JobsInv; hide Accounted; hide RootInv; hide WorkerPotential; hide Extends;
    hide WaitRule; hide Heartbeat;
    assert WorkerInv(u, st.jobs, st.next) && WaitRule(u);
    BeatWorker(u, st.jobs, st.next);
    HeartbeatPays(u, st.jobs, st.next);
    CommitPays(st, w, Heartbeat(u, st.jobs, st.next), t, a0);
    assert Potentials(Next(st, Beat(w)).value) == Potentials(Commit(st, w, Heartbeat(u, st.jobs, st.next)));
  }

  lemma ThiefPays(w: Worker, id: nat, jobs: map<nat, Job>, next: nat)
    requires id in jobs
    ensures WorkerPotential(StartJob(w, id, jobs[id], next), jobs) == WorkerPotential(w, jobs) + Cost(jobs[id].task)
  {
    hide Potential; hide StackPotential; hide NewFrame; hide Cost; hide QueuePotential;
    FreshPotential(jobs[id].task, ToJob(id), next, Unit);
    StackTopPotential(w.stack, NewFrame(jobs[id].task, ToJob(id), next, Unit));
  }

  /** A steal moves a job's work and pays for the move. */
  lemma StealPays(st: State, w: nat, v: nat)
    requires Next(st, Steal(w, v)).Some?
    ensures SystemPotential(Next(st, Steal(w, v)).value) < SystemPotential(st)
  {
    var id := st.workers[v].deque[0];
    var thief := StartJob(st.workers[w], id, st.jobs[id], st.next);
    var victim := st.workers[v].(deque := st.workers[v].deque[1..]);
    ThiefPays(st.workers[w], id, st.jobs, st.next);
    hide StartJob; hide StackPotential; hide Cost;
    assert WorkerPotential(victim, st.jobs) + 1 + Cost(st.jobs[id].task) == WorkerPotential(st.workers[v], st.jobs);
    hide QueuePotential; hide WorkerPotential;
    var p := Potentials(st);
    var x, y := WorkerPotential(victim, st.jobs), WorkerPotential(thief, st.jobs);
    assert Potentials(Next(st, Steal(w, v)).value) == p[v := x][w := y];
    TotalUpdate(p, v, x);
    TotalUpdate(p[v := x], w, y);
  }

  // ---------- whole runs ----------

  /** The steps that are not heartbeats. */
  function Work(steps: seq<Step>): nat {
    if steps == [] then 0
    else Work(steps[..|steps| - 1]) + if steps[|steps| - 1].Beat? then 0 else 1
  }

  lemma InitPotential(t: Task, a0: Expr, n: nat)
    ensures SystemPotential(Init(t, a0, n)) == Cost(t)
  {
    var st := Init(t, a0, n);
    hide Potential; hide NewFrame; hide Cost;
    FreshPotential(t, ToRoot, 0, a0);
    StackTopPotential([], NewFrame(t, ToRoot, 0, a0));
    assert [] + [NewFrame(t, ToRoot, 0, a0)] == [NewFrame(t, ToRoot, 0, a0)];
    var p := Potentials(st);
    assert p[0] == Cost(t);
    hide StackPotential; hide QueuePotential;
    ZeroTotal(p[1..]);
  }

  /** One step of a run. */
  lemma NextPays(st: State, step: Step, t: Task, a0: Expr)
    requires SystemInv(st, t, a0) && Next(st, step).Some?
    ensures SystemPotential(Next(st, step).value) + (if step.Beat? then 0 else 1) <= SystemPotential(st)
  {
    hide SystemInv; hide SystemPotential;
    match step
    case Main(w, s) => MainPays(st, w, s, t, a0);
    case Steal(w, v) => StealPays(st, w, v);
    case Beat(w) =>
      BeatIndex(st, w);
      BeatPays(st, w, t, a0);
  }

  /** However it is scheduled, promoted and stolen from, a run takes at most `Cost(t)` steps
      besides heartbeats. */
  lemma {:induction false} RunIsBounded(t: Task, a0: Expr, n: nat, run: seq<State>, steps: seq<Step>)
    requires IsRun(t, a0, n, run, steps)
    ensures Work(steps) + SystemPotential(run[|steps|]) <= Cost(t)
    decreases |steps|
  {
    hide SystemInv; hide Next; hide Init; hide SystemPotential; hide Cost;
    if steps == [] {
      InitPotential(t, a0, n);
    } else {
      var m := |steps| - 1;
      RunKeeps(t, a0, n, run, steps, m);
      assert Next(run[m], steps[m]) == Some(run[m + 1]);
      RunIsBounded(t, a0, n, run[..m + 1], steps[..m]);
      NextPays(run[m], steps[m], t, a0);
    }
  }

  lemma BeatIndex(st: State, w: nat)
    requires Next(st, Beat(w)).Some?
    ensures w < |st.workers|
  {
  }
}
