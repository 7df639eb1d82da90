/**
 Every iteration is executed exactly once: executions so far and work still
 outstanding always add up to the sequential program, step by step and over all
 workers, whatever is promoted and stolen.
 */
module Executions {
  import opened Sums
  import opened Tasks
  import opened Handler
  import opened Machine
  import opened StepCases
  import opened Wrappers
  import opened FrameInvariant
  import opened StackInvariant
  import opened WorkerInvariant
  import opened StepInvariant
  import opened Stolen
  import opened SystemInvariant

  /** How often the iteration that contributes `c` occurs in `s`. */
  function Occurs(s: seq<int>, c: int): nat {
    if s == [] then 0 else (if s[0] == c then 1 else 0) + Occurs(s[1..], c)
  }

  lemma {:induction false} OccursAppend(s: seq<int>, t: seq<int>, c: int)
    ensures Occurs(s + t, c) == Occurs(s, c) + Occurs(t, c)
    decreases |s|
  {
    if s == [] {
      assert s + t == t;
    } else {
      OccursAppend(s[1..], t, c);
      assert (s + t)[1..] == s[1..] + t;
    }
  }

  /** The executions of `c` that running `t` takes. */
  function Runs(t: Task, c: int): nat {
    Occurs(Leaves(t), c)
  }

  function RunsOf(ts: seq<Task>, c: int): nat {
    Occurs(LeavesOf(ts), c)
  }

  /** Starting `t` executes `c` at once. */
  function RunsNow(t: Task, c: int): nat {
    if t == Leaf(c) then 1 else 0
  }

  lemma RunsSplit(ts: seq<Task>, i: nat, j: nat, k: nat, c: int)
    requires i <= j <= k <= |ts|
    ensures RunsOf(ts[i..k], c) == RunsOf(ts[i..j], c) + RunsOf(ts[j..k], c)
  {
    LeavesOfSplit(ts, i, j, k);
    OccursAppend(LeavesOf(ts[i..j]), LeavesOf(ts[j..k]), c);
  }

  lemma RunsFirst(ts: seq<Task>, i: nat, k: nat, c: int)
    requires i < k <= |ts|
    ensures RunsOf(ts[i..k], c) == Runs(ts[i], c) + RunsOf(ts[i + 1..k], c)
  {
    LeavesOfFirst(ts, i, k);
    OccursAppend(Leaves(ts[i]), LeavesOf(ts[i + 1..k]), c);
  }

  lemma RunsOfFork(l: Task, g: Task, r: Task, c: int)
    ensures Runs(Fork(l, g, r), c) == Runs(l, c) + Runs(g, c) + Runs(r, c)
  {
    OccursAppend(Leaves(l) + Leaves(g), Leaves(r), c);
    OccursAppend(Leaves(l), Leaves(g), c);
  }

  lemma RunsOfLeaf(v: int, c: int)
    ensures Runs(Leaf(v), c) == RunsNow(Leaf(v), c)
  {
    var s := [v];
    assert Leaves(Leaf(v)) == s && s[1..] == [];
    assert Occurs(s, c) == (if s[0] == c then 1 else 0) + Occurs(s[1..], c);
  }

  // ---------- what a frame still has to start ----------

  function LoopTodo(f: Frame, items: seq<Task>, c: int): nat {
    RunsOf(Slice(items, if f.pc.Nested? || f.pc.Advance? then f.i + 1 else f.i, f.end), c)
  }

  function ForkTodo(f: Frame, l: Task, g: Task, r: Task, c: int): nat {
    var rest := if f.promoted then 0 else Runs(r, c);
    match f.pc
    case AwaitRight => 0
    case Right => Runs(r, c)
    case AwaitGap => rest
    case Gap => Runs(g, c) + rest
    case Close => Runs(g, c) + rest
    case AwaitLeft => Runs(g, c) + rest
    case _ => Runs(l, c) + Runs(g, c) + rest
  }

  /** The executions of `c` that `f` has not yet handed to a callee or to a queued job; a job
      that has been popped is back in the hands of the frame. */
  function Todo(f: Frame, c: int): nat {
    if f.pc.Done? then 0
    else if Joining(f.pc) then
      if (f.pc.Popped? || f.pc.WriteBack? || f.pc.Call?) && f.pend != [] then Runs(Last(f).task, c) else 0
    else
      match f.task
      case Leaf(_) => 0
      case Loop(_, items) => LoopTodo(f, items, c)
      case Fork(l, g, r) => ForkTodo(f, l, g, r, c)
  }

  lemma FreshTodo(t: Task, ret: Ret, birth: nat, a0: Expr, c: int)
    ensures Todo(NewFrame(t, ret, birth, a0), c) + RunsNow(t, c) == Runs(t, c)
  {
    match t
    case Leaf(v) => RunsOfLeaf(v, c);
    case Fork(l, g, r) => RunsOfFork(l, g, r, c);
    case Loop(_, items) => assert Slice(items, 0, |items|) == items;
  }

  lemma LoopTodoIs(f: Frame, c: int)
    requires f.task.Loop? && !f.pc.Done? && !Joining(f.pc)
    ensures Todo(f, c) == LoopTodo(f, f.task.items, c)
  {
    hide LoopTodo;
  }

  /** The iteration that the next micro-step of the loop executes itself. */
  function BodyRuns(f: Frame, c: int): nat {
    if f.pc.Body? && f.task.Loop? && f.i < |f.task.items| then RunsNow(f.task.items[f.i], c) else 0
  }

  lemma LoopStepTodo(f: Frame, s: nat, c: int)
    requires Shape(f) && LoopStep(f, s).Some? && (f.pc.Test? ==> f.end <= f.seen)
    ensures Todo(LoopStep(f, s).value, c) + BodyRuns(f, c) == Todo(f, c)
  {
    hide Runs; hide RunsOf;
    var g := LoopStep(f, s).value;
    LoopTodoIs(f, c);
    LoopTodoIs(g, c);
    if f.pc.Body? {
      var v := f.task.items[f.i].v;
      RunsFirst(f.task.items, f.i, f.end, c);
      RunsOfLeaf(v, c);
    }
  }

  lemma LoopTestBound(f: Frame)
    requires FrameInv(f) && f.task.Loop? && f.pc.Test?
    ensures f.end <= f.seen
  {
  }

  /** A loop is closed with no iteration left. */
  lemma CloseTodo(f: Frame, c: int)
    requires f.task.Loop? && f.i == f.end <= |f.task.items| && f.pc.Close?
    ensures Todo(f, c) == 0
  {
    assert LeavesOf(Slice(f.task.items, f.i, f.end)) == [];
  }

  lemma ClosedAtEnd(f: Frame)
    requires FrameInv(f) && f.task.Loop? && f.pc.Close?
    ensures f.i == f.end <= |f.task.items|
  {
  }

  lemma RelabelTodo(f: Frame, pc: Pc, c: int)
    requires FrameInv(f) && Relabels(f, pc) && !Awaiting(pc) && !pc.Popped? && !f.pc.Test?
    ensures Todo(f.(pc := pc), c) == Todo(f, c)
  {
    ShapeOf(f);
    if f.task.Loop? && f.pc.Close? {
      ClosedAtEnd(f);
      CloseTodo(f, c);
    }
    hide FrameInv;
    RelabelShape(f, pc, c);
  }

  lemma RelabelShape(f: Frame, pc: Pc, c: int)
    requires Shape(f) && Relabels(f, pc) && !Awaiting(pc) && !pc.Popped? && !f.pc.Test?
    requires f.task.Loop? && f.pc.Close? ==> Todo(f, c) == 0
    ensures Todo(f.(pc := pc), c) == Todo(f, c)
  {
    hide Runs; hide RunsOf; hide Shape;
  }

  /** The work a frame hands to the call it makes. */
  lemma CallTodo(f: Frame, c: int)
    requires Shape(f) && MayCall(f.pc) && (f.pc.Head? ==> f.task.Fork?)
    ensures Todo(f.(pc := CallingPc(f.pc)), c) + Runs(Callee(f), c) == Todo(f, c)
  {
    hide Runs; hide RunsOf;
    if f.pc.Body? {
      RunsFirst(f.task.items, f.i, f.end, c);
    }
  }

  lemma ReceiveTodo(f: Frame, v: Expr, c: int)
    requires Shape(f) && (Awaiting(f.pc) || f.pc.Wait?)
    ensures Todo(Receive(f, v), c) == Todo(f, c)
  {
    hide Runs; hide RunsOf;
  }

  // ---------- promotion ----------

  function SpawnRuns(spawned: seq<Spawn>, c: int): nat {
    if spawned == [] then 0 else Runs(spawned[0].task, c) + SpawnRuns(spawned[1..], c)
  }

  lemma {:induction false} SpawnRunsAppend(s: seq<Spawn>, t: seq<Spawn>, c: int)
    ensures SpawnRuns(s + t, c) == SpawnRuns(s, c) + SpawnRuns(t, c)
    decreases |s|
  {
    hide Runs;
    if s == [] {
      assert s + t == t;
    } else {
      SpawnRunsAppend(s[1..], t, c);
      assert (s + t)[1..] == s[1..] + t;
    }
  }

  /** The jobs of a split cover exactly what leaves the loop. */
  lemma SplitRuns(f: Frame, tokens: nat, next: nat, c: int)
    requires f.task.Loop? && f.end == |f.task.items| && 0 < tokens && f.ssi <= f.i
    requires SplitRange(f.ssi, f.end, f.task.factor).Split?
    ensures var p := Promote(f, tokens, next);
            var s := SplitRange(f.ssi, f.end, f.task.factor);
            && p.frame == f.(promoted := true, end := s.prom, pend := p.frame.pend)
            && SpawnRuns(p.spawned, c) == RunsOf(f.task.items[s.prom..], c)
  {
    var p := Promote(f, tokens, next);
    var s := SplitRange(f.ssi, f.end, f.task.factor);
    var items := f.task.items;
    RunsSplit(items, s.prom, s.mid, |items|, c);
    assert items[s.prom..|items|] == items[s.prom..] && items[s.mid..|items|] == items[s.mid..];
    if |p.spawned| == 2 {
      assert p.spawned[1..][1..] == [];
      assert SpawnRuns(p.spawned[1..], c) == Runs(p.spawned[1].task, c) + SpawnRuns(p.spawned[1..][1..], c);
    } else {
      assert p.spawned[1..] == [] && items[s.prom..s.mid] == [];
    }
  }

  lemma PromoteLoopTodo(f: Frame, tokens: nat, next: nat, c: int)
    requires FrameInv(f) && Live(f.pc) && !f.promoted && 0 < tokens && f.task.Loop?
    ensures var p := Promote(f, tokens, next); Todo(p.frame, c) + SpawnRuns(p.spawned, c) == Todo(f, c)
  {
    hide Live; hide Todo; hide SpawnRuns; hide LoopTodo;
    SplitFacts(f);
    hide FrameInv;
    if SplitRange(f.ssi, f.end, f.task.factor).Split? {
      SplitTodo(f, tokens, next, c);
    } else {
      FlagTodo(f, c);
      NoSpawnRuns(c);
    }
  }

  lemma SplitTodo(f: Frame, tokens: nat, next: nat, c: int)
    requires f.task.Loop? && f.end == |f.task.items| && 0 < tokens && f.ssi <= f.i && Looping(f.pc)
    requires SplitRange(f.ssi, f.end, f.task.factor).Split?
    requires (if f.pc.Nested? || f.pc.Advance? then f.i + 1 else f.i) <= f.ssi + f.task.factor
    ensures var p := Promote(f, tokens, next); Todo(p.frame, c) + SpawnRuns(p.spawned, c) == Todo(f, c)
  {
    hide Promote; hide SpawnRuns; hide RunsOf; hide Todo;
    var p := Promote(f, tokens, next);
    var s := SplitRange(f.ssi, f.end, f.task.factor);
    SplitRuns(f, tokens, next, c);
    LoopTodoIs(f, c);
    LoopTodoIs(p.frame, c);
    var x := if f.pc.Nested? || f.pc.Advance? then f.i + 1 else f.i;
    RunsSplit(f.task.items, x, s.prom, |f.task.items|, c);
    assert f.task.items[s.prom..|f.task.items|] == f.task.items[s.prom..];
  }

  lemma FlagTodo(f: Frame, c: int)
    requires f.task.Loop? && Looping(f.pc)
    ensures Todo(f.(promoted := true), c) == Todo(f, c)
  {
    hide Todo; hide RunsOf;
    LoopTodoIs(f, c);
    LoopTodoIs(f.(promoted := true), c);
  }

  lemma PromoteForkTodo(f: Frame, tokens: nat, next: nat, c: int)
    requires Shape(f) && Live(f.pc) && !f.promoted && 0 < tokens && f.task.Fork?
    ensures var p := Promote(f, tokens, next); Todo(p.frame, c) + SpawnRuns(p.spawned, c) == Todo(f, c)
  {
    hide Runs;
    assert Promote(f, tokens, next).spawned[1..] == [];
  }

  lemma VisitTodo(f: Frame, tokens: nat, next: nat, c: int)
    requires FrameInv(f) && 0 < tokens
    ensures var p := Visit(f, tokens, next); Todo(p.frame, c) + SpawnRuns(p.spawned, c) == Todo(f, c)
  {
    hide FrameInv; hide Todo; hide Promote;
    if Live(f.pc) && !f.promoted {
      if f.task.Loop? {
        PromoteLoopTodo(f, tokens, next, c);
      } else if f.task.Fork? {
        ShapeOf(f);
        PromoteForkTodo(f, tokens, next, c);
      } else {
        LeafIsDone(f);
        assert false;
      }
    }
  }

  lemma LeafIsDone(f: Frame)
    requires FrameInv(f) && f.task.Leaf?
    ensures f.pc.Done?
  {
  }

  // ---------- one worker ----------

  function TodoOf(c: int): Frame -> nat {
    (f: Frame) => Todo(f, c)
  }

  function JobRuns(jobs: map<nat, Job>, c: int): nat -> nat {
    (id: nat) => if id in jobs then Runs(jobs[id].task, c) else 0
  }

  function WorkerTodo(w: Worker, jobs: map<nat, Job>, c: int): nat {
    Sum(TodoOf(c), w.stack) + Sum(JobRuns(jobs, c), w.deque)
  }

  lemma {:induction false} WalkTodo(stack: seq<Frame>, tokens: nat, next: nat, c: int)
    requires Frames(stack)
    ensures var w := PromoteFront(stack, tokens, next);
            Sum(TodoOf(c), w.stack) + SpawnRuns(w.spawned, c) == Sum(TodoOf(c), stack)
    decreases |stack|
  {
    hide FrameInv; hide Visit; hide Todo; hide SpawnRuns;
    assert SpawnRuns([], c) == 0 by { NoSpawnRuns(c); }
    if stack != [] && tokens != 0 {
      VisitTodo(stack[0], tokens, next, c);
      var p := Visit(stack[0], tokens, next);
      var w := PromoteFront(stack[1..], p.tokens, next + |p.spawned|);
      WalkTodo(stack[1..], p.tokens, next + |p.spawned|, c);
      SpawnRunsAppend(p.spawned, w.spawned, c);
      assert ([p.frame] + w.stack)[1..] == w.stack;
    }
  }

  lemma NoSpawnRuns(c: int)
    ensures SpawnRuns([], c) == 0
  {
  }

  lemma {:induction false} SpawnedQueue(jobs: map<nat, Job>, next: nat, spawned: seq<Spawn>, c: int)
    requires JobsAt(jobs, next, spawned)
    ensures Sum(JobRuns(jobs, c), Ids(next, |spawned|)) == SpawnRuns(spawned, c)
    decreases |spawned|
  {
    hide Runs;
    var ids := Ids(next, |spawned|);
    if spawned != [] {
      assert ids[0] == next && ids[1..] == Ids(next + 1, |spawned| - 1);
      JobsAtSplit(jobs, next, spawned[..1], spawned[1..]);
      assert spawned[..1] + spawned[1..] == spawned;
      SpawnedQueue(jobs, next + 1, spawned[1..], c);
    }
  }

  /** What jobs are queued elsewhere, and what is outstanding there, does not change. */
  lemma TodoExtends(w: Worker, jobs: map<nat, Job>, next: nat, more: map<nat, Job>, c: int)
    requires WorkerInv(w, jobs, next) && Extends(jobs, more)
    ensures WorkerTodo(w, more, c) == WorkerTodo(w, jobs, c)
  {
    DequeKnown(w, jobs, next);
    hide WorkerInv; hide Runs;
    SumSame(JobRuns(more, c), JobRuns(jobs, c), w.deque);
  }

  lemma QueueSpawns(w: Worker, jobs: map<nat, Job>, next: nat, spawned: seq<Spawn>, c: int)
    requires WorkerInv(w, jobs, next) && JobsInv(jobs, next)
    ensures Sum(JobRuns(AddJobs(jobs, next, spawned), c), w.deque + Ids(next, |spawned|))
         == Sum(JobRuns(jobs, c), w.deque) + SpawnRuns(spawned, c)
  {
    hide AddJobs; hide Ids; hide Runs; hide SpawnRuns;
    var more := AddJobs(jobs, next, spawned);
    DequeKnown(w, jobs, next);
    SpawnExtends(jobs, next, spawned);
    hide WorkerInv; hide JobsInv;
    SumSame(JobRuns(more, c), JobRuns(jobs, c), w.deque);
    hide JobRuns;
    SpawnedQueue(more, next, spawned, c);
    SumAppend(JobRuns(more, c), w.deque, Ids(next, |spawned|));
  }

  lemma HandlerTodo(w: Worker, t: nat, jobs: map<nat, Job>, next: nat, c: int)
    requires WorkerInv(w, jobs, next) && JobsInv(jobs, next)
    ensures var p := PromoteFront(w.stack, t, next);
            WorkerTodo(w.(stack := p.stack, tokens := p.tokens, deque := w.deque + Ids(next, |p.spawned|)),
                       AddJobs(jobs, next, p.spawned), c)
            == WorkerTodo(w, jobs, c)
  {
    hide AddJobs; hide Ids; hide PromoteFront; hide Todo; hide SpawnRuns; hide TodoOf; hide JobRuns; hide FrameInv;
    assert Frames(w.stack);
    QueueSpawns(w, jobs, next, PromoteFront(w.stack, t, next).spawned, c);
    hide WorkerInv; hide JobsInv;
    WalkTodo(w.stack, t, next, c);
  }

  lemma TopTodo(w: Worker, g: Frame, c: int)
    requires w.stack != []
    ensures Sum(TodoOf(c), SetTop(w, g).stack) + Todo(Top(w), c) == Sum(TodoOf(c), w.stack) + Todo(g, c)
  {
    hide Todo;
    assert w.stack == Below(w) + [Top(w)];
    SumLast(TodoOf(c), Below(w), Top(w));
    SumLast(TodoOf(c), Below(w), g);
  }

  lemma DoneBelow(w: Worker, c: int)
    requires w.stack != [] && Top(w).pc.Done?
    ensures Sum(TodoOf(c), Below(w)) == Sum(TodoOf(c), w.stack)
  {
    assert Todo(Top(w), c) == 0;
    hide Todo;
    assert w.stack == Below(w) + [Top(w)];
    SumLast(TodoOf(c), Below(w), Top(w));
  }

  /** The executions of `c` in the next micro-step of `w`. */
  function StepRuns(w: Worker, c: int): nat {
    if w.stack == [] then 0
    else
      var f := Top(w);
      if MayCall(f.pc) && (f.pc.Head? ==> f.task.Fork?) then RunsNow(Callee(f), c) else 0
  }

  lemma NothingRuns(w: Worker, c: int)
    requires w.stack != [] && !MayCall(Top(w).pc)
    ensures StepRuns(w, c) == 0
  {
  }

  // ---------- main-thread steps ----------

  lemma LoopTodoStep(w: Worker, jobs: map<nat, Job>, next: nat, s: nat, c: int)
    requires WorkerInv(w, jobs, next) && w.stack != [] && LoopStep(Top(w), s).Some?
    ensures WorkerTodo(SetTop(w, LoopStep(Top(w), s).value), jobs, c) + StepRuns(w, c) == WorkerTodo(w, jobs, c)
  {
    var f := Top(w);
    LoopIs(w, jobs, next, s);
    TopFrame(w, jobs, next);
    ShapeOf(f);
    if f.pc.Test? { LoopTestBound(f); }
    LoopStepTodo(f, s, c);
    assert BodyRuns(f, c) == StepRuns(w, c) by { hide WorkerInv; hide FrameInv; }
    hide WorkerInv; hide FrameInv; hide Shape; hide LoopStep; hide Todo; hide TodoOf; hide JobRuns;
    hide StepRuns; hide BodyRuns;
    TopTodo(w, LoopStep(f, s).value, c);
  }

  lemma MoveTodo(w: Worker, pc: Pc, jobs: map<nat, Job>, next: nat, c: int)
    requires WorkerInv(w, jobs, next) && w.stack != []
    requires Relabels(Top(w), pc) && !Awaiting(pc) && !pc.Popped? && !Top(w).pc.Test?
    ensures Sum(TodoOf(c), SetTop(w, Top(w).(pc := pc)).stack) == Sum(TodoOf(c), w.stack)
  {
    hide FrameInv; hide Todo; hide TodoOf; hide Relabels;
    TopFrame(w, jobs, next);
    hide WorkerInv;
    RelabelTodo(Top(w), pc, c);
    TopTodo(w, Top(w).(pc := pc), c);
  }

  lemma PopJobTodo(w: Worker, jobs: map<nat, Job>, next: nat, c: int)
    requires WorkerInv(w, jobs, next) && w.stack != [] && Top(w).pc.Join? && Top(w).pend != [] && w.deque != []
    ensures WorkerTodo(SetTop(w, Top(w).(pc := Popped)).(deque := w.deque[..|w.deque| - 1]), jobs, c)
         == WorkerTodo(w, jobs, c)
  {
    hide FrameInv; hide Runs; hide WorkerInv; hide Todo; hide TodoOf; hide JobRuns; hide Known; hide Pending;
    hide IsSuffix; hide Unjoined;
    var f := Top(w);
    TopFrame(w, jobs, next);
    DequeEnd(w, jobs, next);
    PopRuns(f, jobs, c);
    SumEnd(JobRuns(jobs, c), w.deque);
    TopTodo(w, f.(pc := Popped), c);
  }

  lemma PopRuns(f: Frame, jobs: map<nat, Job>, c: int)
    requires Known(f, jobs) && f.pc.Join? && f.pend != []
    ensures JobRuns(jobs, c)(Last(f).id) == Runs(Last(f).task, c)
    ensures Todo(f, c) == 0 && Todo(f.(pc := Popped), c) == Runs(Last(f).task, c)
  {
    hide Runs;
    assert Last(f) in f.pend;
  }

  lemma SyncTodo(w: Worker, jobs: map<nat, Job>, next: nat, s: nat, c: int)
    requires WorkerInv(w, jobs, next) && MainStep(w, jobs, next, s).Some?
    requires Top(w).pc.Join? || Top(w).pc.Popped? || Top(w).pc.WriteBack?
    ensures var o := MainStep(w, jobs, next, s).value; WorkerTodo(o.worker, o.jobs, c) == WorkerTodo(w, jobs, c)
  {
    hide WorkerInv; hide FrameInv; hide MainStep; hide TodoOf; hide JobRuns;
    Kinds(w, jobs, next, s);
    var f := Top(w);
    if f.pc.Join? {
      JoinIs(w, jobs, next, s);
      if f.pend != [] && w.deque != [] {
        hide WorkerTodo;
        PopJobTodo(w, jobs, next, c);
      } else {
        MoveTodo(w, if f.pend == [] then Done else Wait, jobs, next, c);
      }
    } else if f.pc.WriteBack? {
      WriteBackIs(w, jobs, next, s);
      MoveTodo(w, Call, jobs, next, c);
    } else {
      PoppedIs(w, jobs, next, s);
      if Last(f).reclaim {
        assert Todo(f.(saved := w.tokens, pc := WriteBack), c) == Todo(f, c);
        hide Todo;
        TopTodo(w, f.(saved := w.tokens, pc := WriteBack), c);
      } else {
        MoveTodo(w, Call, jobs, next, c);
      }
    }
  }

  lemma PushTodo(w: Worker, g: Frame, t: Task, next: nat, c: int)
    requires w.stack != []
    ensures Sum(TodoOf(c), Push(w, g, t, next).stack) + RunsNow(t, c) + Todo(Top(w), c)
         == Sum(TodoOf(c), w.stack) + Todo(g, c) + Runs(t, c)
  {
    hide Todo; hide Runs; hide NewFrame; hide RunsNow;
    TopTodo(w, g, c);
    FreshTodo(t, ToCaller, next, Unit, c);
    SumLast(TodoOf(c), SetTop(w, g).stack, NewFrame(t, ToCaller, next, Unit));
  }

  lemma CallingTodo(w: Worker, jobs: map<nat, Job>, next: nat, s: nat, c: int)
    requires WorkerInv(w, jobs, next) && MainStep(w, jobs, next, s).Some?
    requires MayCall(Top(w).pc) && LoopStep(Top(w), s).None?
    ensures var o := MainStep(w, jobs, next, s).value;
            WorkerTodo(o.worker, o.jobs, c) + StepRuns(w, c) == WorkerTodo(w, jobs, c)
  {
    hide WorkerInv; hide LoopStep; hide FrameInv; hide MainStep; hide Shape; hide Callee; hide NewFrame;
    hide Todo; hide TodoOf;
    hide Runs; hide RunsNow; hide JobRuns;
    Kinds(w, jobs, next, s);
    CallIs(w, jobs, next, s);
    var f := Top(w);
    TopFrame(w, jobs, next);
    ShapeOf(f);
    CallTodo(f, c);
    PushTodo(w, f.(pc := CallingPc(f.pc)), Callee(f), next, c);
  }

  lemma ReturnTodo(w: Worker, jobs: map<nat, Job>, next: nat, s: nat, c: int)
    requires WorkerInv(w, jobs, next) && MainStep(w, jobs, next, s).Some? && Top(w).pc.Done? && Top(w).ret.ToCaller?
    ensures var o := MainStep(w, jobs, next, s).value; WorkerTodo(o.worker, o.jobs, c) == WorkerTodo(w, jobs, c)
  {
    hide WorkerInv; hide FrameInv; hide Receive; hide MainStep; hide Shape; hide TodoOf; hide JobRuns; hide Todo;
    Kinds(w, jobs, next, s);
    DoneIs(w, jobs, next, s);
    DoneBelow(w, c);
    CallerAwaits(w, jobs, next);
    var u := w.(stack := Below(w));
    CallerFrame(w, jobs, next);
    ShapeOf(Top(u));
    ReceiveTodo(Top(u), Top(w).a, c);
    TopTodo(u, Receive(Top(u), Top(w).a), c);
  }

  lemma CallerFrame(w: Worker, jobs: map<nat, Job>, next: nat)
    requires WorkerInv(w, jobs, next) && |w.stack| > 1
    ensures FrameInv(w.stack[|w.stack| - 2])
  {
    FrameOnStack(w.stack, |w.stack| - 2, jobs, next);
  }

  lemma DoneTodo(w: Worker, jobs: map<nat, Job>, next: nat, s: nat, c: int)
    requires WorkerInv(w, jobs, next) && MainStep(w, jobs, next, s).Some? && Top(w).pc.Done?
    ensures var o := MainStep(w, jobs, next, s).value; WorkerTodo(o.worker, o.jobs, c) == WorkerTodo(w, jobs, c)
  {
    hide WorkerInv; hide Receive; hide MainStep; hide TodoOf; hide JobRuns; hide Runs;
    Kinds(w, jobs, next, s);
    if Top(w).ret.ToCaller? {
      ReturnTodo(w, jobs, next, s, c);
    } else {
      DoneIs(w, jobs, next, s);
      DoneBelow(w, c);
      if Top(w).ret.ToJob? {
        DequeKnown(w, jobs, next);
        var id := Top(w).ret.id;
        SameJobs(w.deque, jobs, id, jobs[id].(done := Some(Top(w).a)), c);
      }
    }
  }

  lemma SameJobs(d: seq<nat>, jobs: map<nat, Job>, id: nat, j: Job, c: int)
    requires id in jobs && j.task == jobs[id].task
    ensures Sum(JobRuns(jobs[id := j], c), d) == Sum(JobRuns(jobs, c), d)
  {
    hide Runs;
    SumSame(JobRuns(jobs[id := j], c), JobRuns(jobs, c), d);
  }

  lemma EagerTodo(w: Worker, jobs: map<nat, Job>, next: nat, c: int)
    requires WorkerInv(w, jobs, next) && JobsInv(jobs, next) && w.stack != [] && Top(w).pc.EagerAct?
    ensures var o := EagerPromote(w, jobs, next); WorkerTodo(o.worker, o.jobs, c) == WorkerTodo(w, jobs, c)
  {
    hide AddJobs; hide Ids; hide Promote; hide Todo; hide TodoOf; hide JobRuns; hide SpawnRuns; hide FrameInv;
    hide Relabels;
    var f := Top(w);
    TopFrame(w, jobs, next);
    if w.tokens != 0 && !f.promoted {
      var p := Promote(f, w.tokens, next);
      assert Visit(f, w.tokens, next) == p;
      VisitTodo(f, w.tokens, next, c);
      PromoteKeepsFrame(f, w.tokens, next);
      EagerEnds(p.frame, c);
      QueueSpawns(w, jobs, next, p.spawned, c);
      hide WorkerInv; hide JobsInv;
      TopTodo(w, p.frame.(pc := EagerOn), c);
    } else {
      hide WorkerInv; hide JobsInv;
      EagerEnds(f, c);
      TopTodo(w, f.(pc := EagerOn), c);
    }
  }

  lemma EagerEnds(f: Frame, c: int)
    requires FrameInv(f) && f.pc.EagerAct?
    ensures Todo(f.(pc := EagerOn), c) == Todo(f, c)
  {
    hide Todo;
    assert Relabels(f, EagerOn);
    RelabelTodo(f, EagerOn, c);
  }

  /** Every main-thread micro-step turns outstanding work into executions, one for one. */
  lemma MainTodo(w: Worker, jobs: map<nat, Job>, next: nat, s: nat, c: int)
    requires WorkerInv(w, jobs, next) && JobsInv(jobs, next) && MainStep(w, jobs, next, s).Some?
    ensures var o := MainStep(w, jobs, next, s).value;
            WorkerTodo(o.worker, o.jobs, c) + StepRuns(w, c) == WorkerTodo(w, jobs, c)
  {
    hide WorkerInv; hide JobsInv; hide WorkerTodo; hide MainStep; hide LoopStep; hide EagerPromote;
    hide Receive; hide StepRuns;
    Kinds(w, jobs, next, s);
    var f := Top(w);
    if LoopStep(f, s).Some? {
      LoopIs(w, jobs, next, s);
      LoopTodoStep(w, jobs, next, s, c);
    } else if MayCall(f.pc) {
      CallingTodo(w, jobs, next, s, c);
    } else {
      NothingRuns(w, c);
      QuietTodo(w, jobs, next, s, c);
    }
  }

  lemma QuietTodo(w: Worker, jobs: map<nat, Job>, next: nat, s: nat, c: int)
    requires WorkerInv(w, jobs, next) && JobsInv(jobs, next) && MainStep(w, jobs, next, s).Some?
    requires LoopStep(Top(w), s).None? && !MayCall(Top(w).pc)
    ensures var o := MainStep(w, jobs, next, s).value; WorkerTodo(o.worker, o.jobs, c) == WorkerTodo(w, jobs, c)
  {
    hide WorkerInv; hide JobsInv; hide MainStep; hide LoopStep; hide EagerPromote; hide Receive; hide TodoOf;
    hide JobRuns;
    Kinds(w, jobs, next, s);
    var f := Top(w);
    if f.pc.EagerAct? {
      EagerActIs(w, jobs, next, s);
      hide WorkerTodo;
      EagerTodo(w, jobs, next, c);
    } else if f.pc.Done? {
      hide WorkerTodo;
      DoneTodo(w, jobs, next, s, c);
    } else if f.pc.Wait? {
      WaitIs(w, jobs, next, s);
      WaitTodo(w, jobs, next, jobs[Last(f).id].done.value, c);
    } else if Moves(f.pc) {
      MoveIs(w, jobs, next, s);
      MovedRelabels(w);
      assert !Awaiting(MovedPc(w));
      hide MovedPc; hide Relabels;
      MoveTodo(w, MovedPc(w), jobs, next, c);
    } else {
      hide WorkerTodo;
      SyncTodo(w, jobs, next, s, c);
    }
  }

  lemma WaitTodo(w: Worker, jobs: map<nat, Job>, next: nat, v: Expr, c: int)
    requires WorkerInv(w, jobs, next) && w.stack != [] && Top(w).pc.Wait?
    ensures Sum(TodoOf(c), SetTop(w, Receive(Top(w), v)).stack) == Sum(TodoOf(c), w.stack)
  {
    hide WorkerInv; hide FrameInv; hide Todo; hide TodoOf; hide Receive; hide Shape;
    TopFrame(w, jobs, next);
    ShapeOf(Top(w));
    ReceiveTodo(Top(w), v, c);
    TopTodo(w, Receive(Top(w), v), c);
  }

  // ---------- the system ----------

  function Todos(st: State, c: int): seq<nat> {
    seq(|st.workers|, w requires 0 <= w < |st.workers| => WorkerTodo(st.workers[w], st.jobs, c))
  }

  /** The executions of `c` that have not been started yet, anywhere. */
  function Outstanding(st: State, c: int): nat {
    Total(Todos(st, c))
  }

  lemma CommitTodo(st: State, w: nat, o: Outcome, t: Task, a0: Expr, c: int)
    requires SystemInv(st, t, a0) && w < |st.workers| && Extends(st.jobs, o.jobs)
    ensures Outstanding(Commit(st, w, o), c) + WorkerTodo(st.workers[w], st.jobs, c)
         == Outstanding(st, c) + WorkerTodo(o.worker, o.jobs, c)
  {
    hide WorkerInv; hide WaitRule; hide JobsInv; hide Accounted; hide RootInv; hide WorkerTodo; hide Extends;
    var st' := Commit(st, w, o);
    forall v | 0 <= v < |st.workers| && v != w
      ensures WorkerTodo(st'.workers[v], o.jobs, c) == WorkerTodo(st.workers[v], st.jobs, c)
    {
      TodoExtends(st.workers[v], st.jobs, st.next, o.jobs, c);
    }
    assert Todos(st', c) == Todos(st, c)[w := WorkerTodo(o.worker, o.jobs, c)];
    TotalUpdate(Todos(st, c), w, WorkerTodo(o.worker, o.jobs, c));
  }

  /** The executions of `c` in one step of a run. */
  function Executes(st: State, step: Step, c: int): nat {
    match step
    case Main(w, _) => if w < |st.workers| then StepRuns(st.workers[w], c) else 0
    case Beat(_) => 0
    case Steal(_, v) =>
      if v < |st.workers| && st.workers[v].deque != [] && st.workers[v].deque[0] in st.jobs
      then RunsNow(st.jobs[st.workers[v].deque[0]].task, c) else 0
  }

  lemma MainExecutes(st: State, w: nat, s: nat, t: Task, a0: Expr, c: int)
    requires SystemInv(st, t, a0) && Next(st, Main(w, s)).Some?
    ensures Outstanding(Next(st, Main(w, s)).value, c) + Executes(st, Main(w, s), c) == Outstanding(st, c)
  {
    var u := st.workers[w];
    hide WorkerInv; hide JobsInv; hide Accounted; hide RootInv; hide MainStep; hide WorkerTodo; hide Extends;
    hide Outstanding;
    hide StepRuns;
    assert WorkerInv(u, st.jobs, st.next) && WaitRule(u);
    if u.stack != [] && Top(u).pc.Wait? {
      WaitingDequeEmpty(u, st.jobs, st.next);
    }
    hide WaitRule;
    MainStepGrows(u, st.jobs, st.next, s);
    MainStepKeeps(u, st.jobs, st.next, s);
    MainTodo(u, st.jobs, st.next, s, c);
    CommitTodo(st, w, MainStep(u, st.jobs, st.next, s).value, t, a0, c);
  }

  lemma HeartbeatTodo(w: Worker, jobs: map<nat, Job>, next: nat, c: int)
    requires WorkerInv(w, jobs, next) && JobsInv(jobs, next)
    ensures var o := Heartbeat(w, jobs, next); WorkerTodo(o.worker, o.jobs, c) == WorkerTodo(w, jobs, c)
  {
    hide WorkerInv; hide JobsInv; hide WorkerTodo; hide PromoteFront; hide AddJobs; hide Ids;
    if !w.disabled {
      HandlerTodo(w, Refilled(w.tokens), jobs, next, c);
    }
  }

  lemma SameTodos(st: State, st': State, c: int)
    requires st'.workers == st.workers && st'.jobs == st.jobs
    ensures Outstanding(st', c) == Outstanding(st, c)
  {
    hide WorkerTodo;
    assert Todos(st', c) == Todos(st, c);
  }

  lemma BeatExecutes(st: State, w: nat, t: Task, a0: Expr, c: int)
    requires SystemInv(st, t, a0) && w < |st.workers|
    ensures Outstanding(Next(st, Beat(w)).value, c) == Outstanding(st, c)
  {
    var u := st.workers[w];
    var o := Heartbeat(u, st.jobs, st.next);
    hide WorkerInv; hide JobsInv; hide Accounted; hide RootInv; hide WorkerTodo; hide Extends; hide WaitRule;
    hide Heartbeat;
    hide Outstanding; hide Next; hide Commit;
    assert WorkerInv(u, st.jobs, st.next) && WaitRule(u);
    BeatWorker(u, st.jobs, st.next);
    HeartbeatTodo(u, st.jobs, st.next, c);
    CommitTodo(st, w, o, t, a0, c);
    BeatCommits(st, w);
    SameTodos(Commit(st, w, o), Next(st, Beat(w)).value, c);
  }

  lemma ThiefTodo(w: Worker, id: nat, jobs: map<nat, Job>, next: nat, c: int)
    requires id in jobs
    ensures WorkerTodo(StartJob(w, id, jobs[id], next), jobs, c) + RunsNow(jobs[id].task, c)
         == WorkerTodo(w, jobs, c) + Runs(jobs[id].task, c)
  {
    hide Todo; hide NewFrame; hide Runs; hide RunsNow; hide JobRuns;
    FreshTodo(jobs[id].task, ToJob(id), next, Unit, c);
    SumLast(TodoOf(c), w.stack, NewFrame(jobs[id].task, ToJob(id), next, Unit));
  }

  lemma VictimTodo(v: Worker, jobs: map<nat, Job>, c: int)
    requires v.deque != [] && v.deque[0] in jobs
    ensures WorkerTodo(v.(deque := v.deque[1..]), jobs, c) + Runs(jobs[v.deque[0]].task, c) == WorkerTodo(v, jobs, c)
  {
    hide Runs; hide TodoOf;
  }

  lemma StealExecutes(st: State, w: nat, v: nat, c: int)
    requires Next(st, Steal(w, v)).Some?
    ensures Outstanding(Next(st, Steal(w, v)).value, c) + Executes(st, Steal(w, v), c) == Outstanding(st, c)
  {
    hide StartJob; hide Hungry; hide WorkerTodo; hide Runs; hide RunsNow;
    var id := st.workers[v].deque[0];
    var thief := StartJob(st.workers[w], id, st.jobs[id], st.next);
    var victim := st.workers[v].(deque := st.workers[v].deque[1..]);
    ThiefTodo(st.workers[w], id, st.jobs, st.next, c);
    VictimTodo(st.workers[v], st.jobs, c);
    var p := Todos(st, c);
    var x, y := WorkerTodo(victim, st.jobs, c), WorkerTodo(thief, st.jobs, c);
    assert Todos(Next(st, Steal(w, v)).value, c) == p[v := x][w := y];
    TotalUpdate(p, v, x);
    TotalUpdate(p[v := x], w, y);
  }

  lemma NextExecutes(st: State, step: Step, t: Task, a0: Expr, c: int)
    requires SystemInv(st, t, a0) && Next(st, step).Some?
    ensures Outstanding(Next(st, step).value, c) + Executes(st, step, c) == Outstanding(st, c)
  {
    hide SystemInv; hide Outstanding;
    match step
    case Main(w, s) => MainExecutes(st, w, s, t, a0, c);
    case Steal(w, v) => StealExecutes(st, w, v, c);
    case Beat(w) =>
      assert w < |st.workers|;
      BeatExecutes(st, w, t, a0, c);
  }

  /** The executions of `c` in the first `k` steps of a run; a run of a single iteration starts with it. */
  function Executed(t: Task, run: seq<State>, steps: seq<Step>, k: nat, c: int): nat
    requires k <= |steps| < |run|
  {
    if k == 0 then RunsNow(t, c) else Executed(t, run, steps, k - 1, c) + Executes(run[k - 1], steps[k - 1], c)
  }

  lemma InitOutstanding(t: Task, a0: Expr, n: nat, c: int)
    ensures Outstanding(Init(t, a0, n), c) + RunsNow(t, c) == Runs(t, c)
  {
    var st := Init(t, a0, n);
    hide Todo; hide NewFrame; hide Runs; hide RunsNow;
    var f := NewFrame(t, ToRoot, 0, a0);
    FreshTodo(t, ToRoot, 0, a0, c);
    SumLast(TodoOf(c), [], f);
    assert [] + [f] == [f];
    var p := Todos(st, c);
    assert p[0] == Todo(f, c);
    hide TodoOf; hide JobRuns;
    ZeroTotal(p[1..]);
  }

  /**
   Conservation: in every state of every run, the executions of an iteration so
   far and those still outstanding are exactly those of the sequential program.
   In particular none is ever executed more often than it occurs there.
   */
  lemma {:induction false} Conserved(t: Task, a0: Expr, n: nat, run: seq<State>, steps: seq<Step>, k: nat, c: int)
    requires IsRun(t, a0, n, run, steps) && k <= |steps|
    ensures Executed(t, run, steps, k, c) + Outstanding(run[k], c) == Occurs(Leaves(t), c)
    decreases k
  {
    hide SystemInv; hide Next; hide Init; hide Outstanding; hide Executes; hide RunsNow;
    if k == 0 {
      InitOutstanding(t, a0, n, c);
    } else {
      RunKeeps(t, a0, n, run, steps, k - 1);
      Conserved(t, a0, n, run, steps, k - 1, c);
      assert Next(run[k - 1], steps[k - 1]) == Some(run[k - 1 + 1]);
      NextExecutes(run[k - 1], steps[k - 1], t, a0, c);
    }
  }
}
