/**
 Whole runs, counted independently of the machine's own counters: promotions as
 flags that go up, heartbeats as handler calls that were not refused, and the
 tokens that a popped job gives back to its owner.
 */
module Counters {
  import opened Sums
  import opened Tasks
  import opened Machine
  import opened StepCases
  import opened Wrappers
  import opened FrameInvariant
  import opened StackInvariant
  import opened WorkerInvariant
  import opened StepInvariant
  import opened Stolen
  import opened SystemInvariant
  import opened Budget
  import opened Tokens

  // ---------- promotions ----------

  /** The frames of a stack whose `promoted` flag goes up from `s` to `r`. */
  function Flipped(s: seq<Frame>, r: seq<Frame>): nat {
    if s == [] || r == [] then 0
    else (if !s[0].promoted && r[0].promoted then 1 else 0) + Flipped(s[1..], r[1..])
  }

  /** `r` has the flags of `s`, as far as both go. */
  ghost predicate SameFlags(s: seq<Frame>, r: seq<Frame>) {
    forall k :: 0 <= k < |s| && k < |r| ==> r[k].promoted == s[k].promoted
  }

  lemma {:induction false} NoFlips(s: seq<Frame>, r: seq<Frame>)
    requires SameFlags(s, r)
    ensures Flipped(s, r) == 0
    decreases |s|
  {
    if s != [] && r != [] {
      forall k | 0 <= k < |s[1..]| && k < |r[1..]| ensures r[1..][k].promoted == s[1..][k].promoted {
        assert r[k + 1].promoted == s[k + 1].promoted;
      }
      NoFlips(s[1..], r[1..]);
    }
  }

  lemma {:induction false} FlipsOf(s: seq<Frame>, r: seq<Frame>, q: seq<Frame>)
    requires |r| == |q| && SameFlags(r, q)
    ensures Flipped(s, q) == Flipped(s, r)
    decreases |s|
  {
    if s != [] && r != [] {
      forall k | 0 <= k < |r[1..]| ensures q[1..][k].promoted == r[1..][k].promoted {
        assert q[k + 1].promoted == r[k + 1].promoted;
      }
      FlipsOf(s[1..], r[1..], q[1..]);
    }
  }

  lemma {:induction false} WalkFlips(stack: seq<Frame>, tokens: nat, next: nat)
    requires Frames(stack)
    ensures Flipped(stack, PromoteFront(stack, tokens, next).stack) == PromoteFront(stack, tokens, next).count
    decreases |stack|
  {
    hide FrameInv; hide Visit; hide Live;
    if stack == [] || tokens == 0 {
      NoFlips(stack, stack);
    } else {
      var f := stack[0];
      VisitFacts(f, tokens, next);
      var p := Visit(f, tokens, next);
      var w := PromoteFront(stack[1..], p.tokens, next + |p.spawned|);
      WalkFlips(stack[1..], p.tokens, next + |p.spawned|);
      assert ([p.frame] + w.stack)[1..] == w.stack;
    }
  }

  lemma BeatFlips(w: Worker, jobs: map<nat, Job>, next: nat)
    requires WorkerInv(w, jobs, next)
    ensures Flipped(w.stack, Heartbeat(w, jobs, next).worker.stack) == Heartbeat(w, jobs, next).promoted
  {
    hide WorkerInv; hide PromoteFront; hide AddJobs; hide Flipped; hide Frames;
    if w.disabled {
      NoFlips(w.stack, w.stack);
    } else {
      WorkerFrames(w, jobs, next);
      WalkFlips(w.stack, Refilled(w.tokens), next);
    }
  }

  lemma EagerFlips(w: Worker, jobs: map<nat, Job>, next: nat)
    requires WorkerInv(w, jobs, next) && w.stack != [] && Top(w).pc.EagerAct?
    ensures Flipped(w.stack, EagerPromote(w, jobs, next).worker.stack) == EagerPromote(w, jobs, next).promoted
  {
    hide WorkerInv; hide PromoteFront; hide AddJobs; hide Flipped; hide Frames; hide EagerPromote; hide Ids;
    EagerPromoteIsWalk(w, jobs, next);
    WorkerFrames(w, jobs, next);
    WalkFlips(w.stack, w.tokens, next);
    FlipsOf(w.stack, PromoteFront(w.stack, w.tokens, next).stack, EagerPromote(w, jobs, next).worker.stack);
  }

  lemma TopFlags(w: Worker, g: Frame, above: seq<Frame>, r: seq<Frame>)
    requires w.stack != [] && r == Below(w) + [g] + above && g.promoted == Top(w).promoted
    ensures SameFlags(w.stack, r)
  {
  }

  lemma ReceiveFlag(f: Frame, v: Expr)
    ensures Receive(f, v).promoted == f.promoted
  {
  }

  lemma LoopStepFlag(f: Frame, s: nat)
    requires LoopStep(f, s).Some?
    ensures LoopStep(f, s).value.promoted == f.promoted
  {
  }

  lemma DoneFlags(w: Worker, jobs: map<nat, Job>, next: nat, s: nat)
    requires MainStep(w, jobs, next, s).Some? && Top(w).pc.Done?
    ensures var o := MainStep(w, jobs, next, s).value; SameFlags(w.stack, o.worker.stack) && o.promoted == 0
  {
    hide MainStep; hide Receive;
    Kinds(w, jobs, next, s);
    DoneIs(w, jobs, next, s);
    if Top(w).ret.ToCaller? {
      var u := w.(stack := Below(w));
      ReceiveFlag(Top(u), Top(w).a);
      TopFlags(u, Receive(Top(u), Top(w).a), [], MainStep(w, jobs, next, s).value.worker.stack);
    }
  }

  lemma SyncFlags(w: Worker, jobs: map<nat, Job>, next: nat, s: nat)
    requires MainStep(w, jobs, next, s).Some?
    requires Top(w).pc.Join? || Top(w).pc.Popped? || Top(w).pc.WriteBack? || Top(w).pc.Wait?
    ensures var o := MainStep(w, jobs, next, s).value; SameFlags(w.stack, o.worker.stack) && o.promoted == 0
  {
    hide MainStep; hide Receive; hide SameFlags;
    Kinds(w, jobs, next, s);
    var o := MainStep(w, jobs, next, s).value;
    if Top(w).pc.Join? {
      JoinIs(w, jobs, next, s);
    } else if Top(w).pc.Popped? {
      PoppedIs(w, jobs, next, s);
    } else if Top(w).pc.WriteBack? {
      WriteBackIs(w, jobs, next, s);
    } else {
      WaitIs(w, jobs, next, s);
      ReceiveFlag(Top(w), jobs[Last(Top(w)).id].done.value);
    }
    TopFlags(w, Top(o.worker), [], o.worker.stack);
  }

  /** Only eager promotion raises a flag in a main-thread step. */
  lemma MainFlips(w: Worker, jobs: map<nat, Job>, next: nat, s: nat)
    requires WorkerInv(w, jobs, next) && MainStep(w, jobs, next, s).Some?
    ensures var o := MainStep(w, jobs, next, s).value; Flipped(w.stack, o.worker.stack) == o.promoted
  {
    hide WorkerInv; hide MainStep; hide LoopStep; hide Receive; hide NewFrame; hide Callee; hide MovedPc;
    hide Flipped; hide SameFlags; hide EagerPromote;
    Kinds(w, jobs, next, s);
    var f := Top(w);
    var o := MainStep(w, jobs, next, s).value;
    if f.pc.EagerAct? {
      EagerActIs(w, jobs, next, s);
      EagerFlips(w, jobs, next);
    } else {
      if f.pc.Done? {
        DoneFlags(w, jobs, next, s);
      } else if LoopStep(f, s).Some? {
        LoopIs(w, jobs, next, s);
        LoopStepFlag(f, s);
        TopFlags(w, LoopStep(f, s).value, [], o.worker.stack);
      } else if Moves(f.pc) {
        MoveIs(w, jobs, next, s);
        TopFlags(w, f.(pc := MovedPc(w)), [], o.worker.stack);
      } else if MayCall(f.pc) {
        CallIs(w, jobs, next, s);
        TopFlags(w, f.(pc := CallingPc(f.pc)), [NewFrame(Callee(f), ToCaller, next, Unit)], o.worker.stack);
      } else {
        SyncFlags(w, jobs, next, s);
      }
      NoFlips(w.stack, o.worker.stack);
    }
  }

  function FlippedIn(st: State, st': State): seq<nat> {
    seq(|st.workers|, w requires 0 <= w < |st.workers| =>
      if w < |st'.workers| then Flipped(st.workers[w].stack, st'.workers[w].stack) else 0)
  }

  lemma {:induction false} OneTotal(s: seq<nat>, i: nat)
    requires i < |s| && forall j :: 0 <= j < |s| && j != i ==> s[j] == 0
    ensures Total(s) == s[i]
  {
    TotalUpdate(s, i, 0);
    ZeroTotal(s[i := 0]);
  }

  /** The flags raised in a step, over all workers. */
  function Raised(st: State, st': State): nat {
    Total(FlippedIn(st, st'))
  }

  lemma CommitRaised(st: State, w: nat, st': State, promoted: nat)
    requires w < |st.workers| == |st'.workers| && Flipped(st.workers[w].stack, st'.workers[w].stack) == promoted
    requires forall v :: 0 <= v < |st.workers| && v != w ==> st'.workers[v].stack == st.workers[v].stack
    ensures Raised(st, st') == promoted
  {
    hide Flipped;
    var s := FlippedIn(st, st');
    forall v | 0 <= v < |s| && v != w ensures s[v] == 0 {
      NoFlips(st.workers[v].stack, st.workers[v].stack);
    }
    OneTotal(s, w);
  }

  /** The counter of promotions rises by the flags raised, in every step. */
  lemma NextRaised(st: State, step: Step, t: Task, a0: Expr)
    requires SystemInv(st, t, a0) && Next(st, step).Some?
    ensures var st' := Next(st, step).value; st'.promotions == st.promotions + Raised(st, st')
  {
    hide WaitRule; hide JobsInv; hide Accounted; hide RootInv; hide WorkerInv; hide Raised;
    var st' := Next(st, step).value;
    match step {
      case Main(w, s) =>
        assert WorkerInv(st.workers[w], st.jobs, st.next);
        hide SystemInv; hide MainStep;
        MainFlips(st.workers[w], st.jobs, st.next, s);
        CommitRaised(st, w, st', MainStep(st.workers[w], st.jobs, st.next, s).value.promoted);
      case Beat(w) =>
        assert WorkerInv(st.workers[w], st.jobs, st.next);
        hide SystemInv; hide Heartbeat;
        BeatFlips(st.workers[w], st.jobs, st.next);
        CommitRaised(st, w, st', Heartbeat(st.workers[w], st.jobs, st.next).promoted);
      case Steal(w, v) =>
        var id := st.workers[v].deque[0];
        StealTakes(st, w, v, st', id, st.jobs[id]);
        StealCount(st, w, v);
        hide SystemInv; hide Next; hide NewFrame;
        NoFlips(st.workers[w].stack, st'.workers[w].stack);
        CommitRaised(st, w, st', 0);
    }
  }

  lemma StealCount(st: State, w: nat, v: nat)
    requires Next(st, Steal(w, v)).Some?
    ensures var st' := Next(st, Steal(w, v)).value;
            st'.promotions == st.promotions && st'.beats == st.beats && |st'.workers| == |st.workers|
  {
    hide StartJob; hide Hungry;
  }

  // ---------- counters over a run ----------

  /** The flags raised in the first `k` steps. */
  function Promotions(run: seq<State>, k: nat): nat
    requires k < |run|
  {
    if k == 0 then 0 else Promotions(run, k - 1) + Raised(run[k - 1], run[k])
  }

  /** `step` is a heartbeat that finds heartbeats enabled. */
  predicate IsHandled(st: State, step: Step) {
    step.Beat? && step.w < |st.workers| && !st.workers[step.w].disabled
  }

  /** The heartbeats handled in the first `k` steps. */
  function Beats(run: seq<State>, steps: seq<Step>, k: nat): nat
    requires k < |run| && k <= |steps|
  {
    if k == 0 then 0 else Beats(run, steps, k - 1) + if IsHandled(run[k - 1], steps[k - 1]) then 1 else 0
  }

  lemma NextBeats(st: State, step: Step)
    requires Next(st, step).Some?
    ensures Next(st, step).value.beats == st.beats + if IsHandled(st, step) then 1 else 0
  {
    hide MainStep; hide Heartbeat; hide StartJob; hide Hungry;
  }

  lemma {:induction false} RunCounts(t: Task, a0: Expr, n: nat, run: seq<State>, steps: seq<Step>, k: nat)
    requires IsRun(t, a0, n, run, steps) && k < |run|
    ensures run[k].promotions == Promotions(run, k) && run[k].beats == Beats(run, steps, k)
    decreases k
  {
    hide SystemInv; hide Next; hide Raised; hide IsHandled;
    if k == 0 {
    } else {
      hide Init;
      RunKeeps(t, a0, n, run, steps, k - 1);
      RunCounts(t, a0, n, run, steps, k - 1);
      assert Next(run[k - 1], steps[k - 1]) == Some(run[k - 1 + 1]);
      NextRaised(run[k - 1], steps[k - 1], t, a0);
      NextBeats(run[k - 1], steps[k - 1]);
    }
  }

  /** The counters of all workers, and the tokens of all queued jobs. */
  function Counted(st: State): seq<nat> {
    seq(|st.workers|, w requires 0 <= w < |st.workers| =>
      st.workers[w].tokens + QueueTokens(st.workers[w].deque, st.jobs))
  }

  /** Flags raised, tokens in the workers' counters and tokens of queued jobs: never more than 30
      for each heartbeat handled. */
  lemma ThirtyPerBeat(t: Task, a0: Expr, n: nat, run: seq<State>, steps: seq<Step>, k: nat)
    requires IsRun(t, a0, n, run, steps) && k < |run|
    ensures Promotions(run, k) + Total(Counted(run[k])) <= 30 * Beats(run, steps, k)
  {
    hide IsRun; hide Promotions; hide Beats; hide HeldTokens; hide QueueTokens;
    RunCounts(t, a0, n, run, steps, k);
    RunBudget(t, a0, n, run, steps, k);
    forall w | 0 <= w < |run[k].workers| ensures Counted(run[k])[w] <= Holdings(run[k])[w] {
      HeldAtLeast(run[k].workers[w], run[k].jobs);
    }
    TotalMonotone(Counted(run[k]), Holdings(run[k]));
  }

  lemma {:induction false} TotalMonotone(s: seq<nat>, r: seq<nat>)
    requires |s| == |r| && forall i :: 0 <= i < |s| ==> s[i] <= r[i]
    ensures Total(s) <= Total(r)
    decreases |s|
  {
    if s != [] {
      TotalMonotone(s[1..], r[1..]);
    }
  }

  // ---------- taking a job's tokens back ----------

  /** Worker `u` between the pop of the last job of `f`, when it had `tokens`, and the job's call. */
  ghost predicate Popping(f: Frame, tokens: nat, hbt: nat, u: Worker) {
    && u.stack != [] && Top(u).pend == f.pend && f.pend != []
    && match Top(u).pc
       case Popped => u.tokens == tokens
       case WriteBack => u.tokens == tokens == Top(u).saved && Last(f).reclaim
       case Call => u.tokens == tokens + if Last(f).reclaim then hbt else 0
       case _ => false
  }

  /** Other workers add jobs and finish them; they never change the tokens of a job. */
  lemma NextExtends(st: State, step: Step, t: Task, a0: Expr)
    requires SystemInv(st, t, a0) && Next(st, step).Some?
    ensures Extends(st.jobs, Next(st, step).value.jobs)
  {
    hide WaitRule; hide JobsInv; hide Accounted; hide RootInv; hide WorkerInv; hide Extends;
    match step {
      case Main(w, s) =>
        var u := st.workers[w];
        assert WorkerInv(u, st.jobs, st.next) && WaitRule(u);
        if u.stack != [] && Top(u).pc.Wait? { WaitingDequeEmpty(u, st.jobs, st.next); }
        MainStepKeeps(u, st.jobs, st.next, s);
        hide MainStep;
      case Beat(w) =>
        assert WorkerInv(st.workers[w], st.jobs, st.next) && WaitRule(st.workers[w]);
        BeatWorker(st.workers[w], st.jobs, st.next);
        hide Heartbeat;
      case Steal(w, v) =>
        SameExtends(st.jobs);
        hide StartJob; hide Hungry;
    }
  }

  lemma SameExtends(jobs: map<nat, Job>)
    ensures Extends(jobs, jobs)
  {
  }

  lemma PoppingStep(f: Frame, tokens: nat, hbt: nat, u: Worker, jobs: map<nat, Job>, next: nat, s: nat)
    requires Popping(f, tokens, hbt, u) && !Top(u).pc.Call? && MainStep(u, jobs, next, s).Some?
    requires Last(f).id in jobs && jobs[Last(f).id].hbt == hbt
    ensures Popping(f, tokens, hbt, MainStep(u, jobs, next, s).value.worker)
  {
    hide MainStep;
    if Top(u).pc.Popped? {
      PoppedIs(u, jobs, next, s);
    } else {
      WriteBackIs(u, jobs, next, s);
    }
  }

  lemma PoppingNext(f: Frame, tokens: nat, hbt: nat, st: State, step: Step, w: nat)
    requires w < |st.workers| && Popping(f, tokens, hbt, st.workers[w]) && !Calls(st, w)
    requires step != Beat(w) && Next(st, step).Some?
    requires Last(f).id in st.jobs && st.jobs[Last(f).id].hbt == hbt
    ensures var st' := Next(st, step).value; w < |st'.workers| && Popping(f, tokens, hbt, st'.workers[w])
  {
    match step {
      case Main(v, s) =>
        if v == w {
          PoppingStep(f, tokens, hbt, st.workers[w], st.jobs, st.next, s);
        }
        hide MainStep; hide Popping;
      case Beat(v) =>
        hide Heartbeat; hide Popping;
      case Steal(v, x) =>
        hide StartJob;
    }
  }

  /** From the pop of a job to its call, without a heartbeat on the worker in between: whatever the
      others do meanwhile, the owner gets back exactly the job's tokens if the job is a loop's `l`,
      and none if it is a loop's `r` or a fork's job. */
  lemma {:induction false} ReclaimIsExact(t: Task, a0: Expr, n: nat, run: seq<State>, steps: seq<Step>, k: nat, m: nat,
                                          w: nat)
    requires IsRun(t, a0, n, run, steps) && k < m < |run| && w < |run[k].workers| && steps[k].Main? && steps[k].w == w
    requires var u := run[k].workers[w]; u.stack != [] && Top(u).pc.Join? && Top(u).pend != [] && u.deque != []
    requires forall j :: k < j < m ==> steps[j] != Beat(w) && !Calls(run[j], w)
    ensures var f := Top(run[k].workers[w]);
            var id := Last(f).id;
            && id in run[k].jobs && id in run[m].jobs && run[m].jobs[id].hbt == run[k].jobs[id].hbt
            && w < |run[m].workers| && Popping(f, run[k].workers[w].tokens, run[k].jobs[id].hbt, run[m].workers[w])
            && (Calls(run[m], w) ==>
                  run[m].workers[w].tokens
                  == run[k].workers[w].tokens + if f.task.Loop? && |f.pend| == 2 then run[k].jobs[id].hbt else 0)
    decreases m
  {
    hide SystemInv; hide Next; hide Init; hide Popping;
    var f, u := Top(run[k].workers[w]), run[k].workers[w];
    RunKeeps(t, a0, n, run, steps, k);
    RunKeeps(t, a0, n, run, steps, m - 1);
    PoppedJob(run[k], w, t, a0);
    assert Next(run[m - 1], steps[m - 1]) == Some(run[m - 1 + 1]);
    NextExtends(run[m - 1], steps[m - 1], t, a0);
    if m == k + 1 {
      PopStarts(run[k], w, steps[k].s);
    } else {
      ReclaimIsExact(t, a0, n, run, steps, k, m - 1, w);
      assert steps[m - 1] != Beat(w) && !Calls(run[m - 1], w);
      PoppingNext(f, u.tokens, run[k].jobs[Last(f).id].hbt, run[m - 1], steps[m - 1], w);
    }
    hide IsRun;
    CallGives(f, u.tokens, run[k].jobs[Last(f).id].hbt, run[m], w);
  }

  /** The job that the owner is about to pop is known, and reclaims if it is a loop's second. */
  lemma PoppedJob(st: State, w: nat, t: Task, a0: Expr)
    requires SystemInv(st, t, a0) && w < |st.workers| && st.workers[w].stack != [] && Top(st.workers[w]).pend != []
    ensures var f := Top(st.workers[w]);
            Last(f).id in st.jobs && (Last(f).reclaim <==> f.task.Loop? && |f.pend| == 2)
  {
    hide WaitRule; hide JobsInv; hide Accounted; hide RootInv; hide WorkerInv; hide Owed; hide Word; hide Leaves;
    hide LoopInv; hide ForkInv;
    var u := st.workers[w];
    assert WorkerInv(u, st.jobs, st.next);
    TopFrame(u, st.jobs, st.next);
    assert Last(Top(u)) in Top(u).pend;
  }

  lemma PopStarts(st: State, w: nat, s: nat)
    requires w < |st.workers| && Next(st, Main(w, s)).Some?
    requires var u := st.workers[w]; u.stack != [] && Top(u).pc.Join? && Top(u).pend != [] && u.deque != []
    ensures var u, st' := st.workers[w], Next(st, Main(w, s)).value;
            w < |st'.workers| && forall hbt: nat :: Popping(Top(u), u.tokens, hbt, st'.workers[w])
  {
    JoinIs(st.workers[w], st.jobs, st.next, s);
    hide MainStep;
  }

  lemma CallGives(f: Frame, tokens: nat, hbt: nat, st: State, w: nat)
    requires w < |st.workers| && Popping(f, tokens, hbt, st.workers[w])
    requires Last(f).reclaim <==> f.task.Loop? && |f.pend| == 2
    ensures Calls(st, w) ==> st.workers[w].tokens == tokens + if f.task.Loop? && |f.pend| == 2 then hbt else 0
  {
  }

  /** Worker `w` is about to call the job it has popped. */
  predicate Calls(st: State, w: nat) {
    w < |st.workers| && st.workers[w].stack != [] && Top(st.workers[w]).pc.Call?
  }
}
