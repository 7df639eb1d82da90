/** The invariant of the whole system, kept by every step of every run. */
module SystemInvariant {
  import opened Tasks
  import opened Machine
  import opened StepCases
  import opened Wrappers
  import opened FrameInvariant
  import opened StackInvariant
  import opened WorkerInvariant
  import opened StepInvariant
  import opened Stolen

  /** Some worker is running job `id`. */
  ghost predicate Running(workers: seq<Worker>, id: nat) {
    exists w, k :: 0 <= w < |workers| && 0 <= k < |workers[w].stack| && workers[w].stack[k].ret == ToJob(id)
  }

  /** A stolen job is running or finished: no job is ever lost. */
  ghost predicate Accounted(st: State) {
    forall w, id :: 0 <= w < |st.workers| && id in Taken(st.workers[w]) ==>
                      (id in st.jobs && st.jobs[id].done.Some?) || Running(st.workers, id)
  }

  ghost predicate WorkersInv(st: State) {
    forall w :: 0 <= w < |st.workers| ==>
                  WorkerInv(st.workers[w], st.jobs, st.next) && WaitRule(st.workers[w])
  }

  /** The root call stays at the bottom of its stack until it delivers the result. */
  ghost predicate RootInv(st: State, t: Task, a0: Expr) {
    && (forall w :: 0 <= w < |st.workers| && st.workers[w].stack != [] && st.workers[w].stack[0].ret.ToRoot? ==>
                      st.workers[w].stack[0].task == t && st.workers[w].stack[0].a0 == a0)
    && (st.result.Some? ==> Word(st.result.value) == Word(a0) + Leaves(t))
    && (st.result.None? ==> st.workers != [] && st.workers[0].stack != [] && st.workers[0].stack[0].ret.ToRoot?)
  }

  ghost predicate SystemInv(st: State, t: Task, a0: Expr) {
    && WorkersInv(st) && JobsInv(st.jobs, st.next) && Accounted(st) && RootInv(st, t, a0)
  }

  // ---------- the frames of a stack across a step ----------

  ghost predicate SameId(f: Frame, g: Frame) {
    g.ret == f.ret && g.task == f.task && g.a0 == f.a0 && g.birth == f.birth
  }

  ghost predicate StackGrows(w: Worker, o: Outcome)
    requires w.stack != []
  {
    var n := |w.stack| - 1;
    && n <= |o.worker.stack|
    && (forall k :: 0 <= k < n ==> SameId(w.stack[k], o.worker.stack[k]))
    && (n < |o.worker.stack| ==> SameId(Top(w), o.worker.stack[n]) && o.result == None)
    && (n == |o.worker.stack| ==>
          && Top(w).pc.Done?
          && (Top(w).ret.ToJob? ==> Top(w).ret.id in o.jobs && o.jobs[Top(w).ret.id].done.Some?)
          && o.result == if Top(w).ret.ToRoot? then Some(Top(w).a) else None)
  }

  lemma PromoteSameId(f: Frame, tokens: nat, next: nat)
    requires 0 < tokens
    ensures SameId(f, Promote(f, tokens, next).frame)
  {
  }

  lemma TopGrows(w: Worker, g: Frame, above: seq<Frame>, o: Outcome)
    requires w.stack != [] && SameId(Top(w), g) && o.worker.stack == Below(w) + [g] + above && o.result == None
    ensures StackGrows(w, o)
  {
  }

  lemma PopGrows(w: Worker, o: Outcome)
    requires w.stack != [] && Top(w).pc.Done? && o.worker.stack == Below(w)
    requires Top(w).ret.ToJob? ==> Top(w).ret.id in o.jobs && o.jobs[Top(w).ret.id].done.Some?
    requires o.result == if Top(w).ret.ToRoot? then Some(Top(w).a) else None
    ensures StackGrows(w, o)
  {
  }

  lemma ReturnGrows(w: Worker, g: Frame, o: Outcome)
    requires |w.stack| > 1 && Top(w).pc.Done? && Top(w).ret.ToCaller? && o.result == None
    requires SameId(w.stack[|w.stack| - 2], g) && o.worker.stack == w.stack[..|w.stack| - 2] + [g]
    ensures StackGrows(w, o)
  {
  }

  lemma LoopStepSameId(f: Frame, s: nat)
    requires LoopStep(f, s).Some?
    ensures SameId(f, LoopStep(f, s).value)
  {
  }

  lemma ReceiveSameId(f: Frame, v: Expr)
    ensures SameId(f, Receive(f, v))
  {
  }

  lemma DoneGrows(w: Worker, jobs: map<nat, Job>, next: nat, s: nat)
    requires MainStep(w, jobs, next, s).Some? && Top(w).pc.Done?
    ensures w.stack != [] && StackGrows(w, MainStep(w, jobs, next, s).value)
  {
    Kinds(w, jobs, next, s);
    DoneIs(w, jobs, next, s);
    hide MainStep; hide StackGrows;
    var o := MainStep(w, jobs, next, s).value;
    if Top(w).ret.ToCaller? {
      var b := w.stack[|w.stack| - 2];
      ReceiveSameId(b, Top(w).a);
      hide Receive;
      ReturnGrows(w, Receive(b, Top(w).a), o);
    } else {
      PopGrows(w, o);
    }
  }

  lemma EagerGrows(w: Worker, jobs: map<nat, Job>, next: nat)
    requires w.stack != [] && Top(w).pc.EagerAct?
    ensures StackGrows(w, EagerPromote(w, jobs, next))
  {
    hide StackGrows; hide Promote; hide AddJobs; hide Ids;
    if w.tokens != 0 && !Top(w).promoted {
      PromoteSameId(Top(w), w.tokens, next);
      TopGrows(w, Promote(Top(w), w.tokens, next).frame.(pc := EagerOn), [], EagerPromote(w, jobs, next));
    } else {
      TopGrows(w, Top(w).(pc := EagerOn), [], EagerPromote(w, jobs, next));
    }
  }

  /** A micro-step that leaves the same frames, but for the state of the top one. */
  lemma SyncGrows(w: Worker, jobs: map<nat, Job>, next: nat, s: nat)
    requires MainStep(w, jobs, next, s).Some?
    requires Top(w).pc.Join? || Top(w).pc.Popped? || Top(w).pc.WriteBack? || Top(w).pc.Wait?
    ensures w.stack != [] && StackGrows(w, MainStep(w, jobs, next, s).value)
  {
    Kinds(w, jobs, next, s);
    hide StackGrows; hide Receive;
    if Top(w).pc.Join? {
      JoinIs(w, jobs, next, s);
    } else if Top(w).pc.Popped? {
      PoppedIs(w, jobs, next, s);
    } else if Top(w).pc.WriteBack? {
      WriteBackIs(w, jobs, next, s);
    } else {
      WaitIs(w, jobs, next, s);
      ReceiveSameId(Top(w), jobs[Last(Top(w)).id].done.value);
    }
    hide MainStep;
    var o := MainStep(w, jobs, next, s).value;
    TopGrows(w, Top(o.worker), [], o);
  }

  lemma CallingGrows(w: Worker, jobs: map<nat, Job>, next: nat, s: nat)
    requires MainStep(w, jobs, next, s).Some? && MayCall(Top(w).pc) && LoopStep(Top(w), s).None?
    ensures StackGrows(w, MainStep(w, jobs, next, s).value)
  {
    CallIs(w, jobs, next, s);
    hide StackGrows; hide NewFrame; hide LoopStep; hide MainStep; hide Callee;
    var f := Top(w);
    TopGrows(w, f.(pc := CallingPc(f.pc)), [NewFrame(Callee(f), ToCaller, next, Unit)],
             MainStep(w, jobs, next, s).value);
  }

  lemma MainStepGrows(w: Worker, jobs: map<nat, Job>, next: nat, s: nat)
    requires MainStep(w, jobs, next, s).Some?
    ensures w.stack != [] && StackGrows(w, MainStep(w, jobs, next, s).value)
  {
    Kinds(w, jobs, next, s);
    hide StackGrows; hide MainStep; hide LoopStep; hide EagerPromote;
    var f := Top(w);
    if f.pc.Done? {
      DoneGrows(w, jobs, next, s);
    } else if f.pc.EagerAct? {
      EagerActIs(w, jobs, next, s);
      EagerGrows(w, jobs, next);
    } else if LoopStep(f, s).Some? {
      LoopIs(w, jobs, next, s);
      LoopStepSameId(f, s);
      TopGrows(w, LoopStep(f, s).value, [], MainStep(w, jobs, next, s).value);
    } else if Moves(f.pc) {
      MoveIs(w, jobs, next, s);
      hide MovedPc;
      TopGrows(w, f.(pc := MovedPc(w)), [], MainStep(w, jobs, next, s).value);
    } else if MayCall(f.pc) {
      CallingGrows(w, jobs, next, s);
    } else {
      SyncGrows(w, jobs, next, s);
    }
  }

  // ---------- from one worker to the system ----------

  lemma CommitWorkers(st: State, w: nat, o: Outcome)
    requires WorkersInv(st) && w < |st.workers| && Extends(st.jobs, o.jobs) && st.next <= o.next
    requires WorkerInv(o.worker, o.jobs, o.next) && WaitRule(o.worker)
    ensures WorkersInv(Commit(st, w, o))
  {
    hide WorkerInv; hide WaitRule; hide Extends;
    var st' := Commit(st, w, o);
    forall v | 0 <= v < |st'.workers|
      ensures WorkerInv(st'.workers[v], st'.jobs, st'.next) && WaitRule(st'.workers[v])
    {
      if v != w {
        ExtendsKeeps(st.workers[v], st.jobs, st.next, o.jobs, o.next);
      }
    }
  }

  /** A frame that runs a job stays, or has finished the job. */
  ghost predicate KeepsRunning(w: Worker, o: Outcome) {
    forall k :: 0 <= k < |w.stack| && w.stack[k].ret.ToJob? ==>
                  || (k < |o.worker.stack| && o.worker.stack[k].ret == w.stack[k].ret)
                  || (w.stack[k].ret.id in o.jobs && o.jobs[w.stack[k].ret.id].done.Some?)
  }

  lemma CommitAccounted(st: State, w: nat, o: Outcome)
    requires Accounted(st) && w < |st.workers| && Extends(st.jobs, o.jobs)
    requires forall id :: id in Taken(o.worker) ==> id in Taken(st.workers[w])
    requires KeepsRunning(st.workers[w], o)
    ensures Accounted(Commit(st, w, o))
  {
    hide Taken;
    var st' := Commit(st, w, o);
    forall v, id | 0 <= v < |st'.workers| && id in Taken(st'.workers[v])
      ensures (id in st'.jobs && st'.jobs[id].done.Some?) || Running(st'.workers, id)
    {
      assert id in Taken(st.workers[v]);
      if Running(st.workers, id) {
        var u, k :| 0 <= u < |st.workers| && 0 <= k < |st.workers[u].stack| && st.workers[u].stack[k].ret == ToJob(id);
        assert st'.workers[u] == if u == w then o.worker else st.workers[u];
        assert k < |st'.workers[u].stack| ==> st'.workers[u].stack[k].ret == ToJob(id)
                                              || (id in st'.jobs && st'.jobs[id].done.Some?);
      }
    }
  }

  /** The bottom frame of a worker stays what it is until it returns. */
  ghost predicate KeepsBottom(w: Worker, o: Outcome, total: seq<int>) {
    && (w.stack == [] && o.worker.stack != [] ==> !o.worker.stack[0].ret.ToRoot?)
    && (w.stack != [] && o.worker.stack != [] ==> SameId(w.stack[0], o.worker.stack[0]))
    && (w.stack != [] && o.worker.stack == [] && w.stack[0].ret.ToRoot? ==> o.result.Some?)
    && (o.result.Some? ==> Word(o.result.value) == total)
  }

  lemma CommitRoot(st: State, w: nat, o: Outcome, t: Task, a0: Expr)
    requires RootInv(st, t, a0) && w < |st.workers|
    requires KeepsBottom(st.workers[w], o, Word(a0) + Leaves(t))
    ensures RootInv(Commit(st, w, o), t, a0)
  {
    var st' := Commit(st, w, o);
    forall v | 0 <= v < |st'.workers| && st'.workers[v].stack != [] && st'.workers[v].stack[0].ret.ToRoot?
      ensures st'.workers[v].stack[0].task == t && st'.workers[v].stack[0].a0 == a0
    {
      assert st'.workers[v] == if v == w then o.worker else st.workers[v];
    }
    assert st'.workers[0] == if w == 0 then o.worker else st.workers[0];
  }

  lemma CommitKeeps(st: State, w: nat, o: Outcome, t: Task, a0: Expr)
    requires SystemInv(st, t, a0) && w < |st.workers|
    requires WorkerInv(o.worker, o.jobs, o.next) && WaitRule(o.worker)
    requires JobsInv(o.jobs, o.next) && Extends(st.jobs, o.jobs) && st.next <= o.next
    requires forall id :: id in Taken(o.worker) ==> id in Taken(st.workers[w])
    requires KeepsRunning(st.workers[w], o) && KeepsBottom(st.workers[w], o, Word(a0) + Leaves(t))
    ensures SystemInv(Commit(st, w, o), t, a0)
  {
    hide WorkersInv; hide WorkerInv; hide WaitRule; hide JobsInv; hide Extends; hide Taken; hide KeepsRunning;
    hide KeepsBottom; hide Accounted; hide RootInv;
    CommitWorkers(st, w, o);
    CommitAccounted(st, w, o);
    CommitRoot(st, w, o, t, a0);
  }

  // ---------- main-thread steps ----------

  lemma MainStepNext(w: Worker, jobs: map<nat, Job>, next: nat, s: nat)
    requires MainStep(w, jobs, next, s).Some?
    ensures next <= MainStep(w, jobs, next, s).value.next
  {
    hide LoopStep; hide Push; hide Receive; hide Promote; hide AddJobs; hide Ids; hide SetTop;
  }

  lemma RootAlone(w: Worker, jobs: map<nat, Job>, next: nat)
    requires WorkerInv(w, jobs, next) && w.stack != [] && Top(w).ret.ToRoot?
    ensures |w.stack| == 1
  {
    hide FrameInv; hide Known; hide Awaited;
    var n := |w.stack| - 1;
    assert n > 0 ==> Link(w.stack[n - 1], w.stack[n]);
  }

  /** Only the root frame, alone on its stack, delivers the result; it delivers the sequential word. */
  lemma MainBottom(w: Worker, o: Outcome, jobs: map<nat, Job>, next: nat, t: Task, a0: Expr)
    requires WorkerInv(w, jobs, next) && w.stack != [] && StackGrows(w, o)
    requires w.stack[0].ret.ToRoot? ==> w.stack[0].task == t && w.stack[0].a0 == a0
    ensures KeepsBottom(w, o, Word(a0) + Leaves(t)) && KeepsRunning(w, o)
  {
    GrowsRunning(w, o);
    hide KeepsRunning;
    if o.result.Some? {
      RootAlone(w, jobs, next);
      TopFrame(w, jobs, next);
      DoneJoined(Top(w));
    }
    hide FrameInv; hide WorkerInv; hide Word; hide Leaves; hide Owed;
    if o.worker.stack != [] {
      assert SameId(w.stack[0], o.worker.stack[0]);
    }
  }

  lemma GrowsRunning(w: Worker, o: Outcome)
    requires w.stack != [] && StackGrows(w, o)
    ensures KeepsRunning(w, o)
  {
    forall k | 0 <= k < |w.stack| && w.stack[k].ret.ToJob?
      ensures || (k < |o.worker.stack| && o.worker.stack[k].ret == w.stack[k].ret)
              || (w.stack[k].ret.id in o.jobs && o.jobs[w.stack[k].ret.id].done.Some?)
    {
      assert k < |o.worker.stack| ==> SameId(w.stack[k], o.worker.stack[k]);
    }
  }

  lemma MainKeeps(st: State, w: nat, s: nat, t: Task, a0: Expr)
    requires SystemInv(st, t, a0) && Next(st, Main(w, s)).Some?
    ensures SystemInv(Next(st, Main(w, s)).value, t, a0)
  {
    var u := st.workers[w];
    var o := MainStep(u, st.jobs, st.next, s).value;
    hide WorkerInv; hide JobsInv; hide MainStep; hide Extends; hide Taken; hide StackGrows; hide KeepsRunning;
    hide KeepsBottom;
    assert WorkerInv(u, st.jobs, st.next) && WaitRule(u);
    MainStepGrows(u, st.jobs, st.next, s);
    assert WaitRule(o.worker) && forall id :: id in Taken(o.worker) ==> id in Taken(u) by {
      hide WaitRule;
      MainStepTaken(u, st.jobs, st.next, s);
    }
    hide WaitRule;
    if Top(u).pc.Wait? {
      WaitingDequeEmpty(u, st.jobs, st.next);
    }
    MainStepKeeps(u, st.jobs, st.next, s);
    MainStepNext(u, st.jobs, st.next, s);
    MainBottom(u, o, st.jobs, st.next, t, a0);
    hide SystemInv;
    CommitKeeps(st, w, o, t, a0);
  }

  // ---------- heartbeats ----------

  lemma BeatStack(w: Worker, jobs: map<nat, Job>, next: nat)
    requires WorkerInv(w, jobs, next)
    ensures var o := Heartbeat(w, jobs, next);
            |o.worker.stack| == |w.stack| && forall k :: 0 <= k < |w.stack| ==> SameId(w.stack[k], o.worker.stack[k])
  {
    hide PromoteFront; hide WorkerInv;
    if !w.disabled {
      var tokens := Refilled(w.tokens);
      HandlerWalk(w, tokens, jobs, next);
      var p := PromoteFront(w.stack, tokens, next);
      forall k | 0 <= k < |p.stack| ensures SameId(w.stack[k], p.stack[k]) {
        assert Bumped(w.stack[k], p.stack[k]);
      }
    }
  }

  lemma BeatWorker(w: Worker, jobs: map<nat, Job>, next: nat)
    requires WorkerInv(w, jobs, next) && WaitRule(w) && JobsInv(jobs, next)
    ensures var o := Heartbeat(w, jobs, next);
            && WorkerInv(o.worker, o.jobs, o.next) && WaitRule(o.worker) && Taken(o.worker) == Taken(w)
            && JobsInv(o.jobs, o.next) && Extends(jobs, o.jobs) && next <= o.next && o.result.None?
  {
    hide WorkerInv; hide WaitRule; hide Taken; hide JobsInv; hide PromoteFront; hide AddJobs; hide Ids;
    if !w.disabled {
      hide Extends;
      var tokens := Refilled(w.tokens);
      HandlerKeeps(w, tokens, jobs, next);
      HandlerWaits(w, tokens, jobs, next);
      SpawnExtends(jobs, next, PromoteFront(w.stack, tokens, next).spawned);
    }
  }

  lemma BeatBottom(w: Worker, jobs: map<nat, Job>, next: nat, total: seq<int>)
    requires WorkerInv(w, jobs, next)
    ensures KeepsBottom(w, Heartbeat(w, jobs, next), total) && KeepsRunning(w, Heartbeat(w, jobs, next))
  {
    BeatStack(w, jobs, next);
    hide WorkerInv;
    assert Heartbeat(w, jobs, next).result.None?;
    hide Heartbeat;
    assert w.stack != [] ==> SameId(w.stack[0], Heartbeat(w, jobs, next).worker.stack[0]);
  }

  /** A heartbeat commits the outcome of one handler call. */
  lemma BeatCommits(st: State, w: nat)
    requires w < |st.workers|
    ensures Next(st, Beat(w)).Some?
    ensures var st' := Next(st, Beat(w)).value;
            var c := Commit(st, w, Heartbeat(st.workers[w], st.jobs, st.next));
            st'.workers == c.workers && st'.jobs == c.jobs && st'.next == c.next && st'.result == c.result
  {
    hide Heartbeat;
  }

  lemma BeatKeeps(st: State, w: nat, t: Task, a0: Expr)
    requires SystemInv(st, t, a0) && w < |st.workers|
    ensures SystemInv(Next(st, Beat(w)).value, t, a0)
  {
    var u := st.workers[w];
    var o := Heartbeat(u, st.jobs, st.next);
    hide WorkerInv; hide JobsInv; hide Extends; hide Taken; hide WaitRule; hide Heartbeat; hide KeepsBottom;
    hide KeepsRunning;
    assert WorkerInv(u, st.jobs, st.next) && WaitRule(u);
    BeatWorker(u, st.jobs, st.next);
    BeatBottom(u, st.jobs, st.next, Word(a0) + Leaves(t));
    CommitKeeps(st, w, o, t, a0);
    SystemFrame(Commit(st, w, o), Next(st, Beat(w)).value, t, a0);
  }

  /** The counters are not part of the invariant. */
  lemma SystemFrame(st: State, st': State, t: Task, a0: Expr)
    requires SystemInv(st, t, a0)
    requires st'.workers == st.workers && st'.jobs == st.jobs && st'.next == st.next && st'.result == st.result
    ensures SystemInv(st', t, a0)
  {
    hide WorkerInv; hide JobsInv; hide Taken; hide WaitRule; hide Running;
  }

  // ---------- steals ----------

  /** The thief: idle or waiting, so all its live slots are promoted and it may take over tokens. */
  lemma ThiefKeeps(w: Worker, id: nat, jobs: map<nat, Job>, next: nat)
    requires WorkerInv(w, jobs, next) && WaitRule(w) && JobsInv(jobs, next) && Hungry(w) && id in jobs
    ensures var u := StartJob(w, id, jobs[id], next);
            WorkerInv(u, jobs, next + 1) && WaitRule(u) && Taken(u) == Taken(w)
  {
    var n := NewFrame(jobs[id].task, ToJob(id), next, Unit);
    var u := StartJob(w, id, jobs[id], next);
    JobFrame(id, jobs, next);
    HungryFacts(w, jobs, next);
    hide NewFrame; hide WorkerInv; hide WaitRule; hide Taken; hide Unjoined; hide Pending; hide FrameInv;
    hide Known; hide JobsInv;
    hide Awaited; hide Hungry;
    PushKeeps(w, n, u, jobs, next);
    PushWaits(w, n);
    TakenStack(w.(stack := u.stack), u);
  }

  /** The frame in which a job starts. */
  lemma JobFrame(id: nat, jobs: map<nat, Job>, next: nat)
    requires JobsInv(jobs, next) && id in jobs
    ensures var n := NewFrame(jobs[id].task, ToJob(id), next, Unit);
            && FrameInv(n) && Known(n, jobs) && Unjoined(n) == [] && !n.promoted && n.birth == next
            && n.ret == ToJob(id) && !Live(n.pc) && !Eager(n.pc) && !n.pc.Wait?
  {
    NewFrameReady(jobs[id].task, ToJob(id), next);
    NewFrameFresh(jobs[id].task, ToJob(id), next, Unit, jobs);
    hide FrameInv; hide Unjoined;
  }

  /** A hungry worker is out of its eager window, and all its live slots are promoted. */
  lemma HungryFacts(w: Worker, jobs: map<nat, Job>, next: nat)
    requires WorkerInv(w, jobs, next) && Hungry(w)
    ensures !w.disabled && IsSuffix(w.deque, Pending(w.stack))
    ensures w.stack != [] ==> Top(w).pc.Wait? && Top(w).birth < next
    ensures forall f :: f in w.stack && Live(f.pc) ==> f.promoted
  {
    SuffixRule(w, jobs, next);
    if w.stack != [] {
      TopFrame(w, jobs, next);
      WaitingBelow(w, |w.stack| - 1, jobs, next);
      assert w.stack[..|w.stack| - 1 + 1] == w.stack;
    }
    hide Pending; hide FrameInv; hide Known; hide StackRule; hide TokenRule;
  }

  lemma TakenStack(w: Worker, u: Worker)
    requires WaitRule(w) && u.stack == w.stack && u.deque == w.deque
    ensures WaitRule(u) && Taken(u) == Taken(w)
  {
    hide Pending;
  }

  /** The victim loses its oldest queued job, which joins the stolen ones. */
  lemma VictimKeeps(v: Worker, jobs: map<nat, Job>, next: nat)
    requires WorkerInv(v, jobs, next) && WaitRule(v) && v.deque != []
    ensures var u := v.(deque := v.deque[1..]);
            WorkerInv(u, jobs, next) && WaitRule(u) && Taken(u) == Taken(v) + [v.deque[0]]
  {
    hide Pending; hide StackRule;
    var u := v.(deque := v.deque[1..]);
    var p := Pending(v.stack);
    assert p[|p| - |v.deque|] == v.deque[0];
    assert Taken(u) == Taken(v) + [v.deque[0]];
  }

  lemma VictimCommit(st: State, v: nat, t: Task, a0: Expr)
    requires SystemInv(st, t, a0) && v < |st.workers| && st.workers[v].deque != []
    requires Running(st.workers, st.workers[v].deque[0])
    ensures SystemInv(st.(workers := st.workers[v := st.workers[v].(deque := st.workers[v].deque[1..])]), t, a0)
  {
    hide WorkerInv; hide WaitRule; hide JobsInv; hide Taken; hide Running; hide Accounted;
    var u := st.workers[v].(deque := st.workers[v].deque[1..]);
    VictimKeeps(st.workers[v], st.jobs, st.next);
    VictimAccounted(st, v, u);
    assert forall k :: 0 <= k < |st.workers| ==> st.workers[v := u][k].stack == st.workers[k].stack;
  }

  /** What has been stolen from a worker keeps running elsewhere. */
  lemma VictimAccounted(st: State, v: nat, u: Worker)
    requires Accounted(st) && v < |st.workers| && st.workers[v].deque != [] && u.stack == st.workers[v].stack
    requires Running(st.workers, st.workers[v].deque[0]) && Taken(u) == Taken(st.workers[v]) + [st.workers[v].deque[0]]
    ensures Accounted(st.(workers := st.workers[v := u]))
  {
    hide Taken;
    var st' := st.(workers := st.workers[v := u]);
    forall id | Running(st.workers, id) ensures Running(st'.workers, id) {
      var w, k :| 0 <= w < |st.workers| && 0 <= k < |st.workers[w].stack| && st.workers[w].stack[k].ret == ToJob(id);
      assert st'.workers[w].stack[k].ret == ToJob(id);
    }
    hide Running;
    forall w, id | 0 <= w < |st'.workers| && id in Taken(st'.workers[w])
      ensures (id in st'.jobs && st'.jobs[id].done.Some?) || Running(st'.workers, id)
    {
      assert w != v ==> st'.workers[w] == st.workers[w];
    }
  }

  lemma StealKeeps(st: State, w: nat, v: nat, t: Task, a0: Expr)
    requires SystemInv(st, t, a0) && Next(st, Steal(w, v)).Some?
    ensures SystemInv(Next(st, Steal(w, v)).value, t, a0)
  {
    hide WorkerInv; hide WaitRule; hide JobsInv; hide Taken; hide Hungry; hide KeepsBottom; hide KeepsRunning;
    var id := st.workers[v].deque[0];
    var u := StartJob(st.workers[w], id, st.jobs[id], st.next);
    assert WorkerInv(st.workers[w], st.jobs, st.next) && WaitRule(st.workers[w]);
    ThiefKeeps(st.workers[w], id, st.jobs, st.next);
    var o := Outcome(u, st.jobs, st.next + 1, None, 0);
    ThiefBottom(st.workers[w], id, st.jobs, st.next, Word(a0) + Leaves(t));
    JobsLater(st.jobs, st.next);
    hide SystemInv; hide StartJob;
    CommitKeeps(st, w, o, t, a0);
    var mid := Commit(st, w, o);
    ThiefRuns(mid, w, id, st.workers[w], st.jobs, st.next);
    VictimCommit(mid, v, t, a0);
    var end := mid.(workers := mid.workers[v := mid.workers[v].(deque := mid.workers[v].deque[1..])]);
    SystemFrame(end, Next(st, Steal(w, v)).value, t, a0);
  }

  lemma JobsLater(jobs: map<nat, Job>, next: nat)
    requires JobsInv(jobs, next)
    ensures JobsInv(jobs, next + 1) && Extends(jobs, jobs)
  {
  }

  lemma ThiefRuns(st: State, w: nat, id: nat, thief: Worker, jobs: map<nat, Job>, next: nat)
    requires w < |st.workers| && id in jobs && st.workers[w] == StartJob(thief, id, jobs[id], next)
    ensures Running(st.workers, id)
  {
    assert st.workers[w].stack[|thief.stack|].ret == ToJob(id);
  }

  lemma ThiefBottom(w: Worker, id: nat, jobs: map<nat, Job>, next: nat, total: seq<int>)
    requires id in jobs
    ensures var o := Outcome(StartJob(w, id, jobs[id], next), jobs, next + 1, None, 0);
            KeepsBottom(w, o, total) && KeepsRunning(w, o)
  {
  }

  // ---------- every state of every run ----------

  lemma InitKeeps(t: Task, a0: Expr, n: nat)
    ensures SystemInv(Init(t, a0, n), t, a0)
  {
    var st := Init(t, a0, n);
    FirstWorker(t, a0);
    IdleWorker();
    hide WorkerInv; hide WaitRule; hide NewFrame; hide Taken;
    forall w | 0 <= w < |st.workers|
      ensures WorkerInv(st.workers[w], st.jobs, st.next) && WaitRule(st.workers[w]) && Taken(st.workers[w]) == []
    {
    }
    NewFrameFresh(t, ToRoot, 0, a0, map[]);
  }

  lemma FirstWorker(t: Task, a0: Expr)
    ensures var w := Worker([NewFrame(t, ToRoot, 0, a0)], 0, false, []);
            WorkerInv(w, map[], 1) && WaitRule(w) && Taken(w) == []
  {
    hide FrameInv; hide NewFrame; hide Unjoined; hide Live; hide Eager; hide Pending; hide Known; hide Link;
    var f := NewFrame(t, ToRoot, 0, a0);
    NewFrameInv(t, ToRoot, 0, a0);
    NewFrameFresh(t, ToRoot, 0, a0, map[]);
    NewFramePc(t, a0);
    NothingPendingYet(f);
    assert StackRule([f], map[], 1);
  }

  lemma NewFramePc(t: Task, a0: Expr)
    ensures var f := NewFrame(t, ToRoot, 0, a0);
            !f.pc.Wait? && !Live(f.pc) && !Eager(f.pc) && f.ret == ToRoot && f.birth == 0
  {
  }

  lemma NothingPendingYet(f: Frame)
    requires Unjoined(f) == []
    ensures Pending([f]) == []
  {
    hide Unjoined;
    PendingTop([], f);
    assert [] + [f] == [f];
  }

  lemma IdleWorker()
    ensures var w := Worker([], 0, false, []);
            WorkerInv(w, map[], 1) && WaitRule(w) && Taken(w) == []
  {
  }

  lemma NextKeeps(st: State, step: Step, t: Task, a0: Expr)
    requires SystemInv(st, t, a0) && Next(st, step).Some?
    ensures SystemInv(Next(st, step).value, t, a0)
  {
    hide SystemInv;
    match step
    case Main(w, s) => MainKeeps(st, w, s, t, a0);
    case Beat(w) => BeatKeeps(st, w, t, a0);
    case Steal(w, v) => StealKeeps(st, w, v, t, a0);
  }

  /** The invariant holds in every state of every run, whatever the schedule. */
  lemma {:induction false} RunKeeps(t: Task, a0: Expr, n: nat, run: seq<State>, steps: seq<Step>, k: nat)
    requires IsRun(t, a0, n, run, steps) && k < |run|
    ensures SystemInv(run[k], t, a0)
    decreases k
  {
    hide SystemInv; hide Next; hide Init;
    if k == 0 {
      InitKeeps(t, a0, n);
    } else {
      RunKeeps(t, a0, n, run, steps, k - 1);
      assert Next(run[k - 1], steps[k - 1]) == Some(run[k - 1 + 1]);
      NextKeeps(run[k - 1], steps[k - 1], t, a0);
    }
  }
}
