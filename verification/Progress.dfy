/** No reachable state is stuck: until the result is there, some worker can take a step. */
module Progress {
  import opened Tasks
  import opened Machine
  import opened StepCases
  import opened Wrappers
  import opened FrameInvariant
  import opened StackInvariant
  import opened WorkerInvariant
  import opened StepInvariant
  import opened Stolen
  import opened SystemInvariant

  /** Only frames below the top are suspended in a call. */
  ghost predicate TopRule(w: Worker) {
    w.stack != [] ==> !Awaiting(Top(w).pc)
  }

  lemma ReceiveMoves(f: Frame, v: Expr)
    requires Awaiting(f.pc) || f.pc.Wait?
    ensures !Awaiting(Receive(f, v).pc)
  {
  }

  lemma LoopStepMoves(f: Frame, s: nat)
    requires LoopStep(f, s).Some?
    ensures !Awaiting(LoopStep(f, s).value.pc)
  {
  }

  lemma DoneTopRule(w: Worker, jobs: map<nat, Job>, next: nat, s: nat)
    requires WorkerInv(w, jobs, next) && MainStep(w, jobs, next, s).Some? && Top(w).pc.Done?
    ensures TopRule(MainStep(w, jobs, next, s).value.worker)
  {
    hide MainStep; hide Receive; hide WorkerInv;
    Kinds(w, jobs, next, s);
    DoneIs(w, jobs, next, s);
    if Top(w).ret.ToCaller? {
      CallerAwaits(w, jobs, next);
      ReceiveMoves(w.stack[|w.stack| - 2], Top(w).a);
    } else if |w.stack| > 1 {
      BottomOfJob(w, jobs, next);
    }
  }

  lemma CallingTopRule(w: Worker, jobs: map<nat, Job>, next: nat, s: nat)
    requires MainStep(w, jobs, next, s).Some? && LoopStep(Top(w), s).None? && MayCall(Top(w).pc)
    ensures TopRule(MainStep(w, jobs, next, s).value.worker)
  {
    CallIs(w, jobs, next, s);
    hide LoopStep; hide MainStep; hide Callee;
  }

  lemma StepTopRule(w: Worker, jobs: map<nat, Job>, next: nat, s: nat)
    requires MainStep(w, jobs, next, s).Some? && !Top(w).pc.Done?
    ensures TopRule(MainStep(w, jobs, next, s).value.worker)
  {
    hide MainStep; hide LoopStep; hide Receive; hide Promote; hide AddJobs; hide Ids;
    Kinds(w, jobs, next, s);
    var f := Top(w);
    if LoopStep(f, s).Some? {
      LoopIs(w, jobs, next, s);
      LoopStepMoves(f, s);
    } else if MayCall(f.pc) {
      CallingTopRule(w, jobs, next, s);
    } else if f.pc.Wait? {
      WaitIs(w, jobs, next, s);
      ReceiveMoves(f, jobs[Last(f).id].done.value);
    } else if f.pc.EagerAct? {
      EagerActIs(w, jobs, next, s);
    } else if Moves(f.pc) {
      MoveIs(w, jobs, next, s);
    } else if f.pc.Join? {
      JoinIs(w, jobs, next, s);
    } else if f.pc.Popped? {
      PoppedIs(w, jobs, next, s);
    } else {
      WriteBackIs(w, jobs, next, s);
    }
  }

  /** A step is possible wherever the worker is not waiting for an unfinished job. */
  lemma LoopCanStep(f: Frame)
    requires FrameInv(f) && f.task.Loop?
    requires f.pc.Head? || f.pc.Test? || f.pc.Advance? || f.pc.Publish? || f.pc.Body?
    ensures LoopStep(f, 1).Some? || (f.pc.Body? && f.i < |f.task.items| && !f.task.items[f.i].Leaf?)
  {
  }

  /** When a micro-step is enabled, from the shape of the top frame. */
  lemma Enabled(w: Worker, jobs: map<nat, Job>, next: nat)
    requires w.stack != [] && !Awaiting(Top(w).pc)
    requires var f := Top(w);
             && ((f.pc.Head? && !f.task.Fork?) || f.pc.Test? || f.pc.Advance? || f.pc.Publish? ==> LoopStep(f, 1).Some?)
             && (f.pc.Body? ==> LoopStep(f, 1).Some?
                                || (f.task.Loop? && f.i < |f.task.items| && !f.task.items[f.i].Leaf?))
             && (f.pc.Gap? || f.pc.Right? ==> f.task.Fork?)
             && (Syncing(f.pc) ==> f.pend != [] && Last(f).id in jobs)
             && (f.pc.Wait? ==> jobs[Last(f).id].done.Some?)
             && (f.pc.Done? && f.ret.ToCaller? ==> Below(w) != [])
             && (f.pc.Done? && f.ret.ToJob? ==> f.ret.id in jobs)
    ensures MainStep(w, jobs, next, 1).Some?
  {
    hide LoopStep; hide EagerPromote; hide Push; hide Receive; hide SetTop;
  }

  lemma CanStep(w: Worker, jobs: map<nat, Job>, next: nat)
    requires WorkerInv(w, jobs, next) && w.stack != [] && TopRule(w)
    requires Top(w).pc.Wait? ==> Top(w).pend != [] && Last(Top(w)).id in jobs && jobs[Last(Top(w)).id].done.Some?
    ensures MainStep(w, jobs, next, 1).Some?
  {
    var f := Top(w);
    TopFrame(w, jobs, next);
    if f.ret.ToCaller? {
      CallerAwaits(w, jobs, next);
    }
    hide WorkerInv; hide LoopStep; hide MainStep;
    if Syncing(f.pc) {
      JoiningPromoted(f);
      assert Last(f) in f.pend;
    }
    FrameShape(f);
    if f.task.Loop? && (f.pc.Head? || f.pc.Test? || f.pc.Advance? || f.pc.Publish? || f.pc.Body?) {
      LoopCanStep(f);
    }
    hide FrameInv;
    Enabled(w, jobs, next);
  }

  /** Which micro-steps belong to which kind of frame. */
  lemma FrameShape(f: Frame)
    requires FrameInv(f)
    ensures f.task.Leaf? ==> f.pc.Done?
    ensures f.pc.Head? && !f.task.Fork? ==> f.task.Loop?
    ensures f.pc.Test? || f.pc.Body? || f.pc.Advance? || f.pc.Publish? ==> f.task.Loop?
    ensures f.pc.Gap? || f.pc.Right? ==> f.task.Fork?
  {
  }

  /** A worker waits for a job that was created after the waiting frame. */
  lemma WaitedJob(st: State, w: nat, t: Task, a0: Expr)
    requires SystemInv(st, t, a0) && w < |st.workers| && st.workers[w].stack != []
    requires Top(st.workers[w]).pc.Wait?
    ensures var f := Top(st.workers[w]);
            && f.pend != [] && Last(f).id in st.jobs && f.birth < Last(f).id
            && (st.jobs[Last(f).id].done.Some? || Running(st.workers, Last(f).id))
  {
    var u := st.workers[w];
    var f := Top(u);
    assert WorkerInv(u, st.jobs, st.next) && WaitRule(u);
    TopFrame(u, st.jobs, st.next);
    JoiningPromoted(f);
    assert Last(f) in f.pend;
    WaitingDequeEmpty(u, st.jobs, st.next);
    hide WorkerInv; hide WaitRule; hide FrameInv; hide Running; hide JobsInv; hide Taken;
    WaitedIsTaken(u);
  }

  /** A job to be joined that is not in the owner's deque has been stolen. */
  lemma WaitedIsTaken(w: Worker)
    requires w.stack != [] && (Top(w).pc.Wait? || Top(w).pc.Join?) && Top(w).pend != [] && w.deque == []
    ensures Last(Top(w)).id in Taken(w)
  {
    hide Pending;
    var f := Top(w);
    assert w.stack == Below(w) + [f];
    PendingTop(Below(w), f);
    var p := Pending(w.stack);
    assert p[|p| - 1] == Unjoined(f)[|f.pend| - 1] == Last(f).id;
    assert Taken(w) == p;
  }

  lemma {:induction false} BirthsIncrease(stack: seq<Frame>, j: nat, k: nat)
    requires Links(stack) && j <= k < |stack|
    ensures stack[j].birth <= stack[k].birth
    decreases k - j
  {
    hide Awaited;
    if j < k {
      BirthsIncrease(stack, j, k - 1);
      assert Link(stack[k - 1], stack[k]);
    }
  }

  /** The frame that runs a job is younger than the job. */
  lemma RunnerIsYounger(st: State, id: nat, t: Task, a0: Expr) returns (v: nat)
    requires SystemInv(st, t, a0) && Running(st.workers, id)
    ensures v < |st.workers| && st.workers[v].stack != [] && id < Top(st.workers[v]).birth
  {
    hide FrameInv; hide WaitRule; hide JobsInv; hide Accounted; hide RootInv; hide Pending;
    var u, k :| 0 <= u < |st.workers| && 0 <= k < |st.workers[u].stack| && st.workers[u].stack[k].ret == ToJob(id);
    v := u;
    var w := st.workers[u];
    assert WorkerInv(w, st.jobs, st.next);
    assert w.stack[k] in w.stack;
    assert Known(w.stack[k], st.jobs);
    BirthsIncrease(w.stack, k, |w.stack| - 1);
  }

  /** Among the workers with a stack, one has the youngest top frame. */
  lemma {:induction false} Youngest(workers: seq<Worker>) returns (w: nat)
    requires exists v :: 0 <= v < |workers| && workers[v].stack != []
    ensures w < |workers| && workers[w].stack != []
    ensures forall v :: 0 <= v < |workers| && workers[v].stack != [] ==> Top(workers[v]).birth <= Top(workers[w]).birth
    decreases |workers|
  {
    var n := |workers| - 1;
    if exists v :: 0 <= v < n && workers[..n][v].stack != [] {
      w := Youngest(workers[..n]);
      forall v | 0 <= v < n && workers[v].stack != []
        ensures Top(workers[v]).birth <= Top(workers[w]).birth
      {
        assert workers[..n][v] == workers[v];
      }
      if workers[n].stack != [] && Top(workers[w]).birth <= Top(workers[n]).birth {
        w := n;
      }
    } else {
      forall v | 0 <= v < n ensures workers[v].stack == [] {
        assert workers[..n][v] == workers[v];
      }
      w := n;
    }
  }

  /**
   Deadlock freedom: as long as there is no result, some worker has an enabled
   main-thread step.  The worker whose top frame is the youngest is never
   blocked: a job it could wait for would be running in a still younger frame.
   */
  lemma NeverStuck(st: State, t: Task, a0: Expr)
    requires SystemInv(st, t, a0) && st.result.None?
    requires forall v :: 0 <= v < |st.workers| ==> TopRule(st.workers[v])
    ensures exists w :: 0 <= w < |st.workers| && Next(st, Main(w, 1)).Some?
  {
    assert st.workers[0].stack != [];
    hide WaitRule; hide JobsInv; hide Accounted; hide RootInv; hide WorkerInv; hide Running;
    var w := Youngest(st.workers);
    var u := st.workers[w];
    assert WorkerInv(u, st.jobs, st.next);
    if Top(u).pc.Wait? {
      WaitedJob(st, w, t, a0);
      if st.jobs[Last(Top(u)).id].done.None? {
        var v := RunnerIsYounger(st, Last(Top(u)).id, t, a0);
        assert false;
      }
    }
    CanStep(u, st.jobs, st.next);
    hide MainStep; hide TopRule;
    assert Next(st, Main(w, 1)).Some?;
  }

  // ---------- TopRule holds throughout a run ----------

  lemma NextTopRule(st: State, step: Step, t: Task, a0: Expr)
    requires SystemInv(st, t, a0) && Next(st, step).Some?
    requires forall v :: 0 <= v < |st.workers| ==> TopRule(st.workers[v])
    ensures var st' := Next(st, step).value; forall v :: 0 <= v < |st'.workers| ==> TopRule(st'.workers[v])
  {
    hide WaitRule; hide JobsInv; hide Accounted; hide RootInv; hide WorkerInv;
    match step {
      case Main(w, s) =>
        var u := st.workers[w];
        assert WorkerInv(u, st.jobs, st.next);
        assert TopRule(MainStep(u, st.jobs, st.next, s).value.worker) by {
          if Top(u).pc.Done? {
            DoneTopRule(u, st.jobs, st.next, s);
          } else {
            StepTopRule(u, st.jobs, st.next, s);
          }
        }
        hide MainStep; hide TopRule;
      case Beat(w) =>
        var u := st.workers[w];
        assert WorkerInv(u, st.jobs, st.next);
        BeatTop(u, st.jobs, st.next);
        hide Heartbeat; hide TopRule;
      case Steal(w, v) =>
        var id := st.workers[v].deque[0];
        assert !Awaiting(NewFrame(st.jobs[id].task, ToJob(id), st.next, Unit).pc);
        hide NewFrame;
    }
  }

  lemma BeatTop(w: Worker, jobs: map<nat, Job>, next: nat)
    requires WorkerInv(w, jobs, next) && TopRule(w)
    ensures TopRule(Heartbeat(w, jobs, next).worker)
  {
    hide PromoteFront; hide WorkerInv; hide AddJobs; hide Ids;
    if !w.disabled {
      WalkTop(w, Refilled(w.tokens), jobs, next);
    }
  }

  lemma WalkTop(w: Worker, t: nat, jobs: map<nat, Job>, next: nat)
    requires WorkerInv(w, jobs, next) && TopRule(w)
    ensures TopRule(w.(stack := PromoteFront(w.stack, t, next).stack))
  {
    hide PromoteFront; hide WorkerInv; hide Pending; hide Live;
    HandlerWalk(w, t, jobs, next);
    var p := PromoteFront(w.stack, t, next);
    assert w.stack != [] ==> Bumped(w.stack[|w.stack| - 1], p.stack[|w.stack| - 1]);
  }

  /** A run never gets stuck before it has its result, whatever has been stolen or promoted. */
  lemma {:induction false} RunNeverStuck(t: Task, a0: Expr, n: nat, run: seq<State>, steps: seq<Step>, k: nat)
    requires IsRun(t, a0, n, run, steps) && k < |run|
    ensures forall v :: 0 <= v < |run[k].workers| ==> TopRule(run[k].workers[v])
    ensures run[k].result.None? ==> exists w :: 0 <= w < |run[k].workers| && Next(run[k], Main(w, 1)).Some?
    decreases k
  {
    hide SystemInv; hide Next; hide TopRule; hide Init;
    if k == 0 {
      InitTopRule(t, a0, n);
    } else {
      RunKeeps(t, a0, n, run, steps, k - 1);
      RunNeverStuck(t, a0, n, run, steps, k - 1);
      assert Next(run[k - 1], steps[k - 1]) == Some(run[k - 1 + 1]);
      NextTopRule(run[k - 1], steps[k - 1], t, a0);
    }
    RunKeeps(t, a0, n, run, steps, k);
    if run[k].result.None? {
      NeverStuck(run[k], t, a0);
    }
  }

  lemma InitTopRule(t: Task, a0: Expr, n: nat)
    ensures forall v :: 0 <= v < |Init(t, a0, n).workers| ==> TopRule(Init(t, a0, n).workers[v])
  {
    assert !Awaiting(NewFrame(t, ToRoot, 0, a0).pc);
    hide NewFrame;
  }
}
