/**
 Job objects live in the frames that create them.  While a job is queued or
 running, the frame that created it is alive and has not joined it; so the
 computation is over when its result is there, and by then every iteration has
 been executed exactly once.
 */
module JobOwners {
  import opened Sums
  import opened Tasks
  import opened Machine
  import opened StepCases
  import opened Wrappers
  import opened FrameInvariant
  import opened StackInvariant
  import opened WorkerInvariant
  import opened StepInvariant
  import opened Stolen
  import opened SystemInvariant
  import opened Progress
  import opened Executions
  import opened JobPlaces

  ghost predicate Pends(f: Frame, id: nat) {
    exists p :: p in f.pend && p.id == id
  }

  /** Some live frame has created job `id` and not yet joined it. */
  ghost predicate Pended(workers: seq<Worker>, id: nat) {
    exists w, k :: 0 <= w < |workers| && 0 <= k < |workers[w].stack| && Pends(workers[w].stack[k], id)
  }

  ghost predicate OwnersLive(st: State) {
    forall w, k :: 0 <= w < |st.workers| && 0 <= k < |st.workers[w].stack| && st.workers[w].stack[k].ret.ToJob? ==>
                     Pended(st.workers, st.workers[w].stack[k].ret.id)
  }

  /** The root call is the only one that returns to the root, and the result ends it. */
  ghost predicate RootOnce(st: State) {
    forall w, k :: 0 <= w < |st.workers| && 0 <= k < |st.workers[w].stack| && st.workers[w].stack[k].ret.ToRoot? ==>
                     w == 0 && k == 0 && st.result.None?
  }

  /** A job that the top frame drops has been finished, or the frame had it in hand. */
  ghost predicate Dropped(f: Frame, jobs: map<nat, Job>, id: nat) {
    Finished(jobs, id) == 1 || (InHand(f.pc) && f.pend != [] && Last(f).id == id)
  }

  /** Every unjoined job stays with its frame, but for one that is dropped. */
  ghost predicate KeepsPends(w: Worker, jobs: map<nat, Job>, o: Outcome) {
    forall k, id: nat :: 0 <= k < |w.stack| && Pends(w.stack[k], id) ==>
                           || (k < |o.worker.stack| && Pends(o.worker.stack[k], id))
                           || Dropped(w.stack[k], jobs, id)
  }

  /** New frames of a step are calls. */
  ghost predicate OnlyCalls(w: Worker, o: Outcome) {
    forall k :: 0 <= k < |o.worker.stack| && !o.worker.stack[k].ret.ToCaller? ==>
                  k < |w.stack| && w.stack[k].ret == o.worker.stack[k].ret
  }

  lemma TopPends(w: Worker, g: Frame, above: seq<Frame>, jobs: map<nat, Job>, o: Outcome)
    requires w.stack != [] && o.worker.stack == Below(w) + [g] + above
    requires forall id: nat :: Pends(Top(w), id) ==> Pends(g, id) || Dropped(Top(w), jobs, id)
    requires g.ret == Top(w).ret && forall f :: f in above ==> f.ret.ToCaller?
    ensures KeepsPends(w, jobs, o) && OnlyCalls(w, o)
  {
    hide Pends; hide Dropped;
    assert w.stack == Below(w) + [Top(w)];
    forall k | |w.stack| <= k < |o.worker.stack| ensures o.worker.stack[k].ret.ToCaller? {
      assert o.worker.stack[k] == above[k - |w.stack|];
    }
  }

  lemma ReceivePends(f: Frame, v: Expr, jobs: map<nat, Job>)
    requires Awaiting(f.pc) || f.pc.Wait?
    requires f.pc.Wait? ==> f.pend != [] && Last(f).id in jobs && jobs[Last(f).id].done.Some?
    ensures Receive(f, v).ret == f.ret
    ensures forall id: nat :: Pends(f, id) ==> Pends(Receive(f, v), id) || Dropped(f, jobs, id)
  {
    forall id: nat | Pends(f, id) ensures Pends(Receive(f, v), id) || Dropped(f, jobs, id) {
      var p :| p in f.pend && p.id == id;
      if f.pend != [] && p != Last(f) {
        assert p in DropLast(f);
      }
    }
  }

  lemma DonePends(w: Worker, jobs: map<nat, Job>, next: nat, s: nat)
    requires WorkerInv(w, jobs, next) && MainStep(w, jobs, next, s).Some? && Top(w).pc.Done?
    ensures KeepsPends(w, jobs, MainStep(w, jobs, next, s).value) && OnlyCalls(w, MainStep(w, jobs, next, s).value)
  {
    hide MainStep; hide Receive; hide WorkerInv; hide KeepsPends; hide OnlyCalls;
    Kinds(w, jobs, next, s);
    DoneIs(w, jobs, next, s);
    var o := MainStep(w, jobs, next, s).value;
    NothingLeft(w, jobs, next);
    if Top(w).ret.ToCaller? {
      CallerAwaits(w, jobs, next);
      var u := w.(stack := Below(w));
      ReceivePends(Top(u), Top(w).a, jobs);
      ReturnedPends(w, Receive(Top(u), Top(w).a), jobs, o);
    } else {
      PoppedPends(w, jobs, o);
    }
  }

  lemma NothingLeft(w: Worker, jobs: map<nat, Job>, next: nat)
    requires WorkerInv(w, jobs, next) && w.stack != [] && Top(w).pc.Done?
    ensures forall id: nat :: !Pends(Top(w), id)
  {
    TopFrame(w, jobs, next);
    DoneJoined(Top(w));
    hide WorkerInv; hide FrameInv;
    NothingPends(Top(w));
  }

  lemma PoppedPends(w: Worker, jobs: map<nat, Job>, o: Outcome)
    requires w.stack != [] && o.worker.stack == Below(w) && forall id: nat :: !Pends(Top(w), id)
    ensures KeepsPends(w, jobs, o) && OnlyCalls(w, o)
  {
    hide Pends; hide Dropped;
    forall k, id: nat | 0 <= k < |w.stack| && Pends(w.stack[k], id)
      ensures k < |o.worker.stack| && Pends(o.worker.stack[k], id)
    {
      assert k == |w.stack| - 1 ==> w.stack[k] == Top(w);
    }
  }

  lemma ReturnedPends(w: Worker, g: Frame, jobs: map<nat, Job>, o: Outcome)
    requires |w.stack| > 1 && o.worker.stack == w.stack[..|w.stack| - 2] + [g] && forall id: nat :: !Pends(Top(w), id)
    requires var b := w.stack[|w.stack| - 2];
             g.ret == b.ret && forall id: nat :: Pends(b, id) ==> Pends(g, id) || Dropped(b, jobs, id)
    ensures KeepsPends(w, jobs, o) && OnlyCalls(w, o)
  {
    hide Pends; hide Dropped;
    forall k, id: nat | 0 <= k < |w.stack| && Pends(w.stack[k], id)
      ensures (k < |o.worker.stack| && Pends(o.worker.stack[k], id)) || Dropped(w.stack[k], jobs, id)
    {
      assert k == |w.stack| - 1 ==> w.stack[k] == Top(w);
    }
  }

  lemma NothingPends(f: Frame)
    requires f.pend == []
    ensures forall id: nat :: !Pends(f, id)
  {
  }

  lemma EagerPends(w: Worker, jobs: map<nat, Job>, next: nat)
    requires WorkerInv(w, jobs, next) && w.stack != [] && Top(w).pc.EagerAct?
    ensures KeepsPends(w, jobs, EagerPromote(w, jobs, next)) && OnlyCalls(w, EagerPromote(w, jobs, next))
  {
    hide Promote; hide AddJobs; hide Ids; hide KeepsPends; hide OnlyCalls; hide Dropped;
    var f := Top(w);
    TopFrame(w, jobs, next);
    hide WorkerInv;
    var o := EagerPromote(w, jobs, next);
    if w.tokens != 0 && !f.promoted {
      assert f.pend == [];
      NothingPends(f);
      PromoteSameId(f, w.tokens, next);
      hide FrameInv; hide Pends;
      TopPends(w, Promote(f, w.tokens, next).frame.(pc := EagerOn), [], jobs, o);
    } else {
      hide FrameInv;
      TopPends(w, f.(pc := EagerOn), [], jobs, o);
    }
  }

  lemma LoopStepPends(f: Frame, s: nat)
    requires LoopStep(f, s).Some?
    ensures LoopStep(f, s).value.ret == f.ret && LoopStep(f, s).value.pend == f.pend
  {
  }

  lemma MainPends(w: Worker, jobs: map<nat, Job>, next: nat, s: nat)
    requires WorkerInv(w, jobs, next) && MainStep(w, jobs, next, s).Some?
    ensures KeepsPends(w, jobs, MainStep(w, jobs, next, s).value) && OnlyCalls(w, MainStep(w, jobs, next, s).value)
  {
    hide WorkerInv; hide MainStep; hide LoopStep; hide EagerPromote; hide KeepsPends; hide OnlyCalls;
    hide Dropped; hide Receive;
    Kinds(w, jobs, next, s);
    var f := Top(w);
    var o := MainStep(w, jobs, next, s).value;
    if f.pc.EagerAct? {
      EagerActIs(w, jobs, next, s);
      EagerPends(w, jobs, next);
    } else if f.pc.Done? {
      DonePends(w, jobs, next, s);
    } else if LoopStep(f, s).Some? {
      LoopIs(w, jobs, next, s);
      LoopStepPends(f, s);
      TopPends(w, LoopStep(f, s).value, [], jobs, o);
    } else if MayCall(f.pc) {
      CallIs(w, jobs, next, s);
      CalledPends(w, jobs, next, o);
    } else if Moves(f.pc) {
      MoveIs(w, jobs, next, s);
      hide MovedPc;
      TopPends(w, f.(pc := MovedPc(w)), [], jobs, o);
    } else {
      SyncPends(w, jobs, next, s);
    }
  }

  lemma CalledPends(w: Worker, jobs: map<nat, Job>, next: nat, o: Outcome)
    requires w.stack != [] && o.worker == Push(w, Top(w).(pc := CallingPc(Top(w).pc)), Callee(Top(w)), next)
    ensures KeepsPends(w, jobs, o) && OnlyCalls(w, o)
  {
    hide Callee; hide KeepsPends; hide OnlyCalls; hide Dropped;
    var n := NewFrame(Callee(Top(w)), ToCaller, next, Unit);
    assert n.ret.ToCaller?;
    hide NewFrame;
    TopPends(w, Top(w).(pc := CallingPc(Top(w).pc)), [n], jobs, o);
  }

  lemma SyncPends(w: Worker, jobs: map<nat, Job>, next: nat, s: nat)
    requires MainStep(w, jobs, next, s).Some?
    requires Top(w).pc.Join? || Top(w).pc.Popped? || Top(w).pc.WriteBack? || Top(w).pc.Wait?
    ensures KeepsPends(w, jobs, MainStep(w, jobs, next, s).value) && OnlyCalls(w, MainStep(w, jobs, next, s).value)
  {
    hide MainStep; hide KeepsPends; hide OnlyCalls; hide Dropped; hide Receive;
    Kinds(w, jobs, next, s);
    var f := Top(w);
    var o := MainStep(w, jobs, next, s).value;
    if f.pc.Join? {
      JoinIs(w, jobs, next, s);
      TopPends(w, Top(o.worker), [], jobs, o);
    } else if f.pc.Popped? {
      PoppedIs(w, jobs, next, s);
      TopPends(w, Top(o.worker), [], jobs, o);
    } else if f.pc.WriteBack? {
      WriteBackIs(w, jobs, next, s);
      TopPends(w, Top(o.worker), [], jobs, o);
    } else {
      WaitIs(w, jobs, next, s);
      ReceivePends(f, jobs[Last(f).id].done.value, jobs);
      TopPends(w, Top(o.worker), [], jobs, o);
    }
  }

  lemma CommitOwners(st: State, w: nat, o: Outcome)
    requires OwnersLive(st) && OnePlace(st) && w < |st.workers|
    requires KeepsPends(st.workers[w], st.jobs, o) && OnlyCalls(st.workers[w], o)
    ensures OwnersLive(Commit(st, w, o))
  {
    hide Pends; hide OnePlace; hide Dropped; hide KeepsPends;
    var st' := Commit(st, w, o);
    forall u, k | 0 <= u < |st'.workers| && 0 <= k < |st'.workers[u].stack| && st'.workers[u].stack[k].ret.ToJob?
      ensures Pended(st'.workers, st'.workers[u].stack[k].ret.id)
    {
      var id := st'.workers[u].stack[k].ret.id;
      assert st.workers[u].stack[k].ret == ToJob(id);
      var v, j :| 0 <= v < |st.workers| && 0 <= j < |st.workers[v].stack| && Pends(st.workers[v].stack[j], id);
      if v == w {
        NotDropped(st, w, j, u, k, id);
        assert j < |o.worker.stack| && Pends(o.worker.stack[j], id) by { KeptPend(st.workers[w], st.jobs, o, j, id); }
        assert st'.workers[w] == o.worker;
      } else {
        assert st'.workers[v] == st.workers[v];
      }
    }
  }

  lemma KeptPend(w: Worker, jobs: map<nat, Job>, o: Outcome, k: nat, id: nat)
    requires KeepsPends(w, jobs, o) && k < |w.stack| && Pends(w.stack[k], id) && !Dropped(w.stack[k], jobs, id)
    ensures k < |o.worker.stack| && Pends(o.worker.stack[k], id)
  {
    hide Pends; hide Dropped;
  }

  /** A job that runs somewhere is neither finished nor in its owner's hands. */
  lemma NotDropped(st: State, w: nat, j: nat, u: nat, k: nat, id: nat)
    requires OnePlace(st) && w < |st.workers| && j < |st.workers[w].stack|
    requires u < |st.workers| && k < |st.workers[u].stack| && st.workers[u].stack[k].ret == ToJob(id)
    ensures !Dropped(st.workers[w].stack[j], st.jobs, id)
  {
    var f, r := st.workers[w].stack[j], st.workers[u].stack[k];
    assert AllPlaces(st, id) <= 1;
    HeldSomewhere(st, u, k, id);
    assert Holds(r, id) >= 1;
    hide OnePlace;
    if w == u && j == k {
      assert Dropped(f, st.jobs, id) ==> Holds(f, id) + Finished(st.jobs, id) >= 2;
    } else if w == u {
      TwoFrames(st, w, j, k, id);
    } else {
      TwoWorkers(st, w, j, u, k, id);
    }
    hide AllPlaces;
  }

  lemma TwoFrames(st: State, w: nat, j: nat, k: nat, id: nat)
    requires w < |st.workers| && j < |st.workers[w].stack| && k < |st.workers[w].stack| && j != k
    ensures Holds(st.workers[w].stack[j], id) + Holds(st.workers[w].stack[k], id) + Finished(st.jobs, id)
         <= AllPlaces(st, id)
  {
    hide Holds; hide Finished;
    var s := st.workers[w].stack;
    var a, b := if j < k then j else k, if j < k then k else j;
    SumAppend(HoldsOf(id), s[..b], s[b..]);
    assert s == s[..b] + s[b..];
    SumAtLeast(HoldsOf(id), s[..b], a);
    SumAtLeast(HoldsOf(id), s[b..], 0);
    HoldsIs(s[a], id);
    HoldsIs(s[b], id);
    hide HoldsOf;
    assert PlacesAll(st, id)[w] == Places(st.workers[w], id);
    TotalAtLeast(PlacesAll(st, id), w);
  }

  lemma TwoWorkers(st: State, w: nat, j: nat, u: nat, k: nat, id: nat)
    requires w < |st.workers| && j < |st.workers[w].stack| && u < |st.workers| && k < |st.workers[u].stack| && w != u
    ensures Holds(st.workers[w].stack[j], id) + Holds(st.workers[u].stack[k], id) + Finished(st.jobs, id)
         <= AllPlaces(st, id)
  {
    hide Holds; hide Finished;
    SumAtLeast(HoldsOf(id), st.workers[w].stack, j);
    SumAtLeast(HoldsOf(id), st.workers[u].stack, k);
    HoldsIs(st.workers[w].stack[j], id);
    HoldsIs(st.workers[u].stack[k], id);
    hide HoldsOf;
    var p := PlacesAll(st, id);
    assert p[w] == Places(st.workers[w], id) && p[u] == Places(st.workers[u], id);
    TotalUpdate(p, w, 0);
    TotalAtLeast(p[w := 0], u);
  }

  // ---------- heartbeats and steals ----------

  lemma BumpedPends(f: Frame, g: Frame, id: nat)
    requires FrameInv(f) && Bumped(f, g) && Pends(f, id)
    ensures Pends(g, id)
  {
    hide LoopInv; hide ForkInv; hide Owed; hide Word; hide Leaves;
  }

  lemma WalkPends(w: Worker, t: nat, jobs: map<nat, Job>, next: nat)
    requires WorkerInv(w, jobs, next)
    ensures var s := PromoteFront(w.stack, t, next).stack;
            && |s| == |w.stack|
            && forall k :: 0 <= k < |s| ==>
                             s[k].ret == w.stack[k].ret && forall id: nat :: Pends(w.stack[k], id) ==> Pends(s[k], id)
  {
    hide PromoteFront; hide Pends; hide Pending; hide FrameInv; hide Live;
    HandlerWalk(w, t, jobs, next);
    var s := PromoteFront(w.stack, t, next).stack;
    assert Frames(w.stack);
    hide WorkerInv;
    forall k | 0 <= k < |s|
      ensures s[k].ret == w.stack[k].ret && forall id: nat :: Pends(w.stack[k], id) ==> Pends(s[k], id)
    {
      assert Bumped(w.stack[k], s[k]);
      forall id: nat | Pends(w.stack[k], id) ensures Pends(s[k], id) {
        BumpedPends(w.stack[k], s[k], id);
      }
    }
  }

  lemma BeatPends(w: Worker, jobs: map<nat, Job>, next: nat)
    requires WorkerInv(w, jobs, next)
    ensures KeepsPends(w, jobs, Heartbeat(w, jobs, next)) && OnlyCalls(w, Heartbeat(w, jobs, next))
  {
    hide PromoteFront; hide WorkerInv; hide AddJobs; hide Ids; hide Pends; hide Dropped;
    if !w.disabled {
      WalkPends(w, Refilled(w.tokens), jobs, next);
    }
  }

  /** A queued job is pending in a frame of the worker that queued it. */
  lemma QueuedPends(w: Worker, jobs: map<nat, Job>, next: nat, id: nat)
    requires WorkerInv(w, jobs, next) && id in w.deque
    ensures exists k :: 0 <= k < |w.stack| && Pends(w.stack[k], id)
  {
    hide FrameInv; hide Known; hide Pending; hide Links;
    assert id in Pending(w.stack);
    hide WorkerInv;
    PendingPends(w.stack, id);
  }

  lemma {:induction false} PendingPends(stack: seq<Frame>, id: nat)
    requires id in Pending(stack)
    ensures exists k :: 0 <= k < |stack| && Pends(stack[k], id)
    decreases |stack|
  {
    hide Pends;
    if id in Unjoined(stack[0]) {
      UnjoinedPends(stack[0], id);
    } else {
      hide Unjoined;
      PendingPends(stack[1..], id);
      var k :| 0 <= k < |stack[1..]| && Pends(stack[1..][k], id);
      assert stack[k + 1] == stack[1..][k];
    }
  }

  lemma UnjoinedPends(f: Frame, id: nat)
    requires id in Unjoined(f)
    ensures Pends(f, id)
  {
    var k :| 0 <= k < |Unjoined(f)| && Unjoined(f)[k] == id;
    assert f.pend[k] in f.pend;
  }

  lemma StealOwners(st: State, w: nat, v: nat, t: Task, a0: Expr)
    requires SystemInv(st, t, a0) && OwnersLive(st) && Next(st, Steal(w, v)).Some?
    ensures OwnersLive(Next(st, Steal(w, v)).value)
  {
    hide WorkerInv; hide WaitRule; hide JobsInv; hide Accounted; hide RootInv; hide Pends; hide Hungry; hide NewFrame;
    var id := st.workers[v].deque[0];
    var st' := Next(st, Steal(w, v)).value;
    var n := NewFrame(st.jobs[id].task, ToJob(id), st.next, Unit);
    NewFrameFresh(st.jobs[id].task, ToJob(id), st.next, Unit, st.jobs);
    assert WorkerInv(st.workers[v], st.jobs, st.next);
    QueuedPends(st.workers[v], st.jobs, st.next, id);
    assert Pended(st.workers, id);
    assert forall u :: 0 <= u < |st.workers| ==> st.workers[u].stack <= st'.workers[u].stack;
    forall j: nat | Pended(st.workers, j) ensures Pended(st'.workers, j) {
      var a, b :| 0 <= a < |st.workers| && 0 <= b < |st.workers[a].stack| && Pends(st.workers[a].stack[b], j);
      assert st'.workers[a].stack[b] == st.workers[a].stack[b];
    }
    hide Pended;
    forall u, k | 0 <= u < |st'.workers| && 0 <= k < |st'.workers[u].stack| && st'.workers[u].stack[k].ret.ToJob?
      ensures Pended(st'.workers, st'.workers[u].stack[k].ret.id)
    {
      if k < |st.workers[u].stack| {
        assert st'.workers[u].stack[k] == st.workers[u].stack[k];
      } else {
        assert st'.workers[u].stack[k] == n;
      }
    }
  }

  // ---------- the root call ----------

  lemma CommitRootOnce(st: State, w: nat, o: Outcome)
    requires RootOnce(st) && w < |st.workers| && OnlyCalls(st.workers[w], o)
    requires o.result.Some? ==> o.worker.stack == [] && st.workers[w].stack != [] && st.workers[w].stack[0].ret.ToRoot?
    ensures RootOnce(Commit(st, w, o))
  {
    var st' := Commit(st, w, o);
    forall u, k | 0 <= u < |st'.workers| && 0 <= k < |st'.workers[u].stack| && st'.workers[u].stack[k].ret.ToRoot?
      ensures u == 0 && k == 0 && st'.result.None?
    {
      assert st.workers[u].stack[k].ret.ToRoot?;
    }
  }

  /** Only the root call, alone on its stack, delivers the result. */
  lemma ResultEndsRoot(w: Worker, jobs: map<nat, Job>, next: nat, s: nat)
    requires WorkerInv(w, jobs, next) && MainStep(w, jobs, next, s).Some?
             && MainStep(w, jobs, next, s).value.result.Some?
    ensures MainStep(w, jobs, next, s).value.worker.stack == [] && w.stack != [] && w.stack[0].ret.ToRoot?
  {
    hide WorkerInv;
    MainStepGrows(w, jobs, next, s);
    hide MainStep;
    RootAlone(w, jobs, next);
  }

  ghost predicate Owned(st: State) {
    OwnersLive(st) && RootOnce(st)
  }

  lemma MainOwned(st: State, w: nat, s: nat, t: Task, a0: Expr)
    requires SystemInv(st, t, a0) && OnePlace(st) && Owned(st) && Next(st, Main(w, s)).Some?
    ensures Owned(Next(st, Main(w, s)).value)
  {
    hide WorkerInv; hide WaitRule; hide JobsInv; hide Accounted; hide RootInv; hide MainStep; hide OnePlace;
    hide OwnersLive;
    hide RootOnce; hide KeepsPends; hide OnlyCalls;
    var u := st.workers[w];
    var o := MainStep(u, st.jobs, st.next, s).value;
    assert WorkerInv(u, st.jobs, st.next);
    MainPends(u, st.jobs, st.next, s);
    if o.result.Some? { ResultEndsRoot(u, st.jobs, st.next, s); }
    CommitOwners(st, w, o);
    CommitRootOnce(st, w, o);
  }

  lemma BeatOwned(st: State, w: nat, t: Task, a0: Expr)
    requires SystemInv(st, t, a0) && OnePlace(st) && Owned(st) && w < |st.workers|
    ensures Next(st, Beat(w)).Some? && Owned(Next(st, Beat(w)).value)
  {
    hide WorkerInv; hide WaitRule; hide JobsInv; hide Accounted; hide RootInv; hide Heartbeat; hide OnePlace; hide Next;
    hide KeepsPends; hide OnlyCalls; hide Commit; hide OwnersLive; hide RootOnce;
    var u := st.workers[w];
    var o := Heartbeat(u, st.jobs, st.next);
    assert WorkerInv(u, st.jobs, st.next);
    BeatPends(u, st.jobs, st.next);
    assert o.result.None? by { BeatNoResult(u, st.jobs, st.next); }
    CommitOwners(st, w, o);
    CommitRootOnce(st, w, o);
    BeatCommits(st, w);
    SameOwned(Commit(st, w, o), Next(st, Beat(w)).value);
  }

  lemma BeatNoResult(w: Worker, jobs: map<nat, Job>, next: nat)
    ensures Heartbeat(w, jobs, next).result.None?
  {
  }

  lemma SameOwned(st: State, st': State)
    requires Owned(st) && st'.workers == st.workers && st'.result == st.result
    ensures Owned(st')
  {
  }

  lemma StealRootOnce(st: State, w: nat, v: nat)
    requires RootOnce(st) && Next(st, Steal(w, v)).Some?
    ensures RootOnce(Next(st, Steal(w, v)).value)
  {
    hide Hungry; hide NewFrame;
    var id := st.workers[v].deque[0];
    var st' := Next(st, Steal(w, v)).value;
    NewFrameFresh(st.jobs[id].task, ToJob(id), st.next, Unit, st.jobs);
    forall u, k | 0 <= u < |st'.workers| && 0 <= k < |st'.workers[u].stack| && st'.workers[u].stack[k].ret.ToRoot?
      ensures u == 0 && k == 0 && st'.result.None?
    {
      assert st'.workers[u].stack[k] == st.workers[u].stack[k];
    }
  }

  lemma NextOwned(st: State, step: Step, t: Task, a0: Expr)
    requires SystemInv(st, t, a0) && OnePlace(st) && Owned(st) && Next(st, step).Some?
    ensures Owned(Next(st, step).value)
  {
    hide SystemInv; hide OnePlace; hide OwnersLive; hide RootOnce;
    match step
    case Main(w, s) => MainOwned(st, w, s, t, a0);
    case Steal(w, v) =>
      StealOwners(st, w, v, t, a0);
      StealRootOnce(st, w, v);
    case Beat(w) =>
      assert w < |st.workers|;
      BeatOwned(st, w, t, a0);
  }

  lemma InitOwned(t: Task, a0: Expr, n: nat)
    ensures Owned(Init(t, a0, n))
  {
    NewFrameFresh(t, ToRoot, 0, a0, map[]);
    hide NewFrame;
  }

  /** In every state of every run, the frame that created a running job is alive and waits for it. */
  lemma {:induction false} RunOwned(t: Task, a0: Expr, n: nat, run: seq<State>, steps: seq<Step>, k: nat)
    requires IsRun(t, a0, n, run, steps) && k < |run|
    ensures Owned(run[k])
    decreases k
  {
    hide SystemInv; hide Next; hide Init; hide OnePlace; hide Owned;
    if k == 0 {
      InitOwned(t, a0, n);
    } else {
      RunKeeps(t, a0, n, run, steps, k - 1);
      RunOnePlace(t, a0, n, run, steps, k - 1);
      RunOwned(t, a0, n, run, steps, k - 1);
      assert Next(run[k - 1], steps[k - 1]) == Some(run[k - 1 + 1]);
      NextOwned(run[k - 1], steps[k - 1], t, a0);
    }
  }

  // ---------- the end of a run ----------

  /** The worker with the oldest bottom frame. */
  lemma {:induction false} Oldest(workers: seq<Worker>) returns (w: nat)
    requires exists v :: 0 <= v < |workers| && workers[v].stack != []
    ensures w < |workers| && workers[w].stack != []
    ensures forall v :: 0 <= v < |workers| && workers[v].stack != [] ==>
                          workers[w].stack[0].birth <= workers[v].stack[0].birth
    decreases |workers|
  {
    var n := |workers| - 1;
    if exists v :: 0 <= v < n && workers[..n][v].stack != [] {
      w := Oldest(workers[..n]);
      forall v | 0 <= v < n && workers[v].stack != []
        ensures workers[w].stack[0].birth <= workers[v].stack[0].birth
      {
        assert workers[..n][v] == workers[v];
      }
      if workers[n].stack != [] && workers[n].stack[0].birth <= workers[w].stack[0].birth {
        w := n;
      }
    } else {
      forall v | 0 <= v < n ensures workers[v].stack == [] {
        assert workers[..n][v] == workers[v];
      }
      w := n;
    }
  }

  /** The owner of a job is older than any frame that runs it. */
  lemma OwnerIsOlder(st: State, w: nat, t: Task, a0: Expr) returns (v: nat)
    requires SystemInv(st, t, a0) && OwnersLive(st)
    requires w < |st.workers| && st.workers[w].stack != [] && st.workers[w].stack[0].ret.ToJob?
    ensures v < |st.workers| && st.workers[v].stack != [] && st.workers[v].stack[0].birth < st.workers[w].stack[0].birth
  {
    hide FrameInv; hide WaitRule; hide JobsInv; hide Accounted; hide RootInv; hide Pending;
    var r := st.workers[w].stack[0];
    var u, k :| 0 <= u < |st.workers| && 0 <= k < |st.workers[u].stack| && Pends(st.workers[u].stack[k], r.ret.id);
    v := u;
    assert WorkerInv(st.workers[w], st.jobs, st.next) && WorkerInv(st.workers[u], st.jobs, st.next);
    assert r in st.workers[w].stack && Known(r, st.jobs);
    var f := st.workers[u].stack[k];
    assert f in st.workers[u].stack && Known(f, st.jobs);
    BirthsIncrease(st.workers[u].stack, 0, k);
  }

  lemma BottomFrame(st: State, w: nat, t: Task, a0: Expr)
    requires SystemInv(st, t, a0) && RootOnce(st) && st.result.Some?
    requires w < |st.workers| && st.workers[w].stack != []
    ensures st.workers[w].stack[0].ret.ToJob?
  {
    hide FrameInv; hide WaitRule; hide JobsInv; hide Accounted; hide RootInv; hide Pending; hide Known;
    assert WorkerInv(st.workers[w], st.jobs, st.next);
  }

  /** When the result is there, nothing is left running or queued. */
  lemma ResultIsLast(st: State, t: Task, a0: Expr)
    requires SystemInv(st, t, a0) && Owned(st) && st.result.Some?
    ensures forall w :: 0 <= w < |st.workers| ==> st.workers[w].stack == [] && st.workers[w].deque == []
  {
    hide SystemInv; hide OwnersLive; hide RootOnce;
    if exists w :: 0 <= w < |st.workers| && st.workers[w].stack != [] {
      var w := Oldest(st.workers);
      BottomFrame(st, w, t, a0);
      var v := OwnerIsOlder(st, w, t, a0);
      assert false;
    }
    forall w | 0 <= w < |st.workers| ensures st.workers[w].deque == [] {
      EmptyDeque(st, w, t, a0);
    }
  }

  lemma EmptyDeque(st: State, w: nat, t: Task, a0: Expr)
    requires SystemInv(st, t, a0) && w < |st.workers| && st.workers[w].stack == []
    ensures st.workers[w].deque == []
  {
    hide WaitRule; hide JobsInv; hide Accounted; hide RootInv;
    assert WorkerInv(st.workers[w], st.jobs, st.next);
  }

  /**
   When a run delivers its result, every iteration has been executed exactly as
   often as in the sequential program, and no call or job is left anywhere.
   */
  lemma ExactlyOnce(t: Task, a0: Expr, n: nat, run: seq<State>, steps: seq<Step>, k: nat, c: int)
    requires IsRun(t, a0, n, run, steps) && k <= |steps| && run[k].result.Some?
    ensures Executed(t, run, steps, k, c) == Occurs(Leaves(t), c)
    ensures forall w :: 0 <= w < |run[k].workers| ==> run[k].workers[w].stack == [] && run[k].workers[w].deque == []
  {
    assert k < |run|;
    hide IsRun; hide SystemInv; hide Owned; hide Executed;
    RunKeeps(t, a0, n, run, steps, k);
    RunOwned(t, a0, n, run, steps, k);
    ResultIsLast(run[k], t, a0);
    Conserved(t, a0, n, run, steps, k, c);
    NothingOutstanding(run[k], c);
  }

  lemma NothingOutstanding(st: State, c: int)
    requires forall w :: 0 <= w < |st.workers| ==> st.workers[w].stack == [] && st.workers[w].deque == []
    ensures Outstanding(st, c) == 0
  {
    ZeroTotal(Todos(st, c));
  }

  /** While a job is queued or running, the frame in which its object lives is alive. */
  lemma JobObjectsLive(t: Task, a0: Expr, n: nat, run: seq<State>, steps: seq<Step>, k: nat, w: nat, id: nat)
    requires IsRun(t, a0, n, run, steps) && k < |run| && w < |run[k].workers|
    requires var u := run[k].workers[w];
             id in u.deque || exists j :: 0 <= j < |u.stack| && u.stack[j].ret == ToJob(id)
    ensures Pended(run[k].workers, id)
  {
    hide IsRun; hide WaitRule; hide JobsInv; hide Accounted; hide RootInv; hide WorkerInv; hide Pends;
    RunKeeps(t, a0, n, run, steps, k);
    RunOwned(t, a0, n, run, steps, k);
    if id in run[k].workers[w].deque {
      assert WorkerInv(run[k].workers[w], run[k].jobs, run[k].next);
      QueuedPends(run[k].workers[w], run[k].jobs, run[k].next, id);
    } else {
      var j :| 0 <= j < |run[k].workers[w].stack| && run[k].workers[w].stack[j].ret == ToJob(id);
      assert run[k].workers[w].stack[j].ret.ToJob?;
    }
  }
}
