/**
 Where the jobs are.  A job that is not finished is in at most one place: in one
 deque, in the hands of the owner that popped it, or running.  So `operator()`
 never finds its job finished already, and no job runs twice.
 */
module JobPlaces {
  import opened Sums
  import opened Tasks
  import opened Machine
  import opened StepCases
  import opened Wrappers
  import opened FrameInvariant
  import opened StackInvariant
  import opened WorkerInvariant
  import opened StepInvariant
  import opened Stolen
  import opened SystemInvariant
  import opened Progress
  import opened Executions

  /** The frame has popped its last unjoined job and not yet added its value. */
  predicate InHand(pc: Pc) {
    pc.Popped? || pc.WriteBack? || pc.Call? || pc.Inline?
  }

  function Holds(f: Frame, id: nat): nat {
    (if f.ret == ToJob(id) then 1 else 0) + (if InHand(f.pc) && f.pend != [] && Last(f).id == id then 1 else 0)
  }

  function HoldsOf(id: nat): Frame -> nat {
    (f: Frame) => Holds(f, id)
  }

  function IsJob(id: nat): nat -> nat {
    (x: nat) => if x == id then 1 else 0
  }

  function Places(w: Worker, id: nat): nat {
    Sum(HoldsOf(id), w.stack) + Sum(IsJob(id), w.deque)
  }

  function Finished(jobs: map<nat, Job>, id: nat): nat {
    if id in jobs && jobs[id].done.Some? then 1 else 0
  }

  // ---------- one worker ----------

  lemma TopPlaces(w: Worker, g: Frame, id: nat)
    requires w.stack != []
    ensures Sum(HoldsOf(id), SetTop(w, g).stack) + Holds(Top(w), id) == Sum(HoldsOf(id), w.stack) + Holds(g, id)
  {
    hide Holds;
    assert w.stack == Below(w) + [Top(w)];
    SumLast(HoldsOf(id), Below(w), Top(w));
    SumLast(HoldsOf(id), Below(w), g);
  }

  lemma RelabelHolds(f: Frame, pc: Pc, id: nat)
    requires Relabels(f, pc) && !pc.Popped?
    ensures Holds(f.(pc := pc), id) == Holds(f, id)
  {
  }

  lemma LoopStepHolds(f: Frame, s: nat, id: nat)
    requires LoopStep(f, s).Some?
    ensures Holds(LoopStep(f, s).value, id) == Holds(f, id)
  {
  }

  lemma ReceiveHolds(f: Frame, v: Expr, id: nat)
    requires Awaiting(f.pc) || f.pc.Wait?
    ensures Holds(Receive(f, v), id) <= Holds(f, id)
  {
  }

  lemma FreshHolds(t: Task, ret: Ret, birth: nat, a0: Expr, id: nat)
    ensures Holds(NewFrame(t, ret, birth, a0), id) == if ret == ToJob(id) then 1 else 0
  {
  }

  /** A handler call does not change who runs or holds a job. */
  lemma VisitHolds(f: Frame, tokens: nat, next: nat, id: nat)
    requires FrameInv(f) && 0 < tokens
    ensures Holds(Visit(f, tokens, next).frame, id) == Holds(f, id)
  {
    VisitFacts(f, tokens, next);
    hide FrameInv; hide Visit;
  }

  lemma {:induction false} WalkHolds(stack: seq<Frame>, tokens: nat, next: nat, id: nat)
    requires Frames(stack)
    ensures Sum(HoldsOf(id), PromoteFront(stack, tokens, next).stack) == Sum(HoldsOf(id), stack)
    decreases |stack|
  {
    hide FrameInv; hide Visit; hide Holds;
    if stack != [] && tokens != 0 {
      VisitHolds(stack[0], tokens, next, id);
      var p := Visit(stack[0], tokens, next);
      var w := PromoteFront(stack[1..], p.tokens, next + |p.spawned|);
      WalkHolds(stack[1..], p.tokens, next + |p.spawned|, id);
      assert ([p.frame] + w.stack)[1..] == w.stack;
    }
  }

  function Fresh(next: nat, later: nat, id: nat): nat {
    if next <= id < later then 1 else 0
  }

  lemma {:induction false} IdsPlaces(next: nat, n: nat, id: nat)
    ensures Sum(IsJob(id), Ids(next, n)) == Fresh(next, next + n, id)
    decreases n
  {
    var ids := Ids(next, n);
    if n > 0 {
      assert ids[0] == next && ids[1..] == Ids(next + 1, n - 1);
      IdsPlaces(next + 1, n - 1, id);
    }
  }

  lemma SpawnFinished(jobs: map<nat, Job>, next: nat, spawned: seq<Spawn>, id: nat)
    requires JobsInv(jobs, next)
    ensures Finished(AddJobs(jobs, next, spawned), id) <= Finished(jobs, id)
  {
    hide AddJobs;
  }

  lemma HandlerPlaces(w: Worker, t: nat, jobs: map<nat, Job>, next: nat, id: nat)
    requires WorkerInv(w, jobs, next) && JobsInv(jobs, next)
    ensures var p := PromoteFront(w.stack, t, next);
            var u := w.(stack := p.stack, tokens := p.tokens, deque := w.deque + Ids(next, |p.spawned|));
            Places(u, id) + Finished(AddJobs(jobs, next, p.spawned), id)
            <= Places(w, id) + Finished(jobs, id) + Fresh(next, next + |p.spawned|, id)
  {
    hide AddJobs; hide Ids; hide PromoteFront; hide HoldsOf; hide IsJob; hide FrameInv; hide Finished;
    assert Frames(w.stack);
    hide WorkerInv;
    var p := PromoteFront(w.stack, t, next);
    WalkHolds(w.stack, t, next, id);
    SumAppend(IsJob(id), w.deque, Ids(next, |p.spawned|));
    IdsPlaces(next, |p.spawned|, id);
    SpawnFinished(jobs, next, p.spawned, id);
  }

  lemma EagerPlaces(w: Worker, jobs: map<nat, Job>, next: nat, id: nat)
    requires WorkerInv(w, jobs, next) && JobsInv(jobs, next) && w.stack != [] && Top(w).pc.EagerAct?
    ensures var o := EagerPromote(w, jobs, next);
            Places(o.worker, id) + Finished(o.jobs, id) <= Places(w, id) + Finished(jobs, id) + Fresh(next, o.next, id)
  {
    hide AddJobs; hide Ids; hide Promote; hide HoldsOf; hide IsJob; hide FrameInv; hide Finished;
    var f := Top(w);
    TopFrame(w, jobs, next);
    hide WorkerInv;
    if w.tokens != 0 && !f.promoted {
      var p := Promote(f, w.tokens, next);
      assert Visit(f, w.tokens, next) == p;
      VisitHolds(f, w.tokens, next, id);
      PromoteKeepsFrame(f, w.tokens, next);
      EagerHolds(p.frame, id);
      TopPlaces(w, p.frame.(pc := EagerOn), id);
      hide Holds;
      SumAppend(IsJob(id), w.deque, Ids(next, |p.spawned|));
      IdsPlaces(next, |p.spawned|, id);
      SpawnFinished(jobs, next, p.spawned, id);
    } else {
      EagerHolds(f, id);
      hide Holds;
      TopPlaces(w, f.(pc := EagerOn), id);
    }
  }

  lemma EagerHolds(f: Frame, id: nat)
    requires f.pc.EagerAct?
    ensures Holds(f.(pc := EagerOn), id) == Holds(f, id)
  {
  }

  lemma PopPlaces(w: Worker, jobs: map<nat, Job>, next: nat, id: nat)
    requires WorkerInv(w, jobs, next) && w.stack != [] && Top(w).pc.Join? && Top(w).pend != [] && w.deque != []
    ensures Places(SetTop(w, Top(w).(pc := Popped)).(deque := w.deque[..|w.deque| - 1]), id) == Places(w, id)
  {
    hide WorkerInv;
    var f := Top(w);
    DequeEnd(w, jobs, next);
    PoppedHolds(f, id);
    hide Holds; hide HoldsOf; hide IsJob; hide IsSuffix; hide Pending;
    TopPlaces(w, f.(pc := Popped), id);
    SumEnd(IsJob(id), w.deque);
  }

  lemma PoppedHolds(f: Frame, id: nat)
    requires f.pc.Join? && f.pend != []
    ensures Holds(f.(pc := Popped), id) == Holds(f, id) + IsJob(id)(Last(f).id)
  {
  }

  lemma DonePlaces(w: Worker, jobs: map<nat, Job>, next: nat, s: nat, id: nat)
    requires WorkerInv(w, jobs, next) && MainStep(w, jobs, next, s).Some? && Top(w).pc.Done?
    ensures var o := MainStep(w, jobs, next, s).value;
            Places(o.worker, id) + Finished(o.jobs, id) <= Places(w, id) + Finished(jobs, id)
  {
    hide WorkerInv; hide MainStep; hide Receive; hide HoldsOf; hide IsJob;
    Kinds(w, jobs, next, s);
    DoneIs(w, jobs, next, s);
    var u := w.(stack := Below(w));
    assert Sum(HoldsOf(id), Below(w)) + Holds(Top(w), id) == Sum(HoldsOf(id), w.stack) by {
      assert w.stack == Below(w) + [Top(w)];
      SumLast(HoldsOf(id), Below(w), Top(w));
      HoldsIs(Top(w), id);
    }
    if Top(w).ret.ToCaller? {
      CallerAwaits(w, jobs, next);
      ReceiveHolds(Top(u), Top(w).a, id);
      hide Holds;
      TopPlaces(u, Receive(Top(u), Top(w).a), id);
    }
  }

  lemma HoldsIs(f: Frame, id: nat)
    ensures HoldsOf(id)(f) == Holds(f, id)
  {
  }

  lemma TopFramePlaces(w: Worker, g: Frame, id: nat)
    requires w.stack != [] && Holds(g, id) <= Holds(Top(w), id)
    ensures Sum(HoldsOf(id), SetTop(w, g).stack) <= Sum(HoldsOf(id), w.stack)
  {
    hide Holds; hide HoldsOf;
    TopPlaces(w, g, id);
  }

  lemma SyncPlaces(w: Worker, jobs: map<nat, Job>, next: nat, s: nat, id: nat)
    requires WorkerInv(w, jobs, next) && MainStep(w, jobs, next, s).Some?
    requires Top(w).pc.Join? || Top(w).pc.Popped? || Top(w).pc.WriteBack? || Top(w).pc.Wait?
    ensures var o := MainStep(w, jobs, next, s).value; Places(o.worker, id) <= Places(w, id) && o.jobs == jobs
  {
    hide WorkerInv; hide MainStep; hide Receive; hide HoldsOf; hide IsJob;
    Kinds(w, jobs, next, s);
    var f := Top(w);
    if f.pc.Join? {
      JoinIs(w, jobs, next, s);
      if f.pend != [] && w.deque != [] {
        hide Places;
        PopPlaces(w, jobs, next, id);
      } else {
        TopFramePlaces(w, f.(pc := if f.pend == [] then Done else Wait), id);
      }
    } else if f.pc.WriteBack? {
      WriteBackIs(w, jobs, next, s);
      TopFramePlaces(w, f.(pc := Call), id);
    } else if f.pc.Popped? {
      PoppedIs(w, jobs, next, s);
      TopFramePlaces(w, if Last(f).reclaim then f.(saved := w.tokens, pc := WriteBack) else f.(pc := Call), id);
    } else {
      WaitIs(w, jobs, next, s);
      ReceiveHolds(f, jobs[Last(f).id].done.value, id);
      hide Holds;
      TopFramePlaces(w, Receive(f, jobs[Last(f).id].done.value), id);
    }
  }

  lemma CallingPlaces(w: Worker, jobs: map<nat, Job>, next: nat, s: nat, id: nat)
    requires MainStep(w, jobs, next, s).Some? && MayCall(Top(w).pc) && LoopStep(Top(w), s).None?
    ensures var o := MainStep(w, jobs, next, s).value; Places(o.worker, id) <= Places(w, id) && o.jobs == jobs
  {
    hide MainStep; hide HoldsOf; hide IsJob; hide Callee; hide NewFrame; hide LoopStep;
    Kinds(w, jobs, next, s);
    CallIs(w, jobs, next, s);
    var f := Top(w);
    var g, n := f.(pc := CallingPc(f.pc)), NewFrame(Callee(f), ToCaller, next, Unit);
    TopFramePlaces(w, g, id);
    FreshHolds(Callee(f), ToCaller, next, Unit, id);
    SumLast(HoldsOf(id), SetTop(w, g).stack, n);
    HoldsIs(n, id);
  }

  /** A main-thread step duplicates no job and revives none. */
  lemma MainPlaces(w: Worker, jobs: map<nat, Job>, next: nat, s: nat, id: nat)
    requires WorkerInv(w, jobs, next) && JobsInv(jobs, next) && MainStep(w, jobs, next, s).Some?
    ensures var o := MainStep(w, jobs, next, s).value;
            Places(o.worker, id) + Finished(o.jobs, id) <= Places(w, id) + Finished(jobs, id) + Fresh(next, o.next, id)
  {
    hide WorkerInv; hide JobsInv; hide MainStep; hide LoopStep; hide EagerPromote; hide Places; hide Fresh;
    hide Finished;
    Kinds(w, jobs, next, s);
    var f := Top(w);
    if f.pc.EagerAct? {
      EagerActIs(w, jobs, next, s);
      EagerPlaces(w, jobs, next, id);
    } else if f.pc.Done? {
      DonePlaces(w, jobs, next, s, id);
    } else if LoopStep(f, s).Some? {
      LoopIs(w, jobs, next, s);
      LoopStepHolds(f, s, id);
      TopFramePlaces(w, LoopStep(f, s).value, id);
      DequePlaces(w, SetTop(w, LoopStep(f, s).value), id);
    } else if MayCall(f.pc) {
      CallingPlaces(w, jobs, next, s, id);
    } else if Moves(f.pc) {
      MoveIs(w, jobs, next, s);
      MovedRelabels(w);
      RelabelHolds(f, MovedPc(w), id);
      hide MovedPc; hide Relabels;
      TopFramePlaces(w, f.(pc := MovedPc(w)), id);
      DequePlaces(w, MainStep(w, jobs, next, s).value.worker, id);
    } else {
      SyncPlaces(w, jobs, next, s, id);
    }
  }

  lemma DequePlaces(w: Worker, u: Worker, id: nat)
    requires u.deque == w.deque && Sum(HoldsOf(id), u.stack) <= Sum(HoldsOf(id), w.stack)
    ensures Places(u, id) <= Places(w, id)
  {
  }

  // ---------- the system ----------

  function PlacesAll(st: State, id: nat): seq<nat> {
    seq(|st.workers|, w requires 0 <= w < |st.workers| => Places(st.workers[w], id))
  }

  /** The places of job `id`, counting its result as one. */
  function AllPlaces(st: State, id: nat): nat {
    Total(PlacesAll(st, id)) + Finished(st.jobs, id)
  }

  ghost predicate OnePlace(st: State) {
    forall id :: AllPlaces(st, id) <= 1
  }

  /** A job that has not been created is nowhere. */
  lemma NoPlaceYet(st: State, id: nat, t: Task, a0: Expr)
    requires SystemInv(st, t, a0) && st.next <= id
    ensures AllPlaces(st, id) == 0
  {
    hide WaitRule; hide Accounted; hide RootInv; hide WorkerInv;
    forall w | 0 <= w < |st.workers| ensures Places(st.workers[w], id) == 0 {
      assert WorkerInv(st.workers[w], st.jobs, st.next);
      NotHere(st.workers[w], st.jobs, st.next, id);
    }
    hide Places;
    ZeroTotal(PlacesAll(st, id));
  }

  lemma NotHere(w: Worker, jobs: map<nat, Job>, next: nat, id: nat)
    requires WorkerInv(w, jobs, next) && JobsInv(jobs, next) && next <= id
    ensures Places(w, id) == 0
  {
    DequeKnown(w, jobs, next);
    hide FrameInv; hide Pending; hide Links; hide PromotedFirst;
    forall f | f in w.stack ensures Holds(f, id) == 0 {
      assert Known(f, jobs);
      assert f.pend != [] ==> Last(f) in f.pend;
    }
    hide Holds; hide WorkerInv;
    SumZero(HoldsOf(id), w.stack);
    SumZero(IsJob(id), w.deque);
  }

  lemma CommitPlaces(st: State, w: nat, o: Outcome, t: Task, a0: Expr)
    requires SystemInv(st, t, a0) && OnePlace(st) && w < |st.workers|
    requires forall id :: Places(o.worker, id) + Finished(o.jobs, id)
                          <= Places(st.workers[w], id) + Finished(st.jobs, id) + Fresh(st.next, o.next, id)
    ensures OnePlace(Commit(st, w, o))
  {
    hide SystemInv; hide Places; hide Finished;
    var st' := Commit(st, w, o);
    forall id ensures AllPlaces(st', id) <= 1 {
      assert PlacesAll(st', id) == PlacesAll(st, id)[w := Places(o.worker, id)];
      TotalUpdate(PlacesAll(st, id), w, Places(o.worker, id));
      assert AllPlaces(st, id) <= 1;
      if st.next <= id {
        NoPlaceYet(st, id, t, a0);
      }
    }
  }

  lemma SamePlaces(st: State, st': State)
    requires OnePlace(st) && st'.workers == st.workers && st'.jobs == st.jobs
    ensures OnePlace(st')
  {
    hide Places;
    forall id ensures AllPlaces(st', id) <= 1 {
      assert AllPlaces(st, id) <= 1;
      assert PlacesAll(st', id) == PlacesAll(st, id);
    }
  }

  lemma MainOnePlace(st: State, w: nat, s: nat, t: Task, a0: Expr)
    requires SystemInv(st, t, a0) && OnePlace(st) && Next(st, Main(w, s)).Some?
    ensures OnePlace(Next(st, Main(w, s)).value)
  {
    hide WorkerInv; hide WaitRule; hide JobsInv; hide Accounted; hide RootInv; hide MainStep; hide Places;
    hide Finished; hide OnePlace;
    var u := st.workers[w];
    var o := MainStep(u, st.jobs, st.next, s).value;
    assert WorkerInv(u, st.jobs, st.next);
    forall id ensures Places(o.worker, id) + Finished(o.jobs, id)
                   <= Places(u, id) + Finished(st.jobs, id) + Fresh(st.next, o.next, id)
    {
      MainPlaces(u, st.jobs, st.next, s, id);
    }
    CommitPlaces(st, w, o, t, a0);
  }

  lemma BeatPlaces(w: Worker, jobs: map<nat, Job>, next: nat, id: nat)
    requires WorkerInv(w, jobs, next) && JobsInv(jobs, next)
    ensures var o := Heartbeat(w, jobs, next);
            Places(o.worker, id) + Finished(o.jobs, id) <= Places(w, id) + Finished(jobs, id) + Fresh(next, o.next, id)
  {
    hide WorkerInv; hide JobsInv; hide Places; hide Finished; hide PromoteFront; hide AddJobs; hide Ids; hide Fresh;
    if !w.disabled {
      HandlerPlaces(w, Refilled(w.tokens), jobs, next, id);
    }
  }

  lemma BeatOnePlace(st: State, w: nat, t: Task, a0: Expr)
    requires SystemInv(st, t, a0) && OnePlace(st) && w < |st.workers|
    ensures OnePlace(Next(st, Beat(w)).value)
  {
    hide WorkerInv; hide WaitRule; hide JobsInv; hide Accounted; hide RootInv; hide Heartbeat; hide Places;
    hide Finished;
    hide OnePlace; hide Next; hide Commit; hide Fresh;
    var u := st.workers[w];
    var o := Heartbeat(u, st.jobs, st.next);
    assert WorkerInv(u, st.jobs, st.next);
    forall id ensures Places(o.worker, id) + Finished(o.jobs, id)
                   <= Places(u, id) + Finished(st.jobs, id) + Fresh(st.next, o.next, id)
    {
      BeatPlaces(u, st.jobs, st.next, id);
    }
    CommitPlaces(st, w, o, t, a0);
    BeatCommits(st, w);
    SamePlaces(Commit(st, w, o), Next(st, Beat(w)).value);
  }

  lemma ThiefPlaces(w: Worker, job: nat, jobs: map<nat, Job>, next: nat, id: nat)
    requires job in jobs
    ensures Places(StartJob(w, job, jobs[job], next), id) == Places(w, id) + if job == id then 1 else 0
  {
    hide NewFrame; hide Holds;
    var n := NewFrame(jobs[job].task, ToJob(job), next, Unit);
    FreshHolds(jobs[job].task, ToJob(job), next, Unit, id);
    SumLast(HoldsOf(id), w.stack, n);
  }

  lemma VictimPlaces(v: Worker, id: nat)
    requires v.deque != []
    ensures Places(v.(deque := v.deque[1..]), id) + (if v.deque[0] == id then 1 else 0) == Places(v, id)
  {
    hide HoldsOf;
  }

  lemma StealOnePlace(st: State, w: nat, v: nat)
    requires OnePlace(st) && Next(st, Steal(w, v)).Some?
    ensures OnePlace(Next(st, Steal(w, v)).value)
  {
    hide StartJob; hide Hungry; hide Places; hide Finished;
    var job := st.workers[v].deque[0];
    var thief := StartJob(st.workers[w], job, st.jobs[job], st.next);
    var victim := st.workers[v].(deque := st.workers[v].deque[1..]);
    var st' := Next(st, Steal(w, v)).value;
    forall id ensures AllPlaces(st', id) <= 1 {
      ThiefPlaces(st.workers[w], job, st.jobs, st.next, id);
      VictimPlaces(st.workers[v], id);
      var p := PlacesAll(st, id);
      var x, y := Places(victim, id), Places(thief, id);
      assert PlacesAll(st', id) == p[v := x][w := y];
      TotalUpdate(p, v, x);
      TotalUpdate(p[v := x], w, y);
      assert AllPlaces(st, id) <= 1;
    }
  }

  lemma NextOnePlace(st: State, step: Step, t: Task, a0: Expr)
    requires SystemInv(st, t, a0) && OnePlace(st) && Next(st, step).Some?
    ensures OnePlace(Next(st, step).value)
  {
    hide SystemInv; hide OnePlace;
    match step
    case Main(w, s) => MainOnePlace(st, w, s, t, a0);
    case Steal(w, v) => StealOnePlace(st, w, v);
    case Beat(w) =>
      assert w < |st.workers|;
      BeatOnePlace(st, w, t, a0);
  }

  lemma InitOnePlace(t: Task, a0: Expr, n: nat)
    ensures OnePlace(Init(t, a0, n))
  {
    var st := Init(t, a0, n);
    hide NewFrame;
    forall id ensures AllPlaces(st, id) <= 1 {
      var f := NewFrame(t, ToRoot, 0, a0);
      FreshHolds(t, ToRoot, 0, a0, id);
      hide Holds;
      SumLast(HoldsOf(id), [], f);
      assert [] + [f] == [f];
      ZeroTotal(PlacesAll(st, id));
    }
  }

  /** In every state of every run, every job is in at most one place. */
  lemma {:induction false} RunOnePlace(t: Task, a0: Expr, n: nat, run: seq<State>, steps: seq<Step>, k: nat)
    requires IsRun(t, a0, n, run, steps) && k < |run|
    ensures OnePlace(run[k])
    decreases k
  {
    hide SystemInv; hide Next; hide Init; hide OnePlace;
    if k == 0 {
      InitOnePlace(t, a0, n);
    } else {
      RunKeeps(t, a0, n, run, steps, k - 1);
      RunOnePlace(t, a0, n, run, steps, k - 1);
      assert Next(run[k - 1], steps[k - 1]) == Some(run[k - 1 + 1]);
      NextOnePlace(run[k - 1], steps[k - 1], t, a0);
    }
  }

  lemma HeldSomewhere(st: State, w: nat, k: nat, id: nat)
    requires w < |st.workers| && k < |st.workers[w].stack|
    ensures Holds(st.workers[w].stack[k], id) + Finished(st.jobs, id) <= AllPlaces(st, id)
  {
    hide Holds; hide Finished;
    SumAtLeast(HoldsOf(id), st.workers[w].stack, k);
    HoldsIs(st.workers[w].stack[k], id);
    hide HoldsOf;
    assert PlacesAll(st, id)[w] == Places(st.workers[w], id);
    TotalAtLeast(PlacesAll(st, id), w);
  }

  // ---------- no job is lost ----------

  lemma UnjoinedOrHeld(f: Frame, p: Pend)
    requires p in f.pend
    ensures p.id in Unjoined(f) || Holds(f, p.id) >= 1
  {
    var i :| 0 <= i < |f.pend| && f.pend[i] == p;
    if InHand(f.pc) {
      assert i < |f.pend| - 1 ==> PendIds(DropLast(f))[i] == p.id;
    } else {
      assert PendIds(f.pend)[i] == p.id;
    }
  }

  lemma {:induction false} PendingHas(stack: seq<Frame>, j: nat, id: nat)
    requires j < |stack| && id in Unjoined(stack[j])
    ensures id in Pending(stack)
    decreases j
  {
    hide Unjoined;
    if j > 0 {
      PendingHas(stack[1..], j - 1, id);
    }
  }

  /** A job that its owner has neither joined nor popped is queued, running or finished. */
  lemma PendingPlace(st: State, w: nat, id: nat, t: Task, a0: Expr)
    requires SystemInv(st, t, a0) && w < |st.workers| && id in Pending(st.workers[w].stack)
    ensures AllPlaces(st, id) >= 1
  {
    hide WaitRule; hide JobsInv; hide RootInv; hide Pending; hide Holds; hide FrameInv; hide Known; hide Links;
    var u := st.workers[w];
    assert WorkerInv(u, st.jobs, st.next);
    if id in u.deque {
      var i :| 0 <= i < |u.deque| && u.deque[i] == id;
      SumAtLeast(IsJob(id), u.deque, i);
      assert PlacesAll(st, id)[w] == Places(u, id);
      TotalAtLeast(PlacesAll(st, id), w);
    } else {
      assert id in Taken(u);
      hide WorkerInv;
      if !(id in st.jobs && st.jobs[id].done.Some?) {
        var v, k :| 0 <= v < |st.workers| && 0 <= k < |st.workers[v].stack| && st.workers[v].stack[k].ret == ToJob(id);
        HeldSomewhere(st, v, k, id);
        RunnerHolds(st.workers[v].stack[k], id);
      }
    }
  }

  lemma RunnerHolds(f: Frame, id: nat)
    requires f.ret == ToJob(id)
    ensures Holds(f, id) >= 1
  {
  }

  /** Every job that has been created and not yet joined is in exactly one place: queued in one
      deque, in its owner's hands, running, or finished. */
  lemma UnjoinedOnePlace(t: Task, a0: Expr, n: nat, run: seq<State>, steps: seq<Step>, k: nat, w: nat, j: nat, p: Pend)
    requires IsRun(t, a0, n, run, steps) && k < |run|
    requires w < |run[k].workers| && j < |run[k].workers[w].stack| && p in run[k].workers[w].stack[j].pend
    ensures AllPlaces(run[k], p.id) == 1
  {
    hide IsRun; hide SystemInv; hide Holds; hide Unjoined; hide Pending;
    RunKeeps(t, a0, n, run, steps, k);
    RunOnePlace(t, a0, n, run, steps, k);
    assert AllPlaces(run[k], p.id) <= 1;
    hide OnePlace;
    UnjoinedOrHeld(run[k].workers[w].stack[j], p);
    if p.id in Unjoined(run[k].workers[w].stack[j]) {
      PendingHas(run[k].workers[w].stack, j, p.id);
      PendingPlace(run[k], w, p.id, t, a0);
    } else {
      HeldSomewhere(run[k], w, j, p.id);
    }
    hide AllPlaces;
  }

  /** The assertion at the end of `operator()`: the job it ran had not been finished before. */
  lemma NeverFinishedTwice(t: Task, a0: Expr, n: nat, run: seq<State>, steps: seq<Step>, k: nat, w: nat)
    requires IsRun(t, a0, n, run, steps) && k < |run| && w < |run[k].workers|
    requires run[k].workers[w].stack != [] && Top(run[k].workers[w]).ret.ToJob?
    ensures var id := Top(run[k].workers[w]).ret.id;
            id in run[k].jobs ==> run[k].jobs[id].done.None?
  {
    hide IsRun;
    RunOnePlace(t, a0, n, run, steps, k);
    var id := Top(run[k].workers[w]).ret.id;
    HeldSomewhere(run[k], w, |run[k].workers[w].stack| - 1, id);
    assert AllPlaces(run[k], id) <= 1;
    hide AllPlaces; hide OnePlace;
  }
}
