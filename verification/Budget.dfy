/** Tokens are never created but by heartbeats: the budget of promotions over whole runs. */
module Budget {
  import opened Sums
  import opened Tasks
  import opened Machine
  import opened StepCases
  import opened Wrappers
  import opened FrameInvariant
  import opened StackInvariant
  import opened WorkerInvariant
  import opened StepInvariant
  import opened Stolen
  import opened SystemInvariant

  /** The tokens that travel with queued jobs. */
  function QueueTokens(deque: seq<nat>, jobs: map<nat, Job>): nat {
    if deque == [] then 0
    else (if deque[0] in jobs then jobs[deque[0]].hbt else 0) + QueueTokens(deque[1..], jobs)
  }

  /** The tokens a worker holds or is about to hold: while it takes back the tokens of a popped
      job, that job's tokens and, once it has read its own counter, the value it read. */
  function HeldTokens(w: Worker, jobs: map<nat, Job>): nat {
    if w.stack == [] then w.tokens
    else
      var f := Top(w);
      var popped := if f.pend != [] && Last(f).id in jobs then jobs[Last(f).id].hbt else 0;
      match f.pc
      case Popped => w.tokens + if f.pend != [] && Last(f).reclaim then popped else 0
      case WriteBack => (if w.tokens < f.saved then f.saved else w.tokens) + popped
      case _ => w.tokens
  }

  function WorkerTokens(w: Worker, jobs: map<nat, Job>): nat {
    HeldTokens(w, jobs) + QueueTokens(w.deque, jobs)
  }

  lemma {:induction false} QueueTokensAppend(d: seq<nat>, e: seq<nat>, jobs: map<nat, Job>)
    ensures QueueTokens(d + e, jobs) == QueueTokens(d, jobs) + QueueTokens(e, jobs)
    decreases |d|
  {
    if d == [] {
      assert d + e == e;
    } else {
      QueueTokensAppend(d[1..], e, jobs);
      assert (d + e)[1..] == d[1..] + e;
    }
  }

  lemma {:induction false} QueueTokensExtends(d: seq<nat>, jobs: map<nat, Job>, more: map<nat, Job>)
    requires Extends(jobs, more) && forall id :: id in d ==> id in jobs
    ensures QueueTokens(d, more) == QueueTokens(d, jobs)
    decreases |d|
  {
    if d != [] {
      QueueTokensExtends(d[1..], jobs, more);
    }
  }

  lemma {:induction false} SpawnTokens(jobs: map<nat, Job>, next: nat, spawned: seq<Spawn>)
    requires forall id :: next <= id < next + |spawned| ==> id in jobs && jobs[id].hbt == spawned[id - next].hbt
    ensures QueueTokens(Ids(next, |spawned|), jobs) == TokensOf(spawned)
    decreases |spawned|
  {
    var ids := Ids(next, |spawned|);
    if spawned != [] {
      assert ids[0] == next && ids[1..] == Ids(next + 1, |spawned| - 1);
      SpawnTokens(jobs, next + 1, spawned[1..]);
    }
  }

  /** The tokens of an unjoined job are fixed when it is enqueued. */
  lemma HeldExtends(w: Worker, jobs: map<nat, Job>, next: nat, more: map<nat, Job>)
    requires WorkerInv(w, jobs, next) && Extends(jobs, more)
    ensures WorkerTokens(w, more) == WorkerTokens(w, jobs)
  {
    hide WorkerInv; hide FrameInv; hide QueueTokens; hide HeldTokens; hide Known; hide Extends;
    DequeKnown(w, jobs, next);
    QueueTokensExtends(w.deque, jobs, more);
    if w.stack != [] {
      TopFrame(w, jobs, next);
      TopHeld(w, jobs, more);
    } else {
      IdleHeld(w, jobs, more);
    }
  }

  lemma IdleHeld(w: Worker, jobs: map<nat, Job>, more: map<nat, Job>)
    requires w.stack == []
    ensures HeldTokens(w, more) == HeldTokens(w, jobs)
  {
  }

  lemma TopHeld(w: Worker, jobs: map<nat, Job>, more: map<nat, Job>)
    requires w.stack != [] && Known(Top(w), jobs) && Extends(jobs, more)
    ensures HeldTokens(w, more) == HeldTokens(w, jobs)
  {
    var f := Top(w);
    assert f.pend != [] ==> Last(f) in f.pend;
  }

  // ---------- main-thread steps ----------

  /** The worker is not between a pop and the end of `fast_clone`'s token update. */
  predicate Calm(w: Worker) {
    w.stack != [] ==> !Top(w).pc.Popped? && !Top(w).pc.WriteBack?
  }

  lemma CalmHeld(w: Worker, jobs: map<nat, Job>)
    requires Calm(w)
    ensures HeldTokens(w, jobs) == w.tokens
  {
  }

  /** What most steps do to the tokens: nothing. */
  ghost predicate TokensStay(w: Worker, o: Outcome) {
    Calm(o.worker) && o.worker.tokens == w.tokens && o.worker.deque == w.deque && o.promoted == 0
  }

  lemma StayCosts(w: Worker, jobs: map<nat, Job>, next: nat, o: Outcome)
    requires WorkerInv(w, jobs, next) && Extends(jobs, o.jobs) && TokensStay(w, o)
    ensures WorkerTokens(o.worker, o.jobs) + o.promoted <= WorkerTokens(w, jobs)
  {
    hide WorkerInv; hide QueueTokens; hide Extends; hide HeldTokens; hide Calm;
    DequeKnown(w, jobs, next);
    QueueTokensExtends(w.deque, jobs, o.jobs);
    CalmHeld(o.worker, o.jobs);
    HeldAtLeast(w, jobs);
  }

  lemma HeldAtLeast(w: Worker, jobs: map<nat, Job>)
    ensures w.tokens <= HeldTokens(w, jobs)
  {
  }

  lemma ReceiveCalm(f: Frame, v: Expr)
    requires Awaiting(f.pc) || f.pc.Wait?
    ensures !Receive(f, v).pc.Popped? && !Receive(f, v).pc.WriteBack?
  {
  }

  lemma LoopStepCalm(f: Frame, s: nat)
    requires LoopStep(f, s).Some?
    ensures !LoopStep(f, s).value.pc.Popped? && !LoopStep(f, s).value.pc.WriteBack?
  {
  }

  lemma NewFrameCalm(t: Task, ret: Ret, next: nat, a0: Expr)
    ensures !NewFrame(t, ret, next, a0).pc.Popped? && !NewFrame(t, ret, next, a0).pc.WriteBack?
  {
  }

  lemma DoneStays(w: Worker, jobs: map<nat, Job>, next: nat, s: nat)
    requires WorkerInv(w, jobs, next) && MainStep(w, jobs, next, s).Some? && Top(w).pc.Done?
    ensures TokensStay(w, MainStep(w, jobs, next, s).value)
  {
    hide MainStep; hide Receive; hide WorkerInv;
    Kinds(w, jobs, next, s);
    DoneIs(w, jobs, next, s);
    if Top(w).ret.ToCaller? {
      CallerAwaits(w, jobs, next);
      ReceiveCalm(w.stack[|w.stack| - 2], Top(w).a);
    } else if |w.stack| > 1 {
      BottomOfJob(w, jobs, next);
    }
  }

  lemma CallingStays(w: Worker, jobs: map<nat, Job>, next: nat, s: nat)
    requires MainStep(w, jobs, next, s).Some? && LoopStep(Top(w), s).None? && MayCall(Top(w).pc)
    ensures TokensStay(w, MainStep(w, jobs, next, s).value)
  {
    CallIs(w, jobs, next, s);
    hide LoopStep; hide NewFrame; hide MainStep; hide Callee;
    NewFrameCalm(Callee(Top(w)), ToCaller, next, Unit);
  }

  lemma MoveStays(w: Worker, jobs: map<nat, Job>, next: nat, s: nat)
    requires MainStep(w, jobs, next, s).Some?
    requires var pc := Top(w).pc;
             || Moves(pc) || pc.Wait? || (pc.Join? && (Top(w).pend == [] || w.deque == []))
             || LoopStep(Top(w), s).Some?
    ensures TokensStay(w, MainStep(w, jobs, next, s).value)
  {
    hide MainStep; hide LoopStep; hide Receive;
    Kinds(w, jobs, next, s);
    var f := Top(w);
    if LoopStep(f, s).Some? {
      LoopIs(w, jobs, next, s);
      LoopStepCalm(f, s);
    } else if f.pc.Wait? {
      WaitIs(w, jobs, next, s);
      ReceiveCalm(f, jobs[Last(f).id].done.value);
    } else if f.pc.Join? {
      JoinIs(w, jobs, next, s);
    } else {
      MoveIs(w, jobs, next, s);
    }
  }

  /** Popping the job being joined: its tokens leave the deque, for the worker or for good. */
  lemma PopCosts(w: Worker, jobs: map<nat, Job>, next: nat)
    requires WorkerInv(w, jobs, next) && w.stack != [] && Top(w).pc.Join? && Top(w).pend != [] && w.deque != []
    ensures WorkerTokens(SetTop(w, Top(w).(pc := Popped)).(deque := w.deque[..|w.deque| - 1]), jobs)
         <= WorkerTokens(w, jobs)
  {
    var f, d := Top(w), w.deque[..|w.deque| - 1];
    DequeEnd(w, jobs, next);
    hide WorkerInv;
    QueueTokensLast(w.deque, jobs);
    PopHeld(w, jobs, d);
    hide QueueTokens; hide HeldTokens;
  }

  lemma PopHeld(w: Worker, jobs: map<nat, Job>, d: seq<nat>)
    requires w.stack != [] && Top(w).pc.Join? && Top(w).pend != []
    ensures HeldTokens(SetTop(w, Top(w).(pc := Popped)).(deque := d), jobs)
         <= HeldTokens(w, jobs) + if Last(Top(w)).id in jobs then jobs[Last(Top(w)).id].hbt else 0
  {
  }

  lemma QueueTokensLast(d: seq<nat>, jobs: map<nat, Job>)
    requires d != []
    ensures var n := |d| - 1;
            QueueTokens(d, jobs) == QueueTokens(d[..n], jobs) + if d[n] in jobs then jobs[d[n]].hbt else 0
  {
    var n := |d| - 1;
    var e := [d[n]];
    assert d == d[..n] + e && e[1..] == [];
    QueueTokensAppend(d[..n], e, jobs);
    assert QueueTokens(e, jobs) == (if e[0] in jobs then jobs[e[0]].hbt else 0) + QueueTokens(e[1..], jobs);
  }

  /** Both halves of `heartbeat_tokens = heartbeat_tokens + hbt`, whatever came in between. */
  lemma ReclaimCosts(w: Worker, jobs: map<nat, Job>, next: nat, s: nat)
    requires MainStep(w, jobs, next, s).Some? && (Top(w).pc.Popped? || Top(w).pc.WriteBack?)
    ensures var o := MainStep(w, jobs, next, s).value;
            && HeldTokens(o.worker, o.jobs) <= HeldTokens(w, jobs)
            && o.worker.deque == w.deque && o.jobs == jobs && o.promoted == 0
  {
    Kinds(w, jobs, next, s);
    if Top(w).pc.Popped? {
      PoppedIs(w, jobs, next, s);
    } else {
      WriteBackIs(w, jobs, next, s);
    }
    hide MainStep;
  }

  lemma EagerCosts(w: Worker, jobs: map<nat, Job>, next: nat)
    requires WorkerInv(w, jobs, next) && JobsInv(jobs, next) && w.stack != [] && Top(w).pc.EagerAct?
    ensures var o := EagerPromote(w, jobs, next);
            WorkerTokens(o.worker, o.jobs) + o.promoted <= WorkerTokens(w, jobs)
  {
    var f := Top(w);
    var o := EagerPromote(w, jobs, next);
    hide WorkerInv;
    CalmHeld(w, jobs);
    if w.tokens != 0 && !f.promoted {
      var p := Promote(f, w.tokens, next);
      PromoteJobs(f, w.tokens, next);
      hide Promote;
      SpawnCosts(w, jobs, next, p.spawned);
      assert Top(o.worker).pc.EagerOn?;
      CalmHeld(o.worker, o.jobs);
    } else {
      CalmHeld(o.worker, o.jobs);
    }
  }

  lemma SpawnCosts(w: Worker, jobs: map<nat, Job>, next: nat, spawned: seq<Spawn>)
    requires WorkerInv(w, jobs, next) && JobsInv(jobs, next)
    ensures QueueTokens(w.deque + Ids(next, |spawned|), AddJobs(jobs, next, spawned))
         == QueueTokens(w.deque, jobs) + TokensOf(spawned)
  {
    hide AddJobs; hide Ids;
    var more := AddJobs(jobs, next, spawned);
    DequeKnown(w, jobs, next);
    SpawnExtends(jobs, next, spawned);
    hide WorkerInv;
    QueueTokensExtends(w.deque, jobs, more);
    hide Extends; hide JobsInv;
    SpawnTokens(more, next, spawned);
    QueueTokensAppend(w.deque, Ids(next, |spawned|), more);
  }

  /** No main-thread step creates a token, and a promotion pays one. */
  lemma MainCosts(w: Worker, jobs: map<nat, Job>, next: nat, s: nat)
    requires WorkerInv(w, jobs, next) && JobsInv(jobs, next) && MainStep(w, jobs, next, s).Some?
    requires w.stack != [] && Top(w).pc.Wait? ==> w.deque == []
    ensures var o := MainStep(w, jobs, next, s).value;
            WorkerTokens(o.worker, o.jobs) + o.promoted <= WorkerTokens(w, jobs)
  {
    hide WorkerInv; hide JobsInv; hide Extends; hide HeldTokens; hide QueueTokens; hide EagerPromote;
    hide LoopStep; hide MainStep;
    Kinds(w, jobs, next, s);
    MainStepKeeps(w, jobs, next, s);
    var f := Top(w);
    if f.pc.EagerAct? {
      EagerActIs(w, jobs, next, s);
      EagerCosts(w, jobs, next);
    } else if f.pc.Popped? || f.pc.WriteBack? {
      ReclaimCosts(w, jobs, next, s);
    } else if f.pc.Join? && f.pend != [] && w.deque != [] {
      JoinIs(w, jobs, next, s);
      hide WorkerTokens;
      PopCosts(w, jobs, next);
    } else {
      QuietCosts(w, jobs, next, s);
    }
  }

  lemma QuietCosts(w: Worker, jobs: map<nat, Job>, next: nat, s: nat)
    requires WorkerInv(w, jobs, next) && MainStep(w, jobs, next, s).Some?
    requires Extends(jobs, MainStep(w, jobs, next, s).value.jobs)
    requires !Top(w).pc.EagerAct? && !Top(w).pc.Popped? && !Top(w).pc.WriteBack?
    requires Top(w).pc.Join? ==> Top(w).pend == [] || w.deque == []
    ensures var o := MainStep(w, jobs, next, s).value;
            WorkerTokens(o.worker, o.jobs) + o.promoted <= WorkerTokens(w, jobs)
  {
    hide WorkerInv; hide Extends; hide LoopStep; hide WorkerTokens; hide MainStep; hide TokensStay;
    Kinds(w, jobs, next, s);
    var f := Top(w);
    if f.pc.Done? {
      DoneStays(w, jobs, next, s);
    } else if LoopStep(f, s).None? && MayCall(f.pc) {
      CallingStays(w, jobs, next, s);
    } else {
      MoveStays(w, jobs, next, s);
    }
    StayCosts(w, jobs, next, MainStep(w, jobs, next, s).value);
  }

  // ---------- heartbeats ----------

  lemma BeatCosts(w: Worker, jobs: map<nat, Job>, next: nat)
    requires WorkerInv(w, jobs, next) && JobsInv(jobs, next)
    ensures var o := Heartbeat(w, jobs, next);
            WorkerTokens(o.worker, o.jobs) + o.promoted
            <= WorkerTokens(w, jobs) + if w.disabled then 0 else TOKENS_PER_HEARTBEAT
  {
    hide PromoteFront; hide AddJobs; hide Ids; hide WorkerTokens; hide WorkerInv; hide JobsInv;
    if !w.disabled {
      BeatWalkCosts(w, Refilled(w.tokens), jobs, next);
    }
  }

  /** A handler call with `t` tokens. */
  lemma BeatWalkCosts(w: Worker, t: nat, jobs: map<nat, Job>, next: nat)
    requires WorkerInv(w, jobs, next) && JobsInv(jobs, next)
    requires t <= w.tokens + TOKENS_PER_HEARTBEAT && t <= TOKENS_PER_HEARTBEAT
    ensures var p := PromoteFront(w.stack, t, next);
            var u := w.(stack := p.stack, tokens := p.tokens, deque := w.deque + Ids(next, |p.spawned|));
            WorkerTokens(u, AddJobs(jobs, next, p.spawned)) + p.count <= WorkerTokens(w, jobs) + TOKENS_PER_HEARTBEAT
  {
    hide PromoteFront; hide AddJobs; hide Ids; hide HeldTokens; hide QueueTokens; hide WorkerInv; hide JobsInv;
    hide Extends;
    hide Pending; hide Known; hide Bumped;
    var p := PromoteFront(w.stack, t, next);
    var u := w.(stack := p.stack, tokens := p.tokens, deque := w.deque + Ids(next, |p.spawned|));
    var more := AddJobs(jobs, next, p.spawned);
    WalkSpends(w, t, jobs, next);
    SpawnCosts(w, jobs, next, p.spawned);
    assert Extends(jobs, more) by { SpawnExtends(jobs, next, p.spawned); }
    HeldAfterBeat(w, u, jobs, more, p.count + TokensOf(p.spawned));
  }

  lemma WalkSpends(w: Worker, t: nat, jobs: map<nat, Job>, next: nat)
    requires WorkerInv(w, jobs, next)
    ensures var p := PromoteFront(w.stack, t, next);
            && p.tokens + TokensOf(p.spawned) + p.count == t
            && |p.stack| == |w.stack|
            && (w.stack != [] ==> Known(Top(w), jobs) && Bumped(Top(w), p.stack[|p.stack| - 1]))
  {
    hide PromoteFront; hide Ids; hide Pending; hide Known; hide Bumped; hide WorkerInv; hide FrameInv; hide Live;
    HandlerWalk(w, t, jobs, next);
    WorkerFrames(w, jobs, next);
    if w.stack != [] {
      TopFrame(w, jobs, next);
      assert Bumped(w.stack[|w.stack| - 1], PromoteFront(w.stack, t, next).stack[|w.stack| - 1]);
    }
    WalkTokens(w.stack, t, next);
  }

  lemma WorkerFrames(w: Worker, jobs: map<nat, Job>, next: nat)
    requires WorkerInv(w, jobs, next)
    ensures Frames(w.stack)
  {
    hide FrameInv; hide Known; hide Pending; hide Links; hide PromotedFirst;
  }

  lemma HeldAfterBeat(w: Worker, u: Worker, jobs: map<nat, Job>, more: map<nat, Job>, spent: nat)
    requires (u.stack == [] <==> w.stack == []) && Extends(jobs, more)
    requires u.tokens + spent <= w.tokens + TOKENS_PER_HEARTBEAT && spent <= TOKENS_PER_HEARTBEAT
    requires w.stack != [] ==> Known(Top(w), jobs) && Bumped(Top(w), Top(u))
    ensures HeldTokens(u, more) + spent <= HeldTokens(w, jobs) + TOKENS_PER_HEARTBEAT
  {
    if w.stack != [] {
      var f := Top(w);
      assert f.pend != [] ==> Last(f) in f.pend;
      if f.pc.Popped? || f.pc.WriteBack? {
        assert Top(u) == f;
      }
    }
  }

  /** After a handled heartbeat a worker holds at most one heartbeat's worth. */
  lemma BeatClamps(w: Worker, jobs: map<nat, Job>, next: nat)
    requires WorkerInv(w, jobs, next) && !w.disabled
    ensures Heartbeat(w, jobs, next).worker.tokens <= MAX_HEARTBEAT_TOKENS
  {
    hide PromoteFront; hide AddJobs; hide Ids; hide Pending;
    assert Frames(w.stack);
    hide WorkerInv;
    WalkTokens(w.stack, Refilled(w.tokens), next);
  }

  // ---------- whole runs ----------

  function Holdings(st: State): seq<nat> {
    seq(|st.workers|, w requires 0 <= w < |st.workers| => WorkerTokens(st.workers[w], st.jobs))
  }

  /** Promotions done, and tokens held by workers or travelling with queued jobs. */
  function Spent(st: State): nat {
    st.promotions + Total(Holdings(st))
  }

  function Granted(beats: nat): nat {
    TOKENS_PER_HEARTBEAT * beats
  }

  lemma CommitTokens(st: State, w: nat, o: Outcome, t: Task, a0: Expr)
    requires SystemInv(st, t, a0) && w < |st.workers| && Extends(st.jobs, o.jobs)
    ensures Spent(Commit(st, w, o)) + WorkerTokens(st.workers[w], st.jobs)
         == Spent(st) + WorkerTokens(o.worker, o.jobs) + o.promoted
  {
    hide WorkerInv; hide WaitRule; hide JobsInv; hide Accounted; hide RootInv; hide WorkerTokens; hide Extends;
    var st' := Commit(st, w, o);
    forall v | 0 <= v < |st.workers| && v != w
      ensures WorkerTokens(st'.workers[v], o.jobs) == WorkerTokens(st.workers[v], st.jobs)
    {
      HeldExtends(st.workers[v], st.jobs, st.next, o.jobs);
    }
    assert Holdings(st') == Holdings(st)[w := WorkerTokens(o.worker, o.jobs)];
    TotalUpdate(Holdings(st), w, WorkerTokens(o.worker, o.jobs));
  }

  lemma MainBudget(st: State, w: nat, s: nat, t: Task, a0: Expr)
    requires SystemInv(st, t, a0) && Next(st, Main(w, s)).Some?
    ensures Spent(Next(st, Main(w, s)).value) <= Spent(st)
  {
    var u := st.workers[w];
    hide WorkerInv; hide JobsInv; hide Accounted; hide RootInv; hide MainStep; hide WorkerTokens; hide Extends;
    hide Spent;
    assert WorkerInv(u, st.jobs, st.next) && WaitRule(u);
    if u.stack != [] && Top(u).pc.Wait? {
      WaitingDequeEmpty(u, st.jobs, st.next);
    }
    hide WaitRule;
    MainStepGrows(u, st.jobs, st.next, s);
    MainStepKeeps(u, st.jobs, st.next, s);
    MainCosts(u, st.jobs, st.next, s);
    CommitTokens(st, w, MainStep(u, st.jobs, st.next, s).value, t, a0);
  }

  lemma BeatBudget(st: State, w: nat, t: Task, a0: Expr)
    requires SystemInv(st, t, a0) && w < |st.workers|
    ensures var st' := Next(st, Beat(w)).value;
            Spent(st') + Granted(st.beats) <= Spent(st) + Granted(st'.beats)
  {
    var u := st.workers[w];
    var o := Heartbeat(u, st.jobs, st.next);
    hide WorkerInv; hide JobsInv; hide Accounted; hide RootInv; hide WorkerTokens; hide Extends; hide WaitRule;
    hide Heartbeat;
    assert WorkerInv(u, st.jobs, st.next) && WaitRule(u);
    BeatWorker(u, st.jobs, st.next);
    BeatCosts(u, st.jobs, st.next);
    CommitTokens(st, w, o, t, a0);
    assert Holdings(Next(st, Beat(w)).value) == Holdings(Commit(st, w, o));
  }

  /** The thief drops its own tokens and takes over those of the job. */
  lemma StealBudget(st: State, w: nat, v: nat, t: Task, a0: Expr)
    requires SystemInv(st, t, a0) && Next(st, Steal(w, v)).Some?
    ensures Spent(Next(st, Steal(w, v)).value) <= Spent(st)
  {
    hide SystemInv; hide QueueTokens; hide WorkerTokens; hide StartJob; hide Hungry;
    var id := st.workers[v].deque[0];
    var thief := StartJob(st.workers[w], id, st.jobs[id], st.next);
    var victim := st.workers[v].(deque := st.workers[v].deque[1..]);
    ThiefTokens(st.workers[w], id, st.jobs, st.next);
    VictimTokens(st.workers[v], st.jobs);
    var p := Holdings(st);
    var x, y := WorkerTokens(victim, st.jobs), WorkerTokens(thief, st.jobs);
    assert Holdings(Next(st, Steal(w, v)).value) == p[v := x][w := y];
    TotalUpdate(p, v, x);
    TotalUpdate(p[v := x], w, y);
  }

  lemma ThiefTokens(w: Worker, id: nat, jobs: map<nat, Job>, next: nat)
    requires id in jobs && Hungry(w)
    ensures WorkerTokens(StartJob(w, id, jobs[id], next), jobs) == jobs[id].hbt
  {
    NewFrameCalm(jobs[id].task, ToJob(id), next, Unit);
    hide NewFrame;
    CalmHeld(StartJob(w, id, jobs[id], next), jobs);
  }

  lemma VictimTokens(v: Worker, jobs: map<nat, Job>)
    requires v.deque != [] && v.deque[0] in jobs
    ensures WorkerTokens(v.(deque := v.deque[1..]), jobs) + jobs[v.deque[0]].hbt == WorkerTokens(v, jobs)
  {
  }

  lemma NextBudget(st: State, step: Step, t: Task, a0: Expr)
    requires SystemInv(st, t, a0) && Next(st, step).Some?
    ensures var st' := Next(st, step).value;
            Spent(st') + Granted(st.beats) <= Spent(st) + Granted(st'.beats)
  {
    hide SystemInv; hide Spent;
    match step
    case Main(w, s) =>
      MainBudget(st, w, s, t, a0);
      hide MainStep;
    case Beat(w) =>
      assert w < |st.workers|;
      BeatBudget(st, w, t, a0);
    case Steal(w, v) => StealBudget(st, w, v, t, a0);
  }

  /**
   In every state of every run, over all workers: promotions, held tokens and
   the tokens of queued jobs together never exceed what the handled heartbeats
   granted.
   */
  lemma {:induction false} RunBudget(t: Task, a0: Expr, n: nat, run: seq<State>, steps: seq<Step>, k: nat)
    requires IsRun(t, a0, n, run, steps) && k < |run|
    ensures Spent(run[k]) <= Granted(run[k].beats)
    decreases k
  {
    hide SystemInv; hide Next; hide Init; hide Spent; hide Granted;
    if k == 0 {
      InitBudget(t, a0, n);
    } else {
      RunKeeps(t, a0, n, run, steps, k - 1);
      RunBudget(t, a0, n, run, steps, k - 1);
      assert Next(run[k - 1], steps[k - 1]) == Some(run[k - 1 + 1]);
      NextBudget(run[k - 1], steps[k - 1], t, a0);
    }
  }

  lemma InitBudget(t: Task, a0: Expr, n: nat)
    ensures Spent(Init(t, a0, n)) <= Granted(Init(t, a0, n).beats)
  {
    NewFrameCalm(t, ToRoot, 0, a0);
    hide NewFrame;
    CalmHeld(Init(t, a0, n).workers[0], map[]);
    ZeroTotal(Holdings(Init(t, a0, n)));
  }
}
