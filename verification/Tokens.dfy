/** Tokens to the last one: what every step that touches the counter leaves in it, as equalities. */
module Tokens {
  import opened Sums
  import opened Tasks
  import opened Machine
  import opened StepCases
  import opened Wrappers
  import opened FrameInvariant
  import opened StackInvariant
  import opened WorkerInvariant
  import opened StepInvariant
  import opened Stolen
  import opened SystemInvariant
  import opened Budget

  /** The slot of a call is in the chain, for handler calls to promote, from its commit to its close:
      in every micro-step but the first, the code after the close, the joins and the end. */
  lemma LiveIs(pc: Pc)
    ensures Live(pc) <==>
            && !pc.Enter? && !pc.Gap? && !pc.AwaitGap? && !pc.Right? && !pc.AwaitRight? && !pc.Join? && !pc.Popped?
            && !pc.WriteBack? && !pc.Call? && !pc.Inline? && !pc.Wait? && !pc.Done?
  {
  }

  // ---------- a handler call ----------

  /** The tokens of the jobs that a step of `w` has enqueued. */
  function NewTokens(w: Worker, o: Outcome): nat {
    QueueTokens(if |w.deque| <= |o.worker.deque| then o.worker.deque[|w.deque|..] else [], o.jobs)
  }

  lemma SpawnedTokens(w: Worker, u: Worker, jobs: map<nat, Job>, next: nat, spawned: seq<Spawn>, o: Outcome)
    requires o.worker == u && u.deque == w.deque + Ids(next, |spawned|) && o.jobs == AddJobs(jobs, next, spawned)
    ensures NewTokens(w, o) == TokensOf(spawned)
  {
    hide QueueTokens; hide TokensOf;
    assert u.deque[|w.deque|..] == Ids(next, |spawned|);
    SpawnTokens(o.jobs, next, spawned);
  }

  /** After a heartbeat that is handled, the worker's tokens, those it gave to new jobs and the
      promotions it paid for make up exactly one heartbeat; and if a slot was left to promote, the
      oldest of these has been. */
  lemma BeatFills(w: Worker, jobs: map<nat, Job>, next: nat)
    requires WorkerInv(w, jobs, next) && !w.disabled
    ensures var o := Heartbeat(w, jobs, next);
            && w.deque <= o.worker.deque
            && o.worker.tokens + NewTokens(w, o) + o.promoted == 30
            && |o.worker.stack| == |w.stack|
            && forall k :: 0 <= k < |w.stack| && OldestUnpromoted(w.stack, k) ==>
                             o.worker.stack[k].promoted && 1 <= o.promoted
  {
    hide PromoteFront; hide AddJobs; hide WorkerInv; hide NewTokens; hide OldestUnpromoted; hide FrameInv; hide Pending;
    var o := Heartbeat(w, jobs, next);
    var p := PromoteFront(w.stack, 30, next);
    WalkSpends(w, 30, jobs, next);
    SpawnedTokens(w, o.worker, jobs, next, p.spawned, o);
    WorkerFrames(w, jobs, next);
    forall k | 0 <= k < |w.stack| && OldestUnpromoted(w.stack, k) ensures p.stack[k].promoted && 1 <= p.count {
      WalkOldest(w.stack, 30, next, k);
    }
  }

  /** A heartbeat that finds heartbeats disabled does nothing. */
  lemma BeatIgnored(w: Worker, jobs: map<nat, Job>, next: nat)
    requires w.disabled
    ensures Heartbeat(w, jobs, next) == Outcome(w, jobs, next, None, 0)
  {
  }

  // ---------- eager promotion ----------

  /** With tokens, `eager_promote` promotes an unpromoted slot, and keeps or hands on every other
      token. */
  lemma EagerSpends(w: Worker, jobs: map<nat, Job>, next: nat)
    requires WorkerInv(w, jobs, next) && w.stack != [] && Top(w).pc.EagerAct?
    ensures var o := EagerPromote(w, jobs, next);
            && o.worker.stack != [] && w.deque <= o.worker.deque
            && (w.tokens != 0 ==> Top(o.worker).promoted)
            && o.promoted == (if w.tokens != 0 && !Top(w).promoted then 1 else 0)
            && o.worker.tokens + NewTokens(w, o) + o.promoted == w.tokens
  {
    hide WorkerInv; hide AddJobs; hide Promote; hide NewTokens; hide FrameInv;
    var f := Top(w);
    var o := EagerPromote(w, jobs, next);
    if w.tokens != 0 && !f.promoted {
      var p := Promote(f, w.tokens, next);
      TopFrame(w, jobs, next);
      PromoteKeepsFrame(f, w.tokens, next);
      PromoteJobs(f, w.tokens, next);
      SpawnedTokens(w, o.worker, jobs, next, p.spawned, o);
    } else {
      NothingNew(w, o);
    }
  }

  lemma NothingNew(w: Worker, o: Outcome)
    requires o.worker.deque == w.deque
    ensures NewTokens(w, o) == 0
  {
  }

  /** What it does is what a walk over the whole chain would do with these tokens. */
  lemma EagerPromoteIsWalk(w: Worker, jobs: map<nat, Job>, next: nat)
    requires WorkerInv(w, jobs, next) && w.stack != [] && Top(w).pc.EagerAct?
    ensures var o, p := EagerPromote(w, jobs, next), PromoteFront(w.stack, w.tokens, next);
            && p.stack != []
            && o.worker.stack == p.stack[..|p.stack| - 1] + [p.stack[|p.stack| - 1].(pc := EagerOn)]
            && o.worker.tokens == p.tokens && o.promoted == p.count
            && o.worker.deque == w.deque + Ids(next, |p.spawned|)
            && o.jobs == AddJobs(jobs, next, p.spawned) && o.next == next + |p.spawned|
  {
    hide WorkerInv; hide AddJobs; hide Promote; hide PromoteFront; hide Live; hide Ids; hide FrameInv;
    var f := Top(w);
    assert w.stack == Below(w) + [f];
    NoJobs(w.deque, jobs, next);
    if w.tokens == 0 {
      NoTokens(w.stack, next);
    } else {
      PromotedBelow(w, jobs, next);
      TopFrame(w, jobs, next);
      EagerIsWalk(Below(w), f, w.tokens, next);
      if f.promoted {
        VisitStays(f, w.tokens, next);
      } else {
        EagerVisits(f, w.tokens, next);
      }
      hide Visit;
    }
  }

  lemma NoJobs(deque: seq<nat>, jobs: map<nat, Job>, next: nat)
    ensures AddJobs(jobs, next, []) == jobs && deque + Ids(next, 0) == deque
  {
  }

  lemma EagerVisits(f: Frame, tokens: nat, next: nat)
    requires FrameInv(f) && f.pc.EagerAct? && 0 < tokens && !f.promoted
    ensures Visit(f, tokens, next) == Promote(f, tokens, next) && Promote(f, tokens, next).frame.promoted
  {
    PromoteKeepsFrame(f, tokens, next);
    hide FrameInv; hide Promote;
  }

  // ---------- the other steps ----------

  /** No other main-thread step touches the counter but the write of `fast_clone`, which adds the
      job's tokens to the value read before. */
  lemma MainTokens(w: Worker, jobs: map<nat, Job>, next: nat, s: nat)
    requires MainStep(w, jobs, next, s).Some? && !Top(w).pc.EagerAct?
    ensures var f, u := Top(w), MainStep(w, jobs, next, s).value.worker;
            && (f.pc.WriteBack? ==>
                  f.pend != [] && Last(f).id in jobs && u.tokens == f.saved + jobs[Last(f).id].hbt)
            && (!f.pc.WriteBack? ==> u.tokens == w.tokens)
  {
    hide MainStep; hide LoopStep; hide Receive; hide NewFrame; hide Callee; hide MovedPc;
    Kinds(w, jobs, next, s);
    var f := Top(w);
    if f.pc.Done? {
      DoneIs(w, jobs, next, s);
    } else if LoopStep(f, s).Some? {
      LoopIs(w, jobs, next, s);
    } else if Moves(f.pc) {
      MoveIs(w, jobs, next, s);
    } else if MayCall(f.pc) {
      CallIs(w, jobs, next, s);
    } else if f.pc.Join? {
      JoinIs(w, jobs, next, s);
    } else if f.pc.Popped? {
      PoppedIs(w, jobs, next, s);
    } else if f.pc.WriteBack? {
      WriteBackIs(w, jobs, next, s);
    } else {
      WaitIs(w, jobs, next, s);
    }
  }

  /** A thief is a worker without work of its own that is idle or waits; it can steal whenever
      another worker has a job to take. */
  lemma StealEnabled(st: State, w: nat, v: nat, t: Task, a0: Expr)
    requires SystemInv(st, t, a0) && w < |st.workers| && v < |st.workers|
    ensures Next(st, Steal(w, v)).Some? <==>
            && w != v && st.workers[v].deque != [] && st.workers[w].deque == []
            && (st.workers[w].stack == [] || Top(st.workers[w]).pc.Wait?)
  {
    hide WaitRule; hide JobsInv; hide Accounted; hide RootInv; hide WorkerInv; hide NewFrame;
    assert WorkerInv(st.workers[v], st.jobs, st.next);
    DequeKnown(st.workers[v], st.jobs, st.next);
    hide SystemInv;
  }

  /** It takes the oldest job and exactly the tokens that came with it. */
  lemma StealTakes(st: State, w: nat, v: nat, st': State, id: nat, j: Job)
    requires v < |st.workers| && st.workers[v].deque != [] && id == st.workers[v].deque[0]
    requires id in st.jobs && st.jobs[id] == j && Next(st, Steal(w, v)) == Some(st')
    ensures st'.jobs == st.jobs && |st'.workers| == |st.workers| && w < |st.workers|
    ensures st'.workers[v] == st.workers[v].(deque := st.workers[v].deque[1..])
    ensures st'.workers[w].tokens == j.hbt && st'.workers[w].deque == []
    ensures st'.workers[w].stack == st.workers[w].stack + [NewFrame(j.task, ToJob(id), st.next, Unit)]
    ensures forall u :: 0 <= u < |st.workers| && u != w && u != v ==> st'.workers[u] == st.workers[u]
  {
    hide NewFrame;
  }

  /** At its bound test a loop may take a step of any size up to the factor that fits the bound it
      has loaded. */
  lemma StepSizes(w: Worker, jobs: map<nat, Job>, next: nat, s: nat)
    requires w.stack != [] && Top(w).pc.Test? && Top(w).task.Loop? && Top(w).i < Top(w).seen
    ensures MainStep(w, jobs, next, s).Some? <==> 1 <= s <= Top(w).task.factor && Top(w).i + s <= Top(w).seen
    ensures MainStep(w, jobs, next, s).Some? ==>
              var u := MainStep(w, jobs, next, s).value.worker;
              u.stack != [] && Top(u).pc.Body? && Top(u).goal == Top(w).i + s
  {
  }
}
