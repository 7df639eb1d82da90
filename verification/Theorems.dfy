/** What the scheduler promises, for every run: every schedule, every placement of heartbeats,
    every steal, every mix of step sizes. */
module Theorems {
  import opened Tasks
  import opened Handler
  import opened Machine
  import opened Wrappers
  import opened FrameInvariant
  import opened StackInvariant
  import opened WorkerInvariant
  import opened StepInvariant
  import opened Stolen
  import opened SystemInvariant
  import opened Progress

  /** A run that delivers a result delivers, in every lawful monoid, what the sequential
      program computes.  Commutativity is not needed. */
  lemma ResultIsSequential<A(!new)>(t: Task, a0: Expr, n: nat, run: seq<State>, steps: seq<Step>, k: nat,
                                    m: Monoid<A>, f: int -> A)
    requires IsRun(t, a0, n, run, steps) && k < |run| && run[k].result.Some? && Lawful(m)
    ensures Eval(m, f, run[k].result.value) == Eval(m, f, Sequential(t, a0))
    ensures Eval(m, f, run[k].result.value) == m.op(Eval(m, f, a0), FoldWord(m, f, Leaves(t)))
  {
    RunKeeps(t, a0, n, run, steps, k);
    SequentialWord(t, a0);
    EvalIsWord(m, f, run[k].result.value);
    EvalIsWord(m, f, Sequential(t, a0));
    EvalIsWord(m, f, a0);
    FoldWordAppend(m, f, Word(a0), Leaves(t));
    hide IsRun; hide WorkersInv; hide Accounted;
  }

  /**
   Whenever a worker joins a job, its own deque tells which of the two cases of
   `sync` applies although the pop's result is discarded: the job at the
   owner's end is the very job being joined, or the deque is empty and another
   worker runs that job or has finished it.
   */
  lemma PopIsSynced(t: Task, a0: Expr, n: nat, run: seq<State>, steps: seq<Step>, k: nat, w: nat)
    requires IsRun(t, a0, n, run, steps) && k < |run| && w < |run[k].workers|
    requires var u := run[k].workers[w]; u.stack != [] && Top(u).pc.Join? && Top(u).pend != []
    ensures var u := run[k].workers[w];
            var id := Last(Top(u)).id;
            && id in run[k].jobs && run[k].jobs[id].task == Last(Top(u)).task
            && (u.deque != [] <==> id in u.deque)
            && (u.deque != [] ==> u.deque[|u.deque| - 1] == id)
            && (u.deque == [] ==> run[k].jobs[id].done.Some? || RunsElsewhere(run[k], w, id))
  {
    var u := run[k].workers[w];
    RunKeeps(t, a0, n, run, steps, k);
    hide IsRun;
    assert WorkerInv(u, run[k].jobs, run[k].next);
    TopFrame(u, run[k].jobs, run[k].next);
    assert Last(Top(u)) in Top(u).pend;
    hide WorkerInv; hide FrameInv;
    if u.deque != [] {
      DequeEnd(u, run[k].jobs, run[k].next);
    } else {
      WaitedIsTaken(u);
      assert Last(Top(u)).id in Taken(u);
      if run[k].jobs[Last(Top(u)).id].done.None? {
        var v := RunnerIsYounger(run[k], Last(Top(u)).id, t, a0);
        StolenElsewhere(run[k], w, t, a0);
      }
    }
  }

  /** A worker other than `w` runs job `id`. */
  ghost predicate RunsElsewhere(st: State, w: nat, id: nat) {
    exists v, k :: 0 <= v < |st.workers| && v != w && 0 <= k < |st.workers[v].stack|
                   && st.workers[v].stack[k].ret == ToJob(id)
  }

  /** No frame of a worker runs a job that its own top frame still has to join. */
  lemma StolenElsewhere(st: State, w: nat, t: Task, a0: Expr)
    requires SystemInv(st, t, a0) && w < |st.workers| && st.workers[w].stack != []
    requires Top(st.workers[w]).pend != []
    requires Running(st.workers, Last(Top(st.workers[w])).id)
    ensures RunsElsewhere(st, w, Last(Top(st.workers[w])).id)
  {
    hide WorkerInv; hide WaitRule; hide JobsInv; hide Accounted; hide RootInv;
    var u := st.workers[w];
    var id := Last(Top(u)).id;
    var v, k :| 0 <= v < |st.workers| && 0 <= k < |st.workers[v].stack| && st.workers[v].stack[k].ret == ToJob(id);
    assert WorkerInv(u, st.jobs, st.next);
    if v == w {
      RunnerIsNotOwner(u, k, st.jobs, st.next);
    }
  }

  /** The frames of the worker that is joining a job are older than the job. */
  lemma RunnerIsNotOwner(w: Worker, k: nat, jobs: map<nat, Job>, next: nat)
    requires WorkerInv(w, jobs, next) && k < |w.stack| && Top(w).pend != []
    ensures w.stack[k].ret != ToJob(Last(Top(w)).id)
  {
    hide FrameInv; hide Pending; hide TokenRule; hide DisabledRule; hide IsSuffix; hide PromotedFirst; hide Awaited;
    TopFrame(w, jobs, next);
    assert Last(Top(w)) in Top(w).pend;
    FrameOnStack(w.stack, k, jobs, next);
    BirthsIncrease(w.stack, k, |w.stack| - 1);
  }

  /**
   Promoted slots form a prefix of the slot chain; outside the window between
   the commit of a slot and the end of its eager promotion, tokens mean that
   every slot is promoted; and below a waiting frame every slot is promoted, so
   that a worker without heartbeats misses no promotion there.
   */
  lemma SlotsInOrder(t: Task, a0: Expr, n: nat, run: seq<State>, steps: seq<Step>, k: nat, w: nat)
    requires IsRun(t, a0, n, run, steps) && k < |run| && w < |run[k].workers|
    ensures var u := run[k].workers[w];
            && PromotedFirst(u.stack)
            && (u.tokens != 0 && (u.stack != [] ==> !Window(Top(u).pc)) ==>
                  forall f :: f in u.stack && Live(f.pc) ==> f.promoted)
            && (forall j, f :: 0 <= j < |u.stack| && u.stack[j].pc.Wait? && f in u.stack[..j + 1] && Live(f.pc) ==>
                                 f.promoted)
  {
    var u := run[k].workers[w];
    RunKeeps(t, a0, n, run, steps, k);
    hide IsRun; hide WaitRule; hide JobsInv; hide Accounted; hide RootInv; hide Pending; hide FrameInv; hide Known;
    assert WorkerInv(u, run[k].jobs, run[k].next);
    forall j, f | 0 <= j < |u.stack| && u.stack[j].pc.Wait? && f in u.stack[..j + 1] && Live(f.pc)
      ensures f.promoted
    {
      WaitingBelow(u, j, run[k].jobs, run[k].next);
    }
  }

  /**
   The loop against its handler, at every micro-step: the published progress
   trails the index by at most the published factor, the bound only ever
   shortens, the step in flight fits the current bound even when its test read
   an older one, and a loop is left exactly at its bound.
   */
  lemma LoopBounds(t: Task, a0: Expr, n: nat, run: seq<State>, steps: seq<Step>, k: nat, w: nat, j: nat)
    requires IsRun(t, a0, n, run, steps) && k < |run| && w < |run[k].workers| && j < |run[k].workers[w].stack|
    requires run[k].workers[w].stack[j].task.Loop? && Live(run[k].workers[w].stack[j].pc)
    ensures var f := run[k].workers[w].stack[j];
            && f.ssi <= f.i <= f.ssi + f.task.factor
            && f.i <= f.end <= |f.task.items|
            && (f.pc.Test? ==> f.end <= f.seen && (f.end < f.seen ==> f.end == f.ssi + f.task.factor))
            && (f.pc.Body? || f.pc.Nested? || f.pc.Advance? ==> f.i < f.goal)
            && (f.pc.Body? || f.pc.Nested? || f.pc.Advance? || f.pc.Publish? ==>
                  f.goal <= f.end && f.goal <= f.ssi + f.task.factor)
            && (f.pc.Close? ==> f.i == f.end)
  {
    RunKeeps(t, a0, n, run, steps, k);
    hide IsRun; hide WaitRule; hide JobsInv; hide Accounted; hide RootInv; hide Pending; hide Known;
    var u := run[k].workers[w];
    assert WorkerInv(u, run[k].jobs, run[k].next);
    LiveLoops(u.stack[j]);
  }

  lemma LiveLoops(f: Frame)
    requires FrameInv(f) && f.task.Loop? && Live(f.pc)
    ensures LoopInv(f)
  {
  }

  /** Only a handler call moves the bound, and only to `progress + factor`. */
  lemma HandlerShortens(f: Frame, tokens: nat, next: nat)
    requires FrameInv(f) && f.task.Loop? && 0 < tokens
    ensures var g := Visit(f, tokens, next).frame;
            && g.end <= f.end
            && (g.end < f.end ==> g.end == f.ssi + f.task.factor && g.promoted)
            && g.i == f.i && g.ssi == f.ssi && g.goal == f.goal && g.seen == f.seen && g.a == f.a
            && (g.pend != f.pend ==> LeavesOf(Slice(f.task.items, g.end, f.end)) == PendWord(g.pend))
  {
    if Live(f.pc) && !f.promoted {
      LiveLoops(f);
      var s := SplitRange(f.ssi, f.end, f.task.factor);
      if s.Split? {
        PromoteSplits(f, tokens, next);
        var g := Promote(f, tokens, next).frame;
        SplitOwed(f, s.prom, s.mid, g.pend);
      }
    }
  }

  /**
   How a promotion shares out what is left after its own token.  A fork's job
   gets the smaller half.  A loop's `r` gets the larger half of everything; `l`
   takes all of the rest with it, and only without `l` does the worker keep it.
   */
  lemma TokenShares(f: Frame, tokens: nat, next: nat)
    requires 0 < tokens
    ensures var p := Promote(f, tokens, next);
            && (f.task.Fork? ==> |p.spawned| == 1 && p.spawned[0].hbt <= p.tokens <= p.spawned[0].hbt + 1)
            && (f.task.Loop? && |p.spawned| == 1 ==> p.tokens <= p.spawned[0].hbt <= p.tokens + 1)
            && (f.task.Loop? && |p.spawned| == 2 ==>
                  p.tokens == 0 && p.spawned[1].hbt <= p.spawned[0].hbt <= p.spawned[1].hbt + 1)
            && p.tokens + TokensOf(p.spawned) == tokens - 1
  {
    PromoteJobs(f, tokens, next);
  }
}
