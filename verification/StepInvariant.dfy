/** Each kind of main-thread micro-step keeps the invariant of its worker. */
module StepInvariant {
  import opened Tasks
  import opened Machine
  import opened StepCases
  import opened Wrappers
  import opened FrameInvariant
  import opened StackInvariant
  import opened WorkerInvariant

  lemma TopFrame(w: Worker, jobs: map<nat, Job>, next: nat)
    requires WorkerInv(w, jobs, next) && w.stack != []
    ensures FrameInv(Top(w)) && Known(Top(w), jobs) && Top(w).birth < next
  {
    hide FrameInv; hide Known;
    FrameOnStack(w.stack, |w.stack| - 1, jobs, next);
  }

  /** Tokens and an unpromoted slot on top meet only inside the window. */
  lemma TopTokens(w: Worker, jobs: map<nat, Job>, next: nat)
    requires WorkerInv(w, jobs, next) && w.stack != []
    ensures w.tokens != 0 && Live(Top(w).pc) && !Top(w).promoted ==> Window(Top(w).pc)
    ensures w.disabled <==> Eager(Top(w).pc)
  {
    hide StackRule;
  }

  lemma UnjoinedAfter(f: Frame, pc: Pc)
    requires FrameInv(f) && Relabels(f, pc) && !pc.Popped?
    ensures Unjoined(f.(pc := pc)) == Unjoined(f)
  {
  }

  lemma RelabelKeeps(w: Worker, pc: Pc, u: Worker, jobs: map<nat, Job>, next: nat)
    requires WorkerInv(w, jobs, next) && w.stack != [] && Relabels(Top(w), pc) && !pc.Popped?
    requires u.stack == Below(w) + [Top(w).(pc := pc)] && u.deque == w.deque
    requires u.tokens != 0 ==>
               (w.tokens != 0 || Top(w).promoted) && (Live(pc) && !Top(w).promoted ==> Window(pc))
    requires u.disabled <==> Eager(pc)
    ensures WorkerInv(u, jobs, next)
  {
    hide FrameInv; hide Relabels; hide WorkerInv; hide Unjoined; hide Pending; hide IsSuffix;
    TopFrame(w, jobs, next);
    DequeOfTop(w, jobs, next);
    RelabelKeepsFrame(Top(w), pc);
    UnjoinedAfter(Top(w), pc);
    TopKeeps(w, Top(w).(pc := pc), u, jobs, next);
  }

  lemma DropSuffix(d: seq<nat>, p: seq<nat>, q: seq<nat>, x: nat)
    requires IsSuffix(d, p + (q + [x])) && d != []
    ensures IsSuffix(d[..|d| - 1], p + q) && d[|d| - 1] == x
  {
    var n := |p + (q + [x])|;
    assert d == (p + (q + [x]))[n - |d|..];
    assert (p + (q + [x]))[..n - 1] == p + q;
  }

  /** The job at the owner's end of a nonempty deque is the one the top frame joins next. */
  lemma DequeEnd(w: Worker, jobs: map<nat, Job>, next: nat)
    requires WorkerInv(w, jobs, next) && w.stack != [] && Top(w).pc.Join? && Top(w).pend != [] && w.deque != []
    ensures w.deque[|w.deque| - 1] == Last(Top(w)).id
    ensures IsSuffix(w.deque[..|w.deque| - 1], Pending(Below(w)) + Unjoined(Top(w).(pc := Popped)))
  {
    hide FrameInv; hide WorkerInv; hide Pending;
    DequeOfTop(w, jobs, next);
    var f := Top(w);
    assert Unjoined(f) == PendIds(DropLast(f)) + [Last(f).id];
    hide IsSuffix;
    DropSuffix(w.deque, Pending(Below(w)), PendIds(DropLast(f)), Last(f).id);
  }

  /** The owner pops the job it is joining. */
  lemma PopJobKeeps(w: Worker, jobs: map<nat, Job>, next: nat)
    requires WorkerInv(w, jobs, next) && w.stack != [] && Top(w).pc.Join? && Top(w).pend != [] && w.deque != []
    ensures WorkerInv(SetTop(w, Top(w).(pc := Popped)).(deque := w.deque[..|w.deque| - 1]), jobs, next)
  {
    hide WorkerInv; hide FrameInv; hide Unjoined; hide Pending; hide IsSuffix; hide Relabels; hide SameCall; hide Known;
    hide Live; hide Eager; hide Window;
    var f := Top(w);
    TopTokens(w, jobs, next);
    TopFrame(w, jobs, next);
    DequeEnd(w, jobs, next);
    JoinStays(f, Popped);
    RelabelKeepsFrame(f, Popped);
    TopKeeps(w, f.(pc := Popped), SetTop(w, f.(pc := Popped)).(deque := w.deque[..|w.deque| - 1]), jobs, next);
  }

  /** A frame that moves on among its joins. */
  lemma JoinStays(f: Frame, pc: Pc)
    requires FrameInv(f) && Joining(f.pc) && f.pend != []
    requires (f.pc.Join? && pc.Popped?) || (f.pc.Popped? && pc.WriteBack? && Last(f).reclaim)
    ensures Relabels(f, pc) && SameCall(f, f.(pc := pc)) && f.promoted
    ensures !Live(pc) && !Eager(pc) && !Eager(f.pc)
  {
    hide Owed; hide Word; hide Leaves;
  }

  lemma JoiningPromoted(f: Frame)
    requires FrameInv(f) && Joining(f.pc)
    ensures f.promoted && (Syncing(f.pc) ==> f.pend != [])
  {
  }

  // ---------- one lemma for each group of micro-steps ----------

  lemma MovedRelabels(w: Worker)
    requires w.stack != [] && Moves(Top(w).pc)
    ensures var pc := MovedPc(w); Relabels(Top(w), pc) && !pc.Popped? && !pc.Wait?
  {
  }

  lemma EnterStep(w: Worker, jobs: map<nat, Job>, next: nat, s: nat)
    requires WorkerInv(w, jobs, next) && w.stack != [] && MainStep(w, jobs, next, s).Some?
    requires Top(w).pc.Enter? || Top(w).pc.Committed? || Top(w).pc.EagerOff? || Top(w).pc.EagerOn?
    ensures var o := MainStep(w, jobs, next, s).value;
            WorkerInv(o.worker, jobs, next) && o.jobs == jobs && o.next == next
  {
    TopTokens(w, jobs, next);
    TopFrame(w, jobs, next);
    MoveIs(w, jobs, next, s);
    hide WorkerInv; hide MainStep;
    RelabelKeeps(w, MovedPc(w), MainStep(w, jobs, next, s).value.worker, jobs, next);
  }

  lemma EagerWalk(w: Worker, jobs: map<nat, Job>, next: nat)
    requires WorkerInv(w, jobs, next) && JobsInv(jobs, next) && w.stack != []
    requires Live(Top(w).pc) && w.tokens != 0 && !Top(w).promoted
    ensures var p := Promote(Top(w), w.tokens, next);
            WorkerInv(w.(stack := Below(w) + [p.frame], tokens := p.tokens,
                      deque := w.deque + Ids(next, |p.spawned|)),
                      AddJobs(jobs, next, p.spawned), next + |p.spawned|)
  {
    hide FrameInv; hide PromoteFront; hide AddJobs; hide JobsInv; hide Promote; hide WorkerInv; hide Ids;
    assert forall g :: g in Below(w) && Live(g.pc) ==> g.promoted by { PromotedBelow(w, jobs, next); }
    EagerIsWalk(Below(w), Top(w), w.tokens, next);
    assert w.stack == Below(w) + [Top(w)];
    HandlerKeeps(w, w.tokens, jobs, next);
  }

  lemma EagerDone(v: Worker, jobs: map<nat, Job>, next: nat)
    requires WorkerInv(v, jobs, next) && v.stack != [] && Top(v).pc.EagerAct?
    requires v.tokens == 0 || Top(v).promoted
    ensures WorkerInv(SetTop(v, Top(v).(pc := EagerOn)), jobs, next)
  {
    TopTokens(v, jobs, next);
    hide WorkerInv;
    RelabelKeeps(v, EagerOn, SetTop(v, Top(v).(pc := EagerOn)), jobs, next);
  }

  lemma EagerPromotion(w: Worker, jobs: map<nat, Job>, next: nat)
    requires WorkerInv(w, jobs, next) && JobsInv(jobs, next) && w.stack != []
    requires Top(w).pc.EagerAct? && w.tokens != 0 && !Top(w).promoted
    ensures var p := Promote(Top(w), w.tokens, next);
            WorkerInv(SetTop(w, p.frame.(pc := EagerOn)).(tokens := p.tokens,
                      deque := w.deque + Ids(next, |p.spawned|)),
                      AddJobs(jobs, next, p.spawned), next + |p.spawned|)
  {
    hide WorkerInv; hide FrameInv; hide AddJobs; hide JobsInv; hide Ids; hide Promote;
    EagerWalk(w, jobs, next);
    assert Promote(Top(w), w.tokens, next).frame.pc.EagerAct? && Promote(Top(w), w.tokens, next).frame.promoted by {
      TopFrame(w, jobs, next);
      PromoteKeepsFrame(Top(w), w.tokens, next);
    }
    var p := Promote(Top(w), w.tokens, next);
    var v := w.(stack := Below(w) + [p.frame], tokens := p.tokens, deque := w.deque + Ids(next, |p.spawned|));
    EagerDone(v, AddJobs(jobs, next, p.spawned), next + |p.spawned|);
  }

  /** `eager_promote` promotes the slot on top just as a handler call would. */
  lemma EagerStep(w: Worker, jobs: map<nat, Job>, next: nat)
    requires WorkerInv(w, jobs, next) && JobsInv(jobs, next) && w.stack != [] && Top(w).pc.EagerAct?
    ensures var o := EagerPromote(w, jobs, next);
            WorkerInv(o.worker, o.jobs, o.next) && JobsInv(o.jobs, o.next) && Extends(jobs, o.jobs)
  {
    hide WorkerInv; hide FrameInv; hide AddJobs; hide Ids; hide Promote;
    if w.tokens != 0 && !Top(w).promoted {
      EagerPromotion(w, jobs, next);
      SpawnExtends(jobs, next, Promote(Top(w), w.tokens, next).spawned);
    } else {
      EagerDone(w, jobs, next);
    }
  }

  lemma LoopStepCall(f: Frame, s: nat)
    requires LoopStep(f, s).Some?
    ensures var g := LoopStep(f, s).value;
            SameCall(f, g) && Unjoined(g) == Unjoined(f) && Live(f.pc) && !Window(f.pc) && !Eager(g.pc)
  {
  }

  lemma LoopStepKeeps(w: Worker, jobs: map<nat, Job>, next: nat, s: nat)
    requires WorkerInv(w, jobs, next) && w.stack != [] && LoopStep(Top(w), s).Some?
    ensures WorkerInv(SetTop(w, LoopStep(Top(w), s).value), jobs, next)
  {
    TopTokens(w, jobs, next);
    hide WorkerInv; hide FrameInv; hide Unjoined; hide Pending; hide IsSuffix;
    TopFrame(w, jobs, next);
    DequeOfTop(w, jobs, next);
    LoopStepKeepsFrame(Top(w), s);
    LoopStepCall(Top(w), s);
    hide LoopStep;
    TopKeeps(w, LoopStep(Top(w), s).value, SetTop(w, LoopStep(Top(w), s).value), jobs, next);
  }

  /** The top frame calls a body, a fork's branch, or a job it has popped. */
  lemma CallStep(w: Worker, pc: Pc, jobs: map<nat, Job>, next: nat)
    requires WorkerInv(w, jobs, next) && w.stack != [] && Relabels(Top(w), pc) && Awaiting(pc)
    ensures WorkerInv(Push(w, Top(w).(pc := pc), Awaited(Top(w).(pc := pc)), next), jobs, next + 1)
  {
    TopTokens(w, jobs, next);
    TopFrame(w, jobs, next);
    CallTokens(Top(w), pc);
    hide WorkerInv; hide FrameInv; hide Unjoined;
    RelabelKeepsFrame(Top(w), pc);
    UnjoinedAfter(Top(w), pc);
    CallKeeps(w, Top(w).(pc := pc), Awaited(Top(w).(pc := pc)), jobs, next);
  }

  lemma CallTokens(f: Frame, pc: Pc)
    requires Relabels(f, pc) && Awaiting(pc)
    ensures Live(pc) ==> Live(f.pc) && !Window(f.pc)
    ensures !Eager(f.pc)
  {
  }

  lemma SaveKeepsFrame(f: Frame, t: nat)
    requires FrameInv(f)
    ensures FrameInv(f.(saved := t)) && Unjoined(f.(saved := t)) == Unjoined(f)
  {
    SaveOwed(f, t);
    hide Owed; hide Unjoined;
    if f.task.Loop? && Looping(f.pc) {
      SaveLoop(f, t);
    }
    hide LoopInv;
  }

  lemma SaveOwed(f: Frame, t: nat)
    ensures Owed(f.(saved := t)) == Owed(f) && Unjoined(f.(saved := t)) == Unjoined(f)
  {
  }

  lemma SaveLoop(f: Frame, t: nat)
    requires f.task.Loop? && LoopInv(f)
    ensures LoopInv(f.(saved := t))
  {
  }

  /** The read half of `fast_clone`'s token update. */
  lemma SaveStep(w: Worker, jobs: map<nat, Job>, next: nat)
    requires WorkerInv(w, jobs, next) && w.stack != [] && Top(w).pc.Popped?
    requires Top(w).pend != [] && Last(Top(w)).reclaim
    ensures WorkerInv(SetTop(w, Top(w).(saved := w.tokens, pc := WriteBack)), jobs, next)
  {
    hide WorkerInv; hide FrameInv; hide Unjoined; hide Pending; hide IsSuffix; hide Relabels; hide Known;
    hide Live; hide Eager; hide Window;
    var f := Top(w);
    var g := f.(saved := w.tokens);
    TopTokens(w, jobs, next);
    TopFrame(w, jobs, next);
    DequeOfTop(w, jobs, next);
    SaveKeepsFrame(f, w.tokens);
    JoinStays(g, WriteBack);
    RelabelKeepsFrame(g, WriteBack);
    UnjoinedAfter(g, WriteBack);
    TopKeeps(w, g.(pc := WriteBack), SetTop(w, g.(pc := WriteBack)), jobs, next);
  }

  lemma MovedOn(f: Frame, pc: Pc)
    requires Relabels(f, pc) && (f.pc.Close? || f.pc.Join? || f.pc.Popped? || f.pc.WriteBack?)
    requires !pc.Popped? && !pc.Inline?
    ensures !Live(pc) && !Eager(pc) && !Eager(f.pc)
  {
  }

  /** The steps of closing and joining that only move the frame on. */
  lemma MoveOn(w: Worker, pc: Pc, tokens: nat, jobs: map<nat, Job>, next: nat)
    requires WorkerInv(w, jobs, next) && w.stack != [] && Relabels(Top(w), pc)
    requires Top(w).pc.Close? || Top(w).pc.Join? || Top(w).pc.Popped? || Top(w).pc.WriteBack?
    requires !pc.Popped? && !pc.Inline? && (tokens == w.tokens || Top(w).pc.WriteBack?)
    ensures WorkerInv(SetTop(w, Top(w).(pc := pc)).(tokens := tokens), jobs, next)
  {
    TopTokens(w, jobs, next);
    MovedOn(Top(w), pc);
    hide WorkerInv; hide Relabels; hide Live; hide Eager; hide Window;
    if Top(w).pc.WriteBack? {
      TopFrame(w, jobs, next);
      JoiningPromoted(Top(w));
    }
    hide FrameInv;
    RelabelKeeps(w, pc, SetTop(w, Top(w).(pc := pc)).(tokens := tokens), jobs, next);
  }

  lemma CloseStep(w: Worker, jobs: map<nat, Job>, next: nat, s: nat)
    requires WorkerInv(w, jobs, next) && w.stack != [] && Top(w).pc.Close? && MainStep(w, jobs, next, s).Some?
    ensures var o := MainStep(w, jobs, next, s).value;
            WorkerInv(o.worker, jobs, next) && o.jobs == jobs && o.next == next
  {
    hide WorkerInv; hide FrameInv; hide MainStep;
    MoveIs(w, jobs, next, s);
    MoveOn(w, MovedPc(w), w.tokens, jobs, next);
  }

  lemma JoinStep(w: Worker, jobs: map<nat, Job>, next: nat, s: nat)
    requires WorkerInv(w, jobs, next) && w.stack != [] && Top(w).pc.Join? && MainStep(w, jobs, next, s).Some?
    ensures var o := MainStep(w, jobs, next, s).value;
            WorkerInv(o.worker, jobs, next) && o.jobs == jobs && o.next == next
  {
    hide WorkerInv; hide FrameInv; hide MainStep;
    JoinIs(w, jobs, next, s);
    if Top(w).pend == [] {
      MoveOn(w, Done, w.tokens, jobs, next);
    } else if w.deque == [] {
      MoveOn(w, Wait, w.tokens, jobs, next);
    } else {
      PopJobKeeps(w, jobs, next);
    }
  }

  lemma PoppedStep(w: Worker, jobs: map<nat, Job>, next: nat, s: nat)
    requires WorkerInv(w, jobs, next) && w.stack != [] && MainStep(w, jobs, next, s).Some?
    requires Top(w).pc.Popped? || Top(w).pc.WriteBack?
    ensures var o := MainStep(w, jobs, next, s).value;
            WorkerInv(o.worker, jobs, next) && o.jobs == jobs && o.next == next
  {
    hide WorkerInv; hide FrameInv; hide MainStep;
    Kinds(w, jobs, next, s);
    var f := Top(w);
    if f.pc.WriteBack? {
      WriteBackIs(w, jobs, next, s);
      MoveOn(w, Call, f.saved + jobs[Last(f).id].hbt, jobs, next);
    } else {
      PoppedIs(w, jobs, next, s);
      if Last(f).reclaim {
        SaveStep(w, jobs, next);
      } else {
        MoveOn(w, Call, w.tokens, jobs, next);
      }
    }
  }

  lemma ResumeStep(w: Worker, jobs: map<nat, Job>, next: nat, s: nat)
    requires WorkerInv(w, jobs, next) && JobsInv(jobs, next) && (w.stack != [] && Top(w).pc.Wait? ==> w.deque == [])
    requires w.stack != [] && MainStep(w, jobs, next, s).Some? && Top(w).pc.Wait?
    ensures var o := MainStep(w, jobs, next, s).value;
            WorkerInv(o.worker, jobs, next) && o.jobs == jobs && o.next == next
  {
    hide WorkerInv; hide JobsInv; hide MainStep; hide Receive;
    WaitIs(w, jobs, next, s);
    ResumeKeeps(w, jobs, next);
  }

  lemma FinishExtends(f: Frame, jobs: map<nat, Job>, next: nat)
    requires JobsInv(jobs, next) && FrameInv(f) && f.pc.Done? && Known(f, jobs) && f.ret.ToJob?
    ensures var more := jobs[f.ret.id := jobs[f.ret.id].(done := Some(f.a))];
            JobsInv(more, next) && Extends(jobs, more)
  {
    DoneJoined(f);
    hide FrameInv;
  }

  lemma ReturnToJob(w: Worker, jobs: map<nat, Job>, next: nat)
    requires WorkerInv(w, jobs, next) && JobsInv(jobs, next)
    requires w.stack != [] && Top(w).pc.Done? && Top(w).ret.ToJob? && Top(w).ret.id in jobs
    ensures var id := Top(w).ret.id;
            var more := jobs[id := jobs[id].(done := Some(Top(w).a))];
            WorkerInv(w.(stack := Below(w)), more, next) && JobsInv(more, next) && Extends(jobs, more)
  {
    hide WorkerInv; hide FrameInv; hide JobsInv; hide Extends; hide Known;
    TopFrame(w, jobs, next);
    FinishExtends(Top(w), jobs, next);
    PopKeeps(w, jobs, next);
    var id := Top(w).ret.id;
    ExtendsKeeps(w.(stack := Below(w)), jobs, next, jobs[id := jobs[id].(done := Some(Top(w).a))], next);
  }

  lemma ReturnStep(w: Worker, jobs: map<nat, Job>, next: nat, s: nat)
    requires WorkerInv(w, jobs, next) && JobsInv(jobs, next)
    requires w.stack != [] && MainStep(w, jobs, next, s).Some? && Top(w).pc.Done?
    ensures var o := MainStep(w, jobs, next, s).value;
            && WorkerInv(o.worker, o.jobs, o.next) && JobsInv(o.jobs, o.next) && Extends(jobs, o.jobs)
  {
    hide WorkerInv; hide JobsInv; hide MainStep; hide Receive;
    DoneIs(w, jobs, next, s);
    match Top(w).ret {
      case ToRoot => PopKeeps(w, jobs, next);
      case ToCaller => ReturnKeeps(w, jobs, next);
      case ToJob(_) => ReturnToJob(w, jobs, next);
    }
  }

  /** The frame that makes a call resumes with the value of the task it called. */
  lemma CalleeAwaited(f: Frame)
    requires f.pc.Call? ==> f.pend != []
    requires f.pc.Head? || f.pc.Gap? || f.pc.Right? ==> f.task.Fork?
    requires f.pc.Body? ==> f.task.Loop? && f.i < |f.task.items|
    requires MayCall(f.pc)
    ensures Awaited(f.(pc := CallingPc(f.pc))) == Callee(f)
    ensures Relabels(f, CallingPc(f.pc)) && Awaiting(CallingPc(f.pc))
  {
  }

  lemma CallingStep(w: Worker, jobs: map<nat, Job>, next: nat, s: nat)
    requires WorkerInv(w, jobs, next) && MainStep(w, jobs, next, s).Some?
    requires MayCall(Top(w).pc) && LoopStep(Top(w), s).None?
    ensures var o := MainStep(w, jobs, next, s).value; WorkerInv(o.worker, o.jobs, o.next) && o.jobs == jobs
  {
    var f := Top(w);
    hide WorkerInv; hide LoopStep; hide Push; hide MainStep;
    CallIs(w, jobs, next, s);
    CalleeAwaited(f);
    CallStep(w, CallingPc(f.pc), jobs, next);
    hide Awaited; hide Callee; hide Relabels;
  }

  /** Every main-thread micro-step keeps the invariant. */
  lemma MainStepKeeps(w: Worker, jobs: map<nat, Job>, next: nat, s: nat)
    requires WorkerInv(w, jobs, next) && JobsInv(jobs, next) && (w.stack != [] && Top(w).pc.Wait? ==> w.deque == [])
    requires MainStep(w, jobs, next, s).Some?
    ensures var o := MainStep(w, jobs, next, s).value;
            && WorkerInv(o.worker, o.jobs, o.next) && JobsInv(o.jobs, o.next) && Extends(jobs, o.jobs)
  {
    hide WorkerInv; hide MainStep; hide LoopStep; hide JobsInv;
    Kinds(w, jobs, next, s);
    var f := Top(w);
    if f.pc.EagerAct? {
      EagerActIs(w, jobs, next, s);
      EagerStep(w, jobs, next);
    } else if f.pc.Done? {
      ReturnStep(w, jobs, next, s);
    } else {
      QuietStep(w, jobs, next, s);
    }
  }

  /** The micro-steps that leave the job table alone. */
  lemma QuietStep(w: Worker, jobs: map<nat, Job>, next: nat, s: nat)
    requires WorkerInv(w, jobs, next) && JobsInv(jobs, next) && (w.stack != [] && Top(w).pc.Wait? ==> w.deque == [])
    requires MainStep(w, jobs, next, s).Some? && !Top(w).pc.EagerAct? && !Top(w).pc.Done?
    ensures var o := MainStep(w, jobs, next, s).value;
            && WorkerInv(o.worker, o.jobs, o.next) && JobsInv(o.jobs, o.next) && Extends(jobs, o.jobs)
            && o.jobs == jobs && next <= o.next
  {
    hide WorkerInv; hide MainStep; hide LoopStep;
    Kinds(w, jobs, next, s);
    var f := Top(w);
    if f.pc.Close? {
      CloseStep(w, jobs, next, s);
    } else if Moves(f.pc) {
      EnterStep(w, jobs, next, s);
    } else if f.pc.Join? {
      JoinStep(w, jobs, next, s);
    } else if f.pc.Popped? || f.pc.WriteBack? {
      PoppedStep(w, jobs, next, s);
    } else if f.pc.Wait? {
      ResumeStep(w, jobs, next, s);
    } else if LoopStep(f, s).Some? {
      LoopIs(w, jobs, next, s);
      LoopStepKeeps(w, jobs, next, s);
    } else {
      CallingStep(w, jobs, next, s);
      CallIs(w, jobs, next, s);
    }
  }
}
