/** `MainStep` case by case, so that a proof about one kind of micro-step sees only that kind. */
module StepCases {
  import opened Tasks
  import opened Machine
  import opened Wrappers

  /** Micro-steps that only move the top frame on. */
  predicate Moves(pc: Pc) {
    pc.Enter? || pc.Committed? || pc.EagerOff? || pc.EagerOn? || pc.Close?
  }

  function MovedPc(w: Worker): Pc
    requires w.stack != []
  {
    var f := Top(w);
    match f.pc
    case Enter => Committed
    case Committed => if w.tokens != 0 then EagerOff else Head
    case EagerOff => EagerAct
    case EagerOn => Head
    case _ => if f.task.Fork? then Gap else if f.promoted then Join else Done
  }

  lemma MoveIs(w: Worker, jobs: map<nat, Job>, next: nat, s: nat)
    requires w.stack != [] && Moves(Top(w).pc)
    ensures var f := Top(w);
            MainStep(w, jobs, next, s)
            == Tau(SetTop(w, f.(pc := MovedPc(w))).(disabled := f.pc.EagerOff? || (!f.pc.EagerOn? && w.disabled)),
                   jobs, next)
  {
  }

  /** Micro-steps at which the top frame may call another. */
  predicate MayCall(pc: Pc) {
    pc.Head? || pc.Body? || pc.Gap? || pc.Right? || pc.Call?
  }

  function CallingPc(pc: Pc): Pc {
    match pc
    case Head => AwaitLeft
    case Gap => AwaitGap
    case Right => AwaitRight
    case Call => Inline
    case _ => Nested
  }

  function Callee(f: Frame): Task {
    if f.pc.Call? then (if f.pend != [] then Last(f).task else f.task)
    else
      match f.task
      case Leaf(_) => f.task
      case Loop(_, items) => if f.i < |items| then items[f.i] else f.task
      case Fork(left, gap, right) => if f.pc.Head? then left else if f.pc.Gap? then gap else right
  }

  lemma CallIs(w: Worker, jobs: map<nat, Job>, next: nat, s: nat)
    requires MainStep(w, jobs, next, s).Some? && MayCall(Top(w).pc) && LoopStep(Top(w), s).None?
    ensures var f := Top(w);
            && MainStep(w, jobs, next, s) == Tau(Push(w, f.(pc := CallingPc(f.pc)), Callee(f), next), jobs, next + 1)
            && (f.pc.Call? ==> f.pend != [])
            && (f.pc.Head? || f.pc.Gap? || f.pc.Right? ==> f.task.Fork?)
            && (f.pc.Body? ==> f.task.Loop? && f.i < |f.task.items| && !f.task.items[f.i].Leaf?)
  {
    hide LoopStep; hide Push;
  }

  lemma LoopIs(w: Worker, jobs: map<nat, Job>, next: nat, s: nat)
    requires w.stack != [] && LoopStep(Top(w), s).Some?
    ensures MainStep(w, jobs, next, s) == Tau(SetTop(w, LoopStep(Top(w), s).value), jobs, next)
    ensures var pc := Top(w).pc; pc.Head? || pc.Test? || pc.Body? || pc.Advance? || pc.Publish?
    ensures Top(w).task.Loop?
  {
  }

  lemma EagerActIs(w: Worker, jobs: map<nat, Job>, next: nat, s: nat)
    requires w.stack != [] && Top(w).pc.EagerAct?
    ensures MainStep(w, jobs, next, s) == Some(EagerPromote(w, jobs, next))
  {
    hide EagerPromote;
  }

  lemma JoinIs(w: Worker, jobs: map<nat, Job>, next: nat, s: nat)
    requires w.stack != [] && Top(w).pc.Join?
    ensures var f := Top(w);
            MainStep(w, jobs, next, s)
            == if f.pend == [] then Tau(SetTop(w, f.(pc := Done)), jobs, next)
            else if w.deque == [] then Tau(SetTop(w, f.(pc := Wait)), jobs, next)
            else Tau(SetTop(w, f.(pc := Popped)).(deque := w.deque[..|w.deque| - 1]), jobs, next)
  {
  }

  lemma PoppedIs(w: Worker, jobs: map<nat, Job>, next: nat, s: nat)
    requires w.stack != [] && Top(w).pc.Popped? && Top(w).pend != []
    ensures var f := Top(w);
            MainStep(w, jobs, next, s)
            == if Last(f).reclaim then Tau(SetTop(w, f.(saved := w.tokens, pc := WriteBack)), jobs, next)
            else Tau(SetTop(w, f.(pc := Call)), jobs, next)
  {
  }

  lemma WriteBackIs(w: Worker, jobs: map<nat, Job>, next: nat, s: nat)
    requires w.stack != [] && Top(w).pc.WriteBack? && Top(w).pend != [] && Last(Top(w)).id in jobs
    ensures var f := Top(w);
            MainStep(w, jobs, next, s)
            == Tau(SetTop(w, f.(pc := Call)).(tokens := f.saved + jobs[Last(f).id].hbt), jobs, next)
  {
  }

  lemma WaitIs(w: Worker, jobs: map<nat, Job>, next: nat, s: nat)
    requires MainStep(w, jobs, next, s).Some? && Top(w).pc.Wait?
    ensures var f := Top(w);
            && f.pend != [] && Last(f).id in jobs && jobs[Last(f).id].done.Some?
            && MainStep(w, jobs, next, s) == Tau(SetTop(w, Receive(f, jobs[Last(f).id].done.value)), jobs, next)
  {
    hide Receive;
  }

  lemma DoneIs(w: Worker, jobs: map<nat, Job>, next: nat, s: nat)
    requires MainStep(w, jobs, next, s).Some? && Top(w).pc.Done?
    ensures var f := Top(w);
            var u := w.(stack := Below(w));
            match f.ret
            case ToRoot => MainStep(w, jobs, next, s) == Some(Outcome(u, jobs, next, Some(f.a), 0))
            case ToJob(id) =>
              && id in jobs
              && MainStep(w, jobs, next, s) == Tau(u, jobs[id := jobs[id].(done := Some(f.a))], next)
            case ToCaller =>
              Below(w) != [] && MainStep(w, jobs, next, s) == Tau(SetTop(u, Receive(Top(u), f.a)), jobs, next)
  {
    hide Receive;
  }

  /** The kinds of micro-steps. */
  lemma Kinds(w: Worker, jobs: map<nat, Job>, next: nat, s: nat)
    requires MainStep(w, jobs, next, s).Some?
    ensures w.stack != []
    ensures var f := Top(w);
            || Moves(f.pc) || f.pc.EagerAct? || LoopStep(f, s).Some? || (MayCall(f.pc) && LoopStep(f, s).None?)
            || f.pc.Join? || f.pc.Popped? || f.pc.WriteBack? || f.pc.Wait? || f.pc.Done?
    ensures Top(w).pc.Popped? || Top(w).pc.WriteBack? ==> Top(w).pend != []
    ensures Top(w).pc.WriteBack? ==> Last(Top(w)).id in jobs
  {
    hide LoopStep; hide Push; hide Receive; hide EagerPromote;
  }
}
