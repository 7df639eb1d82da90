/**
 A small-step machine for the whole scheduler: several workers, each with a
 call stack, a slot chain (the live frames of the stack), heartbeat tokens and
 a job deque.  A run interleaves the main-thread micro-steps of all workers
 with heartbeats, each of which is one atomic handler call between two
 micro-steps, and with steals from the far end of another worker's deque.

 A range `[i, j)` of `parfor_` is represented by the sequence of its
 iterations, so loop indices are offsets from the `i` of the call.
 */
module Machine {
  import opened Tasks
  import opened Handler
  import opened Wrappers

  const TOKENS_PER_HEARTBEAT: nat := 30
  const MAX_HEARTBEAT_TOKENS: nat := 30

  /** Where the result of a frame goes. */
  datatype Ret = ToRoot | ToCaller | ToJob(id: nat)

  /** A job object that lives in a frame, enqueued and not yet joined. */
  datatype Pend = Pend(id: nat, task: Task, reclaim: bool)

  /** What the rest of the system knows about a job: its work, `hbt`, and `done` with the result. */
  datatype Job = Job(task: Task, hbt: nat, done: Option<Expr>)

  /** The micro-step a frame takes next. */
  datatype Pc =
      // with_prom_handler: slot construction, token test, eager_promote
    | Enter | Committed | EagerOff | EagerAct | EagerOn
      // the loop of parfor_: load the bound, test it, run a step, publish progress
    | Head | Test | Body | Nested | Advance | Publish
      // the body of par and spork
    | AwaitLeft
      // closing the slot, then the code between close and join
    | Close | Gap | AwaitGap | Right | AwaitRight
      // joins: pop, reclaim tokens in two steps, run inline; or wait
    | Join | Popped | WriteBack | Call | Inline | Wait
    | Done

  /**
   A call of `parfor_` or `par`.  `i`, `ssi`, `end` are the loop index, the
   published progress and the volatile bound; `seen` is the bound last loaded
   and `goal` the end of the step in flight.
   */
  datatype Frame = Frame(task: Task, ret: Ret, birth: nat, a0: Expr, a: Expr,
                         promoted: bool, pend: seq<Pend>, pc: Pc,
                         i: nat, goal: nat, ssi: nat, end: nat, seen: nat, saved: nat)

  datatype Worker = Worker(stack: seq<Frame>, tokens: nat, disabled: bool, deque: seq<nat>)

  datatype State = State(workers: seq<Worker>, jobs: map<nat, Job>, next: nat,
                         result: Option<Expr>, beats: nat, promotions: nat)

  /** The slot of a frame is in the chain exactly in these micro-steps. */
  predicate Live(pc: Pc) {
    || pc.Committed? || pc.EagerOff? || pc.EagerAct? || pc.EagerOn?
    || pc.Head? || pc.Test? || pc.Body? || pc.Nested? || pc.Advance? || pc.Publish?
    || pc.AwaitLeft? || pc.Close?
  }

  /** The frame has called another and resumes when that one returns. */
  predicate Awaiting(pc: Pc) {
    pc.Nested? || pc.AwaitLeft? || pc.AwaitGap? || pc.AwaitRight? || pc.Inline?
  }

  function Size(t: Task): nat {
    if t.Loop? then |t.items| else 0
  }

  function Slice(ts: seq<Task>, i: nat, j: nat): seq<Task> {
    if i <= j <= |ts| then ts[i..j] else []
  }

  /** A call of `t` on accumulator `a0`; a leaf is a body that just contributes its value. */
  function NewFrame(t: Task, ret: Ret, birth: nat, a0: Expr): Frame {
    if t.Leaf? then
      Frame(t, ret, birth, a0, App(a0, Atom(t.v)), false, [], Done, 0, 0, 0, 0, 0, 0)
    else
      Frame(t, ret, birth, a0, a0, false, [], Enter, 0, 0, 0, Size(t), 0, 0)
  }

  // ---------- promotion ----------

  /** A job enqueued by a handler; the jobs of one promotion are numbered from `next`. */
  datatype Spawn = Spawn(task: Task, hbt: nat)

  datatype Promotion = Promotion(frame: Frame, tokens: nat, spawned: seq<Spawn>)

  /** `SporkSlot::promote`: one token, the flag, and the frame's own handler. */
  function Promote(f: Frame, tokens: nat, next: nat): Promotion
    requires 0 < tokens
  {
    var t := tokens - 1;
    var g := f.(promoted := true);
    match f.task
    case Leaf(_) => Promotion(g, t, [])
    case Fork(_, _, right) =>
      Promotion(g.(pend := [Pend(next, right, false)]), t - t / 2, [Spawn(right, t / 2)])
    case Loop(factor, items) =>
      match SplitRange(f.ssi, f.end, factor)
      case NoSplit => Promotion(g, t, [])
      case Split(p, mid) =>
        var r := Loop(factor, Slice(items, mid, |items|));
        var half := (t + 1) / 2;
        if p >= mid then
          Promotion(g.(end := p, pend := [Pend(next, r, false)]), t - half, [Spawn(r, half)])
        else
          var l := Loop(factor, Slice(items, p, mid));
          Promotion(g.(end := p, pend := [Pend(next, r, false), Pend(next + 1, l, true)]),
                    0, [Spawn(r, half), Spawn(l, t - half)])
  }

  /** One turn of the loop in `promote_front`. */
  function Visit(f: Frame, tokens: nat, next: nat): Promotion
    requires 0 < tokens
  {
    if Live(f.pc) && !f.promoted then Promote(f, tokens, next) else Promotion(f, tokens, [])
  }

  datatype Walk = Walk(stack: seq<Frame>, tokens: nat, spawned: seq<Spawn>, count: nat)

  /** `promote_front`: from the oldest slot on, promote while tokens last. */
  function PromoteFront(stack: seq<Frame>, tokens: nat, next: nat): Walk {
    if stack == [] || tokens == 0 then Walk(stack, tokens, [], 0)
    else
      var p := Visit(stack[0], tokens, next);
      var w := PromoteFront(stack[1..], p.tokens, next + |p.spawned|);
      Walk([p.frame] + w.stack, w.tokens, p.spawned + w.spawned,
           w.count + if p.frame.promoted == stack[0].promoted then 0 else 1)
  }

  function Ids(next: nat, n: nat): seq<nat> {
    seq(n, k => next + k)
  }

  function AddJobs(jobs: map<nat, Job>, next: nat, spawned: seq<Spawn>): (all: map<nat, Job>)
    ensures forall id :: id in all <==> id in jobs || next <= id < next + |spawned|
    ensures forall id :: id in jobs && id < next ==> all[id] == jobs[id]
    ensures forall id :: next <= id < next + |spawned| ==>
                           all[id] == Job(spawned[id - next].task, spawned[id - next].hbt, None)
  {
    if spawned == [] then jobs
    else
      var n := |spawned| - 1;
      AddJobs(jobs, next, spawned[..n])[next + n := Job(spawned[n].task, spawned[n].hbt, None)]
  }

  // ---------- main-thread micro-steps ----------

  /** What a micro-step of one worker does to the rest of the system. */
  datatype Outcome = Outcome(worker: Worker, jobs: map<nat, Job>, next: nat,
                             result: Option<Expr>, promoted: nat)

  function Below(w: Worker): seq<Frame>
    requires w.stack != []
  {
    w.stack[..|w.stack| - 1]
  }

  function Top(w: Worker): Frame
    requires w.stack != []
  {
    w.stack[|w.stack| - 1]
  }

  function SetTop(w: Worker, f: Frame): Worker
    requires w.stack != []
  {
    w.(stack := Below(w) + [f])
  }

  /** Frame `f` calls `t`. */
  function Push(w: Worker, f: Frame, t: Task, next: nat): Worker
    requires w.stack != []
  {
    w.(stack := Below(w) + [f] + [NewFrame(t, ToCaller, next, Unit)])
  }

  function Last(f: Frame): Pend
    requires f.pend != []
  {
    f.pend[|f.pend| - 1]
  }

  function DropLast(f: Frame): seq<Pend>
    requires f.pend != []
  {
    f.pend[..|f.pend| - 1]
  }

  /** `binop(a, v)`, and the micro-step after the call that produced `v`. */
  function Receive(f: Frame, v: Expr): Frame {
    var g := f.(a := App(f.a, v));
    match f.pc
    case Nested => g.(pc := Advance)
    case AwaitLeft => g.(pc := Close)
    case AwaitGap => g.(pc := if f.promoted then Join else Right)
    case AwaitRight => g.(pc := Done)
    case Inline => g.(pc := Join, pend := if f.pend == [] then [] else DropLast(f))
    case Wait => g.(pc := Join, pend := if f.pend == [] then [] else DropLast(f))
    case _ => g
  }

  /** The loop of `parfor_`, batched into steps of at most `factor` iterations: load the bound,
      test whether a step of `s` fits it, run the bodies of the step, publish the progress. */
  function LoopStep(f: Frame, s: nat): Option<Frame> {
    if !f.task.Loop? then None
    else
      match f.pc
      case Head => Some(f.(seen := f.end, pc := Test))
      case Test =>
        if f.seen <= f.i then Some(f.(pc := Close))
        else if 1 <= s <= f.task.factor && f.i + s <= f.seen then Some(f.(goal := f.i + s, pc := Body))
        else None
      case Body =>
        if f.i < |f.task.items| && f.task.items[f.i].Leaf?
        then Some(f.(a := App(f.a, Atom(f.task.items[f.i].v)), pc := Advance))
        else None
      case Advance => Some(f.(i := f.i + 1, pc := if f.i + 1 == f.goal then Publish else Body))
      case Publish => Some(f.(ssi := f.i, pc := Head))
      case _ => None
  }

  /** The guarded part of `eager_promote`: a heartbeat may have taken the tokens or the slot. */
  function EagerPromote(w: Worker, jobs: map<nat, Job>, next: nat): Outcome
    requires w.stack != []
  {
    var f := Top(w);
    if w.tokens != 0 && !f.promoted then
      var p := Promote(f, w.tokens, next);
      Outcome(SetTop(w, p.frame.(pc := EagerOn)).(tokens := p.tokens, deque := w.deque + Ids(next, |p.spawned|)),
              AddJobs(jobs, next, p.spawned), next + |p.spawned|, None, 1)
    else Outcome(SetTop(w, f.(pc := EagerOn)), jobs, next, None, 0)
  }

  /** The step of worker `w`; `s` is the step size the batched loop tries at a bound test. */
  function MainStep(w: Worker, jobs: map<nat, Job>, next: nat, s: nat): Option<Outcome> {
    if w.stack == [] then None
    else
      var f := Top(w);
      match f.pc
      case Enter => Tau(SetTop(w, f.(pc := Committed)), jobs, next)
      case Committed => Tau(SetTop(w, f.(pc := if w.tokens != 0 then EagerOff else Head)), jobs, next)
      case EagerOff => Tau(SetTop(w, f.(pc := EagerAct)).(disabled := true), jobs, next)
      case EagerAct => Some(EagerPromote(w, jobs, next))
      case EagerOn => Tau(SetTop(w, f.(pc := Head)).(disabled := false), jobs, next)
      case Head =>
        if f.task.Fork? then Tau(Push(w, f.(pc := AwaitLeft), f.task.left, next), jobs, next + 1)
        else FrameStep(w, LoopStep(f, s), jobs, next)
      case Test => FrameStep(w, LoopStep(f, s), jobs, next)
      case Body =>
        if f.task.Loop? && f.i < |f.task.items| && !f.task.items[f.i].Leaf?
        then Tau(Push(w, f.(pc := Nested), f.task.items[f.i], next), jobs, next + 1)
        else FrameStep(w, LoopStep(f, s), jobs, next)
      case Advance => FrameStep(w, LoopStep(f, s), jobs, next)
      case Publish => FrameStep(w, LoopStep(f, s), jobs, next)
      case Close =>
        Tau(SetTop(w, f.(pc := if f.task.Fork? then Gap else if f.promoted then Join else Done)), jobs, next)
      case Gap =>
        if f.task.Fork? then Tau(Push(w, f.(pc := AwaitGap), f.task.gap, next), jobs, next + 1) else None
      case Right =>
        if f.task.Fork? then Tau(Push(w, f.(pc := AwaitRight), f.task.right, next), jobs, next + 1) else None
      case Join =>
        if f.pend == [] then Tau(SetTop(w, f.(pc := Done)), jobs, next)
        else if w.deque == [] then Tau(SetTop(w, f.(pc := Wait)), jobs, next)
        else // the popped pointer is discarded
          Tau(SetTop(w, f.(pc := Popped)).(deque := w.deque[..|w.deque| - 1]), jobs, next)
      case Popped =>
        if f.pend == [] then None
        else if Last(f).reclaim then Tau(SetTop(w, f.(saved := w.tokens, pc := WriteBack)), jobs, next)
        else Tau(SetTop(w, f.(pc := Call)), jobs, next)
      case WriteBack =>
        if f.pend == [] || Last(f).id !in jobs then None
        else Tau(SetTop(w, f.(pc := Call)).(tokens := f.saved + jobs[Last(f).id].hbt), jobs, next)
      case Call =>
        if f.pend == [] then None
        else Tau(Push(w, f.(pc := Inline), Last(f).task, next), jobs, next + 1)
      case Wait =>
        if f.pend == [] || Last(f).id !in jobs || jobs[Last(f).id].done.None? then None
        else Tau(SetTop(w, Receive(f, jobs[Last(f).id].done.value)), jobs, next)
      case Done =>
        (match f.ret
         case ToRoot => Some(Outcome(w.(stack := Below(w)), jobs, next, Some(f.a), 0))
         case ToJob(id) =>
           if id !in jobs then None
           else Tau(w.(stack := Below(w)), jobs[id := jobs[id].(done := Some(f.a))], next)
         case ToCaller =>
           if Below(w) == [] then None
           else
             var u := w.(stack := Below(w));
             Tau(SetTop(u, Receive(Top(u), f.a)), jobs, next))
      case _ => None
  }

  function FrameStep(w: Worker, f: Option<Frame>, jobs: map<nat, Job>, next: nat): Option<Outcome>
    requires w.stack != []
  {
    if f.None? then None else Tau(SetTop(w, f.value), jobs, next)
  }

  function Tau(w: Worker, jobs: map<nat, Job>, next: nat): Option<Outcome> {
    Some(Outcome(w, jobs, next, None, 0))
  }

  // ---------- heartbeats and steals ----------

  /** A heartbeat tops up the tokens, up to a limit. */
  function Refilled(tokens: nat): nat {
    var sum := tokens + TOKENS_PER_HEARTBEAT;
    if sum > MAX_HEARTBEAT_TOKENS then MAX_HEARTBEAT_TOKENS else sum
  }

  /** `heartbeat_handler` on worker `w`; the result counts the promotions. */
  function Heartbeat(w: Worker, jobs: map<nat, Job>, next: nat): Outcome {
    if w.disabled then Outcome(w, jobs, next, None, 0)
    else
      var t := Refilled(w.tokens);
      var p := PromoteFront(w.stack, t, next);
      Outcome(w.(stack := p.stack, tokens := p.tokens, deque := w.deque + Ids(next, |p.spawned|)),
              AddJobs(jobs, next, p.spawned), next + |p.spawned|, None, p.count)
  }

  /** A worker looks for other work only when idle or waiting, and only once its own deque is empty. */
  predicate Hungry(w: Worker) {
    w.deque == [] && (w.stack == [] || Top(w).pc.Wait?)
  }

  /** `operator()`: the thief takes over the job's tokens and runs it. */
  function StartJob(w: Worker, id: nat, j: Job, next: nat): Worker {
    w.(stack := w.stack + [NewFrame(j.task, ToJob(id), next, Unit)], tokens := j.hbt)
  }

  // ---------- runs ----------

  datatype Step = Main(w: nat, s: nat) | Steal(w: nat, v: nat) | Beat(w: nat)

  function Commit(st: State, w: nat, o: Outcome): State
    requires w < |st.workers|
  {
    st.(workers := st.workers[w := o.worker], jobs := o.jobs, next := o.next,
    result := if o.result.Some? then o.result else st.result,
    promotions := st.promotions + o.promoted)
  }

  function Next(st: State, step: Step): Option<State> {
    match step
    case Main(w, s) =>
      if w >= |st.workers| then None
      else
        var o := MainStep(st.workers[w], st.jobs, st.next, s);
        if o.None? then None else Some(Commit(st, w, o.value))
    case Beat(w) =>
      if w >= |st.workers| then None
      else
        var o := Heartbeat(st.workers[w], st.jobs, st.next);
        var c := Commit(st, w, o);
        Some(c.(beats := if st.workers[w].disabled then st.beats else st.beats + 1))
    case Steal(w, v) =>
      if w >= |st.workers| || v >= |st.workers| || w == v then None
      else if !Hungry(st.workers[w]) || st.workers[v].deque == [] then None
      else
        var id := st.workers[v].deque[0];
        if id !in st.jobs then None
        else
          var victim := st.workers[v].(deque := st.workers[v].deque[1..]);
          var thief := StartJob(st.workers[w], id, st.jobs[id], st.next);
          Some(st.(workers := st.workers[v := victim][w := thief], next := st.next + 1))
  }

  /** Worker 0 is about to run `t` on accumulator `a0`; the others are idle. */
  function Init(t: Task, a0: Expr, n: nat): State {
    State([Worker([NewFrame(t, ToRoot, 0, a0)], 0, false, [])] + seq(n, _ => Worker([], 0, false, [])),
          map[], 1, None, 0, 0)
  }

  /** `run` is a run from `Init(t, a0, n)` that takes `steps`. */
  ghost predicate IsRun(t: Task, a0: Expr, n: nat, run: seq<State>, steps: seq<Step>) {
    && |run| == |steps| + 1
    && run[0] == Init(t, a0, n)
    && forall k :: 0 <= k < |steps| ==> Next(run[k], steps[k]) == Some(run[k + 1])
  }
}
