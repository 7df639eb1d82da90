/**
 A small loop language for the batching passes: basic blocks of PHI nodes,
 operations and a branch.  The body of the marked loop is one pure operation
 from the header PHIs to the values it computes; the volatile store of the
 progress and the volatile load of the bound are events, and so is every run
 of the body.  A volatile load takes the next of the values `bounds` that the
 environment supplies; a program whose next load has no value is blocked.
 */
module LoopIR {

  import Tasks

  type pos = Tasks.pos
  type Vec = seq<int>

  /** A value of the original loop: loop-invariant, a header PHI, or computed by the body. */
  datatype Source = Invariant(v: int) | Phi(k: nat) | Local(k: nat)

  /** What the passes know of an accepted loop: per header PHI its preheader and latch inputs,
      the exit PHIs' inputs, which PHI is the induction, and the body. */
  datatype Protocol = Protocol(init: Vec, latch: seq<Source>, exits: seq<Source>, ind: nat, body: Vec -> Vec)

  function Eval(s: Source, phis: Vec, locals: Vec): int {
    match s
    case Invariant(v) => v
    case Phi(k) => if k < |phis| then phis[k] else 0
    case Local(k) => if k < |locals| then locals[k] else 0
  }

  function EvalAll(ss: seq<Source>, phis: Vec, locals: Vec): (r: Vec) {
    seq(|ss|, k requires 0 <= k < |ss| => Eval(ss[k], phis, locals))
  }

  /** The header PHIs of the iteration after the one that starts with `v`. */
  function Turn(p: Protocol, v: Vec): Vec {
    EvalAll(p.latch, v, p.body(v))
  }

  /** The exit PHIs when the loop is left after the iteration that starts with `v`. */
  function ExitOf(p: Protocol, v: Vec): Vec {
    EvalAll(p.exits, v, p.body(v))
  }

  /** The recognizers' guarantees: a unit-stride induction, and exit values that are
      loop-invariant or the latch input of some header PHI. */
  ghost predicate Accepted(p: Protocol) {
    && |p.latch| == |p.init| && p.ind < |p.init|
    && (forall v: Vec :: |v| == |p.init| ==> Turn(p, v)[p.ind] == v[p.ind] + 1)
    && (forall k :: 0 <= k < |p.exits| ==> p.exits[k].Invariant? || p.exits[k] in p.latch)
  }

  // ---------- programs ----------

  datatype Label =
    | Preheader | Header | Exit
    | BatchHeader | BatchLatch | CleanupPreheader | CleanupHeader
    | Clone(k: nat)
    | Merge(k: nat) | Entry(k: nat) | StepLoop(k: nat) | Leaving(k: nat) | Leave

  /** Names of value vectors: the PHI nodes of a block, and what the body computed in it; the
      trip-count snapshot, and the limits LLVM derived from it for its step loops. */
  datatype Bank = Phis(at: Label) | Locals(at: Label) | Counter | CounterNext | Snapshot | Limit(k: nat)

  datatype Operand = Const(v: int) | Elem(bank: Bank, k: nat)

  /** PHI nodes of one block, with one operand each per predecessor. */
  datatype Row = Row(bank: Bank, incoming: map<Label, seq<Operand>>)

  datatype Op =
    | Iterate(at: Label, inputs: seq<Operand>)
    | Publish(v: Operand)
    | Guard(base: Operand, count: pos)
    | Increment
    | CounterBelow(limit: nat)
      // `count` iterations as one step, which leaves the header PHIs of the next iteration
    | Repeat(at: Label, inputs: seq<Operand>, count: pos)
    | TakeSnapshot
    | Equals(a: Operand, b: Operand)
    | Differs(a: Operand, b: Operand)

  datatype Term = Br(to: Label) | CondBr(yes: Label, no: Label) | Ret

  datatype Block = Block(rows: seq<Row>, ops: seq<Op>, term: Term)

  type Cfg = map<Label, Block>

  // ---------- execution ----------

  type Env = map<Bank, Vec>

  datatype Event = Load(bound: int) | Store(progress: int) | Run(phis: Vec)

  datatype Cursor = Cursor(env: Env, flag: bool, bounds: seq<int>, trace: seq<Event>, blocked: bool)

  datatype State =
    | At(pred: Label, at: Label, env: Env, bounds: seq<int>, trace: seq<Event>)
    | Blocked(trace: seq<Event>)
    | Finished(values: Vec, trace: seq<Event>)

  function Value(env: Env, o: Operand): int {
    match o
    case Const(v) => v
    case Elem(b, k) => if b in env && k < |env[b]| then env[b][k] else 0
  }

  function Values(env: Env, os: seq<Operand>): (r: Vec) {
    seq(|os|, k requires 0 <= k < |os| => Value(env, os[k]))
  }

  function Incoming(r: Row, pred: Label): seq<Operand> {
    if pred in r.incoming then r.incoming[pred] else []
  }

  /** The PHI nodes take their values all at once. */
  function Enter(rows: seq<Row>, pred: Label, before: Env, env: Env): Env
    decreases rows
  {
    if rows == [] then env
    else
      var r := rows[0];
      Enter(rows[1..], pred, before, env[r.bank := Values(before, Incoming(r, pred))])
  }

  function Exec(p: Protocol, op: Op, c: Cursor): Cursor {
    if c.blocked then c
    else
      match op
      case Iterate(at, inputs) =>
        var v := Values(c.env, inputs);
        c.(env := c.env[Locals(at) := p.body(v)], trace := c.trace + [Run(v)])
      case Publish(v) => c.(trace := c.trace + [Store(Value(c.env, v))])
      case Guard(base, count) =>
        if c.bounds == [] then c.(blocked := true)
        else c.(flag := Value(c.env, base) + count - 1 < c.bounds[0],
             bounds := c.bounds[1..], trace := c.trace + [Load(c.bounds[0])])
      case Increment => c.(env := c.env[CounterNext := [Value(c.env, Elem(Counter, 0)) + 1]])
      case CounterBelow(limit) => c.(flag := Value(c.env, Elem(CounterNext, 0)) < limit)
      case Repeat(at, inputs, count) =>
        var v := Values(c.env, inputs);
        c.(env := c.env[Locals(at) := Nth(p, v, count)], trace := c.trace + Runs(p, v, count))
      case TakeSnapshot =>
        if c.bounds == [] then c.(blocked := true)
        else c.(env := c.env[Snapshot := [c.bounds[0]]], bounds := c.bounds[1..],
             trace := c.trace + [Load(c.bounds[0])])
      case Equals(a, b) => c.(flag := Value(c.env, a) == Value(c.env, b))
      case Differs(a, b) => c.(flag := Value(c.env, a) != Value(c.env, b))
  }

  function ExecAll(p: Protocol, ops: seq<Op>, c: Cursor): Cursor
    decreases ops
  {
    if ops == [] then c else ExecAll(p, ops[1..], Exec(p, ops[0], c))
  }

  function StepBlock(p: Protocol, cfg: Cfg, s: State): State {
    if !s.At? || s.at !in cfg then s
    else
      var b := cfg[s.at];
      var c := ExecAll(p, b.ops, Cursor(Enter(b.rows, s.pred, s.env, s.env), false, s.bounds, s.trace, false));
      if c.blocked then Blocked(c.trace)
      else
        match b.term
        case Br(to) => At(s.at, to, c.env, c.bounds, c.trace)
        case CondBr(yes, no) => At(s.at, if c.flag then yes else no, c.env, c.bounds, c.trace)
        case Ret => Finished(if Phis(s.at) in c.env then c.env[Phis(s.at)] else [], c.trace)
  }

  function Steps(p: Protocol, cfg: Cfg, s: State, n: nat): State
    decreases n
  {
    if n == 0 then s else Steps(p, cfg, StepBlock(p, cfg, s), n - 1)
  }

  lemma {:induction false} StepsAdd(p: Protocol, cfg: Cfg, s: State, m: nat, n: nat)
    ensures Steps(p, cfg, s, m + n) == Steps(p, cfg, Steps(p, cfg, s, m), n)
    decreases m
  {
    if m > 0 {
      StepsAdd(p, cfg, StepBlock(p, cfg, s), m - 1, n);
    }
  }

  lemma OneStep(p: Protocol, cfg: Cfg, s: State, m: nat)
    ensures Steps(p, cfg, s, 0) == s && Steps(p, cfg, s, 1 + m) == Steps(p, cfg, StepBlock(p, cfg, s), m)
  {
    hide StepBlock;
  }

  function Start(bounds: seq<int>): State {
    At(Preheader, Preheader, map[], bounds, [])
  }

  // ---------- the reference meaning of the batched loop ----------

  /** What an execution amounts to: waiting for another bound, or left with exit values. */
  datatype Outcome = Waiting(trace: seq<Event>) | Left(values: Vec, trace: seq<Event>)

  function After(trace: seq<Event>, o: Outcome): Outcome {
    match o
    case Waiting(t) => Waiting(trace + t)
    case Left(values, t) => Left(values, trace + t)
  }

  function Nth(p: Protocol, v: Vec, n: nat): Vec
    decreases n
  {
    if n == 0 then v else Nth(p, Turn(p, v), n - 1)
  }

  /** The events of `n` iterations without volatile accesses. */
  function Runs(p: Protocol, v: Vec, n: nat): seq<Event>
    decreases n
  {
    if n == 0 then [] else [Run(v)] + Runs(p, Turn(p, v), n - 1)
  }

  function Index(p: Protocol, v: Vec): int {
    if p.ind < |v| then v[p.ind] else 0
  }

  /** The original loop from its header on: body, progress store, bound load, test. */
  function Scalar(p: Protocol, v: Vec, bounds: seq<int>): Outcome
    decreases |bounds|
  {
    var u := Turn(p, v);
    var t := [Run(v), Store(Index(p, u))];
    if bounds == [] then Waiting(t)
    else if Index(p, u) < bounds[0] then After(t + [Load(bounds[0])], Scalar(p, u, bounds[1..]))
    else Left(ExitOf(p, v), t + [Load(bounds[0])])
  }

  /** The exit values when the loop is left between two iterations: where an exit PHI takes a
      latch value, the PHI that received it. */
  function ResumeOf(p: Protocol, v: Vec): Vec {
    seq(|p.exits|, k requires 0 <= k < |p.exits| =>
      match p.exits[k]
      case Invariant(x) => x
      case _ => var i := FirstLatch(p.latch, p.exits[k]); if i < |v| then v[i] else 0)
  }

  /** The first header PHI whose latch input is `s`. */
  function FirstLatch(latch: seq<Source>, s: Source): (i: nat)
    ensures i <= |latch| && (i < |latch| ==> latch[i] == s)
    ensures s in latch ==> i < |latch|
    decreases |latch|
  {
    if latch == [] then 0
    else if latch[0] == s then 0
    else 1 + FirstLatch(latch[1..], s)
  }

  function Cleanup(p: Protocol, v: Vec, bounds: seq<int>): Outcome {
    if bounds == [] then Waiting([])
    else if Index(p, v) < bounds[0] then After([Load(bounds[0])], Scalar(p, v, bounds[1..]))
    else Left(ResumeOf(p, v), [Load(bounds[0])])
  }

  /** Batches of `k` iterations while they fit the bound just loaded, then one at a time. */
  function Batched(p: Protocol, k: pos, v: Vec, bounds: seq<int>): Outcome
    decreases |bounds|
  {
    if bounds == [] then Waiting([])
    else if Index(p, v) + k - 1 < bounds[0] then
      var u := Nth(p, v, k);
      After([Load(bounds[0])] + Runs(p, v, k) + [Store(Index(p, u))], Batched(p, k, u, bounds[1..]))
    else After([Load(bounds[0])], Cleanup(p, v, bounds[1..]))
  }

  /** `s` has come to an end that amounts to `o`, after `trace`. */
  ghost predicate Ends(s: State, trace: seq<Event>, o: Outcome) {
    match o
    case Waiting(t) => s == Blocked(trace + t)
    case Left(values, t) => s == Finished(values, trace + t)
  }

  lemma EndsWaiting(trace: seq<Event>)
    ensures Ends(Blocked(trace), trace, Waiting([]))
  {
    assert trace + [] == trace;
  }

  lemma EndsAfter(s: State, trace: seq<Event>, t: seq<Event>, o: Outcome)
    requires Ends(s, trace + t, o)
    ensures Ends(s, trace, After(t, o))
  {
    assert (trace + t) + o.trace == trace + (t + o.trace);
  }

  lemma {:induction false} NthSucc(p: Protocol, v: Vec, n: nat)
    ensures Nth(p, v, n + 1) == Turn(p, Nth(p, v, n))
    decreases n
  {
    if n > 0 {
      NthSucc(p, Turn(p, v), n - 1);
    }
  }

  lemma {:induction false} RunsSucc(p: Protocol, v: Vec, n: nat)
    ensures Runs(p, v, n + 1) == Runs(p, v, n) + [Run(Nth(p, v, n))]
    decreases n
  {
    if n > 0 {
      RunsSucc(p, Turn(p, v), n - 1);
    }
  }

  /** A finished or blocked execution stays what it is. */
  lemma {:induction false} EndIsFinal(p: Protocol, cfg: Cfg, s: State, m: nat, n: nat)
    requires !Steps(p, cfg, s, m).At? && !Steps(p, cfg, s, n).At?
    ensures Steps(p, cfg, s, m) == Steps(p, cfg, s, n)
    decreases m + n
  {
    if m > 0 && n > 0 && s.At? {
      EndIsFinal(p, cfg, StepBlock(p, cfg, s), m - 1, n - 1);
    } else if !s.At? {
      StillEnded(p, cfg, s, m);
      StillEnded(p, cfg, s, n);
    }
  }

  lemma {:induction false} StillEnded(p: Protocol, cfg: Cfg, s: State, n: nat)
    requires !s.At?
    ensures Steps(p, cfg, s, n) == s
    decreases n
  {
    if n > 0 {
      StillEnded(p, cfg, s, n - 1);
    }
  }

  lemma AcceptedShape(p: Protocol)
    requires Accepted(p)
    ensures |p.latch| == |p.init| && p.ind < |p.init|
  {
  }

  lemma {:induction false} NthShape(p: Protocol, v: Vec, n: nat)
    requires |v| == |p.latch|
    ensures |Nth(p, v, n)| == |p.latch|
    decreases n
  {
    if n > 0 {
      NthShape(p, Turn(p, v), n - 1);
    }
  }
}
