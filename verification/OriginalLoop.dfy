/** The marked loop as the passes find it, and as the scalar cleanup loop they append. */
module OriginalLoop {
  import opened LoopIR

  function Consts(v: Vec): seq<Operand> {
    seq(|v|, k requires 0 <= k < |v| => Const(v[k]))
  }

  function PhiOf(at: Label, n: nat): seq<Operand> {
    seq(n, k requires 0 <= k < n => Elem(Phis(at), k))
  }

  /** A value of the original loop, as the copy of the loop in block `at` computes it. */
  function Loc(at: Label, s: Source): Operand {
    match s
    case Invariant(v) => Const(v)
    case Phi(k) => Elem(Phis(at), k)
    case Local(k) => Elem(Locals(at), k)
  }

  function LocAll(at: Label, ss: seq<Source>): seq<Operand> {
    seq(|ss|, k requires 0 <= k < |ss| => Loc(at, ss[k]))
  }

  /** The rotated loop in block `at`, entered from `pre`: body, progress store, bound load, test. */
  function ScalarBlock(p: Protocol, at: Label, pre: Label, start: seq<Operand>): Block
    requires p.ind < |p.latch|
  {
    var next := Loc(at, p.latch[p.ind]);
    Block([Row(Phis(at), map[pre := start, at := LocAll(at, p.latch)])],
          [Iterate(at, PhiOf(at, |p.init|)), Publish(next), Guard(next, 1)],
          CondBr(at, Exit))
  }

  function OriginalCfg(p: Protocol): Cfg
    requires p.ind < |p.latch|
  {
    map[Preheader := Block([], [], Br(Header)),
        Header := ScalarBlock(p, Header, Preheader, Consts(p.init)),
        Exit := Block([Row(Phis(Exit), map[Header := LocAll(Header, p.exits)])], [], Ret)]
  }

  lemma LocValues(env: Env, at: Label, ss: seq<Source>, v: Vec, locals: Vec)
    requires Phis(at) in env && env[Phis(at)] == v && Locals(at) in env && env[Locals(at)] == locals
    ensures Values(env, LocAll(at, ss)) == EvalAll(ss, v, locals)
  {
  }

  lemma PhiValues(env: Env, at: Label, v: Vec)
    requires Phis(at) in env && env[Phis(at)] == v
    ensures Values(env, PhiOf(at, |v|)) == v
  {
  }

  lemma ConstValues(env: Env, v: Vec)
    ensures Values(env, Consts(v)) == v
  {
  }

  lemma EnterOne(row: Row, pred: Label, env: Env)
    ensures Enter([row], pred, env, env) == env[row.bank := Values(env, Incoming(row, pred))]
  {
    assert [row][1..] == [];
  }

  lemma ExecOne(p: Protocol, op: Op, c: Cursor)
    ensures ExecAll(p, [op], c) == Exec(p, op, c)
  {
    assert [op][1..] == [];
  }

  lemma ExecThree(p: Protocol, a: Op, b: Op, d: Op, c: Cursor)
    ensures ExecAll(p, [a, b, d], c) == Exec(p, d, Exec(p, b, Exec(p, a, c)))
  {
    hide Exec;
    assert [a, b, d][1..] == [b, d] && [b, d][1..] == [d];
    assert ExecAll(p, [b, d], Exec(p, a, c)) == ExecAll(p, [d], Exec(p, b, Exec(p, a, c)));
    ExecOne(p, d, Exec(p, b, Exec(p, a, c)));
  }

  /** One turn of the scalar loop in block `at` with header PHIs `v`. */
  lemma ScalarStep(p: Protocol, cfg: Cfg, at: Label, pre: Label, start: seq<Operand>,
                   pred: Label, env: Env, bounds: seq<int>, tr: seq<Event>, v: Vec)
    requires |p.latch| == |p.init| == |v| && p.ind < |v| && pre != at
    requires at in cfg && cfg[at] == ScalarBlock(p, at, pre, start)
    requires (pred == pre && Values(env, start) == v) || (pred == at && Values(env, LocAll(at, p.latch)) == v)
    ensures var s := StepBlock(p, cfg, At(pred, at, env, bounds, tr));
            var u := Turn(p, v);
            var t := tr + [Run(v), Store(Index(p, u))];
            if bounds == [] then s == Blocked(t)
            else
              && s.At? && s.pred == at && s.at == (if Index(p, u) < bounds[0] then at else Exit)
              && s.bounds == bounds[1..] && s.trace == t + [Load(bounds[0])]
              && Values(s.env, LocAll(at, p.latch)) == u && Values(s.env, LocAll(at, p.exits)) == ExitOf(p, v)
  {
    var row := Row(Phis(at), map[pre := start, at := LocAll(at, p.latch)]);
    EnterOne(row, pred, env);
    var env1 := env[Phis(at) := v];
    PhiValues(env1, at, v);
    var env2 := env1[Locals(at) := p.body(v)];
    LocValues(env2, at, p.latch, v, p.body(v));
    LocValues(env2, at, p.exits, v, p.body(v));
    var u := Turn(p, v);
    var next := Loc(at, p.latch[p.ind]);
    assert Value(env2, next) == Values(env2, LocAll(at, p.latch))[p.ind] == Index(p, u);
    var a, b, d := Iterate(at, PhiOf(at, |p.init|)), Publish(next), Guard(next, 1);
    var c0 := Cursor(env1, false, bounds, tr, false);
    var c1 := Cursor(env2, false, bounds, tr + [Run(v)], false);
    var c2 := Cursor(env2, false, bounds, tr + [Run(v), Store(Index(p, u))], false);
    assert Exec(p, a, c0) == c1;
    assert Exec(p, b, c1) == c2 by { assert (tr + [Run(v)]) + [Store(Index(p, u))] == c2.trace; }
    ExecThree(p, a, b, d, c0);
  }

  /** Executing the scalar loop from block `at` on is `Scalar`. */
  lemma {:induction false} ScalarRun(p: Protocol, cfg: Cfg, at: Label, pre: Label, start: seq<Operand>, exit: Row,
                                     pred: Label, env: Env, bounds: seq<int>, tr: seq<Event>, v: Vec) returns (n: nat)
    requires |p.latch| == |p.init| == |v| && p.ind < |v| && pre != at && at != Exit
    requires at in cfg && cfg[at] == ScalarBlock(p, at, pre, start)
    requires Exit in cfg && cfg[Exit] == Block([exit], [], Ret)
    requires exit.bank == Phis(Exit) && Incoming(exit, at) == LocAll(at, p.exits)
    requires (pred == pre && Values(env, start) == v) || (pred == at && Values(env, LocAll(at, p.latch)) == v)
    ensures Ends(Steps(p, cfg, At(pred, at, env, bounds, tr), n), tr, Scalar(p, v, bounds))
    decreases |bounds|
  {
    var s0 := At(pred, at, env, bounds, tr);
    var s := StepBlock(p, cfg, s0);
    ScalarStep(p, cfg, at, pre, start, pred, env, bounds, tr, v);
    var u := Turn(p, v);
    var t := [Run(v), Store(Index(p, u))];
    assert tr + [Run(v), Store(Index(p, u))] == tr + t;
    hide ScalarBlock; hide StepBlock; hide Steps; hide LocAll; hide Values;
    if bounds == [] {
      n := 1;
      OneStep(p, cfg, s0, 0);
      OneStep(p, cfg, s, 0);
    } else {
      t := t + [Load(bounds[0])];
      assert s.trace == tr + t;
      var m;
      if Index(p, u) < bounds[0] {
        m := ScalarRun(p, cfg, at, pre, start, exit, at, s.env, bounds[1..], tr + t, u);
        EndsAfter(Steps(p, cfg, s, m), tr, t, Scalar(p, u, bounds[1..]));
      } else {
        ExitStep(p, cfg, exit, at, s.env, s.bounds, s.trace);
        m := 1;
        OneStep(p, cfg, s, 0);
        OneStep(p, cfg, StepBlock(p, cfg, s), 0);
      }
      n := 1 + m;
      OneStep(p, cfg, s0, m);
    }
  }

  lemma ExitStep(p: Protocol, cfg: Cfg, exit: Row, pred: Label, env: Env, bounds: seq<int>, tr: seq<Event>)
    requires Exit in cfg && cfg[Exit] == Block([exit], [], Ret)
    requires exit.bank == Phis(Exit)
    ensures StepBlock(p, cfg, At(pred, Exit, env, bounds, tr)) == Finished(Values(env, Incoming(exit, pred)), tr)
  {
    EnterOne(exit, pred, env);
  }

  /** The original program runs the original loop. */
  lemma OriginalRun(p: Protocol, bounds: seq<int>) returns (n: nat)
    requires Accepted(p)
    ensures Ends(Steps(p, OriginalCfg(p), Start(bounds), n), [], Scalar(p, p.init, bounds))
  {
    OriginalBlocks(p);
    var cfg := OriginalCfg(p);
    hide OriginalCfg; hide Ends; hide ScalarBlock; hide Scalar; hide Steps; hide Accepted;
    n := RunFromEntry(p, cfg, bounds);
  }

  lemma RunFromEntry(p: Protocol, cfg: Cfg, bounds: seq<int>) returns (n: nat)
    requires |p.latch| == |p.init| && p.ind < |p.latch|
    requires Preheader in cfg && cfg[Preheader] == Block([], [], Br(Header))
    requires Header in cfg && cfg[Header] == ScalarBlock(p, Header, Preheader, Consts(p.init))
    requires Exit in cfg && cfg[Exit] == Block([Row(Phis(Exit), map[Header := LocAll(Header, p.exits)])], [], Ret)
    ensures Ends(Steps(p, cfg, Start(bounds), n), [], Scalar(p, p.init, bounds))
  {
    var exit := Row(Phis(Exit), map[Header := LocAll(Header, p.exits)]);
    var s := At(Preheader, Header, map[], bounds, []);
    EntryStep(p, cfg, Header, bounds);
    hide StepBlock; hide ScalarBlock; hide Ends; hide Scalar;
    ConstValues(map[], p.init);
    var m := ScalarRun(p, cfg, Header, Preheader, Consts(p.init), exit, Preheader, map[], bounds, [], p.init);
    n := 1 + m;
    assert Steps(p, cfg, Start(bounds), n) == Steps(p, cfg, s, m);
  }

  lemma OriginalBlocks(p: Protocol)
    requires Accepted(p)
    ensures |p.latch| == |p.init| && p.ind < |p.latch|
    ensures var cfg := OriginalCfg(p);
            && cfg.Keys == {Preheader, Header, Exit}
            && Preheader in cfg && cfg[Preheader] == Block([], [], Br(Header))
            && Header in cfg && cfg[Header] == ScalarBlock(p, Header, Preheader, Consts(p.init))
            && Exit in cfg && cfg[Exit] == Block([Row(Phis(Exit), map[Header := LocAll(Header, p.exits)])], [], Ret)
  {
    hide ScalarBlock;
  }

  lemma EntryStep(p: Protocol, cfg: Cfg, to: Label, bounds: seq<int>)
    requires Preheader in cfg && cfg[Preheader] == Block([], [], Br(to))
    ensures StepBlock(p, cfg, Start(bounds)) == At(Preheader, to, map[], bounds, [])
  {
  }
}
