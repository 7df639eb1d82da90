/** The transplanted chain of step loops has the meaning of the original loop. */
module StepChain {
  import opened LoopIR
  import opened OriginalLoop
  import opened Batching
  import opened Transplant

  /** A finished chain did `n` iterations from `v` on, and stopped exactly at the last bound
      read; `bound` is the last bound read before. */
  ghost predicate Reaches(p: Protocol, v: Vec, n: nat, o: Outcome, bound: int) {
    && o.Left? && Bodies(o.trace) == Iterations(p, v, n) && o.values == ValuesAfter(p, v, n)
    && LastBound(o.trace, bound) == Index(p, v) + n
  }

  lemma ReachesAfter(p: Protocol, v: Vec, m: nat, n: nat, t: seq<Event>, o: Outcome, bound: int)
    requires Accepted(p) && |v| == |p.init|
    requires Bodies(t) == Iterations(p, v, m) && Reaches(p, Nth(p, v, m), n, o, LastBound(t, bound))
    ensures Reaches(p, v, m + n, After(t, o), bound)
  {
    hide Bodies; hide Iterations; hide Nth; hide ValuesAfter; hide Accepted; hide LastBound;
    BodiesAppend(t, o.trace);
    IterationsAdd(p, v, m, n);
    NthIndex(p, v, m);
    ValuesAfterAdd(p, v, m, n);
    LastBoundAppend(t, o.trace, bound);
  }

  /** One step of `s` iterations: a guard that a bound once passed holds for every later bound. */
  lemma LegalStep(p: Protocol, v: Vec, s: pos, x: int, b: int, rest: seq<Event>, k: pos, bound: int, shortened: bool)
    returns (bound': int, shortened': bool)
    requires Legal(Runs(p, v, s) + [Store(x)] + [Load(b)] + rest, k, Index(p, v), bound, shortened)
    requires x == Index(p, v) + s <= bound && s <= k
    ensures b == bound' && x <= bound' <= bound && Legal(rest, k, x, bound', shortened')
  {
    assert Runs(p, v, s) + [Store(x)] + [Load(b)] + rest == Runs(p, v, s) + ([Store(x)] + ([Load(b)] + rest));
    hide Legal;
    bound', shortened' := LegalRuns(p, v, s, [Store(x)] + ([Load(b)] + rest), k, Index(p, v), bound, shortened);
    bound', shortened' := LegalStore(x, [Load(b)] + rest, k, Index(p, v), bound', shortened');
    bound', shortened' := LegalLoad(b, rest, k, x, bound', shortened');
  }

  /** The stages still to come. */
  ghost predicate Remaining(stages: seq<Stage>, k: pos) {
    stages == [] || Chained(stages, k)
  }

  /** The snapshot tests let in only a loop whose first step stays below the snapshot. */
  predicate LetsIn(stages: seq<Stage>, index: int, snapshot: int) {
    stages == [] ||
    if stages[0].skip then LetsIn(stages[1..], index, snapshot) else index + stages[0].step <= snapshot
  }

  /**
   Leaving a loop that no iteration has entered hands over `v`: PHIs that share a
   latch value agree by now, or no iteration has run at all.  In that case the
   next loop that is let in passes its guard, so nothing is handed over before
   an iteration has run.
   */
  ghost predicate MayLeave(p: Protocol, stages: seq<Stage>, snapshot: int, v: Vec, bound: int) {
    Settled(p, v) || (bound == snapshot && LetsIn(stages, Index(p, v), snapshot))
  }

  lemma LoadAlone(b: int, before: int)
    ensures Bodies([Load(b)]) == [] && LastBound([Load(b)], before) == b
  {
    assert [Load(b)][1..] == [];
  }

  lemma StepAlone(p: Protocol, v: Vec, s: pos, x: int, b: int, before: int)
    ensures Bodies(Runs(p, v, s) + [Store(x)] + [Load(b)]) == Iterations(p, v, s)
    ensures LastBound(Runs(p, v, s) + [Store(x)] + [Load(b)], before) == b
  {
    BodiesOfRuns(p, v, s);
    BodiesAppend(Runs(p, v, s) + [Store(x)], [Load(b)]);
    BodiesAppend(Runs(p, v, s), [Store(x)]);
    assert [Load(b)][1..] == [] && [Store(x)][1..] == [];
  }

  /**
   From a resume point on, under any legal environment: whichever loops the
   snapshot tests skip, the chain runs every iteration below the bound at which
   it stops; in particular a "no remainder" test that succeeds on the real exit
   index leaves when nothing below the current bound remains.
   */
  lemma {:induction false} ChainDoes(p: Protocol, k: pos, stages: seq<Stage>, snapshot: int, v: Vec, bounds: seq<int>,
                                     bound: int, shortened: bool) returns (n: nat)
    requires Accepted(p) && |v| == |p.init| && Remaining(stages, k)
    requires Index(p, v) <= bound <= snapshot && (stages == [] ==> Index(p, v) == bound)
    requires MayLeave(p, stages, snapshot, v, bound)
    requires var o := Chain(p, stages, snapshot, v, bounds); o.Left? && Legal(o.trace, k, Index(p, v), bound, shortened)
    ensures (Index(p, v) < bound ==> 1 <= n) && Index(p, v) + n <= bound
    ensures Reaches(p, v, n, Chain(p, stages, snapshot, v, bounds), bound)
    decreases |bounds|, |stages|, 1
  {
    hide Legal; hide Accepted; hide Stepping; hide Exiting; hide ResumeOf; hide Settled; hide Fallback;
    if stages == [] {
      n := 0;
    } else if stages[0].skip {
      n := ChainDoes(p, k, stages[1..], snapshot, v, bounds, bound, shortened);
    } else {
      var o := if Index(p, v) + stages[0].step - 1 < bounds[0] then Stepping(p, stages, snapshot, v, bounds[1..])
      else Exiting(p, stages, snapshot, Fallback(p, v), bounds[1..]);
      var b, s := LegalLoad(bounds[0], o.trace, k, Index(p, v), bound, shortened);
      LoadAlone(b, bound);
      hide Reaches;
      if Index(p, v) + stages[0].step - 1 < bounds[0] {
        n := SteppingDoes(p, k, stages, snapshot, v, bounds[1..], b, s);
      } else {
        SettledFallback(p, v);
        n := ExitingDoes(p, k, stages, snapshot, v, bounds[1..], b, s);
      }
      ReachesAfter(p, v, 0, n, [Load(b)], o, bound);
    }
  }

  lemma {:induction false} SteppingDoes(p: Protocol, k: pos, stages: seq<Stage>, snapshot: int, v: Vec,
                                        bounds: seq<int>, bound: int, shortened: bool) returns (n: nat)
    requires Accepted(p) && |v| == |p.init| && Chained(stages, k)
    requires Index(p, v) + stages[0].step <= bound <= snapshot
    requires var o := Stepping(p, stages, snapshot, v, bounds);
             o.Left? && Legal(o.trace, k, Index(p, v), bound, shortened)
    ensures 1 <= n && Index(p, v) + n <= bound
    ensures Reaches(p, v, n, Stepping(p, stages, snapshot, v, bounds), bound)
    decreases |bounds|, |stages|, 2
  {
    hide Legal; hide Accepted; hide Chain; hide Exiting; hide ResumeOf; hide Settled; hide Fallback; hide Reaches;
    var step := stages[0].step;
    var u := Nth(p, v, step);
    NthIndex(p, v, step);
    NthSettled(p, v, step);
    var o := if Index(p, u) + step - 1 < bounds[0] then Stepping(p, stages, snapshot, u, bounds[1..])
    else Exiting(p, stages, snapshot, u, bounds[1..]);
    var b, s := LegalStep(p, v, step, Index(p, u), bounds[0], o.trace, k, bound, shortened);
    StepAlone(p, v, step, Index(p, u), b, bound);
    var m;
    if Index(p, u) + step - 1 < bounds[0] {
      m := SteppingDoes(p, k, stages, snapshot, u, bounds[1..], b, s);
    } else {
      m := ExitingDoes(p, k, stages, snapshot, u, bounds[1..], b, s);
    }
    n := step + m;
    ReachesAfter(p, v, step, m, Runs(p, v, step) + [Store(Index(p, u))] + [Load(b)], o, bound);
  }

  lemma {:induction false} ExitingDoes(p: Protocol, k: pos, stages: seq<Stage>, snapshot: int, v: Vec, bounds: seq<int>,
                                       bound: int, shortened: bool) returns (n: nat)
    requires Accepted(p) && |v| == |p.init| && Chained(stages, k)
    requires Index(p, v) <= bound <= snapshot && bound <= Index(p, v) + stages[0].step - 1 && Settled(p, v)
    requires var o := Exiting(p, stages, snapshot, v, bounds);
             o.Left? && Legal(o.trace, k, Index(p, v), bound, shortened)
    ensures (Index(p, v) < bound ==> 1 <= n) && Index(p, v) + n <= bound
    ensures Reaches(p, v, n, Exiting(p, stages, snapshot, v, bounds), bound)
    decreases |bounds|, |stages|, 0
  {
    hide Legal; hide Accepted; hide Chain; hide Stepping; hide ResumeOf; hide Settled; hide Fallback;
    if stages[0].test && Index(p, v) == snapshot {
      n := 0;
    } else {
      n := ChainDoes(p, k, stages[1..], snapshot, v, bounds, bound, shortened);
    }
  }

  /** The bodies see the PHIs that the original loop sees, or room was wanting: a loop that is let in
      without room hands over its fallback values before any iteration has run. */
  lemma {:induction false} WithoutRoom(p: Protocol, k: pos, stages: seq<Stage>, snapshot: int, v: Vec,
                                       bounds: seq<int>, bound: int, shortened: bool)
    requires Accepted(p) && |v| == |p.init| && Chained(stages, k) && !Settled(p, v)
    requires Index(p, v) < bound <= snapshot && !LetsIn(stages, Index(p, v), snapshot)
    requires var o := Chain(p, stages, snapshot, v, bounds);
             o.Left? && Legal(o.trace, k, Index(p, v), bound, shortened)
    ensures var bodies := Bodies(Chain(p, stages, snapshot, v, bounds).trace); bodies != [] && bodies[0] != v
    decreases |stages|
  {
    hide Legal; hide Accepted; hide Stepping; hide ResumeOf; hide Settled; hide Fallback;
    assert |stages| > 1;
    if stages[0].skip {
      WithoutRoom(p, k, stages[1..], snapshot, v, bounds, bound, shortened);
    } else {
      var u := Fallback(p, v);
      FallbackSettles(p, v);
      AcceptedShape(p);
      FallbackShape(p, v);
      var o := if Index(p, v) + stages[0].step - 1 < bounds[0] then Stepping(p, stages, snapshot, v, bounds[1..])
      else Exiting(p, stages, snapshot, u, bounds[1..]);
      var b, s := LegalLoad(bounds[0], o.trace, k, Index(p, v), bound, shortened);
      var n := ChainDoes(p, k, stages[1..], snapshot, u, bounds[1..], b, s);
      FirstBody([Load(b)], o, p, u, n);
    }
  }

  lemma FallbackShape(p: Protocol, v: Vec)
    ensures |Fallback(p, v)| == |p.latch|
  {
  }

  lemma FirstBody(t: seq<Event>, o: Outcome, p: Protocol, u: Vec, n: pos)
    requires Bodies(t) == [] && Bodies(o.trace) == Iterations(p, u, n)
    ensures var bodies := Bodies(After(t, o).trace); bodies != [] && bodies[0] == u
  {
    BodiesAppend(t, o.trace);
  }

  /** In this run, either the PHIs that share a latch value agree from the start, or the first loop
      let in has room for a step below the snapshot. */
  ghost predicate HasRoom(p: Protocol, stages: seq<Stage>, bounds: seq<int>) {
    Settled(p, p.init) || (bounds != [] && LetsIn(stages, Index(p, p.init), bounds[0]))
  }

  /** `s` is the original run of `n` iterations, in the sense of `Batching.FableKeepsMeaning`. */
  ghost predicate Means(p: Protocol, s: State, n: pos, steps: nat)
    requires p.ind < |p.latch|
  {
    var e := Index(p, p.init) + n;
    SameLoop(s, Steps(p, OriginalCfg(p), Start(Constant(n, e)), steps), e)
  }

  /** `transplantProbe` preserves meaning, whichever loops the snapshot tests skip. */
  lemma TransplantKeepsMeaning(p: Protocol, stages: seq<Stage>, k: pos, cfg: Cfg, bounds: seq<int>, bound: int,
                               steps: nat) returns (n: pos, steps': nat)
    requires Accepted(p) && p.ind < |p.latch| && Chained(stages, k) && IsTransplant(p, stages, cfg)
    requires Index(p, p.init) < bound && LeavesLegally(p, k, bound, Steps(p, cfg, Start(bounds), steps))
    requires HasRoom(p, stages, bounds)
    ensures Index(p, p.init) + n <= bound && Means(p, Steps(p, cfg, Start(bounds), steps), n, steps')
  {
    hide Legal; hide Accepted; hide OriginalCfg; hide Transplanted; hide Scalar; hide Steps; hide Start;
    hide IsTransplant; hide HasRoom;
    var m := TransplantRun(p, stages, k, cfg, bounds);
    var o := Transplanted(p, stages, bounds);
    EndIsFinal(p, cfg, Start(bounds), steps, m);
    NoTrace(Steps(p, cfg, Start(bounds), steps), o);
    n := TransplantedDoes(p, stages, k, bounds, bound);
    UninterruptedDoes(p, p.init, n);
    var bounds' := Constant(n, Index(p, p.init) + n);
    steps' := OriginalRun(p, bounds');
    NoTrace(Steps(p, OriginalCfg(p), Start(bounds'), steps'), Scalar(p, p.init, bounds'));
  }

  /** The condition is exact: a run without room is no run of the original loop. */
  lemma MeaningNeedsRoom(p: Protocol, stages: seq<Stage>, k: pos, cfg: Cfg, bounds: seq<int>, bound: int,
                         steps: nat, n: pos, steps': nat)
    requires Accepted(p) && p.ind < |p.latch| && Chained(stages, k) && IsTransplant(p, stages, cfg)
    requires Index(p, p.init) < bound && LeavesLegally(p, k, bound, Steps(p, cfg, Start(bounds), steps))
    requires Means(p, Steps(p, cfg, Start(bounds), steps), n, steps')
    ensures HasRoom(p, stages, bounds)
  {
    hide Legal; hide Accepted; hide OriginalCfg; hide Transplanted; hide Scalar; hide Steps; hide Start;
    hide IsTransplant; hide HasRoom; hide LastBound;
    var m := TransplantRun(p, stages, k, cfg, bounds);
    var o := Transplanted(p, stages, bounds);
    EndIsFinal(p, cfg, Start(bounds), steps, m);
    NoTrace(Steps(p, cfg, Start(bounds), steps), o);
    var bounds' := Constant(n, Index(p, p.init) + n);
    var m' := OriginalRun(p, bounds');
    EndIsFinal(p, OriginalCfg(p), Start(bounds'), steps', m');
    NoTrace(Steps(p, OriginalCfg(p), Start(bounds'), steps'), Scalar(p, p.init, bounds'));
    UninterruptedDoes(p, p.init, n);
    assert Bodies(o.trace)[0] == p.init by { assert Iterations(p, p.init, n)[0] == p.init; }
    if !HasRoom(p, stages, bounds) {
      FirstBodyWithoutRoom(p, stages, k, bounds, bound);
    }
  }

  lemma FirstBodyWithoutRoom(p: Protocol, stages: seq<Stage>, k: pos, bounds: seq<int>, bound: int)
    requires Accepted(p) && Chained(stages, k) && Index(p, p.init) < bound && !HasRoom(p, stages, bounds)
    requires var o := Transplanted(p, stages, bounds); o.Left? && Legal(o.trace, k, Index(p, p.init), bound, false)
    ensures var bodies := Bodies(Transplanted(p, stages, bounds).trace); bodies != [] && bodies[0] != p.init
  {
    hide Legal; hide Accepted; hide Chain; hide Settled; hide LetsIn;
    var o := Chain(p, stages, bounds[0], p.init, bounds[1..]);
    var b, s := LegalLoad(bounds[0], o.trace, k, Index(p, p.init), bound, false);
    LoadAlone(b, 0);
    WithoutRoom(p, k, stages, b, p.init, bounds[1..], b, s);
    BodiesAppend([Load(b)], o.trace);
  }

  lemma TransplantedDoes(p: Protocol, stages: seq<Stage>, k: pos, bounds: seq<int>, bound: int) returns (n: pos)
    requires Accepted(p) && Chained(stages, k) && Index(p, p.init) < bound && HasRoom(p, stages, bounds)
    requires var o := Transplanted(p, stages, bounds); o.Left? && Legal(o.trace, k, Index(p, p.init), bound, false)
    ensures Index(p, p.init) + n <= bound && Reaches(p, p.init, n, Transplanted(p, stages, bounds), 0)
  {
    hide Legal; hide Accepted; hide Chain; hide Reaches; hide Settled; hide LetsIn;
    var o := Chain(p, stages, bounds[0], p.init, bounds[1..]);
    var b, s := LegalLoad(bounds[0], o.trace, k, Index(p, p.init), bound, false);
    LoadAlone(b, 0);
    n := ChainDoes(p, k, stages, b, p.init, bounds[1..], b, s);
    ReachesAfter(p, p.init, 0, n, [Load(b)], o, 0);
  }
}
