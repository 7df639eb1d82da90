/** Runs exist, and every run can be carried on to a result. */
module Completion {
  import opened Tasks
  import opened Machine
  import opened Wrappers
  import opened SystemInvariant
  import opened Progress
  import opened Termination

  lemma FirstRun(t: Task, a0: Expr, n: nat)
    ensures IsRun(t, a0, n, [Init(t, a0, n)], [])
  {
  }

  /** A run goes on with any enabled step. */
  lemma RunExtends(t: Task, a0: Expr, n: nat, run: seq<State>, steps: seq<Step>, step: Step)
    requires IsRun(t, a0, n, run, steps) && Next(run[|steps|], step).Some?
    ensures IsRun(t, a0, n, run + [Next(run[|steps|], step).value], steps + [step])
  {
    hide Next; hide Init;
    var more, all := run + [Next(run[|steps|], step).value], steps + [step];
    forall k | 0 <= k < |all| ensures Next(more[k], all[k]) == Some(more[k + 1]) {
      if k < |steps| {
        assert more[k] == run[k] && more[k + 1] == run[k + 1] && all[k] == steps[k];
      }
    }
  }

  /** Whatever has been promoted and stolen so far, a run can be completed. */
  lemma {:induction false} RunCompletes(t: Task, a0: Expr, n: nat, run: seq<State>, steps: seq<Step>)
    returns (run': seq<State>, steps': seq<Step>)
    requires IsRun(t, a0, n, run, steps)
    ensures IsRun(t, a0, n, run', steps') && run <= run' && steps <= steps'
    ensures run'[|steps'|].result.Some?
    decreases SystemPotential(run[|steps|])
  {
    var st := run[|steps|];
    RunNeverStuck(t, a0, n, run, steps, |steps|);
    RunKeeps(t, a0, n, run, steps, |steps|);
    hide SystemPotential; hide SystemInv; hide Next; hide TopRule;
    if st.result.Some? {
      run', steps' := run, steps;
    } else {
      var w: nat :| w < |st.workers| && Next(st, Main(w, 1)).Some?;
      MainPays(st, w, 1, t, a0);
      RunExtends(t, a0, n, run, steps, Main(w, 1));
      run', steps' := RunCompletes(t, a0, n, run + [Next(st, Main(w, 1)).value], steps + [Main(w, 1)]);
    }
  }
}
