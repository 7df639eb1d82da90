/**
 What `replaceOrSinkPastExit` (fablepass) leaves behind, and why it is right:
 every use after the exit evaluates as the original expression with the limit
 replaced by the real exit index, and every use before it keeps its value.
 */
module SunkValues {
  import opened ValueGraph

  /** What an operand slot refers to: an original value, the real exit index, or the sunk clone of a value. */
  datatype Ref = Orig(v: nat) | Repl | CloneOf(v: nat)

  /** The operands of the original nodes, and of the sunk clones. */
  datatype Code = Code(ops: seq<seq<Ref>>, clones: map<nat, seq<Ref>>)

  predicate Moved(g: Graph, c: Code, v: nat) {
    v == g.limit || v in c.clones
  }

  function Target(g: Graph, v: nat): Ref {
    if v == g.limit then Repl else CloneOf(v)
  }

  /** A slot of `v` still refers to it, or to its replacement. */
  predicate Slot(g: Graph, c: Code, v: nat, r: Ref) {
    r == Orig(v) || (Moved(g, c, v) && r == Target(g, v))
  }

  ghost predicate Shaped(g: Graph, c: Code)
    requires Wf(g)
  {
    && |c.ops| == |g.nodes|
    && (forall u :: 0 <= u < |g.nodes| ==> |c.ops[u]| == |g.nodes[u].operands|)
    && (forall u :: u in c.clones ==>
                      && u < |g.nodes| && g.nodes[u].kind.Pure? && !g.nodes[u].past && u != g.skip
                      && |c.clones[u]| == |g.nodes[u].operands|)
    && (forall v: nat, u: nat, k: nat :: IsUse(g, v, u, k) ==>
                                           Slot(g, c, v, c.ops[u][k])
                                           && (u in c.clones ==> Slot(g, c, v, c.clones[u][k])))
  }

  /** What the slots of `v` hold in the end: its replacement where it is `moved`, else `v`. */
  function Sent(g: Graph, v: nat, moved: bool): Ref {
    if moved then Target(g, v) else Orig(v)
  }

  /** The state in which the worklist is empty. */
  ghost predicate Sunk(g: Graph, c: Code)
    requires Wf(g)
  {
    && Shaped(g, c)
    && (forall v: nat, u: nat, k: nat :: IsUse(g, v, u, k) ==>
                                           && c.ops[u][k]
                                              == Sent(g, v, u != g.skip && g.nodes[u].after[k] && Moved(g, c, v))
                                           && (u in c.clones ==> c.clones[u][k] == Sent(g, v, Moved(g, c, v))))
    && (forall v: nat, u: nat, k: nat :: Through(g, v, u, k) && Moved(g, c, v) && Needed(g, u) ==> u in c.clones)
    && (forall u :: u in c.clones ==> Needed(g, u))
  }

  // ---------- evaluation ----------

  /** How pure operations compute, and the values of all other nodes. */
  datatype Semantics = Semantics(apply: (nat, seq<int>) -> int, leaf: nat -> int)

  ghost function Eval(g: Graph, m: Semantics, v: nat): int
    requires Wf(g) && v < |g.nodes|
    decreases v, 1
  {
    if g.nodes[v].kind.Pure? then m.apply(g.nodes[v].opcode, EvalArgs(g, m, v)) else m.leaf(v)
  }

  ghost function EvalArgs(g: Graph, m: Semantics, v: nat): seq<int>
    requires Wf(g) && v < |g.nodes| && g.nodes[v].kind.Pure?
    decreases v, 0
  {
    var os := g.nodes[v].operands;
    seq(|os|, k requires 0 <= k < |os| => assert IsUse(g, os[k], v, k); Eval(g, m, os[k]))
  }

  /** The original expression, with `r` in place of the limit. */
  ghost function EvalWith(g: Graph, m: Semantics, r: int, v: nat): int
    requires Wf(g) && v < |g.nodes|
    decreases v, 1
  {
    if v == g.limit then r
    else if g.nodes[v].kind.Pure? then m.apply(g.nodes[v].opcode, EvalWithArgs(g, m, r, v))
    else m.leaf(v)
  }

  ghost function EvalWithArgs(g: Graph, m: Semantics, r: int, v: nat): seq<int>
    requires Wf(g) && v < |g.nodes| && g.nodes[v].kind.Pure?
    decreases v, 0
  {
    var os := g.nodes[v].operands;
    seq(|os|, k requires 0 <= k < |os| => assert IsUse(g, os[k], v, k); EvalWith(g, m, r, os[k]))
  }

  function Rank(r: Ref): nat {
    if r.Repl? then 0 else r.v + 1
  }

  ghost predicate InCode(g: Graph, c: Code, r: Ref) {
    match r
    case Orig(v) => v < |g.nodes|
    case Repl => true
    case CloneOf(v) => v in c.clones
  }

  /** The value of a reference in the rewritten code; `r` is the real exit index. */
  ghost function EvalRef(g: Graph, c: Code, m: Semantics, r: int, ref: Ref): int
    requires Wf(g) && Shaped(g, c) && InCode(g, c, ref)
    decreases Rank(ref), 1
  {
    match ref
    case Repl => r
    case Orig(v) =>
      if g.nodes[v].kind.Pure? then m.apply(g.nodes[v].opcode, EvalRefs(g, c, m, r, v, c.ops[v])) else m.leaf(v)
    case CloneOf(v) => m.apply(g.nodes[v].opcode, EvalRefs(g, c, m, r, v, c.clones[v]))
  }

  ghost function EvalRefs(g: Graph, c: Code, m: Semantics, r: int, v: nat, refs: seq<Ref>): seq<int>
    requires Wf(g) && Shaped(g, c) && v < |g.nodes| && g.nodes[v].kind.Pure?
    requires refs == c.ops[v] || (v in c.clones && refs == c.clones[v])
    decreases v + 1, 0
  {
    seq(|refs|, k requires 0 <= k < |refs| =>
      assert IsUse(g, g.nodes[v].operands[k], v, k); EvalRef(g, c, m, r, refs[k]))
  }

  // ---------- values before the exit ----------

  /** A value computed before the exit is computed as before. */
  lemma {:induction false} BeforeExit(g: Graph, c: Code, m: Semantics, r: int, v: nat)
    requires Wf(g) && Sunk(g, c) && v < |g.nodes| && !g.nodes[v].past
    ensures EvalRef(g, c, m, r, Orig(v)) == Eval(g, m, v)
    decreases v
  {
    if g.nodes[v].kind.Pure? {
      var os := g.nodes[v].operands;
      forall k | 0 <= k < |os| ensures EvalRefs(g, c, m, r, v, c.ops[v])[k] == EvalArgs(g, m, v)[k] {
        assert IsUse(g, os[k], v, k);
        BeforeExit(g, c, m, r, os[k]);
      }
      assert EvalRefs(g, c, m, r, v, c.ops[v]) == EvalArgs(g, m, v);
    }
  }

  /** `v` is computed from the limit by pure operations. */
  ghost predicate FromLimit(g: Graph, v: nat)
    requires Wf(g)
    decreases v
  {
    v == g.limit ||
    (v < |g.nodes| && g.nodes[v].kind.Pure? && exists w: nat, k: nat :: IsUse(g, w, v, k) && w < v && FromLimit(g, w))
  }

  /** Before the exit, a value computed from the limit is used by node `u`, which touches memory,
      has side effects or is no instruction. */
  ghost predicate Escapes(g: Graph, v: nat, u: nat, k: nat)
    requires Wf(g)
  {
    && IsUse(g, v, u, k) && FromLimit(g, v) && u != g.skip && !g.nodes[u].after[k]
    && (g.nodes[u].kind.Effect? || g.nodes[u].kind.Foreign?)
  }

  /** The search rejects a limit exactly when a value computed from it escapes before the exit. */
  lemma RejectedIff(g: Graph)
    requires Wf(g)
    ensures Bad(g, g.limit) <==> exists v: nat, u: nat, k: nat :: Escapes(g, v, u, k)
  {
    if Bad(g, g.limit) {
      var v, u, k := BadEscapes(g, g.limit);
    }
    if v: nat, u: nat, k: nat :| Escapes(g, v, u, k) {
      assert BadUse(g, v, u, k);
      BadFromLimit(g, v);
    }
  }

  lemma {:induction false} BadEscapes(g: Graph, v: nat) returns (w: nat, u: nat, k: nat)
    requires Wf(g) && Bad(g, v) && FromLimit(g, v)
    ensures Escapes(g, w, u, k)
    decreases |g.nodes| - v
  {
    if u': nat, k': nat :| BadUse(g, v, u', k') {
      w, u, k := v, u', k';
    } else {
      var x: nat, j: nat :| Through(g, v, x, j) && v < x && Bad(g, x);
      assert IsUse(g, v, x, j);
      w, u, k := BadEscapes(g, x);
    }
  }

  /** A value before the exit that comes from the limit and is bad makes the limit bad. */
  lemma {:induction false} BadFromLimit(g: Graph, v: nat)
    requires Wf(g) && v < |g.nodes| && !g.nodes[v].past && v != g.skip && FromLimit(g, v) && Bad(g, v)
    ensures Bad(g, g.limit)
    decreases v
  {
    if v != g.limit {
      var w: nat, k: nat :| IsUse(g, w, v, k) && w < v && FromLimit(g, w);
      assert Through(g, w, v, k);
      BadUser(g, w, v, k);
      assert w != g.skip;
      BadFromLimit(g, w);
    }
  }

  lemma BadUser(g: Graph, w: nat, v: nat, k: nat)
    requires Wf(g) && Through(g, w, v, k) && w < v && Bad(g, v)
    ensures Bad(g, w)
  {
    hide Wf;
  }

  /** What does not come from the limit does not change with it. */
  lemma {:induction false} WithoutLimit(g: Graph, m: Semantics, r: int, v: nat)
    requires Wf(g) && v < |g.nodes| && !FromLimit(g, v)
    ensures EvalWith(g, m, r, v) == Eval(g, m, v)
    decreases v
  {
    if g.nodes[v].kind.Pure? {
      var os := g.nodes[v].operands;
      forall k | 0 <= k < |os| ensures EvalWithArgs(g, m, r, v)[k] == EvalArgs(g, m, v)[k] {
        assert IsUse(g, os[k], v, k);
        WithoutLimit(g, m, r, os[k]);
      }
      assert EvalWithArgs(g, m, r, v) == EvalArgs(g, m, v);
    }
  }

  /** A pre-exit value that comes from the limit and feeds a use after the exit has been sunk. */
  lemma {:induction false} NeededIsMoved(g: Graph, c: Code, v: nat)
    requires Wf(g) && Sunk(g, c) && v < |g.nodes| && !g.nodes[v].past && v != g.skip
    requires FromLimit(g, v) && Needed(g, v)
    ensures Moved(g, c, v)
    decreases v
  {
    if v != g.limit {
      var w: nat, k: nat :| IsUse(g, w, v, k) && w < v && FromLimit(g, w);
      assert Through(g, w, v, k);
      StillNeeded(g, w, v, k);
      assert w != g.skip;
      NeededIsMoved(g, c, w);
    }
  }

  lemma StillNeeded(g: Graph, w: nat, v: nat, k: nat)
    requires Wf(g) && Through(g, w, v, k) && Needed(g, v)
    ensures Needed(g, w)
  {
    assert w < v;
    hide Wf;
  }

  // ---------- values after the exit ----------

  /** A sunk clone has the value of the original expression with the limit replaced. */
  lemma {:induction false} CloneValue(g: Graph, c: Code, m: Semantics, r: int, v: nat)
    requires Wf(g) && Sunk(g, c) && v in c.clones && v != g.limit
    ensures EvalRef(g, c, m, r, CloneOf(v)) == EvalWith(g, m, r, v)
    decreases v, 0
  {
    var os := g.nodes[v].operands;
    var refs := EvalRefs(g, c, m, r, v, c.clones[v]);
    forall k | 0 <= k < |os| ensures refs[k] == EvalWithArgs(g, m, r, v)[k] {
      assert IsUse(g, os[k], v, k);
      CloneSlot(g, c, m, r, os[k], v, k);
    }
    assert refs == EvalWithArgs(g, m, r, v);
  }

  /** So has a value computed after the exit. */
  lemma {:induction false} PastValue(g: Graph, c: Code, m: Semantics, r: int, v: nat)
    requires Wf(g) && Sunk(g, c) && v < |g.nodes| && g.nodes[v].past
    ensures EvalRef(g, c, m, r, Orig(v)) == EvalWith(g, m, r, v)
    decreases v, 0
  {
    if g.nodes[v].kind.Pure? {
      var os := g.nodes[v].operands;
      var refs := EvalRefs(g, c, m, r, v, c.ops[v]);
      forall k | 0 <= k < |os| ensures refs[k] == EvalWithArgs(g, m, r, v)[k] {
        assert IsUse(g, os[k], v, k);
        AfterSlot(g, c, m, r, os[k], v, k);
      }
      assert refs == EvalWithArgs(g, m, r, v);
    }
  }

  /** The slots of a sunk clone. */
  lemma {:induction false} CloneSlot(g: Graph, c: Code, m: Semantics, r: int, w: nat, v: nat, k: nat)
    requires Wf(g) && Sunk(g, c) && v in c.clones && IsUse(g, w, v, k)
    ensures InCode(g, c, c.clones[v][k]) && EvalRef(g, c, m, r, c.clones[v][k]) == EvalWith(g, m, r, w)
    decreases w, 1
  {
    assert w < v && !g.nodes[w].past && w != g.skip;
    if w in c.clones && w != g.limit {
      CloneValue(g, c, m, r, w);
    } else if w != g.limit {
      assert Through(g, w, v, k);
      StillNeeded(g, w, v, k);
      if FromLimit(g, w) { NeededIsMoved(g, c, w); }
      WithoutLimit(g, m, r, w);
      BeforeExit(g, c, m, r, w);
    }
  }

  /** Every slot after the exit. */
  lemma {:induction false} AfterSlot(g: Graph, c: Code, m: Semantics, r: int, v: nat, u: nat, k: nat)
    requires Wf(g) && Sunk(g, c) && IsUse(g, v, u, k) && u != g.skip && g.nodes[u].after[k]
    ensures InCode(g, c, c.ops[u][k]) && EvalRef(g, c, m, r, c.ops[u][k]) == EvalWith(g, m, r, v)
    decreases v, 1
  {
    if v in c.clones && v != g.limit {
      CloneValue(g, c, m, r, v);
    } else if v != g.limit && g.nodes[v].past {
      PastValue(g, c, m, r, v);
    } else if v != g.limit {
      assert UsedAfter(g, v, u, k);
      assert v != g.skip;
      if FromLimit(g, v) { NeededIsMoved(g, c, v); }
      WithoutLimit(g, m, r, v);
      BeforeExit(g, c, m, r, v);
    }
  }

  /**
   The statement of correctness: for all operations and values, and whatever the
   real exit index `r`, each use after the exit has the value of the original
   expression with the limit replaced by `r`; each other use is untouched and
   keeps its value.
   */
  lemma SinkingIsRight(g: Graph, c: Code, m: Semantics, r: int, v: nat, u: nat, k: nat)
    requires Wf(g) && Sunk(g, c) && IsUse(g, v, u, k)
    ensures InCode(g, c, c.ops[u][k])
    ensures u != g.skip && g.nodes[u].after[k] ==> EvalRef(g, c, m, r, c.ops[u][k]) == EvalWith(g, m, r, v)
    ensures u == g.skip || !g.nodes[u].after[k] ==>
              c.ops[u][k] == Orig(v) && EvalRef(g, c, m, r, c.ops[u][k]) == Eval(g, m, v)
  {
    if u != g.skip && g.nodes[u].after[k] {
      AfterSlot(g, c, m, r, v, u, k);
    } else {
      assert !g.nodes[v].past;
      BeforeExit(g, c, m, r, v);
    }
  }
}
