/**
 The uses of the values of a function, as far as the sinking of a step loop's
 snapshot limit looks at them (fablepass).  Nodes are values; an operand slot of
 a node is a use.  `after` says of each use whether the loop's exit block
 dominates it; `past` says so of the node itself.
 */
module ValueGraph {

  /** `Merge` nodes are PHI nodes and terminators, `Effect` nodes touch memory or have side
      effects, `Foreign` users are not instructions. */
  datatype Kind = Pure | Merge | Effect | Foreign

  datatype Node = Node(kind: Kind, opcode: nat, operands: seq<nat>, after: seq<bool>, past: bool)

  /** The limit whose uses are replaced, and the loop's own exit compare, which is left alone. */
  datatype Graph = Graph(nodes: seq<Node>, limit: nat, skip: nat)

  predicate IsUse(g: Graph, v: nat, u: nat, k: nat) {
    u < |g.nodes| && k < |g.nodes[u].operands| && g.nodes[u].operands[k] == v
  }

  /** SSA form without cycles but through PHI nodes, and the dominance facts the pass relies on. */
  ghost predicate Wf(g: Graph) {
    && g.limit < |g.nodes| && g.skip < |g.nodes| && g.limit != g.skip
    && !g.nodes[g.limit].past && !g.nodes[g.skip].past && g.nodes[g.skip].kind.Pure?
    && (forall u :: 0 <= u < |g.nodes| ==> |g.nodes[u].after| == |g.nodes[u].operands|)
    && (forall v: nat, u: nat, k: nat :: IsUse(g, v, u, k) ==> v < |g.nodes|)
    && (forall v: nat, u: nat, k: nat :: IsUse(g, v, u, k) && g.nodes[u].kind.Pure? ==>
                                           v < u && g.nodes[u].after[k] == g.nodes[u].past)
    && (forall v: nat, u: nat, k: nat :: IsUse(g, v, u, k) && g.nodes[v].past ==> g.nodes[u].after[k])
    && (forall u: nat, k: nat :: IsUse(g, g.skip, u, k) ==> g.nodes[u].kind.Merge? && !g.nodes[u].after[k])
  }

  /** `u` is a user through which the search for after-exit uses goes on. */
  ghost predicate Through(g: Graph, v: nat, u: nat, k: nat)
    requires Wf(g)
  {
    IsUse(g, v, u, k) && u != g.skip && !g.nodes[u].after[k] && g.nodes[u].kind.Pure?
  }

  ghost predicate UsedAfter(g: Graph, v: nat, u: nat, k: nat)
    requires Wf(g)
  {
    IsUse(g, v, u, k) && u != g.skip && g.nodes[u].after[k]
  }

  /** A use that could carry the snapshot past the exit. */
  ghost predicate BadUse(g: Graph, v: nat, u: nat, k: nat)
    requires Wf(g)
  {
    IsUse(g, v, u, k) && u != g.skip && !g.nodes[u].after[k] && (g.nodes[u].kind.Effect? || g.nodes[u].kind.Foreign?)
  }

  /** `v` feeds a use after the exit. */
  ghost predicate Needed(g: Graph, v: nat)
    requires Wf(g)
    decreases |g.nodes| - v
  {
    || FeedsAfter(g, v)
    || (exists u, k :: Through(g, v, u, k) && v < u && Needed(g, u))
  }

  /** `v` feeds, before the exit, memory or a call. */
  ghost predicate Bad(g: Graph, v: nat)
    requires Wf(g)
    decreases |g.nodes| - v
  {
    || (exists u, k :: BadUse(g, v, u, k))
    || (exists u, k :: Through(g, v, u, k) && v < u && Bad(g, u))
  }

  // ---------- the same as reachability ----------

  /** `path` leads from `v` through pure users before the exit. */
  ghost predicate IsPath(g: Graph, v: nat, path: seq<nat>)
    requires Wf(g)
  {
    && path != [] && path[0] == v
    && forall i :: 0 <= i < |path| - 1 ==> Linked(g, path[i], path[i + 1])
  }

  ghost predicate FeedsAfter(g: Graph, v: nat)
    requires Wf(g)
  {
    exists u, k :: UsedAfter(g, v, u, k)
  }

  ghost predicate Linked(g: Graph, v: nat, u: nat)
    requires Wf(g)
  {
    exists k :: Through(g, v, u, k)
  }

  lemma {:induction false} NeededIsReachable(g: Graph, v: nat)
    requires Wf(g)
    ensures Needed(g, v) <==> exists path :: IsPath(g, v, path) && FeedsAfter(g, path[|path| - 1])
    decreases |g.nodes| - v
  {
    if Needed(g, v) {
      var path, u, k := NeededPath(g, v);
    }
    if path :| IsPath(g, v, path) && FeedsAfter(g, path[|path| - 1]) {
      var u, k :| UsedAfter(g, path[|path| - 1], u, k);
      PathNeeded(g, v, path, u, k);
    }
  }

  lemma {:induction false} NeededPath(g: Graph, v: nat) returns (path: seq<nat>, u: nat, k: nat)
    requires Wf(g) && Needed(g, v)
    ensures IsPath(g, v, path) && UsedAfter(g, path[|path| - 1], u, k)
    decreases |g.nodes| - v
  {
    hide Wf; hide UsedAfter; hide Through;
    if u', k' :| UsedAfter(g, v, u', k') {
      path, u, k := [v], u', k';
    } else {
      var w, j :| Through(g, v, w, j) && v < w && Needed(g, w);
      UseInRange(g, v, w, j);
      hide Needed;
      var rest;
      rest, u, k := NeededPath(g, w);
      path := [v] + rest;
      assert Linked(g, v, w);
      hide Linked;
      forall i | 0 <= i < |path| - 1 ensures Linked(g, path[i], path[i + 1]) {
        assert i > 0 ==> path[i] == rest[i - 1] && path[i + 1] == rest[i - 1 + 1];
      }
    }
  }

  lemma UseInRange(g: Graph, v: nat, u: nat, k: nat)
    requires Wf(g) && Through(g, v, u, k)
    ensures v < u < |g.nodes|
  {
  }

  lemma {:induction false} PathNeeded(g: Graph, v: nat, path: seq<nat>, u: nat, k: nat)
    requires Wf(g) && IsPath(g, v, path) && UsedAfter(g, path[|path| - 1], u, k)
    ensures Needed(g, v)
    decreases |path|
  {
    hide Wf; hide UsedAfter; hide Through;
    if |path| > 1 {
      var rest := path[1..];
      assert Linked(g, path[0], path[0 + 1]);
      var j :| Through(g, path[0], path[0 + 1], j);
      UseInRange(g, v, path[1], j);
      forall i | 0 <= i < |rest| - 1 ensures Linked(g, rest[i], rest[i + 1]) {
        assert rest[i] == path[i + 1] && rest[i + 1] == path[i + 1 + 1];
      }
      PathNeeded(g, path[1], rest, u, k);
    }
  }
}
