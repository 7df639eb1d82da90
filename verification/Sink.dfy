/** `SinkPlan` (fablepass): the memoised search for after-exit uses of the snapshot limit. */
module Sink {
  import opened ValueGraph

  /** What the search finds at one use. */
  ghost predicate Hit(g: Graph, v: nat, u: nat, k: nat)
    requires Wf(g)
  {
    UsedAfter(g, v, u, k) || (Through(g, v, u, k) && v < u && Needed(g, u))
  }

  ghost predicate Fault(g: Graph, v: nat, u: nat, k: nat)
    requires Wf(g)
  {
    BadUse(g, v, u, k) || (Through(g, v, u, k) && v < u && Bad(g, u))
  }

  class SinkPlan {
    const g: Graph
    var needs: map<nat, bool>
    var failure: bool

    constructor (g: Graph)
      ensures this.g == g && needs == map[] && !failure
    {
      this.g := g;
      needs, failure := map[], false;
    }

    /** The entry of `j` is right, and everything that `j` feeds has an entry. */
    ghost predicate Final(j: nat)
      reads this
      requires Wf(g) && j in needs
    {
      && (needs[j] <==> Needed(g, j))
      && (Bad(g, j) ==> failure)
      && forall u: nat, k: nat :: Through(g, j, u, k) ==> u in needs
    }

    /** Entries outside `open`, the nodes being visited, are final, and so is what they feed. */
    ghost predicate Memo(open: set<nat>)
      reads this
      requires Wf(g)
    {
      && open <= needs.Keys
      && forall j :: j in needs && j !in open ==>
                       Final(j)
    }

    /** The uses of `v`, in any order. */
    method Uses(v: nat) returns (uses: seq<(nat, nat)>)
      requires Wf(g)
      ensures forall u: nat, k: nat :: (u, k) in uses <==> IsUse(g, v, u, k)
    {
      uses := [];
      for u := 0 to |g.nodes|
        invariant forall a: nat, k: nat :: (a, k) in uses <==> a < u && IsUse(g, v, a, k)
      {
        for k := 0 to |g.nodes[u].operands|
          invariant forall a: nat, h: nat ::
              (a, h) in uses <==> (a < u || (a == u && h < k)) && IsUse(g, v, a, h)
        {
          if g.nodes[u].operands[k] == v { uses := uses + [(u, k)]; }
        }
      }
    }

    /** `needs`: does `v` feed a use after the exit? */
    method Needs(v: nat, ghost open: set<nat>) returns (result: bool)
      requires Wf(g) && v < |g.nodes| && Memo(open) && forall j :: j in open ==> j < v
      modifies this
      ensures Memo(open) && v in needs && old(needs.Keys) <= needs.Keys
      ensures result <==> Needed(g, v)
      ensures failure <==> old(failure) || Bad(g, v)
      decreases |g.nodes| - v, 1
    {
      hide Needed; hide Bad; hide Wf; hide Hit; hide Fault; hide Through;
      if v in needs { return needs[v]; }
      needs := needs[v := false];
      result := false;
      var uses := Uses(v);
      for i := 0 to |uses|
        invariant Memo(open + {v}) && old(needs.Keys) <= needs.Keys
        invariant result <==> exists h :: 0 <= h < i && Hit(g, v, uses[h].0, uses[h].1)
        invariant failure <==> old(failure) || exists h :: 0 <= h < i && Fault(g, v, uses[h].0, uses[h].1)
        invariant forall h :: 0 <= h < i && Through(g, v, uses[h].0, uses[h].1) ==> uses[h].0 in needs
      {
        assert uses[i] in uses;
        var hit := VisitUse(v, uses[i].0, uses[i].1, open + {v});
        if hit { result := true; }
      }
      AllHits(g, v, uses);
      needs := needs[v := result];
    }

    /** `visitUse`. */
    method VisitUse(v: nat, u: nat, k: nat, ghost open: set<nat>) returns (hit: bool)
      requires Wf(g) && v < |g.nodes| && IsUse(g, v, u, k) && Memo(open) && forall j :: j in open ==> j <= v
      modifies this
      ensures Memo(open) && old(needs.Keys) <= needs.Keys && (Through(g, v, u, k) ==> u in needs)
      ensures hit <==> Hit(g, v, u, k)
      ensures failure <==> old(failure) || Fault(g, v, u, k)
      decreases |g.nodes| - v, 0
    {
      var user := g.nodes[u];
      if u == g.skip { return false; }
      if user.after[k] { return true; }
      if user.kind.Foreign? {
        failure := true;
        return false;
      }
      if user.kind.Merge? { return false; }
      if user.kind.Effect? {
        failure := true;
        return false;
      }
      hit := Needs(u, open);
    }

    /** `plan`: accepted unless the limit can reach memory or a call before the exit. */
    method Plan(root: nat) returns (ok: bool)
      requires Wf(g) && root < |g.nodes| && needs == map[] && !failure
      modifies this
      ensures Memo({}) && forall u: nat, k: nat :: Through(g, root, u, k) ==> u in needs
      ensures ok <==> !Bad(g, root)
    {
      var uses := Uses(root);
      for i := 0 to |uses|
        invariant Memo({})
        invariant failure <==> exists h :: 0 <= h < i && Fault(g, root, uses[h].0, uses[h].1)
        invariant forall h :: 0 <= h < i && Through(g, root, uses[h].0, uses[h].1) ==> uses[h].0 in needs
      {
        assert uses[i] in uses;
        var hit := VisitUse(root, uses[i].0, uses[i].1, {});
      }
      AllHits(g, root, uses);
      ok := !failure;
    }
  }

  /** Looking at all uses decides `Needed` and `Bad`. */
  lemma AllHits(g: Graph, v: nat, uses: seq<(nat, nat)>)
    requires Wf(g) && forall u: nat, k: nat :: (u, k) in uses <==> IsUse(g, v, u, k)
    ensures Needed(g, v) <==> exists h :: 0 <= h < |uses| && Hit(g, v, uses[h].0, uses[h].1)
    ensures Bad(g, v) <==> exists h :: 0 <= h < |uses| && Fault(g, v, uses[h].0, uses[h].1)
    ensures forall u: nat, k: nat :: Through(g, v, u, k) ==> (u, k) in uses
  {
    NeededHits(g, v);
    hide Wf; hide Hit; hide Fault; hide Needed; hide Bad;
    if Needed(g, v) {
      var u: nat, k: nat :| IsUse(g, v, u, k) && Hit(g, v, u, k);
      assert (u, k) in uses;
    }
    if Bad(g, v) {
      var u: nat, k: nat :| IsUse(g, v, u, k) && Fault(g, v, u, k);
      assert (u, k) in uses;
    }
    forall h | 0 <= h < |uses| ensures IsUse(g, v, uses[h].0, uses[h].1) {
      assert (uses[h].0, uses[h].1) in uses;
    }
  }

  lemma NeededHits(g: Graph, v: nat)
    requires Wf(g)
    ensures Needed(g, v) <==> exists u: nat, k: nat :: IsUse(g, v, u, k) && Hit(g, v, u, k)
    ensures Bad(g, v) <==> exists u: nat, k: nat :: IsUse(g, v, u, k) && Fault(g, v, u, k)
  {
    hide Wf;
  }
}
