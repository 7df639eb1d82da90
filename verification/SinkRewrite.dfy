/** `replaceOrSinkPastExit` (fablepass): the worklist over the limit and the clones it sinks. */
module SinkRewrite {
  import opened ValueGraph
  import opened Sink
  import opened SunkValues

  /** What `SinkPlan` knows after an accepted plan for the limit. */
  ghost predicate Planned(g: Graph, needs: map<nat, bool>)
    requires Wf(g)
  {
    && (forall u: nat, k: nat :: Through(g, g.limit, u, k) ==> u in needs)
    && (forall j: nat, u: nat, k: nat :: j in needs && Through(g, j, u, k) ==> u in needs)
    && (forall j :: j in needs ==> (needs[j] <==> Needed(g, j)))
  }

  /** The uses of `v` in node `u` have been visited: `v` is done, or it is the value being
      processed and `u` lies below `n`. */
  predicate Visited(done: set<nat>, o: nat, n: nat, v: nat, u: nat) {
    v in done || (v == o && u < n)
  }

  ghost predicate CloneRule(g: Graph, c: Code)
    requires Wf(g)
  {
    forall u :: u in c.clones ==>
                  && g.limit < u < |g.nodes| && g.nodes[u].kind.Pure? && !g.nodes[u].past && u != g.skip
                  && Needed(g, u) && |c.clones[u]| == |g.nodes[u].operands|
  }

  ghost predicate OpsRule(g: Graph, c: Code, done: set<nat>, o: nat, n: nat)
    requires Wf(g)
  {
    && |c.ops| == |g.nodes|
    && (forall u :: 0 <= u < |g.nodes| ==> |c.ops[u]| == |g.nodes[u].operands|)
    && forall v: nat, u: nat, k: nat :: IsUse(g, v, u, k) ==>
                                          c.ops[u][k] ==
                                          if u != g.skip && g.nodes[u].after[k] && Visited(done, o, n, v, u)
                                          then Target(g, v) else Orig(v)
  }

  ghost predicate SlotRule(g: Graph, c: Code, done: set<nat>, o: nat, n: nat)
    requires Wf(g) && CloneRule(g, c)
  {
    forall v: nat, u: nat, k: nat :: IsUse(g, v, u, k) && u in c.clones ==>
                                       c.clones[u][k] == if Visited(done, o, n, v, u) then Target(g, v) else Orig(v)
  }

  ghost predicate Closed(g: Graph, c: Code, done: set<nat>, o: nat, n: nat)
    requires Wf(g)
  {
    forall v: nat, u: nat, k: nat :: Through(g, v, u, k) && Visited(done, o, n, v, u) && Needed(g, u) ==> u in c.clones
  }

  /** The worklist holds the limit and the clones not yet processed, each once. */
  ghost predicate WorkRule(g: Graph, c: Code, done: set<nat>, work: seq<nat>) {
    && (forall i, j :: 0 <= i < j < |work| ==> work[i] != work[j])
    && (forall i :: 0 <= i < |work| ==> work[i] !in done)
    && (forall v :: v in done || v in work <==> Moved(g, c, v))
  }

  ghost predicate Sinking(g: Graph, c: Code, done: set<nat>, o: nat, n: nat)
    requires Wf(g)
  {
    CloneRule(g, c) && OpsRule(g, c, done, o, n) && SlotRule(g, c, done, o, n) && Closed(g, c, done, o, n)
  }

  /** The slots of node `u` that hold `o` now hold `r`. */
  function Redirect(refs: seq<Ref>, o: nat, r: Ref): seq<Ref> {
    seq(|refs|, k requires 0 <= k < |refs| => if refs[k] == Orig(o) then r else refs[k])
  }

  method RedirectAll(refs: seq<Ref>, o: nat, r: Ref) returns (s: seq<Ref>)
    ensures s == Redirect(refs, o, r)
  {
    s := [];
    for k := 0 to |refs|
      invariant |s| == k && forall j :: 0 <= j < k ==> s[j] == if refs[j] == Orig(o) then r else refs[j]
    {
      s := s + [if refs[k] == Orig(o) then r else refs[k]];
    }
  }

  function Originals(g: Graph, u: nat): seq<Ref>
    requires u < |g.nodes|
  {
    var os := g.nodes[u].operands;
    seq(|os|, k requires 0 <= k < |os| => Orig(os[k]))
  }

  /** A visited node `u`: its after-exit uses of `o` refer to `r`. */
  function RedirectAfter(g: Graph, refs: seq<Ref>, o: nat, r: Ref, u: nat): seq<Ref>
    requires u < |g.nodes| && |refs| == |g.nodes[u].after|
  {
    seq(|refs|, k requires 0 <= k < |refs| =>
      if u != g.skip && g.nodes[u].after[k] && refs[k] == Orig(o) then r else refs[k])
  }

  method RedirectUses(g: Graph, refs: seq<Ref>, o: nat, r: Ref, u: nat) returns (s: seq<Ref>)
    requires u < |g.nodes| && |refs| == |g.nodes[u].after|
    ensures s == RedirectAfter(g, refs, o, r, u)
  {
    s := [];
    for k := 0 to |refs|
      invariant |s| == k && forall j :: 0 <= j < k ==> s[j] == RedirectAfter(g, refs, o, r, u)[j]
    {
      s := s + [if u != g.skip && g.nodes[u].after[k] && refs[k] == Orig(o) then r else refs[k]];
    }
  }

  /** The original nodes once `u` has been visited. */
  lemma VisitedOps(g: Graph, c: Code, done: set<nat>, o: nat, u: nat, clones: map<nat, seq<Ref>>)
    requires Wf(g) && OpsRule(g, c, done, o, u) && o !in done && u < |g.nodes|
    ensures OpsRule(g, Code(c.ops[u := RedirectAfter(g, c.ops[u], o, Target(g, o), u)], clones), done, o, u + 1)
  {
    var refs := RedirectAfter(g, c.ops[u], o, Target(g, o), u);
    forall v: nat, k: nat | IsUse(g, v, u, k)
      ensures refs[k] ==
              if u != g.skip && g.nodes[u].after[k] && Visited(done, o, u + 1, v, u) then Target(g, v) else Orig(v)
    {
    }
  }

  /** Node `u` is a pure user of `o` before the exit. */
  predicate Sinkable(g: Graph, o: nat, u: nat) {
    u < |g.nodes| && o in g.nodes[u].operands && g.nodes[u].kind.Pure? && !g.nodes[u].past && u != g.skip
  }

  lemma SinkableThrough(g: Graph, o: nat, u: nat) returns (k: nat)
    requires Wf(g) && Sinkable(g, o, u)
    ensures Through(g, o, u, k) && o < u
  {
    k :| 0 <= k < |g.nodes[u].operands| && g.nodes[u].operands[k] == o;
    assert IsUse(g, o, u, k);
  }

  /** The clone of `u`, made when first needed, takes `Target(o)`. */
  lemma SunkSlots(g: Graph, c: Code, done: set<nat>, o: nat, u: nat, ops: seq<seq<Ref>>)
    requires Wf(g) && CloneRule(g, c) && SlotRule(g, c, done, o, u) && Closed(g, c, done, o, u) && o !in done
    requires Sinkable(g, o, u) && Needed(g, u) && g.limit < u
    ensures var was := if u in c.clones then c.clones[u] else Originals(g, u);
            var c' := Code(ops, c.clones[u := Redirect(was, o, Target(g, o))]);
            CloneRule(g, c') && SlotRule(g, c', done, o, u + 1)
  {
    hide Needed;
    var was := if u in c.clones then c.clones[u] else Originals(g, u);
    var slots := Redirect(was, o, Target(g, o));
    var c' := Code(ops, c.clones[u := slots]);
    SlotsOf(g, c, done, o, u);
    assert CloneRule(g, c');
    hide Wf; hide Closed; hide Originals;
    forall v: nat, w: nat, k: nat | IsUse(g, v, w, k) && w in c'.clones
      ensures c'.clones[w][k] == if Visited(done, o, u + 1, v, w) then Target(g, v) else Orig(v)
    {
      if w == u {
        assert c'.clones[w][k] == slots[k];
      }
    }
  }

  /** The slots of the clone of `u`, or of a fresh copy, before `u` is visited for `o`. */
  lemma SlotsOf(g: Graph, c: Code, done: set<nat>, o: nat, u: nat)
    requires Wf(g) && CloneRule(g, c) && SlotRule(g, c, done, o, u) && Closed(g, c, done, o, u)
    requires Sinkable(g, o, u) && Needed(g, u)
    ensures var was := if u in c.clones then c.clones[u] else Originals(g, u);
            && |was| == |g.nodes[u].operands|
            && forall v: nat, k: nat :: IsUse(g, v, u, k) ==>
                                          was[k] == if Visited(done, o, u, v, u) then Target(g, v) else Orig(v)
  {
    hide Needed;
    if u !in c.clones {
      forall v: nat, k: nat | IsUse(g, v, u, k) ensures !Visited(done, o, u, v, u) {
        assert Through(g, v, u, k);
      }
    }
  }

  lemma SunkClosed(g: Graph, c: Code, done: set<nat>, o: nat, u: nat, c': Code)
    requires Wf(g) && Closed(g, c, done, o, u) && c.clones.Keys <= c'.clones.Keys
    requires Sinkable(g, o, u) && Needed(g, u) ==> u in c'.clones
    ensures Closed(g, c', done, o, u + 1)
  {
    hide Needed;
    forall v: nat, w: nat, k: nat | Through(g, v, w, k) && Visited(done, o, u + 1, v, w) && Needed(g, w)
      ensures w in c'.clones
    {
      if w == u && v == o {
        assert Sinkable(g, o, u);
      }
    }
  }

  lemma OtherSlots(g: Graph, c: Code, done: set<nat>, o: nat, u: nat, ops: seq<seq<Ref>>)
    requires Wf(g) && CloneRule(g, c) && SlotRule(g, c, done, o, u) && !(Sinkable(g, o, u) && Needed(g, u))
    ensures CloneRule(g, Code(ops, c.clones)) && SlotRule(g, Code(ops, c.clones), done, o, u + 1)
  {
    var c' := Code(ops, c.clones);
    assert CloneRule(g, c') by { hide Needed; }
    forall v: nat, w: nat, k: nat | IsUse(g, v, w, k) && w in c'.clones
      ensures c'.clones[w][k] == if Visited(done, o, u + 1, v, w) then Target(g, v) else Orig(v)
    {
      OtherSlot(g, c, done, o, u, v, w, k);
    }
  }

  lemma OtherSlot(g: Graph, c: Code, done: set<nat>, o: nat, u: nat, v: nat, w: nat, k: nat)
    requires Wf(g) && CloneRule(g, c) && SlotRule(g, c, done, o, u) && !(Sinkable(g, o, u) && Needed(g, u))
    requires IsUse(g, v, w, k) && w in c.clones
    ensures c.clones[w][k] == if Visited(done, o, u + 1, v, w) then Target(g, v) else Orig(v)
  {
    hide Needed; hide Wf; hide Target; hide CloneRule; hide Sinkable; hide IsUse;
    ClonedUser(g, c, v, w, k);
  }

  lemma ClonedUser(g: Graph, c: Code, v: nat, w: nat, k: nat)
    requires Wf(g) && CloneRule(g, c) && IsUse(g, v, w, k) && w in c.clones
    ensures Sinkable(g, v, w) && Needed(g, w) && k < |c.clones[w]|
  {
    hide Needed; hide Wf;
    assert v in g.nodes[w].operands;
  }

  /** The uses of `o` by node `u`. */
  method VisitNode(g: Graph, needs: map<nat, bool>, c: Code, work: seq<nat>, o: nat, u: nat, ghost done: set<nat>)
    returns (c': Code, work': seq<nat>)
    requires Wf(g) && Planned(g, needs) && u < |g.nodes| && o !in done && Moved(g, c, o)
    requires Sinking(g, c, done, o, u) && WorkRule(g, c, done + {o}, work) && c.clones.Keys <= needs.Keys
    ensures Sinking(g, c', done, o, u + 1) && WorkRule(g, c', done + {o}, work') && c'.clones.Keys <= needs.Keys
    ensures Moved(g, c', o)
  {
    hide Wf; hide Needed; hide OpsRule; hide SlotRule; hide Closed; hide Through; hide CloneRule;
    assert |c.ops| == |g.nodes| && |c.ops[u]| == |g.nodes[u].after| by { OpsShape(g, c, done, o, u); }
    var refs := RedirectUses(g, c.ops[u], o, Target(g, o), u);
    var ops := c.ops[u := refs];
    var node := g.nodes[u];
    c', work' := Code(ops, c.clones), work;
    if Sinkable(g, o, u) {
      var k := UserIsPlanned(g, needs, c, o, u);
      if needs[u] {
        var was := [];
        if u in c.clones {
          was := c.clones[u];
        } else {
          was := CopyOperands(g, u);
          work' := work + [u];
        }
        var slots := RedirectAll(was, o, Target(g, o));
        c' := Code(ops, c.clones[u := slots]);
        SunkSlots(g, c, done, o, u, ops);
      } else {
        OtherSlots(g, c, done, o, u, ops);
      }
    } else {
      OtherSlots(g, c, done, o, u, ops);
    }
    VisitedOps(g, c, done, o, u, c'.clones);
    SunkClosed(g, c, done, o, u, c');
  }

  lemma OpsShape(g: Graph, c: Code, done: set<nat>, o: nat, u: nat)
    requires Wf(g) && OpsRule(g, c, done, o, u) && u < |g.nodes|
    ensures |c.ops| == |g.nodes| && |c.ops[u]| == |g.nodes[u].after| == |g.nodes[u].operands|
  {
  }

  lemma UserIsPlanned(g: Graph, needs: map<nat, bool>, c: Code, o: nat, u: nat) returns (k: nat)
    requires Wf(g) && Planned(g, needs) && Sinkable(g, o, u) && Moved(g, c, o) && c.clones.Keys <= needs.Keys
    requires CloneRule(g, c)
    ensures u in needs && (needs[u] <==> Needed(g, u)) && g.limit < u
  {
    hide Needed;
    k := SinkableThrough(g, o, u);
  }

  /** `UI->clone()`: a clone starts with the operands of the original. */
  method CopyOperands(g: Graph, u: nat) returns (refs: seq<Ref>)
    requires u < |g.nodes|
    ensures refs == Originals(g, u)
  {
    refs := [];
    var os := g.nodes[u].operands;
    for k := 0 to |os|
      invariant |refs| == k && forall j :: 0 <= j < k ==> refs[j] == Orig(os[j])
    {
      refs := refs + [Orig(os[k])];
    }
  }

  /** `replaceOrSinkPastExit`. */
  method ReplaceOrSinkPastExit(g: Graph, needs: map<nat, bool>) returns (c: Code)
    requires Wf(g) && Planned(g, needs)
    ensures Sunk(g, c)
  {
    hide Needed; hide Wf; hide Planned; hide Sinking; hide WorkRule; hide Sunk; hide Originals; hide Moved;
    hide CloneRule;
    var ops := [];
    for u := 0 to |g.nodes|
      invariant |ops| == u && forall w :: 0 <= w < u ==> ops[w] == Originals(g, w)
    {
      var refs := CopyOperands(g, u);
      ops := ops + [refs];
    }
    c := Code(ops, map[]);
    var work := [g.limit];
    ghost var done: set<nat> := {};
    Untouched(g, c);
    while work != []
      invariant WorkRule(g, c, done, work) && c.clones.Keys <= needs.Keys
      invariant forall o :: Sinking(g, c, done, o, 0)
      decreases |g.nodes| - |done|
    {
      var o := work[|work| - 1];
      assert Sinking(g, c, done, o, 0);
      PopWork(g, c, done, work);
      work := work[..|work| - 1];
      ClonesRule(g, c, done, o);
      DoneCount(g, c, done, work, o);
      for u := 0 to |g.nodes|
        invariant Sinking(g, c, done, o, u) && WorkRule(g, c, done + {o}, work) && c.clones.Keys <= needs.Keys
        invariant Moved(g, c, o)
      {
        c, work := VisitNode(g, needs, c, work, o, u, done);
      }
      NodeDone(g, c, done, o);
      done := done + {o};
    }
    assert Sinking(g, c, done, 0, 0);
    AllDone(g, c, done);
  }

  lemma ClonesRule(g: Graph, c: Code, done: set<nat>, o: nat)
    requires Wf(g) && Sinking(g, c, done, o, 0)
    ensures CloneRule(g, c)
  {
    hide Needed; hide Wf; hide OpsRule; hide SlotRule; hide Closed;
  }

  lemma Untouched(g: Graph, c: Code)
    requires Wf(g) && c.clones == map[] && |c.ops| == |g.nodes|
    requires forall u :: 0 <= u < |g.nodes| ==> c.ops[u] == Originals(g, u)
    ensures WorkRule(g, c, {}, [g.limit]) && forall o :: Sinking(g, c, {}, o, 0)
  {
    hide Needed;
  }

  lemma PopWork(g: Graph, c: Code, done: set<nat>, work: seq<nat>)
    requires WorkRule(g, c, done, work) && work != []
    ensures var o := work[|work| - 1];
            o !in done && Moved(g, c, o) && WorkRule(g, c, done + {o}, work[..|work| - 1])
  {
    var n := |work| - 1;
    assert work[n] in work;
    forall v | v in done + {work[n]} || v in work[..n] ensures Moved(g, c, v) {
    }
  }

  /** Every node is processed at most once. */
  lemma DoneCount(g: Graph, c: Code, done: set<nat>, work: seq<nat>, o: nat)
    requires Wf(g) && CloneRule(g, c) && WorkRule(g, c, done + {o}, work) && o !in done
    ensures |done| < |done + {o}| <= |g.nodes|
  {
    Bounded(done + {o}, |g.nodes|);
  }

  lemma {:induction false} Bounded(s: set<nat>, n: nat)
    requires forall i :: i in s ==> i < n
    ensures |s| <= n
  {
    if n == 0 {
      assert s == {};
    } else {
      Bounded(s - {n - 1}, n - 1);
    }
  }

  lemma NodeDone(g: Graph, c: Code, done: set<nat>, o: nat)
    requires Wf(g) && Sinking(g, c, done, o, |g.nodes|)
    ensures forall o' :: Sinking(g, c, done + {o}, o', 0)
  {
    hide Needed;
    forall o' ensures Sinking(g, c, done + {o}, o', 0) {
      SameVisits(g, done, o, o');
      assert OpsRule(g, c, done + {o}, o', 0);
      assert SlotRule(g, c, done + {o}, o', 0);
      assert Closed(g, c, done + {o}, o', 0);
    }
  }

  lemma SameVisits(g: Graph, done: set<nat>, o: nat, o': nat)
    ensures forall v: nat, u: nat, k: nat :: IsUse(g, v, u, k) ==>
                                               Visited(done, o, |g.nodes|, v, u) == Visited(done + {o}, o', 0, v, u)
  {
  }

  lemma AllDone(g: Graph, c: Code, done: set<nat>)
    requires Wf(g) && WorkRule(g, c, done, []) && Sinking(g, c, done, 0, 0)
    ensures Sunk(g, c)
  {
    hide Needed;
    forall v: nat, u: nat ensures Visited(done, 0, 0, v, u) <==> Moved(g, c, v) {
      assert v in done || v in [] <==> Moved(g, c, v);
    }
  }

  /** The two uses of `SinkPlan`: `matchStepLoop` rejects a loop whose limit could carry the
      snapshot past the exit, `rewriteStepLoop` sinks the limit of an accepted one. */
  method SinkLimit(g: Graph) returns (ok: bool, c: Code)
    requires Wf(g)
    ensures ok <==> !Bad(g, g.limit)
    ensures ok <==> forall v: nat, u: nat, k: nat :: !Escapes(g, v, u, k)
    ensures ok ==> Sunk(g, c)
  {
    hide Wf; hide Needed; hide Bad; hide Sunk; hide Through; hide Escapes;
    RejectedIff(g);
    var plan := new SinkPlan(g);
    assert g.limit < |g.nodes| by { LimitInRange(g); }
    ok := plan.Plan(g.limit);
    c := Code([], map[]);
    if ok {
      c := ReplaceOrSinkPastExit(g, plan.needs);
    }
  }

  lemma LimitInRange(g: Graph)
    requires Wf(g)
    ensures g.limit < |g.nodes|
  {
  }
}
