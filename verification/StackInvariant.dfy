/**
 What the stack, the deque and the tokens of one worker satisfy between any two
 micro-steps: promoted slots come first, and the deque holds exactly the
 youngest of the worker's unjoined jobs.
 */
module StackInvariant {
  import opened Tasks
  import opened Machine
  import opened Wrappers
  import opened FrameInvariant

  ghost predicate Frames(stack: seq<Frame>) {
    forall k :: 0 <= k < |stack| ==> FrameInv(stack[k])
  }

  /** `f` lies directly below `g` on a stack. */
  ghost predicate Link(f: Frame, g: Frame) {
    && f.birth < g.birth
    && match g.ret
       case ToRoot => false
       case ToCaller => Awaiting(f.pc) && g.task == Awaited(f) && g.a0 == Unit
       case ToJob(_) => f.pc.Wait?
  }

  ghost predicate Links(stack: seq<Frame>) {
    && (stack != [] ==> !stack[0].ret.ToCaller?)
    && forall j, k :: 0 <= j < k < |stack| && k == j + 1 ==> Link(stack[j], stack[k])
  }

  /** Every live slot below a promoted frame is promoted: promoted slots are a prefix of the chain. */
  ghost predicate PromotedFirst(stack: seq<Frame>) {
    forall j, k :: 0 <= j < k < |stack| && Live(stack[j].pc) && stack[k].promoted ==> stack[j].promoted
  }

  /** The unjoined jobs of a stack, oldest first. */
  function Pending(stack: seq<Frame>): seq<nat> {
    if stack == [] then [] else Unjoined(stack[0]) + Pending(stack[1..])
  }

  /** The jobs of `f` that its worker has neither joined nor popped. */
  function Unjoined(f: Frame): seq<nat> {
    if (f.pc.Popped? || f.pc.WriteBack? || f.pc.Call? || f.pc.Inline?) && f.pend != []
    then PendIds(DropLast(f))
    else PendIds(f.pend)
  }

  function PendIds(pend: seq<Pend>): seq<nat> {
    seq(|pend|, k requires 0 <= k < |pend| => pend[k].id)
  }

  lemma {:induction false} PendingAppend(s: seq<Frame>, t: seq<Frame>)
    ensures Pending(s + t) == Pending(s) + Pending(t)
    decreases |s|
  {
    hide Unjoined;
    if s == [] {
      assert s + t == t;
    } else {
      PendingAppend(s[1..], t);
      assert (s + t)[1..] == s[1..] + t && (s + t)[0] == s[0];
      assert (Unjoined(s[0]) + Pending(s[1..])) + Pending(t) == Unjoined(s[0]) + (Pending(s[1..]) + Pending(t));
    }
  }

  lemma PendingTop(s: seq<Frame>, f: Frame)
    ensures Pending(s + [f]) == Pending(s) + Unjoined(f)
  {
    PendingAppend(s, [f]);
    assert [f][1..] == [];
  }

  ghost predicate IsSuffix(d: seq<nat>, p: seq<nat>) {
    |d| <= |p| && d == p[|p| - |d|..]
  }

  // ---------- what a handler call does to a stack ----------

  /** `g` is `f`, or `f` with its slot promoted. */
  ghost predicate Bumped(f: Frame, g: Frame) {
    || g == f
    || (Live(f.pc) && !f.promoted && g.promoted && g == f.(promoted := true, end := g.end, pend := g.pend))
  }

  lemma VisitFacts(f: Frame, tokens: nat, next: nat)
    requires FrameInv(f) && 0 < tokens
    ensures var p := Visit(f, tokens, next);
            && FrameInv(p.frame)
            && Bumped(f, p.frame)
            && (Live(p.frame.pc) ==> p.frame.promoted)
            && (|| (Unjoined(p.frame) == Unjoined(f) && p.spawned == [])
                || (!f.promoted && Unjoined(f) == [] && Unjoined(p.frame) == Ids(next, |p.spawned|)))
            && p.tokens + TokensOf(p.spawned) + (if p.frame.promoted == f.promoted then 0 else 1) == tokens
  {
    if Live(f.pc) && !f.promoted {
      PromoteKeepsFrame(f, tokens, next);
      PromoteJobs(f, tokens, next);
    }
    hide FrameInv;
  }

  lemma {:induction false} WalkBumps(stack: seq<Frame>, tokens: nat, next: nat)
    requires Frames(stack)
    ensures var w := PromoteFront(stack, tokens, next);
            && |w.stack| == |stack|
            && Frames(w.stack)
            && (forall k :: 0 <= k < |stack| ==> Bumped(stack[k], w.stack[k]))
    decreases |stack|
  {
    hide Visit; hide FrameInv;
    if stack != [] && tokens != 0 {
      VisitFacts(stack[0], tokens, next);
      var p := Visit(stack[0], tokens, next);
      WalkBumps(stack[1..], p.tokens, next + |p.spawned|);
    }
  }

  /** Tokens left over mean that the walk reached the back of the chain. */
  lemma {:induction false} WalkReachesBack(stack: seq<Frame>, tokens: nat, next: nat)
    requires Frames(stack)
    ensures var w := PromoteFront(stack, tokens, next);
            w.tokens != 0 ==> forall f :: f in w.stack && Live(f.pc) ==> f.promoted
    decreases |stack|
  {
    hide Visit; hide FrameInv;
    if stack != [] && tokens != 0 {
      VisitFacts(stack[0], tokens, next);
      var p := Visit(stack[0], tokens, next);
      WalkReachesBack(stack[1..], p.tokens, next + |p.spawned|);
    }
  }

  /** The walk keeps promoted slots in front. */
  lemma {:induction false} WalkKeepsPrefix(stack: seq<Frame>, tokens: nat, next: nat)
    requires Frames(stack) && PromotedFirst(stack)
    ensures PromotedFirst(PromoteFront(stack, tokens, next).stack)
    decreases |stack|
  {
    hide Visit; hide FrameInv; hide Live; hide Unjoined;
    if stack != [] && tokens != 0 {
      VisitFacts(stack[0], tokens, next);
      var p := Visit(stack[0], tokens, next);
      var w := PromoteFront(stack[1..], p.tokens, next + |p.spawned|);
      WalkKeepsPrefix(stack[1..], p.tokens, next + |p.spawned|);
      assert [stack[0]] + stack[1..] == stack;
      WalkStep(stack[0], stack[1..], tokens, next);
      hide PromoteFront;
      PrefixCons(p.frame, w.stack);
    }
  }

  lemma PrefixCons(f: Frame, rest: seq<Frame>)
    requires PromotedFirst(rest) && (Live(f.pc) ==> f.promoted)
    ensures PromotedFirst([f] + rest)
  {
    hide Live;
    var s := [f] + rest;
    forall j, k | 0 <= j < k < |s| && Live(s[j].pc) && s[k].promoted ensures s[j].promoted {
      assert j > 0 ==> s[j] == rest[j - 1] && s[k] == rest[k - 1];
    }
  }

  /** The first turn of a walk. */
  lemma WalkStep(f: Frame, rest: seq<Frame>, tokens: nat, next: nat)
    requires 0 < tokens
    ensures var p := Visit(f, tokens, next);
            var w := PromoteFront(rest, p.tokens, next + |p.spawned|);
            PromoteFront([f] + rest, tokens, next)
            == Walk([p.frame] + w.stack, w.tokens, p.spawned + w.spawned,
                    w.count + if p.frame.promoted == f.promoted then 0 else 1)
  {
    hide Visit;
    assert ([f] + rest)[1..] == rest;
  }

  /** The `k`-th frame has the oldest slot that is not promoted. */
  ghost predicate OldestUnpromoted(stack: seq<Frame>, k: nat) {
    && k < |stack| && Live(stack[k].pc) && !stack[k].promoted
    && forall j :: 0 <= j < k && Live(stack[j].pc) ==> stack[j].promoted
  }

  /** A walk with tokens promotes the oldest slot that is not promoted. */
  lemma {:induction false} WalkOldest(stack: seq<Frame>, tokens: nat, next: nat, k: nat)
    requires Frames(stack) && 0 < tokens && OldestUnpromoted(stack, k)
    ensures var p := PromoteFront(stack, tokens, next); |p.stack| == |stack| && p.stack[k].promoted && 1 <= p.count
    decreases |stack|
  {
    hide FrameInv; hide Visit; hide Live;
    WalkBumps(stack, tokens, next);
    var f := stack[0];
    assert [f] + stack[1..] == stack;
    WalkStep(f, stack[1..], tokens, next);
    hide PromoteFront; hide Bumped;
    if k == 0 {
      VisitLive(f, tokens, next);
    } else {
      VisitStays(f, tokens, next);
      WalkOldest(stack[1..], tokens, next, k - 1);
    }
  }

  lemma VisitLive(f: Frame, tokens: nat, next: nat)
    requires FrameInv(f) && 0 < tokens && Live(f.pc) && !f.promoted
    ensures Visit(f, tokens, next).frame.promoted
  {
    PromoteKeepsFrame(f, tokens, next);
    hide FrameInv; hide Promote;
  }

  lemma VisitStays(f: Frame, tokens: nat, next: nat)
    requires 0 < tokens && !(Live(f.pc) && !f.promoted)
    ensures Visit(f, tokens, next) == Promotion(f, tokens, [])
  {
    hide Promote;
  }

  lemma {:induction false} NothingPending(stack: seq<Frame>)
    requires Frames(stack) && forall k :: 0 <= k < |stack| ==> !stack[k].promoted
    ensures Pending(stack) == []
    decreases |stack|
  {
    if stack != [] {
      assert stack[0].pend == [];
      NothingPending(stack[1..]);
    }
  }

  lemma IdsAppend(next: nat, m: nat, n: nat)
    ensures Ids(next, m) + Ids(next + m, n) == Ids(next, m + n)
  {
  }

  /** The jobs a handler enqueues are the youngest unjoined jobs of the stack. */
  lemma {:induction false} WalkPending(stack: seq<Frame>, tokens: nat, next: nat)
    requires Frames(stack) && PromotedFirst(stack)
    ensures var w := PromoteFront(stack, tokens, next);
            Pending(w.stack) == Pending(stack) + Ids(next, |w.spawned|)
    decreases |stack|
  {
    hide Visit; hide FrameInv; hide Unjoined; hide Live; hide Pending;
    if stack == [] || tokens == 0 {
      assert Ids(next, 0) == [];
    } else {
      var f := stack[0];
      VisitFacts(f, tokens, next);
      var p := Visit(f, tokens, next);
      var w := PromoteFront(stack[1..], p.tokens, next + |p.spawned|);
      WalkPending(stack[1..], p.tokens, next + |p.spawned|);
      assert [f] + stack[1..] == stack;
      WalkStep(f, stack[1..], tokens, next);
      hide PromoteFront;
      if p.spawned != [] || Unjoined(p.frame) != Unjoined(f) {
        NothingPending(stack[1..]);
      }
      VisitPending(f, p.frame, stack[1..], w.stack, |p.spawned|, |w.spawned|, next);
    }
  }

  /** A walk that goes on from `f`, either unchanged or the first to be promoted. */
  lemma VisitPending(f: Frame, g: Frame, rest: seq<Frame>, walked: seq<Frame>, m: nat, k: nat, next: nat)
    requires Pending(walked) == Pending(rest) + Ids(next + m, k)
    requires || (m == 0 && Unjoined(g) == Unjoined(f))
             || (Unjoined(f) == [] && Pending(rest) == [] && Unjoined(g) == Ids(next, m))
    ensures Pending([g] + walked) == Pending([f] + rest) + Ids(next, m + k)
  {
    hide Unjoined; hide Pending; hide Ids;
    PendingCons(g, walked);
    PendingCons(f, rest);
    IdsAppend(next, m, k);
  }

  lemma PendingCons(f: Frame, rest: seq<Frame>)
    ensures Pending([f] + rest) == Unjoined(f) + Pending(rest)
  {
    hide Unjoined;
    assert ([f] + rest)[1..] == rest;
  }

  lemma {:induction false} TokensAppend(s: seq<Spawn>, t: seq<Spawn>)
    ensures TokensOf(s + t) == TokensOf(s) + TokensOf(t)
    decreases |s|
  {
    if s == [] {
      assert s + t == t;
    } else {
      TokensAppend(s[1..], t);
      assert (s + t)[1..] == s[1..] + t;
    }
  }

  /** Every token a walk takes pays for a promotion or travels with a job: none underflows. */
  lemma {:induction false} WalkTokens(stack: seq<Frame>, tokens: nat, next: nat)
    requires Frames(stack)
    ensures var w := PromoteFront(stack, tokens, next);
            w.tokens + TokensOf(w.spawned) + w.count == tokens
    decreases |stack|
  {
    hide Visit; hide FrameInv;
    if stack != [] && tokens != 0 {
      VisitFacts(stack[0], tokens, next);
      var p := Visit(stack[0], tokens, next);
      WalkTokens(stack[1..], p.tokens, next + |p.spawned|);
      TokensAppend(p.spawned, PromoteFront(stack[1..], p.tokens, next + |p.spawned|).spawned);
    }
  }

  // ---------- what the job table knows about a stack ----------

  ghost predicate Known(f: Frame, jobs: map<nat, Job>) {
    && (forall p :: p in f.pend ==> f.birth < p.id && p.id in jobs && jobs[p.id].task == p.task)
    && (f.ret.ToJob? ==> f.a0 == Unit && f.ret.id in jobs && jobs[f.ret.id].task == f.task && f.ret.id < f.birth)
  }

  /** The jobs numbered from `next` are the spawned ones. */
  ghost predicate JobsAt(jobs: map<nat, Job>, next: nat, spawned: seq<Spawn>) {
    forall id :: next <= id < next + |spawned| ==> id in jobs && jobs[id].task == spawned[id - next].task
  }

  lemma JobsAtSplit(jobs: map<nat, Job>, next: nat, s: seq<Spawn>, t: seq<Spawn>)
    requires JobsAt(jobs, next, s + t)
    ensures JobsAt(jobs, next, s) && JobsAt(jobs, next + |s|, t)
  {
    forall id | next <= id < next + |s| ensures id in jobs && jobs[id].task == s[id - next].task {
      assert (s + t)[id - next] == s[id - next];
    }
    forall id | next + |s| <= id < next + |s| + |t|
      ensures id in jobs && jobs[id].task == t[id - (next + |s|)].task
    {
      assert (s + t)[id - next] == t[id - (next + |s|)];
    }
  }

  lemma VisitKnown(f: Frame, tokens: nat, next: nat, jobs: map<nat, Job>)
    requires 0 < tokens && Known(f, jobs) && FrameInv(f) && f.birth < next
    requires JobsAt(jobs, next, Visit(f, tokens, next).spawned)
    ensures Known(Visit(f, tokens, next).frame, jobs)
  {
    hide FrameInv;
    if Live(f.pc) && !f.promoted {
      PromoteKeepsFrame(f, tokens, next);
      PromoteJobs(f, tokens, next);
      var p := Promote(f, tokens, next);
      hide Promote;
      forall k | 0 <= k < |p.frame.pend|
        ensures var q := p.frame.pend[k]; f.birth < q.id && q.id in jobs && jobs[q.id].task == q.task
      {
      }
    }
  }

  lemma {:induction false} WalkKnown(stack: seq<Frame>, tokens: nat, next: nat, jobs: map<nat, Job>)
    requires Frames(stack) && forall f :: f in stack ==> f.birth < next && Known(f, jobs)
    requires JobsAt(jobs, next, PromoteFront(stack, tokens, next).spawned)
    ensures forall f :: f in PromoteFront(stack, tokens, next).stack ==> Known(f, jobs)
    decreases |stack|
  {
    hide Visit; hide FrameInv; hide Known; hide JobsAt;
    if stack != [] && tokens != 0 {
      var p := Visit(stack[0], tokens, next);
      JobsAtSplit(jobs, next, p.spawned, PromoteFront(stack[1..], p.tokens, next + |p.spawned|).spawned);
      VisitKnown(stack[0], tokens, next, jobs);
      WalkKnown(stack[1..], p.tokens, next + |p.spawned|, jobs);
    }
  }

  lemma {:induction false} PendingKnown(stack: seq<Frame>, jobs: map<nat, Job>)
    requires forall f :: f in stack ==> Known(f, jobs)
    ensures forall id :: id in Pending(stack) ==> id in jobs
    decreases |stack|
  {
    if stack != [] {
      PendingKnown(stack[1..], jobs);
      UnjoinedKnown(stack[0], jobs);
    }
  }

  lemma UnjoinedKnown(f: Frame, jobs: map<nat, Job>)
    requires Known(f, jobs)
    ensures forall id :: id in Unjoined(f) ==> id in jobs
  {
    forall k | 0 <= k < |Unjoined(f)| ensures Unjoined(f)[k] in jobs {
      assert f.pend[k] in f.pend;
    }
  }
}
