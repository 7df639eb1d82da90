/**
 Which of a worker's jobs have been stolen, and what a step does to them: thieves
 take the oldest jobs, so the stolen ones are a prefix of the unjoined ones.
 */
module Stolen {
  import opened Tasks
  import opened Machine
  import opened StepCases
  import opened Wrappers
  import opened FrameInvariant
  import opened StackInvariant
  import opened WorkerInvariant
  import opened StepInvariant

  /** The unjoined jobs that are no longer in the worker's own deque. */
  function Taken(w: Worker): seq<nat> {
    var p := Pending(w.stack);
    if |w.deque| <= |p| then p[..|p| - |w.deque|] else []
  }

  /** The jobs of a waiting frame, and all older ones, have been stolen. */
  ghost predicate WaitRule(w: Worker) {
    forall k :: 0 <= k < |w.stack| && w.stack[k].pc.Wait? ==> |Pending(w.stack[..k + 1])| <= |Taken(w)|
  }

  lemma WaitingDequeEmpty(w: Worker, jobs: map<nat, Job>, next: nat)
    requires WorkerInv(w, jobs, next) && WaitRule(w) && w.stack != [] && Top(w).pc.Wait?
    ensures w.deque == []
  {
    hide StackRule; hide Pending;
    assert w.stack[..|w.stack|] == w.stack;
  }

  /** `u` has the same stolen jobs as `w`, and no new waiting frame. */
  ghost predicate SameTaken(w: Worker, u: Worker) {
    && Taken(u) == Taken(w)
    && |u.deque| <= |Pending(u.stack)|
  }

  lemma TakenTop(w: Worker, g: Frame, deque: seq<nat>, ids: seq<nat>)
    requires w.stack != [] && IsSuffix(w.deque, Pending(w.stack))
    requires deque == w.deque + ids && Unjoined(g) == Unjoined(Top(w)) + ids
    ensures SameTaken(w, SetTop(w, g).(deque := deque))
  {
    hide Pending; hide Unjoined;
    assert w.stack == Below(w) + [Top(w)];
    PendingTop(Below(w), Top(w));
    PendingTop(Below(w), g);
  }

  lemma WaitTop(w: Worker, g: Frame, deque: seq<nat>)
    requires w.stack != [] && WaitRule(w) && !g.pc.Wait?
    requires SameTaken(w, SetTop(w, g).(deque := deque))
    ensures WaitRule(SetTop(w, g).(deque := deque))
  {
    hide Pending; hide Taken;
    var u := SetTop(w, g).(deque := deque);
    forall k | 0 <= k < |u.stack| && u.stack[k].pc.Wait? ensures |Pending(u.stack[..k + 1])| <= |Taken(u)| {
      assert k < |w.stack| - 1 && u.stack[k] == w.stack[k];
      assert u.stack[..k + 1] == w.stack[..k + 1];
    }
  }

  /** The top frame moves on without touching the deque. */
  lemma TopWaits(w: Worker, g: Frame)
    requires w.stack != [] && WaitRule(w) && IsSuffix(w.deque, Pending(w.stack))
    requires Unjoined(g) == Unjoined(Top(w)) && (g.pc.Wait? ==> w.deque == [])
    ensures SameTaken(w, SetTop(w, g)) && WaitRule(SetTop(w, g))
  {
    hide Pending; hide Unjoined;
    assert w.deque + [] == w.deque && Unjoined(Top(w)) + [] == Unjoined(Top(w));
    TakenTop(w, g, w.deque, []);
    var u := SetTop(w, g);
    assert u.(deque := w.deque) == u;
    if g.pc.Wait? {
      assert |Taken(u)| == |Pending(u.stack)| && u.stack[..|u.stack|] == u.stack;
      hide Taken;
      forall k | 0 <= k < |u.stack| && u.stack[k].pc.Wait? ensures |Pending(u.stack[..k + 1])| <= |Taken(u)| {
        if k < |w.stack| - 1 {
          assert u.stack[k] == w.stack[k] && u.stack[..k + 1] == w.stack[..k + 1];
        }
      }
    } else {
      WaitTop(w, g, w.deque);
    }
  }

  lemma PushWaits(w: Worker, n: Frame)
    requires WaitRule(w) && IsSuffix(w.deque, Pending(w.stack)) && Unjoined(n) == [] && !n.pc.Wait?
    ensures var u := w.(stack := w.stack + [n]); SameTaken(w, u) && WaitRule(u)
  {
    hide Pending; hide Unjoined;
    var u := w.(stack := w.stack + [n]);
    PendingTop(w.stack, n);
    assert Pending(w.stack) + [] == Pending(w.stack);
    forall k | 0 <= k < |u.stack| && u.stack[k].pc.Wait? ensures |Pending(u.stack[..k + 1])| <= |Taken(u)| {
      assert u.stack[k] == w.stack[k] && u.stack[..k + 1] == w.stack[..k + 1];
    }
  }

  lemma PopWaits(w: Worker)
    requires w.stack != [] && WaitRule(w) && IsSuffix(w.deque, Pending(w.stack)) && Unjoined(Top(w)) == []
    ensures var u := w.(stack := Below(w));
            SameTaken(w, u) && WaitRule(u) && IsSuffix(u.deque, Pending(u.stack))
  {
    hide Pending; hide Unjoined;
    var u := w.(stack := Below(w));
    assert w.stack == Below(w) + [Top(w)];
    PendingTop(Below(w), Top(w));
    assert Pending(Below(w)) + [] == Pending(Below(w));
    forall k | 0 <= k < |u.stack| && u.stack[k].pc.Wait? ensures |Pending(u.stack[..k + 1])| <= |Taken(u)| {
      assert u.stack[k] == w.stack[k] && u.stack[..k + 1] == w.stack[..k + 1];
    }
  }

  lemma UnjoinedLast(f: Frame, g: Frame)
    requires f.pend != [] && (f.pc.Join? || f.pc.Wait?)
    requires Unjoined(g) == PendIds(DropLast(f))
    ensures Unjoined(f) == Unjoined(g) + [Last(f).id]
  {
  }

  lemma PendingLast(w: Worker, g: Frame)
    requires w.stack != [] && Top(w).pend != [] && (Top(w).pc.Join? || Top(w).pc.Wait?)
    requires Unjoined(g) == PendIds(DropLast(Top(w)))
    ensures Pending(w.stack) == Pending(SetTop(w, g).stack) + [Last(Top(w)).id]
  {
    UnjoinedLast(Top(w), g);
    hide Unjoined; hide Pending;
    assert w.stack == Below(w) + [Top(w)];
    PendingTop(Below(w), Top(w));
    PendingTop(Below(w), g);
  }

  lemma TakenDrop(p: seq<nat>, x: nat, n: nat)
    requires 1 <= n <= |p| + 1
    ensures (p + [x])[..|p| + 1 - n] == p[..|p| - (n - 1)]
  {
  }

  /** Popping the job being joined takes it from both ends of the account. */
  lemma PopJobWaits(w: Worker)
    requires WaitRule(w) && IsSuffix(w.deque, Pending(w.stack))
    requires w.stack != [] && Top(w).pc.Join? && Top(w).pend != [] && w.deque != []
    ensures var u := SetTop(w, Top(w).(pc := Popped)).(deque := w.deque[..|w.deque| - 1]);
            SameTaken(w, u) && WaitRule(u)
  {
    var g, d := Top(w).(pc := Popped), w.deque[..|w.deque| - 1];
    assert Unjoined(g) == PendIds(DropLast(Top(w)));
    hide Unjoined; hide Pending;
    PendingLast(w, g);
    TakenDrop(Pending(SetTop(w, g).stack), Last(Top(w)).id, |w.deque|);
    WaitTop(w, g, d);
  }

  /** After waiting for a stolen job, one fewer job is unjoined. */
  lemma ResumeWaits(w: Worker, g: Frame)
    requires w.stack != [] && WaitRule(w) && w.deque == [] && Top(w).pc.Wait? && Top(w).pend != []
    requires Unjoined(g) == PendIds(DropLast(Top(w))) && !g.pc.Wait?
    ensures Taken(w) == Taken(SetTop(w, g)) + [Last(Top(w)).id]
    ensures WaitRule(SetTop(w, g))
  {
    var u := SetTop(w, g);
    hide Unjoined; hide Pending; hide PendIds;
    PendingLast(w, g);
    assert Taken(u) == Pending(u.stack) && Taken(w) == Pending(w.stack);
    hide Taken; hide WaitRule;
    AllTaken(u);
  }

  /** When every unjoined job has been stolen, no waiting frame asks for more. */
  lemma AllTaken(u: Worker)
    requires Taken(u) == Pending(u.stack)
    ensures WaitRule(u)
  {
    hide Taken; hide Pending;
    forall k | 0 <= k < |u.stack| && u.stack[k].pc.Wait? ensures |Pending(u.stack[..k + 1])| <= |Taken(u)| {
      PendingAppend(u.stack[..k + 1], u.stack[k + 1..]);
      assert u.stack == u.stack[..k + 1] + u.stack[k + 1..];
    }
  }

  lemma {:induction false} WalkLeavesPromoted(stack: seq<Frame>, tokens: nat, next: nat)
    requires forall f :: f in stack && Live(f.pc) ==> f.promoted
    ensures PromoteFront(stack, tokens, next) == Walk(stack, tokens, [], 0)
    decreases |stack|
  {
    hide Visit;
    if stack != [] && tokens != 0 {
      WalkLeavesPromoted(stack[1..], tokens, next);
      assert [stack[0]] + stack[1..] == stack;
      WalkSkips(stack[0], stack[1..], tokens, next);
    }
  }

  lemma {:induction false} WalkSplit(s: seq<Frame>, t: seq<Frame>, tokens: nat, next: nat)
    requires forall f :: f in s && Live(f.pc) ==> f.promoted
    ensures PromoteFront(s + t, tokens, next).stack == s + PromoteFront(t, tokens, next).stack
    decreases |s|
  {
    hide Live; hide PromoteFront;
    if s == [] {
      assert s + t == t && s + PromoteFront(t, tokens, next).stack == PromoteFront(t, tokens, next).stack;
    } else if tokens == 0 {
      NoTokens(s + t, next);
      NoTokens(t, next);
    } else {
      WalkSplit(s[1..], t, tokens, next);
      WalkSkips(s[0], s[1..] + t, tokens, next);
      assert [s[0]] + (s[1..] + t) == s + t;
      assert [s[0]] + (s[1..] + PromoteFront(t, tokens, next).stack) == s + PromoteFront(t, tokens, next).stack;
    }
  }

  lemma NoTokens(stack: seq<Frame>, next: nat)
    ensures PromoteFront(stack, 0, next) == Walk(stack, 0, [], 0)
  {
  }

  /** The walk goes past a slot that is promoted already. */
  lemma WalkSkips(f: Frame, rest: seq<Frame>, tokens: nat, next: nat)
    requires (Live(f.pc) ==> f.promoted) && 0 < tokens
    ensures var w := PromoteFront(rest, tokens, next);
            PromoteFront([f] + rest, tokens, next) == Walk([f] + w.stack, w.tokens, w.spawned, w.count)
  {
    hide Promote; hide Live; hide PromoteFront;
    WalkStep(f, rest, tokens, next);
    assert Visit(f, tokens, next) == Promotion(f, tokens, []);
    assert [] + PromoteFront(rest, tokens, next).spawned == PromoteFront(rest, tokens, next).spawned;
  }

  /** A handler call creates its jobs above every waiting frame. */
  lemma HandlerWaits(w: Worker, t: nat, jobs: map<nat, Job>, next: nat)
    requires WorkerInv(w, jobs, next) && WaitRule(w)
    ensures var p := PromoteFront(w.stack, t, next);
            var u := w.(stack := p.stack, tokens := p.tokens, deque := w.deque + Ids(next, |p.spawned|));
            SameTaken(w, u) && WaitRule(u)
  {
    hide PromoteFront; hide Pending; hide FrameInv; hide StackRule; hide TokenRule; hide DisabledRule; hide Ids;
    hide Live;
    var p := PromoteFront(w.stack, t, next);
    var u := w.(stack := p.stack, tokens := p.tokens, deque := w.deque + Ids(next, |p.spawned|));
    HandlerWalk(w, t, jobs, next);
    assert SameTaken(w, u);
    hide Taken; hide IsSuffix; hide WorkerInv;
    forall k | 0 <= k < |u.stack| && u.stack[k].pc.Wait? ensures |Pending(u.stack[..k + 1])| <= |Taken(u)| {
      assert Bumped(w.stack[k], u.stack[k]);
      HandlerBelowWait(w, k, t, jobs, next);
    }
  }

  lemma HandlerBelowWait(w: Worker, k: nat, t: nat, jobs: map<nat, Job>, next: nat)
    requires WorkerInv(w, jobs, next) && k < |w.stack| && w.stack[k].pc.Wait?
    ensures |PromoteFront(w.stack, t, next).stack| == |w.stack|
    ensures PromoteFront(w.stack, t, next).stack[..k + 1] == w.stack[..k + 1]
  {
    var s, r := w.stack[..k + 1], w.stack[k + 1..];
    WaitingBelow(w, k, jobs, next);
    hide PromoteFront; hide WorkerInv;
    assert w.stack == s + r;
    WalkSplit(s, r, t, next);
    assert |PromoteFront(w.stack, t, next).stack| == |w.stack| by {
      HandlerWalk(w, t, jobs, next);
    }
  }

  /** At every wait, all live slots below are promoted: a heartbeat would find nothing to do there. */
  lemma WaitingBelow(w: Worker, k: nat, jobs: map<nat, Job>, next: nat)
    requires WorkerInv(w, jobs, next) && k < |w.stack| && w.stack[k].pc.Wait?
    ensures forall f :: f in w.stack[..k + 1] && Live(f.pc) ==> f.promoted
  {
    hide Known; hide Links;
    assert w.stack[k].promoted by { JoiningPromoted(w.stack[k]); }
    hide FrameInv;
    forall f | f in w.stack[..k + 1] && Live(f.pc) ensures f.promoted {
      var j :| 0 <= j < k + 1 && w.stack[j] == f;
    }
  }

  // ---------- one lemma for all main-thread steps ----------

  ghost predicate KeepsTaken(w: Worker, u: Worker) {
    WaitRule(u) && forall id :: id in Taken(u) ==> id in Taken(w)
  }

  lemma SameKeeps(w: Worker, u: Worker)
    requires SameTaken(w, u) && WaitRule(u)
    ensures KeepsTaken(w, u)
  {
  }

  lemma LoopStepTaken(w: Worker, s: nat)
    requires WaitRule(w) && IsSuffix(w.deque, Pending(w.stack)) && w.stack != [] && LoopStep(Top(w), s).Some?
    ensures KeepsTaken(w, SetTop(w, LoopStep(Top(w), s).value))
  {
    LoopStepCall(Top(w), s);
    assert !LoopStep(Top(w), s).value.pc.Wait?;
    hide Unjoined; hide Pending; hide LoopStep;
    TopWaits(w, LoopStep(Top(w), s).value);
  }

  /** Replacing the top frame and then pushing another. */
  lemma CallTaken(w: Worker, g: Frame, t: Task, next: nat)
    requires WaitRule(w) && IsSuffix(w.deque, Pending(w.stack)) && w.stack != []
    requires Unjoined(g) == Unjoined(Top(w)) && !g.pc.Wait?
    ensures KeepsTaken(w, Push(w, g, t, next))
  {
    hide Unjoined; hide Pending;
    TopWaits(w, g);
    var n := NewFrame(t, ToCaller, next, Unit);
    NewFrameFresh(t, ToCaller, next, Unit, map[]);
    assert !n.pc.Wait?;
    hide NewFrame; hide Taken;
    var u := SetTop(w, g);
    assert IsSuffix(u.deque, Pending(u.stack)) by {
      assert w.stack == Below(w) + [Top(w)];
      PendingTop(Below(w), Top(w));
      PendingTop(Below(w), g);
    }
    PushWaits(u, n);
  }

  lemma ReturnTaken(w: Worker, jobs: map<nat, Job>, next: nat)
    requires WorkerInv(w, jobs, next) && WaitRule(w) && w.stack != [] && Top(w).pc.Done?
    ensures KeepsTaken(w, w.(stack := Below(w)))
    ensures Top(w).ret.ToCaller? ==>
              var u := w.(stack := Below(w));
              u.stack != [] && KeepsTaken(w, SetTop(u, Receive(Top(u), Top(w).a)))
  {
    TopFrame(w, jobs, next);
    DoneJoined(Top(w));
    SuffixRule(w, jobs, next);
    var u := w.(stack := Below(w));
    hide FrameInv; hide Unjoined; hide Pending; hide Receive; hide WorkerInv; hide Taken; hide WaitRule;
    PopWaits(w);
    if Top(w).ret.ToCaller? {
      CallerAwaits(w, jobs, next);
      ReceiveCall(Top(u), Top(w).a);
      TopWaits(u, Receive(Top(u), Top(w).a));
    }
  }

  lemma CallerAwaits(w: Worker, jobs: map<nat, Job>, next: nat)
    requires WorkerInv(w, jobs, next) && w.stack != [] && Top(w).ret.ToCaller?
    ensures Below(w) != []
    ensures var b := Below(w)[|w.stack| - 2];
            Awaiting(b.pc) && (b.pc.Inline? ==> b.pend != [])
  {
    hide FrameInv; hide Awaited; hide Known; hide Pending;
    var n := |w.stack| - 1;
    assert w.stack[n].ret.ToCaller?;
    assert n != 0;
    FrameOnStack(w.stack, n - 1, jobs, next);
    assert Link(w.stack[n - 1], w.stack[n]);
    if w.stack[n - 1].pc.Inline? {
      JoiningPromoted(w.stack[n - 1]);
    }
  }

  /** Below a job that a waiting worker picked up, there is the waiting frame. */
  lemma BottomOfJob(w: Worker, jobs: map<nat, Job>, next: nat)
    requires WorkerInv(w, jobs, next) && |w.stack| > 1 && !Top(w).ret.ToCaller?
    ensures w.stack[|w.stack| - 2].pc.Wait?
  {
    hide FrameInv; hide Known; hide Awaited;
    assert Link(w.stack[|w.stack| - 2], w.stack[|w.stack| - 1]);
  }

  lemma EagerTaken(w: Worker, jobs: map<nat, Job>, next: nat)
    requires WorkerInv(w, jobs, next) && WaitRule(w) && w.stack != [] && Top(w).pc.EagerAct?
    ensures KeepsTaken(w, EagerPromote(w, jobs, next).worker)
  {
    hide WorkerInv; hide Pending; hide Ids; hide AddJobs; hide Promote; hide Unjoined; hide Taken; hide WaitRule;
    hide KeepsTaken; hide FrameInv;
    var f := Top(w);
    if w.tokens != 0 && !f.promoted {
      EagerPromoteTaken(w, jobs, next);
    } else {
      assert Relabels(f, EagerOn);
      hide Relabels;
      RelabelTaken(w, EagerOn, jobs, next);
    }
  }

  lemma EagerPromoteTaken(w: Worker, jobs: map<nat, Job>, next: nat)
    requires WorkerInv(w, jobs, next) && WaitRule(w) && w.stack != [] && Top(w).pc.EagerAct?
    requires w.tokens != 0 && !Top(w).promoted
    ensures var p := Promote(Top(w), w.tokens, next);
            KeepsTaken(w, SetTop(w, p.frame.(pc := EagerOn)).(tokens := p.tokens,
                       deque := w.deque + Ids(next, |p.spawned|)))
  {
    TopFrame(w, jobs, next);
    SuffixRule(w, jobs, next);
    hide WorkerInv; hide Pending; hide Ids; hide FrameInv; hide Unjoined; hide Promote; hide Taken;
    hide WaitRule; hide SameTaken;
    var p := Promote(Top(w), w.tokens, next);
    var g, ids := p.frame.(pc := EagerOn), Ids(next, |p.spawned|);
    EagerUnjoined(Top(w), w.tokens, next);
    TakenTop(w, g, w.deque + ids, ids);
    WaitTop(w, g, w.deque + ids);
    var u := SetTop(w, g).(deque := w.deque + ids);
    SameKeeps(w, u);
    hide KeepsTaken;
    TakenFrame(w, u, u.(tokens := p.tokens));
  }

  lemma SuffixRule(w: Worker, jobs: map<nat, Job>, next: nat)
    requires WorkerInv(w, jobs, next)
    ensures IsSuffix(w.deque, Pending(w.stack))
  {
  }

  lemma EagerUnjoined(f: Frame, tokens: nat, next: nat)
    requires FrameInv(f) && Live(f.pc) && !f.promoted && 0 < tokens && f.pc.EagerAct?
    ensures var p := Promote(f, tokens, next);
            Unjoined(p.frame.(pc := EagerOn)) == Unjoined(f) + Ids(next, |p.spawned|)
  {
    assert f.pend == [];
    PromoteJobs(f, tokens, next);
    hide FrameInv;
    var p := Promote(f, tokens, next);
    hide Promote;
    assert |p.frame.pend| == |p.spawned|;
  }

  lemma RelabelTaken(w: Worker, pc: Pc, jobs: map<nat, Job>, next: nat)
    requires WorkerInv(w, jobs, next) && WaitRule(w) && w.stack != []
    requires Relabels(Top(w), pc) && !pc.Popped? && (pc.Wait? ==> w.deque == [])
    ensures KeepsTaken(w, SetTop(w, Top(w).(pc := pc)))
  {
    TopFrame(w, jobs, next);
    UnjoinedAfter(Top(w), pc);
    SuffixRule(w, jobs, next);
    hide WorkerInv; hide FrameInv; hide Unjoined; hide Pending; hide Relabels;
    TopWaits(w, Top(w).(pc := pc));
  }

  /** `Taken` and `WaitRule` look only at the stack and the deque. */
  lemma TakenFrame(w: Worker, u: Worker, v: Worker)
    requires KeepsTaken(w, u) && v.stack == u.stack && v.deque == u.deque
    ensures KeepsTaken(w, v)
  {
    hide Pending;
  }

  lemma PopTaken(w: Worker, jobs: map<nat, Job>, next: nat)
    requires WorkerInv(w, jobs, next) && WaitRule(w)
    requires w.stack != [] && Top(w).pc.Join? && Top(w).pend != [] && w.deque != []
    ensures KeepsTaken(w, SetTop(w, Top(w).(pc := Popped)).(deque := w.deque[..|w.deque| - 1]))
  {
    SuffixRule(w, jobs, next);
    hide WorkerInv; hide Pending; hide Taken; hide WaitRule; hide KeepsTaken; hide SameTaken; hide IsSuffix;
    PopJobWaits(w);
    SameKeeps(w, SetTop(w, Top(w).(pc := Popped)).(deque := w.deque[..|w.deque| - 1]));
  }

  lemma JoinTaken(w: Worker, jobs: map<nat, Job>, next: nat, s: nat)
    requires WorkerInv(w, jobs, next) && WaitRule(w) && w.stack != [] && MainStep(w, jobs, next, s).Some?
    requires Top(w).pc.Join?
    ensures KeepsTaken(w, MainStep(w, jobs, next, s).value.worker)
  {
    hide *;
    JoinsTo(w, jobs, next, s);
    if Top(w).pend == [] {
      RelabelTaken(w, Done, jobs, next);
    } else if w.deque == [] {
      RelabelTaken(w, Wait, jobs, next);
    } else {
      PopTaken(w, jobs, next);
    }
  }

  lemma JoinsTo(w: Worker, jobs: map<nat, Job>, next: nat, s: nat)
    requires w.stack != [] && Top(w).pc.Join? && MainStep(w, jobs, next, s).Some?
    ensures var f, u := Top(w), MainStep(w, jobs, next, s).value.worker;
            if f.pend == [] then u == SetTop(w, f.(pc := Done)) && Relabels(f, Done)
            else if w.deque == [] then u == SetTop(w, f.(pc := Wait)) && Relabels(f, Wait)
            else u == SetTop(w, f.(pc := Popped)).(deque := w.deque[..|w.deque| - 1])
  {
    hide MainStep; hide SetTop;
    JoinIs(w, jobs, next, s);
  }

  lemma SyncTaken(w: Worker, jobs: map<nat, Job>, next: nat, s: nat)
    requires WorkerInv(w, jobs, next) && WaitRule(w) && w.stack != [] && MainStep(w, jobs, next, s).Some?
    requires Top(w).pc.Popped? || Top(w).pc.WriteBack?
    ensures KeepsTaken(w, MainStep(w, jobs, next, s).value.worker)
  {
    hide *;
    SyncsTo(w, jobs, next, s);
    if Top(w).pc.Popped? && Last(Top(w)).reclaim {
      SaveTaken(w, jobs, next);
    } else {
      RelabelTaken(w, Call, jobs, next);
      TakenFrame(w, SetTop(w, Top(w).(pc := Call)), MainStep(w, jobs, next, s).value.worker);
    }
  }

  lemma SyncsTo(w: Worker, jobs: map<nat, Job>, next: nat, s: nat)
    requires w.stack != [] && MainStep(w, jobs, next, s).Some?
    requires Top(w).pc.Popped? || Top(w).pc.WriteBack?
    ensures Top(w).pend != [] && Relabels(Top(w), Call)
    ensures var f, u := Top(w), MainStep(w, jobs, next, s).value.worker;
            if f.pc.Popped? && Last(f).reclaim then u == SetTop(w, f.(saved := w.tokens, pc := WriteBack))
            else u.stack == SetTop(w, f.(pc := Call)).stack && u.deque == SetTop(w, f.(pc := Call)).deque
  {
    hide MainStep; hide SetTop;
    Kinds(w, jobs, next, s);
    if Top(w).pc.WriteBack? {
      WriteBackIs(w, jobs, next, s);
    } else {
      PoppedIs(w, jobs, next, s);
    }
  }

  lemma SaveTaken(w: Worker, jobs: map<nat, Job>, next: nat)
    requires WorkerInv(w, jobs, next) && WaitRule(w) && w.stack != []
    requires Top(w).pc.Popped? && Top(w).pend != [] && Last(Top(w)).reclaim
    ensures KeepsTaken(w, SetTop(w, Top(w).(saved := w.tokens, pc := WriteBack)))
  {
    var f := Top(w);
    SuffixRule(w, jobs, next);
    TopFrame(w, jobs, next);
    SaveKeepsFrame(f, w.tokens);
    UnjoinedAfter(f.(saved := w.tokens), WriteBack);
    hide WorkerInv; hide Pending; hide FrameInv; hide Taken; hide Unjoined; hide WaitRule;
    TopWaits(w, f.(saved := w.tokens, pc := WriteBack));
  }

  lemma ResumeTaken(w: Worker, jobs: map<nat, Job>, next: nat, v: Expr)
    requires WorkerInv(w, jobs, next) && WaitRule(w) && w.stack != [] && Top(w).pc.Wait?
    ensures KeepsTaken(w, SetTop(w, Receive(Top(w), v)))
  {
    TopFrame(w, jobs, next);
    JoiningPromoted(Top(w));
    WaitingDequeEmpty(w, jobs, next);
    ReceiveCall(Top(w), v);
    hide WorkerInv; hide Pending; hide FrameInv; hide Taken; hide Unjoined; hide Receive;
    ResumeWaits(w, Receive(Top(w), v));
  }

  /** A main-thread step never adds to the stolen jobs. */
  lemma MainStepTaken(w: Worker, jobs: map<nat, Job>, next: nat, s: nat)
    requires WorkerInv(w, jobs, next) && WaitRule(w) && MainStep(w, jobs, next, s).Some?
    ensures KeepsTaken(w, MainStep(w, jobs, next, s).value.worker)
  {
    hide WorkerInv; hide WaitRule; hide EagerPromote; hide KeepsTaken; hide MainStep; hide LoopStep; hide Receive;
    Kinds(w, jobs, next, s);
    var f := Top(w);
    if f.pc.EagerAct? {
      EagerActIs(w, jobs, next, s);
      EagerTaken(w, jobs, next);
    } else if f.pc.Join? {
      JoinTaken(w, jobs, next, s);
    } else if f.pc.Popped? || f.pc.WriteBack? {
      SyncTaken(w, jobs, next, s);
    } else if f.pc.Wait? {
      WaitIs(w, jobs, next, s);
      ResumeTaken(w, jobs, next, jobs[Last(f).id].done.value);
    } else if f.pc.Done? {
      DoneTaken(w, jobs, next, s);
    } else if LoopStep(f, s).Some? {
      LoopIs(w, jobs, next, s);
      SuffixRule(w, jobs, next);
      LoopStepTaken(w, s);
    } else if Moves(f.pc) {
      MoveTaken(w, jobs, next, s);
    } else {
      CallingTaken(w, jobs, next, s);
    }
  }

  lemma DoneTaken(w: Worker, jobs: map<nat, Job>, next: nat, s: nat)
    requires WorkerInv(w, jobs, next) && WaitRule(w) && MainStep(w, jobs, next, s).Some? && Top(w).pc.Done?
    ensures KeepsTaken(w, MainStep(w, jobs, next, s).value.worker)
  {
    hide WorkerInv; hide WaitRule; hide KeepsTaken; hide MainStep; hide Receive;
    Kinds(w, jobs, next, s);
    DoneIs(w, jobs, next, s);
    ReturnTaken(w, jobs, next);
  }

  lemma MoveTaken(w: Worker, jobs: map<nat, Job>, next: nat, s: nat)
    requires WorkerInv(w, jobs, next) && WaitRule(w) && w.stack != [] && Moves(Top(w).pc)
    requires MainStep(w, jobs, next, s).Some?
    ensures KeepsTaken(w, MainStep(w, jobs, next, s).value.worker)
  {
    MoveIs(w, jobs, next, s);
    MovedRelabels(w);
    hide Relabels; hide MovedPc; hide Moves;
    hide WorkerInv; hide Taken; hide WaitRule; hide Pending; hide FrameInv; hide Unjoined; hide KeepsTaken;
    hide MainStep;
    RelabelTaken(w, MovedPc(w), jobs, next);
    TakenFrame(w, SetTop(w, Top(w).(pc := MovedPc(w))), MainStep(w, jobs, next, s).value.worker);
  }

  lemma CallingTaken(w: Worker, jobs: map<nat, Job>, next: nat, s: nat)
    requires WorkerInv(w, jobs, next) && WaitRule(w) && MainStep(w, jobs, next, s).Some?
    requires MayCall(Top(w).pc) && LoopStep(Top(w), s).None?
    ensures KeepsTaken(w, MainStep(w, jobs, next, s).value.worker)
  {
    var f := Top(w);
    hide WorkerInv; hide Taken; hide WaitRule; hide Pending; hide FrameInv; hide Unjoined; hide KeepsTaken;
    hide LoopStep; hide MainStep; hide Push;
    CallIs(w, jobs, next, s);
    CalleeAwaited(f);
    hide Relabels; hide Callee;
    CallsTaken(w, CallingPc(f.pc), Callee(f), jobs, next);
  }

  lemma CallsTaken(w: Worker, pc: Pc, t: Task, jobs: map<nat, Job>, next: nat)
    requires WorkerInv(w, jobs, next) && WaitRule(w) && w.stack != []
    requires Relabels(Top(w), pc) && Awaiting(pc)
    ensures KeepsTaken(w, Push(w, Top(w).(pc := pc), t, next))
  {
    TopFrame(w, jobs, next);
    UnjoinedAfter(Top(w), pc);
    SuffixRule(w, jobs, next);
    hide WorkerInv; hide Taken; hide WaitRule; hide Pending; hide FrameInv; hide Unjoined; hide KeepsTaken;
    CallTaken(w, Top(w).(pc := pc), t, next);
  }
}
