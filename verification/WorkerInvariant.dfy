/** Every micro-step of a worker, and every heartbeat on it, keeps the worker's invariant. */
module WorkerInvariant {
  import opened Tasks
  import opened Machine
  import opened Wrappers
  import opened FrameInvariant
  import opened StackInvariant

  /** Between the commit of a slot and the end of its eager promotion. */
  predicate Window(pc: Pc) {
    pc.Committed? || pc.EagerOff? || pc.EagerAct?
  }

  /** Tokens left over mean that every slot is promoted, but for one inside its window. */
  ghost predicate TokenRule(w: Worker) {
    w.tokens != 0 ==>
      forall k :: 0 <= k < |w.stack| && Live(w.stack[k].pc) && !w.stack[k].promoted ==>
                    k == |w.stack| - 1 && Window(w.stack[k].pc)
  }

  predicate Eager(pc: Pc) {
    pc.EagerAct? || pc.EagerOn?
  }

  ghost predicate DisabledRule(w: Worker) {
    w.disabled <==> w.stack != [] && Eager(Top(w).pc)
  }

  ghost predicate StackRule(stack: seq<Frame>, jobs: map<nat, Job>, next: nat) {
    && Frames(stack) && Links(stack) && PromotedFirst(stack)
    && forall f :: f in stack ==> f.birth < next && Known(f, jobs)
  }

  ghost predicate WorkerInv(w: Worker, jobs: map<nat, Job>, next: nat) {
    && StackRule(w.stack, jobs, next)
    && IsSuffix(w.deque, Pending(w.stack))
    && TokenRule(w)
    && DisabledRule(w)
  }

  /** Jobs keep their work and tokens; a finished job holds exactly its own contributions. */
  ghost predicate JobsInv(jobs: map<nat, Job>, next: nat) {
    forall id :: id in jobs ==>
                   id < next && (jobs[id].done.Some? ==> Word(jobs[id].done.value) == Leaves(jobs[id].task))
  }

  ghost predicate Extends(jobs: map<nat, Job>, more: map<nat, Job>) {
    forall id :: id in jobs ==>
                   && id in more && more[id].task == jobs[id].task && more[id].hbt == jobs[id].hbt
                   && (jobs[id].done.Some? ==> more[id].done.Some?)
  }

  /** What other workers do never disturbs a worker. */
  lemma ExtendsKeeps(w: Worker, jobs: map<nat, Job>, next: nat, more: map<nat, Job>, later: nat)
    requires WorkerInv(w, jobs, next) && Extends(jobs, more) && next <= later
    ensures WorkerInv(w, more, later)
  {
    hide FrameInv; hide Links; hide PromotedFirst; hide TokenRule; hide DisabledRule; hide IsSuffix; hide Pending;
    forall f | f in w.stack ensures f.birth < later && Known(f, more) {
      assert Known(f, jobs);
    }
  }

  // ---------- replacing, pushing and popping the top frame ----------

  ghost predicate SameCall(f: Frame, g: Frame) {
    && g.task == f.task && g.ret == f.ret && g.birth == f.birth && g.a0 == f.a0
    && g.promoted == f.promoted
    && (forall p :: p in g.pend ==> p in f.pend)
  }

  lemma StackTop(below: seq<Frame>, f: Frame, g: Frame, jobs: map<nat, Job>, next: nat)
    requires StackRule(below + [f], jobs, next) && FrameInv(g) && SameCall(f, g)
    ensures StackRule(below + [g], jobs, next)
  {
    hide FrameInv; hide Awaited;
    var s, t := below + [f], below + [g];
    var n := |below|;
    assert t[n] == g && s[n] == f;
    assert forall k :: 0 <= k < n ==> t[k] == s[k];
    assert Frames(t);
    assert PromotedFirst(t);
    forall j, k | 0 <= j < k < |t| && k == j + 1 ensures Link(t[j], t[k]) {
      assert Link(s[j], s[k]);
    }
    assert t != [] && t[0].ret == s[0].ret;
    forall h | h in t ensures h.birth < next && Known(h, jobs) {
      if h != g {
        assert h in s;
      } else {
        assert f in s;
      }
    }
  }

  lemma StackPush(stack: seq<Frame>, g: Frame, jobs: map<nat, Job>, next: nat)
    requires StackRule(stack, jobs, next) && FrameInv(g) && !g.promoted && g.birth == next
    requires Known(g, jobs)
    requires if stack == [] then !g.ret.ToCaller? else Link(stack[|stack| - 1], g)
    ensures StackRule(stack + [g], jobs, next + 1)
  {
    hide FrameInv; hide Awaited; hide Known;
    var t := stack + [g];
    forall j, k | 0 <= j < k < |t| && k == j + 1 ensures Link(t[j], t[k]) {
      if k < |stack| {
        assert Link(stack[j], stack[k]);
      }
    }
  }

  lemma StackPop(below: seq<Frame>, f: Frame, jobs: map<nat, Job>, next: nat)
    requires StackRule(below + [f], jobs, next)
    ensures StackRule(below, jobs, next)
  {
    hide FrameInv; hide Awaited; hide Known;
    var s := below + [f];
    assert forall k :: 0 <= k < |below| ==> below[k] == s[k];
    forall j, k | 0 <= j < k < |below| && k == j + 1 ensures Link(below[j], below[k]) {
      assert Link(s[j], s[k]);
    }
    forall h | h in below ensures h.birth < next && Known(h, jobs) {
      assert h in s;
    }
  }

  /** All live slots below a promoted top frame, or below any top frame of a worker with
      tokens, are promoted. */
  lemma PromotedBelow(w: Worker, jobs: map<nat, Job>, next: nat)
    requires WorkerInv(w, jobs, next) && w.stack != []
    requires w.tokens != 0 || Top(w).promoted
    ensures forall f :: f in Below(w) && Live(f.pc) ==> f.promoted
  {
    hide FrameInv; hide Known; hide Link;
    forall f | f in Below(w) && Live(f.pc) ensures f.promoted {
      var k :| 0 <= k < |w.stack| - 1 && w.stack[k] == f;
    }
  }

  /** The top frame moves on: its slot, its call and its jobs stay what they were. */
  lemma TopKeeps(w: Worker, g: Frame, u: Worker, jobs: map<nat, Job>, next: nat)
    requires WorkerInv(w, jobs, next) && w.stack != []
    requires FrameInv(g) && SameCall(Top(w), g)
    requires u.stack == Below(w) + [g]
    requires IsSuffix(u.deque, Pending(Below(w)) + Unjoined(g))
    requires u.tokens != 0 ==> (w.tokens != 0 || g.promoted) && (Live(g.pc) && !g.promoted ==> Window(g.pc))
    requires u.disabled <==> Eager(g.pc)
    ensures WorkerInv(u, jobs, next)
  {
    hide FrameInv; hide Unjoined; hide StackRule; hide SameCall; hide Pending; hide IsSuffix; hide TokenRule; hide Live;
    assert w.stack == Below(w) + [Top(w)];
    StackTop(Below(w), Top(w), g, jobs, next);
    PendingTop(Below(w), g);
    TopTokenRule(w, g, u, jobs, next);
  }

  lemma TopTokenRule(w: Worker, g: Frame, u: Worker, jobs: map<nat, Job>, next: nat)
    requires WorkerInv(w, jobs, next) && w.stack != [] && SameCall(Top(w), g) && u.stack == Below(w) + [g]
    requires u.tokens != 0 ==> (w.tokens != 0 || g.promoted) && (Live(g.pc) && !g.promoted ==> Window(g.pc))
    ensures TokenRule(u)
  {
    hide StackRule; hide Pending; hide IsSuffix; hide Live; hide Window;
    if u.tokens != 0 {
      PromotedBelow(w, jobs, next);
      hide WorkerInv;
      assert forall k :: 0 <= k < |Below(w)| ==> u.stack[k] in Below(w);
    }
  }

  /** What the deque of a worker owes to its top frame. */
  lemma DequeOfTop(w: Worker, jobs: map<nat, Job>, next: nat)
    requires WorkerInv(w, jobs, next) && w.stack != []
    ensures IsSuffix(w.deque, Pending(Below(w)) + Unjoined(Top(w)))
  {
    hide FrameInv; hide Known; hide Link; hide Unjoined;
    assert w.stack == Below(w) + [Top(w)];
    PendingTop(Below(w), Top(w));
  }

  /** A fresh frame on top of a stack whose live slots are promoted, or whose worker has no tokens. */
  lemma PushKeeps(w: Worker, n: Frame, u: Worker, jobs: map<nat, Job>, next: nat)
    requires WorkerInv(w, jobs, next) && !w.disabled
    requires FrameInv(n) && Unjoined(n) == [] && !n.promoted && n.birth == next && Known(n, jobs)
    requires !Live(n.pc) && !Eager(n.pc)
    requires if w.stack == [] then !n.ret.ToCaller? else Link(Top(w), n)
    requires u.tokens == 0 || forall f :: f in w.stack && Live(f.pc) ==> f.promoted
    requires u == w.(stack := w.stack + [n], tokens := u.tokens)
    ensures WorkerInv(u, jobs, next + 1)
  {
    hide FrameInv; hide Known; hide Link; hide Unjoined;
    StackPush(w.stack, n, jobs, next);
    PendingTop(w.stack, n);
    assert forall k :: 0 <= k < |w.stack| ==> u.stack[k] in w.stack;
  }

  lemma NewFrameReady(t: Task, ret: Ret, next: nat)
    ensures FrameInv(NewFrame(t, ret, next, Unit))
    ensures !Live(NewFrame(t, ret, next, Unit).pc) && !Eager(NewFrame(t, ret, next, Unit).pc)
  {
    NewFrameInv(t, ret, next, Unit);
    hide FrameInv;
  }

  /** The top frame calls `t`. */
  lemma CallKeeps(w: Worker, g: Frame, t: Task, jobs: map<nat, Job>, next: nat)
    requires WorkerInv(w, jobs, next) && w.stack != []
    requires FrameInv(g) && SameCall(Top(w), g)
    requires Unjoined(g) == Unjoined(Top(w))
    requires Awaiting(g.pc) && t == Awaited(g)
    requires w.tokens != 0 && Live(g.pc) ==> g.promoted
    requires !w.disabled
    ensures WorkerInv(Push(w, g, t, next), jobs, next + 1)
  {
    hide FrameInv; hide Awaited; hide Unjoined; hide Known;
    var n := NewFrame(t, ToCaller, next, Unit);
    var v := SetTop(w, g);
    DequeOfTop(w, jobs, next);
    TopKeeps(w, g, v, jobs, next);
    NewFrameReady(t, ToCaller, next);
    NewFrameFresh(t, ToCaller, next, Unit, jobs);
    assert Top(w) in w.stack;
    if w.tokens != 0 {
      PromotedBelow(w, jobs, next);
    }
    hide NewFrame; hide WorkerInv;
    PushKeeps(v, n, Push(w, g, t, next), jobs, next);
  }

  lemma NewFrameFresh(t: Task, ret: Ret, birth: nat, a0: Expr, jobs: map<nat, Job>)
    ensures var f := NewFrame(t, ret, birth, a0);
            && Unjoined(f) == [] && !f.promoted && f.ret == ret && f.birth == birth
            && (!ret.ToJob? ==> Known(f, jobs))
            && f.task == t && f.a0 == a0
  {
  }

  // ---------- returns ----------

  lemma ReceiveCall(f: Frame, v: Expr)
    requires Awaiting(f.pc) || f.pc.Wait?
    requires f.pc.Inline? || f.pc.Wait? ==> f.pend != []
    ensures SameCall(f, Receive(f, v))
    ensures Awaiting(f.pc) ==> Unjoined(Receive(f, v)) == Unjoined(f)
    ensures f.pc.Wait? ==> Unjoined(Receive(f, v)) == PendIds(DropLast(f))
    ensures Live(Receive(f, v).pc) ==> Live(f.pc)
    ensures !Eager(Receive(f, v).pc) && !Receive(f, v).pc.Wait?
  {
  }

  /** Every frame but the top one is suspended in a call or waits for a stolen job. */
  lemma BelowSuspended(w: Worker, k: nat)
    requires Links(w.stack) && k + 1 < |w.stack|
    ensures Awaiting(w.stack[k].pc) || w.stack[k].pc.Wait?
  {
    hide Awaited;
    assert Link(w.stack[k], w.stack[k + 1]);
  }

  lemma DoneJoined(f: Frame)
    requires FrameInv(f) && f.pc.Done?
    ensures f.pend == [] && Unjoined(f) == []
    ensures Word(f.a) == Word(f.a0) + Leaves(f.task)
  {
    assert Word(f.a) + [] == Word(f.a);
  }

  lemma PopKeeps(w: Worker, jobs: map<nat, Job>, next: nat)
    requires WorkerInv(w, jobs, next) && w.stack != [] && Top(w).pc.Done?
    ensures WorkerInv(w.(stack := Below(w)), jobs, next)
  {
    hide FrameInv; hide Unjoined; hide StackRule; hide Pending; hide TokenRule; hide DisabledRule; hide IsSuffix;
    var f := Top(w);
    PopRules(w, jobs, next);
    assert w.stack == Below(w) + [f];
    StackPop(Below(w), f, jobs, next);
    DequeOfTop(w, jobs, next);
    assert FrameInv(f) by { FrameOnStack(w.stack, |w.stack| - 1, jobs, next); }
    DoneJoined(f);
    assert Pending(Below(w)) + [] == Pending(Below(w));
  }

  lemma PopRules(w: Worker, jobs: map<nat, Job>, next: nat)
    requires WorkerInv(w, jobs, next) && w.stack != [] && Top(w).pc.Done?
    ensures TokenRule(w.(stack := Below(w))) && DisabledRule(w.(stack := Below(w)))
  {
    hide FrameInv; hide Known; hide Pending;
    if Below(w) != [] {
      BelowSuspended(w, |w.stack| - 2);
    }
    hide Links;
  }

  lemma FrameOnStack(stack: seq<Frame>, k: nat, jobs: map<nat, Job>, next: nat)
    requires StackRule(stack, jobs, next) && k < |stack|
    ensures FrameInv(stack[k]) && Known(stack[k], jobs) && stack[k].birth < next
  {
    hide FrameInv; hide Known;
    assert stack[k] in stack;
  }

  lemma ReturnKeeps(w: Worker, jobs: map<nat, Job>, next: nat)
    requires WorkerInv(w, jobs, next) && w.stack != [] && Top(w).pc.Done? && Top(w).ret.ToCaller?
    ensures Below(w) != []
    ensures var u := w.(stack := Below(w));
            WorkerInv(SetTop(u, Receive(Top(u), Top(w).a)), jobs, next)
  {
    hide FrameInv; hide Known; hide Awaited; hide Receive; hide Unjoined; hide WorkerInv; hide Pending; hide IsSuffix;
    hide SameCall; hide Live; hide Window; hide Leaves; hide Word;
    CallerBelow(w, jobs, next);
    PopKeeps(w, jobs, next);
    var f, u := Top(w), w.(stack := Below(w));
    var b := Top(u);
    ReceiveKeepsFrame(b, f.a);
    ReceiveCall(b, f.a);
    DequeOfTop(u, jobs, next);
    CallerIsCalm(u, jobs, next);
    TopKeeps(u, Receive(b, f.a), SetTop(u, Receive(b, f.a)), jobs, next);
  }

  /** The frame that is about to return carries the value its caller waits for. */
  lemma CallerBelow(w: Worker, jobs: map<nat, Job>, next: nat)
    requires WorkerInv(w, jobs, next) && w.stack != [] && Top(w).pc.Done? && Top(w).ret.ToCaller?
    ensures |w.stack| > 1
    ensures var b := w.stack[|w.stack| - 2];
            FrameInv(b) && Awaiting(b.pc) && (b.pc.Inline? ==> b.pend != []) && Word(Top(w).a) == Leaves(Awaited(b))
  {
    hide Known; hide Pending; hide TokenRule; hide DisabledRule; hide IsSuffix; hide PromotedFirst; hide Owed;
    var n := |w.stack| - 1;
    assert w.stack[n] == Top(w) && n != 0;
    var b := w.stack[n - 1];
    assert Link(b, w.stack[n]);
    assert FrameInv(b) && FrameInv(Top(w));
    DoneJoined(Top(w));
    hide Leaves; hide Awaited;
    assert Word(Unit) + Leaves(Top(w).task) == Leaves(Top(w).task);
  }

  /** A frame that waits for a call is in no window of tokens. */
  lemma CallerIsCalm(u: Worker, jobs: map<nat, Job>, next: nat)
    requires WorkerInv(u, jobs, next) && u.stack != [] && Awaiting(Top(u).pc)
    ensures u.tokens != 0 && Live(Top(u).pc) ==> Top(u).promoted
    ensures !u.disabled
  {
    hide StackRule; hide Pending; hide IsSuffix;
  }

  lemma ResumeKeeps(w: Worker, jobs: map<nat, Job>, next: nat)
    requires WorkerInv(w, jobs, next) && JobsInv(jobs, next)
    requires w.stack != [] && Top(w).pc.Wait? && w.deque == []
    requires Top(w).pend != [] && Last(Top(w)).id in jobs && jobs[Last(Top(w)).id].done.Some?
    ensures WorkerInv(SetTop(w, Receive(Top(w), jobs[Last(Top(w)).id].done.value)), jobs, next)
  {
    var f := Top(w);
    var v := jobs[Last(f).id].done.value;
    assert f in w.stack && Last(f) in f.pend && Known(f, jobs) && FrameInv(f);
    ReceiveKeepsFrame(f, v);
    ReceiveCall(f, v);
    assert f.promoted;
    hide FrameInv; hide Known; hide Awaited; hide Receive; hide Unjoined;
    TopKeeps(w, Receive(f, v), SetTop(w, Receive(f, v)), jobs, next);
  }

  // ---------- the handler ----------

  lemma HandlerStack(stack: seq<Frame>, t: nat, jobs: map<nat, Job>, next: nat)
    requires StackRule(stack, jobs, next)
    requires JobsAt(jobs, next, PromoteFront(stack, t, next).spawned)
    ensures StackRule(PromoteFront(stack, t, next).stack, jobs, next + |PromoteFront(stack, t, next).spawned|)
  {
    var p := PromoteFront(stack, t, next);
    hide FrameInv; hide PromoteFront; hide Known; hide JobsAt; hide PromotedFirst; hide Links; hide Frames;
    WalkBumps(stack, t, next);
    WalkKeepsPrefix(stack, t, next);
    assert forall f :: f in p.stack ==> Known(f, jobs) by { WalkKnown(stack, t, next, jobs); }
    WalkLinks(stack, p.stack);
    forall f | f in p.stack ensures f.birth < next + |p.spawned| {
      var k :| 0 <= k < |p.stack| && p.stack[k] == f;
      assert Bumped(stack[k], f) && stack[k] in stack;
    }
  }

  lemma SpawnExtends(jobs: map<nat, Job>, next: nat, spawned: seq<Spawn>)
    requires JobsInv(jobs, next)
    ensures var more := AddJobs(jobs, next, spawned);
            JobsInv(more, next + |spawned|) && Extends(jobs, more) && JobsAt(more, next, spawned)
  {
    hide AddJobs;
  }

  lemma HandlerRules(w: Worker, p: Walk, next: nat)
    requires |p.stack| == |w.stack| && forall k :: 0 <= k < |w.stack| ==> Bumped(w.stack[k], p.stack[k])
    requires p.tokens != 0 ==> forall f :: f in p.stack && Live(f.pc) ==> f.promoted
    requires IsSuffix(w.deque, Pending(w.stack)) && DisabledRule(w)
    requires Pending(p.stack) == Pending(w.stack) + Ids(next, |p.spawned|)
    ensures var u := w.(stack := p.stack, tokens := p.tokens, deque := w.deque + Ids(next, |p.spawned|));
            IsSuffix(u.deque, Pending(u.stack)) && TokenRule(u) && DisabledRule(u)
  {
    hide Pending; hide Ids;
    forall k | 0 <= k < |p.stack| ensures p.stack[k] in p.stack && p.stack[k].pc == w.stack[k].pc {
      assert Bumped(w.stack[k], p.stack[k]);
    }
  }

  /** A call of `promote_front` with `t` tokens, anywhere between two micro-steps. */
  lemma HandlerKeeps(w: Worker, t: nat, jobs: map<nat, Job>, next: nat)
    requires WorkerInv(w, jobs, next) && JobsInv(jobs, next)
    ensures var p := PromoteFront(w.stack, t, next);
            WorkerInv(w.(stack := p.stack, tokens := p.tokens, deque := w.deque + Ids(next, |p.spawned|)),
                      AddJobs(jobs, next, p.spawned), next + |p.spawned|)
  {
    var p := PromoteFront(w.stack, t, next);
    var more := AddJobs(jobs, next, p.spawned);
    hide AddJobs; hide PromoteFront; hide StackRule; hide Pending; hide TokenRule; hide DisabledRule;
    assert StackRule(p.stack, more, next + |p.spawned|) by {
      SpawnExtends(jobs, next, p.spawned);
      ExtendsKeeps(w, jobs, next, more, next);
      HandlerStack(w.stack, t, more, next);
    }
    HandlerWalk(w, t, jobs, next);
    HandlerRules(w, p, next);
  }

  lemma HandlerWalk(w: Worker, t: nat, jobs: map<nat, Job>, next: nat)
    requires WorkerInv(w, jobs, next)
    ensures var p := PromoteFront(w.stack, t, next);
            && |p.stack| == |w.stack| && (forall k :: 0 <= k < |w.stack| ==> Bumped(w.stack[k], p.stack[k]))
            && (p.tokens != 0 ==> forall f :: f in p.stack && Live(f.pc) ==> f.promoted)
            && Pending(p.stack) == Pending(w.stack) + Ids(next, |p.spawned|)
  {
    hide FrameInv; hide PromoteFront; hide Pending; hide Known; hide Links;
    WalkBumps(w.stack, t, next);
    WalkReachesBack(w.stack, t, next);
    WalkPending(w.stack, t, next);
  }

  lemma WalkLinks(s: seq<Frame>, t: seq<Frame>)
    requires Links(s) && |t| == |s| && forall k :: 0 <= k < |s| ==> Bumped(s[k], t[k])
    ensures Links(t)
  {
    forall j, k | 0 <= j < k < |t| && k == j + 1 ensures Link(t[j], t[k]) {
      assert Link(s[j], s[k]) && Bumped(s[j], t[j]) && Bumped(s[k], t[k]);
    }
    assert t != [] ==> Bumped(s[0], t[0]);
  }

  /** `eager_promote` does to the youngest slot what a walk over the whole chain would do. */
  lemma {:induction false} EagerIsWalk(below: seq<Frame>, f: Frame, tokens: nat, next: nat)
    requires 0 < tokens && forall g :: g in below && Live(g.pc) ==> g.promoted
    ensures var p := Visit(f, tokens, next);
            PromoteFront(below + [f], tokens, next)
            == Walk(below + [p.frame], p.tokens, p.spawned, if p.frame.promoted == f.promoted then 0 else 1)
    decreases |below|
  {
    hide Promote;
    var s := below + [f];
    if below == [] {
      assert s[1..] == [] && s[0] == f;
    } else {
      assert s[0] == below[0] && s[1..] == below[1..] + [f];
      EagerIsWalk(below[1..], f, tokens, next);
      assert Visit(s[0], tokens, next) == Promotion(s[0], tokens, []);
      var p := Visit(f, tokens, next);
      hide Visit;
      assert [below[0]] + (below[1..] + [p.frame]) == below + [p.frame];
      assert [] + p.spawned == p.spawned;
    }
  }

  /** Every queued job is in the job table. */
  lemma DequeKnown(w: Worker, jobs: map<nat, Job>, next: nat)
    requires WorkerInv(w, jobs, next)
    ensures forall id :: id in w.deque ==> id in jobs
  {
    hide FrameInv; hide Known; hide Pending;
    PendingKnown(w.stack, jobs);
  }
}
