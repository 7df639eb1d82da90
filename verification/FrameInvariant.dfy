/** What every frame satisfies between any two micro-steps, and why each step keeps it. */
module FrameInvariant {
  import opened Tasks
  import opened Handler
  import opened Machine
  import opened Wrappers

  /** The contributions of a frame's unjoined jobs, in the order the joins add them. */
  function PendWord(pend: seq<Pend>): seq<int> {
    if pend == [] then []
    else Leaves(pend[|pend| - 1].task) + PendWord(pend[..|pend| - 1])
  }

  predicate Entering(pc: Pc) {
    pc.Enter? || pc.Committed? || pc.EagerOff? || pc.EagerAct? || pc.EagerOn? || pc.Head?
  }

  predicate Looping(pc: Pc) {
    Entering(pc) || pc.Test? || pc.Body? || pc.Nested? || pc.Advance? || pc.Publish? || pc.Close?
  }

  predicate Joining(pc: Pc) {
    pc.Join? || pc.Popped? || pc.WriteBack? || pc.Call? || pc.Inline? || pc.Wait?
  }

  /** The steps at which a frame is busy with its last unjoined job. */
  predicate Syncing(pc: Pc) {
    pc.Popped? || pc.WriteBack? || pc.Call? || pc.Inline? || pc.Wait?
  }

  /** The contributions a frame still has to add to its accumulator. */
  function Owed(f: Frame): seq<int> {
    if f.pc.Done? then []
    else if Joining(f.pc) then PendWord(f.pend)
    else
      match f.task
      case Leaf(v) => []
      case Loop(_, items) =>
        LeavesOf(Slice(items, if f.pc.Advance? then f.i + 1 else f.i, f.end)) + PendWord(f.pend)
      case Fork(left, gap, right) =>
        if f.pc.Right? || f.pc.AwaitRight? then Leaves(right)
        else if f.pc.Close? || f.pc.Gap? || f.pc.AwaitGap? then Leaves(gap) + Leaves(right)
        else Leaves(left) + Leaves(gap) + Leaves(right)
  }

  /** The protocol between the loop and the handler, at every micro-step of the loop. */
  ghost predicate LoopInv(f: Frame)
    requires f.task.Loop?
  {
    var n, k := |f.task.items|, f.task.factor;
    && f.ssi <= f.i <= f.end <= n
    && f.i <= f.ssi + k
    && (f.pend == [] ==> f.end == n)
    && LeavesOf(Slice(f.task.items, f.end, n)) == PendWord(f.pend)
    && (Entering(f.pc) || f.pc.Test? || f.pc.Close? ==> f.i == f.ssi)
    && (f.pc.Test? ==> f.end <= f.seen && (f.seen == f.end || f.end == f.ssi + k))
    && (f.pc.Body? || f.pc.Nested? || f.pc.Advance? ==> f.i < f.goal)
    && (f.pc.Body? || f.pc.Nested? || f.pc.Advance? || f.pc.Publish? ==> f.goal <= f.end && f.goal <= f.ssi + k)
    && (f.pc.Publish? ==> f.i == f.goal)
    && (f.pc.Close? ==> f.i == f.end)
  }

  ghost predicate ForkInv(f: Frame)
    requires f.task.Fork?
  {
    && (f.pc.Right? || f.pc.AwaitRight? ==> !f.promoted)
    && (f.promoted && !Joining(f.pc) && !f.pc.Done? ==> |f.pend| == 1 && f.pend[0].task == f.task.right)
  }

  /** Only a loop's `l`, the second job of its promotion, gives its tokens back to its owner. */
  ghost predicate Reclaims(task: Task, pend: seq<Pend>) {
    forall k :: 0 <= k < |pend| ==> (pend[k].reclaim <==> task.Loop? && k == 1)
  }

  ghost predicate FrameInv(f: Frame) {
    && (!f.promoted ==> f.pend == [])
    && (f.pc.Enter? ==> !f.promoted)
    && (Joining(f.pc) ==> f.promoted)
    && (Syncing(f.pc) ==> f.pend != [])
    && (f.pc.WriteBack? ==> f.pend != [] && Last(f).reclaim)
    && (f.pc.Done? ==> f.pend == [])
    && (match f.task
        case Leaf(_) => f.pc.Done?
        case Loop(_, _) => (Looping(f.pc) || Joining(f.pc) || f.pc.Done?) && (Looping(f.pc) ==> LoopInv(f))
        case Fork(_, _, _) =>
          && !(f.pc.Test? || f.pc.Body? || f.pc.Nested? || f.pc.Advance? || f.pc.Publish?)
          && ForkInv(f))
    && Reclaims(f.task, f.pend)
    && Word(f.a) + Owed(f) == Word(f.a0) + Leaves(f.task)
  }

  lemma NewFrameInv(t: Task, ret: Ret, birth: nat, a0: Expr)
    ensures FrameInv(NewFrame(t, ret, birth, a0))
  {
    match t
    case Leaf(v) =>
      NewLeafInv(t, ret, birth, a0);
    case Fork(_, _, _) =>
      hide Leaves; hide Word; hide PendWord;
      NewForkOwed(t, ret, birth, a0);
    case Loop(_, _) =>
      NewLoopInv(t, ret, birth, a0);
  }

  lemma NewLeafInv(t: Task, ret: Ret, birth: nat, a0: Expr)
    requires t.Leaf?
    ensures FrameInv(NewFrame(t, ret, birth, a0))
  {
    hide PendWord;
    assert Word(Atom(t.v)) == Leaves(t);
    assert (Word(a0) + Leaves(t)) + [] == Word(a0) + Leaves(t);
  }

  lemma NewForkOwed(t: Task, ret: Ret, birth: nat, a0: Expr)
    requires t.Fork?
    ensures Owed(NewFrame(t, ret, birth, a0)) == Leaves(t)
  {
    hide PendWord;
  }

  lemma NewLoopInv(t: Task, ret: Ret, birth: nat, a0: Expr)
    requires t.Loop?
    ensures FrameInv(NewFrame(t, ret, birth, a0))
  {
    hide LeavesOf; hide Word;
    var items := t.items;
    assert Slice(items, 0, |items|) == items && Slice(items, |items|, |items|) == [];
    NoLeaves([]);
    assert PendWord([]) == [];
    hide PendWord;
    assert Leaves(t) == LeavesOf(items) == LeavesOf(items) + [];
  }

  // ---------- promotion ----------

  /** `PendWord` of the jobs a loop's handler creates: first `l`, then `r`. */
  lemma PendWordOfSplit(items: seq<Task>, p: nat, mid: nat, pend: seq<Pend>)
    requires p <= mid <= |items|
    requires 0 < |pend| <= 2 && (|pend| == 1 ==> p == mid)
    requires pend[0].task.Loop? && pend[0].task.items == items[mid..]
    requires |pend| == 2 ==> pend[1].task.Loop? && pend[1].task.items == items[p..mid]
    ensures PendWord(pend) == LeavesOf(items[p..])
  {
    LeavesOfSplit(items, p, mid, |items|);
    assert items[p..|items|] == items[p..] && items[mid..|items|] == items[mid..];
    PendWordOne(pend[..1]);
    hide LeavesOf;
    if |pend| == 1 {
      assert pend[..1] == pend && items[p..mid] == [];
      NoLeaves(items[p..mid]);
    }
  }

  lemma PendWordOne(pend: seq<Pend>)
    requires |pend| == 1
    ensures PendWord(pend) == Leaves(pend[0].task)
  {
    assert pend[..0] == [] && PendWord(pend[..0]) == [];
    assert Leaves(pend[0].task) + [] == Leaves(pend[0].task);
  }

  lemma NoLeaves(ts: seq<Task>)
    requires ts == []
    ensures LeavesOf(ts) == []
  {
  }

  /** `pend` are the records of the jobs made from `items[p..mid]` and `items[mid..]`. */
  ghost predicate SplitPend(items: seq<Task>, p: nat, mid: nat, pend: seq<Pend>) {
    && p <= mid < |items|
    && 0 < |pend| <= 2 && (|pend| == 1 ==> p == mid)
    && pend[0].task.Loop? && pend[0].task.items == items[mid..]
    && (|pend| == 2 ==> pend[1].task.Loop? && pend[1].task.items == items[p..mid])
    && !pend[0].reclaim && (|pend| == 2 ==> pend[1].reclaim)
  }

  lemma PromoteSplits(f: Frame, tokens: nat, next: nat)
    requires f.task.Loop? && f.end == |f.task.items| && 0 < tokens
    requires SplitRange(f.ssi, f.end, f.task.factor).Split?
    ensures var g := Promote(f, tokens, next).frame;
            var s := SplitRange(f.ssi, f.end, f.task.factor);
            && g == f.(promoted := true, end := s.prom, pend := g.pend)
            && SplitPend(f.task.items, s.prom, s.mid, g.pend)
  {
  }

  /** Moving `[p, end)` out of the loop and into jobs loses nothing. */
  lemma SplitOwed(f: Frame, p: nat, mid: nat, pend: seq<Pend>)
    requires f.task.Loop? && f.pend == [] && f.end == |f.task.items|
    requires SplitPend(f.task.items, p, mid, pend)
    requires (if f.pc.Advance? then f.i + 1 else f.i) <= p
    requires !f.pc.Done? && !Joining(f.pc)
    ensures Owed(f.(promoted := true, end := p, pend := pend)) == Owed(f)
    ensures LeavesOf(Slice(f.task.items, p, |f.task.items|)) == PendWord(pend)
  {
    var items := f.task.items;
    PendWordOfSplit(items, p, mid, pend);
    var x := if f.pc.Advance? then f.i + 1 else f.i;
    LeavesOfSplit(items, x, p, |items|);
    assert PendWord(f.pend) == [];
    hide PendWord; hide LeavesOf; hide SplitPend;
    assert items[p..|items|] == items[p..] && items[x..|items|] == Slice(items, x, f.end);
    assert LeavesOf(items[x..|items|]) + [] == LeavesOf(items[x..|items|]);
  }

  lemma SplitKeepsFrame(f: Frame, p: nat, mid: nat, pend: seq<Pend>)
    requires FrameInv(f) && Live(f.pc) && !f.promoted && f.task.Loop?
    requires SplitPend(f.task.items, p, mid, pend) && p == f.ssi + f.task.factor
    ensures FrameInv(f.(promoted := true, end := p, pend := pend))
  {
    hide Owed; hide Word; hide Leaves; hide LeavesOf; hide PendWord; hide LoopInv; hide SplitPend;
    SplitFacts(f);
    SplitLoopInv(f, p, mid, pend);
    SplitReclaims(f.task, p, mid, pend);
    hide Reclaims;
    SplitOwed(f, p, mid, pend);
  }

  lemma SplitReclaims(t: Task, p: nat, mid: nat, pend: seq<Pend>)
    requires t.Loop? && SplitPend(t.items, p, mid, pend)
    ensures Reclaims(t, pend) && pend != []
  {
  }

  lemma SplitLoopInv(f: Frame, p: nat, mid: nat, pend: seq<Pend>)
    requires FrameInv(f) && Live(f.pc) && !f.promoted && f.task.Loop?
    requires SplitPend(f.task.items, p, mid, pend) && p == f.ssi + f.task.factor
    ensures Looping(f.pc) && !f.pc.Done? && !Joining(f.pc) && (if f.pc.Advance? then f.i + 1 else f.i) <= p
    ensures LoopInv(f.(promoted := true, end := p, pend := pend))
  {
    SplitFacts(f);
    SplitWord(f.task.items, p, mid, pend);
    hide Owed; hide Word; hide Leaves; hide LeavesOf; hide PendWord;
  }

  lemma SplitWord(items: seq<Task>, p: nat, mid: nat, pend: seq<Pend>)
    requires SplitPend(items, p, mid, pend)
    ensures LeavesOf(Slice(items, p, |items|)) == PendWord(pend)
  {
    PendWordOfSplit(items, p, mid, pend);
    assert items[p..|items|] == items[p..];
    hide LeavesOf; hide PendWord;
  }

  /** A handler call leaves a frame where it was: it never disturbs the step in flight. */
  lemma PromoteKeepsFrame(f: Frame, tokens: nat, next: nat)
    requires FrameInv(f) && Live(f.pc) && !f.promoted && 0 < tokens
    ensures var g := Promote(f, tokens, next).frame;
            && FrameInv(g) && g.promoted
            && g == f.(promoted := true, end := g.end, pend := g.pend)
  {
    var g := Promote(f, tokens, next).frame;
    hide Word; hide Leaves; hide LeavesOf; hide PendWord;
    if f.task.Loop? {
      var s := SplitRange(f.ssi, f.end, f.task.factor);
      if s.Split? {
        SplitFacts(f);
        PromoteSplits(f, tokens, next);
        hide FrameInv;
        SplitKeepsFrame(f, s.prom, s.mid, g.pend);
      } else {
        FlagKeepsFrame(f);
      }
    } else {
      hide SplitRange;
    }
  }

  /** A promotion that finds nothing to hand out sets the flag. */
  lemma FlagKeepsFrame(f: Frame)
    requires FrameInv(f) && Live(f.pc) && !f.promoted && f.task.Loop?
    ensures FrameInv(f.(promoted := true))
  {
    hide Word; hide Leaves; hide LeavesOf; hide PendWord;
    assert LoopInv(f.(promoted := true));
  }

  /** The jobs a handler creates are numbered from `next`, match the frame's records, and
      take their tokens from the worker without underflow. */
  lemma PromoteJobs(f: Frame, tokens: nat, next: nat)
    requires 0 < tokens
    ensures var p := Promote(f, tokens, next);
            && (f.pend == [] ==> |p.frame.pend| == |p.spawned|)
            && |p.spawned| <= 2
            && (p.spawned != [] ==> |p.frame.pend| == |p.spawned|)
            && (forall k :: 0 <= k < |p.spawned| ==>
                              p.frame.pend[k].id == next + k && p.frame.pend[k].task == p.spawned[k].task)
            && p.tokens + TokensOf(p.spawned) == tokens - 1
  {
    var p := Promote(f, tokens, next);
    if |p.spawned| == 1 {
      assert p.spawned[1..] == [];
    } else if |p.spawned| == 2 {
      assert p.spawned[1..][1..] == [];
      assert TokensOf(p.spawned[1..]) == p.spawned[1].hbt + TokensOf(p.spawned[1..][1..]);
    }
  }

  /** The tokens handed to newly enqueued jobs. */
  function TokensOf(spawned: seq<Spawn>): nat {
    if spawned == [] then 0 else spawned[0].hbt + TokensOf(spawned[1..])
  }

  // ---------- main-thread steps ----------

  /** The task whose value a suspended frame is waiting for. */
  function Awaited(f: Frame): Task {
    if (f.pc.Inline? || f.pc.Wait?) && f.pend != [] then Last(f).task
    else
      match f.task
      case Leaf(_) => f.task
      case Loop(_, items) => if f.i < |items| then items[f.i] else f.task
      case Fork(left, gap, right) =>
        if f.pc.AwaitLeft? then left else if f.pc.AwaitGap? then gap else right
  }

  /** Steps that change nothing in the frame but where it stands. */
  predicate Relabels(f: Frame, pc: Pc) {
    match f.pc
    case Enter => pc.Committed?
    case Committed => pc.EagerOff? || pc.Head?
    case EagerOff => pc.EagerAct?
    case EagerAct => pc.EagerOn?
    case EagerOn => pc.Head?
    case Head => f.task.Fork? && pc.AwaitLeft?
    case Test => f.seen <= f.i && pc.Close?
    case Body => pc.Nested?
    case Close => pc == if f.task.Fork? then Gap else if f.promoted then Join else Done
    case Gap => pc.AwaitGap?
    case Right => pc.AwaitRight?
    case Join => if f.pend == [] then pc.Done? else pc.Wait? || pc.Popped?
    case Popped => pc.Call? || (pc.WriteBack? && f.pend != [] && Last(f).reclaim)
    case WriteBack => pc.Call?
    case Call => pc.Inline?
    case _ => false
  }

  lemma RelabelKeepsFrame(f: Frame, pc: Pc)
    requires FrameInv(f) && Relabels(f, pc)
    ensures FrameInv(f.(pc := pc))
  {
    hide Word; hide Leaves; hide Owed; hide LoopInv; hide ForkInv; hide Relabels;
    RelabelOwed(f, pc);
    RelabelShape(f, pc);
    if f.task.Loop? && Looping(pc) {
      RelabelLoopInv(f, pc);
    }
    hide Joining; hide Looping; hide Syncing;
  }

  /** All of `FrameInv` but the loop protocol and the contributions. */
  lemma RelabelShape(f: Frame, pc: Pc)
    requires FrameInv(f) && Relabels(f, pc)
    ensures (pc.Enter? || !f.promoted ==> f.pend == []) && !pc.Enter? && (Joining(pc) ==> f.promoted)
    ensures (Syncing(pc) || pc.WriteBack? ==> f.pend != []) && (pc.WriteBack? ==> Last(f).reclaim)
    ensures pc.Done? ==> f.pend == []
    ensures match f.task
            case Leaf(_) => pc.Done?
            case Loop(_, _) => (Looping(pc) || Joining(pc) || pc.Done?) && (Looping(pc) ==> Looping(f.pc))
            case Fork(_, _, _) =>
              !(pc.Test? || pc.Body? || pc.Nested? || pc.Advance? || pc.Publish?) && ForkInv(f.(pc := pc))
  {
    hide Word; hide Leaves; hide Owed; hide LoopInv;
  }

  lemma RelabelLoopInv(f: Frame, pc: Pc)
    requires FrameInv(f) && Relabels(f, pc) && f.task.Loop? && Looping(pc)
    ensures LoopInv(f.(pc := pc))
  {
    hide Word; hide Leaves; hide LeavesOf; hide PendWord; hide Owed;
  }

  /** Such a step leaves the debt of the frame as it is. */
  lemma RelabelOwed(f: Frame, pc: Pc)
    requires FrameInv(f) && Relabels(f, pc)
    ensures Owed(f.(pc := pc)) == Owed(f)
  {
    hide Word; hide Leaves; hide LeavesOf; hide PendWord; hide LoopInv; hide ForkInv; hide Relabels;
    RelabelPhase(f, pc);
    if f.pc.Close? && f.task.Loop? {
      CloseOwed(f, pc);
    }
    PendWordNone();
  }

  lemma PendWordNone()
    ensures PendWord([]) == []
  {
  }

  /** What a step that only moves a frame on can do to what the frame owes. */
  lemma RelabelPhase(f: Frame, pc: Pc)
    requires FrameInv(f) && Relabels(f, pc)
    ensures !f.pc.Done? && (pc.Done? ==> f.pend == [])
    ensures Joining(f.pc) ==> Joining(pc) || pc.Done?
    ensures f.task.Fork? && !Joining(f.pc) ==>
              && (Joining(pc) || pc.Done? <==> false)
              && (pc.Right? || pc.AwaitRight? <==> f.pc.Right? || f.pc.AwaitRight?)
              && (pc.Close? || pc.Gap? || pc.AwaitGap? <==> f.pc.Close? || f.pc.Gap? || f.pc.AwaitGap?)
    ensures f.task.Loop? && !Joining(f.pc) && !f.pc.Close? ==>
              !Joining(pc) && !pc.Done? && !pc.Advance? && !f.pc.Advance?
    ensures !f.task.Leaf?
  {
    hide Word; hide Leaves; hide Owed; hide LoopInv; hide ForkInv;
  }

  lemma CloseOwed(f: Frame, pc: Pc)
    requires FrameInv(f) && Relabels(f, pc) && f.task.Loop? && f.pc.Close?
    ensures Owed(f.(pc := pc)) == Owed(f)
  {
    hide Word; hide Leaves; hide ForkInv;
    NoLeaves(Slice(f.task.items, f.end, f.end));
    assert [] + PendWord(f.pend) == PendWord(f.pend);
    assert PendWord([]) == [];
    hide LeavesOf; hide PendWord;
  }

  lemma LoadKeepsFrame(f: Frame)
    requires FrameInv(f) && f.task.Loop? && f.pc.Head?
    ensures FrameInv(f.(seen := f.end, pc := Test))
  {
    assert LoopInv(f.(seen := f.end, pc := Test));
  }

  /** A step that fits the bound that was loaded fits the current bound, even if a
      heartbeat shortened it in between. */
  lemma TestKeepsFrame(f: Frame, s: nat)
    requires FrameInv(f) && f.task.Loop? && f.pc.Test? && 1 <= s <= f.task.factor && f.i + s <= f.seen
    ensures FrameInv(f.(goal := f.i + s, pc := Body))
  {
    assert LoopInv(f.(goal := f.i + s, pc := Body));
  }

  /** The iteration at `f.i` is the next debt of a loop that is about to run its body. */
  lemma NextDebt(f: Frame, a: Expr)
    requires f.task.Loop? && (f.pc.Body? || f.pc.Nested?) && f.i < f.end <= |f.task.items|
    ensures Owed(f) == Leaves(f.task.items[f.i]) + Owed(f.(a := a, pc := Advance))
  {
    LeavesOfFirst(f.task.items, f.i, f.end);
    hide Leaves; hide LeavesOf; hide PendWord;
    var rest := LeavesOf(Slice(f.task.items, f.i + 1, f.end));
    assert Leaves(f.task.items[f.i]) + (rest + PendWord(f.pend))
        == (Leaves(f.task.items[f.i]) + rest) + PendWord(f.pend);
  }

  /** `a` and `b` are accumulators with the same total once their debts are added. */
  lemma Pay(a: seq<int>, paid: seq<int>, owed: seq<int>, total: seq<int>)
    requires a + (paid + owed) == total
    ensures (a + paid) + owed == total
  {
  }

  /** A body, or the call it made, adds its contribution to the accumulator. */
  lemma Contribute(f: Frame, v: Expr)
    requires FrameInv(f) && f.task.Loop? && (f.pc.Body? || f.pc.Nested?)
    requires Word(v) == Leaves(f.task.items[f.i])
    ensures FrameInv(f.(a := App(f.a, v), pc := Advance))
  {
    hide Owed; hide Leaves; hide LeavesOf; hide PendWord; hide Word;
    var g := f.(a := App(f.a, v), pc := Advance);
    NextDebt(f, g.a);
    WordOfApp(f.a, v);
    Pay(Word(f.a), Word(v), Owed(g), Word(f.a0) + Leaves(f.task));
    assert LoopInv(g);
  }

  lemma WordOfApp(a: Expr, v: Expr)
    ensures Word(App(a, v)) == Word(a) + Word(v)
  {
  }

  lemma AdvanceKeepsFrame(f: Frame)
    requires FrameInv(f) && f.task.Loop? && f.pc.Advance?
    ensures FrameInv(f.(i := f.i + 1, pc := if f.i + 1 == f.goal then Publish else Body))
  {
    assert LoopInv(f.(i := f.i + 1, pc := if f.i + 1 == f.goal then Publish else Body));
  }

  lemma PublishKeepsFrame(f: Frame)
    requires FrameInv(f) && f.task.Loop? && f.pc.Publish?
    ensures FrameInv(f.(ssi := f.i, pc := Head))
  {
    assert LoopInv(f.(ssi := f.i, pc := Head));
  }

  /** Every micro-step of the loop keeps the protocol. */
  lemma LoopStepKeepsFrame(f: Frame, s: nat)
    requires FrameInv(f) && LoopStep(f, s).Some?
    ensures FrameInv(LoopStep(f, s).value)
  {
    hide FrameInv; hide LeavesOf;
    if f.pc.Head? {
      LoadKeepsFrame(f);
    } else if f.pc.Test? && f.i < f.seen {
      TestKeepsFrame(f, s);
    } else if f.pc.Test? {
      RelabelKeepsFrame(f, Close);
    } else if f.pc.Body? {
      assert Word(Atom(f.task.items[f.i].v)) == Leaves(f.task.items[f.i]);
      Contribute(f, Atom(f.task.items[f.i].v));
    } else if f.pc.Advance? {
      AdvanceKeepsFrame(f);
    } else {
      PublishKeepsFrame(f);
    }
  }

  lemma ReceiveJob(f: Frame, v: Expr)
    requires FrameInv(f) && (f.pc.Inline? || f.pc.Wait?) && Word(v) == Leaves(Awaited(f))
    ensures FrameInv(f.(a := App(f.a, v), pc := Join, pend := DropLast(f)))
  {
    hide Leaves; hide LoopInv; hide ForkInv; hide Owed; hide Word;
    var g := f.(a := App(f.a, v), pc := Join, pend := DropLast(f));
    JobDebt(f, v);
    Pay(Word(f.a), Word(v), Owed(g), Word(f.a0) + Leaves(f.task));
    if g.task.Fork? { JobForkInv(g); }
  }

  lemma JobForkInv(g: Frame)
    requires g.pc.Join? && g.task.Fork?
    ensures ForkInv(g)
  {
  }

  lemma JobDebt(f: Frame, v: Expr)
    requires f.pend != [] && (f.pc.Inline? || f.pc.Wait?) && Word(v) == Leaves(Awaited(f))
    ensures var g := f.(a := App(f.a, v), pc := Join, pend := DropLast(f));
            Word(g.a) == Word(f.a) + Word(v) && Owed(f) == Word(v) + Owed(g)
  {
    hide Leaves; hide LeavesOf;
  }

  lemma ReceiveJobIs(f: Frame, v: Expr)
    requires f.pend != [] && (f.pc.Inline? || f.pc.Wait?)
    ensures Receive(f, v) == f.(a := App(f.a, v), pc := Join, pend := DropLast(f))
  {
  }

  lemma ForkDebt(f: Frame, v: Expr)
    requires FrameInv(f) && f.task.Fork?
    requires f.pc.AwaitLeft? || f.pc.AwaitGap? || f.pc.AwaitRight?
    ensures Owed(f) == Leaves(Awaited(f)) + Owed(Receive(f, v))
  {
    hide Word; hide Leaves;
    if f.pc.AwaitGap? && f.promoted {
      PendWordOne(f.pend);
    }
    hide PendWord;
    if f.pc.AwaitLeft? {
      Associate(Leaves(f.task.left), Leaves(f.task.gap), Leaves(f.task.right), []);
    } else if f.pc.AwaitRight? {
      assert Leaves(f.task.right) + [] == Leaves(f.task.right);
    }
  }

  lemma ReceiveFork(f: Frame, v: Expr)
    requires FrameInv(f) && f.task.Fork? && Word(v) == Leaves(Awaited(f))
    requires f.pc.AwaitLeft? || f.pc.AwaitGap? || f.pc.AwaitRight?
    ensures FrameInv(Receive(f, v))
  {
    var pc := if f.pc.AwaitLeft? then Close else if f.pc.AwaitRight? then Done else if f.promoted then Join else Right;
    ForkDebt(f, v);
    ForkMovesOn(f, pc, v);
    assert Receive(f, v) == f.(a := App(f.a, v), pc := pc);
    hide FrameInv; hide Owed; hide Leaves; hide Word; hide Receive;
    ForkPaid(f, f.(pc := pc), v);
  }

  /** Where a fork goes when its call returns, contributions aside. */
  lemma ForkMovesOn(f: Frame, pc: Pc, v: Expr)
    requires FrameInv(f) && f.task.Fork?
    requires pc == if f.pc.AwaitLeft? then Close else if f.pc.AwaitRight? then Done else if f.promoted then Join
                   else Right
    requires f.pc.AwaitLeft? || f.pc.AwaitGap? || f.pc.AwaitRight?
    ensures Receive(f, v) == f.(a := App(f.a, v), pc := pc)
    ensures ForkInv(f.(pc := pc)) && Owed(f.(a := App(f.a, v), pc := pc)) == Owed(f.(pc := pc))
    ensures (!f.promoted ==> f.pend == []) && (Joining(pc) ==> f.promoted) && !Syncing(pc)
            && (pc.Done? ==> f.pend == [])
  {
  }

  lemma ForkPaid(f: Frame, g: Frame, v: Expr)
    requires FrameInv(f) && f.task.Fork? && g == f.(pc := g.pc)
    requires Word(v) + Owed(g) == Owed(f) && Owed(g.(a := App(f.a, v))) == Owed(g)
    requires ForkInv(g) && (!f.promoted ==> f.pend == []) && (Joining(g.pc) ==> f.promoted) && !Syncing(g.pc)
    requires (g.pc.Done? ==> f.pend == []) && !g.pc.Enter? && !g.pc.Test? && !g.pc.Body? && !g.pc.Nested?
             && !g.pc.Advance?
    requires !g.pc.Publish?
    ensures FrameInv(g.(a := App(f.a, v)))
  {
    hide Owed; hide Leaves;
    Pay(Word(f.a), Word(v), Owed(g), Word(f.a0) + Leaves(f.task));
  }

  /** Adding the awaited value to the accumulator pays off the matching debt. */
  lemma ReceiveKeepsFrame(f: Frame, v: Expr)
    requires FrameInv(f) && (Awaiting(f.pc) || f.pc.Wait?) && Word(v) == Leaves(Awaited(f))
    ensures FrameInv(Receive(f, v))
  {
    if f.pc.Nested? {
      Contribute(f, v);
    } else if f.pc.Inline? || f.pc.Wait? {
      ReceiveJobIs(f, v);
      ReceiveJob(f, v);
    } else {
      ReceiveFork(f, v);
    }
  }

  // ---------- the shape of a frame ----------

  /** What is left of the invariant when contributions do not matter. */
  ghost predicate Shape(f: Frame) {
    && (!f.promoted ==> f.pend == [])
    && (Joining(f.pc) ==> f.promoted)
    && (Syncing(f.pc) ==> f.pend != [])
    && match f.task
       case Leaf(_) => f.pc.Done?
       case Loop(_, items) =>
         && (Looping(f.pc) || Joining(f.pc) || f.pc.Done?)
         && (Looping(f.pc) ==> f.ssi <= f.i <= f.end <= |items|)
         && (f.pc.Body? || f.pc.Nested? || f.pc.Advance? ==> f.i < f.goal <= f.end)
       case Fork(_, _, _) =>
         && !(f.pc.Test? || f.pc.Body? || f.pc.Nested? || f.pc.Advance? || f.pc.Publish?)
         && (f.pc.Right? || f.pc.AwaitRight? ==> !f.promoted)
         && (f.promoted && !Joining(f.pc) && !f.pc.Done? ==> |f.pend| == 1)
  }

  lemma ShapeOf(f: Frame)
    requires FrameInv(f)
    ensures Shape(f)
  {
    hide Owed; hide Word; hide Leaves;
  }

  /** What a handler call finds in an unpromoted loop. */
  lemma SplitFacts(f: Frame)
    requires f.task.Loop? && Live(f.pc) && FrameInv(f) && !f.promoted
    ensures Looping(f.pc) && f.pend == [] && f.end == |f.task.items| && f.ssi <= f.i
    ensures SplitRange(f.ssi, f.end, f.task.factor).Split? ==>
              && !f.pc.Close?
              && (if f.pc.Nested? || f.pc.Advance? then f.i + 1 else f.i) <= f.ssi + f.task.factor <= f.end
  {
  }
}
