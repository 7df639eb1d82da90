/**
 The slot chain of one thread as the pointer structure it is: a front sentinel,
 slots linked by `next`, and a `back` reference that alone says where the chain
 ends.  The heartbeat handler may run between any two writes of `Open`,
 `EagerPromote` and `Close`.

 A pointer to the `next` cell of a slot is represented by the slot itself.  The
 state captured by a slot's promotion callback is a frame of the machine, so
 that the pointer walk below is proved to be the walk `Machine.PromoteFront`.
 */
module Slots {
  import opened Tasks
  import opened FrameInvariant
  import opened StackInvariant
  import Machine

  class SporkSlot {
    var promoted: bool
    var promfn: Machine.Frame
    var prev: SporkSlot?
    var next: SporkSlot?

    constructor (f: Machine.Frame)
      ensures !promoted && promfn == f
    {
      promoted, promfn := false, f;
    }
  }

  /** A call of `with_prom_handler`: the callback's state, and the calls its body makes. */
  datatype Call = Call(promfn: Machine.Frame, body: seq<Call>)

  /** The calls that a call makes, itself included. */
  function CallCount(c: Call): nat
    decreases c, 1
  {
    1 + BodyCount(c.body)
  }

  function BodyCount(calls: seq<Call>): nat
    decreases calls, 0
  {
    if calls == [] then 0 else BodyCount(calls[..|calls| - 1]) + CallCount(calls[|calls| - 1])
  }

  ghost predicate Ready(c: Call) {
    && FrameInv(c.promfn) && Machine.Live(c.promfn.pc) && !c.promfn.promoted
    && forall k :: 0 <= k < |c.body| ==> Ready(c.body[k])
  }

  /** The states captured by the callbacks of `slots`. */
  ghost function FramesOf(slots: seq<SporkSlot>): (fs: seq<Machine.Frame>)
    reads slots`promfn
    ensures |fs| == |slots| && forall k :: 0 <= k < |fs| ==> fs[k] == slots[k].promfn
  {
    if slots == [] then [] else [slots[0].promfn] + FramesOf(slots[1..])
  }

  ghost predicate NoDup<T>(s: seq<T>) {
    forall j, k :: 0 <= j < k < |s| ==> s[j] != s[k]
  }

  class Thread {
    const front: SporkSlot
    var back: SporkSlot
    var tokens: nat
    var disabled: bool
    var spawned: seq<Machine.Spawn>
    /** The number of slots opened so far. */
    var entered: nat
    ghost var live: seq<SporkSlot>
    ghost var ran: seq<SporkSlot>

    /** The slot below the `k`-th live slot. */
    ghost function Below(k: nat): SporkSlot
      requires k <= |live|
      reads this`live
    {
      if k == 0 then front else live[k - 1]
    }

    ghost function Captured(): (fs: seq<Machine.Frame>)
      reads this`live, live`promfn
      ensures |fs| == |live| && forall k :: 0 <= k < |fs| ==> fs[k] == live[k].promfn
    {
      FramesOf(live)
    }

    /** The links up to the back slot; nothing is said of the `next` of the back slot. */
    ghost predicate Linked()
      reads this`back, this`live, front`next, live`prev, live`next
    {
      && back == Below(|live|)
      && (forall k :: 0 <= k < |live| ==> live[k].prev == Below(k) && Below(k).next == live[k])
    }

    /** Callbacks run once, in order; `promoted` says whether one ran; promoted slots come first. */
    ghost predicate Flagged()
      reads this`live, this`ran, live`promoted
    {
      && NoDup(ran) && front !in ran
      && (forall k :: 0 <= k < |live| ==> (live[k].promoted <==> live[k] in ran))
      && (forall j, k :: 0 <= j < k < |live| && live[k].promoted ==> live[j].promoted)
    }

    ghost predicate Handlers()
      reads this`live, live`promoted, live`promfn
    {
      forall k :: 0 <= k < |live| ==>
                    var f := live[k].promfn;
                    FrameInv(f) && Machine.Live(f.pc) && f.promoted == live[k].promoted
    }

    ghost predicate Valid()
      reads this`back, this`live, this`ran, front, live
    {
      && NoDup(live) && front !in live
      && Linked() && Flagged() && Handlers()
    }

    /** Tokens left over mean that the first `n` slots are promoted. */
    ghost predicate Settled(n: nat)
      reads this, live
    {
      tokens != 0 ==> forall k :: 0 <= k < n && k < |live| ==> live[k].promoted
    }

    constructor ()
      ensures Valid() && live == [] && ran == [] && tokens == 0 && !disabled
      ensures fresh(front)
    {
      var leaf := Machine.NewFrame(Leaf(0), Machine.ToRoot, 0, Unit);
      var s := new SporkSlot(leaf);
      s.promoted := true;
      front, back := s, s;
      tokens, disabled, spawned, entered := 0, false, [], 0;
      live, ran := [], [];
    }

    // ---------- the handler ----------

    /** `SporkSlot::promote`. */
    method Promote(slot: SporkSlot)
      requires tokens > 0 && !slot.promoted && slot !in ran
      requires FrameInv(slot.promfn) && Machine.Live(slot.promfn.pc) && !slot.promfn.promoted
      modifies this`tokens, this`spawned, this`ran, slot`promoted, slot`promfn
      ensures var p := Machine.Visit(old(slot.promfn), old(tokens), |old(spawned)|);
              slot.promfn == p.frame && tokens == p.tokens && spawned == old(spawned) + p.spawned
      ensures FrameInv(slot.promfn) && slot.promfn.promoted && slot.promfn.pc == old(slot.promfn.pc)
      ensures slot.promoted && ran == old(ran) + [slot]
    {
      PromoteKeepsFrame(slot.promfn, tokens, |spawned|);
      var p := Machine.Promote(slot.promfn, tokens, |spawned|);
      slot.promoted := true;
      slot.promfn := p.frame;
      tokens, spawned := p.tokens, spawned + p.spawned;
      ran := ran + [slot];
    }

    twostate lemma StillLinked()
      requires old(Linked()) && live == old(live) && back == old(back)
      requires front.next == old(front.next)
      requires forall s :: s in live ==> s.prev == old(s.prev) && s.next == old(s.next)
      ensures Linked()
    {
      forall k | 0 <= k < |live| ensures live[k].prev == Below(k) && Below(k).next == live[k] {
        assert live[k] in live && (k > 0 ==> live[k - 1] in live);
      }
    }

    /** The slot at `k` has just been promoted. */
    twostate lemma StillFlagged(k: nat)
      requires old(Flagged()) && NoDup(live) && front !in live && live == old(live) && k < |live|
      requires forall j :: 0 <= j < k ==> live[j].promoted
      requires !old(live[k].promoted) && live[k].promoted && ran == old(ran) + [live[k]]
      requires forall s :: s in live && s != live[k] ==> s.promoted == old(s.promoted)
      ensures Flagged()
    {
      assert live[k] in live && live[k] !in old(ran);
      forall j | 0 <= j < |live| && j != k ensures live[j].promoted == old(live[j].promoted) && live[j] != live[k] {
        assert live[j] in live;
      }
    }

    twostate lemma StillHandled(k: nat)
      requires old(Handlers()) && live == old(live) && k < |live|
      requires FrameInv(live[k].promfn) && Machine.Live(live[k].promfn.pc)
               && live[k].promfn.promoted == live[k].promoted
      requires forall s :: s in live && s != live[k] ==> s.promoted == old(s.promoted) && s.promfn == old(s.promfn)
      ensures Handlers()
    {
      forall j | 0 <= j < |live|
        ensures var f := live[j].promfn; FrameInv(f) && Machine.Live(f.pc) && f.promoted == live[j].promoted
      {
        assert live[j] in live;
      }
    }

    /** One turn of the loop in `promote_front`, at the `k`-th live slot. */
    method Visit(slot: SporkSlot, ghost k: nat)
      requires Valid() && tokens != 0 && k < |live| && slot == live[k]
      requires forall j :: 0 <= j < k ==> live[j].promoted
      modifies this`tokens, this`spawned, this`ran, slot`promoted, slot`promfn
      ensures Valid() && slot.promoted
      ensures var p := Machine.Visit(old(slot.promfn), old(tokens), |old(spawned)|);
              && slot.promfn == p.frame && tokens == p.tokens && spawned == old(spawned) + p.spawned
              && ran == old(ran) + if p.frame.promoted == old(slot.promfn).promoted then [] else [slot]
    {
      hide FrameInv; hide Machine.Promote; hide Machine.Live;
      if !slot.promoted {
        Promote(slot);
        hide Linked; hide Flagged; hide Handlers;
        StillLinked();
        StillFlagged(k);
        StillHandled(k);
      }
    }

    lemma WhereNext(k: nat)
      requires Linked() && NoDup(live) && k < |live|
      ensures live[k] == back <==> k == |live| - 1
      ensures k < |live| - 1 ==> live[k].next == live[k + 1]
    {
      assert Below(k + 1) == live[k];
    }

    lemma WhereFirst()
      requires Linked() && front !in live
      ensures front == back <==> live == []
      ensures live != [] ==> front.next == live[0]
    {
      assert Below(0) == front;
    }

    /** What a walk that began in `start` has done once it has visited `|done|` slots. */
    ghost predicate Walked(start: Start, done: seq<Machine.Frame>)
      reads this, live
    {
      && |done| <= |live| == |start.frames|
      && start.ran <= ran && start.spawned <= spawned
      && (forall s :: s in ran ==> s in start.ran || s in live)
      && (forall k :: 0 <= k < |done| ==> live[k].promoted && live[k].promfn == done[k])
      && (forall k :: |done| <= k < |live| ==> live[k].promfn == start.frames[k])
      && Machine.PromoteFront(start.frames, start.tokens, |start.spawned|)
         == Resume(done, Machine.PromoteFront(start.frames[|done|..], tokens, |spawned|),
                   spawned[|start.spawned|..], |ran| - |start.ran|)
    }

    /** One turn of the loop in `promote_front`. */
    method Turn(slot: SporkSlot, ghost start: Start, ghost done: seq<Machine.Frame>)
      requires Valid() && Walked(start, done) && |done| < |live| && slot == live[|done|] && tokens != 0
      modifies this`tokens, this`spawned, this`ran, slot`promoted, slot`promfn
      ensures Valid() && Walked(start, done + [slot.promfn])
      ensures slot.promoted
    {
      hide FrameInv; hide Machine.PromoteFront; hide Machine.Visit; hide Linked; hide Flagged; hide Handlers;
      ResumeVisit(done, start.frames[|done|..], tokens, |spawned|, spawned[|start.spawned|..], |ran| - |start.ran|);
      assert forall j :: 0 <= j < |live| && j != |done| ==> live[j] != slot;
      Visit(slot, |done|);
      assert start.frames[|done|..][1..] == start.frames[|done + [slot.promfn]|..];
    }

    /**
     `SporkSlot::promote_front`.  It visits live slots from the oldest on, stops
     only when the tokens are used up or the back slot has been visited, and
     never follows the `next` of the back slot, of which nothing is known.
     */
    method PromoteFront() returns (ghost visited: seq<SporkSlot>)
      requires Valid()
      modifies this`tokens, this`spawned, this`ran, live`promoted, live`promfn
      ensures Valid() && Settled(|live|)
      ensures old(ran) <= ran && forall s :: s in ran ==> s in old(ran) || s in live
      ensures visited <= live && (visited == live || tokens == 0)
      ensures var w := Machine.PromoteFront(old(Captured()), old(tokens), |old(spawned)|);
              && Captured() == w.stack && tokens == w.tokens
              && spawned == old(spawned) + w.spawned && |ran| == |old(ran)| + w.count
      ensures old(spawned) <= spawned
      ensures tokens + TokensOf(spawned[|old(spawned)|..]) + |ran| - |old(ran)| == old(tokens)
      ensures old(tokens) != 0 ==> forall k: nat :: old(IsOldest(k)) ==> live[k].promoted
    {
      hide FrameInv; hide Machine.PromoteFront; hide Linked; hide Flagged; hide Handlers; hide FramesOf; hide NoDup;
      hide IsOldest; hide TokensOf;
      OldestFrames();
      ghost var start, done := Start(Captured(), tokens, spawned, ran), [];
      WhereFirst();
      if front != back {
        done := Walk(front.next, start);
      }
      visited := live[..|done|];
      WalkDone(start, done);
      WalkLaws(start.frames, start.tokens, |start.spawned|);
      FramesFlags();
      assert spawned[|start.spawned|..]
          == Machine.PromoteFront(start.frames, start.tokens, |start.spawned|).spawned;
    }

    /** The loop of `promote_front`, from the first slot on. */
    method Walk(first: SporkSlot, ghost start: Start) returns (ghost done: seq<Machine.Frame>)
      requires Valid() && live != [] && first == live[0] && Walked(start, [])
      modifies this`tokens, this`spawned, this`ran, live`promoted, live`promfn
      ensures Valid() && Walked(start, done) && (tokens == 0 || |done| == |live|)
    {
      hide FrameInv; hide Machine.PromoteFront; hide Linked; hide Flagged; hide Handlers; hide FramesOf; hide NoDup;
      var slot := first;
      done := [];
      while tokens != 0
        invariant |done| < |live| && slot == live[|done|]
        invariant Valid() && Walked(start, done)
        decreases |live| - |done|
      {
        Turn(slot, start, done);
        done := done + [slot.promfn];
        WhereNext(|done| - 1);
        if slot == back { break; }
        slot := slot.next;
      }
    }

    /** The `k`-th live slot is the oldest one that is not promoted. */
    ghost predicate IsOldest(k: nat)
      reads this`live, live`promoted
    {
      k < |live| && !live[k].promoted && forall j :: 0 <= j < k ==> live[j].promoted
    }

    lemma CapturedFrame(k: nat)
      requires Handlers() && k < |live|
      ensures FrameInv(live[k].promfn)
    {
      hide FrameInv;
    }

    lemma OldestFrames()
      requires Handlers()
      ensures Frames(Captured()) && forall k: nat :: IsOldest(k) ==> OldestUnpromoted(Captured(), k)
    {
      hide FrameInv; hide Machine.Live;
    }

    lemma FramesFlags()
      requires Handlers()
      ensures forall k :: 0 <= k < |live| ==> Captured()[k].promoted == live[k].promoted
    {
      hide FrameInv; hide Machine.Live;
    }

    /** `heartbeat_handler`: on the slot chain it does what `Machine.Heartbeat` does to the stack. */
    method HeartbeatHandler()
      requires Valid()
      modifies this`tokens, this`spawned, this`ran, live`promoted, live`promfn
      ensures Valid() && (Settled(|live|) || tokens == old(tokens))
      ensures old(ran) <= ran && forall s :: s in ran ==> s in old(ran) || s in live
      ensures disabled ==> tokens == old(tokens) && ran == old(ran) && spawned == old(spawned)
      ensures old(spawned) <= spawned
      ensures !disabled ==> tokens + TokensOf(spawned[|old(spawned)|..]) + |ran| - |old(ran)| == 30
      ensures !disabled ==> forall k: nat :: old(IsOldest(k)) ==> live[k].promoted
      ensures !disabled ==>
                var w := Machine.PromoteFront(old(Captured()), Machine.Refilled(old(tokens)), |old(spawned)|);
                Captured() == w.stack && tokens == w.tokens && spawned == old(spawned) + w.spawned
    {
      hide FrameInv; hide Linked; hide Flagged; hide Handlers; hide Machine.PromoteFront; hide FramesOf; hide NoDup;
      hide IsOldest; hide Valid; hide Settled; hide TokensOf;
      if !disabled {
        Refill();
        ghost var visited := PromoteFront();
      }
    }

    /** A heartbeat's tokens, up to the limit. */
    method Refill()
      modifies this`tokens
      ensures tokens == 30 == Machine.Refilled(old(tokens))
    {
      tokens := tokens + Machine.TOKENS_PER_HEARTBEAT;
      if tokens > Machine.MAX_HEARTBEAT_TOKENS {
        tokens := Machine.MAX_HEARTBEAT_TOKENS;
      }
    }

    /** Any number of heartbeats, between two writes of the interrupted code. */
    method Interrupt()
      requires Valid()
      modifies this`tokens, this`spawned, this`ran, live`promoted, live`promfn
      ensures Valid() && (Settled(|live|) || tokens == old(tokens))
      ensures forall s :: s in live && old(s.promoted) ==> s.promoted
      ensures old(ran) <= ran && forall s :: s in ran ==> s in old(ran) || s in live
      ensures disabled ==> tokens == old(tokens) && ran == old(ran) && spawned == old(spawned)
      ensures forall k: nat :: old(IsOldest(k)) ==> live[k].promoted || tokens == old(tokens)
    {
      hide FrameInv; hide Linked; hide Handlers;
      var beats: nat := *;
      while beats > 0
        invariant Valid() && (Settled(|live|) || tokens == old(tokens))
        invariant forall s :: s in live && old(s.promoted) ==> s.promoted
        invariant old(ran) <= ran && forall s :: s in ran ==> s in old(ran) || s in live
        invariant disabled ==> tokens == old(tokens) && ran == old(ran) && spawned == old(spawned)
        invariant forall k: nat :: old(IsOldest(k)) ==> live[k].promoted || (tokens == old(tokens) && IsOldest(k))
      {
        HeartbeatHandler();
        beats := beats - 1;
      }
    }

    // ---------- with_prom_handler ----------

    /** `slot` is constructed but not yet in the chain. */
    ghost predicate Uncommitted(slot: SporkSlot)
      reads this`live, this`ran, slot`promoted, slot`promfn
    {
      && slot !in live && slot != front && slot !in ran
      && !slot.promoted && !slot.promfn.promoted && FrameInv(slot.promfn) && Machine.Live(slot.promfn.pc)
    }

    /** `*prev = this`: the chain itself does not change. */
    method Link(slot: SporkSlot)
      requires Valid() && Uncommitted(slot)
      modifies front`next, live`next
      ensures Valid() && back.next == slot
    {
      hide FrameInv; hide Flagged; hide Handlers;
      assert forall k :: 0 <= k < |live| ==> Below(k) != back;
      back.next := slot;
    }

    /** `spork_deque_back = &next`. */
    method Commit(slot: SporkSlot)
      requires Valid() && Uncommitted(slot) && slot.prev == back && back.next == slot
      modifies this`back, this`live
      ensures Valid() && live == old(live) + [slot]
    {
      hide FrameInv; hide Flagged; hide Handlers; hide Linked;
      back, live := slot, live + [slot];
      LinkedOneMore(slot);
      FlaggedOneMore(slot);
      assert forall k :: 0 <= k < |live| ==> live[k] == if k < |old(live)| then old(live)[k] else slot;
      HandledOneMore(slot);
    }

    twostate lemma LinkedOneMore(slot: SporkSlot)
      requires old(Linked()) && live == old(live) + [slot] && back == slot
      requires slot.prev == old(back) && old(back).next == slot
      requires front.next == old(front.next)
      requires forall s :: s in old(live) ==> s.prev == old(s.prev) && s.next == old(s.next)
      ensures Linked()
    {
      var n := |old(live)|;
      assert Below(n) == old(back) && Below(n + 1) == slot;
      forall k | 0 <= k < n ensures live[k].prev == Below(k) && Below(k).next == live[k] {
        assert live[k] == old(live)[k] && Below(k) == old(Below(k)) && (k > 0 ==> live[k - 1] in old(live));
      }
    }

    twostate lemma FlaggedOneMore(slot: SporkSlot)
      requires old(Flagged()) && live == old(live) + [slot] && ran == old(ran)
      requires !slot.promoted && slot !in ran
      requires forall s :: s in old(live) ==> s.promoted == old(s.promoted)
      ensures Flagged()
    {
      forall k | 0 <= k < |live| ensures live[k].promoted <==> live[k] in ran {
        assert k < |old(live)| ==> live[k] == old(live)[k];
      }
      forall j, k | 0 <= j < k < |live| && live[k].promoted ensures live[j].promoted {
        assert live[j] == old(live)[j] && live[k] == old(live)[k];
      }
    }

    twostate lemma HandledOneMore(slot: SporkSlot)
      requires old(Handlers()) && live == old(live) + [slot]
      requires FrameInv(slot.promfn) && Machine.Live(slot.promfn.pc) && slot.promfn.promoted == slot.promoted
      requires forall s :: s in old(live) ==> s.promoted == old(s.promoted) && s.promfn == old(s.promfn)
      ensures Handlers()
    {
      hide FrameInv;
      forall k | 0 <= k < |live|
        ensures var f := live[k].promfn; FrameInv(f) && Machine.Live(f.pc) && f.promoted == live[k].promoted
      {
        assert k < |old(live)| ==> live[k] == old(live)[k];
      }
    }

    /** `SporkSlot::SporkSlot`: the slot is in the chain only once `back` is written. */
    method Open(f: Machine.Frame) returns (slot: SporkSlot)
      requires Valid() && Settled(|live|)
      requires FrameInv(f) && Machine.Live(f.pc) && !f.promoted
      modifies this`back, this`live, this`tokens, this`spawned, this`ran, this`entered
      modifies front`next, live`next, live`promoted, live`promfn
      ensures Valid() && live == old(live) + [slot] && fresh(slot) && !slot.promoted
      ensures slot.promfn == f && entered == old(entered) + 1
      ensures Settled(|live| - 1)
      ensures old(ran) <= ran && forall s :: s in ran ==> s in old(ran) || s in old(live)
    {
      hide FrameInv; hide Linked; hide Flagged; hide Handlers; hide NoDup; hide Machine.Live; hide Valid;
      slot := new SporkSlot(f);
      Interrupt();
      slot.prev := back;
      Interrupt();
      Insert(slot);
      entered := entered + 1;
    }

    /** The last two writes of the constructor, with heartbeats between them. */
    method Insert(slot: SporkSlot)
      requires Valid() && Settled(|live|) && Uncommitted(slot) && slot.prev == back
      modifies this`back, this`live, this`tokens, this`spawned, this`ran
      modifies front`next, live`next, live`promoted, live`promfn
      ensures Valid() && live == old(live) + [slot] && slot.promoted == old(slot.promoted)
      ensures slot.promfn == old(slot.promfn) && Settled(|live| - 1)
      ensures old(ran) <= ran && forall s :: s in ran ==> s in old(ran) || s in old(live)
    {
      hide FrameInv; hide Linked; hide Flagged; hide Handlers; hide NoDup; hide Machine.Live; hide Valid;
      Link(slot);
      Interrupt();
      Commit(slot);
    }

    /** The guarded part of `eager_promote`: with heartbeats disabled, what was read stays true. */
    method PromoteBack(slot: SporkSlot)
      requires Valid() && live != [] && slot == live[|live| - 1] && Settled(|live| - 1) && disabled
      modifies this`tokens, this`spawned, this`ran, live`promoted, live`promfn
      ensures Valid() && Settled(|live|) && (old(tokens) != 0 || old(slot.promoted) ==> slot.promoted)
      ensures old(spawned) <= spawned
      ensures tokens + TokensOf(spawned[|old(spawned)|..]) + |ran| - |old(ran)| == old(tokens)
      ensures old(ran) <= ran && forall s :: s in ran ==> s in old(ran) || s in live
    {
      hide FrameInv; hide Linked; hide Flagged; hide Handlers; hide Machine.Visit; hide Machine.Live; hide NoDup;
      var held := tokens;
      Interrupt();
      if held != 0 {
        var promoted := slot.promoted;
        Interrupt();
        if !promoted {
          CapturedFrame(|live| - 1);
          VisitFacts(slot.promfn, tokens, |spawned|);
          ghost var p := Machine.Visit(slot.promfn, tokens, |spawned|);
          Visit(slot, |live| - 1);
          assert spawned[|old(spawned)|..] == p.spawned;
        }
      }
    }

    /** `SporkSlot::eager_promote`, which re-reads the tokens and the flag with heartbeats disabled. */
    method EagerPromote(slot: SporkSlot)
      requires Valid() && live != [] && slot == live[|live| - 1] && Settled(|live| - 1)
      modifies this`disabled, this`tokens, this`spawned, this`ran, live`promoted, live`promfn
      ensures Valid() && Settled(|live|) && disabled == old(disabled)
      ensures old(tokens) != 0 ==> slot.promoted
      ensures old(ran) <= ran && forall s :: s in ran ==> s in old(ran) || s in live
    {
      hide FrameInv; hide Linked; hide Flagged; hide Handlers;
      var before := disabled;
      assert !slot.promoted && tokens != 0 ==> IsOldest(|live| - 1);
      Interrupt();
      disabled := true;
      Interrupt();
      PromoteBack(slot);
      Interrupt();
      disabled := before;
    }

    /** `SporkSlot::close`; heartbeats may still come between leaving the chain and reading the flag. */
    method Close(slot: SporkSlot) returns (promoted: bool)
      requires Valid() && live != [] && slot == live[|live| - 1] && Settled(|live|)
      modifies this`back, this`live, this`tokens, this`spawned, this`ran, live`promoted, live`promfn
      ensures Valid() && live == old(live)[..|old(live)| - 1] && Settled(|live|)
      ensures promoted <==> slot in ran
      ensures old(ran) <= ran && forall s :: s in ran ==> s in old(ran) || s in old(live)
    {
      hide FrameInv; hide Linked; hide Flagged; hide Handlers;
      Interrupt();
      Unlink(slot);
      Interrupt();
      promoted := slot.promoted;
    }

    /** `spork_deque_back = prev`: the slot below becomes the back, with a `next` that is now stale. */
    method Unlink(slot: SporkSlot)
      requires Valid() && live != [] && slot == live[|live| - 1]
      modifies this`back, this`live
      ensures Valid() && live == old(live)[..|old(live)| - 1] && slot !in live
      ensures old(Settled(|live|)) ==> Settled(|live|)
      ensures slot.promoted <==> slot in ran
    {
      hide FrameInv; hide Linked; hide Flagged; hide Handlers;
      Back();
      back, live := slot.prev, live[..|live| - 1];
      LinkedOneFewer();
      FlaggedOneFewer();
      HandledOneFewer();
    }

    /** The back slot: what it links to and what its flag says. */
    lemma Back()
      requires Valid() && live != []
      ensures var slot := live[|live| - 1];
              slot.prev == Below(|live| - 1) && (slot.promoted <==> slot in ran) && slot !in live[..|live| - 1]
    {
    }

    twostate lemma LinkedOneFewer()
      requires old(Linked()) && old(live) != [] && live == old(live)[..|old(live)| - 1]
      requires back == old(Below(|live| - 1)) && front.next == old(front.next)
      requires forall s :: s in live ==> s.prev == old(s.prev) && s.next == old(s.next)
      ensures Linked()
    {
      assert forall k :: 0 <= k <= |live| ==> Below(k) == old(Below(k));
      forall k | 0 <= k < |live| ensures live[k].prev == Below(k) && Below(k).next == live[k] {
        assert live[k] == old(live)[k] && live[k] in live && (k > 0 ==> live[k - 1] in live);
      }
    }

    twostate lemma FlaggedOneFewer()
      requires old(Flagged()) && old(live) != [] && live == old(live)[..|old(live)| - 1] && ran == old(ran)
      requires forall s :: s in live ==> s.promoted == old(s.promoted)
      ensures Flagged()
    {
      forall k | 0 <= k < |live| ensures live[k] == old(live)[k] && live[k].promoted == old(live[k].promoted) {
        assert live[k] in live;
      }
    }

    twostate lemma HandledOneFewer()
      requires old(Handlers()) && old(live) != [] && live == old(live)[..|old(live)| - 1]
      requires forall s :: s in live ==> s.promoted == old(s.promoted) && s.promfn == old(s.promfn)
      ensures Handlers()
    {
      hide FrameInv;
      forall k | 0 <= k < |live| ensures live[k] == old(live)[k] && live[k].promfn == old(live[k].promfn) {
        assert live[k] in live;
      }
    }

    /**
     `with_prom_handler`, with heartbeats between any two of its steps and
     anywhere in its body.  It returns whether the slot's callback ran, which
     happened at most once (`ran` never holds a slot twice); it leaves the chain
     as it was, and with tokens left only if every live slot is promoted.
     */
    method WithPromHandler(c: Call) returns (promoted: bool, slot: SporkSlot)
      requires Valid() && Settled(|live|) && Ready(c)
      modifies this`back, this`live, this`disabled, this`tokens, this`spawned, this`ran, this`entered
      modifies front`next, live`next, live`promoted, live`promfn
      ensures Valid() && live == old(live) && Settled(|live|) && disabled == old(disabled)
      ensures fresh(slot) && (promoted <==> slot in ran)
      ensures entered == old(entered) + CallCount(c)
      ensures old(ran) <= ran && forall s :: s in ran ==> s in old(ran) || s in live || fresh(s)
      decreases c, 0
    {
      hide FrameInv; hide Linked; hide Flagged; hide Handlers; hide NoDup; hide Valid; hide Machine.Live;
      var s := Open(c.promfn);
      Interrupt();
      if tokens != 0 { EagerPromote(s); }
      Body(c.body);
      promoted := Close(s);
      slot := s;
    }

    /** The body of a call: any number of nested calls, one after the other. */
    method Body(calls: seq<Call>)
      requires Valid() && Settled(|live|) && forall k :: 0 <= k < |calls| ==> Ready(calls[k])
      modifies this`back, this`live, this`disabled, this`tokens, this`spawned, this`ran, this`entered
      modifies front`next, live`next, live`promoted, live`promfn
      ensures Valid() && live == old(live) && Settled(|live|) && disabled == old(disabled)
      ensures entered == old(entered) + BodyCount(calls)
      ensures old(ran) <= ran && forall s :: s in ran ==> s in old(ran) || s in live || fresh(s)
      decreases calls, 1
    {
      hide FrameInv; hide Linked; hide Flagged; hide Handlers;
      Interrupt();
      for k := 0 to |calls|
        invariant Valid() && live == old(live) && Settled(|live|) && disabled == old(disabled)
        invariant entered == old(entered) + BodyCount(calls[..k])
        invariant old(ran) <= ran && forall s :: s in ran ==> s in old(ran) || s in live || fresh(s)
      {
        assert calls[..k + 1][..k] == calls[..k];
        var promoted, inner := WithPromHandler(calls[k]);
        Interrupt();
      }
      assert calls[..|calls|] == calls;
    }

    lemma WalkDone(start: Start, done: seq<Machine.Frame>)
      requires Walked(start, done) && (tokens == 0 || |done| == |live|)
      ensures var w := Machine.PromoteFront(start.frames, start.tokens, |start.spawned|);
              && Captured() == w.stack && tokens == w.tokens
              && spawned == start.spawned + w.spawned && |ran| == |start.ran| + w.count
    {
      hide Machine.PromoteFront;
      WalkOver(start.frames[|done|..], tokens, |spawned|);
    }
  }

  /** A thread when a walk begins. */
  datatype Start = Start(frames: seq<Machine.Frame>, tokens: nat, spawned: seq<Machine.Spawn>, ran: seq<SporkSlot>)

  /** What a walk keeps of the tokens, and what it promotes for sure. */
  lemma WalkLaws(frames: seq<Machine.Frame>, tokens: nat, next: nat)
    requires Frames(frames)
    ensures var w := Machine.PromoteFront(frames, tokens, next);
            && |w.stack| == |frames| && w.tokens + TokensOf(w.spawned) + w.count == tokens
            && (tokens != 0 ==> forall k: nat :: OldestUnpromoted(frames, k) ==> w.stack[k].promoted)
  {
    hide Machine.PromoteFront; hide OldestUnpromoted; hide FrameInv;
    WalkTokens(frames, tokens, next);
    WalkBumps(frames, tokens, next);
    hide Bumped;
    forall k: nat | tokens != 0 && OldestUnpromoted(frames, k)
      ensures k < |frames| && Machine.PromoteFront(frames, tokens, next).stack[k].promoted
    {
      WalkOldest(frames, tokens, next, k);
      OldestInRange(frames, k);
    }
  }

  lemma OldestInRange(frames: seq<Machine.Frame>, k: nat)
    requires OldestUnpromoted(frames, k)
    ensures k < |frames|
  {
  }

  lemma WalkOver(rest: seq<Machine.Frame>, tokens: nat, next: nat)
    ensures rest == [] || tokens == 0 ==> Machine.PromoteFront(rest, tokens, next) == Machine.Walk(rest, tokens, [], 0)
  {
  }

  /** The walk after its first part: `done` visited, `rest` still to come. */
  function Resume(done: seq<Machine.Frame>, rest: Machine.Walk, spawned: seq<Machine.Spawn>, count: nat): Machine.Walk {
    Machine.Walk(done + rest.stack, rest.tokens, spawned + rest.spawned, count + rest.count)
  }

  lemma ResumeVisit(done: seq<Machine.Frame>, rest: seq<Machine.Frame>, tokens: nat, next: nat,
                    spawned: seq<Machine.Spawn>, count: nat)
    requires rest != [] && tokens != 0
    ensures var p := Machine.Visit(rest[0], tokens, next);
            Resume(done, Machine.PromoteFront(rest, tokens, next), spawned, count)
            == Resume(done + [p.frame], Machine.PromoteFront(rest[1..], p.tokens, next + |p.spawned|),
                      spawned + p.spawned,
                      count + if p.frame.promoted == rest[0].promoted then 0 else 1)
  {
    hide Machine.Visit;
    var p := Machine.Visit(rest[0], tokens, next);
    var w := Machine.PromoteFront(rest[1..], p.tokens, next + |p.spawned|);
    assert done + ([p.frame] + w.stack) == (done + [p.frame]) + w.stack;
    assert spawned + (p.spawned + w.spawned) == (spawned + p.spawned) + w.spawned;
  }
}
