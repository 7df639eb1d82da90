/** `formBatchedLoop` as the sequence of updates it makes to the blocks of a function. */
module FableRewrite {
  import opened LoopIR
  import opened OriginalLoop
  import opened Fable

  function MapLabel(m: map<Label, Label>, l: Label): Label {
    if l in m then m[l] else l
  }

  function MapBank(m: map<Label, Label>, b: Bank): Bank {
    match b
    case Phis(at) => Phis(MapLabel(m, at))
    case Locals(at) => Locals(MapLabel(m, at))
    case _ => b
  }

  function MapOperand(m: map<Label, Label>, o: Operand): Operand {
    if o.Elem? then Elem(MapBank(m, o.bank), o.k) else o
  }

  function MapOperands(m: map<Label, Label>, os: seq<Operand>): seq<Operand> {
    seq(|os|, k requires 0 <= k < |os| => MapOperand(m, os[k]))
  }

  function MapOp(m: map<Label, Label>, op: Op): Op {
    match op
    case Iterate(at, inputs) => Iterate(MapLabel(m, at), MapOperands(m, inputs))
    case Publish(v) => Publish(MapOperand(m, v))
    case Guard(base, count) => Guard(MapOperand(m, base), count)
    case _ => op
  }

  function MapTerm(m: map<Label, Label>, t: Term): Term {
    match t
    case Br(to) => Br(MapLabel(m, to))
    case CondBr(yes, no) => CondBr(MapLabel(m, yes), MapLabel(m, no))
    case Ret => Ret
  }

  function CloneMap(): map<Label, Label> {
    map[Preheader := CleanupPreheader, Header := CleanupHeader]
  }

  /** The blocks of one function of the module being compiled. */
  class Code {
    var blocks: Cfg

    constructor (blocks: Cfg)
      ensures this.blocks == blocks
    {
      this.blocks := blocks;
    }

    /** The PHI nodes of `row`, with blocks and values renamed by `m`. */
    method CloneRow(row: Row, m: map<Label, Label>) returns (r: Row)
      requires forall a, b :: a in row.incoming && b in row.incoming && MapLabel(m, a) == MapLabel(m, b) ==> a == b
      ensures r.bank == MapBank(m, row.bank)
      ensures forall l :: l in row.incoming ==>
                            MapLabel(m, l) in r.incoming
                            && r.incoming[MapLabel(m, l)] == MapOperands(m, row.incoming[l])
      ensures forall x :: x in r.incoming ==> exists l :: l in row.incoming && MapLabel(m, l) == x
    {
      var todo := row.incoming.Keys;
      var incoming := map[];
      while todo != {}
        invariant todo <= row.incoming.Keys
        invariant forall l :: l in row.incoming && l !in todo ==>
                                MapLabel(m, l) in incoming
                                && incoming[MapLabel(m, l)] == MapOperands(m, row.incoming[l])
        invariant forall x :: x in incoming ==> exists l :: l in row.incoming && l !in todo && MapLabel(m, l) == x
        decreases |todo|
      {
        var l :| l in todo;
        incoming := incoming[MapLabel(m, l) := MapOperands(m, row.incoming[l])];
        todo := todo - {l};
      }
      r := Row(MapBank(m, row.bank), incoming);
    }

    /** `CloneBasicBlock` and `RemapInstruction` for a block with one row of PHI nodes. */
    method CloneBlock(b: Block, m: map<Label, Label>) returns (c: Block)
      requires |b.rows| == 1
      requires var from := b.rows[0].incoming;
               forall x, y :: x in from && y in from && MapLabel(m, x) == MapLabel(m, y) ==> x == y
      ensures |c.rows| == 1 && c.rows[0].bank == MapBank(m, b.rows[0].bank)
      ensures forall l :: l in b.rows[0].incoming ==>
                            && MapLabel(m, l) in c.rows[0].incoming
                            && c.rows[0].incoming[MapLabel(m, l)] == MapOperands(m, b.rows[0].incoming[l])
      ensures forall x :: x in c.rows[0].incoming ==> exists l :: l in b.rows[0].incoming && MapLabel(m, l) == x
      ensures |c.ops| == |b.ops| && forall k :: 0 <= k < |c.ops| ==> c.ops[k] == MapOp(m, b.ops[k])
      ensures c.term == MapTerm(m, b.term)
    {
      var row := CloneRow(b.rows[0], m);
      var ops := [];
      for k := 0 to |b.ops|
        invariant |ops| == k && forall j :: 0 <= j < k ==> ops[j] == MapOp(m, b.ops[j])
      {
        ops := ops + [MapOp(m, b.ops[k])];
      }
      c := Block([row], ops, MapTerm(m, b.term));
    }

    /** 1. The untouched loop becomes the cleanup loop. */
    method CloneCleanup(p: Protocol)
      requires Accepted(p) && Header in blocks && blocks[Header] == ScalarBlock(p, Header, Preheader, Consts(p.init))
      modifies this
      ensures blocks == old(blocks)[CleanupHeader := ScalarBlock(p, CleanupHeader, CleanupPreheader, Consts(p.init))]
    {
      AcceptedShape(p);
      var b := blocks[Header];
      var c := CloneBlock(b, CloneMap());
      ClonedScalar(p, b, c);
      blocks := blocks[CleanupHeader := c];
    }

    /** 2. One outer PHI per header PHI, and the guard of a full batch. */
    method AddBatchHeader(p: Protocol, k: pos) returns (outer: seq<Operand>)
      requires p.ind < |p.init|
      modifies this
      ensures outer == PhiOf(BatchHeader, |p.init|)
      ensures blocks == old(blocks)[BatchHeader := Block([Row(Phis(BatchHeader), map[Preheader := Consts(p.init)])],
                                                         [Guard(Elem(Phis(BatchHeader), p.ind), k)],
                                                         CondBr(Header, CleanupPreheader))]
    {
      var inits := [];
      outer := [];
      for i := 0 to |p.init|
        invariant |outer| == |inits| == i
        invariant forall j :: 0 <= j < i ==> outer[j] == Elem(Phis(BatchHeader), j) && inits[j] == Const(p.init[j])
      {
        outer, inits := outer + [Elem(Phis(BatchHeader), i)], inits + [Const(p.init[i])];
      }
      assert inits == Consts(p.init);
      blocks := blocks[BatchHeader := Block([Row(Phis(BatchHeader), map[Preheader := inits])],
                                            [Guard(outer[p.ind], k)], CondBr(Header, CleanupPreheader))];
    }

    /** 3. The guard of the cleanup loop, which then starts from copies of the outer PHIs. */
    method AddCleanupPreheader(p: Protocol, outer: seq<Operand>)
      requires p.ind < |p.init| == |p.latch| && outer == PhiOf(BatchHeader, |p.init|)
      requires CleanupHeader in blocks
      requires blocks[CleanupHeader] == ScalarBlock(p, CleanupHeader, CleanupPreheader, Consts(p.init))
      modifies this
      ensures blocks == old(blocks)[CleanupPreheader := GuardBlock(p)]
                        [CleanupHeader := ScalarBlock(p, CleanupHeader, CleanupPreheader,
                                                      PhiOf(CleanupPreheader, |p.init|))]
    {
      var resume := [];
      for i := 0 to |outer|
        invariant |resume| == i && forall j :: 0 <= j < i ==> resume[j] == Elem(Phis(CleanupPreheader), j)
      {
        resume := resume + [Elem(Phis(CleanupPreheader), i)];
      }
      assert resume == PhiOf(CleanupPreheader, |p.init|);
      blocks := blocks[CleanupPreheader := Block([Row(Phis(CleanupPreheader), map[BatchHeader := outer])],
                                                 [Guard(resume[p.ind], 1)], CondBr(CleanupHeader, Exit))];
      var b := blocks[CleanupHeader];
      var row := b.rows[0].(incoming := b.rows[0].incoming[CleanupPreheader := resume]);
      assert row == ScalarBlock(p, CleanupHeader, CleanupPreheader, resume).rows[0];
      blocks := blocks[CleanupHeader := b.(rows := [row])];
    }

    /** 4. Exit PHIs come from the cleanup latch or from the cleanup guard. */
    method RedirectExit(p: Protocol)
      requires Accepted(p) && Exit in blocks
      requires blocks[Exit] == Block([Row(Phis(Exit), map[Header := LocAll(Header, p.exits)])], [], Ret)
      modifies this
      ensures blocks == old(blocks)[Exit := Block([ExitRow(p)], [], Ret)]
    {
      var was := blocks[Exit].rows[0].incoming[Header];
      var fromCleanup, fromGuard := [], [];
      for j := 0 to |was|
        invariant |fromCleanup| == |fromGuard| == j && blocks == old(blocks)
        invariant forall i :: 0 <= i < j ==> fromCleanup[i] == LocAll(CleanupHeader, p.exits)[i]
        invariant forall i :: 0 <= i < j ==> fromGuard[i] == FromGuard(p)[i]
      {
        fromCleanup := fromCleanup + [MapOperand(CloneMap(), was[j])];
        if was[j].Const? {
          fromGuard := fromGuard + [was[j]];
        } else {
          var i := FindLatch(p, was[j], p.exits[j]);
          fromGuard := fromGuard + [Elem(Phis(CleanupPreheader), i)];
        }
      }
      assert fromCleanup == LocAll(CleanupHeader, p.exits);
      assert fromGuard == FromGuard(p);
      assert map[CleanupHeader := fromCleanup, CleanupPreheader := fromGuard] == ExitRow(p).incoming;
      var row := Row(Phis(Exit), map[CleanupHeader := fromCleanup, CleanupPreheader := fromGuard]);
      blocks := blocks[Exit := Block([row], [], Ret)];
    }

    /** The first header PHI whose latch input is the value `o` of the loop. */
    method FindLatch(p: Protocol, o: Operand, ghost s: Source) returns (i: nat)
      requires s in p.latch && o == Loc(Header, s)
      ensures i == FirstLatch(p.latch, s)
    {
      i := 0;
      while Loc(Header, p.latch[i]) != o
        invariant i <= FirstLatch(p.latch, s) < |p.latch|
        decreases |p.latch| - i
      {
        FirstLatchAfter(p.latch, s, i);
        i := i + 1;
      }
      FirstLatchAt(p.latch, s, i);
    }

    /** 5. The inner loop is entered from the batch header. */
    method EnterFromBatch(p: Protocol, outer: seq<Operand>)
      requires p.ind < |p.latch| && Preheader in blocks && Header in blocks
      requires blocks[Preheader] == Block([], [], Br(Header))
      requires blocks[Header] == ScalarBlock(p, Header, Preheader, Consts(p.init))
      modifies this
      ensures blocks == old(blocks)[Preheader := Block([], [], Br(BatchHeader))]
                        [Header := ScalarBlock(p, Header, BatchHeader, outer)]
    {
      blocks := blocks[Preheader := blocks[Preheader].(term := Br(BatchHeader))];
      var b := blocks[Header];
      var incoming := (b.rows[0].incoming - {Preheader})[BatchHeader := outer];
      assert incoming == ScalarBlock(p, Header, BatchHeader, outer).rows[0].incoming;
      blocks := blocks[Header := b.(rows := [b.rows[0].(incoming := incoming)])];
    }

    /** 6. A counter makes the inner loop's trip count constant; the old exit condition goes. */
    method CountIterations(p: Protocol, k: pos, outer: seq<Operand>) returns (progress: Op)
      requires p.ind < |p.latch| && Header in blocks && outer == PhiOf(BatchHeader, |p.init|)
      requires blocks[Header] == ScalarBlock(p, Header, BatchHeader, outer)
      modifies this
      ensures progress == Publish(Loc(Header, p.latch[p.ind]))
      ensures blocks == old(blocks)[Header := InnerBlock(p, k)]
    {
      var b := blocks[Header];
      var counter := Row(Counter, map[BatchHeader := [Const(0)], Header := [Elem(CounterNext, 0)]]);
      progress := b.ops[1];
      var ops := [b.ops[0], Increment, CounterBelow(k)];
      blocks := blocks[Header := Block([counter] + b.rows, ops, CondBr(Header, BatchLatch))];
      assert blocks[Header].rows == InnerBlock(p, k).rows;
    }

    /** 7. The batch latch publishes the progress once and closes the outer loop. */
    method AddBatchLatch(p: Protocol, k: pos)
      requires p.ind < |p.latch| == |p.init| && BatchHeader in blocks
      requires blocks[BatchHeader] == Block([Row(Phis(BatchHeader), map[Preheader := Consts(p.init)])],
                                            [Guard(Elem(Phis(BatchHeader), p.ind), k)],
                                            CondBr(Header, CleanupPreheader))
      modifies this
      ensures blocks == old(blocks)[BatchLatch := LatchBlock(p)][BatchHeader := OuterBlock(p, k)]
    {
      var lcssa, received := [], [];
      for i := 0 to |p.latch|
        invariant |lcssa| == |received| == i
        invariant forall j :: 0 <= j < i ==> lcssa[j] == Lcssa(p)[j] && received[j] == Loc(Header, p.latch[j])
      {
        var v := Loc(Header, p.latch[i]);
        received := received + [v];
        if v.Elem? {
          v := Elem(Phis(BatchLatch), i);
        }
        lcssa := lcssa + [v];
      }
      assert lcssa == Lcssa(p);
      assert received == LocAll(Header, p.latch);
      blocks := blocks[BatchLatch := Block([Row(Phis(BatchLatch), map[Header := received])],
                                           [Publish(lcssa[p.ind])], Br(BatchHeader))];
      var b := blocks[BatchHeader];
      var incoming := b.rows[0].incoming[BatchLatch := lcssa];
      blocks := blocks[BatchHeader := b.(rows := [b.rows[0].(incoming := incoming)])];
    }

    /** `formBatchedLoop`. */
    method FormBatchedLoop(p: Protocol, k: pos)
      requires Accepted(p) && blocks == OriginalCfg(p)
      modifies this
      ensures blocks == BatchedCfg(p, k)
    {
      AcceptedShape(p);
      hide ScalarBlock; hide OuterBlock; hide InnerBlock; hide LatchBlock; hide GuardBlock; hide ExitRow; hide Accepted;
      hide PhiOf; hide LocAll; hide Consts;
      OriginalBlocks(p);
      hide OriginalCfg; hide BatchedCfg;
      CloneCleanup(p);
      var outer := AddBatchHeader(p, k);
      AddCleanupPreheader(p, outer);
      RedirectExit(p);
      EnterFromBatch(p, outer);
      var progress := CountIterations(p, k, outer);
      AddBatchLatch(p, k);
      SameBlocks(p, k, blocks);
    }
  }

  lemma SameBlocks(p: Protocol, k: pos, cfg: Cfg)
    requires p.ind < |p.latch| && IsBatched(p, k, cfg)
    requires cfg.Keys <= {Preheader, BatchHeader, Header, BatchLatch, CleanupPreheader, CleanupHeader, Exit}
    ensures cfg == BatchedCfg(p, k)
  {
    hide ScalarBlock; hide OuterBlock; hide InnerBlock; hide LatchBlock; hide GuardBlock; hide ExitRow;
  }

  lemma {:induction false} FirstLatchAfter(latch: seq<Source>, s: Source, i: nat)
    requires i <= FirstLatch(latch, s) < |latch| && latch[i] != s
    ensures i < FirstLatch(latch, s)
  {
    assert latch[FirstLatch(latch, s)] == s;
  }

  lemma {:induction false} FirstLatchAt(latch: seq<Source>, s: Source, i: nat)
    requires i <= FirstLatch(latch, s) < |latch| && latch[i] == s
    ensures i == FirstLatch(latch, s)
    decreases |latch|
  {
    if latch[0] != s {
      FirstLatchAt(latch[1..], s, i - 1);
    }
  }

  /** A renamed copy of the loop is the loop in its new blocks. */
  lemma ClonedScalar(p: Protocol, b: Block, c: Block)
    requires p.ind < |p.latch| && b == ScalarBlock(p, Header, Preheader, Consts(p.init))
    requires |c.rows| == 1 && c.rows[0].bank == MapBank(CloneMap(), b.rows[0].bank)
    requires forall l :: l in b.rows[0].incoming ==>
                           && MapLabel(CloneMap(), l) in c.rows[0].incoming
                           && c.rows[0].incoming[MapLabel(CloneMap(), l)]
                              == MapOperands(CloneMap(), b.rows[0].incoming[l])
    requires forall x :: x in c.rows[0].incoming ==> exists l :: l in b.rows[0].incoming && MapLabel(CloneMap(), l) == x
    requires |c.ops| == |b.ops| && forall k :: 0 <= k < |c.ops| ==> c.ops[k] == MapOp(CloneMap(), b.ops[k])
    requires c.term == MapTerm(CloneMap(), b.term)
    ensures c == ScalarBlock(p, CleanupHeader, CleanupPreheader, Consts(p.init))
  {
    var d := ScalarBlock(p, CleanupHeader, CleanupPreheader, Consts(p.init));
    assert MapOperands(CloneMap(), Consts(p.init)) == Consts(p.init);
    assert MapOperands(CloneMap(), LocAll(Header, p.latch)) == LocAll(CleanupHeader, p.latch);
    assert MapOperands(CloneMap(), PhiOf(Header, |p.init|)) == PhiOf(CleanupHeader, |p.init|);
    var inc := b.rows[0].incoming;
    assert Preheader in inc && Header in inc;
    assert c.rows[0].incoming == d.rows[0].incoming;
    assert c.ops == d.ops;
    assert c.rows == d.rows;
  }
}
