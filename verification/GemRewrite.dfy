/** `formBatchedLoopWithCleanup` as the sequence of updates it makes to the unrolled loop. */
module GemRewrite {
  import opened LoopIR
  import opened OriginalLoop
  import opened FableRewrite
  import opened Gem

  /** The chain of clones while its checks and stores are being erased: those below `unchecked`
      have lost their bound load and exit, those below `silent` their store too. */
  ghost predicate Erasing(p: Protocol, count: pos, cfg: Cfg, unchecked: nat, silent: nat)
    requires p.ind < |p.latch|
  {
    forall c: nat :: c < count && c != count - 1 ==>
                       && Clone(c) in cfg
                       && cfg[Clone(c)] ==
                          if c < silent then SilentClone(p, count, c)
                          else if c < unchecked then UncheckedClone(p, count, c)
                          else CheckedClone(p, count, c)
  }

  function UncheckedClone(p: Protocol, count: pos, c: nat): Block
    requires p.ind < |p.latch|
  {
    Block(ChainRows(p, count, c), [Iterate(Clone(c), Inputs(p, c)), Publish(Outputs(p, c)[p.ind])], Br(Clone(c + 1)))
  }

  /** All other blocks of the rewritten function. */
  ghost predicate Framed(p: Protocol, count: pos, cfg: Cfg)
    requires p.ind < |p.latch| == |p.init|
  {
    && Preheader in cfg
    && cfg[Preheader] == Block([], [Guard(Const(p.init[p.ind]), count)], CondBr(Clone(0), CleanupPreheader))
    && CleanupPreheader in cfg && cfg[CleanupPreheader] == StartBlock(p, count)
    && CleanupHeader in cfg
    && cfg[CleanupHeader] == ScalarBlock(p, CleanupHeader, CleanupPreheader, PhiOf(CleanupPreheader, |p.init|))
    && Exit in cfg && cfg[Exit] == Block([NoExitPhis()], [], Ret)
  }

  ghost predicate LastDone(p: Protocol, count: pos, cfg: Cfg)
    requires p.ind < |p.latch|
  {
    LastClone(count) in cfg && cfg[LastClone(count)] == FinalClone(p, count)
  }

  /** One more clone has lost its check, or its store. */
  lemma ErasedOne(p: Protocol, count: pos, cfg: Cfg, unchecked: nat, silent: nat, c: nat, b: Block)
    requires p.ind < |p.latch| == |p.init| && Framed(p, count, cfg) && LastDone(p, count, cfg) && c + 1 < count
    requires Erasing(p, count, cfg, unchecked, silent)
    ensures Framed(p, count, cfg[Clone(c) := b]) && LastDone(p, count, cfg[Clone(c) := b])
    ensures c == unchecked && silent == 0 && b == UncheckedClone(p, count, c) ==>
              Erasing(p, count, cfg[Clone(c) := b], unchecked + 1, 0)
    ensures unchecked == count && c == silent && b == SilentClone(p, count, c) ==>
              Erasing(p, count, cfg[Clone(c) := b], count, silent + 1)
  {
    hide StartBlock; hide ScalarBlock; hide FinalClone; hide SilentClone; hide UncheckedClone; hide CheckedClone;
  }

  lemma AllErased(p: Protocol, count: pos, cfg: Cfg)
    requires p.ind < |p.latch| == |p.init| && Framed(p, count, cfg) && LastDone(p, count, cfg)
    requires Erasing(p, count, cfg, count, count - 1)
    ensures IsGem(p, count, cfg)
  {
    hide StartBlock; hide ScalarBlock; hide FinalClone; hide SilentClone; hide UncheckedClone; hide CheckedClone;
  }

  lemma UnrolledBlocks(p: Protocol, count: pos)
    requires p.ind < |p.latch|
    ensures Erasing(p, count, UnrolledCfg(p, count), 0, 0)
    ensures var cfg := UnrolledCfg(p, count);
            && LastClone(count) in cfg && cfg[LastClone(count)] == CheckedClone(p, count, count - 1)
            && Clone(0) in cfg && cfg[Clone(0)].rows == [ChainRow(p, count)]
            && Preheader in cfg && cfg[Preheader] == Block([], [], Br(Clone(0)))
            && Exit in cfg && cfg[Exit] == Block([NoExitPhis()], [], Ret)
  {
    hide CheckedClone;
    forall c: nat | c < count
      ensures Clone(c) in UnrolledCfg(p, count) && UnrolledCfg(p, count)[Clone(c)] == CheckedClone(p, count, c)
    {
      assert Clone(c) in Clones(count);
    }
    hide UnrolledCfg;
    FirstClone(p, count);
  }

  lemma FirstClone(p: Protocol, count: pos)
    requires p.ind < |p.latch|
    ensures CheckedClone(p, count, 0).rows == [ChainRow(p, count)]
  {
    hide ChainRow;
  }

  /** The cleanup loop starts from the initial or from the last clone's values, if one iteration fits. */
  method InsertCleanup(code: Code, p: Protocol, count: pos, cleanup: Block)
    requires p.ind < |p.latch| == |p.init|
    requires Clone(0) in code.blocks && code.blocks[Clone(0)].rows == [ChainRow(p, count)]
    requires cleanup == ScalarBlock(p, CleanupHeader, Preheader, Consts(p.init))
    modifies code
    ensures code.blocks == old(code.blocks)[CleanupPreheader := StartBlock(p, count)]
                           [CleanupHeader := ScalarBlock(p, CleanupHeader, CleanupPreheader,
                                                         PhiOf(CleanupPreheader, |p.init|))]
  {
    var chain := code.blocks[Clone(0)].rows[0];
    var initials, finals := chain.incoming[Preheader], chain.incoming[LastClone(count)];
    var starts := [];
    for i := 0 to |p.init|
      invariant |starts| == i && forall j :: 0 <= j < i ==> starts[j] == Elem(Phis(CleanupPreheader), j)
    {
      starts := starts + [Elem(Phis(CleanupPreheader), i)];
    }
    assert starts == PhiOf(CleanupPreheader, |p.init|);
    var row := Row(Phis(CleanupPreheader), map[Preheader := initials, LastClone(count) := finals]);
    var guard := Block([row], [Guard(starts[p.ind], 1)], CondBr(CleanupHeader, Exit));
    code.blocks := code.blocks[CleanupPreheader := guard];
    var incoming := (cleanup.rows[0].incoming - {Preheader})[CleanupPreheader := starts];
    assert incoming == map[CleanupPreheader := starts, CleanupHeader := LocAll(CleanupHeader, p.latch)];
    code.blocks := code.blocks[CleanupHeader := cleanup.(rows := [cleanup.rows[0].(incoming := incoming)])];
  }

  /** The first `count - 1` checks go, with their volatile loads. */
  method EraseChecks(code: Code, p: Protocol, count: pos)
    requires p.ind < |p.latch| == |p.init| && Framed(p, count, code.blocks) && Erasing(p, count, code.blocks, 0, 0)
    requires LastDone(p, count, code.blocks)
    modifies code
    ensures Framed(p, count, code.blocks) && Erasing(p, count, code.blocks, count, 0)
    ensures LastDone(p, count, code.blocks)
  {
    hide Framed; hide LastDone; hide ChainRows; hide Inputs; hide Outputs;
    for c := 0 to count - 1
      invariant Framed(p, count, code.blocks) && Erasing(p, count, code.blocks, c, 0)
      invariant LastDone(p, count, code.blocks)
    {
      var b := code.blocks[Clone(c)];
      var b' := Block(b.rows, [b.ops[0], b.ops[1]], Br(b.term.yes));
      assert b' == UncheckedClone(p, count, c);
      ErasedOne(p, count, code.blocks, c, 0, c, b');
      hide Erasing;
      code.blocks := code.blocks[Clone(c) := b'];
    }
  }

  /** Every store but the last goes. */
  method EraseStores(code: Code, p: Protocol, count: pos)
    requires p.ind < |p.latch| == |p.init| && Framed(p, count, code.blocks) && Erasing(p, count, code.blocks, count, 0)
    requires LastDone(p, count, code.blocks)
    modifies code
    ensures IsGem(p, count, code.blocks)
  {
    hide Framed; hide LastDone; hide ChainRows; hide Inputs; hide Outputs;
    for c := 0 to count - 1
      invariant Framed(p, count, code.blocks) && Erasing(p, count, code.blocks, count, c)
      invariant LastDone(p, count, code.blocks)
    {
      var b := code.blocks[Clone(c)];
      var b' := b.(ops := [b.ops[0]]);
      assert b' == SilentClone(p, count, c);
      ErasedOne(p, count, code.blocks, count, c, c, b');
      hide Erasing;
      code.blocks := code.blocks[Clone(c) := b'];
    }
    AllErased(p, count, code.blocks);
  }

  /** The entry and the last clone check whether a whole batch fits. */
  method GuardEntry(code: Code, p: Protocol, count: pos)
    requires p.ind < |p.latch| == |p.init|
    requires LastClone(count) in code.blocks && code.blocks[LastClone(count)] == CheckedClone(p, count, count - 1)
    modifies code
    ensures code.blocks == old(code.blocks)
                           [Preheader := Block([], [Guard(Const(p.init[p.ind]), count)],
                                               CondBr(Clone(0), CleanupPreheader))]
                           [LastClone(count) := FinalClone(p, count)]
  {
    hide ChainRows; hide Inputs; hide Outputs;
    code.blocks := code.blocks[Preheader :=
    Block([], [Guard(Const(p.init[p.ind]), count)], CondBr(Clone(0), CleanupPreheader))];
    var last := code.blocks[LastClone(count)];
    var Publish(next) := last.ops[1];
    code.blocks := code.blocks[LastClone(count) :=
    Block(last.rows, [last.ops[0], last.ops[1], Guard(next, count)], CondBr(Clone(0), CleanupPreheader))];
  }

  /** The rewritten blocks so far are those of the clone chain, and the new ones. */
  lemma Assembled(p: Protocol, count: pos, was: Cfg, cfg: Cfg)
    requires p.ind < |p.latch| == |p.init| && Erasing(p, count, was, 0, 0)
    requires Exit in was && was[Exit] == Block([NoExitPhis()], [], Ret)
    requires cfg == was[CleanupPreheader := StartBlock(p, count)]
                    [CleanupHeader := ScalarBlock(p, CleanupHeader, CleanupPreheader,
                                                  PhiOf(CleanupPreheader, |p.init|))]
                    [Preheader := Block([], [Guard(Const(p.init[p.ind]), count)], CondBr(Clone(0), CleanupPreheader))]
                    [LastClone(count) := FinalClone(p, count)]
    ensures Framed(p, count, cfg) && LastDone(p, count, cfg) && Erasing(p, count, cfg, 0, 0)
  {
    hide StartBlock; hide ScalarBlock; hide FinalClone; hide SilentClone; hide UncheckedClone; hide CheckedClone;
  }

  /** `formBatchedLoopWithCleanup`, on the chain of `count` clones and the detached copy of the loop. */
  method FormBatchedLoopWithCleanup(code: Code, p: Protocol, count: pos, cleanup: Block)
    requires Accepted(p) && p.exits == []
    requires p.ind < |p.latch| && code.blocks == UnrolledCfg(p, count)
    requires cleanup == ScalarBlock(p, CleanupHeader, Preheader, Consts(p.init))
    modifies code
    ensures |p.latch| == |p.init| && IsGem(p, count, code.blocks)
  {
    AcceptedShape(p);
    UnrolledBlocks(p, count);
    hide Accepted; hide UnrolledCfg; hide ScalarBlock; hide StartBlock; hide ChainRow; hide Inputs;
    hide Outputs; hide ChainRows;
    InsertCleanup(code, p, count, cleanup);
    GuardEntry(code, p, count);
    Assembled(p, count, old(code.blocks), code.blocks);
    hide Framed; hide LastDone; hide Erasing; hide IsGem;
    EraseChecks(code, p, count);
    EraseStores(code, p, count);
  }
}
