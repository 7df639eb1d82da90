/** The guard of a batch in fixed-width arithmetic, and the cast chains it replays. */
module BatchGuard {
  import Tasks
  import opened Handler
  import opened Wrappers

  type pos = Tasks.pos

  function Pow2(w: nat): pos {
    if w == 0 then 1 else 2 * Pow2(w - 1)
  }

  lemma {:induction false} Pow2Grows(v: nat, w: nat)
    requires v <= w
    ensures Pow2(v) <= Pow2(w)
    decreases w
  {
    if v < w {
      Pow2Grows(v, w - 1);
    }
  }

  /** An integer register: its width in bits and its bit pattern. */
  datatype Register = Register(width: pos, bits: nat)

  predicate Valid(x: Register) {
    x.bits < Pow2(x.width)
  }

  /** The number a register stands for. */
  function Number(signed: bool, x: Register): int {
    if signed && Pow2(x.width - 1) <= x.bits then x.bits - Pow2(x.width) else x.bits
  }

  /** `n` is a number of a type of `w` bits. */
  predicate FitsIn(signed: bool, w: pos, n: int) {
    if signed then 0 - Pow2(w - 1) <= n < Pow2(w - 1) else 0 <= n < Pow2(w)
  }

  /** The register of `w` bits that holds `n`, reduced to its range. */
  function Encode(w: pos, n: int): (x: Register)
    ensures Valid(x) && x.width == w
  {
    Register(w, n % Pow2(w))
  }

  /** Reduction takes away at most one multiple of the range from a sum, and adds one to a negative number. */
  lemma EncodeNear(w: pos, n: int)
    ensures 0 <= n < Pow2(w) ==> Encode(w, n).bits == n
    ensures -1 * Pow2(w) <= n < 0 ==> Encode(w, n).bits == n + Pow2(w)
    ensures Pow2(w) <= n < 2 * Pow2(w) ==> Encode(w, n).bits == n - Pow2(w)
  {
    var m: int := Pow2(w);
    hide Pow2;
    if 0 <= n < m {
      ModUnique(n, 0, m, n);
    } else if -m <= n < 0 {
      ModUnique(n, -1, m, n + m);
    } else if m <= n < 2 * m {
      ModUnique(n, 1, m, n - m);
    }
  }

  lemma NumberFits(signed: bool, x: Register)
    requires Valid(x)
    ensures FitsIn(signed, x.width, Number(signed, x))
    ensures Encode(x.width, Number(signed, x)) == x
  {
    EncodeNear(x.width, Number(signed, x));
    hide Encode;
  }

  lemma EncodeNumber(signed: bool, w: pos, n: int)
    requires FitsIn(signed, w, n)
    ensures Number(signed, Encode(w, n)) == n
  {
    EncodeNear(w, n);
    hide Encode;
  }

  // ---------- casts ----------

  datatype CastOp = Trunc | ZExt | SExt

  function Cast(op: CastOp, to: pos, x: Register): Register {
    match op
    case Trunc => Encode(to, x.bits)
    case ZExt => Encode(to, x.bits)
    case SExt => Encode(to, Number(true, x))
  }

  /** Truncation keeps the low bits; the extensions keep the number as read. */
  lemma CastKeeps(to: pos, x: Register)
    requires Valid(x)
    ensures Cast(Trunc, to, x).bits == x.bits % Pow2(to)
    ensures x.width <= to ==> Number(false, Cast(ZExt, to, x)) == Number(false, x)
    ensures x.width <= to ==> Number(true, Cast(SExt, to, x)) == Number(true, x)
  {
    NumberFits(true, x);
    if x.width <= to {
      Pow2Grows(x.width, to);
      Pow2Grows(x.width - 1, to - 1);
      EncodeNumber(true, to, Number(true, x));
      EncodeNumber(false, to, x.bits);
    }
    hide Pow2;
  }

  /** The steps of a cast chain, innermost first. */
  type CastChain = seq<(CastOp, pos)>

  function Replay(c: CastChain, x: Register): Register {
    if c == [] then x else Replay(c[1..], Cast(c[0].0, c[0].1, x))
  }

  /** A chain that only widens, in the way the predicate reads its operands. */
  ghost predicate Widens(signed: bool, c: CastChain, w: pos) {
    c == [] || (c[0].0 == (if signed then SExt else ZExt) && w <= c[0].1 && Widens(signed, c[1..], c[0].1))
  }

  /** Widening keeps the number. */
  lemma {:induction false} ReplayKeepsNumber(signed: bool, c: CastChain, x: Register)
    requires Valid(x) && Widens(signed, c, x.width)
    ensures Valid(Replay(c, x)) && Number(signed, Replay(c, x)) == Number(signed, x)
    decreases |c|
  {
    if c != [] {
      hide Pow2; hide Encode;
      var y := Cast(c[0].0, c[0].1, x);
      NumberFits(signed, x);
      var u: nat, v: nat := x.width, c[0].1;
      Pow2Grows(u, v);
      Pow2Grows(u - 1, v - 1);
      EncodeNumber(signed, c[0].1, Number(signed, x));
      ReplayKeepsNumber(signed, c[1..], y);
    }
  }

  // ---------- the values of a function, as far as casts go ----------

  datatype Term = Root(id: nat) | CastOf(op: CastOp, to: pos, arg: Term)

  function Meaning(t: Term, env: nat -> Register): Register {
    match t
    case Root(id) => env(id)
    case CastOf(op, to, arg) => Cast(op, to, Meaning(arg, env))
  }

  /** The chain of casts on top of `root` that makes up `t`. */
  function Captured(t: Term, root: Term): Option<CastChain> {
    if t == root then Some([])
    else
      match t
      case Root(_) => None
      case CastOf(op, to, arg) =>
        var c := Captured(arg, root);
        if c.None? then None else Some(c.value + [(op, to)])
  }

  /** `CastChain::capture`: walk from the template down to the root, then reverse. */
  method Capture(template: Term, root: Term) returns (chain: Option<CastChain>)
    ensures chain == Captured(template, root)
    ensures chain.Some? <==> exists n: nat :: n <= Casts(template) && Spine(template, n) == root
    ensures chain.Some? ==>
              var c := chain.value;
              Spine(template, |c|) == root && forall k :: 0 <= k < |c| ==> IsCast(Spine(template, |c| - 1 - k), c[k])
  {
    CapturedIff(template, root);
    if Captured(template, root).Some? { CapturedCasts(template, root); }
    hide Spine; hide Casts; hide IsCast;
    var steps: CastChain := [];
    var v := template;
    assert Reversed(steps) == [] && Extended(Captured(template, root), []) == Captured(template, root) by {
      if Captured(template, root).Some? {
        assert Captured(template, root).value + [] == Captured(template, root).value;
      }
    }
    while v != root
      invariant Captured(template, root) == Extended(Captured(v, root), Reversed(steps))
      decreases v
    {
      if v.Root? { return None; }
      ReversedStep(steps, (v.op, v.to), Captured(v.arg, root));
      steps := steps + [(v.op, v.to)];
      v := v.arg;
    }
    chain := Some(Reversed(steps));
    assert [] + Reversed(steps) == Reversed(steps);
  }

  /** `t` after taking off `n` casts. */
  function Spine(t: Term, n: nat): Term
    decreases n
  {
    if n == 0 then t
    else
      match t
      case Root(_) => t
      case CastOf(_, _, arg) => Spine(arg, n - 1)
  }

  /** The casts of a term, counted. */
  function Casts(t: Term): nat {
    match t
    case Root(_) => 0
    case CastOf(_, _, arg) => 1 + Casts(arg)
  }

  /** The casts of a captured chain are those passed on the way to the root, the outermost last. */
  lemma {:induction false} CapturedCasts(t: Term, root: Term)
    requires Captured(t, root).Some?
    ensures var c := Captured(t, root).value;
            && |c| <= Casts(t) && Spine(t, |c|) == root
            && forall k :: 0 <= k < |c| ==> IsCast(Spine(t, |c| - 1 - k), c[k])
  {
    if t != root {
      var d := Captured(t.arg, root).value;
      CapturedCasts(t.arg, root);
      var c := d + [(t.op, t.to)];
      forall k | 0 <= k < |c| ensures IsCast(Spine(t, |c| - 1 - k), c[k]) {
        if k < |d| {
          SpineArg(t, |d| - 1 - k);
          assert c[k] == d[k];
        }
      }
    }
  }

  predicate IsCast(t: Term, step: (CastOp, pos)) {
    t.CastOf? && step == (t.op, t.to)
  }

  lemma SpineArg(t: Term, n: nat)
    requires t.CastOf?
    ensures Spine(t, n + 1) == Spine(t.arg, n)
  {
  }

  /** A chain is found exactly when the root is reached from the template by following the
      arguments of casts. */
  lemma CapturedIff(t: Term, root: Term)
    ensures Captured(t, root).Some? <==> exists n: nat :: n <= Casts(t) && Spine(t, n) == root
  {
    if Captured(t, root).Some? {
      CapturedCasts(t, root);
      assert Spine(t, |Captured(t, root).value|) == root;
    }
    if n: nat :| n <= Casts(t) && Spine(t, n) == root {
      SpineCaptured(t, root, n);
    }
  }

  lemma {:induction false} SpineCaptured(t: Term, root: Term, n: nat)
    requires n <= Casts(t) && Spine(t, n) == root
    ensures Captured(t, root).Some?
  {
    if n > 0 {
      SpineCaptured(t.arg, root, n - 1);
    }
  }

  function Reversed<T>(s: seq<T>): seq<T> {
    seq(|s|, i requires 0 <= i < |s| => s[|s| - 1 - i])
  }

  function Extended(c: Option<CastChain>, more: CastChain): Option<CastChain> {
    if c.None? then None else Some(c.value + more)
  }

  lemma ReversedStep(steps: CastChain, step: (CastOp, pos), c: Option<CastChain>)
    ensures Extended(Extended(c, [step]), Reversed(steps)) == Extended(c, Reversed(steps + [step]))
  {
    assert Reversed(steps + [step]) == [step] + Reversed(steps);
    if c.Some? {
      assert c.value + [step] + Reversed(steps) == c.value + ([step] + Reversed(steps));
    }
  }

  lemma {:induction false} ReplayAppend(c: CastChain, d: CastChain, x: Register)
    ensures Replay(c + d, x) == Replay(d, Replay(c, x))
    decreases |c|
  {
    if c == [] {
      assert c + d == d;
    } else {
      assert (c + d)[1..] == c[1..] + d;
      ReplayAppend(c[1..], d, Cast(c[0].0, c[0].1, x));
    }
  }

  /** Replaying a captured chain on the value of its root gives the value it was captured from. */
  lemma {:induction false} ReplayCaptured(t: Term, root: Term, env: nat -> Register)
    requires Captured(t, root).Some?
    ensures Replay(Captured(t, root).value, Meaning(root, env)) == Meaning(t, env)
  {
    if t != root {
      ReplayCaptured(t.arg, root, env);
      var c := Captured(t.arg, root).value;
      ReplayAppend(c, [(t.op, t.to)], Meaning(root, env));
      assert Replay([(t.op, t.to)], Meaning(t.arg, env)) == Replay([], Cast(t.op, t.to, Meaning(t.arg, env)));
    }
  }

  // ---------- the guard ----------

  /** `icmp slt` or `icmp ult`. */
  function LessThan(signed: bool, x: Register, y: Register): bool {
    Number(signed, x) < Number(signed, y)
  }

  /** `createBatchGuard`: the last index of the batch with its overflow flag, both sides cast
      and compared. */
  function Guard(signed: bool, base: Register, nexts: CastChain, bounds: CastChain, count: pos, end: Register): bool {
    if count == 1 then LessThan(signed, Replay(nexts, base), Replay(bounds, end))
    else
      var offset := Encode(base.width, count - 1);
      var last := Encode(base.width, base.bits + offset.bits);
      var overflow := !FitsIn(signed, base.width, Number(signed, base) + Number(signed, offset));
      !overflow && LessThan(signed, Replay(nexts, last), Replay(bounds, end))
  }

  /** gempass computes the sum and its flag for a single iteration too. */
  function GemGuard(signed: bool, base: Register, nexts: CastChain, bounds: CastChain, count: pos,
                    end: Register): bool {
    var offset := Encode(base.width, count - 1);
    var last := Encode(base.width, base.bits + offset.bits);
    var overflow := !FitsIn(signed, base.width, Number(signed, base) + Number(signed, offset));
    !overflow && LessThan(signed, Replay(nexts, last), Replay(bounds, end))
  }

  lemma GuardsAgree(signed: bool, base: Register, nexts: CastChain, bounds: CastChain, count: pos, end: Register)
    requires Valid(base)
    ensures GemGuard(signed, base, nexts, bounds, count, end) == Guard(signed, base, nexts, bounds, count, end)
  {
    if count == 1 {
      NumberFits(signed, base);
      EncodeNear(base.width, 0);
      EncodeNear(base.width, base.bits);
      ZeroNumber(signed, base.width);
      hide Encode; hide Pow2; hide Replay; hide Number;
    }
  }

  lemma ZeroNumber(signed: bool, w: pos)
    ensures Encode(w, 0).bits == 0 && Number(signed, Encode(w, 0)) == 0
  {
    EncodeNear(w, 0);
    hide Encode;
  }

  /** Adding bit patterns adds numbers, when the sum fits. */
  lemma SumNumber(signed: bool, w: pos, x: Register, y: Register)
    requires Valid(x) && Valid(y) && x.width == y.width == w
    requires FitsIn(signed, w, Number(signed, x) + Number(signed, y))
    ensures Number(signed, Encode(w, x.bits + y.bits)) == Number(signed, x) + Number(signed, y)
  {
    EncodeNear(w, x.bits + y.bits);
    hide Encode;
  }

  /**
   With chains that widen as the predicate reads, and `count - 1` a number of
   the index type, the guard holds exactly when the last index of the batch is
   a number of the index type and lies below the bound.
   */
  lemma GuardExact(signed: bool, base: Register, nexts: CastChain, bounds: CastChain, count: pos, end: Register)
    requires Valid(base) && Valid(end) && Widens(signed, nexts, base.width) && Widens(signed, bounds, end.width)
    requires FitsIn(signed, base.width, count - 1)
    ensures var last := Number(signed, base) + count - 1;
            Guard(signed, base, nexts, bounds, count, end) <==>
            FitsIn(signed, base.width, last) && last < Number(signed, end)
  {
    var w := base.width;
    hide Encode; hide Pow2; hide Replay; hide Widens;
    NumberFits(signed, base);
    ReplayKeepsNumber(signed, bounds, end);
    if count == 1 {
      ReplayKeepsNumber(signed, nexts, base);
    } else {
      var offset := Encode(w, count - 1);
      EncodeNumber(signed, w, count - 1);
      if FitsIn(signed, w, Number(signed, base) + (count - 1)) {
        SumNumber(signed, w, base, offset);
        ReplayKeepsNumber(signed, nexts, Encode(w, base.bits + offset.bits));
      }
    }
  }

  /** A bound of the index type makes the overflow flag redundant: the guard is the test
      `base + count - 1 < bound` of the loop language. */
  lemma GuardIsTest(signed: bool, base: Register, nexts: CastChain, bounds: CastChain, count: pos, end: Register)
    requires Valid(base) && Valid(end) && Widens(signed, nexts, base.width) && Widens(signed, bounds, end.width)
    requires FitsIn(signed, base.width, count - 1) && FitsIn(signed, base.width, Number(signed, end))
    ensures Guard(signed, base, nexts, bounds, count, end) <==> Number(signed, base) + count - 1 < Number(signed, end)
  {
    GuardExact(signed, base, nexts, bounds, count, end);
    NumberFits(signed, base);
  }

  // ---------- a batch too large for the index type ----------

  /** The guard is right about every base and bound of the index type. */
  ghost predicate AlwaysExact(signed: bool, w: pos, count: pos) {
    forall base, end :: Valid(base) && Valid(end) && base.width == end.width == w ==>
                          var last := Number(signed, base) + count - 1;
                          (Guard(signed, base, [], [], count, end)
                           <==> FitsIn(signed, w, last) && last < Number(signed, end))
  }

  /** `count - 1` reduced to the index type is all ones: then the unsigned sum never passes. */
  predicate AllOnes(w: pos, count: pos) {
    (count - 1) % Pow2(w) == Pow2(w) - 1
  }

  /**
   The constant `count - 1` is reduced to the index type.  If it does not fit,
   the guard accepts batches that do not fit the bound - but for an unsigned
   index type and an all-ones constant, where it accepts none.
   */
  lemma ExactIff(signed: bool, w: pos, count: pos)
    requires 2 <= w
    ensures AlwaysExact(signed, w, count) <==> FitsIn(signed, w, count - 1) || (!signed && AllOnes(w, count))
  {
    if FitsIn(signed, w, count - 1) {
      forall base, end | Valid(base) && Valid(end) && base.width == end.width == w
        ensures var last := Number(signed, base) + count - 1;
                (Guard(signed, base, [], [], count, end) <==> FitsIn(signed, w, last) && last < Number(signed, end))
      {
        GuardExact(signed, base, [], [], count, end);
      }
    } else if !signed && AllOnes(w, count) {
      AllOnesNever(w, count);
    } else {
      var base, end := Misled(signed, w, count);
    }
  }

  lemma AllOnesNever(w: pos, count: pos)
    requires AllOnes(w, count) && !FitsIn(false, w, count - 1)
    ensures AlwaysExact(false, w, count)
  {
    hide Guard; hide AllOnes;
    forall base, end | Valid(base) && Valid(end) && base.width == end.width == w
      ensures !Guard(false, base, [], [], count, end)
    {
      AllOnesRefused(w, count, base, end);
    }
  }

  /** An all-ones constant takes one off the base, or overflows. */
  lemma AllOnesRefused(w: pos, count: pos, base: Register, end: Register)
    requires AllOnes(w, count) && !FitsIn(false, w, count - 1)
    requires Valid(base) && Valid(end) && base.width == end.width == w
    ensures !Guard(false, base, [], [], count, end)
  {
    hide Pow2;
    var offset := Encode(w, count - 1);
    assert offset.bits == Pow2(w) - 1;
    EncodeNear(w, base.bits + offset.bits);
    hide Encode;
  }

  /** A base and a bound for which the guard passes although the batch does not fit. */
  lemma Misled(signed: bool, w: pos, count: pos) returns (base: Register, end: Register)
    requires 2 <= w && !FitsIn(signed, w, count - 1) && (signed || !AllOnes(w, count))
    ensures Valid(base) && Valid(end) && base.width == end.width == w
    ensures Guard(signed, base, [], [], count, end)
    ensures !FitsIn(signed, w, Number(signed, base) + count - 1)
  {
    var offset := Encode(w, count - 1);
    var m, h := Pow2(w), Pow2(w - 1);
    if !signed {
      base, end := Register(w, 0), Register(w, m - 1);
    } else if h <= offset.bits {
      base, end := Register(w, 0), Register(w, 0);
    } else {
      LargeOffset(w, count, offset);
      base, end := Register(w, if offset.bits < h - 1 then 0 else m - 1), Register(w, h - 1);
    }
    Wraps(signed, w, count, base, end);
  }

  lemma Wraps(signed: bool, w: pos, count: pos, base: Register, end: Register)
    requires 2 <= w && Valid(base) && Valid(end) && base.width == end.width == w
    requires !FitsIn(signed, w, count - 1) && count != 1
    requires var o := Encode(w, count - 1).bits;
             var m, h := Pow2(w), Pow2(w - 1);
             if !signed then base.bits == 0 && end.bits == m - 1 && o < m - 1
             else if h <= o then base.bits == 0 && end.bits == 0
             else m <= count - 1 && end.bits == h - 1 && base.bits == if o < h - 1 then 0 else m - 1
    ensures Guard(signed, base, [], [], count, end)
    ensures !FitsIn(signed, w, Number(signed, base) + count - 1)
  {
    var offset := Encode(w, count - 1);
    EncodeNear(w, base.bits + offset.bits);
    hide Encode;
    assert Pow2(w) == 2 * Pow2(w - 1) && Pow2(w - 1) == 2 * Pow2(w - 2);
    hide Pow2;
  }

  /** A constant beyond the signed range whose reduction is not negative is beyond the whole width. */
  lemma LargeOffset(w: pos, count: pos, offset: Register)
    requires offset == Encode(w, count - 1) && offset.bits < Pow2(w - 1) && !FitsIn(true, w, count - 1)
    ensures Pow2(w) <= count - 1
  {
    EncodeNear(w, count - 1);
    hide Encode;
  }
}
