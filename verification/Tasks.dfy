/**
 The work a run performs, and the value it must produce.

 An accumulator is kept symbolically, as the tree of `binop` applications that
 built it, so that one run speaks for every monoid at once: `EvalIsWord` turns
 an equality of words into an equality of values for any lawful monoid.
 */
module Tasks {

  type pos = n: nat | 0 < n witness 1

  /** An accumulator: the identity, one iteration's contribution, or `binop(left, right)`. */
  datatype Expr = Unit | Atom(v: int) | App(left: Expr, right: Expr)

  /** The contributions of `e`, left to right. */
  function Word(e: Expr): seq<int> {
    match e
    case Unit => []
    case Atom(v) => [v]
    case App(l, r) => Word(l) + Word(r)
  }

  datatype Monoid<!A> = Monoid(op: (A, A) -> A, identity: A)

  ghost predicate Lawful<A(!new)>(m: Monoid<A>) {
    && (forall x :: m.op(m.identity, x) == x && m.op(x, m.identity) == x)
    && (forall x, y, z :: m.op(m.op(x, y), z) == m.op(x, m.op(y, z)))
  }

  /** What the machine computes in monoid `m` when contribution `v` stands for `f(v)`. */
  function Eval<A>(m: Monoid<A>, f: int -> A, e: Expr): A {
    match e
    case Unit => m.identity
    case Atom(v) => f(v)
    case App(l, r) => m.op(Eval(m, f, l), Eval(m, f, r))
  }

  /** The sequential loop over the contributions of `w`, in order. */
  function FoldWord<A>(m: Monoid<A>, f: int -> A, w: seq<int>): A {
    if w == [] then m.identity
    else m.op(FoldWord(m, f, w[..|w| - 1]), f(w[|w| - 1]))
  }

  lemma {:induction false} FoldWordAppend<A(!new)>(m: Monoid<A>, f: int -> A, u: seq<int>, w: seq<int>)
    requires Lawful(m)
    ensures FoldWord(m, f, u + w) == m.op(FoldWord(m, f, u), FoldWord(m, f, w))
    decreases |w|
  {
    if w == [] {
      assert u + w == u;
    } else {
      var w0 := w[..|w| - 1];
      assert (u + w)[..|u + w| - 1] == u + w0;
      FoldWordAppend(m, f, u, w0);
    }
  }

  /** In a lawful monoid only the order of the contributions matters, not the bracketing. */
  lemma {:induction false} EvalIsWord<A(!new)>(m: Monoid<A>, f: int -> A, e: Expr)
    requires Lawful(m)
    ensures Eval(m, f, e) == FoldWord(m, f, Word(e))
  {
    match e
    case Unit =>
    case Atom(v) =>
      assert [v][..0] == [];
    case App(l, r) =>
      EvalIsWord(m, f, l);
      EvalIsWord(m, f, r);
      FoldWordAppend(m, f, Word(l), Word(r));
  }

  /**
   A piece of work.  A `Leaf` is one loop body that contributes a value.  A
   `Loop` is a `parfor_` over the listed iterations, whose site publishes the
   unroll factor `factor`.  A `Fork` is a `par`/`spork`: `left` runs under the
   promotion handler, `gap` runs after the slot is closed and before the join,
   and `right` is what the handler may offer as a job.
   */
  datatype Task =
    | Leaf(v: int)
    | Loop(factor: pos, items: seq<Task>)
    | Fork(left: Task, gap: Task, right: Task)

  /** The contributions of the sequential elision of `t`. */
  function Leaves(t: Task): seq<int>
    decreases t, 1
  {
    match t
    case Leaf(v) => [v]
    case Loop(_, items) => LeavesOf(items)
    case Fork(l, g, r) => Leaves(l) + Leaves(g) + Leaves(r)
  }

  function LeavesOf(ts: seq<Task>): seq<int>
    decreases ts, 0
  {
    if ts == [] then [] else Leaves(ts[0]) + LeavesOf(ts[1..])
  }

  lemma {:induction false} LeavesOfAppend(s: seq<Task>, t: seq<Task>)
    ensures LeavesOf(s + t) == LeavesOf(s) + LeavesOf(t)
    decreases |s|
  {
    hide Leaves;
    if s == [] {
      assert s + t == t;
    } else {
      LeavesOfAppend(s[1..], t);
      assert (s + t)[1..] == s[1..] + t && (s + t)[0] == s[0];
      Associate(Leaves(s[0]), LeavesOf(s[1..]), LeavesOf(t), []);
    }
  }

  lemma Associate(a: seq<int>, b: seq<int>, c: seq<int>, d: seq<int>)
    ensures ((a + b) + c) + d == a + (b + c + d)
    ensures (a + b) + c == a + (b + c)
  {
  }

  lemma LeavesOfSplit(ts: seq<Task>, i: nat, j: nat, k: nat)
    requires i <= j <= k <= |ts|
    ensures LeavesOf(ts[i..k]) == LeavesOf(ts[i..j]) + LeavesOf(ts[j..k])
  {
    assert ts[i..k] == ts[i..j] + ts[j..k];
    LeavesOfAppend(ts[i..j], ts[j..k]);
  }

  lemma LeavesOfFirst(ts: seq<Task>, i: nat, k: nat)
    requires i < k <= |ts|
    ensures LeavesOf(ts[i..k]) == Leaves(ts[i]) + LeavesOf(ts[i + 1..k])
  {
    assert ts[i..k][0] == ts[i];
    assert ts[i..k][1..] == ts[i + 1..k];
  }

  /** Running `t` sequentially on accumulator `a`, as `seqfor` and `parSeq` do. */
  function Sequential(t: Task, a: Expr): Expr
    decreases t, 1
  {
    match t
    case Leaf(v) => App(a, Atom(v))
    case Loop(_, items) => SequentialLoop(items, a)
    case Fork(l, g, r) => Sequential(r, Sequential(g, Sequential(l, a)))
  }

  function SequentialLoop(ts: seq<Task>, a: Expr): Expr
    decreases ts, 0
  {
    if ts == [] then a else SequentialLoop(ts[1..], Sequential(ts[0], a))
  }

  lemma {:induction false} SequentialWord(t: Task, a: Expr)
    ensures Word(Sequential(t, a)) == Word(a) + Leaves(t)
    decreases t, 1
  {
    match t
    case Leaf(v) =>
    case Loop(_, items) => SequentialLoopWord(items, a);
    case Fork(l, g, r) =>
      SequentialWord(l, a);
      SequentialWord(g, Sequential(l, a));
      SequentialWord(r, Sequential(g, Sequential(l, a)));
      Associate(Word(a), Leaves(l), Leaves(g), Leaves(r));
  }

  lemma {:induction false} SequentialLoopWord(ts: seq<Task>, a: Expr)
    ensures Word(SequentialLoop(ts, a)) == Word(a) + LeavesOf(ts)
    decreases ts, 0
  {
    hide Word; hide Sequential; hide Leaves;
    if ts != [] {
      SequentialWord(ts[0], a);
      SequentialLoopWord(ts[1..], Sequential(ts[0], a));
      Associate(Word(a), Leaves(ts[0]), LeavesOf(ts[1..]), []);
    } else {
      assert Word(a) + [] == Word(a);
    }
  }
}
