/**
 One call of `parfor_` as the mutable object it is, on machine indices and for
 any lawful monoid: the loop updates `i`, `a` and `sig_safe_i`, the promotion
 handler writes `loop_end` and the ranges of the jobs `l` and `r`, and thieves
 take jobs from the far end of the deque, between any two micro-steps.
 */
module Parfor {
  import opened Tasks
  import opened Handler

  /** `seqfor` from the accumulator `a`: the loop `for (; i < j; i++) body(i, a)`. */
  function SeqFor<A>(m: Monoid<A>, f: int -> A, i: int, j: int, a: A): A
    decreases j - i
  {
    if i >= j then a else SeqFor(m, f, i + 1, j, m.op(a, f(i)))
  }

  lemma {:induction false} SeqForSplit<A>(m: Monoid<A>, f: int -> A, i: int, k: int, j: int, a: A)
    requires i <= k <= j
    ensures SeqFor(m, f, i, j, a) == SeqFor(m, f, k, j, SeqFor(m, f, i, k, a))
    decreases k - i
  {
    if i < k {
      SeqForSplit(m, f, i + 1, k, j, m.op(a, f(i)));
    }
  }

  lemma SeqForLast<A>(m: Monoid<A>, f: int -> A, i: int, k: int, a: A)
    requires i <= k
    ensures SeqFor(m, f, i, k + 1, a) == m.op(SeqFor(m, f, i, k, a), f(k))
  {
    SeqForSplit(m, f, i, k, k + 1, a);
  }

  /** What a job computes from the identity can be added to any accumulator later. */
  lemma {:induction false} SeqForFromIdentity<A(!new)>(m: Monoid<A>, f: int -> A, i: int, j: int, a: A, b: A)
    requires Lawful(m)
    ensures SeqFor(m, f, i, j, m.op(a, b)) == m.op(a, SeqFor(m, f, i, j, b))
    decreases j - i
  {
    if i < j {
      SeqForFromIdentity(m, f, i + 1, j, a, m.op(b, f(i)));
    }
  }

  lemma JoinJob<A(!new)>(m: Monoid<A>, f: int -> A, i: int, k: int, j: int, a: A)
    requires Lawful(m) && i <= k <= j
    ensures m.op(SeqFor(m, f, i, k, a), SeqFor(m, f, k, j, m.identity)) == SeqFor(m, f, i, j, a)
  {
    SeqForSplit(m, f, i, k, j, a);
    SeqForFromIdentity(m, f, k, j, SeqFor(m, f, i, k, a), m.identity);
  }

  /** The index type, the type of `sig_safe_i`, and the published unroll factor. */
  datatype Config<!A> = Config(m: Monoid<A>, f: int -> A, w: Width, sig: Width, factor: pos)

  ghost predicate Legal<A(!new)>(c: Config<A>) {
    && Lawful(c.m) && IsWidth(c.w) && IsWidth(c.sig)
    && AtLeastAsWide(c.sig, c.w) && Fits(c.w, c.factor)
  }

  /** A range that `parfor_` accepts; `j - i` need not be representable. */
  ghost predicate Range<A(!new)>(c: Config<A>, i: int, j: int) {
    Legal(c) && i <= j && Fits(c.w, i) && Fits(c.w, j)
  }

  class SpwnJob<A(!new)> {
    var i: int
    var j: int
    var a: A

    constructor (a: A)
    {
      this.a := a;
    }

    /** `run`, by the owner or by a thief. */
    method Run(c: Config<A>)
      requires Range(c, i, j)
      modifies this`a
      ensures a == SeqFor(c.m, c.f, i, j, c.m.identity)
      decreases j - i, 5
    {
      a := Call(c, i, j, c.m.identity);
    }
  }

  class LoopFrame<A(!new)> {
    const c: Config<A>
    const first: int
    const j: int
    const start: A
    const l: SpwnJob<A>
    const r: SpwnJob<A>
    var i: int
    var a: A
    var sig_safe_i: int
    var loop_end: int
    var promoted: bool
    /** The part of the worker's own deque that belongs to this call. */
    var deque: seq<SpwnJob<A>>
    ghost var stolen: seq<SpwnJob<A>>
    ghost var joined: nat

    constructor (c: Config<A>, i: int, j: int, a: A)
      requires Range(c, i, j)
      ensures Valid() && !promoted && loop_end == j && this.i == i == Progress() && joined == 0
      ensures this.c == c && first == i && this.j == j && start == this.a == a && fresh(l) && fresh(r)
    {
      hide Wrap; hide AtLeastAsWide; hide Lawful;
      this.c, first, this.j, start, this.i, this.a := c, i, j, a, i, a;
      var left := new SpwnJob(c.m.identity);
      var right := new SpwnJob(c.m.identity);
      l, r := left, right;
      sig_safe_i, loop_end := Wrap(c.sig, i), j;
      promoted, deque, stolen, joined := false, [], [], 0;
      PublishedIndex(c.sig, c.w, i);
    }

    /** The handler's reading of `sig_safe_i`. */
    function Progress(): int
      reads this
      requires IsWidth(c.w)
    {
      Wrap(c.w, sig_safe_i)
    }

    /** The published progress trails the index by at most the factor. */
    ghost predicate Bounds()
      reads this
      requires IsWidth(c.w)
    {
      && first <= Progress() <= i <= loop_end <= j && i <= Progress() + c.factor
      && (!promoted ==> loop_end == j)
    }

    /** The jobs enqueued and not yet joined tile what the loop gave up; thieves took the oldest. */
    ghost predicate Jobs()
      reads this`stolen, this`deque, this`joined, this`promoted, this`loop_end, l`i, l`j, r`i, r`j
    {
      && joined <= |Queued()| && stolen + deque == Queued()[..|Queued()| - joined]
      && (promoted ==>
            if loop_end == j then !(l.i < l.j) && !(r.i < r.j)
            else
              && r.i < r.j == j && first < loop_end <= r.i
              && if l.i < l.j then l.i == loop_end && l.j == r.i else r.i == loop_end)
    }

    ghost function Queued(): seq<SpwnJob<A>>
      reads this`promoted, this`loop_end, l`i, l`j
    {
      if !promoted || loop_end == j then [] else if l.i < l.j then [r, l] else [r]
    }

    /** The accumulator holds the iterations before `i`. */
    ghost predicate Summed()
      reads this
    {
      a == SeqFor(c.m, c.f, first, i, start)
    }

    ghost predicate Valid()
      reads this, l, r
    {
      l != r && Range(c, first, j) && Bounds() && Jobs()
    }

    /** The promotion callback of `parfor_`. */
    method Prom()
      requires Valid() && !promoted && joined == 0
      modifies this`loop_end, this`promoted, this`deque, l`i, l`j, r`i, r`j
      ensures Valid() && promoted
      ensures loop_end == old(loop_end) || old(loop_end) > loop_end == Progress() + c.factor
      ensures match if Fits(c.w, old(loop_end) - Progress())
                then SplitRange(Progress(), old(loop_end), c.factor) else NoSplit
              case NoSplit => loop_end == old(loop_end) && deque == old(deque)
              case Split(prom, mid) =>
                && loop_end == prom && r.i == mid && r.j == j
                && if prom < mid then l.i == prom && l.j == mid && deque == old(deque) + [r, l]
                   else !(l.i < l.j) && deque == old(deque) + [r]
    {
      hide Wrap; hide AtLeastAsWide; hide Lawful; hide FixedSplit; hide IsWidth;
      promoted := true;
      var ssi := Wrap(c.w, sig_safe_i);
      if Fits(c.w, loop_end - ssi) {
        FixedSplitExact(c.w, ssi, ssi, loop_end, loop_end, c.factor);
      } else {
        WideRangeNeverSplits(c.w, ssi, loop_end, c.factor);
      }
      match FixedSplit(c.w, ssi, loop_end, c.factor) {
        case NoSplit =>
          r.i, r.j := 0, 0;
          l.i, l.j := 0, 0;
        case Split(prom, mid) =>
          Divide(prom, mid);
      }
    }

    /** The writes and enqueues of a promotion that splits. */
    method Divide(prom: int, mid: int)
      requires l != r && Range(c, first, j) && promoted && joined == 0 && stolen == [] && deque == []
      requires loop_end == j && first <= Progress() <= i <= prom <= mid < j && prom == Progress() + c.factor
      modifies this`loop_end, this`deque, l`i, l`j, r`i, r`j
      ensures Valid() && loop_end == prom && r.i == mid && r.j == j
      ensures if prom < mid then l.i == prom && l.j == mid && deque == [r, l] else !(l.i < l.j) && deque == [r]
    {
      hide Wrap; hide AtLeastAsWide; hide Lawful; hide IsWidth; hide Fits; hide Range;
      loop_end := prom;
      r.i, r.j := mid, j;
      deque := deque + [r];
      if prom >= mid {
        l.i, l.j := 0, 0;
      } else {
        l.i, l.j := prom, mid;
        deque := deque + [l];
      }
    }

    /** A thief takes the oldest job. */
    method Steal()
      requires Valid()
      modifies this`deque, this`stolen
      ensures Valid()
    {
      if deque != [] {
        stolen := stolen + [deque[0]];
        deque := deque[1..];
      }
    }

    /** Whatever heartbeats and thieves do between two micro-steps; `live` while the slot is open. */
    method Interrupt(live: bool)
      requires Valid() && (live ==> joined == 0)
      modifies this`loop_end, this`promoted, this`deque, this`stolen, l`i, l`j, r`i, r`j
      ensures Valid()
      ensures loop_end == old(loop_end) || old(loop_end) > loop_end == Progress() + c.factor
      ensures !live || old(promoted) ==>
                loop_end == old(loop_end) && promoted == old(promoted)
                && l.i == old(l.i) && l.j == old(l.j) && r.i == old(r.i) && r.j == old(r.j)
    {
      hide Wrap; hide AtLeastAsWide; hide Lawful; hide SeqFor;
      var beat: bool := *;
      if beat && live && !promoted { Prom(); }
      var thieves: nat := *;
      while thieves > 0
        modifies this`deque, this`stolen
        invariant Valid()
      {
        Steal();
        thieves := thieves - 1;
      }
    }

    /** One step of `s` iterations: the body and `++i` for each, then the progress store. */
    method Batch(s: int)
      requires Valid() && Summed() && joined == 0 && i == Progress()
      requires 1 <= s <= c.factor && i + s <= loop_end
      modifies this`i, this`a, this`sig_safe_i, this`loop_end, this`promoted, this`deque, this`stolen
      modifies l`i, l`j, r`i, r`j
      ensures Valid() && Summed() && i == Progress() == old(i) + s
    {
      hide Wrap; hide AtLeastAsWide; hide Lawful; hide SeqFor; hide Jobs;
      var goal := i + s;
      while i < goal
        invariant Valid() && Summed() && i <= goal <= loop_end && goal <= Progress() + c.factor
        invariant sig_safe_i == old(sig_safe_i)
      {
        SeqForLast(c.m, c.f, first, i, start);
        a := c.m.op(a, c.f(i));
        Interrupt(true);
        i := i + 1;
        Interrupt(true);
      }
      PublishedIndex(c.sig, c.w, i);
      sig_safe_i := Wrap(c.sig, i);
    }

    /** `for (; i < loop_end; )`, in steps of any size up to the factor that fit the bound just
        loaded.  The loop is left exactly at the current bound. */
    method Loop()
      requires Valid() && Summed() && joined == 0 && i == Progress()
      modifies this`i, this`a, this`sig_safe_i, this`loop_end, this`promoted, this`deque, this`stolen
      modifies l`i, l`j, r`i, r`j
      ensures Valid() && Summed() && i == loop_end == Progress()
    {
      hide Wrap; hide AtLeastAsWide; hide Lawful; hide SeqFor; hide Jobs;
      while true
        invariant Valid() && Summed() && i == Progress()
        decreases j - i
      {
        Interrupt(true);
        var bound := loop_end;
        Interrupt(true);
        if !(i < bound) { break; }
        assert 1 <= 1 <= c.factor && i + 1 <= bound;
        var s :| 1 <= s <= c.factor && i + s <= bound;
        Batch(s);
      }
    }

    /** `get_own_job`, whose result `sync` only compares with null: it is the job being joined,
        or the job has been stolen. */
    method TryDequeue(job: SpwnJob<A>) returns (popped: SpwnJob?<A>)
      requires Valid() && joined < |Queued()| && job == Queued()[|Queued()| - joined - 1]
      modifies this`deque, this`stolen, this`joined
      ensures Valid() && joined == old(joined) + 1
      ensures popped == job || (popped == null && old(deque) == [] && old(job in stolen))
    {
      ghost var n := |Queued()| - joined;
      assert (stolen + deque)[n - 1] == job;
      if deque != [] {
        popped, deque := deque[|deque| - 1], deque[..|deque| - 1];
      } else {
        popped, stolen := null, stolen[..|stolen| - 1];
      }
      joined := joined + 1;
    }

    /** `sync`, and the `binop` that follows it. */
    method Sync(job: SpwnJob<A>)
      requires Valid() && joined < |Queued()| && job == Queued()[|Queued()| - joined - 1]
      requires a == SeqFor(c.m, c.f, first, job.i, start)
      requires first < job.i < job.j <= j
      modifies this`a, this`deque, this`stolen, this`joined, job`a
      ensures Valid() && joined == old(joined) + 1
      ensures a == SeqFor(c.m, c.f, first, job.j, start)
      decreases j - first, 1
    {
      var popped := TryDequeue(job);
      if popped != null {
        popped.Run(c);
      } else {
        job.Run(c);
      }
      JoinJob(c.m, c.f, first, job.i, job.j, start);
      a := c.m.op(a, job.a);
    }

    /** The rest of `parfor_` once its slot is closed: the joins, in reverse order of the pushes,
        of exactly the jobs that were pushed. */
    method Joins()
      requires Valid() && Summed() && joined == 0 && i == loop_end
      modifies this`a, this`deque, this`stolen, this`joined, l`a, r`a
      ensures Valid() && joined == |Queued()|
      ensures a == SeqFor(c.m, c.f, first, j, start)
      decreases j - first, 2
    {
      hide SeqFor; hide Wrap; hide Lawful; hide AtLeastAsWide; hide IsWidth; hide Fits;
      if promoted {
        if l.i < l.j { Sync(l); }
        if r.i < r.j { Sync(r); }
      }
    }

    /** The call from the construction of its slot on. */
    method Execute()
      requires Valid() && Summed() && joined == 0 && i == Progress()
      modifies this, l, r
      ensures a == SeqFor(c.m, c.f, first, j, start)
      decreases j - first, 3
    {
      hide Jobs; hide Range; hide SeqFor; hide Bounds;
      Loop();
      Interrupt(true);
      Interrupt(false);
      Joins();
    }
  }

  /** `parfor_`: under every interleaving of heartbeats and thieves, and every mix of step
      sizes, the sequential loop. */
  method Call<A(!new)>(c: Config<A>, i: int, j: int, a: A) returns (result: A)
    requires Range(c, i, j)
    ensures result == SeqFor(c.m, c.f, i, j, a)
    decreases j - i, 4
  {
    hide Range; hide Wrap; hide IsWidth;
    var frame := new LoopFrame(c, i, j, a);
    assert frame.Summed();
    hide SeqFor;
    frame.Execute();
    result := frame.a;
  }
}
