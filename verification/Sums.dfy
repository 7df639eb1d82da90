/** Sums over sequences: the workers of a system, the frames of a stack, the jobs of a deque. */
module Sums {

  function Total(s: seq<nat>): nat {
    if s == [] then 0 else s[0] + Total(s[1..])
  }

  lemma {:induction false} TotalUpdate(s: seq<nat>, i: nat, x: nat)
    requires i < |s|
    ensures Total(s[i := x]) + s[i] == Total(s) + x
    decreases |s|
  {
    var t := s[i := x];
    if i == 0 {
      assert t[1..] == s[1..];
    } else {
      TotalUpdate(s[1..], i - 1, x);
      assert t[1..] == s[1..][i - 1 := x];
    }
  }

  lemma {:induction false} ZeroTotal(s: seq<nat>)
    requires forall i :: 0 <= i < |s| ==> s[i] == 0
    ensures Total(s) == 0
    decreases |s|
  {
    if s != [] {
      ZeroTotal(s[1..]);
    }
  }

  lemma {:induction false} TotalAtLeast(s: seq<nat>, i: nat)
    requires i < |s|
    ensures s[i] <= Total(s)
    decreases |s|
  {
    if i > 0 {
      TotalAtLeast(s[1..], i - 1);
    }
  }

  function Sum<T>(g: T -> nat, s: seq<T>): nat {
    if s == [] then 0 else g(s[0]) + Sum(g, s[1..])
  }

  lemma {:induction false} SumAppend<T>(g: T -> nat, s: seq<T>, t: seq<T>)
    ensures Sum(g, s + t) == Sum(g, s) + Sum(g, t)
    decreases |s|
  {
    if s == [] {
      assert s + t == t;
    } else {
      SumAppend(g, s[1..], t);
      assert (s + t)[1..] == s[1..] + t;
    }
  }

  lemma SumLast<T>(g: T -> nat, s: seq<T>, x: T)
    ensures Sum(g, s + [x]) == Sum(g, s) + g(x)
  {
    SumAppend(g, s, [x]);
    assert [x][1..] == [];
  }

  lemma SumEnd<T>(g: T -> nat, s: seq<T>)
    requires s != []
    ensures Sum(g, s) == Sum(g, s[..|s| - 1]) + g(s[|s| - 1])
  {
    SumLast(g, s[..|s| - 1], s[|s| - 1]);
    assert s[..|s| - 1] + [s[|s| - 1]] == s;
  }

  lemma {:induction false} SumSame<T>(g: T -> nat, h: T -> nat, s: seq<T>)
    requires forall x :: x in s ==> g(x) == h(x)
    ensures Sum(g, s) == Sum(h, s)
    decreases |s|
  {
    if s != [] {
      SumSame(g, h, s[1..]);
    }
  }

  lemma {:induction false} SumZero<T>(g: T -> nat, s: seq<T>)
    requires forall x :: x in s ==> g(x) == 0
    ensures Sum(g, s) == 0
    decreases |s|
  {
    if s != [] {
      SumZero(g, s[1..]);
    }
  }

  lemma {:induction false} SumAtLeast<T>(g: T -> nat, s: seq<T>, i: nat)
    requires i < |s|
    ensures g(s[i]) <= Sum(g, s)
    decreases |s|
  {
    if i > 0 {
      SumAtLeast(g, s[1..], i - 1);
    }
  }
}
