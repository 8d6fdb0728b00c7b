/** Sums of a function over a finite set. */
module Sums {
  ghost function Sum<T(!new)>(s: set<T>, f: T -> int): int {
    if s == {} then 0 else var x :| x in s; f(x) + Sum(s - {x}, f)
  }

  /** Any element may be taken out first. */
  lemma {:induction false} SumTake<T(!new)>(s: set<T>, f: T -> int, x: T)
    requires x in s
    ensures Sum(s, f) == f(x) + Sum(s - {x}, f)
  {
    var y :| y in s && Sum(s, f) == f(y) + Sum(s - {y}, f);
    if y != x {
      SumTake(s - {y}, f, x);
      SumTake(s - {x}, f, y);
      assert s - {y} - {x} == s - {x} - {y};
    }
  }

  lemma SumPut<T(!new)>(s: set<T>, f: T -> int, x: T)
    requires x !in s
    ensures Sum(s + {x}, f) == f(x) + Sum(s, f)
  {
    SumTake(s + {x}, f, x);
    assert s + {x} - {x} == s;
  }

  lemma {:induction false} SumSame<T(!new)>(s: set<T>, f: T -> int, g: T -> int)
    requires forall x | x in s :: f(x) == g(x)
    ensures Sum(s, f) == Sum(s, g)
  {
    if s == {} {
    } else {
      var x :| x in s;
      SumTake(s, f, x);
      SumTake(s, g, x);
      SumSame(s - {x}, f, g);
    }
  }

  lemma {:induction false} SumPlus<T(!new)>(s: set<T>, f: T -> int, g: T -> int, h: T -> int)
    requires forall x | x in s :: h(x) == f(x) + g(x)
    ensures Sum(s, h) == Sum(s, f) + Sum(s, g)
  {
    if s == {} {
    } else {
      var x :| x in s;
      SumTake(s, f, x);
      SumTake(s, g, x);
      SumTake(s, h, x);
      SumPlus(s - {x}, f, g, h);
    }
  }

  /** Elements at which f is zero do not matter. */
  lemma {:induction false} SumWiden<T(!new)>(s: set<T>, t: set<T>, f: T -> int)
    requires s <= t
    requires forall x | x in t - s :: f(x) == 0
    ensures Sum(s, f) == Sum(t, f)
    decreases t - s
  {
    if t - s == {} {
      assert forall x | x in t :: x in s || x in t - s;
      assert s == t;
    } else {
      var x :| x in t - s;
      SumTake(t, f, x);
      SumWiden(s, t - {x}, f);
    }
  }

  /** A function that is v at x and zero elsewhere sums to v. */
  lemma SumPoint<T(!new)>(s: set<T>, f: T -> int, x: T)
    requires x in s
    requires forall y | y in s && y != x :: f(y) == 0
    ensures Sum(s, f) == f(x)
  {
    SumWiden({x}, s, f);
    SumTake({x}, f, x);
  }

  lemma {:induction false} SumZero<T(!new)>(s: set<T>, f: T -> int)
    requires forall x | x in s :: f(x) == 0
    ensures Sum(s, f) == 0
  {
    SumWiden({}, s, f);
  }

  /** Changing f at one element changes the sum by that difference. */
  lemma SumChange<T(!new)>(s: set<T>, f: T -> int, g: T -> int, x: T)
    requires x in s
    requires forall y | y in s && y != x :: f(y) == g(y)
    ensures Sum(s, g) == Sum(s, f) - f(x) + g(x)
  {
    SumTake(s, f, x);
    SumTake(s, g, x);
    SumSame(s - {x}, f, g);
  }

  // ---- sums over sequences

  function SumSeq<T>(xs: seq<T>, f: T -> int): int {
    if xs == [] then 0 else f(xs[0]) + SumSeq(xs[1..], f)
  }

  lemma {:induction false} SumSeqSnoc<T>(xs: seq<T>, x: T, f: T -> int)
    ensures SumSeq(xs + [x], f) == SumSeq(xs, f) + f(x)
  {
    var all := xs + [x];
    if xs == [] {
      assert all[1..] == [];
    } else {
      assert all[1..] == xs[1..] + [x];
      SumSeqSnoc(xs[1..], x, f);
    }
  }

  lemma {:induction false} SumSeqLast<T>(xs: seq<T>, f: T -> int)
    requires xs != []
    ensures SumSeq(xs, f) == SumSeq(xs[..|xs| - 1], f) + f(xs[|xs| - 1])
  {
    assert xs == xs[..|xs| - 1] + [xs[|xs| - 1]];
    SumSeqSnoc(xs[..|xs| - 1], xs[|xs| - 1], f);
  }

  lemma {:induction false} SumSeqConcat<T>(xs: seq<T>, ys: seq<T>, f: T -> int)
    ensures SumSeq(xs + ys, f) == SumSeq(xs, f) + SumSeq(ys, f)
  {
    if xs == [] {
      assert xs + ys == ys;
    } else {
      assert (xs + ys)[1..] == xs[1..] + ys;
      SumSeqConcat(xs[1..], ys, f);
    }
  }

  /** Mapping the elements first makes no difference. */
  lemma {:induction false} SumSeqMapped<S, T>(xs: seq<S>, ys: seq<T>, f: S -> int, g: T -> int)
    requires |xs| == |ys| && forall i | 0 <= i < |xs| :: f(xs[i]) == g(ys[i])
    ensures SumSeq(xs, f) == SumSeq(ys, g)
  {
    if xs == [] {
    } else {
      assert forall i | 0 <= i < |xs[1..]| :: xs[1..][i] == xs[i + 1] && ys[1..][i] == ys[i + 1];
      SumSeqMapped(xs[1..], ys[1..], f, g);
    }
  }

  // ---- sums over multisets

  ghost function MSum<T(!new)>(m: multiset<T>, f: T -> int): int
    decreases |m|
  {
    if m == multiset{} then 0 else var x :| x in m; f(x) + MSum(m - multiset{x}, f)
  }

  lemma {:induction false} MSumTake<T(!new)>(m: multiset<T>, f: T -> int, x: T)
    requires x in m
    ensures MSum(m, f) == f(x) + MSum(m - multiset{x}, f)
    decreases |m|
  {
    var y :| y in m && MSum(m, f) == f(y) + MSum(m - multiset{y}, f);
    if y != x {
      MSumTake(m - multiset{y}, f, x);
      MSumTake(m - multiset{x}, f, y);
      assert m - multiset{y} - multiset{x} == m - multiset{x} - multiset{y};
    }
  }

  lemma {:induction false} MSumSame<T(!new)>(m: multiset<T>, f: T -> int, g: T -> int)
    requires forall x | x in m :: f(x) == g(x)
    ensures MSum(m, f) == MSum(m, g)
    decreases |m|
  {
    if m == multiset{} {
    } else {
      var x :| x in m;
      MSumTake(m, f, x);
      MSumTake(m, g, x);
      MSumSame(m - multiset{x}, f, g);
    }
  }

  lemma {:induction false} MSumUnion<T(!new)>(m: multiset<T>, n: multiset<T>, f: T -> int)
    ensures MSum(m + n, f) == MSum(m, f) + MSum(n, f)
    decreases |n|
  {
    if n == multiset{} {
      assert m + n == m;
    } else {
      var x :| x in n;
      MSumTake(n, f, x);
      MSumTake(m + n, f, x);
      assert m + n - multiset{x} == m + (n - multiset{x});
      MSumUnion(m, n - multiset{x}, f);
    }
  }

  lemma {:induction false} MSumOfSet<T(!new)>(s: set<T>, f: T -> int)
    ensures MSum(multiset(s), f) == Sum(s, f)
  {
    if x :| x in s {
      MSumTake(multiset(s), f, x);
      SumTake(s, f, x);
      assert multiset(s) - multiset{x} == multiset(s - {x});
      MSumOfSet(s - {x}, f);
    } else {
      assert s == {};
      assert multiset(s) == multiset{};
    }
  }
}
