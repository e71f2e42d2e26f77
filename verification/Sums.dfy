/** Sums over a sequence, and sequences put together from parts, in whatever
    order the terms or the parts come. */
module Sums {

  function Total<T>(xs: seq<T>, f: T -> real): real {
    if xs == [] then 0.0 else Total(xs[..|xs| - 1], f) + f(xs[|xs| - 1])
  }

  lemma {:induction false} TotalAppend<T>(xs: seq<T>, ys: seq<T>, f: T -> real)
    ensures Total(xs + ys, f) == Total(xs, f) + Total(ys, f)
  {
    if ys == [] {
      assert xs + ys == xs;
    } else {
      var front := ys[..|ys| - 1];
      assert (xs + ys)[..|xs + ys| - 1] == xs + front;
      TotalAppend(xs, front, f);
    }
  }

  lemma TotalSingle<T>(x: T, f: T -> real)
    ensures Total([x], f) == f(x)
  {
    assert [x][..0] == [];
  }

  lemma TotalExtract<T>(xs: seq<T>, i: nat, f: T -> real)
    requires i < |xs|
    ensures Total(xs, f) == Total(xs[..i] + xs[i + 1..], f) + f(xs[i])
  {
    var x := xs[i];
    assert xs == xs[..i] + ([x] + xs[i + 1..]);
    TotalAppend(xs[..i], [x] + xs[i + 1..], f);
    TotalAppend([x], xs[i + 1..], f);
    TotalAppend(xs[..i], xs[i + 1..], f);
    TotalSingle(x, f);
  }

  lemma MatchLast<T>(xs: seq<T>, ys: seq<T>) returns (i: nat)
    requires multiset(xs) == multiset(ys) && xs != []
    ensures i < |ys| && ys[i] == xs[|xs| - 1]
    ensures multiset(xs[..|xs| - 1]) == multiset(ys[..i] + ys[i + 1..])
  {
    var front, x := xs[..|xs| - 1], xs[|xs| - 1];
    assert xs == front + [x];
    assert multiset(xs) == multiset(front) + multiset{x};
    assert x in multiset(ys);
    i :| i < |ys| && ys[i] == x;
    var rest := ys[..i] + ys[i + 1..];
    assert ys == ys[..i] + [x] + ys[i + 1..];
    assert multiset(ys) == multiset(ys[..i] + [x] + ys[i + 1..]) == multiset(rest) + multiset{x};
    assert multiset(front) == multiset(xs) - multiset{x} == multiset(rest);
  }

  /** Terms may be added in any order. */
  lemma {:induction false} TotalOrderFree<T>(xs: seq<T>, ys: seq<T>, f: T -> real)
    requires multiset(xs) == multiset(ys)
    ensures Total(xs, f) == Total(ys, f)
    decreases |xs|
  {
    if xs == [] {
      assert |multiset(ys)| == 0;
    } else {
      var i := MatchLast(xs, ys);
      TotalOrderFree(xs[..|xs| - 1], ys[..i] + ys[i + 1..], f);
      TotalExtract(ys, i, f);
    }
  }

  // --- Parts ---

  function Range(n: nat): (r: seq<nat>)
    ensures |r| == n && forall i :: 0 <= i < n ==> r[i] == i
  {
    if n == 0 then [] else Range(n - 1) + [n - 1]
  }

  function Concat<T>(parts: seq<seq<T>>): seq<T> {
    if parts == [] then [] else Concat(parts[..|parts| - 1]) + parts[|parts| - 1]
  }

  /** The parts of these nodes, in this order. */
  function Gather<T>(order: seq<nat>, part: nat -> seq<T>): seq<T> {
    if order == [] then [] else Gather(order[..|order| - 1], part) + part(order[|order| - 1])
  }

  lemma {:induction false} GatherIsConcat<T>(order: seq<nat>, part: nat -> seq<T>, parts: seq<seq<T>>)
    requires |parts| == |order| && forall k :: 0 <= k < |order| ==> parts[k] == part(order[k])
    ensures Concat(parts) == Gather(order, part)
  {
    if order != [] {
      GatherIsConcat(order[..|order| - 1], part, parts[..|order| - 1]);
    }
  }

  lemma {:induction false} GatherAppend<T>(xs: seq<nat>, ys: seq<nat>, part: nat -> seq<T>)
    ensures Gather(xs + ys, part) == Gather(xs, part) + Gather(ys, part)
  {
    if ys == [] {
      assert xs + ys == xs;
    } else {
      var front := ys[..|ys| - 1];
      assert (xs + ys)[..|xs + ys| - 1] == xs + front;
      GatherAppend(xs, front, part);
    }
  }

  lemma GatherSingle<T>(x: nat, part: nat -> seq<T>)
    ensures Gather([x], part) == part(x)
  {
    assert [x][..0] == [];
  }

  lemma GatherExtract<T>(xs: seq<nat>, i: nat, part: nat -> seq<T>)
    requires i < |xs|
    ensures multiset(Gather(xs, part)) == multiset(Gather(xs[..i] + xs[i + 1..], part)) + multiset(part(xs[i]))
  {
    var x := xs[i];
    assert xs == xs[..i] + ([x] + xs[i + 1..]);
    GatherAppend(xs[..i], [x] + xs[i + 1..], part);
    GatherAppend([x], xs[i + 1..], part);
    GatherAppend(xs[..i], xs[i + 1..], part);
    GatherSingle(x, part);
  }

  /** Gathering in another order gives the same elements, each as often. */
  lemma {:induction false} GatherOrderFree<T>(xs: seq<nat>, ys: seq<nat>, part: nat -> seq<T>)
    requires multiset(xs) == multiset(ys)
    ensures multiset(Gather(xs, part)) == multiset(Gather(ys, part))
    decreases |xs|
  {
    if xs == [] {
      assert |multiset(ys)| == 0;
    } else {
      var i := MatchLast(xs, ys);
      GatherOrderFree(xs[..|xs| - 1], ys[..i] + ys[i + 1..], part);
      GatherExtract(ys, i, part);
    }
  }

  lemma GatherLast<T>(n: nat, part: nat -> seq<T>)
    requires n > 0
    ensures Gather(Range(n), part) == Gather(Range(n - 1), part) + part(n - 1)
    ensures multiset(Gather(Range(n), part)) == multiset(Gather(Range(n - 1), part)) + multiset(part(n - 1))
  {
    assert Range(n)[..n - 1] == Range(n - 1);
  }

  lemma Exchange<T>(a: multiset<T>, b: multiset<T>, c: multiset<T>, d: multiset<T>)
    ensures (a + b) + (c + d) == (a + c) + (b + d)
  {
  }

  /** Parts that split in two, element by element, split in two altogether. */
  lemma {:induction false} GatherSplit<T>(n: nat, part: nat -> seq<T>, p: nat -> seq<T>, q: nat -> seq<T>)
    requires forall i: nat :: i < n ==> multiset(part(i)) == multiset(p(i)) + multiset(q(i))
    ensures multiset(Gather(Range(n), part)) == multiset(Gather(Range(n), p)) + multiset(Gather(Range(n), q))
  {
    if n > 0 {
      GatherLast(n, part);
      GatherLast(n, p);
      GatherLast(n, q);
      GatherSplit(n - 1, part, p, q);
      Exchange(multiset(Gather(Range(n - 1), p)), multiset(Gather(Range(n - 1), q)),
               multiset(p(n - 1)), multiset(q(n - 1)));
    }
  }

  function OnlyAt<T>(j: nat, x: T): nat -> seq<T> { i => if i == j then [x] else [] }

  lemma {:induction false} GatherOnly<T>(n: nat, j: nat, x: T)
    ensures Gather(Range(n), OnlyAt(j, x)) == if j < n then [x] else []
  {
    if n > 0 {
      GatherLast(n, OnlyAt(j, x));
      GatherOnly(n - 1, j, x);
    }
  }

  /** One more element in one part is one more element in all. */
  lemma GatherBump<T>(n: nat, p: nat -> seq<T>, q: nat -> seq<T>, j: nat, x: T)
    requires j < n
    requires forall i: nat :: i < n ==> q(i) == p(i) + (if i == j then [x] else [])
    ensures multiset(Gather(Range(n), q)) == multiset(Gather(Range(n), p)) + multiset{x}
  {
    GatherSplit(n, q, p, OnlyAt(j, x));
    GatherOnly(n, j, x);
  }
}
