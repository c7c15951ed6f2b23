/** Collecting what each element contributes, sorting, and why the order of the input is lost. */
module Collect {
  import Seqs

  /** What the elements contribute, in order. */
  function FlatMap<T, U>(f: T -> seq<U>, xs: seq<T>): seq<U> {
    if xs == [] then [] else FlatMap(f, xs[..|xs| - 1]) + f(xs[|xs| - 1])
  }

  lemma FlatMapNext<T, U>(f: T -> seq<U>, xs: seq<T>, x: T)
    ensures FlatMap(f, xs + [x]) == FlatMap(f, xs) + f(x)
  {
    assert (xs + [x])[..|xs|] == xs;
  }

  lemma {:induction false} FlatMapConcat<T, U>(f: T -> seq<U>, xs: seq<T>, ys: seq<T>)
    ensures FlatMap(f, xs + ys) == FlatMap(f, xs) + FlatMap(f, ys)
    decreases |ys|
  {
    if ys == [] {
      Seqs.NothingBehind(xs, ys);
      Seqs.NothingBehind(FlatMap(f, xs), FlatMap(f, ys));
    } else {
      var n := |ys| - 1;
      FlatMapConcat(f, xs, ys[..n]);
      assert xs + ys == (xs + ys[..n]) + [ys[n]];
      FlatMapNext(f, xs + ys[..n], ys[n]);
      Seqs.ConcatAssoc(FlatMap(f, xs), FlatMap(f, ys[..n]), f(ys[n]));
    }
  }

  lemma {:induction false} FlatMapSame<T, U>(f: T -> seq<U>, g: T -> seq<U>, xs: seq<T>)
    requires forall x :: x in xs ==> f(x) == g(x)
    ensures FlatMap(f, xs) == FlatMap(g, xs)
    decreases |xs|
  {
    if xs != [] { FlatMapSame(f, g, xs[..|xs| - 1]); }
  }

  lemma {:induction false} FlatMapHas<T, U>(f: T -> seq<U>, xs: seq<T>, u: U)
    ensures u in FlatMap(f, xs) <==> exists x :: x in xs && u in f(x)
    decreases |xs|
  {
    if xs != [] {
      var n := |xs| - 1;
      FlatMapHas(f, xs[..n], u);
      assert xs == xs[..n] + [xs[n]];
    }
  }

  lemma FlatMapOne<T, U>(f: T -> seq<U>, x: T)
    ensures FlatMap(f, [x]) == f(x)
  {
    assert [x][..0] == [];
    assert FlatMap(f, [x]) == [] + f(x);
  }

  lemma {:induction false} FlatMapTwiceHas<T, U, V>(f: T -> seq<U>, g: U -> seq<V>, xs: seq<T>, v: V)
    ensures v in FlatMap(g, FlatMap(f, xs)) <==> exists x :: x in xs && v in FlatMap(g, f(x))
    decreases |xs|
  {
    if xs != [] {
      var n := |xs| - 1;
      FlatMapTwiceHas(f, g, xs[..n], v);
      FlatMapConcat(g, FlatMap(f, xs[..n]), f(xs[n]));
      assert xs == xs[..n] + [xs[n]];
    }
  }

  lemma {:induction false} FlatMapNone<T, U>(f: T -> seq<U>, xs: seq<T>)
    requires forall x :: x in xs ==> f(x) == []
    ensures FlatMap(f, xs) == []
    decreases |xs|
  {
    if xs != [] { FlatMapNone(f, xs[..|xs| - 1]); }
  }

  lemma TakeOut<T>(xs: seq<T>, i: nat)
    requires i < |xs|
    ensures xs == xs[..i] + [xs[i]] + xs[i + 1..]
    ensures multiset(xs) == multiset(xs[..i] + xs[i + 1..]) + multiset{xs[i]}
  {
    assert xs == xs[..i] + [xs[i]] + xs[i + 1..];
  }

  lemma Cancel<T>(a: multiset<T>, b: multiset<T>, x: T)
    requires a + multiset{x} == b + multiset{x}
    ensures a == b
  {
    assert a == a + multiset{x} - multiset{x};
    assert b == b + multiset{x} - multiset{x};
  }

  /** Reordering the elements only reorders what they contribute. */
  lemma {:induction false} FlatMapPermuted<T, U>(f: T -> seq<U>, xs: seq<T>, ys: seq<T>)
    requires multiset(xs) == multiset(ys)
    ensures multiset(FlatMap(f, xs)) == multiset(FlatMap(f, ys))
    decreases |xs|
  {
    if xs == [] {
      assert |multiset(ys)| == 0;
    } else {
      var n := |xs| - 1;
      assert xs[n] in multiset(ys);
      var i :| 0 <= i < |ys| && ys[i] == xs[n];
      assert xs == xs[..n] + [xs[n]];
      TakeOut(ys, i);
      Cancel(multiset(xs[..n]), multiset(ys[..i] + ys[i + 1..]), xs[n]);
      FlatMapPermuted(f, xs[..n], ys[..i] + ys[i + 1..]);
      FlatMapConcat(f, ys[..i] + [ys[i]], ys[i + 1..]);
      FlatMapNext(f, ys[..i], ys[i]);
      FlatMapConcat(f, ys[..i], ys[i + 1..]);
    }
  }

  function ToSet<T>(xs: seq<T>): set<T> { set x | x in xs }

  lemma SameSet<T>(xs: seq<T>, ys: seq<T>)
    requires multiset(xs) == multiset(ys)
    ensures ToSet(xs) == ToSet(ys)
  {
    forall x ensures x in xs <==> x in ys {
      assert x in xs <==> x in multiset(xs);
      assert x in ys <==> x in multiset(ys);
    }
  }

  ghost predicate NoRepeats<T>(xs: seq<T>) {
    forall i, j :: 0 <= i < j < |xs| ==> xs[i] != xs[j]
  }

  lemma {:induction false} OnceEach<T>(xs: seq<T>)
    requires NoRepeats(xs)
    ensures multiset(xs) == multiset(ToSet(xs))
    decreases |xs|
  {
    if xs == [] {
      assert ToSet(xs) == {};
    } else {
      var n := |xs| - 1;
      OnceEach(xs[..n]);
      assert xs == xs[..n] + [xs[n]];
      assert ToSet(xs) == ToSet(xs[..n]) + {xs[n]} && xs[n] !in ToSet(xs[..n]);
    }
  }

  // --- sorting ---

  ghost predicate TotalOrder<T(!new)>(le: (T, T) -> bool) {
    && (forall a, b :: le(a, b) || le(b, a))
    && (forall a, b :: le(a, b) && le(b, a) ==> a == b)
    && (forall a, b, c :: le(a, b) && le(b, c) ==> le(a, c))
  }

  function InsertSorted<T>(le: (T, T) -> bool, s: seq<T>, x: T): seq<T> {
    if s == [] then [x] else if le(x, s[0]) then [x] + s else [s[0]] + InsertSorted(le, s[1..], x)
  }

  function Sort<T>(le: (T, T) -> bool, xs: seq<T>): seq<T> {
    if xs == [] then [] else InsertSorted(le, Sort(le, xs[1..]), xs[0])
  }

  ghost predicate Sorted<T>(le: (T, T) -> bool, s: seq<T>) {
    forall i, j :: 0 <= i < j < |s| ==> le(s[i], s[j])
  }

  lemma InsertFront<T(!new)>(le: (T, T) -> bool, s: seq<T>, x: T)
    requires TotalOrder(le) && Sorted(le, s) && s != [] && le(x, s[0])
    ensures Sorted(le, [x] + s)
  {
    var t := [x] + s;
    forall i, j | 0 <= i < j < |t| ensures le(t[i], t[j]) {
      assert j > 1 ==> le(s[0], s[j - 1]);
    }
  }

  lemma InsertBehind<T(!new)>(le: (T, T) -> bool, s: seq<T>, x: T)
    requires TotalOrder(le) && Sorted(le, s) && s != [] && !le(x, s[0])
    requires var t := InsertSorted(le, s[1..], x); Sorted(le, t) && multiset(t) == multiset(s[1..]) + multiset{x}
    ensures Sorted(le, [s[0]] + InsertSorted(le, s[1..], x))
  {
    var t := InsertSorted(le, s[1..], x);
    forall j | 0 <= j < |t| ensures le(s[0], t[j]) {
      assert t[j] in multiset(t);
      assert t[j] == x || t[j] in s[1..];
    }
    var u := [s[0]] + t;
    forall i, j | 0 <= i < j < |u| ensures le(u[i], u[j]) {
      assert i > 0 ==> le(t[i - 1], t[j - 1]);
    }
  }

  lemma {:induction false} InsertFacts<T(!new)>(le: (T, T) -> bool, s: seq<T>, x: T)
    requires TotalOrder(le) && Sorted(le, s)
    ensures Sorted(le, InsertSorted(le, s, x))
    ensures multiset(InsertSorted(le, s, x)) == multiset(s) + multiset{x}
    decreases |s|
  {
    if s != [] {
      assert s == [s[0]] + s[1..];
      if le(x, s[0]) {
        InsertFront(le, s, x);
      } else {
        InsertFacts(le, s[1..], x);
        InsertBehind(le, s, x);
      }
    }
  }

  lemma {:induction false} SortFacts<T(!new)>(le: (T, T) -> bool, xs: seq<T>)
    requires TotalOrder(le)
    ensures Sorted(le, Sort(le, xs)) && multiset(Sort(le, xs)) == multiset(xs)
    decreases |xs|
  {
    if xs != [] {
      SortFacts(le, xs[1..]);
      InsertFacts(le, Sort(le, xs[1..]), xs[0]);
      assert xs == [xs[0]] + xs[1..];
    }
  }

  lemma HeadOff<T>(s: seq<T>)
    requires s != []
    ensures multiset(s) == multiset(s[1..]) + multiset{s[0]}
  {
    assert s == [s[0]] + s[1..];
  }

  lemma {:induction false} SortedUnique<T(!new)>(le: (T, T) -> bool, a: seq<T>, b: seq<T>)
    requires TotalOrder(le) && Sorted(le, a) && Sorted(le, b) && multiset(a) == multiset(b)
    ensures a == b
    decreases |a|
  {
    if a == [] {
      assert |multiset(b)| == 0;
    } else {
      assert a[0] in multiset(b) && |multiset(a)| == |multiset(b)|;
      assert b[0] in multiset(a);
      var i :| 0 <= i < |b| && b[i] == a[0];
      var j :| 0 <= j < |a| && a[j] == b[0];
      assert i > 0 && j > 0 ==> le(a[0], b[0]) && le(b[0], a[0]);
      HeadOff(a);
      HeadOff(b);
      Cancel(multiset(a[1..]), multiset(b[1..]), a[0]);
      SortedUnique(le, a[1..], b[1..]);
    }
  }

  /** Sorting forgets the order of its input. */
  lemma SortPermuted<T(!new)>(le: (T, T) -> bool, xs: seq<T>, ys: seq<T>)
    requires TotalOrder(le) && multiset(xs) == multiset(ys)
    ensures Sort(le, xs) == Sort(le, ys)
  {
    SortFacts(le, xs);
    SortFacts(le, ys);
    SortedUnique(le, Sort(le, xs), Sort(le, ys));
  }
}
