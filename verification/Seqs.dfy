/** Sequence helpers shared by the byte-level and text-level models. */
module Seqs {

  /** How many leading elements satisfy p. */
  function Lead<T>(p: T -> bool, s: seq<T>): (n: nat)
    ensures n <= |s|
    ensures n < |s| ==> !p(s[n])
    ensures forall i :: 0 <= i < n ==> p(s[i])
  {
    LeadFrom(p, s, 0)
  }

  function LeadFrom<T>(p: T -> bool, s: seq<T>, k: nat): (n: nat)
    requires k <= |s|
    ensures k <= n <= |s|
    ensures n < |s| ==> !p(s[n])
    ensures forall i :: k <= i < n ==> p(s[i])
    decreases |s| - k
  {
    if k < |s| && p(s[k]) then LeadFrom(p, s, k + 1) else k
  }

  /** How long s is once the trailing elements satisfying p are gone. */
  function Keep<T>(p: T -> bool, s: seq<T>): (n: nat)
    ensures n <= |s|
    ensures n > 0 ==> !p(s[n - 1])
    ensures forall i :: n <= i < |s| ==> p(s[i])
  {
    KeepTo(p, s, |s|)
  }

  function KeepTo<T>(p: T -> bool, s: seq<T>, k: nat): (n: nat)
    requires k <= |s|
    ensures n <= k
    ensures n > 0 ==> !p(s[n - 1])
    ensures forall i :: n <= i < k ==> p(s[i])
  {
    if k > 0 && p(s[k - 1]) then KeepTo(p, s, k - 1) else k
  }

  function TrimRight<T>(p: T -> bool, s: seq<T>): seq<T> { s[..Keep(p, s)] }

  /** Drop the padding (elements satisfying p) on both sides. */
  function Trim<T>(p: T -> bool, s: seq<T>): seq<T> {
    if Lead(p, s) < Keep(p, s) then s[Lead(p, s)..Keep(p, s)] else []
  }

  ghost predicate All<T>(p: T -> bool, s: seq<T>) {
    forall i :: 0 <= i < |s| ==> p(s[i])
  }

  lemma TrimEmptyIffAll<T>(p: T -> bool, s: seq<T>)
    ensures Trim(p, s) == [] <==> All(p, s)
  {
    if Lead(p, s) < Keep(p, s) {
      assert !p(s[Lead(p, s)]);
    }
  }

  /** A stretch of s with padding on both sides and none at its ends is what trimming leaves. */
  lemma TrimIs<T>(p: T -> bool, s: seq<T>, i: nat, j: nat)
    requires i < j <= |s| && !p(s[i]) && !p(s[j - 1])
    requires forall k :: 0 <= k < i || j <= k < |s| ==> p(s[k])
    ensures Trim(p, s) == s[i..j]
  {
    assert Lead(p, s) == i && Keep(p, s) == j;
  }

  /** What counts as padding at each position decides alone how much of it there is. */
  lemma SamePadding<T>(p: T -> bool, s: seq<T>, t: seq<T>)
    requires |s| == |t| && forall i :: 0 <= i < |s| ==> p(s[i]) == p(t[i])
    ensures Lead(p, s) == Lead(p, t) && Keep(p, s) == Keep(p, t)
  {
    var i, j := Lead(p, s), Keep(p, s);
    assert i < |s| ==> !p(t[i]);
    assert Lead(p, t) < |t| ==> !p(s[Lead(p, t)]);
    assert j > 0 ==> !p(t[j - 1]);
    assert Keep(p, t) > 0 ==> !p(s[Keep(p, t) - 1]);
  }

  lemma TrimMapped<T>(p: T -> bool, f: T -> T, s: seq<T>, t: seq<T>)
    requires |s| == |t| && (forall i :: 0 <= i < |s| ==> t[i] == f(s[i])) && forall x :: p(f(x)) == p(x)
    ensures |Trim(p, t)| == |Trim(p, s)| && forall i :: 0 <= i < |Trim(p, s)| ==> Trim(p, t)[i] == f(Trim(p, s)[i])
  {
    SamePadding(p, s, t);
  }

  /** Padding on both sides goes, what is solid in between stays. */
  lemma TrimCore<T>(p: T -> bool, a: seq<T>, x: seq<T>, b: seq<T>)
    requires All(p, a) && All(p, b) && x != [] && !p(x[0]) && !p(x[|x| - 1])
    ensures Trim(p, a + x + b) == x
  {
    var s, i, j := a + x + b, |a|, |a| + |x|;
    assert s[i] == x[0] && s[j - 1] == x[|x| - 1];
    TrimIs(p, s, i, j);
    assert s[i..j] == x;
  }

  lemma TakeNext<T>(s: seq<T>, n: nat)
    requires n < |s|
    ensures s[..n + 1] == s[..n] + [s[n]]
  {
  }

  lemma SplitAt<T>(s: seq<T>, n: nat)
    requires n <= |s|
    ensures s == s[..n] + s[n..]
  {
  }

  lemma CutAround<T>(s: seq<T>, i: nat)
    requires i < |s|
    ensures s == s[..i] + [s[i]] + s[i + 1..]
  {
  }

  lemma TrimPadRight<T>(p: T -> bool, a: seq<T>, b: seq<T>)
    requires All(p, b)
    ensures Trim(p, a + b) == Trim(p, a)
  {
    if All(p, a) {
      TrimEmptyIffAll(p, a);
      TrimEmptyIffAll(p, a + b);
    } else {
      TrimEmptyIffAll(p, a);
      TrimIs(p, a + b, Lead(p, a), Keep(p, a));
    }
  }

  lemma TrimPadLeft<T>(p: T -> bool, a: seq<T>, b: seq<T>)
    requires All(p, a)
    ensures Trim(p, a + b) == Trim(p, b)
  {
    TrimShift(p, a + b, |a|, b);
  }

  lemma TrimShift<T>(p: T -> bool, s: seq<T>, n: nat, b: seq<T>)
    requires |s| == n + |b|
    requires forall k :: 0 <= k < n ==> p(s[k])
    requires forall k :: n <= k < |s| ==> s[k] == b[k - n]
    ensures Trim(p, s) == Trim(p, b)
  {
    if Lead(p, b) == |b| {
      TrimEmptyIffAll(p, b);
      TrimEmptyIffAll(p, s);
    } else {
      ShiftedCore(p, s, n, b, Lead(p, b), Keep(p, b));
    }
  }

  lemma ShiftedCore<T>(p: T -> bool, s: seq<T>, n: nat, b: seq<T>, i: nat, j: nat)
    requires |s| == n + |b| && i == Lead(p, b) < |b| && j == Keep(p, b)
    requires forall k :: 0 <= k < n ==> p(s[k])
    requires forall k :: n <= k < |s| ==> s[k] == b[k - n]
    ensures Trim(p, s) == Trim(p, b)
  {
    assert !p(b[i]) && i < j;
    assert s[n + i] == b[i] && s[n + j - 1] == b[j - 1];
    TrimIs(p, s, n + i, n + j);
    SameSlice(s, n + i, n + j, b, i, j);
  }

  lemma SameSlice<T>(s: seq<T>, i: nat, j: nat, t: seq<T>, k: nat, l: nat)
    requires i <= j <= |s| && k <= l <= |t| && j - i == l - k
    requires forall n :: i <= n < j ==> s[n] == t[n - i + k]
    ensures s[i..j] == t[k..l]
  {
    forall n | 0 <= n < j - i ensures s[i..j][n] == t[k..l][n] {
      assert s[i + n] == t[n + k];
    }
  }

  /** With core text on both sides, the trimmed whole starts with the trimmed left part. */
  lemma TrimConcat<T>(p: T -> bool, a: seq<T>, b: seq<T>) returns (m: seq<T>)
    requires !All(p, a) && !All(p, b)
    ensures Trim(p, a + b) == Trim(p, a) + m
    ensures !All(p, m)
  {
    m := TrimTwoParts(p, a + b, a, b);
  }

  lemma TrimTwoParts<T>(p: T -> bool, s: seq<T>, a: seq<T>, b: seq<T>) returns (m: seq<T>)
    requires !All(p, a) && !All(p, b)
    requires |s| == |a| + |b|
    requires forall k :: 0 <= k < |a| ==> s[k] == a[k]
    requires forall k :: |a| <= k < |s| ==> s[k] == b[k - |a|]
    ensures Trim(p, s) == Trim(p, a) + m
    ensures !All(p, m)
  {
    var i, k, j := Lead(p, a), Keep(p, a), |a| + Keep(p, b);
    assert s[j - 1] == b[j - 1 - |a|];
    assert s[i] == a[i];
    TrimIs(p, s, i, j);
    m := s[k..j];
    SliceSplit(s, i, k, j);
    SameSlice(s, i, k, a, i, k);
    assert m[|m| - 1] == s[j - 1];
  }

  lemma SliceSplit<T>(s: seq<T>, i: nat, k: nat, j: nat)
    requires i <= k <= j <= |s|
    ensures s[i..j] == s[i..k] + s[k..j]
  {
  }

  lemma CutConcat<T>(a: seq<T>, b: seq<T>, i: nat)
    requires i < |a|
    ensures (a + b)[i] == a[i]
    ensures (a + b)[..i] == a[..i]
    ensures (a + b)[i + 1..] == a[i + 1..] + b
  {
  }

  lemma NothingInFront<T>(a: seq<T>, b: seq<T>)
    requires a == []
    ensures a + b == b
  {
  }

  lemma NothingBehind<T>(a: seq<T>, b: seq<T>)
    requires b == []
    ensures a + b == a
  {
  }

  lemma ConcatAssoc<T>(a: seq<T>, b: seq<T>, c: seq<T>)
    ensures a + b + c == a + (b + c)
  {
  }

  lemma SubsetSize<T>(a: set<T>, b: set<T>)
    requires a <= b
    ensures |a| <= |b|
  {
    assert b == a + (b - a);
  }
}
