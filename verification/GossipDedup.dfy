/** Cross-platform deduplication of trending items: the rolling longest-common-substring
    table, the hybrid similarity, and the greedy grouping. */
module GossipDedup {
  import opened Wrappers
  import Seqs
  import Ratios

  // --- longest common substring ---

  /** How many characters a[..i] and b[..j] share at their ends. */
  function Suffix(a: string, b: string, i: nat, j: nat): (n: nat)
    requires i <= |a| && j <= |b|
  {
    if i == 0 || j == 0 || a[i - 1] != b[j - 1] then 0 else Suffix(a, b, i - 1, j - 1) + 1
  }

  function Max(x: int, y: int): int { if x >= y then x else y }

  function Min(x: int, y: int): int { if x <= y then x else y }

  /** The largest entry of row i up to column j. */
  function RowBest(a: string, b: string, i: nat, j: nat): nat
    requires i <= |a| && j <= |b|
  {
    if j == 0 then 0 else Max(RowBest(a, b, i, j - 1), Suffix(a, b, i, j))
  }

  /** The largest entry of rows 1..i. */
  function TableBest(a: string, b: string, i: nat): nat
    requires i <= |a|
  {
    if i == 0 then 0 else Max(TableBest(a, b, i - 1), RowBest(a, b, i, |b|))
  }

  function Lcs(a: string, b: string): nat { TableBest(a, b, |a|) }

  method LcsLength(a0: string, b0: string) returns (longest: nat)
    ensures longest == Lcs(a0, b0)
  {
    if |a0| == 0 || |b0| == 0 {
      NoCommonWithEmpty(a0, b0);
      return 0;
    }
    var a, b := a0, b0;
    if |a| < |b| {
      a, b := b, a;
      LcsSymmetric(a0, b0);
    }
    var prev := new nat[|b| + 1](_ => 0);
    longest := 0;
    for i := 1 to |a| + 1
      invariant prev.Length == |b| + 1
      invariant forall j :: 0 <= j <= |b| ==> prev[j] == Suffix(a, b, i - 1, j)
      invariant longest == TableBest(a, b, i - 1)
    {
      prev, longest := NextRow(a, b, i, prev, longest);
    }
  }

  /** The row of table entries behind the one given, and the largest entry so far. */
  method NextRow(a: string, b: string, i: nat, prev: array<nat>, before: nat) returns (curr: array<nat>, longest: nat)
    requires 1 <= i <= |a| && prev.Length == |b| + 1
    requires forall k :: 0 <= k <= |b| ==> prev[k] == Suffix(a, b, i - 1, k)
    ensures curr.Length == |b| + 1 && forall k :: 0 <= k <= |b| ==> curr[k] == Suffix(a, b, i, k)
    ensures longest == Max(before, RowBest(a, b, i, |b|))
  {
    curr := new nat[|b| + 1](_ => 0);
    longest := before;
    for j := 1 to |b| + 1
      invariant curr.Length == |b| + 1 && prev != curr
      invariant forall k :: 0 <= k < j ==> curr[k] == Suffix(a, b, i, k)
      invariant forall k :: j <= k <= |b| ==> curr[k] == 0
      invariant longest == Max(before, RowBest(a, b, i, j - 1))
    {
      if a[i - 1] == b[j - 1] {
        curr[j] := prev[j - 1] + 1;
        longest := Max(longest, curr[j]);
      }
    }
  }

  /** a[i..i+n] and b[j..j+n] are the same n characters. */
  ghost predicate CommonAt(a: string, b: string, i: int, j: int, n: nat) {
    0 <= i <= |a| - n && 0 <= j <= |b| - n && a[i..i + n] == b[j..j + n]
  }

  ghost predicate HasCommon(a: string, b: string, n: nat) {
    exists i, j :: CommonAt(a, b, i, j, n)
  }

  /** n characters end at i and j exactly when the table entry there is at least n. */
  lemma {:induction false} SuffixMeaning(a: string, b: string, i: nat, j: nat, n: nat)
    requires i <= |a| && j <= |b|
    ensures n <= Suffix(a, b, i, j) <==> n <= i && n <= j && a[i - n..i] == b[j - n..j]
    decreases n
  {
    if n > 0 {
      if i > 0 && j > 0 && a[i - 1] == b[j - 1] {
        SuffixMeaning(a, b, i - 1, j - 1, n - 1);
        if n <= i && n <= j {
          SameEnds(a, b, i, j, n);
        }
      } else if 0 < n <= i && n <= j {
        assert a[i - n..i][n - 1] == a[i - 1] && b[j - n..j][n - 1] == b[j - 1];
      }
    }
  }

  lemma SameEnds(a: string, b: string, i: nat, j: nat, n: nat)
    requires 0 < n <= i <= |a| && n <= j <= |b| && a[i - 1] == b[j - 1]
    ensures a[i - n..i] == b[j - n..j] <==> a[i - n..i - 1] == b[j - n..j - 1]
  {
    var s, t := a[i - n..i], b[j - n..j];
    assert s == a[i - n..i - 1] + [a[i - 1]];
    assert t == b[j - n..j - 1] + [b[j - 1]];
    assert s[..n - 1] == a[i - n..i - 1] && t[..n - 1] == b[j - n..j - 1];
  }

  lemma {:induction false} RowBestIsMax(a: string, b: string, i: nat, j: nat)
    requires i <= |a| && j <= |b|
    ensures forall l :: 0 <= l <= j ==> Suffix(a, b, i, l) <= RowBest(a, b, i, j)
    ensures exists l :: 0 <= l <= j && Suffix(a, b, i, l) == RowBest(a, b, i, j)
  {
    if j == 0 {
      assert Suffix(a, b, i, 0) == 0;
    } else {
      RowBestIsMax(a, b, i, j - 1);
    }
  }

  lemma {:induction false} TableBestIsMax(a: string, b: string, i: nat)
    requires i <= |a|
    ensures forall k, l :: 0 <= k <= i && 0 <= l <= |b| ==> Suffix(a, b, k, l) <= TableBest(a, b, i)
    ensures exists k, l :: 0 <= k <= i && 0 <= l <= |b| && Suffix(a, b, k, l) == TableBest(a, b, i)
  {
    if i == 0 {
      assert Suffix(a, b, 0, 0) == 0;
    } else {
      TableBestIsMax(a, b, i - 1);
      RowBestIsMax(a, b, i, |b|);
    }
  }

  lemma LcsIsCommon(a: string, b: string)
    ensures HasCommon(a, b, Lcs(a, b)) && Lcs(a, b) <= Min(|a|, |b|)
  {
    TableBestIsMax(a, b, |a|);
    var k, l :| 0 <= k <= |a| && 0 <= l <= |b| && Suffix(a, b, k, l) == Lcs(a, b);
    var n := Lcs(a, b);
    SuffixMeaning(a, b, k, l, n);
    assert CommonAt(a, b, k - n, l - n, n);
  }

  lemma NoLongerCommon(a: string, b: string, n: nat)
    requires HasCommon(a, b, n)
    ensures n <= Lcs(a, b)
  {
    TableBestIsMax(a, b, |a|);
    var i, j :| CommonAt(a, b, i, j, n);
    SuffixMeaning(a, b, i + n, j + n, n);
    assert a[i + n - n..i + n] == a[i..i + n] && b[j + n - n..j + n] == b[j..j + n];
  }

  /** The table's maximum is the length of a longest common contiguous substring. */
  lemma LcsIsLongest(a: string, b: string)
    ensures HasCommon(a, b, Lcs(a, b))
    ensures forall n: nat :: HasCommon(a, b, n) ==> n <= Lcs(a, b)
    ensures Lcs(a, b) <= Min(|a|, |b|)
  {
    LcsIsCommon(a, b);
    forall n: nat | HasCommon(a, b, n) ensures n <= Lcs(a, b) {
      NoLongerCommon(a, b, n);
    }
  }

  lemma LcsUnique(a: string, b: string, n: nat)
    requires HasCommon(a, b, n) && forall m: nat :: HasCommon(a, b, m) ==> m <= n
    ensures n == Lcs(a, b)
  {
    LcsIsLongest(a, b);
  }

  lemma LcsSymmetric(a: string, b: string)
    ensures Lcs(a, b) == Lcs(b, a)
  {
    LcsIsLongest(b, a);
    CommonSwaps(b, a, Lcs(b, a));
    forall m: nat | HasCommon(a, b, m) ensures m <= Lcs(b, a) {
      CommonSwaps(a, b, m);
    }
    LcsUnique(a, b, Lcs(b, a));
  }

  lemma CommonSwaps(a: string, b: string, n: nat)
    requires HasCommon(a, b, n)
    ensures HasCommon(b, a, n)
  {
    var i, j :| CommonAt(a, b, i, j, n);
    assert CommonAt(b, a, j, i, n);
  }

  lemma NoCommonWithEmpty(a: string, b: string)
    requires |a| == 0 || |b| == 0
    ensures Lcs(a, b) == 0
  {
    LcsIsLongest(a, b);
  }

  // --- hybrid similarity ---

  function Trigrams(s: string): set<string> {
    if |s| < 3 then (if s != [] then {s} else {})
    else set i | 0 <= i <= |s| - 3 :: TrigramAt(s, i)
  }

  function TrigramAt(s: string, i: nat): string
    requires i <= |s| - 3
  {
    s[i..i + 3]
  }

  function Jaccard<T>(x: set<T>, y: set<T>): real {
    if x == {} || y == {} then 0.0 else |x * y| as real / |x + y| as real
  }

  function MaxReal(x: real, y: real): real { if x >= y then x else y }

  function Hybrid(a: string, b: string): real {
    if a == [] || b == [] then 0.0
    else MaxReal(Jaccard(Trigrams(a), Trigrams(b)), Lcs(a, b) as real / Min(|a|, |b|) as real)
  }

  method HybridSimilarity(a: string, b: string) returns (sim: real)
    ensures sim == Hybrid(a, b)
  {
    if a == [] || b == [] { return 0.0; }
    var trigSim := Jaccard(Trigrams(a), Trigrams(b));
    var lcs := LcsLength(a, b);
    var lcsSim := lcs as real / Min(|a|, |b|) as real;
    sim := MaxReal(trigSim, lcsSim);
  }

  lemma JaccardRange<T>(x: set<T>, y: set<T>)
    ensures 0.0 <= Jaccard(x, y) <= 1.0
    ensures Jaccard(x, y) == Jaccard(y, x)
    ensures x == y != {} ==> Jaccard(x, y) == 1.0
  {
    assert x * y == y * x && x + y == y + x;
    if x != {} && y != {} {
      var m :| m in x;
      assert m in x + y;
      Seqs.SubsetSize(x * y, x + y);
      Ratios.RatioRange(|x * y|, |x + y|);
      if x == y { assert x * y == x + y; }
    }
  }

  lemma LcsOfSelf(a: string)
    ensures Lcs(a, a) == |a|
  {
    LcsIsLongest(a, a);
    assert CommonAt(a, a, 0, 0, |a|);
    assert HasCommon(a, a, |a|);
  }

  /** The share of common elements reaches a positive threshold exactly when there are enough of them. */
  lemma JaccardReaches<T>(x: set<T>, y: set<T>, t: real)
    requires t > 0.0
    ensures Jaccard(x, y) >= t <==> x != {} && y != {} && |x * y| as real >= t * |x + y| as real
  {
    if x != {} && y != {} {
      var m :| m in x;
      assert m in x + y;
      Ratios.RatioAtLeast(|x * y|, |x + y|, t);
    }
  }

  /** The similarity of two titles is the larger of two signals: the share of common trigrams, and
      the longest common substring relative to the shorter title. */
  lemma HybridIsLarger(a: string, b: string)
    requires a != [] && b != []
    ensures var shorter := if |a| <= |b| then |a| else |b|;
            var share, text := Jaccard(Trigrams(a), Trigrams(b)), Lcs(a, b) as real / shorter as real;
            && Hybrid(a, b) >= share && Hybrid(a, b) >= text
            && (Hybrid(a, b) == share || Hybrid(a, b) == text)
  {
  }

  /** Without a title there is none. */
  lemma HybridOfNothing(a: string, b: string)
    requires a == [] || b == []
    ensures Hybrid(a, b) == 0.0
  {
  }

  function TripleAt(s: string, i: nat): string
    requires i + 2 < |s|
  {
    [s[i], s[i + 1], s[i + 2]]
  }

  /** The trigrams of a title are its three-character substrings, or the whole of a shorter one. */
  lemma TrigramsAre(s: string, g: string)
    ensures |s| >= 3 ==> (g in Trigrams(s) <==> exists i: nat :: i + 2 < |s| && TripleAt(s, i) == g)
    ensures 0 < |s| < 3 ==> (g in Trigrams(s) <==> g == s)
    ensures s == [] ==> Trigrams(s) == {}
  {
    if |s| >= 3 {
      forall i: nat | i + 2 < |s| ensures TrigramAt(s, i) == TripleAt(s, i) {
        assert s[i..i + 3] == [s[i], s[i + 1], s[i + 2]];
      }
      if g in Trigrams(s) {
        var i :| 0 <= i <= |s| - 3 && TrigramAt(s, i) == g;
        assert TripleAt(s, i) == g;
      }
      if exists i: nat :: i + 2 < |s| && TripleAt(s, i) == g {
        var i: nat :| i + 2 < |s| && TripleAt(s, i) == g;
        assert TrigramAt(s, i) == g;
      }
    }
  }

  /** The similarity is a symmetric score in [0, 1], and 1 for a title and itself. */
  lemma HybridRange(a: string, b: string)
    ensures 0.0 <= Hybrid(a, b) <= 1.0
    ensures Hybrid(a, b) == Hybrid(b, a)
    ensures a == b != [] ==> Hybrid(a, b) == 1.0
  {
    if a != [] && b != [] {
      LcsSymmetric(a, b);
      LcsIsLongest(a, b);
      Ratios.RatioRange(Lcs(a, b), Min(|a|, |b|));
      if a == b { LcsOfSelf(a); }
      JaccardRange(Trigrams(a), Trigrams(b));
    }
  }
}
