/** The greedy grouping of trending items around their first similar opener. */
module GossipCluster {
  import opened StrOrder
  import opened GossipDedup
  import Ratios

  // --- the grouping, over any similarity relation ---

  type Relation = (nat, nat) -> bool

  /** Item i opens a group: no earlier opener is similar to it. */
  ghost predicate Leads(sim: Relation, i: nat)
    decreases i, 1
  {
    NoLeaderBelow(sim, i, i)
  }

  /** No opener before i is similar to item k. */
  ghost predicate NoLeaderBelow(sim: Relation, i: nat, k: nat)
    decreases i, 0
  {
    i == 0 || (NoLeaderBelow(sim, i - 1, k) && !(Leads(sim, i - 1) && sim(i - 1, k)))
  }

  /** Item k belongs to the group i opens: i is the first opener similar to it, or k itself. */
  ghost predicate Owns(sim: Relation, i: nat, k: nat) {
    Leads(sim, i) && (k == i || (i < k && sim(i, k) && NoLeaderBelow(sim, i, k)))
  }

  lemma {:induction false} NoLeaderBelowMeans(sim: Relation, i: nat, k: nat)
    ensures NoLeaderBelow(sim, i, k) <==> forall l: nat :: l < i && Leads(sim, l) ==> !sim(l, k)
    decreases i
  {
    if i > 0 { NoLeaderBelowMeans(sim, i - 1, k); }
  }

  /** The groups partition the items: each item has exactly one group. */
  lemma EveryItemHasOneGroup(sim: Relation, k: nat)
    ensures exists i: nat :: i <= k && Owns(sim, i, k)
    ensures forall i: nat, j: nat :: Owns(sim, i, k) && Owns(sim, j, k) ==> i == j
  {
    var i := OwnerOf(sim, k, k);
    forall i: nat, j: nat | Owns(sim, i, k) && Owns(sim, j, k) ensures i == j {
      NoLeaderBelowMeans(sim, i, k);
      NoLeaderBelowMeans(sim, j, k);
    }
  }

  lemma OwnerOf(sim: Relation, k: nat, hi: nat) returns (i: nat)
    requires hi <= k
    ensures i <= hi
    ensures if NoLeaderBelow(sim, hi, k) then i == hi
            else i < hi && Leads(sim, i) && sim(i, k) && NoLeaderBelow(sim, i, k)
    ensures hi == k ==> Owns(sim, i, k)
    decreases hi
  {
    if NoLeaderBelow(sim, hi, k) {
      i := hi;
    } else {
      i := OwnerOf(sim, k, hi - 1);
    }
  }

  /** A member is similar to its opener, and no two openers are similar. */
  lemma GroupsRespectSimilarity(sim: Relation, i: nat, j: nat, k: nat)
    ensures Owns(sim, i, k) && k != i ==> sim(i, k)
    ensures Leads(sim, i) && Leads(sim, j) && i < j ==> !sim(i, j)
  {
    NoLeaderBelowMeans(sim, j, j);
  }

  // --- platform lists ---

  ghost predicate StrictlySorted(s: seq<string>) {
    forall i, j :: 0 <= i < j < |s| ==> StrLess(s[i], s[j])
  }

  /** Put x into a sorted list unless it is there already. */
  function Insert(s: seq<string>, x: string): (r: seq<string>) {
    if s == [] then [x]
    else if s[0] == x then s
    else if StrLess(x, s[0]) then [x] + s
    else [s[0]] + Insert(s[1..], x)
  }

  lemma {:induction false} InsertSorted(s: seq<string>, x: string)
    requires StrictlySorted(s)
    ensures StrictlySorted(Insert(s, x))
    ensures forall y :: y in Insert(s, x) <==> y == x || y in s
  {
    if s != [] && s[0] != x {
      if StrLess(x, s[0]) {
        forall j | 0 < j < |s| ensures StrLess(x, s[j]) {
          StrLessTransitive(x, s[0], s[j]);
        }
      } else {
        StrLessTotal(s[0], x);
        InsertSorted(s[1..], x);
        var t := Insert(s[1..], x);
        forall j | 0 <= j < |t| ensures StrLess(s[0], t[j]) {
          assert t[j] in t;
        }
      }
    }
  }

  // --- merging a group ---

  datatype Item = Item(
    platform: string, rank: int, title: string, url: string, heat: int, tag: string,
    fetchedAt: real, hotChange: real, createdAt: real,
    crossPlatformCount: nat, mergedFrom: seq<string>,
    notes: map<string, string>)  // scores, description, summary, sentiment, region, category

  const THRESHOLD := 0.30

  /** The first item with the highest heat (max over the group). */
  function Hottest(group: seq<Item>): Item
    requires group != []
  {
    if |group| == 1 then group[0]
    else
      var h := Hottest(group[..|group| - 1]);
      if group[|group| - 1].heat > h.heat then group[|group| - 1] else h
  }

  lemma {:induction false} HottestIs(group: seq<Item>) returns (k: nat)
    requires group != []
    ensures k < |group| && Hottest(group) == group[k]
    ensures forall j :: 0 <= j < |group| ==> group[j].heat <= group[k].heat
    ensures forall j :: 0 <= j < k ==> group[j].heat < group[k].heat
  {
    var n := |group| - 1;
    if n == 0 {
      k := 0;
    } else {
      k := HottestIs(group[..n]);
      assert forall j :: 0 <= j < n ==> group[..n][j] == group[j];
      if group[n].heat > group[k].heat { k := n; }
    }
  }

  function Platforms(group: seq<Item>): seq<string> {
    if group == [] then []
    else Insert(Platforms(group[..|group| - 1]), group[|group| - 1].platform)
  }

  lemma {:induction false} PlatformsAre(group: seq<Item>)
    ensures StrictlySorted(Platforms(group))
    ensures forall p :: p in Platforms(group) <==> exists k :: 0 <= k < |group| && group[k].platform == p
  {
    if group != [] {
      var n := |group| - 1;
      var init := group[..n];
      PlatformsAre(init);
      InsertSorted(Platforms(init), group[n].platform);
      assert forall k :: 0 <= k < n ==> init[k] == group[k];
    }
  }

  function Merged(group: seq<Item>): Item
    requires group != []
  {
    Hottest(group).(crossPlatformCount := |Platforms(group)|, mergedFrom := Platforms(group), notes := map[])
  }

  /** The first of the group with the highest heat. */
  ghost predicate FirstHottest(group: seq<Item>, k: nat) {
    && k < |group| && (forall j :: 0 <= j < |group| ==> group[j].heat <= group[k].heat)
    && forall j :: 0 <= j < k ==> group[j].heat < group[k].heat
  }

  /** What one output item says about its group: it is the first hottest item, with the platforms of
      all of them, sorted, each once. */
  lemma MergedSummarises(group: seq<Item>)
    requires group != []
    ensures var m := Merged(group);
            && (exists k: nat :: FirstHottest(group, k)
                            && m == group[k].(crossPlatformCount := |m.mergedFrom|, mergedFrom := m.mergedFrom,
                                              notes := map[]))
            && StrictlySorted(m.mergedFrom)
            && (forall p :: p in m.mergedFrom <==> exists k :: 0 <= k < |group| && group[k].platform == p)
            && m.crossPlatformCount == |m.mergedFrom| == |set p | p in m.mergedFrom|
  {
    var k := HottestIs(group);
    assert FirstHottest(group, k);
    PlatformsAre(group);
    SortedHasNoRepeats(Platforms(group));
  }

  lemma {:induction false} SortedHasNoRepeats(s: seq<string>)
    requires StrictlySorted(s)
    ensures |set p | p in s| == |s|
  {
    if s != [] {
      SortedHasNoRepeats(s[1..]);
      var rest := set p | p in s[1..];
      StrLessIrreflexive(s[0]);
      assert s[0] !in rest;
      assert s == [s[0]] + s[1..];
      assert (set p | p in s) == {s[0]} + rest;
    }
  }

  // --- the double loop ---

  function SimilarTitles(t: seq<string>): Relation {
    (i: nat, j: nat) => i < |t| && j < |t| && Hybrid(t[i], t[j]) >= THRESHOLD
  }

  /** Two titles are similar exactly when both say something and three in ten of their trigrams are
      common, or a common substring is three tenths of the shorter one. */
  lemma SimilarMeans(t: seq<string>, i: nat, j: nat)
    requires i < |t| && j < |t|
    ensures var x, y := Trigrams(t[i]), Trigrams(t[j]);
            SimilarTitles(t)(i, j) <==>
              && t[i] != [] && t[j] != []
              && (10 * |x * y| >= 3 * |x + y|
                  || 10 * Lcs(t[i], t[j]) >= 3 * (if |t[i]| <= |t[j]| then |t[i]| else |t[j]|))
  {
    var a, b := t[i], t[j];
    if a != [] && b != [] {
      HybridIsLarger(a, b);
      TrigramsAre(a, a);
      TrigramsAre(b, b);
      SomeTrigram(a);
      SomeTrigram(b);
      JaccardReaches(Trigrams(a), Trigrams(b), 0.30);
      Ratios.RatioAtLeast(Lcs(a, b), if |a| <= |b| then |a| else |b|, 0.30);
    } else {
      HybridOfNothing(a, b);
    }
  }

  lemma SomeTrigram(s: string)
    requires s != []
    ensures Trigrams(s) != {}
  {
    if |s| >= 3 { assert TrigramAt(s, 0) in Trigrams(s); } else { assert s in Trigrams(s); }
  }

  /** The items before position j that the opener i absorbs. */
  ghost function Followers(items: seq<Item>, sim: Relation, i: nat, j: nat): seq<Item>
    requires j <= |items|
  {
    if j <= i + 1 then []
    else Followers(items, sim, i, j - 1) + (if Owns(sim, i, j - 1) then [items[j - 1]] else [])
  }

  ghost function GroupUpTo(items: seq<Item>, sim: Relation, i: nat, j: nat): seq<Item>
    requires i < |items| && j <= |items|
  {
    [items[i]] + Followers(items, sim, i, j)
  }

  ghost function Group(items: seq<Item>, sim: Relation, i: nat): seq<Item>
    requires i < |items|
  {
    GroupUpTo(items, sim, i, |items|)
  }

  /** One merged item for each group opener before hi, in order. */
  ghost function MergeAll(items: seq<Item>, sim: Relation, hi: nat): seq<Item>
    requires hi <= |items|
  {
    if hi == 0 then []
    else MergeAll(items, sim, hi - 1) + (if Leads(sim, hi - 1) then [Merged(Group(items, sim, hi - 1))] else [])
  }

  /** The members of a group are exactly the items its opener owns. */
  lemma {:induction false} FollowersAre(items: seq<Item>, sim: Relation, i: nat, j: nat, x: Item)
    requires i < |items| && j <= |items|
    ensures x in Followers(items, sim, i, j) <==>
            exists k :: i < k < j && items[k] == x && Owns(sim, i, k)
  {
    if j > i + 1 { FollowersAre(items, sim, i, j - 1, x); }
  }

  ghost predicate Taken(sim: Relation, i: nat, j: nat, k: nat) {
    k < i || !NoLeaderBelow(sim, i, k) || (i < k < j && sim(i, k))
  }

  function Normalized(items: seq<Item>, norm: string -> string): seq<string> {
    seq(|items|, i requires 0 <= i < |items| => norm(items[i].title))
  }

  ghost predicate TakenSet(sim: Relation, i: nat, j: nat, n: nat, used: set<nat>) {
    forall k: nat :: k in used <==> k < n && Taken(sim, i, j, k)
  }

  // --- no item is lost and none is counted twice ---

  ghost function OwnedBy(sim: Relation, i: nat, j: nat): set<nat> {
    set k: nat | k < j && Owns(sim, i, k)
  }

  ghost function OwnedBelow(sim: Relation, hi: nat, n: nat): set<nat> {
    set k: nat, i: nat | k < n && i < hi && Owns(sim, i, k) :: k
  }

  lemma {:induction false} GroupSize(items: seq<Item>, sim: Relation, i: nat, j: nat)
    requires Leads(sim, i) && i < j <= |items|
    ensures |GroupUpTo(items, sim, i, j)| == |OwnedBy(sim, i, j)|
    decreases j
  {
    if j == i + 1 {
      assert OwnedBy(sim, i, j) == {i};
    } else {
      GroupSize(items, sim, i, j - 1);
      GroupOneMore(items, sim, i, j - 1);
      assert OwnedBy(sim, i, j) == OwnedBy(sim, i, j - 1) + (if Owns(sim, i, j - 1) then {j - 1} else {});
    }
  }

  /** The sizes of the groups opened before hi, added up. */
  ghost function SizesBelow(items: seq<Item>, sim: Relation, hi: nat): nat
    requires hi <= |items|
  {
    if hi == 0 then 0
    else SizesBelow(items, sim, hi - 1) + (if Leads(sim, hi - 1) then |Group(items, sim, hi - 1)| else 0)
  }

  lemma {:induction false} SizesCountOwned(items: seq<Item>, sim: Relation, hi: nat)
    requires hi <= |items|
    ensures SizesBelow(items, sim, hi) == |OwnedBelow(sim, hi, |items|)|
    decreases hi
  {
    var n := |items|;
    if hi == 0 {
      assert OwnedBelow(sim, 0, n) == {};
    } else {
      SizesCountOwned(items, sim, hi - 1);
      var old_, new_ := OwnedBelow(sim, hi - 1, n), OwnedBy(sim, hi - 1, n);
      assert OwnedBelow(sim, hi, n) == old_ + new_;
      forall k | k in old_ && k in new_ ensures false {
        EveryItemHasOneGroup(sim, k);
      }
      assert old_ !! new_;
      if Leads(sim, hi - 1) { GroupSize(items, sim, hi - 1, n); }
    }
  }

  /** Conservation: the group sizes add up to the number of input items. */
  lemma GroupSizesAddUp(items: seq<Item>, sim: Relation)
    ensures SizesBelow(items, sim, |items|) == |items|
  {
    var n := |items|;
    SizesCountOwned(items, sim, n);
    forall k | k in Below(n) ensures k in OwnedBelow(sim, n, n) {
      EveryItemHasOneGroup(sim, k);
    }
    assert OwnedBelow(sim, n, n) == Below(n);
  }

  ghost function Below(n: nat): (s: set<nat>)
    ensures |s| == n && forall k: nat :: k in s <==> k < n
  {
    if n == 0 then {} else Below(n - 1) + {n - 1}
  }

  lemma TakenOneMore(sim: Relation, i: nat, j: nat, n: nat, used: set<nat>)
    requires TakenSet(sim, i, j, n, used) && i < j < n
    ensures j in used || !sim(i, j) ==> TakenSet(sim, i, j + 1, n, used)
    ensures sim(i, j) ==> TakenSet(sim, i, j + 1, n, used + {j})
    ensures j !in used ==> NoLeaderBelow(sim, i, j)
    ensures j in used && sim(i, j) ==> !NoLeaderBelow(sim, i, j)
  {
  }

  lemma TakenNextRound(sim: Relation, i: nat, n: nat, used: set<nat>)
    requires i < n
    ensures TakenSet(sim, i, i, n, used) ==> (i in used <==> !Leads(sim, i))
    ensures TakenSet(sim, i, i, n, used) && !Leads(sim, i) ==> TakenSet(sim, i + 1, i + 1, n, used)
    ensures TakenSet(sim, i, n, n, used) && Leads(sim, i) ==> TakenSet(sim, i + 1, i + 1, n, used + {i})
  {
    assert forall k: nat {:trigger NoLeaderBelow(sim, i, k)} ::
        NoLeaderBelow(sim, i + 1, k) <==> NoLeaderBelow(sim, i, k) && !(Leads(sim, i) && sim(i, k));
  }

  lemma GroupOneMore(items: seq<Item>, sim: Relation, i: nat, j: nat)
    requires i < j < |items|
    ensures GroupUpTo(items, sim, i, j + 1) ==
            GroupUpTo(items, sim, i, j) + (if Owns(sim, i, j) then [items[j]] else [])
  {
  }

  /** The inner loop: opener i collects every later, still free, similar item. */
  method Absorb(items: seq<Item>, normalized: seq<string>, i: nat, used0: set<nat>)
      returns (group: seq<Item>, used: set<nat>)
    requires i < |items| == |normalized|
    requires Leads(SimilarTitles(normalized), i)
    requires TakenSet(SimilarTitles(normalized), i, i, |items|, used0)
    ensures group == Group(items, SimilarTitles(normalized), i)
    ensures TakenSet(SimilarTitles(normalized), i, |items|, |items|, used)
  {
    ghost var sim := SimilarTitles(normalized);
    group, used := [items[i]], used0;
    for j := i + 1 to |items|
      invariant group == GroupUpTo(items, sim, i, j)
      invariant TakenSet(sim, i, j, |items|, used)
    {
      TakenOneMore(sim, i, j, |items|, used);
      GroupOneMore(items, sim, i, j);
      if j !in used {
        var score := HybridSimilarity(normalized[i], normalized[j]);
        assert sim(i, j) <==> score >= THRESHOLD;
        if score >= THRESHOLD {
          group := group + [items[j]];
          used := used + {j};
        }
      }
    }
  }

  method Dedup(items: seq<Item>, norm: string -> string) returns (merged: seq<Item>)
    ensures merged == MergeAll(items, SimilarTitles(Normalized(items, norm)), |items|)
  {
    if items == [] { return []; }
    var normalized := Normalized(items, norm);
    ghost var sim := SimilarTitles(normalized);
    merged := [];
    var used: set<nat> := {};
    for i := 0 to |items|
      invariant TakenSet(sim, i, i, |items|, used)
      invariant merged == MergeAll(items, sim, i)
    {
      TakenNextRound(sim, i, |items|, used);
      if i !in used {
        var group;
        group, used := Absorb(items, normalized, i, used);
        TakenNextRound(sim, i, |items|, used);
        merged := merged + [Merged(group)];
        used := used + {i};
      }
    }
  }
}
