/** The duplicate cascade: title hash, then body candidates re-verified by their exact Jaccard
    similarity, then the honesty gate. */
module DedupRules {
  import opened Wrappers
  import opened Text
  import opened LshCache

  /** The title tables, and the library functions the cascade relies on: SHA-1 of a title, what an
      LSH index answers to a signature, and rounding to four places. */
  datatype Tables = Tables(
    alphabet: Alphabet, suffixes: seq<string>, stopwords: set<string>,
    hash: string -> string, query: (Lsh, Sig) -> seq<string>, round: real -> real)

  datatype Limits = Limits(duplicate: real, uncertain: real)

  // --- titles ---

  predicate EndsWith(s: string, suffix: string) {
    |suffix| <= |s| && s[|s| - |suffix|..] == suffix
  }

  /** Each known site suffix in turn is dropped from the end. */
  function WithoutSuffixes(t: string, suffixes: seq<string>): string
    decreases |suffixes|
  {
    if suffixes == [] then t
    else
      var s := suffixes[0];
      WithoutSuffixes(if EndsWith(t, s) then Strip(t[..|t| - |s|]) else t, suffixes[1..])
  }

  function Kept(stopwords: set<string>, tokens: seq<string>): seq<string> {
    if tokens == [] then []
    else (if tokens[0] in stopwords then [] else [tokens[0]]) + Kept(stopwords, tokens[1..])
  }

  function NormalizeTitle(x: Tables, title: string): string {
    var t := WithoutSuffixes(Lower(x.alphabet, Strip(title)), x.suffixes);
    Join(" ", Kept(x.stopwords, Words(x.alphabet, t, [])))
  }

  function TitleHash(x: Tables, title: string): string { x.hash(NormalizeTitle(x, title)) }

  /** Both titles say something, and it hashes the same. */
  predicate SameTitle(x: Tables, a: string, b: string) {
    NormalizeTitle(x, a) != [] && NormalizeTitle(x, b) != [] && TitleHash(x, a) == TitleHash(x, b)
  }

  /** The first entry from position i on with the same title, or the number of entries. */
  function TitleMatch(x: Tables, title: string, es: seq<IndexEntry>, i: nat): (m: nat)
    requires i <= |es|
    ensures i <= m <= |es|
    ensures m < |es| ==> SameTitle(x, title, es[m].title)
    ensures forall k :: i <= k < m ==> !SameTitle(x, title, es[k].title)
    decreases |es| - i
  {
    if i == |es| || SameTitle(x, title, es[i].title) then i else TitleMatch(x, title, es, i + 1)
  }

  // --- verdicts ---

  datatype Status = Unique | Duplicate | Uncertain

  datatype Match = ByTitle(id: string) | ByBody(id: string, shown: real)

  datatype Verdict = Verdict(status: Status, matches: seq<Match>, reliable: bool)

  /** The body an id stands for: the last one in the index. */
  function BodyOf(es: seq<IndexEntry>, id: string): string {
    if es == [] then []
    else if es[|es| - 1].jobId == id then es[|es| - 1].body
    else BodyOf(es[..|es| - 1], id)
  }

  function Similarity(x: Tables, body: string, es: seq<IndexEntry>, k: nat, id: string): real {
    ExactJaccard(x.alphabet, body, BodyOf(es, id), k)
  }

  /** The candidates the index retrieves for a body; none when nothing was signed. */
  function CandidateIds(x: Tables, built: Built, body: string, c: Call): seq<string> {
    if built.signatures.byId == map[] then []
    else x.query(built.lsh, Sig(Shingles(x.alphabet, body, c.k), c.numPerm))
  }

  predicate Searches(body: string, c: Call) { !IsBlank(body) && c.index.entries != [] }

  /** The scores of the retrieved candidates. */
  datatype Scores = Scores(ids: seq<string>, of: string -> real)

  /** The strongest clear duplicate among the first n candidates: the first with the largest
      rounded score. */
  function Best(x: Tables, l: Limits, s: Scores, n: nat): Option<Match>
    requires n <= |s.ids|
  {
    if n == 0 then None
    else
      var best, j := Best(x, l, s, n - 1), s.of(s.ids[n - 1]);
      if j >= l.duplicate && (best.None? || (best.value.ByBody? && x.round(j) > best.value.shown))
      then Some(ByBody(s.ids[n - 1], x.round(j))) else best
  }

  function Doubtful(x: Tables, l: Limits, s: Scores, n: nat): seq<Match>
    requires n <= |s.ids|
  {
    if n == 0 then []
    else
      var j := s.of(s.ids[n - 1]);
      Doubtful(x, l, s, n - 1)
      + if l.uncertain <= j < l.duplicate then [ByBody(s.ids[n - 1], x.round(j))] else []
  }

  /** The verdict on the body scores, once no title matched. */
  function Judged(x: Tables, l: Limits, s: Scores, reliable: bool): Verdict {
    var n := |s.ids|;
    if Best(x, l, s, n).Some? then Verdict(Duplicate, [Best(x, l, s, n).value], reliable)
    else if Doubtful(x, l, s, n) != [] then Verdict(Uncertain, Doubtful(x, l, s, n), reliable)
    else if !reliable then Verdict(Uncertain, [], false)
    else Verdict(Unique, [], true)
  }

  function ScoresOf(x: Tables, built: Built, body: string, c: Call): Scores {
    var es, k := c.index.entries, c.k;
    Scores(if Searches(body, c) then CandidateIds(x, built, body, c) else [],
           id => Similarity(x, body, es, k, id))
  }

  function Assess(x: Tables, l: Limits, title: string, body: string, c: Call, built: Built): Verdict {
    var es := c.index.entries;
    var m := TitleMatch(x, title, es, 0);
    if m < |es| then Verdict(Duplicate, [ByTitle(es[m].jobId)], c.index.siteIndexAvailable)
    else Judged(x, l, ScoresOf(x, built, body, c), c.index.siteIndexAvailable)
  }

  method FindTitle(x: Tables, title: string, es: seq<IndexEntry>) returns (m: nat)
    ensures m == TitleMatch(x, title, es, 0)
  {
    if NormalizeTitle(x, title) == [] {
      NoTitleMatch(x, title, es, 0);
      return |es|;
    }
    var own := TitleHash(x, title);
    for i := 0 to |es|
      invariant TitleMatch(x, title, es, 0) == TitleMatch(x, title, es, i)
    {
      if NormalizeTitle(x, es[i].title) != [] && TitleHash(x, es[i].title) == own {
        return i;
      }
    }
    return |es|;
  }

  /** A title with nothing left after normalising never matches any other. */
  lemma {:induction false} NoTitleMatch(x: Tables, title: string, es: seq<IndexEntry>, i: nat)
    requires i <= |es| && NormalizeTitle(x, title) == []
    ensures TitleMatch(x, title, es, i) == |es|
    decreases |es| - i
  {
    if i < |es| { NoTitleMatch(x, title, es, i + 1); }
  }

  method ScoreCandidates(x: Tables, l: Limits, s: Scores) returns (best: Option<Match>, uncertain: seq<Match>)
    ensures best == Best(x, l, s, |s.ids|) && uncertain == Doubtful(x, l, s, |s.ids|)
  {
    best, uncertain := None, [];
    for i := 0 to |s.ids|
      invariant best == Best(x, l, s, i) && uncertain == Doubtful(x, l, s, i)
      invariant best.Some? ==> best.value.ByBody?
    {
      var j := s.of(s.ids[i]);
      var item := ByBody(s.ids[i], x.round(j));
      if j >= l.duplicate {
        if best.None? || item.shown > best.value.shown {
          best := Some(item);
        }
      } else if j >= l.uncertain {
        uncertain := uncertain + [item];
      }
    }
  }

  datatype Question = Question(title: string, body: string, call: Call)

  /** The shared cache after a question: looked up only where no title matched. */
  function CacheAfter(x: Tables, fp: string -> string, lru: Lru, q: Question): Lru {
    var es := q.call.index.entries;
    if TitleMatch(x, q.title, es, 0) == |es| && Searches(q.body, q.call)
    then Lookup(x.alphabet, fp, lru, q.call).0 else lru
  }

  /** The cascade on the shared cache of built indexes, which is asked only when there is a body
      to search with and something to search. */
  method AssessDedup(cache: Cache, x: Tables, l: Limits, title: string, body: string, c: Call) returns (v: Verdict)
    requires cache.Valid() && cache.alphabet == x.alphabet
    modifies cache
    ensures cache.Valid()
    ensures v == Assess(x, l, title, body, c, Lookup(x.alphabet, cache.fingerprint, old(cache.Model()), c).1)
    ensures cache.Model() == CacheAfter(x, cache.fingerprint, old(cache.Model()), Question(title, body, c))
  {
    var es := c.index.entries;
    var m := FindTitle(x, title, es);
    if m < |es| {
      return Verdict(Duplicate, [ByTitle(es[m].jobId)], c.index.siteIndexAvailable);
    }
    var scores := Scores([], id => 0.0);
    if !IsBlank(body) && es != [] {
      var built := cache.GetOrBuild(c);
      scores := ScoresOf(x, built, body, c);
    }
    var best, uncertain := ScoreCandidates(x, l, scores);
    if best.Some? {
      return Verdict(Duplicate, [best.value], c.index.siteIndexAvailable);
    }
    if uncertain != [] {
      return Verdict(Uncertain, uncertain, c.index.siteIndexAvailable);
    }
    if !c.index.siteIndexAvailable {
      return Verdict(Uncertain, [], false);
    }
    return Verdict(Unique, [], true);
  }

  // --- what the verdicts mean ---

  /** Among the first n candidates number i is a clear duplicate, shows the largest score of all
      clear duplicates, and a larger one than those before it. */
  ghost predicate IsBest(x: Tables, l: Limits, s: Scores, n: nat, i: nat) {
    && i < n <= |s.ids| && s.of(s.ids[i]) >= l.duplicate
    && (forall j :: 0 <= j < n && s.of(s.ids[j]) >= l.duplicate ==> x.round(s.of(s.ids[j])) <= x.round(s.of(s.ids[i])))
    && (forall j :: 0 <= j < i && s.of(s.ids[j]) >= l.duplicate ==> x.round(s.of(s.ids[j])) < x.round(s.of(s.ids[i])))
  }

  function Shown(x: Tables, s: Scores, i: nat): Match
    requires i < |s.ids|
  {
    ByBody(s.ids[i], x.round(s.of(s.ids[i])))
  }

  /** The match reported is the first strongest clear duplicate, if there is one at all. */
  lemma {:induction false} BestIs(x: Tables, l: Limits, s: Scores, n: nat)
    requires n <= |s.ids|
    ensures Best(x, l, s, n).None? <==> forall i :: 0 <= i < n ==> s.of(s.ids[i]) < l.duplicate
    ensures Best(x, l, s, n).Some? ==> exists i :: IsBest(x, l, s, n, i) && Best(x, l, s, n).value == Shown(x, s, i)
  {
    if n > 0 {
      BestIs(x, l, s, n - 1);
      var before := Best(x, l, s, n - 1);
      if before.None? {
        if Best(x, l, s, n).Some? {
          assert IsBest(x, l, s, n, n - 1);
        }
      } else {
        var i :| IsBest(x, l, s, n - 1, i) && before.value == Shown(x, s, i);
        BestNext(x, l, s, n, i);
      }
    }
  }

  lemma BestNext(x: Tables, l: Limits, s: Scores, n: nat, i: nat)
    requires 0 < n <= |s.ids| && IsBest(x, l, s, n - 1, i) && Best(x, l, s, n - 1) == Some(Shown(x, s, i))
    ensures var k := if s.of(s.ids[n - 1]) >= l.duplicate && x.round(s.of(s.ids[n - 1])) > x.round(s.of(s.ids[i]))
                     then n - 1 else i;
            IsBest(x, l, s, n, k) && Best(x, l, s, n) == Some(Shown(x, s, k))
  {
  }

  lemma {:induction false} DoubtfulIs(x: Tables, l: Limits, s: Scores, n: nat)
    requires n <= |s.ids|
    ensures Doubtful(x, l, s, n) == [] <==> forall i :: 0 <= i < n ==> !(l.uncertain <= s.of(s.ids[i]) < l.duplicate)
  {
    if n > 0 { DoubtfulIs(x, l, s, n - 1); }
  }

  lemma TitleMatchIs(x: Tables, title: string, es: seq<IndexEntry>)
    ensures TitleMatch(x, title, es, 0) < |es| <==> exists i :: 0 <= i < |es| && SameTitle(x, title, es[i].title)
  {
  }

  /** The candidates retrieved: what the index answers to the body's own signature, where there is a
      body to search with and an index that signed something. */
  ghost predicate IsRetrieved(x: Tables, body: string, c: Call, built: Built, id: string) {
    && !IsBlank(body) && c.index.entries != [] && built.signatures.byId != map[]
    && id in x.query(built.lsh, Sig(Shingles(x.alphabet, body, c.k), c.numPerm))
  }

  /** The body and the last body of this id in the index are that much alike. */
  ghost predicate BodiesAlike(x: Tables, body: string, c: Call, id: string, t: real) {
    Alike(Shingles(x.alphabet, body, c.k), Shingles(x.alphabet, BodyOf(c.index.entries, id), c.k), t)
  }

  lemma ScoreReaches(x: Tables, built: Built, body: string, c: Call, id: string, t: real)
    ensures ScoresOf(x, built, body, c).of(id) >= t <==> BodiesAlike(x, body, c, id, t)
    ensures id in ScoresOf(x, built, body, c).ids <==> IsRetrieved(x, body, c, built, id)
  {
    JaccardLaw(x.alphabet, body, BodyOf(c.index.entries, id), c.k, t);
  }

  /** Some retrieved candidate is that much alike. */
  ghost predicate AnyAlike(x: Tables, body: string, c: Call, built: Built, t: real) {
    exists id :: IsRetrieved(x, body, c, built, id) && BodiesAlike(x, body, c, id, t)
  }

  lemma ScoreMeansAlike(x: Tables, built: Built, body: string, c: Call, i: nat, t: real)
    requires var s := ScoresOf(x, built, body, c); i < |s.ids| && s.of(s.ids[i]) >= t
    ensures AnyAlike(x, body, c, built, t)
  {
    ScoreReaches(x, built, body, c, ScoresOf(x, built, body, c).ids[i], t);
  }

  lemma AlikeMeansScore(x: Tables, built: Built, body: string, c: Call, id: string, t: real) returns (i: nat)
    requires IsRetrieved(x, body, c, built, id) && BodiesAlike(x, body, c, id, t)
    ensures var s := ScoresOf(x, built, body, c); i < |s.ids| && s.of(s.ids[i]) >= t
  {
    ScoreReaches(x, built, body, c, id, t);
    var ids := ScoresOf(x, built, body, c).ids;
    i :| 0 <= i < |ids| && ids[i] == id;
  }

  /** Is any of these scores that high? */
  ghost predicate AnyReaches(s: Scores, t: real) { exists i :: 0 <= i < |s.ids| && s.of(s.ids[i]) >= t }

  lemma AnyScoreReaches(x: Tables, built: Built, body: string, c: Call, t: real)
    ensures AnyReaches(ScoresOf(x, built, body, c), t) <==> AnyAlike(x, body, c, built, t)
  {
    var s := ScoresOf(x, built, body, c);
    if AnyReaches(s, t) {
      var i :| 0 <= i < |s.ids| && s.of(s.ids[i]) >= t;
      ScoreMeansAlike(x, built, body, c, i, t);
    }
    if AnyAlike(x, body, c, built, t) {
      var id :| IsRetrieved(x, body, c, built, id) && BodiesAlike(x, body, c, id, t);
      var i := AlikeMeansScore(x, built, body, c, id, t);
    }
  }

  /** Some title of the index says the same as this one. */
  ghost predicate TitleKnown(x: Tables, title: string, c: Call) {
    exists i :: 0 <= i < |c.index.entries| && SameTitle(x, title, c.index.entries[i].title)
  }

  /** UNIQUE is said exactly when a trustworthy index was searched, no entry has the same title
      and every retrieved candidate is below both limits: without the site index never. */
  lemma UniqueExactlyWhen(x: Tables, l: Limits, title: string, body: string, c: Call, built: Built)
    ensures Assess(x, l, title, body, c, built).status == Unique <==>
            && c.index.siteIndexAvailable && !TitleKnown(x, title, c)
            && !AnyAlike(x, body, c, built, l.duplicate) && !AnyAlike(x, body, c, built, l.uncertain)
  {
    var s := ScoresOf(x, built, body, c);
    TitleMatchIs(x, title, c.index.entries);
    BestIs(x, l, s, |s.ids|);
    DoubtfulIs(x, l, s, |s.ids|);
    AnyScoreReaches(x, built, body, c, l.duplicate);
    AnyScoreReaches(x, built, body, c, l.uncertain);
  }

  /** DUPLICATE is said exactly for a title that says something and was seen before, or for a
      retrieved candidate whose exact similarity reaches the limit. */
  lemma DuplicateExactlyWhen(x: Tables, l: Limits, title: string, body: string, c: Call, built: Built)
    ensures Assess(x, l, title, body, c, built).status == Duplicate <==>
            TitleKnown(x, title, c) || AnyAlike(x, body, c, built, l.duplicate)
  {
    var s := ScoresOf(x, built, body, c);
    TitleMatchIs(x, title, c.index.entries);
    BestIs(x, l, s, |s.ids|);
    AnyScoreReaches(x, built, body, c, l.duplicate);
  }

  /** The body an id stands for is that of its last entry, and none without an entry. */
  lemma {:induction false} BodyIsLast(es: seq<IndexEntry>, id: string, i: nat)
    requires i < |es| && es[i].jobId == id && forall k :: i < k < |es| ==> es[k].jobId != id
    ensures BodyOf(es, id) == es[i].body
    decreases |es|
  {
    if i < |es| - 1 { BodyIsLast(es[..|es| - 1], id, i); }
  }

  /** The cache after a run of questions, from the empty one. */
  function CacheAfterAll(x: Tables, fp: string -> string, qs: seq<Question>): Lru {
    if qs == [] then Lru(Empty, map[])
    else CacheAfter(x, fp, CacheAfterAll(x, fp, qs[..|qs| - 1]), qs[|qs| - 1])
  }

  ghost predicate Asks(qs: seq<Question>, used: Call -> bool) {
    forall i :: 0 <= i < |qs| ==> used(qs[i].call)
  }

  lemma LookupStoresFresh(a: Alphabet, fp: string -> string, used: Call -> bool, lru: Lru, c: Call)
    requires KeysIdentify(a, fp, used) && used(c) && StoredFresh(a, fp, used, lru)
    ensures StoredFresh(a, fp, used, Lookup(a, fp, lru, c).0)
    ensures Lookup(a, fp, lru, c).1 == FreshFor(a, c)
  {
  }

  lemma {:induction false} QuestionsStoreFresh(x: Tables, fp: string -> string, used: Call -> bool, qs: seq<Question>)
    requires KeysIdentify(x.alphabet, fp, used) && Asks(qs, used)
    ensures StoredFresh(x.alphabet, fp, used, CacheAfterAll(x, fp, qs))
    decreases |qs|
  {
    if qs != [] {
      var before, q := qs[..|qs| - 1], qs[|qs| - 1];
      assert Asks(before, used) && used(q.call);
      QuestionsStoreFresh(x, fp, used, before);
      LookupStoresFresh(x.alphabet, fp, used, CacheAfterAll(x, fp, before), q.call);
    }
  }

  /** Where equal keys mean equal builds the shared cache never changes a verdict: whatever was
      asked before, the cascade answers as if it had built the index afresh. */
  lemma CacheDoesNotMatter(x: Tables, l: Limits, fp: string -> string, used: Call -> bool, before: seq<Question>,
                           q: Question)
    requires KeysIdentify(x.alphabet, fp, used) && Asks(before, used) && used(q.call)
    ensures Assess(x, l, q.title, q.body, q.call, Lookup(x.alphabet, fp, CacheAfterAll(x, fp, before), q.call).1) ==
            Assess(x, l, q.title, q.body, q.call, FreshFor(x.alphabet, q.call))
  {
    QuestionsStoreFresh(x, fp, used, before);
    LookupStoresFresh(x.alphabet, fp, used, CacheAfterAll(x, fp, before), q.call);
  }
}
