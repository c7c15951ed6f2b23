/** What the words, shingles and titles of the duplicate check are. */
module DedupLaws {
  import opened Wrappers
  import opened Text
  import opened LshCache
  import opened DedupRules
  import Seqs

  // --- words ---

  predicate IsWord(a: Alphabet, w: string) { w != [] && forall i :: 0 <= i < |w| ==> a.isWord(w[i]) }

  predicate IsGap(a: Alphabet, g: string) { forall i :: 0 <= i < |g| ==> !a.isWord(g[i]) }

  /** A word, and what stands between it and the next one. */
  datatype Piece = Piece(word: string, gap: string)

  function Spelled(pieces: seq<Piece>): string {
    if pieces == [] then [] else pieces[0].word + pieces[0].gap + Spelled(pieces[1..])
  }

  function WordsIn(pieces: seq<Piece>): seq<string> { seq(|pieces|, i requires 0 <= i < |pieces| => pieces[i].word) }

  /** Words of word characters with gaps of other characters; only the last gap may be empty. */
  predicate ArePieces(a: Alphabet, pieces: seq<Piece>) {
    forall i :: 0 <= i < |pieces| ==>
      IsWord(a, pieces[i].word) && IsGap(a, pieces[i].gap) && (i < |pieces| - 1 ==> pieces[i].gap != [])
  }

  lemma {:induction false} ReadWord(a: Alphabet, before: string, w: string, rest: string)
    requires forall i :: 0 <= i < |w| ==> a.isWord(w[i])
    ensures Words(a, w + rest, before) == Words(a, rest, before + w)
    decreases |w|
  {
    if w == [] {
      Seqs.NothingInFront(w, rest);
      Seqs.NothingBehind(before, w);
    } else {
      assert (w + rest)[0] == w[0] && (w + rest)[1..] == w[1..] + rest;
      ReadWord(a, before + [w[0]], w[1..], rest);
      assert before + [w[0]] + w[1..] == before + w;
    }
  }

  lemma {:induction false} ReadGap(a: Alphabet, g: string, rest: string)
    requires IsGap(a, g)
    ensures Words(a, g + rest, []) == Words(a, rest, [])
    decreases |g|
  {
    if g == [] {
      Seqs.NothingInFront(g, rest);
    } else {
      assert (g + rest)[0] == g[0] && (g + rest)[1..] == g[1..] + rest;
      ReadGap(a, g[1..], rest);
    }
  }

  lemma GapEndsWord(a: Alphabet, w: string, g: string, rest: string)
    requires w != [] && IsGap(a, g) && (g == [] ==> rest == [])
    ensures Words(a, g + rest, w) == [w] + Words(a, rest, [])
  {
    if g != [] {
      assert (g + rest)[0] == g[0] && (g + rest)[1..] == g[1..] + rest;
      ReadGap(a, g[1..], rest);
    }
  }

  lemma ReadPiece(a: Alphabet, p: Piece, rest: string)
    requires IsWord(a, p.word) && IsGap(a, p.gap) && (p.gap == [] ==> rest == [])
    ensures Words(a, p.word + p.gap + rest, []) == [p.word] + Words(a, rest, [])
  {
    Seqs.ConcatAssoc(p.word, p.gap, rest);
    ReadWord(a, [], p.word, p.gap + rest);
    Seqs.NothingInFront([], p.word);
    GapEndsWord(a, p.word, p.gap, rest);
  }

  /** Whatever stands between them, the words of a text are its stretches of word characters, in
      order. */
  lemma {:induction false} WordsRoundTrip(a: Alphabet, front: string, pieces: seq<Piece>)
    requires IsGap(a, front) && ArePieces(a, pieces)
    ensures Words(a, front + Spelled(pieces), []) == WordsIn(pieces)
    decreases |pieces|
  {
    ReadGap(a, front, Spelled(pieces));
    if pieces != [] {
      var p, rest := pieces[0], Spelled(pieces[1..]);
      WordsRoundTrip(a, [], pieces[1..]);
      Seqs.NothingInFront([], rest);
      ReadPiece(a, p, rest);
      assert WordsIn(pieces) == [p.word] + WordsIn(pieces[1..]);
    }
  }

  /** Every text is spelled that way. */
  lemma {:induction false} EveryTextIsPieces(a: Alphabet, s: string) returns (front: string, pieces: seq<Piece>)
    ensures IsGap(a, front) && ArePieces(a, pieces) && s == front + Spelled(pieces)
    decreases |s|
  {
    if s == [] {
      front, pieces := [], [];
    } else {
      var f, ps := EveryTextIsPieces(a, s[1..]);
      assert s == [s[0]] + s[1..];
      if !a.isWord(s[0]) {
        front, pieces := [s[0]] + f, ps;
        Seqs.ConcatAssoc([s[0]], f, Spelled(ps));
      } else if f == [] && ps != [] {
        front := [];
        pieces := LongerWord(a, s[0], ps);
      } else {
        front, pieces := [], [Piece([s[0]], f)] + ps;
        assert pieces[1..] == ps;
      }
    }
  }

  lemma LongerWord(a: Alphabet, c: char, ps: seq<Piece>) returns (pieces: seq<Piece>)
    requires a.isWord(c) && ArePieces(a, ps) && ps != []
    ensures ArePieces(a, pieces) && [] + Spelled(pieces) == [c] + ([] + Spelled(ps))
  {
    var p := Piece([c] + ps[0].word, ps[0].gap);
    pieces := [p] + ps[1..];
    assert pieces[1..] == ps[1..];
    assert Spelled(pieces) == [c] + Spelled(ps);
  }

  // --- shingles ---

  /** The shingles of a text are k words in a row, or all its words when there are fewer. */
  lemma ShinglesAre(a: Alphabet, text: string, k: nat, x: string)
    ensures var ws := Words(a, Lower(a, text), []);
            x in Shingles(a, text, k) <==>
              if |ws| < k then ws != [] && x == Join(" ", ws)
              else exists i: nat, j: nat :: j == i + k && j <= |ws| && x == Join(" ", ws[i..j])
  {
    var ws := Words(a, Lower(a, text), []);
    if i: nat, j: nat :| j == i + k && j <= |ws| && x == Join(" ", ws[i..j]) {
      assert Shingle(ws, i, k) == x;
    }
  }

  // --- titles ---

  /** A site suffix at the end is dropped, with the whitespace in front of it. */
  lemma SuffixDrops(t: string, suffix: string, more: seq<string>)
    ensures WithoutSuffixes(t + suffix, [suffix] + more) == WithoutSuffixes(Strip(t), more)
  {
    var s := t + suffix;
    assert s[|s| - |suffix|..] == suffix && s[..|s| - |suffix|] == t;
    assert ([suffix] + more)[1..] == more;
  }

  /** A title without it is left alone. */
  lemma OtherTitlesStay(s: string, suffix: string, more: seq<string>)
    ensures (exists t :: s == t + suffix) || WithoutSuffixes(s, [suffix] + more) == WithoutSuffixes(s, more)
  {
    if EndsWith(s, suffix) {
      assert s == s[..|s| - |suffix|] + suffix;
    }
    assert ([suffix] + more)[1..] == more;
  }

  /** The words kept are those that are no stopwords, in order. */
  lemma {:induction false} KeptOnes(stopwords: set<string>, ws: seq<string>, w: string)
    ensures Kept(stopwords, []) == []
    ensures Kept(stopwords, ws + [w]) == Kept(stopwords, ws) + if w in stopwords then [] else [w]
    decreases |ws|
  {
    if ws == [] {
      Seqs.NothingInFront(ws, [w]);
      assert [w][1..] == [];
    } else {
      assert (ws + [w])[0] == ws[0] && (ws + [w])[1..] == ws[1..] + [w];
      KeptOnes(stopwords, ws[1..], w);
      Seqs.ConcatAssoc(if ws[0] in stopwords then [] else [ws[0]], Kept(stopwords, ws[1..]),
                       if w in stopwords then [] else [w]);
    }
  }

  /** Case maps that leave whitespace alone and do nothing twice. */
  ghost predicate IsCaseMap(a: Alphabet) {
    && (forall c: char :: IsSpace(a.lower(c)) == IsSpace(c))
    && (forall c: char {:trigger a.lower(a.lower(c))} :: a.lower(a.lower(c)) == a.lower(c))
  }

  lemma LowerStrip(a: Alphabet, s: string)
    requires IsCaseMap(a)
    ensures Strip(Lower(a, s)) == Lower(a, Strip(s))
  {
    Seqs.TrimMapped(IsSpace, a.lower, s, Lower(a, s));
  }

  /** Titles that differ in case or in the whitespace around them are one title. */
  lemma TitlesAreOne(x: Tables, front: string, title: string, end: string)
    requires IsCaseMap(x.alphabet) && Seqs.All(IsSpace, front) && Seqs.All(IsSpace, end)
    ensures NormalizeTitle(x, front + title + end) == NormalizeTitle(x, title)
    ensures NormalizeTitle(x, Lower(x.alphabet, title)) == NormalizeTitle(x, title)
  {
    Seqs.TrimPadRight(IsSpace, front + title, end);
    Seqs.TrimPadLeft(IsSpace, front, title);
    var a := x.alphabet;
    LowerStrip(a, title);
    assert Lower(a, Lower(a, Strip(title))) == Lower(a, Strip(title));
  }

  // --- what a verdict shows ---

  lemma {:induction false} DoubtfulHas(x: Tables, l: Limits, s: Scores, n: nat, m: Match)
    requires n <= |s.ids|
    ensures m in Doubtful(x, l, s, n) <==>
            exists i :: 0 <= i < n && l.uncertain <= s.of(s.ids[i]) < l.duplicate
                        && m == ByBody(s.ids[i], x.round(s.of(s.ids[i])))
    decreases n
  {
    if n > 0 { DoubtfulHas(x, l, s, n - 1, m); }
  }

  /** A retrieved entry between the two limits. */
  ghost predicate Between(x: Tables, l: Limits, body: string, c: Call, built: Built, id: string) {
    && IsRetrieved(x, body, c, built, id)
    && BodiesAlike(x, body, c, id, l.uncertain) && !BodiesAlike(x, body, c, id, l.duplicate)
  }

  lemma DoubtfulAre(x: Tables, l: Limits, body: string, c: Call, built: Built, m: Match)
    ensures var s := ScoresOf(x, built, body, c);
            m in Doubtful(x, l, s, |s.ids|) <==>
              m.ByBody? && Between(x, l, body, c, built, m.id) && m.shown == x.round(s.of(m.id))
  {
    var s := ScoresOf(x, built, body, c);
    DoubtfulHas(x, l, s, |s.ids|, m);
    if m.ByBody? {
      ScoreReaches(x, built, body, c, m.id, l.uncertain);
      ScoreReaches(x, built, body, c, m.id, l.duplicate);
      if m.id in s.ids { var i :| 0 <= i < |s.ids| && s.ids[i] == m.id; }
    }
  }

  /** The first entry with the same title. */
  ghost predicate IsFirstWithTitle(x: Tables, title: string, c: Call, m: nat) {
    && m < |c.index.entries| && SameTitle(x, title, c.index.entries[m].title)
    && forall k :: 0 <= k < m ==> !SameTitle(x, title, c.index.entries[k].title)
  }

  lemma JudgedShows(x: Tables, l: Limits, s: Scores, reliable: bool)
    ensures var v := Judged(x, l, s, reliable);
            && v.reliable == reliable && (v.status == Unique ==> v.matches == [])
            && (v.status == Duplicate ==> |v.matches| == 1)
            && (v.status == Uncertain ==> v.matches == Doubtful(x, l, s, |s.ids|))
  {
  }

  /** A verdict is as reliable as the index; UNIQUE shows nothing, DUPLICATE one entry, and that is the
      first entry with the same title where there is one. */
  lemma VerdictShows(x: Tables, l: Limits, title: string, body: string, c: Call, built: Built, m: nat)
    ensures var v := Assess(x, l, title, body, c, built);
            && v.reliable == c.index.siteIndexAvailable && (v.status == Unique ==> v.matches == [])
            && (v.status == Duplicate ==> |v.matches| == 1)
            && (IsFirstWithTitle(x, title, c, m) ==>
                  v.status == Duplicate && v.matches == [ByTitle(c.index.entries[m].jobId)])
  {
    TitleMatchFirst(x, title, c);
    JudgedShows(x, l, ScoresOf(x, built, body, c), c.index.siteIndexAvailable);
  }

  /** UNCERTAIN shows exactly the retrieved entries between the two limits, with their similarity. */
  lemma UncertainShows(x: Tables, l: Limits, title: string, body: string, c: Call, built: Built, m: Match)
    requires Assess(x, l, title, body, c, built).status == Uncertain
    ensures m in Assess(x, l, title, body, c, built).matches <==>
            && m.ByBody? && Between(x, l, body, c, built, m.id)
            && m.shown == x.round(ExactJaccard(x.alphabet, body, BodyOf(c.index.entries, m.id), c.k))
  {
    DoubtfulAre(x, l, body, c, built, m);
    JudgedShows(x, l, ScoresOf(x, built, body, c), c.index.siteIndexAvailable);
  }

  lemma TitleMatchFirst(x: Tables, title: string, c: Call)
    ensures var m := TitleMatch(x, title, c.index.entries, 0);
            && (m < |c.index.entries| ==> IsFirstWithTitle(x, title, c, m))
            && forall k :: IsFirstWithTitle(x, title, c, k) ==> k == m
  {
  }
}
