/** What the words of the lint rules amount to: paragraphs are normalised lines, copying is a count
    of paragraphs, and the two word lists. */
module LintLaws {
  import opened Wrappers
  import opened Text
  import opened Drafts
  import opened LintRules
  import opened Collect
  import Ratios
  import Seqs

  // --- paragraphs ---

  /** How far the word at the start of a text reaches. */
  function WordEnd(s: string, k: nat): (n: nat)
    requires k <= |s|
    ensures k <= n <= |s| && (n < |s| ==> IsSpace(s[n]))
    ensures forall i :: k <= i < n ==> !IsSpace(s[i])
    decreases |s| - k
  {
    if k < |s| && !IsSpace(s[k]) then WordEnd(s, k + 1) else k
  }

  /** The words of a text: the stretches between whitespace. */
  function WordsOf(s: string): seq<string>
    decreases |s|
  {
    if s == [] then []
    else if IsSpace(s[0]) then WordsOf(s[1..])
    else [s[..WordEnd(s, 1)]] + WordsOf(s[WordEnd(s, 1)..])
  }

  predicate Solid(x: string) { x != [] && !IsSpace(x[0]) && !IsSpace(x[|x| - 1]) }

  lemma {:induction false} SkipSpaces(s: string, n: nat)
    requires n <= |s| && forall i :: 0 <= i < n ==> IsSpace(s[i])
    ensures WordsOf(s) == WordsOf(s[n..])
    decreases n
  {
    if n == 0 {
      assert s[0..] == s;
    } else {
      SkipSpaces(s[1..], n - 1);
      assert s[1..][n - 1..] == s[n..];
    }
  }

  lemma {:induction false} CollapseWord(s: string, n: nat)
    requires n <= |s| && forall i :: 0 <= i < n ==> !IsSpace(s[i])
    ensures Collapse(s) == s[..n] + Collapse(s[n..])
    decreases n
  {
    if n == 0 {
      assert s[0..] == s && s[..0] + Collapse(s) == Collapse(s);
    } else {
      CollapseWord(s[1..], n - 1);
      assert s[1..][n - 1..] == s[n..] && s[..n] == [s[0]] + s[1..][..n - 1];
      Seqs.ConcatAssoc([s[0]], s[1..][..n - 1], Collapse(s[n..]));
    }
  }

  /** A leading stretch of whitespace gives one space, and no word. */
  lemma CollapseSpaces(s: string) returns (rest: string)
    requires s != [] && IsSpace(s[0])
    ensures |rest| < |s| && (rest != [] ==> !IsSpace(rest[0]))
    ensures Collapse(s) == " " + Collapse(rest) && WordsOf(s) == WordsOf(rest)
  {
    var n := SpaceRun(s);
    rest := s[n..];
    assert forall i :: 1 <= i < n ==> s[i] == s[1..][i - 1];
    assert n < |s| ==> s[n] == s[1..][n - 1];
    SkipSpaces(s, n);
  }

  /** A leading word, and what stands behind the whitespace that follows it. */
  lemma FirstWord(s: string) returns (word: string, more: bool, rest: string)
    requires s != [] && !IsSpace(s[0])
    ensures Solid(word) && |rest| < |s| && (rest != [] ==> more && !IsSpace(rest[0]))
    ensures WordsOf(s) == [word] + WordsOf(rest)
    ensures Collapse(s) == word + (if more then " " else "") + Collapse(rest)
  {
    var n := WordEnd(s, 1);
    word, more, rest := s[..n], n < |s|, s[n..];
    CollapseWord(s, n);
    if more {
      rest := CollapseSpaces(s[n..]);
      Seqs.ConcatAssoc(word, " ", Collapse(rest));
    } else {
      assert s[..n] + "" + Collapse(rest) == s[..n] + Collapse(rest);
    }
  }

  lemma JoinMore(word: string, words: seq<string>)
    requires words != []
    ensures Join(" ", [word] + words) == word + " " + Join(" ", words)
  {
    assert ([word] + words)[1..] == words;
  }

  /** From a word on, collapsing gives the words with one space between them, and at most one more
      behind. */
  lemma {:induction false} CollapseIs(s: string) returns (end: string)
    requires s != [] && !IsSpace(s[0])
    ensures end == "" || end == " "
    ensures Collapse(s) == Join(" ", WordsOf(s)) + end && Solid(Join(" ", WordsOf(s)))
    decreases |s|
  {
    var word, more, rest := FirstWord(s);
    if rest == [] {
      end := if more then " " else "";
      assert [word] + WordsOf([]) == [word];
      assert word + end + "" == word + end;
    } else {
      end := CollapseIs(rest);
      assert WordsOf(rest) != [] by { var w, m, r := FirstWord(rest); }
      JoinMore(word, WordsOf(rest));
      Between(word, Join(" ", WordsOf(rest)), end);
    }
  }

  lemma Between(word: string, joined: string, end: string)
    requires Solid(word) && Solid(joined)
    ensures word + " " + (joined + end) == word + " " + joined + end && Solid(word + " " + joined)
  {
  }

  lemma StripSolid(front: string, x: string, end: string)
    requires Solid(x) && (front == "" || front == " ") && (end == "" || end == " ")
    ensures Strip(front + x + end) == x
  {
    assert Seqs.All(IsSpace, front) && Seqs.All(IsSpace, end);
    Seqs.TrimCore(IsSpace, front, x, end);
  }

  /** The normal form of a text is its words with single spaces between them. */
  lemma NormIs(s: string)
    ensures Norm(s) == Join(" ", WordsOf(s))
  {
    if s == [] {
      assert Collapse(s) == [];
    } else if !IsSpace(s[0]) {
      var end := CollapseIs(s);
      StripSolid("", Join(" ", WordsOf(s)), end);
      assert "" + Join(" ", WordsOf(s)) + end == Collapse(s);
    } else {
      SpaceFirst(s);
    }
  }

  lemma SpaceFirst(s: string)
    requires s != [] && IsSpace(s[0])
    ensures Norm(s) == Join(" ", WordsOf(s))
  {
    var rest := CollapseSpaces(s);
    if rest == [] {
      OneSpace(s);
    } else {
      var end := CollapseIs(rest);
      var joined := Join(" ", WordsOf(rest));
      StripSolid(" ", joined, end);
      Seqs.ConcatAssoc(" ", joined, end);
    }
  }

  lemma OneSpace(s: string)
    requires Collapse(s) == " " + Collapse([])
    ensures Norm(s) == []
  {
    assert Collapse(s) == " ";
    Seqs.TrimEmptyIffAll(IsSpace, " ");
  }

  /** A text cut at every line feed. */
  function LinesAt(s: string): seq<string>
    decreases |s|
  {
    var i := FirstLf(s);
    if i == |s| then [s] else [s[..i]] + LinesAt(s[i + 1..])
  }

  /** Blank text counts for nothing. */
  ghost predicate SkipsBlank(f: string -> seq<string>) {
    forall s: string :: (forall k :: 0 <= k < |s| ==> IsSpace(s[k])) ==> f(s) == []
  }

  /** Whitespace that ends with a line feed, or nothing. */
  ghost predicate BlankLines(s: string) {
    (forall k :: 0 <= k < |s| ==> IsSpace(s[k])) && (s != [] ==> s[|s| - 1] == '\n')
  }

  lemma FirstAdds(f: string -> seq<string>, first: string, rest: seq<string>)
    ensures FlatMap(f, [first] + rest) == f(first) + FlatMap(f, rest)
  {
    FlatMapConcat(f, [first], rest);
    FlatMapOne(f, first);
  }

  function LineThen(first: string, rest: string): string { first + "\n" + rest }

  lemma {:induction false} FirstLfBehind(first: string, rest: string)
    requires '\n' !in first
    ensures FirstLf(LineThen(first, rest)) == |first|
    decreases |first|
  {
    if first != [] {
      FirstLfBehind(first[1..], rest);
      assert LineThen(first, rest)[1..] == LineThen(first[1..], rest);
    }
  }

  lemma FirstLine(first: string, rest: string)
    requires '\n' !in first
    ensures LinesAt(LineThen(first, rest)) == [first] + LinesAt(rest)
  {
    var s := LineThen(first, rest);
    FirstLfBehind(first, rest);
    assert s[..|first|] == first && s[|first| + 1..] == rest;
  }

  /** Up to its first line feed a text is one line. */
  lemma CutFirst(s: string) returns (first: string, rest: string)
    requires FirstLf(s) < |s|
    ensures first == s[..FirstLf(s)] && rest == s[FirstLf(s) + 1..]
    ensures '\n' !in first && s == LineThen(first, rest)
  {
    var i := FirstLf(s);
    first, rest := s[..i], s[i + 1..];
    NoLfBefore(s);
    Seqs.CutAround(s, i);
  }

  lemma {:induction false} NoLfBefore(s: string)
    ensures forall k :: 0 <= k < FirstLf(s) ==> s[k] != '\n'
    decreases |s|
  {
    if s != [] && s[0] != '\n' {
      NoLfBefore(s[1..]);
      assert forall k :: 1 <= k < FirstLf(s) ==> s[k] == s[1..][k - 1];
    }
  }

  lemma {:induction false} LfWithin(s: string)
    requires s != [] && s[|s| - 1] == '\n'
    ensures FirstLf(s) < |s|
    decreases |s|
  {
    if s[0] != '\n' { LfWithin(s[1..]); }
  }

  lemma RestIsBlank(first: string, more: string)
    requires BlankLines(LineThen(first, more))
    ensures BlankLines(more) && forall k :: 0 <= k < |first| ==> IsSpace(first[k])
  {
    var s := LineThen(first, more);
    assert forall k :: 0 <= k < |more| ==> s[|first| + 1 + k] == more[k];
    assert forall k :: 0 <= k < |first| ==> s[k] == first[k];
  }

  /** Blank lines add nothing. */
  lemma {:induction false} BlankLinesAdd(f: string -> seq<string>, blank: string, rest: string)
    requires SkipsBlank(f) && BlankLines(blank)
    ensures FlatMap(f, LinesAt(blank + rest)) == FlatMap(f, LinesAt(rest))
    decreases |blank|
  {
    if blank == [] {
      Seqs.NothingInFront(blank, rest);
    } else {
      LfWithin(blank);
      var first, more := CutFirst(blank);
      RestIsBlank(first, more);
      assert blank + rest == LineThen(first, more + rest);
      FirstLine(first, more + rest);
      FirstAdds(f, first, LinesAt(more + rest));
      assert f(first) == [];
      BlankLinesAdd(f, more, rest);
    }
  }

  lemma PieceParts(s: string, i: nat, j: nat) returns (first: string, blank: string, rest: string)
    requires i == FirstLf(s) < |s| && j == RunEnd(s, i, i + 1)
    ensures first == s[..i] && rest == s[j + 1..]
    ensures |rest| < |s| && '\n' !in first && BlankLines(blank) && s == LineThen(first, blank + rest)
  {
    var tail;
    first, tail := CutFirst(s);
    RunIsBlank(s, i, i + 1);
    blank, rest := s[i + 1..j + 1], s[j + 1..];
    assert tail == blank + rest;
  }

  /** One step of the splitting: a piece, the blank lines behind it, and what is left. */
  lemma FirstPiece(s: string) returns (first: string, blank: string, rest: string)
    requires FirstLf(s) < |s|
    ensures |rest| < |s| && '\n' !in first && BlankLines(blank) && s == LineThen(first, blank + rest)
    ensures Split(s) == [first] + Split(rest)
  {
    var i := FirstLf(s);
    var j := RunEnd(s, i, i + 1);
    first, blank, rest := PieceParts(s, i, j);
    SplitStep(s, i, j);
  }

  lemma SplitStep(s: string, i: nat, j: nat)
    requires i == FirstLf(s) < |s| && j == RunEnd(s, i, i + 1)
    ensures Split(s) == [s[..i]] + Split(s[j + 1..])
  {
  }

  lemma {:induction false} RunIsBlank(s: string, j: nat, k: nat)
    requires j < k <= |s| && s[j] == '\n' && forall m :: j < m < k ==> IsSpace(s[m])
    ensures var r := RunEnd(s, j, k); s[r] == '\n' && BlankLines(s[j + 1..r + 1])
    decreases |s| - k
  {
    if k < |s| && IsSpace(s[k]) {
      var i := if s[k] == '\n' then k else j;
      RunIsBlank(s, i, k + 1);
      var r := RunEnd(s, j, k);
      assert s[j + 1..r + 1] == s[j + 1..i + 1] + s[i + 1..r + 1];
    }
  }

  /** Cutting at blank lines or line feeds, and cutting at every line feed, give the same. */
  lemma {:induction false} SplitIsLines(f: string -> seq<string>, s: string)
    requires SkipsBlank(f)
    ensures FlatMap(f, Split(s)) == FlatMap(f, LinesAt(s))
    decreases |s|
  {
    if FirstLf(s) < |s| {
      var first, blank, rest := FirstPiece(s);
      SplitIsLines(f, rest);
      BlankLinesAdd(f, blank, rest);
      FirstLine(first, blank + rest);
      FirstAdds(f, first, Split(rest));
      FirstAdds(f, first, LinesAt(blank + rest));
    }
  }

  /** A normalised line long enough to count. */
  ghost predicate IsParagraph(lines: seq<string>, p: string) {
    |p| >= 12 && exists line :: line in lines && p == Join(" ", WordsOf(line))
  }

  lemma LongNormSkipsBlank()
    ensures SkipsBlank(LongNorm())
  {
    forall s: string | forall k :: 0 <= k < |s| ==> IsSpace(s[k]) ensures LongNorm()(s) == [] {
      NormIs(s);
      SkipSpaces(s, |s|);
      assert s[|s|..] == [];
    }
  }

  lemma LongNormHas(line: string, p: string)
    ensures p in LongNorm()(line) <==> |p| >= 12 && p == Join(" ", WordsOf(line))
  {
    NormIs(line);
  }

  /** The paragraphs of a text are its lines of at least twelve characters, words apart by one
      space. */
  lemma ParagraphsAre(text: string, p: string)
    ensures p in Paragraphs(text) <==> IsParagraph(LinesAt(text), p)
  {
    LongNormSkipsBlank();
    SplitIsLines(LongNorm(), text);
    FlatMapHas(LongNorm(), LinesAt(text), p);
    forall line { LongNormHas(line, p); }
    if text == [] {
      assert LinesAt(text) == [text] && WordsOf(text) == [];
    }
  }

  // --- copying ---

  /** The source paragraphs long enough to count, and those of them the body repeats. */
  ghost predicate AreLong(long: set<string>, source: seq<string>, n: int) {
    forall p :: p in long <==> p in source && |p| >= n
  }

  ghost predicate AreRepeated(repeated: set<string>, long: set<string>, body: seq<string>) {
    forall p :: p in repeated <==> p in long && p in body
  }

  /** Copying is excessive exactly when some long source paragraph is repeated and the repeated ones
      are at least the blocking share of the long ones, each text counted once. */
  lemma ExcessiveMeans(d: Draft, c: LintConfig, source: seq<string>, long: set<string>, repeated: set<string>)
    requires AreLong(long, source, c.minCopyChars) && AreRepeated(repeated, long, Paragraphs(d.eventBody))
    ensures Excessive(d, c, source) <==> repeated != {} && |repeated| as real >= c.blockCopyRatio * |long| as real
  {
    ShareMeans(Paragraphs(d.eventBody), source, c.minCopyChars, long, repeated, c.blockCopyRatio);
  }

  lemma ShareMeans(body: seq<string>, source: seq<string>, n: int, long: set<string>, repeated: set<string>,
                   ratio: real)
    requires AreLong(long, source, n) && AreRepeated(repeated, long, body)
    ensures var (copied, share) := CopiedTooMuch(body, source, n);
            copied != 0 && share >= ratio <==> repeated != {} && |repeated| as real >= ratio * |long| as real
  {
    CopiedIs(body, source, n, long, repeated);
    if long != {} { Ratios.RatioAtLeast(|repeated|, |long|, ratio); }
  }

  lemma CopiedIs(body: seq<string>, source: seq<string>, n: int, long: set<string>, repeated: set<string>)
    requires AreLong(long, source, n) && AreRepeated(repeated, long, body)
    ensures CopiedTooMuch(body, source, n) ==
            if long == {} then (0, 0.0) else (|repeated|, |repeated| as real / |long| as real)
    ensures |repeated| == 0 <==> repeated == {}
    ensures long == {} ==> repeated == {}
  {
    assert Longs(source, n) == long;
    assert long * SetOf(body) == repeated;
  }

  // --- word lists ---

  lemma {:induction false} HypeOnesAre(a: Alphabet, hype: seq<string>, tags: seq<string>, n: nat, tag: string)
    requires n <= |tags|
    ensures multiset(HypeOnes(a, hype, tags, n))[tag] ==
            if exists w :: w in hype && Occurs(Lower(a, w), Lower(a, tag)) then multiset(tags[..n])[tag] else 0
  {
    HypeMeans(a, hype, tag);
    if n > 0 {
      HypeOnesAre(a, hype, tags, n - 1, tag);
      Seqs.TakeNext(tags, n - 1);
    }
  }

  lemma HypeMeans(a: Alphabet, hype: seq<string>, tag: string)
    ensures IsHype(a, hype, tag) <==> exists w :: w in hype && Occurs(Lower(a, w), Lower(a, tag))
  {
  }

  /** What a keyword names: all of it, or what stands behind its first colon. */
  ghost predicate Names(k: string, name: string) {
    (':' !in k && name == k) || exists i :: 0 <= i < |k| && k[i] == ':' && ':' !in k[..i] && name == k[i + 1..]
  }

  lemma {:induction false} AfterColonIs(k: string, name: string)
    ensures AfterColon(k) == name <==> Names(k, name)
    decreases |k|
  {
    if ':' in k {
      if k[0] == ':' {
        assert k[..0] == [];
        assert forall i :: 0 < i < |k| ==> ':' in k[..i] by { assert forall i :: 0 < i < |k| ==> k[..i][0] == ':'; }
      } else {
        AfterColonIs(k[1..], name);
        ColonMoves(k, name);
      }
    }
  }

  lemma ColonMoves(k: string, name: string)
    requires k != [] && k[0] != ':' && ':' in k
    ensures Names(k, name) <==> Names(k[1..], name)
  {
    var t := k[1..];
    assert k == [k[0]] + t;
    forall i | 0 <= i < |t|
      ensures ':' in k[..i + 1] <==> ':' in t[..i]
      ensures k[i + 1..][1..] == t[i + 1..] && k[i + 1] == t[i] && k[i + 1 + 1..] == t[i + 1..]
    {
      assert k[..i + 1] == [k[0]] + t[..i];
    }
    if i :| 0 <= i < |k| && k[i] == ':' && ':' !in k[..i] && name == k[i + 1..] {
      assert t[i - 1] == ':' && ':' !in t[..i - 1] && name == t[i - 1 + 1..];
    }
    if i :| 0 <= i < |t| && t[i] == ':' && ':' !in t[..i] && name == t[i + 1..] {
      assert k[i + 1] == ':' && ':' !in k[..i + 1] && name == k[i + 1 + 1..];
    }
  }

  /** An orphan is a keyword with text whose name the draft never mentions. */
  lemma OrphansAre(a: Alphabet, d: Draft, k: string)
    ensures k in OrphanOnes(a, d) <==>
            && k in d.keywords && !IsBlank(k)
            && exists name :: Names(k, name) && !Occurs(Lower(a, Strip(name)), Lower(a, DraftText(d)))
  {
    OrphansHave(a, d.keywords, Lower(a, DraftText(d)), k);
    AfterColonIs(k, AfterColon(k));
    forall name | Names(k, name) ensures name == AfterColon(k) { AfterColonIs(k, name); }
  }

  lemma {:induction false} OrphansHave(a: Alphabet, keywords: seq<string>, text: string, k: string)
    ensures k in Orphans(a, keywords, text) <==> k in keywords && IsOrphan(a, k, text)
    decreases |keywords|
  {
    if keywords != [] {
      OrphansHave(a, keywords[1..], text, k);
      assert keywords == [keywords[0]] + keywords[1..];
    }
  }

  /** The texts a keyword may be mentioned in. */
  ghost predicate IsPart(d: Draft, x: string) {
    || x == d.title || x == d.intro || x == d.eventBody || x == d.summary || x in d.quickFacts || x in d.quotes
    || (exists i :: 0 <= i < |d.imageSections| && x == d.imageSections[i].caption)
    || (exists i :: 0 <= i < |d.videoSections| && x == d.videoSections[i].caption)
    || (exists i :: 0 <= i < |d.faq| && (x == d.faq[i].question || x == d.faq[i].answer))
  }

  /** A mention in any part of the draft counts. */
  lemma PartIsRead(d: Draft, x: string)
    requires IsPart(d, x)
    ensures Occurs(x, DraftText(d))
  {
    var parts := DraftParts(d);
    PartIsThere(d, x);
    if x == [] {
      assert OccursAt(x, DraftText(d), 0);
    } else {
      NonEmptyHas(parts, x);
      JoinHas(NonEmpty(parts), x);
    }
  }

  lemma PartIsThere(d: Draft, x: string)
    requires IsPart(d, x)
    ensures x in DraftParts(d)
  {
    if i :| 0 <= i < |d.imageSections| && x == d.imageSections[i].caption {
      assert Captions(d.imageSections)[i] == x;
    }
    if i :| 0 <= i < |d.videoSections| && x == d.videoSections[i].caption {
      assert Captions(d.videoSections)[i] == x;
    }
    if i :| 0 <= i < |d.faq| && (x == d.faq[i].question || x == d.faq[i].answer) {
      FaqHas(d.faq, i);
    }
    assert d.title == [d.title, d.intro, d.eventBody, d.summary][0];
  }

  lemma {:induction false} NonEmptyHas(parts: seq<string>, x: string)
    requires x in parts && x != []
    ensures x in NonEmpty(parts)
    decreases |parts|
  {
    if parts[0] != x { NonEmptyHas(parts[1..], x); }
  }

  lemma {:induction false} JoinHas(parts: seq<string>, x: string)
    requires x in parts
    ensures Occurs(x, Join("\n", parts))
    decreases |parts|
  {
    var text := Join("\n", parts);
    if |parts| > 1 {
      var rest := Join("\n", parts[1..]);
      if parts[0] == x {
        assert text[0..|x|] == x;
        assert OccursAt(x, text, 0);
      } else {
        JoinHas(parts[1..], x);
        assert text == parts[0] + "\n" + rest + "";
        OccursInLonger(x, rest, parts[0] + "\n", "");
      }
    } else {
      assert text[0..|x|] == x;
      assert OccursAt(x, text, 0);
    }
  }

  lemma {:induction false} FaqHas(faq: seq<FaqItem>, i: nat)
    requires i < |faq|
    ensures faq[i].question in FaqTexts(faq) && faq[i].answer in FaqTexts(faq)
    decreases |faq|
  {
    if i > 0 { FaqHas(faq[1..], i - 1); }
  }
}
