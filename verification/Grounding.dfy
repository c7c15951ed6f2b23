/** Is the draft supported by the source? Verbatim quotes and narrative claims. */
module Grounding {
  import opened Wrappers
  import opened Text
  import opened Drafts
  import Seqs
  import Ratios

  /** The text tables of the run: character classes and the source clean-up. */
  datatype Lexicon = Lexicon(alphabet: Alphabet, clean: string -> string)

  const OVERLAP_THRESHOLD := 0.6
  const MIN_CLAIM_CHARS := 8

  // --- overlap ---

  predicate Kept(a: Alphabet, c: char) { a.isWord(c) && !IsSpace(c) }

  /** Lower-case, then drop punctuation and whitespace. */
  function Normalize(a: Alphabet, s: string): string {
    if s == [] then []
    else (if Kept(a, a.lower(s[0])) then [a.lower(s[0])] else []) + Normalize(a, s[1..])
  }

  function Gram(s: string, i: nat): string
    requires i + 2 <= |s|
  {
    s[i..i + 2]
  }

  function CharShingles(a: Alphabet, text: string): set<string> {
    var s := Normalize(a, text);
    if |s| < 2 then (if s == [] then {} else {s})
    else set i | 0 <= i <= |s| - 2 :: Gram(s, i)
  }

  /** The overlap check against an already shingled source. */
  predicate GroundedWith(a: Alphabet, threshold: real, claim: string, source: string, sourceGrams: set<string>) {
    var c := Strip(claim);
    c == [] || Occurs(c, source) ||
    var claimGrams := CharShingles(a, c);
    claimGrams == {} || |claimGrams * sourceGrams| as real / |claimGrams| as real >= threshold
  }

  predicate IsGrounded(a: Alphabet, threshold: real, claim: string, source: string) {
    GroundedWith(a, threshold, claim, source, CharShingles(a, source))
  }

  // --- claims ---

  predicate EndsSentence(c: char) {
    c == '\U{3002}' || c == '\U{FF01}' || c == '\U{FF1F}' || c == '!' || c == '?' || c == '\n'
  }

  /** The stripped, nonblank pieces between sentence ends; word is the piece being read. */
  function Pieces(text: string, word: string): seq<string> {
    if text == [] then NonBlank(word)
    else if EndsSentence(text[0]) then NonBlank(word) + Pieces(text[1..], [])
    else Pieces(text[1..], word + [text[0]])
  }

  function NonBlank(word: string): seq<string> {
    if Strip(word) == [] then [] else [Strip(word)]
  }

  function Sentences(text: string): seq<string> { Pieces(text, []) }

  function LongEnough(items: seq<string>): seq<string> {
    if items == [] then []
    else (if |items[0]| >= MIN_CLAIM_CHARS then [items[0]] else []) + LongEnough(items[1..])
  }

  function Answers(faq: seq<FaqItem>): seq<string> {
    seq(|faq|, i requires 0 <= i < |faq| => Strip(faq[i].answer))
  }

  function CaptionTexts(sections: seq<MediaSection>): seq<string> {
    seq(|sections|, i requires 0 <= i < |sections| => Strip(sections[i].caption))
  }

  function Stripped(items: seq<string>): seq<string> {
    seq(|items|, i requires 0 <= i < |items| => Strip(items[i]))
  }

  function SplitClaims(d: Draft): seq<string> {
    LongEnough(Sentences(d.intro))
    + LongEnough(Sentences(d.eventBody))
    + LongEnough(Answers(d.faq))
    + LongEnough(CaptionTexts(d.imageSections + d.videoSections))
    + LongEnough(Stripped(d.subheads))
    + LongEnough(Stripped(d.quickFacts))
    + LongEnough(Sentences(d.summary))
  }

  // --- the verdict ---

  datatype Ungrounded = Quote(text: string) | Claim(text: string)

  /** The offending ones among the first n items, in order. */
  function Failing(ok: string -> bool, mark: string -> Ungrounded, items: seq<string>, n: nat): seq<Ungrounded>
    requires n <= |items|
  {
    if n == 0 then []
    else Failing(ok, mark, items, n - 1) + (if ok(items[n - 1]) then [] else [mark(items[n - 1])])
  }

  predicate QuoteOk(quote: string, cleaned: string) { quote == [] || Occurs(quote, cleaned) }

  function QuoteCheck(cleaned: string): string -> bool { q => QuoteOk(q, cleaned) }

  /** Each claim judged on its own. */
  function ClaimCheck(a: Alphabet, cleaned: string): string -> bool {
    c => IsGrounded(a, OVERLAP_THRESHOLD, c, cleaned)
  }

  function AllUngrounded(lex: Lexicon, d: Draft, source: string): seq<Ungrounded> {
    var cleaned, claims := lex.clean(source), SplitClaims(d);
    Failing(QuoteCheck(cleaned), q => Quote(q), d.quotes, |d.quotes|)
    + Failing(ClaimCheck(lex.alphabet, cleaned), c => Claim(c), claims, |claims|)
  }

  /** Every quote is in the cleaned source and every claim is grounded, one by one. */
  predicate FullyGrounded(lex: Lexicon, d: Draft, source: string) {
    var cleaned := lex.clean(source);
    && (forall i | 0 <= i < |d.quotes| :: QuoteCheck(cleaned)(d.quotes[i]))
    && (forall i | 0 <= i < |SplitClaims(d)| :: ClaimCheck(lex.alphabet, cleaned)(SplitClaims(d)[i]))
  }

  method CheckQuotes(quotes: seq<string>, cleaned: string) returns (bad: seq<Ungrounded>)
    ensures bad == Failing(QuoteCheck(cleaned), q => Quote(q), quotes, |quotes|)
  {
    bad := [];
    for i := 0 to |quotes|
      invariant bad == Failing(QuoteCheck(cleaned), q => Quote(q), quotes, i)
    {
      if quotes[i] != [] && !Occurs(quotes[i], cleaned) {
        bad := bad + [Quote(quotes[i])];
      }
    }
  }

  /** The source is shingled once, here, and shared by all the claims. */
  method CheckClaims(a: Alphabet, claims: seq<string>, cleaned: string) returns (bad: seq<Ungrounded>)
    ensures bad == Failing(ClaimCheck(a, cleaned), c => Claim(c), claims, |claims|)
  {
    bad := [];
    var sourceGrams := CharShingles(a, cleaned);
    for i := 0 to |claims|
      invariant bad == Failing(ClaimCheck(a, cleaned), c => Claim(c), claims, i)
    {
      var grounded := GroundedWith(a, OVERLAP_THRESHOLD, claims[i], cleaned, sourceGrams);
      CheckedWith(a, claims[i], cleaned, sourceGrams);
      if !grounded {
        bad := bad + [Claim(claims[i])];
      }
    }
  }

  lemma CheckedWith(a: Alphabet, claim: string, cleaned: string, sourceGrams: set<string>)
    requires sourceGrams == CharShingles(a, cleaned)
    ensures GroundedWith(a, OVERLAP_THRESHOLD, claim, cleaned, sourceGrams) == ClaimCheck(a, cleaned)(claim)
  {
  }

  method VerifyGrounding(lex: Lexicon, d: Draft, source: string) returns (ungrounded: seq<Ungrounded>)
    ensures ungrounded == AllUngrounded(lex, d, source)
    ensures ungrounded == [] <==> FullyGrounded(lex, d, source)
  {
    var cleaned := lex.clean(source);
    var quotes := CheckQuotes(d.quotes, cleaned);
    var claims := CheckClaims(lex.alphabet, SplitClaims(d), cleaned);
    ungrounded := quotes + claims;
    EmptyMeansGrounded(lex, d, source);
  }

  lemma EmptyMeansGrounded(lex: Lexicon, d: Draft, source: string)
    ensures AllUngrounded(lex, d, source) == [] <==> FullyGrounded(lex, d, source)
  {
    var cleaned, claims := lex.clean(source), SplitClaims(d);
    NoneFailing(QuoteCheck(cleaned), q => Quote(q), d.quotes, |d.quotes|);
    NoneFailing(ClaimCheck(lex.alphabet, cleaned), c => Claim(c), claims, |claims|);
  }

  lemma {:induction false} NoneFailing(ok: string -> bool, mark: string -> Ungrounded, items: seq<string>, n: nat)
    requires n <= |items|
    ensures Failing(ok, mark, items, n) == [] <==> forall i :: 0 <= i < n ==> ok(items[i])
  {
    if n > 0 { NoneFailing(ok, mark, items, n - 1); }
  }

  // --- how much support a claim needs ---

  /** The distinct two-character substrings of a text. */
  function Pairs(s: string): set<string> { set i: nat | i < |s| - 1 :: PairAt(s, i) }

  function PairAt(s: string, i: nat): (g: string)
    requires i < |s| - 1
  {
    [s[i], s[i + 1]]
  }

  function PairsIn(s: string, t: string): set<string> { set g | g in Pairs(s) && Occurs(g, t) }

  /** No verbatim occurrence, and too few of the claim's character pairs in the source: letters and
      digits alone compared, in lower case. A single character counts only as the whole source. */
  predicate Unsupported(a: Alphabet, claim: string, source: string) {
    var c := Strip(claim);
    var n, t := Normalize(a, c), Normalize(a, source);
    && c != [] && !Occurs(c, source) && n != []
    && (if |n| == 1 then t != n else 10 * |PairsIn(n, t)| < 6 * |Pairs(n)|)
  }

  lemma PairsOccur(t: string, g: string)
    requires |g| == 2
    ensures g in Pairs(t) <==> Occurs(g, t)
  {
    if Occurs(g, t) {
      var i :| 0 <= i <= |t| && OccursAt(g, t, i);
      assert t[i..i + 2] == [t[i], t[i + 1]] == PairAt(t, i);
    }
    if g in Pairs(t) {
      var i: nat :| i < |t| - 1 && PairAt(t, i) == g;
      assert t[i..i + 2] == [t[i], t[i + 1]];
      assert OccursAt(g, t, i);
    }
  }

  lemma GramsArePairs(a: Alphabet, text: string)
    requires |Normalize(a, text)| >= 2
    ensures CharShingles(a, text) == Pairs(Normalize(a, text)) && Pairs(Normalize(a, text)) != {}
  {
    var s := Normalize(a, text);
    forall i: nat | i < |s| - 1 ensures Gram(s, i) == PairAt(s, i) {
      assert s[i..i + 2] == [s[i], s[i + 1]];
    }
    forall g ensures g in CharShingles(a, text) <==> g in Pairs(s) {
      if g in CharShingles(a, text) {
        var i :| 0 <= i <= |s| - 2 && Gram(s, i) == g;
        assert PairAt(s, i) == g;
      }
      if g in Pairs(s) {
        var i: nat :| i < |s| - 1 && PairAt(s, i) == g;
        assert Gram(s, i) == g;
      }
    }
    assert PairAt(s, 0) in Pairs(s);
  }

  lemma SharedArePairs(a: Alphabet, n: string, source: string)
    ensures Pairs(n) * CharShingles(a, source) == PairsIn(n, Normalize(a, source))
  {
    var t := Normalize(a, source);
    if |t| >= 2 {
      GramsArePairs(a, source);
      forall g | g in Pairs(n) {
        PairsOccur(t, g);
      }
    } else {
      forall g | g in Pairs(n) ensures !Occurs(g, t) && g !in CharShingles(a, source) {
        assert |g| == 2;
      }
    }
  }

  lemma ShareIs(m: nat, n: nat)
    requires n > 0
    ensures m as real / n as real >= OVERLAP_THRESHOLD <==> 10 * m >= 6 * n
  {
    Ratios.RatioAtLeast(m, n, 0.6);
  }

  lemma GroundedExactlyWhen(a: Alphabet, claim: string, source: string)
    ensures IsGrounded(a, OVERLAP_THRESHOLD, claim, source) <==> !Unsupported(a, claim, source)
  {
    var c := Strip(claim);
    var n := Normalize(a, c);
    if c != [] && !Occurs(c, source) && n != [] {
      if |n| == 1 {
        OneCharacter(a, c, source);
      } else {
        GramsArePairs(a, c);
        SharedArePairs(a, n, source);
        ShareIs(|PairsIn(n, Normalize(a, source))|, |Pairs(n)|);
      }
    }
  }

  lemma OneCharacter(a: Alphabet, c: string, source: string)
    requires |Normalize(a, c)| == 1
    ensures var x, y := CharShingles(a, c), CharShingles(a, source);
            x != {} && (|x * y| as real / |x| as real >= OVERLAP_THRESHOLD <==> Normalize(a, source) == Normalize(a, c))
  {
    var n, y := Normalize(a, c), CharShingles(a, source);
    InGrams(a, source, n);
    OneShared(n, y);
  }

  lemma InGrams(a: Alphabet, source: string, n: string)
    requires |n| == 1
    ensures n in CharShingles(a, source) <==> Normalize(a, source) == n
  {
    if |Normalize(a, source)| >= 2 {
      GramsArePairs(a, source);
    }
  }

  lemma OneShared(n: string, y: set<string>)
    ensures |{n} * y| as real / |{n}| as real >= OVERLAP_THRESHOLD <==> n in y
  {
    if n in y {
      assert {n} * y == {n};
    } else {
      assert {n} * y == {};
    }
  }

  lemma {:induction false} FailingHas(ok: string -> bool, mark: string -> Ungrounded, items: seq<string>, n: nat,
                                      u: Ungrounded)
    requires n <= |items|
    ensures u in Failing(ok, mark, items, n) <==> exists i :: 0 <= i < n && !ok(items[i]) && mark(items[i]) == u
  {
    if n > 0 {
      FailingHas(ok, mark, items, n - 1, u);
    }
  }

  /** A claim is reported exactly when it is one of the draft's and has too little support: not
      verbatim in the cleaned source, and fewer than six in ten of its pairs there. */
  lemma ClaimReportedExactlyWhen(lex: Lexicon, d: Draft, source: string, claim: string)
    ensures Ungrounded.Claim(claim) in AllUngrounded(lex, d, source) <==>
            claim in SplitClaims(d) && Unsupported(lex.alphabet, claim, lex.clean(source))
  {
    var cleaned, claims := lex.clean(source), SplitClaims(d);
    FailingHas(QuoteCheck(cleaned), q => Quote(q), d.quotes, |d.quotes|, Ungrounded.Claim(claim));
    FailingHas(ClaimCheck(lex.alphabet, cleaned), c => Claim(c), claims, |claims|, Ungrounded.Claim(claim));
    GroundedExactlyWhen(lex.alphabet, claim, cleaned);
  }

  /** A quote is reported exactly when it has text and is no substring of the cleaned source. */
  lemma QuoteReportedExactlyWhen(lex: Lexicon, d: Draft, source: string, quote: string)
    ensures Ungrounded.Quote(quote) in AllUngrounded(lex, d, source) <==>
            quote in d.quotes && quote != [] && !Occurs(quote, lex.clean(source))
  {
    var cleaned, claims := lex.clean(source), SplitClaims(d);
    FailingHas(QuoteCheck(cleaned), q => Quote(q), d.quotes, |d.quotes|, Ungrounded.Quote(quote));
    FailingHas(ClaimCheck(lex.alphabet, cleaned), c => Claim(c), claims, |claims|, Ungrounded.Quote(quote));
  }

  // --- growing the source ---

  lemma {:induction false} NormalizeConcat(a: Alphabet, s: string, t: string)
    ensures Normalize(a, s + t) == Normalize(a, s) + Normalize(a, t)
    decreases |s|
  {
    if s == [] {
      Seqs.NothingInFront(s, t);
      Seqs.NothingInFront(Normalize(a, s), Normalize(a, t));
    } else {
      Seqs.CutConcat(s, t, 0);
      NormalizeConcat(a, s[1..], t);
      Seqs.ConcatAssoc(if Kept(a, a.lower(s[0])) then [a.lower(s[0])] else [], Normalize(a, s[1..]), Normalize(a, t));
    }
  }

  /** The normal form keeps the lower-cased word characters, one by one, and nothing else. */
  lemma NormalizeMeans(a: Alphabet, s: string, c: char)
    ensures Normalize(a, []) == []
    ensures Normalize(a, s + [c]) ==
            Normalize(a, s) + if a.isWord(a.lower(c)) && !IsSpace(a.lower(c)) then [a.lower(c)] else []
  {
    NormalizeConcat(a, s, [c]);
    assert [c][1..] == [];
    Seqs.NothingBehind(if Kept(a, a.lower(c)) then [a.lower(c)] else [], Normalize(a, []));
  }

  /** Two-character grams of a text stay grams of a longer one. */
  lemma GramsGrow(a: Alphabet, source: string, left: string, right: string, g: string)
    requires g in CharShingles(a, source) && |g| == 2
    ensures g in CharShingles(a, left + source + right)
  {
    NormalizeConcat(a, left + source, right);
    NormalizeConcat(a, left, source);
    var s := Normalize(a, source);
    var l, big := Normalize(a, left), Normalize(a, left + source + right);
    var i :| 0 <= i <= |s| - 2 && Gram(s, i) == g;
    Seqs.SameSlice(big, |l| + i, |l| + i + 2, s, i, i + 2);
    assert Gram(big, |l| + i) == g;
  }

  lemma ClaimGramsAreTwo(a: Alphabet, c: string)
    requires |Normalize(a, c)| >= 2
    ensures CharShingles(a, c) != {} && forall g :: g in CharShingles(a, c) ==> |g| == 2
  {
    assert Gram(Normalize(a, c), 0) in CharShingles(a, c);
  }

  lemma OverlapGrows(x: set<string>, y: set<string>, z: set<string>, threshold: real)
    requires x != {} && x * y <= z
    requires |x * y| as real / |x| as real >= threshold
    ensures |x * z| as real / |x| as real >= threshold
  {
    assert x * y <= x * z;
    assert x * z == (x * y) + (x * z - x * y);
    QuotientGrows(|x * y|, |x * z|, |x|);
  }

  lemma QuotientGrows(m: nat, n: nat, k: nat)
    requires m <= n && k > 0
    ensures m as real / k as real <= n as real / k as real
  {
  }

  /** A grounded claim with at least two characters in its normal form stays grounded when
      the source grows on either side; so does one that is a substring or has none. */
  lemma GroundedStays(a: Alphabet, threshold: real, claim: string, source: string, left: string, right: string)
    requires IsGrounded(a, threshold, claim, source)
    requires Occurs(Strip(claim), source) || |Normalize(a, Strip(claim))| != 1
    ensures IsGrounded(a, threshold, claim, left + source + right)
  {
    var c, big := Strip(claim), left + source + right;
    if Occurs(c, source) {
      OccursInLonger(c, source, left, right);
    } else if c != [] && |Normalize(a, c)| >= 2 {
      var x, y, z := CharShingles(a, c), CharShingles(a, source), CharShingles(a, big);
      ClaimGramsAreTwo(a, c);
      forall g | g in x * y ensures g in z {
        GramsGrow(a, source, left, right, g);
      }
      OverlapGrows(x, y, z, threshold);
    }
  }

  // --- and that condition is exact ---

  lemma KeptOne(a: Alphabet, s: string) returns (i: nat)
    requires |Normalize(a, s)| == 1
    ensures i < |s| && Kept(a, a.lower(s[i])) && Normalize(a, s) == [a.lower(s[i])]
    ensures forall k :: 0 <= k < |s| && k != i ==> !Kept(a, a.lower(s[k]))
    decreases |s|
  {
    if Kept(a, a.lower(s[0])) {
      i := 0;
      NoneKept(a, s[1..]);
      assert forall k :: 1 <= k < |s| ==> s[k] == s[1..][k - 1];
    } else {
      var j := KeptOne(a, s[1..]);
      i := j + 1;
      assert forall k :: 1 <= k < |s| ==> s[k] == s[1..][k - 1];
    }
  }

  lemma NoneKept(a: Alphabet, s: string)
    requires Normalize(a, s) == []
    ensures forall k :: 0 <= k < |s| ==> !Kept(a, a.lower(s[k]))
  {
    if s != [] {
      NoneKept(a, s[1..]);
      assert forall k :: 1 <= k < |s| ==> s[k] == s[1..][k - 1];
    }
  }

  /** A new substring after adding one character uses that character. */
  lemma NewAtEnd(c: string, s: string, w: char)
    requires c != [] && !Occurs(c, s)
    ensures Occurs(c, s + [w]) ==> c[|c| - 1] == w
    ensures Occurs(c, [w] + s) ==> c[0] == w
  {
    if Occurs(c, s + [w]) {
      var i :| 0 <= i <= |s + [w]| && OccursAt(c, s + [w], i);
      UsesLast(c, s, w, i);
    }
    if Occurs(c, [w] + s) {
      var i :| 0 <= i <= |[w] + s| && OccursAt(c, [w] + s, i);
      UsesFirst(c, s, w, i);
    }
  }

  lemma UsesLast(c: string, s: string, w: char, i: nat)
    requires c != [] && OccursAt(c, s + [w], i)
    ensures Occurs(c, s) || c[|c| - 1] == w
  {
    if i + |c| <= |s| {
      Seqs.SameSlice(s + [w], i, i + |c|, s, i, i + |c|);
      assert OccursAt(c, s, i);
    } else {
      assert (s + [w])[i..i + |c|][|c| - 1] == (s + [w])[i + |c| - 1];
    }
  }

  lemma UsesFirst(c: string, s: string, w: char, i: nat)
    requires c != [] && OccursAt(c, [w] + s, i)
    ensures Occurs(c, s) || c[0] == w
  {
    if i > 0 {
      Seqs.SameSlice([w] + s, i, i + |c|, s, i - 1, i - 1 + |c|);
      assert OccursAt(c, s, i - 1);
    } else {
      assert ([w] + s)[i..i + |c|][0] == ([w] + s)[i];
    }
  }

  /** With one character left after normalising, and no verbatim match, some extension of
      the source loses the claim. */
  lemma OneCharacterLost(a: Alphabet, threshold: real, claim: string, source: string)
      returns (left: string, right: string)
    requires threshold > 0.0 && IsGrounded(a, threshold, claim, source)
    requires !Occurs(Strip(claim), source) && |Normalize(a, Strip(claim))| == 1
    ensures !IsGrounded(a, threshold, claim, left + source + right)
  {
    var c, n := Strip(claim), Normalize(a, Strip(claim));
    assert CharShingles(a, c) == {n};
    var p := KeptOne(a, c);
    SharedGram(CharShingles(a, source), n, threshold);
    SourceIsOne(a, source, n);
    var q := KeptOne(a, source);
    var w := source[q];
    SingleOccurs(source, q);
    OneSideFits(c, source, w);
    left, right := if Occurs(c, source + [w]) then [w] else [], if Occurs(c, source + [w]) then [] else [w];
    var big := left + source + right;
    assert big == if Occurs(c, source + [w]) then [w] + source else source + [w];
    NormalizeConcat(a, [w], source);
    NormalizeConcat(a, source, [w]);
    assert [w][1..] == [] && Normalize(a, [w]) == n;
    LostWhenDoubled(a, threshold, claim, big, n);
  }

  lemma LostWhenDoubled(a: Alphabet, threshold: real, claim: string, source: string, n: string)
    requires threshold > 0.0 && Strip(claim) != [] && !Occurs(Strip(claim), source)
    requires |n| == 1 && CharShingles(a, Strip(claim)) == {n} && |Normalize(a, source)| == 2
    ensures !IsGrounded(a, threshold, claim, source)
  {
    GramsOfTwo(a, source, n);
    assert {n} * CharShingles(a, source) == {};
  }

  lemma SharedGram(grams: set<string>, n: string, threshold: real)
    requires threshold > 0.0 && |{n} * grams| as real / |{n}| as real >= threshold
    ensures n in grams
  {
    assert n !in grams ==> {n} * grams == {};
  }

  /** If w is in s and stands at most once in c, one of the two extensions by w avoids c. */
  lemma OneSideFits(c: string, s: string, w: char)
    requires c != [] && !Occurs(c, s) && Occurs([w], s)
    requires c[0] == w == c[|c| - 1] ==> |c| == 1
    ensures !Occurs(c, s + [w]) || !Occurs(c, [w] + s)
  {
    NewAtEnd(c, s, w);
    assert |c| == 1 && c[0] == w ==> c == [w];
  }

  lemma SingleOccurs(s: string, q: nat)
    requires q < |s|
    ensures Occurs([s[q]], s)
  {
    assert s[q..q + 1] == [s[q]];
    assert OccursAt([s[q]], s, q);
  }

  lemma SourceIsOne(a: Alphabet, source: string, n: string)
    requires |n| == 1 && n in CharShingles(a, source)
    ensures Normalize(a, source) == n
  {
  }

  lemma GramsOfTwo(a: Alphabet, text: string, n: string)
    requires |n| == 1 && |Normalize(a, text)| == 2
    ensures n !in CharShingles(a, text)
  {
  }

  /** A grounded claim survives every extension of the source exactly when it is a verbatim
      substring or its normal form does not have exactly one character. */
  lemma StaysExactlyWhen(a: Alphabet, threshold: real, claim: string, source: string)
    requires threshold > 0.0 && IsGrounded(a, threshold, claim, source)
    ensures (forall left, right :: IsGrounded(a, threshold, claim, left + source + right)) <==>
            Occurs(Strip(claim), source) || |Normalize(a, Strip(claim))| != 1
  {
    if Occurs(Strip(claim), source) || |Normalize(a, Strip(claim))| != 1 {
      forall left, right ensures IsGrounded(a, threshold, claim, left + source + right) {
        GroundedStays(a, threshold, claim, source, left, right);
      }
    } else {
      var left, right := OneCharacterLost(a, threshold, claim, source);
    }
  }

  // --- which texts are claims ---

  ghost predicate FromAnswer(d: Draft, x: string) { exists i :: 0 <= i < |d.faq| && x == Strip(d.faq[i].answer) }

  ghost predicate FromCaption(d: Draft, x: string) {
    || (exists i :: 0 <= i < |d.imageSections| && x == Strip(d.imageSections[i].caption))
    || (exists i :: 0 <= i < |d.videoSections| && x == Strip(d.videoSections[i].caption))
  }

  ghost predicate FromList(items: seq<string>, x: string) { exists i :: 0 <= i < |items| && x == Strip(items[i]) }

  /** A full-width or an ordinary stop, exclamation or question mark, or the end of a line. */
  predicate IsStop(c: char) { c in "\U{3002}\U{FF01}\U{FF1F}!?\n" }

  /** A stretch of the text from one stop (or the start) to the next (or the end). */
  ghost predicate IsStretch(text: string, i: nat, j: nat) {
    && i <= j <= |text|
    && (i == 0 || IsStop(text[i - 1])) && (j == |text| || IsStop(text[j]))
    && forall k :: i <= k < j ==> !IsStop(text[k])
  }

  ghost predicate FromText(text: string, x: string) {
    x != [] && exists i: nat, j: nat :: IsStretch(text, i, j) && x == Strip(text[i..j])
  }

  /** The same, from position s on. */
  ghost predicate FromStretch(text: string, s: nat, x: string) {
    x != [] && exists i: nat, j: nat :: s <= i && IsStretch(text, i, j) && x == Strip(text[i..j])
  }

  lemma StopsEnd(c: char)
    ensures EndsSentence(c) <==> IsStop(c)
  {
    var stops := "\U{3002}\U{FF01}\U{FF1F}!?\n";
    assert stops[0] == '\U{3002}' && stops[1] == '\U{FF01}' && stops[2] == '\U{FF1F}';
    assert stops[3] == '!' && stops[4] == '?' && stops[5] == '\n';
  }

  /** Reading on from k, with the stretch from s on in hand, finds the stretches from s on. */
  lemma {:induction false} PiecesAre(text: string, s: nat, k: nat, x: string)
    requires s <= k <= |text| && (s == 0 || IsStop(text[s - 1])) && forall m :: s <= m < k ==> !IsStop(text[m])
    ensures x in Pieces(text[k..], text[s..k]) <==> FromStretch(text, s, x)
    decreases |text| - k
  {
    if k == |text| {
      LastStretch(text, s, x);
    } else {
      ReadOne(text, s, k);
      if IsStop(text[k]) {
        PiecesAre(text, k + 1, k + 1, x);
        NextStretch(text, s, k, x);
      } else {
        PiecesAre(text, s, k + 1, x);
      }
    }
  }

  lemma ReadOne(text: string, s: nat, k: nat)
    requires s <= k < |text|
    ensures Pieces(text[k..], text[s..k]) ==
            if IsStop(text[k]) then NonBlank(text[s..k]) + Pieces(text[k + 1..], text[k + 1..k + 1])
            else Pieces(text[k + 1..], text[s..k + 1])
  {
    StopsEnd(text[k]);
    assert text[k..][1..] == text[k + 1..];
    assert text[s..k] + [text[k]] == text[s..k + 1];
    assert text[k + 1..k + 1] == [];
  }

  lemma LastStretch(text: string, s: nat, x: string)
    requires s <= |text| && (s == 0 || IsStop(text[s - 1])) && forall m :: s <= m < |text| ==> !IsStop(text[m])
    ensures FromStretch(text, s, x) <==> x in NonBlank(text[s..|text|])
  {
    assert IsStretch(text, s, |text|);
  }

  lemma NextStretch(text: string, s: nat, k: nat, x: string)
    requires s <= k < |text| && (s == 0 || IsStop(text[s - 1])) && IsStop(text[k])
    requires forall m :: s <= m < k ==> !IsStop(text[m])
    ensures FromStretch(text, s, x) <==> x in NonBlank(text[s..k]) || FromStretch(text, k + 1, x)
  {
    assert IsStretch(text, s, k);
    if x != [] {
      forall i: nat, j: nat | s <= i && IsStretch(text, i, j) && x == Strip(text[i..j])
        ensures x in NonBlank(text[s..k]) || FromStretch(text, k + 1, x)
      {
        if i <= k { assert i == s && j == k; }
      }
    }
  }

  lemma SentencesAre(text: string, x: string)
    ensures x in Sentences(text) <==> FromText(text, x)
  {
    assert text[0..] == text && text[0..0] == [];
    PiecesAre(text, 0, 0, x);
    assert Sentences(text) == Pieces(text[0..], text[0..0]);
    assert FromStretch(text, 0, x) <==> FromText(text, x);
  }

  /** A narrative text the source must support: a sentence of intro, body or summary, an answer,
      a caption, a subhead or a quick fact, stripped and at least eight characters long. */
  ghost predicate IsClaim(d: Draft, x: string) {
    && |x| >= 8
    && (|| FromText(d.intro, x) || FromText(d.eventBody, x) || FromText(d.summary, x)
        || FromAnswer(d, x) || FromCaption(d, x) || FromList(d.subheads, x) || FromList(d.quickFacts, x))
  }

  lemma {:induction false} LongEnoughHas(items: seq<string>, x: string)
    ensures x in LongEnough(items) <==> x in items && |x| >= MIN_CLAIM_CHARS
    decreases |items|
  {
    if items != [] {
      LongEnoughHas(items[1..], x);
      assert items == [items[0]] + items[1..];
    }
  }

  lemma AnswersHave(d: Draft, x: string)
    ensures x in LongEnough(Answers(d.faq)) <==> |x| >= MIN_CLAIM_CHARS && FromAnswer(d, x)
  {
    LongEnoughHas(Answers(d.faq), x);
    assert forall i :: 0 <= i < |d.faq| ==> Answers(d.faq)[i] == Strip(d.faq[i].answer);
  }

  lemma ListHas(items: seq<string>, x: string)
    ensures x in LongEnough(Stripped(items)) <==> |x| >= MIN_CLAIM_CHARS && FromList(items, x)
  {
    LongEnoughHas(Stripped(items), x);
    assert forall i :: 0 <= i < |items| ==> Stripped(items)[i] == Strip(items[i]);
  }

  lemma CaptionsHave(d: Draft, x: string)
    ensures x in LongEnough(CaptionTexts(d.imageSections + d.videoSections)) <==>
            |x| >= MIN_CLAIM_CHARS && FromCaption(d, x)
  {
    var a, b := d.imageSections, d.videoSections;
    LongEnoughHas(CaptionTexts(a + b), x);
    CaptionsJoin(a, b);
    CaptionHas(a, x);
    CaptionHas(b, x);
  }

  lemma CaptionsJoin(a: seq<MediaSection>, b: seq<MediaSection>)
    ensures CaptionTexts(a + b) == CaptionTexts(a) + CaptionTexts(b)
  {
  }

  lemma CaptionHas(sections: seq<MediaSection>, x: string)
    ensures x in CaptionTexts(sections) <==>
            exists i :: 0 <= i < |sections| && x == Strip(sections[i].caption)
  {
    var texts := CaptionTexts(sections);
    assert forall i :: 0 <= i < |sections| ==> texts[i] == Strip(sections[i].caption);
  }

  lemma InOneOfSeven(a: seq<string>, b: seq<string>, c: seq<string>, d: seq<string>, e: seq<string>, f: seq<string>,
                     g: seq<string>, x: string)
    ensures x in a + b + c + d + e + f + g <==> x in a || x in b || x in c || x in d || x in e || x in f || x in g
  {
  }

  /** The claims are exactly the narrative texts: none is left unchecked and nothing else is. */
  lemma ClaimsAreExactly(d: Draft, x: string)
    ensures x in SplitClaims(d) <==> IsClaim(d, x)
  {
    LongEnoughHas(Sentences(d.intro), x);
    LongEnoughHas(Sentences(d.eventBody), x);
    LongEnoughHas(Sentences(d.summary), x);
    SentencesAre(d.intro, x);
    SentencesAre(d.eventBody, x);
    SentencesAre(d.summary, x);
    AnswersHave(d, x);
    CaptionsHave(d, x);
    ListHas(d.subheads, x);
    ListHas(d.quickFacts, x);
    InOneOfSeven(LongEnough(Sentences(d.intro)), LongEnough(Sentences(d.eventBody)), LongEnough(Answers(d.faq)),
                 LongEnough(CaptionTexts(d.imageSections + d.videoSections)), LongEnough(Stripped(d.subheads)),
                 LongEnough(Stripped(d.quickFacts)), LongEnough(Sentences(d.summary)), x);
  }
}
