/** The line protocol of the structural copy: one "KEY: value" piece per line. */
module Copywriter {
  import opened Wrappers
  import opened Text
  import opened Drafts
  import Seqs

  datatype Kind =
    | Subhead | Caption | Title | FaqQ | FaqA | QuickFact | Summary | Tag | Category | Keyword(dim: Dim)

  datatype Dim = Person | Place | Platform | Event | Type

  const DIMS := [Person, Place, Platform, Event, Type]

  const MAX_TAGS := 5
  const MAX_KW_PER_DIM := 3

  function KeyText(k: Kind): string {
    match k
    case Subhead => "SUBHEAD"
    case Caption => "CAPTION"
    case Title => "TITLE"
    case FaqQ => "FAQ_Q"
    case FaqA => "FAQ_A"
    case QuickFact => "QUICKFACT"
    case Summary => "SUMMARY"
    case Tag => "TAG"
    case Category => "CATEGORY"
    case Keyword(Person) => "KEYWORD_PERSON"
    case Keyword(Place) => "KEYWORD_PLACE"
    case Keyword(Platform) => "KEYWORD_PLATFORM"
    case Keyword(Event) => "KEYWORD_EVENT"
    case Keyword(Type) => "KEYWORD_TYPE"
  }

  /** The prefix table, looked up by an upper-cased key. */
  function KindOf(key: string): (r: Option<Kind>)
    ensures r.Some? ==> KeyText(r.value) == key
    ensures r.None? ==> forall k :: KeyText(k) != key
  {
    if key == "SUBHEAD" then Some(Subhead)
    else if key == "CAPTION" then Some(Caption)
    else if key == "TITLE" then Some(Title)
    else if key == "FAQ_Q" then Some(FaqQ)
    else if key == "FAQ_A" then Some(FaqA)
    else if key == "QUICKFACT" then Some(QuickFact)
    else if key == "SUMMARY" then Some(Summary)
    else if key == "TAG" then Some(Tag)
    else if key == "CATEGORY" then Some(Category)
    else if key == "KEYWORD_PERSON" then Some(Keyword(Person))
    else if key == "KEYWORD_PLACE" then Some(Keyword(Place))
    else if key == "KEYWORD_PLATFORM" then Some(Keyword(Platform))
    else if key == "KEYWORD_EVENT" then Some(Keyword(Event))
    else if key == "KEYWORD_TYPE" then Some(Keyword(Type))
    else None
  }

  /** The dimension shown in front of a keyword. */
  function Dimension(d: Dim): string {
    match d
    case Person => "人物"
    case Place => "地點"
    case Platform => "平台"
    case Event => "事件"
    case Type => "內容類型"
  }

  // --- lines to tokens ---

  datatype Token = Token(kind: Kind, value: string)

  function FirstColon(s: string): (i: nat)
    ensures i <= |s|
    ensures i < |s| ==> s[i] == ':'
    ensures forall k :: 0 <= k < i ==> s[k] != ':'
  {
    if s == [] || s[0] == ':' then 0 else 1 + FirstColon(s[1..])
  }

  /** What one raw line means; None for blank, unkeyed, unknown or valueless lines. */
  function TokenOf(a: Alphabet, raw: string): Option<Token> { TokenIn(a, Strip(raw)) }

  function TokenIn(a: Alphabet, line: string): Option<Token> {
    var i := FirstColon(line);
    if i == |line| then None
    else
      var value := Strip(line[i + 1..]);
      match KindOf(Upper(a, Strip(line[..i])))
      case None => None
      case Some(k) => if value == [] then None else Some(Token(k, value))
  }

  function Tokens(a: Alphabet, lines: seq<string>): seq<Token> {
    if lines == [] then []
    else Tokens(a, lines[..|lines| - 1])
         + (match TokenOf(a, lines[|lines| - 1]) case None => [] case Some(t) => [t])
  }

  /** The values of one kind, in order. */
  function Select(k: Kind, ts: seq<Token>): seq<string> {
    if ts == [] then [] else Own(k, ts[0]) + Select(k, ts[1..])
  }

  function Own(k: Kind, t: Token): seq<string> { if t.kind == k then [t.value] else [] }

  // --- FAQ pairing ---

  /** The first answer before the next question, or the empty string. */
  function AnswerIn(ts: seq<Token>): string {
    if ts == [] || ts[0].kind == FaqQ then []
    else if ts[0].kind == FaqA then ts[0].value
    else AnswerIn(ts[1..])
  }

  /** One item for each question, in order, with its answer. */
  function FaqOf(ts: seq<Token>): seq<FaqItem> {
    if ts == [] then []
    else if ts[0].kind == FaqQ then [FaqItem(ts[0].value, AnswerIn(ts[1..]))] + FaqOf(ts[1..])
    else FaqOf(ts[1..])
  }

  /** A question still waiting for its answer. */
  datatype Pairing = Pairing(faq: seq<FaqItem>, pending: Option<string>)

  function Pair(p: Pairing, t: Token): Pairing {
    if t.kind == FaqQ then
      Pairing(if p.pending.Some? then p.faq + [FaqItem(p.pending.value, "")] else p.faq, Some(t.value))
    else if t.kind == FaqA && p.pending.Some? then
      Pairing(p.faq + [FaqItem(p.pending.value, t.value)], None)
    else p
  }

  function PairAll(ts: seq<Token>): Pairing {
    if ts == [] then Pairing([], None) else Pair(PairAll(ts[..|ts| - 1]), ts[|ts| - 1])
  }

  function Close(p: Pairing): seq<FaqItem> {
    if p.pending.Some? then p.faq + [FaqItem(p.pending.value, "")] else p.faq
  }

  /** What the pairing will have become once the remaining tokens are read. */
  ghost function Resumed(p: Pairing, rest: seq<Token>): seq<FaqItem> {
    p.faq + (if p.pending.Some? then [FaqItem(p.pending.value, AnswerIn(rest))] else []) + FaqOf(rest)
  }

  lemma PairStep(p: Pairing, t: Token, rest: seq<Token>)
    ensures Resumed(Pair(p, t), rest) == Resumed(p, [t] + rest)
  {
    assert ([t] + rest)[1..] == rest;
  }

  lemma {:induction false} PairPrefix(ts: seq<Token>, i: nat)
    requires i <= |ts|
    ensures Resumed(PairAll(ts[..i]), ts[i..]) == FaqOf(ts)
  {
    if i == 0 {
      assert ts[0..] == ts;
    } else {
      PairPrefix(ts, i - 1);
      assert ts[..i][..i - 1] == ts[..i - 1];
      assert ts[i - 1..] == [ts[i - 1]] + ts[i..];
      PairStep(PairAll(ts[..i - 1]), ts[i - 1], ts[i..]);
    }
  }

  /** The pending-question loop gives every question exactly one item, in order, answered
      by the first answer before the next question. */
  lemma PairingIsFaq(ts: seq<Token>)
    ensures Close(PairAll(ts)) == FaqOf(ts)
  {
    PairPrefix(ts, |ts|);
    assert ts[..|ts|] == ts && ts[|ts|..] == [];
  }

  lemma {:induction false} OneItemPerQuestion(ts: seq<Token>)
    ensures |FaqOf(ts)| == |Select(FaqQ, ts)|
    ensures forall i :: 0 <= i < |FaqOf(ts)| ==> FaqOf(ts)[i].question == Select(FaqQ, ts)[i]
    decreases |ts|
  {
    if ts != [] {
      OneItemPerQuestion(ts[1..]);
    }
  }

  // --- the parsed copy ---

  datatype CopyResult = CopyResult(
    captions: seq<string>, faq: seq<FaqItem>, subheads: seq<string>, titleCandidates: seq<string>,
    quickFacts: seq<string>, summary: string, tags: seq<string>, category: Option<string>,
    keywords: seq<string>, executed: bool, needsRevision: bool, reviewReason: Option<string>)

  /** No hype word, compared in lower case, occurs in the tag. */
  predicate HypeFree(a: Alphabet, hype: seq<string>, tag: string) {
    forall i | 0 <= i < |hype| :: !Occurs(Lower(a, hype[i]), Lower(a, tag))
  }

  function Objective(a: Alphabet, hype: seq<string>, tags: seq<string>): seq<string> {
    if tags == [] then []
    else (if HypeFree(a, hype, tags[0]) then [tags[0]] else []) + Objective(a, hype, tags[1..])
  }

  function Take(s: seq<string>, n: nat): seq<string> { if |s| <= n then s else s[..n] }

  function CleanTags(a: Alphabet, hype: seq<string>, tags: seq<string>): seq<string> {
    Take(Objective(a, hype, tags), MAX_TAGS)
  }

  function Labelled(d: Dim, values: seq<string>): seq<string> {
    seq(|values|, i requires 0 <= i < |values| => Dimension(d) + ":" + values[i])
  }

  /** The dimensions in their listing order, each capped. */
  function CleanKeywords(dims: seq<Dim>, raw: Dim -> seq<string>): seq<string> {
    if dims == [] then []
    else Labelled(dims[0], Take(raw(dims[0]), MAX_KW_PER_DIM)) + CleanKeywords(dims[1..], raw)
  }

  function KeywordsIn(ts: seq<Token>): Dim -> seq<string> { d => Select(Keyword(d), ts) }

  function First(values: seq<string>): Option<string> { if values == [] then None else Some(values[0]) }

  function CopyOf(a: Alphabet, hype: seq<string>, ts: seq<Token>): CopyResult {
    CopyResult(
      Select(Caption, ts), FaqOf(ts), Select(Subhead, ts), Select(Title, ts), Select(QuickFact, ts),
      Join("\n", Select(Summary, ts)), CleanTags(a, hype, Select(Tag, ts)),
      First(Select(Category, ts)),
      CleanKeywords(DIMS, KeywordsIn(ts)), true, false, None)
  }

  lemma NextToken(a: Alphabet, lines: seq<string>, i: nat)
    requires i < |lines|
    ensures Tokens(a, lines[..i + 1]) ==
            Tokens(a, lines[..i]) + (match TokenOf(a, lines[i]) case None => [] case Some(t) => [t])
  {
    assert lines[..i + 1][..i] == lines[..i];
  }

  lemma {:induction false} NextSelected(k: Kind, ts: seq<Token>, t: Token)
    ensures Select(k, ts + [t]) == Select(k, ts) + Own(k, t)
    decreases |ts|
  {
    if ts == [] {
      assert [t][1..] == [];
    } else {
      Seqs.CutConcat(ts, [t], 0);
      NextSelected(k, ts[1..], t);
      Seqs.ConcatAssoc(Own(k, ts[0]), Select(k, ts[1..]), Own(k, t));
    }
  }

  lemma NextPaired(ts: seq<Token>, t: Token)
    ensures PairAll(ts + [t]) == Pair(PairAll(ts), t)
  {
    assert (ts + [t])[..|ts|] == ts;
  }

  lemma {:induction false} SameKeywords(dims: seq<Dim>, f: Dim -> seq<string>, g: Dim -> seq<string>)
    requires forall d :: f(d) == g(d)
    ensures CleanKeywords(dims, f) == CleanKeywords(dims, g)
    decreases |dims|
  {
    if dims != [] {
      SameKeywords(dims[1..], f, g);
    }
  }

  /** The keywords met so far, by dimension. */
  ghost predicate Collected(ts: seq<Token>, lists: map<Dim, seq<string>>) {
    forall d :: d in lists && lists[d] == Select(Keyword(d), ts)
  }

  lemma CollectedNext(ts: seq<Token>, lists: map<Dim, seq<string>>, t: Token)
    requires Collected(ts, lists)
    ensures t.kind.Keyword? ==> Collected(ts + [t], lists[t.kind.dim := lists[t.kind.dim] + [t.value]])
    ensures !t.kind.Keyword? ==> Collected(ts + [t], lists)
  {
    forall d { NextSelected(Keyword(d), ts, t); }
  }

  /** The lists of everything that is neither keyword nor FAQ. */
  datatype Plainly = Plainly(captions: seq<string>, subheads: seq<string>, titles: seq<string>,
                             quickFacts: seq<string>, summary: seq<string>, tags: seq<string>)

  function PlainlyOf(ts: seq<Token>): Plainly {
    Plainly(Select(Caption, ts), Select(Subhead, ts), Select(Title, ts), Select(QuickFact, ts),
            Select(Summary, ts), Select(Tag, ts))
  }

  lemma PlainlyNext(ts: seq<Token>, t: Token)
    ensures var p := PlainlyOf(ts);
            PlainlyOf(ts + [t]) ==
            match t.kind
            case Caption => p.(captions := p.captions + [t.value])
            case Subhead => p.(subheads := p.subheads + [t.value])
            case Title => p.(titles := p.titles + [t.value])
            case QuickFact => p.(quickFacts := p.quickFacts + [t.value])
            case Summary => p.(summary := p.summary + [t.value])
            case Tag => p.(tags := p.tags + [t.value])
            case _ => p
  {
    NextSelected(Caption, ts, t);
    NextSelected(Subhead, ts, t);
    NextSelected(Title, ts, t);
    NextSelected(QuickFact, ts, t);
    NextSelected(Summary, ts, t);
    NextSelected(Tag, ts, t);
  }

  function Listed(lists: map<Dim, seq<string>>): Dim -> seq<string> {
    d => if d in lists then lists[d] else []
  }

  /** _parse: one pass over the lines, one accumulator per piece, a pending question. */
  method Parse(a: Alphabet, hype: seq<string>, text: string) returns (copy: CopyResult)
    ensures copy == CopyOf(a, hype, Tokens(a, SplitLines(text)))
  {
    var captions, subheads, titles, quickFacts, summaryLines, rawTags := [], [], [], [], [], [];
    var category: Option<string> := None;
    var rawKeywords: map<Dim, seq<string>> := map[Person := [], Place := [], Platform := [], Event := [], Type := []];
    var faq: seq<FaqItem>, pending: Option<string> := [], None;
    var lines := SplitLines(text);
    ghost var done: seq<Token> := [];
    forall d: Dim ensures d in rawKeywords && rawKeywords[d] == [] {
      match d { case Person => case Place => case Platform => case Event => case Type => }
    }
    for i := 0 to |lines|
      invariant done == Tokens(a, lines[..i])
      invariant Plainly(captions, subheads, titles, quickFacts, summaryLines, rawTags) == PlainlyOf(done)
      invariant category == First(Select(Category, done))
      invariant Collected(done, rawKeywords)
      invariant Pairing(faq, pending) == PairAll(done)
    {
      NextToken(a, lines, i);
      var token := TokenOf(a, lines[i]);
      if token.Some? {
        var Token(kind, value) := token.value;
        NextSelected(Category, done, token.value);
        PlainlyNext(done, token.value);
        CollectedNext(done, rawKeywords, token.value);
        NextPaired(done, token.value);
        match kind {
          case Caption => captions := captions + [value];
          case Subhead => subheads := subheads + [value];
          case Title => titles := titles + [value];
          case QuickFact => quickFacts := quickFacts + [value];
          case Summary => summaryLines := summaryLines + [value];
          case Tag => rawTags := rawTags + [value];
          case Category =>
            if category.None? {
              category := Some(value);
            }
          case FaqQ =>
            if pending.Some? {
              faq := faq + [FaqItem(pending.value, "")];
            }
            pending := Some(value);
          case FaqA =>
            if pending.Some? {
              faq := faq + [FaqItem(pending.value, value)];
              pending := None;
            }
          case Keyword(dim) =>
            rawKeywords := rawKeywords[dim := rawKeywords[dim] + [value]];
        }
        done := done + [token.value];
      }
    }
    assert lines[..|lines|] == lines;
    if pending.Some? {
      faq := faq + [FaqItem(pending.value, "")];
    }
    PairingIsFaq(done);
    SameKeywords(DIMS, Listed(rawKeywords), KeywordsIn(done));
    copy := CopyResult(
      captions, faq, subheads, titles, quickFacts, Join("\n", summaryLines), CleanTags(a, hype, rawTags),
      category, CleanKeywords(DIMS, Listed(rawKeywords)), true, false, None);
  }

  // --- printing, and reading it back ---

  predicate KeyChar(c: char) { 'A' <= c <= 'Z' || c == '_' }

  /** Upper-casing leaves the key characters alone, as the Unicode tables do. */
  ghost predicate KeepsKeys(a: Alphabet) {
    forall c :: KeyChar(c) ==> a.upper(c) == c
  }

  /** A trimmed, nonempty, single-line value. */
  ghost predicate Plain(v: string) { v != [] && Strip(v) == v && SingleLine(v) }

  function LineOf(t: Token): string { KeyText(t.kind) + ": " + t.value }

  function Lines(ts: seq<Token>): seq<string> {
    seq(|ts|, i requires 0 <= i < |ts| => LineOf(ts[i]))
  }

  function Print(ts: seq<Token>): string { Unlines(Lines(ts)) }

  lemma KeyTextChars(k: Kind)
    ensures KeyText(k) != [] && forall i :: 0 <= i < |KeyText(k)| ==> KeyChar(KeyText(k)[i])
  {
  }

  lemma KeysDiffer(k: Kind)
    ensures KindOf(KeyText(k)) == Some(k)
  {
  }

  lemma FirstColonIs(s: string, i: nat)
    requires i < |s| && s[i] == ':' && forall k :: 0 <= k < i ==> s[k] != ':'
    ensures FirstColon(s) == i
  {
  }

  lemma StripPlain(v: string)
    requires v != [] && Strip(v) == v
    ensures !IsSpace(v[0]) && !IsSpace(v[|v| - 1])
  {
    assert Seqs.Lead(IsSpace, v) < Seqs.Keep(IsSpace, v);
    assert |Strip(v)| == Seqs.Keep(IsSpace, v) - Seqs.Lead(IsSpace, v);
  }

  lemma StripWhole(s: string)
    requires s != [] && !IsSpace(s[0]) && !IsSpace(s[|s| - 1])
    ensures Strip(s) == s
  {
    Seqs.TrimIs(IsSpace, s, 0, |s|);
    assert s[0..|s|] == s;
  }

  lemma TokenOfParts(a: Alphabet, key: string, v: string)
    requires KeepsKeys(a) && Plain(v) && key != [] && forall i :: 0 <= i < |key| ==> KeyChar(key[i])
    ensures TokenOf(a, key + ": " + v) == match KindOf(key) case None => None case Some(k) => Some(Token(k, v))
  {
    PartsStrip(key, v);
    PartsCut(key, v);
    KeyStays(a, key);
    TokenIs(a, key + ": " + v, key, v);
  }

  lemma KeyStays(a: Alphabet, key: string)
    requires KeepsKeys(a) && key != [] && forall i :: 0 <= i < |key| ==> KeyChar(key[i])
    ensures Upper(a, Strip(key)) == key
  {
    StripWhole(key);
  }

  lemma TokenIs(a: Alphabet, line: string, key: string, v: string)
    requires Strip(line) == line && FirstColon(line) < |line|
    requires var i := FirstColon(line); Upper(a, Strip(line[..i])) == key && Strip(line[i + 1..]) == v != []
    ensures TokenOf(a, line) == match KindOf(key) case None => None case Some(k) => Some(Token(k, v))
  {
  }

  lemma PartsStrip(key: string, v: string)
    requires Plain(v) && key != [] && forall i :: 0 <= i < |key| ==> KeyChar(key[i])
    ensures Strip(key + ": " + v) == key + ": " + v && Strip(" " + v) == v
  {
    var line := key + ": " + v;
    StripPlain(v);
    assert line[0] == key[0] && line[|line| - 1] == v[|v| - 1];
    StripWhole(line);
    Seqs.TrimPadLeft(IsSpace, " ", v);
  }

  lemma PartsCut(key: string, v: string)
    requires forall i :: 0 <= i < |key| ==> KeyChar(key[i])
    ensures var line := key + ": " + v;
            FirstColon(line) == |key| && line[..|key|] == key && line[|key| + 1..] == " " + v
  {
    FirstColonIs(key + ": " + v, |key|);
  }

  lemma SinglePart(key: string, v: string)
    requires SingleLine(v) && forall i :: 0 <= i < |key| ==> KeyChar(key[i])
    ensures SingleLine(key + ": " + v)
  {
  }

  lemma TokenOfLine(a: Alphabet, t: Token)
    requires KeepsKeys(a) && Plain(t.value)
    ensures TokenOf(a, LineOf(t)) == Some(t) && SingleLine(LineOf(t))
  {
    KeyTextChars(t.kind);
    TokenOfParts(a, KeyText(t.kind), t.value);
    SinglePart(KeyText(t.kind), t.value);
    KeysDiffer(t.kind);
  }

  lemma LinesPrefix(ts: seq<Token>, n: nat)
    requires n < |ts|
    ensures Lines(ts)[..n] == Lines(ts[..n]) && Lines(ts)[n] == LineOf(ts[n]) && |Lines(ts)| == |ts|
    ensures ts[..|ts|] == ts
  {
  }

  lemma {:induction false} TokensOfLines(a: Alphabet, ts: seq<Token>)
    requires KeepsKeys(a) && forall i :: 0 <= i < |ts| ==> Plain(ts[i].value)
    ensures Tokens(a, Lines(ts)) == ts
    decreases |ts|
  {
    if ts != [] {
      var n := |ts| - 1;
      LinesPrefix(ts, n);
      TokensOfLines(a, ts[..n]);
      TokenOfLine(a, ts[n]);
      Seqs.TakeNext(ts, n);
    }
  }

  /** Any sequence of printed pieces reads back as itself, in order. */
  lemma TokensRoundTrip(a: Alphabet, ts: seq<Token>)
    requires KeepsKeys(a) && forall i :: 0 <= i < |ts| ==> Plain(ts[i].value)
    ensures Tokens(a, SplitLines(Print(ts))) == ts
  {
    forall i | 0 <= i < |ts| ensures SingleLine(Lines(ts)[i]) {
      TokenOfLine(a, ts[i]);
    }
    SplitUnlines(Lines(ts));
    TokensOfLines(a, ts);
  }

  // --- whole copies ---

  /** A question line, and an answer line unless the answer is empty. */
  function FaqTokens(faq: seq<FaqItem>): seq<Token> {
    if faq == [] then [] else Item(faq[0]) + FaqTokens(faq[1..])
  }

  function Item(f: FaqItem): seq<Token> {
    [Token(FaqQ, f.question)] + if f.answer == [] then [] else [Token(FaqA, f.answer)]
  }

  function OnlyFaq(ts: seq<Token>): seq<Token> {
    if ts == [] then []
    else (if ts[0].kind.FaqQ? || ts[0].kind.FaqA? then [ts[0]] else []) + OnlyFaq(ts[1..])
  }

  /** All the keywords, labelled, none left out. */
  function AllKeywords(dims: seq<Dim>, values: Dim -> seq<string>): seq<string> {
    if dims == [] then [] else Labelled(dims[0], values(dims[0])) + AllKeywords(dims[1..], values)
  }

  lemma ItemFirst(f: FaqItem, rest: seq<Token>)
    requires rest == [] || rest[0].kind == FaqQ
    ensures FaqOf(Item(f) + rest) == [f] + FaqOf(rest)
  {
    var ts := Item(f) + rest;
    if f.answer == [] {
      assert ts[1..] == rest;
    } else {
      assert ts[1..] == [Token(FaqA, f.answer)] + rest;
      assert ts[1..][1..] == rest;
    }
  }

  lemma {:induction false} FaqBack(faq: seq<FaqItem>)
    ensures FaqOf(FaqTokens(faq)) == faq
    decreases |faq|
  {
    if faq != [] {
      FaqBack(faq[1..]);
      ItemFirst(faq[0], FaqTokens(faq[1..]));
    }
  }

  /** The pairing does not see the lines in between. */
  lemma {:induction false} FaqOnly(ts: seq<Token>)
    ensures FaqOf(ts) == FaqOf(OnlyFaq(ts)) && AnswerIn(ts) == AnswerIn(OnlyFaq(ts))
    decreases |ts|
  {
    if ts != [] {
      FaqOnly(ts[1..]);
      OnlyNext(ts, OnlyFaq(ts[1..]));
    }
  }

  lemma OnlyNext(ts: seq<Token>, rest: seq<Token>)
    requires ts != [] && rest == OnlyFaq(ts[1..])
    requires FaqOf(ts[1..]) == FaqOf(rest) && AnswerIn(ts[1..]) == AnswerIn(rest)
    ensures FaqOf(ts) == FaqOf(OnlyFaq(ts)) && AnswerIn(ts) == AnswerIn(OnlyFaq(ts))
  {
    var t := ts[0];
    if t.kind.FaqQ? || t.kind.FaqA? {
      assert OnlyFaq(ts) == [t] + rest;
      assert ([t] + rest)[0] == t && ([t] + rest)[1..] == rest;
    } else {
      assert OnlyFaq(ts) == [] + rest == rest;
    }
  }

  lemma {:induction false} ObjectiveAll(a: Alphabet, hype: seq<string>, tags: seq<string>)
    requires forall i :: 0 <= i < |tags| ==> HypeFree(a, hype, tags[i])
    ensures Objective(a, hype, tags) == tags
    decreases |tags|
  {
    if tags != [] {
      ObjectiveAll(a, hype, tags[1..]);
      assert tags == [tags[0]] + tags[1..];
    }
  }

  lemma {:induction false} NothingCut(dims: seq<Dim>, values: Dim -> seq<string>)
    requires forall d :: |values(d)| <= MAX_KW_PER_DIM
    ensures CleanKeywords(dims, values) == AllKeywords(dims, values)
    decreases |dims|
  {
    if dims != [] {
      NothingCut(dims[1..], values);
    }
  }

  /** Pieces within the caps, printed in any order the FAQ lines allow, all come back. */
  lemma CopyRoundTrip(a: Alphabet, hype: seq<string>, ts: seq<Token>, faq: seq<FaqItem>)
    requires KeepsKeys(a) && forall i :: 0 <= i < |ts| ==> Plain(ts[i].value)
    requires OnlyFaq(ts) == FaqTokens(faq)
    requires |Select(Tag, ts)| <= 5
    requires forall i :: 0 <= i < |Select(Tag, ts)| ==> HypeFree(a, hype, Select(Tag, ts)[i])
    requires forall d :: |KeywordsIn(ts)(d)| <= 3
    ensures CopyOf(a, hype, Tokens(a, SplitLines(Print(ts)))) ==
            CopyResult(
              Select(Caption, ts), faq, Select(Subhead, ts), Select(Title, ts), Select(QuickFact, ts),
              Join("\n", Select(Summary, ts)), Select(Tag, ts), First(Select(Category, ts)),
              AllKeywords(DIMS, KeywordsIn(ts)), true, false, None)
  {
    TokensRoundTrip(a, ts);
    FaqOnly(ts);
    FaqBack(faq);
    ObjectiveAll(a, hype, Select(Tag, ts));
    NothingCut(DIMS, KeywordsIn(ts));
  }

  // --- what the copy does to the draft ---

  function ImageSections(captions: seq<string>, refs: seq<string>): seq<MediaSection> {
    seq(|captions|, i requires 0 <= i < |captions| =>
      MediaSection(if i < |refs| then Some(refs[i]) else None, captions[i]))
  }

  function ApplyCopy(d: Draft, copy: CopyResult, refs: seq<string>): Draft {
    d.(imageSections := d.imageSections + ImageSections(copy.captions, refs),
       faq := d.faq + copy.faq,
       subheads := d.subheads + copy.subheads,
       titleCandidates := d.titleCandidates + copy.titleCandidates,
       quickFacts := d.quickFacts + copy.quickFacts,
       tags := d.tags + copy.tags,
       summary := if copy.summary != [] then copy.summary else d.summary,
       category := if copy.category.Some? && copy.category.value != [] then copy.category else d.category,
       keywords := d.keywords + copy.keywords)
  }

  /** The lists only grow, by what the copy brings and in its order; every caption survives, with
      its asset where there is one; the grounded narrative is not touched. */
  lemma CopyExtendsLists(d: Draft, copy: CopyResult, refs: seq<string>)
    ensures var e, n := ApplyCopy(d, copy, refs), |d.imageSections|;
            && e.faq == d.faq + copy.faq && e.subheads == d.subheads + copy.subheads
            && e.titleCandidates == d.titleCandidates + copy.titleCandidates
            && e.quickFacts == d.quickFacts + copy.quickFacts
            && e.tags == d.tags + copy.tags && e.keywords == d.keywords + copy.keywords
            && d.imageSections <= e.imageSections && |e.imageSections| == n + |copy.captions|
            && (forall i :: n <= i < |e.imageSections| ==>
                  && e.imageSections[i].caption == copy.captions[i - n]
                  && e.imageSections[i].assetRef == if i - n < |refs| then Some(refs[i - n]) else None)
            && e.videoSections == d.videoSections && e.title == d.title && e.intro == d.intro
            && e.eventBody == d.eventBody && e.quotes == d.quotes && e.status == d.status
  {
  }

  /** A summary or a category the draft had survives exactly when the copy brings none or the
      same one: anything the copy brings takes its place, the operator's own category included. */
  lemma CopyReplacesExactlyWhen(d: Draft, copy: CopyResult, refs: seq<string>)
    ensures var e := ApplyCopy(d, copy, refs);
            && (e.summary == d.summary <==> copy.summary == [] || copy.summary == d.summary)
            && (e.category == d.category <==>
                  copy.category.None? || copy.category.value == [] || copy.category == d.category)
  {
  }

  /** What _parse hands over is never an empty category, so the copy's category always wins. */
  lemma ParsedCategoryWins(a: Alphabet, hype: seq<string>, lines: seq<string>, d: Draft, refs: seq<string>)
    ensures var copy := CopyOf(a, hype, Tokens(a, lines));
            copy.category.Some? ==> ApplyCopy(d, copy, refs).category == copy.category
  {
    var ts := Tokens(a, lines);
    if Select(Category, ts) != [] {
      SelectedFromToken(Category, ts, 0);
      TokensHaveValues(a, lines);
    }
  }

  lemma {:induction false} SelectedFromToken(k: Kind, ts: seq<Token>, i: nat)
    requires i < |Select(k, ts)|
    ensures exists n :: 0 <= n < |ts| && ts[n].value == Select(k, ts)[i]
    decreases |ts|
  {
    var own := |Own(k, ts[0])|;
    if i >= own {
      SelectedFromToken(k, ts[1..], i - own);
      var n :| 0 <= n < |ts[1..]| && ts[1..][n].value == Select(k, ts[1..])[i - own];
      assert ts[n + 1] == ts[1..][n];
    }
  }

  lemma {:induction false} TokensHaveValues(a: Alphabet, lines: seq<string>)
    ensures forall n :: 0 <= n < |Tokens(a, lines)| ==> Tokens(a, lines)[n].value != []
    decreases |lines|
  {
    if lines != [] {
      TokensHaveValues(a, lines[..|lines| - 1]);
    }
  }
}
