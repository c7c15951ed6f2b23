/** Structural lint of a draft: errors, warnings and the verdict. */
module LintRules {
  import opened Wrappers
  import opened Text
  import opened Drafts
  import opened Collect
  import Seqs

  const MIN_PARAGRAPH_CHARS := 12

  datatype LintConfig = LintConfig(
    titleMin: int, titleMax: int, tagMin: int, tagMax: int,
    categories: seq<string>, hypeWords: seq<string>, minCopyChars: int, blockCopyRatio: real,
    introMin: int, introMax: int, bodyMin: int, bodyMax: int,
    summaryWarn: int, summaryError: int, faqMin: int, faqMax: int, factsMin: int, factsMax: int)

  datatype Section = Title | Intro | QuickFacts | EventBody | Faq | Summary | Tags

  datatype LintError =
    | Missing(section: Section) | TooSmall(section: Section) | TooLarge(section: Section)
    | NoImages | NoVideos | HypeTags(tags: seq<string>)
    | CategoryMissing | CategoryUnknown | Copied | CopiedExcessively

  datatype LintWarning =
    | LongSummary | VideosWithoutAssets | OrphanKeywords(words: seq<string>) | Duplicates(count: nat)

  datatype LintStatus = Pass | Revise | Block

  datatype LintResult = LintResult(status: LintStatus, errors: seq<LintError>, warnings: seq<LintWarning>)

  // --- paragraphs ---

  /** Runs of whitespace become one space. */
  function Collapse(s: string): string {
    if s == [] then []
    else if !IsSpace(s[0]) then [s[0]] + Collapse(s[1..])
    else " " + Collapse(s[SpaceRun(s)..])
  }

  function SpaceRun(s: string): (n: nat)
    requires s != [] && IsSpace(s[0])
    ensures 1 <= n <= |s|
  {
    1 + Seqs.Lead(IsSpace, s[1..])
  }

  function Norm(s: string): string { Strip(Collapse(s)) }

  function FirstLf(s: string): (i: nat)
    ensures i <= |s|
    ensures i < |s| ==> s[i] == '\n'
  {
    if s == [] || s[0] == '\n' then 0 else 1 + FirstLf(s[1..])
  }

  /** The last line feed of the whitespace run that goes on at k, the last one so far at j. */
  function RunEnd(s: string, j: nat, k: nat): (r: nat)
    requires j < k <= |s|
    ensures j <= r < |s|
    decreases |s| - k
  {
    if k < |s| && IsSpace(s[k]) then RunEnd(s, if s[k] == '\n' then k else j, k + 1) else j
  }

  /** re.split on a blank-line or newline separator: the separator takes the longest stretch
      of whitespace that begins and ends with a line feed. */
  function Split(s: string): seq<string>
    decreases |s|
  {
    var i := FirstLf(s);
    if i == |s| then [s] else [s[..i]] + Split(s[RunEnd(s, i, i + 1) + 1..])
  }

  /** The normal form of a piece, if it is long enough to be a paragraph. */
  function LongNorm(): string -> seq<string> {
    (piece: string) => var p := Norm(piece); if |p| >= MIN_PARAGRAPH_CHARS then [p] else []
  }

  function Paragraphs(text: string): seq<string> {
    if text == [] then [] else FlatMap(LongNorm(), Split(text))
  }

  // --- the counting helpers ---

  function SetOf(items: seq<string>): set<string> { set x | x in items }

  /** How many paragraphs repeat an earlier one. */
  method DuplicateParagraphs(paragraphs: seq<string>) returns (dups: nat)
    ensures dups == |paragraphs| - |SetOf(paragraphs)|
  {
    dups := 0;
    var seen: set<string> := {};
    for i := 0 to |paragraphs|
      invariant seen == SetOf(paragraphs[..i])
      invariant dups == i - |seen|
    {
      SetGrows(paragraphs, i);
      if paragraphs[i] in seen {
        dups := dups + 1;
      } else {
        seen := seen + {paragraphs[i]};
      }
    }
    assert paragraphs[..|paragraphs|] == paragraphs;
  }

  lemma SetGrows(items: seq<string>, i: nat)
    requires i < |items|
    ensures SetOf(items[..i + 1]) == SetOf(items[..i]) + {items[i]}
  {
  }

  predicate IsHype(a: Alphabet, hype: seq<string>, tag: string) {
    exists i | 0 <= i < |hype| :: Occurs(Lower(a, hype[i]), Lower(a, tag))
  }

  function HypeOnes(a: Alphabet, hype: seq<string>, tags: seq<string>, n: nat): seq<string>
    requires n <= |tags|
  {
    if n == 0 then []
    else HypeOnes(a, hype, tags, n - 1) + if IsHype(a, hype, tags[n - 1]) then [tags[n - 1]] else []
  }

  method FindHypeTags(a: Alphabet, tags: seq<string>, hype: seq<string>) returns (hits: seq<string>)
    ensures hits == HypeOnes(a, hype, tags, |tags|)
    ensures hits == [] <==> forall i :: 0 <= i < |tags| ==> !IsHype(a, hype, tags[i])
  {
    hits := [];
    for i := 0 to |tags|
      invariant hits == HypeOnes(a, hype, tags, i)
      invariant hits == [] <==> forall k :: 0 <= k < i ==> !IsHype(a, hype, tags[k])
    {
      if IsHype(a, hype, tags[i]) {
        hits := hits + [tags[i]];
      }
    }
  }

  function Longs(paragraphs: seq<string>, n: int): set<string> { set p | p in paragraphs && |p| >= n }

  /** How many long source paragraphs the body repeats, and their share. */
  function CopiedTooMuch(body: seq<string>, source: seq<string>, minChars: int): (r: (nat, real))
    ensures 0.0 <= r.1 <= 1.0
    ensures r.0 == 0 <==> Longs(source, minChars) * SetOf(body) == {}
    ensures r.1 == 0.0 <==> r.0 == 0
  {
    var long := Longs(source, minChars);
    if long == {} then (0, 0.0)
    else
      var copied := |long * SetOf(body)|;
      PartOf(long * SetOf(body), long);
      (copied, copied as real / |long| as real)
  }

  lemma PartOf(a: set<string>, b: set<string>)
    requires a <= b && b != {}
    ensures 0.0 <= |a| as real / |b| as real <= 1.0
    ensures |a| == 0 <==> a == {}
    ensures |a| as real / |b| as real == 0.0 <==> |a| == 0
  {
    Seqs.SubsetSize(a, b);
    Share(|a|, |b|);
  }

  lemma Share(m: nat, n: nat)
    requires m <= n && n > 0
    ensures 0.0 <= m as real / n as real <= 1.0
    ensures m as real / n as real == 0.0 <==> m == 0
  {
    var q := m as real / n as real;
    assert q * n as real == m as real;
  }

  // --- the verdict ---

  /** The texts a reader of the draft sees, in the order they are read for keywords. */
  function DraftParts(d: Draft): seq<string> {
    [d.title, d.intro, d.eventBody, d.summary] + d.quickFacts + Captions(d.imageSections) + Captions(d.videoSections)
    + FaqTexts(d.faq) + d.quotes
  }

  function DraftText(d: Draft): string { Join("\n", NonEmpty(DraftParts(d))) }

  /** What follows the first colon, or everything. */
  function AfterColon(s: string): string {
    if ':' in s then (if s[0] == ':' then s[1..] else AfterColon(s[1..])) else s
  }

  /** A keyword with text, none of it a type prefix, that the text does not contain. */
  predicate IsOrphan(a: Alphabet, k: string, text: string) {
    !IsBlank(k) && !Occurs(Lower(a, Strip(AfterColon(k))), text)
  }

  function Orphans(a: Alphabet, keywords: seq<string>, text: string): seq<string> {
    if keywords == [] then []
    else
      (if IsOrphan(a, keywords[0], text) then [keywords[0]] else []) + Orphans(a, keywords[1..], text)
  }

  function OrphanOnes(a: Alphabet, d: Draft): seq<string> { Orphans(a, d.keywords, Lower(a, DraftText(d))) }

  // --- the publishing standard, stated on the draft alone ---

  predicate IsMissing(d: Draft, s: Section) {
    match s
    case Title => IsBlank(d.title)
    case Intro => IsBlank(d.intro)
    case QuickFacts => d.quickFacts == []
    case EventBody => IsBlank(d.eventBody)
    case Faq => d.faq == []
    case Summary => IsBlank(d.summary)
    case Tags => false
  }

  /** How large a section is: characters of a text, items of a list. */
  function SizeOf(d: Draft, s: Section): int {
    match s
    case Title => |Strip(d.title)|
    case Intro => |Strip(d.intro)|
    case QuickFacts => |d.quickFacts|
    case EventBody => |Strip(d.eventBody)|
    case Faq => |d.faq|
    case Summary => |Strip(d.summary)|
    case Tags => |d.tags|
  }

  /** The limits a section is held to; the summary has no lower one. */
  function Least(c: LintConfig, s: Section): int {
    match s
    case Title => c.titleMin
    case Intro => c.introMin
    case QuickFacts => c.factsMin
    case EventBody => c.bodyMin
    case Faq => c.faqMin
    case Summary => 0
    case Tags => c.tagMin
  }

  function Most(c: LintConfig, s: Section): int {
    match s
    case Title => c.titleMax
    case Intro => c.introMax
    case QuickFacts => c.factsMax
    case EventBody => c.bodyMax
    case Faq => c.faqMax
    case Summary => c.summaryError
    case Tags => c.tagMax
  }

  predicate Fits(d: Draft, c: LintConfig, s: Section) {
    !IsMissing(d, s) && Least(c, s) <= SizeOf(d, s) <= Most(c, s)
  }

  predicate Categorised(d: Draft, c: LintConfig) {
    c.categories == [] || (d.category.Some? && d.category.value != [] && d.category.value in c.categories)
  }

  /** No long source paragraph is repeated in the body. */
  predicate OwnWords(d: Draft, c: LintConfig, source: seq<string>) {
    forall p | p in source && |p| >= c.minCopyChars :: p !in Paragraphs(d.eventBody)
  }

  /** Long source paragraphs are repeated, and they are at least the blocking share of all. */
  predicate Excessive(d: Draft, c: LintConfig, source: seq<string>) {
    var (copied, share) := CopiedTooMuch(Paragraphs(d.eventBody), source, c.minCopyChars);
    copied != 0 && share >= c.blockCopyRatio
  }

  predicate Objective(a: Alphabet, d: Draft, c: LintConfig) {
    forall i | 0 <= i < |d.tags| :: !IsHype(a, c.hypeWords, d.tags[i])
  }

  /** What lint judges: the draft, the cleaned source paragraphs, and the media the job has. */
  datatype Subject = Subject(draft: Draft, source: seq<string>, hasVideos: bool, hasImages: bool)

  predicate HasMedia(x: Subject) {
    (x.hasImages ==> x.draft.imageSections != []) && (x.hasVideos ==> x.draft.videoSections != [])
  }

  predicate Clean(a: Alphabet, x: Subject, c: LintConfig) {
    && (forall s: Section :: Fits(x.draft, c, s))
    && HasMedia(x) && Objective(a, x.draft, c) && Categorised(x.draft, c) && OwnWords(x.draft, c, x.source)
  }

  // --- the accumulating pass ---

  const REQUIRED := [Title, Intro, QuickFacts, EventBody, Faq, Summary]
  const HELD := [Title, Intro, EventBody, Summary, Faq, QuickFacts, Tags]

  lemma EverySection(s: Section)
    ensures s in HELD && (s in REQUIRED || s == Tags)
  {
    assert HELD == [Title, Intro, EventBody, Summary, Faq, QuickFacts, Tags];
    match s
    case Title => assert HELD[0] == s == REQUIRED[0];
    case Intro => assert HELD[1] == s == REQUIRED[1];
    case EventBody => assert HELD[2] == s == REQUIRED[3];
    case Summary => assert HELD[3] == s == REQUIRED[5];
    case Faq => assert HELD[4] == s == REQUIRED[4];
    case QuickFacts => assert HELD[5] == s == REQUIRED[2];
    case Tags => assert HELD[6] == s;
  }

  predicate IsSize(e: LintError) { e.Missing? || e.TooSmall? || e.TooLarge? }

  /** The sections asked for that are not there. */
  method CheckPresence(d: Draft, sections: seq<Section>) returns (errors: seq<LintError>)
    ensures forall e :: e in errors <==> e.Missing? && e.section in sections && IsMissing(d, e.section)
  {
    errors := [];
    for i := 0 to |sections|
      invariant forall e :: e in errors <==> e.Missing? && e.section in sections[..i] && IsMissing(d, e.section)
    {
      if IsMissing(d, sections[i]) {
        errors := errors + [Missing(sections[i])];
      }
    }
  }

  predicate IsOut(d: Draft, c: LintConfig, e: LintError) {
    || (e.TooSmall? && !IsMissing(d, e.section) && SizeOf(d, e.section) < Least(c, e.section))
    || (e.TooLarge? && !IsMissing(d, e.section) && Least(c, e.section) <= SizeOf(d, e.section)
        && SizeOf(d, e.section) > Most(c, e.section))
  }

  /** The sections that are there, against their limits. */
  method CheckSizes(d: Draft, c: LintConfig, sections: seq<Section>) returns (errors: seq<LintError>)
    ensures forall e :: e in errors <==> IsOut(d, c, e) && e.section in sections
  {
    errors := [];
    for i := 0 to |sections|
      invariant forall e :: e in errors <==> IsOut(d, c, e) && e.section in sections[..i]
    {
      var s := sections[i];
      if !IsMissing(d, s) {
        var n := SizeOf(d, s);
        if n < Least(c, s) {
          errors := errors + [TooSmall(s)];
        } else if n > Most(c, s) {
          errors := errors + [TooLarge(s)];
        }
      }
    }
  }

  /** When each error is true of a draft. */
  predicate IsRaised(a: Alphabet, x: Subject, c: LintConfig, e: LintError) {
    var d := x.draft;
    match e
    case Missing(s) => IsMissing(d, s)
    case TooSmall(s) => IsOut(d, c, e)
    case TooLarge(s) => IsOut(d, c, e)
    case NoImages => x.hasImages && d.imageSections == []
    case NoVideos => x.hasVideos && d.videoSections == []
    case HypeTags(tags) => tags == HypeOnes(a, c.hypeWords, d.tags, |d.tags|) != []
    case CategoryMissing => c.categories != [] && (d.category.None? || d.category.value == [])
    case CategoryUnknown => c.categories != [] && d.category.Some? && d.category.value !in [""] + c.categories
    case CopiedExcessively => Excessive(d, c, x.source)
    case Copied => !Excessive(d, c, x.source) && !OwnWords(d, c, x.source)
  }

  function Raised(a: Alphabet, x: Subject, c: LintConfig): LintError -> bool {
    (e: LintError) => IsRaised(a, x, c, e)
  }

  /** The errors are exactly those of these kinds that are true. */
  ghost predicate Exact(errors: seq<LintError>, raised: LintError -> bool, kind: LintError -> bool) {
    forall e :: e in errors <==> kind(e) && raised(e)
  }

  lemma ExactJoin(a: seq<LintError>, k: LintError -> bool, b: seq<LintError>, l: LintError -> bool,
                  raised: LintError -> bool, m: LintError -> bool)
    requires Exact(a, raised, k) && Exact(b, raised, l) && forall e :: m(e) <==> k(e) || l(e)
    ensures Exact(a + b, raised, m) && (a + b == [] <==> a == [] && b == [])
  {
  }

  function MediaErrors(): LintError -> bool { (e: LintError) => e.NoImages? || e.NoVideos? }

  function TagErrors(): LintError -> bool { (e: LintError) => e.HypeTags? }

  function CategoryErrors(): LintError -> bool { (e: LintError) => e.CategoryMissing? || e.CategoryUnknown? }

  function CopyErrors(): LintError -> bool { (e: LintError) => e.Copied? || e.CopiedExcessively? }

  function SizeErrors(): LintError -> bool { (e: LintError) => IsSize(e) }

  function ContentErrors(): LintError -> bool { (e: LintError) => !IsSize(e) }

  function AllErrors(): LintError -> bool { (e: LintError) => true }

  /** Any of two kinds. */
  function Either(k: LintError -> bool, l: LintError -> bool): LintError -> bool { (e: LintError) => k(e) || l(e) }

  /** The checks that are not about sizes: media, objective tags, category, copying. */
  method CheckContent(a: Alphabet, x: Subject, c: LintConfig) returns (errors: seq<LintError>, block: bool)
    ensures Exact(errors, Raised(a, x, c), ContentErrors())
    ensures errors == [] <==>
            HasMedia(x) && Objective(a, x.draft, c) && Categorised(x.draft, c) && OwnWords(x.draft, c, x.source)
    ensures block == Excessive(x.draft, c, x.source) && (block ==> errors != [])
  {
    var media := CheckMedia(a, x, c);
    var hype := CheckTags(a, x, c);
    var category := CheckCategory(a, x, c);
    var copying;
    copying, block := CheckCopying(x, c);
    CopyingIsExact(a, x, c, copying);
    errors := JoinContent(media, hype, category, copying, Raised(a, x, c));
  }

  method JoinContent(media: seq<LintError>, hype: seq<LintError>, category: seq<LintError>, copying: seq<LintError>,
                     ghost raised: LintError -> bool)
      returns (errors: seq<LintError>)
    requires Exact(media, raised, MediaErrors()) && Exact(hype, raised, TagErrors())
    requires Exact(category, raised, CategoryErrors()) && Exact(copying, raised, CopyErrors())
    ensures Exact(errors, raised, ContentErrors())
    ensures errors == [] <==> media == [] && hype == [] && category == [] && copying == []
  {
    ghost var first := Either(MediaErrors(), TagErrors());
    ghost var second := Either(first, CategoryErrors());
    ExactJoin(media, MediaErrors(), hype, TagErrors(), raised, first);
    ExactJoin(media + hype, first, category, CategoryErrors(), raised, second);
    ExactJoin(media + hype + category, second, copying, CopyErrors(), raised, ContentErrors());
    errors := media + hype + category + copying;
  }

  method CheckMedia(a: Alphabet, x: Subject, c: LintConfig) returns (errors: seq<LintError>)
    ensures Exact(errors, Raised(a, x, c), MediaErrors()) && (errors == [] <==> HasMedia(x))
  {
    errors := [];
    if x.hasImages && x.draft.imageSections == [] {
      errors := errors + [NoImages];
    }
    if x.hasVideos && x.draft.videoSections == [] {
      errors := errors + [NoVideos];
    }
  }

  method CheckTags(a: Alphabet, x: Subject, c: LintConfig) returns (errors: seq<LintError>)
    ensures Exact(errors, Raised(a, x, c), TagErrors()) && (errors == [] <==> Objective(a, x.draft, c))
  {
    var hits := FindHypeTags(a, x.draft.tags, c.hypeWords);
    errors := if hits != [] then [HypeTags(hits)] else [];
  }

  method CheckCategory(a: Alphabet, x: Subject, c: LintConfig) returns (errors: seq<LintError>)
    ensures Exact(errors, Raised(a, x, c), CategoryErrors())
    ensures errors == [] <==> Categorised(x.draft, c)
  {
    errors := [];
    var category := x.draft.category;
    if c.categories != [] {
      if category.None? || category.value == [] {
        errors := [CategoryMissing];
      } else if category.value !in c.categories {
        errors := [CategoryUnknown];
      }
    }
  }

  lemma CopyingIsExact(a: Alphabet, x: Subject, c: LintConfig, errors: seq<LintError>)
    requires CopiedExcessively in errors <==> Excessive(x.draft, c, x.source)
    requires Copied in errors <==> !Excessive(x.draft, c, x.source) && !OwnWords(x.draft, c, x.source)
    requires forall e :: e in errors ==> e.Copied? || e.CopiedExcessively?
    ensures Exact(errors, Raised(a, x, c), CopyErrors())
  {
  }

  method CheckCopying(x: Subject, c: LintConfig) returns (errors: seq<LintError>, block: bool)
    ensures CopiedExcessively in errors <==> Excessive(x.draft, c, x.source)
    ensures Copied in errors <==> !Excessive(x.draft, c, x.source) && !OwnWords(x.draft, c, x.source)
    ensures forall e :: e in errors ==> e.Copied? || e.CopiedExcessively?
    ensures errors == [] <==> OwnWords(x.draft, c, x.source)
    ensures block == Excessive(x.draft, c, x.source) && (block ==> errors != [])
  {
    errors, block := [], false;
    var d, source := x.draft, x.source;
    NothingCopied(Paragraphs(d.eventBody), source, c.minCopyChars);
    if source != [] {
      var (copied, ratio) := CopiedTooMuch(Paragraphs(d.eventBody), source, c.minCopyChars);
      if copied != 0 {
        if ratio >= c.blockCopyRatio {
          block := true;
          errors := [CopiedExcessively];
        } else {
          errors := [Copied];
        }
      }
    } else {
      assert Longs(source, c.minCopyChars) == {};
    }
  }

  lemma NothingCopied(body: seq<string>, source: seq<string>, minChars: int)
    ensures CopiedTooMuch(body, source, minChars).0 == 0 <==>
            forall p :: p in source && |p| >= minChars ==> p !in body
  {
    var long, own := Longs(source, minChars), SetOf(body);
    if long * own == {} {
      forall p | p in source && |p| >= minChars ensures p !in body {
        assert p in long;
        assert p in body ==> p in long * own;
      }
    } else {
      var p :| p in long * own;
    }
  }

  /** The advisory notes: an over-long closing, stray videos, keywords the draft never mentions,
      and how many body paragraphs repeat an earlier one. */
  method CheckWarnings(a: Alphabet, d: Draft, c: LintConfig, hasVideos: bool) returns (warnings: seq<LintWarning>)
    ensures LongSummary in warnings <==> !IsMissing(d, Summary) && c.summaryWarn < SizeOf(d, Summary) <= c.summaryError
    ensures VideosWithoutAssets in warnings <==> d.videoSections != [] && !hasVideos
    ensures forall ks :: OrphanKeywords(ks) in warnings <==> ks == OrphanOnes(a, d) != []
    ensures forall n :: Duplicates(n) in warnings <==> IsRepeatCount(d, n)
  {
    var notes := CheckShape(d, c, hasVideos);
    var words := CheckWords(a, d);
    warnings := notes + words;
  }

  method CheckShape(d: Draft, c: LintConfig, hasVideos: bool) returns (warnings: seq<LintWarning>)
    ensures forall w :: w in warnings <==>
              || (w == LongSummary && !IsMissing(d, Summary) && c.summaryWarn < SizeOf(d, Summary) <= c.summaryError)
              || (w == VideosWithoutAssets && d.videoSections != [] && !hasVideos)
  {
    warnings := [];
    var n := |Strip(d.summary)|;
    if !IsBlank(d.summary) && c.summaryWarn < n <= c.summaryError {
      warnings := warnings + [LongSummary];
    }
    if !hasVideos && d.videoSections != [] {
      warnings := warnings + [VideosWithoutAssets];
    }
  }

  predicate IsRepeatCount(d: Draft, n: nat) {
    var ps := Paragraphs(d.eventBody);
    0 < n == |ps| - |SetOf(ps)|
  }

  method CheckWords(a: Alphabet, d: Draft) returns (warnings: seq<LintWarning>)
    ensures forall w :: w in warnings <==>
              || (w.OrphanKeywords? && w.words == OrphanOnes(a, d) != [])
              || (w.Duplicates? && IsRepeatCount(d, w.count))
  {
    warnings := [];
    var orphans := OrphanOnes(a, d);
    if orphans != [] {
      warnings := warnings + [OrphanKeywords(orphans)];
    }
    var dups := DuplicateParagraphs(Paragraphs(d.eventBody));
    if dups != 0 {
      warnings := warnings + [Duplicates(dups)];
    }
  }

  method CheckSections(a: Alphabet, x: Subject, c: LintConfig) returns (errors: seq<LintError>)
    ensures Exact(errors, Raised(a, x, c), SizeErrors())
    ensures errors == [] <==> forall s: Section :: Fits(x.draft, c, s)
  {
    var d := x.draft;
    var absent := CheckPresence(d, REQUIRED);
    var sizes := CheckSizes(d, c, HELD);
    forall s: Section { EverySection(s); }
    NoSizeErrors(absent, sizes, d, c);
    errors := absent + sizes;
  }

  /** An error is raised exactly when it is true, the draft passes exactly when it meets the
      standard, and it is blocked exactly when it copies too large a share; warnings never matter. */
  method LintDraft(a: Alphabet, x: Subject, c: LintConfig) returns (r: LintResult)
    ensures forall e :: e in r.errors <==> IsRaised(a, x, c, e)
    ensures r.errors == [] <==> Clean(a, x, c)
    ensures r.status == Pass <==> Clean(a, x, c)
    ensures r.status == Block <==> Excessive(x.draft, c, x.source)
    ensures LongSummary in r.warnings <==>
              !IsMissing(x.draft, Summary) && c.summaryWarn < SizeOf(x.draft, Summary) <= c.summaryError
    ensures VideosWithoutAssets in r.warnings <==> x.draft.videoSections != [] && !x.hasVideos
    ensures forall ks :: OrphanKeywords(ks) in r.warnings <==> ks == OrphanOnes(a, x.draft) != []
    ensures forall n :: Duplicates(n) in r.warnings <==> IsRepeatCount(x.draft, n)
  {
    var errors, block := CheckAll(a, x, c);
    var warnings := CheckWarnings(a, x.draft, c, x.hasVideos);
    r := LintResult(if block then Block else if errors != [] then Revise else Pass, errors, warnings);
  }

  method CheckAll(a: Alphabet, x: Subject, c: LintConfig) returns (errors: seq<LintError>, block: bool)
    ensures forall e :: e in errors <==> IsRaised(a, x, c, e)
    ensures errors == [] <==> Clean(a, x, c)
    ensures block == Excessive(x.draft, c, x.source) && (block ==> errors != [])
  {
    var sizes := CheckSections(a, x, c);
    var content;
    content, block := CheckContent(a, x, c);
    errors := sizes + content;
    ExactJoin(sizes, SizeErrors(), content, ContentErrors(), Raised(a, x, c), AllErrors());
    AllRaised(errors, a, x, c);
  }

  lemma AllRaised(errors: seq<LintError>, a: Alphabet, x: Subject, c: LintConfig)
    requires Exact(errors, Raised(a, x, c), AllErrors())
    ensures forall e :: e in errors <==> IsRaised(a, x, c, e)
  {
  }

  lemma NoSizeErrors(absent: seq<LintError>, sizes: seq<LintError>, d: Draft, c: LintConfig)
    requires forall e :: e in absent <==> e.Missing? && e.section in REQUIRED && IsMissing(d, e.section)
    requires forall e :: e in sizes <==> IsOut(d, c, e) && e.section in HELD
    ensures absent == [] && sizes == [] <==> forall s: Section :: Fits(d, c, s)
  {
    forall s: Section { EverySection(s); }
    if absent == [] && sizes == [] {
      forall s: Section ensures Fits(d, c, s) {
        assert Missing(s) !in absent && TooSmall(s) !in sizes && TooLarge(s) !in sizes;
      }
    }
    if absent != [] { assert absent[0] in absent && !Fits(d, c, absent[0].section); }
    if sizes != [] { assert sizes[0] in sizes && !Fits(d, c, sizes[0].section); }
  }

  /** Every section within its limits, spelled out. */
  lemma FittingMeans(d: Draft, c: LintConfig)
    ensures (forall s: Section :: Fits(d, c, s)) <==>
            && !IsBlank(d.title) && c.titleMin <= |Strip(d.title)| <= c.titleMax
            && !IsBlank(d.intro) && c.introMin <= |Strip(d.intro)| <= c.introMax
            && !IsBlank(d.eventBody) && c.bodyMin <= |Strip(d.eventBody)| <= c.bodyMax
            && !IsBlank(d.summary) && |Strip(d.summary)| <= c.summaryError
            && d.quickFacts != [] && c.factsMin <= |d.quickFacts| <= c.factsMax
            && d.faq != [] && c.faqMin <= |d.faq| <= c.faqMax
            && c.tagMin <= |d.tags| <= c.tagMax
  {
    if forall s: Section :: Fits(d, c, s) {
      assert Fits(d, c, Title) && Fits(d, c, Intro) && Fits(d, c, EventBody) && Fits(d, c, Summary);
      assert Fits(d, c, QuickFacts) && Fits(d, c, Faq) && Fits(d, c, Tags);
    }
  }

  /** A draft without quick facts, FAQ or a summary never passes, whatever the configuration. */
  lemma NeedsStructuralCopy(a: Alphabet, x: Subject, c: LintConfig)
    requires x.draft.quickFacts == [] || x.draft.faq == [] || IsBlank(x.draft.summary)
    ensures !Clean(a, x, c)
  {
    assert !Fits(x.draft, c, QuickFacts) || !Fits(x.draft, c, Faq) || !Fits(x.draft, c, Summary);
  }
}
