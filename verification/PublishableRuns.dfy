/** Runs that get through: what the pipeline asks for can be met. For every job that may enter and
    whose source has a line to quote there is a configuration and there are answers of the endpoint
    with which it rests at PROCESSED, and from there it can be signed and published. */
module PublishableRuns {
  import opened Wrappers
  import opened Errors
  import opened Text
  import opened Drafts
  import opened JobState
  import opened JobStore
  import opened AuditTrail
  import opened LintRules
  import opened Grounding
  import opened DraftLinter
  import opened GateRegistry
  import opened Pipeline
  import opened Signoff
  import opened ReviewPacket
  import C = Copywriter
  import LlmClient
  import Assembler
  import Seqs

  const CONTENT := ContentConfig(1, 9, 0, 9, [], 40, 1, 9, 1, 9, 5, 9, 1, 9, 1, 9)

  const ANSWER := "INTRO:i" + "\n" + "EVENT:e"

  const PIECES := [C.Token(C.QuickFact, "f"), C.Token(C.FaqQ, "q"), C.Token(C.Summary, "s")]

  function SmallEnv(lex: Lexicon): Env { Env(lex, [], CONTENT, [], false) }

  function Said(text: string): LlmClient.ChatResult { LlmClient.ChatResult(text, None, false, None, true) }

  function SmallRun(pid: int, ts: string): Run {
    Run(pid, ts, "t", None, false, true, Findings(Ok(RiskFinding(NoRisk, [])), None, Ok(Unique)), None,
        Ok(Said(ANSWER)), Ok(Said(C.Print(PIECES))))
  }

  /** The clean-up leaves plain letters alone, and there is a line to quote, or nothing to read. */
  ghost predicate Quotable(lex: Lexicon, source: string) {
    && C.KeepsKeys(lex.alphabet) && lex.clean("i") == "i" && lex.clean("e") == "e"
    && (IsBlank(lex.clean(source)) || Assembler.QuotesOf(lex.clean(source), Assembler.MAX_QUOTES) != [])
  }

  lemma OneLetter(s: string)
    requires |s| == 1 && !IsSpace(s[0])
    ensures Strip(s) == s && !IsBlank(s)
  {
    C.StripWhole(s);
  }

  // --- the draft ---

  lemma SectionsRead()
    ensures var lines := SplitLines(ANSWER);
            Assembler.FirstValue(lines, "INTRO:") == "i" && Assembler.FirstValue(lines, "EVENT:") == "e"
  {
    LinesRead("INTRO:i", "EVENT:e");
    TwoLinesRead("INTRO:i", "EVENT:e");
  }

  lemma LinesRead(a: string, b: string)
    requires SingleLine(a) && SingleLine(b) && b != []
    ensures SplitLines(a + "\n" + b) == [a] + [b]
  {
    SplitFirst(a, b);
    OneLineRead(b);
  }

  lemma OneLineRead(b: string)
    requires SingleLine(b) && b != []
    ensures SplitLines(b) == [b]
  {
    assert FirstBreak(b) == |b|;
  }

  lemma TwoLinesRead(a: string, b: string)
    requires a == "INTRO:i" && b == "EVENT:e"
    ensures Assembler.FirstValue([a] + [b], "INTRO:") == "i" && Assembler.FirstValue([a] + [b], "EVENT:") == "e"
  {
    C.StripWhole(a);
    C.StripWhole(b);
    OneLetter("i");
    OneLetter("e");
    assert a[|"INTRO:"|..] == "i" && b[|"EVENT:"|..] == "e";
    assert a[0] != "EVENT:"[0];
    var lines := [a] + [b];
    assert lines[0] == a && lines[1..][0] == b;
  }

  function Plainest(quotes: seq<string>): Draft {
    Assembler.Stub("t", "i", "e", None, quotes, Drafted, None, true)
  }

  lemma Assembled(lex: Lexicon, source: string)
    requires Quotable(lex, source)
    ensures Assembler.AssembledFrom(lex, source, "t", None, Said(ANSWER)) ==
            Plainest(Assembler.QuotesOf(lex.clean(source), Assembler.MAX_QUOTES))
  {
    SectionsRead();
  }

  lemma CopyRead(a: Alphabet)
    requires C.KeepsKeys(a)
    ensures C.Tokens(a, SplitLines(C.Print(PIECES))) == PIECES
  {
    OneLetter("f");
    OneLetter("q");
    OneLetter("s");
    C.TokensRoundTrip(a, PIECES);
  }

  lemma CopyHas(a: Alphabet)
    ensures var copy := C.CopyOf(a, [], PIECES);
            && copy.faq == [FaqItem("q", "")] && copy.quickFacts == ["f"] && copy.summary == "s"
            && copy.captions == [] && copy.subheads == [] && copy.tags == []
  {
    var fact, question, summary := PIECES[0], PIECES[1], PIECES[2];
    SelectedOfThree(C.QuickFact, fact, question, summary);
    SelectedOfThree(C.Summary, fact, question, summary);
    SelectedOfThree(C.Caption, fact, question, summary);
    SelectedOfThree(C.Subhead, fact, question, summary);
    SelectedOfThree(C.Tag, fact, question, summary);
    QuestionOfThree(fact, question, summary);
  }

  lemma SelectedOfThree(k: C.Kind, x: C.Token, y: C.Token, z: C.Token)
    ensures C.Select(k, [x, y, z]) == C.Own(k, x) + C.Own(k, y) + C.Own(k, z)
  {
    Three(x, y, z);
    SelectFirst(k, x, [y] + ([z] + []));
    SelectFirst(k, y, [z] + []);
    SelectFirst(k, z, []);
    Seqs.ConcatAssoc(C.Own(k, x), C.Own(k, y), C.Own(k, z));
  }

  lemma Three(x: C.Token, y: C.Token, z: C.Token)
    ensures [x, y, z] == [x] + ([y] + ([z] + []))
  {
  }

  lemma SelectFirst(k: C.Kind, x: C.Token, rest: seq<C.Token>)
    ensures C.Select(k, [x] + rest) == C.Own(k, x) + C.Select(k, rest)
    ensures rest == [] ==> C.Select(k, [x] + rest) == C.Own(k, x)
  {
    assert ([x] + rest)[1..] == rest;
    assert C.Own(k, x) + [] == C.Own(k, x);
  }

  lemma QuestionOfThree(x: C.Token, y: C.Token, z: C.Token)
    requires x.kind == C.QuickFact && y.kind == C.FaqQ && z.kind == C.Summary
    ensures C.FaqOf([x, y, z]) == [FaqItem(y.value, "")]
  {
    Three(x, y, z);
    FaqFirst(x, [y] + ([z] + []));
    FaqFirst(y, [z] + []);
    FaqFirst(z, []);
  }

  lemma FaqFirst(x: C.Token, rest: seq<C.Token>)
    requires x.kind != C.FaqA
    ensures C.FaqOf([x] + rest) ==
            if x.kind == C.FaqQ then [FaqItem(x.value, C.AnswerIn(rest))] + C.FaqOf(rest) else C.FaqOf(rest)
    ensures C.AnswerIn([x] + rest) == if x.kind == C.FaqQ then [] else C.AnswerIn(rest)
  {
    assert ([x] + rest)[1..] == rest;
  }

  /** Everything the gates look at in the finished draft. */
  ghost predicate IsSmall(d: Draft, quotes: seq<string>) {
    && d.title == "t" && d.intro == "i" && d.eventBody == "e" && d.summary == "s" && d.quickFacts == ["f"]
    && d.faq == [FaqItem("q", "")] && d.imageSections == [] && d.videoSections == [] && d.subheads == []
    && d.tags == [] && d.quotes == quotes && d.status == Drafted
  }

  lemma Made(lex: Lexicon, source: string, pid: int, ts: string)
    requires Quotable(lex, source)
    ensures var made := MadeDraft(SmallEnv(lex), source, SmallRun(pid, ts));
            made.Ok? && IsSmall(made.value, Assembler.QuotesOf(lex.clean(source), Assembler.MAX_QUOTES))
  {
    Assembled(lex, source);
    MadeWithCopy(SmallEnv(lex), source, SmallRun(pid, ts), Said(ANSWER),
                 Plainest(Assembler.QuotesOf(lex.clean(source), Assembler.MAX_QUOTES)));
    CopyWorks(SmallEnv(lex), Assembler.QuotesOf(lex.clean(source), Assembler.MAX_QUOTES));
  }

  lemma MadeWithCopy(env: Env, source: string, run: Run, c: LlmClient.ChatResult, d: Draft)
    requires run.templateError.None? && !env.dryRun && run.chat == Ok(c) && run.aiCopy && d.status.Drafted?
    requires Assembler.AssembledFrom(env.lex, source, run.title, run.category, c) == d
    ensures MadeDraft(env, source, run) == WithCopy(env, d, run.copyChat)
  {
  }

  lemma CopyWorks(env: Env, quotes: seq<string>)
    requires C.KeepsKeys(env.lex.alphabet) && env.hype == []
    ensures var r := WithCopy(env, Plainest(quotes), Ok(Said(C.Print(PIECES))));
            r.Ok? && IsSmall(r.value, quotes)
  {
    CopyRead(env.lex.alphabet);
    CopyHas(env.lex.alphabet);
    CopyLands(C.CopyOf(env.lex.alphabet, [], PIECES), quotes);
  }

  lemma CopyLands(copy: C.CopyResult, quotes: seq<string>)
    requires copy.faq == [FaqItem("q", "")] && copy.quickFacts == ["f"] && copy.summary == "s"
    requires copy.captions == [] && copy.subheads == [] && copy.tags == []
    ensures IsSmall(C.ApplyCopy(Plainest(quotes), copy, []), quotes)
  {
  }

  // --- the verdict on it ---

  lemma {:induction false} ShortPieces(text: string, word: string)
    requires |text| + |word| < MIN_CLAIM_CHARS
    ensures LongEnough(Pieces(text, word)) == []
    decreases |text|
  {
    ShortPiece(word);
    if text != [] {
      if EndsSentence(text[0]) {
        ShortPieces(text[1..], []);
        JoinShort(NonBlank(word), Pieces(text[1..], []));
      } else {
        ShortPieces(text[1..], word + [text[0]]);
      }
    }
  }

  lemma ShortPiece(word: string)
    requires |word| < MIN_CLAIM_CHARS
    ensures LongEnough(NonBlank(word)) == [] && |NonBlank(word)| <= 1
  {
    assert |Strip(word)| <= |word|;
  }

  lemma JoinShort(a: seq<string>, b: seq<string>)
    requires |a| <= 1 && LongEnough(a) == [] && LongEnough(b) == []
    ensures LongEnough(a + b) == []
  {
    if a == [] {
      assert a + b == b;
    } else {
      assert (a + b)[1..] == b && a[1..] == [];
    }
  }

  lemma NoClaims(d: Draft, quotes: seq<string>)
    requires IsSmall(d, quotes)
    ensures SplitClaims(d) == []
  {
    ShortPieces("i", []);
    ShortPieces("e", []);
    ShortPieces("s", []);
    ShortList(Answers(d.faq));
    ShortList(Stripped(d.quickFacts));
    assert CaptionTexts(d.imageSections + d.videoSections) == [] && Stripped(d.subheads) == [];
  }

  lemma ShortList(items: seq<string>)
    requires |items| == 1 && |items[0]| < MIN_CLAIM_CHARS
    ensures LongEnough(items) == []
  {
  }

  lemma Grounded(lex: Lexicon, source: string, d: Draft)
    requires IsSmall(d, Assembler.QuotesOf(lex.clean(source), Assembler.MAX_QUOTES))
    ensures FullyGrounded(lex, d, source)
  {
    NoClaims(d, d.quotes);
    Assembler.QuotesPass(lex, source, Assembler.MAX_QUOTES);
  }

  lemma Fitting(d: Draft, c: LintConfig, s: Section)
    requires IsSmall(d, d.quotes) && BuildLintConfig(CONTENT, [], []) == Ok(c)
    ensures Fits(d, c, s)
  {
    OneLetter("t");
    OneLetter("i");
    OneLetter("e");
    OneLetter("s");
  }

  lemma NoParagraph()
    ensures Paragraphs("e") == []
  {
    assert FirstLf("e") == 1;
    assert |Norm("e")| <= 1;
  }

  lemma Passing(lex: Lexicon, x: LintCase)
    requires IsSmall(x.draft, x.draft.quotes) && BuildLintConfig(CONTENT, [], []) == Ok(x.config)
    requires !x.hasVideos && !x.hasImages
    ensures LintPasses(lex, x) && CategoryKnown(x.draft, x.config.categories)
  {
    forall s: Section ensures Fits(x.draft, x.config, s) {
      Fitting(x.draft, x.config, s);
    }
    NoParagraph();
  }

  lemma IsPublishable(lex: Lexicon, source: string, id: JobId, pid: int, ts: string)
    requires Quotable(lex, source)
    ensures Publishable(SmallEnv(lex), source, id, SmallRun(pid, ts))
  {
    var env, run := SmallEnv(lex), SmallRun(pid, ts);
    Made(lex, source, pid, ts);
    var d := MadeDraft(env, source, run).value;
    var c := BuildLintConfig(CONTENT, [], []).value;
    Grounded(lex, source, d);
    Passing(lex, CaseOf(run, d, source, c));
    GatesPass(id, run.findings);
  }

  lemma GatesPass(id: JobId, f: Findings)
    requires f == Findings(Ok(RiskFinding(NoRisk, [])), None, Ok(Unique))
    ensures forall k :: 0 <= k < |PARK_GATES| ==> Passes(id, PARK_GATES[k], f)
  {
    forall g: Gate ensures Passes(id, g, f) {
      match g { case Risk => case Media => case Dedup => }
    }
  }

  // --- what it shows ---

  /** PROCESSED is within reach of every job that may enter. */
  lemma ProcessedIsReachable(lex: Lexicon, w: Records, id: JobId, pid: int, ts: string)
    requires CanEnter(w.job) && Quotable(lex, SourceOf(w.job))
    ensures var (v, r) := ProcessOn(SmallEnv(lex), w, id, SmallRun(pid, ts));
            && r.Ok? && r.value.finalState == Processed && IsAt(v.job, Processed)
            && r.value.draft.Some? && v.job.files.draft == r.value.draft
  {
    IsPublishable(lex, SourceOf(w.job), id, pid, ts);
    ProcessedExactlyWhen(SmallEnv(lex), w, id, SmallRun(pid, ts));
    ProcessCommitsOnce(SmallEnv(lex), w, id, SmallRun(pid, ts));
  }

  /** From there the whole way is open: a packet, the approval of the persisted draft, and the
      record of its publication. */
  lemma PublicationIsReachable(lex: Lexicon, h: Hasher, id: JobId, w: Records, pid: int, ts: string, who: string,
                               url: string)
    requires CanEnter(w.job) && Quotable(lex, SourceOf(w.job)) && !IsBlank(url)
    ensures var v := ProcessOn(SmallEnv(lex), w, id, SmallRun(pid, ts)).0;
            && IsAt(v.job, Processed) && v.job.files.draft.Some?
            && var u := BuildSeen(h, v, v.job.row, id, v.job.files.draft.value, Produced, ts).0;
               && IsAt(u.job, ReviewPending)
               && var a := ApproveOn(h, u, id, who, None, ts).0;
                  && IsAt(a.job, Approved)
                  && IsAt(BackfillSeen(a, a.job.row, id, who, url, true, ts).0.job, PublishedRecorded)
  {
    ProcessedIsReachable(lex, w, id, pid, ts);
    var v := ProcessOn(SmallEnv(lex), w, id, SmallRun(pid, ts)).0;
    Signed(h, id, v, v.job.files.draft.value, ts, who);
    var u := BuildSeen(h, v, v.job.row, id, v.job.files.draft.value, Produced, ts).0;
    Published(ApproveOn(h, u, id, who, None, ts).0, id, who, url, ts);
  }

  lemma Signed(h: Hasher, id: JobId, w: Records, d: Draft, ts: string, who: string)
    requires IsAt(w.job, Processed) && w.job.files.draft == Some(d)
    ensures var u := BuildSeen(h, w, w.job.row, id, d, Produced, ts).0;
            && IsAt(u.job, ReviewPending)
            && var a := ApproveOn(h, u, id, who, None, ts).0;
               IsAt(a.job, Approved) && FreezeRecord(a.job).Some?
  {
  }

  lemma Published(w: Records, id: JobId, who: string, url: string, ts: string)
    requires IsAt(w.job, Approved) && FreezeRecord(w.job).Some? && !IsBlank(url)
    ensures IsAt(BackfillSeen(w, w.job.row, id, who, url, true, ts).0.job, PublishedRecorded)
  {
  }
}
