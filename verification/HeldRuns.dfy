/** A run that stops at GROUNDING and the re-lint that clears or keeps the hold: the wait between
    them, shown on the dashboard, is within reach from the empty trail on. */
module HeldRuns {
  import opened Wrappers
  import opened Text
  import opened Drafts
  import opened JobState
  import opened JobStore
  import opened AuditTrail
  import opened LintRules
  import opened Grounding
  import opened DraftLinter
  import opened GateRegistry
  import opened Pipeline
  import opened ReviewPacket
  import opened Signoff
  import FreezeRuns
  import opened AuditRuns
  import A = AuditAggregate
  import Assembler
  import LlmClient
  import PublishableRuns

  // --- a dry run is held at grounding ---

  function DryEnv(lex: Lexicon): Env { Env(lex, [], PublishableRuns.CONTENT, [], true) }

  function DryRun(pid: int, ts: string): Run {
    Run(pid, ts, "t", None, false, false, Findings(Ok(RiskFinding(NoRisk, [])), None, Ok(Unique)), None,
        Ok(PublishableRuns.Said("")), Ok(PublishableRuns.Said("")))
  }

  function DryDraft(lex: Lexicon, source: string): Draft {
    Assembler.Stub("t", Assembler.DRY_RUN_INTRO, "", None,
                   Assembler.QuotesOf(lex.clean(source), Assembler.MAX_QUOTES), NotExecuted,
                   Some("not_executed:dry_run"), false)
  }

  /** The mark of a dry run is no claim of the source. */
  ghost predicate Unmarked(lex: Lexicon, source: string) {
    !IsGrounded(lex.alphabet, OVERLAP_THRESHOLD, Assembler.DRY_RUN_INTRO, lex.clean(source))
  }

  /** Of an empty source, for one, wherever a letter is a word character. */
  lemma EmptyIsUnmarked(lex: Lexicon, source: string)
    requires lex.clean(source) == [] && Grounding.Kept(lex.alphabet, lex.alphabet.lower('L'))
    ensures Unmarked(lex, source)
  {
    MarkIsStripped();
    MarkHasLetter(lex.alphabet);
    NothingInEmpty(lex.alphabet, Assembler.DRY_RUN_INTRO);
  }

  lemma MarkHasLetter(a: Alphabet)
    requires Grounding.Kept(a, a.lower('L'))
    ensures Normalize(a, Assembler.DRY_RUN_INTRO) != []
  {
    SomeLetter(a, Assembler.DRY_RUN_INTRO, 1);
  }

  lemma {:induction false} SomeLetter(a: Alphabet, text: string, i: nat)
    requires i < |text| && Grounding.Kept(a, a.lower(text[i]))
    ensures Normalize(a, text) != []
    decreases i
  {
    if i > 0 { SomeLetter(a, text[1..], i - 1); }
  }

  lemma NothingInEmpty(a: Alphabet, claim: string)
    requires Strip(claim) == claim != [] && Normalize(a, claim) != []
    ensures !IsGrounded(a, OVERLAP_THRESHOLD, claim, [])
  {
    SomeGram(a, claim);
    assert CharShingles(a, []) == {};
    NothingShared(CharShingles(a, claim));
  }

  lemma NothingShared(grams: set<string>)
    requires grams != {}
    ensures |grams * {}| as real / |grams| as real == 0.0
  {
    assert grams * {} == {};
  }

  lemma SomeGram(a: Alphabet, text: string)
    requires Normalize(a, text) != []
    ensures CharShingles(a, text) != {}
  {
    var s := Normalize(a, text);
    if |s| < 2 {
      assert s in CharShingles(a, text);
    } else {
      assert Gram(s, 0) in CharShingles(a, text);
    }
  }

  lemma MarkIsStripped()
    ensures Strip(Assembler.DRY_RUN_INTRO) == Assembler.DRY_RUN_INTRO
  {
    PublishableRuns.C.StripWhole(Assembler.DRY_RUN_INTRO);
  }

  lemma {:induction false} OneSentence(text: string, word: string)
    requires forall i :: 0 <= i < |text| ==> !EndsSentence(text[i])
    ensures Pieces(text, word) == NonBlank(word + text)
    decreases |text|
  {
    if text == [] {
      assert word + text == word;
    } else {
      OneSentence(text[1..], word + [text[0]]);
      assert word + [text[0]] + text[1..] == word + text;
    }
  }

  lemma MarkIsClaimed(lex: Lexicon, source: string)
    ensures SplitClaims(DryDraft(lex, source)) == [Assembler.DRY_RUN_INTRO]
  {
    MarkIsStripped();
    MarkIsOne();
    OnlyClaim(DryDraft(lex, source), Assembler.DRY_RUN_INTRO);
  }

  lemma MarkIsOne()
    ensures |Assembler.DRY_RUN_INTRO| >= MIN_CLAIM_CHARS
    ensures forall i :: 0 <= i < |Assembler.DRY_RUN_INTRO| ==> !EndsSentence(Assembler.DRY_RUN_INTRO[i])
  {
  }

  lemma OnlyClaim(d: Draft, claim: string)
    requires d.intro == claim && Strip(claim) == claim && |claim| >= MIN_CLAIM_CHARS
    requires forall i :: 0 <= i < |claim| ==> !EndsSentence(claim[i])
    requires d.eventBody == [] && d.summary == [] && d.faq == [] && d.quickFacts == [] && d.subheads == []
    requires d.imageSections == [] && d.videoSections == []
    ensures SplitClaims(d) == [claim]
  {
    LongSentence(claim);
    NoItems(d);
  }

  lemma LongSentence(claim: string)
    requires Strip(claim) == claim && |claim| >= MIN_CLAIM_CHARS
    requires forall i :: 0 <= i < |claim| ==> !EndsSentence(claim[i])
    ensures LongEnough(Sentences(claim)) == [claim]
  {
    OneSentence(claim, []);
    assert [] + claim == claim;
    LongOne(claim);
  }

  lemma LongOne(claim: string)
    requires |claim| >= MIN_CLAIM_CHARS
    ensures LongEnough([claim]) == [claim]
  {
    assert [claim][1..] == [];
  }

  lemma NoItems(d: Draft)
    requires d.eventBody == [] && d.summary == [] && d.faq == [] && d.quickFacts == [] && d.subheads == []
    requires d.imageSections == [] && d.videoSections == []
    ensures SplitClaims(d) == LongEnough(Sentences(d.intro))
  {
    assert Answers(d.faq) == [] && CaptionTexts(d.imageSections + d.videoSections) == [];
    assert Stripped(d.subheads) == [] && Stripped(d.quickFacts) == [];
    assert Sentences(d.eventBody) == [] && Sentences(d.summary) == [];
  }

  lemma DryIsUngrounded(lex: Lexicon, source: string)
    requires Unmarked(lex, source)
    ensures !FullyGrounded(lex, DryDraft(lex, source), source)
  {
    MarkIsClaimed(lex, source);
    assert SplitClaims(DryDraft(lex, source))[0] == Assembler.DRY_RUN_INTRO;
  }

  const HOLD := Rest(NeedsHumanReview, Some(ReviewReason.Grounding))

  lemma DryWork(lex: Lexicon, id: JobId, source: string, pid: int, ts: string)
    requires Unmarked(lex, source)
    ensures WorkOf(DryEnv(lex), id, DryRun(pid, ts), source) ==
            Work(Ok(DryDraft(lex, source)), Ok(LintOutcome(Some(HOLD), [Verdict(id, GroundingGate, Some(HOLD))])))
  {
    var c := BuildLintConfig(PublishableRuns.CONTENT, [], []).value;
    DryIsUngrounded(lex, source);
    EmptyMeansGrounded(lex, DryDraft(lex, source), source);
    var x := CaseOf(DryRun(pid, ts), DryDraft(lex, source), source, c);
    assert GroundingRest(lex, x) == Some(HOLD);
    assert LintEvents(lex, id, x) == [Verdict(id, GroundingGate, Some(HOLD))];
  }

  /** The events of such a run. */
  function HeldEvents(id: JobId): seq<Event> {
    [GateRun(id, RiskGate, true, None, []), Verdict(id, DedupGate, None), Verdict(id, GroundingGate, Some(HOLD))]
  }

  lemma DryChain(w: Records, id: JobId, f: Findings, ts: string)
    requires f == Findings(Ok(RiskFinding(NoRisk, [])), None, Ok(Unique))
    ensures var (v, r) := ChainOn(w, id, PARK_GATES, 0, f, ts);
            r == Ok(None) && v.job == w.job && v.events == w.events + HeldEvents(id)[..2]
  {
    var g := PARK_GATES;
    assert g[0] == Gate.Risk && g[1] == Gate.Media && g[2] == Gate.Dedup && |g| == 3;
    var u := GateOn(w, id, Gate.Risk, f, ts).0;
    assert ChainOn(w, id, g, 0, f, ts) == ChainOn(u, id, g, 1, f, ts);
    var m := GateOn(u, id, Gate.Media, f, ts).0;
    assert ChainOn(u, id, g, 1, f, ts) == ChainOn(m, id, g, 2, f, ts);
    var v := GateOn(m, id, Gate.Dedup, f, ts).0;
    assert ChainOn(m, id, g, 2, f, ts) == ChainOn(v, id, g, 3, f, ts);
  }

  /** A dry run on a job that may enter rests it for a human, with the draft saved. */
  lemma DryRunIsHeld(lex: Lexicon, w: Records, id: JobId, pid: int, ts: string)
    requires CanEnter(w.job) && !CrashEntry(w.job) && Unmarked(lex, SourceOf(w.job))
    ensures var v := ProcessOn(DryEnv(lex), w, id, DryRun(pid, ts)).0;
            && v.events == w.events + HeldEvents(id)
            && IsAt(v.job, NeedsHumanReview) && v.job.row.value.reviewReason == Some(ReviewReason.Grounding)
            && v.job.files.draft.Some?
  {
    var work := WorkOf(DryEnv(lex), id, DryRun(pid, ts), SourceOf(w.job));
    DryWork(lex, id, SourceOf(w.job), pid, ts);
    HeldScope(w, id, DryRun(pid, ts), work, DryDraft(lex, SourceOf(w.job)));
  }

  lemma HeldScope(w: Records, id: JobId, run: Run, work: Work, d: Draft)
    requires CanEnter(w.job) && !CrashEntry(w.job) && !d.status.NeedsRevision?
    requires run.findings == Findings(Ok(RiskFinding(NoRisk, [])), None, Ok(Unique))
    requires work == Work(Ok(d), Ok(LintOutcome(Some(HOLD), [Verdict(id, GroundingGate, Some(HOLD))])))
    ensures var v := ScopeOn(w, id, run, work).0;
            && v.events == w.events + HeldEvents(id)
            && IsAt(v.job, NeedsHumanReview) && v.job.row.value.reviewReason == Some(ReviewReason.Grounding)
            && v.job.files.draft == Some(d)
  {
    var e := EnterOn(w, id, run);
    DryChain(e, id, run.findings, run.ts);
    assert HeldEvents(id) == HeldEvents(id)[..2] + [Verdict(id, GroundingGate, Some(HOLD))];
  }

  // --- from the empty trail to the wait ---

  lemma OneMore(h: Hasher, states: seq<World>, steps: seq<Step>, step: Step) returns (more: seq<World>, t: World)
    requires IsRun(h, states, steps) && Enabled(h, states[|steps|], step)
    ensures t == Next(h, states[|steps|], step) && more == states + [t]
    ensures IsRun(h, more, steps + [step]) && more[|steps| + 1] == t
  {
    t := Next(h, states[|steps|], step);
    more := states + [t];
    forall i | 0 <= i < |steps + [step]| ensures Follows(h, more, steps + [step], i) {
      OneMoreFollows(h, states, steps, step, t, i);
    }
  }

  lemma OneMoreFollows(h: Hasher, states: seq<World>, steps: seq<Step>, step: Step, t: World, i: nat)
    requires IsRun(h, states, steps) && Enabled(h, states[|steps|], step) && t == Next(h, states[|steps|], step)
    requires i <= |steps|
    ensures Follows(h, states + [t], steps + [step], i)
  {
    if i < |steps| {
      assert Follows(h, states, steps, i);
      assert (states + [t])[i] == states[i] && (states + [t])[i + 1] == states[i + 1];
    }
  }

  /** The trail once a held run has written its three events. */
  lemma HeldTrail(h: Hasher, id: JobId, on: Records, act: FreezeRuns.Act) returns (states: seq<World>, steps: seq<Step>)
    requires FreezeRuns.Effect(h, id, on, act).0.events == on.events + HeldEvents(id)
    ensures IsRun(h, states, steps)
    ensures var s := states[|steps|];
            && |s.trail| == 3 && forall i :: 0 <= i < 3 ==> s.trail[i] == Entry(HeldEvents(id)[i], 0)
  {
    states, steps := [START], [];
    var t;
    var begin := Step.Begin(id, on, act, HeldEvents(id));
    states, t := OneMore(h, states, steps, begin);
    steps := steps + [begin];
    states, steps, t := WriteOne(h, states, steps, id);
    states, steps, t := WriteOne(h, states, steps, id);
    states, steps, t := WriteOne(h, states, steps, id);
  }

  lemma WriteOne(h: Hasher, states: seq<World>, steps: seq<Step>, id: JobId)
      returns (more: seq<World>, next: seq<Step>, t: World)
    requires IsRun(h, states, steps)
    requires var s := states[|steps|]; id in s.open && s.open[id].done < |s.open[id].events|
    ensures IsRun(h, more, next) && t == Written(states[|steps|], id) && more[|next|] == t
  {
    more, t := OneMore(h, states, steps, Write(id));
    next := steps + [Write(id)];
  }

  /** From the empty trail a dry run and a re-lint of its hold bring the wait between them onto the
      dashboard, in full: whatever passed until somebody resolved the hold is in it. */
  lemma RelintWaitIsReachable(h: Hasher, lex: Lexicon, clock: A.Clock, ink: Ink, w: Records, id: JobId, pid: int,
                              ts: string, who: string, config: LintConfig)
      returns (states: seq<World>, steps: seq<Step>)
    requires CanEnter(w.job) && !CrashEntry(w.job) && Unmarked(lex, SourceOf(w.job))
    requires clock(ink.time(2)).Some? && clock(ink.time(3)).Some?
    ensures IsRun(h, states, steps)
    ensures A.Gap(id, "grounding", "lint", A.Wait(clock(ink.time(2)).value, clock(ink.time(3)).value)) in
            A.SummaryOf(clock, A.Hits(Lines(ink, states[|steps|].trail))).gaps
  {
    var run := FreezeRuns.Act.Process(DryEnv(lex), DryRun(pid, ts));
    var held := ProcessOn(DryEnv(lex), w, id, DryRun(pid, ts)).0;
    DryRunIsHeld(lex, w, id, pid, ts);
    states, steps := HeldTrail(h, id, w, run);
    var s := states[|steps|];
    RunKeepsInv(h, states, steps, |steps|);
    var relint := FreezeRuns.Act.Resolve(held.job.row, who, Ask(true, None), lex, Ok(config), ts);
    var begin, t := RelintWaitIsReported(h, s, clock, ink, id, 2, held, relint);
    var u;
    states, u := OneMore(h, states, steps, begin);
    steps := steps + [begin];
    states, u := OneMore(h, states, steps, Write(id));
    steps := steps + [Write(id)];
  }
}
