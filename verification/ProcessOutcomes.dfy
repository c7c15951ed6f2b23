/** What a process call comes to, read off its inputs in one table: where the job rests and why, what
    is raised, and what is logged. No store, no gate and no handler appears in it. */
module ProcessOutcomes {
  import opened Wrappers
  import opened Errors
  import opened Text
  import opened Drafts
  import opened JobState
  import opened JobStore
  import opened AuditTrail
  import opened LintRules
  import opened Grounding
  import opened DraftLinter
  import opened GateRegistry
  import opened Pipeline
  import LlmClient
  import Assembler
  import Copywriter

  /** The job rests, or something failed. */
  datatype End = Rests(state: JobState, reason: Option<ReviewReason>) | Fails(error: Error)

  /** How far something came: through, or to an end; and the events on the way. */
  datatype Course = Course(end: Option<End>, events: seq<Event>)

  // --- the table ---

  function RiskCourse(id: JobId, f: Findings): Course {
    match f.risk
    case Err(e) => Course(Some(Fails(e)), [])
    case Ok(RiskFinding(Redline, codes)) =>
      Course(Some(Rests(Blocked, None)), [GateRun(id, RiskGate, false, None, codes)])
    case Ok(RiskFinding(RiskHold, codes)) =>
      Course(Some(Rests(NeedsHumanReview, Some(ReviewReason.Risk))),
             [GateRun(id, RiskGate, false, Some(ReviewReason.Risk), codes)])
    case Ok(RiskFinding(NoRisk, codes)) => Course(None, [GateRun(id, RiskGate, true, None, codes)])
  }

  function MediaCourse(id: JobId, f: Findings): Course {
    match f.media
    case None => Course(None, [])
    case Some(MediaFinding(_, Err(e))) => Course(Some(Fails(e)), [])
    case Some(MediaFinding(_, Ok(m))) =>
      if m.needsRevision
      then Course(Some(Rests(JobState.NeedsRevision, None)), [GateRun(id, MediaGate, false, None, [])])
      else Course(None, [GateRun(id, MediaGate, true, None, [])])
  }

  function DedupCourse(id: JobId, f: Findings): Course {
    match f.dedup
    case Err(e) => Course(Some(Fails(e)), [])
    case Ok(Repeated) => Course(Some(Rests(Duplicate, None)), [GateRun(id, DedupGate, false, None, [])])
    case Ok(Uncertain) =>
      Course(Some(Rests(NeedsHumanReview, Some(ReviewReason.Dedup))),
             [GateRun(id, DedupGate, false, Some(ReviewReason.Dedup), [])])
    case Ok(Unique) => Course(None, [GateRun(id, DedupGate, true, None, [])])
  }

  /** One after the other, until something ends. */
  function Then(a: Course, b: Course): Course {
    if a.end.Some? then a else Course(b.end, a.events + b.events)
  }

  function GatesCourse(id: JobId, f: Findings): Course {
    Then(RiskCourse(id, f), Then(MediaCourse(id, f), DedupCourse(id, f)))
  }

  /** The draft, or the first of template, rewrite and copy that failed. */
  function DraftMade(env: Env, source: string, run: Run): Result<Draft, Error> {
    if run.templateError.Some? then Err(run.templateError.value)
    else if env.dryRun then
      Ok(Assembler.AssembledFrom(env.lex, source, run.title, run.category,
                                 LlmClient.ChatResult("", None, false, None, false)))
    else if run.chat.Err? then Err(run.chat.error)
    else
      var d := Assembler.AssembledFrom(env.lex, source, run.title, run.category, run.chat.value);
      if !run.aiCopy || d.status != Drafted then Ok(d)
      else if run.copyChat.Err? then Err(run.copyChat.error)
      else if run.copyChat.value.executed && !run.copyChat.value.needsRevision then
        Ok(Copywriter.ApplyCopy(d, Copywriter.CopyOf(env.lex.alphabet, env.hype,
             Copywriter.Tokens(env.lex.alphabet, SplitLines(run.copyChat.value.text))), []))
      else Ok(d)
  }

  /** Is the stripped category one of those configured, if any are? */
  predicate InCategories(d: Draft, categories: seq<string>) {
    categories == [] ||
    (d.category.Some? && !IsBlank(d.category.value) && Strip(d.category.value) in categories)
  }

  function JudgedCourse(env: Env, id: JobId, run: Run, source: string, d: Draft): Course {
    if d.status == DraftStatus.NeedsRevision then Course(Some(Rests(JobState.NeedsRevision, None)), [])
    else match BuildLintConfig(env.content, env.hype, env.categories)
      case Err(e) => Course(Some(Fails(e)), [])
      case Ok(c) =>
        var images := run.findings.media.Some? && run.findings.media.value.outcome.Ok?
                      && run.findings.media.value.outcome.value.report.imageCount > 0;
        if !FullyGrounded(env.lex, d, source) then
          Course(Some(Rests(NeedsHumanReview, Some(ReviewReason.Grounding))),
                 [GateRun(id, GroundingGate, false, Some(ReviewReason.Grounding), [])])
        else if !InCategories(d, env.categories) then
          Course(Some(Rests(NeedsHumanReview, Some(Classification))),
                 [GateRun(id, GroundingGate, true, None, []), GateRun(id, LintGate, false, Some(Classification), [])])
        else if !Clean(env.lex.alphabet, Subject(d, Paragraphs(env.lex.clean(source)), run.hasVideos, images), c) then
          Course(Some(Rests(JobState.NeedsRevision, None)),
                 [GateRun(id, GroundingGate, true, None, []), GateRun(id, LintGate, false, None, [])])
        else
          Course(Some(Rests(Processed, None)),
                 [GateRun(id, GroundingGate, true, None, []), GateRun(id, LintGate, true, None, [])])
  }

  function DraftCourse(env: Env, id: JobId, run: Run, source: string): Course {
    match DraftMade(env, source, run)
    case Err(e) => Course(Some(Fails(e)), [])
    case Ok(d) => JudgedCourse(env, id, run, source, d)
  }

  function Table(env: Env, id: JobId, run: Run, source: string): Course {
    Then(GatesCourse(id, run.findings), DraftCourse(env, id, run, source))
  }

  // --- the gates follow it ---

  /** A step of the call did what its course says. */
  ghost predicate Kept(w: Records, v: Records, r: Result<Option<JobState>, Error>, c: Course, ts: string) {
    && v.events == w.events + c.events
    && match c.end
       case None => r == Ok(None) && v.job.row == w.job.row
       case Some(Fails(e)) => r == Err(e) && v.job.row == w.job.row
       case Some(Rests(s, reason)) =>
         && r == Ok(Some(s)) && w.job.row.Some?
         && v.job.row == Some(w.job.row.value.(state := s, updatedAt := ts, errorCode := None, reviewReason := reason))
  }

  lemma RiskFollows(w: Records, id: JobId, f: Findings, ts: string)
    requires Enterable(w.job)
    ensures var (v, r) := GateOn(w, id, Gate.Risk, f, ts); Kept(w, v, r, RiskCourse(id, f), ts)
  {
  }

  lemma MediaFollows(w: Records, id: JobId, f: Findings, ts: string)
    requires Enterable(w.job)
    ensures var (v, r) := GateOn(w, id, Gate.Media, f, ts); Kept(w, v, r, MediaCourse(id, f), ts)
  {
  }

  lemma DedupFollows(w: Records, id: JobId, f: Findings, ts: string)
    requires Enterable(w.job)
    ensures var (v, r) := GateOn(w, id, Gate.Dedup, f, ts); Kept(w, v, r, DedupCourse(id, f), ts)
  {
  }

  /** The result of a chain, without the name of the gate. */
  function Landing(r: Result<Option<(JobState, Gate)>, Error>): Result<Option<JobState>, Error> {
    match r case Err(e) => Err(e) case Ok(None) => Ok(None) case Ok(Some(x)) => Ok(Some(x.0))
  }

  lemma ThenFollows(w: Records, u: Records, v: Records, q: Result<Option<JobState>, Error>,
                    r: Result<Option<JobState>, Error>, a: Course, b: Course, ts: string)
    requires Kept(w, u, q, a, ts)
    requires q == Ok(None) ==> Kept(u, v, r, b, ts)
    requires q != Ok(None) ==> v == u && r == q
    ensures Kept(w, v, r, Then(a, b), ts)
  {
    if q == Ok(None) {
      assert w.events + a.events + b.events == w.events + (a.events + b.events);
    }
  }

  lemma NoGatesLeft(w: Records, id: JobId, f: Findings, ts: string)
    ensures ChainOn(w, id, PARK_GATES, 3, f, ts) == (w, Ok(None))
  {
  }

  lemma ChainNext(w: Records, id: JobId, i: nat, f: Findings, ts: string)
    requires i < 3
    ensures var (u, q) := GateOn(w, id, PARK_GATES[i], f, ts);
            var (v, r) := ChainOn(w, id, PARK_GATES, i, f, ts);
            if q == Ok(None) then (v, r) == ChainOn(u, id, PARK_GATES, i + 1, f, ts)
            else v == u && Landing(r) == q
  {
  }

  lemma DedupOnwards(w: Records, id: JobId, f: Findings, ts: string)
    requires Enterable(w.job)
    ensures var (v, r) := ChainOn(w, id, PARK_GATES, 2, f, ts); Kept(w, v, Landing(r), DedupCourse(id, f), ts)
  {
    DedupFollows(w, id, f, ts);
    ChainNext(w, id, 2, f, ts);
    NoGatesLeft(GateOn(w, id, Gate.Dedup, f, ts).0, id, f, ts);
  }

  lemma MediaOnwards(w: Records, id: JobId, f: Findings, ts: string)
    requires Enterable(w.job)
    ensures var (v, r) := ChainOn(w, id, PARK_GATES, 1, f, ts);
            Kept(w, v, Landing(r), Then(MediaCourse(id, f), DedupCourse(id, f)), ts)
  {
    MediaFollows(w, id, f, ts);
    ChainNext(w, id, 1, f, ts);
    var (u, q) := GateOn(w, id, Gate.Media, f, ts);
    var (v, r) := ChainOn(w, id, PARK_GATES, 1, f, ts);
    if q == Ok(None) {
      DedupOnwards(u, id, f, ts);
    }
    ThenFollows(w, u, v, q, Landing(r), MediaCourse(id, f), DedupCourse(id, f), ts);
  }

  lemma GatesFollow(w: Records, id: JobId, f: Findings, ts: string)
    requires Enterable(w.job)
    ensures var (v, r) := ChainOn(w, id, PARK_GATES, 0, f, ts); Kept(w, v, Landing(r), GatesCourse(id, f), ts)
  {
    RiskFollows(w, id, f, ts);
    ChainNext(w, id, 0, f, ts);
    var (u, q) := GateOn(w, id, Gate.Risk, f, ts);
    var (v, r) := ChainOn(w, id, PARK_GATES, 0, f, ts);
    if q == Ok(None) {
      MediaOnwards(u, id, f, ts);
    }
    ThenFollows(w, u, v, q, Landing(r), RiskCourse(id, f), Then(MediaCourse(id, f), DedupCourse(id, f)), ts);
  }

  // --- the draft and its verdict follow it ---

  lemma MadeFollows(env: Env, source: string, run: Run)
    ensures MadeDraft(env, source, run) == DraftMade(env, source, run)
  {
    if env.dryRun && run.templateError.None? {
      Assembler.AssembledFacts(env.lex, source, run.title, run.category, LlmClient.DRY_RUN_ANSWER);
    }
  }

  lemma KnownFollows(d: Draft, categories: seq<string>)
    ensures CategoryKnown(d, categories) <==> InCategories(d, categories)
  {
  }

  /** What the stages behind the gates decide, before anything is committed. */
  function Decision(d: Draft, lint: Result<LintOutcome, Error>): Course {
    if d.status.NeedsRevision? then Course(Some(Rests(JobState.NeedsRevision, None)), [])
    else match lint
      case Err(e) => Course(Some(Fails(e)), [])
      case Ok(o) =>
        Course(Some(match o.rest case None => Rests(Processed, None) case Some(x) => Rests(x.state, x.reason)),
          o.events)
  }

  lemma JudgedFollows(env: Env, id: JobId, run: Run, source: string, d: Draft)
    ensures Decision(d, LintStage(env, id, run, d, source)) == JudgedCourse(env, id, run, source, d)
  {
    var config := BuildLintConfig(env.content, env.hype, env.categories);
    if config.Ok? && !d.status.NeedsRevision? { JudgedWith(env, id, run, source, d, config.value); }
  }

  lemma JudgedWith(env: Env, id: JobId, run: Run, source: string, d: Draft, c: LintConfig)
    requires BuildLintConfig(env.content, env.hype, env.categories) == Ok(c) && !d.status.NeedsRevision?
    ensures Decision(d, LintStage(env, id, run, d, source)) == JudgedCourse(env, id, run, source, d)
  {
    EmptyMeansGrounded(env.lex, d, source);
    if FullyGrounded(env.lex, d, source) {
      GroundedJudged(env, id, run, source, d, c);
    } else {
      UngroundedJudged(env, id, run, source, d, c);
    }
  }

  lemma UngroundedJudged(env: Env, id: JobId, run: Run, source: string, d: Draft, c: LintConfig)
    requires BuildLintConfig(env.content, env.hype, env.categories) == Ok(c) && !d.status.NeedsRevision?
    requires AllUngrounded(env.lex, d, source) != [] && !FullyGrounded(env.lex, d, source)
    ensures Decision(d, LintStage(env, id, run, d, source)) == JudgedCourse(env, id, run, source, d)
  {
  }

  lemma GroundedJudged(env: Env, id: JobId, run: Run, source: string, d: Draft, c: LintConfig)
    requires BuildLintConfig(env.content, env.hype, env.categories) == Ok(c) && !d.status.NeedsRevision?
    requires AllUngrounded(env.lex, d, source) == [] && FullyGrounded(env.lex, d, source)
    ensures Decision(d, LintStage(env, id, run, d, source)) == JudgedCourse(env, id, run, source, d)
  {
    KnownFollows(d, env.categories);
    assert c.categories == env.categories;
  }

  /** The result of the inner run, without the draft and the name of the stop. */
  function Final(r: Result<ProcessResult, Error>): Result<Option<JobState>, Error> {
    match r case Err(e) => Err(e) case Ok(x) => Ok(Some(x.finalState))
  }

  lemma FinishFollows(w: Records, d: Draft, lint: Result<LintOutcome, Error>, ts: string)
    requires Enterable(w.job)
    requires lint.Ok? && lint.value.rest.Some? ==> IsLegal(Processing, lint.value.rest.value.state)
    ensures var (v, r) := FinishOn(w, d, lint, ts); Kept(w, v, Final(r), Decision(d, lint), ts)
  {
  }

  lemma InnerFollows(w: Records, id: JobId, run: Run, work: Work, behind: Course)
    requires Enterable(w.job) && Proper(work)
    requires behind == match work.made case Err(e) => Course(Some(Fails(e)), []) case Ok(d) => Decision(d, work.lint)
    ensures var (v, r) := InnerOn(w, id, run, work);
            Kept(w, v, Final(r), Then(GatesCourse(id, run.findings), behind), run.ts)
  {
    GatesFollow(w, id, run.findings, run.ts);
    var (u, q) := ChainOn(w, id, PARK_GATES, 0, run.findings, run.ts);
    var (v, r) := InnerOn(w, id, run, work);
    if q == Ok(None) && work.made.Ok? {
      FinishFollows(u.(job := Saved(u.job, work.made.value)), work.made.value, work.lint, run.ts);
    }
    ThenFollows(w, u, v, Landing(q), Final(r), GatesCourse(id, run.findings), behind, run.ts);
  }

  // --- the whole call follows it ---

  /** What is logged first: a marker found there counts as one interruption. */
  function EntryEvents(j: Job, id: JobId): seq<Event> {
    if j.files.marker.Present? && j.row.Some? then [Interrupted(id, Count(j) + 1, j.row.value.state)] else []
  }

  /** The call ended as its course says, service failures turned into PROCESS_FAILED. */
  ghost predicate Ended(w: Records, v: Records, r: Result<ProcessResult, Error>, end: End, ts: string) {
    && w.job.row.Some?
    && match end
       case Rests(s, reason) =>
         && r.Ok? && r.value.finalState == s
         && v.job.row == Some(w.job.row.value.(state := s, updatedAt := ts, errorCode := None, reviewReason := reason))
       case Fails(InvalidInput) => r == Err(InvalidInput) && v.job.row == w.job.row
       case Fails(Unexpected) => r == Err(Unexpected) && v.job.row == w.job.row
       case Fails(_) =>
         && r.Ok? && r.value.finalState == ProcessFailed
         && v.job.row == Some(w.job.row.value.(state := ProcessFailed, updatedAt := ts,
                                               errorCode := Some("llm_external_error"), reviewReason := None))
  }

  lemma CaughtFollows(w: Records, v: Records, r: Result<ProcessResult, Error>, c: Course, ts: string)
    requires Enterable(w.job) && c.end.Some? && Kept(w, v, Final(r), c, ts)
    ensures var (u, s) := CaughtOn(v, r, ts); Ended(w, u, s, c.end.value, ts) && u.events == v.events
  {
  }

  lemma EntryFollows(w: Records, id: JobId, run: Run)
    requires CanEnter(w.job)
    ensures var e := EnterOn(w, id, run);
            e.events == w.events + EntryEvents(w.job, id) && e.job.row == w.job.row && Enterable(e.job)
  {
  }

  lemma ScopeFollows(w: Records, id: JobId, run: Run, work: Work, behind: Course)
    requires CanEnter(w.job) && Proper(work) && behind.end.Some?
    requires behind == match work.made case Err(e) => Course(Some(Fails(e)), []) case Ok(d) => Decision(d, work.lint)
    ensures var (v, r) := ScopeOn(w, id, run, work);
            var c := Then(GatesCourse(id, run.findings), behind);
            Ended(w, v, r, c.end.value, run.ts) && v.events == w.events + EntryEvents(w.job, id) + c.events
  {
    var e := EnterOn(w, id, run);
    var (v, r) := InnerOn(e, id, run, work);
    EntryFollows(w, id, run);
    InnerFollows(e, id, run, work, behind);
    CaughtFollows(e, v, r, Then(GatesCourse(id, run.findings), behind), run.ts);
  }

  /** Every process call on a job at one of the four states it may start from ends as the table says,
      and logs what the table says; on any other job it is refused. */
  lemma ProcessFollows(env: Env, w: Records, id: JobId, run: Run)
    ensures var (v, r) := ProcessOn(env, w, id, run);
            var c := Table(env, id, run, match w.job.files.source case Some(text) => text case None => "");
            if w.job.row.Some? && w.job.row.value.state in {Crawled, CrawledWarn, ProcessFailed, JobState.NeedsRevision}
            then c.end.Some? && Ended(w, v, r, c.end.value, run.ts)
                 && v.events == w.events + EntryEvents(w.job, id) + c.events
            else v == w && r == Err(InvalidInput)
  {
    var source := SourceOf(w.job);
    WorkIsProper(env, id, run, source);
    MadeFollows(env, source, run);
    if MadeDraft(env, source, run).Ok? {
      JudgedFollows(env, id, run, source, MadeDraft(env, source, run).value);
    }
    if CanEnter(w.job) {
      ScopeFollows(w, id, run, WorkOf(env, id, run, source), DraftCourse(env, id, run, source));
    }
  }

  // --- errors ---

  /** What a call raises is a refused input or an error outside the program's own kinds. */
  lemma EscapingErrors(env: Env, w: Records, id: JobId, run: Run)
    ensures var r := ProcessOn(env, w, id, run).1;
            r.Err? ==> r.error == InvalidInput || r.error == Unexpected
  {
    ProcessFollows(env, w, id, run);
  }

  /** The first of the park gates that does not let the job through raised this. */
  ghost predicate GateRaises(f: Findings, e: Error) {
    || f.risk == Err(e)
    || (f.risk.Ok? && f.risk.value.verdict == NoRisk &&
        (|| (f.media.Some? && f.media.value.outcome == Err(e))
         || ((f.media.None? || (f.media.value.outcome.Ok? && !f.media.value.outcome.value.needsRevision))
             && f.dedup == Err(e))))
  }

  ghost predicate GatesOpen(f: Findings) {
    && f.risk.Ok? && f.risk.value.verdict == NoRisk
    && (f.media.None? || (f.media.value.outcome.Ok? && !f.media.value.outcome.value.needsRevision))
    && f.dedup == Ok(Unique)
  }

  /** Template check, rewrite or copy raised this. */
  ghost predicate DraftRaises(env: Env, source: string, run: Run, e: Error) {
    || run.templateError == Some(e)
    || (run.templateError.None? && !env.dryRun &&
        (|| run.chat == Err(e)
         || (run.chat.Ok? && run.aiCopy && run.copyChat == Err(e)
             && Assembler.AssembledFrom(env.lex, source, run.title, run.category, run.chat.value).status == Drafted)))
  }

  /** A missing dependency or an external service stopped the first gate that did not pass, or else
      the draft. */
  ghost predicate ServiceFailed(env: Env, source: string, run: Run) {
    || CausedBy(env, source, run, ExternalService)
    || CausedBy(env, source, run, MissingDependency)
  }

  ghost predicate CausedBy(env: Env, source: string, run: Run, e: Error) {
    GateRaises(run.findings, e) || (GatesOpen(run.findings) && DraftRaises(env, source, run, e))
  }

  /** A call rests at PROCESS_FAILED exactly when the job may enter and a service failed. */
  lemma FailsExactlyWhen(env: Env, w: Records, id: JobId, run: Run)
    ensures var r := ProcessOn(env, w, id, run).1;
            (r.Ok? && r.value.finalState == ProcessFailed) <==>
            && w.job.row.Some? && w.job.row.value.state in {Crawled, CrawledWarn, ProcessFailed, JobState.NeedsRevision}
            && ServiceFailed(env, SourceOf(w.job), run)
  {
    var source := SourceOf(w.job);
    var (v, r) := ProcessOn(env, w, id, run);
    ProcessFollows(env, w, id, run);
    TableFails(env, id, run, source, ExternalService);
    TableFails(env, id, run, source, MissingDependency);
    TableRests(env, id, run, source);
    var end := Table(env, id, run, source).end.value;
    if CanEnter(w.job) {
      EndedFailed(w, v, r, end, run.ts);
    }
  }

  lemma EndedFailed(w: Records, v: Records, r: Result<ProcessResult, Error>, end: End, ts: string)
    requires Ended(w, v, r, end, ts) && (end.Rests? ==> end.state != ProcessFailed)
    ensures (r.Ok? && r.value.finalState == ProcessFailed) <==>
            end == Fails(ExternalService) || end == Fails(MissingDependency)
  {
  }

  lemma GatesFail(id: JobId, f: Findings, e: Error)
    ensures GatesCourse(id, f).end == Some(Fails(e)) <==> GateRaises(f, e)
    ensures GatesCourse(id, f).end == None <==> GatesOpen(f)
  {
  }

  lemma DraftFails(env: Env, id: JobId, run: Run, source: string, e: Error)
    requires e == ExternalService || e == MissingDependency
    ensures DraftCourse(env, id, run, source).end == Some(Fails(e)) <==> DraftRaises(env, source, run, e)
  {
    MadeFails(env, source, run, e);
    if DraftMade(env, source, run).Ok? {
      JudgedEnds(env, id, run, source, DraftMade(env, source, run).value);
    }
  }

  lemma MadeFails(env: Env, source: string, run: Run, e: Error)
    ensures DraftMade(env, source, run) == Err(e) <==> DraftRaises(env, source, run, e)
  {
  }

  lemma TableFails(env: Env, id: JobId, run: Run, source: string, e: Error)
    requires e == ExternalService || e == MissingDependency
    ensures Table(env, id, run, source).end == Some(Fails(e)) <==> CausedBy(env, source, run, e)
  {
    GatesFail(id, run.findings, e);
    DraftFails(env, id, run, source, e);
  }

  lemma JudgedEnds(env: Env, id: JobId, run: Run, source: string, d: Draft)
    ensures var end := JudgedCourse(env, id, run, source, d).end;
            end.Some? && (if end.value.Fails? then end.value.error == InvalidInput
              else end.value.state != ProcessFailed)
  {
  }

  lemma TableRests(env: Env, id: JobId, run: Run, source: string)
    ensures var end := Table(env, id, run, source).end;
            end.Some? && (end.value.Rests? ==> end.value.state != ProcessFailed)
  {
    if DraftMade(env, source, run).Ok? {
      JudgedEnds(env, id, run, source, DraftMade(env, source, run).value);
    }
  }
}
