/** The last Stage-2 gate: grounding, then the category, then lint. */
module DraftLinter {
  import opened Wrappers
  import opened Errors
  import opened Text
  import opened Drafts
  import opened JobState
  import opened JobStore
  import opened AuditTrail
  import opened LintRules
  import opened Grounding

  // --- the configuration ---

  datatype ContentConfig = ContentConfig(
    titleMin: int, titleMax: int, tagMin: int, tagMax: int, hypeWords: seq<string>, minCopyChars: int,
    introMin: int, introMax: int, bodyMin: int, bodyMax: int,
    summaryWarn: int, summaryError: int, faqMin: int, faqMax: int, factsMin: int, factsMax: int)

  const DEFAULT_MIN_COPY_CHARS := 40
  const DEFAULT_BLOCK_COPY_RATIO := 0.5

  /** An operator's value, or the default when it is not positive. */
  function Positive(value: int, default: int): int { if value > 0 then value else default }

  function BuildLintConfig(c: ContentConfig, defaultHype: seq<string>, categories: seq<string>)
      : Result<LintConfig, Error>
  {
    var warn, error := Positive(c.summaryWarn, 100), Positive(c.summaryError, 150);
    if warn >= error then Err(InvalidInput)
    else Ok(LintConfig(
      c.titleMin, c.titleMax, c.tagMin, c.tagMax, categories,
      if c.hypeWords != [] then c.hypeWords else defaultHype,
      Positive(c.minCopyChars, DEFAULT_MIN_COPY_CHARS), DEFAULT_BLOCK_COPY_RATIO,
      Positive(c.introMin, 80), Positive(c.introMax, 120), Positive(c.bodyMin, 100), Positive(c.bodyMax, 200),
      warn, error, Positive(c.faqMin, 3), Positive(c.faqMax, 5), Positive(c.factsMin, 3), Positive(c.factsMax, 7)))
  }

  function SourceParagraphs(lex: Lexicon, source: string): seq<string> { Paragraphs(lex.clean(source)) }

  // --- the gate ---

  /** Where a gate leaves the job. */
  datatype Rest = Rest(state: JobState, reason: Option<ReviewReason>)

  predicate CategoryKnown(d: Draft, categories: seq<string>) {
    var cat := if d.category.Some? then Strip(d.category.value) else "";
    categories == [] || (cat != [] && cat in categories)
  }

  /** The facts the gate judges. */
  datatype LintCase = LintCase(draft: Draft, source: string, config: LintConfig, hasVideos: bool, hasImages: bool)

  function SubjectOf(lex: Lexicon, x: LintCase): Subject {
    Subject(x.draft, SourceParagraphs(lex, x.source), x.hasVideos, x.hasImages)
  }

  /** Does the draft meet the publishing standard? */
  predicate LintPasses(lex: Lexicon, x: LintCase) {
    Clean(lex.alphabet, SubjectOf(lex, x), x.config)
  }

  function GroundingRest(lex: Lexicon, x: LintCase): Option<Rest> {
    if AllUngrounded(lex, x.draft, x.source) != [] then Some(Rest(NeedsHumanReview, Some(Grounding))) else None
  }

  function ContentRest(lex: Lexicon, x: LintCase): Option<Rest> {
    if !CategoryKnown(x.draft, x.config.categories) then Some(Rest(NeedsHumanReview, Some(Classification)))
    else if !LintPasses(lex, x) then Some(Rest(JobState.NeedsRevision, None))
    else None
  }

  /** Grounding has precedence; the rest is judged only on grounded drafts. */
  function LintRest(lex: Lexicon, x: LintCase): Option<Rest> {
    if GroundingRest(lex, x).Some? then GroundingRest(lex, x) else ContentRest(lex, x)
  }

  /** One grounding event, and one lint event unless grounding already stopped the draft. */
  function LintEvents(lex: Lexicon, id: JobId, x: LintCase): seq<Event> {
    [Verdict(id, GroundingGate, GroundingRest(lex, x))]
    + if GroundingRest(lex, x).Some? then [] else [Verdict(id, LintGate, ContentRest(lex, x))]
  }

  /** Rest the job, as if from PROCESSING, when a gate parked it. */
  function Parked(j: Job, rest: Option<Rest>, ts: string): (Job, Result<Option<JobState>, Error>) {
    match rest
    case None => (j, Ok(None))
    case Some(p) =>
      match Landed(j, p.state, ts, None, p.reason)
      case Err(e) => (j, Err(e))
      case Ok(k) => (k, Ok(Some(p.state)))
  }

  method Park(store: JobStore, id: JobId, rest: Option<Rest>, ts: string) returns (r: Result<Option<JobState>, Error>)
    modifies store
    ensures forall k :: k != id ==> store.At(k) == old(store.At(k))
    ensures (store.At(id), r) == Parked(old(store.At(id)), rest, ts)
  {
    if rest.None? { return Ok(None); }
    var row := store.PersistFromProcessing(id, rest.value.state, ts, None, rest.value.reason);
    if row.Err? { return Err(row.error); }
    return Ok(Some(rest.value.state));
  }

  method RunLint(lex: Lexicon, x: LintCase) returns (passed: bool)
    ensures passed == LintPasses(lex, x)
  {
    var lint := LintDraft(lex.alphabet, SubjectOf(lex, x), x.config);
    passed := lint.status == Pass;
  }

  /** The event of a gate that gave this verdict. */
  function Verdict(id: JobId, gate: GateName, rest: Option<Rest>): Event {
    GateRun(id, gate, rest.None?, if rest.None? then None else rest.value.reason, [])
  }

  method JudgeGrounding(audit: AuditTrail, lex: Lexicon, id: JobId, x: LintCase) returns (rest: Option<Rest>)
    modifies audit
    ensures rest == GroundingRest(lex, x) && audit.events == old(audit.events) + [Verdict(id, GroundingGate, rest)]
  {
    var ungrounded := VerifyGrounding(lex, x.draft, x.source);
    rest := if ungrounded != [] then Some(Rest(NeedsHumanReview, Some(Grounding))) else None;
    audit.Append(Verdict(id, GroundingGate, rest));
  }

  method JudgeContent(audit: AuditTrail, lex: Lexicon, id: JobId, x: LintCase) returns (rest: Option<Rest>)
    modifies audit
    ensures rest == ContentRest(lex, x) && audit.events == old(audit.events) + [Verdict(id, LintGate, rest)]
  {
    if !CategoryKnown(x.draft, x.config.categories) {
      rest := Some(Rest(NeedsHumanReview, Some(Classification)));
      audit.Append(Verdict(id, LintGate, rest));
      return;
    }
    var passed := RunLint(lex, x);
    rest := if passed then None else Some(Rest(JobState.NeedsRevision, None));
    audit.Append(Verdict(id, LintGate, rest));
  }

  method JudgeDraft(audit: AuditTrail, lex: Lexicon, id: JobId, x: LintCase) returns (rest: Option<Rest>)
    modifies audit
    ensures rest == LintRest(lex, x) && audit.events == old(audit.events) + LintEvents(lex, id, x)
  {
    rest := JudgeGrounding(audit, lex, id, x);
    if rest.None? {
      rest := JudgeContent(audit, lex, id, x);
    }
  }

  method RunDraftLintGate(store: JobStore, audit: AuditTrail, lex: Lexicon, id: JobId, x: LintCase, ts: string)
      returns (r: Result<Option<JobState>, Error>)
    modifies store, audit
    ensures forall k :: k != id ==> store.At(k) == old(store.At(k))
    ensures audit.events == old(audit.events) + LintEvents(lex, id, x)
    ensures (store.At(id), r) == Parked(old(store.At(id)), LintRest(lex, x), ts)
  {
    var rest := JudgeDraft(audit, lex, id, x);
    r := Park(store, id, rest, ts);
  }

  /** Lint run again once a human has cleared a grounding hold: grounding is not re-judged,
      nothing is committed, one event is written. */
  method RelintClearsHold(audit: AuditTrail, lex: Lexicon, id: JobId, x: LintCase) returns (clears: bool)
    modifies audit
    ensures clears == LintPasses(lex, x)
    ensures audit.events == old(audit.events) + [GateRun(id, LintGate, clears, None, [])]
  {
    clears := RunLint(lex, x);
    audit.Append(GateRun(id, LintGate, clears, None, []));
  }

  /** The gate lets a draft through exactly when every quote is in the cleaned source, every
      claim is grounded, the category is a configured one and the publishing standard is met. */
  lemma GatePassesExactlyWhen(lex: Lexicon, x: LintCase)
    ensures LintRest(lex, x).None? <==>
            && FullyGrounded(lex, x.draft, x.source)
            && CategoryKnown(x.draft, x.config.categories)
            && LintPasses(lex, x)
  {
    EmptyMeansGrounded(lex, x.draft, x.source);
  }

  /** A configuration is refused exactly when the warning zone of the summary is empty; otherwise the
      operator's limits stand, where a fallback exists only if they are positive. */
  lemma ConfigIsSound(c: ContentConfig, hype: seq<string>, categories: seq<string>)
    ensures var r := BuildLintConfig(c, hype, categories);
            && (r.Err? ==> r.error == InvalidInput)
            && (r.Err? <==> (if c.summaryWarn > 0 then c.summaryWarn else 100)
                            >= (if c.summaryError > 0 then c.summaryError else 150))
            && (r.Ok? ==>
                  && r.value.titleMin == c.titleMin && r.value.titleMax == c.titleMax
                  && r.value.tagMin == c.tagMin && r.value.tagMax == c.tagMax
                  && r.value.categories == categories
                  && r.value.hypeWords == (if c.hypeWords == [] then hype else c.hypeWords)
                  && r.value.minCopyChars == (if c.minCopyChars > 0 then c.minCopyChars else 40)
                  && r.value.blockCopyRatio == 0.5
                  && r.value.introMin == (if c.introMin > 0 then c.introMin else 80)
                  && r.value.introMax == (if c.introMax > 0 then c.introMax else 120)
                  && r.value.bodyMin == (if c.bodyMin > 0 then c.bodyMin else 100)
                  && r.value.bodyMax == (if c.bodyMax > 0 then c.bodyMax else 200)
                  && r.value.summaryWarn == (if c.summaryWarn > 0 then c.summaryWarn else 100)
                  && r.value.summaryError == (if c.summaryError > 0 then c.summaryError else 150)
                  && r.value.faqMin == (if c.faqMin > 0 then c.faqMin else 3)
                  && r.value.faqMax == (if c.faqMax > 0 then c.faqMax else 5)
                  && r.value.factsMin == (if c.factsMin > 0 then c.factsMin else 3)
                  && r.value.factsMax == (if c.factsMax > 0 then c.factsMax else 7)
                  && 0 < r.value.summaryWarn < r.value.summaryError)
  {
  }
}
