/** The re-lint of a resolved hold against the run that was held: it judges what that run would have
    judged, and a draft it clears has the sections its media call for. */
module RelintRuns {
  import opened Wrappers
  import opened Errors
  import opened Drafts
  import opened JobState
  import opened JobStore
  import opened AuditTrail
  import opened LintRules
  import opened Grounding
  import opened DraftLinter
  import opened GateRegistry
  import opened Pipeline
  import opened Signoff
  import opened ProcessOutcomes

  // --- what a run leaves for it ---

  lemma OpenGatesLeave(w: Records, id: JobId, f: Findings, ts: string)
    requires GatesOpen(f)
    ensures var (v, r) := ChainOn(w, id, PARK_GATES, 0, f, ts);
            r == Ok(None) && v.job == if f.media.Some? then WithMedia(w.job, f.media.value) else w.job
  {
    var a := GateOn(w, id, Gate.Risk, f, ts).0;
    var b := GateOn(a, id, Gate.Media, f, ts).0;
    var c := GateOn(b, id, Gate.Dedup, f, ts).0;
    ChainNext(w, id, 0, f, ts);
    ChainNext(a, id, 1, f, ts);
    ChainNext(b, id, 2, f, ts);
    NoGatesLeft(c, id, f, ts);
  }

  /** Past the park gates a run leaves its draft, its media report, and the source it found. */
  lemma RunLeaves(w: Records, id: JobId, run: Run, work: Work, d: Draft)
    requires CanEnter(w.job) && Proper(work) && GatesOpen(run.findings) && work.made == Ok(d)
    ensures var j := ScopeOn(w, id, run, work).0.job;
            && j.files.draft == Some(d) && j.files.source == w.job.files.source
            && (run.findings.media.Some? ==> j.files.media == Some(run.findings.media.value.outcome.value.report))
  {
    var e := EnterOn(w, id, run);
    OpenGatesLeave(e, id, run.findings, run.ts);
    var u := ChainOn(e, id, PARK_GATES, 0, run.findings, run.ts).0;
    var saved := u.(job := Saved(u.job, d));
    FinishLeaves(saved, d, work.lint, run.ts);
    InnerCommits(e, id, run, work);
  }

  lemma FinishLeaves(w: Records, d: Draft, lint: Result<LintOutcome, Error>, ts: string)
    ensures FinishOn(w, d, lint, ts).0.job.files.(marker := w.job.files.marker) == w.job.files
  {
  }

  /** A re-lint right after a run that was held judges the draft of that run on the source and with
      the media that run had, where the video hint the run was given agrees with its media report. */
  lemma RelintJudgesTheSame(env: Env, w: Records, id: JobId, run: Run, c: LintConfig)
    requires CanEnter(w.job) && GatesOpen(run.findings) && run.findings.media.Some?
    requires var report := run.findings.media.value.outcome.value.report;
             run.hasVideos == (report.videoCount > 0)
    requires DraftMade(env, SourceOf(w.job), run).Ok?
    ensures var j := ProcessOn(env, w, id, run).0.job;
            var d := DraftMade(env, SourceOf(w.job), run).value;
            && Relinted(env.lex, j, Ok(c)) ==
               Some(Clean(env.lex.alphabet,
                          Subject(d, Paragraphs(env.lex.clean(SourceOf(w.job))), run.hasVideos,
                                  run.findings.media.value.outcome.value.report.imageCount > 0), c))
            && Relinted(env.lex, j, Ok(c)) == Some(LintPasses(env.lex, CaseOf(run, d, SourceOf(w.job), c)))
  {
    var source := SourceOf(w.job);
    MadeFollows(env, source, run);
    WorkIsProper(env, id, run, source);
    RunLeaves(w, id, run, WorkOf(env, id, run, source), DraftMade(env, source, run).value);
  }

  // --- what a cleared draft has ---

  /** Whatever was held: a hold that a re-lint clears has a saved draft with image sections if the
      media report counts images, with video sections if it counts videos, every section within its
      limits, and nothing long copied from the source. */
  lemma ClearedMeans(w: Records, seen: Row, lex: Lexicon, config: Result<LintConfig, Error>, id: JobId, who: string,
                     ask: Ask, ts: string)
    requires Relints(seen, ask)
    requires ResolveSeen(w, Some(seen), Relinted(lex, w.job, config), id, who, ask, ts).1.Ok?
    ensures w.job.files.draft.Some? && config.Ok?
    ensures var d, media := w.job.files.draft.value, w.job.files.media;
            && (media.Some? && media.value.imageCount > 0 ==> d.imageSections != [])
            && (media.Some? && media.value.videoCount > 0 ==> d.videoSections != [])
            && (forall s: Section :: Fits(d, config.value, s))
            && OwnWords(d, config.value, Paragraphs(lex.clean(SourceOf(w.job))))
  {
  }
}
