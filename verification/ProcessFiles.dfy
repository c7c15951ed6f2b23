/** What a process call leaves in the folder of its job, and the draft it hands back. */
module ProcessFiles {
  import opened Wrappers
  import opened Errors
  import opened JobState
  import opened JobStore
  import opened AuditTrail
  import opened Drafts
  import opened DraftLinter
  import opened GateRegistry
  import opened Pipeline
  import opened ProcessOutcomes

  /** What the media gate finds, when the risk gate lets the job through to it. */
  function MediaSeen(f: Findings): Option<MediaFinding> {
    match f.risk case Ok(RiskFinding(NoRisk, _)) => f.media case _ => None
  }

  /** The gates write a media report and a cover, each when there is one, and nothing else. */
  ghost predicate GateFiles(before: Folder, after: Folder, f: Findings) {
    after.(marker := Absent) == before.(
      marker := Absent,
      media := match MediaSeen(f) case Some(MediaFinding(_, Ok(m))) => Some(m.report) case _ => before.media,
      processedCover := match MediaSeen(f)
                        case Some(MediaFinding(Some(c), _)) => Some(c)
                        case _ => before.processedCover)
  }

  lemma QuietGate(w: Records, id: JobId, gate: Gate, f: Findings, ts: string)
    requires gate != Gate.Media
    ensures GateOn(w, id, gate, f, ts).0.job.files.(marker := Absent) == w.job.files.(marker := Absent)
  {
  }

  lemma MediaGateFiles(w: Records, id: JobId, f: Findings, ts: string)
    requires f.risk.Ok? && f.risk.value.verdict == NoRisk
    ensures GateFiles(w.job.files, GateOn(w, id, Gate.Media, f, ts).0.job.files, f)
  {
  }

  lemma DedupLast(w: Records, id: JobId, f: Findings, ts: string)
    ensures ChainOn(w, id, PARK_GATES, 2, f, ts).0.job.files.(marker := Absent) == w.job.files.(marker := Absent)
  {
    QuietGate(w, id, Gate.Dedup, f, ts);
    ChainNext(w, id, 2, f, ts);
    NoGatesLeft(GateOn(w, id, Gate.Dedup, f, ts).0, id, f, ts);
  }

  lemma MediaOn(w: Records, id: JobId, f: Findings, ts: string)
    requires f.risk.Ok? && f.risk.value.verdict == NoRisk
    ensures GateFiles(w.job.files, ChainOn(w, id, PARK_GATES, 1, f, ts).0.job.files, f)
  {
    MediaGateFiles(w, id, f, ts);
    ChainNext(w, id, 1, f, ts);
    DedupLast(GateOn(w, id, Gate.Media, f, ts).0, id, f, ts);
  }

  lemma GatesLeave(w: Records, id: JobId, f: Findings, ts: string)
    requires Enterable(w.job)
    ensures GateFiles(w.job.files, ChainOn(w, id, PARK_GATES, 0, f, ts).0.job.files, f)
  {
    QuietGate(w, id, Gate.Risk, f, ts);
    RiskFollows(w, id, f, ts);
    ChainNext(w, id, 0, f, ts);
    if f.risk.Ok? && f.risk.value.verdict == NoRisk {
      MediaOn(GateOn(w, id, Gate.Risk, f, ts).0, id, f, ts);
    }
  }

  /** The draft a run makes, when its gates let it come that far. */
  function DraftReached(env: Env, id: JobId, run: Run, source: string): Option<Draft> {
    if GatesCourse(id, run.findings).end.Some? then None
    else match DraftMade(env, source, run) case Ok(d) => Some(d) case Err(_) => None
  }

  lemma FinishLeaves(w: Records, d: Draft, lint: Result<LintOutcome, Error>, ts: string)
    requires Enterable(w.job)
    requires lint.Ok? && lint.value.rest.Some? ==> IsLegal(Processing, lint.value.rest.value.state)
    requires lint.Err? ==> lint.error == InvalidInput
    ensures var (v, r) := FinishOn(w, d, lint, ts);
            && v.job.files.(marker := Absent) == w.job.files.(marker := Absent)
            && (r.Ok? ==> r.value.draft == Some(d)) && (r.Err? ==> r.error == InvalidInput)
  {
  }

  lemma InnerLeaves(w: Records, id: JobId, run: Run, work: Work)
    requires Enterable(w.job) && Proper(work)
    ensures var (v, r) := InnerOn(w, id, run, work);
            var d := if GatesCourse(id, run.findings).end.None? && work.made.Ok? then Some(work.made.value) else None;
            && GateFiles(w.job.files.(draft := if d.Some? then d else w.job.files.draft), v.job.files, run.findings)
            && (r.Ok? ==> r.value.draft == d) && (r.Err? && IsService(r.error) ==> d.None?)
  {
    var (u, q) := ChainOn(w, id, PARK_GATES, 0, run.findings, run.ts);
    GatesLeave(w, id, run.findings, run.ts);
    GatesFollow(w, id, run.findings, run.ts);
    if q == Ok(None) && work.made.Ok? {
      FinishLeaves(u.(job := Saved(u.job, work.made.value)), work.made.value, work.lint, run.ts);
    }
  }

  lemma CaughtLeaves(w: Records, r: Result<ProcessResult, Error>, ts: string, d: Option<Draft>)
    requires r.Ok? ==> r.value.draft == d
    requires r.Err? && IsService(r.error) ==> d.None?
    ensures var (v, s) := CaughtOn(w, r, ts);
            v.job.files.(marker := Absent) == w.job.files.(marker := Absent) && (s.Ok? ==> s.value.draft == d)
  {
  }

  /** After a call on a job it may run on no marker is left, and the crash count only where a retry
      after a crash failed again. */
  lemma CrashTraces(env: Env, w: Records, id: JobId, run: Run)
    requires CanEnter(w.job)
    ensures var (v, r) := ProcessOn(env, w, id, run);
            && v.job.files.marker == Absent
            && v.job.files.counter ==
               if w.job.files.marker.Present? && r.Ok? && r.value.finalState == ProcessFailed
               then Some(if w.job.files.counter.None? then 1 else w.job.files.counter.value + 1) else None
  {
    WorkIsProper(env, id, run, SourceOf(w.job));
    ProcessCleansUp(env, w, id, run);
    OutcomeIsLegal(w, id, run, WorkOf(env, id, run, SourceOf(w.job)));
  }

  /** Besides, the media report and the cover of this run are there where it got to them, and the draft
      of this run where it was made; every other file is as it was. What is handed back is that draft. */
  lemma FilesFollow(env: Env, w: Records, id: JobId, run: Run)
    requires CanEnter(w.job)
    ensures var (v, r) := ProcessOn(env, w, id, run);
            var before, d := w.job.files, DraftReached(env, id, run, SourceOf(w.job));
            && GateFiles(before.(draft := if d.Some? then d else before.draft),
                         v.job.files.(counter := before.counter), run.findings)
            && (r.Ok? ==> r.value.draft == d)
  {
    var source := SourceOf(w.job);
    WorkIsProper(env, id, run, source);
    MadeFollows(env, source, run);
    ScopeLeaves(w, id, run, WorkOf(env, id, run, source));
  }

  lemma ScopeLeaves(w: Records, id: JobId, run: Run, work: Work)
    requires CanEnter(w.job) && Proper(work)
    ensures var (v, r) := ScopeOn(w, id, run, work);
            var d := if GatesCourse(id, run.findings).end.None? && work.made.Ok? then Some(work.made.value) else None;
            && GateFiles(w.job.files.(draft := if d.Some? then d else w.job.files.draft),
                         v.job.files.(counter := w.job.files.counter), run.findings)
            && (r.Ok? ==> r.value.draft == d)
  {
    var e := EnterOn(w, id, run);
    EntryFollows(w, id, run);
    var (v, r) := InnerOn(e, id, run, work);
    InnerLeaves(e, id, run, work);
    CaughtLeaves(v, r, run.ts,
      if GatesCourse(id, run.findings).end.None? && work.made.Ok? then Some(work.made.value) else None);
  }
}
