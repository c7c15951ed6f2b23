/** Stage 2: the marker and crash counter around the gate sequence, the draft, and the single
    commit that ends a run. */
module Pipeline {
  import opened Wrappers
  import opened Errors
  import opened Text
  import opened Drafts
  import opened JobState
  import opened JobStore
  import opened AuditTrail
  import opened LintRules
  import opened Grounding
  import opened DraftLinter
  import opened GateRegistry
  import LlmClient
  import Assembler
  import Copywriter

  type Chat = Result<LlmClient.ChatResult, Error>

  /** What a pipeline is built with. */
  datatype Env = Env(lex: Lexicon, hype: seq<string>, content: ContentConfig, categories: seq<string>, dryRun: bool)

  /** One call of process, with what the gates, the template check and a live endpoint would answer. */
  datatype Run = Run(
    pid: int, ts: string, title: string, category: Option<string>, hasVideos: bool, aiCopy: bool,
    findings: Findings, templateError: Option<Error>, chat: Chat, copyChat: Chat)

  datatype Stop = AtGate(gate: Gate) | AtAssemble | AtLint | AtError

  datatype ProcessResult = ProcessResult(draft: Option<Draft>, finalState: JobState, stoppedAt: Option<Stop>)

  /** Service failures are the ones process turns into PROCESS_FAILED. */
  predicate IsService(e: Error) { e == ExternalService || e == MissingDependency }

  function SourceOf(j: Job): string { if j.files.source.Some? then j.files.source.value else "" }

  // --- the draft ---

  /** A dry-run client answers every chat with the marked stub. */
  function Answer(env: Env, live: Chat): Chat {
    if env.dryRun then Ok(LlmClient.DRY_RUN_ANSWER) else live
  }

  /** Structural copy is used when it was really executed and came back whole. */
  function WithCopy(env: Env, d: Draft, chat: Chat): Result<Draft, Error> {
    match chat
    case Err(e) => Err(e)
    case Ok(c) =>
      if !c.executed || c.needsRevision then Ok(d)
      else Ok(Copywriter.ApplyCopy(d, Copywriter.CopyOf(env.lex.alphabet, env.hype,
                                     Copywriter.Tokens(env.lex.alphabet, SplitLines(c.text))), []))
  }

  function MadeDraft(env: Env, source: string, run: Run): Result<Draft, Error> {
    if run.templateError.Some? then Err(run.templateError.value)
    else match Answer(env, run.chat)
      case Err(e) => Err(e)
      case Ok(c) =>
        var d := Assembler.AssembledFrom(env.lex, source, run.title, run.category, c);
        if run.aiCopy && d.status.Drafted? then WithCopy(env, d, Answer(env, run.copyChat)) else Ok(d)
  }

  method AddCopy(env: Env, d: Draft, chat: Chat) returns (r: Result<Draft, Error>)
    ensures r == WithCopy(env, d, chat)
  {
    if chat.Err? { return Err(chat.error); }
    if !chat.value.executed || chat.value.needsRevision { return Ok(d); }
    var copy := Copywriter.Parse(env.lex.alphabet, env.hype, chat.value.text);
    return Ok(Copywriter.ApplyCopy(d, copy, []));
  }

  method MakeDraft(env: Env, source: string, run: Run) returns (r: Result<Draft, Error>)
    ensures r == MadeDraft(env, source, run)
  {
    if run.templateError.Some? { return Err(run.templateError.value); }
    var d := Assembler.Assemble(env.lex, source, run.title, run.category, Answer(env, run.chat));
    if d.Err? { return d; }
    if run.aiCopy && d.value.status.Drafted? {
      r := AddCopy(env, d.value, Answer(env, run.copyChat));
    } else {
      r := d;
    }
  }

  // --- the gate sequence ---

  function HasImages(f: Findings): bool {
    f.media.Some? && f.media.value.outcome.Ok? && f.media.value.outcome.value.report.imageCount > 0
  }

  /** What the last gate decides about a draft, and the events it logs. */
  datatype LintOutcome = LintOutcome(rest: Option<Rest>, events: seq<Event>)

  /** The work of a run behind the park gates: the draft, and the verdict on it. */
  datatype Work = Work(made: Result<Draft, Error>, lint: Result<LintOutcome, Error>)

  function CaseOf(run: Run, d: Draft, source: string, c: LintConfig): LintCase {
    LintCase(d, source, c, run.hasVideos, HasImages(run.findings))
  }

  function LintStage(env: Env, id: JobId, run: Run, d: Draft, source: string): Result<LintOutcome, Error> {
    match BuildLintConfig(env.content, env.hype, env.categories)
    case Err(e) => Err(e)
    case Ok(c) =>
      var x := CaseOf(run, d, source, c);
      Ok(LintOutcome(LintRest(env.lex, x), LintEvents(env.lex, id, x)))
  }

  function WorkOf(env: Env, id: JobId, run: Run, source: string): Work {
    var made := MadeDraft(env, source, run);
    Work(made, if made.Ok? then LintStage(env, id, run, made.value, source) else Err(made.error))
  }

  /** Commit a resting state and report it. */
  function Settle(w: Records, rest: Rest, d: Option<Draft>, at: Option<Stop>, ts: string)
      : (Records, Result<ProcessResult, Error>)
  {
    match Landed(w.job, rest.state, ts, None, rest.reason)
    case Err(e) => (w, Err(e))
    case Ok(j) => (w.(job := j), Ok(ProcessResult(d, rest.state, at)))
  }

  /** What the run does once the draft is saved. */
  function FinishOn(w: Records, d: Draft, lint: Result<LintOutcome, Error>, ts: string)
      : (Records, Result<ProcessResult, Error>)
  {
    if d.status.NeedsRevision? then Settle(w, Rest(JobState.NeedsRevision, None), Some(d), Some(AtAssemble), ts)
    else match lint
      case Err(e) => (w, Err(e))
      case Ok(o) =>
        var v := w.(events := w.events + o.events);
        match o.rest
        case Some(rest) => Settle(v, rest, Some(d), Some(AtLint), ts)
        case None => Settle(v, Rest(Processed, None), Some(d), None, ts)
  }

  function Saved(j: Job, d: Draft): Job { j.(files := j.files.(draft := Some(d))) }

  function InnerOn(w: Records, id: JobId, run: Run, work: Work): (Records, Result<ProcessResult, Error>) {
    var (v, r) := ChainOn(w, id, PARK_GATES, 0, run.findings, run.ts);
    match r
    case Err(e) => (v, Err(e))
    case Ok(Some((s, g))) => (v, Ok(ProcessResult(None, s, Some(AtGate(g)))))
    case Ok(None) =>
      match work.made
      case Err(e) => (v, Err(e))
      case Ok(d) => FinishOn(v.(job := Saved(v.job, d)), d, work.lint, run.ts)
  }

  // --- the scope around it ---

  predicate CanEnter(j: Job) { j.row.Some? && IsEntry(j.row.value.state) }

  predicate CrashEntry(j: Job) { j.files.marker.Present? }

  /** A marker found at entry counts one crash and is logged once; then the marker is this run's. */
  function EnterOn(w: Records, id: JobId, run: Run): Records
    requires w.job.row.Some?
  {
    var n := Count(w.job) + 1;
    var v := if CrashEntry(w.job)
             then Log(w.(job := Counted(w.job, Some(n))), Interrupted(id, n, w.job.row.value.state))
             else w;
    v.(job := Marked(v.job, Present(Some(run.pid))))
  }

  /** A service failure becomes PROCESS_FAILED; any other outcome stands. */
  function CaughtOn(w: Records, r: Result<ProcessResult, Error>, ts: string): (Records, Result<ProcessResult, Error>) {
    if r.Ok? || !IsService(r.error) then (w, r)
    else match Landed(w.job, ProcessFailed, ts, Some("llm_external_error"), None)
      case Err(e) => (w, Err(e))
      case Ok(j) => (w.(job := j), Ok(ProcessResult(None, ProcessFailed, Some(AtError))))
  }

  /** The marker goes; the counter too, unless a crash retry ended in a service failure. */
  function LeaveOn(j: Job, keepCount: bool): Job {
    var k := Marked(j, Absent);
    if keepCount then k else Counted(k, None)
  }

  /** A whole process call, given the work it would do behind the park gates. */
  function ScopeOn(w: Records, id: JobId, run: Run, work: Work): (Records, Result<ProcessResult, Error>) {
    if !CanEnter(w.job) then (w, Err(InvalidInput))
    else
      var (v, r) := InnerOn(EnterOn(w, id, run), id, run, work);
      var (u, s) := CaughtOn(v, r, run.ts);
      (u.(job := LeaveOn(u.job, CrashEntry(w.job) && r.Err? && IsService(r.error))), s)
  }

  function ProcessOn(env: Env, w: Records, id: JobId, run: Run): (Records, Result<ProcessResult, Error>) {
    ScopeOn(w, id, run, WorkOf(env, id, run, SourceOf(w.job)))
  }

  class Pipeline {
    const env: Env
    const store: JobStore
    const audit: AuditTrail

    constructor (env: Env, store: JobStore, audit: AuditTrail)
      ensures this.env == env && this.store == store && this.audit == audit
    {
      this.env, this.store, this.audit := env, store, audit;
    }

    method Commit(id: JobId, rest: Rest, d: Option<Draft>, at: Option<Stop>, ts: string)
        returns (r: Result<ProcessResult, Error>)
      modifies store
      ensures forall k :: k != id ==> store.At(k) == old(store.At(k))
      ensures (Records(store.At(id), audit.events), r) ==
              Settle(Records(old(store.At(id)), audit.events), rest, d, at, ts)
    {
      var row := store.PersistFromProcessing(id, rest.state, ts, None, rest.reason);
      if row.Err? { return Err(row.error); }
      return Ok(ProcessResult(d, rest.state, at));
    }

    method Lint(id: JobId, run: Run, d: Draft, source: string) returns (r: Result<Option<JobState>, Error>)
      modifies store, audit
      ensures forall k :: k != id ==> store.At(k) == old(store.At(k))
      ensures match LintStage(env, id, run, d, source)
              case Err(e) => r == Err(e) && store.At(id) == old(store.At(id)) && audit.events == old(audit.events)
              case Ok(o) => (store.At(id), r) == Parked(old(store.At(id)), o.rest, run.ts)
                            && audit.events == old(audit.events) + o.events
    {
      var config := BuildLintConfig(env.content, env.hype, env.categories);
      if config.Err? { return Err(config.error); }
      r := RunDraftLintGate(store, audit, env.lex, id, CaseOf(run, d, source, config.value), run.ts);
    }

    /** PROCESSED, unless the last gate parked the job or raised. */
    method Conclude(id: JobId, d: Draft, state: Result<Option<JobState>, Error>, ts: string)
        returns (r: Result<ProcessResult, Error>)
      modifies store
      ensures forall k :: k != id ==> store.At(k) == old(store.At(k))
      ensures state.Err? ==> r == Err(state.error) && store.At(id) == old(store.At(id))
      ensures state.Ok? && state.value.Some? ==>
                r == Ok(ProcessResult(Some(d), state.value.value, Some(AtLint))) && store.At(id) == old(store.At(id))
      ensures state == Ok(None) ==>
                (Records(store.At(id), audit.events), r) ==
                Settle(Records(old(store.At(id)), audit.events), Rest(Processed, None), Some(d), None, ts)
    {
      if state.Err? { return Err(state.error); }
      if state.value.Some? {
        return Ok(ProcessResult(Some(d), state.value.value, Some(AtLint)));
      }
      r := Commit(id, Rest(Processed, None), Some(d), None, ts);
    }

    method Finish(id: JobId, run: Run, d: Draft, source: string) returns (r: Result<ProcessResult, Error>)
      modifies store, audit
      ensures forall k :: k != id ==> store.At(k) == old(store.At(k))
      ensures (Records(store.At(id), audit.events), r) ==
              FinishOn(Records(old(store.At(id)), old(audit.events)), d, LintStage(env, id, run, d, source), run.ts)
    {
      if d.status.NeedsRevision? {
        r := Commit(id, Rest(JobState.NeedsRevision, None), Some(d), Some(AtAssemble), run.ts);
        return;
      }
      var state := Lint(id, run, d, source);
      r := Conclude(id, d, state, run.ts);
    }

    method ProcessInner(id: JobId, run: Run) returns (r: Result<ProcessResult, Error>)
      modifies store, audit
      ensures forall k :: k != id ==> store.At(k) == old(store.At(k))
      ensures (Records(store.At(id), audit.events), r) ==
              InnerOn(Records(old(store.At(id)), old(audit.events)), id, run,
                WorkOf(env, id, run, SourceOf(old(store.At(id)))))
    {
      var source := SourceOf(store.At(id));
      var parked := RunGateChain(store, audit, id, PARK_GATES, run.findings, run.ts);
      if parked.Err? { return Err(parked.error); }
      if parked.value.Some? {
        var (s, g) := parked.value.value;
        return Ok(ProcessResult(None, s, Some(AtGate(g))));
      }
      var made := MakeDraft(env, source, run);
      if made.Err? { return Err(made.error); }
      store.SaveDraft(id, made.value);
      r := Finish(id, run, made.value, source);
    }

    method Enter(id: JobId, run: Run) returns (crashed: bool)
      requires store.At(id).row.Some?
      modifies store, audit
      ensures forall k :: k != id ==> store.At(k) == old(store.At(k))
      ensures crashed == CrashEntry(old(store.At(id)))
      ensures Records(store.At(id), audit.events) == EnterOn(Records(old(store.At(id)), old(audit.events)), id, run)
    {
      crashed := store.At(id).files.marker.Present?;
      if crashed {
        var attempts := store.BumpInterruptCount(id);
        audit.Append(Interrupted(id, attempts, store.At(id).row.value.state));
      }
      store.MarkProcessing(id, run.pid);
    }

    method Catch(id: JobId, inner: Result<ProcessResult, Error>, ts: string) returns (r: Result<ProcessResult, Error>)
      modifies store
      ensures forall k :: k != id ==> store.At(k) == old(store.At(k))
      ensures (Records(store.At(id), audit.events), r) == CaughtOn(Records(old(store.At(id)), audit.events), inner, ts)
    {
      r := inner;
      if inner.Err? && IsService(inner.error) {
        var row := store.PersistFromProcessing(id, ProcessFailed, ts, Some("llm_external_error"), None);
        r := if row.Err? then Err(row.error) else Ok(ProcessResult(None, ProcessFailed, Some(AtError)));
      }
    }

    method Leave(id: JobId, keepCount: bool)
      modifies store
      ensures forall k :: k != id ==> store.At(k) == old(store.At(k))
      ensures store.At(id) == LeaveOn(old(store.At(id)), keepCount)
    {
      store.ClearProcessing(id);
      if !keepCount {
        store.ClearInterruptCount(id);
      }
    }

    method Process(id: JobId, run: Run) returns (r: Result<ProcessResult, Error>)
      modifies store, audit
      ensures forall k :: k != id ==> store.At(k) == old(store.At(k))
      ensures (Records(store.At(id), audit.events), r) ==
              ProcessOn(env, Records(old(store.At(id)), old(audit.events)), id, run)
    {
      var record := store.GetJob(id);
      if record.None? || !IsEntry(record.value.state) { return Err(InvalidInput); }
      var crashed := Enter(id, run);
      var inner := ProcessInner(id, run);
      r := Catch(id, inner, run.ts);
      Leave(id, crashed && inner.Err? && IsService(inner.error));
    }
  }

  // --- one run, one commit ---

  lemma SettleCommits(w: Records, rest: Rest, d: Option<Draft>, at: Option<Stop>, ts: string)
    requires Enterable(w.job) && IsLegal(Processing, rest.state)
    ensures var (v, r) := Settle(w, rest, d, at, ts);
            && r == Ok(ProcessResult(d, rest.state, at)) && v.events == w.events
            && CommittedOnce(w.job, v.job, r.value)
            && v.job.files == w.job.files.(marker := Absent)
  {
  }

  /** The run committed exactly the state it reports. */
  ghost predicate CommittedOnce(before: Job, after: Job, r: ProcessResult) {
    && after.row.Some? && after.row.value.state == r.finalState
    && after.history == before.history + [r.finalState]
  }

  ghost predicate NothingCommitted(before: Job, after: Job) {
    after.row == before.row && after.history == before.history
  }

  /** What is true of the work of every run: the last gate parks for a human or for revision. */
  ghost predicate Proper(work: Work) {
    && (work.lint.Ok? && work.lint.value.rest.Some? ==>
          work.lint.value.rest.value.state in {NeedsHumanReview, JobState.NeedsRevision})
    && (work.made.Ok? && work.lint.Err? ==> work.lint.error == InvalidInput)
  }

  lemma WorkIsProper(env: Env, id: JobId, run: Run, source: string)
    ensures Proper(WorkOf(env, id, run, source))
  {
  }

  lemma FinishCommits(w: Records, d: Draft, work: Work, ts: string)
    requires Enterable(w.job) && Proper(work) && work.made == Ok(d)
    ensures var (v, r) := FinishOn(w, d, work.lint, ts);
            && (r.Ok? ==> CommittedOnce(w.job, v.job, r.value) && r.value.draft == Some(d)
                          && r.value.finalState != ProcessFailed && r.value.stoppedAt != Some(AtError))
            && (r.Err? ==> NothingCommitted(w.job, v.job) && r.error == InvalidInput)
            && v.job.files.(marker := Absent) == w.job.files.(marker := Absent)
            && ((r.Ok? && r.value.finalState == Processed) <==>
                  !d.status.NeedsRevision? && work.lint.Ok? && work.lint.value.rest.None?)
  {
    if d.status.NeedsRevision? {
      SettleCommits(w, Rest(JobState.NeedsRevision, None), Some(d), Some(AtAssemble), ts);
    } else if work.lint.Ok? {
      var v := w.(events := w.events + work.lint.value.events);
      match work.lint.value.rest {
        case Some(rest) => SettleCommits(v, rest, Some(d), Some(AtLint), ts);
        case None => SettleCommits(v, Rest(Processed, None), Some(d), None, ts);
      }
    }
  }

  lemma {:induction false} ChainKeepsFiles(w: Records, id: JobId, gates: seq<Gate>, i: nat, f: Findings, ts: string)
    requires i <= |gates|
    ensures var (v, r) := ChainOn(w, id, gates, i, f, ts);
            && v.job.files.counter == w.job.files.counter && v.job.files.source == w.job.files.source
            && (r.Ok? && r.value.Some? ==>
                  r.value.value.0 in {NeedsHumanReview, Blocked, Duplicate, JobState.NeedsRevision})
    decreases |gates| - i
  {
    if i < |gates| {
      ChainKeepsFiles(GateOn(w, id, gates[i], f, ts).0, id, gates, i + 1, f, ts);
    }
  }

  /** All the park gates passed and the draft was made and let through by the last gate. */
  ghost predicate AllClear(id: JobId, run: Run, work: Work) {
    && (forall k :: 0 <= k < |PARK_GATES| ==> Passes(id, PARK_GATES[k], run.findings))
    && work.made.Ok? && !work.made.value.status.NeedsRevision?
    && work.lint.Ok? && work.lint.value.rest.None?
  }

  lemma InnerCommits(w: Records, id: JobId, run: Run, work: Work)
    requires Enterable(w.job) && Proper(work)
    ensures var (v, r) := InnerOn(w, id, run, work);
            && (r.Ok? ==> CommittedOnce(w.job, v.job, r.value)
                          && r.value.finalState != ProcessFailed && r.value.stoppedAt != Some(AtError))
            && (r.Err? ==> NothingCommitted(w.job, v.job))
            && v.job.files.counter == w.job.files.counter && v.job.files.source == w.job.files.source
            && ((r.Ok? && r.value.finalState == Processed) <==> AllClear(id, run, work))
            && (AllClear(id, run, work) ==> v.job.files.draft == Some(work.made.value) == r.value.draft)
  {
    ChainCommits(w, id, PARK_GATES, 0, run.findings, run.ts);
    ChainKeepsFiles(w, id, PARK_GATES, 0, run.findings, run.ts);
    var (v, r) := ChainOn(w, id, PARK_GATES, 0, run.findings, run.ts);
    if r == Ok(None) && work.made.Ok? {
      FinishCommits(v.(job := Saved(v.job, work.made.value)), work.made.value, work, run.ts);
    }
  }

  /** The counter a finished run leaves behind. */
  function CounterLeft(before: Job, r: Result<ProcessResult, Error>): Option<int> {
    if CrashEntry(before) && r.Ok? && r.value.stoppedAt == Some(AtError) then Some(Count(before) + 1) else None
  }

  lemma ScopeCommits(w: Records, id: JobId, run: Run, work: Work)
    requires Proper(work)
    ensures var (v, r) := ScopeOn(w, id, run, work);
            && (r.Ok? ==> CanEnter(w.job) && CommittedOnce(w.job, v.job, r.value))
            && (r.Err? ==> NothingCommitted(w.job, v.job) && !IsService(r.error))
            && (CanEnter(w.job) ==> v.job.files.marker == Absent)
            && (CanEnter(w.job) ==> v.job.files.counter == CounterLeft(w.job, r))
            && ((r.Ok? && r.value.finalState == Processed) <==> CanEnter(w.job) && AllClear(id, run, work))
            && (CanEnter(w.job) && AllClear(id, run, work) ==>
                  v.job.files.draft == Some(work.made.value) == r.value.draft)
  {
    if CanEnter(w.job) {
      var e := EnterOn(w, id, run);
      var (v, r) := InnerOn(e, id, run, work);
      InnerCommits(e, id, run, work);
      var kept := CrashEntry(w.job) && r.Err? && IsService(r.error);
      CatchCommits(w.job, e.job, v, r, run.ts, kept);
    }
  }

  /** The end of a run: what the inner run left, with service failures caught and the files cleaned. */
  lemma CatchCommits(before: Job, entered: Job, v: Records, r: Result<ProcessResult, Error>, ts: string, kept: bool)
    requires Enterable(before) && entered.row == before.row && entered.history == before.history
    requires entered.files.counter == if CrashEntry(before) then Some(Count(before) + 1) else before.files.counter
    requires v.job.files.counter == entered.files.counter
    requires r.Ok? ==> CommittedOnce(entered, v.job, r.value)
    requires r.Ok? ==> r.value.finalState != ProcessFailed && r.value.stoppedAt != Some(AtError)
    requires r.Err? ==> NothingCommitted(entered, v.job)
    requires kept == (CrashEntry(before) && r.Err? && IsService(r.error))
    ensures var (u, s) := CaughtOn(v, r, ts);
            var j := LeaveOn(u.job, kept);
            && (s.Ok? ==> CommittedOnce(before, j, s.value))
            && (s.Err? ==> NothingCommitted(before, j) && !IsService(s.error))
            && j.files.marker == Absent && j.files.counter == CounterLeft(before, s)
            && j.files.draft == v.job.files.draft
            && (s.Ok? && s.value.finalState == Processed <==> r.Ok? && r.value.finalState == Processed)
            && (r.Ok? ==> s == r)
  {
  }

  /** Every process call that returns committed exactly one transition, to the state it
      reports; a call that raises committed nothing, and what it raises is never a service
      failure: those were caught, and the write to PROCESS_FAILED is always legal. */
  lemma ProcessCommitsOnce(env: Env, w: Records, id: JobId, run: Run)
    ensures var (v, r) := ProcessOn(env, w, id, run);
            && (r.Ok? ==> CanEnter(w.job) && CommittedOnce(w.job, v.job, r.value))
            && (r.Err? ==> NothingCommitted(w.job, v.job) && !IsService(r.error))
            && (!CanEnter(w.job) ==> v == w)
  {
    WorkIsProper(env, id, run, SourceOf(w.job));
    ScopeCommits(w, id, run, WorkOf(env, id, run, SourceOf(w.job)));
  }

  /** A finished run leaves no marker, and no counter either, except that a crash retry ended
      by a service failure keeps the raised count. */
  lemma ProcessCleansUp(env: Env, w: Records, id: JobId, run: Run)
    requires CanEnter(w.job)
    ensures var (v, r) := ProcessOn(env, w, id, run);
            v.job.files.marker == Absent && v.job.files.counter == CounterLeft(w.job, r)
  {
    WorkIsProper(env, id, run, SourceOf(w.job));
    ScopeCommits(w, id, run, WorkOf(env, id, run, SourceOf(w.job)));
  }

  lemma OutcomeIsLegal(w: Records, id: JobId, run: Run, work: Work)
    requires Proper(work) && CanEnter(w.job)
    ensures var r := ScopeOn(w, id, run, work).1;
            && (r.Ok? ==> IsLegal(Processing, r.value.finalState))
            && (r.Ok? ==> (r.value.stoppedAt == Some(AtError) <==> r.value.finalState == ProcessFailed))
  {
    var e := EnterOn(w, id, run);
    var (v, r) := InnerOn(e, id, run, work);
    InnerCommits(e, id, run, work);
    if r.Ok? {
      InnerIsLegal(e, id, run, work);
    }
  }

  lemma InnerIsLegal(w: Records, id: JobId, run: Run, work: Work)
    requires Proper(work)
    ensures var r := InnerOn(w, id, run, work).1;
            r.Ok? ==> IsLegal(Processing, r.value.finalState)
  {
    ChainKeepsFiles(w, id, PARK_GATES, 0, run.findings, run.ts);
  }

  /** Only the outcomes of PROCESSING are ever committed by a run. */
  lemma ProcessOutcomeIsLegal(env: Env, w: Records, id: JobId, run: Run)
    ensures var r := ProcessOn(env, w, id, run).1;
            r.Ok? ==> IsLegal(Processing, r.value.finalState)
  {
    WorkIsProper(env, id, run, SourceOf(w.job));
    if CanEnter(w.job) {
      OutcomeIsLegal(w, id, run, WorkOf(env, id, run, SourceOf(w.job)));
    }
  }

  // --- what the stored row tells ---

  /** The state, reason and error code a run leaves, by where it stopped. */
  ghost predicate Explains(row: Row, at: Option<Stop>) {
    && (at == Some(AtError) ==>
          row.state == ProcessFailed && row.reviewReason == None && row.errorCode == Some("llm_external_error"))
    && (at != Some(AtError) ==> row.errorCode == None)
    && (at == None ==> row.state == Processed && row.reviewReason == None)
    && (at == Some(AtGate(Gate.Risk)) ==>
          (row.state == Blocked && row.reviewReason == None)
            || (row.state == NeedsHumanReview && row.reviewReason == Some(ReviewReason.Risk)))
    && (at == Some(AtGate(Gate.Media)) || at == Some(AtAssemble) ==>
          row.state == JobState.NeedsRevision && row.reviewReason == None)
    && (at == Some(AtGate(Gate.Dedup)) ==>
          (row.state == Duplicate && row.reviewReason == None)
            || (row.state == NeedsHumanReview && row.reviewReason == Some(ReviewReason.Dedup)))
    && (at == Some(AtLint) ==>
          || (row.state == NeedsHumanReview && row.reviewReason in {Some(ReviewReason.Grounding), Some(Classification)})
          || (row.state == JobState.NeedsRevision && row.reviewReason == None))
  }

  /** The row the chain parks at explains the gate that parked it. */
  lemma {:induction false} ChainExplains(w: Records, id: JobId, gates: seq<Gate>, i: nat, f: Findings, ts: string)
    requires i <= |gates|
    ensures var (v, r) := ChainOn(w, id, gates, i, f, ts);
            r.Ok? && r.value.Some? ==> v.job.row.Some? && Explains(v.job.row.value, Some(AtGate(r.value.value.1)))
    decreases |gates| - i
  {
    if i < |gates| {
      ChainExplains(GateOn(w, id, gates[i], f, ts).0, id, gates, i + 1, f, ts);
    }
  }

  /** The rests the last gate can choose. */
  ghost predicate ProperRest(work: Work) {
    work.lint.Ok? && work.lint.value.rest.Some? ==>
      work.lint.value.rest.value in {Rest(NeedsHumanReview, Some(ReviewReason.Grounding)),
                                     Rest(NeedsHumanReview, Some(Classification)), Rest(JobState.NeedsRevision, None)}
  }

  lemma FinishExplains(w: Records, d: Draft, work: Work, ts: string)
    requires ProperRest(work)
    ensures var (v, r) := FinishOn(w, d, work.lint, ts);
            r.Ok? ==> v.job.row.Some? && Explains(v.job.row.value, r.value.stoppedAt)
  {
  }

  lemma InnerExplains(w: Records, id: JobId, run: Run, work: Work)
    requires ProperRest(work)
    ensures var (v, r) := InnerOn(w, id, run, work);
            r.Ok? ==> v.job.row.Some? && Explains(v.job.row.value, r.value.stoppedAt)
  {
    ChainExplains(w, id, PARK_GATES, 0, run.findings, run.ts);
    var (v, r) := ChainOn(w, id, PARK_GATES, 0, run.findings, run.ts);
    if r == Ok(None) && work.made.Ok? {
      FinishExplains(v.(job := Saved(v.job, work.made.value)), work.made.value, work, run.ts);
    }
  }

  lemma ScopeExplains(w: Records, id: JobId, run: Run, work: Work)
    requires ProperRest(work)
    ensures var (v, r) := ScopeOn(w, id, run, work);
            r.Ok? ==> v.job.row.Some? && Explains(v.job.row.value, r.value.stoppedAt)
  {
    if CanEnter(w.job) {
      InnerExplains(EnterOn(w, id, run), id, run, work);
    }
  }

  lemma WorkRests(env: Env, id: JobId, run: Run, source: string)
    ensures ProperRest(WorkOf(env, id, run, source))
  {
  }

  /** The stored row tells where a run stopped: the review reason names the gate that held the
      job, BLOCKED stands for risk, DUPLICATE for dedup, PROCESS_FAILED for a service failure. */
  lemma RowTellsWhereItStopped(env: Env, w: Records, id: JobId, run: Run)
    ensures var (v, r) := ProcessOn(env, w, id, run);
            r.Ok? ==> v.job.row.Some? && Explains(v.job.row.value, r.value.stoppedAt)
  {
    WorkRests(env, id, run, SourceOf(w.job));
    ScopeExplains(w, id, run, WorkOf(env, id, run, SourceOf(w.job)));
  }

  // --- what PROCESSED means ---

  /** Everything a run must bring about to rest at PROCESSED. */
  ghost predicate Publishable(env: Env, source: string, id: JobId, run: Run) {
    && (forall k :: 0 <= k < |PARK_GATES| ==> Passes(id, PARK_GATES[k], run.findings))
    && MadeDraft(env, source, run).Ok? && !MadeDraft(env, source, run).value.status.NeedsRevision?
    && BuildLintConfig(env.content, env.hype, env.categories).Ok?
    && MeetsAll(env, CaseOf(run, MadeDraft(env, source, run).value, source,
                            BuildLintConfig(env.content, env.hype, env.categories).value))
  }

  ghost predicate MeetsAll(env: Env, x: LintCase) {
    && FullyGrounded(env.lex, x.draft, x.source)
    && CategoryKnown(x.draft, x.config.categories)
    && LintPasses(env.lex, x)
  }

  lemma ClearMeansPublishable(env: Env, source: string, id: JobId, run: Run)
    ensures AllClear(id, run, WorkOf(env, id, run, source)) <==> Publishable(env, source, id, run)
  {
    var made, c := MadeDraft(env, source, run), BuildLintConfig(env.content, env.hype, env.categories);
    if made.Ok? && c.Ok? {
      GatePassesExactlyWhen(env.lex, CaseOf(run, made.value, source, c.value));
    }
  }

  /** A run rests at PROCESSED exactly when the job may enter, every park gate passed, the
      draft was made whole, every quote is in the cleaned source, every claim is grounded, the
      category is known and the publishing standard is met; the saved draft is that draft. */
  lemma ProcessedExactlyWhen(env: Env, w: Records, id: JobId, run: Run)
    ensures var (v, r) := ProcessOn(env, w, id, run);
            var source := SourceOf(w.job);
            && ((r.Ok? && r.value.finalState == Processed) <==> CanEnter(w.job) && Publishable(env, source, id, run))
            && (CanEnter(w.job) && Publishable(env, source, id, run) ==>
                  v.job.files.draft == Some(MadeDraft(env, source, run).value) == r.value.draft)
  {
    WorkIsProper(env, id, run, SourceOf(w.job));
    ScopeCommits(w, id, run, WorkOf(env, id, run, SourceOf(w.job)));
    ClearMeansPublishable(env, SourceOf(w.job), id, run);
  }

  /** Was structural copy really added to an assembled draft? */
  predicate CopyUsed(env: Env, run: Run) {
    && run.aiCopy && !env.dryRun
    && run.copyChat.Ok? && run.copyChat.value.executed && !run.copyChat.value.needsRevision
  }

  lemma NoCopyNoFaq(env: Env, source: string, run: Run)
    requires !CopyUsed(env, run) && MadeDraft(env, source, run).Ok?
    ensures MadeDraft(env, source, run).value.faq == []
  {
    var c := Answer(env, run.chat).value;
    Assembler.AssembledKeeps(env.lex, source, run.title, run.category, c);
  }

  lemma NoFaqNotClean(env: Env, x: LintCase)
    requires x.draft.faq == []
    ensures !MeetsAll(env, x)
  {
    NeedsStructuralCopy(env.lex.alphabet, SubjectOf(env.lex, x), x.config);
  }

  lemma NotPublishable(env: Env, source: string, id: JobId, run: Run)
    requires !CopyUsed(env, run)
    ensures !Publishable(env, source, id, run)
  {
    var made, c := MadeDraft(env, source, run), BuildLintConfig(env.content, env.hype, env.categories);
    if made.Ok? && c.Ok? {
      NoCopyNoFaq(env, source, run);
      NoFaqNotClean(env, CaseOf(run, made.value, source, c.value));
    }
  }

  /** A dry run, a run without ai_copy, or one whose copy was not executed or was cut short,
      never rests at PROCESSED, whatever the source and the configuration. */
  lemma NoCopyNeverProcessed(env: Env, w: Records, id: JobId, run: Run)
    requires || !run.aiCopy || env.dryRun || run.copyChat.Err?
             || !run.copyChat.value.executed || run.copyChat.value.needsRevision
    ensures var r := ProcessOn(env, w, id, run).1;
            r.Ok? ==> r.value.finalState != Processed
  {
    ProcessedExactlyWhen(env, w, id, run);
    NotPublishable(env, SourceOf(w.job), id, run);
  }

  // --- the audit events of a run ---

  /** The order in which a run reaches its gates. */
  function Turn(g: GateName): nat {
    match g
    case RiskGate => 0
    case MediaGate => 1
    case DedupGate => 2
    case GroundingGate => 3
    case LintGate => 4
  }

  /** Gate events of one job, each gate at most once, in turn, none before turn lo. */
  ghost predicate InTurn(id: JobId, es: seq<Event>, lo: nat) {
    && (forall i :: 0 <= i < |es| ==> es[i].GateRun? && es[i].job == id && lo <= Turn(es[i].gate))
    && (forall i, j :: 0 <= i < j < |es| ==> Turn(es[i].gate) < Turn(es[j].gate))
  }

  function TurnOf(gate: Gate): nat { match gate case Risk => 0 case Media => 1 case Dedup => 2 }

  lemma JudgeEvents(id: JobId, gate: Gate, f: Findings)
    requires Judge(id, gate, f).Ok?
    ensures var es := Judge(id, gate, f).value.events;
            && |es| <= 1 && (gate == Gate.Risk ==> |es| == 1)
            && forall i :: 0 <= i < |es| ==> es[i].GateRun? && es[i].job == id && Turn(es[i].gate) == TurnOf(gate)
  {
  }

  ghost predicate InOrder(gates: seq<Gate>) {
    forall k :: 0 <= k < |gates| ==> TurnOf(gates[k]) == k
  }

  lemma ChainEvents(w: Records, id: JobId, gates: seq<Gate>, i: nat, f: Findings, ts: string) returns (tail: seq<Event>)
    requires i <= |gates| && InOrder(gates)
    ensures ChainOn(w, id, gates, i, f, ts).0.events == w.events + tail
    ensures InTurn(id, tail, i) && forall k :: 0 <= k < |tail| ==> Turn(tail[k].gate) < |gates|
    ensures i == 0 && tail != [] ==> tail[0].gate == RiskGate
    ensures i == 0 && gates != [] && ChainOn(w, id, gates, i, f, ts).1.Ok? ==> tail != []
    decreases |gates| - i
  {
    tail := [];
    if i < |gates| && Judge(id, gates[i], f).Ok? {
      JudgeEvents(id, gates[i], f);
      var (v, r) := GateOn(w, id, gates[i], f, ts);
      tail := Judge(id, gates[i], f).value.events;
      if r == Ok(None) {
        var more := ChainEvents(v, id, gates, i + 1, f, ts);
        tail := tail + more;
      }
    }
  }

  ghost predicate ProperEvents(id: JobId, work: Work) {
    work.lint.Ok? ==> InTurn(id, work.lint.value.events, 3)
  }

  lemma InnerEvents(w: Records, id: JobId, run: Run, work: Work) returns (tail: seq<Event>)
    requires ProperEvents(id, work)
    ensures InnerOn(w, id, run, work).0.events == w.events + tail
    ensures InTurn(id, tail, 0) && (tail != [] ==> tail[0].gate == RiskGate)
  {
    tail := ChainEvents(w, id, PARK_GATES, 0, run.findings, run.ts);
    var (v, r) := ChainOn(w, id, PARK_GATES, 0, run.findings, run.ts);
    if r == Ok(None) && work.made.Ok? && !work.made.value.status.NeedsRevision? && work.lint.Ok? {
      tail := tail + work.lint.value.events;
    }
  }

  lemma VerdictsInTurn(id: JobId, a: Option<Rest>, b: Option<Rest>)
    ensures InTurn(id, [Verdict(id, GroundingGate, a)] + if a.Some? then [] else [Verdict(id, LintGate, b)], 3)
  {
  }

  lemma WorkEvents(env: Env, id: JobId, run: Run, source: string)
    ensures ProperEvents(id, WorkOf(env, id, run, source))
  {
    var made, c := MadeDraft(env, source, run), BuildLintConfig(env.content, env.hype, env.categories);
    if made.Ok? && c.Ok? {
      var x := CaseOf(run, made.value, source, c.value);
      VerdictsInTurn(id, GroundingRest(env.lex, x), ContentRest(env.lex, x));
    }
  }

  lemma EnterEvents(w: Records, id: JobId, run: Run) returns (entry: seq<Event>)
    requires CanEnter(w.job)
    ensures EnterOn(w, id, run).events == w.events + entry
    ensures entry == [] || (CrashEntry(w.job) && |entry| == 1 && entry[0].Interrupted? && entry[0].job == id)
  {
    entry := if CrashEntry(w.job) then [Interrupted(id, Count(w.job) + 1, w.job.row.value.state)] else [];
  }

  lemma ScopeEvents(w: Records, id: JobId, run: Run, work: Work) returns (entry: seq<Event>, tail: seq<Event>)
    requires ProperEvents(id, work)
    ensures ScopeOn(w, id, run, work).0.events == w.events + entry + tail
    ensures InTurn(id, tail, 0) && (tail != [] ==> tail[0].gate == RiskGate)
    ensures entry == [] || (CrashEntry(w.job) && |entry| == 1 && entry[0].Interrupted? && entry[0].job == id)
  {
    entry, tail := [], [];
    if CanEnter(w.job) {
      entry := EnterEvents(w, id, run);
      tail := InnerEvents(EnterOn(w, id, run), id, run, work);
    }
  }

  /** A run logs at most one interruption and then its gates in turn, risk first: so the gate
      events of every run start at RISK. */
  lemma RunStartsAtRisk(env: Env, w: Records, id: JobId, run: Run) returns (entry: seq<Event>, tail: seq<Event>)
    ensures ProcessOn(env, w, id, run).0.events == w.events + entry + tail
    ensures InTurn(id, tail, 0) && (tail != [] ==> tail[0].gate == RiskGate)
    ensures entry == [] || (CrashEntry(w.job) && |entry| == 1 && entry[0].Interrupted? && entry[0].job == id)
  {
    WorkEvents(env, id, run, SourceOf(w.job));
    entry, tail := ScopeEvents(w, id, run, WorkOf(env, id, run, SourceOf(w.job)));
  }
}
