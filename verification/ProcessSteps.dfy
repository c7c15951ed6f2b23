/** A process call is one uninterrupted run of the crash protocol. */
module ProcessSteps {
  import opened Wrappers
  import opened Errors
  import opened JobState
  import opened JobStore
  import opened AuditTrail
  import opened Pipeline
  import CrashProtocol

  /** The state a call committed, if it returned. */
  function Outcome(r: Result<ProcessResult, Error>): Option<JobState> {
    if r.Ok? then Some(r.value.finalState) else None
  }

  /** A worker that arrives, commits at most one state and leaves, with no death on the way. */
  lemma QuietRun(s: CrashProtocol.Sys, pid: int, to: Option<JobState>)
      returns (steps: seq<CrashProtocol.Step>, t: CrashProtocol.Sys)
    requires CrashProtocol.Enabled(s, CrashProtocol.Spawn(pid)) && (to.Some? ==> IsLegal(Processing, to.value))
    ensures CrashProtocol.Steps(s, steps, t) && t.worker.None? && t.job.row.Some?
    ensures t.job.files.marker == Absent
    ensures t.job.files.counter ==
            if CrashEntry(s.job) && to == Some(ProcessFailed) then Some(Count(s.job) + 1) else None
    ensures t.job.history == s.job.history + (if to.Some? then [to.value] else [])
    ensures t.job.row.value.state == if to.Some? then to.value else s.job.row.value.state
  {
    var before, m := CrashProtocol.Arrives(s, pid);
    steps, t := CrashProtocol.Departs(s, before, m, to);
  }

  lemma ScopeIsAQuietRun(w: Records, id: JobId, run: Run, work: Work, s: CrashProtocol.Sys)
      returns (steps: seq<CrashProtocol.Step>, t: CrashProtocol.Sys)
    requires Proper(work) && CanEnter(w.job) && s.job == w.job && s.worker.None? && run.pid in s.running
    ensures CrashProtocol.Steps(s, steps, t) && t.worker.None? && t.job.row.Some?
    ensures SameRest(t.job, ScopeOn(w, id, run, work).0.job)
  {
    ScopeCommits(w, id, run, work);
    OutcomeIsLegal(w, id, run, work);
    var (v, r) := ScopeOn(w, id, run, work);
    steps, t := QuietRunTo(s, run.pid, w.job, v.job, r);
  }

  lemma QuietRunTo(s: CrashProtocol.Sys, pid: int, before: Job, after: Job, r: Result<ProcessResult, Error>)
      returns (steps: seq<CrashProtocol.Step>, t: CrashProtocol.Sys)
    requires CanEnter(before) && s.job == before && s.worker.None? && pid in s.running
    requires r.Ok? ==> CommittedOnce(before, after, r.value) && IsLegal(Processing, r.value.finalState)
    requires r.Ok? ==> (r.value.stoppedAt == Some(AtError) <==> r.value.finalState == ProcessFailed)
    requires r.Err? ==> NothingCommitted(before, after)
    requires after.files.marker == Absent && after.files.counter == CounterLeft(before, r)
    ensures CrashProtocol.Steps(s, steps, t) && t.worker.None? && t.job.row.Some?
    ensures SameRest(t.job, after)
  {
    steps, t := QuietRun(s, pid, Outcome(r));
    SameRestFrom(before, after, r, t.job);
  }

  lemma SameRestFrom(before: Job, after: Job, r: Result<ProcessResult, Error>, j: Job)
    requires r.Ok? ==> CommittedOnce(before, after, r.value)
    requires r.Ok? ==> (r.value.stoppedAt == Some(AtError) <==> r.value.finalState == ProcessFailed)
    requires r.Err? ==> NothingCommitted(before, after)
    requires before.row.Some? && j.row.Some? && after.files.marker == j.files.marker == Absent
    requires after.files.counter == CounterLeft(before, r)
    requires j.files.counter ==
             if CrashEntry(before) && Outcome(r) == Some(ProcessFailed) then Some(Count(before) + 1) else None
    requires j.history == before.history + (if r.Ok? then [r.value.finalState] else [])
    requires j.row.value.state == if r.Ok? then r.value.finalState else before.row.value.state
    ensures SameRest(j, after)
  {
  }

  /** The jobs rest at the same state, by the same path, with the same marker and counter. */
  ghost predicate SameRest(j: Job, k: Job) {
    && j.history == k.history && j.files.marker == k.files.marker && j.files.counter == k.files.counter
    && j.row.Some? && k.row.Some? && j.row.value.state == k.row.value.state
  }

  /** Whatever process does with a job, the protocol can do without a death. */
  lemma ProcessIsAQuietRun(env: Env, w: Records, id: JobId, run: Run, s: CrashProtocol.Sys)
      returns (steps: seq<CrashProtocol.Step>, t: CrashProtocol.Sys)
    requires CanEnter(w.job) && s.job == w.job && s.worker.None? && run.pid in s.running
    ensures CrashProtocol.Steps(s, steps, t) && t.worker.None? && t.job.row.Some?
    ensures SameRest(t.job, ProcessOn(env, w, id, run).0.job)
  {
    WorkIsProper(env, id, run, SourceOf(w.job));
    steps, t := ScopeIsAQuietRun(w, id, run, WorkOf(env, id, run, SourceOf(w.job)), s);
  }
}
