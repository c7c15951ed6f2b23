/** The audit events of Stage 2 and of the sign-off, and the trail they are appended to. The
    file behind the trail (bytes, hashes, locking) is the subject of AuditLog. */
module AuditTrail {
  import opened Wrappers
  import opened JobState
  import opened JobStore

  datatype GateName = RiskGate | MediaGate | DedupGate | GroundingGate | LintGate

  datatype ResolveMode = RelintClean | HumanOverride

  datatype Event =
    | GateRun(job: JobId, gate: GateName, clean: bool, reason: Option<ReviewReason>, codes: seq<string>)
    | Interrupted(job: JobId, attempts: int, state: JobState)
    | PacketBuilt(job: JobId, bodySha: string, titleSha: string, coverSha: Option<string>)
    | SignedOff(job: JobId, reviewer: string, bodySha: string, titleSha: string, coverSha: Option<string>)
    | TurnedDown(job: JobId, reviewer: string, rejectNote: string, from: JobState, artifact: Option<string>)
    | Resolved(job: JobId, reviewer: string, hold: Option<ReviewReason>, mode: ResolveMode,
               overrideNote: Option<string>)
    | PublishRecorded(job: JobId, reviewer: string, artifact: Option<string>)
    | SignoffInvalidated(job: JobId, from: JobState)
    | SupersededBy(job: JobId, newJob: Option<JobId>)
    | RedlineOverride(job: JobId, from: JobState, codes: seq<string>, newJob: Option<JobId>)

  class AuditTrail {
    var events: seq<Event>

    constructor ()
      ensures events == []
    {
      events := [];
    }

    method Append(e: Event)
      modifies this
      ensures events == old(events) + [e]
    {
      events := events + [e];
    }
  }

  /** What the disk knows about one job, and the whole audit trail. */
  datatype Records = Records(job: Job, events: seq<Event>)

  function Log(w: Records, e: Event): Records { w.(events := w.events + [e]) }
}
