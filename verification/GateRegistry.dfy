/** The ordered park-or-pass gates of Stage 2. What a gate finds in the text, the media or the
    site index is a parameter: any verdict, or any error raised while judging. */
module GateRegistry {
  import opened Wrappers
  import opened Errors
  import opened JobState
  import opened JobStore
  import opened AuditTrail
  import opened DraftLinter

  datatype RiskVerdict = NoRisk | RiskHold | Redline

  datatype RiskFinding = RiskFinding(verdict: RiskVerdict, codes: seq<string>)

  /** What the media gate does: the cover it wrote, if it came that far, and how it ended; a
      failure behind the cover, in the watermark pass say, leaves the cover in place. */
  datatype MediaFinding = MediaFinding(cover: Option<string>, outcome: Result<MediaVerdict, Error>)

  datatype MediaVerdict = MediaVerdict(report: MediaReport, needsRevision: bool)

  datatype DedupFinding = Unique | Uncertain | Repeated

  /** What each gate would find; media is None when no media configuration is given. */
  datatype Findings = Findings(
    risk: Result<RiskFinding, Error>,
    media: Option<MediaFinding>,
    dedup: Result<DedupFinding, Error>)

  datatype Gate = Risk | Media | Dedup

  const PARK_GATES := [Gate.Risk, Gate.Media, Gate.Dedup]

  function RiskRest(v: RiskVerdict): Option<Rest> {
    match v
    case NoRisk => None
    case RiskHold => Some(Rest(NeedsHumanReview, Some(ReviewReason.Risk)))
    case Redline => Some(Rest(Blocked, None))
  }

  function DedupRest(v: DedupFinding): Option<Rest> {
    match v
    case Unique => None
    case Uncertain => Some(Rest(NeedsHumanReview, Some(ReviewReason.Dedup)))
    case Repeated => Some(Rest(Duplicate, None))
  }

  function MediaRest(m: MediaVerdict): Option<Rest> {
    if m.needsRevision then Some(Rest(JobState.NeedsRevision, None)) else None
  }

  /** The files the media gate leaves behind. */
  function WithMedia(j: Job, m: MediaFinding): Job {
    j.(files := j.files.(media := if m.outcome.Ok? then Some(m.outcome.value.report) else j.files.media,
                         processedCover := if m.cover.Some? then m.cover else j.files.processedCover))
  }

  /** How one gate ends when it does not raise: where it rests the job, and what it logs. */
  datatype Judged = Judged(rest: Option<Rest>, events: seq<Event>)

  function Judge(id: JobId, gate: Gate, f: Findings): Result<Judged, Error> {
    match gate
    case Risk =>
      (match f.risk
       case Err(e) => Err(e)
       case Ok(r) =>
         var rest := RiskRest(r.verdict);
         Ok(Judged(rest, [GateRun(id, RiskGate, rest.None?, if rest.None? then None else rest.value.reason, r.codes)])))
    case Media =>
      (match f.media
       case None => Ok(Judged(None, []))
       case Some(MediaFinding(_, Err(e))) => Err(e)
       case Some(MediaFinding(_, Ok(m))) => Ok(Judged(MediaRest(m), [Verdict(id, MediaGate, MediaRest(m))])))
    case Dedup =>
      (match f.dedup
       case Err(e) => Err(e)
       case Ok(v) => Ok(Judged(DedupRest(v), [Verdict(id, DedupGate, DedupRest(v))])))
  }

  function FilesAfter(j: Job, gate: Gate, f: Findings): Job {
    if gate == Media && f.media.Some? then WithMedia(j, f.media.value) else j
  }

  function GateOn(w: Records, id: JobId, gate: Gate, f: Findings, ts: string)
      : (Records, Result<Option<JobState>, Error>)
  {
    match Judge(id, gate, f)
    case Err(e) => (w.(job := FilesAfter(w.job, gate, f)), Err(e))
    case Ok(v) =>
      var (j, r) := Parked(FilesAfter(w.job, gate, f), v.rest, ts);
      (Records(j, w.events + v.events), r)
  }

  method RunGate(store: JobStore, audit: AuditTrail, id: JobId, gate: Gate, f: Findings, ts: string)
      returns (r: Result<Option<JobState>, Error>)
    modifies store, audit
    ensures forall k :: k != id ==> store.At(k) == old(store.At(k))
    ensures (Records(store.At(id), audit.events), r) ==
            GateOn(Records(old(store.At(id)), old(audit.events)), id, gate, f, ts)
  {
    var judged := Judge(id, gate, f);
    if gate == Media && f.media.Some? {
      store.Put(id, WithMedia(store.At(id), f.media.value));
    }
    if judged.Err? { return Err(judged.error); }
    var v := judged.value;
    if v.events != [] {
      audit.Append(v.events[0]);
    }
    assert audit.events == old(audit.events) + v.events;
    r := Park(store, id, v.rest, ts);
  }

  /** The chain from gate i on: the first gate that parks or raises ends it. */
  function ChainOn(w: Records, id: JobId, gates: seq<Gate>, i: nat, f: Findings, ts: string)
      : (Records, Result<Option<(JobState, Gate)>, Error>)
    requires i <= |gates|
    decreases |gates| - i
  {
    if i == |gates| then (w, Ok(None))
    else
      var (v, r) := GateOn(w, id, gates[i], f, ts);
      match r
      case Err(e) => (v, Err(e))
      case Ok(Some(s)) => (v, Ok(Some((s, gates[i]))))
      case Ok(None) => ChainOn(v, id, gates, i + 1, f, ts)
  }

  method RunGateChain(store: JobStore, audit: AuditTrail, id: JobId, gates: seq<Gate>, f: Findings, ts: string)
      returns (r: Result<Option<(JobState, Gate)>, Error>)
    modifies store, audit
    ensures forall k :: k != id ==> store.At(k) == old(store.At(k))
    ensures (Records(store.At(id), audit.events), r) ==
            ChainOn(Records(old(store.At(id)), old(audit.events)), id, gates, 0, f, ts)
  {
    for i := 0 to |gates|
      invariant forall k :: k != id ==> store.At(k) == old(store.At(k))
      invariant ChainOn(Records(old(store.At(id)), old(audit.events)), id, gates, 0, f, ts) ==
                ChainOn(Records(store.At(id), audit.events), id, gates, i, f, ts)
    {
      var state := RunGate(store, audit, id, gates[i], f, ts);
      if state.Err? { return Err(state.error); }
      if state.value.Some? { return Ok(Some((state.value.value, gates[i]))); }
    }
    return Ok(None);
  }

  // --- what the chain means ---

  predicate Passes(id: JobId, gate: Gate, f: Findings) { Judge(id, gate, f).Ok? && Judge(id, gate, f).value.rest.None? }

  /** The jobs differ at most in what the media gate writes. */
  ghost predicate SameButMedia(j: Job, k: Job) {
    j == k.(files := k.files.(media := j.files.media, processedCover := j.files.processedCover))
  }

  /** The job may enter PROCESSING, so every resting state of a gate can be committed. */
  ghost predicate Enterable(j: Job) { j.row.Some? && IsLegal(j.row.value.state, Processing) }

  lemma RestIsReachable(id: JobId, gate: Gate, f: Findings)
    requires Judge(id, gate, f).Ok? && Judge(id, gate, f).value.rest.Some?
    ensures IsLegal(Processing, Judge(id, gate, f).value.rest.value.state)
    ensures Judge(id, gate, f).value.rest.value.state != Processed
  {
  }

  /** One gate: an error commits and logs nothing (a cover may be left), a pass commits nothing, a
      park commits one state. */
  lemma GateCommits(w: Records, id: JobId, gate: Gate, f: Findings, ts: string)
    requires Enterable(w.job)
    ensures var (v, r) := GateOn(w, id, gate, f, ts);
            && (r.Err? <==> Judge(id, gate, f).Err?)
            && (r == Ok(None) <==> Passes(id, gate, f))
            && (r.Err? ==> SameButMedia(v.job, w.job) && v.job.files.media == w.job.files.media && v.events == w.events)
            && (r == Ok(None) ==> SameButMedia(v.job, w.job))
            && (r.Ok? && r.value.Some? ==>
                  && v.job.row.Some? && v.job.row.value.state == r.value.value != Processed
                  && v.job.history == w.job.history + [r.value.value])
  {
    if Judge(id, gate, f).Ok? && Judge(id, gate, f).value.rest.Some? {
      RestIsReachable(id, gate, f);
    }
  }

  /** The whole chain: all gates passed and nothing was committed, or one gate parked the job
      with one commit and the later gates never ran, or one raised and nothing was committed. */
  lemma {:induction false} ChainCommits(w: Records, id: JobId, gates: seq<Gate>, i: nat, f: Findings, ts: string)
    requires i <= |gates| && Enterable(w.job)
    ensures var (v, r) := ChainOn(w, id, gates, i, f, ts);
            && (r == Ok(None) <==> forall k :: i <= k < |gates| ==> Passes(id, gates[k], f))
            && (r.Err? || r == Ok(None) ==> SameButMedia(v.job, w.job))
            && (r.Ok? && r.value.Some? ==>
                  && v.job.row.Some? && v.job.row.value.state == r.value.value.0 != Processed
                  && v.job.history == w.job.history + [r.value.value.0])
    decreases |gates| - i
  {
    if i < |gates| {
      GateCommits(w, id, gates[i], f, ts);
      var (v, r) := GateOn(w, id, gates[i], f, ts);
      if r == Ok(None) {
        ChainCommits(v, id, gates, i + 1, f, ts);
      }
    }
  }

  /** The gates that ran, in order: exactly those before and up to the first that did not pass.
      The ones behind it leave no trace: everything is as if they were not in the chain. */
  lemma {:induction false} ChainStopsAt(w: Records, id: JobId, gates: seq<Gate>, i: nat, f: Findings, ts: string,
                                        n: nat)
    requires i <= n < |gates| && Enterable(w.job)
    requires forall k :: i <= k < n ==> Passes(id, gates[k], f)
    requires !Passes(id, gates[n], f)
    ensures var (v, r) := ChainOn(w, id, gates, i, f, ts);
            && (Judge(id, gates[n], f).Err? ==> r == Err(Judge(id, gates[n], f).error))
            && (Judge(id, gates[n], f).Ok? ==> r == Ok(Some((Judge(id, gates[n], f).value.rest.value.state, gates[n]))))
    ensures ChainOn(w, id, gates, i, f, ts) == ChainOn(w, id, gates[..n + 1], i, f, ts)
    decreases n - i
  {
    GateCommits(w, id, gates[i], f, ts);
    var (v, r) := GateOn(w, id, gates[i], f, ts);
    assert gates[..n + 1][i] == gates[i];
    if i < n {
      ChainStopsAt(v, id, gates, i + 1, f, ts, n);
    } else if Judge(id, gates[n], f).Ok? {
      RestIsReachable(id, gates[n], f);
    }
  }
}
