/** The human side: building (and freezing) the review packet, signing off, resolving a hold,
    recording a publication, superseding. Each operation first reads the job and acts on what
    it read; the store validates the transition against the current state. */
module Signoff {
  import opened Wrappers
  import opened Errors
  import opened Text
  import opened Drafts
  import opened JobState
  import opened JobStore
  import opened AuditTrail
  import opened DraftLinter
  import opened Grounding
  import opened ReviewPacket
  import opened LintRules

  type Outcome = Result<JobState, Error>

  /** The current state reached through the store, or its refusal. */
  function MoveTo(w: Records, to: JobState, ts: string, events: seq<Event>): (Records, Outcome) {
    match StateSet(w.job, to, ts, None, None)
    case Err(e) => (w, Err(e))
    case Ok(j) => (Records(j, w.events + events), Ok(to))
  }

  // --- the review packet ---

  /** The cover handed to the packet: the one Stage 2 produced, or a path with or without a file. */
  datatype CoverChoice = Produced | Given(file: Option<string>)

  function CoverFile(j: Job, c: CoverChoice): Option<string> {
    match c case Produced => j.files.processedCover case Given(f) => f
  }

  function CoverSha(h: Hasher, cover: Option<string>): Option<string> {
    match cover case None => None case Some(x) => Some(h.file(x))
  }

  function FreezeOf(h: Hasher, d: Draft, cover: Option<string>): Freeze {
    Freeze(Some(BodySha(h, d)), Some(TitleSha(h, d)), CoverSha(h, cover))
  }

  /** The packet files: the cover copied when there is one, and the freeze record. */
  function Packed(h: Hasher, j: Job, d: Draft, cover: Option<string>, ts: string): Job {
    j.(files := j.files.(reviewCover := if cover.Some? then cover else j.files.reviewCover,
                         manifest := Some(Manifest(ts, Some(FreezeOf(h, d, cover))))))
  }

  function BuildSeen(h: Hasher, w: Records, seen: Option<Row>, id: JobId, d: Draft, c: CoverChoice, ts: string)
      : (Records, Outcome)
  {
    if seen.None? || seen.value.state != Processed then (w, Err(InvalidInput))
    else
      var cover := CoverFile(w.job, c);
      MoveTo(w.(job := Packed(h, w.job, d, cover, ts)), ReviewPending, ts,
             [PacketBuilt(id, BodySha(h, d), TitleSha(h, d), CoverSha(h, cover))])
  }

  function BuildOn(h: Hasher, w: Records, id: JobId, d: Draft, c: CoverChoice, ts: string): (Records, Outcome) {
    BuildSeen(h, w, w.job.row, id, d, c, ts)
  }

  // --- approve ---

  function FreezeRecord(j: Job): Option<Freeze> {
    if j.files.manifest.Some? then j.files.manifest.value.freeze else None
  }

  /** Do the draft and the review cover still hash to what the freeze bound? */
  predicate StillBound(h: Hasher, f: Freeze, d: Draft, reviewCover: Option<string>) {
    && f.bodySha == Some(BodySha(h, d)) && f.titleSha == Some(TitleSha(h, d))
    && (f.coverSha.Some? ==> f.coverSha == CoverSha(h, reviewCover))
  }

  /** The draft the approval checks: the one passed, or the persisted one. */
  function CheckedDraft(j: Job, passed: Option<Draft>): Option<Draft> {
    if passed.Some? then passed else j.files.draft
  }

  function ApproveOn(h: Hasher, w: Records, id: JobId, reviewer: string, passed: Option<Draft>, ts: string)
      : (Records, Outcome)
  {
    var f, d := FreezeRecord(w.job), CheckedDraft(w.job, passed);
    if f.None? || f.value.bodySha.None? || f.value.titleSha.None? || d.None? then (w, Err(InvalidInput))
    else if !StillBound(h, f.value, d.value, w.job.files.reviewCover) then (w, Err(InvalidInput))
    else MoveTo(w, Approved, ts,
                [SignedOff(id, reviewer, f.value.bodySha.value, f.value.titleSha.value, f.value.coverSha)])
  }

  // --- reject, resolve, backfill ---

  function RejectSeen(w: Records, seen: Option<Row>, id: JobId, reviewer: string, note: string, ts: string)
      : (Records, Outcome)
  {
    if seen.None? then (w, Err(InvalidInput))
    else
      var f := FreezeRecord(w.job);
      if seen.value.state != NeedsHumanReview && f.None? then (w, Err(InvalidInput))
      else
        var artifact := if seen.value.state == NeedsHumanReview then None else f.value.bodySha;
        MoveTo(w, Rejected, ts, [TurnedDown(id, reviewer, note, seen.value.state, artifact)])
  }

  /** The draft as the re-lint judges it, with the media the first lint would have seen. */
  function RelintCase(j: Job, d: Draft, c: LintConfig): LintCase {
    var m := j.files.media;
    LintCase(d, if j.files.source.Some? then j.files.source.value else "", c,
             m.Some? && m.value.videoCount > 0, m.Some? && m.value.imageCount > 0)
  }

  /** What a resolve asks for: lint to be run again, and the operator's reason. */
  datatype Ask = Ask(relint: bool, reason: Option<string>)

  predicate HasReason(ask: Ask) { ask.reason.Some? && !IsBlank(ask.reason.value) }

  predicate Relints(seen: Row, ask: Ask) { ask.relint && seen.reviewReason == Some(Grounding) }

  /** The verdict of the re-lint, where one is asked for and a draft is there to judge. */
  function Relinted(lex: Lexicon, j: Job, config: Result<LintConfig, Error>): Option<bool> {
    if j.files.draft.None? || config.Err? then None
    else Some(LintPasses(lex, RelintCase(j, j.files.draft.value, config.value)))
  }

  function ResolveSeen(w: Records, seen: Option<Row>, verdict: Option<bool>, id: JobId, reviewer: string, ask: Ask,
                       ts: string)
      : (Records, Outcome)
  {
    if seen.None? || seen.value.state != NeedsHumanReview then (w, Err(InvalidInput))
    else
      var hold := seen.value.reviewReason;
      if Relints(seen.value, ask) then
        if verdict.None? then (w, Err(InvalidInput))
        else
          var v := Log(w, GateRun(id, LintGate, verdict.value, None, []));
          if !verdict.value then (v, Err(InvalidInput))
          else MoveTo(v, Processed, ts, [Resolved(id, reviewer, hold, RelintClean, None)])
      else if !HasReason(ask) then (w, Err(InvalidInput))
      else MoveTo(w, Processed, ts, [Resolved(id, reviewer, hold, HumanOverride, ask.reason)])
  }

  function BackfillSeen(w: Records, seen: Option<Row>, id: JobId, reviewer: string, url: string, attested: bool,
                        ts: string)
      : (Records, Outcome)
  {
    if seen.None? || seen.value.state != Approved || IsBlank(url) || !attested || FreezeRecord(w.job).None?
    then (w, Err(InvalidInput))
    else
      var v := w.(job := w.job.(files := w.job.files.(publishedUrl := Some(Strip(url) + "\n"))));
      MoveTo(v, PublishedRecorded, ts, [PublishRecorded(id, reviewer, FreezeRecord(w.job).value.bodySha)])
  }

  // --- supersede ---

  predicate IsSupersedable(s: JobState) {
    s in {ReviewPending, Approved, JobState.NeedsRevision, NeedsHumanReview, Blocked, Duplicate}
  }

  predicate WasSignedOff(s: JobState) { s !in {Blocked, Duplicate, JobState.NeedsRevision, NeedsHumanReview} }

  /** The category codes of the job's last risk gate. */
  function BlockingCodes(events: seq<Event>, id: JobId, n: nat): seq<string>
    requires n <= |events|
  {
    if n == 0 then []
    else
      var e := events[n - 1];
      if e.GateRun? && e.job == id && e.gate == RiskGate then e.codes else BlockingCodes(events, id, n - 1)
  }

  function SupersedeSeen(w: Records, seen: Option<Row>, id: JobId, newId: Option<JobId>, redlineOverride: bool,
                         ts: string)
      : (Records, Outcome)
  {
    if seen.None? || !IsSupersedable(seen.value.state) || (seen.value.state == Blocked && !redlineOverride)
    then (w, Err(InvalidInput))
    else
      var from := seen.value.state;
      var v := if WasSignedOff(from) then Log(w, SignoffInvalidated(id, from)) else w;
      MoveTo(v, Superseded, ts,
             [if from == Blocked then RedlineOverride(id, from, BlockingCodes(v.events, id, |v.events|), newId)
              else SupersededBy(id, newId)])
  }

  method FindBlockingCodes(events: seq<Event>, id: JobId) returns (codes: seq<string>)
    ensures codes == BlockingCodes(events, id, |events|)
  {
    codes := [];
    for n := 0 to |events|
      invariant codes == BlockingCodes(events, id, n)
    {
      var e := events[n];
      if e.GateRun? && e.job == id && e.gate == RiskGate {
        codes := e.codes;
      }
    }
  }

  // --- the operations ---

  class Desk {
    const store: JobStore
    const audit: AuditTrail
    const hasher: Hasher

    constructor (store: JobStore, audit: AuditTrail, hasher: Hasher)
      ensures this.store == store && this.audit == audit && this.hasher == hasher
    {
      this.store, this.audit, this.hasher := store, audit, hasher;
    }

    method BuildReviewPacket(id: JobId, d: Draft, c: CoverChoice, ts: string) returns (r: Outcome)
      modifies store, audit
      ensures forall k :: k != id ==> store.At(k) == old(store.At(k))
      ensures (Records(store.At(id), audit.events), r) ==
              BuildOn(hasher, Records(old(store.At(id)), old(audit.events)), id, d, c, ts)
    {
      var record := store.GetJob(id);
      if record.None? || record.value.state != Processed { return Err(InvalidInput); }
      var cover := CoverFile(store.At(id), c);
      store.Put(id, Packed(hasher, store.At(id), d, cover, ts));
      var row := store.SetState(id, ReviewPending, ts, None, None);
      match row { case Err(e) => return Err(e); case Ok(_) => }
      audit.Append(PacketBuilt(id, BodySha(hasher, d), TitleSha(hasher, d), CoverSha(hasher, cover)));
      return Ok(ReviewPending);
    }

    method Approve(id: JobId, reviewer: string, passed: Option<Draft>, ts: string) returns (r: Outcome)
      modifies store, audit
      ensures forall k :: k != id ==> store.At(k) == old(store.At(k))
      ensures (Records(store.At(id), audit.events), r) ==
              ApproveOn(hasher, Records(old(store.At(id)), old(audit.events)), id, reviewer, passed, ts)
    {
      var freeze := FreezeRecord(store.At(id));
      if freeze.None? { return Err(InvalidInput); }
      var Freeze(bodySha, titleSha, coverSha) := freeze.value;
      if bodySha.None? || titleSha.None? { return Err(InvalidInput); }
      var d := CheckedDraft(store.At(id), passed);
      if d.None? { return Err(InvalidInput); }
      if BodySha(hasher, d.value) != bodySha.value { return Err(InvalidInput); }
      if TitleSha(hasher, d.value) != titleSha.value { return Err(InvalidInput); }
      if coverSha.Some? {
        if CoverSha(hasher, store.At(id).files.reviewCover) != coverSha { return Err(InvalidInput); }
      }
      var row := store.SetState(id, Approved, ts, None, None);
      match row { case Err(e) => return Err(e); case Ok(_) => }
      audit.Append(SignedOff(id, reviewer, bodySha.value, titleSha.value, coverSha));
      return Ok(Approved);
    }

    method Reject(id: JobId, reviewer: string, note: string, ts: string) returns (r: Outcome)
      modifies store, audit
      ensures forall k :: k != id ==> store.At(k) == old(store.At(k))
      ensures (Records(store.At(id), audit.events), r) ==
              RejectSeen(Records(old(store.At(id)), old(audit.events)), old(store.At(id)).row, id, reviewer, note, ts)
    {
      var record := store.GetJob(id);
      if record.None? { return Err(InvalidInput); }
      var artifact: Option<string> := None;
      if record.value.state != NeedsHumanReview {
        var freeze := FreezeRecord(store.At(id));
        if freeze.None? { return Err(InvalidInput); }
        artifact := freeze.value.bodySha;
      }
      var row := store.SetState(id, Rejected, ts, None, None);
      match row { case Err(e) => return Err(e); case Ok(_) => }
      audit.Append(TurnedDown(id, reviewer, note, record.value.state, artifact));
      return Ok(Rejected);
    }

    method Resolve(id: JobId, reviewer: string, ask: Ask, lex: Lexicon, config: Result<LintConfig, Error>, ts: string)
        returns (r: Outcome)
      requires config.Err? ==> config.error == InvalidInput
      modifies store, audit
      ensures forall k :: k != id ==> store.At(k) == old(store.At(k))
      ensures (Records(store.At(id), audit.events), r) ==
              ResolveSeen(Records(old(store.At(id)), old(audit.events)), old(store.At(id)).row,
                          Relinted(lex, old(store.At(id)), config), id, reviewer, ask, ts)
    {
      var record := store.GetJob(id);
      if record.None? || record.value.state != NeedsHumanReview { return Err(InvalidInput); }
      var hold := record.value.reviewReason;
      var mode, note := HumanOverride, ask.reason;
      if ask.relint && hold == Some(Grounding) {
        var d := store.At(id).files.draft;
        if d.None? { return Err(InvalidInput); }
        if config.Err? { return Err(config.error); }
        var cleared := RelintClearsHold(audit, lex, id, RelintCase(store.At(id), d.value, config.value));
        if !cleared { return Err(InvalidInput); }
        mode, note := RelintClean, None;
      } else if !HasReason(ask) {
        return Err(InvalidInput);
      }
      var row := store.SetState(id, Processed, ts, None, None);
      match row { case Err(e) => return Err(e); case Ok(_) => }
      audit.Append(Resolved(id, reviewer, hold, mode, note));
      return Ok(Processed);
    }

    method BackfillPublishedUrl(id: JobId, reviewer: string, url: string, attested: bool, ts: string)
        returns (r: Outcome)
      modifies store, audit
      ensures forall k :: k != id ==> store.At(k) == old(store.At(k))
      ensures (Records(store.At(id), audit.events), r) ==
              BackfillSeen(Records(old(store.At(id)), old(audit.events)), old(store.At(id)).row, id, reviewer, url,
                attested, ts)
    {
      var record := store.GetJob(id);
      if record.None? || record.value.state != Approved { return Err(InvalidInput); }
      if IsBlank(url) { return Err(InvalidInput); }
      if !attested { return Err(InvalidInput); }
      var freeze := FreezeRecord(store.At(id));
      if freeze.None? { return Err(InvalidInput); }
      var j := store.At(id);
      store.Put(id, j.(files := j.files.(publishedUrl := Some(Strip(url) + "\n"))));
      var row := store.SetState(id, PublishedRecorded, ts, None, None);
      match row { case Err(e) => return Err(e); case Ok(_) => }
      audit.Append(PublishRecorded(id, reviewer, freeze.value.bodySha));
      return Ok(PublishedRecorded);
    }

    method Supersede(id: JobId, newId: Option<JobId>, redlineOverride: bool, ts: string) returns (r: Outcome)
      modifies store, audit
      ensures forall k :: k != id ==> store.At(k) == old(store.At(k))
      ensures (Records(store.At(id), audit.events), r) ==
              SupersedeSeen(Records(old(store.At(id)), old(audit.events)), old(store.At(id)).row, id, newId,
                redlineOverride, ts)
    {
      var record := store.GetJob(id);
      if record.None? || !IsSupersedable(record.value.state) { return Err(InvalidInput); }
      var from := record.value.state;
      var isRedline := from == Blocked;
      if isRedline && !redlineOverride { return Err(InvalidInput); }
      if WasSignedOff(from) {
        audit.Append(SignoffInvalidated(id, from));
      }
      var row := store.SetState(id, Superseded, ts, None, None);
      match row { case Err(e) => return Err(e); case Ok(_) => }
      if isRedline {
        var codes := FindBlockingCodes(audit.events, id);
        audit.Append(RedlineOverride(id, from, codes, newId));
        return Ok(Superseded);
      }
      audit.Append(SupersededBy(id, newId));
      return Ok(Superseded);
    }
  }

  // --- when each operation succeeds ---

  ghost predicate IsAt(j: Job, s: JobState) { j.row.Some? && j.row.value.state == s }

  /** Approval succeeds exactly on a pending job whose freeze binds a body and a title and whose
      draft (and cover, if one was bound) still hash to them. */
  lemma ApprovesExactlyWhen(h: Hasher, w: Records, id: JobId, reviewer: string, passed: Option<Draft>, ts: string)
    ensures ApproveOn(h, w, id, reviewer, passed, ts).1.Ok? <==>
            && IsAt(w.job, ReviewPending) && FreezeRecord(w.job).Some? && CheckedDraft(w.job, passed).Some?
            && StillBound(h, FreezeRecord(w.job).value, CheckedDraft(w.job, passed).value, w.job.files.reviewCover)
  {
  }

  /** The two drafts read the same wherever the freeze looks: line by line, and in the title. */
  ghost predicate SameText(d: Draft, e: Draft) { TextLines(d) == TextLines(e) && d.title == e.title }

  /** With a collision-free hash, what still hashes to a freeze is what was frozen. */
  lemma BoundMeansSame(h: Hasher, d: Draft, cover: Option<string>, e: Draft, reviewCover: Option<string>)
    requires Collisionless(h)
    ensures StillBound(h, FreezeOf(h, d, cover), e, reviewCover) <==>
            SameText(d, e) && (cover.Some? ==> reviewCover == cover)
  {
    SameTextExactlyWhen(d, e);
  }

  /** So after any one bound part of the frozen draft is rewritten the approval is refused. */
  lemma EditIsRefused(h: Hasher, w: Records, id: JobId, who: string, ts: string,
                      d: Draft, cover: Option<string>, p: Part, x: string)
    requires Collisionless(h) && FreezeRecord(w.job) == Some(FreezeOf(h, d, cover))
    requires HasPart(d, p) && TextAt(d, p) != x && w.job.files.draft == Some(Edited(d, p, x))
    ensures ApproveOn(h, w, id, who, None, ts) == (w, Err(InvalidInput))
  {
    EveryEditShows(d, p, x);
    BoundMeansSame(h, d, cover, Edited(d, p, x), w.job.files.reviewCover);
  }

  /** A rejection succeeds from NEEDS_HUMAN_REVIEW, and from REVIEW_PENDING with a freeze
      record; an approved job is never rejected. */
  lemma RejectsExactlyWhen(w: Records, id: JobId, reviewer: string, note: string, ts: string)
    ensures RejectSeen(w, w.job.row, id, reviewer, note, ts).1.Ok? <==>
            IsAt(w.job, NeedsHumanReview) || (IsAt(w.job, ReviewPending) && FreezeRecord(w.job).Some?)
  {
  }

  /** A hold clears exactly by a clean re-lint of a grounding hold, or by a nonblank reason
      where no re-lint applies; the refused re-lint is on the record all the same. */
  lemma ResolvesExactlyWhen(w: Records, verdict: Option<bool>, id: JobId, reviewer: string, ask: Ask, ts: string)
    ensures var (v, r) := ResolveSeen(w, w.job.row, verdict, id, reviewer, ask, ts);
            && (r.Ok? <==>
                  && IsAt(w.job, NeedsHumanReview)
                  && (if Relints(w.job.row.value, ask) then verdict == Some(true) else HasReason(ask)))
            && (r.Err? ==> v.job == w.job && w.events <= v.events)
  {
  }

  /** The publication is recorded exactly for an approved job with a freeze record, a nonblank
      URL and the attestation. */
  lemma BackfillsExactlyWhen(w: Records, id: JobId, reviewer: string, url: string, attested: bool, ts: string)
    ensures BackfillSeen(w, w.job.row, id, reviewer, url, attested, ts).1.Ok? <==>
            IsAt(w.job, Approved) && FreezeRecord(w.job).Some? && !IsBlank(url) && attested
  {
  }

  predicate IsRiskRun(e: Event, id: JobId) { e.GateRun? && e.job == id && e.gate == RiskGate }

  /** The codes an override names are those of the last risk gate the job went through. */
  lemma {:induction false} BlockingCodesAre(events: seq<Event>, id: JobId, n: nat, i: nat)
    requires i < n <= |events| && IsRiskRun(events[i], id)
    requires forall k :: i < k < n ==> !IsRiskRun(events[k], id)
    ensures BlockingCodes(events, id, n) == events[i].codes
    decreases n
  {
    if i < n - 1 { BlockingCodesAre(events, id, n - 1, i); }
  }

  /** Without any there are none. */
  lemma {:induction false} NoBlockingCodes(events: seq<Event>, id: JobId, n: nat)
    requires n <= |events| && forall k :: 0 <= k < n ==> !IsRiskRun(events[k], id)
    ensures BlockingCodes(events, id, n) == []
  {
    if n > 0 { NoBlockingCodes(events, id, n - 1); }
  }

  /** Superseding succeeds exactly from the supersedable states, from BLOCKED only with the
      override; a sign-off is declared void exactly for a pending or approved job, and the
      redline event is written exactly for a blocked one. */
  lemma SupersedesExactlyWhen(w: Records, id: JobId, newId: Option<JobId>, redlineOverride: bool, ts: string)
    ensures var (v, r) := SupersedeSeen(w, w.job.row, id, newId, redlineOverride, ts);
            && (r.Ok? <==>
                  && w.job.row.Some? && IsSupersedable(w.job.row.value.state)
                  && (IsAt(w.job, Blocked) ==> redlineOverride))
            && (r.Ok? ==>
                  var from := w.job.row.value.state;
                  v.events == w.events
                    + (if from == ReviewPending || from == Approved then [SignoffInvalidated(id, from)] else [])
                    + [if from == Blocked then RedlineOverride(id, from, BlockingCodes(w.events, id, |w.events|), newId)
                       else SupersededBy(id, newId)])
            && (r.Err? ==> v == w)
  {
  }

  // --- acting on an old reading ---

  /** Acting on an old reading, a supersession still only moves a job that may be superseded, but
      its events speak of the state that was read: they name the state really left exactly when
      the reading was still right. */
  lemma StaleSupersede(w: Records, seen: Row, id: JobId, newId: Option<JobId>, redlineOverride: bool, ts: string)
    requires WasSignedOff(seen.state)
    requires SupersedeSeen(w, Some(seen), id, newId, redlineOverride, ts).1.Ok?
    ensures var v := SupersedeSeen(w, Some(seen), id, newId, redlineOverride, ts).0;
            && w.job.row.Some? && IsSupersedable(w.job.row.value.state)
            && |v.events| == |w.events| + 2
            && v.events[|w.events|] == SignoffInvalidated(id, seen.state)
            && (v.events[|w.events|] == SignoffInvalidated(id, w.job.row.value.state) <==>
                  seen.state == w.job.row.value.state)
  {
  }

  /** So a blocked job is superseded without the redline override exactly when the operator read
      an earlier, ordinary state. */
  lemma StaleReadingSkipsOverride(w: Records, seen: Row, id: JobId, newId: Option<JobId>, ts: string)
    requires IsAt(w.job, Blocked)
    ensures SupersedeSeen(w, Some(seen), id, newId, false, ts).1.Ok? <==>
            IsSupersedable(seen.state) && seen.state != Blocked
  {
  }

  predicate IsFrozenState(s: JobState) { s in {ReviewPending, Approved, PublishedRecorded} }

  /** Building a second packet for a frozen job is refused, but the refusal may come too late: the
      freeze record stays exactly when the build did not go by an old reading of PROCESSED. */
  lemma BuildKeepsFreezeExactlyWhen(h: Hasher, w: Records, seen: Option<Row>, id: JobId, d: Draft, c: CoverChoice,
                                    ts: string)
    requires w.job.row.Some? && IsFrozenState(w.job.row.value.state)
    requires FreezeRecord(w.job) != Some(FreezeOf(h, d, CoverFile(w.job, c)))
    ensures var (v, r) := BuildSeen(h, w, seen, id, d, c, ts);
            && r.Err? && v.job.row == w.job.row && v.events == w.events
            && (FreezeRecord(v.job) == FreezeRecord(w.job) <==> seen.None? || seen.value.state != Processed)
  {
  }

  /** So a packet built on an old reading after the approval puts its own, never signed text on
      the record of the publication. */
  lemma UnsignedTextIsPublished(h: Hasher, w: Records, seen: Row, id: JobId, d: Draft, c: CoverChoice, ts: string,
                                reviewer: string, url: string)
    requires IsAt(w.job, Approved) && seen.state == Processed && !IsBlank(url)
    ensures var v := BuildSeen(h, w, Some(seen), id, d, c, ts).0;
            var (u, r) := BackfillSeen(v, v.job.row, id, reviewer, url, true, ts);
            && r == Ok(PublishedRecorded) && IsAt(u.job, PublishedRecorded)
            && u.events == w.events + [PublishRecorded(id, reviewer, Some(BodySha(h, d)))]
  {
  }
}
