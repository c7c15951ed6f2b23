/** What every sign-off operation leaves behind, in full, on the job it acted on. */
module SignoffOutcomes {
  import opened Wrappers
  import opened Errors
  import opened Text
  import opened Drafts
  import opened JobState
  import opened JobStore
  import opened AuditTrail
  import opened ReviewPacket
  import opened Signoff

  /** Nothing happened. */
  ghost predicate Refused(w: Records, v: Records, r: Outcome) { r == Err(InvalidInput) && v == w }

  /** The job moved from one state to another, with these files and these events. */
  ghost predicate Moved(w: Records, v: Records, r: Outcome, from: JobState, to: JobState, ts: string, files: Folder,
                        events: seq<Event>)
  {
    && r == Ok(to) && w.job.row.Some? && w.job.row.value.state == from
    && v.job.row == Some(w.job.row.value.(state := to, updatedAt := ts, errorCode := None, reviewReason := None))
    && v.job.files == files && v.job.history == w.job.history + [to] && v.events == w.events + events
  }

  /** A packet binds the hashes of the body text, of the title and of the cover it was given. */
  lemma BuildLeaves(h: Hasher, w: Records, id: JobId, d: Draft, c: CoverChoice, ts: string)
    ensures var (v, r) := BuildOn(h, w, id, d, c, ts);
            var cover := match c case Produced => w.job.files.processedCover case Given(file) => file;
            var sha := match cover case None => None case Some(x) => Some(h.file(x));
            var body, title := h.text(BodyText(d)), h.text(d.title);
            if w.job.row.Some? && w.job.row.value.state == Processed then
              Moved(w, v, r, Processed, ReviewPending, ts,
                    w.job.files.(reviewCover := if cover.None? then w.job.files.reviewCover else cover,
                                 manifest := Some(Manifest(ts, Some(Freeze(Some(body), Some(title), sha))))),
                    [PacketBuilt(id, body, title, sha)])
            else Refused(w, v, r)
  {
  }

  /** Hashing the draft and the review cover anew gives what the packet bound. */
  ghost predicate Matches(h: Hasher, j: Job, d: Draft) {
    match j.files.manifest
    case Some(Manifest(_, Some(Freeze(Some(body), Some(title), cover)))) =>
      && body == h.text(BodyText(d)) && title == h.text(d.title)
      && (cover.None? || (j.files.reviewCover.Some? && cover.value == h.file(j.files.reviewCover.value)))
    case _ => false
  }

  lemma MatchesIsBound(h: Hasher, j: Job, d: Draft)
    ensures Matches(h, j, d) <==>
            FreezeRecord(j).Some? && StillBound(h, FreezeRecord(j).value, d, j.files.reviewCover)
  {
  }

  lemma ApproveChecked(h: Hasher, w: Records, id: JobId, reviewer: string, passed: Option<Draft>, ts: string, d: Draft)
    requires CheckedDraft(w.job, passed) == Some(d)
    ensures var (v, r) := ApproveOn(h, w, id, reviewer, passed, ts);
            if w.job.row.Some? && w.job.row.value.state == ReviewPending && Matches(h, w.job, d) then
              Moved(w, v, r, ReviewPending, Approved, ts, w.job.files,
                    [SignedOff(id, reviewer, h.text(BodyText(d)), h.text(d.title),
                               w.job.files.manifest.value.freeze.value.coverSha)])
            else Refused(w, v, r)
  {
    MatchesIsBound(h, w.job, d);
    if Matches(h, w.job, d) { ApproveBound(h, w, id, reviewer, passed, ts, d); }
  }

  lemma ApproveBound(h: Hasher, w: Records, id: JobId, reviewer: string, passed: Option<Draft>, ts: string, d: Draft)
    requires CheckedDraft(w.job, passed) == Some(d) && Matches(h, w.job, d)
    ensures ApproveOn(h, w, id, reviewer, passed, ts) ==
            MoveTo(w, Approved, ts, [SignedOff(id, reviewer, h.text(BodyText(d)), h.text(d.title),
                                               w.job.files.manifest.value.freeze.value.coverSha)])
  {
    MatchesIsBound(h, w.job, d);
  }

  /** An approval signs exactly what was bound, and changes no file; the draft it checks is the one
      passed to it, or else the persisted one. */
  lemma ApproveLeaves(h: Hasher, w: Records, id: JobId, reviewer: string, passed: Option<Draft>, ts: string)
    ensures var (v, r) := ApproveOn(h, w, id, reviewer, passed, ts);
            match (if passed.Some? then passed else w.job.files.draft)
            case None => Refused(w, v, r)
            case Some(d) =>
              if w.job.row.Some? && w.job.row.value.state == ReviewPending && Matches(h, w.job, d) then
                Moved(w, v, r, ReviewPending, Approved, ts, w.job.files,
                      [SignedOff(id, reviewer, h.text(BodyText(d)), h.text(d.title),
                                 w.job.files.manifest.value.freeze.value.coverSha)])
              else Refused(w, v, r)
  {
    var checked := if passed.Some? then passed else w.job.files.draft;
    if checked.Some? { ApproveChecked(h, w, id, reviewer, passed, ts, checked.value); }
  }

  /** The body hash a packet bound, if a packet is there. */
  function BoundBody(j: Job): Option<Option<string>> {
    match j.files.manifest case Some(Manifest(_, Some(f))) => Some(f.bodySha) case _ => None
  }

  /** A rejection names the state it left, and the bound text where there was a packet to reject. */
  lemma RejectLeaves(w: Records, id: JobId, reviewer: string, note: string, ts: string)
    ensures var (v, r) := RejectSeen(w, w.job.row, id, reviewer, note, ts);
            if w.job.row.Some? && w.job.row.value.state == NeedsHumanReview then
              Moved(w, v, r, NeedsHumanReview, Rejected, ts, w.job.files,
                    [TurnedDown(id, reviewer, note, NeedsHumanReview, None)])
            else if w.job.row.Some? && w.job.row.value.state == ReviewPending && BoundBody(w.job).Some? then
              Moved(w, v, r, ReviewPending, Rejected, ts, w.job.files,
                    [TurnedDown(id, reviewer, note, ReviewPending, BoundBody(w.job).value)])
            else Refused(w, v, r)
  {
  }

  /** A held job is lint-checked again only when that is asked for and grounding held it; then the
      verdict is logged and decides alone. Otherwise a reason that says something decides. */
  lemma ResolveLeaves(w: Records, verdict: Option<bool>, id: JobId, reviewer: string, ask: Ask, ts: string)
    ensures var (v, r) := ResolveSeen(w, w.job.row, verdict, id, reviewer, ask, ts);
            if w.job.row.None? || w.job.row.value.state != NeedsHumanReview then Refused(w, v, r)
            else
              var hold := w.job.row.value.reviewReason;
              if ask.relint && hold == Some(Grounding) then
                match verdict
                case None => Refused(w, v, r)
                case Some(false) => r == Err(InvalidInput) && v == Log(w, GateRun(id, LintGate, false, None, []))
                case Some(true) =>
                  Moved(w, v, r, NeedsHumanReview, Processed, ts, w.job.files,
                        [GateRun(id, LintGate, true, None, []), Resolved(id, reviewer, hold, RelintClean, None)])
              else if ask.reason.Some? && !IsBlank(ask.reason.value) then
                Moved(w, v, r, NeedsHumanReview, Processed, ts, w.job.files,
                      [Resolved(id, reviewer, hold, HumanOverride, ask.reason)])
              else Refused(w, v, r)
  {
  }

  /** The stripped URL is kept on one line, and the event carries the bound text, never the URL. */
  lemma BackfillLeaves(w: Records, id: JobId, reviewer: string, url: string, attested: bool, ts: string)
    ensures var (v, r) := BackfillSeen(w, w.job.row, id, reviewer, url, attested, ts);
            if w.job.row.Some? && w.job.row.value.state == Approved && attested && !IsBlank(url)
               && BoundBody(w.job).Some?
            then
              Moved(w, v, r, Approved, PublishedRecorded, ts, w.job.files.(publishedUrl := Some(Strip(url) + "\n")),
                    [PublishRecorded(id, reviewer, BoundBody(w.job).value)])
            else Refused(w, v, r)
  {
  }

  /** What superseding a job at each state takes and logs. */
  lemma SupersedeLeaves(w: Records, id: JobId, newId: Option<JobId>, redline: bool, ts: string)
    ensures var (v, r) := SupersedeSeen(w, w.job.row, id, newId, redline, ts);
            if w.job.row.None? then Refused(w, v, r)
            else
              var from := w.job.row.value.state;
              match from
              case ReviewPending =>
                Moved(w, v, r, from, Superseded, ts, w.job.files,
                      [SignoffInvalidated(id, from), SupersededBy(id, newId)])
              case Approved =>
                Moved(w, v, r, from, Superseded, ts, w.job.files,
                      [SignoffInvalidated(id, from), SupersededBy(id, newId)])
              case NeedsRevision => Moved(w, v, r, from, Superseded, ts, w.job.files, [SupersededBy(id, newId)])
              case NeedsHumanReview => Moved(w, v, r, from, Superseded, ts, w.job.files, [SupersededBy(id, newId)])
              case Duplicate => Moved(w, v, r, from, Superseded, ts, w.job.files, [SupersededBy(id, newId)])
              case Blocked =>
                if redline then
                  Moved(w, v, r, from, Superseded, ts, w.job.files,
                        [RedlineOverride(id, from, BlockingCodes(w.events, id, |w.events|), newId)])
                else Refused(w, v, r)
              case _ => Refused(w, v, r)
  {
  }
}
