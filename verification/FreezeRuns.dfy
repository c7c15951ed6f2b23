/** Whole runs: processing, packets, sign-offs, views and edits made outside the program, one
    operation after another on one job. An operator acts on the row he read, which may be of any
    age; what was frozen is what is signed and published, but for one kind of late packet. */
module FreezeRuns {
  import opened Wrappers
  import opened Errors
  import opened Text
  import opened Drafts
  import opened JobState
  import opened JobStore
  import opened AuditTrail
  import opened Pipeline
  import opened LintRules
  import opened DraftLinter
  import opened Grounding
  import opened ReviewPacket
  import opened Signoff
  import Reconcile
  import Stage1

  /** What a packet froze, and the persisted draft at that moment. */
  datatype Frozen = Frozen(draft: Draft, cover: Option<string>, saved: Option<Draft>)

  /** The records of a job, and the history of the freeze: what was frozen last, the draft the
      last approval checked, and whether anything was edited outside the program since the freeze. */
  datatype Office = Office(rec: Records, frozen: Option<Frozen>, signed: Option<Draft>, touched: bool)

  /** What is done to the job; `seen` is the row the operator read before. */
  datatype Act =
    | Process(env: Env, run: Run)
    | Build(seen: Option<Row>, packet: Draft, choice: CoverChoice, ts: string)
    | Approve(reviewer: string, passed: Option<Draft>, ts: string)
    | Reject(seen: Option<Row>, reviewer: string, note: string, ts: string)
    | Resolve(seen: Option<Row>, reviewer: string, ask: Ask, lex: Lexicon, config: Result<LintConfig, Error>,
              ts: string)
    | Backfill(seen: Option<Row>, reviewer: string, url: string, attested: bool, ts: string)
    | Supersede(seen: Option<Row>, newId: Option<JobId>, redlineOverride: bool, ts: string)
    | Crawl(bundle: Option<Result<Stage1.Bundle, Error>>, ts: string)
    | View(self: int, running: set<int>)
    | Edit(draft: Option<Draft>, cover: Option<string>)

  /** The records after an act, and whether it went through. */
  function Effect(h: Hasher, id: JobId, w: Records, act: Act): (Records, bool) {
    match act
    case Process(env, run) => var (v, r) := ProcessOn(env, w, id, run); (v, r.Ok?)
    case Build(seen, d, c, ts) => var (v, r) := BuildSeen(h, w, seen, id, d, c, ts); (v, r.Ok?)
    case Approve(who, passed, ts) => var (v, r) := ApproveOn(h, w, id, who, passed, ts); (v, r.Ok?)
    case Reject(seen, who, note, ts) => var (v, r) := RejectSeen(w, seen, id, who, note, ts); (v, r.Ok?)
    case Resolve(seen, who, ask, lex, config, ts) =>
      var (v, r) := ResolveSeen(w, seen, Relinted(lex, w.job, config), id, who, ask, ts);
      (v, r.Ok?)
    case Backfill(seen, who, url, attested, ts) =>
      var (v, r) := BackfillSeen(w, seen, id, who, url, attested, ts);
      (v, r.Ok?)
    case Supersede(seen, newId, redline, ts) =>
      var (v, r) := SupersedeSeen(w, seen, id, newId, redline, ts);
      (v, r.Ok?)
    case Crawl(b, ts) => var (j, r) := Stage1.Stage1On(w.job, b, ts); (w.(job := j), r.Ok?)
    case View(self, running) =>
      (if w.job.row.None? then w else w.(job := Reconcile.Viewed(w.job.row.value.state, w.job, self, running)), true)
    case Edit(d, cover) => (w.(job := w.job.(files := w.job.files.(draft := d, reviewCover := cover))), true)
  }

  /** Every act is, but a packet built for a frozen job on an old reading of PROCESSED. */
  predicate Timely(w: Records, act: Act) {
    act.Build? && w.job.row.Some? && IsFrozenState(w.job.row.value.state) ==>
      act.seen.None? || act.seen.value.state != Processed
  }

  function After(h: Hasher, id: JobId, o: Office, act: Act): Office {
    var (v, done) := Effect(h, id, o.rec, act);
    match act
    case Build(_, d, c, _) =>
      if done then Office(v, Some(Frozen(d, CoverFile(o.rec.job, c), o.rec.job.files.draft)), o.signed, false)
      else o.(rec := v)
    case Approve(_, passed, _) => if done then o.(rec := v, signed := CheckedDraft(o.rec.job, passed)) else o.(rec := v)
    case Edit(_, _) => o.(rec := v, touched := true)
    case _ => o.(rec := v)
  }

  /** From the freeze on, the record binds what was frozen; with no outside edit the files are
      still the frozen ones; and what was signed reads like what was frozen. */
  ghost predicate Inv(h: Hasher, o: Office) {
    && o.rec.job.row.Some?
    && (IsFrozenState(o.rec.job.row.value.state) ==> Kept(h, o))
  }

  ghost predicate Kept(h: Hasher, o: Office) {
    var files := o.rec.job.files;
    && o.frozen.Some?
    && FreezeRecord(o.rec.job) == Some(FreezeOf(h, o.frozen.value.draft, o.frozen.value.cover))
    && (!o.touched ==>
          files.draft == o.frozen.value.saved
            && (o.frozen.value.cover.Some? ==> files.reviewCover == o.frozen.value.cover))
    && (o.rec.job.row.Some? && o.rec.job.row.value.state != ReviewPending ==>
          o.signed.Some? && SameText(o.signed.value, o.frozen.value.draft))
  }

  /** A frozen job was not touched, and a job was not frozen. */
  ghost predicate StaysOut(w: Records, v: Records) {
    && w.job.row.Some? && v.job.row.Some?
    && (IsFrozenState(w.job.row.value.state) || IsFrozenState(v.job.row.value.state) ==> v == w)
  }

  /** Processing never touches a job that is frozen, and never freezes one. */
  lemma ProcessStaysOut(env: Env, w: Records, id: JobId, run: Run)
    requires w.job.row.Some?
    ensures StaysOut(w, ProcessOn(env, w, id, run).0)
  {
    ProcessCommitsOnce(env, w, id, run);
    ProcessOutcomeIsLegal(env, w, id, run);
    var (v, r) := ProcessOn(env, w, id, run);
    StaysOutFrom(w, v, r);
  }

  lemma StaysOutFrom(w: Records, v: Records, r: Result<ProcessResult, Error>)
    requires w.job.row.Some?
    requires r.Ok? ==> CanEnter(w.job) && CommittedOnce(w.job, v.job, r.value)
    requires r.Ok? ==> IsLegal(Processing, r.value.finalState)
    requires r.Err? ==> NothingCommitted(w.job, v.job)
    requires !CanEnter(w.job) ==> v == w
    ensures StaysOut(w, v)
  {
  }

  lemma ApproveKeeps(h: Hasher, id: JobId, o: Office, act: Act)
    requires Collisionless(h) && Inv(h, o) && act.Approve?
    ensures Inv(h, After(h, id, o, act))
  {
    if Effect(h, id, o.rec, act).1 {
      ApprovesExactlyWhen(h, o.rec, id, act.reviewer, act.passed, act.ts);
      var f := o.frozen.value;
      BoundMeansSame(h, f.draft, f.cover, CheckedDraft(o.rec.job, act.passed).value, o.rec.job.files.reviewCover);
    }
  }

  lemma ProcessKeeps(h: Hasher, id: JobId, o: Office, act: Act)
    requires Inv(h, o) && act.Process?
    ensures Inv(h, After(h, id, o, act))
  {
    ProcessStaysOut(act.env, o.rec, id, act.run);
  }

  lemma BuildKeeps(h: Hasher, id: JobId, o: Office, act: Act)
    requires Inv(h, o) && act.Build? && Timely(o.rec, act)
    ensures Inv(h, After(h, id, o, act))
  {
  }

  predicate IsDecision(act: Act) { act.Reject? || act.Resolve? || act.Backfill? || act.Supersede? }

  /** A decision keeps every file but the URL, and it moves the job legally or not at all. */
  ghost predicate Decided(w: Records, v: Records, to: JobState) {
    && w.job.row.Some? && v.job.row.Some?
    && v.job.files.(publishedUrl := w.job.files.publishedUrl) == w.job.files
    && (v.job.row == w.job.row || (v.job.row.value.state == to && IsLegal(w.job.row.value.state, to)))
  }

  function Aim(act: Act): JobState {
    if act.Reject? then Rejected else if act.Resolve? then Processed
    else if act.Backfill? then PublishedRecorded else Superseded
  }

  lemma RejectDecides(w: Records, seen: Option<Row>, id: JobId, who: string, note: string, ts: string)
    requires w.job.row.Some?
    ensures Decided(w, RejectSeen(w, seen, id, who, note, ts).0, Rejected)
  {
  }

  lemma ResolveDecides(w: Records, seen: Option<Row>, verdict: Option<bool>, id: JobId, who: string, ask: Ask,
                       ts: string)
    requires w.job.row.Some?
    ensures Decided(w, ResolveSeen(w, seen, verdict, id, who, ask, ts).0, Processed)
  {
  }

  lemma BackfillDecides(w: Records, seen: Option<Row>, id: JobId, who: string, url: string, attested: bool, ts: string)
    requires w.job.row.Some?
    ensures Decided(w, BackfillSeen(w, seen, id, who, url, attested, ts).0, PublishedRecorded)
  {
  }

  lemma SupersedeDecides(w: Records, seen: Option<Row>, id: JobId, newId: Option<JobId>, redline: bool, ts: string)
    requires w.job.row.Some?
    ensures Decided(w, SupersedeSeen(w, seen, id, newId, redline, ts).0, Superseded)
  {
  }

  lemma EveryDecisionDecides(h: Hasher, id: JobId, w: Records, act: Act)
    requires w.job.row.Some? && IsDecision(act)
    ensures Decided(w, Effect(h, id, w, act).0, Aim(act))
  {
    match act {
      case Reject(seen, who, note, ts) => RejectDecides(w, seen, id, who, note, ts);
      case Resolve(seen, who, ask, lex, config, ts) =>
        ResolveDecides(w, seen, Relinted(lex, w.job, config), id, who, ask, ts);
      case Backfill(seen, who, url, attested, ts) => BackfillDecides(w, seen, id, who, url, attested, ts);
      case Supersede(seen, newId, redline, ts) => SupersedeDecides(w, seen, id, newId, redline, ts);
      case _ =>
    }
  }

  lemma DecidedKeeps(h: Hasher, o: Office, v: Records, to: JobState)
    requires Inv(h, o) && Decided(o.rec, v, to) && to !in {ReviewPending, Approved}
    ensures Inv(h, o.(rec := v))
  {
  }

  lemma DecisionKeeps(h: Hasher, id: JobId, o: Office, act: Act)
    requires Inv(h, o) && IsDecision(act)
    ensures Inv(h, After(h, id, o, act))
  {
    EveryDecisionDecides(h, id, o.rec, act);
    DecidedKeeps(h, o, Effect(h, id, o.rec, act).0, Aim(act));
  }

  lemma OtherKeeps(h: Hasher, id: JobId, o: Office, act: Act)
    requires Inv(h, o) && (act.View? || act.Edit?)
    ensures Inv(h, After(h, id, o, act))
  {
  }

  lemma CrawlStaysOut(w: Records, b: Option<Result<Stage1.Bundle, Error>>, ts: string)
    requires w.job.row.Some?
    ensures StaysOut(w, w.(job := Stage1.Stage1On(w.job, b, ts).0))
  {
  }

  lemma StayingOutKeeps(h: Hasher, o: Office, v: Records)
    requires Inv(h, o) && StaysOut(o.rec, v)
    ensures Inv(h, o.(rec := v))
  {
  }

  lemma ActKeepsInv(h: Hasher, id: JobId, o: Office, act: Act)
    requires Collisionless(h) && Inv(h, o) && Timely(o.rec, act)
    ensures Inv(h, After(h, id, o, act))
  {
    if act.Approve? {
      ApproveKeeps(h, id, o, act);
    } else if act.Process? {
      ProcessKeeps(h, id, o, act);
    } else if act.Build? {
      BuildKeeps(h, id, o, act);
    } else if IsDecision(act) {
      DecisionKeeps(h, id, o, act);
    } else if act.Crawl? {
      CrawlStaysOut(o.rec, act.bundle, act.ts);
      StayingOutKeeps(h, o, Effect(h, id, o.rec, act).0);
    } else {
      OtherKeeps(h, id, o, act);
    }
  }

  /** A job that was not frozen yet. */
  ghost predicate Fresh(o: Office) { o.rec.job.row.Some? && !IsFrozenState(o.rec.job.row.value.state) }

  function AfterAll(h: Hasher, id: JobId, o: Office, acts: seq<Act>): Office
    decreases |acts|
  {
    if acts == [] then o else After(h, id, AfterAll(h, id, o, acts[..|acts| - 1]), acts[|acts| - 1])
  }

  /** Every act of the run was timely when it came. */
  ghost predicate AllTimely(h: Hasher, id: JobId, o: Office, acts: seq<Act>)
    decreases |acts|
  {
    acts != [] ==>
      && AllTimely(h, id, o, acts[..|acts| - 1])
      && Timely(AfterAll(h, id, o, acts[..|acts| - 1]).rec, acts[|acts| - 1])
  }

  lemma {:induction false} RunKeepsInv(h: Hasher, id: JobId, o: Office, acts: seq<Act>)
    requires Collisionless(h) && Fresh(o) && AllTimely(h, id, o, acts)
    ensures Inv(h, AfterAll(h, id, o, acts))
    decreases |acts|
  {
    if acts != [] {
      RunKeepsInv(h, id, o, acts[..|acts| - 1]);
      ActKeepsInv(h, id, AfterAll(h, id, o, acts[..|acts| - 1]), acts[|acts| - 1]);
    }
  }

  /** A packet for a frozen job leaves it as frozen exactly when it is timely, or would freeze the
      same once more. */
  lemma BuildKeepsExactlyWhen(h: Hasher, id: JobId, o: Office, act: Act)
    requires Collisionless(h) && Inv(h, o) && act.Build? && IsFrozenState(o.rec.job.row.value.state)
    ensures Inv(h, After(h, id, o, act)) <==>
            || Timely(o.rec, act)
            || FreezeOf(h, act.packet, CoverFile(o.rec.job, act.choice)) ==
                  FreezeOf(h, o.frozen.value.draft, o.frozen.value.cover)
  {
    if Timely(o.rec, act) {
      BuildKeeps(h, id, o, act);
    } else {
      var cover := CoverFile(o.rec.job, act.choice);
      UntimelyBuild(h, id, o, act);
      PackedKeeps(h, o, act.packet, cover, act.ts);
    }
  }

  lemma UntimelyBuild(h: Hasher, id: JobId, o: Office, act: Act)
    requires o.rec.job.row.Some? && act.Build? && !Timely(o.rec, act)
    ensures After(h, id, o, act) ==
            o.(rec := o.rec.(job := Packed(h, o.rec.job, act.packet, CoverFile(o.rec.job, act.choice), act.ts)))
  {
  }

  lemma PackedKeeps(h: Hasher, o: Office, d: Draft, cover: Option<string>, ts: string)
    requires Collisionless(h) && Inv(h, o) && IsFrozenState(o.rec.job.row.value.state)
    ensures Inv(h, o.(rec := o.rec.(job := Packed(h, o.rec.job, d, cover, ts)))) <==>
            FreezeOf(h, d, cover) == FreezeOf(h, o.frozen.value.draft, o.frozen.value.cover)
  {
    BoundMeansSame(h, o.frozen.value.draft, o.frozen.value.cover, d, cover);
  }

  // --- what it means ---

  /** In any run, an approval goes through only for a pending job, and only if the draft it
      checked reads like the one frozen and a frozen cover is still in place. */
  lemma ApprovedIsFrozen(h: Hasher, id: JobId, o: Office, acts: seq<Act>, who: string, passed: Option<Draft>,
                         ts: string)
    requires Collisionless(h) && Fresh(o) && AllTimely(h, id, o, acts)
    requires ApproveOn(h, AfterAll(h, id, o, acts).rec, id, who, passed, ts).1.Ok?
    ensures var p := AfterAll(h, id, o, acts);
            && IsAt(p.rec.job, ReviewPending) && p.frozen.Some? && CheckedDraft(p.rec.job, passed).Some?
            && SameText(p.frozen.value.draft, CheckedDraft(p.rec.job, passed).value)
            && (p.frozen.value.cover.Some? ==> p.rec.job.files.reviewCover == p.frozen.value.cover)
  {
    RunKeepsInv(h, id, o, acts);
    var p := AfterAll(h, id, o, acts);
    ApprovesExactlyWhen(h, p.rec, id, who, passed, ts);
    BoundMeansSame(h, p.frozen.value.draft, p.frozen.value.cover, CheckedDraft(p.rec.job, passed).value,
                   p.rec.job.files.reviewCover);
  }

  /** No timely act of the program changes the draft, the review cover or the freeze record of a
      frozen job, whatever the operator had read. */
  lemma ProgramKeepsFrozen(h: Hasher, id: JobId, w: Records, act: Act)
    requires w.job.row.Some? && IsFrozenState(w.job.row.value.state) && !act.Edit? && Timely(w, act)
    ensures var v := Effect(h, id, w, act).0;
            && v.job.files.draft == w.job.files.draft && v.job.files.reviewCover == w.job.files.reviewCover
            && v.job.files.manifest == w.job.files.manifest
  {
    if act.Process? {
      ProcessStaysOut(act.env, w, id, act.run);
    }
  }

  /** So with no outside edit since the freeze the checks never refuse: a pending job whose packet
      froze the persisted draft can always be approved. */
  lemma UntouchedIsApprovable(h: Hasher, id: JobId, o: Office, acts: seq<Act>, who: string, ts: string)
    requires Collisionless(h) && Fresh(o) && AllTimely(h, id, o, acts)
    requires var p := AfterAll(h, id, o, acts);
             && IsAt(p.rec.job, ReviewPending) && !p.touched
             && p.frozen.Some? && p.frozen.value.saved == Some(p.frozen.value.draft)
    ensures ApproveOn(h, AfterAll(h, id, o, acts).rec, id, who, None, ts).1.Ok?
  {
    RunKeepsInv(h, id, o, acts);
    var p := AfterAll(h, id, o, acts);
    ApprovesExactlyWhen(h, p.rec, id, who, None, ts);
    BoundMeansSame(h, p.frozen.value.draft, p.frozen.value.cover, p.frozen.value.draft, p.rec.job.files.reviewCover);
  }

  /** In any run, a publication is recorded only for an approved job, with a nonblank URL and the
      attestation; what was signed reads like what was frozen, and the event names the hash of
      that text. */
  lemma PublishedIsFrozen(h: Hasher, id: JobId, o: Office, acts: seq<Act>, act: Act)
    requires Collisionless(h) && Fresh(o) && AllTimely(h, id, o, acts)
    requires var p := AfterAll(h, id, o, acts);
             !IsAt(p.rec.job, PublishedRecorded) && IsAt(After(h, id, p, act).rec.job, PublishedRecorded)
    ensures var p := AfterAll(h, id, o, acts);
            && act.Backfill? && !IsBlank(act.url) && act.attested && IsAt(p.rec.job, Approved)
            && p.frozen.Some? && p.signed.Some? && SameText(p.signed.value, p.frozen.value.draft)
            && After(h, id, p, act).rec.events ==
               p.rec.events + [PublishRecorded(id, act.reviewer, Some(BodySha(h, p.frozen.value.draft)))]
  {
    RunKeepsInv(h, id, o, acts);
    PublishesFrozen(h, id, AfterAll(h, id, o, acts), act);
  }

  lemma PublishesFrozen(h: Hasher, id: JobId, p: Office, act: Act)
    requires Inv(h, p) && !IsAt(p.rec.job, PublishedRecorded) && IsAt(After(h, id, p, act).rec.job, PublishedRecorded)
    ensures act.Backfill? && !IsBlank(act.url) && act.attested && IsAt(p.rec.job, Approved)
    ensures p.frozen.Some? && p.signed.Some? && SameText(p.signed.value, p.frozen.value.draft)
    ensures After(h, id, p, act).rec.events ==
            p.rec.events + [PublishRecorded(id, act.reviewer, Some(BodySha(h, p.frozen.value.draft)))]
  {
    OnlyBackfillPublishes(h, id, p.rec, act);
    BackfillLogs(p.rec, act.seen, id, act.reviewer, act.url, act.attested, act.ts);
  }

  lemma BackfillLogs(w: Records, seen: Option<Row>, id: JobId, who: string, url: string, attested: bool, ts: string)
    ensures var v := BackfillSeen(w, seen, id, who, url, attested, ts).0;
            || v.job.row == w.job.row
            || (FreezeRecord(w.job).Some?
                && v.events == w.events + [PublishRecorded(id, who, FreezeRecord(w.job).value.bodySha)])
  {
  }

  lemma OthersDoNotPublish(h: Hasher, id: JobId, w: Records, act: Act)
    requires w.job.row.Some? && !IsAt(w.job, PublishedRecorded) && !IsDecision(act)
    ensures !IsAt(Effect(h, id, w, act).0.job, PublishedRecorded)
  {
    if act.Process? {
      ProcessStaysOut(act.env, w, id, act.run);
    } else if act.Crawl? {
      CrawlStaysOut(w, act.bundle, act.ts);
    }
  }

  lemma BackfillNeeds(w: Records, seen: Option<Row>, id: JobId, who: string, url: string, attested: bool, ts: string)
    ensures BackfillSeen(w, seen, id, who, url, attested, ts).0 == w || (!IsBlank(url) && attested)
  {
  }

  lemma DecidedOnBackfill(w: Records, v: Records, act: Act)
    requires Decided(w, v, Aim(act)) && IsDecision(act) && !IsAt(w.job, PublishedRecorded)
             && IsAt(v.job, PublishedRecorded)
    ensures act.Backfill? && IsAt(w.job, Approved)
  {
  }

  lemma OnlyBackfillPublishes(h: Hasher, id: JobId, w: Records, act: Act)
    requires w.job.row.Some? && !IsAt(w.job, PublishedRecorded)
    requires IsAt(Effect(h, id, w, act).0.job, PublishedRecorded)
    ensures act.Backfill? && !IsBlank(act.url) && act.attested && IsAt(w.job, Approved)
  {
    if IsDecision(act) {
      EveryDecisionDecides(h, id, w, act);
      DecidedOnBackfill(w, Effect(h, id, w, act).0, act);
      BackfillNeeds(w, act.seen, id, act.reviewer, act.url, act.attested, act.ts);
    } else {
      OthersDoNotPublish(h, id, w, act);
    }
  }

  lemma DecidedOnResolve(w: Records, v: Records, act: Act)
    requires Decided(w, v, Aim(act)) && IsDecision(act) && !IsAt(w.job, Processed) && IsAt(v.job, Processed)
    requires !IsTransient(w.job.row.value.state)
    ensures act.Resolve? && IsAt(w.job, NeedsHumanReview)
  {
  }

  lemma ResolveNeeds(w: Records, seen: Option<Row>, id: JobId, who: string, ask: Ask, lex: Lexicon,
                     config: Result<LintConfig, Error>, ts: string)
    ensures var v := ResolveSeen(w, seen, Relinted(lex, w.job, config), id, who, ask, ts).0;
            || v.job.row == w.job.row
            || (seen.Some? && (if Relints(seen.value, ask) then MeetsStandard(lex, w.job, config) else HasReason(ask)))
  {
  }

  /** The ways into PROCESSED: a run that met every condition, or a resolve of a held job, either
      with a reason or, for a hold read as a grounding hold, with a persisted draft that meets the
      publishing standard. (No stored row is ever in the transient state.) */
  lemma OnlyWaysToProcessed(h: Hasher, id: JobId, w: Records, act: Act)
    requires w.job.row.Some? && !IsAt(w.job, Processed) && !IsTransient(w.job.row.value.state)
    requires IsAt(Effect(h, id, w, act).0.job, Processed)
    ensures act.Process? || act.Resolve?
    ensures act.Process? ==> Publishable(act.env, SourceOf(w.job), id, act.run) && CopyUsed(act.env, act.run)
    ensures act.Resolve? ==>
              IsAt(w.job, NeedsHumanReview) && act.seen.Some?
              && (if Relints(act.seen.value, act.ask) then MeetsStandard(act.lex, w.job, act.config)
                    else HasReason(act.ask))
  {
    if act.Process? {
      ProcessMeans(act.env, id, w, act.run);
    } else if IsDecision(act) {
      EveryDecisionDecides(h, id, w, act);
      DecidedOnResolve(w, Effect(h, id, w, act).0, act);
      ResolveNeeds(w, act.seen, id, act.reviewer, act.ask, act.lex, act.config, act.ts);
    }
  }

  /** The persisted draft passes lint, with the media the first lint would have seen. */
  ghost predicate MeetsStandard(lex: Lexicon, j: Job, config: Result<LintConfig, Error>) {
    && j.files.draft.Some? && config.Ok?
    && Clean(lex.alphabet, SubjectOf(lex, RelintCase(j, j.files.draft.value, config.value)), config.value)
  }

  lemma ProcessMeans(env: Env, id: JobId, w: Records, run: Run)
    requires w.job.row.Some? && !IsAt(w.job, Processed)
    requires IsAt(ProcessOn(env, w, id, run).0.job, Processed)
    ensures Publishable(env, SourceOf(w.job), id, run) && CopyUsed(env, run)
  {
    ProcessCommitsOnce(env, w, id, run);
    ProcessedExactlyWhen(env, w, id, run);
    if !CopyUsed(env, run) {
      NoCopyNeverProcessed(env, w, id, run);
    }
  }

  /** End to end: a run that rests at PROCESSED hands over the draft it saved; the packet built
      from it freezes the job, and the approval that loads the persisted draft goes through. */
  lemma ReviewRunIsApprovable(env: Env, h: Hasher, id: JobId, w: Records, run: Run, ts: string, who: string)
    requires var r := ProcessOn(env, w, id, run).1; r.Ok? && r.value.finalState == Processed
    ensures var (v, r) := ProcessOn(env, w, id, run);
            && r.value.draft.Some?
            && var (u, built) := BuildOn(h, v, id, r.value.draft.value, Produced, ts);
               && built == Ok(ReviewPending) && IsAt(u.job, ReviewPending)
               && ApproveOn(h, u, id, who, None, ts).1 == Ok(Approved)
  {
    ProcessCommitsOnce(env, w, id, run);
    ProcessedExactlyWhen(env, w, id, run);
    var (v, r) := ProcessOn(env, w, id, run);
    BuildThenApprove(h, id, v, r.value.draft.value, ts, who);
  }

  lemma BuildThenApprove(h: Hasher, id: JobId, w: Records, d: Draft, ts: string, who: string)
    requires IsAt(w.job, Processed) && w.job.files.draft == Some(d)
    ensures var (u, built) := BuildOn(h, w, id, d, Produced, ts);
            && built == Ok(ReviewPending) && IsAt(u.job, ReviewPending)
            && ApproveOn(h, u, id, who, None, ts).1 == Ok(Approved)
  {
  }

  /** Such runs exist: any processed job with a persisted draft is frozen by one act and can then
      be approved, untouched since. */
  lemma ApprovalIsReachable(h: Hasher, id: JobId, o: Office, d: Draft, ts: string, who: string)
    requires IsAt(o.rec.job, Processed) && o.rec.job.files.draft == Some(d)
    ensures var p := AfterAll(h, id, o, [Build(o.rec.job.row, d, Produced, ts)]);
            && Fresh(o) && IsAt(p.rec.job, ReviewPending) && !p.touched
            && p.frozen.Some? && p.frozen.value.saved == Some(p.frozen.value.draft)
            && ApproveOn(h, p.rec, id, who, None, ts).1 == Ok(Approved)
  {
    BuildThenApprove(h, id, o.rec, d, ts, who);
    var acts := [Build(o.rec.job.row, d, Produced, ts)];
    assert acts[..0] == [];
    assert AfterAll(h, id, o, acts) == After(h, id, o, acts[0]);
  }
}
