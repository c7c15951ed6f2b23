/** The job index and the folder-per-job files: each transaction and file operation is one
    atomic method, specified on the one job it touches. */
module JobStore {
  import opened Wrappers
  import opened Errors
  import opened JobState
  import opened Drafts

  type JobId = string

  datatype Row = Row(
    state: JobState, createdAt: string, updatedAt: string,
    sourceHtmlSha: Option<string>, sourceTextSha: Option<string>,
    errorCode: Option<string>, reviewReason: Option<ReviewReason>)

  /** The .processing file: absent, or holding a pid that may be unreadable. */
  datatype Marker = Absent | Present(pid: Option<int>)

  /** The hashes a review packet binds; a malformed record may lack any of them. */
  datatype Freeze = Freeze(bodySha: Option<string>, titleSha: Option<string>, coverSha: Option<string>)

  datatype Manifest = Manifest(submittedAt: string, freeze: Option<Freeze>)

  datatype MediaReport = MediaReport(imageCount: nat, videoCount: nat)

  /** The files of one job. The counter is None when the file is absent or unreadable. */
  datatype Folder = Folder(
    marker: Marker, counter: Option<int>,
    source: Option<string>, draft: Option<Draft>, media: Option<MediaReport>,
    processedCover: Option<string>, reviewCover: Option<string>,
    manifest: Option<Manifest>, publishedUrl: Option<string>)

  const NO_FILES := Folder(Absent, None, None, None, None, None, None, None, None)

  /** One job: its row, its files, and (for the proofs) every state its row has held. */
  datatype Job = Job(row: Option<Row>, files: Folder, history: seq<JobState>)

  const NO_JOB := Job(None, NO_FILES, [])

  /** The row's state is the last one recorded, and the recorded ones are a run of the table. */
  ghost predicate Sound(j: Job) {
    && Path(j.history)
    && (j.row.None? ==> j.history == [])
    && (j.row.Some? ==> j.history != [] && j.row.value.state == j.history[|j.history| - 1])
  }

  // --- the transactions, on one job ---

  function Commit(j: Job, row: Row): Job { j.(row := Some(row), history := j.history + [row.state]) }

  function Created(j: Job, state: JobState, ts: string): Result<Job, Error> {
    if IsTransient(state) || j.row.Some? then Err(InvalidInput)
    else Ok(Commit(j, Row(state, ts, ts, None, None, None, None)))
  }

  function StateSet(j: Job, to: JobState, ts: string, code: Option<string>, reason: Option<ReviewReason>)
      : Result<Job, Error>
  {
    if j.row.None? || !IsLegal(j.row.value.state, to) || IsTransient(to) then Err(InvalidInput)
    else Ok(Commit(j, j.row.value.(state := to, updatedAt := ts, errorCode := code, reviewReason := reason)))
  }

  function Coalesce<T>(a: Option<T>, b: Option<T>): Option<T> { if a.Some? then a else b }

  /** State and source hashes land together; error code and review reason stay. */
  function CrawlLanded(j: Job, to: JobState, ts: string, html: Option<string>, text: Option<string>)
      : Result<Job, Error>
  {
    if IsTransient(to) || j.row.None? || !IsLegal(j.row.value.state, to) then Err(InvalidInput)
    else
      var row := j.row.value;
      Ok(Commit(j, row.(state := to, updatedAt := ts,
                        sourceHtmlSha := Coalesce(html, row.sourceHtmlSha),
                        sourceTextSha := Coalesce(text, row.sourceTextSha))))
  }

  /** The resting state of a Stage-2 run, checked through the transient state, and the marker cleared. */
  function Landed(j: Job, to: JobState, ts: string, code: Option<string>, reason: Option<ReviewReason>)
      : Result<Job, Error>
  {
    if IsTransient(to) || j.row.None? || !IsLegal(j.row.value.state, Processing) || !IsLegal(Processing, to) then
      Err(InvalidInput)
    else
      Ok(Marked(Commit(j, j.row.value.(state := to, updatedAt := ts, errorCode := code, reviewReason := reason)),
        Absent))
  }

  /** What is left of an erased job: no row, and the files whose removal failed. */
  function Deleted(left: Folder): Job { Job(None, left, []) }

  function Marked(j: Job, m: Marker): Job { j.(files := j.files.(marker := m)) }

  function Counted(j: Job, c: Option<int>): Job { j.(files := j.files.(counter := c)) }

  function Count(j: Job): int { if j.files.counter.Some? then j.files.counter.value else 0 }

  /** The row is the new one, its state is on record, and the files are as they were. */
  predicate Moved(before: Job, after: Job, row: Row) {
    after.row == Some(row) && after.files == before.files && after.history == before.history + [row.state]
  }

  /** Only the files changed. */
  predicate OnlyFiles(before: Job, after: Job, files: Folder) {
    after.files == files && after.row == before.row && after.history == before.history
  }

  class JobStore {
    var jobs: map<JobId, Job>

    constructor ()
      ensures jobs == map[]
    {
      jobs := map[];
    }

    function At(id: JobId): Job
      reads this
    {
      if id in jobs then jobs[id] else NO_JOB
    }

    method Put(id: JobId, j: Job)
      modifies this
      ensures At(id) == j && forall k :: k != id ==> At(k) == old(At(k))
    {
      jobs := jobs[id := j];
    }

    method CreateJob(id: JobId, state: JobState, ts: string) returns (r: Result<Row, Error>)
      modifies this
      ensures forall k :: k != id ==> At(k) == old(At(k))
      ensures match Created(old(At(id)), state, ts)
              case Err(e) => r == Err(e) && At(id) == old(At(id))
              case Ok(j) => At(id) == j && r == Ok(j.row.value)
      ensures r.Ok? <==> old(At(id)).row.None? && state != Processing
      ensures r.Ok? ==> Moved(old(At(id)), At(id), Row(state, ts, ts, None, None, None, None))
    {
      if IsTransient(state) { return Err(InvalidInput); }
      var j := At(id);
      if j.row.Some? { return Err(InvalidInput); }
      var row := Row(state, ts, ts, None, None, None, None);
      Put(id, Commit(j, row));
      return Ok(row);
    }

    method GetJob(id: JobId) returns (row: Option<Row>)
      ensures row == At(id).row
    {
      row := At(id).row;
    }

    method SetState(id: JobId, to: JobState, ts: string, code: Option<string>, reason: Option<ReviewReason>)
        returns (r: Result<Row, Error>)
      modifies this
      ensures forall k :: k != id ==> At(k) == old(At(k))
      ensures match StateSet(old(At(id)), to, ts, code, reason)
              case Err(e) => r == Err(e) && At(id) == old(At(id))
              case Ok(j) => At(id) == j && r == Ok(j.row.value)
      ensures r.Ok? <==> old(At(id)).row.Some? && IsLegal(old(At(id)).row.value.state, to) && to != Processing
      ensures r.Ok? ==> Moved(old(At(id)), At(id), old(At(id)).row.value.(state := to, updatedAt := ts,
                                                                         errorCode := code, reviewReason := reason))
    {
      var j := At(id);
      if j.row.None? { return Err(InvalidInput); }
      if !IsLegal(j.row.value.state, to) { return Err(InvalidInput); }
      if IsTransient(to) { return Err(InvalidInput); }
      var row := j.row.value.(state := to, updatedAt := ts, errorCode := code, reviewReason := reason);
      Put(id, Commit(j, row));
      return Ok(row);
    }

    method PersistCrawlResult(id: JobId, to: JobState, ts: string, html: Option<string>, text: Option<string>)
        returns (r: Result<Row, Error>)
      modifies this
      ensures forall k :: k != id ==> At(k) == old(At(k))
      ensures match CrawlLanded(old(At(id)), to, ts, html, text)
              case Err(e) => r == Err(e) && At(id) == old(At(id))
              case Ok(j) => At(id) == j && r == Ok(j.row.value)
      ensures r.Ok? <==> old(At(id)).row.Some? && IsLegal(old(At(id)).row.value.state, to) && to != Processing
      ensures r.Ok? ==>
                var row := old(At(id)).row.value;
                Moved(old(At(id)), At(id), row.(state := to, updatedAt := ts,
                                                sourceHtmlSha := if html.None? then row.sourceHtmlSha else html,
                                                sourceTextSha := if text.None? then row.sourceTextSha else text))
    {
      if IsTransient(to) { return Err(InvalidInput); }
      var j := At(id);
      if j.row.None? { return Err(InvalidInput); }
      var row := j.row.value;
      if !IsLegal(row.state, to) { return Err(InvalidInput); }
      row := row.(state := to, updatedAt := ts,
                  sourceHtmlSha := Coalesce(html, row.sourceHtmlSha),
                  sourceTextSha := Coalesce(text, row.sourceTextSha));
      Put(id, Commit(j, row));
      return Ok(row);
    }

    method PersistFromProcessing(id: JobId, to: JobState, ts: string, code: Option<string>,
                                 reason: Option<ReviewReason>)
        returns (r: Result<Row, Error>)
      modifies this
      ensures forall k :: k != id ==> At(k) == old(At(k))
      ensures match Landed(old(At(id)), to, ts, code, reason)
              case Err(e) => r == Err(e) && At(id) == old(At(id))
              case Ok(j) => At(id) == j && r == Ok(j.row.value)
      ensures r.Ok? <==> old(At(id)).row.Some? && IsLegal(old(At(id)).row.value.state, Processing)
                         && IsLegal(Processing, to) && to != Processing
      ensures r.Ok? ==>
                var j := old(At(id));
                Moved(j.(files := j.files.(marker := Absent)), At(id),
                      j.row.value.(state := to, updatedAt := ts, errorCode := code, reviewReason := reason))
    {
      if IsTransient(to) { return Err(InvalidInput); }
      var j := At(id);
      if j.row.None? { return Err(InvalidInput); }
      if !IsLegal(j.row.value.state, Processing) { return Err(InvalidInput); }
      if !IsLegal(Processing, to) { return Err(InvalidInput); }
      var row := j.row.value.(state := to, updatedAt := ts, errorCode := code, reviewReason := reason);
      Put(id, Commit(j, row));
      ClearProcessing(id);
      return Ok(row);
    }

    /** Erase a job as well as it goes: the files that could be removed, and the row. */
    method DeleteJob(id: JobId, left: Folder) returns (rowsDeleted: nat)
      modifies this
      ensures At(id) == Deleted(left) && At(id).row.None? && At(id).files == left
      ensures forall k :: k != id ==> At(k) == old(At(k))
      ensures rowsDeleted == if old(At(id)).row.Some? then 1 else 0
    {
      rowsDeleted := if At(id).row.Some? then 1 else 0;
      Put(id, Job(None, left, []));
    }

    method MarkProcessing(id: JobId, pid: int)
      modifies this
      ensures At(id) == Marked(old(At(id)), Present(Some(pid))) && forall k :: k != id ==> At(k) == old(At(k))
      ensures OnlyFiles(old(At(id)), At(id), old(At(id)).files.(marker := Present(Some(pid))))
    {
      Put(id, Marked(At(id), Present(Some(pid))));
    }

    method ClearProcessing(id: JobId)
      modifies this
      ensures At(id) == Marked(old(At(id)), Absent) && forall k :: k != id ==> At(k) == old(At(k))
      ensures OnlyFiles(old(At(id)), At(id), old(At(id)).files.(marker := Absent))
    {
      if At(id).files.marker.Present? {
        Put(id, Marked(At(id), Absent));
      }
    }

    method BumpInterruptCount(id: JobId) returns (n: int)
      modifies this
      ensures n == if old(At(id)).files.counter.None? then 1 else old(At(id)).files.counter.value + 1
      ensures OnlyFiles(old(At(id)), At(id), old(At(id)).files.(counter := Some(n)))
      ensures At(id) == Counted(old(At(id)), Some(n)) && forall k :: k != id ==> At(k) == old(At(k))
    {
      n := Count(At(id)) + 1;
      Put(id, Counted(At(id), Some(n)));
    }

    method ClearInterruptCount(id: JobId)
      modifies this
      ensures At(id) == Counted(old(At(id)), None) && forall k :: k != id ==> At(k) == old(At(k))
      ensures OnlyFiles(old(At(id)), At(id), old(At(id)).files.(counter := None))
    {
      Put(id, Counted(At(id), None));
    }

    method SaveDraft(id: JobId, d: Draft)
      modifies this
      ensures At(id) == old(At(id)).(files := old(At(id)).files.(draft := Some(d)))
      ensures forall k :: k != id ==> At(k) == old(At(k))
    {
      Put(id, At(id).(files := At(id).files.(draft := Some(d))));
    }
  }

  // --- any run of store operations on one job ---

  /** One store operation, with whatever arguments its caller came up with: the caller's own
      reading of the job may be long out of date. */
  datatype Op =
    | Create(state: JobState, ts: string)
    | Set(to: JobState, ts: string, code: Option<string>, reason: Option<ReviewReason>)
    | Crawl(to: JobState, ts: string, html: Option<string>, text: Option<string>)
    | Land(to: JobState, ts: string, code: Option<string>, reason: Option<ReviewReason>)
    | Files(files: Folder)
    | Delete(left: Folder)

  function Attempt(j: Job, op: Op): Result<Job, Error> {
    match op
    case Create(s, ts) => Created(j, s, ts)
    case Set(to, ts, code, reason) => StateSet(j, to, ts, code, reason)
    case Crawl(to, ts, html, text) => CrawlLanded(j, to, ts, html, text)
    case Land(to, ts, code, reason) => Landed(j, to, ts, code, reason)
    case Files(f) => Ok(j.(files := f))
    case Delete(left) => Ok(Deleted(left))
  }

  /** The job once every operation had its turn; a refused one leaves it alone. */
  function After(j: Job, ops: seq<Op>): Job
    decreases |ops|
  {
    if ops == [] then j
    else After(match Attempt(j, ops[0]) case Ok(k) => k case Err(_) => j, ops[1..])
  }

  lemma AttemptKeepsSound(j: Job, op: Op)
    requires Sound(j) && Attempt(j, op).Ok?
    ensures Sound(Attempt(j, op).value)
    ensures !op.Delete? ==> j.history <= Attempt(j, op).value.history
  {
    var k := Attempt(j, op).value;
    if !op.Files? && !op.Delete? {
      var s := k.row.value.state;
      assert k.history == j.history + [s];
      if j.row.Some? { PathGrows(j.history, s); }
    }
  }

  ghost predicate Kept(ops: seq<Op>) { forall i :: 0 <= i < |ops| ==> !ops[i].Delete? }

  /** Whatever the callers try, in whatever order and however stale their own readings, the
      states a job held since it was last created form a path of the table with PROCESSING
      contracted; and unless the job is deleted, earlier history is never rewritten. */
  lemma {:induction false} EveryRunIsSound(j: Job, ops: seq<Op>)
    requires Sound(j)
    ensures Sound(After(j, ops)) && (Kept(ops) ==> j.history <= After(j, ops).history)
    decreases |ops|
  {
    if ops != [] {
      match Attempt(j, ops[0]) {
        case Ok(k) =>
          AttemptKeepsSound(j, ops[0]);
          EveryRunIsSound(k, ops[1..]);
        case Err(_) =>
          EveryRunIsSound(j, ops[1..]);
      }
    }
  }

  /** So as long as the job is not deleted at most three more moves follow PROCESSED, BLOCKED and
      DUPLICATE lead to SUPERSEDED only, and a terminal state stays, whatever is tried. */
  lemma EveryRunIsBounded(j: Job, ops: seq<Op>)
    requires Sound(j) && j.row.Some? && Kept(ops)
    ensures var before, k := j.row.value.state, After(j, ops);
            && (before == Processed ==> |k.history| <= |j.history| + 3)
            && (before == Blocked || before == Duplicate ==>
                  |k.history| <= |j.history| + 1
                    && (|k.history| > |j.history| ==> k.history[|j.history|] == Superseded))
            && (IsTerminal(before) ==> k.row == j.row && k.history == j.history)
  {
    EveryRunIsSound(j, ops);
    var h, i := After(j, ops).history, |j.history| - 1;
    assert h[i] == j.row.value.state;
    if h[i] == Processed { AfterProcessed(h, i); }
    if h[i] == Blocked || h[i] == Duplicate { AfterBlocked(h, i); }
    if IsTerminal(h[i]) {
      TerminalStays(j, ops);
    }
  }

  lemma {:induction false} TerminalStays(j: Job, ops: seq<Op>)
    requires Sound(j) && j.row.Some? && IsTerminal(j.row.value.state) && Kept(ops)
    ensures After(j, ops).row == j.row && After(j, ops).history == j.history
    decreases |ops|
  {
    if ops != [] {
      var k := match Attempt(j, ops[0]) case Ok(k) => k case Err(_) => j;
      TerminalIsAbsorbing(j.row.value.state);
      assert k.row == j.row && k.history == j.history;
      TerminalStays(k, ops[1..]);
    }
  }
}
