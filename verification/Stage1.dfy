/** Stage 1: create or reset the job, crawl, and land state and hashes in one transaction. */
module Stage1 {
  import opened Wrappers
  import opened Errors
  import opened JobState
  import opened JobStore

  /** What a crawl brings back: its status and the source hashes. */
  datatype Bundle = Bundle(status: string, htmlSha: Option<string>, textSha: Option<string>)

  /** An unknown status is a failed crawl; incomplete content parks at CRAWLED_WARN. */
  function CrawlTarget(status: string): JobState {
    if status == "crawled" then Crawled
    else if status == "crawled_warn" || status == "needs_revision" then CrawledWarn
    else CrawlFailed
  }

  /** The job made ready for a crawl: new, or reset after a failed one. */
  function Readied(j: Job, ts: string): Result<Job, Error> {
    if j.row.None? then Created(j, New, ts)
    else match j.row.value.state
      case CrawlFailed => StateSet(j, New, ts, None, None)
      case New => Ok(j)
      case _ => Err(InvalidInput)
  }

  /** crawl is what the injected crawler would return; None when no crawler was injected. */
  function Stage1On(j: Job, crawl: Option<Result<Bundle, Error>>, ts: string): (Job, Result<Row, Error>) {
    if crawl.None? then (j, Err(InvalidInput))
    else match Readied(j, ts)
      case Err(e) => (j, Err(e))
      case Ok(k) =>
        match crawl.value
        case Err(e) => (k, Err(e))
        case Ok(b) =>
          match CrawlLanded(k, CrawlTarget(b.status), ts, b.htmlSha, b.textSha)
          case Err(e) => (k, Err(e))
          case Ok(l) => (l, if l.row.Some? then Ok(l.row.value) else Err(Unexpected))
  }

  method RunStage1(store: JobStore, id: JobId, crawl: Option<Result<Bundle, Error>>, ts: string)
      returns (r: Result<Row, Error>)
    modifies store
    ensures forall k :: k != id ==> store.At(k) == old(store.At(k))
    ensures (store.At(id), r) == Stage1On(old(store.At(id)), crawl, ts)
  {
    if crawl.None? { return Err(InvalidInput); }
    var existing := store.GetJob(id);
    if existing.None? {
      r := store.CreateJob(id, New, ts);
    } else if existing.value.state == CrawlFailed {
      r := store.SetState(id, New, ts, None, None);
    } else if existing.value.state != New {
      return Err(InvalidInput);
    }
    if crawl.value.Err? { return Err(crawl.value.error); }
    var b := crawl.value.value;
    r := store.PersistCrawlResult(id, CrawlTarget(b.status), ts, b.htmlSha, b.textSha);
  }

  predicate Crawlable(j: Job) { j.row.None? || j.row.value.state in {New, CrawlFailed} }

  /** Where a crawl with this status ends. */
  predicate LandsAt(status: string, s: JobState) {
    match s
    case Crawled => status == "crawled"
    case CrawledWarn => status == "crawled_warn" || status == "needs_revision"
    case CrawlFailed => status != "crawled" && status != "crawled_warn" && status != "needs_revision"
    case _ => false
  }

  /** The hashes the crawl brought, and where it brought none those the row had. */
  predicate Carries(before: Option<Row>, b: Bundle, row: Row) {
    && row.sourceHtmlSha == (if b.htmlSha.Some? then b.htmlSha
                             else if before.Some? then before.value.sourceHtmlSha else None)
    && row.sourceTextSha == (if b.textSha.Some? then b.textSha
                             else if before.Some? then before.value.sourceTextSha else None)
  }

  /** Stage 1 runs exactly on jobs with no bundle to clobber; it never leaves one at NEW unless
      the crawler raised, and a job with a bundle is refused before anything is touched. */
  lemma Stage1Outcome(j: Job, crawl: Option<Result<Bundle, Error>>, ts: string)
    ensures var (k, r) := Stage1On(j, crawl, ts);
            && (r.Ok? <==> Crawlable(j) && crawl.Some? && crawl.value.Ok?)
            && (r.Ok? ==> k.row == Some(r.value) && LandsAt(crawl.value.value.status, r.value.state)
                          && r.value.updatedAt == ts && Carries(j.row, crawl.value.value, r.value))
            && (!Crawlable(j) || crawl.None? ==> k == j && r == Err(InvalidInput))
            && (Crawlable(j) && crawl.Some? && crawl.value.Err? ==>
                  r == Err(crawl.value.error) && k.row.Some? && k.row.value.state == New)
            && k.files == j.files
  {
  }

  /** And it keeps the recorded states a run of the table. */
  lemma Stage1KeepsSound(j: Job, crawl: Option<Result<Bundle, Error>>, ts: string)
    ensures Sound(j) ==> Sound(Stage1On(j, crawl, ts).0)
  {
    var k := Stage1On(j, crawl, ts).0;
    if Sound(j) && Crawlable(j) && crawl.Some? {
      var ready := Readied(j, ts).value;
      if j.row.Some? && j.row.value.state == CrawlFailed { PathGrows(j.history, New); }
      assert Sound(ready);
      if crawl.value.Ok? { PathGrows(ready.history, CrawlTarget(crawl.value.value.status)); }
    }
  }
}
