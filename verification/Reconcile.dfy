/** The worklist view of interrupted jobs: a read that flags crash leftovers and drops stale
    markers of jobs Stage 2 can never enter again. */
module Reconcile {
  import opened Wrappers
  import opened JobState
  import opened JobStore

  predicate IsMarkerOnlyClear(s: JobState) { IsTerminal(s) || s == Blocked || s == Duplicate }

  datatype InterruptedJob = InterruptedJob(id: JobId, state: JobState, attempts: int, exhausted: bool)

  /** The processes running on the machine; none has a pid below one. */
  predicate Alive(running: set<int>, pid: int) { pid > 0 && pid in running }

  predicate OwnerLives(m: Marker, self: int, running: set<int>) {
    m.Present? && m.pid.Some? && (m.pid.value == self || Alive(running, m.pid.value))
  }

  predicate IsLeftover(j: Job, self: int, running: set<int>) {
    j.files.marker.Present? && !OwnerLives(j.files.marker, self, running)
  }

  /** What the view reports about one listed job, if anything. */
  function Report(id: JobId, state: JobState, j: Job, self: int, running: set<int>, maxAttempts: int)
      : Option<InterruptedJob>
  {
    if IsLeftover(j, self, running) && IsEntry(state)
    then Some(InterruptedJob(id, state, Count(j), Count(j) > maxAttempts))
    else None
  }

  /** What the view leaves of one listed job: the row, the counter and every other file stay. */
  function Viewed(state: JobState, j: Job, self: int, running: set<int>): Job {
    if IsLeftover(j, self, running) && IsMarkerOnlyClear(state) then Marked(j, Absent) else j
  }

  datatype Listed = Listed(id: JobId, state: JobState)

  /** The rows as read in one connection: existing jobs, each once, with their states. */
  ghost predicate IsListing(store: JobStore, rows: seq<Listed>)
    reads store
  {
    && (forall i :: 0 <= i < |rows| ==>
          store.At(rows[i].id).row.Some? && store.At(rows[i].id).row.value.state == rows[i].state)
    && (forall i, j :: 0 <= i < j < |rows| ==> rows[i].id != rows[j].id)
  }

  function Reports(rows: seq<Listed>, at: JobId -> Job, self: int, running: set<int>, maxAttempts: int, n: nat)
      : seq<InterruptedJob>
    requires n <= |rows|
  {
    if n == 0 then []
    else
      var r := rows[n - 1];
      Reports(rows, at, self, running, maxAttempts, n - 1) +
      match Report(r.id, r.state, at(r.id), self, running, maxAttempts) case None => [] case Some(x) => [x]
  }

  /** A job once the first n rows were looked at. */
  function AfterView(rows: seq<Listed>, j: Job, self: int, running: set<int>, n: nat, k: JobId): Job
    requires n <= |rows|
  {
    if n == 0 then j
    else if rows[n - 1].id == k then Viewed(rows[n - 1].state, j, self, running)
    else AfterView(rows, j, self, running, n - 1, k)
  }

  lemma {:induction false} NotYetViewed(rows: seq<Listed>, j: Job, self: int, running: set<int>, n: nat, k: JobId)
    requires n <= |rows| && forall i :: 0 <= i < n ==> rows[i].id != k
    ensures AfterView(rows, j, self, running, n, k) == j
  {
    if n > 0 { NotYetViewed(rows, j, self, running, n - 1, k); }
  }

  lemma {:induction false} OnceViewed(rows: seq<Listed>, j: Job, self: int, running: set<int>, n: nat, i: nat)
    requires i < n <= |rows| && forall x, y :: 0 <= x < y < |rows| ==> rows[x].id != rows[y].id
    ensures AfterView(rows, j, self, running, n, rows[i].id) == Viewed(rows[i].state, j, self, running)
  {
    if i < n - 1 { OnceViewed(rows, j, self, running, n - 1, i); }
  }

  /** One row of the view. */
  method Look(store: JobStore, rec: Listed, self: int, running: set<int>, maxAttempts: int)
      returns (r: Option<InterruptedJob>)
    modifies store
    ensures forall k :: k != rec.id ==> store.At(k) == old(store.At(k))
    ensures r == Report(rec.id, rec.state, old(store.At(rec.id)), self, running, maxAttempts)
    ensures store.At(rec.id) == Viewed(rec.state, old(store.At(rec.id)), self, running)
  {
    r := None;
    var marker := store.At(rec.id).files.marker;
    if marker.Present? && !(marker.pid.Some? && (marker.pid.value == self || Alive(running, marker.pid.value))) {
      if IsEntry(rec.state) {
        var attempts := Count(store.At(rec.id));
        r := Some(InterruptedJob(rec.id, rec.state, attempts, attempts > maxAttempts));
      } else if IsMarkerOnlyClear(rec.state) {
        store.ClearProcessing(rec.id);
      }
    }
  }

  /** The full view: every listed job is looked at once, in listing order. */
  method Reconcile(store: JobStore, rows: seq<Listed>, self: int, running: set<int>, maxAttempts: int,
                   ghost at: JobId -> Job)
      returns (interrupted: seq<InterruptedJob>)
    requires IsListing(store, rows)
    requires forall k :: at(k) == store.At(k)
    modifies store
    ensures interrupted == Reports(rows, at, self, running, maxAttempts, |rows|)
    ensures forall k :: store.At(k) == AfterView(rows, at(k), self, running, |rows|, k)
  {
    interrupted := [];
    for n := 0 to |rows|
      invariant interrupted == Reports(rows, at, self, running, maxAttempts, n)
      invariant forall k :: store.At(k) == AfterView(rows, at(k), self, running, n, k)
    {
      NotYetViewed(rows, at(rows[n].id), self, running, n, rows[n].id);
      var found := Look(store, rows[n], self, running, maxAttempts);
      if found.Some? {
        interrupted := interrupted + [found.value];
      }
    }
  }

  /** The single-job variant reports and leaves what the full view does. */
  method ReconcileOne(store: JobStore, id: JobId, self: int, running: set<int>, maxAttempts: int)
      returns (r: Option<InterruptedJob>)
    modifies store
    ensures forall k :: k != id ==> store.At(k) == old(store.At(k))
    ensures old(store.At(id)).row.None? ==> r.None? && store.At(id) == old(store.At(id))
    ensures old(store.At(id)).row.Some? ==>
              var j := old(store.At(id));
              && r == Report(id, j.row.value.state, j, self, running, maxAttempts)
              && store.At(id) == Viewed(j.row.value.state, j, self, running)
  {
    var rec := store.GetJob(id);
    if rec.None? || store.At(id).files.marker.Absent? { return None; }
    r := Look(store, Listed(id, rec.value.state), self, running, maxAttempts);
  }

  lemma ReportMeans(rows: seq<Listed>, at: JobId -> Job, self: int, running: set<int>, maxAttempts: int, n: nat,
                    x: InterruptedJob)
    requires n <= |rows|
    ensures x in Reports(rows, at, self, running, maxAttempts, n) <==>
            exists i :: 0 <= i < n
              && Report(rows[i].id, rows[i].state, at(rows[i].id), self, running, maxAttempts) == Some(x)
  {
    if n > 0 {
      ReportMeans(rows, at, self, running, maxAttempts, n - 1, x);
      var r := rows[n - 1];
      assert Report(r.id, r.state, at(r.id), self, running, maxAttempts) == Some(x) ==>
             x in Reports(rows, at, self, running, maxAttempts, n);
    }
  }

  /** The marker of a job names a process that may still be at work: this one or a running one. */
  predicate MayWork(j: Job, self: int, running: set<int>) {
    match j.files.marker
    case Present(Some(pid)) => pid == self || (pid > 0 && pid in running)
    case _ => false
  }

  /** A job is reported exactly when it holds a marker no process stands behind and could be run
      again, with the crashes counted and whether they are too many; its marker is dropped exactly
      when it holds such a marker and its state leads nowhere but to SUPERSEDED. */
  lemma ViewExactly(id: JobId, state: JobState, j: Job, self: int, running: set<int>, maxAttempts: int)
    ensures var crashes := match j.files.counter case Some(n) => n case None => 0;
            Report(id, state, j, self, running, maxAttempts) ==
              if j.files.marker.Present? && !MayWork(j, self, running)
                 && (state == Crawled || state == CrawledWarn || state == ProcessFailed || state == NeedsRevision)
              then Some(InterruptedJob(id, state, crashes, crashes > maxAttempts)) else None
    ensures Viewed(state, j, self, running) ==
            if j.files.marker.Present? && !MayWork(j, self, running) && Successors(state) <= {Superseded}
            then j.(files := j.files.(marker := Absent)) else j
  {
    DeadEnds(state);
  }

  lemma DeadEnds(s: JobState)
    ensures IsMarkerOnlyClear(s) <==> Successors(s) <= {Superseded}
  {
    match s
    case New => assert Crawled in Successors(s);
    case CrawlFailed => assert New in Successors(s);
    case Crawled => assert Processing in Successors(s);
    case CrawledWarn => assert Processing in Successors(s);
    case Processing => assert Processed in Successors(s);
    case ProcessFailed => assert Processing in Successors(s);
    case NeedsHumanReview => assert Processed in Successors(s);
    case NeedsRevision => assert Processing in Successors(s);
    case Processed => assert ReviewPending in Successors(s);
    case ReviewPending => assert Approved in Successors(s);
    case Approved => assert PublishedRecorded in Successors(s);
    case _ =>
  }

  /** A view never changes a row, a counter, or any file but a stale marker, and it drops a
      marker only from a job no run can enter again; looking twice shows the same. */
  lemma ViewingIsReading(id: JobId, state: JobState, j: Job, self: int, running: set<int>, maxAttempts: int)
    ensures var k := Viewed(state, j, self, running);
            && k.row == j.row && k.history == j.history
            && k.files.(marker := j.files.marker) == j.files
            && (k != j ==> !OwnerLives(j.files.marker, self, running) && !IsLegal(state, Processing))
            && Report(id, state, k, self, running, maxAttempts) == Report(id, state, j, self, running, maxAttempts)
            && Viewed(state, k, self, running) == k
  {
  }
}
