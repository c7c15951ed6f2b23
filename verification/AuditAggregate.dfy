/** The dashboard reduction of the audit log: who reached and who was stopped at each gate, and
    the waits between gates of one job. */
module AuditAggregate {
  import opened Wrappers
  import opened StrOrder
  import opened Collect
  import Seqs

  datatype Gate = RiskGate | DedupGate | MediaGate | GroundingGate | LintGate

  function GateOf(event: string): Option<Gate> {
    if event == "RISK_GATE" then Some(RiskGate)
    else if event == "DEDUP_GATE" then Some(DedupGate)
    else if event == "MEDIA_GATE" then Some(MediaGate)
    else if event == "GROUNDING_GATE" then Some(GroundingGate)
    else if event == "LINT_GATE" then Some(LintGate)
    else None
  }

  /** The event names in string order. */
  const BY_NAME := [DedupGate, GroundingGate, LintGate, MediaGate, RiskGate]

  function NameRank(g: Gate): nat {
    match g case DedupGate => 0 case GroundingGate => 1 case LintGate => 2 case MediaGate => 3 case RiskGate => 4
  }

  function PassStatus(g: Gate): string { if g == DedupGate then "unique" else "pass" }

  /** The order a gap must climb: the table puts dedup before media. */
  function GateOrder(g: Gate): nat {
    match g case RiskGate => 0 case DedupGate => 1 case MediaGate => 2 case GroundingGate => 3 case LintGate => 4
  }

  /** A parsed log line. A field is None when it is missing or of another type. */
  datatype Raw =
    | NotAnObject
    | Object(event: Option<string>, jobId: Option<string>, ts: Option<string>, seqNo: Option<int>,
             stage: Option<string>, status: Option<string>, reason: Option<string>)

  datatype Row = Row(seqNo: int, stage: string, gate: Gate, ts: string)

  /** What the reduction takes from one line. */
  datatype Hit = Hit(gate: Gate, job: string, day: string, stopped: bool, reason: Option<string>, row: Option<Row>)

  function Day(ts: string): string { if |ts| <= 10 then ts else ts[..10] }

  function HitOf(e: Raw): Option<Hit> {
    if e.NotAnObject? || e.event.None? || e.jobId.None? || e.ts.None? then None
    else match GateOf(e.event.value)
      case None => None
      case Some(g) =>
        Some(Hit(g, e.jobId.value, Day(e.ts.value), e.status != Some(PassStatus(g)),
                 if e.reason == Some("") then None else e.reason,
                 if e.seqNo.Some? && e.stage.Some?
                 then Some(Row(e.seqNo.value, e.stage.value, g, e.ts.value)) else None))
  }

  function One<T>(x: Option<T>): seq<T> { if x.Some? then [x.value] else [] }

  function Hits(events: seq<Raw>): seq<Hit> { FlatMap((e: Raw) => One(HitOf(e)), events) }

  function Reaching(g: Gate): Hit -> seq<string> { (h: Hit) => if h.gate == g then [h.job] else [] }

  function Stopped(g: Gate): Hit -> seq<string> { (h: Hit) => if h.gate == g && h.stopped then [h.job] else [] }

  function OnDay(d: string): Hit -> seq<string> { (h: Hit) => if h.day == d then [h.job] else [] }

  function Days(): Hit -> seq<string> { (h: Hit) => [h.day] }

  function Reasons(): Hit -> seq<string> { (h: Hit) => One(h.reason) }

  function RowsOf(job: string): Hit -> seq<Row> { (h: Hit) => if h.job == job then One(h.row) else [] }

  // --- the waits of one job ---

  function RowLe(): (Row, Row) -> bool { (a: Row, b: Row) => Before(a, b) }

  /** Tuple order on (seq, stage, gate, ts). */
  predicate Before(a: Row, b: Row) {
    a.seqNo < b.seqNo || (a.seqNo == b.seqNo &&
    (StrLess(a.stage, b.stage) || (a.stage == b.stage &&
    (NameRank(a.gate) < NameRank(b.gate) || (a.gate == b.gate &&
    (a.ts == b.ts || StrLess(a.ts, b.ts)))))))
  }

  datatype Gap = Gap(job: string, from: string, to: string, seconds: real)

  /** The instant a timestamp denotes, None when it is not one: a parameter of the model. */
  type Clock = string -> Option<real>

  function Wait(a: real, b: real): real { if b - a > 0.0 then b - a else 0.0 }

  /** The gap between two neighbouring rows, when the gate advances and both times are known. */
  function GapBetween(clock: Clock, job: string, a: Row, b: Row): Option<Gap> {
    if GateOrder(b.gate) <= GateOrder(a.gate) || clock(a.ts).None? || clock(b.ts).None? then None
    else Some(Gap(job, a.stage, b.stage, Wait(clock(a.ts).value, clock(b.ts).value)))
  }

  /** The gaps among the first n rows. */
  function GapsAmong(clock: Clock, job: string, rows: seq<Row>, n: nat): seq<Gap>
    requires n <= |rows|
  {
    if n < 2 then []
    else GapsAmong(clock, job, rows, n - 1) + One(GapBetween(clock, job, rows[n - 2], rows[n - 1]))
  }

  function GapsIn(clock: Clock, hits: seq<Hit>): string -> seq<Gap> {
    (job: string) => GapsOfSorted(clock, job, Sort(RowLe(), RowsIn(hits, job)))
  }

  function RowsIn(hits: seq<Hit>, job: string): seq<Row> { FlatMap(RowsOf(job), hits) }

  function GapsOfSorted(clock: Clock, job: string, rows: seq<Row>): seq<Gap> { GapsAmong(clock, job, rows, |rows|) }

  /** The jobs with rows, in order of appearance. */
  function FirstSeen(hits: seq<Hit>): seq<string> {
    if hits == [] then []
    else
      var before, h := FirstSeen(hits[..|hits| - 1]), hits[|hits| - 1];
      if h.row.Some? && h.job !in before then before + [h.job] else before
  }

  // --- the summary ---

  datatype GateStat = GateStat(gate: Gate, reached: nat, intercepted: nat)

  datatype Summary = Summary(gates: seq<GateStat>, reasons: multiset<string>, gaps: seq<Gap>, daily: map<string, nat>)

  function StatOf(g: Gate, reached: set<string>, stopped: set<string>): seq<GateStat> {
    if reached == {} then [] else [GateStat(g, |reached|, |stopped|)]
  }

  function StatAt(hits: seq<Hit>): Gate -> seq<GateStat> {
    (g: Gate) => StatOf(g, ToSet(FlatMap(Reaching(g), hits)), ToSet(FlatMap(Stopped(g), hits)))
  }

  function StatsOf(hits: seq<Hit>): seq<GateStat> { FlatMap(StatAt(hits), BY_NAME) }

  function DailyOf(hits: seq<Hit>): map<string, nat> {
    map d | d in ToSet(FlatMap(Days(), hits)) :: |ToSet(FlatMap(OnDay(d), hits))|
  }

  function SummaryOf(clock: Clock, hits: seq<Hit>): Summary {
    Summary(StatsOf(hits), multiset(FlatMap(Reasons(), hits)),
            FlatMap(GapsIn(clock, hits), FirstSeen(hits)), DailyOf(hits))
  }

  // --- the reduction ---

  ghost predicate Tracks(sets: map<Gate, set<string>>, of: Gate -> (Hit -> seq<string>), done: seq<Hit>) {
    forall g :: g in sets && sets[g] == ToSet(FlatMap(of(g), done))
  }

  lemma ToSetConcat(a: seq<string>, b: seq<string>)
    ensures ToSet(a + b) == ToSet(a) + ToSet(b)
  {
  }

  lemma GateNext(of: Gate -> (Hit -> seq<string>), done: seq<Hit>, h: Hit, g: Gate)
    ensures ToSet(FlatMap(of(g), done + [h])) == ToSet(FlatMap(of(g), done)) + ToSet(of(g)(h))
  {
    FlatMapNext(of(g), done, h);
    ToSetConcat(FlatMap(of(g), done), of(g)(h));
  }

  /** The set of the hit's own gate grows by the job; the others stay. */
  lemma TracksNext(sets: map<Gate, set<string>>, of: Gate -> (Hit -> seq<string>), done: seq<Hit>, h: Hit)
    requires Tracks(sets, of, done) && h.gate in sets
    requires forall g :: of(g)(h) == if g == h.gate then [h.job] else []
    ensures Tracks(sets[h.gate := sets[h.gate] + {h.job}], of, done + [h])
  {
    forall g { GateNext(of, done, h, g); }
  }

  lemma TracksStay(sets: map<Gate, set<string>>, of: Gate -> (Hit -> seq<string>), done: seq<Hit>, h: Hit)
    requires Tracks(sets, of, done)
    requires forall g :: of(g)(h) == []
    ensures Tracks(sets, of, done + [h])
  {
    forall g { GateNext(of, done, h, g); }
  }

  lemma ReachedNext(sets: map<Gate, set<string>>, done: seq<Hit>, h: Hit)
    requires Tracks(sets, Reaching, done)
    ensures h.gate in sets && Tracks(sets[h.gate := sets[h.gate] + {h.job}], Reaching, done + [h])
  {
    TracksNext(sets, Reaching, done, h);
  }

  lemma StoppedNext(sets: map<Gate, set<string>>, done: seq<Hit>, h: Hit)
    requires Tracks(sets, Stopped, done)
    ensures h.gate in sets
    ensures h.stopped ==> Tracks(sets[h.gate := sets[h.gate] + {h.job}], Stopped, done + [h])
    ensures !h.stopped ==> Tracks(sets, Stopped, done + [h])
  {
    if h.stopped { TracksNext(sets, Stopped, done, h); } else { TracksStay(sets, Stopped, done, h); }
  }

  ghost predicate TracksDays(daily: map<string, set<string>>, done: seq<Hit>) {
    && daily.Keys == ToSet(FlatMap(Days(), done))
    && forall d :: d in daily ==> daily[d] == ToSet(FlatMap(OnDay(d), done))
  }

  function WithDay(daily: map<string, set<string>>, h: Hit): map<string, set<string>> {
    daily[h.day := (if h.day in daily then daily[h.day] else {}) + {h.job}]
  }

  lemma OnDayNext(done: seq<Hit>, h: Hit, d: string)
    ensures ToSet(FlatMap(OnDay(d), done + [h])) ==
            ToSet(FlatMap(OnDay(d), done)) + (if h.day == d then {h.job} else {})
  {
    FlatMapNext(OnDay(d), done, h);
    ToSetConcat(FlatMap(OnDay(d), done), OnDay(d)(h));
  }

  lemma DaysNext(daily: map<string, set<string>>, done: seq<Hit>, h: Hit)
    requires TracksDays(daily, done)
    ensures TracksDays(WithDay(daily, h), done + [h])
  {
    FlatMapNext(Days(), done, h);
    ToSetConcat(FlatMap(Days(), done), [h.day]);
    if h.day !in daily { NoneOnDay(done, h.day); }
    forall d { OnDayNext(done, h, d); }
  }

  lemma NoneOnDay(done: seq<Hit>, d: string)
    requires d !in FlatMap(Days(), done)
    ensures ToSet(FlatMap(OnDay(d), done)) == {}
  {
    forall x | x in done ensures OnDay(d)(x) == [] {
      FlatMapHas(Days(), done, x.day);
      assert x.day in Days()(x);
    }
    FlatMapNone(OnDay(d), done);
  }

  /** The dictionary of rows by job, and its insertion order. */
  datatype Book = Book(jobs: seq<string>, rows: map<string, seq<Row>>)

  ghost predicate TracksJobs(book: Book, done: seq<Hit>) {
    && book.jobs == FirstSeen(done)
    && book.rows.Keys == ToSet(book.jobs)
    && forall j :: RowsIn(done, j) == if j in book.rows then book.rows[j] else []
  }

  lemma RowsNext(done: seq<Hit>, h: Hit, job: string)
    ensures RowsIn(done + [h], job) == RowsIn(done, job) + (if job == h.job then One(h.row) else [])
  {
    FlatMapNext(RowsOf(job), done, h);
  }

  lemma FirstSeenNext(done: seq<Hit>, h: Hit)
    ensures FirstSeen(done + [h]) ==
            FirstSeen(done) + (if h.row.Some? && h.job !in FirstSeen(done) then [h.job] else [])
  {
    assert (done + [h])[..|done|] == done;
  }

  function Entered(book: Book, job: string, row: Row): Book {
    if job in book.rows then Book(book.jobs, book.rows[job := book.rows[job] + [row]])
    else Book(book.jobs + [job], book.rows[job := [row]])
  }

  function Kept(book: Book, h: Hit): Book { if h.row.Some? then Entered(book, h.job, h.row.value) else book }

  lemma KeptRows(book: Book, done: seq<Hit>, h: Hit, j: string)
    requires RowsIn(done, j) == if j in book.rows then book.rows[j] else []
    ensures RowsIn(done + [h], j) == if j in Kept(book, h).rows then Kept(book, h).rows[j] else []
  {
    RowsNext(done, h, j);
  }

  lemma JobsNext(book: Book, done: seq<Hit>, h: Hit)
    requires TracksJobs(book, done)
    ensures TracksJobs(Kept(book, h), done + [h])
  {
    forall j ensures RowsIn(done + [h], j) == if j in Kept(book, h).rows then Kept(book, h).rows[j] else [] {
      KeptRows(book, done, h, j);
    }
    KeptJobs(book, done, h);
  }

  lemma KeptJobs(book: Book, done: seq<Hit>, h: Hit)
    requires book.jobs == FirstSeen(done) && book.rows.Keys == ToSet(book.jobs)
    ensures Kept(book, h).jobs == FirstSeen(done + [h]) && Kept(book, h).rows.Keys == ToSet(Kept(book, h).jobs)
  {
    FirstSeenNext(done, h);
    ToSetConcat(book.jobs, [h.job]);
    assert ToSet([h.job]) == {h.job};
    assert h.job in book.rows <==> h.job in book.jobs;
  }

  method AggregateAudit(clock: Clock, events: seq<Raw>) returns (summary: Summary)
    ensures summary == SummaryOf(clock, Hits(events))
  {
    var reached: map<Gate, set<string>> :=
      map[RiskGate := {}, DedupGate := {}, MediaGate := {}, GroundingGate := {}, LintGate := {}];
    var intercepted := reached;
    var reasons: multiset<string> := multiset{};
    var daily: map<string, set<string>> := map[];
    var book := Book([], map[]);
    ghost var done: seq<Hit> := [];
    forall g: Gate ensures g in reached && reached[g] == {} {
      match g { case RiskGate => case DedupGate => case MediaGate => case GroundingGate => case LintGate => }
    }
    for i := 0 to |events|
      invariant done == Hits(events[..i])
      invariant Tracks(reached, Reaching, done) && Tracks(intercepted, Stopped, done)
      invariant reasons == multiset(FlatMap(Reasons(), done))
      invariant TracksDays(daily, done)
      invariant TracksJobs(book, done)
    {
      Seqs.TakeNext(events, i);
      FlatMapNext((e: Raw) => One(HitOf(e)), events[..i], events[i]);
      var hit := HitOf(events[i]);
      if hit.Some? {
        var h := hit.value;
        ReachedNext(reached, done, h);
        StoppedNext(intercepted, done, h);
        FlatMapNext(Reasons(), done, h);
        DaysNext(daily, done, h);
        JobsNext(book, done, h);
        reached := reached[h.gate := reached[h.gate] + {h.job}];
        if h.stopped {
          intercepted := intercepted[h.gate := intercepted[h.gate] + {h.job}];
        }
        if h.reason.Some? {
          reasons := reasons + multiset{h.reason.value};
        }
        daily := WithDay(daily, h);
        if h.row.Some? {
          book := Entered(book, h.job, h.row.value);
        }
        done := done + [h];
      }
    }
    assert events[..|events|] == events;
    var gates := CollectStats(reached, intercepted, BY_NAME, done);
    var gaps := CollectGaps(clock, book, done);
    DailyCounts(daily, done);
    summary := Summary(gates, reasons, gaps, CountsOf(daily));
  }

  function CountsOf(daily: map<string, set<string>>): map<string, nat> { map d | d in daily :: |daily[d]| }

  lemma DailyCounts(daily: map<string, set<string>>, done: seq<Hit>)
    requires TracksDays(daily, done)
    ensures CountsOf(daily) == DailyOf(done)
  {
    forall d ensures d in CountsOf(daily) <==> d in DailyOf(done) {
      assert d in daily <==> d in ToSet(FlatMap(Days(), done));
    }
  }

  method CollectStats(reached: map<Gate, set<string>>, intercepted: map<Gate, set<string>>, gates: seq<Gate>,
                      ghost hits: seq<Hit>)
      returns (stats: seq<GateStat>)
    requires Tracks(reached, Reaching, hits) && Tracks(intercepted, Stopped, hits)
    ensures stats == FlatMap(StatAt(hits), gates)
  {
    stats := [];
    for i := 0 to |gates|
      invariant stats == FlatMap(StatAt(hits), gates[..i])
    {
      var g := gates[i];
      Seqs.TakeNext(gates, i);
      FlatMapNext(StatAt(hits), gates[..i], g);
      if reached[g] != {} {
        stats := stats + [GateStat(g, |reached[g]|, |intercepted[g]|)];
      }
    }
    assert gates[..|gates|] == gates;
  }

  method CollectGaps(clock: Clock, book: Book, ghost hits: seq<Hit>) returns (gaps: seq<Gap>)
    requires TracksJobs(book, hits)
    ensures gaps == FlatMap(GapsIn(clock, hits), FirstSeen(hits))
  {
    gaps := [];
    for i := 0 to |book.jobs|
      invariant gaps == FlatMap(GapsIn(clock, hits), book.jobs[..i])
    {
      var job := book.jobs[i];
      Seqs.TakeNext(book.jobs, i);
      FlatMapNext(GapsIn(clock, hits), book.jobs[..i], job);
      assert job in ToSet(book.jobs);
      var own := GapsOfRows(clock, job, Sort(RowLe(), book.rows[job]));
      JobGaps(clock, book, hits, job);
      gaps := gaps + own;
    }
    assert book.jobs[..|book.jobs|] == book.jobs;
  }

  lemma JobGaps(clock: Clock, book: Book, hits: seq<Hit>, job: string)
    requires TracksJobs(book, hits) && job in book.rows
    ensures GapsIn(clock, hits)(job) == GapsOfSorted(clock, job, Sort(RowLe(), book.rows[job]))
  {
    assert RowsIn(hits, job) == book.rows[job];
  }

  /** Neighbouring rows, one pair after another. */
  method GapsOfRows(clock: Clock, job: string, rows: seq<Row>) returns (gaps: seq<Gap>)
    ensures gaps == GapsOfSorted(clock, job, rows)
  {
    gaps := [];
    if rows == [] { return; }
    for n := 1 to |rows|
      invariant gaps == GapsAmong(clock, job, rows, n)
    {
      var from, to := rows[n - 1], rows[n];
      if GateOrder(to.gate) > GateOrder(from.gate) {
        var a, b := clock(from.ts), clock(to.ts);
        if a.Some? && b.Some? {
          gaps := gaps + [Gap(job, from.stage, to.stage, Wait(a.value, b.value))];
        }
      }
    }
  }

  // --- the order of the events does not matter ---

  lemma BeforeTotal(a: Row, b: Row)
    ensures Before(a, b) || Before(b, a)
    ensures Before(a, b) && Before(b, a) ==> a == b
  {
    StrLessTotal(a.stage, b.stage);
    StrLessTotal(a.ts, b.ts);
    NotBoth(a.stage, b.stage);
    NotBoth(a.ts, b.ts);
  }

  lemma NotBoth(a: string, b: string)
    ensures !(StrLess(a, b) && StrLess(b, a))
  {
    if StrLess(a, b) && StrLess(b, a) {
      StrLessTransitive(a, b, a);
      StrLessIrreflexive(a);
    }
  }

  lemma BeforeTransitive(a: Row, b: Row, c: Row)
    requires Before(a, b) && Before(b, c)
    ensures Before(a, c)
  {
    if StrLess(a.stage, b.stage) && StrLess(b.stage, c.stage) { StrLessTransitive(a.stage, b.stage, c.stage); }
    if StrLess(a.ts, b.ts) && StrLess(b.ts, c.ts) { StrLessTransitive(a.ts, b.ts, c.ts); }
  }

  lemma RowsAreOrdered()
    ensures TotalOrder(RowLe())
  {
    forall a: Row, b: Row ensures RowLe()(a, b) || RowLe()(b, a) ensures RowLe()(a, b) && RowLe()(b, a) ==> a == b {
      BeforeTotal(a, b);
    }
    forall a: Row, b: Row, c: Row | RowLe()(a, b) && RowLe()(b, c) ensures RowLe()(a, c) {
      BeforeTransitive(a, b, c);
    }
  }

  lemma SameContributions(f: Hit -> seq<string>, a: seq<Hit>, b: seq<Hit>)
    requires multiset(a) == multiset(b)
    ensures ToSet(FlatMap(f, a)) == ToSet(FlatMap(f, b))
  {
    FlatMapPermuted(f, a, b);
    SameSet(FlatMap(f, a), FlatMap(f, b));
  }

  lemma SameStats(a: seq<Hit>, b: seq<Hit>, gates: seq<Gate>)
    requires multiset(a) == multiset(b)
    ensures FlatMap(StatAt(a), gates) == FlatMap(StatAt(b), gates)
  {
    forall g: Gate ensures StatAt(a)(g) == StatAt(b)(g) {
      SameContributions(Reaching(g), a, b);
      SameContributions(Stopped(g), a, b);
    }
    FlatMapSame(StatAt(a), StatAt(b), gates);
  }

  lemma SameDaily(a: seq<Hit>, b: seq<Hit>)
    requires multiset(a) == multiset(b)
    ensures DailyOf(a) == DailyOf(b)
  {
    SameContributions(Days(), a, b);
    forall d { SameContributions(OnDay(d), a, b); }
  }

  lemma {:induction false} FirstSeenFacts(hits: seq<Hit>)
    ensures NoRepeats(FirstSeen(hits))
    ensures forall j :: j in FirstSeen(hits) <==> RowsIn(hits, j) != []
    decreases |hits|
  {
    if hits != [] {
      var n := |hits| - 1;
      FirstSeenFacts(hits[..n]);
      assert hits == hits[..n] + [hits[n]];
      forall j { RowsNext(hits[..n], hits[n], j); }
    }
  }

  lemma SameJobs(a: seq<Hit>, b: seq<Hit>)
    requires forall j :: multiset(RowsIn(a, j)) == multiset(RowsIn(b, j))
    ensures multiset(FirstSeen(a)) == multiset(FirstSeen(b))
  {
    FirstSeenFacts(a);
    FirstSeenFacts(b);
    OnceEach(FirstSeen(a));
    OnceEach(FirstSeen(b));
    forall j ensures j in FirstSeen(a) <==> j in FirstSeen(b) {
      assert |multiset(RowsIn(a, j))| == |multiset(RowsIn(b, j))|;
    }
    assert ToSet(FirstSeen(a)) == ToSet(FirstSeen(b));
  }

  lemma SameGaps(clock: Clock, a: seq<Hit>, b: seq<Hit>)
    requires multiset(a) == multiset(b)
    ensures multiset(FlatMap(GapsIn(clock, a), FirstSeen(a))) == multiset(FlatMap(GapsIn(clock, b), FirstSeen(b)))
  {
    RowsAreOrdered();
    forall j ensures multiset(RowsIn(a, j)) == multiset(RowsIn(b, j)) {
      FlatMapPermuted(RowsOf(j), a, b);
    }
    forall j ensures GapsIn(clock, a)(j) == GapsIn(clock, b)(j) {
      SortPermuted(RowLe(), RowsIn(a, j), RowsIn(b, j));
    }
    FlatMapSame(GapsIn(clock, a), GapsIn(clock, b), FirstSeen(a));
    SameJobs(a, b);
    FlatMapPermuted(GapsIn(clock, b), FirstSeen(a), FirstSeen(b));
  }

  /** The summary does not depend on the order of the events, the gaps taken as a bag. */
  lemma OrderDoesNotMatter(clock: Clock, xs: seq<Raw>, ys: seq<Raw>)
    requires multiset(xs) == multiset(ys)
    ensures var s, t := SummaryOf(clock, Hits(xs)), SummaryOf(clock, Hits(ys));
            s.gates == t.gates && s.reasons == t.reasons && s.daily == t.daily && multiset(s.gaps) == multiset(t.gaps)
  {
    var a, b := Hits(xs), Hits(ys);
    FlatMapPermuted((e: Raw) => One(HitOf(e)), xs, ys);
    SameStats(a, b, BY_NAME);
    FlatMapPermuted(Reasons(), a, b);
    SameDaily(a, b);
    SameGaps(clock, a, b);
  }

  // --- what the numbers mean ---

  /** The event name of a gate. */
  predicate IsName(name: string, g: Gate) {
    match g
    case RiskGate => name == "RISK_GATE"
    case DedupGate => name == "DEDUP_GATE"
    case MediaGate => name == "MEDIA_GATE"
    case GroundingGate => name == "GROUNDING_GATE"
    case LintGate => name == "LINT_GATE"
  }

  /** The dedup gate lets a job pass as unique, every other gate as a pass. */
  predicate Passed(g: Gate, status: Option<string>) {
    match g case DedupGate => status == Some("unique") case _ => status == Some("pass")
  }

  /** A line that counts for a gate and a job: a gate event with a job and a time. */
  predicate Counts(e: Raw, g: Gate, job: string) {
    && e.Object? && e.event.Some? && IsName(e.event.value, g)
    && e.jobId == Some(job) && e.ts.Some?
  }

  lemma NamesDiffer(name: string, g: Gate)
    ensures IsName(name, g) <==> GateOf(name) == Some(g)
  {
  }

  lemma CountsIs(e: Raw, g: Gate, job: string)
    ensures job in FlatMap(Reaching(g), One(HitOf(e))) <==> Counts(e, g, job)
    ensures job in FlatMap(Stopped(g), One(HitOf(e))) <==> Counts(e, g, job) && !Passed(g, e.status)
  {
    if e.Object? && e.event.Some? { NamesDiffer(e.event.value, g); }
    if HitOf(e).Some? {
      FlatMapOne(Reaching(g), HitOf(e).value);
      FlatMapOne(Stopped(g), HitOf(e).value);
    }
  }

  /** A job reached a gate exactly when some line counts for the two, and was intercepted there
      exactly when some such line carries another status than the one that passes. */
  lemma ReachedMeans(events: seq<Raw>, g: Gate, job: string)
    ensures job in ToSet(FlatMap(Reaching(g), Hits(events))) <==> exists e :: e in events && Counts(e, g, job)
  {
    FlatMapTwiceHas((e: Raw) => One(HitOf(e)), Reaching(g), events, job);
    forall e { CountsIs(e, g, job); }
  }

  lemma InterceptedMeans(events: seq<Raw>, g: Gate, job: string)
    ensures job in ToSet(FlatMap(Stopped(g), Hits(events))) <==>
            exists e :: e in events && Counts(e, g, job) && !Passed(g, e.status)
  {
    FlatMapTwiceHas((e: Raw) => One(HitOf(e)), Stopped(g), events, job);
    forall e { CountsIs(e, g, job); }
  }

  lemma StoppedReached(hits: seq<Hit>, g: Gate)
    ensures ToSet(FlatMap(Stopped(g), hits)) <= ToSet(FlatMap(Reaching(g), hits))
  {
    forall j | j in FlatMap(Stopped(g), hits) ensures j in FlatMap(Reaching(g), hits) {
      FlatMapHas(Stopped(g), hits, j);
      FlatMapHas(Reaching(g), hits, j);
      var h :| h in hits && j in Stopped(g)(h);
      assert j in Reaching(g)(h);
    }
  }

  lemma StatIsSound(hits: seq<Hit>, gates: seq<Gate>, stat: GateStat)
    requires stat in FlatMap(StatAt(hits), gates)
    ensures stat.intercepted <= stat.reached && stat.reached > 0
  {
    FlatMapHas(StatAt(hits), gates, stat);
    var g :| g in gates && stat in StatAt(hits)(g);
    StoppedReached(hits, g);
    Seqs.SubsetSize(ToSet(FlatMap(Stopped(g), hits)), ToSet(FlatMap(Reaching(g), hits)));
  }

  /** No gate stops more jobs than reached it, and only gates somebody reached are listed. */
  lemma InterceptedAtMostReached(clock: Clock, hits: seq<Hit>, stat: GateStat)
    requires stat in SummaryOf(clock, hits).gates
    ensures stat.intercepted <= stat.reached && stat.reached > 0
  {
    StatIsSound(hits, BY_NAME, stat);
  }

  /** A row was reported as the far end of a gap. */
  predicate Reported(clock: Clock, job: string, rows: seq<Row>, i: nat) {
    0 < i < |rows| && GapBetween(clock, job, rows[i - 1], rows[i]).Some?
  }

  lemma LastGap(clock: Clock, job: string, rows: seq<Row>, n: nat, gap: Gap)
    requires 2 <= n <= |rows|
    ensures gap in GapsAmong(clock, job, rows, n) <==>
            || gap in GapsAmong(clock, job, rows, n - 1)
            || (Reported(clock, job, rows, n - 1) && GapBetween(clock, job, rows[n - 2], rows[n - 1]).value == gap)
  {
    var last := GapBetween(clock, job, rows[n - 2], rows[n - 1]);
    assert gap in One(last) <==> last == Some(gap);
  }

  /** The gaps in the output are exactly the reported neighbours. */
  lemma {:induction false} GapsAreReported(clock: Clock, job: string, rows: seq<Row>, n: nat, gap: Gap)
    requires n <= |rows|
    ensures gap in GapsAmong(clock, job, rows, n) <==>
            exists i :: 0 < i < n && Reported(clock, job, rows, i)
              && GapBetween(clock, job, rows[i - 1], rows[i]).value == gap
    decreases n
  {
    if n >= 2 {
      GapsAreReported(clock, job, rows, n - 1, gap);
      LastGap(clock, job, rows, n, gap);
      if gap in GapsAmong(clock, job, rows, n - 1) {
        var i :| 0 < i < n - 1 && Reported(clock, job, rows, i)
          && GapBetween(clock, job, rows[i - 1], rows[i]).value == gap;
      }
    }
  }

  /** A gap in the summary is one of the reported neighbours of its own job. */
  lemma GapInSummary(clock: Clock, hits: seq<Hit>, gap: Gap) returns (i: nat)
    requires gap in SummaryOf(clock, hits).gaps
    ensures var rows := Sort(RowLe(), RowsIn(hits, gap.job));
            Reported(clock, gap.job, rows, i) && GapBetween(clock, gap.job, rows[i - 1], rows[i]) == Some(gap)
  {
    FlatMapHas(GapsIn(clock, hits), FirstSeen(hits), gap);
    var job :| job in FirstSeen(hits) && gap in GapsIn(clock, hits)(job);
    i := GapAmongRows(clock, job, Sort(RowLe(), RowsIn(hits, job)), gap);
  }

  lemma GapAmongRows(clock: Clock, job: string, rows: seq<Row>, gap: Gap) returns (i: nat)
    requires gap in GapsOfSorted(clock, job, rows)
    ensures gap.job == job && Reported(clock, job, rows, i) && GapBetween(clock, job, rows[i - 1], rows[i]) == Some(gap)
  {
    GapsAreReported(clock, job, rows, |rows|, gap);
    i :| 0 < i < |rows| && Reported(clock, job, rows, i) && GapBetween(clock, job, rows[i - 1], rows[i]).value == gap;
  }

  /** And a pair of neighbours reported for a job is in the summary. */
  lemma ReportedInSummary(clock: Clock, hits: seq<Hit>, job: string, i: nat, gap: Gap)
    requires var rows := Sort(RowLe(), RowsIn(hits, job));
             0 < i < |rows| && GapBetween(clock, job, rows[i - 1], rows[i]) == Some(gap)
    ensures gap in SummaryOf(clock, hits).gaps
  {
    var rows := Sort(RowLe(), RowsIn(hits, job));
    assert Reported(clock, job, rows, i);
    GapsAreReported(clock, job, rows, |rows|, gap);
    assert gap in GapsIn(clock, hits)(job);
    FirstSeenFacts(hits);
    assert job in FirstSeen(hits);
    FlatMapHas(GapsIn(clock, hits), FirstSeen(hits), gap);
  }

  /** The table orders dedup before media, but a run reaches media first: so the wait between
      the two is never reported. */
  lemma MediaToDedupIsLost(clock: Clock, job: string, rows: seq<Row>, i: nat)
    requires 0 < i < |rows| && rows[i - 1].gate == MediaGate && rows[i].gate == DedupGate
    ensures !Reported(clock, job, rows, i)
  {
  }

  // --- how much waiting one job can show ---

  function Total(gaps: seq<Gap>): real {
    if gaps == [] then 0.0 else Total(gaps[..|gaps| - 1]) + gaps[|gaps| - 1].seconds
  }

  /** The known times never run backwards. */
  ghost predicate Forward(clock: Clock, rows: seq<Row>) {
    forall i, j :: 0 <= i < j < |rows| && clock(rows[i].ts).Some? && clock(rows[j].ts).Some? ==>
      clock(rows[i].ts).value <= clock(rows[j].ts).value
  }

  lemma TotalNext(gaps: seq<Gap>, more: Option<Gap>)
    ensures Total(gaps + One(more)) == Total(gaps) + (if more.Some? then more.value.seconds else 0.0)
  {
    if more.Some? {
      assert (gaps + [more.value])[..|gaps|] == gaps;
    } else {
      assert gaps + [] == gaps;
    }
  }

  /** The gaps among the first n rows add up to no more than the time between any known time
      that is not later than all of them and the last known time among them. */
  lemma {:induction false} GapsAddUp(clock: Clock, job: string, rows: seq<Row>, n: nat, start: real, end: real)
    requires n <= |rows| && Forward(clock, rows) && start <= end
    requires forall i :: 0 <= i < n && clock(rows[i].ts).Some? ==> start <= clock(rows[i].ts).value <= end
    ensures 0.0 <= Total(GapsAmong(clock, job, rows, n)) <= end - start
    decreases n
  {
    if n >= 2 {
      var gap := GapBetween(clock, job, rows[n - 2], rows[n - 1]);
      TotalNext(GapsAmong(clock, job, rows, n - 1), gap);
      if gap.Some? {
        GapsAddUp(clock, job, rows, n - 1, start, clock(rows[n - 2].ts).value);
      } else {
        GapsAddUp(clock, job, rows, n - 1, start, end);
      }
    }
  }

  predicate Known(clock: Clock, rows: seq<Row>, i: nat) { i < |rows| && clock(rows[i].ts).Some? }

  /** With known times that never run backwards, the gaps of one job add up to at most the time
      between its first and its last known time. */
  lemma GapsWithinSpan(clock: Clock, hits: seq<Hit>, job: string, first: nat, last: nat)
    requires var rows := Sort(RowLe(), RowsIn(hits, job));
             && Forward(clock, rows) && first <= last && Known(clock, rows, first) && Known(clock, rows, last)
             && forall k: nat :: k < first || last < k ==> !Known(clock, rows, k)
    ensures var rows := Sort(RowLe(), RowsIn(hits, job));
            0.0 <= Total(GapsIn(clock, hits)(job)) <= clock(rows[last].ts).value - clock(rows[first].ts).value
  {
    var rows := Sort(RowLe(), RowsIn(hits, job));
    forall i | 0 <= i < |rows| && clock(rows[i].ts).Some? ensures first <= i <= last {
      assert Known(clock, rows, i);
    }
    GapsAddUp(clock, job, rows, |rows|, clock(rows[first].ts).value, clock(rows[last].ts).value);
  }

  /** With no known time there is no gap to add. */
  lemma NoTimesNoGaps(clock: Clock, hits: seq<Hit>, job: string)
    requires forall k: nat :: !Known(clock, Sort(RowLe(), RowsIn(hits, job)), k)
    ensures Total(GapsIn(clock, hits)(job)) == 0.0
  {
    var rows := Sort(RowLe(), RowsIn(hits, job));
    forall i | 0 <= i < |rows| ensures clock(rows[i].ts).None? {
      assert !Known(clock, rows, i);
    }
    GapsAddUp(clock, job, rows, |rows|, 0.0, 0.0);
  }
}
