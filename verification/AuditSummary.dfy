/** What every number of the dashboard counts, said on the lines that were read. */
module AuditSummary {
  import opened Wrappers
  import opened Collect
  import opened AuditAggregate
  import Seqs

  /** The jobs some line counts for at this gate, and those some line counts for as stopped. */
  ghost predicate AreReached(events: seq<Raw>, g: Gate, jobs: set<string>) {
    forall job :: job in jobs <==> exists e :: e in events && Counts(e, g, job)
  }

  ghost predicate AreStopped(events: seq<Raw>, g: Gate, jobs: set<string>) {
    forall job :: job in jobs <==> exists e :: e in events && Counts(e, g, job) && !Passed(g, e.status)
  }

  /** A gate is listed exactly when a job reached it, once, with the numbers of distinct jobs that
      reached it and that were stopped at it. */
  lemma GateNumbers(clock: Clock, events: seq<Raw>, g: Gate, jobs: set<string>, stopped: set<string>, stat: GateStat)
    requires AreReached(events, g, jobs) && AreStopped(events, g, stopped) && stat.gate == g
    ensures stat in SummaryOf(clock, Hits(events)).gates <==>
            jobs != {} && stat.reached == |jobs| && stat.intercepted == |stopped|
  {
    var hits := Hits(events);
    var reached, intercepted := ToSet(FlatMap(Reaching(g), hits)), ToSet(FlatMap(Stopped(g), hits));
    forall job ensures (job in reached <==> job in jobs) && (job in intercepted <==> job in stopped) {
      ReachedMeans(events, g, job);
      InterceptedMeans(events, g, job);
    }
    assert reached == jobs && intercepted == stopped;
    ListedGate(hits, g, stat);
  }

  lemma ListedGate(hits: seq<Hit>, g: Gate, stat: GateStat)
    requires stat.gate == g
    ensures stat in StatsOf(hits) <==> stat in StatAt(hits)(g)
  {
    FlatMapHas(StatAt(hits), BY_NAME, stat);
    GateIsListed(g);
  }

  lemma GateIsListed(g: Gate)
    ensures g in BY_NAME
  {
    assert BY_NAME[NameRank(g)] == g;
  }

  // --- jobs a day ---

  /** The first ten characters of a time, or all of a shorter one. */
  ghost predicate FallsOn(ts: string, day: string) {
    day <= ts && (|day| == 10 || (|day| < 10 && day == ts))
  }

  ghost predicate CountsOn(e: Raw, day: string, job: string) {
    exists g :: Counts(e, g, job) && FallsOn(e.ts.value, day)
  }

  ghost predicate AreOnDay(events: seq<Raw>, day: string, jobs: set<string>) {
    forall job :: job in jobs <==> exists e :: e in events && CountsOn(e, day, job)
  }

  lemma DayIs(ts: string, day: string)
    ensures Day(ts) == day <==> FallsOn(ts, day)
  {
  }

  lemma OnDayIs(e: Raw, day: string, job: string)
    ensures job in FlatMap(OnDay(day), One(HitOf(e))) <==> CountsOn(e, day, job)
    ensures day in FlatMap(Days(), One(HitOf(e))) <==> exists j :: CountsOn(e, day, j)
  {
    forall g, j { CountsIs(e, g, j); }
    if HitOf(e).Some? {
      var h := HitOf(e).value;
      DayIs(e.ts.value, day);
      FlatMapOne(OnDay(day), h);
      FlatMapOne(Days(), h);
      FlatMapOne(Reaching(h.gate), h);
      assert Counts(e, h.gate, h.job);
      if h.day == day { assert CountsOn(e, day, h.job); }
    } else {
      forall g, j | Counts(e, g, j) ensures false { NamesDiffer(e.event.value, g); }
    }
  }

  /** A day is listed exactly when some job has a gate event on it, with the number of such jobs. */
  lemma DayNumbers(clock: Clock, events: seq<Raw>, day: string, jobs: set<string>)
    requires AreOnDay(events, day, jobs)
    ensures var daily := SummaryOf(clock, Hits(events)).daily;
            (day in daily <==> jobs != {}) && (day in daily ==> daily[day] == |jobs|)
  {
    forall job ensures job in FlatMap(OnDay(day), Hits(events)) <==> job in jobs {
      FlatMapTwiceHas((e: Raw) => One(HitOf(e)), OnDay(day), events, job);
      forall e { OnDayIs(e, day, job); }
    }
    assert ToSet(FlatMap(OnDay(day), Hits(events))) == jobs;
    FlatMapTwiceHas((e: Raw) => One(HitOf(e)), Days(), events, day);
    forall e { OnDayIs(e, day, ""); }
    AnyOnDay(events, day, jobs);
  }

  lemma AnyOnDay(events: seq<Raw>, day: string, jobs: set<string>)
    requires AreOnDay(events, day, jobs)
    ensures jobs != {} <==> exists e :: e in events && exists j :: CountsOn(e, day, j)
  {
    if jobs != {} {
      var j :| j in jobs;
    }
    if e, j :| e in events && CountsOn(e, day, j) {
      assert j in jobs;
    }
  }

  // --- review reasons ---

  /** A line that counts for some gate and some job and gives this reason, which says something. */
  ghost predicate GivesReason(e: Raw, reason: string) {
    reason != "" && e.Object? && e.reason == Some(reason) && exists g, job :: Counts(e, g, job)
  }

  /** How many lines give it. */
  ghost function Times(events: seq<Raw>, reason: string): nat {
    if events == [] then 0
    else Times(events[..|events| - 1], reason) + if GivesReason(events[|events| - 1], reason) then 1 else 0
  }

  lemma ReasonOfOne(e: Raw, reason: string)
    ensures multiset(FlatMap(Reasons(), One(HitOf(e))))[reason] == if GivesReason(e, reason) then 1 else 0
  {
    if HitOf(e).Some? {
      var h := HitOf(e).value;
      FlatMapOne(Reasons(), h);
      NamesDiffer(e.event.value, h.gate);
      assert Counts(e, h.gate, h.job);
    } else {
      forall g, j | Counts(e, g, j) ensures false { NamesDiffer(e.event.value, g); }
    }
  }

  lemma {:induction false} ReasonsOfAll(events: seq<Raw>, reason: string)
    ensures multiset(FlatMap(Reasons(), Hits(events)))[reason] == Times(events, reason)
  {
    if events != [] {
      var n := |events| - 1;
      assert events == events[..n] + [events[n]];
      ReasonsOfAll(events[..n], reason);
      FlatMapNext((e: Raw) => One(HitOf(e)), events[..n], events[n]);
      FlatMapConcat(Reasons(), Hits(events[..n]), One(HitOf(events[n])));
      ReasonOfOne(events[n], reason);
    }
  }

  /** Every reason is counted as often as a gate event gives it, and an empty one never. */
  lemma ReasonNumbers(clock: Clock, events: seq<Raw>, reason: string)
    ensures SummaryOf(clock, Hits(events)).reasons[reason] == Times(events, reason)
  {
    ReasonsOfAll(events, reason);
  }

  // --- waits ---

  /** Does the second gate stand behind the first in the dashboard's order? */
  predicate Behind(a: Gate, b: Gate) {
    match a
    case RiskGate => b != RiskGate
    case DedupGate => b in {MediaGate, GroundingGate, LintGate}
    case MediaGate => b in {GroundingGate, LintGate}
    case GroundingGate => b == LintGate
    case LintGate => false
  }

  /** Two neighbouring rows give a wait exactly when the gate advances and both times are known: from
      stage to stage, the time between them, none if it is negative. */
  lemma GapMeans(clock: Clock, job: string, a: Row, b: Row, gap: Gap)
    ensures GapBetween(clock, job, a, b) == Some(gap) <==>
            && Behind(a.gate, b.gate) && clock(a.ts).Some? && clock(b.ts).Some?
            && gap.job == job && gap.from == a.stage && gap.to == b.stage
            && (if clock(b.ts).value <= clock(a.ts).value then gap.seconds == 0.0
                else gap.seconds == clock(b.ts).value - clock(a.ts).value)
  {
  }

  /** The rows of a job are its gate events that have a number and a stage. */
  lemma RowsMean(events: seq<Raw>, job: string, row: Row)
    ensures row in RowsIn(Hits(events), job) <==>
            exists e :: e in events && Counts(e, row.gate, job)
              && e.seqNo == Some(row.seqNo) && e.stage == Some(row.stage) && e.ts == Some(row.ts)
  {
    FlatMapTwiceHas((e: Raw) => One(HitOf(e)), RowsOf(job), events, row);
    forall e { RowOfOne(e, job, row); }
  }

  lemma RowOfOne(e: Raw, job: string, row: Row)
    ensures row in FlatMap(RowsOf(job), One(HitOf(e))) <==>
            Counts(e, row.gate, job) && e.seqNo == Some(row.seqNo) && e.stage == Some(row.stage) && e.ts == Some(row.ts)
  {
    if HitOf(e).Some? {
      FlatMapOne(RowsOf(job), HitOf(e).value);
      NamesDiffer(e.event.value, row.gate);
    } else if Counts(e, row.gate, job) {
      NamesDiffer(e.event.value, row.gate);
    }
  }
}
