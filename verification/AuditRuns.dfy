/** What the waits of the dashboard are: the trail as operations on many jobs really write it,
    their events interleaved and each operation cut short anywhere by the death of its process,
    read back by the reduction. */
module AuditRuns {
  import opened Wrappers
  import opened JobState
  import opened JobStore
  import opened AuditTrail
  import opened Pipeline
  import opened Signoff
  import opened FreezeRuns
  import opened Collect
  import opened DraftLinter
  import opened ReviewPacket
  import opened Drafts
  import A = AuditAggregate
  import Seqs

  /** One event, and which operation wrote it. */
  datatype Entry = Entry(event: Event, call: nat)

  /** The operation under way on a job: what it would write in all, and how much it wrote. */
  datatype Progress = Progress(call: nat, events: seq<Event>, done: nat)

  datatype World = World(trail: seq<Entry>, acts: seq<Act>, open: map<JobId, Progress>)

  /** An operation starts on a job (the one before it ended or died), or writes its next event. */
  datatype Step = Begin(id: JobId, on: Records, act: Act, writes: seq<Event>) | Write(id: JobId)

  predicate Enabled(h: Hasher, s: World, step: Step) {
    match step
    case Begin(id, on, act, writes) => Effect(h, id, on, act).0.events == on.events + writes
    case Write(id) => id in s.open && s.open[id].done < |s.open[id].events|
  }

  function Next(h: Hasher, s: World, step: Step): World
    requires Enabled(h, s, step)
  {
    match step
    case Begin(id, _, act, writes) => Begun(s, id, act, writes)
    case Write(id) => Written(s, id)
  }

  const START := World([], [], map[])

  ghost predicate IsRun(h: Hasher, states: seq<World>, steps: seq<Step>) {
    && |states| == |steps| + 1 && states[0] == START
    && forall i :: 0 <= i < |steps| ==> Follows(h, states, steps, i)
  }

  ghost predicate Follows(h: Hasher, states: seq<World>, steps: seq<Step>, i: nat)
    requires i < |steps| && i + 1 < |states|
  {
    Enabled(h, states[i], steps[i]) && states[i + 1] == Next(h, states[i], steps[i])
  }

  // --- what one operation writes ---

  ghost predicate StartsAtRisk(es: seq<Event>) {
    forall l :: 0 <= l < |es| && es[l].GateRun? && es[l].gate != RiskGate ==> exists k :: 0 <= k < l && es[k].GateRun?
  }

  ghost predicate Climbs(es: seq<Event>) {
    forall k, l :: 0 <= k < l < |es| && es[k].GateRun? && es[l].GateRun? ==> Turn(es[k].gate) < Turn(es[l].gate)
  }

  /** Only runs and re-lints write gate events. */
  predicate MayWrite(act: Act, e: Event) { e.GateRun? ==> act.Process? || (act.Resolve? && e.gate == LintGate) }

  ghost predicate Proper(id: JobId, act: Act, es: seq<Event>) {
    && (forall k :: 0 <= k < |es| ==> es[k].job == id && MayWrite(act, es[k]))
    && Climbs(es)
    && (act.Process? ==> StartsAtRisk(es))
  }

  lemma RunIsProper(entry: seq<Event>, tail: seq<Event>, id: JobId, act: Act)
    requires act.Process? && InTurn(id, tail, 0) && (tail != [] ==> tail[0].gate == RiskGate)
    requires entry == [] || (|entry| == 1 && entry[0].Interrupted? && entry[0].job == id)
    ensures Proper(id, act, entry + tail)
  {
    var es := entry + tail;
    forall l | 0 <= l < |es| && es[l].GateRun? && es[l].gate != RiskGate
      ensures exists k :: 0 <= k < l && es[k].GateRun?
    {
      assert es[|entry|] == tail[0];
    }
  }

  lemma ProcessIsProper(env: Env, w: Records, id: JobId, run: Run, writes: seq<Event>)
    requires ProcessOn(env, w, id, run).0.events == w.events + writes
    ensures Proper(id, Process(env, run), writes)
  {
    var entry, tail := RunStartsAtRisk(env, w, id, run);
    SameTail(w.events, writes, entry, tail);
    RunIsProper(entry, tail, id, Process(env, run));
  }

  lemma SameTail(before: seq<Event>, writes: seq<Event>, entry: seq<Event>, tail: seq<Event>)
    requires before + writes == before + entry + tail
    ensures writes == entry + tail
  {
    assert before + writes == before + (entry + tail);
    assert (before + writes)[|before|..] == writes;
  }

  lemma Wrote(before: seq<Event>, writes: seq<Event>, more: seq<Event>)
    requires before + writes == before + more
    ensures writes == more
  {
    assert (before + writes)[|before|..] == writes;
    assert (before + more)[|before|..] == more;
  }

  lemma ResolveWrites(w: Records, seen: Option<Row>, verdict: Option<bool>, id: JobId, who: string, ask: Ask,
                      ts: string)
      returns (more: seq<Event>)
    ensures ResolveSeen(w, seen, verdict, id, who, ask, ts).0.events == w.events + more
    ensures |more| <= 2 && (forall k :: 0 <= k < |more| ==> more[k].job == id)
    ensures |more| > 0 && more[0].GateRun? ==> more[0].gate == LintGate
    ensures |more| > 1 ==> !more[1].GateRun?
  {
    var v := ResolveSeen(w, seen, verdict, id, who, ask, ts).0;
    more := v.events[|w.events|..];
  }

  lemma RejectWrites(w: Records, seen: Option<Row>, id: JobId, who: string, note: string, ts: string)
      returns (more: seq<Event>)
    ensures RejectSeen(w, seen, id, who, note, ts).0.events == w.events + more && Plain(id, more)
  {
    more := RejectSeen(w, seen, id, who, note, ts).0.events[|w.events|..];
  }

  lemma BackfillWrites(w: Records, seen: Option<Row>, id: JobId, who: string, url: string, attested: bool, ts: string)
      returns (more: seq<Event>)
    ensures BackfillSeen(w, seen, id, who, url, attested, ts).0.events == w.events + more && Plain(id, more)
  {
    more := BackfillSeen(w, seen, id, who, url, attested, ts).0.events[|w.events|..];
  }

  lemma SupersedeWrites(w: Records, seen: Option<Row>, id: JobId, newId: Option<JobId>, redline: bool, ts: string)
      returns (more: seq<Event>)
    ensures SupersedeSeen(w, seen, id, newId, redline, ts).0.events == w.events + more && Plain(id, more)
  {
    more := SupersedeSeen(w, seen, id, newId, redline, ts).0.events[|w.events|..];
  }

  lemma BuildWrites(h: Hasher, w: Records, seen: Option<Row>, id: JobId, d: Draft, c: CoverChoice, ts: string)
      returns (more: seq<Event>)
    ensures BuildSeen(h, w, seen, id, d, c, ts).0.events == w.events + more && Plain(id, more)
  {
    more := BuildSeen(h, w, seen, id, d, c, ts).0.events[|w.events|..];
  }

  lemma ApproveWrites(h: Hasher, w: Records, id: JobId, who: string, passed: Option<Draft>, ts: string)
      returns (more: seq<Event>)
    ensures ApproveOn(h, w, id, who, passed, ts).0.events == w.events + more && Plain(id, more)
  {
    more := ApproveOn(h, w, id, who, passed, ts).0.events[|w.events|..];
  }

  /** Events of this job, none of them of a gate. */
  ghost predicate Plain(id: JobId, es: seq<Event>) {
    forall k :: 0 <= k < |es| ==> es[k].job == id && !es[k].GateRun?
  }

  lemma PlainActs(h: Hasher, id: JobId, w: Records, act: Act) returns (more: seq<Event>)
    requires !act.Process? && !act.Resolve?
    ensures Effect(h, id, w, act).0.events == w.events + more && Plain(id, more)
  {
    more := [];
    assert w.events + more == w.events;
    match act {
      case Build(seen, d, c, ts) => more := BuildWrites(h, w, seen, id, d, c, ts);
      case Approve(who, passed, ts) => more := ApproveWrites(h, w, id, who, passed, ts);
      case Reject(seen, who, note, ts) => more := RejectWrites(w, seen, id, who, note, ts);
      case Backfill(seen, who, url, attested, ts) => more := BackfillWrites(w, seen, id, who, url, attested, ts);
      case Supersede(seen, newId, redline, ts) => more := SupersedeWrites(w, seen, id, newId, redline, ts);
      case _ =>
    }
  }

  lemma ResolveIsProper(w: Records, act: Act, verdict: Option<bool>, id: JobId, writes: seq<Event>)
    requires act.Resolve?
    requires ResolveSeen(w, act.seen, verdict, id, act.reviewer, act.ask, act.ts).0.events == w.events + writes
    ensures Proper(id, act, writes)
  {
    var more := ResolveWrites(w, act.seen, verdict, id, act.reviewer, act.ask, act.ts);
    Wrote(w.events, writes, more);
  }

  lemma PlainIsProper(h: Hasher, id: JobId, w: Records, act: Act, writes: seq<Event>)
    requires !act.Process? && !act.Resolve?
    requires Effect(h, id, w, act).0.events == w.events + writes
    ensures Proper(id, act, writes)
  {
    var more := PlainActs(h, id, w, act);
    Wrote(w.events, writes, more);
  }

  lemma EveryActIsProper(h: Hasher, id: JobId, w: Records, act: Act, writes: seq<Event>)
    requires Effect(h, id, w, act).0.events == w.events + writes
    ensures Proper(id, act, writes)
  {
    if act.Process? {
      ProcessIsProper(act.env, w, id, act.run, writes);
    } else if act.Resolve? {
      ResolveIsProper(w, act, Relinted(act.lex, w.job, act.config), id, writes);
    } else {
      PlainIsProper(h, id, w, act, writes);
    }
  }

  // --- what the trail then looks like ---

  predicate GateAt(s: World, id: JobId, n: nat) {
    n < |s.trail| && s.trail[n].event.GateRun? && s.trail[n].event.job == id
  }

  ghost predicate Gated(s: World, id: JobId, call: nat, n: nat) {
    exists m :: 0 <= m < n && GateAt(s, id, m) && s.trail[m].call == call
  }

  /** One job's events come call by call. */
  ghost predicate InCallOrder(s: World) {
    forall m, n :: 0 <= m < n < |s.trail| && s.trail[m].event.job == s.trail[n].event.job ==>
      s.trail[m].call <= s.trail[n].call
  }

  ghost predicate TurnsClimb(s: World) {
    forall id: JobId, m: nat, n: nat ::
      m < n && GateAt(s, id, m) && GateAt(s, id, n) && s.trail[m].call == s.trail[n].call ==>
      Turn(s.trail[m].event.gate) < Turn(s.trail[n].event.gate)
  }

  ghost predicate EntryOk(s: World, n: nat)
    requires n < |s.trail|
  {
    var x := s.trail[n];
    && x.call < |s.acts| && MayWrite(s.acts[x.call], x.event)
    && (x.event.GateRun? && s.acts[x.call].Process? && x.event.gate != RiskGate ==> Gated(s, x.event.job, x.call, n))
  }

  ghost predicate OpenOk(s: World, id: JobId, p: Progress) {
    && p.call < |s.acts| && p.done <= |p.events| && Proper(id, s.acts[p.call], p.events)
    && (forall n :: 0 <= n < |s.trail| && s.trail[n].event.job == id ==> s.trail[n].call <= p.call)
    && (forall n: nat, k: nat ::
          GateAt(s, id, n) && s.trail[n].call == p.call && p.done <= k < |p.events| && p.events[k].GateRun? ==>
          Turn(s.trail[n].event.gate) < Turn(p.events[k].gate))
    && (forall k :: 0 <= k < p.done && p.events[k].GateRun? ==> Gated(s, id, p.call, |s.trail|))
  }

  ghost predicate Inv(s: World) {
    && InCallOrder(s) && TurnsClimb(s)
    && (forall n :: 0 <= n < |s.trail| ==> EntryOk(s, n))
    && (forall id :: id in s.open ==> OpenOk(s, id, s.open[id]))
  }

  lemma SameGates(s: World, t: World, id: JobId, call: nat, n: nat)
    requires s.trail <= t.trail && Gated(s, id, call, n) && n <= |s.trail|
    ensures Gated(t, id, call, n)
  {
    var m :| 0 <= m < n && GateAt(s, id, m) && s.trail[m].call == call;
    assert GateAt(t, id, m) && t.trail[m].call == call;
  }

  lemma EntryStays(s: World, t: World, n: nat)
    requires s.trail <= t.trail && s.acts <= t.acts && n < |s.trail| && EntryOk(s, n)
    ensures EntryOk(t, n)
  {
    var x := s.trail[n];
    if Gated(s, x.event.job, x.call, n) {
      SameGates(s, t, x.event.job, x.call, n);
    }
  }

  function Begun(s: World, id: JobId, act: Act, writes: seq<Event>): World {
    World(s.trail, s.acts + [act], s.open[id := Progress(|s.acts|, writes, 0)])
  }

  lemma BegunOpen(s: World, k: JobId, id: JobId, act: Act, writes: seq<Event>)
    requires Inv(s) && Proper(id, act, writes) && k in Begun(s, id, act, writes).open
    ensures OpenOk(Begun(s, id, act, writes), k, Begun(s, id, act, writes).open[k])
  {
    var t := Begun(s, id, act, writes);
    forall n | 0 <= n < |s.trail| ensures s.trail[n].call < |s.acts| {
      assert EntryOk(s, n);
    }
    if k != id {
      var p := s.open[k];
      assert OpenOk(s, k, p);
      forall j | 0 <= j < p.done && p.events[j].GateRun? ensures Gated(t, k, p.call, |t.trail|) {
        SameGates(s, t, k, p.call, |s.trail|);
      }
      forall n: nat | GateAt(t, k, n) ensures GateAt(s, k, n) {
      }
    }
  }

  lemma BegunKeepsInv(s: World, id: JobId, act: Act, writes: seq<Event>)
    requires Inv(s) && Proper(id, act, writes)
    ensures Inv(Begun(s, id, act, writes))
  {
    var t := Begun(s, id, act, writes);
    forall n | 0 <= n < |t.trail| ensures EntryOk(t, n) {
      EntryStays(s, t, n);
    }
    forall k | k in t.open ensures OpenOk(t, k, t.open[k]) {
      BegunOpen(s, k, id, act, writes);
    }
    forall k: JobId, m: nat, n: nat | m < n && GateAt(t, k, m) && GateAt(t, k, n) && t.trail[m].call == t.trail[n].call
      ensures Turn(t.trail[m].event.gate) < Turn(t.trail[n].event.gate)
    {
      assert GateAt(s, k, m) && GateAt(s, k, n);
    }
  }

  function Written(s: World, id: JobId): World
    requires id in s.open && s.open[id].done < |s.open[id].events|
  {
    var p := s.open[id];
    s.(trail := s.trail + [Entry(p.events[p.done], p.call)], open := s.open[id := p.(done := p.done + 1)])
  }

  lemma WrittenEntry(s: World, id: JobId)
    requires Inv(s) && id in s.open && s.open[id].done < |s.open[id].events|
    ensures EntryOk(Written(s, id), |s.trail|)
  {
    var t, p := Written(s, id), s.open[id];
    assert OpenOk(s, id, p);
    var e := p.events[p.done];
    if e.GateRun? && s.acts[p.call].Process? && e.gate != RiskGate {
      var k :| 0 <= k < p.done && p.events[k].GateRun?;
      SameGates(s, t, id, p.call, |s.trail|);
    }
  }

  lemma WrittenTurns(s: World, id: JobId)
    requires Inv(s) && id in s.open && s.open[id].done < |s.open[id].events|
    ensures TurnsClimb(Written(s, id)) && InCallOrder(Written(s, id))
  {
    var t, p := Written(s, id), s.open[id];
    assert OpenOk(s, id, p);
    forall k: JobId, m: nat, n: nat | m < n && GateAt(t, k, m) && GateAt(t, k, n) && t.trail[m].call == t.trail[n].call
      ensures Turn(t.trail[m].event.gate) < Turn(t.trail[n].event.gate)
    {
      assert GateAt(s, k, m);
      if n < |s.trail| {
        assert GateAt(s, k, n);
      }
    }
  }

  lemma WrittenGated(s: World, id: JobId, k: JobId, j: nat)
    requires Inv(s) && id in s.open && s.open[id].done < |s.open[id].events| && k in s.open
    requires j < Written(s, id).open[k].done && s.open[k].events[j].GateRun?
    ensures Gated(Written(s, id), k, s.open[k].call, |s.trail| + 1)
  {
    var t, p := Written(s, id), s.open[k];
    assert OpenOk(s, k, p);
    if j < p.done {
      SameGates(s, t, k, p.call, |s.trail|);
      assert Gated(t, k, p.call, |s.trail|);
    } else {
      assert GateAt(t, k, |s.trail|);
    }
  }

  lemma WrittenTurn(s: World, id: JobId, k: JobId, n: nat, j: nat)
    requires Inv(s) && id in s.open && s.open[id].done < |s.open[id].events| && k in s.open
    requires var t := Written(s, id);
             var q := t.open[k];
             GateAt(t, k, n) && t.trail[n].call == q.call && q.done <= j < |q.events| && q.events[j].GateRun?
    ensures Turn(Written(s, id).trail[n].event.gate) < Turn(s.open[k].events[j].gate)
  {
    assert OpenOk(s, k, s.open[k]);
    if n < |s.trail| {
      assert GateAt(s, k, n);
    }
  }

  lemma WrittenOpen(s: World, id: JobId, k: JobId)
    requires Inv(s) && id in s.open && s.open[id].done < |s.open[id].events| && k in s.open
    ensures OpenOk(Written(s, id), k, Written(s, id).open[k])
  {
    var t, p := Written(s, id), s.open[k];
    assert OpenOk(s, k, p);
    var q := t.open[k];
    forall j | 0 <= j < q.done && q.events[j].GateRun? ensures Gated(t, k, q.call, |t.trail|) {
      WrittenGated(s, id, k, j);
    }
    forall n: nat, j: nat | GateAt(t, k, n) && t.trail[n].call == q.call && q.done <= j < |q.events|
      && q.events[j].GateRun?
      ensures Turn(t.trail[n].event.gate) < Turn(q.events[j].gate)
    {
      WrittenTurn(s, id, k, n, j);
    }
  }

  lemma WrittenKeepsInv(s: World, id: JobId)
    requires Inv(s) && id in s.open && s.open[id].done < |s.open[id].events|
    ensures Inv(Written(s, id))
  {
    var t := Written(s, id);
    forall n | 0 <= n < |t.trail| ensures EntryOk(t, n) {
      if n < |s.trail| { EntryStays(s, t, n); } else { WrittenEntry(s, id); }
    }
    WrittenTurns(s, id);
    forall k | k in t.open ensures OpenOk(t, k, t.open[k]) {
      WrittenOpen(s, id, k);
    }
  }

  lemma StepKeepsInv(h: Hasher, s: World, step: Step)
    requires Inv(s) && Enabled(h, s, step)
    ensures Inv(Next(h, s, step))
  {
    match step {
      case Begin(id, on, act, writes) =>
        EveryActIsProper(h, id, on, act, writes);
        BegunKeepsInv(s, id, act, writes);
      case Write(id) =>
        WrittenKeepsInv(s, id);
    }
  }

  lemma {:induction false} RunKeepsInv(h: Hasher, states: seq<World>, steps: seq<Step>, n: nat)
    requires IsRun(h, states, steps) && n < |states|
    ensures Inv(states[n])
  {
    if n > 0 {
      RunKeepsInv(h, states, steps, n - 1);
      assert Follows(h, states, steps, n - 1);
      StepKeepsInv(h, states[n - 1], steps[n - 1]);
    }
  }

  // --- the trail as the reduction reads it ---

  /** What a line holds beside the event: when it was written, the status and the reason if it has any. */
  datatype Ink = Ink(time: nat -> string, status: Event -> Option<string>, reason: Event -> Option<string>)

  function GateFor(g: GateName): A.Gate {
    match g
    case RiskGate => A.RiskGate
    case MediaGate => A.MediaGate
    case DedupGate => A.DedupGate
    case GroundingGate => A.GroundingGate
    case LintGate => A.LintGate
  }

  function NameOf(e: Event): string {
    match e
    case GateRun(_, g, _, _, _) =>
      (match g
       case RiskGate => "RISK_GATE"
       case MediaGate => "MEDIA_GATE"
       case DedupGate => "DEDUP_GATE"
       case GroundingGate => "GROUNDING_GATE"
       case LintGate => "LINT_GATE")
    case Interrupted(_, _, _) => "INTERRUPTED_DETECTED"
    case PacketBuilt(_, _, _, _) => "REVIEW_PACKET_BUILT"
    case SignedOff(_, _, _, _, _) => "SIGNOFF_APPROVE"
    case TurnedDown(_, _, _, _, _) => "SIGNOFF_REJECT"
    case Resolved(_, _, _, _, _) => "NHR_RESOLVED"
    case PublishRecorded(_, _, _) => "PUBLISHED_RECORDED"
    case SignoffInvalidated(_, _) => "SIGNOFF_INVALIDATED"
    case SupersededBy(_, _) => "SUPERSEDED"
    case RedlineOverride(_, _, _, _) => "REDLINE_OVERRIDE"
  }

  /** The media gate files its events under the whole stage. */
  function StageOf(e: Event): string {
    match e
    case GateRun(_, g, _, _, _) =>
      (match g
       case RiskGate => "risk"
       case MediaGate => "process"
       case DedupGate => "dedup"
       case GroundingGate => "grounding"
       case LintGate => "lint")
    case Interrupted(_, _, _) => "process"
    case PacketBuilt(_, _, _, _) => "review"
    case _ => "signoff"
  }

  function Line(ink: Ink, n: nat, e: Event): A.Raw {
    A.Object(Some(NameOf(e)), Some(e.job), Some(ink.time(n)), Some(n), Some(StageOf(e)),
             ink.status(e), ink.reason(e))
  }

  function Lines(ink: Ink, trail: seq<Entry>): seq<A.Raw> {
    seq(|trail|, n requires 0 <= n < |trail| => Line(ink, n, trail[n].event))
  }

  function RowAt(ink: Ink, trail: seq<Entry>, n: nat): A.Row
    requires n < |trail| && trail[n].event.GateRun?
  {
    A.Row(n, StageOf(trail[n].event), GateFor(trail[n].event.gate), ink.time(n))
  }

  predicate IsGate(trail: seq<Entry>, id: JobId, n: nat) {
    n < |trail| && trail[n].event.GateRun? && trail[n].event.job == id
  }

  /** The rows of a job in the order of the trail. */
  function Rows(ink: Ink, trail: seq<Entry>, id: JobId, n: nat): seq<A.Row>
    requires n <= |trail|
  {
    if n == 0 then []
    else Rows(ink, trail, id, n - 1) + if IsGate(trail, id, n - 1) then [RowAt(ink, trail, n - 1)] else []
  }

  lemma NameIsGate(e: Event)
    ensures A.GateOf(NameOf(e)) == if e.GateRun? then Some(GateFor(e.gate)) else None
  {
    assert NameOf(e)[0] in {'R', 'M', 'D', 'G', 'L', 'I', 'S', 'N', 'P'};
  }

  /** The line a gate event becomes: each gate under its own name and stage, the media gate under the
      stage of the whole run. */
  lemma GateLine(ink: Ink, n: nat, e: Event)
    requires e.GateRun?
    ensures var (name, stage) := match e.gate
                                 case RiskGate => ("RISK_GATE", "risk")
                                 case MediaGate => ("MEDIA_GATE", "process")
                                 case DedupGate => ("DEDUP_GATE", "dedup")
                                 case GroundingGate => ("GROUNDING_GATE", "grounding")
                                 case LintGate => ("LINT_GATE", "lint");
            Line(ink, n, e) == A.Object(Some(name), Some(e.job), Some(ink.time(n)), Some(n), Some(stage),
                                        ink.status(e), ink.reason(e))
  {
  }

  lemma LineIsRow(ink: Ink, trail: seq<Entry>, id: JobId, n: nat)
    requires n < |trail|
    ensures FlatMap(A.RowsOf(id), A.One(A.HitOf(Line(ink, n, trail[n].event)))) ==
            if IsGate(trail, id, n) then [RowAt(ink, trail, n)] else []
  {
    var e := trail[n].event;
    NameIsGate(e);
    var hit := A.HitOf(Line(ink, n, e));
    if hit.Some? {
      FlatMapOne(A.RowsOf(id), hit.value);
    }
  }

  /** The row of the n-th event, if it is a gate event of the job. */
  function RowFor(ink: Ink, trail: seq<Entry>, id: JobId): nat -> seq<A.Row> {
    (n: nat) => if IsGate(trail, id, n) then [RowAt(ink, trail, n)] else []
  }

  function Gained(gains: nat -> seq<A.Row>, n: nat): seq<A.Row> {
    if n == 0 then [] else Gained(gains, n - 1) + gains(n - 1)
  }

  lemma {:induction false} RowsAreGained(ink: Ink, trail: seq<Entry>, id: JobId, n: nat)
    requires n <= |trail|
    ensures Rows(ink, trail, id, n) == Gained(RowFor(ink, trail, id), n)
  {
    if n > 0 { RowsAreGained(ink, trail, id, n - 1); }
  }

  /** What each line gives. */
  ghost predicate LinesGive(id: JobId, lines: seq<A.Raw>, gains: nat -> seq<A.Row>) {
    forall n :: 0 <= n < |lines| ==> FlatMap(A.RowsOf(id), A.One(A.HitOf(lines[n]))) == gains(n)
  }

  lemma {:induction false} RowsAre(id: JobId, lines: seq<A.Raw>, gains: nat -> seq<A.Row>, n: nat)
    requires LinesGive(id, lines, gains) && n <= |lines|
    ensures A.RowsIn(A.Hits(lines[..n]), id) == Gained(gains, n)
  {
    if n > 0 {
      RowsAre(id, lines, gains, n - 1);
      Seqs.TakeNext(lines, n - 1);
      RowsGain(lines[..n - 1], lines[n - 1], id, gains(n - 1));
    }
  }

  lemma RowsGain(lines: seq<A.Raw>, line: A.Raw, id: JobId, gained: seq<A.Row>)
    requires FlatMap(A.RowsOf(id), A.One(A.HitOf(line))) == gained
    ensures A.RowsIn(A.Hits(lines + [line]), id) == A.RowsIn(A.Hits(lines), id) + gained
  {
    HitsNext(lines, line, id);
  }

  lemma LinesRead(ink: Ink, trail: seq<Entry>, id: JobId)
    ensures A.RowsIn(A.Hits(Lines(ink, trail)), id) == Rows(ink, trail, id, |trail|)
  {
    var lines, gains := Lines(ink, trail), RowFor(ink, trail, id);
    forall n | 0 <= n < |lines| ensures FlatMap(A.RowsOf(id), A.One(A.HitOf(lines[n]))) == gains(n) {
      LineIsRow(ink, trail, id, n);
    }
    RowsAre(id, lines, gains, |lines|);
    RowsAreGained(ink, trail, id, |trail|);
    assert lines[..|lines|] == lines;
  }

  lemma HitsNext(events: seq<A.Raw>, e: A.Raw, id: JobId)
    ensures A.RowsIn(A.Hits(events + [e]), id) ==
            A.RowsIn(A.Hits(events), id) + FlatMap(A.RowsOf(id), A.One(A.HitOf(e)))
  {
    FlatMapNext((x: A.Raw) => A.One(A.HitOf(x)), events, e);
    FlatMapConcat(A.RowsOf(id), A.Hits(events), A.One(A.HitOf(e)));
  }

  ghost predicate IsRowBelow(ink: Ink, trail: seq<Entry>, id: JobId, n: nat, row: A.Row) {
    0 <= row.seqNo < n && IsGate(trail, id, row.seqNo) && row == RowAt(ink, trail, row.seqNo)
  }

  ghost predicate InOrder(rows: seq<A.Row>) {
    forall i, j :: 0 <= i < j < |rows| ==> rows[i].seqNo < rows[j].seqNo
  }

  lemma RowsGrow(ink: Ink, trail: seq<Entry>, id: JobId, n: nat, before: seq<A.Row>)
    requires 0 < n <= |trail| && before == Rows(ink, trail, id, n - 1)
    requires (forall i :: 0 <= i < |before| ==> IsRowBelow(ink, trail, id, n - 1, before[i])) && InOrder(before)
    ensures var rows := Rows(ink, trail, id, n);
            (forall i :: 0 <= i < |rows| ==> IsRowBelow(ink, trail, id, n, rows[i])) && InOrder(rows)
  {
    var rows := Rows(ink, trail, id, n);
    forall i | 0 <= i < |rows| ensures IsRowBelow(ink, trail, id, n, rows[i]) {
      assert i < |before| ==> rows[i] == before[i] && IsRowBelow(ink, trail, id, n - 1, before[i]);
    }
    forall i, j | 0 <= i < j < |rows| ensures rows[i].seqNo < rows[j].seqNo {
      assert rows[i] == before[i] && IsRowBelow(ink, trail, id, n - 1, before[i]);
      assert j < |before| ==> rows[j] == before[j];
    }
  }

  /** The rows are the gate events of the job, each once, in the order of the trail. */
  lemma {:induction false} RowsClimb(ink: Ink, trail: seq<Entry>, id: JobId, n: nat)
    requires n <= |trail|
    ensures var rows := Rows(ink, trail, id, n);
            (forall i :: 0 <= i < |rows| ==> IsRowBelow(ink, trail, id, n, rows[i])) && InOrder(rows)
  {
    if n > 0 {
      RowsClimb(ink, trail, id, n - 1);
      RowsGrow(ink, trail, id, n, Rows(ink, trail, id, n - 1));
    }
  }

  lemma {:induction false} RowsHold(ink: Ink, trail: seq<Entry>, id: JobId, n: nat, m: nat)
    requires m < n <= |trail| && IsGate(trail, id, m)
    ensures exists i :: 0 <= i < |Rows(ink, trail, id, n)| && Rows(ink, trail, id, n)[i].seqNo == m
  {
    var rows := Rows(ink, trail, id, n);
    if m == n - 1 {
      assert rows[|rows| - 1].seqNo == m;
    } else {
      RowsHold(ink, trail, id, n - 1, m);
      var before := Rows(ink, trail, id, n - 1);
      var i :| 0 <= i < |before| && before[i].seqNo == m;
      assert rows[i] == before[i];
    }
  }

  /** The rows the reduction diffs for a job: sorted, they stand as they were written. */
  function Diffed(ink: Ink, trail: seq<Entry>, id: JobId): seq<A.Row> {
    Sort(A.RowLe(), A.RowsIn(A.Hits(Lines(ink, trail)), id))
  }

  lemma LogOrderIsSorted(ink: Ink, trail: seq<Entry>, id: JobId)
    ensures Diffed(ink, trail, id) == Rows(ink, trail, id, |trail|)
  {
    var rows := Rows(ink, trail, id, |trail|);
    LinesRead(ink, trail, id);
    RowsClimb(ink, trail, id, |trail|);
    A.RowsAreOrdered();
    SortFacts(A.RowLe(), rows);
    SortedUnique(A.RowLe(), Sort(A.RowLe(), rows), rows);
  }

  /** Neighbouring rows: two gate events of the job with none between them. */
  ghost predicate Neighbours(trail: seq<Entry>, id: JobId, a: nat, b: nat) {
    && a < b && IsGate(trail, id, a) && IsGate(trail, id, b)
    && forall m :: a < m < b ==> !IsGate(trail, id, m)
  }

  lemma DiffedNeighbours(ink: Ink, trail: seq<Entry>, id: JobId, i: nat) returns (a: nat, b: nat)
    requires 0 < i < |Diffed(ink, trail, id)|
    ensures Neighbours(trail, id, a, b)
    ensures Diffed(ink, trail, id)[i - 1] == RowAt(ink, trail, a) && Diffed(ink, trail, id)[i] == RowAt(ink, trail, b)
  {
    LogOrderIsSorted(ink, trail, id);
    var rows := Rows(ink, trail, id, |trail|);
    RowsClimb(ink, trail, id, |trail|);
    assert IsRowBelow(ink, trail, id, |trail|, rows[i - 1]) && IsRowBelow(ink, trail, id, |trail|, rows[i]);
    a, b := rows[i - 1].seqNo, rows[i].seqNo;
    forall m: nat | IsGate(trail, id, m) ensures m <= a || b <= m {
      RowsHold(ink, trail, id, |trail|, m);
      var k :| 0 <= k < |rows| && rows[k].seqNo == m;
      assert k <= i - 1 || i <= k;
    }
  }

  // --- which waits are reported ---

  /** Two neighbouring gate events of one call advance in turn; the first one of another call is
      at RISK, or is the re-lint of a resolve. */
  lemma NeighboursMeans(s: World, id: JobId, a: nat, b: nat)
    requires Inv(s) && Neighbours(s.trail, id, a, b)
    ensures s.trail[b].call < |s.acts|
    ensures var x, y := s.trail[a], s.trail[b];
            && (x.call == y.call ==> Turn(x.event.gate) < Turn(y.event.gate) && s.acts[y.call].Process?)
            && (x.call != y.call ==>
                  if s.acts[y.call].Resolve? then y.event.gate == LintGate else y.event.gate == RiskGate)
  {
    var x, y := s.trail[a], s.trail[b];
    assert GateAt(s, id, a) && GateAt(s, id, b) && EntryOk(s, a) && EntryOk(s, b);
    if x.call != y.call {
      NothingInBetween(s, id, a, b);
    }
  }

  lemma NothingInBetween(s: World, id: JobId, a: nat, b: nat)
    requires Inv(s) && Neighbours(s.trail, id, a, b) && s.trail[a].call != s.trail[b].call
    ensures !Gated(s, id, s.trail[b].call, b)
  {
    forall m: nat | m < b && GateAt(s, id, m) ensures s.trail[m].call <= s.trail[a].call {
      assert IsGate(s.trail, id, m) && m <= a;
    }
  }

  lemma ReportedNeighbours(s: World, clock: A.Clock, ink: Ink, id: JobId, a: nat, b: nat)
    requires Inv(s) && Neighbours(s.trail, id, a, b) && clock(ink.time(a)).Some? && clock(ink.time(b)).Some?
    ensures s.trail[b].call < |s.acts|
    ensures var x, y := s.trail[a], s.trail[b];
            A.GapBetween(clock, id, RowAt(ink, s.trail, a), RowAt(ink, s.trail, b)).Some? <==>
            if x.call == y.call then !(x.event.gate == MediaGate && y.event.gate == DedupGate)
            else s.acts[y.call].Resolve? && x.event.gate != LintGate
  {
    NeighboursMeans(s, id, a, b);
  }

  /** Which waits the dashboard shows, in every run: of two neighbouring gate events of a job with
      known times, the wait is reported exactly if they stem from one run and are not media and
      then dedup, or if the later one is the re-lint of a resolve and the earlier one no lint. */
  lemma GapsExactly(h: Hasher, clock: A.Clock, ink: Ink, states: seq<World>, steps: seq<Step>, n: nat, id: JobId,
                    i: nat)
      returns (a: nat, b: nat)
    requires IsRun(h, states, steps) && n < |states|
    requires var rows := Diffed(ink, states[n].trail, id);
             0 < i < |rows| && clock(rows[i - 1].ts).Some? && clock(rows[i].ts).Some?
    ensures Neighbours(states[n].trail, id, a, b) && states[n].trail[b].call < |states[n].acts|
    ensures var rows := Diffed(ink, states[n].trail, id);
            rows[i - 1] == RowAt(ink, states[n].trail, a) && rows[i] == RowAt(ink, states[n].trail, b)
    ensures var x, y := states[n].trail[a], states[n].trail[b];
            A.Reported(clock, id, Diffed(ink, states[n].trail, id), i) <==>
            if x.call == y.call then !(x.event.gate == MediaGate && y.event.gate == DedupGate)
            else states[n].acts[y.call].Resolve? && x.event.gate != LintGate
  {
    RunKeepsInv(h, states, steps, n);
    a, b := DiffedNeighbours(ink, states[n].trail, id, i);
    ReportedNeighbours(states[n], clock, ink, id, a, b);
  }

  lemma GapIsReported(clock: A.Clock, ink: Ink, trail: seq<Entry>, gap: A.Gap) returns (i: nat)
    requires gap in A.SummaryOf(clock, A.Hits(Lines(ink, trail))).gaps
    ensures var rows := Diffed(ink, trail, gap.job);
            A.Reported(clock, gap.job, rows, i) && A.GapBetween(clock, gap.job, rows[i - 1], rows[i]) == Some(gap)
  {
    i := A.GapInSummary(clock, A.Hits(Lines(ink, trail)), gap);
  }

  lemma GapIsOneRun(s: World, clock: A.Clock, ink: Ink, gap: A.Gap) returns (a: nat, b: nat)
    requires Inv(s) && gap in A.SummaryOf(clock, A.Hits(Lines(ink, s.trail))).gaps
    ensures Neighbours(s.trail, gap.job, a, b) && s.trail[b].call < |s.acts|
    ensures A.GapBetween(clock, gap.job, RowAt(ink, s.trail, a), RowAt(ink, s.trail, b)) == Some(gap)
    ensures SameRun(s, a, b) || AtRelint(s, a, b)
  {
    var i := GapIsReported(clock, ink, s.trail, gap);
    a, b := DiffedNeighbours(ink, s.trail, gap.job, i);
    NeighboursMeans(s, gap.job, a, b);
  }

  /** Two gate events that one run wrote. */
  ghost predicate SameRun(s: World, a: nat, b: nat)
    requires a < |s.trail| && b < |s.trail| && s.trail[b].call < |s.acts|
  {
    s.trail[a].call == s.trail[b].call && s.acts[s.trail[b].call].Process?
  }

  /** The later one is the re-lint of a resolve, the earlier one somebody else's. */
  ghost predicate AtRelint(s: World, a: nat, b: nat)
    requires a < |s.trail| && b < |s.trail| && s.trail[b].call < |s.acts|
  {
    && s.trail[a].call != s.trail[b].call && s.acts[s.trail[b].call].Resolve?
    && s.trail[b].event.GateRun? && s.trail[b].event.gate == LintGate
  }

  /** So every wait in the summary lies within one run, but for those that end in the re-lint of
      a resolve: these hold the time an operator took to decide. */
  lemma EveryGapIsOneRun(h: Hasher, clock: A.Clock, ink: Ink, states: seq<World>, steps: seq<Step>, n: nat, gap: A.Gap)
      returns (a: nat, b: nat)
    requires IsRun(h, states, steps) && n < |states|
    requires gap in A.SummaryOf(clock, A.Hits(Lines(ink, states[n].trail))).gaps
    ensures Neighbours(states[n].trail, gap.job, a, b) && states[n].trail[b].call < |states[n].acts|
    ensures A.GapBetween(clock, gap.job, RowAt(ink, states[n].trail, a), RowAt(ink, states[n].trail, b)) == Some(gap)
    ensures SameRun(states[n], a, b) || AtRelint(states[n], a, b)
  {
    RunKeepsInv(h, states, steps, n);
    a, b := GapIsOneRun(states[n], clock, ink, gap);
  }

  /** A resolve that lints again. */
  ghost predicate IsRelint(on: Records, act: Act) {
    && act.Resolve? && act.seen.Some? && act.seen == on.job.row && IsAt(on.job, NeedsHumanReview)
    && Relints(act.seen.value, act.ask) && on.job.files.draft.Some? && act.config.Ok?
  }

  lemma RelintWrites(h: Hasher, id: JobId, on: Records, act: Act) returns (writes: seq<Event>)
    requires IsRelint(on, act)
    ensures Effect(h, id, on, act).0.events == on.events + writes
    ensures writes != [] && writes[0].GateRun? && writes[0].gate == LintGate && writes[0].job == id
  {
    var verdict := Relinted(act.lex, on.job, act.config).value;
    writes := SeenRelintWrites(on, act.seen.value, verdict, id, act.reviewer, act.ask, act.ts);
  }

  lemma SeenRelintWrites(w: Records, seen: Row, verdict: bool, id: JobId, who: string, ask: Ask, ts: string)
      returns (writes: seq<Event>)
    requires seen.state == NeedsHumanReview && Relints(seen, ask)
    ensures ResolveSeen(w, Some(seen), Some(verdict), id, who, ask, ts).0.events == w.events + writes
    ensures writes != [] && writes[0] == GateRun(id, LintGate, verdict, None, [])
  {
    var after := ResolveSeen(w, Some(seen), Some(verdict), id, who, ask, ts).0;
    writes := after.events[|w.events|..];
  }

  /** A gap between two neighbouring gate events is in the summary. */
  lemma NeighboursInSummary(clock: A.Clock, ink: Ink, trail: seq<Entry>, id: JobId, a: nat, b: nat)
    requires Neighbours(trail, id, a, b)
    requires A.GapBetween(clock, id, RowAt(ink, trail, a), RowAt(ink, trail, b)).Some?
    ensures A.GapBetween(clock, id, RowAt(ink, trail, a), RowAt(ink, trail, b)).value in
            A.SummaryOf(clock, A.Hits(Lines(ink, trail))).gaps
  {
    var gap := A.GapBetween(clock, id, RowAt(ink, trail, a), RowAt(ink, trail, b)).value;
    var i := NextRow(ink, trail, id, a, b);
    LogOrderIsSorted(ink, trail, id);
    LinesRead(ink, trail, id);
    A.ReportedInSummary(clock, A.Hits(Lines(ink, trail)), id, i, gap);
  }

  /** The rows of neighbouring gate events are neighbours. */
  lemma NextRow(ink: Ink, trail: seq<Entry>, id: JobId, a: nat, b: nat) returns (i: nat)
    requires Neighbours(trail, id, a, b)
    ensures var rows := Rows(ink, trail, id, |trail|);
            0 < i < |rows| && rows[i - 1] == RowAt(ink, trail, a) && rows[i] == RowAt(ink, trail, b)
  {
    var rows := Rows(ink, trail, id, |trail|);
    RowsClimb(ink, trail, id, |trail|);
    RowsHold(ink, trail, id, |trail|, a);
    RowsHold(ink, trail, id, |trail|, b);
    var j :| 0 <= j < |rows| && rows[j].seqNo == a;
    var k :| 0 <= k < |rows| && rows[k].seqNo == b;
    assert IsRowBelow(ink, trail, id, |trail|, rows[j]) && IsRowBelow(ink, trail, id, |trail|, rows[k]);
    assert j < k;
    assert IsRowBelow(ink, trail, id, |trail|, rows[j + 1]);
    assert rows[j + 1].seqNo <= a || b <= rows[j + 1].seqNo;
    i := k;
  }

  /** Such waits are there: whatever was run before, a re-lint whose job was last stopped at
      GROUNDING adds one to the summary, with the seconds from that stop to the re-lint. */
  lemma RelintWaitIsReported(h: Hasher, s: World, clock: A.Clock, ink: Ink, id: JobId, a: nat, on: Records, act: Act)
      returns (begin: Step, t: World)
    requires Inv(s) && IsGate(s.trail, id, a) && s.trail[a].event.gate == GroundingGate
    requires forall m :: a < m < |s.trail| ==> !IsGate(s.trail, id, m)
    requires IsRelint(on, act)
    requires clock(ink.time(a)).Some? && clock(ink.time(|s.trail|)).Some?
    ensures begin.Begin? && begin.on == on && begin.act == act && begin.id == id && Enabled(h, s, begin)
    ensures Enabled(h, Next(h, s, begin), Write(id)) && t == Next(h, Next(h, s, begin), Write(id))
    ensures Neighbours(t.trail, id, a, |s.trail|) && t.trail[|s.trail|].call < |t.acts| && AtRelint(t, a, |s.trail|)
    ensures A.Gap(id, "grounding", "lint", A.Wait(clock(ink.time(a)).value, clock(ink.time(|s.trail|)).value)) in
            A.SummaryOf(clock, A.Hits(Lines(ink, t.trail))).gaps
  {
    var writes := RelintWrites(h, id, on, act);
    begin := Begin(id, on, act, writes);
    EveryActIsProper(h, id, on, act, writes);
    t := RelintLands(s, clock, ink, id, a, act, writes);
    NeighboursInSummary(clock, ink, t.trail, id, a, |s.trail|);
  }

  lemma RelintLands(s: World, clock: A.Clock, ink: Ink, id: JobId, a: nat, act: Act, writes: seq<Event>)
      returns (t: World)
    requires Inv(s) && IsGate(s.trail, id, a) && s.trail[a].event.gate == GroundingGate
    requires forall m :: a < m < |s.trail| ==> !IsGate(s.trail, id, m)
    requires act.Resolve? && Proper(id, act, writes) && writes != [] && writes[0].GateRun? && writes[0].gate == LintGate
    requires clock(ink.time(a)).Some? && clock(ink.time(|s.trail|)).Some?
    ensures t == Written(Begun(s, id, act, writes), id)
    ensures Neighbours(t.trail, id, a, |s.trail|) && t.trail[|s.trail|].call < |t.acts| && AtRelint(t, a, |s.trail|)
    ensures A.GapBetween(clock, id, RowAt(ink, t.trail, a), RowAt(ink, t.trail, |s.trail|)) ==
            Some(A.Gap(id, "grounding", "lint", A.Wait(clock(ink.time(a)).value, clock(ink.time(|s.trail|)).value)))
  {
    t := RelintWritten(s, id, a, act, writes);
    RelintIsNeighbour(s, t, id, a);
    assert EntryOk(s, a);
    RelintGap(t, clock, ink, id, a, |s.trail|);
  }

  lemma RelintGap(t: World, clock: A.Clock, ink: Ink, id: JobId, a: nat, b: nat)
    requires a < |t.trail| && t.trail[a].event.GateRun? && t.trail[a].event.gate == GroundingGate
    requires b < |t.trail| && t.trail[b].event.GateRun? && t.trail[b].event.gate == LintGate
    requires clock(ink.time(a)).Some? && clock(ink.time(b)).Some?
    ensures A.GapBetween(clock, id, RowAt(ink, t.trail, a), RowAt(ink, t.trail, b)) ==
            Some(A.Gap(id, "grounding", "lint", A.Wait(clock(ink.time(a)).value, clock(ink.time(b)).value)))
  {
  }

  lemma RelintWritten(s: World, id: JobId, a: nat, act: Act, writes: seq<Event>) returns (t: World)
    requires Inv(s) && Proper(id, act, writes) && writes != []
    ensures t == Written(Begun(s, id, act, writes), id) && Inv(t)
    ensures t.acts == s.acts + [act] && t.trail == s.trail + [Entry(writes[0], |s.acts|)]
  {
    var u := Begun(s, id, act, writes);
    BegunKeepsInv(s, id, act, writes);
    WrittenKeepsInv(u, id);
    t := Written(u, id);
  }

  lemma RelintIsNeighbour(s: World, t: World, id: JobId, a: nat)
    requires IsGate(s.trail, id, a) && |t.trail| == |s.trail| + 1 && s.trail <= t.trail
             && IsGate(t.trail, id, |s.trail|)
    requires forall m :: a < m < |s.trail| ==> !IsGate(s.trail, id, m)
    ensures Neighbours(t.trail, id, a, |s.trail|)
  {
    forall m | a < m < |s.trail| ensures !IsGate(t.trail, id, m) {
      assert !IsGate(s.trail, id, m);
    }
  }
}
