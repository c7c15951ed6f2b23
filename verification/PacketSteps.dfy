/** Building a review packet step by step: the reading, the cover copy, its hash, the freeze record,
    the transition and the event, with any number of builders and any other operation in between, and
    a death after any of them. */
module PacketSteps {
  import opened Wrappers
  import opened Errors
  import opened Drafts
  import opened JobState
  import opened JobStore
  import opened AuditTrail
  import opened ReviewPacket
  import opened Signoff
  import opened FreezeRuns
  import Pipeline
  import Reconcile
  import Stage1

  /** How far a builder has come. The cover is what it will bind, once it has hashed it. */
  datatype Stage =
    | Opened | Covered(has: bool) | Hashed(cover: Option<string>) | Recorded(cover: Option<string>)
    | Moved(cover: Option<string>)

  datatype Builder = Builder(packet: Draft, choice: CoverChoice, ts: string, stage: Stage)

  /** packed is what the last freeze record was written for. */
  datatype Sys = Sys(office: Office, builders: map<nat, Builder>, packed: Option<Frozen>)

  datatype Step =
    | Open(b: nat, packet: Draft, choice: CoverChoice, ts: string)
    | CopyCover(b: nat)
    | HashCover(b: nat)
    | Record(b: nat)
    | Move(b: nat)
    | Announce(b: nat)
    | Die(b: nat)
    | Other(act: Act)

  predicate Enabled(s: Sys, step: Step) {
    match step
    case Open(b, _, _, _) => b !in s.builders && s.office.rec.job.row.Some?
      && s.office.rec.job.row.value.state == Processed
    case CopyCover(b) => b in s.builders && s.builders[b].stage.Opened?
    case HashCover(b) => b in s.builders && s.builders[b].stage.Covered?
    case Record(b) => b in s.builders && s.builders[b].stage.Hashed?
    case Move(b) => b in s.builders && s.builders[b].stage.Recorded?
    case Announce(b) => b in s.builders && s.builders[b].stage.Moved?
    case Die(b) => b in s.builders
    case Other(act) => !act.Build?
  }

  function Staged(s: Sys, b: nat, stage: Stage): Sys
    requires b in s.builders
  {
    s.(builders := s.builders[b := s.builders[b].(stage := stage)])
  }

  function Ended(s: Sys, b: nat): Sys { s.(builders := s.builders - {b}) }

  function OnJob(s: Sys, j: Job): Sys { s.(office := s.office.(rec := s.office.rec.(job := j))) }

  function Copied(j: Job, cover: Option<string>): Job {
    if cover.Some? then j.(files := j.files.(reviewCover := cover)) else j
  }

  function WithRecord(h: Hasher, j: Job, b: Builder, cover: Option<string>): Job {
    j.(files := j.files.(manifest := Some(Manifest(b.ts, Some(FreezeOf(h, b.packet, cover))))))
  }

  function Next(h: Hasher, id: JobId, s: Sys, step: Step): Sys
    requires Enabled(s, step)
  {
    var j := s.office.rec.job;
    match step
    case Open(b, packet, choice, ts) => s.(builders := s.builders[b := Builder(packet, choice, ts, Opened)])
    case CopyCover(b) =>
      var cover := CoverFile(j, s.builders[b].choice);
      Staged(OnJob(s, Copied(j, cover)), b, Covered(cover.Some?))
    case HashCover(b) =>
      if !s.builders[b].stage.has then Staged(s, b, Hashed(None))
      else if j.files.reviewCover.None? then Ended(s, b)
      else Staged(s, b, Hashed(j.files.reviewCover))
    case Record(b) =>
      var cover := s.builders[b].stage.cover;
      Staged(OnJob(s, WithRecord(h, j, s.builders[b], cover)), b, Recorded(cover)).(
        packed := Some(Frozen(s.builders[b].packet, cover, j.files.draft)))
    case Move(b) =>
      (match StateSet(j, ReviewPending, s.builders[b].ts, None, None)
       case Err(_) => Ended(s, b)
       case Ok(k) =>
         var t := Staged(OnJob(s, k), b, Moved(s.builders[b].stage.cover));
         t.(office := t.office.(frozen := s.packed)))
    case Announce(b) =>
      var x := s.builders[b];
      Ended(s.(office := s.office.(rec := Log(s.office.rec, Announced(h, id, x)))), b)
    case Die(b) => Ended(s, b)
    case Other(act) => s.(office := FreezeRuns.After(h, id, s.office, act))
  }

  function Announced(h: Hasher, id: JobId, x: Builder): Event
    requires x.stage.Moved?
  {
    PacketBuilt(id, BodySha(h, x.packet), TitleSha(h, x.packet), CoverSha(h, x.stage.cover))
  }

  // --- what is never undone ---

  /** PROCESSED and everything behind it. */
  predicate IsLate(s: JobState) { s in {Processed, ReviewPending, Approved, Rejected, Superseded, PublishedRecorded} }

  ghost predicate Late(w: Records) { w.job.row.Some? && IsLate(w.job.row.value.state) }

  lemma CrawlIsRefused(j: Job, b: Option<Result<Stage1.Bundle, Error>>, ts: string)
    requires j.row.Some? && IsLate(j.row.value.state)
    ensures Stage1.Stage1On(j, b, ts).0 == j
  {
  }

  lemma ProcessIsRefused(env: Pipeline.Env, w: Records, id: JobId, run: Pipeline.Run)
    requires Late(w)
    ensures Pipeline.ProcessOn(env, w, id, run).0 == w
  {
    Pipeline.ProcessCommitsOnce(env, w, id, run);
  }

  lemma ApproveIsLate(h: Hasher, w: Records, id: JobId, who: string, passed: Option<Draft>, ts: string)
    requires Late(w)
    ensures var v := ApproveOn(h, w, id, who, passed, ts).0; Late(v) && v.job.files == w.job.files
  {
  }

  lemma DecidedIsLate(w: Records, v: Records, to: JobState)
    requires Late(w) && Decided(w, v, to)
    ensures Late(v) && v.job.files.manifest == w.job.files.manifest
  {
  }

  /** No other operation leads back before PROCESSED, or touches the freeze record from there on. */
  lemma LateStays(h: Hasher, id: JobId, w: Records, act: Act)
    requires Late(w) && !act.Build?
    ensures var v := Effect(h, id, w, act).0; Late(v) && v.job.files.manifest == w.job.files.manifest
  {
    if act.Process? {
      ProcessIsRefused(act.env, w, id, act.run);
    } else if act.Crawl? {
      CrawlIsRefused(w.job, act.bundle, act.ts);
    } else if act.Approve? {
      ApproveIsLate(h, w, id, act.reviewer, act.passed, act.ts);
    } else if IsDecision(act) {
      EveryDecisionDecides(h, id, w, act);
      DecidedIsLate(w, Effect(h, id, w, act).0, Aim(act));
    }
  }

  // --- the invariant ---

  /** A builder has read PROCESSED; what the last record was written for is what is on record. */
  ghost predicate Bound(h: Hasher, s: Sys) {
    && (s.builders != map[] || s.packed.Some? ==> Late(s.office.rec))
    && (forall b :: b in s.builders && (s.builders[b].stage.Recorded? || s.builders[b].stage.Moved?) ==> s.packed.Some?)
    && (s.packed.Some? ==>
          FreezeRecord(s.office.rec.job) == Some(FreezeOf(h, s.packed.value.draft, s.packed.value.cover)))
  }

  ghost predicate Inv(h: Hasher, s: Sys) { s.office.touched && FreezeRuns.Inv(h, s.office) && Bound(h, s) }

  /** The freeze record of a job that is frozen already is written again. */
  ghost predicate Overtakes(s: Sys, step: Step) {
    step.Record? && s.office.rec.job.row.Some? && IsFrozenState(s.office.rec.job.row.value.state)
  }

  lemma OtherKeepsInv(h: Hasher, id: JobId, s: Sys, act: Act)
    requires Collisionless(h) && Inv(h, s) && !act.Build?
    ensures Inv(h, Next(h, id, s, Other(act)))
  {
    ActKeepsInv(h, id, s.office, act);
    LateAfter(h, id, s.office, act);
    OfficeKeepsInv(h, s, FreezeRuns.After(h, id, s.office, act));
  }

  lemma OfficeKeepsInv(h: Hasher, s: Sys, o: Office)
    requires Inv(h, s) && FreezeRuns.Inv(h, o) && o.touched
    requires Late(s.office.rec) ==> Late(o.rec) && o.rec.job.files.manifest == s.office.rec.job.files.manifest
    ensures Inv(h, s.(office := o))
  {
  }

  lemma LateAfter(h: Hasher, id: JobId, o: Office, act: Act)
    requires !act.Build?
    ensures var p := FreezeRuns.After(h, id, o, act);
            && (o.touched ==> p.touched)
            && (Late(o.rec) ==> Late(p.rec) && p.rec.job.files.manifest == o.rec.job.files.manifest)
  {
    OfficeAfter(h, id, o, act);
    if Late(o.rec) {
      LateStays(h, id, o.rec, act);
    }
  }

  lemma OfficeAfter(h: Hasher, id: JobId, o: Office, act: Act)
    requires !act.Build?
    ensures FreezeRuns.After(h, id, o, act).rec == Effect(h, id, o.rec, act).0
            && (o.touched ==> FreezeRuns.After(h, id, o, act).touched)
  {
  }

  /** Opening, hashing, announcing and dying leave the files alone. */
  lemma QuietStepKeepsInv(h: Hasher, id: JobId, s: Sys, step: Step)
    requires Inv(h, s) && Enabled(s, step) && (step.Open? || step.HashCover? || step.Announce? || step.Die?)
    ensures Inv(h, Next(h, id, s, step))
  {
    var t := Next(h, id, s, step);
    assert t.office.rec.job == s.office.rec.job && t.packed == s.packed;
    SameJobKeepsInv(h, s, t);
  }

  lemma SameJobKeepsInv(h: Hasher, s: Sys, t: Sys)
    requires Inv(h, s) && t.office == s.office.(rec := t.office.rec) && t.packed == s.packed
    requires t.office.rec.job == s.office.rec.job
    requires t.builders != map[] ==> Late(s.office.rec)
    requires forall b :: b in t.builders && (t.builders[b].stage.Recorded? || t.builders[b].stage.Moved?) ==>
               b in s.builders && (s.builders[b].stage.Recorded? || s.builders[b].stage.Moved?)
    ensures Inv(h, t)
  {
  }

  lemma CopyKeepsInv(h: Hasher, id: JobId, s: Sys, step: Step)
    requires Inv(h, s) && Enabled(s, step) && step.CopyCover?
    ensures Inv(h, Next(h, id, s, step))
  {
    var cover := CoverFile(s.office.rec.job, s.builders[step.b].choice);
    CoverKeepsOffice(h, s.office, cover);
    assert Next(h, id, s, step) == Staged(OnJob(s, Copied(s.office.rec.job, cover)), step.b, Covered(cover.Some?));
  }

  /** The files of an office that no longer promises them may change. */
  lemma CoverKeepsOffice(h: Hasher, o: Office, cover: Option<string>)
    requires FreezeRuns.Inv(h, o) && o.touched
    ensures FreezeRuns.Inv(h, o.(rec := o.rec.(job := Copied(o.rec.job, cover))))
    ensures FreezeRecord(Copied(o.rec.job, cover)) == FreezeRecord(o.rec.job)
  {
  }

  lemma RecordKeepsInv(h: Hasher, id: JobId, s: Sys, step: Step)
    requires Inv(h, s) && Enabled(s, step) && step.Record? && !Overtakes(s, step)
    ensures Inv(h, Next(h, id, s, step))
  {
  }

  lemma MoveKeepsInv(h: Hasher, id: JobId, s: Sys, step: Step)
    requires Inv(h, s) && Enabled(s, step) && step.Move?
    ensures Inv(h, Next(h, id, s, step))
  {
  }

  lemma StepKeepsInv(h: Hasher, id: JobId, s: Sys, step: Step)
    requires Collisionless(h) && Inv(h, s) && Enabled(s, step) && !Overtakes(s, step)
    ensures Inv(h, Next(h, id, s, step))
  {
    match step {
      case Other(act) => OtherKeepsInv(h, id, s, act);
      case Record(_) => RecordKeepsInv(h, id, s, step);
      case Move(_) => MoveKeepsInv(h, id, s, step);
      case CopyCover(_) => CopyKeepsInv(h, id, s, step);
      case _ => QuietStepKeepsInv(h, id, s, step);
    }
  }

  // --- runs ---

  ghost predicate Start(s: Sys) { Fresh(s.office) && s.office.touched && s.builders == map[] && s.packed.None? }

  ghost predicate IsRun(h: Hasher, id: JobId, states: seq<Sys>, steps: seq<Step>) {
    && |states| == |steps| + 1 && Start(states[0])
    && forall i :: 0 <= i < |steps| ==> Follows(h, id, states, steps, i)
  }

  ghost predicate Follows(h: Hasher, id: JobId, states: seq<Sys>, steps: seq<Step>, i: nat)
    requires i < |steps| && i + 1 < |states|
  {
    Enabled(states[i], steps[i]) && states[i + 1] == Next(h, id, states[i], steps[i])
  }

  /** No record of a frozen job was overtaken so far. */
  ghost predicate InTime(states: seq<Sys>, steps: seq<Step>, n: nat)
    requires n <= |steps| <= |states|
  {
    forall i :: 0 <= i < n ==> !Overtakes(states[i], steps[i])
  }

  lemma {:induction false} RunKeepsInv(h: Hasher, id: JobId, states: seq<Sys>, steps: seq<Step>, n: nat)
    requires Collisionless(h) && IsRun(h, id, states, steps) && n < |states| && InTime(states, steps, n)
    ensures Inv(h, states[n])
  {
    if n > 0 {
      RunKeepsInv(h, id, states, steps, n - 1);
      assert Follows(h, id, states, steps, n - 1);
      StepKeepsInv(h, id, states[n - 1], steps[n - 1]);
    }
  }

  // --- what it means ---

  /** However many builders were at work, and whichever of them died where: an approval goes through
      only for a draft that reads like the one the freeze record in place at the transition was
      written for, with the cover that record bound. */
  lemma ApprovedIsRecorded(h: Hasher, id: JobId, states: seq<Sys>, steps: seq<Step>, n: nat,
                           who: string, passed: Option<Draft>, ts: string)
    requires Collisionless(h) && IsRun(h, id, states, steps) && n < |states| && InTime(states, steps, n)
    requires ApproveOn(h, states[n].office.rec, id, who, passed, ts).1.Ok?
    ensures var o := states[n].office;
            && IsAt(o.rec.job, ReviewPending) && o.frozen.Some? && CheckedDraft(o.rec.job, passed).Some?
            && SameText(o.frozen.value.draft, CheckedDraft(o.rec.job, passed).value)
            && (o.frozen.value.cover.Some? ==> o.rec.job.files.reviewCover == o.frozen.value.cover)
  {
    RunKeepsInv(h, id, states, steps, n);
    var o := states[n].office;
    ApprovesExactlyWhen(h, o.rec, id, who, passed, ts);
    BoundMeansSame(h, o.frozen.value.draft, o.frozen.value.cover, CheckedDraft(o.rec.job, passed).value,
                   o.rec.job.files.reviewCover);
  }

  /** The exception is exact: a record written for a frozen job leaves it as frozen exactly when it
      binds the same. */
  lemma RecordKeepsExactlyWhen(h: Hasher, id: JobId, s: Sys, step: Step)
    requires Inv(h, s) && Enabled(s, step) && Overtakes(s, step)
    ensures s.office.frozen.Some?
    ensures var x := s.builders[step.b];
            Inv(h, Next(h, id, s, step)) <==>
            FreezeOf(h, x.packet, x.stage.cover) ==
            FreezeOf(h, s.office.frozen.value.draft, s.office.frozen.value.cover)
  {
  }

  ghost predicate Steps(h: Hasher, id: JobId, s: Sys, steps: seq<Step>, t: Sys)
    decreases |steps|
  {
    if steps == [] then s == t else Enabled(s, steps[0]) && Steps(h, id, Next(h, id, s, steps[0]), steps[1..], t)
  }

  lemma {:induction false} StepsAndOne(h: Hasher, id: JobId, s: Sys, steps: seq<Step>, t: Sys, step: Step)
    requires Steps(h, id, s, steps, t) && Enabled(t, step)
    ensures Steps(h, id, s, steps + [step], Next(h, id, t, step))
    decreases |steps|
  {
    if steps == [] {
      assert ([] + [step])[1..] == [];
    } else {
      StepsAndOne(h, id, Next(h, id, s, steps[0]), steps[1..], t, step);
      assert (steps + [step])[1..] == steps[1..] + [step];
    }
  }

  /** A builder nobody disturbs, up to its freeze record: the cover copied and bound. */
  lemma Records(h: Hasher, id: JobId, s: Sys, before: seq<Step>, m: Sys, b: nat, d: Draft, c: CoverChoice, ts: string)
      returns (steps: seq<Step>, t: Sys)
    requires Steps(h, id, s, before, m) && IsAt(m.office.rec.job, Processed) && b !in m.builders
    ensures Steps(h, id, s, steps, t)
    ensures var cover := CoverFile(m.office.rec.job, c);
            && t.builders == m.builders[b := Builder(d, c, ts, Recorded(cover))]
            && t.packed == Some(Frozen(d, cover, m.office.rec.job.files.draft))
            && t.office == m.office.(rec := m.office.rec.(job := Packed(h, m.office.rec.job, d, cover, ts)))
  {
    var open := Step.Open(b, d, c, ts);
    StepsAndOne(h, id, s, before, m, open);
    steps, t := before + [open], Next(h, id, m, open);
    steps, t := Binds(h, id, s, steps, t, b);
    var bound := t.builders[b];
    steps, t := Writes(h, id, s, steps, t, b);
    PackedInTwo(h, m.office.rec.job, bound, bound.stage.cover);
  }

  lemma PackedInTwo(h: Hasher, j: Job, x: Builder, cover: Option<string>)
    ensures WithRecord(h, Copied(j, cover), x, cover) == Packed(h, j, x.packet, cover, x.ts)
  {
  }

  lemma Writes(h: Hasher, id: JobId, s: Sys, before: seq<Step>, m: Sys, b: nat) returns (steps: seq<Step>, t: Sys)
    requires Steps(h, id, s, before, m) && b in m.builders && m.builders[b].stage.Hashed?
    ensures Steps(h, id, s, steps, t)
    ensures var x := m.builders[b];
            && t.builders == m.builders[b := x.(stage := Recorded(x.stage.cover))]
            && t.packed == Some(Frozen(x.packet, x.stage.cover, m.office.rec.job.files.draft))
            && t.office == OnJob(m, WithRecord(h, m.office.rec.job, x, x.stage.cover)).office
  {
    StepsAndOne(h, id, s, before, m, Record(b));
    steps, t := before + [Record(b)], Next(h, id, m, Record(b));
  }

  lemma Binds(h: Hasher, id: JobId, s: Sys, before: seq<Step>, m: Sys, b: nat) returns (steps: seq<Step>, t: Sys)
    requires Steps(h, id, s, before, m) && b in m.builders && m.builders[b].stage.Opened?
    ensures Steps(h, id, s, steps, t)
    ensures var cover := CoverFile(m.office.rec.job, m.builders[b].choice);
            t == Staged(OnJob(m, Copied(m.office.rec.job, cover)), b, Hashed(cover))
  {
    StepsAndOne(h, id, s, before, m, CopyCover(b));
    steps, t := before + [CopyCover(b)], Next(h, id, m, CopyCover(b));
    StepsAndOne(h, id, s, steps, t, HashCover(b));
    steps, t := steps + [HashCover(b)], Next(h, id, t, HashCover(b));
  }

  /** The transition and the event of a builder that recorded. */
  lemma Submits(h: Hasher, id: JobId, s: Sys, before: seq<Step>, m: Sys, b: nat) returns (steps: seq<Step>, t: Sys)
    requires Steps(h, id, s, before, m) && IsAt(m.office.rec.job, Processed)
    requires b in m.builders && m.builders[b].stage.Recorded?
    ensures Steps(h, id, s, steps, t)
    ensures var x := m.builders[b];
            (t.office.rec, Ok(ReviewPending)) ==
            MoveTo(m.office.rec, ReviewPending, x.ts,
                   [PacketBuilt(id, BodySha(h, x.packet), TitleSha(h, x.packet), CoverSha(h, x.stage.cover))])
    ensures t.office.frozen == m.packed
  {
    StepsAndOne(h, id, s, before, m, Move(b));
    steps, t := before + [Move(b)], Next(h, id, m, Move(b));
    StepsAndOne(h, id, s, steps, t, Announce(b));
    steps, t := steps + [Announce(b)], Next(h, id, t, Announce(b));
  }

  /** The operation as a whole is one undisturbed run of these steps. */
  lemma BuildIsItsSteps(h: Hasher, id: JobId, s: Sys, b: nat, d: Draft, c: CoverChoice, ts: string)
      returns (steps: seq<Step>, t: Sys)
    requires IsAt(s.office.rec.job, Processed) && b !in s.builders
    ensures Steps(h, id, s, steps, t)
    ensures (t.office.rec, Ok(ReviewPending)) == BuildOn(h, s.office.rec, id, d, c, ts)
  {
    var before, m := Records(h, id, s, [], s, b, d, c, ts);
    steps, t := Submits(h, id, s, before, m, b);
  }

  /** With two builders at work the event may speak of another text than the one that is frozen: the
      first moves and announces the job the second has recorded. */
  lemma AnnouncementNamesAnother(h: Hasher, id: JobId, s: Sys, a: nat, b: nat, d: Draft, e: Draft, c: CoverChoice,
                                 ts: string)
      returns (steps: seq<Step>, t: Sys)
    requires IsAt(s.office.rec.job, Processed) && a != b && a !in s.builders && b !in s.builders
    ensures Steps(h, id, s, steps, t) && IsAt(t.office.rec.job, ReviewPending)
    ensures var cover := CoverFile(s.office.rec.job, c);
            && FreezeRecord(t.office.rec.job) == Some(FreezeOf(h, e, cover))
            && t.office.rec.events ==
                  s.office.rec.events + [PacketBuilt(id, BodySha(h, d), TitleSha(h, d), CoverSha(h, cover))]
  {
    var before, m := TwoRecord(h, id, s, a, b, d, e, c, ts);
    steps, t := Submits(h, id, s, before, m, a);
    MovedOn(m.office.rec, m.builders[a].ts,
      [Announced(h, id, m.builders[a].(stage := Moved(m.builders[a].stage.cover)))]);
  }

  lemma MovedOn(w: Records, ts: string, events: seq<Event>)
    requires IsAt(w.job, Processed)
    ensures var v := MoveTo(w, ReviewPending, ts, events).0;
            IsAt(v.job, ReviewPending) && v.job.files == w.job.files && v.events == w.events + events
  {
  }

  lemma TwoRecord(h: Hasher, id: JobId, s: Sys, a: nat, b: nat, d: Draft, e: Draft, c: CoverChoice, ts: string)
      returns (steps: seq<Step>, t: Sys)
    requires IsAt(s.office.rec.job, Processed) && a != b && a !in s.builders && b !in s.builders
    ensures Steps(h, id, s, steps, t) && IsAt(t.office.rec.job, Processed) && t.office.rec.events == s.office.rec.events
    ensures var cover := CoverFile(s.office.rec.job, c);
            && FreezeRecord(t.office.rec.job) == Some(FreezeOf(h, e, cover))
            && a in t.builders && t.builders[a] == Builder(d, c, ts, Recorded(cover))
  {
    var cover := CoverFile(s.office.rec.job, c);
    var before, m := Records(h, id, s, [], s, a, d, c, ts);
    PackedStays(h, s.office.rec.job, d, c, cover, ts);
    steps, t := Records(h, id, s, before, m, b, e, c, ts);
    PackedStays(h, m.office.rec.job, e, c, cover, ts);
  }

  lemma PackedStays(h: Hasher, j: Job, d: Draft, c: CoverChoice, cover: Option<string>, ts: string)
    requires IsAt(j, Processed) && cover == CoverFile(j, c)
    ensures var k := Packed(h, j, d, cover, ts);
            IsAt(k, Processed) && CoverFile(k, c) == cover && FreezeRecord(k) == Some(FreezeOf(h, d, cover))
  {
  }
}
