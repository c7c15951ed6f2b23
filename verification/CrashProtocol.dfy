/** The crash protocol as a state machine: one job, at most one worker at a time, any number of
    worklist views, operators that move the job, and processes that may die between any two steps. */
module CrashProtocol {
  import opened Wrappers
  import opened JobState
  import opened JobStore
  import opened Reconcile

  /** Where a worker stands in process: the steps between which it can die. */
  datatype Pc = Entering | Bumping | Logging | Marking | Working | Clearing | Leaving | Resetting

  /** ours: the marker it wrote is still in place; failed: its run was caught as a service failure. */
  datatype Worker = Worker(pid: int, pc: Pc, crashEntry: bool, failed: bool, ours: bool)

  /** How far a view has come with this job: the row was listed, a marker was seen, and then it
      is about to flag the job or to drop the marker. */
  datatype Phase = Opened | Seen | Flagging | Dropping

  datatype Viewer = Viewer(pid: int, state: JobState, phase: Phase)

  /** The history variables count what happened: worker deaths since the counter was last
      cleared, and the latest deaths in a row that each left the dead worker's own marker, with
      the count the first of these left. */
  datatype Sys = Sys(
    job: Job, running: set<int>, worker: Option<Worker>, viewers: map<nat, Viewer>,
    deaths: nat, streak: nat, base: int)

  function StateOf(s: Sys): JobState
    requires s.job.row.Some?
  {
    s.job.row.value.state
  }

  function MarkerBit(j: Job): int { if j.files.marker.Present? then 1 else 0 }

  datatype Step =
    | Boot(pid: int)
    | Die(pid: int)
    | Spawn(pid: int)
    | LookMarker
    | Bump
    | Log
    | Mark
    | Work(files: Folder)
    | Persist(to: JobState, failed: bool)
    | Raise
    | ClearMarker
    | Leave
    | Reset
    | Open(viewer: nat, pid: int)
    | CheckMarker(viewer: nat)
    | ReadOwner(viewer: nat)
    | Flag(viewer: nat)
    | Drop(viewer: nat)
    | Operate(to: JobState)

  predicate At(s: Sys, pc: Pc) { s.worker.Some? && s.worker.value.pc == pc }

  predicate Viewing(s: Sys, v: nat, p: Phase) { v in s.viewers && s.viewers[v].phase == p }

  /** When a step can happen. Only one worker per job is ever started. */
  predicate Enabled(s: Sys, step: Step) {
    match step
    case Boot(pid) => pid > 0 && pid !in s.running
    case Die(pid) => pid in s.running
    case Spawn(pid) => pid in s.running && s.worker.None? && s.job.row.Some? && IsEntry(StateOf(s))
    case LookMarker => At(s, Entering)
    case Bump => At(s, Bumping)
    case Log => At(s, Logging)
    case Mark => At(s, Marking)
    case Work(files) => At(s, Working) && files.marker == s.job.files.marker && files.counter == s.job.files.counter
    case Persist(to, failed) => At(s, Working) && IsLegal(Processing, to) && failed == (to == ProcessFailed)
    case Operate(to) => s.job.row.Some? && IsLegal(StateOf(s), to) && !IsTransient(to)
    case Raise => At(s, Working)
    case ClearMarker => At(s, Clearing)
    case Leave => At(s, Leaving)
    case Reset => At(s, Resetting)
    case Open(v, pid) => v !in s.viewers && pid in s.running && s.job.row.Some?
    case CheckMarker(v) => Viewing(s, v, Opened)
    case ReadOwner(v) => Viewing(s, v, Seen)
    case Flag(v) => Viewing(s, v, Flagging)
    case Drop(v) => Viewing(s, v, Dropping)
  }

  function Move(s: Sys, pc: Pc): Sys
    requires s.worker.Some?
  {
    s.(worker := Some(s.worker.value.(pc := pc)))
  }

  function Close(s: Sys, v: nat): Sys { s.(viewers := s.viewers - {v}) }

  function Proceed(s: Sys, v: nat, p: Phase): Sys
    requires v in s.viewers
  {
    s.(viewers := s.viewers[v := s.viewers[v].(phase := p)])
  }

  /** No death with its own marker in place stands right behind this moment. */
  function RowBroken(s: Sys): Sys { s.(streak := 0, base := Count(s.job) + MarkerBit(s.job)) }

  function Died(s: Sys, pid: int): Sys {
    var t := s.(running := s.running - {pid},
                viewers := map v | v in s.viewers && s.viewers[v].pid != pid :: s.viewers[v]);
    if s.worker.None? || s.worker.value.pid != pid then t
    else
      var u := t.(worker := None, deaths := s.deaths + 1);
      if s.worker.value.ours then u.(streak := s.streak + 1) else RowBroken(u)
  }

  function Owned(s: Sys, v: nat): Sys
    requires v in s.viewers
  {
    var m := s.job.files.marker;
    if m.Present? && m.pid.Some? && Alive(s.running, m.pid.value) then Close(s, v)
    else if IsEntry(s.viewers[v].state) then Proceed(s, v, Flagging)
    else if IsMarkerOnlyClear(s.viewers[v].state) then Proceed(s, v, Dropping)
    else Close(s, v)
  }

  function Next(s: Sys, step: Step): Sys
    requires Enabled(s, step)
  {
    match step
    case Boot(pid) => s.(running := s.running + {pid})
    case Die(pid) => Died(s, pid)
    case Spawn(pid) => s.(worker := Some(Worker(pid, Entering, false, false, false)))
    case LookMarker =>
      if s.job.files.marker.Present? then s.(worker := Some(s.worker.value.(pc := Bumping, crashEntry := true)))
      else Move(s, Marking)
    case Bump => Move(s.(job := Counted(s.job, Some(Count(s.job) + 1))), Logging)
    case Log => Move(s, Marking)
    case Mark =>
      s.(job := Marked(s.job, Present(Some(s.worker.value.pid))),
         worker := Some(s.worker.value.(pc := Working, ours := true)))
    case Work(files) => s.(job := s.job.(files := files))
    case Persist(to, failed) => Persisted(s, to, failed)
    case Raise => Move(s, Leaving)
    case ClearMarker =>
      s.(job := Marked(s.job, Absent), worker := Some(s.worker.value.(pc := Leaving, ours := false)))
    case Leave =>
      var t := s.(job := Marked(s.job, Absent), worker := Some(s.worker.value.(pc := Resetting, ours := false)));
      if s.worker.value.crashEntry && s.worker.value.failed then RowBroken(t.(worker := None)) else t
    case Reset => s.(job := Counted(s.job, None), worker := None, deaths := 0, streak := 0, base := 0)
    case Open(v, pid) => s.(viewers := s.viewers[v := Viewer(pid, StateOf(s), Opened)])
    case CheckMarker(v) => if s.job.files.marker.Present? then Proceed(s, v, Seen) else Close(s, v)
    case ReadOwner(v) => Owned(s, v)
    case Flag(v) => Close(s, v)
    case Drop(v) =>
      var t := Close(s.(job := Marked(s.job, Absent)), v);
      if s.worker.None? then RowBroken(t) else t
    case Operate(to) => if s.job.row.Some? then s.(job := Moved(s.job, to)) else s
  }

  function Moved(j: Job, to: JobState): Job
    requires j.row.Some?
  {
    Commit(j, j.row.value.(state := to))
  }

  /** The commit of a run: refused when the row no longer reaches PROCESSING. */
  function Persisted(s: Sys, to: JobState, failed: bool): Sys
    requires s.worker.Some?
  {
    if s.job.row.Some? && IsLegal(StateOf(s), Processing)
    then s.(job := Moved(s.job, to), worker := Some(s.worker.value.(pc := Clearing, failed := failed)))
    else s.(worker := Some(s.worker.value.(pc := Leaving, failed := failed)))
  }

  /** A job at rest, with no marker and no counter, and nobody looking. */
  ghost predicate Init(s: Sys) {
    && s.job.row.Some? && s.job.files.marker == Absent && s.job.files.counter == None
    && s.worker == None && s.viewers == map[] && s.deaths == 0 && s.streak == 0 && s.base == 0
    && forall p :: p in s.running ==> p > 0
  }

  // --- the invariant ---

  predicate BeforeMark(pc: Pc) { pc in {Entering, Bumping, Logging, Marking} }

  ghost predicate WorkerOk(s: Sys, w: Worker) {
    && w.pid in s.running
    && (w.ours ==> s.job.files.marker == Present(Some(w.pid)))
    && (w.ours <==> w.pc in {Working, Clearing} || (w.pc == Leaving && w.ours))
    && (!w.ours && !BeforeMark(w.pc) ==> s.job.files.marker == Absent)
    && (w.pc == Entering ==> !w.crashEntry) && (w.pc in {Bumping, Logging} ==> w.crashEntry)
    && (w.pc == Marking && !w.crashEntry ==> s.job.files.marker == Absent)
    && (w.pc in {Bumping, Logging} || (w.pc == Marking && w.crashEntry) ==> s.job.files.marker.Present?)
    && (BeforeMark(w.pc) ==> s.job.row.Some? && (IsEntry(StateOf(s)) || StateOf(s) == Superseded))
  }

  /** A marker that a worker on its way in will overwrite and that is not under its own pid: a
      view may find its owner dead. */
  ghost predicate InWindow(s: Sys) {
    && s.worker.Some? && BeforeMark(s.worker.value.pc)
    && s.job.files.marker.Present? && s.job.files.marker != Present(Some(s.worker.value.pid))
  }

  /** A job that no run can enter is not also being entered past an older marker. */
  ghost predicate StateOk(s: Sys) {
    s.job.row.Some? && (IsMarkerOnlyClear(StateOf(s)) ==> !InWindow(s))
  }

  /** A view that lists a job no run can enter is right about that, and once it has seen a marker
      there it can only be about to drop one that no live worker has or will have in place. */
  ghost predicate ViewerOk(s: Sys, v: Viewer) {
    && v.pid in s.running && s.job.row.Some?
    && (IsMarkerOnlyClear(v.state) ==> IsMarkerOnlyClear(StateOf(s)))
    && (v.phase == Seen && IsMarkerOnlyClear(v.state) && s.worker.Some? && BeforeMark(s.worker.value.pc) ==>
          s.job.files.marker.Present?)
    && (v.phase == Dropping ==>
          IsMarkerOnlyClear(v.state) && !(s.worker.Some? && (s.worker.value.ours || BeforeMark(s.worker.value.pc))))
    && (v.phase == Flagging ==> IsEntry(v.state))
  }

  /** The counter against the deaths: a marker left behind stands for one not yet counted. */
  ghost predicate CountOk(s: Sys) {
    var c := Count(s.job);
    if s.worker.None? || s.worker.value.pc == Entering then
      && c + MarkerBit(s.job) <= s.deaths && c + MarkerBit(s.job) == s.base + s.streak
      && (s.streak > 0 ==> s.job.files.marker.Present?)
    else if s.worker.value.pc == Bumping then c + 1 <= s.deaths && c + 1 == s.base + s.streak
    else
      && c <= s.deaths && c == s.base + s.streak
      && (s.worker.value.ours ==> s.worker.value.pc in {Working, Clearing, Leaving})
  }

  ghost predicate Inv(s: Sys) {
    && StateOk(s)
    && (forall p :: p in s.running ==> p > 0)
    && (s.worker.Some? ==> WorkerOk(s, s.worker.value))
    && (forall v :: v in s.viewers ==> ViewerOk(s, s.viewers[v]))
    && CountOk(s)
  }

  lemma InitInv(s: Sys)
    requires Init(s)
    ensures Inv(s)
  {
  }

  // --- every step keeps it, but for one kind of operator step ---

  predicate IsViewStep(step: Step) {
    step.Open? || step.CheckMarker? || step.ReadOwner? || step.Flag? || step.Drop?
  }

  predicate IsWorkerStep(step: Step) {
    !IsViewStep(step) && !step.Boot? && !step.Die? && !step.Operate?
  }

  /** The operator step to keep apart: it puts the job out of reach of any run while a worker that
      has passed the entry check still stands before its mark, with another marker in place. */
  ghost predicate Exposes(s: Sys, step: Step) {
    step.Operate? && IsMarkerOnlyClear(step.to) && InWindow(s)
  }

  lemma WorkerStepKeepsCount(s: Sys, step: Step)
    requires Inv(s) && Enabled(s, step) && IsWorkerStep(step)
    ensures CountOk(Next(s, step)) && Next(s, step).job.row.Some?
  {
  }

  lemma WorkerStepKeepsState(s: Sys, step: Step)
    requires Inv(s) && Enabled(s, step) && IsWorkerStep(step)
    ensures StateOk(Next(s, step))
  {
  }

  lemma WorkerStepKeepsWorker(s: Sys, step: Step)
    requires Inv(s) && Enabled(s, step) && IsWorkerStep(step)
    ensures var t := Next(s, step); t.worker.Some? ==> WorkerOk(t, t.worker.value)
  {
  }

  lemma WorkerStepKeepsViewer(s: Sys, step: Step, v: Viewer)
    requires Inv(s) && Enabled(s, step) && IsWorkerStep(step) && ViewerOk(s, v)
    ensures ViewerOk(Next(s, step), v)
  {
  }

  lemma DeathKeepsInv(s: Sys, pid: int)
    requires Inv(s) && Enabled(s, Die(pid))
    ensures Inv(Next(s, Die(pid)))
  {
  }

  lemma ViewStepKeepsInv(s: Sys, step: Step)
    requires Inv(s) && Enabled(s, step) && IsViewStep(step)
    ensures Inv(Next(s, step))
  {
    var t := Next(s, step);
    assert t.job == s.job || step.Drop?;
  }

  lemma OperatorKeepsInv(s: Sys, step: Step)
    requires Inv(s) && Enabled(s, step) && step.Operate? && !Exposes(s, step)
    ensures Inv(Next(s, step))
  {
  }

  lemma StepKeepsInv(s: Sys, step: Step)
    requires Inv(s) && Enabled(s, step) && !Exposes(s, step)
    ensures Inv(Next(s, step))
  {
    if IsWorkerStep(step) {
      var t := Next(s, step);
      WorkerStepKeepsCount(s, step);
      WorkerStepKeepsState(s, step);
      WorkerStepKeepsWorker(s, step);
      forall v | v in t.viewers ensures ViewerOk(t, t.viewers[v]) {
        WorkerStepKeepsViewer(s, step, s.viewers[v]);
      }
    } else if IsViewStep(step) {
      ViewStepKeepsInv(s, step);
    } else if step.Die? {
      DeathKeepsInv(s, step.pid);
    } else if step.Operate? {
      OperatorKeepsInv(s, step);
    }
  }

  /** The states of a run: each follows from the one before by an enabled step. */
  ghost predicate IsRun(states: seq<Sys>, steps: seq<Step>) {
    && |states| == |steps| + 1 && Init(states[0])
    && forall i :: 0 <= i < |steps| ==> Enabled(states[i], steps[i]) && states[i + 1] == Next(states[i], steps[i])
  }

  /** No step of the run so far was of the kind to keep apart. */
  ghost predicate Unexposed(states: seq<Sys>, steps: seq<Step>, n: nat)
    requires n <= |steps| <= |states|
  {
    forall i :: 0 <= i < n ==> !Exposes(states[i], steps[i])
  }

  lemma {:induction false} RunKeepsInv(states: seq<Sys>, steps: seq<Step>, n: nat)
    requires IsRun(states, steps) && n < |states| && Unexposed(states, steps, n)
    ensures Inv(states[n])
  {
    if n == 0 {
      InitInv(states[0]);
    } else {
      RunKeepsInv(states, steps, n - 1);
      StepKeepsInv(states[n - 1], steps[n - 1]);
    }
  }

  // --- what it means ---

  /** In every run, operators included, in which no operator step falls into that window, a
      worklist view changes no stored state, no counter and no file but a stale marker, and
      whenever it drops a marker no live worker owns one. */
  lemma ViewsAreHarmless(states: seq<Sys>, steps: seq<Step>, n: nat)
    requires IsRun(states, steps) && n < |steps| && IsViewStep(steps[n]) && Unexposed(states, steps, n)
    ensures var s, t := states[n], states[n + 1];
            && t.job.row == s.job.row && t.job.history == s.job.history
            && t.job.files == s.job.files.(marker := t.job.files.marker)
            && t.worker == s.worker
            && (t.job != s.job ==>
                  steps[n].Drop? && t.job.files.marker == Absent && !(s.worker.Some? && s.worker.value.ours))
  {
    RunKeepsInv(states, steps, n);
  }

  /** How many workers died in the first n steps since the counter was last cleared. */
  function DeathsIn(states: seq<Sys>, steps: seq<Step>, n: nat): nat
    requires n <= |steps| <= |states|
  {
    if n == 0 then 0
    else match steps[n - 1]
      case Reset => 0
      case Die(pid) =>
        var w := states[n - 1].worker;
        DeathsIn(states, steps, n - 1) + if w.Some? && w.value.pid == pid then 1 else 0
      case _ => DeathsIn(states, steps, n - 1)
  }

  lemma {:induction false} DeathsAreCounted(states: seq<Sys>, steps: seq<Step>, n: nat)
    requires IsRun(states, steps) && n <= |steps|
    ensures states[n].deaths == DeathsIn(states, steps, n)
  {
    if n > 0 { DeathsAreCounted(states, steps, n - 1); }
  }

  /** The counter never exceeds the worker deaths since it was last cleared. */
  lemma CountNeverExceedsDeaths(states: seq<Sys>, steps: seq<Step>, n: nat)
    requires IsRun(states, steps) && n < |states| && Unexposed(states, steps, n)
    ensures Count(states[n].job) <= DeathsIn(states, steps, n)
  {
    RunKeepsInv(states, steps, n);
    DeathsAreCounted(states, steps, n);
  }

  /** After n deaths in a row under the marker the counter is n - 1 above what the first of them
      left. A view of the job at a state it may re-enter, with the dead owner's pid not in use,
      reports it with that count, and as exhausted exactly when the count exceeds the limit. */
  lemma DeathsInARow(states: seq<Sys>, steps: seq<Step>, n: nat, id: JobId, self: int, maxAttempts: int)
    requires IsRun(states, steps) && n < |states| && Unexposed(states, steps, n)
    requires states[n].worker.None? && states[n].streak > 0
    ensures var s := states[n];
            var count := s.base + s.streak - 1;
            && s.job.row.Some? && s.job.files.marker.Present? && Count(s.job) == count
            && (IsEntry(StateOf(s)) && !OwnerLives(s.job.files.marker, self, s.running) ==>
                  Report(id, StateOf(s), s.job, self, s.running, maxAttempts) ==
                  Some(InterruptedJob(id, StateOf(s), count, count > maxAttempts)))
  {
    RunKeepsInv(states, steps, n);
  }

  // --- a run nobody interrupts ---

  ghost predicate Steps(s: Sys, steps: seq<Step>, t: Sys)
    decreases |steps|
  {
    if steps == [] then s == t else Enabled(s, steps[0]) && Steps(Next(s, steps[0]), steps[1..], t)
  }

  lemma {:induction false} StepsAndOne(s: Sys, steps: seq<Step>, t: Sys, step: Step)
    requires Steps(s, steps, t) && Enabled(t, step)
    ensures Steps(s, steps + [step], Next(t, step))
    decreases |steps|
  {
    if steps == [] {
      assert ([] + [step])[1..] == [];
    } else {
      StepsAndOne(Next(s, steps[0]), steps[1..], t, step);
      assert (steps + [step])[1..] == steps[1..] + [step];
    }
  }

  /** The worker up to its own marker in place: a marker found at entry is counted once. */
  lemma Arrives(s: Sys, pid: int) returns (steps: seq<Step>, t: Sys)
    requires Enabled(s, Spawn(pid))
    ensures Steps(s, steps, t)
    ensures t.worker == Some(Worker(pid, Working, s.job.files.marker.Present?, false, true)) && t.running == s.running
    ensures var counted := if s.job.files.marker.Present? then Counted(s.job, Some(Count(s.job) + 1)) else s.job;
            t.job == Marked(counted, Present(Some(pid)))
  {
    steps, t := Enters(s, pid);
    if s.job.files.marker.Present? {
      steps, t := CountsCrash(s, steps, t);
    }
    StepsAndOne(s, steps, t, Mark);
    steps, t := steps + [Mark], Next(t, Mark);
  }

  lemma Enters(s: Sys, pid: int) returns (steps: seq<Step>, t: Sys)
    requires Enabled(s, Spawn(pid))
    ensures var found := s.job.files.marker.Present?;
            && Steps(s, steps, t)
            && t == s.(worker := Some(Worker(pid, if found then Bumping else Marking, found, false, false)))
  {
    StepsAndOne(s, [], s, Spawn(pid));
    steps, t := [] + [Spawn(pid)], Next(s, Spawn(pid));
    StepsAndOne(s, steps, t, LookMarker);
    steps, t := steps + [LookMarker], Next(t, LookMarker);
  }

  lemma CountsCrash(s: Sys, before: seq<Step>, m: Sys) returns (steps: seq<Step>, t: Sys)
    requires Steps(s, before, m) && At(m, Bumping)
    ensures Steps(s, steps, t)
    ensures t == m.(job := Counted(m.job, Some(Count(m.job) + 1)), worker := Some(m.worker.value.(pc := Marking)))
  {
    StepsAndOne(s, before, m, Bump);
    steps, t := before + [Bump], Next(m, Bump);
    StepsAndOne(s, steps, t, Log);
    steps, t := steps + [Log], Next(t, Log);
  }

  lemma Concludes(s: Sys, before: seq<Step>, m: Sys) returns (steps: seq<Step>, t: Sys)
    requires Steps(s, before, m) && At(m, Leaving)
    ensures Steps(s, steps, t) && t.worker.None? && t.job.row == m.job.row && t.job.history == m.job.history
    ensures t.job.files.marker == Absent
    ensures t.job.files.counter ==
            if m.worker.value.crashEntry && m.worker.value.failed then m.job.files.counter else None
  {
    StepsAndOne(s, before, m, Leave);
    steps, t := before + [Leave], Next(m, Leave);
    if t.worker.Some? {
      StepsAndOne(s, steps, t, Reset);
      steps, t := steps + [Reset], Next(t, Reset);
    }
  }

  /** The worker from there to its end, committing one state or raising. */
  lemma Departs(s: Sys, before: seq<Step>, m: Sys, to: Option<JobState>) returns (steps: seq<Step>, t: Sys)
    requires Steps(s, before, m) && At(m, Working) && m.job.row.Some? && IsLegal(StateOf(m), Processing)
    requires !m.worker.value.failed && (to.Some? ==> IsLegal(Processing, to.value))
    ensures Steps(s, steps, t) && t.worker.None? && t.job.row.Some?
    ensures t.job.files.marker == Absent
    ensures t.job.files.counter ==
            if m.worker.value.crashEntry && to == Some(ProcessFailed) then m.job.files.counter else None
    ensures t.job.history == m.job.history + (if to.Some? then [to.value] else [])
    ensures StateOf(t) == if to.Some? then to.value else StateOf(m)
  {
    if to.Some? {
      var persist := Persist(to.value, to.value == ProcessFailed);
      StepsAndOne(s, before, m, persist);
      steps, t := before + [persist], Next(m, persist);
      StepsAndOne(s, steps, t, ClearMarker);
      steps, t := steps + [ClearMarker], Next(t, ClearMarker);
    } else {
      StepsAndOne(s, before, m, Raise);
      steps, t := before + [Raise], Next(m, Raise);
    }
    steps, t := Concludes(s, steps, t);
  }

  // --- the operator step to keep apart ---

  /** In a run without one so far, the step to keep apart is always the same: superseding a
      NEEDS_REVISION job that a worker is entering past another marker. */
  lemma OnlySupersedingExposes(states: seq<Sys>, steps: seq<Step>, n: nat)
    requires IsRun(states, steps) && n < |steps| && Unexposed(states, steps, n) && Exposes(states[n], steps[n])
    ensures steps[n] == Operate(Superseded) && StateOf(states[n]) == JobState.NeedsRevision
  {
    RunKeepsInv(states, steps, n);
    assert steps[n].to in Successors(StateOf(states[n]));
  }

  /** A number above every member. */
  lemma Above(s: set<int>) returns (n: nat)
    ensures n > 0 && forall x :: x in s ==> x < n
    decreases s
  {
    n := 1;
    if x :| x in s {
      var m := Above(s - {x});
      n := if x < m then m else x + 1;
      assert forall y :: y in s ==> y == x || y in s - {x};
    }
  }

  lemma FreshViewer(s: Sys) returns (v: nat)
    ensures v !in s.viewers
  {
    var ids := set k | k in s.viewers :: k as int;
    v := Above(ids);
    assert forall k :: k in s.viewers ==> k as int in ids;
  }

  /** The view is about to drop the marker, and the marker is the live worker's own. */
  ghost predicate DropHitsWorker(s: Sys, v: nat) {
    && Enabled(s, Drop(v)) && s.worker.Some? && s.worker.value.pid in s.running
    && s.job.files.marker == Present(Some(s.worker.value.pid))
    && Next(s, Drop(v)).job.files.marker == Absent && Next(s, Drop(v)).worker == s.worker
  }

  /** Nobody owns the marker in place any more. */
  ghost predicate OwnerGone(s: Sys) {
    s.job.files.marker.Present? && s.job.files.marker.pid.Some? ==> s.job.files.marker.pid.value !in s.running
  }

  lemma OwnerLeaves(s: Sys) returns (steps: seq<Step>, t: Sys)
    requires InWindow(s) && s.worker.value.pid in s.running
    ensures Steps(s, steps, t) && InWindow(t) && OwnerGone(t)
    ensures t.worker == s.worker && t.job == s.job && t.worker.value.pid in t.running
  {
    steps, t := [], s;
    if !OwnerGone(s) {
      var die := Die(s.job.files.marker.pid.value);
      StepsAndOne(s, [], s, die);
      steps, t := [] + [die], Next(s, die);
    }
  }

  lemma ProcessBoots(s: Sys, before: seq<Step>, m: Sys) returns (steps: seq<Step>, t: Sys, pid: int)
    requires Steps(s, before, m) && OwnerGone(m)
    ensures Steps(s, steps, t) && t == m.(running := m.running + {pid}) && OwnerGone(t)
  {
    var marker := m.job.files.marker;
    pid := Above(m.running + (if marker.Present? && marker.pid.Some? then {marker.pid.value} else {}));
    StepsAndOne(s, before, m, Boot(pid));
    steps, t := before + [Boot(pid)], Next(m, Boot(pid));
  }

  /** A process comes up and opens a view on the job. */
  lemma ViewOpens(s: Sys, before: seq<Step>, m: Sys) returns (steps: seq<Step>, t: Sys, v: nat)
    requires Steps(s, before, m) && m.job.row.Some? && OwnerGone(m)
    ensures Steps(s, steps, t) && t.worker == m.worker && t.job == m.job && m.running <= t.running && OwnerGone(t)
    ensures v in t.viewers && t.viewers[v].state == StateOf(m) && t.viewers[v].phase == Opened
  {
    var pid;
    steps, t, pid := ProcessBoots(s, before, m);
    v := FreshViewer(t);
    StepsAndOne(s, steps, t, Open(v, pid));
    steps, t := steps + [Open(v, pid)], Next(t, Open(v, pid));
  }

  /** A view of a job that no run can enter, up to the point where it will drop the marker. */
  lemma ViewArrives(s: Sys, before: seq<Step>, m: Sys) returns (steps: seq<Step>, t: Sys, v: nat)
    requires Steps(s, before, m) && m.job.row.Some? && IsMarkerOnlyClear(StateOf(m))
    requires InWindow(m) && OwnerGone(m) && m.worker.value.pid in m.running
    ensures Steps(s, steps, t) && Viewing(t, v, Dropping)
    ensures t.worker == m.worker && t.job == m.job && t.worker.value.pid in t.running
  {
    steps, t, v := ViewOpens(s, before, m);
    steps, t := ViewLooks(s, steps, t, v);
  }

  lemma ViewLooks(s: Sys, before: seq<Step>, m: Sys, v: nat) returns (steps: seq<Step>, t: Sys)
    requires Steps(s, before, m) && Viewing(m, v, Opened) && IsMarkerOnlyClear(m.viewers[v].state)
    requires m.job.files.marker.Present? && OwnerGone(m)
    ensures Steps(s, steps, t) && Viewing(t, v, Dropping)
    ensures t.worker == m.worker && t.job == m.job && t.running == m.running
  {
    StepsAndOne(s, before, m, CheckMarker(v));
    steps, t := before + [CheckMarker(v)], Next(m, CheckMarker(v));
    StepsAndOne(s, steps, t, ReadOwner(v));
    steps, t := steps + [ReadOwner(v)], Next(t, ReadOwner(v));
  }

  /** A worker on its way in that finds a marker there, up to its own mark. */
  lemma {:induction false} WorkerMarks(s: Sys, before: seq<Step>, m: Sys, v: nat) returns (steps: seq<Step>, t: Sys)
    requires Steps(s, before, m) && m.worker.Some? && BeforeMark(m.worker.value.pc) && m.job.files.marker.Present?
    requires Viewing(m, v, Dropping) && m.worker.value.pid in m.running
    ensures Steps(s, steps, t) && DropHitsWorker(t, v)
    decreases match m.worker.value.pc case Entering => 3 case Bumping => 2 case Logging => 1 case _ => 0
  {
    var pc := m.worker.value.pc;
    var step := if pc == Entering then LookMarker
                else if pc == Bumping then Bump
                else if pc == Logging then Log
                else Mark;
    StepsAndOne(s, before, m, step);
    steps, t := before + [step], Next(m, step);
    if pc != Marking {
      steps, t := WorkerMarks(s, steps, t, v);
    }
  }

  /** From every such operator step on, the protocol can go wrong: whatever else is going on, a
      view then comes to drop the marker of the worker that is running. */
  lemma ExposureBreaks(s: Sys, to: JobState) returns (steps: seq<Step>, t: Sys, v: nat)
    requires Enabled(s, Operate(to)) && Exposes(s, Operate(to)) && s.worker.value.pid in s.running
    ensures Steps(s, steps, t) && DropHitsWorker(t, v)
  {
    steps, t := OwnerLeaves(s);
    StepsAndOne(s, steps, t, Operate(to));
    steps, t := steps + [Operate(to)], Next(t, Operate(to));
    steps, t, v := ViewArrives(s, steps, t);
    steps, t := WorkerMarks(s, steps, t, v);
  }

  lemma {:induction false} StepsAreARun(s: Sys, steps: seq<Step>, t: Sys) returns (states: seq<Sys>)
    requires Steps(s, steps, t)
    ensures |states| == |steps| + 1 && states[0] == s && states[|steps|] == t
    ensures forall i :: 0 <= i < |steps| ==> Enabled(states[i], steps[i]) && states[i + 1] == Next(states[i], steps[i])
    decreases |steps|
  {
    states := [s];
    if steps != [] {
      var rest := StepsAreARun(Next(s, steps[0]), steps[1..], t);
      states := states + rest;
      assert forall i :: 1 <= i <= |steps| ==> states[i] == rest[i - 1];
      assert forall i :: 1 <= i < |steps| ==> steps[i] == steps[1..][i - 1];
    }
  }

  /** The process of a worker dies, and a worker in another one is started. */
  lemma WorkerIsReplaced(s: Sys, before: seq<Step>, m: Sys) returns (steps: seq<Step>, t: Sys)
    requires Steps(s, before, m) && m.job.row.Some? && IsEntry(StateOf(m))
    requires m.worker.Some? && m.worker.value.pid in m.running
    ensures Steps(s, steps, t) && t.job == m.job && At(t, Entering)
    ensures t.worker.value.pid in t.running && t.worker.value.pid != m.worker.value.pid
  {
    var dead := m.worker.value.pid;
    var pid := Above(m.running);
    StepsAndOne(s, before, m, Die(dead));
    steps, t := before + [Die(dead)], Next(m, Die(dead));
    StepsAndOne(s, steps, t, Boot(pid));
    steps, t := steps + [Boot(pid)], Next(t, Boot(pid));
    StepsAndOne(s, steps, t, Spawn(pid));
    steps, t := steps + [Spawn(pid)], Next(t, Spawn(pid));
  }

  /** A worker that died behind its mark, and another one on its way in past that mark. */
  lemma WindowOpens(s: Sys, pid: int) returns (steps: seq<Step>, t: Sys)
    requires Init(s) && StateOf(s) == JobState.NeedsRevision && pid in s.running
    ensures Steps(s, steps, t) && t.worker.Some? && t.worker.value.pid in t.running
    ensures Enabled(t, Operate(Superseded)) && Exposes(t, Operate(Superseded))
  {
    steps, t := Arrives(s, pid);
    steps, t := WorkerIsReplaced(s, steps, t);
  }

  /** And such a step is there to be made: a run from the start, at any job that needs revision,
      ends with a view that is about to drop the running worker's marker. */
  lemma RaceIsReachable(s: Sys, pid: int) returns (states: seq<Sys>, steps: seq<Step>, v: nat)
    requires Init(s) && StateOf(s) == JobState.NeedsRevision && pid in s.running
    ensures IsRun(states, steps) && states[0] == s && DropHitsWorker(states[|steps|], v)
  {
    var before, m := WindowOpens(s, pid);
    var after, t, w := ExposureBreaks(m, Superseded);
    v, steps := w, before + after;
    StepsJoin(s, before, m, after, t);
    states := StepsAreARun(s, steps, t);
  }

  lemma {:induction false} StepsJoin(s: Sys, a: seq<Step>, m: Sys, b: seq<Step>, t: Sys)
    requires Steps(s, a, m) && Steps(m, b, t)
    ensures Steps(s, a + b, t)
    decreases |a|
  {
    if a == [] {
      assert [] + b == b;
    } else {
      StepsJoin(Next(s, a[0]), a[1..], m, b, t);
      assert (a + b)[1..] == a[1..] + b;
    }
  }
}
