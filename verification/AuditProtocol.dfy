/** Concurrent writers of one audit file: lock, read the tail, write, unlock, and death between
    any two steps or inside the write (the operating system then releases the lock). */
module AuditProtocol {
  import opened Wrappers
  import opened Seqs
  import opened AuditLog

  datatype Phase = Idle | Locked | TailRead(seqNo: int, prevHash: string) | Done

  /** written counts the records that reached the file whole. */
  datatype Sys = Sys(file: Bytes, holder: Option<nat>, phases: map<nat, Phase>, written: nat)

  datatype Step =
    | Acquire(w: nat)
    | ReadTail(w: nat)
    | Write(w: nat, ev: Event)
    | Release(w: nat)
    | Die(w: nat)
    | Tear(w: nat, ev: Event, n: nat)

  function PhaseOf(s: Sys, w: nat): Phase {
    if w in s.phases then s.phases[w] else Idle
  }

  /** The record a writer that has read the tail would write. */
  function Pending(c: Codec, ph: Phase, ev: Event): Bytes
    requires ph.TailRead?
  {
    c.render(MakeEntry(c, ph.seqNo, ph.prevHash, ev))
  }

  /** One atomic step; a step that is not enabled leaves the system unchanged. With
      locking off, acquiring always succeeds at once. */
  function Next(c: Codec, locking: bool, s: Sys, step: Step): Sys {
    var ph := PhaseOf(s, step.w);
    match step
    case Acquire(w) =>
      if ph.Idle? && (locking ==> s.holder.None?)
      then s.(holder := Some(w), phases := s.phases[w := Locked]) else s
    case ReadTail(w) =>
      if ph.Locked? then
        match Tail(c, s.file)
        case Ok(t) => s.(phases := s.phases[w := TailRead(t.0, t.1)])
        case Err(_) => s.(phases := s.phases[w := Done])
      else s
    case Write(w, ev) =>
      if ph.TailRead? then
        s.(file := s.file + Pending(c, ph, ev) + [LF],
           phases := s.phases[w := Done], written := s.written + 1)
      else s
    case Release(w) =>
      if ph.Done? then s.(holder := None, phases := s.phases[w := Idle]) else s
    case Die(w) =>
      if ph.Idle? then s else s.(holder := None, phases := s.phases[w := Idle])
    case Tear(w, ev, n) =>
      if ph.TailRead? && n <= |Pending(c, ph, ev)| then
        s.(file := s.file + Pending(c, ph, ev)[..n], holder := None, phases := s.phases[w := Idle],
           written := if n == |Pending(c, ph, ev)| then s.written + 1 else s.written)
      else s
  }

  function Run(c: Codec, locking: bool, s: Sys, steps: seq<Step>): Sys
    decreases |steps|
  {
    if steps == [] then s else Run(c, locking, Next(c, locking, s, steps[0]), steps[1..])
  }

  const START := Sys([], None, map[], 0)

  /** Only the lock holder is at work, and a tail once read stays the tail. */
  ghost predicate Held(s: Sys, n: int, head: string) {
    && (forall w: nat :: !PhaseOf(s, w).Idle? ==> s.holder == Some(w))
    && (forall w: nat :: PhaseOf(s, w).TailRead? ==> PhaseOf(s, w).seqNo == n && PhaseOf(s, w).prevHash == head)
  }

  /** The file holds these records and its tail can be read. */
  ghost predicate Holds(c: Codec, f: Bytes, es: seq<Entry>) {
    && VerdictOf(c, f) == Intact && ReadLines(c, f) == Some(es)
    && Tail(c, f) == Ok((|es|, HeadHash(es)))
  }

  /** The last record stands there whole, but its line feed is missing. */
  ghost predicate Open(c: Codec, f: Bytes, es: seq<Entry>) {
    es != [] && OpensBehind(c, f, es[|es| - 1])
  }

  ghost predicate OpensBehind(c: Codec, f: Bytes, e: Entry) { exists g :: OpensAt(c, f, g, e) }

  ghost predicate OpensAt(c: Codec, f: Bytes, g: Bytes, e: Entry) { Closed(g) && f == g + c.render(e) }

  ghost predicate Consistent(c: Codec, s: Sys, es: seq<Entry>) {
    && Holds(c, s.file, es) && |es| == s.written && Held(s, |es|, HeadHash(es))
    && (Closed(s.file) || Open(c, s.file, es))
  }

  /** The step adds bytes to the file. */
  predicate Writes(c: Codec, s: Sys, step: Step) {
    var ph := PhaseOf(s, step.w);
    && ph.TailRead?
    && (step.Write? || (step.Tear? && 0 < step.n <= |Pending(c, ph, step.ev)|))
  }

  /** It writes a part of a record only, or writes behind a record without its line feed. */
  ghost predicate Spoils(c: Codec, s: Sys, step: Step) {
    Writes(c, s, step) && (!Closed(s.file) || (step.Tear? && step.n < |Pending(c, PhaseOf(s, step.w), step.ev)|))
  }

  lemma StepKeepsConsistent(c: Codec, s: Sys, es: seq<Entry>, step: Step) returns (fs: seq<Entry>)
    requires Faithful(c) && Consistent(c, s, es) && !Spoils(c, s, step)
    ensures Consistent(c, Next(c, true, s, step), fs)
    ensures !Writes(c, s, step) ==> Next(c, true, s, step).file == s.file
  {
    fs := es;
    if Writes(c, s, step) {
      if step.Write? {
        fs := WriteKeepsConsistent(c, s, es, step.w, step.ev);
      } else {
        fs := WholeTearKeepsConsistent(c, s, es, step.w, step.ev);
      }
    } else if step.ReadTail? {
      ReadKeepsHeld(c, s, step.w, |es|, HeadHash(es));
    } else if step.Tear? {
      NoTearKeepsHeld(c, s, step, |es|, HeadHash(es));
    } else if !step.Write? {
      OtherStepKeepsHeld(c, s, step, |es|, HeadHash(es));
    }
  }

  /** A death in the write that left nothing of the record. */
  lemma NoTearKeepsHeld(c: Codec, s: Sys, step: Step, n: int, head: string)
    requires Faithful(c) && Held(s, n, head) && step.Tear? && !Writes(c, s, step)
    ensures var t := Next(c, true, s, step); Held(t, n, head) && t.file == s.file && t.written == s.written
  {
    var t, ph := Next(c, true, s, step), PhaseOf(s, step.w);
    if ph.TailRead? && step.n == 0 {
      RecordIsLine(c, MakeEntry(c, ph.seqNo, ph.prevHash, step.ev));
      assert s.file + Pending(c, ph, step.ev)[..0] == s.file;
      assert forall v: nat :: v != step.w ==> PhaseOf(t, v) == PhaseOf(s, v);
    }
  }

  lemma ReadKeepsHeld(c: Codec, s: Sys, w: nat, n: int, head: string)
    requires Held(s, n, head) && Tail(c, s.file) == Ok((n, head))
    ensures var t := Next(c, true, s, ReadTail(w)); Held(t, n, head) && t.file == s.file && t.written == s.written
  {
    var t := Next(c, true, s, ReadTail(w));
    assert forall v: nat :: v != w ==> PhaseOf(t, v) == PhaseOf(s, v);
  }

  lemma OtherStepKeepsHeld(c: Codec, s: Sys, step: Step, n: int, head: string)
    requires Held(s, n, head) && (step.Acquire? || step.Release? || step.Die?)
    ensures var t := Next(c, true, s, step); Held(t, n, head) && t.file == s.file && t.written == s.written
  {
    var t := Next(c, true, s, step);
    assert forall v: nat :: v != step.w ==> PhaseOf(t, v) == PhaseOf(s, v);
  }

  lemma WriteKeepsConsistent(c: Codec, s: Sys, es: seq<Entry>, w: nat, ev: Event) returns (fs: seq<Entry>)
    requires Faithful(c) && Consistent(c, s, es) && Closed(s.file) && PhaseOf(s, w).TailRead?
    ensures Consistent(c, Next(c, true, s, Write(w, ev)), fs)
  {
    var e := MakeEntry(c, |es|, HeadHash(es), ev);
    fs := es + [e];
    WriteExtends(c, s.file, es, ev);
    WriteReleases(c, s, w, ev, |es|, HeadHash(es), |fs|, HeadHash(fs));
  }

  /** A death in the write that left the whole record, without its line feed. */
  lemma WholeTearKeepsConsistent(c: Codec, s: Sys, es: seq<Entry>, w: nat, ev: Event) returns (fs: seq<Entry>)
    requires Faithful(c) && Consistent(c, s, es) && Closed(s.file) && PhaseOf(s, w).TailRead?
    ensures Consistent(c, Next(c, true, s, Tear(w, ev, |Pending(c, PhaseOf(s, w), ev)|)), fs)
    ensures Open(c, Next(c, true, s, Tear(w, ev, |Pending(c, PhaseOf(s, w), ev)|)).file, fs)
  {
    var e := MakeEntry(c, |es|, HeadHash(es), ev);
    fs := es + [e];
    RecordExtends(c, s.file, es, e);
    TearReleases(c, s, w, ev, |c.render(e)|, |es|, HeadHash(es), |fs|, HeadHash(fs));
    assert c.render(e)[..|c.render(e)|] == c.render(e);
  }

  lemma RecordExtends(c: Codec, f: Bytes, es: seq<Entry>, e: Entry)
    requires Faithful(c) && Holds(c, f, es) && Closed(f) && Link(c, e, HeadHash(es), |es|)
    ensures Holds(c, f + c.render(e), es + [e]) && Open(c, f + c.render(e), es + [e])
  {
    TornAtEnd(c, f, e);
    OpenTail(c, f, e);
    assert OpensAt(c, f + c.render(e), f, (es + [e])[|es|]);
    assert HeadHash(es + [e]) == e.hash.value;
  }

  lemma OpenTail(c: Codec, f: Bytes, e: Entry)
    requires Faithful(c) && Closed(f) && e.payload.seqNo.Some? && e.hash.Some?
    ensures Tail(c, f + c.render(e)) == Ok((e.payload.seqNo.value + 1, e.hash.value))
  {
    RecordIsLine(c, e);
    LastLineOpen(f, c.render(e));
    TailIs(c, f + c.render(e), c.render(e), e);
  }

  lemma WriteReleases(c: Codec, s: Sys, w: nat, ev: Event, n: int, head: string, m: int, next: string)
    requires Held(s, n, head) && PhaseOf(s, w).TailRead?
    ensures var t := Next(c, true, s, Write(w, ev));
            && Held(t, m, next) && t.file == s.file + c.render(MakeEntry(c, n, head, ev)) + [LF]
            && t.written == s.written + 1
  {
    var t := Next(c, true, s, Write(w, ev));
    assert forall v: nat :: v != w ==> PhaseOf(t, v) == PhaseOf(s, v);
  }

  lemma WriteExtends(c: Codec, f: Bytes, es: seq<Entry>, ev: Event)
    requires Faithful(c) && Holds(c, f, es) && Closed(f)
    ensures var e := MakeEntry(c, |es|, HeadHash(es), ev);
            Holds(c, f + c.render(e) + [LF], es + [e]) && Closed(f + c.render(e) + [LF])
  {
    var e := MakeEntry(c, |es|, HeadHash(es), ev);
    WriteReads(c, f, es, e);
    TailAfterAppend(c, f, e);
    assert HeadHash(es + [e]) == e.hash.value;
  }

  lemma WriteReads(c: Codec, f: Bytes, es: seq<Entry>, e: Entry)
    requires Faithful(c) && VerdictOf(c, f) == Intact && Closed(f) && ReadLines(c, f) == Some(es)
    requires Link(c, e, HeadHash(es), |es|)
    ensures var g := f + c.render(e) + [LF];
            VerdictOf(c, g) == Intact && Closed(g) && ReadLines(c, g) == Some(es + [e])
  {
    ClosedAtLineStart(f);
    ReadAfterAppend(c, f, e);
    ChainExtend(c, es, e);
  }

  lemma StartConsistent(c: Codec)
    requires Faithful(c)
    ensures Consistent(c, START, [])
  {
    EmptyLogIntact(c);
    assert LastLine([]) == None;
  }

  // --- a spoiled log ---

  /** Unreadable, and nobody is about to write or will read a tail. */
  ghost predicate Stuck(c: Codec, s: Sys) {
    VerdictOf(c, s.file) == Unreadable && Tail(c, s.file).Err? && NobodyWrites(s)
  }

  ghost predicate NobodyWrites(s: Sys) { forall w: nat :: !PhaseOf(s, w).TailRead? }

  lemma StuckStep(c: Codec, s: Sys, step: Step)
    requires Tail(c, s.file).Err? && NobodyWrites(s)
    ensures var t := Next(c, true, s, step); NobodyWrites(t) && t.file == s.file
  {
    var t := Next(c, true, s, step);
    assert forall w: nat :: w != step.w ==> PhaseOf(t, w) == PhaseOf(s, w);
  }

  lemma {:induction false} StuckStays(c: Codec, s: Sys, steps: seq<Step>)
    requires Stuck(c, s)
    ensures Stuck(c, Run(c, true, s, steps)) && Run(c, true, s, steps).file == s.file
    decreases |steps|
  {
    if steps != [] {
      StuckStep(c, s, steps[0]);
      StuckStays(c, Next(c, true, s, steps[0]), steps[1..]);
    }
  }

  lemma TearReleases(c: Codec, s: Sys, w: nat, ev: Event, n: nat, m: int, head: string, k: int, next: string)
    requires Held(s, m, head) && PhaseOf(s, w).TailRead? && n <= |Pending(c, PhaseOf(s, w), ev)|
    ensures Pending(c, PhaseOf(s, w), ev) == c.render(MakeEntry(c, m, head, ev))
    ensures var t := Next(c, true, s, Tear(w, ev, n));
            && NobodyWrites(t) && Held(t, k, next)
            && t.file == s.file + c.render(MakeEntry(c, m, head, ev))[..n]
            && t.written == if n == |Pending(c, PhaseOf(s, w), ev)| then s.written + 1 else s.written
  {
    var t := Next(c, true, s, Tear(w, ev, n));
    assert forall v: nat :: v != w ==> PhaseOf(t, v) == PhaseOf(s, v);
  }

  /** The first bytes of a record are text that does not start with a space. */
  lemma PrefixIsText(c: Codec, e: Entry, n: nat)
    requires Faithful(c) && 0 < n <= |c.render(e)|
    ensures var x := c.render(e)[..n];
            x != [] && !IsSpace(x[0]) && forall k :: 0 <= k < |x| ==> !IsSeparator(x[k]) && !IsLineEnd(x[k])
  {
    var r := c.render(e);
    RecordIsLine(c, e);
    assert Trim(IsSpace, r) == r;
    assert !IsSpace(r[0]);
  }

  /** Behind an open record such text spoils the file, with or without a line feed. */
  lemma SpoiledOpen(c: Codec, f: Bytes, e: Entry, x: Bytes)
    requires Faithful(c) && OpensBehind(c, f, e)
    requires x != [] && !IsSpace(x[0]) && forall k :: 0 <= k < |x| ==> !IsSeparator(x[k]) && !IsLineEnd(x[k])
    ensures VerdictOf(c, f + x) == Unreadable && Tail(c, f + x).Err?
    ensures VerdictOf(c, f + x + [LF]) == Unreadable && Tail(c, f + x + [LF]).Err?
  {
    var h :| OpensAt(c, f, h, e);
    OpenLineSpoiled(c, h, e, x);
    ConcatAssoc(h, c.render(e), x);
  }

  lemma SpoilingStep(c: Codec, s: Sys, es: seq<Entry>, step: Step)
    requires Faithful(c) && Consistent(c, s, es) && Spoils(c, s, step)
    ensures Stuck(c, Next(c, true, s, step)) && |Next(c, true, s, step).file| > |s.file|
  {
    if step.Write? {
      SpoilingWrite(c, s, es, step.w, step.ev);
    } else {
      SpoilingTear(c, s, es, step.w, step.ev, step.n);
    }
  }

  lemma SpoilingWrite(c: Codec, s: Sys, es: seq<Entry>, w: nat, ev: Event)
    requires Faithful(c) && Consistent(c, s, es) && PhaseOf(s, w).TailRead? && !Closed(s.file)
    ensures Stuck(c, Next(c, true, s, Write(w, ev))) && |Next(c, true, s, Write(w, ev)).file| > |s.file|
  {
    var r := c.render(MakeEntry(c, |es|, HeadHash(es), ev));
    RecordIsLine(c, MakeEntry(c, |es|, HeadHash(es), ev));
    PrefixIsText(c, MakeEntry(c, |es|, HeadHash(es), ev), |r|);
    assert r[..|r|] == r;
    SpoiledOpen(c, s.file, es[|es| - 1], r);
    WriteReleases(c, s, w, ev, |es|, HeadHash(es), |es|, HeadHash(es));
    WriteEnds(c, s, w, ev, |es|, HeadHash(es));
  }

  lemma SpoilingTear(c: Codec, s: Sys, es: seq<Entry>, w: nat, ev: Event, n: nat)
    requires Faithful(c) && Consistent(c, s, es) && Spoils(c, s, Tear(w, ev, n))
    ensures Stuck(c, Next(c, true, s, Tear(w, ev, n))) && |Next(c, true, s, Tear(w, ev, n)).file| > |s.file|
  {
    var e := MakeEntry(c, |es|, HeadHash(es), ev);
    TearReleases(c, s, w, ev, n, |es|, HeadHash(es), |es|, HeadHash(es));
    if Closed(s.file) {
      TornWrite(c, s.file, e, n);
    } else {
      PrefixIsText(c, e, n);
      SpoiledOpen(c, s.file, es[|es| - 1], c.render(e)[..n]);
    }
  }

  lemma WriteEnds(c: Codec, s: Sys, w: nat, ev: Event, n: int, head: string)
    requires Held(s, n, head) && PhaseOf(s, w).TailRead?
    ensures NobodyWrites(Next(c, true, s, Write(w, ev)))
  {
    var t := Next(c, true, s, Write(w, ev));
    assert forall v: nat :: v != w ==> PhaseOf(t, v) == PhaseOf(s, v);
  }

  /** A run in which no step spoils the log. */
  ghost predicate Unspoiled(c: Codec, s: Sys, steps: seq<Step>)
    decreases |steps|
  {
    steps != [] ==> !Spoils(c, s, steps[0]) && Unspoiled(c, Next(c, true, s, steps[0]), steps[1..])
  }

  lemma {:induction false} RunKeepsConsistent(c: Codec, s: Sys, es: seq<Entry>, steps: seq<Step>)
      returns (fs: seq<Entry>)
    requires Faithful(c) && Consistent(c, s, es)
    ensures Unspoiled(c, s, steps) ==> Consistent(c, Run(c, true, s, steps), fs)
    ensures !Unspoiled(c, s, steps) ==> Stuck(c, Run(c, true, s, steps))
    decreases |steps|
  {
    fs := es;
    if steps != [] {
      var t := Next(c, true, s, steps[0]);
      if Spoils(c, s, steps[0]) {
        SpoilingStep(c, s, es, steps[0]);
        StuckStays(c, t, steps[1..]);
      } else {
        fs := StepKeepsConsistent(c, s, es, steps[0]);
        fs := RunKeepsConsistent(c, t, fs, steps[1..]);
      }
    }
  }

  // --- what it means ---

  /** Over every run, deaths anywhere, the log verifies exactly as long as no step spoiled it, and
      then its sequence numbers are 0, 1, 2, ... with one record for each that reached the file
      whole, and the next writer finds the tail. Once spoiled it is unreadable and never changes
      again: every later append refuses. */
  lemma VerifiesExactlyWhen(c: Codec, steps: seq<Step>, later: seq<Step>)
    requires Faithful(c)
    ensures var s := Run(c, true, START, steps);
            && (VerdictOf(c, s.file) == Intact <==> Unspoiled(c, START, steps))
            && (Unspoiled(c, START, steps) ==>
                  var es := ReadLines(c, s.file).value;
                  && |es| == s.written && (forall i :: 0 <= i < |es| ==> es[i].payload.seqNo == Some(i))
                  && Tail(c, s.file) == Ok((s.written, HeadHash(es))))
            && (!Unspoiled(c, START, steps) ==>
                  VerdictOf(c, s.file) == Unreadable && Run(c, true, s, later).file == s.file)
  {
    StartConsistent(c);
    var es := RunKeepsConsistent(c, START, [], steps);
    if Unspoiled(c, START, steps) {
      ChainCounts(c, es);
    } else {
      StuckStays(c, Run(c, true, START, steps), later);
    }
  }

  lemma ChainCounts(c: Codec, es: seq<Entry>)
    requires Chain(c, es)
    ensures forall i :: 0 <= i < |es| ==> es[i].payload.seqNo == Some(i)
  {
    forall i | 0 <= i < |es| ensures es[i].payload.seqNo == Some(i) {
      assert Link(c, es[i], HeadHash(es[..i]), i);
    }
  }

  ghost predicate NoTears(steps: seq<Step>) { forall i :: 0 <= i < |steps| ==> !steps[i].Tear? }

  lemma StaysClosed(c: Codec, s: Sys, step: Step)
    requires Closed(s.file) && !step.Tear?
    ensures !Spoils(c, s, step) && Closed(Next(c, true, s, step).file)
  {
  }

  /** With no death inside a write nothing is ever spoiled, and the file stays closed. */
  lemma {:induction false} NoTearsNoSpoiling(c: Codec, s: Sys, es: seq<Entry>, steps: seq<Step>)
    requires Faithful(c) && Consistent(c, s, es) && Closed(s.file) && NoTears(steps)
    ensures Unspoiled(c, s, steps) && Closed(Run(c, true, s, steps).file)
    decreases |steps|
  {
    if steps != [] {
      StaysClosed(c, s, steps[0]);
      var fs := StepKeepsConsistent(c, s, es, steps[0]);
      NoTearsNoSpoiling(c, Next(c, true, s, steps[0]), fs, steps[1..]);
    }
  }

  /** So whatever the interleaving and whoever dies between two steps the file verifies. */
  lemma EveryInterleavingVerifies(c: Codec, steps: seq<Step>)
    requires Faithful(c) && NoTears(steps)
    ensures var s := Run(c, true, START, steps);
            && VerdictOf(c, s.file) == Intact && Closed(s.file)
            && var es := ReadLines(c, s.file).value;
            && |es| == s.written
            && (forall i :: 0 <= i < |es| ==> es[i].payload.seqNo == Some(i))
            && Tail(c, s.file) == Ok((s.written, HeadHash(es)))
  {
    StartConsistent(c);
    NoTearsNoSpoiling(c, START, [], steps);
    VerifiesExactlyWhen(c, steps, []);
  }

  /** A file that stands inside a line: until a step writes nothing happens to it, and the first
      that writes spoils it. */
  lemma {:induction false} OpenRun(c: Codec, s: Sys, es: seq<Entry>, later: seq<Step>) returns (fs: seq<Entry>)
    requires Faithful(c) && Consistent(c, s, es) && !Closed(s.file)
    ensures var u := Run(c, true, s, later);
            if u.file == s.file then Consistent(c, u, fs) else Stuck(c, u) && |u.file| > |s.file|
    decreases |later|
  {
    fs := es;
    if later != [] {
      var t := Next(c, true, s, later[0]);
      if Spoils(c, s, later[0]) {
        SpoilingStep(c, s, es, later[0]);
        StuckStays(c, t, later[1..]);
      } else {
        fs := StepKeepsConsistent(c, s, es, later[0]);
        fs := OpenRun(c, t, fs, later[1..]);
      }
    }
  }

  /** What a death inside the write comes to, for everything that follows. If nothing of the record
      was left the log goes on verifying as long as nobody else dies that way. If all of it was left
      but the line feed, the log verifies exactly until somebody writes to it, and is unreadable for
      good from then on. In between it is unreadable for good at once. */
  lemma TornWriteSticks(c: Codec, before: seq<Step>, w: nat, ev: Event, n: nat, later: seq<Step>, more: seq<Step>)
    requires Faithful(c) && NoTears(before)
    requires var ph := PhaseOf(Run(c, true, START, before), w); ph.TailRead? && n <= |Pending(c, ph, ev)|
    ensures var s := Run(c, true, START, before);
            var size := |Pending(c, PhaseOf(s, w), ev)|;
            var t := Next(c, true, s, Tear(w, ev, n));
            var u := Run(c, true, t, later);
            && (n == 0 && NoTears(later) ==> VerdictOf(c, u.file) == Intact)
            && (n == size && u.file == t.file ==> VerdictOf(c, u.file) == Intact)
            && (n == size && u.file != t.file ==>
                  VerdictOf(c, u.file) == Unreadable && Run(c, true, u, more).file == u.file)
            && (0 < n < size ==> VerdictOf(c, u.file) == Unreadable && u.file == t.file)
  {
    StartConsistent(c);
    NoTearsNoSpoiling(c, START, [], before);
    var es := RunKeepsConsistent(c, START, [], before);
    TearFrom(c, Run(c, true, START, before), es, w, ev, n, later, more);
  }

  lemma TearFrom(c: Codec, s: Sys, es: seq<Entry>, w: nat, ev: Event, n: nat, later: seq<Step>, more: seq<Step>)
    requires Faithful(c) && Consistent(c, s, es) && Closed(s.file)
    requires PhaseOf(s, w).TailRead? && n <= |Pending(c, PhaseOf(s, w), ev)|
    ensures var size := |Pending(c, PhaseOf(s, w), ev)|;
            var t := Next(c, true, s, Tear(w, ev, n));
            var u := Run(c, true, t, later);
            && (n == 0 && NoTears(later) ==> VerdictOf(c, u.file) == Intact)
            && (n == size && u.file == t.file ==> VerdictOf(c, u.file) == Intact)
            && (n == size && u.file != t.file ==>
                  VerdictOf(c, u.file) == Unreadable && Run(c, true, u, more).file == u.file)
            && (0 < n < size ==> VerdictOf(c, u.file) == Unreadable && u.file == t.file)
  {
    var step := Tear(w, ev, n);
    var size, t := |Pending(c, PhaseOf(s, w), ev)|, Next(c, true, s, step);
    RecordIsLine(c, MakeEntry(c, PhaseOf(s, w).seqNo, PhaseOf(s, w).prevHash, ev));
    if 0 < n < size {
      SpoilingStep(c, s, es, step);
      StuckStays(c, t, later);
    } else if n == size {
      var fs := WholeTearKeepsConsistent(c, s, es, w, ev);
      OpenNotClosed(c, t.file, fs);
      var gs := OpenRun(c, t, fs, later);
      if Run(c, true, t, later).file != t.file {
        StuckStays(c, Run(c, true, t, later), more);
      }
    } else if NoTears(later) {
      var fs := StepKeepsConsistent(c, s, es, step);
      NoTearsNoSpoiling(c, t, fs, later);
      var gs := RunKeepsConsistent(c, t, fs, later);
    }
  }

  lemma OpenNotClosed(c: Codec, f: Bytes, es: seq<Entry>)
    requires Faithful(c) && Open(c, f, es)
    ensures !Closed(f)
  {
    var g :| OpensAt(c, f, g, es[|es| - 1]);
    RecordIsLine(c, es[|es| - 1]);
    var r := c.render(es[|es| - 1]);
    assert f[|f| - 1] == r[|r| - 1];
  }

  /** Without the lock two writers can read the same tail, and the chain breaks. */
  lemma LockIsNeeded(c: Codec, ev: Event)
    requires Faithful(c)
    ensures var s0 := Next(c, false, START, Acquire(0));
            var s1 := Next(c, false, s0, Acquire(1));
            var s2 := Next(c, false, s1, ReadTail(0));
            var s3 := Next(c, false, s2, ReadTail(1));
            var s4 := Next(c, false, s3, Write(0, ev));
            var s5 := Next(c, false, s4, Write(1, ev));
            VerdictOf(c, s5.file) == Tampered
  {
    assert LastLine([]) == None;
    SameTailTwice(c, ev);
  }

  lemma SameTailTwice(c: Codec, ev: Event)
    requires Faithful(c)
    ensures var r := c.render(MakeEntry(c, 0, GenesisHash(), ev));
            VerdictOf(c, [] + r + [LF] + r + [LF]) == Tampered
  {
    StartConsistent(c);
    WriteExtends(c, [], [], ev);
    SecondCopy(c, [] + c.render(MakeEntry(c, 0, GenesisHash(), ev)) + [LF], MakeEntry(c, 0, GenesisHash(), ev));
  }

  /** A record numbered 0 is no second record. */
  lemma SecondCopy(c: Codec, f: Bytes, e: Entry)
    requires Faithful(c) && Closed(f) && ReadLines(c, f) == Some([] + [e]) && e.payload.seqNo == Some(0)
    ensures VerdictOf(c, f + c.render(e) + [LF]) == Tampered
  {
    ClosedAtLineStart(f);
    ReadAfterAppend(c, f, e);
    NoSecondCopy(c, e);
  }

  lemma NoSecondCopy(c: Codec, e: Entry)
    requires e.payload.seqNo == Some(0)
    ensures !Chain(c, [] + [e] + [e])
  {
    var es := [] + [e] + [e];
    assert es[1] == e;
    assert !Link(c, es[1], HeadHash(es[..1]), 1);
  }
}
