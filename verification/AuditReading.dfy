/** The audit file as the dashboard reads it: line by line, skipping what does not parse, and by
    the keys the reduction looks up. */
module AuditReading {
  import opened Wrappers
  import opened Errors
  import opened Seqs
  import opened Collect
  import opened AuditLog
  import A = AuditAggregate
  import R = AuditRuns

  function At<T>(m: map<string, T>, key: string): Option<T> { if key in m then Some(m[key]) else None }

  /** The string under a key; None when it is missing or of another type. */
  function TextAt(fields: map<string, Json>, key: string): Option<string> {
    match At<Json>(fields, key) case Some(Text(t)) => Some(t) case _ => None
  }

  function ExtraAt(fields: map<string, Json>, key: string): Option<string> {
    match At<Json>(fields, "extra") case Some(Object(m)) => At(m, key) case _ => None
  }

  /** What the reduction looks up in a record. */
  function RawOf(e: AuditLog.Entry): A.Raw {
    var f := e.payload.rest;
    A.Object(TextAt(f, "event"), TextAt(f, "job_id"), TextAt(f, "ts"), e.payload.seqNo, TextAt(f, "stage"),
             ExtraAt(f, "status"), ExtraAt(f, "review_reason"))
  }

  function ViewOf(c: Codec): Bytes -> seq<A.Raw> {
    (l: Bytes) => match c.parse(l) case None => [] case Some(e) => [RawOf(e)]
  }

  /** The records of a file, a line that does not parse skipped. */
  function Seen(c: Codec, f: Bytes): seq<A.Raw> { FlatMap(ViewOf(c), Lines(f)) }

  // --- one append ---

  /** The record an append leaves tells the event that was appended, key by key. */
  predicate Records(e: AuditLog.Entry, ev: Event, n: int) {
    && RawOf(e) == A.Object(Some(ev.event), Some(ev.jobId), Some(ev.ts), Some(n), Some(ev.stage),
                            At(ev.extra, "status"), At(ev.extra, "review_reason"))
    && TextAt(e.payload.rest, "actor") == Some(ev.actor)
    && TextAt(e.payload.rest, "artifact_sha256") == ev.artifact
  }

  lemma AppendedTells(c: Codec, posix: bool, f: Bytes, ev: Event)
    requires Appended(c, posix, f, ev).Ok?
    ensures Tail(c, f).Ok? && Records(Appended(c, posix, f, ev).value, ev, Tail(c, f).value.0)
    ensures forall key :: ExtraAt(Appended(c, posix, f, ev).value.payload.rest, key) == At(ev.extra, key)
  {
    var f' := Appended(c, posix, f, ev).value.payload.rest;
    assert f' == Fields(ev);
    forall key { ExtraTells(ev, f', key); }
    TextTells(ev, f');
  }

  lemma TextTells(ev: Event, f: map<string, Json>)
    requires f == Fields(ev)
    ensures TextAt(f, "event") == Some(ev.event) && TextAt(f, "job_id") == Some(ev.jobId)
    ensures TextAt(f, "ts") == Some(ev.ts) && TextAt(f, "stage") == Some(ev.stage)
    ensures TextAt(f, "actor") == Some(ev.actor) && TextAt(f, "artifact_sha256") == ev.artifact
  {
  }

  lemma ExtraTells(ev: Event, f: map<string, Json>, key: string)
    requires f == Fields(ev)
    ensures ExtraAt(f, key) == At(ev.extra, key)
  {
    if ev.extra == map[] { assert "extra" !in f; } else { assert f["extra"] == Object(ev.extra); }
  }

  /** The record carries the hash of the record before it, sixty-four zeros in front of the first
      one, and its own hash over both. */
  predicate LinksTo(c: Codec, before: seq<AuditLog.Entry>, e: AuditLog.Entry) {
    match e.payload.prevHash
    case None => false
    case Some(prev) =>
      && e.hash == Some(c.hash(prev, e.payload))
      && (before == [] ==> |prev| == 64 && forall k :: 0 <= k < 64 ==> prev[k] == '0')
      && (before != [] ==> before[|before| - 1].hash == Some(prev))
  }

  lemma AppendedLinks(c: Codec, posix: bool, f: Bytes, ev: Event)
    requires Faithful(c) && VerdictOf(c, f) == Intact && Appended(c, posix, f, ev).Ok?
    ensures LinksTo(c, ReadLines(c, f).value, Appended(c, posix, f, ev).value)
  {
    var es := ReadLines(c, f).value;
    TailOfIntact(c, f);
    if es != [] { LastOfChain(c, es); }
  }

  /** After a successful append to an intact log at a line start, the last record read back is the
      appended event, numbered by the records before it and chained to the last of them; everything
      before reads as it did. */
  lemma AppendIsReadBack(c: Codec, posix: bool, f: Bytes, ev: Event)
    requires Faithful(c) && VerdictOf(c, f) == Intact && AtLineStart(f)
    requires Appended(c, posix, f, ev).Ok?
    ensures var before := ReadLines(c, f).value;
            var after := ReadLines(c, f + c.render(Appended(c, posix, f, ev).value) + [LF]);
            && after.Some? && |after.value| == |before| + 1 && after.value[..|before|] == before
            && Records(after.value[|before|], ev, |before|) && LinksTo(c, before, after.value[|before|])
            && forall key :: ExtraAt(after.value[|before|].payload.rest, key) == At(ev.extra, key)
  {
    var e, before := Appended(c, posix, f, ev).value, ReadLines(c, f).value;
    AppendedTells(c, posix, f, ev);
    AppendedLinks(c, posix, f, ev);
    TailOfIntact(c, f);
    ReadAfterAppend(c, f, e);
    assert (before + [e])[..|before|] == before && (before + [e])[|before|] == e;
  }

  /** On any file at a line start, readable or not, the dashboard sees what it saw and the event. */
  lemma AppendIsSeen(c: Codec, posix: bool, f: Bytes, ev: Event)
    requires Faithful(c) && AtLineStart(f) && Appended(c, posix, f, ev).Ok?
    ensures Seen(c, f + c.render(Appended(c, posix, f, ev).value) + [LF]) ==
            Seen(c, f) + [A.Object(Some(ev.event), Some(ev.jobId), Some(ev.ts), Some(Tail(c, f).value.0),
                                   Some(ev.stage), At(ev.extra, "status"), At(ev.extra, "review_reason"))]
  {
    var e := Appended(c, posix, f, ev).value;
    AppendedTells(c, posix, f, ev);
    LinesAfterAppend(c, f, e);
    FlatMapNext(ViewOf(c), Lines(f), c.render(e));
  }

  /** So an appended event counts for the gate of its name and for its own job, and for nothing
      else; it counts as stopped there exactly when its status does not pass. */
  lemma AppendCounts(c: Codec, posix: bool, f: Bytes, ev: Event, g: A.Gate, job: string)
    requires Faithful(c) && AtLineStart(f) && Appended(c, posix, f, ev).Ok?
    ensures var seen := Seen(c, f);
            var after := Seen(c, f + c.render(Appended(c, posix, f, ev).value) + [LF]);
            && (job in ToSet(FlatMap(A.Reaching(g), A.Hits(after))) <==>
                  job in ToSet(FlatMap(A.Reaching(g), A.Hits(seen))) || (A.IsName(ev.event, g) && job == ev.jobId))
            && (job in ToSet(FlatMap(A.Stopped(g), A.Hits(after))) <==>
                  job in ToSet(FlatMap(A.Stopped(g), A.Hits(seen))) ||
                  (A.IsName(ev.event, g) && job == ev.jobId && !A.Passed(g, At(ev.extra, "status"))))
  {
    AppendIsSeen(c, posix, f, ev);
    var seen, after := Seen(c, f), Seen(c, f + c.render(Appended(c, posix, f, ev).value) + [LF]);
    OneMoreCounts(seen, after[|seen|], after, g, job);
  }

  lemma OneMoreCounts(seen: seq<A.Raw>, e: A.Raw, after: seq<A.Raw>, g: A.Gate, job: string)
    requires after == seen + [e]
    ensures job in ToSet(FlatMap(A.Reaching(g), A.Hits(after))) <==>
              job in ToSet(FlatMap(A.Reaching(g), A.Hits(seen))) || A.Counts(e, g, job)
    ensures job in ToSet(FlatMap(A.Stopped(g), A.Hits(after))) <==>
              job in ToSet(FlatMap(A.Stopped(g), A.Hits(seen))) || (A.Counts(e, g, job) && !A.Passed(g, e.status))
  {
    A.ReachedMeans(seen, g, job);
    A.ReachedMeans(after, g, job);
    A.InterceptedMeans(seen, g, job);
    A.InterceptedMeans(after, g, job);
  }

  /** When an append is refused, and as what: a key that may carry personal data or an artifact that
      is no digest, a platform without locking, a last line that is no numbered record. */
  lemma AppendRefusesExactlyWhen(c: Codec, posix: bool, f: Bytes, ev: Event)
    ensures Appended(c, posix, f, ev) == Err(InvalidInput) <==> !Clean(ev)
    ensures Appended(c, posix, f, ev) == Err(MissingDependency) <==> Clean(ev) && !posix
    ensures Appended(c, posix, f, ev) == Err(Unexpected) <==>
              Clean(ev) && posix && LastLine(f).Some? && !Numbered(c.parse(LastLine(f).value))
    ensures Appended(c, posix, f, ev).Err? ==>
              Appended(c, posix, f, ev).error in {InvalidInput, MissingDependency, Unexpected}
  {
    AcceptedIsClean(ev);
  }

  lemma AcceptedIsClean(ev: Event)
    ensures Accepted(ev) <==> Clean(ev)
  {
    if ev.artifact.Some? { DigestMeans(ev.artifact.value); }
    forall key ensures key in PROHIBITED_KEYS <==> Personal(key) { }
    if PROHIBITED_KEYS * ev.extra.Keys == {} {
      forall key | key in ev.extra ensures !Personal(key) {
        assert key !in PROHIBITED_KEYS * ev.extra.Keys;
      }
    }
  }

  /** The keys an event may not carry. */
  predicate Personal(key: string) {
    || key == "title" || key == "body" || key == "text" || key == "source_url" || key == "url" || key == "author"
    || key == "domain" || key == "review_message" || key == "name" || key == "email" || key == "phone"
  }

  predicate Numbered(e: Option<AuditLog.Entry>) { e.Some? && e.value.payload.seqNo.Some? && e.value.hash.Some? }

  predicate Clean(ev: Event) {
    && (forall key :: key in ev.extra ==> !Personal(key))
    && (ev.artifact.Some? ==> IsDigest(ev.artifact.value) || EndsInNewline(ev.artifact.value))
  }

  /** Sixty-four lower-case hexadecimal digits. */
  predicate IsDigest(s: string) { |s| == 64 && forall ch :: ch in s ==> ch in "0123456789abcdef" }

  /** A digest with one newline behind it passes as well. */
  predicate EndsInNewline(s: string) { |s| == 65 && s[64] == '\n' && IsDigest(s[..64]) }

  lemma DigestMeans(s: string)
    ensures IsSha256(s) <==> IsDigest(s) || EndsInNewline(s)
  {
    if |s| >= 64 { HexDigits(s, s[..64]); }
    if |s| == 64 { assert s[..64] == s; }
  }

  lemma HexDigits(s: string, t: string)
    requires |s| >= 64 && t == s[..64]
    ensures IsDigest(t) <==> forall i :: 0 <= i < 64 ==> '0' <= s[i] <= '9' || 'a' <= s[i] <= 'f'
  {
    forall ch: char ensures ch in "0123456789abcdef" <==> '0' <= ch <= '9' || 'a' <= ch <= 'f' {
      HexDigit(ch);
    }
    if IsDigest(t) {
      forall i | 0 <= i < 64 ensures '0' <= s[i] <= '9' || 'a' <= s[i] <= 'f' {
        assert t[i] == s[i] && t[i] in t;
      }
    }
  }

  lemma HexDigit(ch: char)
    ensures ch in "0123456789abcdef" <==> '0' <= ch <= '9' || 'a' <= ch <= 'f'
  {
    var hex := "0123456789abcdef";
    if '0' <= ch <= '9' { assert hex[ch as int - '0' as int] == ch; }
    if 'a' <= ch <= 'f' { assert hex[ch as int - 'a' as int + 10] == ch; }
  }

  // --- what verifies ---

  /** A log verifies exactly when every line of it is a record and each is numbered by those before it
      and chained to the last of them; it is unreadable exactly when a line is no record. */
  lemma IntactExactlyWhen(c: Codec, f: Bytes)
    ensures VerdictOf(c, f) == Intact <==>
            ReadLines(c, f).Some? &&
            var es := ReadLines(c, f).value;
            forall i :: 0 <= i < |es| ==> es[i].payload.seqNo == Some(i) && LinksTo(c, es[..i], es[i])
    ensures VerdictOf(c, f) == Unreadable <==> exists l :: l in Lines(f) && c.parse(l).None?
  {
    UnreadableWhen(c, Lines(f));
    if ReadLines(c, f).Some? {
      var es := ReadLines(c, f).value;
      if Chain(c, es) {
        forall i | 0 <= i < |es| ensures es[i].payload.seqNo == Some(i) && LinksTo(c, es[..i], es[i]) {
          assert Link(c, es[i], HeadHash(es[..i]), i);
          if i > 0 { assert Link(c, es[i - 1], HeadHash(es[..i - 1]), i - 1); }
        }
      }
      if forall i :: 0 <= i < |es| ==> es[i].payload.seqNo == Some(i) && LinksTo(c, es[..i], es[i]) {
        forall i | 0 <= i < |es| ensures Link(c, es[i], HeadHash(es[..i]), i) {
          LinksToHead(c, es[..i], es[i]);
        }
      }
    }
  }

  lemma LinksToHead(c: Codec, before: seq<AuditLog.Entry>, e: AuditLog.Entry)
    requires LinksTo(c, before, e)
    ensures e.payload.prevHash == Some(HeadHash(before))
  {
    if before == [] {
      assert e.payload.prevHash.value == GenesisHash();
    }
  }

  lemma {:induction false} UnreadableWhen(c: Codec, lines: seq<Bytes>)
    ensures ParseAll(c, lines).None? <==> exists l :: l in lines && c.parse(l).None?
    decreases |lines|
  {
    if lines != [] {
      UnreadableWhen(c, lines[1..]);
      assert lines == [lines[0]] + lines[1..];
    }
  }

  /** The one-byte line boundaries. */
  predicate IsBoundary(b: Byte) { b in {10, 11, 12, 13, 28, 29, 30} }

  predicate IsWhite(b: Byte) { b in {9, 10, 11, 12, 13, 28, 29, 30, 31, 32} }

  /** The lines of a file are its stretches between boundaries, stripped, the blank ones left out. */
  lemma LineByLine(a: Bytes, b: Byte, rest: Bytes)
    requires IsBoundary(b) && forall k :: 0 <= k < |a| ==> !IsBoundary(a[k])
    ensures Lines(a) == if forall k :: 0 <= k < |a| ==> IsWhite(a[k]) then [] else [Trim(IsSpace, a)]
    ensures Lines(a + [b] + rest) == Lines(a) + Lines(rest)
  {
    assert forall k :: 0 <= k < |a| ==> !IsSeparator(a[k]);
    LinesNoSeparator(a);
    TrimEmptyIffAll(IsSpace, a);
    LinesDropOne(a, b);
    LinesSplit(a + [b], rest);
  }

  // --- a file with a torn end ---

  lemma {:induction false} ParsedAreSeen(c: Codec, lines: seq<Bytes>)
    requires ParseAll(c, lines).Some?
    ensures FlatMap(ViewOf(c), lines) == RawsOf(ParseAll(c, lines).value)
    decreases |lines|
  {
    if lines != [] {
      var n := |lines| - 1;
      assert lines == lines[..n] + [lines[n]];
      ParseAllSplit(c, lines[..n], [lines[n]]);
      ParseOne(c, lines[n]);
      ParsedAreSeen(c, lines[..n]);
      RawsNext(ParseAll(c, lines[..n]).value, c.parse(lines[n]).value);
    }
  }

  function RawsOf(es: seq<AuditLog.Entry>): seq<A.Raw> {
    seq(|es|, i requires 0 <= i < |es| => RawOf(es[i]))
  }

  lemma RawsNext(es: seq<AuditLog.Entry>, e: AuditLog.Entry)
    ensures RawsOf(es + [e]) == RawsOf(es) + [RawOf(e)]
  {
  }

  /** On a readable log the dashboard sees every record, in order. */
  lemma ReadableIsSeen(c: Codec, f: Bytes)
    requires ReadLines(c, f).Some?
    ensures Seen(c, f) == RawsOf(ReadLines(c, f).value)
  {
    ParsedAreSeen(c, Lines(f));
  }

  /** A record cut short anywhere hides nothing of what stands before it, and is itself seen only
      when it is whole; in particular while its writer is still writing. */
  lemma TornLineIsSkipped(c: Codec, f: Bytes, e: AuditLog.Entry, n: nat)
    requires Faithful(c) && Closed(f) && n <= |c.render(e)|
    ensures Seen(c, f + c.render(e)[..n]) == if n < |c.render(e)| then Seen(c, f) else Seen(c, f) + [RawOf(e)]
  {
    var r, x := c.render(e), c.render(e)[..n];
    RecordIsLine(c, e);
    assert forall k :: 0 <= k < n ==> x[k] == r[k];
    if n == 0 {
      NothingBehind(f, x);
    } else {
      if n < |r| { TornRecord(c, e, n); } else { assert x == r && Trim(IsSpace, r) == r; }
      SeenBehind(c, f, x);
    }
  }

  lemma SeenBehind(c: Codec, f: Bytes, x: Bytes)
    requires Closed(f) && Trim(IsSpace, x) != [] && forall k :: 0 <= k < |x| ==> !IsSeparator(x[k])
    ensures Seen(c, f + x) == Seen(c, f) + ViewOf(c)(Trim(IsSpace, x))
  {
    LinesSplit(f, x);
    LinesNoSeparator(x);
    FlatMapNext(ViewOf(c), Lines(f), Trim(IsSpace, x));
  }

  /** Behind a whole record without its line feed the next one to be written takes both from
      sight, and no append goes through any more. */
  lemma GluedRecordsAreLost(c: Codec, posix: bool, f: Bytes, e: AuditLog.Entry, ev: Event)
    requires Faithful(c) && Closed(f) && Appended(c, posix, f + c.render(e), ev).Ok?
    ensures var g := f + c.render(e);
            var after := g + c.render(Appended(c, posix, g, ev).value) + [LF];
            && Seen(c, g) == Seen(c, f) + [RawOf(e)]
            && Seen(c, after) == Seen(c, f) && Tail(c, after).Err?
  {
    TornLineIsSkipped(c, f, e, |c.render(e)|);
    assert c.render(e)[..|c.render(e)|] == c.render(e);
    TwoOnOneLine(c, f, e, Appended(c, posix, f + c.render(e), ev).value);
  }

  lemma TwoOnOneLine(c: Codec, f: Bytes, e: AuditLog.Entry, next: AuditLog.Entry)
    requires Faithful(c) && Closed(f)
    ensures var after := f + c.render(e) + c.render(next) + [LF];
            Seen(c, after) == Seen(c, f) && Tail(c, after).Err?
  {
    var r, x := c.render(e), c.render(next);
    RecordIsLine(c, e);
    RecordIsLine(c, next);
    FirstIsNoSpace(x, c, next);
    OpenLineSpoiled(c, f, e, x);
    GluedIsNoRecord(c, e, x);
    ConcatAssoc(f, r, x);
    NothingSeen(c, f, r + x);
  }

  lemma NothingSeen(c: Codec, f: Bytes, y: Bytes)
    requires Closed(f) && (forall k :: 0 <= k < |y| ==> !IsSeparator(y[k]))
    requires Trim(IsSpace, y) != [] && c.parse(Trim(IsSpace, y)).None?
    ensures Seen(c, f + y + [LF]) == Seen(c, f)
  {
    SeenBehind(c, f, y);
    LinesDropOne(f + y, LF);
    NothingBehind(Seen(c, f), []);
  }

  lemma FirstIsNoSpace(x: Bytes, c: Codec, e: AuditLog.Entry)
    requires Faithful(c) && x == c.render(e)
    ensures x != [] && !IsSpace(x[0])
  {
    assert Trim(IsSpace, x) == x != [];
  }

  // --- the file of a trail ---

  /** The file after these appends, one after another; a refused one leaves it as it is. */
  function FileAfter(c: Codec, evs: seq<Event>): Bytes {
    if evs == [] then []
    else
      var f := FileAfter(c, evs[..|evs| - 1]);
      match Appended(c, true, f, evs[|evs| - 1])
      case Ok(e) => f + c.render(e) + [LF]
      case Err(_) => f
  }

  /** What an operation hands to append for the n-th event of the trail. */
  predicate Announces(ink: R.Ink, n: nat, x: R.Entry, ev: Event) {
    && ev.event == R.NameOf(x.event) && ev.stage == R.StageOf(x.event)
    && ev.jobId == x.event.job && ev.ts == ink.time(n)
    && At(ev.extra, "status") == ink.status(x.event) && At(ev.extra, "review_reason") == ink.reason(x.event)
    && Clean(ev)
  }

  ghost predicate Kept(c: Codec, f: Bytes, n: nat) {
    VerdictOf(c, f) == Intact && Closed(f) && AtLineStart(f) && |ReadLines(c, f).value| == n
    && Tail(c, f).Ok?
  }

  lemma KeptNext(c: Codec, f: Bytes, ev: Event, n: nat)
    requires Faithful(c) && Kept(c, f, n) && Clean(ev)
    ensures Appended(c, true, f, ev).Ok? && Tail(c, f).value.0 == n
    ensures Kept(c, f + c.render(Appended(c, true, f, ev).value) + [LF], n + 1)
  {
    NextIsAccepted(c, f, ev, n);
    var e := Appended(c, true, f, ev).value;
    AppendKeepsIntact(c, true, f, ev);
    ClosedAtLineStart(f + c.render(e) + [LF]);
    TailAfterAppend(c, f, e);
  }

  lemma NextIsAccepted(c: Codec, f: Bytes, ev: Event, n: nat)
    requires Faithful(c) && Kept(c, f, n) && Clean(ev)
    ensures Tail(c, f).Ok? && Tail(c, f).value.0 == n
    ensures Appended(c, true, f, ev).Ok? && Numbered(Some(Appended(c, true, f, ev).value))
  {
    AppendRefusesExactlyWhen(c, true, f, ev);
    TailOfIntact(c, f);
  }

  /** The log these appends leave verifies, and the dashboard reads the trail off it. */
  lemma {:induction false} FileIsTrail(c: Codec, ink: R.Ink, trail: seq<R.Entry>, evs: seq<Event>)
    requires Faithful(c) && |evs| == |trail|
    requires forall n :: 0 <= n < |trail| ==> Announces(ink, n, trail[n], evs[n])
    ensures Kept(c, FileAfter(c, evs), |trail|)
    ensures Seen(c, FileAfter(c, evs)) == R.Lines(ink, trail)
  {
    if trail == [] {
      EmptyLogIntact(c);
    } else {
      var n := |trail| - 1;
      FileIsTrail(c, ink, trail[..n], evs[..n]);
      FileNext(c, ink, trail[..n], FileAfter(c, evs[..n]), trail[n], evs[n]);
      TakeNext(trail, n);
      assert trail[..|trail|] == trail;
    }
  }

  lemma FileNext(c: Codec, ink: R.Ink, trail: seq<R.Entry>, f: Bytes, x: R.Entry, ev: Event)
    requires Faithful(c) && Kept(c, f, |trail|) && Announces(ink, |trail|, x, ev)
    requires Seen(c, f) == R.Lines(ink, trail)
    ensures Appended(c, true, f, ev).Ok?
    ensures var g := f + c.render(Appended(c, true, f, ev).value) + [LF];
            Kept(c, g, |trail| + 1) && Seen(c, g) == R.Lines(ink, trail + [x])
  {
    KeptNext(c, f, ev, |trail|);
    AppendIsSeen(c, true, f, ev);
    LinesNext(ink, trail, x);
  }

  lemma LinesNext(ink: R.Ink, trail: seq<R.Entry>, x: R.Entry)
    ensures R.Lines(ink, trail + [x]) == R.Lines(ink, trail) + [R.Line(ink, |trail|, x.event)]
  {
  }
}
