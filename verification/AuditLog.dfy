/** The append-only, hash-chained audit file: its line reader, its backward tail
    reader, append and the chain verifier. */
module AuditLog {
  import opened Wrappers
  import opened Errors
  import opened Seqs

  newtype Byte = b: int | 0 <= b < 256
  type Bytes = seq<Byte>

  const LF: Byte := 10
  const CR: Byte := 13

  /** What rstrip removes when looking for the tail. */
  predicate IsLineEnd(b: Byte) { b == LF || b == CR }

  /** The one-byte line boundaries of splitlines. */
  predicate IsSeparator(b: Byte) { 10 <= b <= 13 || 28 <= b <= 30 }

  /** The one-byte characters strip removes. */
  predicate IsSpace(b: Byte) { 9 <= b <= 13 || 28 <= b <= 32 }

  ghost predicate Blank(s: Bytes) { All(IsSpace, s) }

  // --- the tail reader ---

  /** Index of the last line feed, or -1 (bytes.rfind). */
  function LastLf(s: Bytes): (i: int)
    ensures -1 <= i < |s|
    ensures i >= 0 ==> s[i] == LF
    ensures forall k :: i < k < |s| ==> s[k] != LF
  {
    if s == [] then -1
    else if s[|s| - 1] == LF then |s| - 1
    else LastLf(s[..|s| - 1])
  }

  lemma LastLfUnique(s: Bytes, i: int)
    requires 0 <= i < |s| && s[i] == LF
    requires forall k :: i < k < |s| ==> s[k] != LF
    ensures LastLf(s) == i
  {
  }

  /** The text after the last line feed of the CR/LF-stripped file; None if nothing is left. */
  function LastLine(f: Bytes): Option<Bytes> {
    var s := TrimRight(IsLineEnd, f);
    if s == [] then None else Some(s[LastLf(s) + 1..])
  }

  /** The block-wise backward read: whatever the block size, it finds LastLine. */
  method ReadLastLine(f: Bytes, block: nat) returns (r: Option<Bytes>)
    requires block >= 1
    ensures r == LastLine(f)
  {
    var pos := |f|;
    if pos == 0 { return None; }
    var data: Bytes := [];
    while pos > 0
      invariant 0 <= pos <= |f|
      invariant data == f[pos..]
      invariant LastLf(TrimRight(IsLineEnd, data)) == -1
    {
      var step := if block < pos then block else pos;
      pos := pos - step;
      ReadBack(f, pos, pos + step);
      data := f[pos..pos + step] + data;
      var stripped := TrimRight(IsLineEnd, data);
      var nl := LastLf(stripped);
      if nl != -1 {
        TailFound(f, pos, nl);
        return Some(stripped[nl + 1..]);
      }
    }
    var stripped := TrimRight(IsLineEnd, data);
    assert data == f;
    r := if stripped != [] then Some(stripped) else None;
  }

  lemma ReadBack(f: Bytes, i: nat, j: nat)
    requires i <= j <= |f|
    ensures f[i..j] + f[j..] == f[i..]
  {
  }

  /** A line feed found in the stripped end of the file is the one that starts its last line. */
  lemma TailFound(f: Bytes, pos: nat, nl: nat)
    requires pos <= |f| && LastLf(TrimRight(IsLineEnd, f[pos..])) == nl
    ensures LastLine(f) == Some(TrimRight(IsLineEnd, f[pos..])[nl + 1..])
  {
    var s, t := TrimRight(IsLineEnd, f[pos..]), TrimRight(IsLineEnd, f);
    KeepOfSuffix(f, pos);
    assert s == t[pos..];
    LastLfUnique(t, pos + nl);
    assert s[nl + 1..] == t[pos + nl + 1..];
  }

  /** Stripping a nonblank suffix of the file strips the file at the same place. */
  lemma KeepOfSuffix(f: Bytes, pos: nat)
    requires pos <= |f| && Keep(IsLineEnd, f[pos..]) > 0
    ensures Keep(IsLineEnd, f) == pos + Keep(IsLineEnd, f[pos..])
  {
    var g := f[pos..];
    var k := Keep(IsLineEnd, g);
    assert g[k - 1] == f[pos + k - 1];
    assert forall m :: pos + k <= m < |f| ==> g[m - pos] == f[m];
  }

  // --- the line reader ---

  function FirstSeparator(f: Bytes): (i: nat)
    ensures i <= |f|
    ensures i < |f| ==> IsSeparator(f[i])
    ensures forall k :: 0 <= k < i ==> !IsSeparator(f[k])
  {
    if f == [] || IsSeparator(f[0]) then 0 else 1 + FirstSeparator(f[1..])
  }

  lemma FirstSeparatorUnique(f: Bytes, i: nat)
    requires i < |f| && IsSeparator(f[i])
    requires forall k :: 0 <= k < i ==> !IsSeparator(f[k])
    ensures FirstSeparator(f) == i
  {
  }

  function Piece(s: Bytes): seq<Bytes> {
    var t := Trim(IsSpace, s);
    if t == [] then [] else [t]
  }

  /** The stripped, nonblank lines of a file (splitlines, strip, skip the empty ones). */
  function Lines(f: Bytes): seq<Bytes> { Cut(Piece, f) }

  /** What the stretches between separators give, in order. */
  function Cut(piece: Bytes -> seq<Bytes>, f: Bytes): seq<Bytes> {
    if f == [] then []
    else
      var i := FirstSeparator(f);
      if i == |f| then piece(f) else piece(f[..i]) + Cut(piece, f[i + 1..])
  }

  ghost predicate EndsWithSeparator(f: Bytes) {
    f == [] || IsSeparator(f[|f| - 1])
  }

  lemma LinesSplit(a: Bytes, b: Bytes)
    requires EndsWithSeparator(a)
    ensures Lines(a + b) == Lines(a) + Lines(b)
  {
    CutSplit(Piece, a, b);
  }

  lemma {:induction false} CutSplit(piece: Bytes -> seq<Bytes>, a: Bytes, b: Bytes)
    requires EndsWithSeparator(a)
    ensures Cut(piece, a + b) == Cut(piece, a) + Cut(piece, b)
    decreases |a|
  {
    if a == [] {
      CutNothing(piece, a, b);
    } else {
      var first, rest := CutFront(piece, a, b);
      CutSplit(piece, rest, b);
      ConcatAssoc(piece(first), Cut(piece, rest), Cut(piece, b));
    }
  }

  lemma CutNothing(piece: Bytes -> seq<Bytes>, a: Bytes, b: Bytes)
    requires a == []
    ensures Cut(piece, a + b) == Cut(piece, a) + Cut(piece, b)
  {
    NothingInFront(a, b);
    NothingInFront(Cut(piece, a), Cut(piece, b));
  }

  /** The first stretch, cut off with or without more text behind. */
  lemma CutFront(piece: Bytes -> seq<Bytes>, a: Bytes, b: Bytes) returns (first: Bytes, rest: Bytes)
    requires EndsWithSeparator(a) && a != []
    ensures |rest| < |a| && EndsWithSeparator(rest)
    ensures Cut(piece, a) == piece(first) + Cut(piece, rest)
    ensures Cut(piece, a + b) == piece(first) + Cut(piece, rest + b)
  {
    var i := FirstSeparator(a);
    first, rest := a[..i], a[i + 1..];
    CutConcat(a, b, i);
    FirstSeparatorOfConcat(a, b);
    assert rest != [] ==> rest[|rest| - 1] == a[|a| - 1];
    CutFirst(piece, a, i);
    CutFirst(piece, a + b, i);
  }

  lemma CutFirst(piece: Bytes -> seq<Bytes>, f: Bytes, i: nat)
    requires FirstSeparator(f) == i < |f|
    ensures Cut(piece, f) == piece(f[..i]) + Cut(piece, f[i + 1..])
  {
  }

  lemma FirstSeparatorOfConcat(a: Bytes, b: Bytes)
    requires FirstSeparator(a) < |a|
    ensures FirstSeparator(a + b) == FirstSeparator(a)
  {
    FirstSeparatorUnique(a + b, FirstSeparator(a));
  }

  lemma LinesNoSeparator(x: Bytes)
    requires forall k :: 0 <= k < |x| ==> !IsSeparator(x[k])
    ensures Lines(x) == Piece(x)
  {
  }

  /** Where the unfinished last line of a file starts. */
  function LineStart(f: Bytes): (i: nat)
    ensures i <= |f| && EndsWithSeparator(f[..i])
    ensures forall k :: i <= k < |f| ==> !IsSeparator(f[k])
  {
    if f == [] || IsSeparator(f[|f| - 1]) then |f| else LineStart(f[..|f| - 1])
  }

  lemma LinesDropOne(y: Bytes, b: Byte)
    requires IsSeparator(b)
    ensures Lines(y + [b]) == Lines(y)
  {
    var i := LineStart(y);
    var z := y[i..];
    assert y == y[..i] + z && y + [b] == y[..i] + (z + [b]);
    LinesSplit(y[..i], z);
    LinesSplit(y[..i], z + [b]);
    LinesNoSeparator(z);
    LinesClosed(z, b);
  }

  lemma LinesClosed(z: Bytes, b: Byte)
    requires IsSeparator(b) && forall k :: 0 <= k < |z| ==> !IsSeparator(z[k])
    ensures Lines(z + [b]) == Piece(z)
  {
    var w := z + [b];
    FirstSeparatorUnique(w, |z|);
    assert w[..|z|] == z && w[|z| + 1..] == [];
    assert Cut(Piece, w) == Piece(z) + Cut(Piece, []);
  }

  /** A text ending in line ends reads like the text without them. */
  lemma {:induction false} LinesDropLineEnds(f: Bytes, n: nat)
    requires n <= |f| && forall k :: n <= k < |f| ==> IsLineEnd(f[k])
    ensures Lines(f) == Lines(f[..n])
    decreases |f| - n
  {
    if n == |f| {
      assert f[..n] == f;
    } else {
      TakeNext(f, n);
      assert IsLineEnd(f[n]);
      LinesDropLineEnds(f, n + 1);
      LinesDropOne(f[..n], f[n]);
    }
  }

  // --- records ---

  datatype Json = Text(text: string) | Object(fields: map<string, string>)

  /** A JSON object without its "hash" key; the keys the chain reads are set apart. */
  datatype Payload = Payload(seqNo: Option<int>, prevHash: Option<string>, rest: map<string, Json>)

  datatype Entry = Entry(payload: Payload, hash: Option<string>)

  /** The library functions the log relies on: sha256 over (prev_hash, canonical payload),
      canonical JSON rendering, and JSON parsing (None when parsing raises). */
  datatype Codec = Codec(
    hash: (string, Payload) -> string,
    render: Entry -> Bytes,
    parse: Bytes -> Option<Entry>)

  /** Canonical rendering is one unpadded line that parses back. */
  ghost predicate Renders(c: Codec) {
    && (forall e :: c.parse(c.render(e)) == Some(e))
    && (forall e, i :: 0 <= i < |c.render(e)| ==> !IsSeparator(c.render(e)[i]))
    && (forall e {:trigger c.render(e)} :: Trim(IsSpace, c.render(e)) == c.render(e) != [])
  }

  /** Blank text is no JSON object, outer whitespace is ignored, and an object followed
      by anything nonblank does not parse. */
  ghost predicate ParsesObjects(c: Codec) {
    && (forall a {:trigger Blank(a)} :: Blank(a) ==> c.parse(a) == None)
    && (forall a {:trigger Trim(IsSpace, a)} :: c.parse(a).Some? ==> c.parse(Trim(IsSpace, a)) == c.parse(a))
    && (forall a, b {:trigger Followed(a, b)} :: c.parse(a).Some? && !Blank(b) ==> c.parse(Followed(a, b)) == None)
  }

  function Followed(a: Bytes, b: Bytes): Bytes { a + b }

  ghost predicate Faithful(c: Codec) { Renders(c) && ParsesObjects(c) }

  ghost predicate Injective(c: Codec) {
    forall p, x, q, y :: c.hash(p, x) == c.hash(q, y) ==> p == q && x == y
  }

  function GenesisHash(): string { seq(64, _ => '0') }

  /** Every line parsed, or None when one of them does not (json.loads raises). */
  function ParseAll(c: Codec, lines: seq<Bytes>): Option<seq<Entry>> {
    if lines == [] then Some([])
    else match c.parse(lines[0])
      case None => None
      case Some(e) =>
        match ParseAll(c, lines[1..])
        case None => None
        case Some(es) => Some([e] + es)
  }

  lemma ParseOne(c: Codec, x: Bytes)
    ensures ParseAll(c, [x]) == match c.parse(x) case None => None case Some(e) => Some([e])
  {
    assert [x][1..] == [];
    if c.parse(x).Some? { assert [c.parse(x).value] + [] == [c.parse(x).value]; }
  }

  function ReadLines(c: Codec, f: Bytes): Option<seq<Entry>> { ParseAll(c, Lines(f)) }

  // --- the chain ---

  /** Entry i carries sequence number i, its predecessor's hash, and its own recomputed hash. */
  ghost predicate Chain(c: Codec, es: seq<Entry>) {
    forall i :: 0 <= i < |es| ==> Link(c, es[i], HeadHash(es[..i]), i)
  }

  predicate Link(c: Codec, e: Entry, prev: string, n: int) {
    && e.hash.Some?
    && e.payload.seqNo == Some(n)
    && e.payload.prevHash == Some(prev)
    && c.hash(prev, e.payload) == e.hash.value
  }

  /** The hash the next entry must link to. */
  function HeadHash(es: seq<Entry>): string {
    if es != [] && es[|es| - 1].hash.Some? then es[|es| - 1].hash.value else GenesisHash()
  }

  datatype Verdict = Intact | Tampered | Unreadable

  ghost function VerdictOf(c: Codec, f: Bytes): Verdict {
    match ReadLines(c, f)
    case None => Unreadable
    case Some(es) => if Chain(c, es) then Intact else Tampered
  }

  method VerifyChain(c: Codec, f: Bytes) returns (v: Verdict)
    ensures v == VerdictOf(c, f)
  {
    var read := ReadLines(c, f);
    if read.None? { return Unreadable; }
    var es := read.value;
    var prevHash := GenesisHash();
    var expectedSeq := 0;
    for i := 0 to |es|
      invariant expectedSeq == i
      invariant prevHash == HeadHash(es[..i])
      invariant Chain(c, es[..i])
    {
      var line := es[i];
      if line.hash.None? || line.payload.seqNo != Some(expectedSeq)
         || line.payload.prevHash != Some(prevHash)
         || c.hash(prevHash, line.payload) != line.hash.value
      {
        assert !Link(c, es[i], HeadHash(es[..i]), i);
        return Tampered;
      }
      ChainExtend(c, es[..i], line);
      assert es[..i] + [line] == es[..i + 1];
      prevHash := line.hash.value;
      expectedSeq := expectedSeq + 1;
    }
    assert es[..|es|] == es;
    return Intact;
  }

  lemma ChainExtend(c: Codec, es: seq<Entry>, e: Entry)
    ensures Chain(c, es + [e]) <==> Chain(c, es) && Link(c, e, HeadHash(es), |es|)
  {
    var fs := es + [e];
    assert fs[..|es|] == es;
    assert forall i :: 0 <= i < |es| ==> fs[i] == es[i] && fs[..i] == es[..i];
    assert fs[|es|] == e;
  }

  /** Every prefix of an intact log is intact: the chain cannot reveal a cut-off end. */
  lemma PrefixVerifies(c: Codec, es: seq<Entry>, n: nat)
    requires Chain(c, es) && n <= |es|
    ensures Chain(c, es[..n])
  {
    var p := es[..n];
    forall i | 0 <= i < n ensures Link(c, p[i], HeadHash(p[..i]), i) {
      assert p[..i] == es[..i];
      assert p[i] == es[i];
    }
  }

  /** Tamper evidence: two intact nonempty logs with the same final hash are the same log. */
  lemma {:induction false} SameHeadSameRecords(c: Codec, es: seq<Entry>, fs: seq<Entry>)
    requires Injective(c)
    requires Chain(c, es) && Chain(c, fs)
    requires es != [] && fs != [] && HeadHash(es) == HeadHash(fs)
    ensures es == fs
    decreases |es|
  {
    var es', e := UnlinkLast(c, es);
    var fs', f := UnlinkLast(c, fs);
    SameEntry(c, e, HeadHash(es'), |es'|, f, HeadHash(fs'), |fs'|);
    if es' != [] {
      SameHeadSameRecords(c, es', fs');
    }
  }

  lemma UnlinkLast(c: Codec, es: seq<Entry>) returns (rest: seq<Entry>, last: Entry)
    requires Chain(c, es) && es != []
    ensures es == rest + [last] && Some(HeadHash(es)) == last.hash
    ensures Chain(c, rest) && Link(c, last, HeadHash(rest), |rest|)
  {
    rest, last := es[..|es| - 1], es[|es| - 1];
    PrefixVerifies(c, es, |es| - 1);
  }

  lemma SameEntry(c: Codec, e: Entry, p: string, m: int, f: Entry, q: string, n: int)
    requires Injective(c)
    requires Link(c, e, p, m) && Link(c, f, q, n) && e.hash == f.hash
    ensures e == f && p == q && m == n
  {
  }

  // --- append ---

  datatype Event = Event(ts: string, stage: string, event: string, jobId: string, actor: string,
                         artifact: Option<string>, extra: map<string, string>)

  const PROHIBITED_KEYS: set<string> := {
    "title", "body", "text", "source_url", "url", "author", "domain",
    "review_message", "name", "email", "phone"
  }

  /** The digest check; the regular expression's "$" also matches before one final newline. */
  predicate IsSha256(s: string) {
    && (|s| == 64 || (|s| == 65 && s[64] == '\n'))
    && forall i :: 0 <= i < 64 ==> '0' <= s[i] <= '9' || 'a' <= s[i] <= 'f'
  }

  function Fields(ev: Event): map<string, Json> {
    map["ts" := Text(ev.ts), "stage" := Text(ev.stage), "event" := Text(ev.event),
        "job_id" := Text(ev.jobId), "actor" := Text(ev.actor)]
    + (if ev.artifact.Some? then map["artifact_sha256" := Text(ev.artifact.value)] else map[])
    + (if ev.extra != map[] then map["extra" := Object(ev.extra)] else map[])
  }

  function MakeEntry(c: Codec, n: int, prev: string, ev: Event): Entry {
    var payload := Payload(Some(n), Some(prev), Fields(ev));
    Entry(payload, Some(c.hash(prev, payload)))
  }

  /** The next sequence number and the hash to link to, read off the last line alone. */
  function Tail(c: Codec, f: Bytes): Result<(int, string), Error> {
    match LastLine(f)
    case None => Ok((0, GenesisHash()))
    case Some(l) =>
      match c.parse(l)
      case None => Err(Unexpected)
      case Some(e) =>
        if e.payload.seqNo.None? || e.hash.None? then Err(Unexpected)
        else Ok((e.payload.seqNo.value + 1, e.hash.value))
  }

  predicate Accepted(ev: Event) {
    && PROHIBITED_KEYS * ev.extra.Keys == {}
    && (ev.artifact.Some? ==> IsSha256(ev.artifact.value))
  }

  /** The record an append adds, or why it refuses. */
  function Appended(c: Codec, posix: bool, f: Bytes, ev: Event): Result<Entry, Error> {
    if !Accepted(ev) then Err(InvalidInput)
    else if !posix then Err(MissingDependency)
    else match Tail(c, f)
      case Err(e) => Err(e)
      case Ok(t) => Ok(MakeEntry(c, t.0, t.1, ev))
  }

  class Log {
    var file: Bytes
    const codec: Codec
    const posix: bool

    constructor (codec: Codec, posix: bool)
      ensures this.codec == codec && this.posix == posix && file == []
    {
      this.codec, this.posix, file := codec, posix, [];
    }

    /** Append one event under the lock; a refusal leaves the file as it was. */
    method Append(ev: Event, block: nat) returns (r: Result<Entry, Error>)
      requires block >= 1
      modifies this
      ensures r == Appended(codec, posix, old(file), ev)
      ensures file == match r
                      case Ok(e) => old(file) + codec.render(e) + [10]
                      case Err(_) => old(file)
    {
      if PROHIBITED_KEYS * ev.extra.Keys != {} { return Err(InvalidInput); }
      if ev.artifact.Some? && !IsSha256(ev.artifact.value) { return Err(InvalidInput); }
      if !posix { return Err(MissingDependency); }
      var last := ReadLastLine(file, block);
      var n, prev := 0, GenesisHash();
      if last.Some? {
        var e := codec.parse(last.value);
        if e.None? || e.value.payload.seqNo.None? || e.value.hash.None? {
          return Err(Unexpected);
        }
        n, prev := e.value.payload.seqNo.value + 1, e.value.hash.value;
      }
      assert Tail(codec, file) == Ok((n, prev));
      var record := MakeEntry(codec, n, prev, ev);
      file := file + codec.render(record) + [LF];
      return Ok(record);
    }
  }

  // --- appending to an intact log ---

  /** Nothing but whitespace follows the last line boundary. */
  ghost predicate AtLineStart(f: Bytes) { Blank(f[LineStart(f)..]) }

  lemma {:induction false} LinesOfBlank(x: Bytes)
    requires All(IsSpace, x)
    ensures Lines(x) == []
    decreases |x|
  {
    if x != [] {
      var i := FirstSeparator(x);
      if i == |x| {
        TrimEmptyIffAll(IsSpace, x);
      } else {
        TrimEmptyIffAll(IsSpace, x[..i]);
        LinesOfBlank(x[i + 1..]);
      }
    }
  }

  /** A text whose lines all parse and that is itself one object is a single line. */
  lemma {:induction false} OneObjectOneLine(c: Codec, x: Bytes)
    requires Faithful(c)
    requires c.parse(Trim(IsSpace, x)).Some?
    requires ParseAll(c, Lines(x)).Some?
    ensures Lines(x) == [Trim(IsSpace, x)]
    decreases |x|
  {
    var i := FirstSeparator(x);
    NotBlank(c, x);
    if i < |x| {
      var p, rest := x[..i], x[i + 1..];
      ParseAllSplit(c, Piece(p), Lines(rest));
      OneOfTwo(c, x, i);
      if Piece(p) == [] {
        OneObjectOneLine(c, rest);
      }
    }
  }

  /** Around a separator only one side of an object's text can be nonblank. */
  lemma OneOfTwo(c: Codec, x: Bytes, i: nat)
    requires Faithful(c) && i < |x| && IsSeparator(x[i])
    requires c.parse(Trim(IsSpace, x)).Some?
    requires ParseAll(c, Piece(x[..i])).Some?
    ensures Piece(x[..i]) == [] ==> Trim(IsSpace, x) == Trim(IsSpace, x[i + 1..])
    ensures Piece(x[..i]) != [] ==> Trim(IsSpace, x) == Trim(IsSpace, x[..i]) && Lines(x[i + 1..]) == []
  {
    TrimEmptyIffAll(IsSpace, x[..i]);
    if All(IsSpace, x[..i]) {
      BlankInFront(x, i);
    } else {
      TextInFront(c, x, i);
    }
  }

  lemma BlankInFront(x: Bytes, i: nat)
    requires i < |x| && IsSeparator(x[i]) && All(IsSpace, x[..i])
    ensures Trim(IsSpace, x) == Trim(IsSpace, x[i + 1..])
  {
    assert forall k :: 0 <= k < i ==> x[k] == x[..i][k];
    TrimShift(IsSpace, x, i + 1, x[i + 1..]);
  }

  lemma TextInFront(c: Codec, x: Bytes, i: nat)
    requires Faithful(c) && i < |x| && IsSeparator(x[i])
    requires c.parse(Trim(IsSpace, x)).Some? && !All(IsSpace, x[..i])
    requires ParseAll(c, [Trim(IsSpace, x[..i])]).Some?
    ensures Trim(IsSpace, x) == Trim(IsSpace, x[..i]) && Lines(x[i + 1..]) == []
  {
    var p, q := x[..i], x[i..];
    ParseOne(c, Trim(IsSpace, p));
    SplitAt(x, i);
    if Blank(q) {
      assert q[1..] == x[i + 1..];
      LinesOfBlank(q[1..]);
      TrimPadRight(IsSpace, p, q);
    } else {
      MoreThanAnObject(c, p, q);
    }
  }

  lemma NotBlank(c: Codec, x: Bytes)
    requires Faithful(c) && c.parse(Trim(IsSpace, x)).Some?
    ensures Trim(IsSpace, x) != []
  {
    assert Blank([]);
  }

  /** An object followed by more text is no object. */
  lemma MoreThanAnObject(c: Codec, p: Bytes, q: Bytes)
    requires Faithful(c) && c.parse(Trim(IsSpace, p)).Some?
    requires !All(IsSpace, p) && !Blank(q)
    ensures c.parse(Trim(IsSpace, p + q)).None?
  {
    var m := TrimConcat(IsSpace, p, q);
    TrimEmptyIffAll(IsSpace, m);
    assert Followed(Trim(IsSpace, p), m) == Trim(IsSpace, p + q);
  }

  function LastRecord(c: Codec, f: Bytes): Option<Entry> {
    match ReadLines(c, f)
    case None => None
    case Some(es) => if es == [] then None else Some(es[|es| - 1])
  }

  /** The backward reader's last line is the last record the line reader sees. */
  lemma LastLineIsLastRecord(c: Codec, f: Bytes)
    requires Faithful(c) && ReadLines(c, f).Some?
    ensures LastLine(f).None? ==> ReadLines(c, f) == Some([])
    ensures LastLine(f).Some? && c.parse(LastLine(f).value).Some? ==>
              LastRecord(c, f) == c.parse(LastLine(f).value)
  {
    var t := TrimRight(IsLineEnd, f);
    LinesDropLineEnds(f, Keep(IsLineEnd, f));
    if t != [] {
      LastLineOfStripped(c, t, LastLf(t) + 1);
    }
  }

  lemma LastLineOfStripped(c: Codec, t: Bytes, n: nat)
    requires Faithful(c) && ReadLines(c, t).Some? && n == LastLf(t) + 1
    ensures c.parse(t[n..]).Some? ==> LastRecord(c, t) == c.parse(t[n..])
  {
    var head, last := t[..n], t[n..];
    HeadEndsLine(t, n);
    if c.parse(last).Some? {
      LastOfSplit(c, t, head, last);
    }
  }

  lemma HeadEndsLine(t: Bytes, n: nat)
    requires n == LastLf(t) + 1
    ensures EndsWithSeparator(t[..n]) && t == t[..n] + t[n..]
  {
    SplitAt(t, n);
    assert n > 0 ==> t[..n][n - 1] == LF;
  }

  lemma LastOfSplit(c: Codec, t: Bytes, head: Bytes, last: Bytes)
    requires Faithful(c) && t == head + last && EndsWithSeparator(head)
    requires ReadLines(c, t).Some? && c.parse(last).Some?
    ensures LastRecord(c, t) == c.parse(last)
  {
    LinesSplit(head, last);
    ParseAllSplit(c, Lines(head), Lines(last));
    OneObjectOneLine(c, last);
    ParseOne(c, Trim(IsSpace, last));
  }

  lemma {:induction false} ParseAllSplit(c: Codec, a: seq<Bytes>, b: seq<Bytes>)
    ensures ParseAll(c, a + b).Some? <==> ParseAll(c, a).Some? && ParseAll(c, b).Some?
    ensures ParseAll(c, a + b).Some? ==> ParseAll(c, a + b).value == ParseAll(c, a).value + ParseAll(c, b).value
  {
    if a == [] {
      NothingInFront(a, b);
      if ParseAll(c, b).Some? { NothingInFront(ParseAll(c, a).value, ParseAll(c, b).value); }
    } else {
      assert (a + b)[0] == a[0] && (a + b)[1..] == a[1..] + b;
      ParseAllSplit(c, a[1..], b);
    }
  }

  /** On an intact log the tail is the number of records and the head hash, and it is refused
      exactly when there is a last line, by line feeds alone, that is no record. */
  lemma TailOfIntact(c: Codec, f: Bytes)
    requires Faithful(c) && VerdictOf(c, f) == Intact
    ensures Tail(c, f).Ok? <==> LastLine(f).None? || c.parse(LastLine(f).value).Some?
    ensures Tail(c, f).Ok? ==>
              var es := ReadLines(c, f).value;
              Tail(c, f).value == (|es|, HeadHash(es))
  {
    LastLineIsLastRecord(c, f);
    var es := ReadLines(c, f).value;
    if LastLine(f).Some? && c.parse(LastLine(f).value).Some? {
      LastOfChain(c, es);
      TailIs(c, f, LastLine(f).value, es[|es| - 1]);
    }
  }

  lemma LastOfChain(c: Codec, es: seq<Entry>)
    requires Chain(c, es) && es != []
    ensures var e := es[|es| - 1]; e.payload.seqNo == Some(|es| - 1) && e.hash == Some(HeadHash(es))
  {
    assert Link(c, es[|es| - 1], HeadHash(es[..|es| - 1]), |es| - 1);
  }

  /** The file is empty or ends with a line feed, as append leaves it. */
  ghost predicate Closed(f: Bytes) { f == [] || f[|f| - 1] == LF }

  lemma ClosedAtLineStart(f: Bytes)
    requires Closed(f)
    ensures LineStart(f) == |f| && AtLineStart(f)
  {
    TrimEmptyIffAll(IsSpace, f[|f|..]);
  }

  /** Behind a closed file, text without a line end is the last line. */
  lemma LastLineBehind(f: Bytes, x: Bytes, ends: Bytes)
    requires Closed(f) && x != [] && (forall k :: 0 <= k < |x| ==> !IsLineEnd(x[k]))
    requires forall k :: 0 <= k < |ends| ==> IsLineEnd(ends[k])
    ensures LastLine(f + x + ends) == Some(x)
  {
    var g, t := f + x + ends, f + x;
    assert g[|t| - 1] == x[|x| - 1];
    assert forall k :: |t| <= k < |g| ==> g[k] == ends[k - |t|];
    KeepIs(g, |t|);
    LastLineFrom(g, t, f, x);
  }

  lemma LastLineFrom(g: Bytes, t: Bytes, f: Bytes, x: Bytes)
    requires TrimRight(IsLineEnd, g) == t == f + x && x != []
    requires Closed(f) && forall k :: 0 <= k < |x| ==> !IsLineEnd(x[k])
    ensures LastLine(g) == Some(x)
  {
    LastLfBehind(f, x);
    assert t[|f|..] == x;
  }

  /** The same with no line end behind it. */
  lemma LastLineOpen(f: Bytes, x: Bytes)
    requires Closed(f) && x != [] && (forall k :: 0 <= k < |x| ==> !IsLineEnd(x[k]))
    ensures LastLine(f + x) == Some(x)
  {
    var t := f + x;
    assert t[|t| - 1] == x[|x| - 1];
    KeepIs(t, |t|);
    assert t[..|t|] == t;
    LastLineFrom(t, t, f, x);
  }

  lemma KeepIs(g: Bytes, k: nat)
    requires 0 < k <= |g| && !IsLineEnd(g[k - 1]) && forall m :: k <= m < |g| ==> IsLineEnd(g[m])
    ensures Keep(IsLineEnd, g) == k
  {
  }

  lemma LastLfBehind(f: Bytes, x: Bytes)
    requires Closed(f) && forall k :: 0 <= k < |x| ==> !IsLineEnd(x[k])
    ensures LastLf(f + x) == |f| - 1
  {
    if f == [] {
      var i := LastLf(f + x);
      assert i >= 0 ==> !IsLineEnd((f + x)[i]);
    } else {
      LastLfUnique(f + x, |f| - 1);
    }
  }

  /** A closed intact log followed by one space is still intact and at a line start, and yet
      refuses every append. */
  lemma PaddedLogRefuses(c: Codec, posix: bool, f: Bytes, ev: Event)
    requires Faithful(c) && VerdictOf(c, f) == Intact && Closed(f)
    ensures var g := f + [32];
            VerdictOf(c, g) == Intact && AtLineStart(g) && Tail(c, g).Err? && Appended(c, posix, g, ev).Err?
  {
    PaddedAtLineStart(f);
    PaddedLines(f);
    PaddedLastLine(f);
    BlankTailRefuses(c, f + [32]);
  }

  lemma BlankTailRefuses(c: Codec, g: Bytes)
    requires ParsesObjects(c) && LastLine(g).Some? && Blank(LastLine(g).value)
    ensures Tail(c, g).Err?
  {
  }

  lemma PaddedLines(f: Bytes)
    requires Closed(f)
    ensures Lines(f + [32]) == Lines(f)
  {
    LinesSplit(f, [32]);
    LinesOfBlank([32]);
    assert Lines(f) + [] == Lines(f);
  }

  lemma PaddedLastLine(f: Bytes)
    requires Closed(f)
    ensures LastLine(f + [32]).Some? && Blank(LastLine(f + [32]).value)
  {
    LastLineOpen(f, [32]);
  }

  lemma PaddedAtLineStart(f: Bytes)
    requires Closed(f)
    ensures AtLineStart(f + [32])
  {
    var g := f + [32];
    assert g[..|f|] == f;
    ClosedAtLineStart(f);
    assert LineStart(g) == |f|;
  }

  /** The lines of a log after one more record has been written at its end. */
  lemma LinesAfterAppend(c: Codec, f: Bytes, e: Entry)
    requires Faithful(c)
    ensures AtLineStart(f) ==> Lines(f + c.render(e) + [LF]) == Lines(f) + [c.render(e)]
    ensures ReadLines(c, f).Some? && !AtLineStart(f) ==> ReadLines(c, f + c.render(e) + [LF]).None?
  {
    var i, r := LineStart(f), c.render(e);
    OpenLine(c, f, e);
    Regroup(f, i, r);
    LinesGrow(c, f[..i], f[i..], f[i..] + r + [LF], r);
  }

  /** The finished lines stay, whatever becomes of the open one. */
  lemma LinesGrow(c: Codec, head: Bytes, open: Bytes, more: Bytes, r: Bytes)
    requires EndsWithSeparator(head)
    ensures Lines(open) == [] && Lines(more) == [r] ==> Lines(head + more) == Lines(head + open) + [r]
    ensures ReadLines(c, head + open).Some? && (ParseAll(c, Lines(open)).Some? ==> ParseAll(c, Lines(more)).None?) ==>
              ReadLines(c, head + more).None?
  {
    SplitLines(c, head, open);
    SplitLines(c, head, more);
    if Lines(open) == [] {
      assert Lines(head) + [] == Lines(head);
    }
  }

  lemma Regroup(f: Bytes, i: nat, r: Bytes)
    requires i <= |f|
    ensures f[..i] + f[i..] == f
    ensures f + r + [LF] == f[..i] + (f[i..] + r + [LF])
  {
    SplitAt(f, i);
    assert f[..i] + f[i..] + r + [LF] == f[..i] + (f[i..] + r + [LF]);
  }

  lemma SplitLines(c: Codec, head: Bytes, open: Bytes)
    requires EndsWithSeparator(head)
    ensures Lines(head + open) == Lines(head) + Lines(open)
    ensures ReadLines(c, head + open).Some? <==> ReadLines(c, head).Some? && ParseAll(c, Lines(open)).Some?
  {
    LinesSplit(head, open);
    ParseAllSplit(c, Lines(head), Lines(open));
  }

  /** The same for the unfinished line alone. */
  lemma OpenLine(c: Codec, f: Bytes, e: Entry)
    requires Faithful(c)
    ensures var open := f[LineStart(f)..];
            && (AtLineStart(f) ==> Lines(open) == [] && Lines(open + c.render(e) + [LF]) == [c.render(e)])
            && (!AtLineStart(f) && ParseAll(c, Lines(open)).Some? ==>
                  ParseAll(c, Lines(open + c.render(e) + [LF])).None?)
  {
    var i := LineStart(f);
    var open, r := f[i..], c.render(e);
    assert forall k :: 0 <= k < |open| ==> open[k] == f[i + k];
    if Blank(open) {
      BlankLineThen(c, open, r);
    } else {
      TextThenMore(c, open, r);
    }
  }

  lemma BlankLineThen(c: Codec, open: Bytes, r: Bytes)
    requires forall k :: 0 <= k < |open| ==> !IsSeparator(open[k])
    requires forall k :: 0 <= k < |r| ==> !IsSeparator(r[k])
    requires Blank(open) && Trim(IsSpace, r) == r != []
    ensures Lines(open) == [] && Lines(open + r + [LF]) == [r]
  {
    LinesNoSeparator(open);
    LinesClosed(open + r, LF);
    TrimEmptyIffAll(IsSpace, open);
    TrimPadLeft(IsSpace, open, r);
  }

  lemma TextThenMore(c: Codec, open: Bytes, r: Bytes)
    requires Faithful(c)
    requires forall k :: 0 <= k < |open| ==> !IsSeparator(open[k])
    requires forall k :: 0 <= k < |r| ==> !IsSeparator(r[k])
    requires !Blank(open) && Trim(IsSpace, r) != []
    ensures ParseAll(c, Lines(open)).Some? ==> ParseAll(c, Lines(open + r + [LF])).None?
  {
    LinesNoSeparator(open);
    LinesClosed(open + r, LF);
    TrimEmptyIffAll(IsSpace, open);
    TrimEmptyIffAll(IsSpace, r);
    ParseOne(c, Trim(IsSpace, open));
    if c.parse(Trim(IsSpace, open)).Some? {
      MoreThanAnObject(c, open, r);
      var m := TrimConcat(IsSpace, open, r);
      ParseOne(c, Trim(IsSpace, open + r));
    }
  }

  /** A successful append keeps an intact log intact exactly when the log ended at a line start. */
  lemma AppendKeepsIntact(c: Codec, posix: bool, f: Bytes, ev: Event)
    requires Faithful(c) && VerdictOf(c, f) == Intact
    requires Appended(c, posix, f, ev).Ok?
    ensures var e := Appended(c, posix, f, ev).value;
            var g := f + c.render(e) + [LF];
            && (VerdictOf(c, g) == Intact <==> AtLineStart(f))
            && (AtLineStart(f) ==> ReadLines(c, g) == Some(ReadLines(c, f).value + [e]) && Closed(g))
  {
    var e := Appended(c, posix, f, ev).value;
    TailOfIntact(c, f);
    LinesAfterAppend(c, f, e);
    if AtLineStart(f) {
      ReadAfterAppend(c, f, e);
      ChainExtend(c, ReadLines(c, f).value, e);
    }
  }

  lemma ReadAfterAppend(c: Codec, f: Bytes, e: Entry)
    requires Faithful(c) && AtLineStart(f) && ReadLines(c, f).Some?
    ensures ReadLines(c, f + c.render(e) + [LF]) == Some(ReadLines(c, f).value + [e])
  {
    LinesAfterAppend(c, f, e);
    ParseAllSplit(c, Lines(f), [c.render(e)]);
    ParseOne(c, c.render(e));
  }

  /** The next append finds the tail of a log that append closed. */
  lemma TailAfterAppend(c: Codec, f: Bytes, e: Entry)
    requires Faithful(c) && Closed(f) && e.payload.seqNo.Some? && e.hash.Some?
    ensures Tail(c, f + c.render(e) + [LF]) == Ok((e.payload.seqNo.value + 1, e.hash.value))
  {
    var r := c.render(e);
    RecordIsLine(c, e);
    LastLineBehind(f, r, [LF]);
    TailIs(c, f + r + [LF], r, e);
  }

  lemma RecordIsLine(c: Codec, e: Entry)
    requires Faithful(c)
    ensures c.render(e) != [] && c.parse(c.render(e)) == Some(e)
    ensures forall k :: 0 <= k < |c.render(e)| ==> !IsSeparator(c.render(e)[k]) && !IsLineEnd(c.render(e)[k])
  {
    var r := c.render(e);
    forall k | 0 <= k < |r| ensures !IsSeparator(r[k]) && !IsLineEnd(r[k]) {
      assert !IsSeparator(c.render(e)[k]);
    }
  }

  lemma TailIs(c: Codec, g: Bytes, r: Bytes, e: Entry)
    requires LastLine(g) == Some(r) && c.parse(r) == Some(e) && e.payload.seqNo.Some? && e.hash.Some?
    ensures Tail(c, g) == Ok((e.payload.seqNo.value + 1, e.hash.value))
  {
  }

  // --- a write cut short ---

  /** The first n bytes of a record are no record, unless it is all of them. */
  lemma TornRecord(c: Codec, e: Entry, n: nat)
    requires Faithful(c) && 0 < n < |c.render(e)|
    ensures var x := c.render(e)[..n];
            c.parse(x).None? && Trim(IsSpace, x) != [] && c.parse(Trim(IsSpace, x)).None?
  {
    var r := c.render(e);
    var x := r[..n];
    assert Trim(IsSpace, r) == r;
    assert !IsSpace(r[0]) && !IsSpace(r[|r| - 1]);
    assert x[0] == r[0];
    TrimEmptyIffAll(IsSpace, x);
    PrefixIsNoRecord(c, e, n);
    var k := Keep(IsSpace, x);
    TrimIs(IsSpace, x, 0, k);
    assert x[..k] == r[..k];
    PrefixIsNoRecord(c, e, k);
  }

  lemma PrefixIsNoRecord(c: Codec, e: Entry, n: nat)
    requires Faithful(c) && n < |c.render(e)| && !IsSpace(c.render(e)[|c.render(e)| - 1])
    ensures c.parse(c.render(e)[..n]).None?
  {
    var r := c.render(e);
    SplitAt(r, n);
    assert r[n..][|r| - n - 1] == r[|r| - 1];
    assert Followed(r[..n], r[n..]) == r;
  }

  /** A writer that dies inside the write leaves the first n bytes of its line. With none of them
      nothing happened. With the whole record but no line feed the log is intact, but the next
      append that goes through makes it unreadable. Anything in between is unreadable at once,
      and no append goes through any more. */
  lemma TornWrite(c: Codec, f: Bytes, e: Entry, n: nat)
    requires Faithful(c) && VerdictOf(c, f) == Intact && Closed(f)
    requires Link(c, e, HeadHash(ReadLines(c, f).value), |ReadLines(c, f).value|)
    requires n <= |c.render(e)|
    ensures var g := f + c.render(e)[..n];
            && (VerdictOf(c, g) == Intact <==> n == 0 || n == |c.render(e)|)
            && (0 < n < |c.render(e)| ==> VerdictOf(c, g) == Unreadable && Tail(c, g).Err?)
            && (n == |c.render(e)| ==> ReadLines(c, g) == Some(ReadLines(c, f).value + [e]) && !AtLineStart(g))
  {
    var r := c.render(e);
    if n == 0 {
      assert f + r[..n] == f;
    } else if n < |r| {
      TornInside(c, f, e, n, r[..n]);
    } else {
      assert r[..n] == r;
      TornAtEnd(c, f, e);
    }
  }

  lemma TornInside(c: Codec, f: Bytes, e: Entry, n: nat, x: Bytes)
    requires Faithful(c) && Closed(f) && 0 < n < |c.render(e)| && x == c.render(e)[..n]
    ensures VerdictOf(c, f + x) == Unreadable && Tail(c, f + x).Err?
  {
    TornRecord(c, e, n);
    RecordIsLine(c, e);
    assert forall k :: 0 <= k < n ==> x[k] == c.render(e)[k];
    TornLines(c, f, x);
    LastLineOpen(f, x);
  }

  lemma TornLines(c: Codec, f: Bytes, x: Bytes)
    requires Closed(f) && forall k :: 0 <= k < |x| ==> !IsSeparator(x[k])
    requires Trim(IsSpace, x) != [] && c.parse(Trim(IsSpace, x)).None?
    ensures ReadLines(c, f + x).None?
  {
    SplitLines(c, f, x);
    LinesNoSeparator(x);
    ParseOne(c, Trim(IsSpace, x));
  }

  lemma TornAtEnd(c: Codec, f: Bytes, e: Entry)
    requires Faithful(c) && VerdictOf(c, f) == Intact && Closed(f)
    requires Link(c, e, HeadHash(ReadLines(c, f).value), |ReadLines(c, f).value|)
    ensures var g := f + c.render(e);
            && VerdictOf(c, g) == Intact && !AtLineStart(g)
            && ReadLines(c, g) == Some(ReadLines(c, f).value + [e])
  {
    var r := c.render(e);
    assert forall k :: 0 <= k < |r| ==> !IsSeparator(r[k]);
    assert Lines(r) == [r] by {
      LinesNoSeparator(r);
      assert Trim(IsSpace, r) == r != [];
    }
    ParseOne(c, r);
    LinesSplit(f, r);
    ParseAllSplit(c, Lines(f), [r]);
    ChainExtend(c, ReadLines(c, f).value, e);
    OpenRecord(c, f, e);
  }

  /** Behind a record without its line feed any more text of a record spoils the line. */
  lemma OpenLineSpoiled(c: Codec, f: Bytes, e: Entry, x: Bytes)
    requires Faithful(c) && Closed(f)
    requires x != [] && !IsSpace(x[0]) && forall k :: 0 <= k < |x| ==> !IsSeparator(x[k]) && !IsLineEnd(x[k])
    ensures var g := f + (c.render(e) + x);
            && VerdictOf(c, g) == Unreadable && Tail(c, g).Err?
            && VerdictOf(c, g + [LF]) == Unreadable && Tail(c, g + [LF]).Err?
  {
    var y := c.render(e) + x;
    RecordIsLine(c, e);
    GluedIsNoRecord(c, e, x);
    NoRecordSpoils(c, f, y);
  }

  lemma NoRecordSpoils(c: Codec, f: Bytes, y: Bytes)
    requires Closed(f) && y != [] && forall k :: 0 <= k < |y| ==> !IsSeparator(y[k]) && !IsLineEnd(y[k])
    requires c.parse(y).None? && Trim(IsSpace, y) != [] && c.parse(Trim(IsSpace, y)).None?
    ensures VerdictOf(c, f + y) == Unreadable && Tail(c, f + y).Err?
    ensures VerdictOf(c, f + y + [LF]) == Unreadable && Tail(c, f + y + [LF]).Err?
  {
    TornLines(c, f, y);
    LinesDropOne(f + y, LF);
    LastLineOpen(f, y);
    LastLineBehind(f, y, [LF]);
  }

  lemma GluedIsNoRecord(c: Codec, e: Entry, x: Bytes)
    requires Faithful(c) && x != [] && !IsSpace(x[0])
    ensures var y := c.render(e) + x; c.parse(y).None? && Trim(IsSpace, y) != [] && c.parse(Trim(IsSpace, y)).None?
  {
    var r := c.render(e);
    assert Trim(IsSpace, r) == r != [];
    TrimEmptyIffAll(IsSpace, r);
    assert !Blank(x);
    assert Followed(r, x) == r + x;
    var m := TrimConcat(IsSpace, r, x);
    TrimEmptyIffAll(IsSpace, m);
    assert Followed(r, m) == r + m;
  }

  lemma OpenRecord(c: Codec, f: Bytes, e: Entry)
    requires Faithful(c) && Closed(f)
    ensures !AtLineStart(f + c.render(e))
  {
    var r := c.render(e);
    LineStartBehind(f, r);
    assert (f + r)[|f|..] == r;
    TrimEmptyIffAll(IsSpace, r);
    assert Trim(IsSpace, r) == r != [];
  }

  lemma {:induction false} LineStartBehind(f: Bytes, x: Bytes)
    requires Closed(f) && forall k :: 0 <= k < |x| ==> !IsSeparator(x[k])
    ensures LineStart(f + x) == |f|
    decreases |x|
  {
    if x == [] {
      assert f + x == f;
    } else {
      var n := |x| - 1;
      assert (f + x)[..|f| + n] == f + x[..n];
      LineStartBehind(f, x[..n]);
    }
  }

  /** What append itself writes always ends at a line start, as does the missing or empty file. */
  lemma EmptyLogIntact(c: Codec)
    ensures VerdictOf(c, []) == Intact && AtLineStart([]) && ReadLines(c, []) == Some([])
  {
    TrimEmptyIffAll(IsSpace, []);
  }

  // --- codecs of this kind exist ---

  /** A line for number n: n strokes and an end mark. */
  function Strokes(n: nat): Bytes { seq(n, _ => 49) + [48] }

  ghost function Numbered(code: Entry -> nat, line: Bytes): Option<Entry> {
    if e :| line == Strokes(code(e)) then Some(e) else None
  }

  ghost function Unstroke(code: Entry -> nat, a: Bytes): Option<Entry> { Numbered(code, Trim(IsSpace, a)) }

  lemma StrokesTrim(n: nat)
    ensures Trim(IsSpace, Strokes(n)) == Strokes(n)
  {
    TrimIs(IsSpace, Strokes(n), 0, n + 1);
    assert Strokes(n)[0..n + 1] == Strokes(n);
  }

  lemma StrokesDiffer(m: nat, n: nat)
    requires Strokes(m) == Strokes(n)
    ensures m == n
  {
    assert |Strokes(m)| == m + 1;
  }

  lemma TrimTwice(a: Bytes)
    ensures Trim(IsSpace, Trim(IsSpace, a)) == Trim(IsSpace, a)
  {
    var t := Trim(IsSpace, a);
    if t != [] {
      TrimIs(IsSpace, t, 0, |t|);
      assert t[0..|t|] == t;
    }
  }

  lemma NotAStroke(a: Bytes, b: Bytes, m: nat, n: nat)
    requires Trim(IsSpace, a) == Strokes(m) && !Blank(b)
    ensures Trim(IsSpace, Followed(a, b)) != Strokes(n)
  {
    TrimEmptyIffAll(IsSpace, a);
    var rest := TrimConcat(IsSpace, a, b);
    var t := Strokes(m) + rest;
    assert rest != [] && t[m] == 48 && |t| > m + 1;
    assert n > m ==> Strokes(n)[m] == 49;
    assert |Strokes(n)| == n + 1;
  }

  lemma StrokesRender(code: Entry -> nat, hash: (string, Payload) -> string)
    requires forall e, f :: code(e) == code(f) ==> e == f
    ensures Renders(Codec(hash, e => Strokes(code(e)), a => Unstroke(code, a)))
  {
    var c := Codec(hash, e => Strokes(code(e)), a => Unstroke(code, a));
    forall e ensures c.parse(c.render(e)) == Some(e) && Trim(IsSpace, c.render(e)) == c.render(e) != [] {
      StrokesTrim(code(e));
      var f := Unstroke(code, Strokes(code(e)));
      assert f.Some?;
      StrokesDiffer(code(f.value), code(e));
    }
  }

  lemma StrokesParse(code: Entry -> nat, hash: (string, Payload) -> string)
    ensures ParsesObjects(Codec(hash, e => Strokes(code(e)), a => Unstroke(code, a)))
  {
    var c := Codec(hash, e => Strokes(code(e)), a => Unstroke(code, a));
    forall a | Blank(a) ensures c.parse(a) == None {
      TrimEmptyIffAll(IsSpace, a);
    }
    forall a | c.parse(a).Some? ensures c.parse(Trim(IsSpace, a)) == c.parse(a) {
      TrimTwice(a);
    }
    forall a, b | c.parse(a).Some? && !Blank(b) ensures c.parse(Followed(a, b)) == None {
      forall e ensures Trim(IsSpace, Followed(a, b)) != Strokes(code(e)) {
        NotAStroke(a, b, code(c.parse(a).value), code(e));
      }
    }
  }

  /** For any numbering of the records there is a faithful codec: the assumption is not empty. */
  lemma FaithfulCodecExists(code: Entry -> nat, hash: (string, Payload) -> string) returns (c: Codec)
    requires forall e, f :: code(e) == code(f) ==> e == f
    ensures Faithful(c) && c.hash == hash
  {
    c := Codec(hash, e => Strokes(code(e)), a => Unstroke(code, a));
    StrokesRender(code, hash);
    StrokesParse(code, hash);
  }
}
