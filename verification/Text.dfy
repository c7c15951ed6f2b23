/** Python string operations used across the content rules, on sequences of code points. */
module Text {
  import opened Seqs

  /** Character classes and case maps of the Unicode tables: parameters of the model. */
  datatype Alphabet = Alphabet(lower: char -> char, upper: char -> char, isWord: char -> bool)

  predicate IsLineBreak(c: char) {
    var n := c as int;
    10 <= n <= 13 || 28 <= n <= 30 || n == 0x85 || n == 0x2028 || n == 0x2029
  }

  /** str.isspace, also what strip removes. */
  predicate IsSpace(c: char) {
    var n := c as int;
    9 <= n <= 13 || 28 <= n <= 32 || n == 0x85 || n == 0xA0 || n == 0x1680
    || 0x2000 <= n <= 0x200A || n == 0x2028 || n == 0x2029 || n == 0x202F || n == 0x205F || n == 0x3000
  }

  function Strip(s: string): string { Trim(IsSpace, s) }

  predicate IsBlank(s: string) { Strip(s) == [] }

  function Lower(a: Alphabet, s: string): string { seq(|s|, i requires 0 <= i < |s| => a.lower(s[i])) }

  function Upper(a: Alphabet, s: string): string { seq(|s|, i requires 0 <= i < |s| => a.upper(s[i])) }

  // --- substrings ---

  predicate OccursAt(needle: string, hay: string, i: nat) {
    i + |needle| <= |hay| && hay[i..i + |needle|] == needle
  }

  /** Python's needle in hay. */
  predicate Occurs(needle: string, hay: string) {
    exists i | 0 <= i <= |hay| :: OccursAt(needle, hay, i)
  }

  lemma OccursInLonger(needle: string, hay: string, left: string, right: string)
    requires Occurs(needle, hay)
    ensures Occurs(needle, left + hay + right)
  {
    var i :| 0 <= i <= |hay| && OccursAt(needle, hay, i);
    var big := left + hay + right;
    SameSlice(big, |left| + i, |left| + i + |needle|, hay, i, i + |needle|);
    assert OccursAt(needle, big, |left| + i);
  }

  lemma SliceOccurs(hay: string, i: nat, j: nat)
    requires i <= j <= |hay|
    ensures Occurs(hay[i..j], hay)
  {
    assert OccursAt(hay[i..j], hay, i);
  }

  lemma OccursTransitive(a: string, b: string, c: string)
    requires Occurs(a, b) && Occurs(b, c)
    ensures Occurs(a, c)
  {
    var i :| 0 <= i <= |b| && OccursAt(a, b, i);
    var j :| 0 <= j <= |c| && OccursAt(b, c, j);
    SameSlice(c, j + i, j + i + |a|, b, i, i + |a|);
    assert OccursAt(a, c, j + i);
  }

  lemma StripOccurs(s: string)
    ensures Occurs(Strip(s), s)
  {
    if Lead(IsSpace, s) < Keep(IsSpace, s) {
      SliceOccurs(s, Lead(IsSpace, s), Keep(IsSpace, s));
    } else {
      SliceOccurs(s, 0, 0);
    }
  }

  // --- lines ---

  function FirstBreak(s: string): (i: nat)
    ensures i <= |s|
    ensures i < |s| ==> IsLineBreak(s[i])
    ensures forall k :: 0 <= k < i ==> !IsLineBreak(s[k])
  {
    if s == [] || IsLineBreak(s[0]) then 0 else 1 + FirstBreak(s[1..])
  }

  function BreakWidth(s: string, i: nat): (w: nat)
    requires i < |s|
    ensures 1 <= w && i + w <= |s|
  {
    if s[i] == '\r' && i + 1 < |s| && s[i + 1] == '\n' then 2 else 1
  }

  /** str.splitlines: no final empty line, CR LF counts as one break. */
  function SplitLines(s: string): seq<string> {
    if s == [] then []
    else
      var i := FirstBreak(s);
      if i == |s| then [s] else [s[..i]] + SplitLines(s[i + BreakWidth(s, i)..])
  }

  ghost predicate SingleLine(s: string) {
    forall i :: 0 <= i < |s| ==> !IsLineBreak(s[i])
  }

  lemma {:induction false} LinesOccur(s: string, line: string)
    requires line in SplitLines(s)
    ensures Occurs(line, s)
    decreases |s|
  {
    var i := FirstBreak(s);
    PrefixOccurs(s, i);
    if i < |s| && line != s[..i] {
      var n := i + BreakWidth(s, i);
      LinesOccur(s[n..], line);
      SuffixOccurs(s, n);
      OccursTransitive(line, s[n..], s);
    } else if i == |s| {
      assert s[..i] == s;
    }
  }

  lemma PrefixOccurs(s: string, n: nat)
    requires n <= |s|
    ensures Occurs(s[..n], s)
  {
    assert OccursAt(s[..n], s, 0);
  }

  lemma SuffixOccurs(s: string, n: nat)
    requires n <= |s|
    ensures Occurs(s[n..], s)
  {
    assert s[n..n + |s[n..]|] == s[n..];
    assert OccursAt(s[n..], s, n);
  }

  /** Lines joined with a final newline each. */
  function Unlines(lines: seq<string>): string {
    if lines == [] then [] else lines[0] + "\n" + Unlines(lines[1..])
  }

  lemma {:induction false} SplitUnlines(lines: seq<string>)
    requires forall k :: 0 <= k < |lines| ==> SingleLine(lines[k])
    ensures SplitLines(Unlines(lines)) == lines
    decreases |lines|
  {
    if lines != [] {
      SplitUnlines(lines[1..]);
      SplitFirst(lines[0], Unlines(lines[1..]));
      assert lines == [lines[0]] + lines[1..];
    }
  }

  lemma SplitFirst(x: string, rest: string)
    requires SingleLine(x)
    ensures SplitLines(x + "\n" + rest) == [x] + SplitLines(rest)
  {
    LineEnds(x, "\n", rest);
  }

  /** A line ends at any line break; a carriage return with a line feed behind it is one break. */
  lemma LineEnds(x: string, end: string, rest: string)
    requires SingleLine(x)
    requires end == "\r\n" || (|end| == 1 && IsLineBreak(end[0]) && (end != "\r" || rest == [] || rest[0] != '\n'))
    ensures SplitLines(x + end + rest) == [x] + SplitLines(rest)
  {
    var s := x + end + rest;
    assert s[|x|] == end[0] && IsLineBreak(end[0]);
    FirstBreakIs(s, |x|);
    assert s[..|x|] == x && s[|x| + |end|..] == rest;
    assert |end| == 1 && |x| + 1 < |s| ==> s[|x| + 1] == rest[0];
    assert |end| == 2 ==> s[|x| + 1] == '\n';
  }

  lemma FirstBreakIs(s: string, i: nat)
    requires i < |s| && IsLineBreak(s[i]) && forall k :: 0 <= k < i ==> !IsLineBreak(s[k])
    ensures FirstBreak(s) == i
  {
  }

  // --- joining ---

  function Join(sep: string, parts: seq<string>): string {
    if parts == [] then []
    else if |parts| == 1 then parts[0]
    else parts[0] + sep + Join(sep, parts[1..])
  }

  /** The parts with any text in them (Python's "if p" filter). */
  function NonEmpty(parts: seq<string>): seq<string> {
    if parts == [] then []
    else if parts[0] == [] then NonEmpty(parts[1..])
    else [parts[0]] + NonEmpty(parts[1..])
  }
}
