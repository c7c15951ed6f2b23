/** Which texts the loose host parser takes for numbers, and what sign and padding do to them. */
module NetNumbers {
  import opened Wrappers
  import opened Text
  import opened NetGuard
  import Seqs

  predicate IsBase(base: nat) { base in {2, 8, 10, 16} }

  predicate IsDigitOf(c: char, base: nat) {
    if base == 2 then c in "01"
    else if base == 8 then c in "01234567"
    else if base == 10 then c in "0123456789"
    else c in "0123456789abcdefABCDEF"
  }

  lemma DigitsOfBase(c: char, base: nat)
    requires IsBase(base)
    ensures IsDigit(c, base) <==> IsDigitOf(c, base)
  {
    var d := "0123456789abcdefABCDEF";
    if '0' <= c <= '9' {
      DecimalDigit(c);
    } else {
      if 'a' <= c <= 'f' { assert d[c as int - 'a' as int + 10] == c; }
      if 'A' <= c <= 'F' { assert d[c as int - 'A' as int + 16] == c; }
    }
  }

  lemma DecimalDigit(c: char)
    requires '0' <= c <= '9'
    ensures c in "0123456789abcdefABCDEF" && c in "0123456789"
    ensures c <= '7' <==> c in "01234567"
    ensures c <= '1' <==> c in "01"
  {
    var i := c as int - '0' as int;
    assert "0123456789abcdefABCDEF"[i] == c && "0123456789"[i] == c;
    if i < 8 { assert "01234567"[i] == c; }
    if i < 2 { assert "01"[i] == c; }
  }

  /** Digits of the base, single underscores allowed between them. */
  ghost predicate WellFormed(s: string, base: nat) {
    && s != [] && s[0] != '_' && s[|s| - 1] != '_'
    && (forall i :: 0 <= i < |s| ==> s[i] == '_' || IsDigitOf(s[i], base))
    && (forall i :: 0 < i < |s| ==> s[i] != '_' || s[i - 1] != '_')
  }

  lemma ShorterForm(s: string, base: nat, n: nat)
    requires n < |s| && (n == 1 || (n == 2 && s[1] == '_')) && s[0] != '_' && IsDigitOf(s[0], base)
    requires n == 1 ==> s[1] != '_'
    ensures WellFormed(s, base) <==> WellFormed(s[n..], base)
  {
    if WellFormed(s[n..], base) { WholeIsFormed(s, base, n, s[n..]); }
    if WellFormed(s, base) { RestIsFormed(s, base, n, s[n..]); }
  }

  lemma WholeIsFormed(s: string, base: nat, n: nat, t: string)
    requires n < |s| && (n == 1 || (n == 2 && s[1] == '_')) && s[0] != '_' && IsDigitOf(s[0], base)
    requires t == s[n..] && WellFormed(t, base) && (n == 1 ==> s[1] != '_')
    ensures WellFormed(s, base)
  {
    assert s == s[..n] + t;
    assert s[|s| - 1] == t[|t| - 1];
  }

  lemma RestIsFormed(s: string, base: nat, n: nat, t: string)
    requires n < |s| && (n == 1 || (n == 2 && s[1] == '_')) && t == s[n..]
    requires WellFormed(s, base) && (n == 1 ==> s[1] != '_')
    ensures WellFormed(t, base)
  {
    assert t[|t| - 1] == s[|s| - 1] && t[0] == s[n];
    assert forall i :: 0 <= i < |t| ==> t[i] == s[i + n];
  }

  lemma {:induction false} ReadsExactlyWhen(s: string, base: nat)
    requires IsBase(base)
    ensures Reads(s, base) <==> WellFormed(s, base)
    decreases |s|
  {
    if s != [] {
      DigitsOfBase(s[0], base);
      if IsDigit(s[0], base) && |s| > 1 {
        DigitIsPlain(s[0], base);
        if s[1] != '_' {
          ShorterForm(s, base, 1);
          ReadsExactlyWhen(s[1..], base);
        } else if |s| > 2 {
          ShorterForm(s, base, 2);
          ReadsExactlyWhen(s[2..], base);
        }
      }
    }
  }

  /** A text is a number in a base exactly when it is well formed. */
  lemma DigitsExactlyWhen(s: string, base: nat, acc: nat)
    requires IsBase(base)
    ensures Digits(s, base, acc).Some? <==> WellFormed(s, base)
  {
    DigitsRead(s, base, acc);
    ReadsExactlyWhen(s, base);
  }

  /** Digits, or after a base prefix digits with perhaps one underscore in front. */
  ghost predicate IsNumeral(s: string, base: nat) {
    WellFormed(s, base) ||
    (|s| > 2 && s[0] == '0' && ((base == 16 && s[1] in "xX") || (base == 8 && s[1] in "oO"))
     && (WellFormed(s[2..], base) || (s[2] == '_' && WellFormed(s[3..], base))))
  }

  lemma PrefixedExactlyWhen(s: string, base: nat)
    requires IsBase(base) && |s| >= 2
    ensures Prefixed(s, base).Some? <==>
              WellFormed(s[2..], base) || (|s| > 2 && s[2] == '_' && WellFormed(s[3..], base))
  {
    DigitsExactlyWhen(s[2..], base, 0);
    if |s| > 2 {
      DigitsExactlyWhen(s[3..], base, 0);
      assert s[2..][0] == s[2];
    }
  }

  lemma UnsignedExactlyWhen(s: string, base: nat)
    requires base in {8, 10, 16}
    ensures Unsigned(s, base).Some? <==> IsNumeral(s, base)
  {
    DigitsExactlyWhen(s, base, 0);
    if |s| >= 2 {
      PrefixedExactlyWhen(s, base);
      PrefixLetter(s[1]);
      assert WellFormed(s, base) ==> IsDigitOf(s[1], base) || s[1] == '_';
    }
  }

  lemma PrefixLetter(c: char)
    ensures c in "xX" <==> c == 'x' || c == 'X'
    ensures c in "oO" <==> c == 'o' || c == 'O'
    ensures c in "xX" ==> !IsDigitOf(c, 16) && c != '_'
    ensures c in "oO" ==> !IsDigitOf(c, 8) && c != '_'
  {
    assert "xX"[0] == 'x' && "xX"[1] == 'X' && "oO"[0] == 'o' && "oO"[1] == 'O';
    DigitsOfBase(c, 16);
    DigitsOfBase(c, 8);
  }

  /** The base a part of a host is read in. */
  function BaseOf(tok: string): nat {
    if |tok| >= 2 && tok[0] == '0' then (if tok[1] == 'x' || tok[1] == 'X' then 16 else 8) else 10
  }

  /** What is left of a text without outer whitespace and without a sign. */
  function Body(text: string): string {
    var s := Strip(text);
    if s != [] && (s[0] == '+' || s[0] == '-') then s[1..] else s
  }

  /** A part of a host is a number exactly when its body is a numeral of the base its first
      characters announce. */
  lemma OctetExactlyWhen(tok: string)
    ensures ParseOctet(tok).Some? <==> tok != [] && IsNumeral(Body(tok), BaseOf(tok))
  {
    UnsignedExactlyWhen(Body(tok), BaseOf(tok));
  }

  /** Text with no whitespace at its ends. */
  predicate Bare(s: string) { s != [] && !IsSpace(s[0]) && !IsSpace(s[|s| - 1]) }

  lemma BareStays(s: string)
    requires Bare(s)
    ensures Strip(s) == s
  {
    Seqs.TrimIs(IsSpace, s, 0, |s|);
    assert s[0..|s|] == s;
  }

  lemma SameStrip(x: string, y: string, base: nat)
    requires Strip(x) == y
    ensures PyInt(x, base) == IntOf(y, base)
  {
  }

  /** Whitespace around a number does not matter. */
  lemma PaddingIsIgnored(front: string, s: string, end: string, base: nat)
    requires Seqs.All(IsSpace, front) && Seqs.All(IsSpace, end) && Bare(s)
    ensures PyInt(front + s + end, base) == PyInt(s, base)
  {
    Seqs.TrimCore(IsSpace, front, s, end);
    BareStays(s);
    SameStrip(front + s + end, s, base);
    SameStrip(s, s, base);
  }

  /** A number as a whole number, with its sign. */
  function Signed(v: Option<nat>, negative: bool): Option<int> {
    match v case None => None case Some(n) => Some(if negative then 0 - n else n)
  }

  lemma IntOfIs(s: string, base: nat)
    requires s != []
    ensures s[0] != '+' && s[0] != '-' ==> IntOf(s, base) == Signed(Unsigned(s, base), false)
    ensures IntOf("+" + s, base) == Signed(Unsigned(s, base), false)
    ensures IntOf("-" + s, base) == Signed(Unsigned(s, base), true)
  {
    assert ("+" + s)[1..] == s && ("-" + s)[1..] == s;
  }

  /** A sign does what it says. */
  lemma SignCounts(s: string, base: nat)
    requires Bare(s)
    ensures s[0] != '+' && s[0] != '-' ==> PyInt(s, base) == Signed(Unsigned(s, base), false)
    ensures PyInt("+" + s, base) == Signed(Unsigned(s, base), false)
    ensures PyInt("-" + s, base) == Signed(Unsigned(s, base), true)
  {
    IntOfIs(s, base);
    BareStays(s);
    BareStays("+" + s);
    BareStays("-" + s);
    SameStrip(s, s, base);
    SameStrip("+" + s, "+" + s, base);
    SameStrip("-" + s, "-" + s, base);
  }
}
