/** The loose numeric-host forms of IPv4 (inet_aton, section 3.1.1 of RFC 6943). */
module NetGuard {
  import opened Wrappers
  import opened Errors
  import opened Text
  import Seqs

  // --- Python's int(text, base) on ASCII digits ---

  function DigitValue(c: char): (v: Option<nat>)
    ensures v.Some? ==> v.value < 36
  {
    if '0' <= c <= '9' then Some(c as int - '0' as int)
    else if 'a' <= c <= 'z' then Some(c as int - 'a' as int + 10)
    else if 'A' <= c <= 'Z' then Some(c as int - 'A' as int + 10)
    else None
  }

  predicate IsDigit(c: char, base: nat) { DigitValue(c).Some? && DigitValue(c).value < base }

  /** Digits with single underscores between them, accumulated onto acc. */
  function Digits(s: string, base: nat, acc: nat): Option<nat>
    decreases |s|
  {
    if s == [] || !IsDigit(s[0], base) then None
    else
      var v := acc * base + DigitValue(s[0]).value;
      if |s| == 1 then Some(v)
      else if s[1] == '_' then Digits(s[2..], base, v)
      else Digits(s[1..], base, v)
  }

  predicate HasPrefix(s: string, lowerCase: char, upperCase: char) {
    |s| >= 2 && s[0] == '0' && (s[1] == lowerCase || s[1] == upperCase)
  }

  /** After a base prefix one underscore may precede the digits. */
  function Prefixed(s: string, base: nat): Option<nat>
    requires |s| >= 2
  {
    if |s| > 2 && s[2] == '_' then Digits(s[3..], base, 0) else Digits(s[2..], base, 0)
  }

  function Unsigned(s: string, base: nat): Option<nat> {
    if base == 16 && HasPrefix(s, 'x', 'X') then Prefixed(s, 16)
    else if base == 8 && HasPrefix(s, 'o', 'O') then Prefixed(s, 8)
    else if base != 0 then Digits(s, base, 0)
    else if HasPrefix(s, 'x', 'X') then Prefixed(s, 16)
    else if HasPrefix(s, 'o', 'O') then Prefixed(s, 8)
    else if HasPrefix(s, 'b', 'B') then Prefixed(s, 2)
    else match Digits(s, 10, 0)
      case None => None
      case Some(v) => if s[0] == '0' && v != 0 then None else Some(v)
  }

  predicate Signed(s: string) { s != [] && (s[0] == '+' || s[0] == '-') }

  function PyInt(text: string, base: nat): Option<int> { IntOf(Strip(text), base) }

  function IntOf(s: string, base: nat): Option<int> {
    var body := if Signed(s) then s[1..] else s;
    match Unsigned(body, base)
    case None => None
    case Some(v) =>
      var n: int := v;
      Some(if Signed(s) && s[0] == '-' then 0 - n else n)
  }

  // --- the loose parser ---

  function ParseOctet(tok: string): Option<int> {
    if tok == [] then None
    else if HasPrefix(tok, 'x', 'X') then PyInt(tok, 16)
    else if |tok| > 1 && tok[0] == '0' then PyInt(tok, 8)
    else PyInt(tok, 10)
  }

  function SplitDots(s: string): (parts: seq<string>)
    ensures parts != []
  {
    if s == [] then [[]]
    else
      var rest := SplitDots(s[1..]);
      if s[0] == '.' then [[]] + rest else [[s[0]] + rest[0]] + rest[1..]
  }

  function Pow(b: nat, n: nat): (r: nat)
    ensures b > 0 ==> r > 0
  {
    if n == 0 then 1 else b * Pow(b, n - 1)
  }

  function Shl(x: nat, n: nat): nat { x * Pow(2, n) }

  /** Bitwise or. */
  function Or(x: nat, y: nat): nat
    decreases x + y
  {
    if x == 0 then y
    else if y == 0 then x
    else 2 * Or(x / 2, y / 2) + (if x % 2 == 1 || y % 2 == 1 then 1 else 0)
  }

  /** Leading parts are bytes and the last part fills the bytes that are left. */
  predicate InRange(nums: seq<int>) {
    && 1 <= |nums| <= 4
    && (forall i :: 0 <= i < |nums| - 1 ==> 0 <= nums[i] <= 0xFF)
    && 0 <= nums[|nums| - 1] < Pow(256, 5 - |nums|)
  }

  /** The positional sum of the parts over k bytes. */
  function Value(nums: seq<int>, k: nat): int
    requires 1 <= |nums| <= k
  {
    if |nums| == 1 then nums[0] else nums[0] * Pow(256, k - 1) + Value(nums[1..], k - 1)
  }

  function ParseParts(parts: seq<string>): Option<seq<int>> {
    if parts == [] then Some([])
    else match ParseOctet(parts[0])
      case None => None
      case Some(n) =>
        match ParseParts(parts[1..])
        case None => None
        case Some(ns) => Some([n] + ns)
  }

  /** The address a host denotes in the loose form, or None for anything else. */
  function Loose(value: string): Option<int> {
    var parts := SplitDots(value);
    if |parts| > 4 then None
    else match ParseParts(parts)
      case None => None
      case Some(nums) => if InRange(nums) then Some(Value(nums, 4)) else None
  }

  // --- the shift-or loop ---

  lemma {:induction false} OrDisjoint(x: nat, k: nat, y: nat)
    requires y < Pow(2, k)
    ensures Or(Shl(x, k), y) == Shl(x, k) + y
    decreases k
  {
    if k > 0 && x > 0 && y > 0 {
      var h := Shl(x, k - 1);
      DoubleShift(x, k);
      OrDisjoint(x, k - 1, y / 2);
    } else if k == 0 {
      assert y == 0;
    }
  }

  lemma DoubleShift(x: nat, k: nat)
    requires k > 0 && x > 0
    ensures Shl(x, k) == 2 * Shl(x, k - 1) > 0
    ensures Shl(x, k) / 2 == Shl(x, k - 1) && Shl(x, k) % 2 == 0
  {
    var p := Pow(2, k - 1);
    assert Pow(2, k) == 2 * p;
    assert x * (2 * p) == 2 * (x * p);
    assert x * p > 0;
  }

  lemma PowBytes(n: nat)
    ensures Pow(2, 8 * n) == Pow(256, n)
  {
    if n > 0 {
      PowBytes(n - 1);
      var p := Pow(2, 8 * (n - 1));
      assert Pow(2, 8 * n) == 2 * (2 * (2 * (2 * (2 * (2 * (2 * (2 * p))))))) by {
        assert 8 * n == 8 * (n - 1) + 8;
        var m := 8 * (n - 1);
        assert Pow(2, m + 1) == 2 * p;
        assert Pow(2, m + 2) == 2 * Pow(2, m + 1);
        assert Pow(2, m + 3) == 2 * Pow(2, m + 2);
        assert Pow(2, m + 4) == 2 * Pow(2, m + 3);
        assert Pow(2, m + 5) == 2 * Pow(2, m + 4);
        assert Pow(2, m + 6) == 2 * Pow(2, m + 5);
        assert Pow(2, m + 7) == 2 * Pow(2, m + 6);
        assert Pow(2, m + 8) == 2 * Pow(2, m + 7);
      }
    }
  }

  /** One more part: what is packed moves up by a byte. */
  lemma PackStep(packed: nat, n: nat)
    requires n <= 0xFF
    ensures Or(Shl(packed, 8), n) == packed * 256 + n
  {
    PowBytes(1);
    assert Pow(256, 1) == 256;
    OrDisjoint(packed, 8, n);
  }

  method ParseTokens(parts: seq<string>) returns (r: Option<seq<int>>)
    ensures r == ParseParts(parts)
  {
    var nums: seq<int> := [];
    for i := 0 to |parts|
      invariant ParseParts(parts[..i]) == Some(nums)
    {
      var n := ParseOctet(parts[i]);
      OneMoreToken(parts, i);
      if n.None? { return None; }
      nums := nums + [n.value];
    }
    assert parts[..|parts|] == parts;
    return Some(nums);
  }

  lemma OneMoreToken(parts: seq<string>, i: nat)
    requires i < |parts| && ParseParts(parts[..i]).Some?
    ensures ParseOctet(parts[i]).Some? ==>
              ParseParts(parts[..i + 1]) == Some(ParseParts(parts[..i]).value + [ParseOctet(parts[i]).value])
    ensures ParseOctet(parts[i]).None? ==> ParseParts(parts).None?
  {
    Seqs.TakeNext(parts, i);
    Seqs.SplitAt(parts, i);
    ParseSingle(parts[i]);
    if ParseOctet(parts[i]).Some? {
      ParseConcat(parts[..i], [parts[i]]);
    } else {
      ParseConcat(parts[..i], parts[i..]);
    }
  }

  lemma ParseSingle(x: string)
    ensures ParseParts([x]) == if ParseOctet(x).Some? then Some([ParseOctet(x).value]) else None
  {
    assert [x][1..] == [];
    if ParseOctet(x).Some? { assert [ParseOctet(x).value] + [] == [ParseOctet(x).value]; }
  }

  /** The parts read one by one, by any reader. */
  ghost function ReadParts(read: string -> Option<int>, parts: seq<string>): Option<seq<int>> {
    if parts == [] then Some([]) else InFront(read(parts[0]), ReadParts(read, parts[1..]))
  }

  ghost function InFront(n: Option<int>, ns: Option<seq<int>>): Option<seq<int>> {
    if n.None? || ns.None? then None else Some([n.value] + ns.value)
  }

  ghost function Octets(): string -> Option<int> { (tok: string) => ParseOctet(tok) }

  lemma {:induction false} ParseIsRead(parts: seq<string>)
    ensures ParseParts(parts) == ReadParts(Octets(), parts)
    decreases |parts|
  {
    if parts != [] { ParseIsRead(parts[1..]); }
  }

  lemma {:induction false} ReadConcat(read: string -> Option<int>, a: seq<string>, b: seq<string>)
    requires ReadParts(read, a).Some?
    ensures ReadParts(read, a + b).Some? <==> ReadParts(read, b).Some?
    ensures ReadParts(read, b).Some? ==>
              ReadParts(read, a + b).value == ReadParts(read, a).value + ReadParts(read, b).value
    decreases |a|
  {
    if a == [] {
      Seqs.NothingInFront(a, b);
      if ReadParts(read, b).Some? {
        Seqs.NothingInFront(ReadParts(read, a).value, ReadParts(read, b).value);
      }
    } else {
      Seqs.CutConcat(a, b, 0);
      ReadConcat(read, a[1..], b);
      if ReadParts(read, b).Some? {
        Seqs.ConcatAssoc([read(a[0]).value], ReadParts(read, a[1..]).value, ReadParts(read, b).value);
      }
    }
  }

  lemma ParseConcat(a: seq<string>, b: seq<string>)
    requires ParseParts(a).Some?
    ensures ParseParts(a + b).Some? <==> ParseParts(b).Some?
    ensures ParseParts(b).Some? ==> ParseParts(a + b).value == ParseParts(a).value + ParseParts(b).value
  {
    ParseIsRead(a);
    ParseIsRead(b);
    ParseIsRead(a + b);
    ReadConcat(Octets(), a, b);
  }

  method AsPackedIpv4(value: string) returns (r: Option<int>)
    ensures r == Loose(value)
  {
    var parts := SplitDots(value);
    if |parts| > 4 { return None; }
    var parsed := ParseTokens(parts);
    if parsed.None? { return None; }
    PartsCount(parts);
    var nums := parsed.value;
    var fits := CheckRange(nums);
    if !fits { return None; }
    var packed := Pack(nums);
    return Some(packed);
  }

  /** Each leading part is a byte, and the last part fits the bytes left over. */
  method CheckRange(nums: seq<int>) returns (fits: bool)
    requires 1 <= |nums| <= 4
    ensures fits == InRange(nums)
  {
    var leading, last := nums[..|nums| - 1], nums[|nums| - 1];
    assert forall i :: 0 <= i < |leading| ==> nums[i] == leading[i];
    if exists i :: 0 <= i < |leading| && !(0 <= leading[i] <= 0xFF) { return false; }
    PowBytes(5 - |nums|);
    var maxLast := Shl(1, 8 * (4 - |leading|));
    fits := 0 <= last < maxLast;
  }

  /** The shift-or loop over the leading parts, then the last part. */
  method Pack(nums: seq<int>) returns (packed: nat)
    requires InRange(nums)
    ensures packed == Value(nums, 4)
  {
    var leading, last := nums[..|nums| - 1], nums[|nums| - 1];
    packed := 0;
    assert nums[0..] == nums;
    for i := 0 to |leading|
      invariant packed * Pow(256, 4 - i) + Value(nums[i..], 4 - i) == Value(nums, 4)
    {
      assert leading[i] == nums[i];
      PackStep(packed, leading[i]);
      ValueStep(nums[i..], 4 - i, packed);
      assert nums[i..][1..] == nums[i + 1..];
      packed := Or(Shl(packed, 8), leading[i]);
    }
    PowBytes(4 - |leading|);
    OrDisjoint(packed, 8 * (4 - |leading|), last);
    assert nums[|leading|..] == [last];
    packed := Or(Shl(packed, 8 * (4 - |leading|)), last);
  }

  lemma ValueStep(nums: seq<int>, k: nat, packed: int)
    requires 2 <= |nums| <= k
    ensures packed * Pow(256, k) + Value(nums, k) ==
            (packed * 256 + nums[0]) * Pow(256, k - 1) + Value(nums[1..], k - 1)
  {
    var p := Pow(256, k - 1);
    assert Pow(256, k) == 256 * p;
    assert (packed * 256 + nums[0]) * p == packed * (256 * p) + nums[0] * p;
  }

  /** The numeric part of _as_ip, on a stripped host that is no strict literal. */
  function AsIpNumeric(v: string): Result<Option<int>, Error> {
    match PyInt(v, 0)
    case Some(n) => if 0 <= n <= 0xFFFFFFFF then Ok(Some(n)) else Err(InvalidInput)
    case None => Ok(Loose(v))
  }

  /** What a host denotes, whichever spelling: exactly when the parts are numbers in range. */
  lemma LooseMeans(value: string)
    ensures Loose(value).Some? <==>
              ParseParts(SplitDots(value)).Some? && InRange(ParseParts(SplitDots(value)).value)
    ensures Loose(value).Some? ==> 0 <= Loose(value).value < Pow(256, 4)
  {
    PartsCount(SplitDots(value));
    if Loose(value).Some? { AddressInRange(ParseParts(SplitDots(value)).value); }
  }

  lemma AddressInRange(nums: seq<int>)
    requires InRange(nums)
    ensures 0 <= Value(nums, 4) < Pow(256, 4)
  {
    ValueInRange(nums, 4);
  }

  lemma PartsCount(parts: seq<string>)
    ensures ParseParts(parts).Some? ==> |ParseParts(parts).value| == |parts|
  {
  }

  lemma AtMost(x: int, p: int)
    requires 0 <= x <= 255 && p >= 0
    ensures 0 <= x * p <= 255 * p
  {
  }

  lemma {:induction false} ValueInRange(nums: seq<int>, k: nat)
    requires 1 <= |nums| <= k
    requires forall i :: 0 <= i < |nums| - 1 ==> 0 <= nums[i] <= 0xFF
    requires 0 <= nums[|nums| - 1] < Pow(256, k + 1 - |nums|)
    ensures 0 <= Value(nums, k) < Pow(256, k)
    decreases |nums|
  {
    if |nums| > 1 {
      var p := Pow(256, k - 1);
      assert nums[1..][|nums| - 2] == nums[|nums| - 1];
      ValueInRange(nums[1..], k - 1);
      AtMost(nums[0], p);
      assert Pow(256, k) == 256 * p;
    }
  }

  // --- printing an address in any spelling ---

  /** How one part is written; pad adds leading zeros where the base allows them. */
  datatype Spelling = Decimal | Octal(pad: nat) | Hex(pad: nat, capital: bool)

  function DigitChar(d: nat, capital: bool): (c: char)
    requires d < 16
    ensures DigitValue(c) == Some(d) && c != '.' && c != '_' && !IsSpace(c)
  {
    if d < 10 then '0' + d as char
    else if capital then 'A' + (d - 10) as char
    else 'a' + (d - 10) as char
  }

  function PrintNat(v: nat, base: nat, capital: bool): (s: string)
    requires 2 <= base <= 16
    ensures s != []
    ensures v != 0 ==> s[0] != '0'
  {
    if v < base then [DigitChar(v, capital)]
    else
      DivShrinks(v, base);
      PrintNat(v / base, base, capital) + [DigitChar(v % base, capital)]
  }

  lemma DivShrinks(v: nat, base: nat)
    requires v >= base >= 2
    ensures 0 < v / base < v && v == (v / base) * base + v % base
  {
    var q, r := v / base, v % base;
    assert v == q * base + r;
    AtLeastTwice(q, base);
  }

  lemma AtLeastTwice(q: nat, base: nat)
    requires base >= 2
    ensures q * base >= 2 * q && (q == 0 ==> q * base == 0)
  {
  }

  function Zeros(n: nat): string { seq(n, _ => '0') }

  function PrintPart(v: nat, sp: Spelling): string {
    match sp
    case Decimal => PrintNat(v, 10, false)
    case Octal(pad) => "0" + Zeros(pad) + PrintNat(v, 8, false)
    case Hex(pad, capital) => (if capital then "0X" else "0x") + Zeros(pad) + PrintNat(v, 16, capital)
  }

  /** The value of a run of digits, accumulated onto acc. */
  function Fold(s: string, base: nat, acc: nat): nat
    requires forall i :: 0 <= i < |s| ==> IsDigit(s[i], base)
  {
    if s == [] then acc
    else
      assert IsDigit(s[0], base);
      Fold(s[1..], base, acc * base + DigitValue(s[0]).value)
  }

  lemma {:induction false} DigitsFold(s: string, base: nat, acc: nat)
    requires s != [] && forall i :: 0 <= i < |s| ==> IsDigit(s[i], base)
    ensures Digits(s, base, acc) == Some(Fold(s, base, acc))
    decreases |s|
  {
    if |s| > 1 {
      assert IsDigit(s[1], base);
      DigitsFold(s[1..], base, acc * base + DigitValue(s[0]).value);
    } else {
      assert s[1..] == [];
    }
  }

  lemma {:induction false} FoldLast(s: string, c: char, base: nat, acc: nat)
    requires (forall i :: 0 <= i < |s| ==> IsDigit(s[i], base)) && IsDigit(c, base)
    ensures Fold(s + [c], base, acc) == Fold(s, base, acc) * base + DigitValue(c).value
    decreases |s|
  {
    if s == [] {
      assert s + [c] == [c] && [c][1..] == [];
    } else {
      assert (s + [c])[1..] == s[1..] + [c];
      FoldLast(s[1..], c, base, acc * base + DigitValue(s[0]).value);
    }
  }

  lemma {:induction false} FoldPrinted(v: nat, base: nat, capital: bool)
    requires 2 <= base <= 16
    ensures var s := PrintNat(v, base, capital);
            (forall i :: 0 <= i < |s| ==> IsDigit(s[i], base)) && Fold(s, base, 0) == v
    decreases v
  {
    if v < base {
      assert [DigitChar(v, capital)][1..] == [];
    } else {
      DivShrinks(v, base);
      FoldPrinted(v / base, base, capital);
      FoldLast(PrintNat(v / base, base, capital), DigitChar(v % base, capital), base, 0);
    }
  }

  lemma {:induction false} FoldPadded(pad: nat, s: string, base: nat)
    requires base >= 2 && forall i :: 0 <= i < |s| ==> IsDigit(s[i], base)
    ensures var t := Zeros(pad) + s;
            (forall i :: 0 <= i < |t| ==> IsDigit(t[i], base)) && Fold(t, base, 0) == Fold(s, base, 0)
    decreases pad
  {
    var t := Zeros(pad) + s;
    if pad == 0 {
      assert t == s;
    } else {
      FoldPadded(pad - 1, s, base);
      assert t[1..] == Zeros(pad - 1) + s;
    }
  }

  /** A text with no space at either end is its own strip. */
  lemma StripSame(s: string)
    requires s != [] && !IsSpace(s[0]) && !IsSpace(s[|s| - 1])
    ensures Strip(s) == s
  {
    Seqs.TrimIs(IsSpace, s, 0, |s|);
  }

  lemma DigitIsPlain(c: char, base: nat)
    requires IsDigit(c, base) && base <= 16
    ensures !IsSpace(c) && c != '.' && c != '+' && c != '-' && c != '_'
    ensures base <= 10 ==> c != 'x' && c != 'X' && c != 'o' && c != 'O'
  {
  }

  /** One printed part parses back to its value. */
  lemma PartRoundTrip(v: nat, sp: Spelling)
    ensures ParseOctet(PrintPart(v, sp)) == Some(v)
    ensures '.' !in PrintPart(v, sp)
  {
    match sp
    case Decimal =>
      FoldPrinted(v, 10, false);
      DecimalPart(PrintNat(v, 10, false), v);
    case Octal(pad) => PrintedOctal(v, pad);
    case Hex(pad, capital) => PrintedHex(v, pad, capital);
  }

  lemma PrintedOctal(v: nat, pad: nat)
    ensures ParseOctet(PrintPart(v, Octal(pad))) == Some(v)
    ensures '.' !in PrintPart(v, Octal(pad))
  {
    var digits := PrintNat(v, 8, false);
    FoldPrinted(v, 8, false);
    FoldPadded(pad + 1, digits, 8);
    var s := Zeros(pad + 1) + digits;
    assert Zeros(pad + 1) == "0" + Zeros(pad);
    assert s == PrintPart(v, Octal(pad));
    OctalPart(s, v);
  }

  lemma PrintedHex(v: nat, pad: nat, capital: bool)
    ensures ParseOctet(PrintPart(v, Hex(pad, capital))) == Some(v)
    ensures '.' !in PrintPart(v, Hex(pad, capital))
  {
    var x, digits := if capital then 'X' else 'x', PrintNat(v, 16, capital);
    assert PrintPart(v, Hex(pad, capital)) == ['0', x] + (Zeros(pad) + digits);
    FoldPrinted(v, 16, capital);
    FoldPadded(pad, digits, 16);
    HexPart(x, Zeros(pad) + digits, v);
  }

  lemma DecimalPart(s: string, v: nat)
    requires s != [] && (forall i :: 0 <= i < |s| ==> IsDigit(s[i], 10)) && Fold(s, 10, 0) == v
    requires v != 0 ==> s[0] != '0'
    requires v == 0 ==> |s| == 1
    ensures ParseOctet(s) == Some(v) && '.' !in s
  {
    forall i | 0 <= i < |s|
      ensures !IsSpace(s[i]) && s[i] != '.' && s[i] != '+' && s[i] != '-' && s[i] != 'x' && s[i] != 'X'
    {
      DigitIsPlain(s[i], 10);
    }
    StripSame(s);
    DigitsFold(s, 10, 0);
  }

  lemma OctalPart(s: string, v: nat)
    requires |s| > 1 && s[0] == '0' && (forall i :: 0 <= i < |s| ==> IsDigit(s[i], 8)) && Fold(s, 8, 0) == v
    ensures ParseOctet(s) == Some(v) && '.' !in s
  {
    forall i | 0 <= i < |s| ensures !IsSpace(s[i]) && s[i] != '.' && s[i] != '+' && s[i] != '-'
        && s[i] != 'x' && s[i] != 'X' && s[i] != 'o' && s[i] != 'O' {
      DigitIsPlain(s[i], 8);
    }
    StripSame(s);
    DigitsFold(s, 8, 0);
  }

  lemma HexPart(x: char, s: string, v: nat)
    requires x == 'x' || x == 'X'
    requires s != [] && (forall i :: 0 <= i < |s| ==> IsDigit(s[i], 16)) && Fold(s, 16, 0) == v
    ensures ParseOctet(['0', x] + s) == Some(v) && '.' !in ['0', x] + s
  {
    var t := ['0', x] + s;
    forall i | 0 <= i < |s| ensures !IsSpace(s[i]) && s[i] != '.' && s[i] != '_' {
      DigitIsPlain(s[i], 16);
    }
    assert t[|t| - 1] == s[|s| - 1];
    StripSame(t);
    HexBody(x, s);
    DigitsFold(s, 16, 0);
  }

  lemma HexBody(x: char, s: string)
    requires (x == 'x' || x == 'X') && s != [] && s[0] != '_'
    ensures IntOf(['0', x] + s, 16) == match Digits(s, 16, 0) case None => None case Some(v) => Some(v)
    ensures HasPrefix(['0', x] + s, 'x', 'X')
  {
    var t := ['0', x] + s;
    assert t[2] == s[0] && t[2..] == s;
  }

  /** The parts of an address of k bytes written with n parts. */
  function AddressParts(addr: nat, n: nat, k: nat): seq<int>
    requires 1 <= n <= k
  {
    if n == 1 then [addr]
    else [addr / Pow(256, k - 1)] + AddressParts(addr % Pow(256, k - 1), n - 1, k - 1)
  }

  lemma {:induction false} AddressPartsValue(addr: nat, n: nat, k: nat)
    requires 1 <= n <= k && addr < Pow(256, k)
    ensures var ps := AddressParts(addr, n, k);
            && |ps| == n
            && (forall i :: 0 <= i < n - 1 ==> 0 <= ps[i] <= 0xFF)
            && 0 <= ps[n - 1] < Pow(256, k + 1 - n)
            && Value(ps, k) == addr
    decreases n
  {
    if n > 1 {
      var p := Pow(256, k - 1);
      var q, r := DivideByte(addr, p);
      AddressPartsValue(r, n - 1, k - 1);
      OneMorePart(q, AddressParts(r, n - 1, k - 1), k, r);
    }
  }

  lemma OneMorePart(x: int, rest: seq<int>, k: nat, value: nat)
    requires 1 <= |rest| < k && 0 <= x <= 0xFF
    requires (forall i :: 0 <= i < |rest| - 1 ==> 0 <= rest[i] <= 0xFF)
    requires Value(rest, k - 1) == value
    ensures var ps := [x] + rest;
            && (forall i :: 0 <= i < |ps| - 1 ==> 0 <= ps[i] <= 0xFF)
            && ps[|ps| - 1] == rest[|rest| - 1]
            && Value(ps, k) == x * Pow(256, k - 1) + value
  {
    Prepend(x, rest);
  }

  lemma Prepend(x: int, rest: seq<int>)
    ensures ([x] + rest)[1..] == rest && |[x] + rest| == |rest| + 1
    ensures forall i :: 1 <= i < |rest| + 1 ==> ([x] + rest)[i] == rest[i - 1]
  {
  }

  lemma DivideByte(addr: nat, p: nat) returns (q: nat, r: nat)
    requires p > 0 && addr < 256 * p
    ensures q == addr / p && r == addr % p
    ensures q <= 0xFF && r < p && addr == q * p + r
  {
    q, r := addr / p, addr % p;
    assert addr == q * p + r;
    assert (256 - q) * p > 0;
  }

  function PrintParts(parts: seq<int>, sps: seq<Spelling>): seq<string>
    requires |parts| == |sps| && forall i :: 0 <= i < |parts| ==> parts[i] >= 0
  {
    if parts == [] then [] else [PrintPart(parts[0], sps[0])] + PrintParts(parts[1..], sps[1..])
  }

  /** The address printed with one spelling per part. */
  function PrintHost(addr: nat, sps: seq<Spelling>): string
    requires 1 <= |sps| <= 4 && addr < Pow(256, 4)
  {
    AddressPartsValue(addr, |sps|, 4);
    Join(".", PrintParts(AddressParts(addr, |sps|, 4), sps))
  }

  lemma {:induction false} SplitJoin(parts: seq<string>)
    requires parts != [] && forall i :: 0 <= i < |parts| ==> '.' !in parts[i]
    ensures SplitDots(Join(".", parts)) == parts
    decreases |parts|
  {
    if |parts| == 1 {
      SplitPlain(parts[0], []);
      assert parts[0] + [] == parts[0] && SplitDots([]) == [[]];
      assert parts == [parts[0]];
    } else {
      SplitJoin(parts[1..]);
      var rest := Join(".", parts[1..]);
      assert Join(".", parts) == parts[0] + ("." + rest);
      SplitPlain(parts[0], "." + rest);
      assert ("." + rest)[1..] == rest;
      assert SplitDots("." + rest) == [[]] + SplitDots(rest);
      assert parts[0] + [] == parts[0];
      assert parts == [parts[0]] + parts[1..];
    }
  }

  /** Characters other than dots stay in front of the first part. */
  lemma {:induction false} SplitPlain(a: string, b: string)
    requires '.' !in a
    ensures SplitDots(a + b) == [a + SplitDots(b)[0]] + SplitDots(b)[1..]
    decreases |a|
  {
    if a == [] {
      assert a + b == b && a + SplitDots(b)[0] == SplitDots(b)[0];
    } else {
      assert (a + b)[1..] == a[1..] + b;
      assert '.' !in a[1..];
      SplitPlain(a[1..], b);
      assert [a[0]] + (a[1..] + SplitDots(b)[0]) == a + SplitDots(b)[0];
    }
  }

  lemma {:induction false} PrintedPartsParse(parts: seq<int>, sps: seq<Spelling>)
    requires |parts| == |sps| && forall i :: 0 <= i < |parts| ==> parts[i] >= 0
    ensures var ts := PrintParts(parts, sps);
            && |ts| == |parts|
            && ParseParts(ts) == Some(parts)
            && forall i :: 0 <= i < |ts| ==> '.' !in ts[i]
    decreases |parts|
  {
    if parts != [] {
      PartRoundTrip(parts[0], sps[0]);
      PrintedPartsParse(parts[1..], sps[1..]);
      ParseNext(PrintPart(parts[0], sps[0]), PrintParts(parts[1..], sps[1..]), parts[0], parts[1..]);
      assert parts == [parts[0]] + parts[1..];
    }
  }

  lemma ParseNext(t: string, ts: seq<string>, n: int, ns: seq<int>)
    requires ParseOctet(t) == Some(n) && ParseParts(ts) == Some(ns) && '.' !in t
    requires forall i :: 0 <= i < |ts| ==> '.' !in ts[i]
    ensures ParseParts([t] + ts) == Some([n] + ns)
    ensures forall i :: 0 <= i < |[t] + ts| ==> '.' !in ([t] + ts)[i]
  {
    assert ([t] + ts)[0] == t && ([t] + ts)[1..] == ts;
  }

  /** Every 32-bit address, printed with one to four parts in any mix of bases, parses back. */
  lemma HostRoundTrip(addr: nat, sps: seq<Spelling>)
    requires 1 <= |sps| <= 4 && addr < Pow(256, 4)
    ensures Loose(PrintHost(addr, sps)) == Some(addr)
  {
    AddressPartsFit(addr, |sps|);
    PrintedHost(AddressParts(addr, |sps|, 4), sps, addr);
  }

  lemma AddressPartsFit(addr: nat, n: nat)
    requires 1 <= n <= 4 && addr < Pow(256, 4)
    ensures var parts := AddressParts(addr, n, 4); |parts| == n && InRange(parts) && Value(parts, 4) == addr
  {
    AddressPartsValue(addr, n, 4);
  }

  lemma PrintedHost(parts: seq<int>, sps: seq<Spelling>, addr: nat)
    requires |parts| == |sps| && InRange(parts) && Value(parts, 4) == addr
    ensures (forall i :: 0 <= i < |parts| ==> parts[i] >= 0) && Loose(Join(".", PrintParts(parts, sps))) == Some(addr)
  {
    PrintedPartsParse(parts, sps);
    SplitJoin(PrintParts(parts, sps));
  }

  // --- agreement with the single-integer route ---

  lemma {:induction false} ZeroInAnyBase(s: string, b: nat, c: nat, acc: nat)
    requires b > 0 && c > 0
    requires Digits(s, b, acc) == Some(0) && Digits(s, c, acc).Some?
    ensures Digits(s, c, acc) == Some(0)
    decreases |s|
  {
    var d := DigitValue(s[0]).value;
    DigitsGrow(s, b, acc);
    if |s| > 1 {
      if acc > 0 || d > 0 { DigitsGrow(if s[1] == '_' then s[2..] else s[1..], b, acc * b + d); }
      ZeroInAnyBase(if s[1] == '_' then s[2..] else s[1..], b, c, 0);
    }
  }

  lemma AtLeast(x: nat, factor: nat)
    requires factor > 0
    ensures x * factor >= x
  {
  }

  /** Reading more digits never makes the value smaller. */
  lemma {:induction false} DigitsGrow(s: string, base: nat, acc: nat)
    requires base > 0 && Digits(s, base, acc).Some?
    ensures Digits(s, base, acc).value >= acc
    decreases |s|
  {
    AtLeast(acc, base);
    if |s| > 1 {
      DigitsGrow(if s[1] == '_' then s[2..] else s[1..], base, acc * base + DigitValue(s[0]).value);
    }
  }

  /** The same reading without the value: is the text a number at all? */
  predicate Reads(s: string, base: nat)
    decreases |s|
  {
    && s != [] && IsDigit(s[0], base)
    && (|s| == 1 || (if s[1] == '_' then Reads(s[2..], base) else Reads(s[1..], base)))
  }

  lemma {:induction false} DigitsRead(s: string, base: nat, acc: nat)
    ensures Digits(s, base, acc).Some? <==> Reads(s, base)
    decreases |s|
  {
    if |s| > 1 && IsDigit(s[0], base) {
      DigitsRead(if s[1] == '_' then s[2..] else s[1..], base, acc * base + DigitValue(s[0]).value);
    }
  }

  lemma DigitsHaveNoDot(s: string, base: nat, acc: nat)
    requires Digits(s, base, acc).Some?
    ensures '.' !in s
  {
    DigitsRead(s, base, acc);
    NumbersHaveNoDot(s, base);
  }

  lemma {:induction false} NumbersHaveNoDot(s: string, base: nat)
    requires Reads(s, base)
    ensures '.' !in s
    decreases |s|
  {
    DotIsNoDigit(base);
    if |s| > 1 {
      if s[1] == '_' {
        NumbersHaveNoDot(s[2..], base);
        assert s == [s[0], '_'] + s[2..];
      } else {
        NumbersHaveNoDot(s[1..], base);
        assert s == [s[0]] + s[1..];
      }
    }
  }

  lemma DotIsNoDigit(base: nat)
    ensures !IsDigit('.', base)
  {
  }

  /** Where both readings of a number succeed they agree. */
  lemma UnsignedAgrees(s: string, base: nat)
    requires base == (if HasPrefix(s, 'x', 'X') then 16 else if |s| > 1 && s[0] == '0' then 8 else 10)
    requires Unsigned(s, 0).Some? && Unsigned(s, base).Some?
    ensures Unsigned(s, 0) == Unsigned(s, base)
  {
    if base == 8 && !HasPrefix(s, 'o', 'O') {
      LetterStops(s, 8);
      ZeroInAnyBase(s, 10, 8, 0);
    }
  }

  /** A base prefix is no number in a base that has no such letter. */
  lemma LetterStops(s: string, base: nat)
    requires 1 <= base <= 10
    ensures HasPrefix(s, 'x', 'X') || HasPrefix(s, 'o', 'O') || HasPrefix(s, 'b', 'B') ==> Digits(s, base, 0).None?
  {
    if |s| >= 2 { assert s[1..][0] == s[1]; }
  }

  lemma SignedTail(s: string)
    requires Signed(s) && Unsigned(s[1..], 0).Some? && Unsigned(s[1..], 10).Some?
    ensures Unsigned(s[1..], 0) == Unsigned(s[1..], 10)
  {
    LetterStops(s[1..], 10);
  }

  lemma UnsignedHasNoDot(s: string, base: nat)
    requires Unsigned(s, base).Some?
    ensures '.' !in s
  {
    if |s| >= 2 && base != 10 && (HasPrefix(s, 'x', 'X') || HasPrefix(s, 'o', 'O') || HasPrefix(s, 'b', 'B')) {
      assert s == [s[0], s[1]] + s[2..];
      if Digits(s, base, 0).Some? { DigitsHaveNoDot(s, base, 0); }
      if Digits(s, 10, 0).Some? { DigitsHaveNoDot(s, 10, 0); }
      if |s| > 2 && s[2] == '_' {
        assert s == [s[0], s[1], s[2]] + s[3..];
        if Digits(s[3..], 16, 0).Some? { DigitsHaveNoDot(s[3..], 16, 0); }
        if Digits(s[3..], 8, 0).Some? { DigitsHaveNoDot(s[3..], 8, 0); }
        if Digits(s[3..], 2, 0).Some? { DigitsHaveNoDot(s[3..], 2, 0); }
      } else {
        if Digits(s[2..], 16, 0).Some? { DigitsHaveNoDot(s[2..], 16, 0); }
        if Digits(s[2..], 8, 0).Some? { DigitsHaveNoDot(s[2..], 8, 0); }
        if Digits(s[2..], 2, 0).Some? { DigitsHaveNoDot(s[2..], 2, 0); }
      }
    } else {
      DigitsHaveNoDot(s, if base == 0 then 10 else base, 0);
    }
  }

  /** A host both routes accept denotes the same address either way. */
  lemma RoutesAgree(v: string)
    requires Strip(v) == v
    requires PyInt(v, 0).Some? && Loose(v).Some?
    ensures PyInt(v, 0) == Loose(v)
    ensures AsIpNumeric(v) == Ok(Loose(v))
  {
    NumberHasNoDot(v);
    OnePart(v);
    OnePartMeans(v);
    OctetAgrees(v);
    AddressSpace();
  }

  lemma AddressSpace()
    ensures Pow(256, 4) == 0x1_0000_0000
  {
    assert Pow(256, 4) == 256 * Pow(256, 3) == 256 * 256 * Pow(256, 2) == 256 * 256 * 256 * Pow(256, 1);
  }

  lemma NumberHasNoDot(v: string)
    requires Strip(v) == v && PyInt(v, 0).Some?
    ensures '.' !in v
  {
    UnsignedHasNoDot(if Signed(v) then v[1..] else v, 0);
    if Signed(v) { assert v == [v[0]] + v[1..]; }
  }

  lemma OnePart(v: string)
    requires '.' !in v
    ensures SplitDots(v) == [v]
  {
    SplitPlain(v, []);
    assert v + [] == v && SplitDots([]) == [[]];
  }

  lemma OnePartMeans(v: string)
    requires SplitDots(v) == [v] && Loose(v).Some?
    ensures ParseOctet(v) == Loose(v) && 0 <= Loose(v).value < Pow(256, 4)
  {
    LooseMeans(v);
    assert [v][1..] == [];
    assert ParseParts([v]) == Some([ParseOctet(v).value] + []);
  }

  /** Where both readings of a whole host as one number succeed they agree. */
  lemma OctetAgrees(v: string)
    requires Strip(v) == v && PyInt(v, 0).Some? && ParseOctet(v).Some?
    ensures PyInt(v, 0) == ParseOctet(v)
  {
    if Signed(v) {
      SignedTail(v);
    } else {
      UnsignedAgrees(v, if HasPrefix(v, 'x', 'X') then 16 else if |v| > 1 && v[0] == '0' then 8 else 10);
    }
  }
}
