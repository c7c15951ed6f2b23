/** The order of strings by code points. */
module StrOrder {

  /** Python's string order. */
  predicate StrLess(a: string, b: string) {
    if a == [] then b != []
    else b != [] && (a[0] < b[0] || (a[0] == b[0] && StrLess(a[1..], b[1..])))
  }

  lemma {:induction false} StrLessTotal(a: string, b: string)
    ensures a == b || StrLess(a, b) || StrLess(b, a)
    decreases |a|
  {
    if a != [] && b != [] && a[0] == b[0] {
      StrLessTotal(a[1..], b[1..]);
      if a[1..] == b[1..] {
        assert a == [a[0]] + a[1..] && b == [b[0]] + b[1..];
      }
    }
  }

  lemma {:induction false} StrLessTransitive(a: string, b: string, c: string)
    requires StrLess(a, b) && StrLess(b, c)
    ensures StrLess(a, c)
    decreases |a|
  {
    if a != [] && a[0] == b[0] == c[0] {
      StrLessTransitive(a[1..], b[1..], c[1..]);
    }
  }

  lemma StrLessIrreflexive(a: string)
    ensures !StrLess(a, a)
    decreases |a|
  {
    if a != [] { StrLessIrreflexive(a[1..]); }
  }

  /** At i the first string ends or has the smaller character, and up to there they are the same. */
  ghost predicate FallsBehind(a: string, b: string, i: nat) {
    i <= |a| && i < |b| && (i == |a| || a[i] < b[i]) && forall k :: 0 <= k < i ==> a[k] == b[k]
  }

  lemma {:induction false} StrLessMeans(a: string, b: string)
    ensures StrLess(a, b) <==> exists i: nat :: FallsBehind(a, b, i)
    decreases |a|
  {
    if a == [] || b == [] || a[0] < b[0] {
      if b != [] { assert FallsBehind(a, b, 0); }
    } else if a[0] == b[0] {
      StrLessMeans(a[1..], b[1..]);
      if i: nat :| FallsBehind(a[1..], b[1..], i) { assert FallsBehind(a, b, i + 1); }
      if i: nat :| FallsBehind(a, b, i) { assert FallsBehind(a[1..], b[1..], i - 1); }
    }
  }
}
