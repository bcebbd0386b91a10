/**
 * Character and string helpers: ASCII case folding as `str.lower()` does on
 * ASCII input, substring containment as Python's `in` on strings, and the
 * decimal reading of a header value as `int(...)` does on a string of digits.
 */
module Text {

  /** ASCII lower-casing of one character; every other character is left alone. */
  function LowerChar(c: char): char {
    if 'A' <= c <= 'Z' then (c as int - 'A' as int + 'a' as int) as char else c
  }

  /** `s.lower()`, restricted to ASCII letters. */
  function Lower(s: string): string {
    seq(|s|, i requires 0 <= i < |s| => LowerChar(s[i]))
  }

  /** `p` occurs in `s` starting at index `i`. */
  predicate OccursAt(p: string, s: string, i: int) {
    0 <= i && i + |p| <= |s| && s[i..i + |p|] == p
  }

  /** Python's `p in s` on strings: `p` is a substring of `s`. */
  function Contains(s: string, p: string): (b: bool)
    ensures b <==> exists i :: OccursAt(p, s, i)
    decreases |s|
  {
    if |p| > |s| then false
    else if s[..|p|] == p then (assert OccursAt(p, s, 0); true)
    else
      assert !OccursAt(p, s, 0) by { assert s[0..|p|] == s[..|p|]; }
      var b := Contains(s[1..], p);
      ShiftOccurrence(p, s);
      b
  }

  /** Occurrences in `s[1..]` are the occurrences in `s` past index 0. */
  lemma ShiftOccurrence(p: string, s: string)
    requires |s| > 0
    ensures forall i :: i >= 0 ==> (OccursAt(p, s[1..], i) <==> OccursAt(p, s, i + 1))
    ensures (exists i :: OccursAt(p, s, i)) ==> OccursAt(p, s, 0) || exists i :: OccursAt(p, s[1..], i)
  {
    forall i | i >= 0 ensures OccursAt(p, s[1..], i) <==> OccursAt(p, s, i + 1) {
      if i + |p| <= |s| - 1 {
        assert s[1..][i..i + |p|] == s[i + 1..i + 1 + |p|];
      }
    }
    if i :| OccursAt(p, s, i) {
      if i > 0 {
        assert OccursAt(p, s[1..], i - 1);
      }
    }
  }

  predicate IsDigit(c: char) { '0' <= c <= '9' }

  /** A non-empty run of ASCII digits, the header values `int(...)` is assumed to read. */
  predicate IsDecimal(s: string) {
    |s| > 0 && forall i :: 0 <= i < |s| ==> IsDigit(s[i])
  }

  /** The value of a run of decimal digits, most significant first. */
  function DecimalValue(s: string): nat
    requires forall i :: 0 <= i < |s| ==> IsDigit(s[i])
  {
    if s == [] then 0
    else
      assert IsDigit(s[|s| - 1]);
      DecimalValue(s[..|s| - 1]) * 10 + (s[|s| - 1] as int - '0' as int)
  }

  function Pow10(k: nat): (p: nat)
    ensures p >= 1
  {
    if k == 0 then 1 else 10 * Pow10(k - 1)
  }

  /** Positional notation: the digits of `a` count `Pow10(|b|)` times as much
      as the digits of `b` that follow them. */
  lemma {:induction false} DecimalValueConcat(a: string, b: string)
    requires forall i :: 0 <= i < |a| ==> IsDigit(a[i])
    requires forall i :: 0 <= i < |b| ==> IsDigit(b[i])
    ensures forall i :: 0 <= i < |a + b| ==> IsDigit((a + b)[i])
    ensures DecimalValue(a + b) == DecimalValue(a) * Pow10(|b|) + DecimalValue(b)
    decreases |b|
  {
    if b == [] {
      assert a + b == a;
    } else {
      var b' := b[..|b| - 1];
      var d := b[|b| - 1] as int - '0' as int;
      assert (a + b)[..|a + b| - 1] == a + b';
      assert (a + b)[|a + b| - 1] == b[|b| - 1];
      DecimalValueConcat(a, b');
      assert DecimalValue(a + b) == DecimalValue(a + b') * 10 + d;
      assert DecimalValue(b) == DecimalValue(b') * 10 + d;
      ShiftDigit(DecimalValue(a), Pow10(|b'|), DecimalValue(b'), d);
    }
  }

  lemma ShiftDigit(x: int, p: int, y: int, d: int)
    ensures (x * p + y) * 10 + d == x * (10 * p) + (y * 10 + d)
  {
  }

  /** `k` digits denote a value below `10^k`. */
  lemma {:induction false} DecimalValueBound(s: string)
    requires forall i :: 0 <= i < |s| ==> IsDigit(s[i])
    ensures DecimalValue(s) < Pow10(|s|)
  {
    if s != [] {
      var s' := s[..|s| - 1];
      DecimalValueBound(s');
      assert IsDigit(s[|s| - 1]);
      assert DecimalValue(s) <= (Pow10(|s'|) - 1) * 10 + 9;
    }
  }
}
