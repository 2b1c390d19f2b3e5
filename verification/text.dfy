/** Strings as the dashboard handles them: lower-casing, substring search
    (`String.prototype.includes`, an unanchored regular-expression literal),
    suffix tests (a literal followed by `$`), and decimal digits. */
module Text {

  /** `toLowerCase` on one character. Only ASCII letters are mapped: every
      non-ASCII character in the catalogue's keys and labels is already
      lower case or has no case. */
  function LowerChar(c: char): char {
    if 'A' <= c <= 'Z' then (c as int + 32) as char else c
  }

  /** `String.prototype.toLowerCase`. */
  function Lower(s: string): (r: string)
    ensures |r| == |s|
    ensures forall i :: 0 <= i < |s| ==> r[i] == LowerChar(s[i])
  {
    if |s| == 0 then "" else [LowerChar(s[0])] + Lower(s[1..])
  }

  lemma {:induction false} LowerIdempotent(s: string)
    ensures Lower(Lower(s)) == Lower(s)
  {
    if |s| > 0 {
      LowerIdempotent(s[1..]);
    }
  }

  lemma LowerAppend(a: string, b: string)
    ensures Lower(a + b) == Lower(a) + Lower(b)
  {
    assert forall i :: 0 <= i < |a + b| ==> Lower(a + b)[i] == (Lower(a) + Lower(b))[i];
  }

  /** `p` occurs in `t` starting at index `i`. */
  predicate ContainsAt(t: string, p: string, i: int) {
    0 <= i && i + |p| <= |t| && t[i..i + |p|] == p
  }

  /** `t.includes(p)`, equivalently `/p/.test(t)` for a literal `p`. */
  predicate Contains(t: string, p: string) {
    exists i | 0 <= i <= |t| :: ContainsAt(t, p, i)
  }

  /** `/p$/.test(t)` for a literal `p`: `p` ends the whole string. */
  predicate EndsWith(t: string, p: string) {
    |p| <= |t| && t[|t| - |p|..] == p
  }

  /** Every string contains the empty string. */
  lemma ContainsEmpty(t: string)
    ensures Contains(t, "")
  {
    assert ContainsAt(t, "", 0);
  }

  /** A suffix is in particular a substring. */
  lemma EndsWithContains(t: string, p: string)
    requires EndsWith(t, p)
    ensures Contains(t, p)
  {
    assert ContainsAt(t, p, |t| - |p|);
  }

  /** Substring search is transitive: whatever contains `q` contains every
      substring of `q`. */
  lemma ContainsTrans(t: string, q: string, p: string)
    requires Contains(t, q) && Contains(q, p)
    ensures Contains(t, p)
  {
    var i :| 0 <= i <= |t| && ContainsAt(t, q, i);
    var j :| 0 <= j <= |q| && ContainsAt(q, p, j);
    assert q == t[i..i + |q|];
    forall k | 0 <= k < |p|
      ensures t[i + j..i + j + |p|][k] == p[k]
    {
      assert p[k] == q[j..j + |p|][k] == q[j + k] == t[i + j + k];
    }
    assert ContainsAt(t, p, i + j);
  }

  /** A string is found in itself, and inside any concatenation around it. */
  lemma ContainsInfix(a: string, p: string, b: string)
    ensures Contains(a + p + b, p)
  {
    assert (a + p + b)[|a|..|a| + |p|] == p;
    assert ContainsAt(a + p + b, p, |a|);
  }

  /** Character `j` of an occurrence at `i`; stated without a precondition
      so that it can be used while refuting an occurrence. */
  lemma CharAt(t: string, p: string, i: int, j: int)
    ensures ContainsAt(t, p, i) && 0 <= j < |p| ==> t[i + j] == p[j]
  {
    if ContainsAt(t, p, i) && 0 <= j < |p| {
      assert t[i..i + |p|][j] == p[j];
    }
  }

  predicate IsDigit(c: char) {
    '0' <= c <= '9'
  }

  predicate AllDigits(s: string) {
    forall i :: 0 <= i < |s| ==> IsDigit(s[i])
  }

  function DigitChar(d: nat): char
    requires d < 10
  {
    ('0' as int + d) as char
  }

  /** Decimal digits of a natural number, most significant first, as
      JavaScript's number-to-string conversion writes an integer below 1e21. */
  function NatText(n: nat): (s: string)
    ensures |s| > 0 && AllDigits(s)
  {
    if n < 10 then [DigitChar(n)] else NatText(n / 10) + [DigitChar(n % 10)]
  }

  /** The value of a string of decimal digits. */
  function DigitsValue(s: string): nat
    requires AllDigits(s)
  {
    if |s| == 0 then 0
    else DigitsValue(s[..|s| - 1]) * 10 + (s[|s| - 1] as int - '0' as int)
  }

  /** Reading back the digits of `n` gives `n`. */
  lemma {:induction false} NatTextRoundTrip(n: nat)
    ensures DigitsValue(NatText(n)) == n
  {
    if n >= 10 {
      var s := NatText(n);
      assert s[..|s| - 1] == NatText(n / 10);
      NatTextRoundTrip(n / 10);
    }
  }

  /** Up to `n` digits of the fraction `f` (with 0 <= f < 1), stopping as soon
      as the expansion terminates. */
  function FractionDigits(f: real, n: nat): (s: string)
    requires 0.0 <= f < 1.0
    ensures |s| <= n && AllDigits(s)
    decreases n
  {
    if n == 0 || f == 0.0 then ""
    else
      var d := (f * 10.0).Floor;
      [DigitChar(d)] + FractionDigits(f * 10.0 - d as real, n - 1)
  }

  /** Number-to-string conversion of a finite value, as `${x}` writes it in a
      template literal: integers as plain digits, other values with their
      decimal fraction. */
  function NumberText(x: real): (s: string)
    ensures x == x.Floor as real && x >= 0.0 ==> s == NatText(x.Floor)
    ensures x == x.Floor as real && x < 0.0 ==> s == "-" + NatText((-x).Floor)
    ensures x < 0.0 ==> |s| > 0 && s[0] == '-'
  {
    assert x == x.Floor as real ==> -x == (-x.Floor) as real && (-x).Floor == -x.Floor;
    var a := if x < 0.0 then -x else x;
    var whole := a.Floor;
    var frac := a - whole as real;
    (if x < 0.0 then "-" else "")
      + NatText(whole)
      + (if frac == 0.0 then "" else "." + FractionDigits(frac, 20))
  }
}
