// Numeric helpers shared by the engine, the editor and the renderers:
// JavaScript's Math.round, Number.prototype.toFixed(2) read back with
// parseFloat, Math.min/Math.max clamps, decimal rendering of integers and
// the case-sensitive String.prototype.includes test.

module Numeric {

  /** Math.round: the nearest integer, halves rounded towards +infinity. */
  function JsRound(x: real): (r: int)
    ensures x - 0.5 < r as real <= x + 0.5
  {
    (x + 0.5).Floor
  }

  /** A real that is a whole number of hundredths. */
  predicate IsHundredths(x: real)
  {
    (x * 100.0).Floor as real == x * 100.0
  }

  /** parseFloat(x.toFixed(2)): x rounded to the nearest hundredth, halves up. */
  function Fixed2(x: real): (r: real)
    ensures IsHundredths(r)
    ensures x - 0.005 < r <= x + 0.005
  {
    (x * 100.0 + 0.5).Floor as real / 100.0
  }

  /** Rounding an already rounded quantity changes nothing. */
  lemma Fixed2OfHundredths(x: real)
    requires IsHundredths(x)
    ensures Fixed2(x) == x
  {
    var k := (x * 100.0).Floor;
    assert x * 100.0 + 0.5 == k as real + 0.5;
    assert (x * 100.0 + 0.5).Floor == k;
  }

  /** Sums of whole hundredths are whole hundredths. */
  lemma HundredthsAdd(a: real, b: real)
    requires IsHundredths(a) && IsHundredths(b)
    ensures IsHundredths(a + b)
  {
    var ka, kb := (a * 100.0).Floor, (b * 100.0).Floor;
    assert (a + b) * 100.0 == (ka + kb) as real;
  }

  /** parseFloat(x.toFixed(1)): x rounded to the nearest tenth, halves up. */
  function Fixed1(x: real): (r: real)
    ensures x - 0.05 < r <= x + 0.05
    ensures (r * 10.0).Floor as real == r * 10.0
  {
    (x * 10.0 + 0.5).Floor as real / 10.0
  }

  lemma Fixed2Idempotent(x: real)
    ensures Fixed2(Fixed2(x)) == Fixed2(x)
  {
    Fixed2OfHundredths(Fixed2(x));
  }

  /**
   * Math.hypot(dx, dy).  A square root has no closed form over the reals
   * here, so callers that need a length take it as a parameter.
   */
  type Hypot = (real, real) -> real

  /** The sign of a product of reals. */
  lemma ProductSign(a: real, b: real)
    requires b != 0.0
    ensures a * b > 0.0 <==> (a > 0.0 && b > 0.0) || (a < 0.0 && b < 0.0)
  {
    if a > 0.0 && b < 0.0 { assert a * b == -(a * -b); }
    if a < 0.0 && b > 0.0 { assert a * b == -(-a * b); }
    if a < 0.0 && b < 0.0 { assert a * b == -a * -b; }
  }

  function MinR(a: real, b: real): real { if a <= b then a else b }
  function MaxR(a: real, b: real): real { if a >= b then a else b }
  function AbsR(a: real): real { if a < 0.0 then -a else a }
  function MinI(a: int, b: int): int { if a <= b then a else b }
  function MaxI(a: int, b: int): int { if a >= b then a else b }

  /** Math.max(lo, Math.min(x, hi)); when lo > hi the result is lo. */
  function ClampR(x: real, lo: real, hi: real): (r: real)
    ensures lo <= hi ==> lo <= r <= hi
    ensures lo <= x <= hi ==> r == x
    ensures hi < lo ==> r == lo
  {
    MaxR(lo, MinR(x, hi))
  }

  /** Math.max(lo, Math.min(hi, x)) on integers. */
  function ClampI(x: int, lo: int, hi: int): (r: int)
    requires lo <= hi
    ensures lo <= r <= hi
    ensures lo <= x <= hi ==> r == x
    ensures x < lo ==> r == lo
    ensures hi < x ==> r == hi
  {
    MaxI(lo, MinI(hi, x))
  }

  function DigitChar(d: nat): (c: char)
    requires d < 10
    ensures '0' <= c <= '9'
  {
    "0123456789"[d]
  }

  /** Decimal rendering of a natural number, as template literals print it. */
  function NatToString(n: nat): (s: string)
    ensures |s| >= 1
    ensures forall i :: 0 <= i < |s| ==> '0' <= s[i] <= '9'
    decreases n
  {
    if n < 10 then [DigitChar(n)] else NatToString(n / 10) + [DigitChar(n % 10)]
  }

  function IntToString(i: int): (s: string)
    ensures |s| >= 1
    ensures i >= 0 <==> s[0] != '-'
  {
    if i < 0 then "-" + NatToString(-i) else NatToString(i)
  }

  /** `sub` occurs in `s` starting at position i. */
  predicate MatchesAt(s: string, sub: string, i: int)
    requires 0 <= i <= |s| - |sub|
  {
    s[i..i + |sub|] == sub
  }

  /** String.prototype.includes: case-sensitive substring test. */
  predicate Includes(s: string, sub: string)
  {
    exists i :: 0 <= i <= |s| - |sub| && MatchesAt(s, sub, i)
  }

  /** A string containing `sub` contains its first character early enough. */
  lemma IncludesFirstChar(s: string, sub: string)
    requires |sub| > 0 && Includes(s, sub)
    ensures sub[0] in s[..|s| - |sub| + 1]
  {
    var i :| 0 <= i <= |s| - |sub| && MatchesAt(s, sub, i);
    assert s[i..i + |sub|][0] == s[i];
    assert s[..|s| - |sub| + 1][i] == s[i];
  }

  /** Every character of a contained string occurs in the containing one. */
  lemma IncludesEveryChar(s: string, sub: string, j: int)
    requires 0 <= j < |sub| && Includes(s, sub)
    ensures sub[j] in s
  {
    var i :| 0 <= i <= |s| - |sub| && MatchesAt(s, sub, i);
    assert s[i..i + |sub|][j] == s[i + j];
  }

  /** The remainder of JavaScript's `%` operator, truncating towards zero. */
  function JsRem(a: int, b: int): (r: int)
    requires b > 0
    ensures a >= 0 ==> r == a % b
    ensures -b < r < b
  {
    if a >= 0 then a % b else -((-a) % b)
  }

  /** Array(n).fill(x) */
  function Filled<T>(n: nat, x: T): (r: seq<T>)
    ensures |r| == n && forall i :: 0 <= i < n ==> r[i] == x
  {
    seq(n, _ => x)
  }

  /**
   * `a[i] = v` on a copied JavaScript array.  Writing past the end extends
   * the array; the holes it leaves read back as `hole` at every reader
   * (`a[k] ?? 0`, `a[k] || 0`).
   */
  function JsArrayWrite<T>(a: seq<T>, i: nat, v: T, hole: T): (r: seq<T>)
    ensures |r| == if i < |a| then |a| else i + 1
    ensures r[i] == v
    ensures forall k :: 0 <= k < |a| && k != i ==> r[k] == a[k]
    ensures forall k :: |a| <= k < |r| && k != i ==> r[k] == hole
  {
    if i < |a| then a[i := v] else a + Filled(i - |a|, hole) + [v]
  }

  /** `a[i] ?? hole`: reading past the end gives the hole value. */
  function JsArrayRead<T>(a: seq<T>, i: nat, hole: T): (r: T)
    ensures i < |a| ==> r == a[i]
    ensures |a| <= i ==> r == hole
  {
    if i < |a| then a[i] else hole
  }

  /** Reading back a written array gives the written value at its index and,
   *  elsewhere, what the old array read (its entry or the hole). */
  lemma JsArrayReadAfterWrite<T>(a: seq<T>, i: nat, v: T, hole: T, j: nat)
    ensures JsArrayRead(JsArrayWrite(a, i, v, hole), j, hole) ==
              if j == i then v else JsArrayRead(a, j, hole)
  {
  }
}
