/** The string operations the generators rely on: Python's `str.replace`, `str(n)` for
    non-negative integers, and fixed-width decimal digits as read and written by dates. */
module Text {

  /** The pattern `p` occurs in `s` starting at index `k`. */
  predicate OccursAt(s: string, p: string, k: int) {
    0 <= k && k + |p| <= |s| && s[k..k + |p|] == p
  }

  /** The pattern `p` occurs somewhere in `s`. */
  predicate Contains(s: string, p: string) {
    exists k :: 0 <= k <= |s| && OccursAt(s, p, k)
  }

  /** `s.replace(p, r)`: scanning left to right, every non-overlapping occurrence of
      `p` is replaced by `r`; scanning resumes right after the replaced occurrence. */
  function ReplaceAll(s: string, p: string, r: string): string
    requires |p| > 0
    decreases |s|
  {
    if |s| < |p| then s
    else if s[..|p|] == p then r + ReplaceAll(s[|p|..], p, r)
    else [s[0]] + ReplaceAll(s[1..], p, r)
  }

  /** A string in which `p` does not occur is left unchanged. */
  lemma {:induction false} ReplaceAbsent(s: string, p: string, r: string)
    requires |p| > 0
    requires !Contains(s, p)
    ensures ReplaceAll(s, p, r) == s
    decreases |s|
  {
    if |s| >= |p| {
      assert !OccursAt(s, p, 0);
      assert !Contains(s[1..], p) by {
        forall k | OccursAt(s[1..], p, k) ensures false {
          assert s[k + 1..k + 1 + |p|] == s[1..][k..k + |p|];
          assert OccursAt(s, p, k + 1);
        }
      }
      ReplaceAbsent(s[1..], p, r);
    }
  }

  /** Replacing a pattern by itself changes nothing. */
  lemma {:induction false} ReplaceBySelf(s: string, p: string)
    requires |p| > 0
    ensures ReplaceAll(s, p, p) == s
    decreases |s|
  {
    if |s| >= |p| {
      if s[..|p|] == p {
        ReplaceBySelf(s[|p|..], p);
        assert s == s[..|p|] + s[|p|..];
      } else {
        ReplaceBySelf(s[1..], p);
        assert s == [s[0]] + s[1..];
      }
    }
  }

  /** Leftmost-occurrence characterisation: when `p` does not start anywhere in `a`
      (within `a + p + b`), the first occurrence is the one after `a`; it is replaced
      and the scan goes on in `b`. */
  lemma {:induction false} ReplaceLeftmost(a: string, p: string, b: string, r: string)
    requires |p| > 0
    requires forall k :: 0 <= k < |a| ==> !OccursAt(a + p + b, p, k)
    ensures ReplaceAll(a + p + b, p, r) == a + r + ReplaceAll(b, p, r)
    decreases |a|
  {
    var s := a + p + b;
    if a == [] {
      assert s == p + b;
      assert s[..|p|] == p;
      assert s[|p|..] == b;
    } else {
      assert !OccursAt(s, p, 0);
      assert s[..|p|] != p;
      var t := a[1..] + p + b;
      assert s[1..] == t;
      NoEarlierOccurrenceInTail(a, p, b);
      ReplaceLeftmost(a[1..], p, b, r);
      assert a + r + ReplaceAll(b, p, r) == [a[0]] + (a[1..] + r + ReplaceAll(b, p, r));
    }
  }

  /** Dropping the first character of `a` keeps `p` from starting inside what is left of it. */
  lemma NoEarlierOccurrenceInTail(a: string, p: string, b: string)
    requires |a| > 0
    requires forall k :: 0 <= k < |a| ==> !OccursAt(a + p + b, p, k)
    ensures forall k :: 0 <= k < |a[1..]| ==> !OccursAt(a[1..] + p + b, p, k)
  {
    var s, t := a + p + b, a[1..] + p + b;
    forall k | 0 <= k < |a[1..]| ensures !OccursAt(t, p, k) {
      assert !OccursAt(s, p, k + 1);
      if k + |p| <= |t| {
        assert t[k..k + |p|] == s[k + 1..k + 1 + |p|];
      }
    }
  }

  /** A prefix that does not hold the first character of `p` is copied through unchanged. */
  lemma {:induction false} ReplaceAfterPrefix(a: string, s: string, p: string, r: string)
    requires |p| > 0 && p[0] !in a
    ensures ReplaceAll(a + s, p, r) == a + ReplaceAll(s, p, r)
    decreases |a|
  {
    if a != [] {
      var t := a + s;
      assert t[0] == a[0] && a[0] in a;
      assert |t| >= |p| ==> t[..|p|] != p by {
        if |t| >= |p| { assert t[..|p|][0] == a[0]; }
      }
      assert t[1..] == a[1..] + s;
      ReplaceAfterPrefix(a[1..], s, p, r);
      if |t| < |p| {
        assert ReplaceAll(t[1..], p, r) == t[1..];
        assert t == [t[0]] + t[1..];
      }
      assert ReplaceAll(t, p, r) == [t[0]] + ReplaceAll(t[1..], p, r);
      assert a + ReplaceAll(s, p, r) == [a[0]] + (a[1..] + ReplaceAll(s, p, r));
    } else {
      assert a + s == s;
    }
  }

  /** Where `p` does not start at the front, the first character is copied through. */
  lemma ReplaceNoMatchAtFront(c: char, s: string, p: string, r: string)
    requires |p| > 0 && !OccursAt([c] + s, p, 0)
    ensures ReplaceAll([c] + s, p, r) == [c] + ReplaceAll(s, p, r)
  {
    var t := [c] + s;
    assert t[1..] == s;
    if |t| < |p| {
      ReplaceAbsent(s, p, r);
      assert t == [c] + s;
    }
  }

  /** An occurrence followed by a character that cannot start another one: after the prefix
      (free of `p`'s first character) the occurrence is replaced and that character kept. */
  lemma {:induction false} ReplaceFollowedBy(head: string, p: string, c: char, tail: string, r: string)
    requires |p| > 0 && p[0] !in head && c != p[0]
    ensures ReplaceAll(head + p + [c] + tail, p, r) == head + r + [c] + ReplaceAll(tail, p, r)
  {
    var rest := [c] + tail;
    assert head + p + [c] + tail == head + (p + rest);
    ReplaceAfterPrefix(head, p + rest, p, r);
    assert (p + rest)[..|p|] == p && (p + rest)[|p|..] == rest;
    assert |rest| >= |p| ==> rest[..|p|][0] == c;
    ReplaceNoMatchAtFront(c, tail, p, r);
  }

  /** The decimal digit for `d`. */
  function DigitChar(d: int): (c: char)
    requires 0 <= d < 10
    ensures '0' <= c <= '9'
  {
    "0123456789"[d]
  }

  predicate IsDigit(c: char) {
    '0' <= c <= '9'
  }

  predicate AllDigits(s: string) {
    forall k :: 0 <= k < |s| ==> IsDigit(s[k])
  }

  function DigitValue(c: char): int
    requires IsDigit(c)
  {
    c as int - '0' as int
  }

  lemma DigitRoundTrip(d: int)
    requires 0 <= d < 10
    ensures IsDigit(DigitChar(d)) && DigitValue(DigitChar(d)) == d
  {
  }

  /** The number a string of decimal digits denotes (leading zeros allowed). */
  function DigitsValue(s: string): (n: nat)
    requires AllDigits(s)
    decreases |s|
  {
    if s == [] then 0
    else DigitsValue(s[..|s| - 1]) * 10 + DigitValue(s[|s| - 1])
  }

  /** The value of a two-digit string, digit by digit. */
  lemma TwoDigitsValue(s: string)
    requires |s| == 2 && AllDigits(s)
    ensures DigitsValue(s) == 10 * DigitValue(s[0]) + DigitValue(s[1])
  {
    var h := s[..1];
    assert h[..0] == [] && h[0] == s[0];
    assert DigitsValue(h) == DigitValue(s[0]);
  }

  /** The value of a four-digit string, digit by digit. */
  lemma FourDigitsValue(s: string)
    requires |s| == 4 && AllDigits(s)
    ensures DigitsValue(s) == 1000 * DigitValue(s[0]) + 100 * DigitValue(s[1]) + 10 * DigitValue(s[2]) + DigitValue(s[3])
  {
    TwoDigitsValue(s[..2]);
    assert s[..3][..2] == s[..2];
  }

  /** `str(n)` for a non-negative integer: decimal digits without leading zeros. */
  function NatToString(n: nat): (s: string)
    decreases n
  {
    if n < 10 then [DigitChar(n)] else NatToString(n / 10) + [DigitChar(n % 10)]
  }

  /** `str(n)` is a non-empty digit string without a leading zero that reads back as `n`. */
  lemma {:induction false} NatToStringRoundTrip(n: nat)
    ensures |NatToString(n)| > 0 && AllDigits(NatToString(n))
    ensures NatToString(n)[0] == '0' ==> n == 0
    ensures DigitsValue(NatToString(n)) == n
    decreases n
  {
    var s := NatToString(n);
    if n < 10 {
      DigitRoundTrip(n);
      assert s[..0] == [];
    } else {
      NatToStringRoundTrip(n / 10);
      DigitRoundTrip(n % 10);
      var t := NatToString(n / 10);
      assert s == t + [DigitChar(n % 10)];
      assert s[..|s| - 1] == t;
      assert s[0] == t[0];
    }
  }

  function Pow10(w: nat): (p: nat)
    ensures p >= 1
  {
    if w == 0 then 1 else 10 * Pow10(w - 1)
  }

  /** `n` written with exactly `w` digits, padded on the left with zeros (the `%Y`, `%m`
      and `%d` directives of `strftime`). */
  function PadDigits(n: nat, w: nat): (s: string)
    ensures |s| == w && AllDigits(s)
    decreases w
  {
    if w == 0 then [] else PadDigits(n / 10, w - 1) + [DigitChar(n % 10)]
  }

  /** Padded digits read back as the number whenever it fits in the width. */
  lemma {:induction false} PadDigitsRoundTrip(n: nat, w: nat)
    requires n < Pow10(w)
    ensures DigitsValue(PadDigits(n, w)) == n
    decreases w
  {
    if w > 0 {
      var s := PadDigits(n, w);
      PadDigitsRoundTrip(n / 10, w - 1);
      DigitRoundTrip(n % 10);
      assert s[..|s| - 1] == PadDigits(n / 10, w - 1);
    }
  }

  /** A digit string is the padded form of its own value. */
  lemma {:induction false} DigitsPadRoundTrip(s: string)
    requires AllDigits(s)
    ensures DigitsValue(s) < Pow10(|s|)
    ensures PadDigits(DigitsValue(s), |s|) == s
    decreases |s|
  {
    if s != [] {
      var init := s[..|s| - 1];
      var d := DigitValue(s[|s| - 1]);
      DigitsPadRoundTrip(init);
      var n := DigitsValue(s);
      assert n == DigitsValue(init) * 10 + d;
      assert n / 10 == DigitsValue(init) && n % 10 == d;
      assert DigitChar(d) == s[|s| - 1];
      assert s == init + [s[|s| - 1]];
    }
  }
}
