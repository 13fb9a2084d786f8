/** The string operations of Python that the pipeline relies on: `str.strip()`,
    `str.replace(c, '')` for one character, and reading decimal digits. */
module Strings {

  /** The characters for which Python's `str.isspace()` holds; `str.strip()` removes these. */
  predicate IsSpace(c: char) {
    || ('\t' <= c <= '\r')
    || ('\U{1C}' <= c <= '\U{1F}')
    || c == ' ' || c == '\U{85}' || c == '\U{A0}' || c == '\U{1680}'
    || ('\U{2000}' <= c <= '\U{200A}')
    || c == '\U{2028}' || c == '\U{2029}' || c == '\U{202F}' || c == '\U{205F}' || c == '\U{3000}'
  }

  predicate AllSpace(s: string) {
    forall i :: 0 <= i < |s| ==> IsSpace(s[i])
  }

  /** `s.lstrip()`: `s` without its leading whitespace. */
  function StripStart(s: string): string {
    if |s| > 0 && IsSpace(s[0]) then StripStart(s[1..]) else s
  }

  /** `s.rstrip()`: `s` without its trailing whitespace. */
  function StripEnd(s: string): string {
    if |s| > 0 && IsSpace(s[|s| - 1]) then StripEnd(s[..|s| - 1]) else s
  }

  /** `s.strip()`: `s` without its leading and trailing whitespace. */
  function Strip(s: string): string {
    StripEnd(StripStart(s))
  }

  /** What `lstrip` removes is a whitespace prefix, and what it keeps does not start with whitespace. */
  lemma {:induction false} StripStartShape(s: string)
    ensures |StripStart(s)| <= |s| && StripStart(s) == s[|s| - |StripStart(s)|..]
    ensures AllSpace(s[..|s| - |StripStart(s)|])
    ensures StripStart(s) == [] || !IsSpace(StripStart(s)[0])
    decreases |s|
  {
    if |s| > 0 && IsSpace(s[0]) {
      StripStartShape(s[1..]);
      var r := StripStart(s[1..]);
      assert s[..|s| - |r|] == [s[0]] + s[1..][..|s[1..]| - |r|];
    }
  }

  /** What `rstrip` removes is a whitespace suffix, and what it keeps does not end with whitespace. */
  lemma {:induction false} StripEndShape(s: string)
    ensures |StripEnd(s)| <= |s| && StripEnd(s) == s[..|StripEnd(s)|]
    ensures AllSpace(s[|StripEnd(s)|..])
    ensures StripEnd(s) == [] || !IsSpace(StripEnd(s)[|StripEnd(s)| - 1])
    decreases |s|
  {
    if |s| > 0 && IsSpace(s[|s| - 1]) {
      StripEndShape(s[..|s| - 1]);
      var r := StripEnd(s[..|s| - 1]);
      assert s[|r|..] == s[..|s| - 1][|r|..] + [s[|s| - 1]];
    }
  }

  /** The stripped text is no longer than the original and has no whitespace at either end. */
  lemma StripShape(s: string)
    ensures |Strip(s)| <= |s|
    ensures Strip(s) == [] || (!IsSpace(Strip(s)[0]) && !IsSpace(Strip(s)[|Strip(s)| - 1]))
  {
    StripStartShape(s);
    var t := StripStart(s);
    StripEndShape(t);
    if Strip(s) != [] {
      assert Strip(s)[0] == t[0];
    }
  }

  lemma {:induction false} StripStartSkipsSpaces(a: string, t: string)
    requires AllSpace(a)
    ensures StripStart(a + t) == StripStart(t)
    decreases |a|
  {
    if a == [] {
      assert a + t == t;
    } else {
      assert (a + t)[1..] == a[1..] + t;
      StripStartSkipsSpaces(a[1..], t);
    }
  }

  lemma {:induction false} StripEndSkipsSpaces(t: string, b: string)
    requires AllSpace(b)
    ensures StripEnd(t + b) == StripEnd(t)
    decreases |b|
  {
    if b == [] {
      assert t + b == t;
    } else {
      var b' := b[..|b| - 1];
      assert (t + b)[..|t + b| - 1] == t + b';
      StripEndSkipsSpaces(t, b');
    }
  }

  /** Strip removes exactly the whitespace around the text: whatever the padding `a` and `b`,
      the text `m` between them (empty, or with non-space ends) is what remains. */
  lemma StripPadding(s: string, a: string, m: string, b: string)
    requires PaddedBy(s, a, m, b)
    requires m == [] || (!IsSpace(m[0]) && !IsSpace(m[|m| - 1]))
    ensures Strip(s) == m
  {
    assert a + m + b == a + (m + b);
    StripStartSkipsSpaces(a, m + b);
    if m == [] {
      assert m + b == b;
      StripStartSkipsSpaces(b, []);
      assert b + [] == b;
      assert StripStart(b) == StripStart([]) == [];
      assert Strip(s) == StripEnd(StripStart(m + b)) == StripEnd([]) == [];
    } else {
      assert (m + b)[0] == m[0];
      assert StripStart(m + b) == m + b;
      StripEndSkipsSpaces(m, b);
      assert StripEnd(m) == m;
    }
  }

  /** `s` is the text `m` with the whitespace padding `a` before it and `b` after it. */
  predicate PaddedBy(s: string, a: string, m: string, b: string) {
    AllSpace(a) && AllSpace(b) && s == a + m + b
  }

  lemma StripStartSplits(s: string)
    ensures |StripStart(s)| <= |s| && AllSpace(s[..|s| - |StripStart(s)|])
    ensures s == s[..|s| - |StripStart(s)|] + StripStart(s)
  {
    StripStartShape(s);
  }

  lemma StripEndSplits(t: string)
    ensures |StripEnd(t)| <= |t| && AllSpace(t[|StripEnd(t)|..])
    ensures t == StripEnd(t) + t[|StripEnd(t)|..]
  {
    StripEndShape(t);
  }

  lemma Regroup(s: string, a: string, m: string, b: string)
    requires AllSpace(a) && AllSpace(b) && s == a + (m + b)
    ensures PaddedBy(s, a, m, b)
  {
    assert a + (m + b) == a + m + b;
  }

  /** Every string is its stripped text with whitespace padding on both sides. */
  lemma StripSplits(s: string)
    ensures exists a, b :: PaddedBy(s, a, Strip(s), b)
  {
    var t := StripStart(s);
    StripStartSplits(s);
    StripEndSplits(t);
    var a, b := s[..|s| - |t|], t[|StripEnd(t)|..];
    Regroup(s, a, Strip(s), b);
  }

  /** Stripping twice is stripping once. */
  lemma StripIdempotent(s: string)
    ensures Strip(Strip(s)) == Strip(s)
  {
    StripShape(s);
    assert Strip(s) == [] + Strip(s) + [];
    StripPadding(Strip(s), [], Strip(s), []);
  }

  /** `s.replace(c, '')`: `s` with every occurrence of `c` deleted, the rest in order. */
  function Remove(s: string, c: char): string {
    if s == [] then []
    else if s[0] == c then Remove(s[1..], c)
    else [s[0]] + Remove(s[1..], c)
  }

  /** What `replace(c, '')` keeps: every character other than `c`, and nothing longer. */
  lemma {:induction false} RemoveChars(s: string, c: char)
    ensures |Remove(s, c)| <= |s|
    ensures forall x :: x in Remove(s, c) <==> x in s && x != c
    decreases |s|
  {
    if s != [] {
      RemoveChars(s[1..], c);
      assert forall x :: x in s <==> x == s[0] || x in s[1..];
    }
  }

  lemma {:induction false} RemoveConcat(a: string, b: string, c: char)
    ensures Remove(a + b, c) == Remove(a, c) + Remove(b, c)
    decreases |a|
  {
    if a == [] {
      assert a + b == b;
    } else {
      assert (a + b)[1..] == a[1..] + b;
      assert (a + b)[0] == a[0];
      RemoveConcat(a[1..], b, c);
    }
  }

  lemma {:induction false} RemoveAbsent(s: string, c: char)
    requires c !in s
    ensures Remove(s, c) == s
    decreases |s|
  {
    if s != [] {
      assert s[0] in s && s[0] != c;
      assert forall x :: x in s[1..] ==> x in s;
      RemoveAbsent(s[1..], c);
      assert Remove(s, c) == [s[0]] + Remove(s[1..], c);
      assert s == [s[0]] + s[1..];
    }
  }

  predicate IsDigit(c: char) { '0' <= c <= '9' }

  predicate AllDigits(s: string) {
    forall i :: 0 <= i < |s| ==> IsDigit(s[i])
  }

  function DigitValue(c: char): (n: nat)
    requires IsDigit(c)
    ensures n < 10
  {
    c as int - '0' as int
  }

  function Pow10(n: nat): (p: nat)
    ensures p >= 1
  {
    if n == 0 then 1 else 10 * Pow10(n - 1)
  }

  /** The natural number a string of decimal digits denotes, most significant digit first. */
  function DigitsValue(s: string): (n: nat)
    requires AllDigits(s)
    ensures n < Pow10(|s|)
    decreases |s|
  {
    if s == [] then 0 else DigitsValue(s[..|s| - 1]) * 10 + DigitValue(s[|s| - 1])
  }

  /** Reading digits is positional: the digits of `b` written after those of `a` shift `a` up. */
  lemma {:induction false} DigitsValueConcat(a: string, b: string)
    requires AllDigits(a) && AllDigits(b)
    ensures AllDigits(a + b)
    ensures DigitsValue(a + b) == DigitsValue(a) * Pow10(|b|) + DigitsValue(b)
    decreases |b|
  {
    if b == [] {
      assert a + b == a;
    } else {
      var b' := b[..|b| - 1];
      assert (a + b)[..|a + b| - 1] == a + b';
      assert (a + b)[|a + b| - 1] == b[|b| - 1];
      DigitsValueConcat(a, b');
      var d := DigitValue(b[|b| - 1]);
      assert DigitsValue(a + b) == DigitsValue(a + b') * 10 + d;
      assert DigitsValue(b) == DigitsValue(b') * 10 + d;
      assert Pow10(|b|) == 10 * Pow10(|b'|);
      ShiftDigit(DigitsValue(a + b'), DigitsValue(a), Pow10(|b'|), DigitsValue(b'), d);
    }
  }

  lemma ShiftDigit(v: int, x: int, p: int, y: int, d: int)
    requires v == x * p + y
    ensures v * 10 + d == x * (10 * p) + (y * 10 + d)
  {
  }
}
