/** Comparing resource versions as strings (pkg/runtime/cached.go:42-55). */
module Versions {
  import opened Base
  import opened Kinds

  const INT64_LIMIT := 0x8000_0000_0000_0000

  predicate IsDigit(c: char) {
    '0' <= c <= '9'
  }

  predicate Digits(s: string) {
    s != "" && forall i | 0 <= i < |s| :: IsDigit(s[i])
  }

  function Digit(c: char): nat
    requires IsDigit(c)
  {
    (c - '0') as nat
  }

  function Value(s: string): nat
    requires forall i | 0 <= i < |s| :: IsDigit(s[i])
  {
    if s == "" then 0 else 10 * Value(s[..|s| - 1]) + Digit(s[|s| - 1])
  }

  /** A decimal number as it is usually written: no sign and no leading zero. */
  predicate Canonical(s: string) {
    Digits(s) && (|s| > 1 ==> s[0] != '0')
  }

  /** A canonical number that fits the integers Atoi can read. */
  predicate Version(s: string) {
    Canonical(s) && Value(s) < INT64_LIMIT
  }

  /** `strconv.Atoi`: an optional sign, digits, and a result of 64 bits. */
  function Atoi(s: string): Option<int> {
    var signed := s != "" && s[0] in {'+', '-'};
    var digits := if signed then s[1..] else s;
    if !Digits(digits) then None
    else
      var size: int := Value(digits);
      var n := if signed && s[0] == '-' then -size else size;
      if -INT64_LIMIT <= n < INT64_LIMIT then Some(n) else None
  }

  predicate Newer(oldRV: string, newRV: string) {
    if |oldRV| == |newRV| then Below(oldRV, newRV)
    else
      var oldI := Atoi(oldRV);
      if oldI == None then true
      else
        var newI := Atoi(newRV);
        if newI == None then false
        else oldI.value < newI.value
  }

  // ---------------------------------------------------------------- strings of one length

  lemma {:induction false} BelowByLast(a: string, b: string)
    requires |a| == |b| > 0
    ensures var n := |a| - 1;
            Below(a, b) <==> Below(a[..n], b[..n]) || (a[..n] == b[..n] && a[n] < b[n])
  {
    var n := |a| - 1;
    if n > 0 {
      BelowByLast(a[1..], b[1..]);
      assert a[1..][..n - 1] == a[..n][1..] && b[1..][..n - 1] == b[..n][1..];
      assert a[..n] == [a[0]] + a[..n][1..] && b[..n] == [b[0]] + b[..n][1..];
    }
  }

  /** Digit by digit, the order of strings of one length is the order of their values. */
  lemma {:induction false} BelowIsLess(a: string, b: string)
    requires |a| == |b|
    requires forall i | 0 <= i < |a| :: IsDigit(a[i]) && IsDigit(b[i])
    ensures Below(a, b) <==> Value(a) < Value(b)
    ensures a == b <==> Value(a) == Value(b)
  {
    if a != "" {
      var n := |a| - 1;
      BelowIsLess(a[..n], b[..n]);
      BelowByLast(a, b);
      assert a == a[..n] + [a[n]] && b == b[..n] + [b[n]];
    }
  }

  // ---------------------------------------------------------------- strings of different length

  function Power(n: nat): nat {
    if n == 0 then 1 else 10 * Power(n - 1)
  }

  lemma {:induction false} PowersGrow(m: nat, n: nat)
    requires m <= n
    ensures Power(m) <= Power(n)
  {
    if m < n {
      PowersGrow(m, n - 1);
    }
  }

  lemma {:induction false} ValueFits(s: string)
    requires forall i | 0 <= i < |s| :: IsDigit(s[i])
    ensures Value(s) < Power(|s|)
    ensures s != "" && s[0] != '0' ==> Power(|s| - 1) <= Value(s)
  {
    if s != "" {
      ValueFits(s[..|s| - 1]);
    }
  }

  lemma LongerIsMore(a: string, b: string)
    requires Canonical(a) && Canonical(b) && |a| < |b|
    ensures Value(a) < Value(b)
  {
    ValueFits(a);
    ValueFits(b);
    PowersGrow(|a|, |b| - 1);
  }

  lemma AtoiOfCanonical(s: string)
    requires Canonical(s)
    ensures Atoi(s) == if Value(s) < INT64_LIMIT then Some(Value(s)) else None
  {
    assert IsDigit(s[0]);
  }

  // ---------------------------------------------------------------- what Newer means

  /** Newer compares two canonical numbers right exactly when they have the same length, or both fit 64 bits, or only
      their lengths matter because the first does not fit and is shorter. */
  lemma NewerIsRightIff(a: string, b: string)
    requires Canonical(a) && Canonical(b)
    ensures (Newer(a, b) <==> Value(a) < Value(b)) <==>
            |a| == |b| || (Version(a) && Version(b)) || (!Version(a) && |a| < |b|)
  {
    AtoiOfCanonical(a);
    AtoiOfCanonical(b);
    if |a| == |b| {
      BelowIsLess(a, b);
    } else if |a| < |b| {
      LongerIsMore(a, b);
    } else {
      LongerIsMore(b, a);
    }
  }

  /** For versions, the shortcut for equal lengths and the comparison of integers are one numeric comparison. */
  lemma NewerIsLess(a: string, b: string)
    requires Version(a) && Version(b)
    ensures Newer(a, b) <==> Value(a) < Value(b)
  {
    NewerIsRightIff(a, b);
  }

  /** Newer is a strict total order on versions. */
  lemma NewerIsTotalOrder(a: string, b: string, c: string)
    requires Version(a) && Version(b) && Version(c)
    ensures a == b || Newer(a, b) || Newer(b, a)
    ensures !(Newer(a, b) && Newer(b, a)) && (a == b ==> !Newer(a, b))
    ensures Newer(a, b) && Newer(b, c) ==> Newer(a, c)
  {
    NewerIsLess(a, b);
    NewerIsLess(b, a);
    NewerIsLess(b, c);
    NewerIsLess(a, c);
    if |a| == |b| {
      BelowIsLess(a, b);
    } else if |a| < |b| {
      LongerIsMore(a, b);
    } else {
      LongerIsMore(b, a);
    }
  }
}
