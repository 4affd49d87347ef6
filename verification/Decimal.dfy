// Decimal printing of integers, as strconv.FormatInt does it.

module Decimal {
  function Digit(d: nat): char
    requires d < 10
  {
    "0123456789"[d]
  }

  function FormatNat(n: nat): string {
    if n < 10 then [Digit(n)] else FormatNat(n / 10) + [Digit(n % 10)]
  }

  function FormatInt(n: int): string {
    if n < 0 then "-" + FormatNat(-n) else FormatNat(n)
  }

  function Value(s: string): nat {
    if s == "" then 0
    else
      var c := s[|s| - 1];
      Value(s[..|s| - 1]) * 10 + (if '0' <= c <= '9' then (c as int) - ('0' as int) else 0)
  }

  lemma DigitValue(d: nat)
    requires d < 10
    ensures '0' <= Digit(d) <= '9' && (Digit(d) as int) - ('0' as int) == d
  {
  }

  // Printing can be undone, so different numbers print differently.
  lemma {:induction false} ValueOfFormat(n: nat)
    ensures Value(FormatNat(n)) == n
    ensures FormatNat(n) != "" && forall i :: 0 <= i < |FormatNat(n)| ==> FormatNat(n)[i] != '-'
  {
    if n < 10 {
      DigitValue(n);
      assert FormatNat(n)[..0] == "";
    } else {
      ValueOfFormat(n / 10);
      DigitValue(n % 10);
      assert FormatNat(n)[..|FormatNat(n)| - 1] == FormatNat(n / 10);
    }
  }

  // Printed are digits alone, without leading zeros.
  lemma {:induction false} FormatIsCanonical(n: nat)
    ensures FormatNat(n) != "" && (FormatNat(n)[0] == '0' ==> n == 0)
    ensures forall i :: 0 <= i < |FormatNat(n)| ==> '0' <= FormatNat(n)[i] <= '9'
  {
    DigitValue(n % 10);
    if n >= 10 {
      FormatIsCanonical(n / 10);
    }
  }

  lemma FormatIntInjective(a: int, b: int)
    requires FormatInt(a) == FormatInt(b)
    ensures a == b
  {
    ValueOfFormat(if a < 0 then -a else a);
    ValueOfFormat(if b < 0 then -b else b);
    assert FormatInt(a)[0] == '-' <==> a < 0;
    assert FormatInt(b)[0] == '-' <==> b < 0;
    if a < 0 {
      assert FormatInt(a)[1..] == FormatNat(-a);
      assert FormatInt(b)[1..] == FormatNat(-b);
    }
  }

  lemma DashOnlyInFront(a: int)
    ensures FormatInt(a) != "" && forall i :: 0 < i < |FormatInt(a)| ==> FormatInt(a)[i] != '-'
  {
    ValueOfFormat(if a < 0 then -a else a);
  }

  // A number followed by '-' ends where the digits do: the number and the rest
  // of the text can both be read back.
  lemma NumberThenDash(a: int, b: int, x: string, y: string)
    requires FormatInt(a) + "-" + x == FormatInt(b) + "-" + y
    ensures a == b && x == y
  {
    var s, fa, fb := FormatInt(a) + "-" + x, FormatInt(a), FormatInt(b);
    DashOnlyInFront(a);
    DashOnlyInFront(b);
    assert s[|fa|] == '-' && s[|fb|] == '-';
    assert forall i :: 0 <= i < |fa| ==> s[i] == fa[i];
    assert forall i :: 0 <= i < |fb| ==> s[i] == fb[i];
    assert |fa| == |fb|;
    assert fa == s[..|fa|] == fb;
    FormatIntInjective(a, b);
    assert x == s[|fa| + 1..] == y;
  }
}
