/** Decimal digit strings: the part of math/big that the tool relies on. */
module Decimal {
  import opened Basics

  predicate IsDigit(c: char) {
    '0' <= c <= '9'
  }

  predicate Digits(s: string) {
    forall i | 0 <= i < |s| :: IsDigit(s[i])
  }

  function Pow10(n: nat): (p: nat)
    ensures p > 0
  {
    if n == 0 then 1 else 10 * Pow10(n - 1)
  }

  function DigitValue(c: char): (v: nat)
    requires IsDigit(c)
    ensures v < 10
  {
    c as int - '0' as int
  }

  function DigitChar(v: nat): (c: char)
    requires v < 10
    ensures IsDigit(c) && DigitValue(c) == v
  {
    (v + '0' as int) as char
  }

  /** The ten digits, in order. */
  lemma DigitValueIs(c: char)
    requires IsDigit(c)
    ensures "0123456789"[DigitValue(c)] == c
  {
  }

  /** The number a digit string denotes; the empty string denotes 0. */
  function Value(s: string): nat
    requires Digits(s)
  {
    if s == "" then 0 else Value(s[..|s| - 1]) * 10 + DigitValue(s[|s| - 1])
  }

  /** strings.Repeat("0", n) */
  function Zeros(n: nat): (z: string)
    ensures |z| == n && Digits(z)
  {
    seq(n, i => '0')
  }

  predicate AllZeros(s: string) {
    forall i | 0 <= i < |s| :: s[i] == '0'
  }

  /** big.Int.String of a non-negative value. */
  function Print(n: nat): (s: string)
    ensures s != "" && Digits(s)
  {
    if n < 10 then [DigitChar(n)] else Print(n / 10) + [DigitChar(n % 10)]
  }

  /** big.Int.String */
  function PrintInt(v: int): string {
    if v < 0 then "-" + Print(-v) else Print(v)
  }

  /** big.Int.QuoRem of non-negative values, by repeated subtraction. */
  function QuoRem(a: nat, unit: nat): (qr: (nat, nat))
    requires unit > 0
    ensures qr.1 < unit && a == qr.0 * unit + qr.1
  {
    if a < unit then (0, a)
    else
      var (q, r) := QuoRem(a - unit, unit);
      (q + 1, r)
  }

  /** big.Int.SetString(s, 10): one optional sign, then at least one digit and nothing else. */
  function SetString(s: string): Option<int> {
    var signed := s != "" && (s[0] == '-' || s[0] == '+');
    var body := if signed then s[1..] else s;
    if body == "" || !Digits(body) then None
    else
      var v: int := Value(body);
      Some(if s[0] == '-' then -v else v)
  }

  /** s is the digits d with an optional sign, and the number they spell is v. */
  ghost predicate SpellsInt(s: string, v: int, d: string) {
    && d != "" && Digits(d)
    && if s == "-" + d then v + Value(d) == 0 else v == Value(d) && (s == d || s == "+" + d)
  }

  /** SetString accepts exactly an optional sign and at least one digit, and gives the number they
      spell. */
  lemma SetStringExact(s: string, v: int)
    ensures SetString(s) == Some(v) <==> exists d :: SpellsInt(s, v, d)
  {
    if SetString(s) == Some(v) {
      var d := if s[0] == '-' || s[0] == '+' then s[1..] else s;
      assert s == d || s == "+" + d || s == "-" + d;
      assert SpellsInt(s, v, d);
    }
    if d :| SpellsInt(s, v, d) {
      assert s == d || s[1..] == d;
      assert IsDigit(d[0]);
    }
  }

  /** The shape Print produces: no leading zero, except the single digit 0. */
  predicate Plain(s: string) {
    s != "" && Digits(s) && (s[0] == '0' ==> s == "0")
  }

  lemma MulMonotone(a: int, b: int, p: nat)
    requires a < b && p > 0
    ensures a * p < b * p
  {
  }

  lemma CancelRight(a: int, b: int, p: nat)
    requires p > 0 && a * p == b * p
    ensures a == b
  {
    if a < b {
      MulMonotone(a, b, p);
    } else if a > b {
      MulMonotone(b, a, p);
    }
  }

  /** Quotient and remainder are unique. */
  lemma QuoRemUnique(q: nat, r: nat, unit: nat)
    requires r < unit
    ensures QuoRem(q * unit + r, unit) == (q, r)
  {
    var (q', r') := QuoRem(q * unit + r, unit);
    if q' < q {
      MulStep(q', q, unit);
    } else if q < q' {
      MulStep(q, q', unit);
    }
  }

  lemma MulStep(a: int, b: int, p: nat)
    requires a < b
    ensures a * p + p <= b * p
  {
    if a + 1 < b {
      if p > 0 {
        MulMonotone(a + 1, b, p);
      }
    }
    assert (a + 1) * p == a * p + p;
  }

  lemma PowAdd(m: nat, n: nat)
    ensures Pow10(m + n) == Pow10(m) * Pow10(n)
  {
    if m > 0 {
      PowAdd(m - 1, n);
      assert Pow10(m + n) == 10 * (Pow10(m - 1) * Pow10(n));
    }
  }

  lemma ValueSnoc(s: string, c: char)
    requires Digits(s) && IsDigit(c)
    ensures Digits(s + [c]) && Value(s + [c]) == Value(s) * 10 + DigitValue(c)
  {
    assert (s + [c])[..|s|] == s;
  }

  lemma ShiftOne(a: nat, p: nat, b: nat, d: nat)
    ensures (a * p + b) * 10 + d == a * (10 * p) + (b * 10 + d)
  {
  }

  lemma {:induction false} ValueConcat(a: string, b: string)
    requires Digits(a) && Digits(b)
    ensures Digits(a + b) && Value(a + b) == Value(a) * Pow10(|b|) + Value(b)
  {
    if b == "" {
      assert a + b == a;
    } else {
      var n := |b| - 1;
      var b', d := b[..n], b[n];
      ValueConcat(a, b');
      assert a + b == (a + b') + [d] && b == b' + [d];
      ValueSnoc(a + b', d);
      ValueSnoc(b', d);
      ShiftOne(Value(a), Pow10(n), Value(b'), DigitValue(d));
    }
  }

  lemma {:induction false} ZerosValue(s: string)
    requires Digits(s)
    ensures AllZeros(s) <==> Value(s) == 0
  {
    if s != "" {
      ZerosValue(s[..|s| - 1]);
      assert AllZeros(s) <==> AllZeros(s[..|s| - 1]) && s[|s| - 1] == '0';
    }
  }

  lemma {:induction false} ValueBound(s: string)
    requires Digits(s)
    ensures Value(s) < Pow10(|s|)
  {
    if s != "" {
      ValueBound(s[..|s| - 1]);
    }
  }

  lemma ValueUnfold(s: string)
    requires Digits(s) && s != ""
    ensures Digits(s[..|s| - 1])
    ensures Value(s[..|s| - 1]) == Value(s) / 10 && DigitValue(s[|s| - 1]) == Value(s) % 10
  {
  }

  /** Digit strings of one length are told apart by their value. */
  lemma {:induction false} ValueInjective(a: string, b: string)
    requires Digits(a) && Digits(b) && |a| == |b| && Value(a) == Value(b)
    ensures a == b
  {
    if a != "" {
      hide Value;
      var n := |a| - 1;
      ValueUnfold(a);
      ValueUnfold(b);
      ValueInjective(a[..n], b[..n]);
      assert a == a[..n] + [a[n]] && b == b[..n] + [b[n]];
    }
  }

  /** Printing and reading back is the identity, and what is printed has no leading zero. */
  lemma {:induction false} PrintValue(n: nat)
    ensures Plain(Print(n)) && Value(Print(n)) == n
    ensures SetString(Print(n)) == Some(n)
    ensures Print(n) == "0" <==> n == 0
  {
    if n < 10 {
      assert Print(n)[..0] == "";
    } else {
      PrintValue(n / 10);
      var s := Print(n);
      assert s[..|s| - 1] == Print(n / 10);
      assert s[0] == Print(n / 10)[0];
    }
  }

  lemma {:induction false} PrintOfValue(s: string)
    requires Plain(s)
    ensures Print(Value(s)) == s
  {
    var n := |s| - 1;
    if n == 0 {
      assert s[..0] == "";
      assert s == [s[0]];
    } else {
      assert Plain(s[..n]) && s[..n] != "0";
      PrintOfValue(s[..n]);
      ZerosValue(s[..n]);
      assert Value(s[..n]) != 0 by { assert s[..n][0] != '0'; }
      assert s == s[..n] + [s[n]];
    }
  }

  lemma PrintInjective(m: nat, n: nat)
    requires Print(m) == Print(n)
    ensures m == n
  {
    PrintValue(m);
    PrintValue(n);
  }

  /** A printed length never exceeds the width that holds the value. */
  lemma {:induction false} PrintWidth(n: nat, w: nat)
    requires w > 0 && n < Pow10(w)
    ensures |Print(n)| <= w
  {
    if n >= 10 {
      PrintWidth(n / 10, w - 1);
    }
  }
}
