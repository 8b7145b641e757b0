// Decimal numerals as QString::number, QString::arg and std::to_wstring print
// integers, and the two ways in which the sources split text around a mark.
module Decimal {

  predicate IsDigit(c: char) {
    '0' <= c <= '9'
  }

  function DigitOf(n: nat): (c: char)
    requires n < 10
    ensures IsDigit(c) && c as int - '0' as int == n
  {
    '0' + n as char
  }

  function Digits(n: nat): (s: string)
    ensures |s| > 0
    ensures forall i :: 0 <= i < |s| ==> IsDigit(s[i])
  {
    if n < 10 then [DigitOf(n)] else Digits(n / 10) + [DigitOf(n % 10)]
  }

  lemma DigitsParts(n: nat)
    ensures var s := Digits(n);
            var last := |s| - 1;
            && s[last] == DigitOf(n % 10)
            && (last > 0 <==> n >= 10)
            && (n >= 10 ==> s[..last] == Digits(n / 10))
  {
  }

  // The number a row of digits stands for.
  function ValueOf(s: string): nat
    requires forall i :: 0 <= i < |s| ==> IsDigit(s[i])
  {
    if s == "" then 0
    else
      var last := s[|s| - 1];
      assert IsDigit(last);
      10 * ValueOf(s[..|s| - 1]) + (last as int - '0' as int)
  }

  // The numeral stands for its number and has no zero in front.
  lemma {:induction false} DigitsStandForTheNumber(n: nat)
    ensures ValueOf(Digits(n)) == n
    ensures n > 0 ==> Digits(n)[0] != '0'
  {
    DigitsParts(n);
    if n >= 10 {
      DigitsStandForTheNumber(n / 10);
      assert Digits(n)[..|Digits(n)| - 1][0] == Digits(n)[0];
    }
  }

  // No two numbers share a numeral.
  lemma {:induction false} DigitsInjective(m: nat, n: nat)
    requires Digits(m) == Digits(n)
    ensures m == n
  {
    DigitsParts(m);
    DigitsParts(n);
    if m >= 10 {
      DigitsInjective(m / 10, n / 10);
    }
  }

  function Numeral(n: int): (s: string)
    ensures |s| > 0
    ensures forall i :: 0 <= i < |s| ==> IsDigit(s[i]) || s[i] == '-'
  {
    if n < 0 then "-" + Digits(-n) else Digits(n)
  }

  lemma NumeralInjective(m: int, n: int)
    requires Numeral(m) == Numeral(n)
    ensures m == n
  {
    assert m < 0 <==> Numeral(m)[0] == '-';
    assert n < 0 <==> Numeral(n)[0] == '-';
    if m < 0 && n < 0 {
      assert Numeral(m)[1..] == Digits(-m) && Numeral(n)[1..] == Digits(-n);
      DigitsInjective(-m, -n);
    } else {
      DigitsInjective(m, n);
    }
  }

  // A mark that occurs in neither tail splits a text in one way only.
  lemma SplitAtLast(mark: char, a: string, u: string, b: string, v: string)
    requires mark !in u && mark !in v
    requires a + [mark] + u == b + [mark] + v
    ensures a == b && u == v
  {
    var s := a + [mark] + u;
    assert forall i :: |a| < i < |s| ==> s[i] == u[i - |a| - 1];
    assert forall i :: |b| < i < |s| ==> s[i] == v[i - |b| - 1];
    assert s[|a|] == mark && s[|b|] == mark;
    assert |a| == |b|;
    assert a == s[..|a|] && b == s[..|b|];
    assert u == s[|a| + 1..] && v == s[|b| + 1..];
  }

  // The same for a mark that occurs in neither head.
  lemma SplitAtFirst(mark: char, a: string, u: string, b: string, v: string)
    requires mark !in a && mark !in b
    requires a + [mark] + u == b + [mark] + v
    ensures a == b && u == v
  {
    var s := a + [mark] + u;
    assert forall i :: 0 <= i < |a| ==> s[i] == a[i];
    assert forall i :: 0 <= i < |b| ==> s[i] == b[i];
    assert s[|a|] == mark && s[|b|] == mark;
    assert |a| == |b|;
    assert a == s[..|a|] && b == s[..|b|];
    assert u == s[|a| + 1..] && v == s[|b| + 1..];
  }
}
