/** The few Python string built-ins the decision engine relies on, on ASCII
    text: `int(s)` on a decimal literal, `str(n)`, `c in s` (Dafny's own `in`),
    `s.split('-')[0]` and `s.startswith(p)`. */
module PyText {
  import opened Wrappers

  predicate IsDigit(c: char) {
    '0' <= c <= '9'
  }

  function DigitValue(c: char): (d: nat)
    requires IsDigit(c)
    ensures d <= 9
  {
    c as int - '0' as int
  }

  function DigitChar(d: nat): (c: char)
    requires d <= 9
    ensures IsDigit(c) && DigitValue(c) == d
  {
    (d + '0' as int) as char
  }

  predicate AllDigits(s: string) {
    forall i :: 0 <= i < |s| ==> IsDigit(s[i])
  }

  /** The value of a string of decimal digits, most significant first. */
  function DecimalValue(s: string): nat
    requires AllDigits(s)
  {
    if s == [] then 0 else 10 * DecimalValue(s[..|s| - 1]) + DigitValue(s[|s| - 1])
  }

  /** Python's `int(s)` on a string: an optional sign followed by at least one
      ASCII digit; anything else raises ValueError (here: None). */
  function ParseInt(s: string): Option<int> {
    var k := if |s| > 0 && (s[0] == '+' || s[0] == '-') then 1 else 0;
    if !IsSignedDecimal(s, k) then None
    else if k == 1 && s[0] == '-' then Some(0 - DecimalValue(s[1..]))
    else Some(DecimalValue(s[k..]))
  }

  /** `s[k..]` is a non-empty digit string and `s[..k]` is empty or one sign. */
  predicate IsSignedDecimal(s: string, k: nat) {
    k <= 1 && k < |s| && AllDigits(s[k..]) && (k == 1 ==> s[0] == '+' || s[0] == '-')
  }

  /** Python's `str(n)` for a non-negative integer: no leading zeros. */
  function NatToString(n: nat): (s: string)
    ensures |s| > 0 && AllDigits(s)
  {
    if n < 10 then [DigitChar(n)] else NatToString(n / 10) + [DigitChar(n % 10)]
  }

  /** Python's `str(n)` for any integer. */
  function IntToString(n: int): string {
    if n < 0 then "-" + NatToString(-n) else NatToString(n)
  }

  /** A digit string as `str` would print it: non-empty, no leading zero. */
  predicate IsCanonical(s: string) {
    |s| > 0 && AllDigits(s) && (|s| == 1 || s[0] != '0')
  }

  lemma {:induction false} DecimalValueOfNatToString(n: nat)
    ensures DecimalValue(NatToString(n)) == n
    ensures IsCanonical(NatToString(n))
  {
    if n >= 10 {
      var s := NatToString(n);
      DecimalValueOfNatToString(n / 10);
      assert s[..|s| - 1] == NatToString(n / 10);
    }
  }

  lemma {:induction false} NatToStringOfDecimalValue(s: string)
    requires IsCanonical(s)
    ensures NatToString(DecimalValue(s)) == s
  {
    if |s| > 1 {
      var p := s[..|s| - 1];
      assert IsCanonical(p) by { assert p[0] == s[0]; }
      NatToStringOfDecimalValue(p);
      LeadingDigitBound(p);
      assert DecimalValue(s) / 10 == DecimalValue(p);
      assert s == p + [s[|s| - 1]];
    }
  }

  /** A canonical string of two or more digits denotes at least 10. */
  lemma {:induction false} LeadingDigitBound(s: string)
    requires IsCanonical(s)
    ensures |s| > 1 ==> DecimalValue(s) >= 10
  {
    if |s| > 1 {
      var p := s[..|s| - 1];
      assert IsCanonical(p) by { assert p[0] == s[0]; }
      if |p| > 1 {
        LeadingDigitBound(p);
      } else {
        assert p[0] != '0';
      }
    }
  }

  /** `int(str(n)) == n`: the round trip the engine depends on whenever it
      prints a number and reads it back. */
  lemma ParseIntOfIntToString(n: int)
    ensures ParseInt(IntToString(n)) == Some(n)
  {
    var m := if n < 0 then -n else n;
    DecimalValueOfNatToString(m);
    var t := NatToString(m);
    var s := IntToString(n);
    if n < 0 {
      assert s[1..] == t;
      assert IsSignedDecimal(s, 1);
    } else {
      assert s[0..] == t;
      assert s[0] != '+' && s[0] != '-';
      assert IsSignedDecimal(s, 0);
    }
  }

  /** `s.split(c)[0]`: everything before the first `c`, or all of `s`. */
  function BeforeFirst(s: string, c: char): (r: string)
    ensures r <= s
    ensures c !in r
    ensures r == s || (|r| < |s| && s[|r|] == c)
  {
    if s == [] then []
    else if s[0] == c then []
    else [s[0]] + BeforeFirst(s[1..], c)
  }

  /** `s.startswith(p)`. */
  predicate StartsWith(s: string, p: string) {
    p <= s
  }

  /** `(p + c + q).split(c)[0] == p` when `p` holds no `c`. */
  lemma {:induction false} BeforeFirstOfSplit(p: string, c: char, q: string)
    requires c !in p
    ensures c in p + [c] + q && BeforeFirst(p + [c] + q, c) == p
  {
    var s := p + [c] + q;
    assert s[|p|] == c;
    if p != [] {
      assert c !in p[1..] by {
        forall i | 0 <= i < |p| - 1 ensures p[1..][i] != c {
          assert p[1..][i] == p[i + 1];
        }
      }
      BeforeFirstOfSplit(p[1..], c, q);
      assert s[1..] == p[1..] + [c] + q;
    }
  }

  /** `int(s)` of a plain digit string is its decimal value. */
  lemma ParseIntOfDigits(s: string)
    requires |s| > 0 && AllDigits(s)
    ensures ParseInt(s) == Some(DecimalValue(s))
  {
    assert s[0] != '+' && s[0] != '-';
    assert s[0..] == s;
  }
}
