/**
 * The text handling of the expense form: the digit filter applied to the
 * amount and reference inputs, and the conversions between a digit string
 * and a whole number (`parseInt`, `Number`, `toString`).
 */
module DigitText {

  predicate IsDigit(c: char) {
    '0' <= c <= '9'
  }

  predicate AllDigits(s: string) {
    forall i :: 0 <= i < |s| ==> IsDigit(s[i])
  }

  predicate AllZeros(s: string) {
    forall i :: 0 <= i < |s| ==> s[i] == '0'
  }

  /** A digit string the way `toString` writes a whole number: non-empty, and no leading zero except in "0" itself. */
  predicate Canonical(s: string) {
    s != [] && AllDigits(s) && (s[0] == '0' ==> |s| == 1)
  }

  /** `value.replace(/[^0-9]/g, "")`: every character that is not an ASCII digit is removed. */
  function DigitFilter(s: string): (r: string)
    ensures AllDigits(r)
    ensures |r| <= |s|
  {
    if s == [] then []
    else (if IsDigit(s[0]) then [s[0]] else []) + DigitFilter(s[1..])
  }

  /** The filter works character by character: filtering a concatenation filters each part, in order. */
  lemma {:induction false} DigitFilterAppend(a: string, b: string)
    ensures DigitFilter(a + b) == DigitFilter(a) + DigitFilter(b)
  {
    if a == [] {
      assert a + b == b;
    } else {
      assert (a + b)[0] == a[0];
      assert (a + b)[1..] == a[1..] + b;
      DigitFilterAppend(a[1..], b);
    }
  }

  /** Every digit of the input is kept, as often as it occurs; every other character is dropped. */
  lemma {:induction false} DigitFilterCounts(s: string, c: char)
    ensures multiset(DigitFilter(s))[c] == if IsDigit(c) then multiset(s)[c] else 0
  {
    if s != [] {
      assert s == [s[0]] + s[1..];
      DigitFilterCounts(s[1..], c);
    }
  }

  /** A digit-only input passes through unchanged. */
  lemma {:induction false} DigitFilterKeepsDigits(s: string)
    requires AllDigits(s)
    ensures DigitFilter(s) == s
  {
    if s != [] {
      assert AllDigits(s[1..]) by {
        forall i | 0 <= i < |s[1..]| ensures IsDigit(s[1..][i]) {
          assert s[1..][i] == s[i + 1];
        }
      }
      DigitFilterKeepsDigits(s[1..]);
      assert s == [s[0]] + s[1..];
    }
  }

  /** Filtering twice is filtering once. */
  lemma DigitFilterIdempotent(s: string)
    ensures DigitFilter(DigitFilter(s)) == DigitFilter(s)
  {
    DigitFilterKeepsDigits(DigitFilter(s));
  }

  function DigitValue(c: char): (d: nat)
    requires IsDigit(c)
    ensures d < 10
  {
    c as int - '0' as int
  }

  function DigitChar(d: nat): (c: char)
    requires d < 10
    ensures IsDigit(c) && DigitValue(c) == d
  {
    ('0' as int + d) as char
  }

  lemma DigitCharOfValue(c: char)
    requires IsDigit(c)
    ensures DigitChar(DigitValue(c)) == c
  {
  }

  lemma AllDigitsPrefix(s: string, n: nat)
    requires AllDigits(s) && n <= |s|
    ensures AllDigits(s[..n])
  {
  }

  /**
   * The decimal value of a digit string, as `Number(s)` computes it; leading
   * zeros add nothing and the empty string is 0. On a non-empty digit string
   * `parseInt(s, 10)` gives the same number.
   */
  function DecimalValue(s: string): (n: nat)
    requires AllDigits(s)
    decreases |s|
  {
    if s == [] then 0
    else
      AllDigitsPrefix(s, |s| - 1);
      10 * DecimalValue(s[..|s| - 1]) + DigitValue(s[|s| - 1])
  }

  /** `n.toString()` for a whole number `n`: its decimal digits, most significant first. */
  function NatToString(n: nat): (r: string)
    ensures Canonical(r)
    ensures r[0] == '0' <==> n == 0
    decreases n
  {
    if n < 10 then [DigitChar(n)]
    else NatToString(n / 10) + [DigitChar(n % 10)]
  }

  /** Reading back what `toString` wrote gives the number again. */
  lemma {:induction false} ParsePrinted(n: nat)
    ensures DecimalValue(NatToString(n)) == n
  {
    var r := NatToString(n);
    if n < 10 {
      assert r[..|r| - 1] == [];
    } else {
      assert r[..|r| - 1] == NatToString(n / 10);
      ParsePrinted(n / 10);
    }
  }

  /** A digit string whose first digit is not zero has a positive value. */
  lemma {:induction false} LeadingDigitPositive(s: string)
    requires AllDigits(s) && s != [] && s[0] != '0'
    ensures DecimalValue(s) > 0
  {
    if |s| > 1 {
      var p := s[..|s| - 1];
      AllDigitsPrefix(s, |s| - 1);
      assert p[0] == s[0];
      LeadingDigitPositive(p);
    }
  }

  /** Writing out the value of a canonical digit string gives that string back. */
  lemma {:induction false} PrintParsed(s: string)
    requires Canonical(s)
    ensures NatToString(DecimalValue(s)) == s
  {
    var p, c := s[..|s| - 1], s[|s| - 1];
    AllDigitsPrefix(s, |s| - 1);
    DigitCharOfValue(c);
    if |s| == 1 {
      assert p == [];
      assert s == [c];
    } else {
      assert p[0] == s[0];
      LeadingDigitPositive(p);
      PrintParsed(p);
      assert s == p + [c];
    }
  }

  /** A digit string is worth zero exactly when every digit in it is '0'. */
  lemma {:induction false} ValueZeroIff(s: string)
    requires AllDigits(s)
    ensures DecimalValue(s) == 0 <==> AllZeros(s)
  {
    if s != [] {
      var p := s[..|s| - 1];
      AllDigitsPrefix(s, |s| - 1);
      ValueZeroIff(p);
      assert s == p + [s[|s| - 1]];
      if AllZeros(s) {
        assert AllZeros(p) by {
          forall i | 0 <= i < |p| ensures p[i] == '0' {
            assert p[i] == s[i];
          }
        }
      }
    }
  }
}
