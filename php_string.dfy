/**
 * PHP's conversion of an `int` to a string, as the `.` operator performs it
 * when it concatenates an integer area into the display text: an integer becomes its decimal digits, with a leading '-'
 * when negative and no leading zeros. `Parse` is the inverse on the texts
 * `FromInt` produces, and the lemmas below show the two are mutually inverse.
 */
module PhpString {
  import opened Wrappers

  predicate IsDigit(c: char) {
    '0' <= c <= '9'
  }

  predicate AllDigits(s: string) {
    forall i :: 0 <= i < |s| ==> IsDigit(s[i])
  }

  function DigitChar(d: nat): (c: char)
    requires d < 10
    ensures IsDigit(c)
  {
    "0123456789"[d]
  }

  function DigitValue(c: char): (d: nat)
    requires IsDigit(c)
    ensures d < 10 && DigitChar(d) == c
  {
    (c as int - '0' as int) as nat
  }

  /** The decimal digits of `n`, most significant first, without leading zeros. */
  function NatToDigits(n: nat): (s: string)
    ensures |s| >= 1 && AllDigits(s)
    ensures s[0] == '0' <==> n == 0
    ensures n < 10 <==> |s| == 1
    decreases n
  {
    if n < 10 then [DigitChar(n)] else NatToDigits(n / 10) + [DigitChar(n % 10)]
  }

  /** The number a string of digits denotes. */
  function DigitsValue(s: string): nat
    requires AllDigits(s)
  {
    if s == [] then 0 else DigitsValue(s[..|s| - 1]) * 10 + DigitValue(s[|s| - 1])
  }

  /** The text PHP gives an `int` when it is concatenated into a string. */
  function FromInt(n: int): (s: string)
    ensures |s| >= 1
    ensures s[0] == '-' <==> n < 0
    ensures n >= 0 ==> CanonicalDigits(s)
    ensures n < 0 ==> |s| >= 2 && CanonicalDigits(s[1..]) && s[1] != '0'
  {
    if n < 0 then "-" + NatToDigits(-n) else NatToDigits(n)
  }

  /** A digit string in canonical form: non-empty, and no leading zero unless it is "0". */
  predicate CanonicalDigits(s: string) {
    |s| >= 1 && AllDigits(s) && (s[0] == '0' ==> |s| == 1)
  }

  /** The integer a canonical decimal text denotes; None for any other text ("-0", "007", "", "9a"). */
  function Parse(s: string): Option<int>
  {
    if |s| >= 2 && s[0] == '-' && CanonicalDigits(s[1..]) && s[1] != '0' then Some(0 - DigitsValue(s[1..]) as int)
    else if CanonicalDigits(s) then Some(DigitsValue(s))
    else None
  }

  lemma {:induction false} DigitsValueOfNatToDigits(n: nat)
    ensures DigitsValue(NatToDigits(n)) == n
    decreases n
  {
    if n >= 10 {
      var s := NatToDigits(n);
      DigitsValueOfNatToDigits(n / 10);
      assert s[..|s| - 1] == NatToDigits(n / 10);
    }
  }

  lemma {:induction false} NatToDigitsOfDigitsValue(s: string)
    requires CanonicalDigits(s)
    ensures NatToDigits(DigitsValue(s)) == s
    decreases |s|
  {
    if |s| > 1 {
      var init := s[..|s| - 1];
      assert init[0] == s[0];
      NatToDigitsOfDigitsValue(init);
      var v := DigitsValue(init);
      assert v != 0;
      var n := DigitsValue(s);
      assert n / 10 == v && n % 10 == DigitValue(s[|s| - 1]);
      assert s == init + [s[|s| - 1]];
    }
  }

  /** Reading back the text of any integer gives that integer. */
  lemma {:induction false} ParseFromInt(n: int)
    ensures Parse(FromInt(n)) == Some(n)
  {
    var s := FromInt(n);
    if n < 0 {
      var digits := NatToDigits(-n);
      assert s[1..] == digits;
      assert CanonicalDigits(digits);
      DigitsValueOfNatToDigits(-n);
    } else {
      assert CanonicalDigits(s);
      assert s[0] != '-';
      DigitsValueOfNatToDigits(n);
    }
  }

  /** Every text that parses is exactly the text of the integer it denotes. */
  lemma {:induction false} FromIntOfParse(s: string)
    requires Parse(s).Some?
    ensures FromInt(Parse(s).value) == s
  {
    if |s| >= 2 && s[0] == '-' && CanonicalDigits(s[1..]) && s[1] != '0' {
      NatToDigitsOfDigitsValue(s[1..]);
      assert DigitsValue(s[1..]) != 0;
      assert s == "-" + s[1..];
    } else {
      NatToDigitsOfDigitsValue(s);
    }
  }

  /** Distinct integers have distinct texts. */
  lemma {:induction false} FromIntInjective(m: int, n: int)
    requires FromInt(m) == FromInt(n)
    ensures m == n
  {
    ParseFromInt(m);
    ParseFromInt(n);
  }
}
