/**
  The audit key is the fingerprint written in base 10, as
  `strconv.FormatUint(objectHash, 10)` does (main.go:94). The key is only
  useful as an identity if distinct fingerprints give distinct keys; that
  follows from the parser below being a left inverse of the formatter.
 */
module Decimal {

  /** Go's `uint64`. */
  type Uint64 = n: int | 0 <= n < 0x1_0000_0000_0000_0000

  predicate IsDigit(c: char)
  {
    '0' <= c <= '9'
  }

  function DigitChar(d: nat): (c: char)
    requires d < 10
    ensures IsDigit(c) && c as int - '0' as int == d
  {
    ('0' as int + d) as char
  }

  function DigitValue(c: char): nat
    requires IsDigit(c)
  {
    c as int - '0' as int
  }

  /** A canonical unsigned decimal numeral: digits only, no leading zero. */
  predicate IsCanonical(s: string)
  {
    |s| > 0 &&
    (forall i :: 0 <= i < |s| ==> IsDigit(s[i])) &&
    (s[0] == '0' ==> |s| == 1)
  }

  /** The base-10 numeral of `n`, most significant digit first. */
  function Format(n: nat): (s: string)
    ensures IsCanonical(s)
    ensures s == "0" <==> n == 0
    decreases n
  {
    if n < 10 then [DigitChar(n)]
    else Format(n / 10) + [DigitChar(n % 10)]
  }

  /** The value of a numeral made of digits; the empty numeral is 0. */
  function Parse(s: string): nat
    requires forall i :: 0 <= i < |s| ==> IsDigit(s[i])
    decreases |s|
  {
    if s == [] then 0
    else Parse(s[..|s| - 1]) * 10 + DigitValue(s[|s| - 1])
  }

  /** Reading back a formatted number gives the number. */
  lemma {:induction false} ParseFormat(n: nat)
    ensures Parse(Format(n)) == n
    decreases n
  {
    var s := Format(n);
    if n >= 10 {
      assert s[..|s| - 1] == Format(n / 10);
      ParseFormat(n / 10);
    }
  }

  /** Distinct numbers have distinct numerals, and equal numerals equal numbers. */
  lemma FormatInjective(a: nat, b: nat)
    ensures Format(a) == Format(b) <==> a == b
  {
    if Format(a) == Format(b) {
      ParseFormat(a);
      ParseFormat(b);
    }
  }

  /** Every canonical numeral is the format of its value. */
  lemma {:induction false} FormatParse(s: string)
    requires IsCanonical(s)
    ensures Format(Parse(s)) == s
    decreases |s|
  {
    var init := s[..|s| - 1];
    var last := s[|s| - 1];
    if |s| == 1 {
      assert Parse(s) == Parse(init) * 10 + DigitValue(last);
      assert init == [];
    } else {
      assert IsCanonical(init) by {
        assert init[0] == s[0];
        assert forall i :: 0 <= i < |init| ==> init[i] == s[i];
      }
      FormatParse(init);
      var n := Parse(s);
      assert n == Parse(init) * 10 + DigitValue(last);
      // A zero prefix would be the numeral "0", a leading zero.
      assert Parse(init) > 0 by {
        assert init[0] == s[0];
      }
      assert n >= 10;
      assert n / 10 == Parse(init) && n % 10 == DigitValue(last);
      assert DigitChar(n % 10) == last;
    }
  }
}
