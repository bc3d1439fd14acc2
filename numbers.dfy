/**
 * Decimal integers as Go's strconv package reads and writes them on a
 * 64-bit platform: Atoi accepts an optional '+' or '-' sign followed by one
 * or more ASCII digits whose value fits in a signed 64-bit integer, and
 * rejects everything else (no spaces, no underscores, no base prefixes).
 */
module Numbers {
  import opened Wrappers

  const MIN_INT64: int := -0x8000_0000_0000_0000
  const MAX_INT64: int := 0x7FFF_FFFF_FFFF_FFFF

  predicate InInt64(n: int) {
    MIN_INT64 <= n <= MAX_INT64
  }

  predicate IsDigit(c: char) {
    '0' <= c <= '9'
  }

  predicate AllDigits(s: string) {
    forall i :: 0 <= i < |s| ==> IsDigit(s[i])
  }

  function DigitValue(c: char): nat
    requires IsDigit(c)
  {
    (c as int) - ('0' as int)
  }

  function DigitChar(d: nat): (c: char)
    requires d < 10
    ensures IsDigit(c) && DigitValue(c) == d
  {
    (('0' as int) + d) as char
  }

  /** The value of a run of decimal digits, most significant digit first. */
  function DigitsValue(s: string): nat
    requires AllDigits(s)
  {
    if s == [] then 0 else DigitsValue(s[..|s| - 1]) * 10 + DigitValue(s[|s| - 1])
  }

  /** The digits after an optional leading sign. */
  function Unsigned(s: string): string {
    if |s| > 0 && (s[0] == '+' || s[0] == '-') then s[1..] else s
  }

  /** strconv.Atoi: None stands for the syntax and range errors alike. */
  function Atoi(s: string): (r: Option<int>)
    ensures r.Some? ==> InInt64(r.value)
    ensures r.Some? ==> |Unsigned(s)| > 0 && AllDigits(Unsigned(s))
    ensures r.Some? && r.value < 0 ==> s[0] == '-'
    ensures r.Some? ==> r.value == if s[0] == '-' then -(DigitsValue(Unsigned(s)) as int) else DigitsValue(Unsigned(s))
  {
    var digits := Unsigned(s);
    if |digits| == 0 || !AllDigits(digits) then None
    else
      var v: int := if s[0] == '-' then -(DigitsValue(digits) as int) else DigitsValue(digits);
      if InInt64(v) then Some(v) else None
  }

  /** The shortest decimal digits of a natural number. */
  function NatDigits(n: nat): (s: string)
    ensures |s| > 0 && AllDigits(s)
    ensures s[0] == '0' ==> n == 0
  {
    if n < 10 then [DigitChar(n)] else NatDigits(n / 10) + [DigitChar(n % 10)]
  }

  /** strconv.Itoa: a '-' for negative numbers, then the shortest digits. */
  function FormatInt(n: int): string {
    if n < 0 then "-" + NatDigits(-n) else NatDigits(n)
  }

  lemma {:induction false} NatDigitsValue(n: nat)
    ensures DigitsValue(NatDigits(n)) == n
  {
    var s := NatDigits(n);
    if n >= 10 {
      NatDigitsValue(n / 10);
      assert s[..|s| - 1] == NatDigits(n / 10);
    }
  }

  /** Reading back what FormatInt writes gives the number again. */
  lemma AtoiFormatInt(n: int)
    requires InInt64(n)
    ensures Atoi(FormatInt(n)) == Some(n)
  {
    var s := FormatInt(n);
    if n < 0 {
      NatDigitsValue(-n);
      assert s[0] == '-';
      assert Unsigned(s) == NatDigits(-n);
    } else {
      NatDigitsValue(n);
      assert IsDigit(s[0]);
      assert Unsigned(s) == NatDigits(n);
    }
  }

  /** A run of digits without a sign reads as its value, and above 2^63 - 1 is a range error. */
  lemma AtoiUnsigned(d: string)
    requires |d| > 0 && AllDigits(d)
    ensures Atoi(d) == if DigitsValue(d) <= MAX_INT64 then Some(DigitsValue(d) as int) else None
  {
    assert IsDigit(d[0]);
    assert Unsigned(d) == d;
  }

  /**
   * A sign is accepted and no positivity check is made: "+d" reads as d and
   * "-d" as its negation, down to -2^63.
   */
  lemma AtoiSigned(d: string)
    requires |d| > 0 && AllDigits(d)
    ensures Atoi("+" + d) == Atoi(d)
    ensures Atoi("-" + d) == if DigitsValue(d) <= -MIN_INT64 then Some(-(DigitsValue(d) as int)) else None
  {
    AtoiUnsigned(d);
    assert Unsigned("+" + d) == d;
    assert Unsigned("-" + d) == d;
  }

  /** A leading zero does not change the value of a run of digits. */
  lemma {:induction false} DigitsValueLeadingZero(d: string)
    requires AllDigits(d)
    ensures AllDigits("0" + d) && DigitsValue("0" + d) == DigitsValue(d)
    decreases |d|
  {
    var z := "0" + d;
    if d != [] {
      assert z[..|z| - 1] == "0" + d[..|d| - 1];
      DigitsValueLeadingZero(d[..|d| - 1]);
    }
  }

  /** Leading zeros are accepted and ignored: "0022" reads as 22. */
  lemma AtoiLeadingZero(d: string)
    requires |d| > 0 && AllDigits(d)
    ensures Atoi("0" + d) == Atoi(d)
  {
    DigitsValueLeadingZero(d);
    assert Unsigned("0" + d) == "0" + d;
  }

  /** Leading zeros in a port: "0022" reads as 22. */
  lemma AtoiLeadingZeroExample()
    ensures Atoi("0022") == Some(22)
  {
    AtoiLeadingZero("022");
    assert "0" + "022" == "0022";
    AtoiLeadingZero("22");
    assert "0" + "22" == "022";
    AtoiFormatInt(22);
    assert NatDigits(22) == "22";
  }

  /** Worked examples: a port, a negative port, and texts that are not numbers. */
  lemma AtoiExamples()
    ensures Atoi("2222") == Some(2222) && Atoi("-1") == Some(-1) && Atoi("+22") == Some(22)
    ensures Atoi("") == None && Atoi("+") == None && Atoi("ssh") == None && Atoi("22a") == None
  {
    AtoiFormatInt(2222);
    assert NatDigits(2222) == "2222";
    AtoiFormatInt(-1);
    assert FormatInt(-1) == "-1";
    AtoiFormatInt(22);
    AtoiSigned("22");
    assert NatDigits(22) == "22";
    assert !IsDigit("22a"[2]);
  }
}
