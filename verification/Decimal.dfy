/** Decimal numerals as Go prints and parses them: strconv.Itoa, strconv.Atoi on a 64-bit
    int, and the canonical form [1-9][0-9]*. */
module Decimal {
  import opened Wrappers

  const MAX_INT: int := 9223372036854775807
  const MAX_INT32: int := 2147483647

  predicate IsDigit(c: char) {
    '0' <= c <= '9'
  }

  function DigitChar(d: int): (c: char)
    requires 0 <= d < 10
    ensures IsDigit(c) && DigitValue(c) == d
  {
    "0123456789"[d]
  }

  function DigitValue(c: char): (d: int)
    requires IsDigit(c)
    ensures 0 <= d < 10 && (d == 0 <==> c == '0')
  {
    c as int - '0' as int
  }

  predicate AllDigits(s: string) {
    forall i :: 0 <= i < |s| ==> IsDigit(s[i])
  }

  /** [1-9][0-9]* */
  predicate Canonical(s: string) {
    |s| > 0 && s[0] != '0' && AllDigits(s)
  }

  function Itoa(n: nat): (s: string)
    ensures |s| > 0 && AllDigits(s)
    ensures n > 0 ==> Canonical(s)
  {
    if n < 10 then [DigitChar(n)] else Itoa(n / 10) + [DigitChar(n % 10)]
  }

  function Value(s: string): nat
    requires AllDigits(s)
  {
    if |s| == 0 then 0 else Value(s[..|s| - 1]) * 10 + DigitValue(s[|s| - 1])
  }

  lemma {:induction false} ValueOfItoa(n: nat)
    ensures Value(Itoa(n)) == n
  {
    if n < 10 {
      assert Itoa(n) == [DigitChar(n)];
      assert Itoa(n)[..0] == "";
    } else {
      var s := Itoa(n);
      assert s[..|s| - 1] == Itoa(n / 10);
      ValueOfItoa(n / 10);
    }
  }

  lemma {:induction false} ItoaOfValue(s: string)
    requires Canonical(s)
    ensures Value(s) > 0 && Itoa(Value(s)) == s
  {
    var init, last := s[..|s| - 1], s[|s| - 1];
    assert s == init + [last];
    DigitCharOfValue(last);
    if |s| == 1 {
      assert Value(init) == 0;
    } else {
      ItoaOfValue(init);
      assert Value(s) / 10 == Value(init) && Value(s) % 10 == DigitValue(last);
    }
  }

  lemma DigitCharOfValue(c: char)
    requires IsDigit(c)
    ensures DigitChar(DigitValue(c)) == c
  {
    assert c as int == '0' as int + DigitValue(c);
  }

  function Pow10(k: nat): (p: nat)
    ensures p >= 1
  {
    if k == 0 then 1 else 10 * Pow10(k - 1)
  }

  lemma {:induction false} ItoaLength(n: nat, k: nat)
    requires k >= 1 && n < Pow10(k)
    ensures |Itoa(n)| <= k
  {
    if n >= 10 {
      assert k >= 2 by { assert Pow10(1) == 10 * Pow10(0); }
      ItoaLength(n / 10, k - 1);
    }
  }

  /** A 64-bit number has at most 19 digits. */
  lemma IntHasAtMost19Digits(n: nat)
    requires n <= MAX_INT
    ensures |Itoa(n)| <= 19
  {
    assert Pow10(5) == 100000;
    assert Pow10(10) == 10000000000;
    assert Pow10(15) == 1000000000000000;
    assert Pow10(19) == 10000000000000000000;
    ItoaLength(n, 19);
  }

  /** The capture of [1-9][0-9]* handed to strconv.Atoi. */
  function ParseCanonical(s: string): Option<int> {
    if Canonical(s) && Value(s) <= MAX_INT then Some(Value(s)) else None
  }

  lemma ParseCanonicalOfItoa(n: nat)
    requires 1 <= n <= MAX_INT
    ensures ParseCanonical(Itoa(n)) == Some(n)
  {
    ValueOfItoa(n);
  }

  lemma ItoaOfParseCanonical(s: string)
    requires ParseCanonical(s).Some?
    ensures 1 <= ParseCanonical(s).value <= MAX_INT && Itoa(ParseCanonical(s).value) == s
  {
    ItoaOfValue(s);
  }

  /** strconv.Atoi: an optional sign, then digits, within the range of a 64-bit int. */
  function Atoi(s: string): Option<int> {
    var signed := |s| > 0 && (s[0] == '+' || s[0] == '-');
    var body := if signed then s[1..] else s;
    if body == "" || !AllDigits(body) then None
    else
      var magnitude: int := Value(body);
      var number := if s[0] == '-' then -magnitude else magnitude;
      if -MAX_INT - 1 <= number <= MAX_INT then Some(number) else None
  }

  lemma AtoiOfItoa(n: nat)
    requires n <= MAX_INT
    ensures Atoi(Itoa(n)) == Some(n)
  {
    ValueOfItoa(n);
    assert IsDigit(Itoa(n)[0]);
  }

  /** What the text says: digits, perhaps after a sign. */
  ghost predicate Says(s: string, digits: string, n: int) {
    && digits != "" && AllDigits(digits)
    && ((n == Value(digits) && (s == digits || s == "+" + digits)) || (n + Value(digits) == 0 && s == "-" + digits))
  }

  /** Atoi reads exactly what the text says, within 64 bits. */
  lemma AtoiReads(s: string, n: int)
    ensures Atoi(s) == Some(n) <==> -MAX_INT - 1 <= n <= MAX_INT && exists digits :: Says(s, digits, n)
  {
    if Atoi(s) == Some(n) {
      var signed := s[0] == '+' || s[0] == '-';
      var digits := if signed then s[1..] else s;
      assert signed ==> s == [s[0]] + digits;
      assert Says(s, digits, n);
    }
    if digits :| Says(s, digits, n) {
      assert IsDigit(digits[0]);
      if s != digits {
        assert s[1..] == digits;
      }
    }
  }
}
