/** Decimal text of integers: strconv.Itoa, FormatInt and Atoi as the retry headers
    and the default topic names use them. */
module Decimal {
  import opened Wrappers

  const MIN_INT64: int := -0x8000_0000_0000_0000
  const MAX_INT64: int := 0x7fff_ffff_ffff_ffff

  predicate IsDigit(c: char) { '0' <= c <= '9' }

  predicate AllDigits(s: string) { forall i :: 0 <= i < |s| ==> IsDigit(s[i]) }

  function DigitChar(d: int): (c: char)
    requires 0 <= d < 10
    ensures IsDigit(c) && DigitValue(c) == d
  {
    ('0' as int + d) as char
  }

  function DigitValue(c: char): (d: int)
    requires IsDigit(c)
    ensures 0 <= d < 10
  {
    c as int - '0' as int
  }

  function Digits(n: nat): (s: string)
    ensures |s| > 0 && AllDigits(s)
  {
    if n < 10 then [DigitChar(n)] else Digits(n / 10) + [DigitChar(n % 10)]
  }

  /** strconv.Itoa and strconv.FormatInt(_, 10). */
  function Itoa(n: int): (s: string)
    ensures |s| > 0
  {
    if n < 0 then "-" + Digits(-n) else Digits(n)
  }

  function FromDigits(s: string): (n: nat)
    requires AllDigits(s)
  {
    if s == [] then 0 else FromDigits(s[..|s| - 1]) * 10 + DigitValue(s[|s| - 1])
  }

  /** strconv.Atoi: an optional sign, at least one digit, nothing else, and a value
      that fits in 64 bits. */
  function Atoi(s: string): Option<int> {
    var negative := |s| > 0 && s[0] == '-';
    var body := if |s| > 0 && (s[0] == '-' || s[0] == '+') then s[1..] else s;
    if body == [] || !AllDigits(body) then None
    else
      var magnitude: int := FromDigits(body);
      var v := if negative then -magnitude else magnitude;
      if MIN_INT64 <= v <= MAX_INT64 then Some(v) else None
  }

  lemma {:induction false} FromDigitsOfDigits(n: nat)
    ensures FromDigits(Digits(n)) == n
  {
    if n < 10 {
      assert Digits(n)[..0] == [];
    } else {
      FromDigitsOfDigits(n / 10);
      var s := Digits(n);
      assert s[..|s| - 1] == Digits(n / 10);
    }
  }

  /** What one hop prints the next hop parses back. */
  lemma AtoiOfItoa(n: int)
    requires MIN_INT64 <= n <= MAX_INT64
    ensures Atoi(Itoa(n)) == Some(n)
  {
    if n < 0 {
      FromDigitsOfDigits(-n);
      assert Itoa(n)[1..] == Digits(-n);
    } else {
      FromDigitsOfDigits(n);
      assert IsDigit(Digits(n)[0]);
    }
  }

  /** What else Atoi reads: a plus sign and leading zeros change nothing, a minus sign negates. */
  lemma AtoiReads(s: string)
    requires s != [] && AllDigits(s)
    ensures var v: int := FromDigits(s);
      && Atoi(s) == (if v <= MAX_INT64 then Some(v) else None)
      && Atoi("+" + s) == Atoi(s) && Atoi("0" + s) == Atoi(s)
      && Atoi("-" + s) == (if -v >= MIN_INT64 then Some(-v) else None)
  {
    assert IsDigit(s[0]);
    assert ("+" + s)[1..] == s && ("-" + s)[1..] == s;
    LeadingZero(s);
    assert AllDigits("0" + s);
  }

  lemma {:induction false} LeadingZero(s: string)
    requires AllDigits(s)
    ensures AllDigits("0" + s) && FromDigits("0" + s) == FromDigits(s)
  {
    if s == [] {
      assert "0"[..0] == [];
    } else {
      LeadingZero(s[..|s| - 1]);
      assert ("0" + s)[..|s|] == "0" + s[..|s| - 1];
    }
  }

  /** And it reads nothing else: no text without digits, none with anything but digits after
      its sign. */
  lemma AtoiRefuses(s: string)
    ensures Atoi(s).Some? ==>
      && s != [] && (IsDigit(s[0]) || (|s| > 1 && (s[0] == '-' || s[0] == '+')))
      && forall i :: 0 < i < |s| ==> IsDigit(s[i])
  {
    if Atoi(s).Some? && (s[0] == '-' || s[0] == '+') {
      forall i | 0 < i < |s| ensures IsDigit(s[i]) { assert s[i] == s[1..][i - 1]; }
    }
  }

  /** Itoa writes no leading zero and no plus sign. */
  lemma {:induction false} DigitsAreShort(n: nat)
    ensures n > 0 ==> Digits(n)[0] != '0'
    ensures n == 0 ==> Digits(n) == "0"
  {
    if n >= 10 { DigitsAreShort(n / 10); }
  }

  lemma ItoaIsShort(n: int)
    ensures n > 0 ==> IsDigit(Itoa(n)[0]) && Itoa(n)[0] != '0'
    ensures n < 0 ==> |Itoa(n)| > 1 && Itoa(n)[0] == '-' && Itoa(n)[1] != '0'
    ensures n == 0 ==> Itoa(n) == "0"
  {
    DigitsAreShort(if n < 0 then -n else n);
    assert IsDigit(Digits(if n < 0 then -n else n)[0]);
  }

  /** Decimal text never contains a dot, so a dot-separated suffix is recoverable. */
  lemma ItoaHasNoDot(n: int)
    ensures '.' !in Itoa(n)
    ensures IsDigit(Itoa(n)[|Itoa(n)| - 1])
  {
  }

  lemma ItoaInjective(a: int, b: int)
    requires Itoa(a) == Itoa(b)
    ensures a == b
  {
    if a < 0 {
      assert Itoa(a)[1..] == Digits(-a);
      FromDigitsOfDigits(-a);
    } else {
      assert IsDigit(Itoa(a)[0]);
      FromDigitsOfDigits(a);
    }
    if b < 0 {
      assert Itoa(b)[1..] == Digits(-b);
      FromDigitsOfDigits(-b);
    } else {
      assert IsDigit(Itoa(b)[0]);
      FromDigitsOfDigits(b);
    }
  }
}
