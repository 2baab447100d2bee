/** Decimal text of integers, as strconv writes and reads it. */
module Decimal {
  import opened Model

  function Digit(n: nat): char
    requires n < 10
  {
    '0' + n as char
  }

  predicate IsDigit(c: char) {
    '0' <= c <= '9'
  }

  function Digits(n: nat): (s: string)
    ensures s != [] && forall i | 0 <= i < |s| :: IsDigit(s[i])
  {
    if n < 10 then [Digit(n)] else Digits(n / 10) + [Digit(n % 10)]
  }

  // Itoa.
  function Format(n: int): string {
    if n < 0 then "-" + Digits(-n) else Digits(n)
  }

  predicate AllDigits(s: string) {
    forall i | 0 <= i < |s| :: IsDigit(s[i])
  }

  // The value of a run of digits.
  function Value(s: string): nat
    requires AllDigits(s)
  {
    if s == [] then 0
    else
      var last := s[|s| - 1];
      assert IsDigit(last);
      10 * Value(s[..|s| - 1]) + (last as int - '0' as int)
  }

  const MaxInt := 0x7fff_ffff_ffff_ffff

  // Atoi on a 64-bit machine: an optional sign, then digits, within range.
  function Parse(s: string): Option<int> {
    var signed := s != [] && (s[0] == '-' || s[0] == '+');
    var digits := if signed then s[1..] else s;
    if digits == [] || !AllDigits(digits) then None
    else
      var v: int := if signed && s[0] == '-' then -(Value(digits) as int) else Value(digits);
      if -MaxInt - 1 <= v <= MaxInt then Some(v) else None
  }

  lemma {:induction false} DigitsValue(n: nat)
    ensures Value(Digits(n)) == n
  {
    if n < 10 {
      assert [Digit(n)][..0] == [];
    } else {
      DigitsValue(n / 10);
      assert Digits(n)[..|Digits(n)| - 1] == Digits(n / 10);
    }
  }

  // Reading back what was written.
  lemma ParseFormat(n: int)
    requires -MaxInt - 1 <= n <= MaxInt
    ensures Parse(Format(n)) == Some(n)
  {
    DigitsValue(if n < 0 then -n else n);
    if n < 0 {
      assert Format(n)[1..] == Digits(-n);
    }
  }

  // The text is positional: the digits of the tens, then the one of the units, no
  // zero in front, and a minus sign for what is below zero.
  lemma FormatIsPositional(n: nat)
    ensures n < 10 ==> Format(n) == ["0123456789"[n]]
    ensures n >= 10 ==> Format(n) == Format(n / 10) + Format(n % 10) && Format(n)[0] != '0'
    ensures n > 0 ==> Format(-(n as int)) == "-" + Format(n)
  {
    if n >= 10 {
      NoLeadingZero(n);
    }
  }

  lemma {:induction false} NoLeadingZero(n: nat)
    requires n > 0
    ensures Digits(n)[0] != '0'
  {
    if n >= 10 {
      NoLeadingZero(n / 10);
    }
  }

  // Zeros in front do not matter.
  lemma {:induction false} ZeroInFront(s: string)
    requires AllDigits(s)
    ensures AllDigits("0" + s) && Value("0" + s) == Value(s)
    decreases |s|
  {
    if s != [] {
      var n := |s| - 1;
      ZeroInFront(s[..n]);
      assert ("0" + s)[..n + 1] == "0" + s[..n];
    }
  }

  // Reading a run of digits, with and without a sign, as far as the machine's
  // integers go.
  lemma ParseSigns(s: string)
    requires s != [] && AllDigits(s)
    ensures Parse(s) == Parse("+" + s) == if Value(s) < 0x8000_0000_0000_0000 then Some(Value(s)) else None
    ensures Parse("-" + s) == if Value(s) <= 0x8000_0000_0000_0000 then Some(-(Value(s) as int)) else None
  {
    hide Value, AllDigits;
    assert ("+" + s)[1..] == s && ("-" + s)[1..] == s;
    assert IsDigit(s[0]) by {
      FirstDigit(s);
    }
  }

  lemma FirstDigit(s: string)
    requires s != [] && AllDigits(s)
    ensures IsDigit(s[0])
  {
  }

  // Anything else is refused: no digits at all, or some other character.
  lemma ParseRefuses()
    ensures Parse("") == Parse("+") == Parse("-") == None
    ensures forall a, c, b | !IsDigit(c) && a != [] :: Parse(a + [c] + b).None?
  {
    forall a: string, c, b | !IsDigit(c) && a != [] ensures Parse(a + [c] + b).None? {
      ForeignCharacter(a, c, b);
    }
  }

  lemma ForeignCharacter(a: string, c: char, b: string)
    requires !IsDigit(c) && a != []
    ensures Parse(a + [c] + b).None?
  {
    var s := a + [c] + b;
    var signed := s[0] == '-' || s[0] == '+';
    var digits, k := if signed then s[1..] else s, if signed then |a| - 1 else |a|;
    assert digits[k] == c && !AllDigits(digits);
  }
}
