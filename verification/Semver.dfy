/** semver/parse.go: the major version of a version string, and decimal numbers as strconv has them. */
module Semver {
  import opened Basics

  const MAX_INT := 0x7fff_ffff_ffff_ffff

  predicate IsDigit(c: char) {
    '0' <= c <= '9'
  }

  function DigitValue(c: char): nat
    requires IsDigit(c)
  {
    c as int - '0' as int
  }

  /** The value of a non-empty run of digits. */
  function ParseDigits(s: string): Option<nat> {
    if s == [] then None
    else
      var c := s[|s| - 1];
      if !IsDigit(c) then None
      else if |s| == 1 then Some(DigitValue(c))
      else match ParseDigits(s[..|s| - 1])
           case Some(n) => Some(n * 10 + DigitValue(c))
           case None => None
  }

  function Signed(negative: bool, n: int): int {
    if negative then -n else n
  }

  /** An optional sign, digits, and a value that fits 64 bits. */
  function Atoi(s: string): Option<int> {
    var negative := s != [] && s[0] == '-';
    var digits := if s != [] && (s[0] == '-' || s[0] == '+') then s[1..] else s;
    match ParseDigits(digits)
    case Some(n) =>
      var v := Signed(negative, n);
      if -MAX_INT - 1 <= v <= MAX_INT then Some(v) else None
    case None => None
  }

  function DigitChar(d: nat): char
    requires d < 10
  {
    ('0' as int + d) as char
  }

  function NatToString(n: nat): string {
    if n < 10 then [DigitChar(n)] else NatToString(n / 10) + [DigitChar(n % 10)]
  }

  function Itoa(n: int): string {
    if n < 0 then "-" + NatToString(-n) else NatToString(n)
  }

  /** The text before the first dot. */
  function FirstPart(v: string): string {
    if v == [] || v[0] == '.' then [] else [v[0]] + FirstPart(v[1..])
  }

  function Major(v: string): Option<int> {
    match Atoi(FirstPart(v))
    case Some(n) => if n > 0 then Some(n) else None
    case None => None
  }

  lemma {:induction false} NatToStringParses(n: nat)
    ensures ParseDigits(NatToString(n)) == Some(n)
    ensures NatToString(n) != [] && forall i :: 0 <= i < |NatToString(n)| ==> IsDigit(NatToString(n)[i])
  {
    if n >= 10 {
      NatToStringParses(n / 10);
      assert NatToString(n)[..|NatToString(n)| - 1] == NatToString(n / 10);
    }
  }

  lemma AtoiUnsigned(s: string, n: nat)
    requires s != [] && IsDigit(s[0]) && ParseDigits(s) == Some(n) && n <= MAX_INT
    ensures Atoi(s) == Some(n)
  {
  }

  lemma AtoiNegative(s: string, digits: string, n: nat)
    requires s == "-" + digits && ParseDigits(digits) == Some(n) && n <= MAX_INT + 1
    ensures Atoi(s) == Some(Signed(true, n))
  {
  }

  lemma {:induction false} ItoaRoundTrip(n: int)
    requires -MAX_INT - 1 <= n <= MAX_INT
    ensures Atoi(Itoa(n)) == Some(n)
  {
    if n < 0 {
      NatToStringParses(-n);
      AtoiNegative(Itoa(n), NatToString(-n), -n);
    } else {
      NatToStringParses(n);
      AtoiUnsigned(Itoa(n), n);
    }
  }

  lemma {:induction false} ItoaInjective(m: int, n: int)
    requires Itoa(m) == Itoa(n)
    ensures m == n
  {
    NatToStringParses(if m < 0 then -m else m);
    NatToStringParses(if n < 0 then -n else n);
    if m < 0 {
      assert Itoa(m)[0] == '-' && Itoa(m)[1..] == NatToString(-m);
    } else {
      assert IsDigit(NatToString(m)[0]);
    }
    if n < 0 {
      assert Itoa(n)[0] == '-' && Itoa(n)[1..] == NatToString(-n);
    } else {
      assert IsDigit(NatToString(n)[0]);
    }
  }

  lemma {:induction false} OnlyDigitsParse(s: string)
    ensures ParseDigits(s).Some? <==> s != "" && forall c :: c in s ==> '0' <= c <= '9'
  {
    if s != [] {
      var init, c := s[..|s| - 1], s[|s| - 1];
      assert s == init + [c] && c in s;
      assert forall d :: d in s <==> d in init || d == c;
      if |s| > 1 {
        OnlyDigitsParse(init);
      }
    }
  }

  /** Without digits before the first dot, after at most a sign, there is no major; nor is it ever negative or 0. */
  lemma {:induction false} NoMajorWithoutDigits(v: string)
    ensures Major(v).Some? ==> 0 < Major(v).value <= MAX_INT
    ensures Major(v).Some? ==>
              var first := FirstPart(v);
              first != "" && (forall c :: c in first[1..] ==> '0' <= c <= '9') &&
              (first[0] == '+' || '0' <= first[0] <= '9')
  {
    var first := FirstPart(v);
    OnlyDigitsParse(first);
    if first != "" {
      OnlyDigitsParse(first[1..]);
      assert first[0] in first && forall c :: c in first[1..] ==> c in first;
    }
  }

  lemma {:induction false} FirstPartStopsAtDot(s: string, rest: string)
    requires '.' !in s && (rest == [] || rest[0] == '.')
    ensures FirstPart(s + rest) == s
  {
    if s == [] {
      assert s + rest == rest;
    } else {
      assert (s + rest)[1..] == s[1..] + rest;
      FirstPartStopsAtDot(s[1..], rest);
    }
  }

  /** A tag that spells a positive number, alone or before a dot, has that number as its major. */
  lemma {:induction false} MajorOfTag(n: int, rest: string)
    requires 0 < n <= MAX_INT && (rest == [] || rest[0] == '.')
    ensures Major(Itoa(n) + rest) == Some(n)
  {
    NatToStringParses(n);
    ItoaRoundTrip(n);
    FirstPartStopsAtDot(Itoa(n), rest);
  }

}
