/**
 * Decimal digits, zero padding, and the codes built from them: RDL-<anno>-<NNNN> for
 * mandates, COM-<NNNN> for communications, YYYY-MM for months.
 */
module Codes {
  import opened Prelude

  predicate IsDigit(c: char) {
    '0' <= c <= '9'
  }

  predicate AllDigits(s: string) {
    forall i :: 0 <= i < |s| ==> IsDigit(s[i])
  }

  /** The decimal rendering of a natural number, as String(n) gives it. */
  function Digits(n: nat): (s: string)
    ensures |s| >= 1 && AllDigits(s)
    ensures s[0] == '0' ==> n == 0
  {
    if n < 10 then [('0' as int + n) as char] else Digits(n / 10) + [('0' as int + n % 10) as char]
  }

  /** s.padStart(width, '0'). */
  function PadStart(s: string, width: nat): (r: string)
    ensures |r| == if |s| < width then width else |s|
    ensures AllDigits(s) ==> AllDigits(r)
    decreases width - |s|
  {
    if |s| < width then PadStart("0" + s, width) else s
  }

  /** Number(s) on a string of digits. */
  function Value(s: string): nat
    requires AllDigits(s)
  {
    if s == "" then 0 else 10 * Value(s[..|s| - 1]) + (s[|s| - 1] as int - '0' as int)
  }

  lemma {:induction false} ValueOfDigits(n: nat)
    ensures Value(Digits(n)) == n
  {
    if n < 10 {
      assert Digits(n)[..0] == "";
    } else {
      ValueOfDigits(n / 10);
      assert Digits(n)[..|Digits(n)| - 1] == Digits(n / 10);
    }
  }

  lemma {:induction false} LeadingZero(s: string)
    requires AllDigits(s)
    ensures Value("0" + s) == Value(s)
  {
    if s == "" {
      assert ("0" + s)[..0] == "";
    } else {
      assert ("0" + s)[..|s|] == "0" + s[..|s| - 1];
      LeadingZero(s[..|s| - 1]);
    }
  }

  /** Padding never changes the number, whether it fits the width or has outgrown it. */
  lemma {:induction false} ValueOfPadded(s: string, width: nat)
    requires AllDigits(s)
    ensures Value(PadStart(s, width)) == Value(s)
    decreases width - |s|
  {
    if |s| < width {
      LeadingZero(s);
      ValueOfPadded("0" + s, width);
    }
  }

  lemma PaddedRoundTrip(n: nat, width: nat)
    ensures Value(PadStart(Digits(n), width)) == n
  {
    ValueOfDigits(n);
    ValueOfPadded(Digits(n), width);
  }

  function RdlCodice(anno: nat, number: nat): string {
    "RDL-" + Digits(anno) + "-" + PadStart(Digits(number), 4)
  }

  function ComCodice(number: nat): string {
    "COM-" + PadStart(Digits(number), 4)
  }

  /** Where the first dash of s is, or |s|. */
  function FirstDash(s: string): (i: nat)
    ensures i <= |s| && (forall j :: 0 <= j < i ==> s[j] != '-') && (i < |s| ==> s[i] == '-')
  {
    if s == "" || s[0] == '-' then 0 else 1 + FirstDash(s[1..])
  }

  function ParseRdl(code: string): Option<(nat, nat)> {
    if !("RDL-" <= code) then None
    else
      var rest := code[4..];
      var dash := FirstDash(rest);
      if dash == |rest| || !AllDigits(rest[..dash]) || !AllDigits(rest[dash + 1..]) then None
      else Some((Value(rest[..dash]), Value(rest[dash + 1..])))
  }

  function ParseCom(code: string): Option<nat> {
    if !("COM-" <= code) || !AllDigits(code[4..]) then None else Some(Value(code[4..]))
  }

  /** A mandate code gives back its year and its number, past 9999 too. */
  lemma RdlRoundTrip(anno: nat, number: nat)
    ensures ParseRdl(RdlCodice(anno, number)) == Some((anno, number))
  {
    var y, n := Digits(anno), PadStart(Digits(number), 4);
    var rest := RdlCodice(anno, number)[4..];
    assert rest == y + "-" + n;
    assert rest[|y|] == '-';
    assert forall j :: 0 <= j < |y| ==> rest[j] == y[j] && IsDigit(y[j]);
    assert FirstDash(rest) == |y|;
    assert rest[..|y|] == y && rest[|y| + 1..] == n;
    ValueOfDigits(anno);
    PaddedRoundTrip(number, 4);
  }

  lemma ComRoundTrip(number: nat)
    ensures ParseCom(ComCodice(number)) == Some(number)
  {
    assert ComCodice(number)[4..] == PadStart(Digits(number), 4);
    PaddedRoundTrip(number, 4);
  }

  lemma {:induction false} DigitsLength(n: nat)
    ensures |Digits(n)| <= 3 <==> n < 1000
    ensures |Digits(n)| <= 4 <==> n < 10000
    ensures |Digits(n)| == 1 <==> n < 10
    ensures |Digits(n)| <= 2 <==> n < 100
  {
    if n >= 10 {
      DigitsLength(n / 10);
    }
  }

  /** Four digits, padded with zeros, as long as the number has no more; and then all it has. */
  predicate FourDigitsOrMore(number: nat, s: string) {
    && AllDigits(s) && Value(s) == number
    && (if number < 10000 then |s| == 4 else |s| > 4 && s[0] != '0')
  }

  /** What the two codes look like. */
  lemma CodesLook(anno: nat, number: nat)
    ensures exists n :: RdlCodice(anno, number) == "RDL-" + Digits(anno) + "-" + n && FourDigitsOrMore(number, n)
    ensures exists n :: ComCodice(number) == "COM-" + n && FourDigitsOrMore(number, n)
  {
    var n := PadStart(Digits(number), 4);
    PaddedRoundTrip(number, 4);
    DigitsLength(number);
    assert FourDigitsOrMore(number, n);
    assert RdlCodice(anno, number) == "RDL-" + Digits(anno) + "-" + n && ComCodice(number) == "COM-" + n;
  }

  /** So different (year, number) pairs never share a code. */
  lemma RdlInjective(a1: nat, n1: nat, a2: nat, n2: nat)
    requires RdlCodice(a1, n1) == RdlCodice(a2, n2)
    ensures a1 == a2 && n1 == n2
  {
    RdlRoundTrip(a1, n1);
    RdlRoundTrip(a2, n2);
  }

  lemma ComInjective(n1: nat, n2: nat)
    requires ComCodice(n1) == ComCodice(n2)
    ensures n1 == n2
  {
    ComRoundTrip(n1);
    ComRoundTrip(n2);
  }
}
