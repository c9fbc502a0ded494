/** Decimal numerals as strconv and fmt print and parse them. */
module Decimal {
  import opened Wrappers

  predicate IsDigit(c: char) {
    '0' <= c <= '9'
  }

  predicate AllDigits(s: string) {
    forall i :: 0 <= i < |s| ==> IsDigit(s[i])
  }

  function Digit(d: nat): char
    requires d < 10
  {
    '0' + d as char
  }

  /** FormatUint, Itoa and %d on a non-negative number. */
  function Print(n: nat): string {
    if n < 10 then [Digit(n)] else Print(n / 10) + [Digit(n % 10)]
  }

  function Value(s: string): nat
    requires AllDigits(s)
  {
    if s == "" then 0 else Value(s[..|s| - 1]) * 10 + (s[|s| - 1] - '0') as nat
  }

  function ParseNat(s: string): Option<nat> {
    if s != "" && AllDigits(s) then Some(Value(s)) else None
  }

  /** Itoa and FormatInt. */
  function Itoa(i: int): string {
    if i < 0 then "-" + Print(-i) else Print(i)
  }

  const INT64_LIMIT := 0x8000_0000_0000_0000

  /** ParseInt(s, 10, 64) and Atoi: an optional sign, then digits, within 64 bits. */
  function ParseInt(s: string): Option<int> {
    var signed := s != "" && (s[0] == '-' || s[0] == '+');
    match ParseNat(if signed then s[1..] else s)
    case None => None
    case Some(n) =>
      var i: int := if signed && s[0] == '-' then -(n as int) else n;
      if -INT64_LIMIT <= i < INT64_LIMIT then Some(i) else None
  }

  /** %08d and the like, for a non-negative number. */
  function Padded(n: nat, width: nat): string {
    Zeros(width - |Print(n)|) + Print(n)
  }

  function Zeros(k: int): string {
    if k <= 0 then "" else "0" + Zeros(k - 1)
  }

  lemma {:induction false} PrintParses(n: nat)
    ensures AllDigits(Print(n)) && Print(n) != "" && Value(Print(n)) == n
  {
    if n < 10 {
      assert Print(n)[..0] == "";
    } else {
      PrintParses(n / 10);
      assert Print(n)[..|Print(n)| - 1] == Print(n / 10);
    }
  }

  lemma ItoaParses(i: int)
    requires -INT64_LIMIT <= i < INT64_LIMIT
    ensures ParseInt(Itoa(i)) == Some(i)
  {
    var n: nat := if i < 0 then -i else i;
    PrintParses(n);
    assert ("-" + Print(n))[1..] == Print(n);
    assert IsDigit(Print(n)[0]);
  }

  /** With or without a sign, within 64 bits; anything else is refused. */
  lemma ParseIntMeans(s: string)
    requires s != "" && AllDigits(s)
    ensures ParseInt(s) == ParseInt("+" + s) == if Value(s) < 0x8000_0000_0000_0000 then Some(Value(s)) else None
    ensures ParseInt("-" + s) == if Value(s) <= 0x8000_0000_0000_0000 then Some(-(Value(s) as int)) else None
    ensures ParseInt("") == None && ParseInt("-") == None && ParseInt("+") == None
  {
    assert IsDigit(s[0]);
    assert ("+" + s)[1..] == s && ("-" + s)[1..] == s;
  }

  /** Different numbers have different numerals. */
  lemma PrintInjective(a: nat, b: nat)
    requires Print(a) == Print(b)
    ensures a == b
  {
    PrintParses(a);
    PrintParses(b);
  }

  /** Larger numbers do not have shorter numerals. */
  lemma {:induction false} PrintMonotone(a: nat, b: nat)
    requires a <= b
    ensures |Print(a)| <= |Print(b)|
  {
    if a < 10 {
    } else {
      PrintMonotone(a / 10, b / 10);
    }
  }

  lemma {:induction false} PaddedParses(n: nat, k: int)
    ensures AllDigits(Zeros(k) + Print(n)) && Value(Zeros(k) + Print(n)) == n
  {
    PrintParses(n);
    if k <= 0 {
      assert Zeros(k) + Print(n) == Print(n);
    } else {
      PaddedParses(n, k - 1);
      assert Zeros(k) + Print(n) == "0" + (Zeros(k - 1) + Print(n));
      LeadingZero(Zeros(k - 1) + Print(n));
    }
  }

  lemma {:induction false} LeadingZero(s: string)
    requires AllDigits(s)
    ensures AllDigits("0" + s) && Value("0" + s) == Value(s)
  {
    if s == "" {
      assert ("0" + s)[..0] == "";
    } else {
      LeadingZero(s[..|s| - 1]);
      assert ("0" + s)[..|s|] == "0" + s[..|s| - 1];
    }
  }

  lemma {:induction false} PrintLeads(n: nat)
    ensures n > 0 ==> Print(n)[0] != '0'
  {
    if n < 10 {
    } else {
      PrintLeads(n / 10);
    }
  }

  lemma {:induction false} ZerosWidth(k: int)
    ensures |Zeros(k)| == if k < 0 then 0 else k
  {
    if k <= 0 {
    } else {
      ZerosWidth(k - 1);
    }
  }

  /** At least the width, and beyond it no leading zero. */
  lemma PaddedWidth(n: nat, width: nat)
    ensures |Padded(n, width)| >= width
    ensures |Padded(n, width)| > width && width > 0 ==> Padded(n, width)[0] != '0'
  {
    ZerosWidth(width - |Print(n)|);
    PrintLeads(n);
  }

  /** Zero padding is injective too, also beyond the width. */
  lemma PaddedInjective(a: nat, b: nat, width: nat)
    requires Padded(a, width) == Padded(b, width)
    ensures a == b
  {
    PaddedParses(a, width - |Print(a)|);
    PaddedParses(b, width - |Print(b)|);
  }
}
