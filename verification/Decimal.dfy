/** Base-10 printing and parsing of 64-bit integers, as Go's `strconv` does it. */
module Decimal {

  const MAX_INT64 := 0x7FFF_FFFF_FFFF_FFFF
  const MIN_INT64 := -0x8000_0000_0000_0000
  const MAX_UINT64 := 0xFFFF_FFFF_FFFF_FFFF

  type int64 = x: int | MIN_INT64 <= x <= MAX_INT64

  /** Why a parse failed. A failed parse still returns a value, and one caller uses it. */
  datatype ParseError = NoError | Syntax | Range

  datatype Parsed = Parsed(value: int, err: ParseError)

  function Digit(d: nat): char
    requires d < 10
  {
    '0' + d as char
  }

  predicate IsDigit(c: char) {
    '0' <= c <= '9'
  }

  function Digits(n: nat): string {
    if n < 10 then [Digit(n)] else Digits(n / 10) + [Digit(n % 10)]
  }

  function FormatInt(n: int): string {
    if n < 0 then "-" + Digits(-n) else Digits(n)
  }

  /** Left-to-right scan that stops at the first bad character or the first overflow of 64 bits. */
  function Scan(s: string, acc: nat): Parsed {
    if s == [] then
      Parsed(acc, NoError)
    else if !IsDigit(s[0]) then
      Parsed(0, Syntax)
    else
      var next := acc * 10 + (s[0] - '0') as int;
      if next > MAX_UINT64 then Parsed(MAX_UINT64, Range) else Scan(s[1..], next)
  }

  function ParseUint(s: string): Parsed {
    if s == [] then Parsed(0, Syntax) else Scan(s, 0)
  }

  function ParseInt(s: string): Parsed {
    if s == [] then
      Parsed(0, Syntax)
    else
      var negative := s[0] == '-';
      var un := ParseUint(if s[0] == '-' || s[0] == '+' then s[1..] else s);
      if un.err == Syntax then
        Parsed(0, Syntax)
      else if !negative && un.value > MAX_INT64 then
        Parsed(MAX_INT64, Range)
      else if negative && un.value > -MIN_INT64 then
        Parsed(MIN_INT64, Range)
      else
        Parsed(if negative then -un.value else un.value, un.err)
  }

  lemma {:induction false} ScanAppend(s: string, t: string, acc: nat)
    requires Scan(s, acc).err == NoError
    ensures Scan(s, acc).value >= 0
    ensures Scan(s + t, acc) == Scan(t, Scan(s, acc).value)
  {
    if s == [] {
      assert s + t == t;
    } else {
      assert (s + t)[1..] == s[1..] + t;
      ScanAppend(s[1..], t, acc * 10 + (s[0] - '0') as int);
    }
  }

  lemma {:induction false} ScanDigits(n: nat)
    requires n <= MAX_UINT64
    ensures Scan(Digits(n), 0) == Parsed(n, NoError)
    ensures |Digits(n)| > 0 && forall c :: c in Digits(n) ==> IsDigit(c)
  {
    if n >= 10 {
      ScanDigits(n / 10);
      ScanAppend(Digits(n / 10), [Digit(n % 10)], 0);
      assert Scan([Digit(n % 10)], n / 10) == Scan([], n);
    }
  }

  /** Parsing inverts printing on every 64-bit value. */
  lemma FormatParse(n: int64)
    ensures ParseInt(FormatInt(n)) == Parsed(n, NoError)
  {
    var m: int := n;
    if m < 0 {
      ScanDigits(-m);
      assert FormatInt(m)[1..] == Digits(-m);
    } else {
      ScanDigits(m);
    }
  }

  /** Every printed value is ASCII: a sign or digits. */
  lemma FormatIsAscii(n: int64)
    ensures forall c :: c in FormatInt(n) ==> IsDigit(c) || c == '-'
  {
    var m: int := n;
    ScanDigits(if m < 0 then -m else m);
  }
}
