/**
 Decimal numbers as printf("%u") writes them and as strtoul() reads them.  A string is the
 characters before its terminating NUL; unsigned long has 64 bits.
 */
module DecimalText {
  import opened Prelude

  const ULONG_MAX: nat := 0xFFFF_FFFF_FFFF_FFFF

  predicate IsDigit(c: char) { '0' <= c <= '9' }

  predicate IsSpace(c: char) { c == ' ' || '\t' <= c <= '\r' }

  function DigitOf(d: nat): (c: char)
    requires d < 10
    ensures IsDigit(c) && ValueOf(c) == d
  {
    (d + '0' as nat) as char
  }

  function ValueOf(c: char): (d: nat)
    requires IsDigit(c)
    ensures d < 10
  {
    c as nat - '0' as nat
  }

  /** printf("%u") */
  function Decimal(n: nat): (s: string)
    ensures s != [] && forall i :: 0 <= i < |s| ==> IsDigit(s[i])
  {
    if n < 10 then [DigitOf(n)] else Decimal(n / 10) + [DigitOf(n % 10)]
  }

  /** The number that a string of digits denotes. */
  function Value(s: string): nat
    requires forall i :: 0 <= i < |s| ==> IsDigit(s[i])
  {
    if s == [] then 0 else Value(s[..|s| - 1]) * 10 + ValueOf(s[|s| - 1])
  }

  lemma {:induction false} ValueOfDecimal(n: nat)
    ensures Value(Decimal(n)) == n
  {
    if n >= 10 {
      ValueOfDecimal(n / 10);
      assert Decimal(n)[..|Decimal(n)| - 1] == Decimal(n / 10);
    } else {
      assert Decimal(n)[..0] == [];
    }
  }

  /** A number below 10^k has at most k digits. */
  lemma {:induction false} DecimalLength(n: nat, k: nat, bound: nat)
    requires k > 0 && bound == Power10(k) && n < bound
    ensures |Decimal(n)| <= k
    decreases k
  {
    if n >= 10 {
      DecimalLength(n / 10, k - 1, Power10(k - 1));
    }
  }

  function Power10(k: nat): nat { if k == 0 then 1 else 10 * Power10(k - 1) }

  function LeadingDigits(s: string): (n: nat)
    ensures n <= |s| && (forall i :: 0 <= i < n ==> IsDigit(s[i])) && (n < |s| ==> !IsDigit(s[n]))
  {
    if s == [] || !IsDigit(s[0]) then 0 else
    var n := LeadingDigits(s[1..]);
    assert forall i :: 1 <= i < n + 1 ==> s[i] == s[1..][i - 1];
    n + 1
  }

  function SkipSpaces(s: string): (r: string)
    ensures |r| <= |s| && (s != [] && !IsSpace(s[0]) ==> r == s)
  {
    if s == [] || !IsSpace(s[0]) then s else SkipSpaces(s[1..])
  }

  /** strtoul(s, &end, 10): the value and what follows it, or None if end == s. */
  function Strtoul(s: string): (r: Option<(nat, string)>)
    ensures r.Some? ==> r.value.0 <= ULONG_MAX && |r.value.1| < |s|
  {
    var t := SkipSpaces(s);
    var negative := t != [] && t[0] == '-';
    var u := if t != [] && (t[0] == '-' || t[0] == '+') then t[1..] else t;
    var n := LeadingDigits(u);
    if n == 0 then None else
    var v := Value(u[..n]);
    Some((if v > ULONG_MAX then ULONG_MAX else if negative && v > 0 then ULONG_MAX + 1 - v else v, u[n..]))
  }

  /** The digits of a printed number are found and evaluated. */
  lemma DigitsOfDecimal(n: nat, rest: string)
    requires rest != [] ==> !IsDigit(rest[0])
    ensures var u := Decimal(n) + rest;
            var k := LeadingDigits(u);
            IsDigit(u[0]) && 0 < k && Value(u[..k]) == n && u[k..] == rest
  {
    var d := Decimal(n);
    var s := d + rest;
    assert s[0] == d[0] && IsDigit(s[0]);
    var k := LeadingDigits(s);
    assert forall i :: 0 <= i < |d| ==> IsDigit(s[i]);
    assert rest != [] ==> s[|d|] == rest[0];
    assert s[..k] == d && s[k..] == rest;
    ValueOfDecimal(n);
  }

  /** What was printed is read back, up to the next character that is not a digit. */
  lemma StrtoulOfDecimal(n: nat, rest: string)
    requires n <= ULONG_MAX && (rest != [] ==> !IsDigit(rest[0]))
    ensures Strtoul(Decimal(n) + rest) == Some((n, rest))
  {
    DigitsOfDecimal(n, rest);
  }

  /** A sign is understood; a negative number is taken modulo 2^64. */
  lemma StrtoulOfSigned(sign: char, n: nat, rest: string)
    requires (sign == '+' || sign == '-') && n <= ULONG_MAX && (rest != [] ==> !IsDigit(rest[0]))
    ensures Strtoul([sign] + (Decimal(n) + rest)) ==
            Some((if sign == '-' && n > 0 then ULONG_MAX + 1 - n else n, rest))
  {
    var u := Decimal(n) + rest;
    DigitsOfDecimal(n, rest);
    assert ([sign] + u)[1..] == u;
  }

  /** White space before a number is skipped. */
  lemma StrtoulSkipsSpace(c: char, s: string)
    requires IsSpace(c)
    ensures Strtoul([c] + s) == Strtoul(s)
  {
    assert ([c] + s)[1..] == s;
  }

  /** Text that does not start like a number is refused. */
  lemma StrtoulRefuses(s: string)
    requires s == [] || !(IsSpace(s[0]) || s[0] == '-' || s[0] == '+' || IsDigit(s[0]))
    ensures Strtoul(s).None?
  {
  }
}
