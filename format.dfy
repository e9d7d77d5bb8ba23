/**
 * The text of `fmt.Sprintf("%s:%d", IPAddr, port)`, the target string that the RDP
 * factory hands to its protocol probe: the host, a colon, and the port in decimal,
 * with a leading minus sign for a negative number as Go's `%d` writes it.
 */
module Format {

  predicate IsDigits(s: string) {
    forall i :: 0 <= i < |s| ==> '0' <= s[i] <= '9'
  }

  /** A decimal numeral, optionally preceded by one minus sign. */
  predicate IsNumeral(s: string) {
    if |s| > 0 && s[0] == '-' then |s| > 1 && IsDigits(s[1..]) else |s| > 0 && IsDigits(s)
  }

  function DigitChar(d: nat): (ch: char)
    requires d < 10
    ensures '0' <= ch <= '9' && ch as int - '0' as int == d
  {
    ('0' as int + d) as char
  }

  /** The decimal digits of `n`, most significant first, without leading zeros. */
  function Decimal(n: nat): (s: string)
    ensures |s| > 0 && IsDigits(s)
    ensures s[0] == '0' ==> n == 0
  {
    if n < 10 then [DigitChar(n)] else Decimal(n / 10) + [DigitChar(n % 10)]
  }

  /** `%d` of a Go int. */
  function FormatInt(i: int): (s: string)
    ensures IsNumeral(s)
    ensures ':' !in s
  {
    var s := if i < 0 then "-" + Decimal(-i) else Decimal(i);
    assert ':' !in s by {
      if i < 0 { assert s[1..] == Decimal(-i); }
    }
    s
  }

  /** The value of a string of decimal digits. */
  function ParseDecimal(s: string): nat
    requires IsDigits(s)
  {
    if s == [] then 0 else ParseDecimal(s[..|s| - 1]) * 10 + (s[|s| - 1] as int - '0' as int)
  }

  function ParseInt(s: string): int
    requires IsNumeral(s)
  {
    if s[0] == '-' then -(ParseDecimal(s[1..]) as int) else ParseDecimal(s)
  }

  lemma {:induction false} DecimalRoundTrip(n: nat)
    ensures ParseDecimal(Decimal(n)) == n
  {
    if n >= 10 {
      DecimalRoundTrip(n / 10);
      var s := Decimal(n);
      assert s[..|s| - 1] == Decimal(n / 10);
    }
  }

  lemma FormatIntRoundTrip(i: int)
    ensures ParseInt(FormatInt(i)) == i
  {
    var s := FormatInt(i);
    if i < 0 {
      assert s[1..] == Decimal(-i);
      DecimalRoundTrip(-i);
    } else {
      DecimalRoundTrip(i);
    }
  }

  /**
   * The probe target for `ip` and `port`. Whatever the host text holds, the port can be
   * read back from the part after the host's colon, which contains no further colon.
   */
  function Target(ip: string, port: int): (t: string)
    ensures |t| > |ip| + 1 && t[..|ip|] == ip && t[|ip|] == ':'
    ensures ':' !in t[|ip| + 1..]
    ensures IsNumeral(t[|ip| + 1..]) && ParseInt(t[|ip| + 1..]) == port
  {
    var t := ip + ":" + FormatInt(port);
    assert t[|ip| + 1..] == FormatInt(port);
    FormatIntRoundTrip(port);
    t
  }
}
