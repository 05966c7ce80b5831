/** The two printf conversions the look-up-table writer uses: `%d` of a
    non-negative int and `%04X` (upper-case, zero-padded to four digits) of an
    unsigned 16-bit value. Each is paired with the parser that reads its
    output back. */
module Printf {

  predicate IsDigit(c: char) {
    '0' <= c <= '9'
  }

  predicate AllDigits(s: string) {
    forall i :: 0 <= i < |s| ==> IsDigit(s[i])
  }

  /** What `%d` prints for a non-negative value: at least one digit, no sign,
      and no leading zero unless the value is zero. */
  predicate IsCanonicalDecimal(s: string) {
    1 <= |s| && AllDigits(s) && (s[0] == '0' ==> |s| == 1)
  }

  function DigitChar(d: nat): (c: char)
    requires d < 10
    ensures IsDigit(c)
  {
    ('0' as int + d) as char
  }

  function DigitValue(c: char): (d: nat)
    requires IsDigit(c)
    ensures d < 10
  {
    c as int - '0' as int
  }

  /** `%d` of a non-negative value. */
  function Decimal(n: nat): (s: string)
    ensures IsCanonicalDecimal(s)
    ensures s[0] == '0' <==> n == 0
  {
    if n < 10 then [DigitChar(n)] else Decimal(n / 10) + [DigitChar(n % 10)]
  }

  /** Reads a string of decimal digits, most significant first. */
  function DecimalValue(s: string): nat
    requires AllDigits(s)
  {
    if |s| == 0 then 0 else 10 * DecimalValue(s[..|s| - 1]) + DigitValue(s[|s| - 1])
  }

  /** Reading back what `%d` printed gives the value. */
  lemma {:induction false} DecimalRoundTrip(n: nat)
    ensures DecimalValue(Decimal(n)) == n
  {
    var s := Decimal(n);
    if n < 10 {
      assert s[..0] == [];
    } else {
      var p := Decimal(n / 10);
      assert s[..|s| - 1] == p;
      DecimalRoundTrip(n / 10);
    }
  }

  /** A digit string with a non-zero leading digit reads as a positive value. */
  lemma {:induction false} LeadingDigitPositive(s: string)
    requires 1 <= |s| && AllDigits(s) && s[0] != '0'
    ensures 1 <= DecimalValue(s)
  {
    if |s| > 1 {
      LeadingDigitPositive(s[..|s| - 1]);
    }
  }

  /** Conversely, every canonical decimal string is what `%d` prints for its value. */
  lemma {:induction false} DecimalCanonical(s: string)
    requires IsCanonicalDecimal(s)
    ensures Decimal(DecimalValue(s)) == s
  {
    var p := s[..|s| - 1];
    var d := DigitValue(s[|s| - 1]);
    if |s| == 1 {
      assert DecimalValue(s) == d;
      assert DigitChar(d) == s[0];
    } else {
      assert s[0] != '0';
      assert p[0] == s[0];
      LeadingDigitPositive(p);
      DecimalCanonical(p);
      var v := DecimalValue(p);
      assert DecimalValue(s) == 10 * v + d;
      assert (10 * v + d) / 10 == v && (10 * v + d) % 10 == d;
      assert DigitChar(d) == s[|s| - 1];
      assert s == p + [s[|s| - 1]];
    }
  }

  predicate IsUpperHexDigit(c: char) {
    '0' <= c <= '9' || 'A' <= c <= 'F'
  }

  predicate AllUpperHexDigits(s: string) {
    forall i :: 0 <= i < |s| ==> IsUpperHexDigit(s[i])
  }

  function HexDigitChar(d: nat): (c: char)
    requires d < 16
    ensures IsUpperHexDigit(c)
  {
    if d < 10 then ('0' as int + d) as char else ('A' as int + (d - 10)) as char
  }

  function HexDigitValue(c: char): (d: nat)
    requires IsUpperHexDigit(c)
    ensures d < 16
  {
    if c <= '9' then c as int - '0' as int else c as int - 'A' as int + 10
  }

  /** `%04X` of an unsigned 16-bit value. */
  function Hex4(v: nat): (s: string)
    requires v < 0x1_0000
    ensures |s| == 4 && AllUpperHexDigits(s)
  {
    var q1 := v / 16;
    var q2 := q1 / 16;
    var q3 := q2 / 16;
    [HexDigitChar(q3), HexDigitChar(q2 % 16), HexDigitChar(q1 % 16), HexDigitChar(v % 16)]
  }

  /** Reads a string of upper-case hexadecimal digits, most significant first. */
  function HexValue(s: string): nat
    requires AllUpperHexDigits(s)
  {
    if |s| == 0 then 0 else 16 * HexValue(s[..|s| - 1]) + HexDigitValue(s[|s| - 1])
  }

  /** Reading back what `%04X` printed gives the value. */
  lemma Hex4RoundTrip(v: nat)
    requires v < 0x1_0000
    ensures HexValue(Hex4(v)) == v
  {
    var s := Hex4(v);
    var q1 := v / 16;
    var q2 := q1 / 16;
    var q3 := q2 / 16;
    HexPrefixes(s);
    assert HexValue(s[..1]) == q3;
    assert HexValue(s[..2]) == q2 by { assert HexValue(s[..2]) == 16 * q3 + q2 % 16; }
    assert HexValue(s[..3]) == q1 by { assert HexValue(s[..3]) == 16 * q2 + q1 % 16; }
    assert HexValue(s) == 16 * q1 + v % 16;
  }

  /** The four unfoldings of HexValue on a four-digit string. */
  lemma HexPrefixes(s: string)
    requires |s| == 4 && AllUpperHexDigits(s)
    ensures HexValue(s[..1]) == HexDigitValue(s[0])
    ensures HexValue(s[..2]) == 16 * HexValue(s[..1]) + HexDigitValue(s[1])
    ensures HexValue(s[..3]) == 16 * HexValue(s[..2]) + HexDigitValue(s[2])
    ensures HexValue(s) == 16 * HexValue(s[..3]) + HexDigitValue(s[3])
  {
    assert s[..1][..0] == [];
    assert s[..2][..1] == s[..1];
    assert s[..3][..2] == s[..2];
    assert s[..3] == s[..|s| - 1];
  }

  /** Conversely, every four-digit upper-case hexadecimal string is what `%04X`
      prints for its value. */
  lemma Hex4Canonical(s: string)
    requires |s| == 4 && AllUpperHexDigits(s)
    ensures HexValue(s) < 0x1_0000
    ensures Hex4(HexValue(s)) == s
  {
    var a, b, c, d := HexDigitValue(s[0]), HexDigitValue(s[1]), HexDigitValue(s[2]), HexDigitValue(s[3]);
    HexPrefixes(s);
    var q2 := 16 * a + b;
    var q1 := 16 * q2 + c;
    var v := 16 * q1 + d;
    Base16Digit(a, b);
    Base16Digit(q2, c);
    Base16Digit(q1, d);
    HexDigitCharValue(s[0]);
    HexDigitCharValue(s[1]);
    HexDigitCharValue(s[2]);
    HexDigitCharValue(s[3]);
    assert HexValue(s) == v;
    assert v / 16 == q1 && q1 / 16 == q2 && q2 / 16 == a;
    assert Hex4(v) == [HexDigitChar(a), HexDigitChar(b), HexDigitChar(c), HexDigitChar(d)];
  }

  lemma Base16Digit(high: nat, low: nat)
    requires low < 16
    ensures (16 * high + low) / 16 == high && (16 * high + low) % 16 == low
  {
  }

  lemma HexDigitCharValue(c: char)
    requires IsUpperHexDigit(c)
    ensures HexDigitChar(HexDigitValue(c)) == c
  {
  }
}
