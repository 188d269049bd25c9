/**
 * The two integer renderings the session's responses use: Go's `%d` (decimal, with a sign
 * for negative values and no leading zeros) and `%08X` of a 32-bit session id (exactly eight
 * upper-case hexadecimal digits).  Each comes with the parser that inverts it, so that the
 * round trips below pin the renderings down.
 */
module Format {

  /** The session id is a uint32 (RTSPClientSession.go:27); line 29 stores it, unconverted, in the
      `uint` field `ourSessionId`, which Go rejects, and the model reads as `uint(sessionId)`. */
  type Uint32 = x: int | 0 <= x < 0x1_0000_0000

  // ---------------------------------------------------------------------------
  // Decimal: `%d`
  // ---------------------------------------------------------------------------

  predicate IsDigit(c: char) { '0' <= c <= '9' }

  function DigitChar(d: int): (c: char)
    requires 0 <= d < 10
    ensures IsDigit(c)
  {
    ('0' as int + d) as char
  }

  function DigitValue(c: char): int
  {
    c as int - '0' as int
  }

  /** The decimal digits of `n`, most significant first, without leading zeros. */
  function Natural(n: nat): (s: string)
    ensures |s| >= 1
    ensures forall i :: 0 <= i < |s| ==> IsDigit(s[i])
    ensures s[0] == '0' <==> n == 0
    decreases n
  {
    if n < 10 then [DigitChar(n)] else Natural(n / 10) + [DigitChar(n % 10)]
  }

  /** Go's `%d` of an `int`: a minus sign before the magnitude of a negative value. */
  function Decimal(n: int): (s: string)
    ensures |s| >= 1
    ensures s[0] == '-' <==> n < 0
    ensures forall i :: (if n < 0 then 1 else 0) <= i < |s| ==> IsDigit(s[i])
    ensures n != 0 ==> |s| > (if n < 0 then 1 else 0) && s[if n < 0 then 1 else 0] != '0'
    ensures n == 0 ==> s == "0"
  {
    if n < 0 then "-" + Natural(-n) else Natural(n)
  }

  function ParseNatural(s: string): int
  {
    if s == [] then 0 else ParseNatural(s[..|s| - 1]) * 10 + DigitValue(s[|s| - 1])
  }

  function ParseDecimal(s: string): int
  {
    if |s| > 0 && s[0] == '-' then -ParseNatural(s[1..]) else ParseNatural(s)
  }

  lemma {:induction false} NaturalRoundTrip(n: nat)
    ensures ParseNatural(Natural(n)) == n
    decreases n
  {
    if n >= 10 {
      var s := Natural(n);
      assert s[..|s| - 1] == Natural(n / 10);
      NaturalRoundTrip(n / 10);
    }
  }

  /** Reading back what `%d` printed gives the number printed. */
  lemma DecimalRoundTrip(n: int)
    ensures ParseDecimal(Decimal(n)) == n
  {
    if n < 0 {
      assert Decimal(n)[1..] == Natural(-n);
      NaturalRoundTrip(-n);
    } else {
      NaturalRoundTrip(n);
    }
  }

  /** `%d` is injective: distinct ports or channel ids never print alike. */
  lemma DecimalInjective(m: int, n: int)
    requires Decimal(m) == Decimal(n)
    ensures m == n
  {
    DecimalRoundTrip(m);
    DecimalRoundTrip(n);
  }

  // ---------------------------------------------------------------------------
  // Hexadecimal: `%08X`
  // ---------------------------------------------------------------------------

  predicate IsUpperHexDigit(c: char) { '0' <= c <= '9' || 'A' <= c <= 'F' }

  function HexChar(d: int): (c: char)
    requires 0 <= d < 16
    ensures IsUpperHexDigit(c)
  {
    if d < 10 then ('0' as int + d) as char else ('A' as int + d - 10) as char
  }

  function HexValue(c: char): int
  {
    if '0' <= c <= '9' then c as int - '0' as int else c as int - 'A' as int + 10
  }

  function Pow16(k: nat): nat
  {
    if k == 0 then 1 else 16 * Pow16(k - 1)
  }

  /** The low `width` hexadecimal digits of `n`, most significant first, zero-padded. */
  function HexPadded(n: nat, width: nat): (s: string)
    ensures |s| == width
    ensures forall i :: 0 <= i < |s| ==> IsUpperHexDigit(s[i])
    decreases width
  {
    if width == 0 then [] else HexPadded(n / 16, width - 1) + [HexChar(n % 16)]
  }

  /** Go's `%08X` of a 32-bit value. */
  function Hex8(n: Uint32): (s: string)
    ensures |s| == 8
    ensures forall i :: 0 <= i < 8 ==> IsUpperHexDigit(s[i])
  {
    HexPadded(n, 8)
  }

  function ParseHex(s: string): int
  {
    if s == [] then 0 else ParseHex(s[..|s| - 1]) * 16 + HexValue(s[|s| - 1])
  }

  lemma {:induction false} HexPaddedRoundTrip(n: nat, width: nat)
    requires n < Pow16(width)
    ensures ParseHex(HexPadded(n, width)) == n
    decreases width
  {
    if width > 0 {
      var s := HexPadded(n, width);
      assert s[..|s| - 1] == HexPadded(n / 16, width - 1);
      HexPaddedRoundTrip(n / 16, width - 1);
    }
  }

  /** The eight digits printed for a session id read back as that id: nothing is cut off. */
  lemma Hex8RoundTrip(n: Uint32)
    ensures ParseHex(Hex8(n)) == n
  {
    assert Pow16(8) == 0x1_0000_0000;
    HexPaddedRoundTrip(n, 8);
  }

  /** Distinct session ids give distinct `Session:` values. */
  lemma Hex8Injective(m: Uint32, n: Uint32)
    requires Hex8(m) == Hex8(n)
    ensures m == n
  {
    Hex8RoundTrip(m);
    Hex8RoundTrip(n);
  }

  // ---------------------------------------------------------------------------
  // Where one text occurs in another
  // ---------------------------------------------------------------------------

  predicate IsInfix(t: string, s: string)
  {
    exists k :: 0 <= k <= |s| && t <= s[k..]
  }

  predicate EndsWith(s: string, t: string)
  {
    |t| <= |s| && s[|s| - |t|..] == t
  }

  lemma InfixOfConcat(p: string, t: string, q: string)
    ensures IsInfix(t, p + t + q)
  {
    var s := p + t + q;
    assert s[|p|..] == t + q;
  }

  lemma InfixOfSelf(t: string)
    ensures IsInfix(t, t)
  {
    assert t <= t[0..];
  }

  /** An occurrence inside `s` is still one after text is put in front of `s`... */
  lemma InfixAfter(t: string, a: string, s: string)
    requires IsInfix(t, s)
    ensures IsInfix(t, a + s)
  {
    var k :| 0 <= k <= |s| && t <= s[k..];
    assert (a + s)[|a| + k..] == s[k..];
  }

  /** ...and after text is put behind it. */
  lemma InfixBefore(t: string, s: string, b: string)
    requires IsInfix(t, s)
    ensures IsInfix(t, s + b)
  {
    var k :| 0 <= k <= |s| && t <= s[k..];
    assert (s + b)[k..] == s[k..] + b;
  }
}
