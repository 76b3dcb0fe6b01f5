/**
 * The pieces of the C library's formatted I/O that the core relies on:
 * `%u`/`%lu` decimal and `0x%08x` hexadecimal rendering (snprintf), and the
 * `%d`, `%ld`, `%u` and `%x` conversions of sscanf. Each renderer is paired
 * with the scanner that reads its output back.
 */
module Text {
  import opened Common

  /** isspace() in the C locale. */
  predicate IsSpace(c: char)
  {
    c == ' ' || c == '\t' || c == '\n' || c == '\r' || c == 11 as char || c == 12 as char
  }

  /** Value of a hexadecimal digit of either case; 16 for every other character. */
  function DigitVal(c: char): nat
  {
    if '0' <= c <= '9' then c as nat - '0' as nat
    else if 'a' <= c <= 'f' then c as nat - 'a' as nat + 10
    else if 'A' <= c <= 'F' then c as nat - 'A' as nat + 10
    else 16
  }

  predicate IsDigit(c: char, base: nat)
  {
    DigitVal(c) < base
  }

  /** Lower-case digit as printed by `%u` and `%x`. */
  function DigitChar(d: nat): (c: char)
    requires d < 16
    ensures DigitVal(c) == d
  {
    "0123456789abcdef"[d]
  }

  /** Value of a digit string, most significant digit first. */
  function Val(s: string, base: nat): nat
  {
    if s == [] then 0 else Val(s[..|s| - 1], base) * base + DigitVal(s[|s| - 1])
  }

  lemma ValSnoc(s: string, c: char, base: nat)
    ensures Val(s + [c], base) == Val(s, base) * base + DigitVal(c)
  {
    assert (s + [c])[..|s|] == s;
  }

  function Pow16(k: nat): (r: nat)
    ensures r > 0
  {
    if k == 0 then 1 else 16 * Pow16(k - 1)
  }

  // ---------------------------------------------------------------- rendering

  /** `%u` of a non-negative value: shortest decimal numeral. */
  function Decimal(n: nat): string
    decreases n
  {
    if n < 10 then [DigitChar(n)] else Decimal(n / 10) + [DigitChar(n % 10)]
  }

  /** The k low hexadecimal digits of v, zero padded, lower case. */
  function HexDigits(v: nat, k: nat): string
  {
    if k == 0 then [] else HexDigits(v / 16, k - 1) + [DigitChar(v % 16)]
  }

  /** `snprintf(buf, 32, "0x%08x", v)` for an unsigned int v. */
  function Hex8(v: UInt): string
  {
    "0x" + HexDigits(v, 8)
  }

  /** STRING_MAX_LENGTH: the size of the path and name buffers. */
  const STRING_MAX_LENGTH: nat := 255

  /**
   * strncpy(dst, src, n) into a zeroed buffer of more than n bytes: the C
   * string the buffer then holds is src cut to n characters.
   */
  function StrnCopy(src: string, n: nat): (d: string)
    ensures |d| <= n && |d| <= |src| && d == src[..|d|]
    ensures |src| <= n ==> d == src
  {
    src[..Min(|src|, n)]
  }

  // ----------------------------------------------------------------- scanning

  /** Index of the first non-space character at or after i (or |s|). */
  function SkipSpace(s: string, i: nat): (j: nat)
    requires i <= |s|
    ensures i <= j <= |s|
    ensures forall k :: i <= k < j ==> IsSpace(s[k])
    ensures j < |s| ==> !IsSpace(s[j])
    decreases |s| - i
  {
    if i < |s| && IsSpace(s[i]) then SkipSpace(s, i + 1) else i
  }

  /** End of the maximal run of digits of the given base that starts at i. */
  function RunEnd(s: string, i: nat, base: nat): (j: nat)
    requires i <= |s|
    ensures i <= j <= |s|
    ensures forall k :: i <= k < j ==> IsDigit(s[k], base)
    ensures j < |s| ==> !IsDigit(s[j], base)
    decreases |s| - i
  {
    if i < |s| && IsDigit(s[i], base) then RunEnd(s, i + 1, base) else i
  }

  datatype Scanned = Scanned(value: int, next: nat)

  /**
   * One integer conversion of sscanf starting at index i (`%d`/`%ld`/`%u` for
   * base 10, `%x` for base 16): leading white space, an optional sign, for
   * base 16 an optional `0x`/`0X` prefix, then at least one digit. None when
   * no digit follows (the conversion fails and nothing is stored). The value
   * is the mathematical one; each caller narrows it to its C destination.
   */
  function ScanInt(s: string, i: nat, base: nat): (r: Option<Scanned>)
    requires i <= |s|
    requires base == 10 || base == 16
    ensures r.Some? ==> i < r.value.next <= |s|
  {
    var j := SkipSpace(s, i);
    var signed := j < |s| && (s[j] == '-' || s[j] == '+');
    var negative := j < |s| && s[j] == '-';
    var k := if signed then j + 1 else j;
    var d := if base == 16 && k + 2 < |s| && s[k] == '0' && (s[k + 1] == 'x' || s[k + 1] == 'X')
                && IsDigit(s[k + 2], 16)
             then k + 2 else k;
    var e := RunEnd(s, d, base);
    if e == d then None
    else
      var v: int := Val(s[d..e], base);
      Some(Scanned(if negative then -v else v, e))
  }

  // ------------------------------------------------------- rendering properties

  lemma {:induction false} DecimalIsNumeral(n: nat)
    ensures |Decimal(n)| > 0
    ensures forall k :: 0 <= k < |Decimal(n)| ==> IsDigit(Decimal(n)[k], 10)
    ensures Val(Decimal(n), 10) == n
    decreases n
  {
    if n >= 10 {
      DecimalIsNumeral(n / 10);
      ValSnoc(Decimal(n / 10), DigitChar(n % 10), 10);
    }
  }

  lemma MulMinusOne(m: int, d: int)
    requires m > 0 && d >= 1
    ensures m * d >= m
  {
  }

  /** Euclidean division is determined by its quotient-remainder decomposition. */
  lemma ModUnique(v: int, m: int, a: int, x: int)
    requires m > 0 && 0 <= x < m
    requires v == m * a + x
    ensures v % m == x
  {
    var q, r := v / m, v % m;
    assert m * q + r == m * a + x;
    assert m * (a - q) == r - x by {
      assert m * (a - q) == m * a - m * q;
    }
    if a > q {
      MulMinusOne(m, a - q);
    } else if a < q {
      MulMinusOne(m, q - a);
    }
  }

  lemma ModSplit(v: nat, p: nat)
    requires p > 0
    ensures v % (16 * p) == (v / 16 % p) * 16 + v % 16
  {
    var q, r := v / 16, v % 16;
    var a, b := q / p, q % p;
    assert v == 16 * q + r;
    assert q == p * a + b;
    assert 16 * q == (16 * p) * a + b * 16 by {
      assert 16 * (p * a + b) == 16 * (p * a) + 16 * b;
      assert 16 * (p * a) == (16 * p) * a;
    }
    assert b * 16 + r < 16 * p by {
      assert b <= p - 1;
      assert b * 16 <= (p - 1) * 16;
    }
    ModUnique(v, 16 * p, a, b * 16 + r);
  }

  /** A digit as `%x` prints it: decimal or lower-case hexadecimal. */
  predicate IsLowerHex(c: char)
  {
    '0' <= c <= '9' || 'a' <= c <= 'f'
  }

  lemma {:induction false} HexDigitsShape(v: nat, k: nat)
    ensures |HexDigits(v, k)| == k
    ensures forall i :: 0 <= i < k ==> IsLowerHex(HexDigits(v, k)[i])
  {
    if k > 0 {
      HexDigitsShape(v / 16, k - 1);
      var h := HexDigits(v / 16, k - 1);
      assert HexDigits(v, k) == h + [DigitChar(v % 16)];
    }
  }

  lemma {:induction false} HexDigitsValue(v: nat, k: nat)
    ensures Val(HexDigits(v, k), 16) == v % Pow16(k)
  {
    if k > 0 {
      HexDigitsValue(v / 16, k - 1);
      ValSnoc(HexDigits(v / 16, k - 1), DigitChar(v % 16), 16);
      ModSplit(v, Pow16(k - 1));
    }
  }

  /** `0x%08x` always prints exactly ten characters: `0x` and eight lower-case hex digits. */
  lemma Hex8Shape(v: UInt)
    ensures |Hex8(v)| == 10
    ensures Hex8(v)[..2] == "0x"
    ensures forall i :: 2 <= i < 10 ==> IsLowerHex(Hex8(v)[i])
  {
    HexDigitsShape(v, 8);
  }

  lemma RunEndOfDigits(s: string, i: nat, base: nat)
    requires i <= |s|
    requires forall k :: i <= k < |s| ==> IsDigit(s[k], base)
    ensures RunEnd(s, i, base) == |s|
  {
  }

  /** `%u` followed by `%u`/`%d` recovers the number. */
  lemma DecimalRoundTrip(n: nat)
    ensures ScanInt(Decimal(n), 0, 10) == Some(Scanned(n, |Decimal(n)|))
  {
    var s := Decimal(n);
    DecimalIsNumeral(n);
    assert !IsSpace(s[0]);
    assert s[0] != '-' && s[0] != '+';
    RunEndOfDigits(s, 0, 10);
    assert s[0..|s|] == s;
  }

  lemma Pow16Of8()
    ensures Pow16(8) == 0x1_0000_0000
  {
    assert Pow16(2) == 256;
    assert Pow16(4) == 0x1_0000 by { assert Pow16(4) == 256 * Pow16(2); }
    assert Pow16(6) == 0x100_0000 by { assert Pow16(6) == 256 * Pow16(4); }
    assert Pow16(8) == 256 * Pow16(6);
  }

  /** `0x%08x` followed by `%x` recovers the value. */
  lemma Hex8RoundTrip(v: UInt)
    ensures ScanInt(Hex8(v), 0, 16) == Some(Scanned(v, 10))
  {
    var s := Hex8(v);
    var h := HexDigits(v, 8);
    HexDigitsShape(v, 8);
    HexDigitsValue(v, 8);
    Pow16Of8();
    assert Val(h, 16) == v;
    assert s == "0x" + h;
    assert s[2..] == h;
    assert IsDigit(s[2], 16);
    RunEndOfDigits(s, 2, 16);
    assert SkipSpace(s, 0) == 0;
    assert s[2..10] == h;
  }
}
