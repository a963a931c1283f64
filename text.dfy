/**
 * Go strings as byte strings: UTF-8 encoding of literals, truncation with an
 * ellipsis, decimal formatting (`%d`) and `strconv.ParseInt(s, 10, 64)`.
 */
module Text {
  import opened Wrappers

  /** One octet of a Go string. */
  type byte = b: int | 0 <= b < 256

  /** A Go string: a sequence of bytes, usually but not necessarily UTF-8. */
  type Bytes = seq<byte>

  /** The range of Go's `int64` (also Go's `int` on the 64-bit targets the program is built for). */
  const Int64Min: int := -0x8000_0000_0000_0000
  const Int64Max: int := 0x7FFF_FFFF_FFFF_FFFF
  type int64 = x: int | Int64Min <= x <= Int64Max

  /** UTF-8 encoding of a single code point. */
  function EncodeRune(c: char): (r: Bytes)
    ensures 1 <= |r| <= 4
    ensures c as int < 0x80 ==> r == [c as int]
    ensures c as int >= 0x80 ==> forall i :: 0 <= i < |r| ==> r[i] >= 0x80
  {
    var n := c as int;
    if n < 0x80 then [n]
    else if n < 0x800 then [0xC0 + n / 0x40, 0x80 + n % 0x40]
    else if n < 0x1_0000 then [0xE0 + n / 0x1000, 0x80 + (n / 0x40) % 0x40, 0x80 + n % 0x40]
    else [0xF0 + n / 0x4_0000, 0x80 + (n / 0x1000) % 0x40, 0x80 + (n / 0x40) % 0x40, 0x80 + n % 0x40]
  }

  /** UTF-8 encoding of a string of code points: how a Go string literal is stored. */
  function Utf8(s: string): (r: Bytes)
    ensures |r| >= |s|
  {
    if s == [] then [] else EncodeRune(s[0]) + Utf8(s[1..])
  }

  predicate IsAscii(s: string) {
    forall i :: 0 <= i < |s| ==> s[i] as int < 0x80
  }

  /** An ASCII literal is stored byte for byte. */
  lemma {:induction false} Utf8Ascii(s: string)
    requires IsAscii(s)
    ensures |Utf8(s)| == |s|
    ensures forall i :: 0 <= i < |s| ==> Utf8(s)[i] == s[i] as int
  {
    if s != [] {
      assert IsAscii(s[1..]) by {
        forall i | 0 <= i < |s[1..]| ensures s[1..][i] as int < 0x80 {
          assert s[1..][i] == s[i + 1];
        }
      }
      Utf8Ascii(s[1..]);
    }
  }

  /** An ASCII literal as the bytes Go stores for it, one byte per character. */
  function Ascii(s: string): (r: Bytes)
    requires IsAscii(s)
    ensures |r| == |s|
  {
    seq(|s|, i requires 0 <= i < |s| => s[i] as int)
  }

  /** For ASCII text this is the UTF-8 encoding. */
  lemma AsciiIsUtf8(s: string)
    requires IsAscii(s)
    ensures Ascii(s) == Utf8(s)
  {
    Utf8Ascii(s);
  }

  /** The ellipsis appended by both truncations of the program. */
  function Ellipsis(): (r: Bytes)
    ensures |r| == 3
  {
    ['.' as int, '.' as int, '.' as int]
  }

  /**
   * `if len(s) > limit { s = s[:limit-3] + "..." }`: cut a byte string that is
   * too long so that, with the ellipsis, it is exactly `limit` bytes long.
   */
  function Truncate(s: Bytes, limit: nat): (r: Bytes)
    requires limit >= 3
    ensures |r| <= limit
    ensures |s| <= limit ==> r == s
    ensures |s| > limit ==> |r| == limit && r[..limit - 3] == s[..limit - 3] && r[limit - 3..] == Ellipsis()
  {
    if |s| > limit then s[..limit - 3] + Ellipsis() else s
  }

  /** Truncating twice is truncating once. */
  lemma TruncateIdempotent(s: Bytes, limit: nat)
    requires limit >= 3
    ensures Truncate(Truncate(s, limit), limit) == Truncate(s, limit)
  {
  }

  predicate IsDigit(b: byte) {
    '0' as int <= b <= '9' as int
  }

  predicate AllDigits(s: Bytes) {
    forall i :: 0 <= i < |s| ==> IsDigit(s[i])
  }

  function DigitByte(d: int): (b: byte)
    requires 0 <= d < 10
    ensures IsDigit(b)
  {
    '0' as int + d
  }

  /** The decimal digits of a natural number, without leading zeros. */
  function NatDigits(n: nat): (r: Bytes)
    ensures |r| >= 1 && AllDigits(r)
    decreases n
  {
    if n < 10 then [DigitByte(n)] else NatDigits(n / 10) + [DigitByte(n % 10)]
  }

  /** `fmt.Sprintf("%d", n)` (and `strconv.Itoa`). */
  function Decimal(n: int): (r: Bytes)
    ensures |r| >= 1
    ensures r[0] == '-' as int <==> n < 0
    ensures forall i :: 0 < i < |r| ==> IsDigit(r[i])
  {
    if n < 0 then ['-' as int] + NatDigits(-n) else NatDigits(n)
  }

  /** The value of a digit string read most significant digit first. */
  function DigitsValue(s: Bytes): nat
    requires AllDigits(s)
  {
    if s == [] then 0 else DigitsValue(s[..|s| - 1]) * 10 + (s[|s| - 1] - '0' as int)
  }

  /**
   * `strconv.ParseInt(s, 10, 64)`, with every error (empty input, a sign with no
   * digits, a byte that is not a digit, a value outside int64) as None.
   * With the base given explicitly Go accepts neither underscores nor a prefix.
   */
  function ParseInt(s: Bytes): (r: Option<int64>)
    ensures r.Some? ==> |s| >= 1
    ensures r.Some? && r.value < 0 ==> s[0] == '-' as int
  {
    if s == [] then None
    else
      var signed := s[0] == '+' as int || s[0] == '-' as int;
      var body := if signed then s[1..] else s;
      if body == [] || !AllDigits(body) then None
      else
        var v: int := DigitsValue(body);
        if s[0] == '-' as int then
          (if v <= -Int64Min then Some(-v) else None)
        else
          (if v <= Int64Max then Some(v) else None)
  }

  lemma {:induction false} DigitsValueOfNatDigits(n: nat)
    ensures DigitsValue(NatDigits(n)) == n
    decreases n
  {
    if n >= 10 {
      var s := NatDigits(n);
      assert s[..|s| - 1] == NatDigits(n / 10);
      DigitsValueOfNatDigits(n / 10);
    }
  }

  /** Different integers have different decimal forms. */
  lemma DecimalInjective(m: int, n: int)
    requires Decimal(m) == Decimal(n)
    ensures m == n
  {
    if m < 0 {
      assert NatDigits(-m) == Decimal(m)[1..] == Decimal(n)[1..] == NatDigits(-n);
      DigitsValueOfNatDigits(-m);
      DigitsValueOfNatDigits(-n);
    } else {
      DigitsValueOfNatDigits(m);
      DigitsValueOfNatDigits(n);
    }
  }

  /** Formatting then parsing gives back every int64. */
  lemma ParseDecimal(n: int64)
    ensures ParseInt(Decimal(n)) == Some(n)
  {
    var s := Decimal(n);
    if n < 0 {
      var m: nat := -(n as int);
      var digits := NatDigits(m);
      assert s == ['-' as int] + digits;
      assert s[1..] == digits;
      DigitsValueOfNatDigits(m);
    } else {
      var digits := NatDigits(n);
      assert IsDigit(s[0]);
      DigitsValueOfNatDigits(n);
    }
  }
}
