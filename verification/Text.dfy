/** The string handling that room ids, messages, skus and generated ids go through. */
module Text {

  /** The code points with the Unicode White_Space property, which is what `str::trim` strips. */
  predicate IsWhitespace(c: char)
  {
    var n := c as int;
    || 0x09 <= n <= 0x0d || n == 0x20 || n == 0x85 || n == 0xa0 || n == 0x1680
    || 0x2000 <= n <= 0x200a || n == 0x2028 || n == 0x2029 || n == 0x202f || n == 0x205f || n == 0x3000
  }

  /** They are these twenty-five. */
  lemma WhitespaceListed(c: char)
    ensures IsWhitespace(c) <==>
              c as int in {0x09, 0x0a, 0x0b, 0x0c, 0x0d, 0x20, 0x85, 0xa0, 0x1680, 0x2000, 0x2001, 0x2002, 0x2003,
                           0x2004, 0x2005, 0x2006, 0x2007, 0x2008, 0x2009, 0x200a, 0x2028, 0x2029, 0x202f, 0x205f,
                           0x3000}
  {
  }

  /** No white space at either end. */
  predicate Trimmed(s: string)
  {
    s != "" ==> !IsWhitespace(s[0]) && !IsWhitespace(s[|s| - 1])
  }

  predicate Blank(s: string)
  {
    forall i :: 0 <= i < |s| ==> IsWhitespace(s[i])
  }

  function TrimStart(s: string): (r: string)
    ensures r != "" ==> !IsWhitespace(r[0])
  {
    if s != "" && IsWhitespace(s[0]) then TrimStart(s[1..]) else s
  }

  function TrimEnd(s: string): (r: string)
    ensures r != "" ==> !IsWhitespace(r[|r| - 1])
    ensures r <= s
  {
    if s != "" && IsWhitespace(s[|s| - 1]) then TrimEnd(s[..|s| - 1]) else s
  }

  function Trim(s: string): (r: string)
    ensures Trimmed(r)
  {
    TrimEnd(TrimStart(s))
  }

  lemma {:induction false} TrimStartStrips(s: string)
    ensures var r := TrimStart(s); |r| <= |s| && s == s[..|s| - |r|] + r && Blank(s[..|s| - |r|])
  {
    if s != "" && IsWhitespace(s[0]) {
      TrimStartStrips(s[1..]);
      var r := TrimStart(s);
      assert s == [s[0]] + s[1..];
      assert s[..|s| - |r|] == [s[0]] + s[1..][..|s| - 1 - |r|];
    }
  }

  lemma {:induction false} TrimEndStrips(s: string)
    ensures var r := TrimEnd(s); s == r + s[|r|..] && Blank(s[|r|..])
  {
    if s != "" && IsWhitespace(s[|s| - 1]) {
      TrimEndStrips(s[..|s| - 1]);
      var r := TrimEnd(s);
      assert s == s[..|s| - 1] + [s[|s| - 1]];
      assert s[|r|..] == s[..|s| - 1][|r|..] + [s[|s| - 1]];
    }
  }

  /** Only white space is cut off, and only at the ends. */
  lemma TrimStrips(s: string) returns (before: string, after: string)
    ensures s == before + Trim(s) + after && Blank(before) && Blank(after)
  {
    TrimStartStrips(s);
    TrimEndStrips(TrimStart(s));
    before, after := s[..|s| - |TrimStart(s)|], TrimStart(s)[|Trim(s)|..];
    assert s == before + (Trim(s) + after) == before + Trim(s) + after;
  }

  lemma TrimBlank(s: string)
    ensures Trim(s) == "" <==> Blank(s)
  {
    var before, after := TrimStrips(s);
    if Trim(s) != "" {
      assert s[|before|] == Trim(s)[0];
    } else {
      assert s == before + after;
    }
  }

  /** Trimming is idempotent: a trimmed string is its own trimming, and conversely. */
  lemma TrimIdempotent(s: string)
    ensures Trim(Trim(s)) == Trim(s)
    ensures Trimmed(s) <==> Trim(s) == s
  {
  }

  /** Number of bytes of one character in UTF-8; `str::len` counts these. */
  function Utf8Width(c: char): nat
  {
    var n := c as int;
    if n < 0x80 then 1 else if n < 0x800 then 2 else if n < 0x1_0000 then 3 else 4
  }

  function Utf8Length(s: string): nat
  {
    if s == "" then 0 else Utf8Length(s[..|s| - 1]) + Utf8Width(s[|s| - 1])
  }

  /** The UTF-8 encoding of a character (section 3 of RFC 3629). */
  function Utf8(c: char): seq<int>
  {
    var n := c as int;
    if n < 0x80 then [n]
    else if n < 0x800 then [0xc0 + n / 64, 0x80 + n % 64]
    else if n < 0x1_0000 then [0xe0 + n / 4096, 0x80 + n / 64 % 64, 0x80 + n % 64]
    else [0xf0 + n / 262144, 0x80 + n / 4096 % 64, 0x80 + n / 64 % 64, 0x80 + n % 64]
  }

  /** The code point that a sequence of that many bytes encodes. */
  function FromUtf8(bytes: seq<int>): int
    requires 1 <= |bytes| <= 4
  {
    if |bytes| == 1 then bytes[0]
    else if |bytes| == 2 then (bytes[0] - 0xc0) * 64 + (bytes[1] - 0x80)
    else if |bytes| == 3 then (bytes[0] - 0xe0) * 4096 + (bytes[1] - 0x80) * 64 + (bytes[2] - 0x80)
    else (bytes[0] - 0xf0) * 262144 + (bytes[1] - 0x80) * 4096 + (bytes[2] - 0x80) * 64 + (bytes[3] - 0x80)
  }

  /** The width counts the bytes of the encoding, which can be decoded again. */
  lemma Utf8RoundTrip(c: char)
    ensures |Utf8(c)| == Utf8Width(c) && 1 <= |Utf8(c)| <= 4
    ensures forall i :: 0 <= i < |Utf8(c)| ==> 0 <= Utf8(c)[i] < 0x100
    ensures FromUtf8(Utf8(c)) == c as int
  {
    var n := c as int;
    assert n < 0x11_0000;
    assert n == n / 64 * 64 + n % 64;
    assert n / 64 == n / 64 / 64 * 64 + n / 64 % 64 && n / 64 / 64 == n / 4096;
    assert n / 4096 == n / 4096 / 64 * 64 + n / 4096 % 64 && n / 4096 / 64 == n / 262144;
  }

  function Utf8All(s: string): seq<int>
  {
    if s == "" then [] else Utf8All(s[..|s| - 1]) + Utf8(s[|s| - 1])
  }

  /** The length that `str::len` gives is the number of bytes of the encoding. */
  lemma {:induction false} Utf8LengthCounts(s: string)
    ensures Utf8Length(s) == |Utf8All(s)|
  {
    if s != "" {
      Utf8LengthCounts(s[..|s| - 1]);
      Utf8RoundTrip(s[|s| - 1]);
    }
  }

  // ----- Numbers -----

  const DIGITS: string := "0123456789"

  /** Decimal rendering of a counter, as `format!` prints it. */
  function Decimal(n: nat): (s: string)
    ensures s != ""
  {
    if n < 10 then [DIGITS[n]] else Decimal(n / 10) + [DIGITS[n % 10]]
  }

  /** The number a string of digits stands for. */
  function Number(s: string): int
  {
    if s == "" then 0 else Number(s[..|s| - 1]) * 10 + (s[|s| - 1] as int - '0' as int)
  }

  /** The rendering is the number in digits, without leading zeros. */
  lemma {:induction false} DecimalReads(n: nat)
    ensures Number(Decimal(n)) == n
    ensures forall i :: 0 <= i < |Decimal(n)| ==> '0' <= Decimal(n)[i] <= '9'
    ensures Decimal(n)[0] == '0' ==> n == 0
  {
    DigitReads(n % 10);
    if n >= 10 {
      DecimalReads(n / 10);
      var s := Decimal(n);
      assert s[..|s| - 1] == Decimal(n / 10) && s[|s| - 1] == DIGITS[n % 10];
    } else {
      assert Decimal(n)[..0] == "";
    }
  }

  lemma DigitReads(d: nat)
    requires d < 10
    ensures DIGITS[d] as int == '0' as int + d
  {
  }

  lemma DecimalInjective(a: nat, b: nat)
    requires Decimal(a) == Decimal(b)
    ensures a == b
  {
    DecimalReads(a);
    DecimalReads(b);
  }
}
