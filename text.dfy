/** Text primitives the renderers rely on: decimal formatting of integers
    (Python's `str(int)` and `%0Nd`), UTF-8 and ASCII encoding, and
    `str.split` on one separator character. */
module Text {
  import opened Base

  predicate IsDigit(c: char) { '0' <= c <= '9' }

  predicate AllDigits(s: string) { forall i :: 0 <= i < |s| ==> IsDigit(s[i]) }

  function DigitChar(d: nat): (c: char)
    requires d < 10
    ensures IsDigit(c) && c as int - '0' as int == d
  {
    ('0' as int + d) as char
  }

  /** The decimal digits of `n`, most significant first. */
  function NatDigits(n: nat): (s: string)
    ensures |s| >= 1 && AllDigits(s)
    ensures s[0] == '0' ==> n == 0   // no leading zero
  {
    if n < 10 then [DigitChar(n)] else NatDigits(n / 10) + [DigitChar(n % 10)]
  }

  /** The number a string of decimal digits denotes. */
  function DigitsValue(s: string): nat
    requires AllDigits(s)
  {
    if s == [] then 0 else DigitsValue(s[..|s| - 1]) * 10 + (s[|s| - 1] as int - '0' as int)
  }

  lemma {:induction false} NatDigitsRoundTrip(n: nat)
    ensures DigitsValue(NatDigits(n)) == n
  {
    if n >= 10 {
      NatDigitsRoundTrip(n / 10);
      var s := NatDigits(n);
      assert s[..|s| - 1] == NatDigits(n / 10);
    }
  }

  function Pow10(k: nat): (p: nat)
    ensures p >= 1
  {
    if k == 0 then 1 else 10 * Pow10(k - 1)
  }

  /** A number below 10^k has at most k digits. */
  lemma {:induction false} NatDigitsLength(n: nat, k: nat)
    requires 1 <= k && n < Pow10(k)
    ensures |NatDigits(n)| <= k
  {
    if n >= 10 {
      NatDigitsLength(n / 10, k - 1);
    }
  }

  /** Python's `str(i)` for an int: an optional minus sign and the digits. */
  function IntDecimal(i: int): (s: string)
    ensures |s| >= 1 && IsAscii(s)
  {
    if i < 0 then "-" + NatDigits(-i) else NatDigits(i)
  }

  /** Reads back a decimal numeral with an optional leading minus sign. */
  function DecimalValue(s: string): int
    requires |s| >= 1 && (s[0] == '-' ==> AllDigits(s[1..])) && (s[0] != '-' ==> AllDigits(s))
  {
    if s[0] == '-' then -(DigitsValue(s[1..]) as int) else DigitsValue(s)
  }

  lemma IntDecimalRoundTrip(i: int)
    ensures var s := IntDecimal(i);
            |s| >= 1 && (s[0] == '-' ==> AllDigits(s[1..])) && (s[0] != '-' ==> AllDigits(s)) &&
            DecimalValue(s) == i
  {
    if i < 0 {
      NatDigitsRoundTrip(-i);
      assert IntDecimal(i)[1..] == NatDigits(-i);
    } else {
      NatDigitsRoundTrip(i);
    }
  }

  function Zeros(k: nat): (s: string)
    ensures |s| == k && AllDigits(s)
  {
    if k == 0 then [] else Zeros(k - 1) + ['0']
  }

  lemma {:induction false} LeadingZeros(k: nat, d: string)
    requires AllDigits(d)
    ensures DigitsValue(Zeros(k) + d) == DigitsValue(d)
    decreases |d|, k
  {
    if d == [] {
      assert Zeros(k) + d == Zeros(k);
      if k > 0 {
        assert Zeros(k)[..k - 1] == Zeros(k - 1);
        LeadingZeros(k - 1, []);
        assert Zeros(k - 1) + [] == Zeros(k - 1);
      }
    } else {
      assert (Zeros(k) + d)[..|Zeros(k) + d| - 1] == Zeros(k) + d[..|d| - 1];
      LeadingZeros(k, d[..|d| - 1]);
    }
  }

  /** Python's `'%0*d' % (width, n)`: the digits of `n`, left-padded with
      zeros to at least `width` characters. */
  function ZeroPad(n: nat, width: nat): (s: string)
    ensures |s| == (if |NatDigits(n)| < width then width else |NatDigits(n)|)
    ensures AllDigits(s) && DigitsValue(s) == n && IsAscii(s)
  {
    var d := NatDigits(n);
    NatDigitsRoundTrip(n);
    if |d| < width then
      LeadingZeros(width - |d|, d);
      Zeros(width - |d|) + d
    else d
  }

  /** A number below 10^width is padded to exactly `width` characters. */
  lemma ZeroPadWidth(n: nat, width: nat)
    requires 1 <= width && n < Pow10(width)
    ensures |ZeroPad(n, width)| == width
  {
    NatDigitsLength(n, width);
  }

  // ---------------------------------------------------------------- ASCII, UTF-8

  predicate IsAscii(s: string) { forall i :: 0 <= i < |s| ==> s[i] as int < 128 }

  lemma AsciiConcat(a: string, b: string)
    requires IsAscii(a) && IsAscii(b)
    ensures IsAscii(a + b)
  {
  }

  predicate IsAsciiBytes(b: seq<byte>) { forall i :: 0 <= i < |b| ==> b[i] < 128 }

  /** The one-byte-per-character encoding of an ASCII string. */
  function AsciiBytes(s: string): (b: seq<byte>)
    requires IsAscii(s)
    ensures |b| == |s| && IsAsciiBytes(b)
  {
    seq(|s|, i requires 0 <= i < |s| => s[i] as int as byte)
  }

  /** Each byte read as the character with the same code (Latin-1). */
  function Latin1Text(b: seq<byte>): (s: string)
    ensures |s| == |b|
  {
    seq(|b|, i requires 0 <= i < |b| => b[i] as int as char)
  }

  lemma AsciiRoundTrip(s: string)
    requires IsAscii(s)
    ensures Latin1Text(AsciiBytes(s)) == s
  {
  }

  /** The UTF-8 encoding of one Unicode scalar value. */
  function Utf8Char(c: char): (b: seq<byte>)
    ensures 1 <= |b| <= 4
    ensures c as int < 128 ==> b == [c as int as byte]
    ensures c as int >= 128 ==> |b| >= 2 && forall i :: 0 <= i < |b| ==> b[i] >= 128
  {
    var cp := c as int;
    if cp < 0x80 then [cp as byte]
    else if cp < 0x800 then [(0xC0 + cp / 64) as byte, (0x80 + cp % 64) as byte]
    else if cp < 0x1_0000 then
      [(0xE0 + cp / 4096) as byte, (0x80 + (cp / 64) % 64) as byte, (0x80 + cp % 64) as byte]
    else
      [(0xF0 + cp / 262144) as byte, (0x80 + (cp / 4096) % 64) as byte,
       (0x80 + (cp / 64) % 64) as byte, (0x80 + cp % 64) as byte]
  }

  /** Python's `u.encode("utf-8")`. */
  function Utf8(s: string): seq<byte>
  {
    if s == [] then [] else Utf8Char(s[0]) + Utf8(s[1..])
  }

  /** On ASCII text, UTF-8 is the one-byte-per-character encoding. */
  lemma {:induction false} Utf8OfAscii(s: string)
    requires IsAscii(s)
    ensures Utf8(s) == AsciiBytes(s)
  {
    if s != [] {
      Utf8OfAscii(s[1..]);
      assert AsciiBytes(s) == [s[0] as int as byte] + AsciiBytes(s[1..]);
    }
  }

  /** UTF-8 never shortens text, keeps its length exactly when the text is
      ASCII, and yields only ASCII bytes exactly when the text is ASCII. */
  lemma {:induction false} Utf8Length(s: string)
    ensures |Utf8(s)| >= |s|
    ensures |Utf8(s)| == |s| <==> IsAscii(s)
    ensures IsAsciiBytes(Utf8(s)) <==> IsAscii(s)
  {
    if s != [] {
      Utf8Length(s[1..]);
      var head := Utf8Char(s[0]);
      assert Utf8(s) == head + Utf8(s[1..]);
      if s[0] as int >= 128 {
        assert !IsAscii(s);
        assert (head + Utf8(s[1..]))[0] == head[0];
      } else {
        assert IsAscii(s) <==> IsAscii(s[1..]) by {
          if IsAscii(s[1..]) {
            forall i | 0 <= i < |s| ensures s[i] as int < 128 {
              if i > 0 { assert s[i] == s[1..][i - 1]; }
            }
          }
        }
        assert IsAsciiBytes(Utf8(s)) <==> IsAsciiBytes(Utf8(s[1..])) by {
          if IsAsciiBytes(Utf8(s[1..])) {
            forall i | 0 <= i < |Utf8(s)| ensures Utf8(s)[i] < 128 {
              if i > 0 { assert Utf8(s)[i] == Utf8(s[1..])[i - 1]; }
            }
          }
          if IsAsciiBytes(Utf8(s)) {
            forall i | 0 <= i < |Utf8(s[1..])| ensures Utf8(s[1..])[i] < 128 {
              assert Utf8(s[1..])[i] == Utf8(s)[i + 1];
            }
          }
        }
      }
    }
  }

  // ---------------------------------------------------------------- split

  /** Python's `s.split(sep)` for a one-character separator: the maximal
      separator-free pieces, in order, including empty ones. */
  function Split(s: string, sep: char): (parts: seq<string>)
    ensures |parts| >= 1
    ensures forall i :: 0 <= i < |parts| ==> sep !in parts[i]
  {
    if s == [] then [[]]
    else
      var rest := Split(s[1..], sep);
      if s[0] == sep then [[]] + rest else [[s[0]] + rest[0]] + rest[1..]
  }

  /** Python's `sep.join(parts)`. */
  function Join(parts: seq<string>, sep: char): string
    requires |parts| >= 1
  {
    if |parts| == 1 then parts[0] else parts[0] + [sep] + Join(parts[1..], sep)
  }

  function Occurrences(s: string, c: char): nat
  {
    if s == [] then 0 else (if s[0] == c then 1 else 0) + Occurrences(s[1..], c)
  }

  lemma {:induction false} OccurrencesIn(s: string, c: char)
    ensures Occurrences(s, c) > 0 <==> c in s
  {
    if s != [] {
      OccurrencesIn(s[1..], c);
      assert s == [s[0]] + s[1..];
    }
  }

  /** Splitting loses nothing: joining the pieces gives back the text, and
      there is one more piece than there are separators. */
  lemma {:induction false} SplitJoin(s: string, sep: char)
    ensures Join(Split(s, sep), sep) == s
    ensures |Split(s, sep)| == Occurrences(s, sep) + 1
  {
    if s != [] {
      SplitJoin(s[1..], sep);
      var rest := Split(s[1..], sep);
      if s[0] == sep {
        assert Split(s, sep)[1..] == rest;
      } else {
        var parts := Split(s, sep);
        if |rest| == 1 {
          assert parts == [[s[0]] + rest[0]];
        } else {
          assert parts[1..] == rest[1..];
          assert Join(rest, sep) == rest[0] + [sep] + Join(rest[1..], sep);
        }
      }
    }
  }
}
