/**
 * Rendering of numbers as text, as JavaScript's `String(n)`, template literals and
 * `BigInt.prototype.toString()` produce it, and the big-endian reading of random bytes
 * done by `Buffer.readUInt32BE`.
 */
module Text {

  import opened Wrappers

  type Byte = x: int | 0 <= x < 256

  const TwoTo32: nat := 0x1_0000_0000

  predicate IsDigit(c: char) { '0' <= c <= '9' }

  /** A non-empty string of decimal digits. */
  predicate IsDecimal(s: string) {
    |s| > 0 && forall i :: 0 <= i < |s| ==> IsDigit(s[i])
  }

  function DigitValue(c: char): (d: nat)
    requires IsDigit(c)
    ensures d < 10
  {
    c as int - '0' as int
  }

  function DigitChar(d: nat): (c: char)
    requires d < 10
    ensures IsDigit(c) && DigitValue(c) == d
  {
    ('0' as int + d) as char
  }

  /** The decimal text of a non-negative integer, without leading zeros. */
  function NatToDecimal(n: nat): (s: string)
    ensures IsDecimal(s)
    ensures n < 10 <==> |s| == 1
    decreases n
  {
    if n < 10 then [DigitChar(n)] else NatToDecimal(n / 10) + [DigitChar(n % 10)]
  }

  /** The value of a string of decimal digits, read most significant digit first. */
  function DecimalValue(s: string): nat
    requires forall i :: 0 <= i < |s| ==> IsDigit(s[i])
  {
    if s == [] then 0 else 10 * DecimalValue(s[..|s| - 1]) + DigitValue(s[|s| - 1])
  }

  lemma {:induction false} DecimalRoundTrip(n: nat)
    ensures DecimalValue(NatToDecimal(n)) == n
    decreases n
  {
    var s := NatToDecimal(n);
    if n >= 10 {
      assert s[..|s| - 1] == NatToDecimal(n / 10);
      DecimalRoundTrip(n / 10);
    }
  }

  /** `toString()` of an integer: a minus sign before the digits of a negative value. */
  function IntToDecimal(n: int): (s: string)
    ensures |s| > 0
    ensures n < 0 <==> s[0] == '-'
  {
    if n < 0 then "-" + NatToDecimal(-n) else NatToDecimal(n)
  }

  /** Reads back the text `IntToDecimal` produces. */
  function DecimalToInt(s: string): Option<int>
  {
    if |s| > 0 && s[0] == '-' && IsDecimal(s[1..]) then Some(0 - DecimalValue(s[1..]) as int)
    else if IsDecimal(s) then Some(DecimalValue(s))
    else None
  }

  lemma IntRoundTrip(n: int)
    ensures DecimalToInt(IntToDecimal(n)) == Some(n)
  {
    var s := IntToDecimal(n);
    if n < 0 {
      assert s[1..] == NatToDecimal(-n);
      DecimalRoundTrip(-n);
    } else {
      assert s == NatToDecimal(n);
      assert s[0] != '-';
      DecimalRoundTrip(n);
    }
  }

  /** `buf.readUInt32BE(0)`: four bytes, most significant first. */
  function ReadUInt32BE(b: seq<Byte>): (n: nat)
    requires |b| == 4
    ensures n < TwoTo32
  {
    ((b[0] as int * 256 + b[1]) * 256 + b[2]) * 256 + b[3]
  }

  /** The four bytes whose big-endian reading is `n`. */
  function WriteUInt32BE(n: nat): (b: seq<Byte>)
    requires n < TwoTo32
    ensures |b| == 4
  {
    [n / 0x100_0000, (n / 0x1_0000) % 256, (n / 256) % 256, n % 256]
  }

  lemma ReadWriteUInt32BE(n: nat)
    requires n < TwoTo32
    ensures ReadUInt32BE(WriteUInt32BE(n)) == n
  {
    var b := WriteUInt32BE(n);
    assert b[0] as int * 256 + b[1] == n / 0x1_0000;
    assert (b[0] as int * 256 + b[1]) * 256 + b[2] == n / 256;
  }

  lemma WriteReadUInt32BE(b: seq<Byte>)
    requires |b| == 4
    ensures WriteUInt32BE(ReadUInt32BE(b)) == b
  {
    var n := ReadUInt32BE(b);
    assert n / 256 == (b[0] as int * 256 + b[1]) * 256 + b[2];
    assert n / 0x1_0000 == b[0] as int * 256 + b[1];
    assert n / 0x100_0000 == b[0];
  }
}
