/**
  Byte-level views of strings used by the signature check: the UTF-8
  encoding `Buffer.from(string)` produces and the lower-case hexadecimal
  rendering `digest("hex")` produces.
*/
module Encoding {

  newtype byte = x: int | 0 <= x < 256

  predicate IsAscii(s: string) {
    forall i :: 0 <= i < |s| ==> (s[i] as int) < 0x80
  }

  /** The UTF-8 encoding of one Unicode scalar value (one to four bytes). */
  function Utf8Char(c: char): (r: seq<byte>)
    ensures 1 <= |r| <= 4
    ensures (r[0] < 0x80) <==> ((c as int) < 0x80)
  {
    var n := c as int;
    if n < 0x80 then
      [n as byte]
    else if n < 0x800 then
      [(0xC0 + n / 0x40) as byte, (0x80 + n % 0x40) as byte]
    else if n < 0x1_0000 then
      [(0xE0 + n / 0x1000) as byte, (0x80 + (n / 0x40) % 0x40) as byte, (0x80 + n % 0x40) as byte]
    else
      [(0xF0 + n / 0x4_0000) as byte, (0x80 + (n / 0x1000) % 0x40) as byte,
       (0x80 + (n / 0x40) % 0x40) as byte, (0x80 + n % 0x40) as byte]
  }

  /** `Buffer.from(s)`: the UTF-8 encoding of a whole string. */
  function Utf8(s: string): seq<byte> {
    if |s| == 0 then [] else Utf8Char(s[0]) + Utf8(s[1..])
  }

  lemma {:induction false} Utf8OfAscii(d: string)
    requires IsAscii(d)
    ensures |Utf8(d)| == |d|
    ensures forall i :: 0 <= i < |d| ==> Utf8(d)[i] as int == d[i] as int
  {
    if |d| > 0 {
      Utf8OfAscii(d[1..]);
      forall i | 0 <= i < |d| ensures Utf8(d)[i] as int == d[i] as int {
        if i > 0 { assert d[1..][i - 1] == d[i]; }
      }
    }
  }

  /**
    Comparing encodings against an ASCII string is comparing the strings:
    no other string encodes to the same bytes.
  */
  lemma {:induction false} Utf8AsciiInjective(s: string, d: string)
    requires IsAscii(d)
    ensures Utf8(s) == Utf8(d) <==> s == d
  {
    if Utf8(s) == Utf8(d) {
      Utf8OfAscii(d);
      if |s| > 0 {
        assert |d| > 0;
        var head := Utf8Char(s[0]);
        assert Utf8(s)[0] == head[0];
        assert (d[0] as int) < 0x80;
        assert (s[0] as int) < 0x80;
        assert s[0] == d[0];
        assert |head| == 1;
        assert Utf8(s)[1..] == Utf8(s[1..]);
        assert Utf8(d)[1..] == Utf8(d[1..]);
        assert IsAscii(d[1..]) by {
          forall i | 0 <= i < |d[1..]| ensures (d[1..][i] as int) < 0x80 {
            assert d[1..][i] == d[i + 1];
          }
        }
        Utf8AsciiInjective(s[1..], d[1..]);
      }
    }
  }

  // ---------- hexadecimal ----------

  const HexDigits: string := "0123456789abcdef"

  /** `digest("hex")`: two lower-case hexadecimal digits per byte, high nibble first. */
  function Hex(b: seq<byte>): (r: string)
    ensures |r| == 2 * |b|
    ensures forall i :: 0 <= i < |b| ==> r[2 * i] == HexDigits[b[i] as int / 16] && r[2 * i + 1] == HexDigits[b[i] as int % 16]
    ensures IsAscii(r)
  {
    if |b| == 0 then ""
    else
      var rest := Hex(b[1..]);
      var r := [HexDigits[b[0] as int / 16], HexDigits[b[0] as int % 16]] + rest;
      assert forall i :: 0 <= i < |b| ==> r[2 * i] == HexDigits[b[i] as int / 16] && r[2 * i + 1] == HexDigits[b[i] as int % 16] by {
        forall i | 1 <= i < |b|
          ensures r[2 * i] == HexDigits[b[i] as int / 16] && r[2 * i + 1] == HexDigits[b[i] as int % 16]
        {
          assert b[i] == b[1..][i - 1];
          assert r[2 * i] == rest[2 * (i - 1)] && r[2 * i + 1] == rest[2 * (i - 1) + 1];
        }
      }
      assert IsAscii(r) by {
        forall j | 0 <= j < |r| ensures (r[j] as int) < 0x80 {
          if j >= 2 { assert r[j] == rest[j - 2]; }
        }
      }
      r
  }
}
