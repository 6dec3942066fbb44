/** The two ways of measuring text that the protobuf playground compares:
    a JavaScript string's `length` (UTF-16 code units) and the bytes
    `new TextEncoder().encode(text)` produces (UTF-8). */
module TextEncoding {
  import opened Basics

  /** Code units `c` takes in a JavaScript string. */
  function Utf16Units(c: char): nat {
    if c as int >= 0x10000 then 2 else 1
  }

  /** `text.length` */
  function Utf16Length(s: string): nat {
    if s == [] then 0 else Utf16Length(s[..|s| - 1]) + Utf16Units(s[|s| - 1])
  }

  /** The UTF-8 encoding of one code point: one byte below U+0080, then two,
      three and four bytes, with lead bytes 0xxxxxxx, 110xxxxx, 1110xxxx and
      11110xxx followed by 10xxxxxx continuation bytes. */
  function Utf8Char(c: char): (r: seq<Byte>)
    ensures 1 <= |r| <= 4
    ensures r[0] < 0x80 <==> |r| == 1
    ensures forall k :: 1 <= k < |r| ==> 0x80 <= r[k] < 0xC0
  {
    var n := c as int;
    if n < 0x80 then [n]
    else if n < 0x800 then [0xC0 + n / 64, 0x80 + n % 64]
    else if n < 0x10000 then [0xE0 + n / 4096, 0x80 + (n / 64) % 64, 0x80 + n % 64]
    else [0xF0 + n / 262144, 0x80 + (n / 4096) % 64, 0x80 + (n / 64) % 64, 0x80 + n % 64]
  }

  /** `new TextEncoder().encode(s)` */
  function Utf8Encode(s: string): seq<Byte> {
    if s == [] then [] else Utf8Encode(s[..|s| - 1]) + Utf8Char(s[|s| - 1])
  }

  predicate IsAscii(s: string) {
    forall k :: 0 <= k < |s| ==> s[k] as int < 0x80
  }

  /** UTF-8 never takes fewer bytes than UTF-16 takes code units, and takes
      exactly as many precisely when the text is ASCII. */
  lemma {:induction false} Utf8NotShorter(s: string)
    ensures |Utf8Encode(s)| >= Utf16Length(s)
    ensures |Utf8Encode(s)| == Utf16Length(s) <==> IsAscii(s)
  {
    if s != [] {
      var init := s[..|s| - 1];
      Utf8NotShorter(init);
      assert forall k :: 0 <= k < |init| ==> init[k] == s[k];
      if IsAscii(s) {
        assert IsAscii(init);
        assert s[|s| - 1] as int < 0x80;
      }
    }
  }

  /** ASCII text encodes to its own code points, byte for byte. */
  lemma {:induction false} AsciiEncodesToCodePoints(s: string)
    requires IsAscii(s)
    ensures |Utf8Encode(s)| == |s|
    ensures forall k :: 0 <= k < |s| ==> Utf8Encode(s)[k] == s[k] as int
  {
    if s != [] {
      var init := s[..|s| - 1];
      assert forall k :: 0 <= k < |init| ==> init[k] == s[k];
      AsciiEncodesToCodePoints(init);
    }
  }
}
