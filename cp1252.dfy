/** The single-byte Western European code page 1252 (Python's
    `windows-1252` codec): bytes 0x00-0x7F and 0xA0-0xFF stand for the
    characters with the same code, 27 of the bytes 0x80-0x9F for the
    characters listed below, and 0x81, 0x8D, 0x8F, 0x90 and 0x9D for no
    character at all. */
module Cp1252 {
  import opened Wrappers

  newtype byte = x: int | 0 <= x < 256

  /** The byte that stands for `c`, or `None` when `c` has none (Python
      raises `UnicodeEncodeError`). */
  function EncodeChar(c: char): Option<byte>
  {
    var v := c as int;
    if v < 0x80 || 0xA0 <= v < 0x100 then Some(v as byte)
    else if v == 0x0152 then Some(0x8C)
    else if v == 0x0153 then Some(0x9C)
    else if v == 0x0160 then Some(0x8A)
    else if v == 0x0161 then Some(0x9A)
    else if v == 0x0178 then Some(0x9F)
    else if v == 0x017D then Some(0x8E)
    else if v == 0x017E then Some(0x9E)
    else if v == 0x0192 then Some(0x83)
    else if v == 0x02C6 then Some(0x88)
    else if v == 0x02DC then Some(0x98)
    else if v == 0x2013 then Some(0x96)
    else if v == 0x2014 then Some(0x97)
    else if v == 0x2018 then Some(0x91)
    else if v == 0x2019 then Some(0x92)
    else if v == 0x201A then Some(0x82)
    else if v == 0x201C then Some(0x93)
    else if v == 0x201D then Some(0x94)
    else if v == 0x201E then Some(0x84)
    else if v == 0x2020 then Some(0x86)
    else if v == 0x2021 then Some(0x87)
    else if v == 0x2022 then Some(0x95)
    else if v == 0x2026 then Some(0x85)
    else if v == 0x2030 then Some(0x89)
    else if v == 0x2039 then Some(0x8B)
    else if v == 0x203A then Some(0x9B)
    else if v == 0x20AC then Some(0x80)
    else if v == 0x2122 then Some(0x99)
    else None
  }

  /** The character byte `b` stands for, or `None` for the five
      undefined bytes (Python raises `UnicodeDecodeError`). */
  function DecodeByte(b: byte): Option<char>
  {
    if b < 0x80 || b >= 0xA0 then Some(b as int as char)
    else if b == 0x80 then Some('\U{20AC}')
    else if b == 0x82 then Some('\U{201A}')
    else if b == 0x83 then Some('\U{0192}')
    else if b == 0x84 then Some('\U{201E}')
    else if b == 0x85 then Some('\U{2026}')
    else if b == 0x86 then Some('\U{2020}')
    else if b == 0x87 then Some('\U{2021}')
    else if b == 0x88 then Some('\U{02C6}')
    else if b == 0x89 then Some('\U{2030}')
    else if b == 0x8A then Some('\U{0160}')
    else if b == 0x8B then Some('\U{2039}')
    else if b == 0x8C then Some('\U{0152}')
    else if b == 0x8E then Some('\U{017D}')
    else if b == 0x91 then Some('\U{2018}')
    else if b == 0x92 then Some('\U{2019}')
    else if b == 0x93 then Some('\U{201C}')
    else if b == 0x94 then Some('\U{201D}')
    else if b == 0x95 then Some('\U{2022}')
    else if b == 0x96 then Some('\U{2013}')
    else if b == 0x97 then Some('\U{2014}')
    else if b == 0x98 then Some('\U{02DC}')
    else if b == 0x99 then Some('\U{2122}')
    else if b == 0x9A then Some('\U{0161}')
    else if b == 0x9B then Some('\U{203A}')
    else if b == 0x9C then Some('\U{0153}')
    else if b == 0x9E then Some('\U{017E}')
    else if b == 0x9F then Some('\U{0178}')
    else None
  }

  /** Decoding undoes encoding, character by character ... */
  lemma DecodeEncodeChar(c: char)
    requires EncodeChar(c).Some?
    ensures DecodeByte(EncodeChar(c).value) == Some(c)
  {
  }

  /** ... and encoding undoes decoding, byte by byte: the table is a
      bijection between the 251 defined bytes and their characters. */
  lemma EncodeDecodeByte(b: byte)
    requires DecodeByte(b).Some?
    ensures EncodeChar(DecodeByte(b).value) == Some(b)
  {
  }

  predicate Representable(s: string)
  {
    forall i :: 0 <= i < |s| ==> EncodeChar(s[i]).Some?
  }

  /** `s.encode("windows-1252")`. */
  function Encode(s: string): Option<seq<byte>>
  {
    if s == [] then Some([])
    else
      match (EncodeChar(s[|s| - 1]), Encode(s[..|s| - 1]))
      case (Some(b), Some(init)) => Some(init + [b])
      case _ => None
  }

  /** `data.decode("windows-1252")`. */
  function Decode(data: seq<byte>): Option<string>
  {
    if data == [] then Some([])
    else
      match (DecodeByte(data[|data| - 1]), Decode(data[..|data| - 1]))
      case (Some(c), Some(init)) => Some(init + [c])
      case _ => None
  }

  /** Encoding fails exactly on text with a character outside the code
      page, and decoding the bytes it produces gives the text back. */
  lemma {:induction false} EncodeDecode(s: string)
    ensures Encode(s).Some? <==> Representable(s)
    ensures Encode(s).Some? ==> |Encode(s).value| == |s| && Decode(Encode(s).value) == Some(s)
  {
    if s != [] {
      var init := s[..|s| - 1];
      EncodeDecode(init);
      if EncodeChar(s[|s| - 1]).Some? {
        DecodeEncodeChar(s[|s| - 1]);
      }
      if Encode(s).Some? {
        var bytes := Encode(s).value;
        assert bytes[..|bytes| - 1] == Encode(init).value;
      }
      assert Representable(s) <==> Representable(init) && EncodeChar(s[|s| - 1]).Some?;
      assert s == init + [s[|s| - 1]];
    }
  }
}
