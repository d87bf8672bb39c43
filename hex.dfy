/** The `format!("0x{}", encode(addr.as_fixed_bytes()))` rendering of an
    address used in every listener filter on an address field and in the owner
    updates, together with a parser that inverts it. */
module Hex {
  import opened Primitives

  /** The lowercase hexadecimal digit for a value below 16. */
  function HexDigit(d: int): (c: char)
    requires 0 <= d < 16
    ensures IsHexDigit(c)
  {
    if d < 10 then ('0' as int + d) as char else ('a' as int + d - 10) as char
  }

  predicate IsHexDigit(c: char)
  {
    ('0' <= c <= '9') || ('a' <= c <= 'f')
  }

  /** The value of a lowercase hexadecimal digit. */
  function HexValue(c: char): (d: int)
    requires IsHexDigit(c)
    ensures 0 <= d < 16
  {
    if '0' <= c <= '9' then c as int - '0' as int else c as int - 'a' as int + 10
  }

  /** `hex::encode`: two lowercase digits per byte, high nibble first. */
  function EncodeHex(bytes: seq<Byte>): (s: string)
    ensures |s| == 2 * |bytes|
    ensures forall k :: 0 <= k < |s| ==> IsHexDigit(s[k])
  {
    if |bytes| == 0 then ""
    else [HexDigit(bytes[0] / 16), HexDigit(bytes[0] % 16)] + EncodeHex(bytes[1..])
  }

  /** The inverse of EncodeHex: None on odd length or a non-digit. */
  function DecodeHex(s: string): Option<seq<Byte>>
  {
    if |s| == 0 then Some([])
    else if |s| < 2 || !IsHexDigit(s[0]) || !IsHexDigit(s[1]) then None
    else match DecodeHex(s[2..])
      case None => None
      case Some(rest) => Some([HexValue(s[0]) * 16 + HexValue(s[1])] + rest)
  }

  lemma {:induction false} DecodeEncode(bytes: seq<Byte>)
    ensures DecodeHex(EncodeHex(bytes)) == Some(bytes)
  {
    if |bytes| > 0 {
      var s := EncodeHex(bytes);
      assert s[2..] == EncodeHex(bytes[1..]);
      DecodeEncode(bytes[1..]);
      assert HexValue(s[0]) == bytes[0] / 16 && HexValue(s[1]) == bytes[0] % 16;
      assert [bytes[0]] + bytes[1..] == bytes;
    }
  }

  /** The string the listener writes for an address: "0x" and 40 lowercase hex digits. */
  function Render(a: Address): (s: string)
    ensures |s| == 42 && s[..2] == "0x"
    ensures forall k :: 2 <= k < 42 ==> IsHexDigit(s[k])
  {
    "0x" + EncodeHex(a)
  }

  /** Reads back a rendered address. */
  function ParseAddress(s: string): Option<Address>
  {
    if |s| != 42 || s[..2] != "0x" then None
    else match DecodeHex(s[2..])
      case Some(bytes) => if |bytes| == 20 then Some(bytes) else None
      case None => None
  }

  lemma ParseRender(a: Address)
    ensures ParseAddress(Render(a)) == Some(a)
  {
    assert Render(a)[2..] == EncodeHex(a);
    DecodeEncode(a);
  }

  /** Two addresses render to the same string exactly when they are equal,
      so a filter on rendered strings selects by address. */
  lemma RenderInjective(a: Address, b: Address)
    ensures Render(a) == Render(b) <==> a == b
  {
    if Render(a) == Render(b) {
      ParseRender(a);
      ParseRender(b);
    }
  }
}
