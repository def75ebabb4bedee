/**
 Bytes, 16-bit integers and their little-endian two's-complement encoding, as the
 payload helpers of the adapters and of the canned device use them.
 */
module Bytes {

  type byte = x: int | 0 <= x < 0x100
  type uint16 = x: int | 0 <= x < 0x1_0000
  type int16 = x: int | -0x8000 <= x < 0x8000

  datatype Option<+T> = None | Some(value: T)

  /** `static_cast<uint16_t>` of a signed value. */
  function Unsigned16(v: int16): uint16 {
    if v < 0 then v + 0x1_0000 else v
  }

  /** `static_cast<int16_t>` of an unsigned value. */
  function Signed16(v: uint16): int16 {
    if v >= 0x8000 then v - 0x1_0000 else v
  }

  function U16Le(v: uint16): seq<byte> {
    [v % 0x100, v / 0x100]
  }

  function I16Le(v: int16): seq<byte> {
    U16Le(Unsigned16(v))
  }

  /** Bounds-checked little-endian read: fails unless both bytes exist. */
  function ReadU16(p: seq<byte>, off: nat): Option<uint16> {
    if |p| < 2 || off > |p| - 2 then None else Some((p[off] as int) + 0x100 * (p[off + 1] as int))
  }

  function ReadI16(p: seq<byte>, off: nat): Option<int16> {
    match ReadU16(p, off)
    case None => None
    case Some(raw) => Some(Signed16(raw))
  }

  predicate Bit0(flags: byte) { flags % 2 == 1 }
  predicate Bit1(flags: byte) { flags / 2 % 2 == 1 }
  predicate Bit2(flags: byte) { flags / 4 % 2 == 1 }

  /** Decoding undoes encoding for every 16-bit value, wherever it sits in the payload. */
  lemma I16RoundTrip(before: seq<byte>, v: int16, after: seq<byte>)
    ensures ReadI16(before + I16Le(v) + after, |before|) == Some(v)
    ensures forall u: uint16 {:trigger U16Le(u)} :: ReadU16(before + U16Le(u) + after, |before|) == Some(u)
  {
    var p := before + I16Le(v) + after;
    assert p[|before|] == I16Le(v)[0] && p[|before| + 1] == I16Le(v)[1];
    forall u: uint16 {:trigger U16Le(u)}
      ensures ReadU16(before + U16Le(u) + after, |before|) == Some(u)
    {
      var q := before + U16Le(u) + after;
      assert q[|before|] == U16Le(u)[0] && q[|before| + 1] == U16Le(u)[1];
    }
  }
}
