/**
 * Byte strings as the Opto22 blocks see them: a Python `bytes` value is a
 * sequence of integers in [0, 256).  This module holds what both telemetry
 * readers and the register writer share: the `_read_bytes` cursor, big-endian
 * integers, the IEEE-754 field split, `bytes.strip()` and hex conversion.
 */
module Bytes {
  import opened Wrappers

  type byte = x: int | 0 <= x < 256
  type Bytes = seq<byte>

  /** 256^n, the number of values an n-byte unsigned integer can take. */
  function Pow256(n: nat): (r: nat)
    ensures r >= 1
  {
    if n == 0 then 1 else 256 * Pow256(n - 1)
  }

  /** `int.from_bytes(s, byteorder='big')`: the unsigned big-endian value of s. */
  function BigEndian(s: Bytes): (v: nat)
    ensures v < Pow256(|s|)
  {
    if s == [] then 0 else BigEndian(s[..|s| - 1]) * 256 + s[|s| - 1]
  }

  /** A quadlet read big-endian: the first byte is the most significant. */
  lemma BigEndianQuadlet(b: Bytes)
    requires |b| == 4
    ensures BigEndian(b) == b[0] as int * 0x100_0000 + b[1] as int * 0x1_0000 + b[2] as int * 0x100 + b[3]
  {
    assert b[..3][..2] == b[..2];
    assert b[..2][..1] == b[..1];
    assert b[..1][..0] == [];
    assert BigEndian(b[..1]) == b[0];
    assert BigEndian(b[..2]) == b[0] as int * 0x100 + b[1];
    assert BigEndian(b[..3]) == b[0] as int * 0x1_0000 + b[1] as int * 0x100 + b[2];
    assert b[..4] == b;
  }

  /** Bit k (bit 0 the least significant) of a non-negative integer. */
  function Bit(x: nat, k: nat): bool
  {
    if k == 0 then x % 2 == 1 else Bit(x / 2, k - 1)
  }

  // ---------------------------------------------------------------------
  // The `_read_bytes` cursor (opto_read.py and opto.py carry the same code)
  // ---------------------------------------------------------------------

  /** `_read_bytes(packet, n)`: split off the first n bytes. */
  function ReadBytes(packet: Bytes, n: nat): (r: Result<(Bytes, Bytes), ReadError>)
    ensures r.Err? <==> n > |packet|
    ensures r.Ok? ==> |r.value.0| == n && r.value.0 + r.value.1 == packet
    ensures r.Ok? ==> r.value.0 == packet[..n] && r.value.1 == packet[n..]
  {
    if n > |packet| then Err(IndexError) else Ok((packet[..n], packet[n..]))
  }

  /** `_read_bytes(packet, n, intify=True)`: the first n bytes as a big-endian integer. */
  function ReadInt(packet: Bytes, n: nat): (r: Result<(nat, Bytes), ReadError>)
    ensures r.Err? <==> n > |packet|
    ensures r.Ok? ==> r.value.0 == BigEndian(packet[..n]) && r.value.1 == packet[n..]
    ensures r.Ok? ==> r.value.0 < Pow256(n)
  {
    var (taken, rest) :- ReadBytes(packet, n);
    Ok((BigEndian(taken), rest))
  }

  // ---------------------------------------------------------------------
  // IEEE-754 binary32 fields of a quadlet (`_ieee_bytes_to_float`)
  // ---------------------------------------------------------------------

  /** The three bit fields of a binary32 value; its real value is not modelled. */
  datatype IeeeFields = IeeeFields(sign: nat, exp: nat, significand: nat)

  /**
   * The field split of `_ieee_bytes_to_float`.  On non-negative integers the
   * Python operators used there coincide with arithmetic: `x >> 7` is
   * `x / 128`, `(x & 0x7F) << 1` is `(x % 128) * 2` and `x & 0x7FFFFF` is
   * `x % 0x80_0000`.
   */
  function FloatFields(b: Bytes): (f: IeeeFields)
    requires |b| == 4
    ensures f.sign < 2 && f.exp < 256 && f.significand < 0x80_0000
    ensures f.sign * 0x8000_0000 + f.exp * 0x80_0000 + f.significand == BigEndian(b)
  {
    BigEndianQuadlet(b);
    var f := IeeeFields(b[0] / 128, (b[0] % 128) * 2 + b[1] / 128, BigEndian(b) % 0x80_0000);
    FieldsRecompose(b);
    f
  }

  lemma FieldsRecompose(b: Bytes)
    requires |b| == 4
    ensures (b[0] as int / 128) * 0x8000_0000 + ((b[0] as int % 128) * 2 + b[1] as int / 128) * 0x80_0000
              + BigEndian(b) % 0x80_0000 == BigEndian(b)
  {
    BigEndianQuadlet(b);
    var b0: int, b1: int, b2: int, b3: int := b[0], b[1], b[2], b[3];
    var low: int := (b1 % 128) * 0x1_0000 + b2 * 0x100 + b3;
    var high: int := b0 * 2 + b1 / 128;
    assert b1 == (b1 / 128) * 128 + b1 % 128;
    assert b0 == (b0 / 128) * 128 + b0 % 128;
    assert BigEndian(b) == high * 0x80_0000 + low;
    assert 0 <= low < 0x80_0000;
    assert BigEndian(b) % 0x80_0000 == low;
    assert (b0 / 128) * 0x8000_0000 + ((b0 % 128) * 2 + b1 / 128) * 0x80_0000
        == high * 0x80_0000;
  }

  // ---------------------------------------------------------------------
  // bytes.strip()
  // ---------------------------------------------------------------------

  /** The bytes `bytes.strip()` removes by default: b' \t\n\x0b\x0c\r'. */
  predicate IsSpace(b: byte)
  {
    b == 0x20 || 0x09 <= b <= 0x0D
  }

  /** How many whitespace bytes open s. */
  function LeadingSpaces(s: Bytes): (n: nat)
    ensures n <= |s|
    ensures forall k :: 0 <= k < n ==> IsSpace(s[k])
    ensures n < |s| ==> !IsSpace(s[n])
  {
    if s != [] && IsSpace(s[0]) then 1 + LeadingSpaces(s[1..]) else 0
  }

  /** How many whitespace bytes close s. */
  function TrailingSpaces(s: Bytes): (n: nat)
    ensures n <= |s|
    ensures forall k :: |s| - n <= k < |s| ==> IsSpace(s[k])
    ensures n < |s| ==> !IsSpace(s[|s| - 1 - n])
  {
    if s != [] && IsSpace(s[|s| - 1]) then 1 + TrailingSpaces(s[..|s| - 1]) else 0
  }

  /**
   * `bytes.strip()`: the slice of s that remains once its leading and
   * trailing whitespace is gone.  No byte other than whitespace is dropped.
   */
  function Strip(s: Bytes): (r: Bytes)
    ensures LeadingSpaces(s) + |r| <= |s|
    ensures r == s[LeadingSpaces(s)..LeadingSpaces(s) + |r|]
    ensures r != [] ==> !IsSpace(r[0]) && !IsSpace(r[|r| - 1])
    ensures forall k :: 0 <= k < |s| && !IsSpace(s[k]) ==>
              LeadingSpaces(s) <= k < LeadingSpaces(s) + |r|
  {
    var i := LeadingSpaces(s);
    var t := s[i..];
    var r := t[..|t| - TrailingSpaces(t)];
    assert forall k :: i + |r| <= k < |s| ==> s[k] == t[k - i];
    r
  }

  /** strip() leaves s alone exactly when neither end of s is whitespace. */
  lemma StripIdentity(s: Bytes)
    ensures Strip(s) == s <==> (s == [] || (!IsSpace(s[0]) && !IsSpace(s[|s| - 1])))
  {
    if s != [] && !IsSpace(s[0]) && !IsSpace(s[|s| - 1]) {
      assert LeadingSpaces(s) == 0;
      assert TrailingSpaces(s) == 0;
    }
  }

  /** Stripping twice is stripping once. */
  lemma StripIdempotent(s: Bytes)
    ensures Strip(Strip(s)) == Strip(s)
  {
    StripIdentity(Strip(s));
  }

  // ---------------------------------------------------------------------
  // Hex strings: bytearray.fromhex, binascii.hexlify, int(pair, 16)
  // ---------------------------------------------------------------------

  predicate IsHexDigit(c: char)
  {
    '0' <= c <= '9' || 'a' <= c <= 'f' || 'A' <= c <= 'F'
  }

  predicate AllHexDigits(s: string)
  {
    forall i :: 0 <= i < |s| ==> IsHexDigit(s[i])
  }

  function HexDigitValue(c: char): (v: nat)
    requires IsHexDigit(c)
    ensures v < 16
  {
    if '0' <= c <= '9' then c as int - '0' as int
    else if 'a' <= c <= 'f' then c as int - 'a' as int + 10
    else c as int - 'A' as int + 10
  }

  /** The lower-case digit binascii.hexlify writes for v. */
  function LowerHexDigit(v: nat): (c: char)
    requires v < 16
    ensures IsHexDigit(c) && HexDigitValue(c) == v
  {
    if v < 10 then ('0' as int + v) as char else ('a' as int + v - 10) as char
  }

  /** `int(hi + lo, 16)` for two hex digits. */
  function HexPairValue(hi: char, lo: char): byte
    requires IsHexDigit(hi) && IsHexDigit(lo)
  {
    16 * HexDigitValue(hi) + HexDigitValue(lo)
  }

  /** `binascii.hexlify(b)`: two lower-case hex digits per byte, high nibble first. */
  function Hexlify(b: Bytes): (s: string)
    ensures |s| == 2 * |b| && AllHexDigits(s)
  {
    if b == [] then ""
    else
      var tail := Hexlify(b[1..]);
      var s := [LowerHexDigit(b[0] / 16), LowerHexDigit(b[0] % 16)] + tail;
      assert forall i :: 2 <= i < |s| ==> s[i] == tail[i - 2];
      s
  }

  /** Every character hexlify writes is a hex digit, and pair k spells byte k. */
  lemma {:induction false} HexlifyPairs(b: Bytes)
    ensures forall k :: 0 <= k < |b| ==>
              HexPairValue(Hexlify(b)[2 * k], Hexlify(b)[2 * k + 1]) == b[k]
  {
    if b != [] {
      HexlifyPairs(b[1..]);
      var s, tail := Hexlify(b), Hexlify(b[1..]);
      assert s[2..] == tail;
      forall k | 0 <= k < |b| ensures HexPairValue(s[2 * k], s[2 * k + 1]) == b[k] {
        if k >= 1 {
          assert s[2 * k] == tail[2 * (k - 1)] && s[2 * k + 1] == tail[2 * (k - 1) + 1];
          assert b[k] == b[1..][k - 1];
        }
      }
    }
  }

  /**
   * `bytearray.fromhex(s)` on a string of hex digits, either case; an odd
   * length or a character that is not a hex digit is the ValueError.
   */
  function FromHex(s: string): Option<Bytes>
  {
    if s == [] then Some([])
    else if |s| == 1 || !IsHexDigit(s[0]) || !IsHexDigit(s[1]) then None
    else match FromHex(s[2..])
      case None => None
      case Some(rest) => Some([HexPairValue(s[0], s[1])] + rest)
  }

  /** Byte k of a decoded string is `int(x, 16)` of its digit pair k. */
  lemma FromHexPairs(s: string)
    requires FromHex(s).Some?
    ensures 2 * |FromHex(s).value| == |s|
    ensures forall k :: 0 <= k < |FromHex(s).value| ==>
              IsHexDigit(s[2 * k]) && IsHexDigit(s[2 * k + 1])
              && FromHex(s).value[k] == HexPairValue(s[2 * k], s[2 * k + 1])
  {
    FromHexDefined(s);
    forall k | 0 <= k < |FromHex(s).value|
      ensures IsHexDigit(s[2 * k]) && IsHexDigit(s[2 * k + 1])
              && FromHex(s).value[k] == HexPairValue(s[2 * k], s[2 * k + 1])
    {
      FromHexPairAt(s, k);
    }
  }

  lemma {:induction false} FromHexPairAt(s: string, k: nat)
    requires FromHex(s).Some? && 2 * k + 1 < |s|
    ensures IsHexDigit(s[2 * k]) && IsHexDigit(s[2 * k + 1]) && k < |FromHex(s).value|
            && FromHex(s).value[k] == HexPairValue(s[2 * k], s[2 * k + 1])
    decreases k
  {
    var t := s[2..];
    assert FromHex(s).value == [HexPairValue(s[0], s[1])] + FromHex(t).value;
    if k > 0 {
      assert s[2 * k] == t[2 * (k - 1)] && s[2 * k + 1] == t[2 * (k - 1) + 1];
      FromHexPairAt(t, k - 1);
    }
  }

  /** fromhex accepts exactly the even-length hex-digit strings, two digits per byte. */
  lemma {:induction false} FromHexDefined(s: string)
    ensures FromHex(s).Some? <==> |s| % 2 == 0 && AllHexDigits(s)
    ensures FromHex(s).Some? ==> 2 * |FromHex(s).value| == |s|
    decreases |s|
  {
    if |s| >= 2 {
      FromHexDefined(s[2..]);
      if IsHexDigit(s[0]) && IsHexDigit(s[1]) {
        assert AllHexDigits(s) <==> AllHexDigits(s[2..]) by {
          forall i | 0 <= i < |s[2..]| ensures s[2..][i] == s[i + 2] {}
          if AllHexDigits(s[2..]) {
            forall i | 0 <= i < |s| ensures IsHexDigit(s[i]) {
              if i >= 2 { assert s[i] == s[2..][i - 2]; }
            }
          }
        }
      }
    }
  }

  /** Decoding what hexlify wrote gives the bytes back. */
  lemma {:induction false} HexlifyRoundTrip(b: Bytes)
    ensures FromHex(Hexlify(b)) == Some(b)
  {
    if b != [] {
      HexlifyRoundTrip(b[1..]);
      var s := Hexlify(b);
      assert s[2..] == Hexlify(b[1..]);
      assert HexPairValue(s[0], s[1]) == b[0];
      assert [b[0]] + b[1..] == b;
    }
  }

  /** Decoding a concatenation whose first part has even length decodes each part and joins them. */
  lemma {:induction false} FromHexConcat(x: string, y: string)
    requires |x| % 2 == 0
    ensures FromHex(x).Some? && FromHex(y).Some? ==> FromHex(x + y) == Some(FromHex(x).value + FromHex(y).value)
    ensures FromHex(x).None? || FromHex(y).None? ==> FromHex(x + y).None?
    decreases |x|
  {
    if x == [] {
      assert x + y == y;
      if FromHex(y).Some? {
        assert [] + FromHex(y).value == FromHex(y).value;
      }
    } else {
      var xy := x + y;
      assert xy[0] == x[0] && xy[1] == x[1] && |xy| >= 2;
      assert xy[2..] == x[2..] + y;
      FromHexConcat(x[2..], y);
      if IsHexDigit(x[0]) && IsHexDigit(x[1]) {
        var h := HexPairValue(x[0], x[1]);
        if FromHex(x[2..]).Some? && FromHex(y).Some? {
          var a, b := FromHex(x[2..]).value, FromHex(y).value;
          assert FromHex(xy) == Some([h] + (a + b));
          assert [h] + (a + b) == ([h] + a) + b;
        }
      }
    }
  }

  /**
   * `'{0:08b}'.format(v)` generalised to a width: v's low bits, most
   * significant first.  Bits above the width are cut, where the format would
   * widen the string; the readers use it only on bytes at width 8, which
   * need no more than 8 digits.
   */
  function BinaryDigits(v: nat, width: nat): (s: string)
    ensures |s| == width
    ensures forall j :: 0 <= j < width ==> s[j] == '0' || s[j] == '1'
  {
    if width == 0 then "" else BinaryDigits(v / 2, width - 1) + [if v % 2 == 1 then '1' else '0']
  }

  /** Digit j of the binary string is bit (width - 1 - j) of v. */
  lemma {:induction false} BinaryDigitsAt(v: nat, width: nat, j: nat)
    requires j < width
    ensures (BinaryDigits(v, width)[j] == '1') == Bit(v, width - 1 - j)
  {
    if j < width - 1 {
      BinaryDigitsAt(v / 2, width - 1, j);
    }
  }
}
