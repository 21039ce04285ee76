/**
 * The telemetry reader of opto_read.py: `OptoDataHandler` decodes one UDP
 * datagram from the PAC into three lists (64 floats, 64 unsigned integers,
 * 64 digital states) and `OptoReader._handle_input` maps the configured
 * inputs onto one output dict per datagram.
 *
 * Datagram layout, big-endian: bytes 0-1 packet length, byte 2 zero fill,
 * byte 3 transaction code, bytes 4-259 the floats, bytes 260-515 the
 * integers, bytes 516-523 the digitals.
 */
module OptoRead {
  import opened Wrappers
  import opened Bytes
  import opened Dicts

  // ---------------------------------------------------------------------
  // Decoding (`OptoDataHandler`)
  // ---------------------------------------------------------------------

  /** The three lists `_parse_packet` returns. */
  datatype Parsed = Parsed(floats: seq<IeeeFields>, ints: seq<nat>, digitals: seq<bool>)

  /** The 64 floats held in the first 256 bytes of p. */
  function FloatChannels(p: Bytes): (fs: seq<IeeeFields>)
    requires |p| >= 256
    ensures |fs| == 64
  {
    seq(64, k requires 0 <= k < 64 => FloatFields(p[4 * k .. 4 * k + 4]))
  }

  /** The 64 unsigned quadlets held in the first 256 bytes of p. */
  function IntChannels(p: Bytes): (ns: seq<nat>)
    requires |p| >= 256
    ensures |ns| == 64
  {
    seq(64, k requires 0 <= k < 64 => BigEndian(p[4 * k .. 4 * k + 4]))
  }

  /** The 64 digital states held in the first 8 bytes of p, most significant bit first. */
  function DigitalChannels(p: Bytes): (ds: seq<bool>)
    requires |p| >= 8
    ensures |ds| == 64
  {
    seq(64, i requires 0 <= i < 64 => Bit(p[i / 8], 7 - i % 8))
  }

  /**
   * What `_parse_packet` returns for the bytes it is given.  The reads are
   * chained inside one `try`, so a list stays `[]` unless its own read
   * completed; the length field and the transaction code are read and
   * thrown away.
   */
  function Decode(p: Bytes): (pack: Parsed)
    ensures |pack.floats| == (if |p| >= 260 then 64 else 0)
    ensures |pack.ints| == (if |p| >= 516 then 64 else 0)
    ensures |pack.digitals| == (if |p| >= 524 then 64 else 0)
  {
    Parsed(if |p| >= 260 then FloatChannels(p[4..]) else [],
           if |p| >= 516 then IntChannels(p[260..]) else [],
           if |p| >= 524 then DigitalChannels(p[516..]) else [])
  }

  /** `_read_floats`: 64 quadlets split into IEEE-754 fields, or IndexError. */
  method ReadFloats(packet: Bytes) returns (r: Result<(seq<IeeeFields>, Bytes), ReadError>)
    ensures r.Err? <==> |packet| < 256
    ensures r.Ok? ==> |r.value.0| == 64 && r.value.1 == packet[256..]
    ensures r.Ok? ==> forall k :: 0 <= k < 64 ==>
                        r.value.0[k] == FloatFields(packet[4 * k .. 4 * k + 4])
    ensures r.Ok? ==> r.value.0 == FloatChannels(packet)
  {
    var floats: seq<IeeeFields> := [];
    var rest := packet;
    for i := 0 to 64
      invariant 4 * i <= |packet| && rest == packet[4 * i..]
      invariant |floats| == i
      invariant forall k :: 0 <= k < i ==> floats[k] == FloatFields(packet[4 * k .. 4 * k + 4])
    {
      var next := ReadBytes(rest, 4);
      if next.Err? {
        return Err(next.error);
      }
      var (nextFloat, tail) := next.value;
      assert nextFloat == packet[4 * i .. 4 * i + 4];
      floats := floats + [FloatFields(nextFloat)];
      rest := tail;
    }
    assert floats == FloatChannels(packet);
    return Ok((floats, rest));
  }

  /** `_read_ints`: 64 unsigned big-endian quadlets, or IndexError. */
  method ReadInts(packet: Bytes) returns (r: Result<(seq<nat>, Bytes), ReadError>)
    ensures r.Err? <==> |packet| < 256
    ensures r.Ok? ==> |r.value.0| == 64 && r.value.1 == packet[256..]
    ensures r.Ok? ==> forall k :: 0 <= k < 64 ==>
                        r.value.0[k] == BigEndian(packet[4 * k .. 4 * k + 4])
                        && r.value.0[k] < 0x1_0000_0000
    ensures r.Ok? ==> r.value.0 == IntChannels(packet)
  {
    var ints: seq<nat> := [];
    var rest := packet;
    for i := 0 to 64
      invariant 4 * i <= |packet| && rest == packet[4 * i..]
      invariant |ints| == i
      invariant forall k :: 0 <= k < i ==> ints[k] == BigEndian(packet[4 * k .. 4 * k + 4])
    {
      var next := ReadBytes(rest, 4);
      if next.Err? {
        return Err(next.error);
      }
      var (nextInt, tail) := next.value;
      assert nextInt == packet[4 * i .. 4 * i + 4];
      ints := ints + [BigEndian(nextInt)];
      rest := tail;
    }
    forall k | 0 <= k < 64 ensures ints[k] < 0x1_0000_0000 {
      assert Pow256(4) == 0x1_0000_0000;
    }
    assert ints == IntChannels(packet);
    return Ok((ints, rest));
  }

  /**
   * The bit string `_read_digitals` joins: `'{0:08b}'.format(int(x, 16))`
   * for each two-digit pair x of a hex string, in order.
   */
  function BinaryString(a: string): (s: string)
    requires |a| % 2 == 0 && AllHexDigits(a)
    ensures |s| == 4 * |a|
  {
    if a == [] then ""
    else
      var n := |a| - 2;
      assert forall i :: 0 <= i < n ==> a[..n][i] == a[i];
      BinaryString(a[..n]) + BinaryDigits(HexPairValue(a[n], a[n + 1]), 8)
  }

  /** Character 8k + j of the joined bit string is digit j of pair k. */
  lemma {:induction false} BinaryStringAt(a: string, k: nat, j: nat)
    requires |a| % 2 == 0 && AllHexDigits(a) && 2 * k + 1 < |a| && j < 8
    ensures BinaryString(a)[8 * k + j] == BinaryDigits(HexPairValue(a[2 * k], a[2 * k + 1]), 8)[j]
  {
    var n := |a| - 2;
    var init := a[..n];
    assert AllHexDigits(init) by {
      forall i | 0 <= i < n ensures IsHexDigit(init[i]) {
        assert init[i] == a[i];
      }
    }
    var front, last := BinaryString(init), BinaryDigits(HexPairValue(a[n], a[n + 1]), 8);
    assert BinaryString(a) == front + last;
    if 2 * k + 1 < n {
      BinaryStringAt(init, k, j);
      assert init[2 * k] == a[2 * k] && init[2 * k + 1] == a[2 * k + 1];
      assert (front + last)[8 * k + j] == front[8 * k + j];
    } else {
      assert 8 * k + j == |front| + j;
      assert (front + last)[|front| + j] == last[j];
    }
  }

  /** hexlify, pairwise `int(x, 16)` and `'{0:08b}'` give the bits of b, high bit first. */
  lemma DigitalBits(b: Bytes)
    requires |b| == 8
    ensures |BinaryString(Hexlify(b))| == 64
    ensures forall i :: 0 <= i < 64 ==>
              (BinaryString(Hexlify(b))[i] == '1') == Bit(b[i / 8], 7 - i % 8)
  {
    forall i | 0 <= i < 64
      ensures (BinaryString(Hexlify(b))[i] == '1') == Bit(b[i / 8], 7 - i % 8)
    {
      var k, j := i / 8, i % 8;
      assert i == 8 * k + j && k < 8;
      DigitalBit(b, k, j);
    }
  }

  /** Digit j of the bit string of byte k is bit 7 - j of that byte. */
  lemma DigitalBit(b: Bytes, k: nat, j: nat)
    requires |b| == 8 && k < 8 && j < 8
    ensures (BinaryString(Hexlify(b))[8 * k + j] == '1') == Bit(b[k], 7 - j)
  {
    var a := Hexlify(b);
    HexlifyPairs(b);
    assert HexPairValue(a[2 * k], a[2 * k + 1]) == b[k];
    BinaryStringAt(a, k, j);
    BinaryDigitsAt(b[k], 8, j);
  }

  /** `_read_digitals`: 8 bytes unpacked into 64 booleans, most significant bit first. */
  function ReadDigitals(packet: Bytes): (r: Result<(seq<bool>, Bytes), ReadError>)
    ensures r.Err? <==> |packet| < 8
    ensures r.Ok? ==> |r.value.0| == 64 && r.value.1 == packet[8..]
    ensures r.Ok? ==> forall i :: 0 <= i < 64 ==> r.value.0[i] == Bit(packet[i / 8], 7 - i % 8)
    ensures r.Ok? ==> r.value.0 == DigitalChannels(packet)
  {
    var next :- ReadBytes(packet, 8);
    var nextDigi := next.0;
    var myBinStr := BinaryString(Hexlify(nextDigi));
    DigitalBits(nextDigi);
    var bits := seq(|myBinStr|, i requires 0 <= i < |myBinStr| => myBinStr[i] == '1');
    assert forall i :: 0 <= i < 64 ==> nextDigi[i / 8] == packet[i / 8];
    assert bits == DigitalChannels(packet);
    Ok((bits, next.1))
  }

  /** Eight zero bytes are 64 digitals that are all off. */
  lemma ZeroDigitals(packet: Bytes)
    requires |packet| >= 8 && forall k :: 0 <= k < 8 ==> packet[k] == 0
    ensures ReadDigitals(packet).Ok?
    ensures forall i :: 0 <= i < 64 ==> !ReadDigitals(packet).value.0[i]
  {
    forall i | 0 <= i < 64 ensures !Bit(packet[i / 8], 7 - i % 8) {
      ZeroHasNoBits(7 - i % 8);
    }
  }

  lemma {:induction false} ZeroHasNoBits(k: nat)
    ensures !Bit(0, k)
  {
    if k > 0 {
      ZeroHasNoBits(k - 1);
    }
  }

  /**
   * `_parse_packet`: read the header, then the floats, the integers and the
   * digitals; the first IndexError ends the reading and the lists not yet
   * read stay empty.
   */
  method ParsePacket(packet: Bytes) returns (pack: Parsed)
    ensures pack == Decode(packet)
  {
    var floats: seq<IeeeFields> := [];
    var ints: seq<nat> := [];
    var digitals: seq<bool> := [];
    pack := Parsed(floats, ints, digitals);
    var packetLen := ReadInt(packet, 2);
    if packetLen.Err? {
      return;
    }
    var zeroFill := ReadBytes(packetLen.value.1, 1);
    if zeroFill.Err? {
      return;
    }
    var transCode := ReadBytes(zeroFill.value.1, 1);
    if transCode.Err? {
      return;
    }
    var body := transCode.value.1;
    assert body == packet[4..];
    var rf := ReadFloats(body);
    if rf.Err? {
      return;
    }
    floats := rf.value.0;
    pack := Parsed(floats, ints, digitals);
    assert rf.value.1 == packet[260..];
    var ri := ReadInts(rf.value.1);
    if ri.Err? {
      return;
    }
    ints := ri.value.0;
    pack := Parsed(floats, ints, digitals);
    assert ri.value.1 == packet[516..];
    var rd := ReadDigitals(ri.value.1);
    if rd.Err? {
      return;
    }
    digitals := rd.value.0;
    pack := Parsed(floats, ints, digitals);
  }

  /** Float k is the quadlet at byte 4 + 4k. */
  lemma DecodeFloatAt(p: Bytes, k: nat)
    requires |p| >= 260 && k < 64
    ensures Decode(p).floats[k] == FloatFields(p[4 + 4 * k .. 8 + 4 * k])
  {
    assert p[4..][4 * k .. 4 * k + 4] == p[4 + 4 * k .. 8 + 4 * k];
  }

  /** Integer k is the big-endian quadlet at byte 260 + 4k, below 2^32. */
  lemma DecodeIntAt(p: Bytes, k: nat)
    requires |p| >= 516 && k < 64
    ensures Decode(p).ints[k] == BigEndian(p[260 + 4 * k .. 264 + 4 * k])
    ensures Decode(p).ints[k] < 0x1_0000_0000
  {
    assert p[260..][4 * k .. 4 * k + 4] == p[260 + 4 * k .. 264 + 4 * k];
    assert Pow256(4) == 0x1_0000_0000;
  }

  /** Digital k is bit 7 - k % 8 of byte 516 + k / 8: byte by byte, high bit first. */
  lemma DecodeDigitalAt(p: Bytes, k: nat)
    requires |p| >= 524 && k < 64
    ensures Decode(p).digitals[k] == Bit(p[516 + k / 8], 7 - k % 8)
  {
    DigitalChannelAt(p[516..], k);
  }

  lemma DigitalChannelAt(d: Bytes, k: nat)
    requires |d| >= 8 && k < 64
    ensures DigitalChannels(d)[k] == Bit(d[k / 8], 7 - k % 8)
  {
  }

  /** The length field, the zero fill and the transaction code never change the result. */
  lemma DecodeIgnoresHeader(p: Bytes, q: Bytes)
    requires |p| >= 4 && |q| == |p| && p[4..] == q[4..]
    ensures Decode(p) == Decode(q)
  {
    if |p| >= 260 {
      assert p[260..] == p[4..][256..];
      assert q[260..] == q[4..][256..];
    }
    if |p| >= 516 {
      assert p[516..] == p[4..][512..];
      assert q[516..] == q[4..][512..];
    }
  }

  // ---------------------------------------------------------------------
  // Mapping inputs onto the output dict (`OptoReader._handle_input`)
  // ---------------------------------------------------------------------

  /** `OptoInputType`; its `.value` indexes `[floats, ints, digitals]`. */
  datatype OptoInputType = Float | Integer | Digital {
    function Value(): (v: nat)
      ensures v < 3
    {
      match this
      case Float => 0
      case Integer => 1
      case Digital => 2
    }
  }

  /** One configured input: the dict key, the channel index and the list it reads. */
  datatype OptoInput = OptoInput(title: string, index: int, kind: OptoInputType)

  /** A channel value as it lands in the output dict. */
  datatype ChannelValue = FloatValue(fields: IeeeFields) | IntValue(n: nat) | DigitalValue(on: bool)

  function FloatValues(fs: seq<IeeeFields>): (vs: seq<ChannelValue>)
    ensures |vs| == |fs| && forall k :: 0 <= k < |fs| ==> vs[k] == FloatValue(fs[k])
  {
    seq(|fs|, k requires 0 <= k < |fs| => FloatValue(fs[k]))
  }

  function IntValues(ns: seq<nat>): (vs: seq<ChannelValue>)
    ensures |vs| == |ns| && forall k :: 0 <= k < |ns| ==> vs[k] == IntValue(ns[k])
  {
    seq(|ns|, k requires 0 <= k < |ns| => IntValue(ns[k]))
  }

  function DigitalValues(ds: seq<bool>): (vs: seq<ChannelValue>)
    ensures |vs| == |ds| && forall k :: 0 <= k < |ds| ==> vs[k] == DigitalValue(ds[k])
  {
    seq(|ds|, k requires 0 <= k < |ds| => DigitalValue(ds[k]))
  }

  /** `source_lists[opto_in.type.value]` with `source_lists = [floats, ints, digitals]`. */
  function SourceList(pack: Parsed, kind: OptoInputType): (l: seq<ChannelValue>)
    ensures kind == Float ==> l == FloatValues(pack.floats)
    ensures kind == Integer ==> l == IntValues(pack.ints)
    ensures kind == Digital ==> l == DigitalValues(pack.digitals)
  {
    [FloatValues(pack.floats), IntValues(pack.ints), DigitalValues(pack.digitals)][kind.Value()]
  }

  /** The `_set_dict_val` calls `_handle_input` makes, in configuration order. */
  function Picks(inputs: seq<OptoInput>, pack: Parsed): (ps: seq<Pick<ChannelValue>>)
    ensures |ps| == |inputs|
    ensures forall i :: 0 <= i < |inputs| ==>
              ps[i] == Pick(inputs[i].title, inputs[i].index, SourceList(pack, inputs[i].kind))
  {
    seq(|inputs|, i requires 0 <= i < |inputs| =>
      Pick(inputs[i].title, inputs[i].index, SourceList(pack, inputs[i].kind)))
  }

  /**
   * `_handle_input(floats, ints, digitals)`: fill a fresh dict input by
   * input and emit it as the one signal of this call.  An IndexError from a
   * negative index escapes, and then no signal is emitted.
   */
  method HandleInput(inputs: seq<OptoInput>, floats: seq<IeeeFields>, ints: seq<nat>,
                     digitals: seq<bool>)
    returns (signal: Result<Dict<ChannelValue>, ReadError>)
    ensures signal == FillDict(Picks(inputs, Parsed(floats, ints, digitals)))
  {
    var pack := Parsed(floats, ints, digitals);
    var sigOut: Dict<ChannelValue> := EmptyDict();
    var sourceLists := [FloatValues(floats), IntValues(ints), DigitalValues(digitals)];
    for i := 0 to |inputs|
      invariant FillDict(Picks(inputs[..i], pack)) == Ok(sigOut)
    {
      var optoIn := inputs[i];
      assert Picks(inputs[..i + 1], pack)[..i] == Picks(inputs[..i], pack);
      assert sourceLists[optoIn.kind.Value()] == SourceList(pack, optoIn.kind);
      var step := SetDictVal(sigOut, sourceLists[optoIn.kind.Value()], optoIn.index, optoIn.title);
      if step.Err? {
        assert Raises(Picks(inputs, pack)[i]);
        PrefixRaises(Picks(inputs, pack), i);
        assert FillDict(Picks(inputs, pack)).error == IndexError;
        return Err(step.error);
      }
      sigOut := step.value;
    }
    assert inputs[..|inputs|] == inputs;
    return Ok(sigOut);
  }

  /** A pick that raises makes the whole dict construction raise. */
  lemma PrefixRaises(picks: seq<Pick<ChannelValue>>, i: nat)
    requires i < |picks| && Raises(picks[i])
    ensures FillDict(picks).Err?
  {
    FillDictFails(picks);
  }

  /**
   * For each input, FLOAT reads the float list, INTEGER the integer list and
   * DIGITAL the digital list; inputs are applied in order, so among inputs
   * with one title the last that writes decides the value.
   */
  lemma HandleInputValue(inputs: seq<OptoInput>, pack: Parsed, i: nat)
    requires FillDict(Picks(inputs, pack)).Ok?
    requires i < |inputs| && 0 <= inputs[i].index < |SourceList(pack, inputs[i].kind)|
    requires forall j :: i < j < |inputs| && inputs[j].title == inputs[i].title ==>
               inputs[j].index >= |SourceList(pack, inputs[j].kind)|
    ensures inputs[i].title in FillDict(Picks(inputs, pack)).value.vals
    ensures var v := FillDict(Picks(inputs, pack)).value.vals[inputs[i].title];
            match inputs[i].kind
            case Float => v == FloatValue(pack.floats[inputs[i].index])
            case Integer => v == IntValue(pack.ints[inputs[i].index])
            case Digital => v == DigitalValue(pack.digitals[inputs[i].index])
  {
    var picks := Picks(inputs, pack);
    forall j | i < j < |picks| && picks[j].key == picks[i].key ensures !Writes(picks[j]) {
      assert inputs[j].title == inputs[i].title;
    }
    FillDictLastWriteWins(picks, i);
  }

  /** The output keys are titles of inputs whose index was in range, each once. */
  lemma HandleInputKeys(inputs: seq<OptoInput>, pack: Parsed)
    requires FillDict(Picks(inputs, pack)).Ok?
    ensures WellFormed(FillDict(Picks(inputs, pack)).value)
    ensures |FillDict(Picks(inputs, pack)).value.keys| <= |inputs|
    ensures forall k :: k in FillDict(Picks(inputs, pack)).value.vals ==>
              exists i :: 0 <= i < |inputs| && inputs[i].title == k
                          && inputs[i].index < |SourceList(pack, inputs[i].kind)|
  {
    var picks := Picks(inputs, pack);
    FillDictKeys(picks);
    forall k | k in FillDict(picks).value.vals
      ensures exists i :: 0 <= i < |inputs| && inputs[i].title == k
                          && inputs[i].index < |SourceList(pack, inputs[i].kind)|
    {
      var i :| 0 <= i < |picks| && picks[i].key == k && Writes(picks[i]);
      assert inputs[i].title == k;
    }
  }

  /** `_handle_input` raises exactly when some input's index is below minus its list's length. */
  lemma HandleInputRaises(inputs: seq<OptoInput>, pack: Parsed)
    ensures FillDict(Picks(inputs, pack)).Err? <==>
              exists i :: 0 <= i < |inputs| && inputs[i].index < -|SourceList(pack, inputs[i].kind)|
  {
    var picks := Picks(inputs, pack);
    FillDictFails(picks);
    if exists i :: 0 <= i < |inputs| && inputs[i].index < -|SourceList(pack, inputs[i].kind)| {
      var i :| 0 <= i < |inputs| && inputs[i].index < -|SourceList(pack, inputs[i].kind)|;
      assert Raises(picks[i]);
    }
  }

  // ---------------------------------------------------------------------
  // `handle`: one datagram in, one signal out
  // ---------------------------------------------------------------------

  /**
   * `OptoDataHandler.handle` with the notifier `OptoReader._handle_input`:
   * strip the datagram, parse it and map it.  `if pack and len(pack)` always
   * holds, because `_parse_packet` returns a three-element list, so every
   * datagram is handed on, even one that decoded to three empty lists.
   */
  method Handle(inputs: seq<OptoInput>, datagram: Bytes)
    returns (signal: Result<Dict<ChannelValue>, ReadError>)
    ensures signal == FillDict(Picks(inputs, Decode(Strip(datagram))))
  {
    var data := Strip(datagram);
    var pack := ParsePacket(data);
    signal := HandleInput(inputs, pack.floats, pack.ints, pack.digitals);
  }

  /**
   * As written, `handle` strips the datagram: a full 524-byte datagram whose
   * last digital byte happens to be ASCII whitespace comes out one byte
   * short, and all 64 digitals are lost.
   */
  lemma StripDropsDigitals(datagram: Bytes)
    requires |datagram| == 524 && IsSpace(datagram[523])
    ensures |Decode(datagram).digitals| == 64
    ensures Decode(Strip(datagram)).digitals == []
  {
    var r := Strip(datagram);
    if |r| == 524 {
      assert false;
    }
  }

  /** A datagram that shows it: channels 60 and 62 on, every other channel zero. */
  lemma StripDropsDigitalsWitness()
    ensures var d := [0x02, 0x0C, 0x00, 0xA0] + seq(519, k => 0) + [0x0A];
            |d| == 524 && Decode(d).digitals[60] && Decode(Strip(d)).digitals == []
  {
    var d: Bytes := [0x02, 0x0C, 0x00, 0xA0] + seq(519, k => 0) + [0x0A];
    StripDropsDigitals(d);
    assert Decode(d).digitals[60] == Bit(d[523], 3);
  }

  /**
   * `handle` without the strip: the datagram is parsed as received, so a
   * datagram of at least 524 bytes always yields all three lists in full.
   */
  method HandleUnstripped(inputs: seq<OptoInput>, datagram: Bytes)
    returns (signal: Result<Dict<ChannelValue>, ReadError>)
    ensures signal == FillDict(Picks(inputs, Decode(datagram)))
  {
    var pack := ParsePacket(datagram);
    signal := HandleInput(inputs, pack.floats, pack.ints, pack.digitals);
  }

  /** Every datagram of 524 bytes or more decodes to three full lists. */
  lemma FullDatagramDecodes(datagram: Bytes)
    requires |datagram| >= 524
    ensures |Decode(datagram).floats| == 64
    ensures |Decode(datagram).ints| == 64
    ensures |Decode(datagram).digitals| == 64
    ensures Decode(datagram).digitals == DigitalChannels(datagram[516..524])
  {
    assert datagram[516..524] == datagram[516..][..8];
  }
}
