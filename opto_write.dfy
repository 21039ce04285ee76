/**
 * The register writer of opto_write.py: `OptoWriter` turns each signal into
 * a 16-byte write-quadlet request (6 header bytes, a 6-byte destination
 * offset, 4 data bytes) and sends it over a TCP socket.  A failed catching
 * send reconnects, then resends the packet exactly once without catching.
 * A successful connect sends the power-up-clear (PUC) request the PAC
 * expects first, whenever the PUC can be built; that PUC send is itself
 * catching, so it may reconnect again.
 *
 * The socket is an oracle: a sequence of outcomes consumed in order, one by
 * each `connect` and each `sendall`; `true` is success.  Once the oracle is
 * exhausted every further operation fails without consuming anything.
 * What went over the wire is a trace of events.
 */
module OptoWrite {
  import opened Wrappers
  import opened Bytes

  // ---------------------------------------------------------------------
  // `_build_packet`
  // ---------------------------------------------------------------------

  /** The `prefix` and `suffix` properties around every destination address. */
  datatype WriterConfig = WriterConfig(prefix: string, suffix: string)

  /** The default properties: prefix "FFFF", empty suffix. */
  const DefaultConfig := WriterConfig("FFFF", "")

  /** destination_id 00 00, transaction label F8, tcode/pri 00, source_id 00 00. */
  const Header: Bytes := [0x00, 0x00, 0xF8, 0x00, 0x00, 0x00]

  /** The address and data of the power-up-clear request. */
  const PucAddress := "F0380000"
  const PucData := "00000001"

  /**
   * Why a packet could not be built: fromhex raised ValueError, or the
   * offset or the quadlet decoded to the wrong length (PACException).
   */
  datatype BuildError = HexError | OffsetLength(offsetLength: nat) | QuadletLength(quadletLength: nat)

  /** `bytearray.fromhex` with its ValueError as a BuildError. */
  function DecodeHex(s: string): (r: Result<Bytes, BuildError>)
    ensures r.Ok? <==> FromHex(s).Some?
    ensures r.Ok? ==> r.value == FromHex(s).value
    ensures r.Err? ==> r.error == HexError
  {
    match FromHex(s)
    case None => Err(HexError)
    case Some(b) => Ok(b)
  }

  /**
   * `_build_packet(address, write)`: the header, then the decoded
   * prefix + address + suffix, which must be 6 bytes, then the decoded
   * write value, which must be 4 bytes.  The offset is decoded and checked
   * before the quadlet is looked at.
   */
  function BuildPacket(cfg: WriterConfig, address: string, write: string): (r: Result<Bytes, BuildError>)
    ensures r.Ok? ==> |r.value| == 16 && r.value[..6] == Header
    ensures r.Ok? <==> && FromHex(cfg.prefix + address + cfg.suffix).Some?
                       && |FromHex(cfg.prefix + address + cfg.suffix).value| == 6
                       && FromHex(write).Some? && |FromHex(write).value| == 4
    ensures r.Ok? ==> && r.value[6..12] == FromHex(cfg.prefix + address + cfg.suffix).value
                      && r.value[12..] == FromHex(write).value
    ensures FromHex(cfg.prefix + address + cfg.suffix).None? ==> r == Err(HexError)
    ensures FromHex(cfg.prefix + address + cfg.suffix).Some?
            && |FromHex(cfg.prefix + address + cfg.suffix).value| != 6 ==>
              r == Err(OffsetLength(|FromHex(cfg.prefix + address + cfg.suffix).value|))
    ensures && FromHex(cfg.prefix + address + cfg.suffix).Some?
            && |FromHex(cfg.prefix + address + cfg.suffix).value| == 6 ==>
              && (FromHex(write).None? ==> r == Err(HexError))
              && (FromHex(write).Some? && |FromHex(write).value| != 4 ==>
                    r == Err(QuadletLength(|FromHex(write).value|)))
  {
    var dOff :- DecodeHex(cfg.prefix + address + cfg.suffix);
    if |dOff| != 6 then
      Err(OffsetLength(|dOff|))
    else
      var quadData :- DecodeHex(write);
      if |quadData| != 4 then
        Err(QuadletLength(|quadData|))
      else
        Ok(Header + dOff + quadData)
  }

  /**
   * Any 6-byte offset and 4-byte quadlet can be written: with hex prefix and
   * suffix, the address spelled by hexlify and the data spelled by hexlify
   * build the frame that carries exactly those bytes.
   */
  lemma BuildPacketRoundTrip(cfg: WriterConfig, pre: Bytes, addr: Bytes, suf: Bytes, quad: Bytes)
    requires FromHex(cfg.prefix) == Some(pre) && FromHex(cfg.suffix) == Some(suf)
    requires |pre| + |addr| + |suf| == 6 && |quad| == 4
    ensures BuildPacket(cfg, Hexlify(addr), Hexlify(quad)) == Ok(Header + (pre + addr + suf) + quad)
  {
    OffsetRoundTrip(cfg, pre, addr, suf);
    HexlifyRoundTrip(quad);
    assert DecodeHex(cfg.prefix + Hexlify(addr) + cfg.suffix) == Ok(pre + addr + suf);
    assert DecodeHex(Hexlify(quad)) == Ok(quad);
  }

  /** The destination offset decodes to prefix, address and suffix bytes in that order. */
  lemma OffsetRoundTrip(cfg: WriterConfig, pre: Bytes, addr: Bytes, suf: Bytes)
    requires FromHex(cfg.prefix) == Some(pre) && FromHex(cfg.suffix) == Some(suf)
    ensures FromHex(cfg.prefix + Hexlify(addr) + cfg.suffix) == Some(pre + addr + suf)
  {
    var h := Hexlify(addr);
    FromHexDefined(cfg.prefix);
    HexlifyRoundTrip(addr);
    FromHexConcat(cfg.prefix, h);
    assert FromHex(cfg.prefix + h) == Some(pre + addr);
    var ph := cfg.prefix + h;
    assert |ph| == |cfg.prefix| + 2 * |addr|;
    assert |ph| % 2 == 0;
    FromHexConcat(ph, cfg.suffix);
  }

  /** One pair of hex digits decodes to one byte. */
  lemma HexPair(hi: char, lo: char)
    requires IsHexDigit(hi) && IsHexDigit(lo)
    ensures FromHex([hi, lo]) == Some([HexPairValue(hi, lo)])
  {
    assert [hi, lo][2..] == [];
    assert [HexPairValue(hi, lo)] + [] == [HexPairValue(hi, lo)];
  }

  /**
   * The PUC request.  Its data always decodes, so only a prefix or suffix
   * that does not make a 6-byte offset around the PUC address can stop it.
   */
  function PowerUpClear(cfg: WriterConfig): (r: Result<Bytes, BuildError>)
    ensures r.Ok? <==> FromHex(cfg.prefix + PucAddress + cfg.suffix).Some?
                       && |FromHex(cfg.prefix + PucAddress + cfg.suffix).value| == 6
    ensures r.Ok? ==> |r.value| == 16 && r.value[12..] == [0x00, 0x00, 0x00, 0x01]
  {
    PucDataHex();
    BuildPacket(cfg, PucAddress, PucData)
  }

  /** With the default properties the PUC is offset FF FF F0 38 00 00, data 00 00 00 01. */
  lemma DefaultPowerUpClear()
    ensures PowerUpClear(DefaultConfig)
            == Ok([0x00, 0x00, 0xF8, 0x00, 0x00, 0x00,
                   0xFF, 0xFF, 0xF0, 0x38, 0x00, 0x00,
                   0x00, 0x00, 0x00, 0x01])
  {
    PucOffsetHex();
    PucDataHex();
    assert DecodeHex("FFFF" + PucAddress + "") == Ok([0xFF, 0xFF, 0xF0, 0x38, 0x00, 0x00]);
    assert DecodeHex(PucData) == Ok([0x00, 0x00, 0x00, 0x01]);
    assert DefaultConfig.prefix + PucAddress + DefaultConfig.suffix == "FFFF" + PucAddress + "";
    assert Header + [0xFF, 0xFF, 0xF0, 0x38, 0x00, 0x00] + [0x00, 0x00, 0x00, 0x01]
           == [0x00, 0x00, 0xF8, 0x00, 0x00, 0x00,
               0xFF, 0xFF, 0xF0, 0x38, 0x00, 0x00,
               0x00, 0x00, 0x00, 0x01];
  }

  lemma PucOffsetHex()
    ensures FromHex("FFFF" + PucAddress + "") == Some([0xFF, 0xFF, 0xF0, 0x38, 0x00, 0x00])
  {
    FourPairs('F', 'F', 'F', 'F', 'F', '0', '3', '8');
    FourPairs('F', 'F', '0', '0', '0', '0', '0', '0');
    assert PucAddress == ['F', '0', '3', '8'] + ['0', '0', '0', '0'];
    FromHexConcat(['F', '0', '3', '8'], ['0', '0', '0', '0']);
    assert "FFFF" == ['F', 'F', 'F', 'F'];
    assert HexPairValue('F', 'F') == 0xFF && HexPairValue('F', '0') == 0xF0;
    assert HexPairValue('3', '8') == 0x38 && HexPairValue('0', '0') == 0;
    assert [0xF0, 0x38] + [0x00, 0x00] == [0xF0, 0x38, 0x00, 0x00];
    assert FromHex(PucAddress) == Some([0xF0, 0x38, 0x00, 0x00]);
    assert FromHex("FFFF") == Some([0xFF, 0xFF]);
    FromHexConcat("FFFF", PucAddress);
    assert "FFFF" + PucAddress + "" == "FFFF" + PucAddress;
    assert [0xFF, 0xFF] + [0xF0, 0x38, 0x00, 0x00] == [0xFF, 0xFF, 0xF0, 0x38, 0x00, 0x00];
  }

  lemma PucDataHex()
    ensures FromHex(PucData) == Some([0x00, 0x00, 0x00, 0x01])
  {
    FourPairs('0', '0', '0', '0', '0', '0', '0', '1');
    assert PucData == ['0', '0', '0', '0'] + ['0', '0', '0', '1'];
    FromHexConcat(['0', '0', '0', '0'], ['0', '0', '0', '1']);
    assert HexPairValue('0', '0') == 0 && HexPairValue('0', '1') == 1;
    assert [0, 0] + [0, 1] == [0x00, 0x00, 0x00, 0x01];
  }

  /** Two pairs of hex digits decode to two bytes, for two such quartets. */
  lemma FourPairs(a: char, b: char, c: char, d: char, e: char, f: char, g: char, h: char)
    requires IsHexDigit(a) && IsHexDigit(b) && IsHexDigit(c) && IsHexDigit(d)
    requires IsHexDigit(e) && IsHexDigit(f) && IsHexDigit(g) && IsHexDigit(h)
    ensures FromHex([a, b, c, d]) == Some([HexPairValue(a, b), HexPairValue(c, d)])
    ensures FromHex([e, f, g, h]) == Some([HexPairValue(e, f), HexPairValue(g, h)])
  {
    HexPair(a, b);
    HexPair(c, d);
    HexPair(e, f);
    HexPair(g, h);
    assert [a, b, c, d] == [a, b] + [c, d];
    assert [e, f, g, h] == [e, f] + [g, h];
    FromHexConcat([a, b], [c, d]);
    FromHexConcat([e, f], [g, h]);
    assert [HexPairValue(a, b)] + [HexPairValue(c, d)] == [HexPairValue(a, b), HexPairValue(c, d)];
    assert [HexPairValue(e, f)] + [HexPairValue(g, h)] == [HexPairValue(e, f), HexPairValue(g, h)];
  }

  // ---------------------------------------------------------------------
  // Socket outcomes and the retry rule
  // ---------------------------------------------------------------------

  /** Something that happened on the socket, with whether it succeeded. */
  datatype Event = Connect(connected: bool) | Sendall(packet: Bytes, delivered: bool)

  /** The events of a call and the outcomes it left unconsumed. */
  datatype Run = Run(events: seq<Event>, rest: seq<bool>)

  /** The outcome of the next socket operation; an exhausted oracle fails. */
  function Head(o: seq<bool>): bool
  {
    o != [] && o[0]
  }

  /** The outcomes after the next one. */
  function Tail(o: seq<bool>): (t: seq<bool>)
    ensures |t| <= |o| && (o != [] ==> |t| < |o|)
  {
    if o == [] then [] else o[1..]
  }

  /**
   * `_connect_socket`: connect; on success send the PUC with
   * `catch_exception=True`.  A failed connect, and a PUC that cannot be
   * built, are caught here and end the call.
   */
  function ConnectRun(cfg: WriterConfig, o: seq<bool>): (r: Run)
    ensures |r.rest| <= |o|
    ensures r.events != [] && r.events[0] == Connect(Head(o))
    ensures !Head(o) ==> r.events == [Connect(false)]
    ensures Head(o) && PowerUpClear(cfg).Ok? ==>
              |r.events| >= 2 && r.events[1] == Sendall(PowerUpClear(cfg).value, Head(Tail(o)))
    decreases |o|, 1
  {
    if !Head(o) then
      Run([Connect(false)], Tail(o))
    else
      match PowerUpClear(cfg)
      case Err(_) => Run([Connect(true)], Tail(o))
      case Ok(puc) =>
        var s := SendRun(cfg, Tail(o), puc, true);
        Run([Connect(true)] + s.events, s.rest)
  }

  /**
   * `_send_packet(packet, catch_exception)`: one `sendall`; when it fails
   * and `catch` is set, reconnect and make one more attempt with `catch`
   * cleared, whose failure is swallowed.  It never raises.
   */
  function SendRun(cfg: WriterConfig, o: seq<bool>, p: Bytes, catch: bool): (r: Run)
    ensures |r.rest| <= |o|
    ensures r.events != [] && r.events[0] == Sendall(p, Head(o))
    ensures Head(o) || !catch ==> r.events == [Sendall(p, Head(o))]
    decreases |o|, if catch then 3 else 0
  {
    if Head(o) || !catch then
      Run([Sendall(p, Head(o))], Tail(o))
    else
      var retry := RetryRun(cfg, Tail(o), p);
      Run([Sendall(p, false)] + retry.events, retry.rest)
  }

  /** The `except` branch of a catching send: reconnect, then one non-catching send of p. */
  function RetryRun(cfg: WriterConfig, o: seq<bool>, p: Bytes): (r: Run)
    ensures |r.rest| <= |o|
    ensures r.events != []
    decreases |o|, 2
  {
    var c := ConnectRun(cfg, o);
    var s := SendRun(cfg, c.rest, p, false);
    Run(c.events + s.events, s.rest)
  }

  /** A send, retry included, always ends with an attempt to send its packet. */
  lemma SendRunEndsWithSend(cfg: WriterConfig, o: seq<bool>, p: Bytes, catch: bool)
    ensures var e := SendRun(cfg, o, p, catch).events;
            e[|e| - 1].Sendall? && e[|e| - 1].packet == p
  {
    if !Head(o) && catch {
      RetryRunEndsWithSend(cfg, Tail(o), p);
      var retry := RetryRun(cfg, Tail(o), p);
      assert SendRun(cfg, o, p, catch).events == [Sendall(p, false)] + retry.events;
    }
  }

  /** The retry ends with its non-catching send of p. */
  lemma RetryRunEndsWithSend(cfg: WriterConfig, o: seq<bool>, p: Bytes)
    ensures var e := RetryRun(cfg, o, p).events;
            e[|e| - 1].Sendall? && e[|e| - 1].packet == p
  {
    var c := ConnectRun(cfg, o);
    var s := SendRun(cfg, c.rest, p, false);
    assert s.events == [Sendall(p, Head(c.rest))];
    assert RetryRun(cfg, o, p).events == c.events + s.events;
  }

  /** A connect ends on a successful `connect` only when the PUC could not be built. */
  lemma ConnectRunEnd(cfg: WriterConfig, o: seq<bool>)
    ensures var e := ConnectRun(cfg, o).events;
            e[|e| - 1] == Connect(true) ==> PowerUpClear(cfg).Err?
  {
    if Head(o) && PowerUpClear(cfg).Ok? {
      var s := SendRun(cfg, Tail(o), PowerUpClear(cfg).value, true);
      SendRunEndsWithSend(cfg, Tail(o), PowerUpClear(cfg).value, true);
      assert ConnectRun(cfg, o).events == [Connect(true)] + s.events;
    }
  }

  /** The three ways a connect goes. */
  lemma ConnectRunSteps(cfg: WriterConfig, o: seq<bool>)
    ensures !Head(o) ==> ConnectRun(cfg, o) == Run([Connect(false)], Tail(o))
    ensures Head(o) && PowerUpClear(cfg).Err? ==> ConnectRun(cfg, o) == Run([Connect(true)], Tail(o))
    ensures Head(o) && PowerUpClear(cfg).Ok? ==>
              ConnectRun(cfg, o) == Run([Connect(true)] + SendRun(cfg, Tail(o), PowerUpClear(cfg).value, true).events,
                                        SendRun(cfg, Tail(o), PowerUpClear(cfg).value, true).rest)
  {
  }

  /** One `sendall`, and on a caught failure the retry after it. */
  lemma SendRunStep(cfg: WriterConfig, o: seq<bool>, p: Bytes, catch: bool)
    ensures Head(o) || !catch ==> SendRun(cfg, o, p, catch) == Run([Sendall(p, Head(o))], Tail(o))
    ensures !Head(o) && catch ==>
              SendRun(cfg, o, p, catch) == Run([Sendall(p, false)] + RetryRun(cfg, Tail(o), p).events,
                                               RetryRun(cfg, Tail(o), p).rest)
  {
  }

  /** How many attempts to send p the events hold. */
  function SendsOf(events: seq<Event>, p: Bytes): (n: nat)
    ensures n <= |events|
  {
    if events == [] then 0
    else
      var last := events[|events| - 1];
      SendsOf(events[..|events| - 1], p) + (if last.Sendall? && last.packet == p then 1 else 0)
  }

  lemma {:induction false} SendsOfConcat(a: seq<Event>, b: seq<Event>, p: Bytes)
    ensures SendsOf(a + b, p) == SendsOf(a, p) + SendsOf(b, p)
    decreases |b|
  {
    if b == [] {
      assert a + b == a;
    } else {
      assert (a + b)[..|a + b| - 1] == a + b[..|b| - 1];
      SendsOfConcat(a, b[..|b| - 1], p);
    }
  }

  lemma {:induction false} NoSendsOf(events: seq<Event>, p: Bytes)
    requires forall i :: 0 <= i < |events| && events[i].Sendall? ==> events[i].packet != p
    ensures SendsOf(events, p) == 0
    decreases |events|
  {
    if events != [] {
      NoSendsOf(events[..|events| - 1], p);
    }
  }

  /** Every packet a connect sends is the PUC. */
  lemma {:induction false} ConnectSendsOnlyPuc(cfg: WriterConfig, o: seq<bool>)
    ensures forall i :: 0 <= i < |ConnectRun(cfg, o).events| && ConnectRun(cfg, o).events[i].Sendall? ==>
              PowerUpClear(cfg).Ok? && ConnectRun(cfg, o).events[i].packet == PowerUpClear(cfg).value
    decreases |o|, 1
  {
    if Head(o) && PowerUpClear(cfg).Ok? {
      var puc := PowerUpClear(cfg).value;
      SendSendsOnly(cfg, Tail(o), puc, true);
    }
  }

  /** Every packet a send of p puts on the wire is p itself or the PUC of a reconnect. */
  lemma {:induction false} SendSendsOnly(cfg: WriterConfig, o: seq<bool>, p: Bytes, catch: bool)
    ensures forall i :: 0 <= i < |SendRun(cfg, o, p, catch).events| && SendRun(cfg, o, p, catch).events[i].Sendall? ==>
              SendRun(cfg, o, p, catch).events[i].packet == p
              || (PowerUpClear(cfg).Ok? && SendRun(cfg, o, p, catch).events[i].packet == PowerUpClear(cfg).value)
    decreases |o|, if catch then 3 else 0
  {
    if !Head(o) && catch {
      var c := ConnectRun(cfg, Tail(o));
      var s := SendRun(cfg, c.rest, p, false);
      ConnectSendsOnlyPuc(cfg, Tail(o));
      assert SendRun(cfg, o, p, catch).events == [Sendall(p, false)] + (c.events + s.events);
    }
  }

  /**
   * The retry rule: a packet other than the PUC is attempted once when the
   * first `sendall` succeeds or `catch` is off, and exactly twice when a
   * catching send fails: the failure is followed at once by the reconnect's
   * `connect`, and one more attempt comes after it, whatever the reconnect does.
   */
  lemma RetryOnce(cfg: WriterConfig, o: seq<bool>, p: Bytes, catch: bool)
    requires PowerUpClear(cfg).Ok? ==> p != PowerUpClear(cfg).value
    ensures SendsOf(SendRun(cfg, o, p, catch).events, p) == if Head(o) || !catch then 1 else 2
    ensures !Head(o) && catch ==> && |SendRun(cfg, o, p, catch).events| >= 3
                                  && SendRun(cfg, o, p, catch).events[1] == Connect(Head(Tail(o)))
  {
    var r := SendRun(cfg, o, p, catch);
    if Head(o) || !catch {
      assert r.events == [Sendall(p, Head(o))];
      assert r.events[..0] == [];
    } else {
      var c := ConnectRun(cfg, Tail(o));
      var first, last := [Sendall(p, false)], [Sendall(p, Head(c.rest))];
      RetryEvents(cfg, o, p);
      ConnectSendsOnlyPuc(cfg, Tail(o));
      NoSendsOf(c.events, p);
      SendsOfConcat(first + c.events, last, p);
      SendsOfConcat(first, c.events, p);
      assert first[..0] == [] && last[..0] == [];
    }
  }

  /** A failed catching send: the failure, the reconnect, then one non-catching send of p. */
  lemma RetryEvents(cfg: WriterConfig, o: seq<bool>, p: Bytes)
    requires !Head(o)
    ensures var c := ConnectRun(cfg, Tail(o));
            SendRun(cfg, o, p, true).events == [Sendall(p, false)] + c.events + [Sendall(p, Head(c.rest))]
  {
    var c := ConnectRun(cfg, Tail(o));
    var s := SendRun(cfg, c.rest, p, false);
    assert s.events == [Sendall(p, Head(c.rest))];
    assert SendRun(cfg, o, p, true).events == [Sendall(p, false)] + (c.events + s.events);
  }

  /**
   * The PUC send inside a reconnect is itself catching: one failed send of p
   * can give two successful reconnects, with the PUC sent twice on the
   * second connection, before p is resent once.
   */
  lemma NestedReconnect(cfg: WriterConfig, p: Bytes)
    requires PowerUpClear(cfg).Ok?
    ensures SendRun(cfg, [false, true, false, true, true, true], p, true).events
            == [Sendall(p, false), Connect(true), Sendall(PowerUpClear(cfg).value, false), Connect(true),
                Sendall(PowerUpClear(cfg).value, true), Sendall(PowerUpClear(cfg).value, true), Sendall(p, false)]
  {
    var puc := PowerUpClear(cfg).value;
    var pucSend := SendRun(cfg, [false, true, true, true], puc, true);
    FailedPucSend(cfg, puc);
    // the first reconnect, and the final non-catching resend of p
    var first := ConnectRun(cfg, [true, false, true, true, true]);
    assert first == Run([Connect(true)] + pucSend.events, []);
    var last := SendRun(cfg, [], p, false);
    assert last == Run([Sendall(p, false)], []);
    var retry := RetryRun(cfg, [true, false, true, true, true], p);
    assert retry.events == first.events + last.events;
  }

  /** A PUC send that fails once: a reconnect whose own PUC succeeds, then the resend. */
  lemma FailedPucSend(cfg: WriterConfig, puc: Bytes)
    requires PowerUpClear(cfg) == Ok(puc)
    ensures SendRun(cfg, [false, true, true, true], puc, true)
            == Run([Sendall(puc, false), Connect(true), Sendall(puc, true), Sendall(puc, true)], [])
  {
    var second := ConnectRun(cfg, [true, true, true]);
    assert SendRun(cfg, [true, true], puc, true) == Run([Sendall(puc, true)], [true]);
    assert second == Run([Connect(true), Sendall(puc, true)], [true]);
    assert SendRun(cfg, [true], puc, false) == Run([Sendall(puc, true)], []);
    var retry := RetryRun(cfg, [true, true, true], puc);
    assert retry == Run([Connect(true), Sendall(puc, true), Sendall(puc, true)], []);
  }

  /** Each successful connect that is not the last event is followed at once by an attempt to send the PUC. */
  ghost predicate PucAfterConnect(cfg: WriterConfig, events: seq<Event>)
    requires PowerUpClear(cfg).Ok?
  {
    forall i :: 0 <= i < |events| - 1 && events[i] == Connect(true) ==>
      events[i + 1].Sendall? && events[i + 1].packet == PowerUpClear(cfg).value
  }

  /** a followed by b keeps the property when b starts with the PUC wherever a ends in a successful connect. */
  ghost predicate Joins(cfg: WriterConfig, a: seq<Event>, b: seq<Event>)
    requires PowerUpClear(cfg).Ok?
  {
    a != [] && a[|a| - 1] == Connect(true) ==>
      b != [] && b[0].Sendall? && b[0].packet == PowerUpClear(cfg).value
  }

  lemma PucAfterConnectConcat(cfg: WriterConfig, a: seq<Event>, b: seq<Event>)
    requires PowerUpClear(cfg).Ok? && PucAfterConnect(cfg, a) && PucAfterConnect(cfg, b)
    requires Joins(cfg, a, b)
    ensures PucAfterConnect(cfg, a + b)
  {
    var ab := a + b;
    forall i | 0 <= i < |ab| - 1 && ab[i] == Connect(true)
      ensures ab[i + 1].Sendall? && ab[i + 1].packet == PowerUpClear(cfg).value
    {
      if i < |a| - 1 {
        assert a[i] == ab[i] && ab[i + 1] == a[i + 1];
      } else if i == |a| - 1 {
        assert a[|a| - 1] == ab[i];
        assert ab[i + 1] == b[0];
      } else {
        assert b[i - |a|] == ab[i];
        assert ab[i + 1] == b[i + 1 - |a|];
      }
    }
  }

  /**
   * Within a connect, a successful connect is always followed by an attempt
   * to send the PUC, and the connect never ends on a successful connect.
   */
  lemma {:induction false} ConnectPuc(cfg: WriterConfig, o: seq<bool>)
    requires PowerUpClear(cfg).Ok?
    ensures PucAfterConnect(cfg, ConnectRun(cfg, o).events)
    ensures ConnectRun(cfg, o).events[|ConnectRun(cfg, o).events| - 1] != Connect(true)
    decreases |o|, 1
  {
    if Head(o) {
      var puc := PowerUpClear(cfg).value;
      var s := SendRun(cfg, Tail(o), puc, true);
      SendPuc(cfg, Tail(o), puc, true);
      SendRunEndsWithSend(cfg, Tail(o), puc, true);
      assert s.events[0] == Sendall(puc, Head(Tail(o)));
      PucAfterConnectConcat(cfg, [Connect(true)], s.events);
      assert ConnectRun(cfg, o).events == [Connect(true)] + s.events;
    }
  }

  /** The same holds for every reconnect inside a send and its retry. */
  lemma {:induction false} SendPuc(cfg: WriterConfig, o: seq<bool>, p: Bytes, catch: bool)
    requires PowerUpClear(cfg).Ok?
    ensures PucAfterConnect(cfg, SendRun(cfg, o, p, catch).events)
    decreases |o|, if catch then 3 else 0
  {
    if !Head(o) && catch {
      var c := ConnectRun(cfg, Tail(o));
      var first, last := [Sendall(p, false)], [Sendall(p, Head(c.rest))];
      RetryEvents(cfg, o, p);
      ConnectPuc(cfg, Tail(o));
      PucAfterConnectConcat(cfg, first, c.events);
      assert (first + c.events)[|first + c.events| - 1] == c.events[|c.events| - 1];
      PucAfterConnectConcat(cfg, first + c.events, last);
    }
  }

  // ---------------------------------------------------------------------
  // `process_signals`
  // ---------------------------------------------------------------------

  /**
   * The `address` and `write` expressions evaluated on one signal; None is
   * an evaluation that raised.
   */
  datatype Signal = Signal(address: Option<string>, write: Option<string>)

  /** What became of one signal: sent (the send never raises), or skipped with the exception. */
  datatype Outcome = Sent(packet: Bytes) | EvalFailed | BuildFailed(error: BuildError)

  /** The packet a signal yields, or why it is skipped. */
  function Prepare(cfg: WriterConfig, sig: Signal): (out: Outcome)
    ensures out.Sent? <==> && sig.address.Some? && sig.write.Some?
                           && BuildPacket(cfg, sig.address.value, sig.write.value).Ok?
    ensures out.Sent? ==> out.packet == BuildPacket(cfg, sig.address.value, sig.write.value).value
  {
    if sig.address.None? || sig.write.None? then EvalFailed
    else
      match BuildPacket(cfg, sig.address.value, sig.write.value)
      case Err(e) => BuildFailed(e)
      case Ok(p) => Sent(p)
  }

  /** The outcome of each signal, the events on the wire and the outcomes left. */
  datatype Processed = Processed(outcomes: seq<Outcome>, events: seq<Event>, rest: seq<bool>)

  /** `process_signals(signals)`: each signal in order, its errors caught and logged. */
  function ProcessRun(cfg: WriterConfig, o: seq<bool>, signals: seq<Signal>): (r: Processed)
    ensures |r.outcomes| == |signals| && |r.rest| <= |o|
  {
    if signals == [] then
      Processed([], [], o)
    else
      var prev := ProcessRun(cfg, o, signals[..|signals| - 1]);
      var out := Prepare(cfg, signals[|signals| - 1]);
      if out.Sent? then
        var s := SendRun(cfg, prev.rest, out.packet, true);
        Processed(prev.outcomes + [out], prev.events + s.events, s.rest)
      else
        Processed(prev.outcomes + [out], prev.events, prev.rest)
  }

  /** Handling one more signal. */
  lemma ProcessRunStep(cfg: WriterConfig, o: seq<bool>, signals: seq<Signal>, i: nat)
    requires i < |signals|
    ensures var prev := ProcessRun(cfg, o, signals[..i]);
            var out := Prepare(cfg, signals[i]);
            ProcessRun(cfg, o, signals[..i + 1])
            == if out.Sent? then
                 Processed(prev.outcomes + [out], prev.events + SendRun(cfg, prev.rest, out.packet, true).events,
                           SendRun(cfg, prev.rest, out.packet, true).rest)
               else Processed(prev.outcomes + [out], prev.events, prev.rest)
  {
    assert signals[..i + 1][..i] == signals[..i];
  }

  /**
   * Error isolation: the outcome of each signal is what that signal alone
   * yields, so a failure on one signal never stops a later one from being
   * built and sent.
   */
  lemma {:induction false} ProcessIsolation(cfg: WriterConfig, o: seq<bool>, signals: seq<Signal>)
    ensures forall i :: 0 <= i < |signals| ==> ProcessRun(cfg, o, signals).outcomes[i] == Prepare(cfg, signals[i])
    decreases |signals|
  {
    if signals != [] {
      var init := signals[..|signals| - 1];
      ProcessIsolation(cfg, o, init);
      forall i | 0 <= i < |init| ensures init[i] == signals[i] {}
    }
  }

  /** Signals are handled in order: handling more signals only extends the trace. */
  lemma {:induction false} ProcessExtends(cfg: WriterConfig, o: seq<bool>, signals: seq<Signal>, more: seq<Signal>)
    ensures ProcessRun(cfg, o, signals).events <= ProcessRun(cfg, o, signals + more).events
    ensures ProcessRun(cfg, o, signals).outcomes <= ProcessRun(cfg, o, signals + more).outcomes
    decreases |more|
  {
    if more != [] {
      var m := more[..|more| - 1];
      assert (signals + more)[..|signals + more| - 1] == signals + m;
      ProcessExtends(cfg, o, signals, m);
    } else {
      assert signals + more == signals;
    }
  }

  /** A signal that is skipped puts nothing on the wire and consumes no outcome. */
  lemma SkippedSendsNothing(cfg: WriterConfig, o: seq<bool>, signals: seq<Signal>, sig: Signal)
    requires !Prepare(cfg, sig).Sent?
    ensures ProcessRun(cfg, o, signals + [sig]).events == ProcessRun(cfg, o, signals).events
    ensures ProcessRun(cfg, o, signals + [sig]).rest == ProcessRun(cfg, o, signals).rest
  {
    assert (signals + [sig])[..|signals|] == signals;
  }

  // ---------------------------------------------------------------------
  // The `OptoWriter` block
  // ---------------------------------------------------------------------

  class OptoWriter {
    /** the `prefix` and `suffix` properties */
    const cfg: WriterConfig
    /** the outcomes the socket will give, in order */
    var oracle: seq<bool>
    /** what has happened on the socket so far */
    var wire: seq<Event>

    /** `configure`: open the socket and connect, all failures caught. */
    constructor (cfg: WriterConfig, outcomes: seq<bool>)
      ensures this.cfg == cfg
      ensures wire == ConnectRun(cfg, outcomes).events && oracle == ConnectRun(cfg, outcomes).rest
    {
      this.cfg := cfg;
      oracle := outcomes;
      wire := [];
      new;
      ConnectSocket();
    }

    /** The outcome of the next socket operation, consumed. */
    method NextOutcome() returns (ok: bool)
      modifies this
      ensures ok == Head(old(oracle)) && oracle == Tail(old(oracle)) && wire == old(wire)
    {
      ok := oracle != [] && oracle[0];
      if oracle != [] {
        oracle := oracle[1..];
      }
    }

    /** `_connect_socket` */
    method ConnectSocket()
      modifies this
      ensures wire == old(wire) + ConnectRun(cfg, old(oracle)).events
      ensures oracle == ConnectRun(cfg, old(oracle)).rest
      decreases |oracle|, 1
    {
      ghost var o0, w0 := oracle, wire;
      var connected := NextOutcome();
      wire := wire + [Connect(connected)];
      if connected {
        ghost var w1, o1 := wire, oracle;
        var raised := SendPowerUpClear();
        ConnectRunSteps(cfg, o0);
        if raised.None? {
          ghost var s := SendRun(cfg, o1, PowerUpClear(cfg).value, true);
          assert wire == w1 + s.events;
          assert w1 + s.events == w0 + ([Connect(true)] + s.events);
        }
      } else {
        ConnectRunSteps(cfg, o0);
      }
    }

    /** `_send_power_up_clear`: the PUC build can raise; the send cannot. */
    method SendPowerUpClear() returns (raised: Option<BuildError>)
      modifies this
      ensures raised.Some? <==> PowerUpClear(cfg).Err?
      ensures raised.Some? ==> raised.value == PowerUpClear(cfg).error
      ensures raised.Some? ==> wire == old(wire) && oracle == old(oracle)
      ensures raised.None? ==>
                && wire == old(wire) + SendRun(cfg, old(oracle), PowerUpClear(cfg).value, true).events
                && oracle == SendRun(cfg, old(oracle), PowerUpClear(cfg).value, true).rest
      decreases |oracle|, 4
    {
      var puc := BuildPacket(cfg, PucAddress, PucData);
      if puc.Err? {
        return Some(puc.error);
      }
      SendPacket(puc.value, true);
      return None;
    }

    /** `_send_packet(packet, catch_exception)` */
    method SendPacket(packet: Bytes, catch: bool)
      modifies this
      ensures wire == old(wire) + SendRun(cfg, old(oracle), packet, catch).events
      ensures oracle == SendRun(cfg, old(oracle), packet, catch).rest
      decreases |oracle|, if catch then 3 else 0
    {
      ghost var o0, w0 := oracle, wire;
      var delivered := NextOutcome();
      wire := wire + [Sendall(packet, delivered)];
      SendRunStep(cfg, o0, packet, catch);
      if !delivered && catch {
        ghost var w1 := wire;
        Resend(packet);
        assert w1 + RetryRun(cfg, Tail(o0), packet).events
               == w0 + ([Sendall(packet, false)] + RetryRun(cfg, Tail(o0), packet).events);
      }
    }

    /** The `except` branch of a catching send: `_connect_socket()`, then `_send_packet(packet, False)`. */
    method Resend(packet: Bytes)
      modifies this
      ensures wire == old(wire) + RetryRun(cfg, old(oracle), packet).events
      ensures oracle == RetryRun(cfg, old(oracle), packet).rest
      decreases |oracle|, 2
    {
      ghost var o0, w0 := oracle, wire;
      ghost var c := ConnectRun(cfg, o0);
      ConnectSocket();
      ghost var e := SendRun(cfg, c.rest, packet, false).events;
      SendPacket(packet, false);
      assert w0 + c.events + e == w0 + (c.events + e);
    }

    /** The body of the `try` in `process_signals`: build the packet for one signal and send it. */
    method ProcessSignal(sig: Signal) returns (out: Outcome)
      modifies this
      ensures out == Prepare(cfg, sig)
      ensures out.Sent? ==> && wire == old(wire) + SendRun(cfg, old(oracle), out.packet, true).events
                            && oracle == SendRun(cfg, old(oracle), out.packet, true).rest
      ensures !out.Sent? ==> wire == old(wire) && oracle == old(oracle)
    {
      if sig.address.None? || sig.write.None? {
        return EvalFailed;
      }
      var pack := BuildPacket(cfg, sig.address.value, sig.write.value);
      if pack.Err? {
        return BuildFailed(pack.error);
      }
      SendPacket(pack.value, true);
      return Sent(pack.value);
    }

    /** `process_signals`: every signal in order, whatever became of the ones before. */
    method ProcessSignals(signals: seq<Signal>) returns (outcomes: seq<Outcome>)
      modifies this
      ensures outcomes == ProcessRun(cfg, old(oracle), signals).outcomes
      ensures wire == old(wire) + ProcessRun(cfg, old(oracle), signals).events
      ensures oracle == ProcessRun(cfg, old(oracle), signals).rest
    {
      ghost var o0, w0 := oracle, wire;
      outcomes := [];
      for i := 0 to |signals|
        invariant outcomes == ProcessRun(cfg, o0, signals[..i]).outcomes
        invariant wire == w0 + ProcessRun(cfg, o0, signals[..i]).events
        invariant oracle == ProcessRun(cfg, o0, signals[..i]).rest
      {
        ghost var prev := ProcessRun(cfg, o0, signals[..i]);
        ProcessRunStep(cfg, o0, signals, i);
        var out := ProcessSignal(signals[i]);
        if out.Sent? {
          ghost var e := SendRun(cfg, prev.rest, out.packet, true).events;
          assert w0 + prev.events + e == w0 + (prev.events + e);
        }
        outcomes := outcomes + [out];
      }
      assert signals[..|signals|] == signals;
    }
  }
}
