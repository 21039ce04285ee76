# Opto22 PAC blocks

A Dafny model of the three nio blocks that talk to an Opto22 PAC
(programmable automation controller), with proofs about the model.

- **Telemetry reader** (`opto_read.py`, module `OptoRead`). `OptoDataHandler`
  decodes one UDP datagram into three lists:
  - 64 IEEE-754 floats, kept as their sign/exponent/significand fields;
  - 64 unsigned 32-bit integers;
  - 64 digital states.

  `OptoReader._handle_input` then maps the configured inputs (title, index,
  type) onto one output dict per datagram.
- **Float-only reader** (`opto.py`, module `OptoFloat`). It reads only the
  floats and keeps a partial list when the datagram is short. The `OptoPAC`
  block buffers one dict per datagram in `_sigs_out`, and `_notify_floats`
  hands the buffer on as one batch and empties it. The buffer is the class
  `OptoFloat.OptoPac`, whose ghost history `received` proves that no record is
  lost, duplicated or reordered.
- **Register writer** (`opto_write.py`, module `OptoWrite`).
  - `_build_packet` builds the 16-byte write-quadlet request: 6 fixed header
    bytes, a 6-byte destination offset and 4 data bytes.
  - `_connect_socket`, `_send_power_up_clear` and `_send_packet` handle a
    failed send. A failed catching send reconnects, then resends the packet
    exactly once without catching. A successful connect sends the
    power-up-clear (PUC) request whenever the PUC can be built. That PUC send
    is itself catching, so it may reconnect again.
  - `process_signals` catches the error of each signal on its own.
  - The socket is an oracle: a sequence of success/failure outcomes that
    `connect` and `sendall` consume in order. What happens on the wire is a
    trace of events, and the class `OptoWrite.OptoWriter` holds both.

Shared pieces:
- `Bytes`: the `_read_bytes` cursor, big-endian integers, the IEEE field split,
  `bytes.strip()`, `binascii.hexlify` and `bytearray.fromhex`.
- `Dicts`: an insertion-ordered Python dict, Python list indexing and
  `_set_dict_val`.
- `Wrappers`: Option, Result and Python's IndexError.

Facts about the code that the proofs rely on:
- The write frame is 16 bytes: 6 header bytes, a 6-byte offset and 4 data
  bytes.
- `_parse_packet` in opto_read.py fills its three lists one after another.
  Each list stays empty unless its own read completed, and the lists read
  before an IndexError are kept.
- opto.py's `_parse_packet` keeps the floats read before an IndexError.

## Model

| member | source | states |
|---|---|---|
| Bytes.ReadBytes | opto_read.py:128-137 | fails with IndexError exactly when more bytes are asked for than remain; otherwise the taken part has the asked length, is the prefix, and taken ++ remainder is the packet (opto.py:93-102 is the same code) |
| Bytes.ReadInt | opto_read.py:134-135 | with `intify` the value is the big-endian integer of the first n bytes, below 256^n, and the remainder is what follows them; errors as for the plain read |
| Bytes.BigEndian | opto_read.py:90 | `int.from_bytes(s, 'big')` is below 256 to the power of the length of s |
| Bytes.BigEndianQuadlet | opto_read.py:90 | a quadlet reads with its first byte most significant: b0·2^24 + b1·2^16 + b2·2^8 + b3 |
| Bytes.FloatFields | opto_read.py:77-80 | sign < 2, exponent < 256, significand < 2^23, and sign·2^31 + exponent·2^23 + significand is the big-endian value of the 4 bytes |
| Bytes.Strip | opto_read.py:33 | the result is a contiguous slice starting after the leading whitespace; its ends are not whitespace; every non-whitespace byte survives |
| Bytes.StripIdentity | opto_read.py:33 | strip leaves a datagram unchanged exactly when it is empty or neither end is whitespace |
| Bytes.StripIdempotent | opto_read.py:33 | stripping twice equals stripping once |
| Bytes.Hexlify | opto_read.py:99 | hexlify writes two hex digits per byte |
| Bytes.HexlifyPairs | opto_read.py:99-101 | digit pair k of the hexlified bytes, read with `int(x, 16)`, is byte k |
| Bytes.FromHexDefined | opto_write.py:71-72 | fromhex succeeds exactly on even-length strings of hex digits, giving half as many bytes as digits |
| Bytes.FromHexPairs | opto_write.py:71-72 | a successful fromhex gives half as many bytes as digits, and byte k is the value of digit pair k |
| Bytes.HexlifyRoundTrip | opto_write.py:71-72 | fromhex inverts hexlify: fromhex(hexlify(b)) = b |
| Bytes.FromHexConcat | opto_write.py:71-72 | decoding prefix + address + suffix, an even-length part first, is decoding the parts and joining them; it fails if a part fails |
| Bytes.BinaryDigitsAt | opto_read.py:100-101 | digit j of `'{0:08b}'` of v is '1' exactly when bit 7 - j of v is set |
| Bytes.BinaryDigits | opto_read.py:100 | `'{0:08b}'` gives exactly width characters, each '0' or '1' |
| Dicts.Put | opto_read.py:211 | `d[k] = v` sets k to v, keeps every other key and value, appends a new key after the existing ones, and keeps the dict well formed |
| Dicts.PyIndex | opto_read.py:211 | Python list indexing succeeds exactly for -len ≤ i < len, and returns s[i] for i ≥ 0 and s[len + i] for negative i |
| Dicts.SetDictVal | opto_read.py:210-211 | raises exactly when index < -len; leaves the dict unchanged when index ≥ len; otherwise writes key := from_list[index] (Python indexing), changes no other key and keeps the dict well formed |
| Dicts.FillDict | opto_read.py:218-223 | the dict built input by input is always well formed: its key order lists each key once, and exactly the keys that have a value |
| Dicts.FillDictFails | opto_read.py:218-223 | filling the dict input by input raises exactly when some input raises |
| Dicts.FillDictKeys | opto_read.py:215-223 | the filled dict is well formed, has at most one key per input, and every key belongs to an input that wrote |
| Dicts.FillDictLastWriteWins | opto_read.py:218-223 | a key holds the value its input read, unless a later input with the same key also wrote |
| OptoRead.ReadFloats | opto_read.py:68-75 | fails exactly when fewer than 256 bytes remain; otherwise float k holds the IEEE fields of the quadlet at byte 4k, and exactly 256 bytes are consumed |
| OptoRead.ReadInts | opto_read.py:84-92 | fails exactly when fewer than 256 bytes remain; otherwise int k is the big-endian quadlet at byte 4k, below 2^32, and exactly 256 bytes are consumed |
| OptoRead.BinaryString | opto_read.py:100-101 | the joined bit string has four bits per hex digit |
| OptoRead.BinaryStringAt | opto_read.py:100-101 | character 8k + j of the joined bit string is digit j of `'{0:08b}'` of hex pair k |
| OptoRead.DigitalBits | opto_read.py:98-103 | hexlify, then `int(x, 16)` for each pair, then `'{0:08b}'` gives 64 characters, and character i is '1' exactly when bit 7 - i mod 8 of byte i div 8 is set |
| OptoRead.DigitalBit | opto_read.py:98-103 | the same for byte k and digit j |
| OptoRead.ReadDigitals | opto_read.py:94-105 | fails exactly when fewer than 8 bytes remain; otherwise it consumes 8 bytes and returns 64 booleans, where digital 8i + j is bit 7 - j of byte i |
| OptoRead.ZeroDigitals | opto_read.py:94-105 | eight zero bytes give 64 digitals that are all False |
| OptoRead.ParsePacket | opto_read.py:41-66 | the parse equals the layout decoding `Decode`: floats from bytes 4-259, ints from 260-515, digitals from 516-523, each present only if its read completed |
| OptoRead.Decode | opto_read.py:41-66 | each list is empty or 64 long: floats are full iff len ≥ 260, ints iff len ≥ 516, digitals iff len ≥ 524 |
| OptoRead.DecodeFloatAt | opto_read.py:57 | float k is the IEEE field split of the quadlet at byte 4 + 4k |
| OptoRead.DecodeIntAt | opto_read.py:58 | int k is the big-endian quadlet at byte 260 + 4k and is below 2^32 |
| OptoRead.DecodeDigitalAt | opto_read.py:59 | digital k is bit 7 - k mod 8 of byte 516 + k div 8 |
| OptoRead.DecodeIgnoresHeader | opto_read.py:47-55 | the length field, zero fill and transaction code never change the result |
| OptoRead.OptoInputType.Value | opto_read.py:140-143 | a type's value is below 3, so it always indexes one of the three source lists |
| OptoRead.SourceList | opto_read.py:216-221 | `source_lists[type.value]` is the float, integer or digital list for FLOAT, INTEGER or DIGITAL respectively |
| OptoRead.HandleInput | opto_read.py:213-225 | the signal is the dict built by `_set_dict_val` over the inputs in order, or the IndexError one of them raises |
| OptoRead.HandleInputValue | opto_read.py:218-223 | an in-range input whose title no later writing input reuses puts floats[i], ints[i] or digitals[i] (by its type) under its title |
| OptoRead.HandleInputKeys | opto_read.py:213-225 | the output keys are distinct titles of inputs whose index passed the `index < len` test, at most one per input |
| OptoRead.HandleInputRaises | opto_read.py:210-223 | `_handle_input` raises exactly when some input's index is below minus the length of its list |
| OptoRead.Handle | opto_read.py:32-39 | the datagram is stripped, decoded and mapped; the notifier is always called, because the parse is a three-element list |
| OptoRead.StripDropsDigitals | opto_read.py:33 | as written: a full 524-byte datagram whose last byte is whitespace decodes 64 digitals unstripped but none once stripped |
| OptoRead.StripDropsDigitalsWitness | opto_read.py:33 | a concrete datagram with digital 60 on whose digitals are all lost by the strip |
| OptoRead.HandleUnstripped | opto_read.py:32-39 | corrected: the datagram as received is decoded and mapped |
| OptoRead.FullDatagramDecodes | opto_read.py:41-66 | a datagram of at least 524 bytes, unstripped, yields all three lists in full, with the digitals read from bytes 516-523 |
| OptoFloat.FloatCount | opto.py:39-63 | the float count is at most 64, and a non-zero count fits whole quadlets after the 4-byte header |
| OptoFloat.QuadletFloats | opto.py:54-57 | reading n quadlets gives n floats |
| OptoFloat.QuadletFloatsAt | opto.py:54-57 | float k of them is the IEEE field split of the quadlet at byte 4 + 4k |
| OptoFloat.PartialFloats | opto.py:39-63 | `_parse_packet` yields min(64, (len - 4) div 4) floats, or 0 when len < 4, each the quadlet at byte 4 + 4k |
| OptoFloat.ParsePacket | opto.py:39-63 | the parsed floats are `PartialFloats`: after an IndexError the floats read so far are kept |
| OptoFloat.ReadQuadlets | opto.py:54-57 | the 64-quadlet loop after the header produces `PartialFloats` |
| OptoFloat.HeaderRest | opto.py:43-51 | the three header reads leave exactly the bytes after the first four |
| OptoFloat.QuadletStep | opto.py:56-57 | reading one more quadlet appends its float and moves the cursor by 4 |
| OptoFloat.FloatCountAt | opto.py:55-58 | the loop stops after i floats exactly when i = 64 or no whole quadlet is left |
| OptoFloat.TruncatedFloatsArePrefix | opto.py:39-63 | truncating a datagram only shortens its float list: the floats of a prefix are a prefix of the floats of the whole |
| OptoFloat.AgreesWithFullReader | opto.py:39-63 | on a datagram of at least 260 bytes the float-only reader and opto_read.py's reader give the same 64 floats |
| OptoFloat.OptoPac.constructor | opto.py:123-128 | the buffer and the history of batches start empty |
| OptoFloat.OptoPac.HandleInput | opto.py:157-165 | appends exactly the one dict built from the inputs, unless an index below -len raises, in which case the buffer is unchanged; earlier records keep their order; nothing is lost or duplicated |
| OptoFloat.OptoPac.NotifyFloats | opto.py:167-171 | a non-empty buffer is handed on as one batch in arrival order and emptied; an empty one hands on nothing, so a second call straight after is a no-op |
| OptoFloat.OptoPac.Handle | opto.py:30-37 | strips and parses the datagram, and buffers a record only when at least one float was read |
| OptoWrite.BuildPacket | opto_write.py:55-86 | succeeds exactly when the offset decodes to 6 bytes and the quadlet to 4: 16 bytes, the fixed header 00 00 F8 00 00 00, then offset, then quadlet; otherwise the error names the first field that fails, in order: a hex error or the wrong length of the offset, then a hex error or the wrong length of the quadlet |
| OptoWrite.BuildPacketRoundTrip | opto_write.py:55-86 | the packet built from the hex of an address and a quadlet carries exactly those bytes after the header |
| OptoWrite.OffsetRoundTrip | opto_write.py:70-72 | prefix + hexlify(addr) + suffix decodes to the prefix bytes, addr, then the suffix bytes |
| OptoWrite.PucOffsetHex | opto_write.py:26-27 | with the default prefix "FFFF" and suffix "", the PUC offset is FF FF F0 38 00 00 |
| OptoWrite.PucDataHex | opto_write.py:98 | the PUC data is 00 00 00 01 |
| OptoWrite.PowerUpClear | opto_write.py:96-98 | the PUC builds exactly when prefix + PUC address + suffix decodes to 6 bytes, and then it is 16 bytes ending in the data 00 00 00 01 |
| OptoWrite.DefaultPowerUpClear | opto_write.py:96-98 | with the default properties the PUC is the 16 bytes 00 00 F8 00 00 00 FF FF F0 38 00 00 00 00 00 01 |
| OptoWrite.ConnectRun | opto_write.py:88-94 | connect is attempted first; a failed connect ends the call with no send; after a successful connect the PUC is sent next |
| OptoWrite.ConnectRunEnd | opto_write.py:88-94 | a connect ends on a successful `connect` only when the PUC could not be built |
| OptoWrite.SendRun | opto_write.py:100-108 | the first event is the send of the packet; a success or a non-catching send is that single event; a send never raises |
| OptoWrite.SendRunEndsWithSend | opto_write.py:100-108 | a send, retry included, always ends with an attempt to send the same packet |
| OptoWrite.RetryRunEndsWithSend | opto_write.py:105-108 | the retry branch ends with a send of the same packet |
| OptoWrite.RetryEvents | opto_write.py:100-108 | a failed catching send is the failed attempt, the reconnect's whole trace, then exactly one non-catching send of the same packet, whose outcome is the next one after the reconnect |
| OptoWrite.FailedPucSend | opto_write.py:96-108 | a failed PUC send after a connect reconnects and resends the PUC; with the outcomes given, the trace is exactly the failed send, the reconnect, the PUC on the new connection and the resend |
| OptoWrite.ConnectSendsOnlyPuc | opto_write.py:88-98 | a connect sends nothing but the PUC |
| OptoWrite.SendSendsOnly | opto_write.py:100-108 | sending p puts only p and the PUC on the wire |
| OptoWrite.RetryOnce | opto_write.py:100-108 | a packet that is not the PUC is attempted once if the first attempt succeeds or catching is off; otherwise the failed attempt is followed at once by the reconnect's connect, and the packet is attempted exactly twice in all |
| OptoWrite.NestedReconnect | opto_write.py:88-108 | the PUC send inside a reconnect is itself catching: one failed send of p can give two successful reconnects, the PUC twice on the second connection, then the single resend of p |
| OptoWrite.ConnectPuc | opto_write.py:88-98 | in a connect's trace every successful connect, except possibly a final one, is followed straight away by a send of the PUC; the trace never ends with a successful connect |
| OptoWrite.SendPuc | opto_write.py:100-108 | in a send's trace, including nested reconnects, every successful connect is followed straight away by a send of the PUC |
| OptoWrite.Prepare | opto_write.py:44-45 | a signal is sent exactly when both expressions evaluate and the packet builds, and then that packet is sent |
| OptoWrite.ProcessRun | opto_write.py:42-53 | one outcome per signal |
| OptoWrite.ProcessIsolation | opto_write.py:42-53 | the outcome of each signal is what that signal alone yields; an error on one never stops a later one |
| OptoWrite.ProcessExtends | opto_write.py:42-53 | signals are handled in order: more signals only extend the trace and the outcomes |
| OptoWrite.SkippedSendsNothing | opto_write.py:47-53 | a signal whose evaluation or build fails puts nothing on the wire and consumes no outcome |
| OptoWrite.OptoWriter.constructor | opto_write.py:32-40 | `configure` connects once, and the wire shows that connect and its PUC |
| OptoWrite.OptoWriter.NextOutcome | opto_write.py:103 | one socket operation consumes the next outcome; an exhausted oracle fails |
| OptoWrite.OptoWriter.ConnectSocket | opto_write.py:88-94 | the wire grows by exactly the connect trace and the oracle advances to match |
| OptoWrite.OptoWriter.SendPowerUpClear | opto_write.py:96-98 | an unbuildable PUC raises and touches nothing; otherwise the PUC is sent with catching |
| OptoWrite.OptoWriter.SendPacket | opto_write.py:100-108 | the wire grows by exactly the send trace, retry included |
| OptoWrite.OptoWriter.Resend | opto_write.py:106-108 | reconnect, then one non-catching send |
| OptoWrite.OptoWriter.ProcessSignal | opto_write.py:44-53 | a signal's outcome is `Prepare`; a skipped signal leaves the socket alone; a built one is sent with catching |
| OptoWrite.OptoWriter.ProcessSignals | opto_write.py:42-53 | the outcomes, the wire and the oracle are those of `ProcessRun` |

## Left out

- Sockets, the UDP server, threads and `spawn`, `serve_forever`, `shutdown`
  and `close` are I/O. The reader takes a datagram as bytes. The writer's
  socket is a sequence of outcomes, so reconnecting on the same socket object
  and the OS errors themselves are not modelled.
- The `Lock` in opto.py and the scheduler `Job` that calls `_notify_floats`
  are left out. Buffer operations are modelled as sequential calls.
- The real value returned by `_ieee_bytes_to_float` (opto_read.py:82,
  opto.py:70) is floating point and is left out. Only the three integer fields
  are modelled.
- Bytes.FromHex: `bytearray.fromhex` also skips whitespace between digit
  pairs. The model accepts only plain hex-digit strings of even length, so
  FromHexDefined is stated for that input set.
- Logging, `print`, `notify_signals` and the nio property classes are left
  out. `notify_signals` is modelled as the batch list `notified` and as the
  returned signal. `OptoReader` also inherits the nio `Collector` mixin
  (opto_read.py:13, :154), which changes how `notify_signals` batches signals
  over time. The mixin's code is not part of this model, so each datagram
  is modelled as one signal handed on at once.
- OptoWrite.Signal: an `ExpressionProperty` evaluation is an Option. How the
  expression is evaluated is not modelled.
- OptoWrite.OptoWriter.ConnectSocket: a failed connect or an unbuildable PUC is
  logged and swallowed. Only the fact that it is caught is modelled. The
  oracle and wire also stand in for the error message.
- The Python recursion limit on the reconnect/resend recursion is not
  modelled. Each step consumes an outcome, or stops once the outcomes are
  exhausted, so the recursion is finite.
- opto_data.py is not part of this model. It is a `struct.unpack` wrapper with
  sample data.
- tests/test_opto_write.py is not part of this model. It needs hardware and
  asserts nothing.

## Findings

| source | as written | input that shows it | evidently intended | confidence | as-written member | corrected member |
|---|---|---|---|---|---|---|
| opto_read.py:33 | `handle` strips ASCII whitespace from both ends of the binary datagram before parsing it | a full 524-byte datagram whose last byte (digitals 56-63) is 0x0A: stripped to 523 bytes, the digital read fails and all 64 digitals are lost | parse the datagram as received, so 524 bytes always give all three lists | not executed | OptoRead.StripDropsDigitals | OptoRead.HandleUnstripped |
