/**
 * The older float-only reader of opto.py: `OptoDataHandler` reads only the
 * 64 floats of a datagram, keeping however many it managed to read, and
 * the `OptoPAC` block maps them onto one dict per datagram and collects
 * the dicts in `_sigs_out` until the periodic `_notify_floats` hands the
 * whole batch downstream.
 */
module OptoFloat {
  import opened Wrappers
  import opened Bytes
  import opened Dicts
  import OptoRead

  // ---------------------------------------------------------------------
  // Decoding
  // ---------------------------------------------------------------------

  /** How many floats `_parse_packet` completes from n bytes: whole quadlets after the header, at most 64. */
  function FloatCount(n: nat): (c: nat)
    ensures c <= 64
    ensures c == 0 || 4 * c + 4 <= n
  {
    if n < 4 then 0 else if (n - 4) / 4 < 64 then (n - 4) / 4 else 64
  }

  /** The first n floats of a datagram: float k is the quadlet at byte 4 + 4k. */
  function QuadletFloats(p: Bytes, n: nat): (fs: seq<IeeeFields>)
    requires n == 0 || 4 * n + 4 <= |p|
    ensures |fs| == n
  {
    if n == 0 then [] else QuadletFloats(p, n - 1) + [FloatFields(p[4 * n .. 4 * n + 4])]
  }

  /** Float k of the first n is the quadlet at byte 4 + 4k. */
  lemma {:induction false} QuadletFloatsAt(p: Bytes, n: nat)
    requires n == 0 || 4 * n + 4 <= |p|
    ensures forall k :: 0 <= k < n ==> QuadletFloats(p, n)[k] == FloatFields(p[4 + 4 * k .. 8 + 4 * k])
  {
    if n > 0 {
      QuadletFloatsAt(p, n - 1);
    }
  }

  /** The floats `_parse_packet` returns: as many as it completes. */
  function PartialFloats(p: Bytes): (fs: seq<IeeeFields>)
    ensures |fs| == FloatCount(|p|)
    ensures forall k :: 0 <= k < |fs| ==> fs[k] == FloatFields(p[4 + 4 * k .. 8 + 4 * k])
  {
    QuadletFloatsAt(p, FloatCount(|p|));
    QuadletFloats(p, FloatCount(|p|))
  }

  /**
   * `_parse_packet`: read the header and then up to 64 floats, appending
   * each as it is read.  An IndexError stops the reading but keeps the
   * floats read so far, so a truncated datagram gives a partial list.
   */
  method ParsePacket(packet: Bytes) returns (floats: seq<IeeeFields>)
    ensures floats == PartialFloats(packet)
  {
    floats := [];
    var packetLen := ReadInt(packet, 2);
    if packetLen.Err? {
      return;
    }
    var zeroFill := ReadBytes(packetLen.value.1, 1);
    if zeroFill.Err? {
      return;
    }
    var transCode := ReadBytes(zeroFill.value.1, 1);
    if transCode.Err? {
      return;
    }
    HeaderRest(packet);
    floats := ReadQuadlets(packet, transCode.value.1);
  }

  /**
   * The `for i in range(64)` loop of `_parse_packet`: read quadlets from
   * what follows the header until 64 are read or one is missing.
   */
  method ReadQuadlets(packet: Bytes, rest0: Bytes) returns (floats: seq<IeeeFields>)
    requires |packet| >= 4 && rest0 == packet[4..]
    ensures floats == PartialFloats(packet)
  {
    floats := [];
    var rest := rest0;
    for i := 0 to 64
      invariant 4 + 4 * i <= |packet| && rest == packet[4 + 4 * i..]
      invariant floats == QuadletFloats(packet, i)
    {
      var next := ReadBytes(rest, 4);
      if next.Err? {
        FloatCountAt(|packet|, i);
        return;
      }
      QuadletStep(packet, i, rest);
      floats := floats + [FloatFields(next.value.0)];
      rest := next.value.1;
    }
    FloatCountAt(|packet|, 64);
  }

  /** The three header reads leave the bytes after the first four. */
  lemma HeaderRest(packet: Bytes)
    requires |packet| >= 4
    ensures ReadBytes(ReadBytes(ReadInt(packet, 2).value.1, 1).value.1, 1).value.1 == packet[4..]
  {
    assert packet[2..][1..][1..] == packet[4..];
  }

  /** Reading the quadlet at byte 4 + 4i extends the first i floats by float i. */
  lemma QuadletStep(packet: Bytes, i: nat, rest: Bytes)
    requires 8 + 4 * i <= |packet| && rest == packet[4 + 4 * i..]
    ensures ReadBytes(rest, 4).Ok?
    ensures ReadBytes(rest, 4).value.1 == packet[4 + 4 * (i + 1)..]
    ensures QuadletFloats(packet, i) + [FloatFields(ReadBytes(rest, 4).value.0)] == QuadletFloats(packet, i + 1)
  {
    assert rest[..4] == packet[4 + 4 * i .. 8 + 4 * i];
    assert rest[4..] == packet[4 + 4 * (i + 1)..];
  }

  /** With i whole quadlets after the header and no further one, or i = 64, i floats are read. */
  lemma FloatCountAt(n: nat, i: nat)
    requires 4 + 4 * i <= n && i <= 64 && (i < 64 ==> n < 8 + 4 * i)
    ensures FloatCount(n) == i
  {
  }

  /** Truncation only shortens the float list: what a prefix yields is a prefix of what the whole yields. */
  lemma TruncatedFloatsArePrefix(p: Bytes, q: Bytes)
    ensures PartialFloats(p) <= PartialFloats(p + q)
  {
    var a, b := PartialFloats(p), PartialFloats(p + q);
    assert |a| <= |b|;
    forall k | 0 <= k < |a| ensures a[k] == b[k] {
      assert (p + q)[4 + 4 * k .. 8 + 4 * k] == p[4 + 4 * k .. 8 + 4 * k];
    }
  }

  /** On a datagram long enough for all floats, both readers read the same 64 floats. */
  lemma AgreesWithFullReader(p: Bytes)
    requires |p| >= 260
    ensures PartialFloats(p) == OptoRead.Decode(p).floats
  {
    var partial, full := PartialFloats(p), OptoRead.Decode(p).floats;
    assert FloatCount(|p|) == 64;
    forall k | 0 <= k < 64 ensures partial[k] == full[k] {
      OptoRead.DecodeFloatAt(p, k);
    }
  }

  // ---------------------------------------------------------------------
  // The `OptoPAC` block and its batching buffer
  // ---------------------------------------------------------------------

  /** One configured input of this block: a title and a float index. */
  datatype OptoInput = OptoInput(title: string, index: int)

  /** The `if opto_in.index < len(floats): sig_out[title] = floats[index]` steps, in order. */
  function Picks(inputs: seq<OptoInput>, floats: seq<IeeeFields>): (ps: seq<Pick<IeeeFields>>)
    ensures |ps| == |inputs|
    ensures forall i :: 0 <= i < |inputs| ==> ps[i] == Pick(inputs[i].title, inputs[i].index, floats)
  {
    seq(|inputs|, i requires 0 <= i < |inputs| => Pick(inputs[i].title, inputs[i].index, floats))
  }

  /** The records a batch list holds, batch after batch. */
  function Flatten<T>(batches: seq<seq<T>>): seq<T>
  {
    if batches == [] then [] else Flatten(batches[..|batches| - 1]) + batches[|batches| - 1]
  }

  /** What one `_handle_input` call appends: its dict, or nothing when it raised. */
  function Appended(r: Result<Dict<IeeeFields>, ReadError>): seq<Dict<IeeeFields>>
  {
    if r.Ok? then [r.value] else []
  }

  class OptoPac {
    /** `opto_inputs` */
    const inputs: seq<OptoInput>
    /** `_sigs_out`: the records waiting for the next `_notify_floats` */
    var sigsOut: seq<Dict<IeeeFields>>
    /** the batches handed to `notify_signals`, oldest first */
    var notified: seq<seq<Dict<IeeeFields>>>
    /** every record ever appended to `_sigs_out`, in arrival order */
    ghost var received: seq<Dict<IeeeFields>>

    /**
     * No record is lost, duplicated or reordered: the batches handed on,
     * followed by the records still waiting, are the records in arrival
     * order; and no batch handed on is empty.
     */
    ghost predicate Valid()
      reads this
    {
      && Flatten(notified) + sigsOut == received
      && forall i :: 0 <= i < |notified| ==> notified[i] != []
    }

    constructor (inputs: seq<OptoInput>)
      ensures Valid()
      ensures this.inputs == inputs && sigsOut == [] && notified == [] && received == []
    {
      this.inputs := inputs;
      sigsOut := [];
      notified := [];
      received := [];
    }

    /**
     * `_handle_input(floats)`: build the dict for this datagram and append
     * it to `_sigs_out`.  An IndexError from a negative index escapes before
     * the append, and then `_sigs_out` is unchanged.
     */
    method HandleInput(floats: seq<IeeeFields>) returns (raised: bool)
      requires Valid()
      modifies this
      ensures Valid()
      ensures raised == FillDict(Picks(inputs, floats)).Err?
      ensures sigsOut == old(sigsOut) + Appended(FillDict(Picks(inputs, floats)))
      ensures received == old(received) + Appended(FillDict(Picks(inputs, floats)))
      ensures notified == old(notified)
    {
      var sigOut: Dict<IeeeFields> := EmptyDict();
      for i := 0 to |inputs|
        invariant FillDict(Picks(inputs[..i], floats)) == Ok(sigOut)
      {
        var optoIn := inputs[i];
        assert Picks(inputs[..i + 1], floats)[..i] == Picks(inputs[..i], floats);
        var step := SetDictVal(sigOut, floats, optoIn.index, optoIn.title);
        if step.Err? {
          assert Raises(Picks(inputs, floats)[i]);
          FillDictFails(Picks(inputs, floats));
          return true;
        }
        sigOut := step.value;
      }
      assert inputs[..|inputs|] == inputs;
      sigsOut := sigsOut + [sigOut];
      received := received + [sigOut];
      return false;
    }

    /**
     * `_notify_floats`: when records are waiting, hand them all on as one
     * batch in arrival order and empty the buffer; otherwise do nothing, so a
     * second call straight after the first hands on nothing.
     */
    method NotifyFloats()
      requires Valid()
      modifies this
      ensures Valid()
      ensures old(sigsOut) != [] ==> notified == old(notified) + [old(sigsOut)]
      ensures old(sigsOut) == [] ==> notified == old(notified)
      ensures sigsOut == [] && received == old(received)
    {
      if |sigsOut| > 0 {
        assert (notified + [sigsOut])[..|notified|] == notified;
        notified := notified + [sigsOut];
        sigsOut := [];
      }
    }

    /**
     * `OptoDataHandler.handle` with this block's `_handle_input` as the
     * notifier: strip the datagram, read its floats and, only when at least
     * one float was read, map and buffer them.
     */
    method Handle(datagram: Bytes)
      requires Valid()
      modifies this
      ensures Valid()
      ensures PartialFloats(Strip(datagram)) == [] ==> sigsOut == old(sigsOut)
      ensures PartialFloats(Strip(datagram)) != [] ==>
                sigsOut == old(sigsOut) + Appended(FillDict(Picks(inputs, PartialFloats(Strip(datagram)))))
      ensures notified == old(notified)
    {
      var data := Strip(datagram);
      var pack := ParsePacket(data);
      if |pack| > 0 {
        var _ := HandleInput(pack);
      }
    }
  }
}
