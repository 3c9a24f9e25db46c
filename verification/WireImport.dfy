/** OP_REQ_IMPORT from the importer's encoder, through the exporter's handshake
    limiter, to its decoder. */
module WireImport {
  import opened Base
  import opened WireBytes
  import opened WireStream
  import opened WireCodec
  import opened WireRoundTrip

  const REQUEST_SIZE: nat := 40

  predicate TopologyByte(b: Byte) { Digit(b) || b == 0x2D || b == 0x2E }

  lemma {:induction false} TopologyBytes(s: Bytes)
    requires TopologyState(s) != 4
    ensures TopologyState(s) <= 3 && forall i :: 0 <= i < |s| ==> TopologyByte(s[i])
    decreases |s|
  {
    if s != [] {
      var init := s[..|s| - 1];
      TopologyBytes(init);
      assert forall i :: 0 <= i < |init| ==> s[i] == init[i];
    }
  }

  // --- The pattern of the bus ids a user may enter -------------------------

  ghost predicate Number(s: Bytes) { s != [] && forall i :: 0 <= i < |s| ==> '0' as int <= s[i] <= '9' as int }

  /** The parts, each after its separator: a hyphen before the first and a dot
      before the others. */
  ghost function Joined(ports: seq<Bytes>): Bytes {
    if ports == [] then []
    else Joined(ports[..|ports| - 1]) + [Separator(ports[..|ports| - 1])] + ports[|ports| - 1]
  }

  /** What stands before the part after `ports`. */
  function Separator(ports: seq<Bytes>): Byte { if ports == [] then '-' as int else '.' as int }

  ghost predicate Numbers(ports: seq<Bytes>) { forall i :: 0 <= i < |ports| ==> Number(ports[i]) }

  /** `s` is a bus number, then port numbers. */
  ghost predicate IsTopology(s: Bytes, bus: Bytes, ports: seq<Bytes>) {
    Number(bus) && ports != [] && Numbers(ports) && s == bus + Joined(ports)
  }

  lemma StateSnoc(s: Bytes, b: Byte)
    ensures TopologyState(s + [b]) == TopologyStep(TopologyState(s), b)
  {
    assert (s + [b])[..|s|] == s;
  }

  lemma {:induction false} DigitsFollow(s: Bytes, digits: Bytes)
    requires Number(digits) && TopologyState(s) <= 3
    ensures TopologyState(s + digits) == if TopologyState(s) <= 1 then 1 else 3
    decreases |digits|
  {
    var init, last := digits[..|digits| - 1], digits[|digits| - 1];
    assert s + digits == s + init + [last];
    StateSnoc(s + init, last);
    if init != [] { DigitsFollow(s, init); } else { assert s + init == s; }
  }

  lemma {:induction false} TopologyIsAccepted(bus: Bytes, ports: seq<Bytes>)
    requires Number(bus) && Numbers(ports)
    ensures TopologyState(bus + Joined(ports)) == if ports == [] then 1 else 3
    decreases |ports|
  {
    if ports == [] {
      DigitsFollow([], bus);
      assert [] + bus == bus && bus + Joined(ports) == bus;
    } else {
      var init, last := ports[..|ports| - 1], ports[|ports| - 1];
      TopologyIsAccepted(bus, init);
      PortFollows(bus + Joined(init), Separator(init), last);
      assert bus + Joined(ports) == bus + Joined(init) + [Separator(init)] + last;
    }
  }

  lemma PortFollows(s: Bytes, separator: Byte, port: Bytes)
    requires Number(port) && TopologyState(s) == (if separator == '-' as int then 1 else 3)
    requires separator == '-' as int || separator == '.' as int
    ensures TopologyState(s + [separator] + port) == 3
  {
    StateSnoc(s, separator);
    DigitsFollow(s + [separator], port);
  }

  /** What has been read in state 1, 2 or 3. */
  ghost predicate Parsed(s: Bytes, q: nat, bus: Bytes, ports: seq<Bytes>, last: Bytes) {
    && (q == 1 ==> Number(bus) && s == bus)
    && (q == 2 ==> Number(bus) && Numbers(ports) && s == bus + Joined(ports) + [Separator(ports)])
    && (q == 3 ==> Number(bus) && Numbers(ports) && Number(last) && s == bus + Joined(ports + [last]))
  }

  lemma JoinedSnoc(ports: seq<Bytes>, last: Bytes)
    ensures Joined(ports + [last]) == Joined(ports) + [Separator(ports)] + last
  {
    assert (ports + [last])[..|ports|] == ports;
  }

  lemma {:induction false} AcceptedIsTopology(s: Bytes) returns (bus: Bytes, ports: seq<Bytes>, last: Bytes)
    requires 1 <= TopologyState(s) <= 3
    ensures Parsed(s, TopologyState(s), bus, ports, last)
    decreases |s|
  {
    var init, b := s[..|s| - 1], s[|s| - 1];
    assert s == init + [b];
    if TopologyState(init) == 0 { StateZeroIsEmpty(init); return [b], [], []; }
    bus, ports, last := AcceptedIsTopology(init);
    bus, ports, last := ParsedMore(init, TopologyState(init), bus, ports, last, b);
  }

  lemma ParsedMore(s: Bytes, q: nat, bus: Bytes, ports: seq<Bytes>, last: Bytes, b: Byte)
    returns (bus': Bytes, ports': seq<Bytes>, last': Bytes)
    requires 1 <= q <= 3 && TopologyStep(q, b) <= 3 && Parsed(s, q, bus, ports, last)
    ensures Parsed(s + [b], TopologyStep(q, b), bus', ports', last')
  {
    bus', ports', last' := bus, ports, last;
    match q
    case 1 => if Digit(b) { bus' := s + [b]; } else { ports' := []; assert s + [b] == bus + Joined([]) + [b]; }
    case 2 => last' := [b]; JoinedSnoc(ports, last');
    case _ =>
      if Digit(b) {
        last' := last + [b];
        DigitAppended(bus, ports, last, b);
      } else {
        ports' := ports + [last];
      }
  }

  lemma DigitAppended(bus: Bytes, ports: seq<Bytes>, last: Bytes, b: Byte)
    ensures bus + Joined(ports + [last]) + [b] == bus + Joined(ports + [last + [b]])
  {
    JoinedSnoc(ports, last);
    JoinedSnoc(ports, last + [b]);
  }

  lemma StateZeroIsEmpty(s: Bytes)
    requires TopologyState(s) == 0
    ensures s == []
  {
  }

  /** A user may enter exactly the ids of at most 31 bytes that are a bus
      number, a hyphen, and port numbers with dots between them. */
  lemma ParsedIffTopology(s: Bytes)
    ensures ParseBusId(s) == Ok(s) <==> |s| <= 31 && exists bus, ports :: IsTopology(s, bus, ports)
  {
    if TopologyState(s) == 3 {
      TopologyBytes(s);
      var bus, ports, last := AcceptedIsTopology(s);
      assert IsTopology(s, bus, ports + [last]);
    }
    if exists bus, ports :: IsTopology(s, bus, ports) {
      var bus, ports :| IsTopology(s, bus, ports);
      TopologyIsAccepted(bus, ports);
      TopologyBytes(s);
    }
  }

  /** Whatever a user may enter, a peer accepts. */
  lemma ParsedIsWireSafe(s: Bytes)
    requires ParseBusId(s).Ok?
    ensures WireBusId(s) && AllPrintable(s)
  {
    TopologyBytes(s);
  }

  lemma BusIdOfPad(s: Bytes)
    requires ParseBusId(s).Ok?
    ensures BusIdOf(Pad(s, BUSID_SIZE)) == Ok(s)
  {
    ParsedIsWireSafe(s);
    FieldOfPad(s, BUSID_SIZE);
  }

  /** Through a limiter with room for the request, or none. */
  lemma RequestRoundTrip(s: Bytes, more: Bytes, tail: Tail)
    requires ParseBusId(s).Ok?
    ensures EncodeImportRequest(s).Ok? && |EncodeImportRequest(s).value| == REQUEST_SIZE
    ensures DecodeImportRequest(Stream(EncodeImportRequest(s).value + more, tail)) == Done(s, Stream(more, tail))
  {
    var head, body := EncodeHeader(OP_REQ_IMPORT, 0), Pad(s, BUSID_SIZE);
    assert head + body + more == head + (body + more);
    HeaderRoundTrip(OP_REQ_IMPORT, 0, body + more, tail);
    TakeFront(body, more, tail);
    BusIdOfPad(s);
  }

  lemma RequestThroughLimiter(s: Bytes, more: Bytes, tail: Tail, limit: nat)
    requires ParseBusId(s).Ok? && REQUEST_SIZE <= limit
    ensures
      var frame := EncodeImportRequest(s).value;
      var r := DecodeImportRequest(Limited(Stream(frame + more, tail), limit));
      r.Done? && r.value == s
  {
    var frame := EncodeImportRequest(s).value;
    if |frame + more| < limit {
      RequestRoundTrip(s, more, tail);
    } else {
      assert (frame + more)[..limit] == frame + more[..limit - REQUEST_SIZE];
      RequestRoundTrip(s, more[..limit - REQUEST_SIZE], TooLarge);
    }
  }

  /** A smaller positive limit is an error. */
  lemma SmallLimitIsAnError(s: Stream, limit: nat)
    requires limit < REQUEST_SIZE
    ensures DecodeImportRequest(Limited(s, limit)).Bad?
  {
  }

  /** A limit never changes the bus id that is read, on any stream. */
  lemma LimitNeverChangesBusId(s: Stream, limit: nat)
    ensures
      var r := DecodeImportRequest(Limited(s, limit));
      r.Done? ==> DecodeImportRequest(s).Done? && DecodeImportRequest(s).value == r.value
  {
    var l := Limited(s, limit);
    if l != s && REQUEST_SIZE <= limit {
      assert l.data[..8] == s.data[..8];
      assert l.data[8..][..32] == s.data[8..][..32];
    }
  }

  // --- What the decoder accepts, byte by byte ------------------------------

  const REQUEST_HEADER: Bytes := [0x01, 0x11, 0x80, 0x03, 0, 0, 0, 0]

  /** The characters of a sysfs basename: letters, digits, dot, underscore and hyphen. */
  ghost predicate Basename(id: Bytes) {
    && 1 <= |id| <= 31
    && forall i :: 0 <= i < |id| ==>
         || 'a' as int <= id[i] <= 'z' as int || 'A' as int <= id[i] <= 'Z' as int
         || '0' as int <= id[i] <= '9' as int
         || id[i] == '.' as int || id[i] == '_' as int || id[i] == '-' as int
  }

  lemma RequestHeaderIff(buf: Bytes)
    requires |buf| == 8
    ensures HeaderOf(buf) == Ok(Header(OP_REQ_IMPORT, 0)) <==> buf == REQUEST_HEADER
  {
    if HeaderOf(buf) == Ok(Header(OP_REQ_IMPORT, 0)) {
      HalfIs(buf[0..2], 0x01, 0x11);
      HalfIs(buf[2..4], 0x80, 0x03);
      WordIsZero(buf[4..8]);
    }
  }

  lemma HalfIs(b: Bytes, high: Byte, low: Byte)
    requires |b| == 2 && Get16(b) == 0x100 * high + low
    ensures b[0] == high && b[1] == low
  {
  }

  lemma WordIsZero(b: Bytes)
    requires |b| == 4 && Get32(b) == 0
    ensures b[0] == 0 && b[1] == 0 && b[2] == 0 && b[3] == 0
  {
  }

  lemma BusIdFieldIff(buf: Bytes, id: Bytes)
    requires |buf| == BUSID_SIZE
    ensures BusIdOf(buf) == Ok(id) <==> Basename(id) && buf[..|id|] == id && buf[|id|] == 0
  {
    FieldIsPrefix(buf);
    if Basename(id) && buf[..|id|] == id && buf[|id|] == 0 {
      PrintableLengthIs(buf, |id|);
    }
  }

  /**
   * On every stream the decoder returns `id` exactly when the stream begins
   * with the import request's header and a 32-byte field that holds a sysfs
   * basename ended by a NUL; the forty bytes are consumed.
   */
  lemma ImportRequestIff(s: Stream, id: Bytes, rest: Stream)
    ensures DecodeImportRequest(s) == Done(id, rest) <==>
      && |s.data| >= 40 && s.data[..8] == [0x01, 0x11, 0x80, 0x03, 0, 0, 0, 0]
      && Basename(id) && s.data[8..8 + |id|] == id && s.data[8 + |id|] == 0
      && rest == Stream(s.data[40..], s.tail)
  {
    if |s.data| >= 40 {
      var head, field := s.data[..8], s.data[8..][..32];
      RequestHeaderIff(head);
      BusIdFieldIff(field, id);
      assert s.data[8..][32..] == s.data[40..];
      if Basename(id) { FieldSlices(s.data, |id|); }
    }
  }

  lemma FieldSlices(data: Bytes, n: nat)
    requires |data| >= 40 && n < 32
    ensures data[8..][..32][..n] == data[8..8 + n] && data[8..][..32][n] == data[8 + n]
  {
  }

  /** Every sysfs basename, not only those a user may enter, travels. */
  lemma BasenameRoundTrip(id: Bytes, more: Bytes, tail: Tail)
    requires Basename(id)
    ensures EncodeImportRequest(id).Ok?
    ensures DecodeImportRequest(Stream(EncodeImportRequest(id).value + more, tail)) == Done(id, Stream(more, tail))
  {
    var frame := EncodeHeader(OP_REQ_IMPORT, 0) + Pad(id, BUSID_SIZE);
    assert EncodeHeader(OP_REQ_IMPORT, 0) == REQUEST_HEADER;
    assert (frame + more)[..8] == REQUEST_HEADER && (frame + more)[8..8 + |id|] == id && (frame + more)[40..] == more;
    ImportRequestIff(Stream(frame + more, tail), id, Stream(more, tail));
  }
}
