/** Decoding what was encoded gives it back and consumes exactly the frame. */
module WireRoundTrip {
  import opened Base
  import opened WireBytes
  import opened WireStream
  import opened WireCodec

  lemma TakeFront(a: Bytes, b: Bytes, tail: Tail)
    ensures Take(Stream(a + b, tail), |a|) == Done(a, Stream(b, tail))
  {
    assert (a + b)[..|a|] == a && (a + b)[|a|..] == b;
  }

  lemma HeaderOfEncoded(op: U16, status: U32)
    requires KnownOp(op)
    ensures HeaderOf(EncodeHeader(op, status)) == Ok(Header(op, status))
  {
    var buf := EncodeHeader(op, status);
    assert buf[0..2] == Put16(PROTOCOL_VERSION) && buf[2..4] == Put16(op) && buf[4..8] == Put32(status);
    Get16Put16(PROTOCOL_VERSION);
    Get16Put16(op);
    Get32Put32(status);
  }

  /** Version 1.1.1, then the opcode and the status, big-endian. */
  lemma HeaderLayout(op: U16, status: U32)
    ensures
      var b := EncodeHeader(op, status);
      && b[0] == 0x01 && b[1] == 0x11
      && Get16(b[2..4]) == op && Get32(b[4..8]) == status
  {
    var b := EncodeHeader(op, status);
    assert b[2..4] == Put16(op) && b[4..8] == Put32(status);
    Get16Put16(op);
    Get32Put32(status);
  }

  lemma HeaderRoundTrip(op: U16, status: U32, more: Bytes, tail: Tail)
    requires KnownOp(op)
    ensures DecodeHeaderAllowStatus(Stream(EncodeHeader(op, status) + more, tail)) ==
            Done(Header(op, status), Stream(more, tail))
  {
    HeaderOfEncoded(op, status);
    TakeFront(EncodeHeader(op, status), more, tail);
  }

  // --- Device record -------------------------------------------------------

  /** What the wire promises to carry. */
  predicate Carried(d: Device) {
    FitsFields(d) && AllPrintable(d.path) && AllPrintable(d.busId) && KnownSpeed(d.speed)
  }

  /** The device a peer sees from a single-device reply. */
  function Plain(d: Device): Device { d.(manufacturer := [], productName := [], interfaces := []) }

  lemma TailNumbers(d: Device)
    ensures
      var b := DeviceTail(d);
      && Get32(b[0..4]) == d.busNum && Get32(b[4..8]) == d.devNum && Get32(b[8..12]) == d.speed
      && Get16(b[12..14]) == d.vendorId && Get16(b[14..16]) == d.productId && Get16(b[16..18]) == d.bcdDevice
  {
    var b := DeviceTail(d);
    assert b[0..4] == Put32(d.busNum) && b[4..8] == Put32(d.devNum) && b[8..12] == Put32(d.speed);
    assert b[12..14] == Put16(d.vendorId) && b[14..16] == Put16(d.productId) && b[16..18] == Put16(d.bcdDevice);
    Get32Put32(d.busNum);
    Get32Put32(d.devNum);
    Get32Put32(d.speed);
    Get16Put16(d.vendorId);
    Get16Put16(d.productId);
    Get16Put16(d.bcdDevice);
  }

  lemma TailRoundTrip(d: Device)
    ensures
      var b := DeviceTail(d);
      && Get32(b[0..4]) == d.busNum && Get32(b[4..8]) == d.devNum && Get32(b[8..12]) == d.speed
      && TailFields(d.path, d.busId, b) == Plain(d)
  {
    TailNumbers(d);
  }

  lemma DeviceParts(d: Device)
    requires FitsFields(d)
    ensures
      var buf := DeviceBytes(d);
      && buf[0..256] == Pad(d.path, SYSFS_PATH_SIZE) && buf[256..288] == Pad(d.busId, BUSID_SIZE)
      && buf[288..312] == DeviceTail(d)
  {
  }

  /** The record's layout, offset by offset. */
  lemma DeviceLayout(d: Device)
    requires FitsFields(d)
    ensures
      var b := DeviceBytes(d);
      && b[..|d.path|] == d.path && b[|d.path|] == 0 && b[256..256 + |d.busId|] == d.busId && b[256 + |d.busId|] == 0
      && Get32(b[288..292]) == d.busNum && Get32(b[292..296]) == d.devNum && Get32(b[296..300]) == d.speed
      && Get16(b[300..302]) == d.vendorId && Get16(b[302..304]) == d.productId && Get16(b[304..306]) == d.bcdDevice
      && b[306] == d.class_ && b[307] == d.subclass && b[308] == d.protocol
      && b[309] == d.configValue && b[310] == d.numConfigs && b[311] == d.numInterfaces
  {
    var b, tail := DeviceBytes(d), DeviceTail(d);
    DeviceParts(d);
    TailNumbers(d);
    StringParts(d);
    TailSlices(b, tail);
  }

  lemma StringParts(d: Device)
    requires FitsFields(d)
    ensures
      var b := DeviceBytes(d);
      b[..|d.path|] == d.path && b[|d.path|] == 0 && b[256..256 + |d.busId|] == d.busId && b[256 + |d.busId|] == 0
  {
  }

  lemma TailSlices(b: Bytes, tail: Bytes)
    requires |b| == DEVICE_SIZE && b[288..312] == tail
    ensures
      && b[288..292] == tail[0..4] && b[292..296] == tail[4..8] && b[296..300] == tail[8..12]
      && b[300..302] == tail[12..14] && b[302..304] == tail[14..16] && b[304..306] == tail[16..18]
      && b[306] == tail[18] && b[307] == tail[19] && b[308] == tail[20]
      && b[309] == tail[21] && b[310] == tail[22] && b[311] == tail[23]
  {
    assert forall i :: 0 <= i < 24 ==> tail[i] == b[288 + i];
  }

  lemma DeviceOfEncoded(d: Device)
    requires Carried(d)
    ensures DeviceOf(DeviceBytes(d)) == Ok(DeviceAndFlags(Plain(d), []))
  {
    DeviceParts(d);
    FieldOfPad(d.path, SYSFS_PATH_SIZE);
    FieldOfPad(d.busId, BUSID_SIZE);
    TailRoundTrip(d);
    var none: seq<FieldName> := [];
    assert none + none == none;
  }

  lemma DeviceRoundTrip(d: Device, more: Bytes, tail: Tail)
    requires Carried(d)
    ensures DecodeDevice(Stream(DeviceBytes(d) + more, tail)) == Done(DeviceAndFlags(Plain(d), []), Stream(more, tail))
  {
    DeviceOfEncoded(d);
    TakeFront(DeviceBytes(d), more, tail);
  }

  // --- Interfaces ----------------------------------------------------------

  function Padded(d: Device, n: nat): (r: seq<Interface>)
    ensures |r| == n
  {
    seq(n, i requires 0 <= i => InterfaceAt(d, i))
  }

  lemma {:induction false} InterfacesRoundTrip(d: Device, n: nat)
    ensures InterfacesOf(EncodeInterfaces(d, n), n) == Padded(d, n)
  {
    if n > 0 {
      var buf := EncodeInterfaces(d, n);
      assert buf[..4 * (n - 1)] == EncodeInterfaces(d, n - 1);
      InterfacesRoundTrip(d, n - 1);
      assert Padded(d, n) == Padded(d, n - 1) + [InterfaceAt(d, n - 1)];
    }
  }

  /** The device a peer sees from a device list: interfaces cut or zero-padded
      to the declared number, alternate settings zeroed, local strings blank. */
  function Listed(d: Device): Device { Plain(d).(interfaces := Padded(d, d.numInterfaces)) }

  lemma InterfaceListRoundTrip(d: Device, more: Bytes, tail: Tail)
    ensures DecodeInterfaces(Stream(EncodeInterfaces(d, d.numInterfaces) + more, tail), d.numInterfaces) ==
            Done(Padded(d, d.numInterfaces), Stream(more, tail))
  {
    InterfacesRoundTrip(d, d.numInterfaces);
    var buf := EncodeInterfaces(d, d.numInterfaces);
    TakeFront(buf, more, tail);
    if d.numInterfaces == 0 { assert buf + more == more; }
  }

  lemma EntryRoundTrip(d: Device, more: Bytes, tail: Tail)
    requires Carried(d)
    ensures DecodeEntry(Stream(DeviceEntry(d) + more, tail)) == Done(DeviceAndFlags(Listed(d), []), Stream(more, tail))
  {
    var fs := EncodeInterfaces(d, d.numInterfaces);
    assert DeviceEntry(d) + more == DeviceBytes(d) + (fs + more);
    DeviceRoundTrip(d, fs + more, tail);
    InterfaceListRoundTrip(d, more, tail);
  }

  // --- Device list ---------------------------------------------------------

  predicate AllCarried(ds: seq<Device>) { forall i :: 0 <= i < |ds| ==> Carried(ds[i]) }

  function AllListed(ds: seq<Device>): (r: seq<Device>)
    ensures |r| == |ds|
  {
    seq(|ds|, i requires 0 <= i < |ds| => Listed(ds[i]))
  }

  /** Reading entry after entry: `streams[k]` is the stream before entry `k`. */
  ghost predicate Chain(streams: seq<Stream>, ds: seq<Device>) {
    && |streams| == |ds| + 1
    && forall k :: 0 <= k < |ds| ==> DecodeEntry(streams[k]) == Done(DeviceAndFlags(ds[k], []), streams[k + 1])
  }

  lemma {:induction false} BodyFromChain(streams: seq<Stream>, ds: seq<Device>, i: nat)
    requires Chain(streams, ds)
    ensures DecodeBody(streams[0], i, i + |ds|) == Done(Devlist(ds, []), streams[|ds|])
    decreases |ds|
  {
    if ds != [] {
      var rest, more := streams[1..], ds[1..];
      ChainTail(streams, ds);
      BodyFromChain(rest, more, i + 1);
      assert rest[0] == streams[1] && rest[|more|] == streams[|ds|] && i + 1 + |more| == i + |ds|;
      BodyStep(streams, ds, i);
    }
  }

  lemma BodyStep(streams: seq<Stream>, ds: seq<Device>, i: nat)
    requires Chain(streams, ds) && ds != []
    requires DecodeBody(streams[1], i + 1, i + |ds|) == Done(Devlist(ds[1..], []), streams[|ds|])
    ensures DecodeBody(streams[0], i, i + |ds|) == Done(Devlist(ds, []), streams[|ds|])
  {
    BodyCons(streams[0], i, i + |ds|, ds[0], streams[1], ds[1..], streams[|ds|]);
    assert [ds[0]] + ds[1..] == ds;
  }

  lemma ChainTail(streams: seq<Stream>, ds: seq<Device>)
    requires Chain(streams, ds) && ds != []
    ensures Chain(streams[1..], ds[1..])
  {
  }

  lemma BodyCons(s: Stream, i: nat, count: nat, d: Device, s1: Stream, ds: seq<Device>, s2: Stream)
    requires i < count && DecodeEntry(s) == Done(DeviceAndFlags(d, []), s1)
    requires DecodeBody(s1, i + 1, count) == Done(Devlist(ds, []), s2)
    ensures DecodeBody(s, i, count) == Done(Devlist([d] + ds, []), s2)
  {
    var none: seq<Truncation> := Indexed([], i);
    assert none + [] == [];
  }

  /** The streams a decoder of the encoded list passes through. */
  function Passed(ds: seq<Device>, more: Bytes, tail: Tail): (r: seq<Stream>)
    requires AllCarried(ds)
    ensures |r| == |ds| + 1 && r[0] == Stream(EncodeBody(ds) + more, tail) && r[|ds|] == Stream(more, tail)
  {
    if ds == [] then assert [] + more == more; [Stream(more, tail)]
    else [Stream(EncodeBody(ds) + more, tail)] + Passed(ds[1..], more, tail)
  }

  lemma {:induction false} PassedIsChain(ds: seq<Device>, more: Bytes, tail: Tail)
    requires AllCarried(ds)
    ensures Chain(Passed(ds, more, tail), AllListed(ds))
    decreases |ds|
  {
    if ds != [] {
      PassedIsChain(ds[1..], more, tail);
      FirstEntry(ds, more, tail);
      ListedCons(ds);
      ChainCons(Stream(EncodeBody(ds) + more, tail), Passed(ds[1..], more, tail), Listed(ds[0]), AllListed(ds[1..]));
    }
  }

  lemma ListedCons(ds: seq<Device>)
    requires ds != []
    ensures AllListed(ds) == [Listed(ds[0])] + AllListed(ds[1..])
  {
  }

  lemma FirstEntry(ds: seq<Device>, more: Bytes, tail: Tail)
    requires ds != [] && AllCarried(ds)
    ensures DecodeEntry(Stream(EncodeBody(ds) + more, tail)) ==
            Done(DeviceAndFlags(Listed(ds[0]), []), Stream(EncodeBody(ds[1..]) + more, tail))
  {
    var rest := EncodeBody(ds[1..]);
    assert EncodeBody(ds) + more == DeviceEntry(ds[0]) + (rest + more);
    EntryRoundTrip(ds[0], rest + more, tail);
  }

  lemma ChainCons(s: Stream, rest: seq<Stream>, d: Device, ds: seq<Device>)
    requires Chain(rest, ds) && DecodeEntry(s) == Done(DeviceAndFlags(d, []), rest[0])
    ensures Chain([s] + rest, [d] + ds)
  {
  }

  lemma CountThenChain(body: Bytes, tail: Tail, streams: seq<Stream>, ds: seq<Device>)
    requires Chain(streams, ds) && streams[0] == Stream(body, tail) && |ds| <= MAX_DEVLIST_DEVICES
    ensures DecodeCount(Stream(Put32(|ds|) + body, tail)) == Done(Devlist(ds, []), streams[|ds|])
  {
    TakeFront(Put32(|ds|), body, tail);
    Get32Put32(|ds|);
    BodyFromChain(streams, ds, 0);
  }

  /**
   * For any list of at most 1024 devices with known speed and printable,
   * in-width path and bus id, decoding the encoding consumes exactly the frame,
   * whatever follows it, and returns the list with no truncation flags.
   */
  lemma DevlistRoundTrip(ds: seq<Device>, more: Bytes, tail: Tail)
    requires |ds| <= 1024 && AllCarried(ds)
    ensures DecodeDevlist(Stream(EncodeDevlist(ds) + more, tail)) ==
            Done(Devlist(AllListed(ds), []), Stream(more, tail))
  {
    var head, count, body := EncodeHeader(OP_REP_DEVLIST, 0), Put32(|ds|), EncodeBody(ds);
    assert EncodeDevlist(ds) + more == head + (count + (body + more));
    HeaderRoundTrip(OP_REP_DEVLIST, 0, count + (body + more), tail);
    PassedIsChain(ds, more, tail);
    CountThenChain(body + more, tail, Passed(ds, more, tail), AllListed(ds));
  }

  /** A longer list is refused whatever it contains, if it can be encoded. */
  lemma LongDevlistIsRefused(ds: seq<Device>, more: Bytes, tail: Tail)
    requires 1024 < |ds| < 0x1_0000_0000
    requires forall i :: 0 <= i < |ds| ==> FitsFields(ds[i])
    ensures DecodeDevlist(Stream(EncodeDevlist(ds) + more, tail)) == Bad(ProtocolMismatch)
  {
    var head, count, body := EncodeHeader(OP_REP_DEVLIST, 0), Put32(|ds|), EncodeBody(ds);
    assert EncodeDevlist(ds) + more == head + (count + (body + more));
    HeaderRoundTrip(OP_REP_DEVLIST, 0, count + (body + more), tail);
    TakeFront(count, body + more, tail);
    Get32Put32(|ds|);
  }

  /** The listed form is a fixed point: what a peer sees, it can pass on. */
  lemma ListedIsStable(d: Device)
    requires Carried(d)
    ensures Carried(Listed(d)) && Listed(Listed(d)) == Listed(d)
  {
    assert Padded(Listed(d), d.numInterfaces) == Padded(d, d.numInterfaces);
  }

  // --- Import reply --------------------------------------------------------

  lemma ImportReplyRoundTrip(d: Device, more: Bytes, tail: Tail)
    requires Carried(d)
    ensures EncodeImportReply(d).Ok?
    ensures DecodeImportReply(Stream(EncodeImportReply(d).value + more, tail)) ==
            Done(DeviceAndFlags(Plain(d), []), Stream(more, tail))
  {
    assert EncodeImportReply(d).value + more == EncodeHeader(OP_REP_IMPORT, 0) + (DeviceBytes(d) + more);
    HeaderRoundTrip(OP_REP_IMPORT, 0, DeviceBytes(d) + more, tail);
    DeviceRoundTrip(d, more, tail);
  }

  /** Every error reply the exporter may send decodes to the error of its
      status: not available, busy, in error, no such device. */
  lemma ImportErrorRoundTrip(status: U32, more: Bytes, tail: Tail)
    ensures EncodeImportError(status).Ok? <==> status in {1, 2, 3, 4}
    ensures EncodeImportError(status).Ok? ==>
      DecodeImportReply(Stream(EncodeImportError(status).value + more, tail)) ==
      Bad(map[1 := DeviceNotFound, 2 := DeviceAlreadyBound, 3 := DeviceUnavailable, 4 := DeviceNotFound][status])
    ensures status > 4 ==>
      DecodeImportReply(Stream(EncodeHeader(OP_REP_IMPORT, status) + more, tail)) == Bad(ProtocolError)
  {
    HeaderRoundTrip(OP_REP_IMPORT, status, more, tail);
  }
}
