/**
 * The decoders of internal/adapter/wire as they run: they read from a
 * connection that hands out arbitrary chunks, through the handshake limiter
 * (disabled on the importer's side), and agree with the decoding functions.
 */
module WireReader {
  import opened Base
  import opened WireBytes
  import opened WireStream
  import opened WireCodec

  /** The outcome `r` of a decoder that started with `whole` as its decoding
      and left the stream `after`; without a limit the error agrees too. */
  ghost predicate Agrees<T>(whole: Decoded<T>, r: Result<T, WireError>, after: Stream, limited: bool) {
    && (r.Ok? <==> whole.Done?)
    && (r.Ok? ==> whole == Done(r.value, after))
    && (r.Err? && !limited ==> whole == Bad(r.error))
  }

  method ReadHeaderAllowStatus(r: LimitReader) returns (h: Result<Header, WireError>)
    requires r.Ready()
    modifies r, r.r
    ensures r.Ready() && Agrees(DecodeHeaderAllowStatus(old(r.View())), h, r.View(), r.limit > 0)
  {
    var buf := r.ReadFull(8);
    match buf
    case Err(e) => return Err(e);
    case Ok(b) =>
      var version := Get16(b[0..2]);
      var op := Get16(b[2..4]);
      var status := Get32(b[4..8]);
      if version != PROTOCOL_VERSION { return Err(ProtocolMismatch); }
      if !KnownOp(op) { return Err(ProtocolMismatch); }
      return Ok(Header(op, status));
  }

  method ReadHeader(r: LimitReader) returns (h: Result<Header, WireError>)
    requires r.Ready()
    modifies r, r.r
    ensures r.Ready() && Agrees(DecodeHeader(old(r.View())), h, r.View(), r.limit > 0)
  {
    h := ReadHeaderAllowStatus(r);
    if h.Ok? && h.value.status != 0 { return Err(ProtocolError); }
  }

  method ReadDevice(r: LimitReader) returns (d: Result<DeviceAndFlags, WireError>)
    requires r.Ready()
    modifies r, r.r
    ensures r.Ready() && Agrees(DecodeDevice(old(r.View())), d, r.View(), r.limit > 0)
  {
    var buf := r.ReadFull(DEVICE_SIZE);
    match buf
    case Err(e) => return Err(EofAsUnexpected(e));
    case Ok(b) =>
      var path, pathBad := PaddedStringFromBytes(b[0..256]);
      var busId, busBad := PaddedStringFromBytes(b[256..288]);
      var tail := b[288..312];
      if Get32(tail[0..4]) > 0xFFFF { return Err(ProtocolError); }
      if Get32(tail[4..8]) > 0xFFFF { return Err(ProtocolError); }
      if !KnownSpeed(Get32(tail[8..12])) { return Err(ProtocolError); }
      var flags: seq<FieldName> := [];
      if pathBad { flags := flags + [PathField]; }
      if busBad { flags := flags + [BusIdField]; }
      assert flags == (if pathBad then [PathField] else []) + (if busBad then [BusIdField] else []);
      return Ok(DeviceAndFlags(TailFields(path, busId, tail), flags));
  }

  method ReadInterfaces(r: LimitReader, n: Byte) returns (fs: Result<seq<Interface>, WireError>)
    requires r.Ready()
    modifies r, r.r
    ensures r.Ready() && Agrees(DecodeInterfaces(old(r.View()), n), fs, r.View(), r.limit > 0)
  {
    if n == 0 { return Ok([]); }
    var buf := r.ReadFull(4 * n);
    match buf
    case Err(e) => return Err(EofAsUnexpected(e));
    case Ok(b) =>
      var list := InterfaceList(b, n);
      return Ok(list);
  }

  method InterfaceList(b: Bytes, n: nat) returns (list: seq<Interface>)
    requires |b| == 4 * n
    ensures list == InterfacesOf(b, n)
  {
    list := [];
    var i := 0;
    while i < n
      invariant 0 <= i <= n && list == InterfacesOf(b[..4 * i], i)
    {
      assert b[..4 * (i + 1)][..4 * i] == b[..4 * i];
      list := list + [Interface(b[4 * i], b[4 * i + 1], b[4 * i + 2], 0)];
      i := i + 1;
    }
    assert b[..4 * n] == b;
  }

  method ReadEntry(r: LimitReader) returns (d: Result<DeviceAndFlags, WireError>)
    requires r.Ready()
    modifies r, r.r
    ensures r.Ready() && Agrees(DecodeEntry(old(r.View())), d, r.View(), r.limit > 0)
  {
    d := ReadDevice(r);
    if d.Err? { return; }
    var fs := ReadInterfaces(r, d.value.device.numInterfaces);
    match fs
    case Err(e) => return Err(e);
    case Ok(list) => return Ok(d.value.(device := d.value.device.(interfaces := list)));
  }

  /** The list decoded so far followed by what the rest decodes to. */
  function Resume(devices: seq<Device>, flags: seq<Truncation>, rest: Decoded<Devlist>): Decoded<Devlist> {
    match rest
    case Bad(e) => Bad(e)
    case Done(more, s) => Done(Devlist(devices + more.devices, flags + more.flags), s)
  }

  lemma ResumeEntry(devices: seq<Device>, flags: seq<Truncation>, s: Stream, i: nat, count: nat)
    requires i < count
    ensures Resume(devices, flags, DecodeBody(s, i, count)) ==
      match DecodeEntry(s)
      case Bad(e) => Bad(e)
      case Done(v, s1) => Resume(devices + [v.device], flags + Indexed(v.flags, i), DecodeBody(s1, i + 1, count))
  {
    match DecodeEntry(s)
    case Bad(_) =>
    case Done(v, s1) =>
      match DecodeBody(s1, i + 1, count)
      case Bad(_) =>
      case Done(more, _) =>
        assert devices + ([v.device] + more.devices) == devices + [v.device] + more.devices;
        assert flags + (Indexed(v.flags, i) + more.flags) == flags + Indexed(v.flags, i) + more.flags;
  }

  lemma ResumeNothing(s: Stream, i: nat, count: nat)
    requires i <= count
    ensures Resume([], [], DecodeBody(s, i, count)) == DecodeBody(s, i, count)
  {
    match DecodeBody(s, i, count)
    case Bad(_) =>
    case Done(more, _) => assert [] + more.devices == more.devices && [] + more.flags == more.flags;
  }

  /** mergeDeviceTruncationFlags. */
  method MergeFlags(flags: seq<Truncation>, fields: seq<FieldName>, index: nat) returns (merged: seq<Truncation>)
    ensures merged == flags + Indexed(fields, index)
  {
    merged := flags;
    var k := 0;
    while k < |fields|
      invariant 0 <= k <= |fields| && merged == flags + Indexed(fields, index)[..k]
    {
      merged := merged + [Truncation(fields[k], index)];
      k := k + 1;
    }
  }

  /** decodeDevlistBody. */
  method ReadBody(r: LimitReader, count: nat) returns (list: Result<Devlist, WireError>)
    requires r.Ready()
    modifies r, r.r
    ensures r.Ready() && Agrees(DecodeBody(old(r.View()), 0, count), list, r.View(), r.limit > 0)
  {
    ghost var whole := DecodeBody(r.View(), 0, count);
    var devices: seq<Device> := [];
    var flags: seq<Truncation> := [];
    ResumeNothing(r.View(), 0, count);
    var i := 0;
    while i < count
      invariant 0 <= i <= count && r.Ready()
      invariant whole == Resume(devices, flags, DecodeBody(r.View(), i, count))
    {
      ResumeEntry(devices, flags, r.View(), i, count);
      var d := ReadEntry(r);
      if d.Err? { return Err(d.error); }
      flags := MergeFlags(flags, d.value.flags, i);
      devices := devices + [d.value.device];
      i := i + 1;
    }
    assert devices + [] == devices && flags + [] == flags;
    return Ok(Devlist(devices, flags));
  }

  method ReadCount(r: LimitReader) returns (list: Result<Devlist, WireError>)
    requires r.Ready()
    modifies r, r.r
    ensures r.Ready() && Agrees(DecodeCount(old(r.View())), list, r.View(), r.limit > 0)
  {
    var buf := r.ReadFull(4);
    match buf
    case Err(e) => return Err(EofAsUnexpected(e));
    case Ok(b) =>
      if Get32(b) > MAX_DEVLIST_DEVICES { return Err(ProtocolMismatch); }
      list := ReadBody(r, Get32(b));
  }

  /** DecodeOpRepDevlist. */
  method ReadDevlist(r: LimitReader) returns (list: Result<Devlist, WireError>)
    requires r.Ready()
    modifies r, r.r
    ensures r.Ready() && Agrees(DecodeDevlist(old(r.View())), list, r.View(), r.limit > 0)
  {
    var h := ReadHeader(r);
    match h
    case Err(e) => return Err(e);
    case Ok(head) =>
      if head.op != OP_REP_DEVLIST { return Err(ProtocolMismatch); }
      list := ReadCount(r);
  }

  /** DecodeOpReqImportBody. */
  method ReadImportBody(r: LimitReader) returns (id: Result<Bytes, WireError>)
    requires r.Ready()
    modifies r, r.r
    ensures r.Ready() && Agrees(DecodeImportBody(old(r.View())), id, r.View(), r.limit > 0)
  {
    var buf := r.ReadFull(BUSID_SIZE);
    match buf
    case Err(e) => return Err(EofAsUnexpected(e));
    case Ok(b) =>
      var s, truncated := PaddedStringFromBytes(b);
      if truncated { return Err(BusIdInvalid); }
      if s == [] || |s| >= BUSID_SIZE { return Err(BusIdInvalid); }
      var i := 0;
      ghost var at := r.View();
      while i < |s|
        invariant 0 <= i <= |s| && forall j :: 0 <= j < i ==> WireBusIdByte(s[j])
        invariant r.Ready() && r.View() == at
      {
        if !WireBusIdByte(s[i]) { return Err(BusIdInvalid); }
        i := i + 1;
      }
      return Ok(s);
  }

  /** DecodeOpReqImport. */
  method ReadImportRequest(r: LimitReader) returns (id: Result<Bytes, WireError>)
    requires r.Ready()
    modifies r, r.r
    ensures r.Ready() && Agrees(DecodeImportRequest(old(r.View())), id, r.View(), r.limit > 0)
  {
    var h := ReadHeader(r);
    match h
    case Err(e) => return Err(e);
    case Ok(head) =>
      if head.op != OP_REQ_IMPORT { return Err(ProtocolMismatch); }
      id := ReadImportBody(r);
  }

  /** What handleConn does with a connection: None for any other opcode. */
  method ReadRequest(r: LimitReader) returns (op: Result<U16, WireError>, id: Option<Result<Bytes, WireError>>)
    requires r.Ready()
    modifies r, r.r
    ensures r.Ready()
    ensures id.Some? <==> DecodeHeader(old(r.View())).Done? && DecodeHeader(old(r.View())).value.op == OP_REQ_IMPORT
    ensures id.Some? ==> Agrees(DecodeImportRequest(old(r.View())), id.value, r.View(), r.limit > 0)
  {
    var h := ReadHeader(r);
    match h
    case Err(e) => return Err(e), None;
    case Ok(head) =>
      if head.op == OP_REQ_IMPORT {
        var body := ReadImportBody(r);
        return Ok(head.op), Some(body);
      }
      return Ok(head.op), None;
  }

  /** DecodeOpRepImport. */
  method ReadImportReply(r: LimitReader) returns (d: Result<DeviceAndFlags, WireError>)
    requires r.Ready()
    modifies r, r.r
    ensures r.Ready() && Agrees(DecodeImportReply(old(r.View())), d, r.View(), r.limit > 0)
  {
    var h := ReadHeaderAllowStatus(r);
    match h
    case Err(e) => return Err(e);
    case Ok(head) =>
      if head.op != OP_REP_IMPORT { return Err(ProtocolMismatch); }
      if head.status != 0 { return Err(ImportStatusError(head.status)); }
      d := ReadDevice(r);
  }
}
