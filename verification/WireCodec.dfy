/**
 * The OP_* part of the USB/IP protocol, version 0x0111, as
 * internal/adapter/wire reads and writes it. Encoders give the bytes, decoders
 * consume a stream.
 */
module WireCodec {
  import opened Base
  import opened WireBytes
  import opened WireStream

  const PROTOCOL_VERSION: U16 := 0x0111
  const OP_REQ_DEVLIST: U16 := 0x8005
  const OP_REP_DEVLIST: U16 := 0x0005
  const OP_REQ_IMPORT: U16 := 0x8003
  const OP_REP_IMPORT: U16 := 0x0003
  const SYSFS_PATH_SIZE: nat := 256
  const BUSID_SIZE: nat := 32
  const DEVICE_SIZE: nat := 312
  const MAX_DEVLIST_DEVICES: nat := 1024

  datatype Interface = Interface(class_: Byte, subclass: Byte, protocol: Byte, alt: Byte)

  /** `manufacturer`, `productName` and an interface's `alt` are local only. */
  datatype Device = Device(
    path: Bytes, busId: Bytes, busNum: U16, devNum: U16, speed: U32,
    vendorId: U16, productId: U16, bcdDevice: U16,
    class_: Byte, subclass: Byte, protocol: Byte,
    configValue: Byte, numConfigs: Byte, numInterfaces: Byte,
    manufacturer: Bytes, productName: Bytes, interfaces: seq<Interface>)

  /** Which field was not NUL-terminated, and of which device. */
  datatype FieldName = PathField | BusIdField
  datatype Truncation = Truncation(field: FieldName, index: nat)

  predicate KnownOp(op: U16) {
    op == OP_REQ_DEVLIST || op == OP_REP_DEVLIST || op == OP_REQ_IMPORT || op == OP_REP_IMPORT
  }

  predicate KnownSpeed(speed: U32) { speed <= 6 }

  function EofAsUnexpected(e: WireError): WireError { if EofClass(e) then UnexpectedEof else e }

  // --- Header --------------------------------------------------------------

  function EncodeHeader(op: U16, status: U32): (r: Bytes)
    ensures |r| == 8
  {
    Put16(PROTOCOL_VERSION) + Put16(op) + Put32(status)
  }

  datatype Header = Header(op: U16, status: U32)

  function HeaderOf(buf: Bytes): Result<Header, WireError>
    requires |buf| == 8
  {
    if Get16(buf[0..2]) != PROTOCOL_VERSION then Err(ProtocolMismatch)
    else if !KnownOp(Get16(buf[2..4])) then Err(ProtocolMismatch)
    else Ok(Header(Get16(buf[2..4]), Get32(buf[4..8])))
  }

  /** decodeHeaderAllowStatus. */
  function DecodeHeaderAllowStatus(s: Stream): Decoded<Header> {
    match Take(s, 8)
    case Bad(e) => Bad(e)
    case Done(buf, rest) =>
      match HeaderOf(buf)
      case Err(e) => Bad(e)
      case Ok(h) => Done(h, rest)
  }

  function DecodeHeader(s: Stream): Decoded<Header> {
    match DecodeHeaderAllowStatus(s)
    case Bad(e) => Bad(e)
    case Done(h, rest) => if h.status != 0 then Bad(ProtocolError) else Done(h, rest)
  }

  // --- Device record -------------------------------------------------------

  /** encodeDeviceTail: the 24 bytes after the two string fields. */
  function DeviceTail(d: Device): (r: Bytes)
    ensures |r| == 24
  {
    Put32(d.busNum) + Put32(d.devNum) + Put32(d.speed)
    + Put16(d.vendorId) + Put16(d.productId) + Put16(d.bcdDevice)
    + [d.class_, d.subclass, d.protocol, d.configValue, d.numConfigs, d.numInterfaces]
  }

  predicate FitsFields(d: Device) { |d.path| < SYSFS_PATH_SIZE && |d.busId| < BUSID_SIZE }

  function DeviceBytes(d: Device): (r: Bytes)
    requires FitsFields(d)
    ensures |r| == DEVICE_SIZE
  {
    Pad(d.path, SYSFS_PATH_SIZE) + Pad(d.busId, BUSID_SIZE) + DeviceTail(d)
  }

  function EncodeDevice(d: Device): Result<Bytes, WireError> {
    if |d.path| >= SYSFS_PATH_SIZE then Err(ProtocolError)
    else if |d.busId| >= BUSID_SIZE then Err(BusIdInvalid)
    else Ok(DeviceBytes(d))
  }

  datatype DeviceAndFlags = DeviceAndFlags(device: Device, flags: seq<FieldName>)

  function TailFields(path: Bytes, busId: Bytes, b: Bytes): Device
    requires |b| == 24 && Get32(b[0..4]) < 0x1_0000 && Get32(b[4..8]) < 0x1_0000
  {
    Device(path, busId, Get32(b[0..4]), Get32(b[4..8]), Get32(b[8..12]),
           Get16(b[12..14]), Get16(b[14..16]), Get16(b[16..18]),
           b[18], b[19], b[20], b[21], b[22], b[23], [], [], [])
  }

  /** decodeDeviceBuf. */
  function DeviceOf(buf: Bytes): Result<DeviceAndFlags, WireError>
    requires |buf| == DEVICE_SIZE
  {
    var (path, pathBad) := Field(buf[0..256]);
    var (busId, busBad) := Field(buf[256..288]);
    var tail := buf[288..312];
    if Get32(tail[0..4]) > 0xFFFF then Err(ProtocolError)
    else if Get32(tail[4..8]) > 0xFFFF then Err(ProtocolError)
    else if !KnownSpeed(Get32(tail[8..12])) then Err(ProtocolError)
    else
      Ok(DeviceAndFlags(TailFields(path, busId, tail),
                        (if pathBad then [PathField] else []) + (if busBad then [BusIdField] else [])))
  }

  function DecodeDevice(s: Stream): Decoded<DeviceAndFlags> {
    match Take(s, DEVICE_SIZE)
    case Bad(e) => Bad(EofAsUnexpected(e))
    case Done(buf, rest) =>
      match DeviceOf(buf)
      case Err(e) => Bad(e)
      case Ok(v) => Done(v, rest)
  }

  // --- Interfaces ----------------------------------------------------------

  /** The interface written at position `i`: zero where the list is short. */
  function InterfaceAt(d: Device, i: nat): Interface {
    if i < |d.interfaces| then d.interfaces[i].(alt := 0) else Interface(0, 0, 0, 0)
  }

  function InterfaceBytes(f: Interface): (r: Bytes)
    ensures |r| == 4
  {
    [f.class_, f.subclass, f.protocol, 0]
  }

  /** The first `n` interface descriptors of `d`. */
  function EncodeInterfaces(d: Device, n: nat): (r: Bytes)
    ensures |r| == 4 * n
  {
    if n == 0 then [] else EncodeInterfaces(d, n - 1) + InterfaceBytes(InterfaceAt(d, n - 1))
  }

  function InterfacesOf(buf: Bytes, n: nat): (r: seq<Interface>)
    requires |buf| == 4 * n
    ensures |r| == n
  {
    if n == 0 then []
    else
      InterfacesOf(buf[..4 * (n - 1)], n - 1)
      + [Interface(buf[4 * (n - 1)], buf[4 * (n - 1) + 1], buf[4 * (n - 1) + 2], 0)]
  }

  function DecodeInterfaces(s: Stream, n: Byte): Decoded<seq<Interface>> {
    if n == 0 then Done([], s)
    else
      match Take(s, 4 * n)
      case Bad(e) => Bad(EofAsUnexpected(e))
      case Done(buf, rest) => Done(InterfacesOf(buf, n), rest)
  }

  // --- OP_REP_DEVLIST ------------------------------------------------------

  function DeviceEntry(d: Device): Bytes
    requires FitsFields(d)
  {
    DeviceBytes(d) + EncodeInterfaces(d, d.numInterfaces)
  }

  function EncodeBody(ds: seq<Device>): Bytes
    requires forall i :: 0 <= i < |ds| ==> FitsFields(ds[i])
  {
    if ds == [] then [] else DeviceEntry(ds[0]) + EncodeBody(ds[1..])
  }

  function EncodeDevlist(ds: seq<Device>): Bytes
    requires |ds| < 0x1_0000_0000 && forall i :: 0 <= i < |ds| ==> FitsFields(ds[i])
  {
    EncodeHeader(OP_REP_DEVLIST, 0) + Put32(|ds|) + EncodeBody(ds)
  }

  /** decodeDevlistDeviceAt. */
  function DecodeEntry(s: Stream): Decoded<DeviceAndFlags> {
    match DecodeDevice(s)
    case Bad(e) => Bad(e)
    case Done(v, s1) =>
      match DecodeInterfaces(s1, v.device.numInterfaces)
      case Bad(e) => Bad(e)
      case Done(fs, s2) => Done(v.(device := v.device.(interfaces := fs)), s2)
  }

  datatype Devlist = Devlist(devices: seq<Device>, flags: seq<Truncation>)

  function Indexed(flags: seq<FieldName>, index: nat): (r: seq<Truncation>)
    ensures |r| == |flags|
  {
    seq(|flags|, i requires 0 <= i < |flags| => Truncation(flags[i], index))
  }

  /** Devices `i` up to `count`. */
  function DecodeBody(s: Stream, i: nat, count: nat): Decoded<Devlist>
    requires i <= count
    decreases count - i
  {
    if i == count then Done(Devlist([], []), s)
    else
      match DecodeEntry(s)
      case Bad(e) => Bad(e)
      case Done(v, s1) =>
        match DecodeBody(s1, i + 1, count)
        case Bad(e) => Bad(e)
        case Done(more, s2) => Done(Devlist([v.device] + more.devices, Indexed(v.flags, i) + more.flags), s2)
  }

  function DecodeCount(s: Stream): Decoded<Devlist> {
    match Take(s, 4)
    case Bad(e) => Bad(EofAsUnexpected(e))
    case Done(buf, s1) =>
      if Get32(buf) > MAX_DEVLIST_DEVICES then Bad(ProtocolMismatch) else DecodeBody(s1, 0, Get32(buf))
  }

  /** DecodeOpRepDevlist, but for its TrailingBytes flag. */
  function DecodeDevlist(s: Stream): Decoded<Devlist> {
    match DecodeHeader(s)
    case Bad(e) => Bad(e)
    case Done(h, s1) => if h.op != OP_REP_DEVLIST then Bad(ProtocolMismatch) else DecodeCount(s1)
  }

  // --- OP_REQ_IMPORT and OP_REP_IMPORT -------------------------------------

  function EncodeImportRequest(busId: Bytes): Result<Bytes, WireError> {
    if |busId| >= BUSID_SIZE then Err(BusIdInvalid)
    else Ok(EncodeHeader(OP_REQ_IMPORT, 0) + Pad(busId, BUSID_SIZE))
  }

  predicate WireBusIdByte(b: Byte) {
    || 0x61 <= b <= 0x7A || 0x41 <= b <= 0x5A || 0x30 <= b <= 0x39
    || b == 0x2E || b == 0x5F || b == 0x2D
  }

  /** ValidateWireBusID. */
  predicate WireBusId(s: Bytes) {
    s != [] && |s| < BUSID_SIZE && forall i :: 0 <= i < |s| ==> WireBusIdByte(s[i])
  }

  function BusIdOf(buf: Bytes): Result<Bytes, WireError> {
    var (s, truncated) := Field(buf);
    if truncated then Err(BusIdInvalid)
    else if !WireBusId(s) then Err(BusIdInvalid)
    else Ok(s)
  }

  /** DecodeOpReqImportBody. */
  function DecodeImportBody(s: Stream): Decoded<Bytes> {
    match Take(s, BUSID_SIZE)
    case Bad(e) => Bad(EofAsUnexpected(e))
    case Done(buf, rest) =>
      match BusIdOf(buf)
      case Err(e) => Bad(e)
      case Ok(id) => Done(id, rest)
  }

  function DecodeImportRequest(s: Stream): Decoded<Bytes> {
    match DecodeHeader(s)
    case Bad(e) => Bad(e)
    case Done(h, s1) => if h.op != OP_REQ_IMPORT then Bad(ProtocolMismatch) else DecodeImportBody(s1)
  }

  function EncodeImportReply(d: Device): Result<Bytes, WireError> {
    match EncodeDevice(d)
    case Err(e) => Err(e)
    case Ok(b) => Ok(EncodeHeader(OP_REP_IMPORT, 0) + b)
  }

  function EncodeImportError(status: U32): Result<Bytes, WireError> {
    if 1 <= status <= 4 then Ok(EncodeHeader(OP_REP_IMPORT, status)) else Err(ProtocolError)
  }

  function ImportStatusError(status: U32): WireError {
    if status == 1 || status == 4 then DeviceNotFound
    else if status == 2 then DeviceAlreadyBound
    else if status == 3 then DeviceUnavailable
    else ProtocolError
  }

  function DecodeImportReply(s: Stream): Decoded<DeviceAndFlags> {
    match DecodeHeaderAllowStatus(s)
    case Bad(e) => Bad(e)
    case Done(h, s1) =>
      if h.op != OP_REP_IMPORT then Bad(ProtocolMismatch)
      else if h.status != 0 then Bad(ImportStatusError(h.status))
      else DecodeDevice(s1)
  }

  // --- Bus ids a user may enter --------------------------------------------

  predicate Digit(b: Byte) { 0x30 <= b <= 0x39 }

  /** One byte of ^[0-9]+-[0-9]+(\.[0-9]+)*$: 0 and 2 expect a digit, 1 is
      inside the bus number, 3 inside a port number; 4 is failure. */
  function TopologyStep(q: nat, b: Byte): nat {
    if q == 0 then (if Digit(b) then 1 else 4)
    else if q == 1 then (if Digit(b) then 1 else if b == 0x2D then 2 else 4)
    else if q == 2 then (if Digit(b) then 3 else 4)
    else if q == 3 then (if Digit(b) then 3 else if b == 0x2E then 2 else 4)
    else 4
  }

  function TopologyState(s: Bytes): nat {
    if s == [] then 0 else TopologyStep(TopologyState(s[..|s| - 1]), s[|s| - 1])
  }

  predicate Topology(s: Bytes) { TopologyState(s) == 3 }

  /** ParseBusID; its other checks are implied by the pattern. */
  function ParseBusId(s: Bytes): Result<Bytes, WireError> {
    if s == [] || |s| >= BUSID_SIZE || 0 in s || !Topology(s) then Err(BusIdInvalid) else Ok(s)
  }
}
