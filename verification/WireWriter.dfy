/**
 * The encoders of internal/adapter/wire as they run: fixed-width buffers are
 * filled in place and appended to a writer. A failing encoder leaves what it
 * had already written.
 */
module WireWriter {
  import opened Base
  import opened WireBytes
  import opened WireStream
  import opened WireCodec

  class Writer {
    var out: Bytes

    constructor ()
      ensures out == []
    {
      out := [];
    }

    method Write(b: Bytes)
      modifies this
      ensures out == old(out) + b
    {
      out := out + b;
    }
  }

  /** `buf[at..]` starts with `b`, the rest of the buffer is as before. */
  twostate predicate Stored(buf: array<Byte>, at: nat, b: Bytes)
    requires at + |b| <= buf.Length
    reads buf
  {
    buf[..] == old(buf[..at]) + b + old(buf[at + |b|..])
  }

  method PutUint16(buf: array<Byte>, at: nat, v: U16)
    requires at + 2 <= buf.Length
    modifies buf
    ensures Stored(buf, at, Put16(v))
  {
    buf[at] := v / 0x100;
    buf[at + 1] := v % 0x100;
  }

  method PutUint32(buf: array<Byte>, at: nat, v: U32)
    requires at + 4 <= buf.Length
    modifies buf
    ensures Stored(buf, at, Put32(v))
  {
    buf[at] := v / 0x100_0000;
    buf[at + 1] := v / 0x1_0000 % 0x100;
    buf[at + 2] := v / 0x100 % 0x100;
    buf[at + 3] := v % 0x100;
  }

  /** encodeDeviceTail. */
  method FillDeviceTail(buf: array<Byte>, d: Device)
    requires buf.Length == 24
    modifies buf
    ensures buf[..] == DeviceTail(d)
  {
    FillNumbers(buf, d);
    FillIds(buf, d);
    buf[18], buf[19], buf[20] := d.class_, d.subclass, d.protocol;
    buf[21], buf[22], buf[23] := d.configValue, d.numConfigs, d.numInterfaces;
    assert buf[18..] == [d.class_, d.subclass, d.protocol, d.configValue, d.numConfigs, d.numInterfaces];
    assert buf[..] == buf[..18] + buf[18..];
  }

  method FillNumbers(buf: array<Byte>, d: Device)
    requires buf.Length == 24
    modifies buf
    ensures buf[..12] == Put32(d.busNum) + Put32(d.devNum) + Put32(d.speed)
  {
    PutUint32(buf, 0, d.busNum);
    assert buf[..4] == Put32(d.busNum);
    PutUint32(buf, 4, d.devNum);
    assert buf[..8] == Put32(d.busNum) + Put32(d.devNum);
    PutUint32(buf, 8, d.speed);
  }

  method FillIds(buf: array<Byte>, d: Device)
    requires buf.Length == 24
    modifies buf
    ensures buf[..18] == old(buf[..12]) + Put16(d.vendorId) + Put16(d.productId) + Put16(d.bcdDevice)
  {
    PutUint16(buf, 12, d.vendorId);
    assert buf[..14] == old(buf[..12]) + Put16(d.vendorId);
    PutUint16(buf, 14, d.productId);
    assert buf[..16] == old(buf[..12]) + Put16(d.vendorId) + Put16(d.productId);
    PutUint16(buf, 16, d.bcdDevice);
  }

  method WritePaddedString(w: Writer, s: Bytes, size: nat) returns (e: Option<WireError>)
    modifies w
    ensures e == if |s| < size then None else Some(if size == BUSID_SIZE then BusIdInvalid else ProtocolError)
    ensures w.out == if |s| < size then old(w.out) + Pad(s, size) else old(w.out)
  {
    if |s| >= size { return Some(if size == BUSID_SIZE then BusIdInvalid else ProtocolError); }
    var buf := new Byte[size](_ => 0);
    var i := 0;
    while i < |s|
      invariant 0 <= i <= |s| && forall k :: 0 <= k < size ==> buf[k] == if k < i then s[k] else 0
      invariant w.out == old(w.out)
    {
      buf[i] := s[i];
      i := i + 1;
    }
    assert buf[..] == Pad(s, size);
    w.Write(buf[..]);
    return None;
  }

  method WriteDevice(w: Writer, d: Device) returns (e: Option<WireError>)
    modifies w
    ensures match EncodeDevice(d)
            case Ok(b) => e.None? && w.out == old(w.out) + b
            case Err(x) => e == Some(x)
  {
    e := WritePaddedString(w, d.path, SYSFS_PATH_SIZE);
    if e.Some? { return; }
    e := WritePaddedString(w, d.busId, BUSID_SIZE);
    if e.Some? { return; }
    var tail := new Byte[24](_ => 0);
    FillDeviceTail(tail, d);
    w.Write(tail[..]);
  }

  /** encodeInterfaces: the declared count wins over the list's length. */
  method WriteInterfaces(w: Writer, d: Device)
    modifies w
    ensures w.out == old(w.out) + EncodeInterfaces(d, d.numInterfaces)
  {
    var i := 0;
    while i < d.numInterfaces
      invariant 0 <= i <= d.numInterfaces && w.out == old(w.out) + EncodeInterfaces(d, i)
    {
      var buf: Bytes := [0, 0, 0, 0];
      if i < |d.interfaces| {
        buf := [d.interfaces[i].class_, d.interfaces[i].subclass, d.interfaces[i].protocol, 0];
      }
      w.Write(buf);
      i := i + 1;
    }
  }

  lemma {:induction false} EncodeBodySnoc(ds: seq<Device>, d: Device)
    requires forall i :: 0 <= i < |ds| ==> FitsFields(ds[i])
    requires FitsFields(d)
    ensures EncodeBody(ds + [d]) == EncodeBody(ds) + DeviceEntry(d)
    decreases |ds|
  {
    if ds == [] {
      assert ds + [d] == [d] && [d][1..] == [];
    } else {
      assert (ds + [d])[1..] == ds[1..] + [d] && (ds + [d])[0] == ds[0];
      EncodeBodySnoc(ds[1..], d);
    }
  }

  method WriteEntry(w: Writer, d: Device) returns (e: Option<WireError>)
    modifies w
    ensures e.None? <==> FitsFields(d)
    ensures e.None? ==> w.out == old(w.out) + DeviceEntry(d)
    ensures e.Some? ==> EncodeDevice(d) == Err(e.value)
  {
    e := WriteDevice(w, d);
    if e.None? { WriteInterfaces(w, d); }
  }

  predicate AllFit(ds: seq<Device>) { forall i :: 0 <= i < |ds| ==> FitsFields(ds[i]) }

  /** The first device that does not fit its fields, and its error. */
  ghost predicate FirstMisfit(ds: seq<Device>, i: nat, e: WireError) {
    i < |ds| && AllFit(ds[..i]) && EncodeDevice(ds[i]) == Err(e)
  }

  method WriteBody(w: Writer, ds: seq<Device>) returns (e: Option<WireError>)
    modifies w
    ensures e.None? <==> AllFit(ds)
    ensures e.None? ==> w.out == old(w.out) + EncodeBody(ds)
    ensures e.Some? ==> exists i :: FirstMisfit(ds, i, e.value)
  {
    ghost var base := w.out;
    var i := 0;
    while i < |ds|
      invariant 0 <= i <= |ds| && AllFit(ds[..i]) && Wrote(w, base, ds[..i])
    {
      ghost var before := w.out;
      e := WriteEntry(w, ds[i]);
      if e.Some? {
        assert FirstMisfit(ds, i, e.value);
        return;
      }
      assert ds[..i + 1] == ds[..i] + [ds[i]];
      EntryWritten(base, before, w.out, ds[..i], ds[i], ds[..i + 1]);
      i := i + 1;
    }
    assert ds[..i] == ds;
    e := None;
  }

  ghost predicate Wrote(w: Writer, base: Bytes, ds: seq<Device>)
    requires AllFit(ds)
    reads w
  {
    w.out == base + EncodeBody(ds)
  }

  lemma EntryWritten(base: Bytes, before: Bytes, out: Bytes, ds: seq<Device>, d: Device, more: seq<Device>)
    requires AllFit(ds) && FitsFields(d) && before == base + EncodeBody(ds) && out == before + DeviceEntry(d)
    requires more == ds + [d]
    ensures AllFit(more) && out == base + EncodeBody(more)
  {
    BodyGrows(ds, d, more);
    Regroup(base, EncodeBody(ds), DeviceEntry(d), EncodeBody(more));
  }

  lemma Regroup(a: Bytes, b: Bytes, c: Bytes, bc: Bytes)
    requires bc == b + c
    ensures a + b + c == a + bc
  {
  }

  lemma BodyGrows(ds: seq<Device>, d: Device, more: seq<Device>)
    requires AllFit(ds) && FitsFields(d) && more == ds + [d]
    ensures AllFit(more) && EncodeBody(more) == EncodeBody(ds) + DeviceEntry(d)
  {
    EncodeBodySnoc(ds, d);
  }

  /** EncodeOpRepDevlist: it fails exactly when the count does not fit 32 bits
      or some field is too wide, with the error of the first such device. */
  method WriteDevlist(w: Writer, ds: seq<Device>) returns (e: Option<WireError>)
    modifies w
    ensures e.None? <==> |ds| < 0x1_0000_0000 && AllFit(ds)
    ensures e.None? ==> w.out == old(w.out) + EncodeDevlist(ds)
    ensures e.Some? ==>
      if |ds| < 0x1_0000_0000 then exists i :: FirstMisfit(ds, i, e.value) else e.value == CountOverflow
  {
    w.Write(EncodeHeader(OP_REP_DEVLIST, 0));
    if |ds| > 0xFFFF_FFFF { return Some(CountOverflow); }
    w.Write(Put32(|ds|));
    e := WriteBody(w, ds);
  }
}
