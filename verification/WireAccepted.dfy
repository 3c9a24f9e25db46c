/**
 * What the decoders accept, byte by byte on every stream, and that a list
 * accepted without a truncation flag can be passed on unchanged.
 */
module WireAccepted {
  import opened Base
  import opened WireBytes
  import opened WireStream
  import opened WireCodec
  import opened WireRoundTrip

  predicate HeaderKnown(b: Bytes)
    requires |b| >= 8
  {
    b[0] == 0x01 && b[1] == 0x11 && (b[2] == 0x80 || b[2] == 0x00) && (b[3] == 0x03 || b[3] == 0x05)
  }

  lemma HalfIsZero(b: Bytes)
    requires |b| == 4
    ensures Get32(b) < 0x1_0000 <==> b[0] == 0 && b[1] == 0
    ensures Get32(b) <= 6 <==> b[0] == 0 && b[1] == 0 && b[2] == 0 && b[3] <= 6
  {
  }

  /** The error matrix of the request header. */
  lemma HeaderIsJudged(s: Stream)
    ensures
      var r := DecodeHeader(s);
      if |s.data| < 8 then
        r == Bad(match s.tail
                 case AtEof => if s.data == [] then Eof else UnexpectedEof
                 case Faulty => ReadFault
                 case TooLarge => HandshakeTooLarge)
      else if !HeaderKnown(s.data) then r == Bad(ProtocolMismatch)
      else if s.data[4..8] != [0, 0, 0, 0] then r == Bad(ProtocolError)
      else r == Done(Header(s.data[2] as int * 0x100 + s.data[3], 0), Stream(s.data[8..], s.tail))
  {
    if |s.data| >= 8 {
      var b := s.data[..8];
      assert b[0..2] == [b[0], b[1]] && b[2..4] == [b[2], b[3]] && b[4..8] == s.data[4..8];
    }
  }

  /** The first eight bytes of what each encoder writes. */
  lemma OpcodesOnTheWire(ds: seq<Device>, d: Device, id: Bytes)
    ensures EncodeHeader(OP_REQ_DEVLIST, 0) == [0x01, 0x11, 0x80, 0x05, 0, 0, 0, 0]
    ensures |ds| < 0x1_0000_0000 && (forall i :: 0 <= i < |ds| ==> FitsFields(ds[i])) ==>
      EncodeDevlist(ds)[..8] == [0x01, 0x11, 0x00, 0x05, 0, 0, 0, 0]
    ensures FitsFields(d) ==>
      EncodeImportReply(d).Ok? && EncodeImportReply(d).value[..8] == [0x01, 0x11, 0x00, 0x03, 0, 0, 0, 0]
    ensures |id| < BUSID_SIZE ==>
      EncodeImportRequest(id).Ok? && EncodeImportRequest(id).value[..8] == [0x01, 0x11, 0x80, 0x03, 0, 0, 0, 0]
  {
    assert EncodeHeader(OP_REP_DEVLIST, 0) == [0x01, 0x11, 0x00, 0x05, 0, 0, 0, 0];
    assert EncodeHeader(OP_REP_IMPORT, 0) == [0x01, 0x11, 0x00, 0x03, 0, 0, 0, 0];
    assert EncodeHeader(OP_REQ_IMPORT, 0) == [0x01, 0x11, 0x80, 0x03, 0, 0, 0, 0];
  }

  /** Each decoder takes its own opcode and refuses the other known ones. */
  lemma WrongOpcodeIsRefused(s: Stream)
    requires |s.data| >= 8 && HeaderKnown(s.data) && s.data[4..8] == [0, 0, 0, 0]
    ensures s.data[2..4] != [0x00, 0x05] ==> DecodeDevlist(s) == Bad(ProtocolMismatch)
    ensures s.data[2..4] != [0x00, 0x03] ==> DecodeImportReply(s) == Bad(ProtocolMismatch)
    ensures s.data[2..4] != [0x80, 0x03] ==> DecodeImportRequest(s) == Bad(ProtocolMismatch)
  {
    HeaderIsJudged(s);
    assert s.data[2..4] == [s.data[2], s.data[3]];
  }

  /** A string that leaves no room for its terminator: the path's error first. */
  lemma WidthIsChecked(d: Device)
    ensures EncodeDevice(d) == Err(ProtocolError) <==> |d.path| >= 256
    ensures EncodeDevice(d) == Err(BusIdInvalid) <==> |d.path| < 256 && |d.busId| >= 32
    ensures EncodeDevice(d).Ok? <==> |d.path| < 256 && |d.busId| < 32
  {
  }

  /** A device record is accepted exactly when its bus and device numbers fit
      sixteen bits and its speed is one of the seven the kernel defines. */
  lemma DeviceAcceptedIff(s: Stream)
    ensures DecodeDevice(s).Done? <==>
      && |s.data| >= 312
      && s.data[288] == 0 && s.data[289] == 0 && s.data[292] == 0 && s.data[293] == 0
      && s.data[296] == 0 && s.data[297] == 0 && s.data[298] == 0 && s.data[299] <= 6
    ensures |s.data| >= 312 && DecodeDevice(s).Bad? ==> DecodeDevice(s).error == ProtocolError
  {
    if |s.data| >= 312 {
      var tail := s.data[..312][288..312];
      TailWords(s.data);
      HalfIsZero(tail[0..4]);
      HalfIsZero(tail[4..8]);
      HalfIsZero(tail[8..12]);
    }
  }

  lemma TailWords(b: Bytes)
    requires |b| >= 312
    ensures
      var tail := b[..312][288..312];
      && tail[0..4] == [b[288], b[289], b[290], b[291]]
      && tail[4..8] == [b[292], b[293], b[294], b[295]]
      && tail[8..12] == [b[296], b[297], b[298], b[299]]
  {
  }

  /** A field that holds `text`: printable, and ended by a NUL. */
  ghost predicate HoldsText(field: Bytes, text: Bytes) {
    |text| < |field| && AllPrintable(text) && field[..|text|] == text && field[|text|] == 0
  }

  lemma FieldHolds(field: Bytes, text: Bytes)
    ensures Field(field) == (text, false) <==> HoldsText(field, text)
  {
    if HoldsText(field, text) { PrintableLengthIs(field, |text|); }
  }

  /** An accepted record's path and bus id are unflagged exactly when their
      own fields hold them. */
  lemma DeviceTextIff(s: Stream, text: Bytes)
    requires DecodeDevice(s).Done?
    ensures
      var v := DecodeDevice(s).value;
      && |s.data| >= 312
      && (PathField !in v.flags && v.device.path == text <==> HoldsText(s.data[0..256], text))
      && (BusIdField !in v.flags && v.device.busId == text <==> HoldsText(s.data[256..288], text))
  {
    var buf := s.data[..312];
    assert buf[0..256] == s.data[0..256] && buf[256..288] == s.data[256..288];
    FieldHolds(s.data[0..256], text);
    FieldHolds(s.data[256..288], text);
  }

  /** A record accepted without a flag is one the wire promises to carry. */
  lemma AcceptedIsCarried(s: Stream)
    requires DecodeDevice(s).Done? && DecodeDevice(s).value.flags == []
    ensures Carried(DecodeDevice(s).value.device)
  {
    var buf := s.data[..312];
    FieldIsPrefix(buf[0..256]);
    FieldIsPrefix(buf[256..288]);
  }

  lemma InterfacesAreListed(buf: Bytes, n: nat, i: nat)
    requires |buf| == 4 * n && i < n
    ensures InterfacesOf(buf, n)[i].alt == 0
  {
    if i < n - 1 { InterfacesAreListed(buf[..4 * (n - 1)], n - 1, i); }
  }

  lemma EntryIsListed(s: Stream)
    requires DecodeEntry(s).Done? && DecodeEntry(s).value.flags == []
    ensures
      var d := DecodeEntry(s).value.device;
      Carried(d) && Listed(d) == d
  {
    AcceptedIsCarried(s);
    var Done(v, s1) := DecodeDevice(s);
    var n := v.device.numInterfaces;
    var d := DecodeEntry(s).value.device;
    forall i | 0 <= i < n
      ensures InterfaceAt(d, i) == d.interfaces[i]
    {
      InterfacesAreListed(s1.data[..4 * n], n, i);
    }
    assert Padded(d, n) == d.interfaces;
  }

  // --- Which device a truncation flag names --------------------------------

  /** Entry after entry: `streams[k]` is the stream before device `k`. */
  ghost predicate Entries(streams: seq<Stream>, entries: seq<DeviceAndFlags>) {
    && |streams| == |entries| + 1
    && forall k :: 0 <= k < |entries| ==> DecodeEntry(streams[k]) == Done(entries[k], streams[k + 1])
  }

  /** The devices are those of the entries, and the flags name exactly the
      entries, counted from `i`, and fields that were malformed. */
  ghost predicate Summarises(list: Devlist, entries: seq<DeviceAndFlags>, i: nat) {
    && |list.devices| == |entries|
    && (forall k :: 0 <= k < |entries| ==> list.devices[k] == entries[k].device)
    && (forall field, index: nat :: Truncation(field, index) in list.flags <==>
          i <= index < i + |entries| && field in entries[index - i].flags)
  }

  lemma SummaryCons(first: DeviceAndFlags, entries: seq<DeviceAndFlags>, more: Devlist, i: nat)
    requires Summarises(more, entries, i + 1)
    ensures
      Summarises(Devlist([first.device] + more.devices, Indexed(first.flags, i) + more.flags), [first] + entries, i)
  {
    var list := Devlist([first.device] + more.devices, Indexed(first.flags, i) + more.flags);
    forall field, index: nat
      ensures Truncation(field, index) in list.flags <==>
        i <= index < i + 1 + |entries| && field in ([first] + entries)[index - i].flags
    {
      IndexedNames(first.flags, i, field, index);
      assert Truncation(field, index) in list.flags <==>
        Truncation(field, index) in Indexed(first.flags, i) || Truncation(field, index) in more.flags;
      if i < index < i + 1 + |entries| { assert ([first] + entries)[index - i] == entries[index - (i + 1)]; }
    }
  }

  lemma IndexedNames(flags: seq<FieldName>, i: nat, field: FieldName, index: nat)
    ensures Truncation(field, index) in Indexed(flags, i) <==> index == i && field in flags
  {
    if field in flags {
      var k :| 0 <= k < |flags| && flags[k] == field;
      assert Indexed(flags, i)[k] == Truncation(field, i);
    }
  }

  lemma {:induction false} BodyIsSummary(s: Stream, i: nat, count: nat)
    returns (streams: seq<Stream>, entries: seq<DeviceAndFlags>)
    requires i <= count && DecodeBody(s, i, count).Done?
    ensures Entries(streams, entries) && streams[0] == s && |entries| == count - i
    ensures streams[|entries|] == DecodeBody(s, i, count).rest
    ensures Summarises(DecodeBody(s, i, count).value, entries, i)
    decreases count - i
  {
    if i == count {
      return [s], [];
    }
    var v, s1, list := BodyUnfolds(s, i, count);
    var more, rest := BodyIsSummary(s1, i + 1, count);
    SummaryCons(v, rest, list, i);
    EntriesCons(s, v, more, rest);
    streams, entries := [s] + more, [v] + rest;
  }

  lemma BodyUnfolds(s: Stream, i: nat, count: nat) returns (v: DeviceAndFlags, s1: Stream, list: Devlist)
    requires i < count && DecodeBody(s, i, count).Done?
    ensures DecodeEntry(s) == Done(v, s1)
    ensures DecodeBody(s1, i + 1, count) == Done(list, DecodeBody(s, i, count).rest)
    ensures
      DecodeBody(s, i, count).value == Devlist([v.device] + list.devices, Indexed(v.flags, i) + list.flags)
  {
    v, s1 := DecodeEntry(s).value, DecodeEntry(s).rest;
    list := DecodeBody(s1, i + 1, count).value;
  }

  lemma EntriesCons(s: Stream, v: DeviceAndFlags, streams: seq<Stream>, entries: seq<DeviceAndFlags>)
    requires Entries(streams, entries) && DecodeEntry(s) == Done(v, streams[0])
    ensures Entries([s] + streams, [v] + entries) && ([s] + streams)[|entries| + 1] == streams[|entries|]
  {
  }

  /** A decoded list is what its entries decode to one after the other, as many
      as the count says, and its flags name exactly the malformed fields. */
  lemma DevlistIsSummary(s: Stream) returns (streams: seq<Stream>, entries: seq<DeviceAndFlags>)
    requires DecodeDevlist(s).Done?
    ensures Entries(streams, entries) && Summarises(DecodeDevlist(s).value, entries, 0)
    ensures |s.data| >= 12 && |entries| == Get32(s.data[8..12])
    ensures streams[0] == Stream(s.data[12..], s.tail) && streams[|entries|] == DecodeDevlist(s).rest
  {
    var s1 := DecodeHeader(s).rest;
    assert s1.data[..4] == s.data[8..12] && s1.data[4..] == s.data[12..];
    streams, entries := BodyIsSummary(Take(s1, 4).rest, 0, Get32(s.data[8..12]));
  }

  // --- What was accepted can be sent on ------------------------------------

  ghost predicate AllStable(ds: seq<Device>) { forall i :: 0 <= i < |ds| ==> Carried(ds[i]) && Listed(ds[i]) == ds[i] }

  lemma FlagIsListed(list: Devlist, entries: seq<DeviceAndFlags>, k: nat, field: FieldName)
    requires Summarises(list, entries, 0) && k < |entries| && field in entries[k].flags
    ensures Truncation(field, k) in list.flags
  {
    assert field in entries[k - 0].flags;
  }

  lemma EntriesAreStable(streams: seq<Stream>, entries: seq<DeviceAndFlags>, list: Devlist)
    requires Entries(streams, entries) && Summarises(list, entries, 0) && list.flags == []
    ensures AllStable(list.devices)
  {
    forall k | 0 <= k < |list.devices|
      ensures Carried(list.devices[k]) && Listed(list.devices[k]) == list.devices[k]
    {
      assert DecodeEntry(streams[k]) == Done(entries[k], streams[k + 1]);
      if entries[k].flags != [] { FlagIsListed(list, entries, k, entries[k].flags[0]); }
      EntryIsListed(streams[k]);
    }
  }

  lemma AllListedStable(ds: seq<Device>)
    requires AllStable(ds)
    ensures AllListed(ds) == ds
  {
  }

  /**
   * The converse of the round trip: whatever list a decoder accepts, from any
   * bytes and without a flag, its encoding decodes to that list again.
   */
  lemma AcceptedDevlistTravels(s: Stream, more: Bytes, tail: Tail)
    requires DecodeDevlist(s).Done? && DecodeDevlist(s).value.flags == []
    ensures
      var ds := DecodeDevlist(s).value.devices;
      && |ds| <= 1024 && AllCarried(ds)
      && DecodeDevlist(Stream(EncodeDevlist(ds) + more, tail)) == Done(Devlist(ds, []), Stream(more, tail))
  {
    var ds := DecodeDevlist(s).value.devices;
    var streams, entries := DevlistIsSummary(s);
    EntriesAreStable(streams, entries, DecodeDevlist(s).value);
    AllListedStable(ds);
    DevlistRoundTrip(ds, more, tail);
  }
}
