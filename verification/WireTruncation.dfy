/**
 * Truncation is always detected: a decoder run on any strict prefix of a frame
 * it accepts reports an end-of-file class error, at whatever boundary or
 * inside whatever field the prefix stops.
 */
module WireTruncation {
  import opened Base
  import opened WireBytes
  import opened WireStream
  import opened WireCodec

  /** The stream cut after `k` bytes. */
  function Cut(s: Stream, k: nat): Stream
    requires k <= |s.data|
  {
    Stream(s.data[..k], s.tail)
  }

  /**
   * `whole` is what a decoder made of a stream of `size` bytes, `cut` what it
   * makes of the stream cut after `k`: the same value if the cut is after the
   * bytes it consumed, an end-of-file error otherwise.
   */
  ghost predicate CutsTo<T>(whole: Decoded<T>, cut: Decoded<T>, size: nat, k: nat) {
    whole.Done? ==>
      && |whole.rest.data| <= size && whole.rest.tail.AtEof?
      && var used := size - |whole.rest.data|;
         if k < used then cut.Bad? && EofClass(cut.error)
         else k - used <= |whole.rest.data| && cut == Done(whole.value, Cut(whole.rest, k - used))
  }

  lemma TakeCut(s: Stream, n: nat, k: nat)
    requires s.tail.AtEof? && k <= |s.data|
    ensures CutsTo(Take(s, n), Take(Cut(s, k), n), |s.data|, k)
  {
    if n <= k {
      assert s.data[..k][..n] == s.data[..n];
      assert s.data[..k][n..] == s.data[n..][..k - n];
    }
  }

  lemma HeaderCut(s: Stream, k: nat)
    requires s.tail.AtEof? && k <= |s.data|
    ensures CutsTo(DecodeHeaderAllowStatus(s), DecodeHeaderAllowStatus(Cut(s, k)), |s.data|, k)
    ensures CutsTo(DecodeHeader(s), DecodeHeader(Cut(s, k)), |s.data|, k)
  {
    TakeCut(s, 8, k);
  }

  lemma DeviceCut(s: Stream, k: nat)
    requires s.tail.AtEof? && k <= |s.data|
    ensures CutsTo(DecodeDevice(s), DecodeDevice(Cut(s, k)), |s.data|, k)
  {
    TakeCut(s, DEVICE_SIZE, k);
  }

  lemma InterfacesCut(s: Stream, n: Byte, k: nat)
    requires s.tail.AtEof? && k <= |s.data|
    ensures CutsTo(DecodeInterfaces(s, n), DecodeInterfaces(Cut(s, k), n), |s.data|, k)
  {
    TakeCut(s, 4 * n, k);
  }

  lemma EntryCut(s: Stream, k: nat)
    requires s.tail.AtEof? && k <= |s.data|
    ensures CutsTo(DecodeEntry(s), DecodeEntry(Cut(s, k)), |s.data|, k)
  {
    DeviceCut(s, k);
    var first := DecodeDevice(s);
    if first.Done? {
      var used := |s.data| - |first.rest.data|;
      if used <= k { InterfacesCut(first.rest, first.value.device.numInterfaces, k - used); }
    }
  }

  lemma {:induction false} BodyCut(s: Stream, i: nat, count: nat, k: nat)
    requires s.tail.AtEof? && k <= |s.data| && i <= count
    ensures CutsTo(DecodeBody(s, i, count), DecodeBody(Cut(s, k), i, count), |s.data|, k)
    decreases count - i
  {
    if i == count {
      NothingCut(s, i, k);
    } else {
      EntryCut(s, k);
      var first := DecodeEntry(s);
      if first.Done? {
        var used := |s.data| - |first.rest.data|;
        BodyCut(first.rest, i + 1, count, if used <= k then k - used else 0);
        BodyCutCons(s, i, count, k, first.rest);
      } else {
        assert DecodeBody(s, i, count).Bad?;
      }
    }
  }

  lemma NothingCut(s: Stream, i: nat, k: nat)
    requires s.tail.AtEof? && k <= |s.data|
    ensures CutsTo(DecodeBody(s, i, i), DecodeBody(Cut(s, k), i, i), |s.data|, k)
  {
  }

  lemma BodyCutCons(s: Stream, i: nat, count: nat, k: nat, rest: Stream)
    requires s.tail.AtEof? && k <= |s.data| && i < count && |rest.data| <= |s.data|
    requires DecodeEntry(s).Done? && DecodeEntry(s).rest == rest
    requires CutsTo(DecodeEntry(s), DecodeEntry(Cut(s, k)), |s.data|, k)
    requires
      var used := |s.data| - |rest.data|;
      var j := if used <= k then k - used else 0;
      j <= |rest.data| && CutsTo(DecodeBody(rest, i + 1, count), DecodeBody(Cut(rest, j), i + 1, count), |rest.data|, j)
    ensures CutsTo(DecodeBody(s, i, count), DecodeBody(Cut(s, k), i, count), |s.data|, k)
  {
  }

  lemma CountCut(s: Stream, k: nat)
    requires s.tail.AtEof? && k <= |s.data|
    ensures CutsTo(DecodeCount(s), DecodeCount(Cut(s, k)), |s.data|, k)
  {
    TakeCut(s, 4, k);
    var first := Take(s, 4);
    if first.Done? && Get32(first.value) <= MAX_DEVLIST_DEVICES {
      BodyCut(first.rest, 0, Get32(first.value), if 4 <= k then k - 4 else 0);
    }
  }

  lemma DevlistCut(s: Stream, k: nat)
    requires s.tail.AtEof? && k <= |s.data|
    ensures CutsTo(DecodeDevlist(s), DecodeDevlist(Cut(s, k)), |s.data|, k)
  {
    HeaderCut(s, k);
    var first := DecodeHeader(s);
    if first.Done? {
      var used := |s.data| - |first.rest.data|;
      CountCut(first.rest, if used <= k then k - used else 0);
    }
  }

  /** Every strict prefix of an accepted OP_REP_DEVLIST frame is reported as
      truncated. */
  lemma TruncatedDevlistIsDetected(frame: Bytes, k: nat)
    requires DecodeDevlist(Stream(frame, AtEof)).Done? && DecodeDevlist(Stream(frame, AtEof)).rest.data == []
    requires k < |frame|
    ensures DecodeDevlist(Stream(frame[..k], AtEof)).Bad? && EofClass(DecodeDevlist(Stream(frame[..k], AtEof)).error)
  {
    DevlistCut(Stream(frame, AtEof), k);
  }

  lemma ImportReplyCut(s: Stream, k: nat)
    requires s.tail.AtEof? && k <= |s.data|
    ensures CutsTo(DecodeImportReply(s), DecodeImportReply(Cut(s, k)), |s.data|, k)
  {
    HeaderCut(s, k);
    var first := DecodeHeaderAllowStatus(s);
    if first.Done? {
      var used := |s.data| - |first.rest.data|;
      DeviceCut(first.rest, if used <= k then k - used else 0);
    }
  }

  /** Every strict prefix of an accepted successful OP_REP_IMPORT frame is
      reported as truncated. */
  lemma TruncatedImportReplyIsDetected(frame: Bytes, k: nat)
    requires DecodeImportReply(Stream(frame, AtEof)).Done? && DecodeImportReply(Stream(frame, AtEof)).rest.data == []
    requires k < |frame|
    ensures
      var r := DecodeImportReply(Stream(frame[..k], AtEof));
      r.Bad? && EofClass(r.error)
  {
    ImportReplyCut(Stream(frame, AtEof), k);
  }

  /** The empty stream, and only it, is a clean end of file. */
  lemma OnlyEmptyIsCleanEof(frame: Bytes)
    ensures DecodeDevlist(Stream(frame, AtEof)) == Bad(Eof) <==> frame == []
    ensures DecodeImportReply(Stream(frame, AtEof)) == Bad(Eof) <==> frame == []
  {
    var head := DecodeHeaderAllowStatus(Stream(frame, AtEof));
    if head.Done? { NoLateEof(head.rest); }
  }

  lemma NoLateEof(s: Stream)
    requires s.tail.AtEof?
    ensures DecodeDevice(s) != Bad(Eof) && DecodeCount(s) != Bad(Eof)
  {
    var first := Take(s, 4);
    if first.Done? && Get32(first.value) <= MAX_DEVLIST_DEVICES { BodyHasNoEof(first.rest, 0, Get32(first.value)); }
  }

  lemma {:induction false} BodyHasNoEof(s: Stream, i: nat, count: nat)
    requires s.tail.AtEof? && i <= count
    ensures DecodeBody(s, i, count) != Bad(Eof)
    decreases count - i
  {
    if i < count && DecodeEntry(s).Done? {
      EntryCut(s, 0);
      BodyHasNoEof(DecodeEntry(s).rest, i + 1, count);
    }
  }
}
