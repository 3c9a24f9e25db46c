/** The import handshake end to end: the importer's bytes, any chunking, the
    exporter's limiter, and its header-then-body decoding. */
module WireHandshake {
  import opened Base
  import opened WireBytes
  import opened WireStream
  import opened WireCodec
  import opened WireImport
  import opened WireReader

  /**
   * Every bus id a user may enter arrives unchanged, whatever chunks the
   * connection hands out and whatever follows, if the limit is disabled or at
   * least 40 bytes; with a smaller limit the exporter reports an error.
   */
  method ImportHandshake(busId: Bytes, more: Bytes, tail: Tail, paces: seq<Pace>, limit: int)
    returns (got: Result<Bytes, WireError>)
    requires ParseBusId(busId).Ok?
    ensures limit <= 0 || limit >= REQUEST_SIZE ==> got == Ok(busId)
    ensures 0 < limit < REQUEST_SIZE ==> got.Err?
  {
    RequestRoundTrip(busId, more, tail);
    if limit >= REQUEST_SIZE { RequestThroughLimiter(busId, more, tail, limit); }
    var frame := EncodeImportRequest(busId).value;
    var conn := new Conn(frame + more, tail, paces);
    var r := new LimitReader(conn, limit);
    if 0 < limit < REQUEST_SIZE { SmallLimitIsAnError(conn.View(), limit); }
    var op, id := ReadRequest(r);
    match id
    case Some(body) => got := body;
    case None => got := Err(ProtocolMismatch);
  }
}
