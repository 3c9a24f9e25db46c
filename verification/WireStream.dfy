/**
 * Streams that deliver their bytes in arbitrary short chunks, the handshake
 * byte limiter of internal/app/limits.go:141-183, and io.ReadFull over both.
 * What a caller can observe does not depend on the chunking.
 */
module WireStream {
  import opened Base
  import opened WireBytes

  /** What a read returns once the bytes are used up. */
  datatype Tail = AtEof | Faulty | TooLarge

  /** What is still to be read. */
  datatype Stream = Stream(data: Bytes, tail: Tail)

  datatype WireError =
    | Eof
    | UnexpectedEof
    | ReadFault
    | HandshakeTooLarge
    | ProtocolMismatch
    | ProtocolError
    | BusIdInvalid
    | DeviceNotFound
    | DeviceAlreadyBound
    | DeviceUnavailable
    | CountOverflow

  predicate EofClass(e: WireError) { e.Eof? || e.UnexpectedEof? }

  /** A decoder's result: a value and the stream after it, or an error. */
  datatype Decoded<+T> = Done(value: T, rest: Stream) | Bad(error: WireError)

  function TailError(tail: Tail, got: nat): WireError {
    match tail
    case AtEof => if got == 0 then Eof else UnexpectedEof
    case Faulty => ReadFault
    case TooLarge => HandshakeTooLarge
  }

  /** io.ReadFull of `n` bytes. */
  function Take(s: Stream, n: nat): Decoded<Bytes> {
    if n <= |s.data| then Done(s.data[..n], Stream(s.data[n..], s.tail))
    else Bad(TailError(s.tail, |s.data|))
  }

  /** The stream seen through a limiter with `room` bytes left. */
  function Limited(s: Stream, room: nat): Stream {
    if |s.data| < room then s else Stream(s.data[..room], TooLarge)
  }

  /** One Read call: bytes, and the error if the read reported one. */
  datatype Chunk = Chunk(bytes: Bytes, error: Option<Tail>)

  /** How large the next chunk is at most, and whether the last bytes come
      together with the end of the stream. */
  datatype Pace = Pace(size: nat, eager: bool)

  /** A connection. `paces` scripts the chunking; it is arbitrary. */
  class Conn {
    var data: Bytes
    const tail: Tail
    var paces: seq<Pace>

    constructor (data: Bytes, tail: Tail, paces: seq<Pace>)
      ensures this.data == data && this.tail == tail && this.paces == paces
    {
      this.data, this.tail, this.paces := data, tail, paces;
    }

    ghost function View(): Stream
      reads this
    {
      Stream(data, tail)
    }

    /** Read into a buffer of `max` bytes. */
    method Read(max: nat) returns (c: Chunk)
      requires max > 0
      modifies this
      ensures |c.bytes| <= max && old(data) == c.bytes + data
      ensures c.error.Some? ==> data == [] && c.error.value == tail
      ensures c.error.None? ==> |data| + |paces| < |old(data)| + |old(paces)|
    {
      if data == [] { return Chunk([], Some(tail)); }
      var n := if max < |data| then max else |data|;
      var eager := false;
      if paces != [] {
        var pace := paces[0];
        paces := paces[1..];
        n := if pace.size < n then pace.size else n;
        eager := pace.eager;
      }
      c := Chunk(data[..n], if eager && n == |data| then Some(tail) else None);
      data := data[n..];
    }
  }

  /** handshakeLimitReader; a limit of zero or less disables it. */
  class LimitReader {
    const r: Conn
    var n: nat
    const limit: int

    constructor (r: Conn, limit: int)
      ensures this.r == r && this.limit == limit && n == 0
    {
      this.r, this.limit, this.n := r, limit, 0;
    }

    ghost predicate Ready()
      reads this
    {
      limit > 0 ==> n <= limit
    }

    ghost function View(): Stream
      reads this, r
      requires Ready()
    {
      if limit <= 0 then r.View() else Limited(r.View(), limit - n)
    }

    /** At the exact limit the end of the connection may still arrive with the
        last bytes; otherwise the error is the limited stream's own. */
    method Read(max: nat) returns (c: Chunk)
      requires max > 0 && Ready()
      modifies this, r
      ensures Ready()
      ensures |c.bytes| <= max && old(View()).data == c.bytes + View().data && View().tail == old(View()).tail
      ensures c.error.Some? ==> View().data == [] && (c.error.value == View().tail || c.error.value == r.tail)
      ensures c.error.None? ==> |r.data| + |r.paces| < |old(r.data)| + |old(r.paces)|
    {
      if limit <= 0 {
        c := r.Read(max);
        return;
      }
      var remaining := limit - n;
      if remaining <= 0 { return Chunk([], Some(TooLarge)); }
      var want := if max < remaining then max else remaining;
      c := r.Read(want);
      n := n + |c.bytes|;
    }

    /** io.ReadFull(h, buf) with len(buf) == want: independent of the chunks. */
    method ReadFull(want: nat) returns (buf: Result<Bytes, WireError>)
      requires Ready()
      modifies this, r
      ensures Ready()
      ensures buf.Ok? <==> Take(old(View()), want).Done?
      ensures buf.Ok? ==> Done(buf.value, View()) == Take(old(View()), want)
      ensures buf.Err? ==>
        || Bad(buf.error) == Take(old(View()), want)
        || buf.error == TailError(r.tail, |old(View()).data|)
    {
      ghost var all := View();
      var got: Bytes := [];
      while |got| < want
        invariant Ready() && |got| <= want && |got| <= |all.data|
        invariant got == all.data[..|got|] && View() == Stream(all.data[|got|..], all.tail)
        decreases |r.data| + |r.paces|
      {
        ghost var before := View();
        var c := Read(want - |got|);
        ChunkFits(all.data, got, c.bytes, View().data, before.data);
        got := got + c.bytes;
        if c.error.Some? {
          if |got| < want { return Err(TailError(c.error.value, |got|)); }
          break;
        }
      }
      return Ok(got);
    }
  }

  lemma ChunkFits(all: Bytes, got: Bytes, chunk: Bytes, rest: Bytes, before: Bytes)
    requires |got| <= |all| && got == all[..|got|] && before == all[|got|..] && before == chunk + rest
    ensures |got + chunk| <= |all| && got + chunk == all[..|got + chunk|] && rest == all[|got + chunk|..]
  {
    assert all == got + (chunk + rest);
  }
}
