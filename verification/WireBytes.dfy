/** Big-endian integers and NUL-padded string fields of the USB/IP wire format. */
module WireBytes {

  type Byte = x: int | 0 <= x < 0x100
  type U16 = x: int | 0 <= x < 0x1_0000
  type U32 = x: int | 0 <= x < 0x1_0000_0000
  type Bytes = seq<Byte>

  function Put16(v: U16): Bytes { [v / 0x100, v % 0x100] }

  function Put32(v: U32): Bytes {
    [v / 0x100_0000, v / 0x1_0000 % 0x100, v / 0x100 % 0x100, v % 0x100]
  }

  function Get16(b: Bytes): (v: U16)
    requires |b| == 2
  {
    b[0] as int * 0x100 + b[1] as int
  }

  function Get32(b: Bytes): (v: U32)
    requires |b| == 4
  {
    b[0] as int * 0x100_0000 + b[1] as int * 0x1_0000 + b[2] as int * 0x100 + b[3] as int
  }

  lemma Get16Put16(v: U16)
    ensures Get16(Put16(v)) == v
  {
  }

  lemma Get32Put32(v: U32)
    ensures Get32(Put32(v)) == v
  {
    assert v / 0x1_0000 == v / 0x100_0000 * 0x100 + v / 0x1_0000 % 0x100;
    assert v / 0x100 == v / 0x1_0000 * 0x100 + v / 0x100 % 0x100;
  }

  predicate Printable(b: Byte) { 0x20 <= b <= 0x7E }

  predicate AllPrintable(s: Bytes) { forall i :: 0 <= i < |s| ==> Printable(s[i]) }

  function Zeros(n: nat): (z: Bytes)
    ensures |z| == n && forall i :: 0 <= i < n ==> z[i] == 0
  {
    seq(n, i => 0)
  }

  /** A string field of `size` bytes; the last byte is always a terminator. */
  function Pad(s: Bytes, size: nat): (r: Bytes)
    requires |s| < size
    ensures |r| == size
  {
    s + Zeros(size - |s|)
  }

  /** The position of the first byte that is not printable ASCII. */
  function PrintableLength(buf: Bytes): (n: nat)
    ensures n <= |buf| && AllPrintable(buf[..n])
    ensures n < |buf| ==> !Printable(buf[n])
  {
    if buf == [] || !Printable(buf[0]) then 0
    else
      var rest := PrintableLength(buf[1..]);
      assert buf[..rest + 1] == [buf[0]] + buf[1..][..rest];
      rest + 1
  }

  /** What a field means: its printable prefix, well formed exactly when a NUL
      ends that prefix. The flag is set for a malformed field. */
  function Field(buf: Bytes): (r: (Bytes, bool)) {
    var n := PrintableLength(buf);
    (buf[..n], n == |buf| || buf[n] != 0)
  }

  lemma PrintableLengthIs(buf: Bytes, n: nat)
    requires n <= |buf| && AllPrintable(buf[..n]) && (n < |buf| ==> !Printable(buf[n]))
    ensures PrintableLength(buf) == n
  {
    var m := PrintableLength(buf);
    assert forall k :: 0 <= k < n ==> buf[..n][k] == buf[k];
    assert forall k :: 0 <= k < m ==> buf[..m][k] == buf[k];
  }

  /** Reading back a padded printable string. */
  lemma FieldOfPad(s: Bytes, size: nat)
    requires |s| < size && AllPrintable(s)
    ensures Field(Pad(s, size)) == (s, false)
  {
    var buf := Pad(s, size);
    assert buf[..|s|] == s;
    PrintableLengthIs(buf, |s|);
  }

  /** A well-formed field is the padding of what it reads as, up to bytes
      after the terminator, which are ignored. */
  lemma FieldIsPrefix(buf: Bytes)
    ensures !Field(buf).1 ==>
      |Field(buf).0| < |buf| && AllPrintable(Field(buf).0) && Field(buf).0 + [0] == buf[..|Field(buf).0| + 1]
  {
  }

  method IsAllPrintable(buf: Bytes) returns (ok: bool)
    ensures ok == AllPrintable(buf)
  {
    var i := 0;
    while i < |buf|
      invariant 0 <= i <= |buf| && forall j :: 0 <= j < i ==> Printable(buf[j])
    {
      if !(0x20 <= buf[i] <= 0x7E) { return false; }
      i := i + 1;
    }
    return true;
  }

  /** paddedStringFromBytes: a fast path on the first NUL, then a byte scan. */
  method PaddedStringFromBytes(buf: Bytes) returns (s: Bytes, truncated: bool)
    ensures (s, truncated) == Field(buf)
  {
    var cut := 0;
    while cut < |buf| && buf[cut] != 0
      invariant 0 <= cut <= |buf| && 0 !in buf[..cut]
    {
      cut := cut + 1;
    }
    if cut < |buf| {
      var clean := IsAllPrintable(buf[..cut]);
      if clean {
        PrintableLengthIs(buf, cut);
        return buf[..cut], false;
      }
    }
    var i := 0;
    while i < |buf|
      invariant 0 <= i <= |buf| && AllPrintable(buf[..i])
    {
      if !(0x20 <= buf[i] <= 0x7E) {
        PrintableLengthIs(buf, i);
        assert buf[i] == 0 ==> i == cut;
        return buf[..i], true;
      }
      i := i + 1;
    }
    assert buf[..i] == buf;
    PrintableLengthIs(buf, i);
    return buf, true;
  }
}
