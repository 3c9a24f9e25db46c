/**
 * Session ids: version 7 UUIDs (section 5.7 of RFC 9562) minted from a clock and
 * random bytes, and their canonical text form (pkg/domain/session.go:88-144).
 */
module SessionId {
  import opened Base
  import opened WireBytes

  const ID_SIZE: nat := 16
  const TEXT_SIZE: nat := 36

  /** An id, sixteen bytes. */
  type Id = b: Bytes | |b| == ID_SIZE witness Zeros(ID_SIZE)

  const HYPHEN: Byte := 0x2D

  /** The six big-endian timestamp bytes; the clock is reduced modulo 2^48. */
  function Stamp(ms: nat): (r: Bytes)
    ensures |r| == 6
  {
    Put16(ms / 0x1_0000_0000 % 0x1_0000) + Put32(ms % 0x1_0000_0000)
  }

  /** `None` when the random source is short. */
  function Mint(random: Bytes, ms: nat): Option<Id> {
    if |random| < ID_SIZE then None
    else
      Some(Stamp(ms) + [random[6] % 0x10 + 0x70, random[7], random[8] % 0x40 + 0x80] + random[9..16])
  }

  /** Version 7 and variant 10 are stamped, and the rest is the random bytes. */
  lemma MintedLayout(random: Bytes, ms: nat)
    requires |random| >= ID_SIZE
    ensures
      var id := Mint(random, ms).value;
      && Get16(id[0..2]) * 0x1_0000_0000 + Get32(id[2..6]) == ms % 0x1_0000_0000_0000
      && id[6] / 0x10 == 7 && id[8] / 0x40 == 2
      && id[6] % 0x10 == random[6] % 0x10 && id[7] == random[7] && id[8] % 0x40 == random[8] % 0x40
      && id[9..] == random[9..16]
  {
    var id := Mint(random, ms).value;
    assert id[0..2] == Put16(ms / 0x1_0000_0000 % 0x1_0000) && id[2..6] == Put32(ms % 0x1_0000_0000);
    Get16Put16(ms / 0x1_0000_0000 % 0x1_0000);
    Get32Put32(ms % 0x1_0000_0000);
    SplitClock(ms);
  }

  lemma SplitClock(ms: nat)
    ensures ms / 0x1_0000_0000 % 0x1_0000 * 0x1_0000_0000 + ms % 0x1_0000_0000 == ms % 0x1_0000_0000_0000
  {
  }

  method NewSessionId(random: Bytes, ms: nat) returns (id: Option<Id>)
    ensures id == Mint(random, ms)
  {
    if |random| < ID_SIZE { return None; }
    var buf := new Byte[ID_SIZE](i requires 0 <= i < ID_SIZE => random[i]);
    var high, low := ms / 0x1_0000_0000 % 0x1_0000, ms % 0x1_0000_0000;
    buf[0], buf[1] := high / 0x100, high % 0x100;
    buf[2], buf[3] := low / 0x100_0000, low / 0x1_0000 % 0x100;
    buf[4], buf[5] := low / 0x100 % 0x100, low % 0x100;
    buf[6] := buf[6] % 0x10 + 0x70;
    buf[8] := buf[8] % 0x40 + 0x80;
    assert buf[..] == Mint(random, ms).value;
    return Some(buf[..]);
  }

  // --- Lexicographic order -------------------------------------------------

  predicate LessAt(a: seq<int>, b: seq<int>, k: nat) {
    k < |a| && k < |b| && a[k] < b[k] && forall i :: 0 <= i < k ==> a[i] == b[i]
  }

  ghost predicate Less(a: seq<int>, b: seq<int>) { exists k: nat :: LessAt(a, b, k) }

  lemma LessIsStrict(a: seq<int>, b: seq<int>)
    requires Less(a, b)
    ensures a != b && !Less(b, a)
  {
  }

  lemma {:induction false} LeastDifference(a: seq<int>, b: seq<int>, i: nat) returns (d: nat)
    requires i < |a| == |b| && a[i] != b[i]
    ensures LessAt(a, b, d) || LessAt(b, a, d)
    decreases i
  {
    if j: nat :| j < i && a[j] != b[j] {
      d := LeastDifference(a, b, j);
    } else {
      d := i;
    }
  }

  lemma PrefixOrders(a: seq<int>, b: seq<int>, x: seq<int>, y: seq<int>)
    requires Less(a, b)
    ensures Less(a + x, b + y)
  {
    var k: nat :| LessAt(a, b, k);
    assert LessAt(a + x, b + y, k);
  }

  lemma SuffixOrders(p: seq<int>, a: seq<int>, b: seq<int>)
    requires Less(a, b)
    ensures Less(p + a, p + b)
  {
    var k: nat :| LessAt(a, b, k);
    assert LessAt(p + a, p + b, |p| + k);
  }

  // --- Chronological ids ---------------------------------------------------

  lemma Put16Orders(a: U16, b: U16)
    requires a < b
    ensures Less(Put16(a), Put16(b))
  {
    assert LessAt(Put16(a), Put16(b), if a / 0x100 < b / 0x100 then 0 else 1);
  }

  lemma Put32Orders(a: U32, b: U32)
    requires a < b
    ensures Less(Put32(a), Put32(b))
  {
    var x, y := Put32(a), Put32(b);
    Get32Put32(a);
    Get32Put32(b);
    var k := if x[0] != y[0] then 0 else if x[1] != y[1] then 1 else if x[2] != y[2] then 2 else 3;
    assert x[0] as int * 0x100_0000 + x[1] as int * 0x1_0000 + x[2] as int * 0x100 + x[3] as int == a;
    assert y[0] as int * 0x100_0000 + y[1] as int * 0x1_0000 + y[2] as int * 0x100 + y[3] as int == b;
    assert LessAt(x, y, k);
  }

  lemma StampOrders(a: nat, b: nat)
    requires a < b < 0x1_0000_0000_0000
    ensures Less(Stamp(a), Stamp(b))
  {
    var ha, hb := a / 0x1_0000_0000, b / 0x1_0000_0000;
    var la, lb := a % 0x1_0000_0000, b % 0x1_0000_0000;
    if ha < hb {
      Put16Orders(ha, hb);
      PrefixOrders(Put16(ha), Put16(hb), Put32(la), Put32(lb));
    } else {
      Put32Orders(la, lb);
      SuffixOrders(Put16(ha), Put32(la), Put32(lb));
    }
  }

  // --- Canonical text ------------------------------------------------------

  function HexDigit(n: int): Byte
    requires 0 <= n < 16
  {
    if n < 10 then 0x30 + n else 0x57 + n
  }

  function Nibble(id: Id, j: nat): int
    requires j < 32
  {
    if j % 2 == 0 then id[j / 2] / 16 else id[j / 2] % 16
  }

  predicate IsHyphen(i: nat) { i == 8 || i == 13 || i == 18 || i == 23 }

  /** Which hex digit stands at text position `i`. */
  function DigitIndex(i: nat): (j: nat)
    requires i < TEXT_SIZE && !IsHyphen(i)
    ensures j < 32
  {
    i - (if i > 23 then 4 else if i > 18 then 3 else if i > 13 then 2 else if i > 8 then 1 else 0)
  }

  /** Where hex digit `j` stands. */
  function TextIndex(j: nat): (i: nat)
    requires j < 32
    ensures i < TEXT_SIZE && !IsHyphen(i) && DigitIndex(i) == j
  {
    j + (if j >= 20 then 4 else if j >= 16 then 3 else if j >= 12 then 2 else if j >= 8 then 1 else 0)
  }

  function CharAt(id: Id, i: nat): Byte
    requires i < TEXT_SIZE
  {
    if IsHyphen(i) then HYPHEN else HexDigit(Nibble(id, DigitIndex(i)))
  }

  function Text(id: Id): (t: Bytes)
    ensures |t| == TEXT_SIZE && forall i :: 0 <= i < TEXT_SIZE ==> t[i] == CharAt(id, i)
  {
    seq(TEXT_SIZE, i requires 0 <= i < TEXT_SIZE => CharAt(id, i))
  }

  /** The value of a lower-case hexadecimal digit; -1 for any other character. */
  function HexValue(ch: Byte): int {
    if '0' as int <= ch <= '9' as int then ch - '0' as int
    else if 'a' as int <= ch <= 'f' as int then ch - 'a' as int + 10
    else -1
  }

  /** The five segments of a text. */
  function Digits(t: Bytes): (d: Bytes)
    requires |t| == TEXT_SIZE
    ensures |d| == 32
  {
    t[0..8] + t[9..13] + t[14..18] + t[19..23] + t[24..36]
  }

  lemma DigitsAt(t: Bytes, j: nat)
    requires |t| == TEXT_SIZE && j < 32
    ensures Digits(t)[j] == t[TextIndex(j)]
  {
  }

  lemma HexValueOf(n: int)
    requires 0 <= n < 16
    ensures HexValue(HexDigit(n)) == n
  {
  }

  /** The canonical form of section 4 of RFC 9562: 8-4-4-4-12 lower-case
      hexadecimal digits, which read two by two are the bytes of the id. */
  lemma TextIsCanonical(id: Id, k: nat)
    requires k < 16
    ensures
      var t := Text(id);
      && t[8] == '-' as int && t[13] == '-' as int && t[18] == '-' as int && t[23] == '-' as int
      && HexValue(Digits(t)[2 * k]) == id[k] / 16 && HexValue(Digits(t)[2 * k + 1]) == id[k] % 16
  {
    DigitsAt(Text(id), 2 * k);
    DigitsAt(Text(id), 2 * k + 1);
    HexValueOf(Nibble(id, 2 * k));
    HexValueOf(Nibble(id, 2 * k + 1));
  }

  /** hex.Encode of `id[from..from + n]` into the text from position `at`. */
  method EncodeHex(b: array<Byte>, at: nat, id: Id, from: nat, n: nat)
    requires at + 2 * n <= b.Length && from + n <= ID_SIZE
    modifies b
    ensures forall i :: at <= i < at + 2 * n ==> b[i] == HexDigit(Nibble(id, 2 * from + (i - at)))
    ensures forall i :: 0 <= i < b.Length && !(at <= i < at + 2 * n) ==> b[i] == old(b[i])
  {
    var m := 0;
    while m < n
      invariant 0 <= m <= n
      invariant forall i :: at <= i < at + 2 * m ==> b[i] == HexDigit(Nibble(id, 2 * from + (i - at)))
      invariant forall i :: 0 <= i < b.Length && !(at <= i < at + 2 * m) ==> b[i] == old(b[i])
    {
      var v := id[from + m];
      assert Nibble(id, 2 * from + 2 * m) == v / 16 && Nibble(id, 2 * from + 2 * m + 1) == v % 16;
      b[at + 2 * m] := HexDigit(v / 16);
      b[at + 2 * m + 1] := HexDigit(v % 16);
      m := m + 1;
    }
  }

  /** SessionID.String: five segments, then the hyphens. */
  method Print(id: Id) returns (t: Bytes)
    ensures t == Text(id)
  {
    var b := new Byte[TEXT_SIZE](_ => 0);
    EncodeHex(b, 0, id, 0, 4);
    EncodeHex(b, 9, id, 4, 2);
    EncodeHex(b, 14, id, 6, 2);
    EncodeHex(b, 19, id, 8, 2);
    EncodeHex(b, 24, id, 10, 6);
    b[8], b[13], b[18], b[23] := HYPHEN, HYPHEN, HYPHEN, HYPHEN;
    assert forall i :: 0 <= i < TEXT_SIZE ==> b[i] == CharAt(id, i);
    t := b[..];
  }

  lemma SameBytesSameNibbles(a: Id, b: Id, k: nat, j: nat)
    requires k <= ID_SIZE && (forall i :: 0 <= i < k ==> a[i] == b[i]) && j < 2 * k
    ensures Nibble(a, j) == Nibble(b, j)
  {
    assert a[j / 2] == b[j / 2];
  }

  /** The printer preserves order. */
  lemma TextPreservesOrder(a: Id, b: Id)
    requires Less(a, b)
    ensures Less(Text(a), Text(b))
  {
    var k: nat :| LessAt(a, b, k);
    var j := if a[k] / 16 < b[k] / 16 then 2 * k else 2 * k + 1;
    var i := TextIndex(j);
    forall m: nat | m < i
      ensures Text(a)[m] == Text(b)[m]
    {
      if !IsHyphen(m) {
        DigitIndexGrows(m, j);
        var n := DigitIndex(m);
        if n < 2 * k { SameBytesSameNibbles(a, b, k, n); }
      }
    }
    assert LessAt(Text(a), Text(b), i);
  }

  lemma DigitIndexGrows(m: nat, j: nat)
    requires j < 32 && m < TextIndex(j) && !IsHyphen(m)
    ensures DigitIndex(m) < j
  {
  }

  /** Order of ids and order of their texts are the same thing. */
  lemma TextOrderIsIdOrder(a: Id, b: Id)
    ensures Less(Text(a), Text(b)) <==> Less(a, b)
    ensures Text(a) == Text(b) <==> a == b
  {
    if a != b {
      var i: nat :| i < ID_SIZE && a[i] != b[i];
      var d := LeastDifference(a, b, i);
      if LessAt(a, b, d) {
        TextPreservesOrder(a, b);
        LessIsStrict(Text(a), Text(b));
        LessIsStrict(a, b);
      } else {
        TextPreservesOrder(b, a);
        LessIsStrict(Text(b), Text(a));
        LessIsStrict(b, a);
      }
    } else if Less(Text(a), Text(b)) {
      LessIsStrict(Text(a), Text(b));
    } else if Less(a, b) {
      LessIsStrict(a, b);
    }
  }

  /** Ids minted at different milliseconds, with any random bytes, have texts in
      the order of their times. */
  lemma IdsAreChronological(r: Bytes, q: Bytes, a: nat, b: nat)
    requires |r| >= ID_SIZE && |q| >= ID_SIZE && a < b < 0x1_0000_0000_0000
    ensures Less(Text(Mint(r, a).value), Text(Mint(q, b).value))
  {
    StampOrders(a, b);
    var x, y := Mint(r, a).value, Mint(q, b).value;
    assert x == Stamp(a) + x[6..] && y == Stamp(b) + y[6..];
    PrefixOrders(Stamp(a), Stamp(b), x[6..], y[6..]);
    TextPreservesOrder(x, y);
  }
}
