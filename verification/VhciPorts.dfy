/**
 * Port allocation against the kernel's status table
 * (internal/adapter/kernel/ports.go, attach.go).
 */
module VhciPorts {
  import opened Base
  import opened VhciTopology

  datatype Status = Null | NotAssigned | Available | Used | ErrorStatus

  datatype Row = Row(hub: Hub, port: U32, status: Status)

  predicate IsFree(s: Status) { s.Null? || s.Available? }

  /** hubTypeForSpeed. */
  function HubForSpeed(speed: U32): Hub { if speed == 5 || speed == 6 then SS else HS }

  // --- Reading the status files --------------------------------------------

  /** One line: a header or blank or malformed row, Linux's not-ready
      placeholder, or a row. */
  datatype Line = Skipped | NotReady | Data(row: Row)

  datatype StatusFailure = FileUnreadable | ZeroBlock | ControllerNotReady | WrongController

  datatype StatusFile = Unreadable | Lines(lines: seq<Line>)

  function RowsOf(lines: seq<Line>, idx: U32, vhciPorts: U32): Result<seq<Row>, StatusFailure> {
    if vhciPorts == 0 then Err(ZeroBlock)
    else if lines == [] then Ok([])
    else
      match RowsOf(lines[..|lines| - 1], idx, vhciPorts)
      case Err(e) => Err(e)
      case Ok(rows) =>
        match lines[|lines| - 1]
        case Skipped => Ok(rows)
        case NotReady => Err(ControllerNotReady)
        case Data(row) => if row.port / vhciPorts != idx then Err(WrongController) else Ok(rows + [row])
  }

  function TableOf(files: seq<StatusFile>, vhciPorts: U32): Result<seq<Row>, StatusFailure>
    requires |files| < TWO_32
  {
    if files == [] then Ok([])
    else
      match TableOf(files[..|files| - 1], vhciPorts)
      case Err(e) => Err(e)
      case Ok(rows) =>
        match files[|files| - 1]
        case Unreadable => Err(FileUnreadable)
        case Lines(lines) =>
          match RowsOf(lines, |files| - 1, vhciPorts)
          case Err(e) => Err(e)
          case Ok(more) => Ok(rows + more)
  }

  /** parseStatusFile. */
  method ParseStatusFile(lines: seq<Line>, idx: U32, vhciPorts: U32) returns (r: Result<seq<Row>, StatusFailure>)
    ensures r == RowsOf(lines, idx, vhciPorts)
  {
    if vhciPorts == 0 { return Err(ZeroBlock); }
    var rows: seq<Row> := [];
    var k := 0;
    while k < |lines|
      invariant 0 <= k <= |lines| && RowsOf(lines[..k], idx, vhciPorts) == Ok(rows)
    {
      assert lines[..k + 1][..k] == lines[..k];
      if RowsOf(lines[..k + 1], idx, vhciPorts).Err? { RowsFail(lines, k + 1, idx, vhciPorts); }
      match lines[k] {
        case Skipped =>
        case NotReady => return Err(ControllerNotReady);
        case Data(row) =>
          if row.port / vhciPorts != idx { return Err(WrongController); }
          rows := rows + [row];
      }
      k := k + 1;
    }
    assert lines[..k] == lines;
    return Ok(rows);
  }

  lemma {:induction false} RowsFail(lines: seq<Line>, k: nat, idx: U32, vhciPorts: U32)
    requires k <= |lines| && RowsOf(lines[..k], idx, vhciPorts).Err?
    ensures RowsOf(lines, idx, vhciPorts) == RowsOf(lines[..k], idx, vhciPorts)
    decreases |lines|
  {
    if k == |lines| {
      assert lines[..k] == lines;
    } else {
      assert lines[..|lines| - 1][..k] == lines[..k];
      RowsFail(lines[..|lines| - 1], k, idx, vhciPorts);
    }
  }

  /** The rows among the lines, in order. */
  function Kept(lines: seq<Line>): seq<Row> {
    if lines == [] then [] else RowIn(lines[0]) + Kept(lines[1..])
  }

  function RowIn(line: Line): seq<Row> { if line.Data? then [line.row] else [] }

  lemma {:induction false} KeptJoin(a: seq<Line>, b: seq<Line>)
    ensures Kept(a + b) == Kept(a) + Kept(b)
  {
    if a == [] {
      assert a + b == b;
    } else {
      assert (a + b)[1..] == a[1..] + b && (a + b)[0] == a[0];
      KeptJoin(a[1..], b);
      assert RowIn(a[0]) + (Kept(a[1..]) + Kept(b)) == (RowIn(a[0]) + Kept(a[1..])) + Kept(b);
    }
  }

  /** A line a status file of controller `idx` may have. */
  ghost predicate Fits(line: Line, idx: U32, block: nat) {
    block > 0 && !line.NotReady? && (line.Data? ==> line.row.port / block == idx)
  }

  /** A file is accepted exactly when no line says that the controller is not
      ready and every row is in the controller's block; all its rows are kept. */
  lemma {:induction false} RowsOfIff(lines: seq<Line>, idx: U32, vhciPorts: U32)
    ensures RowsOf(lines, idx, vhciPorts).Ok? <==>
      vhciPorts > 0 && forall k :: 0 <= k < |lines| ==> Fits(lines[k], idx, vhciPorts)
    ensures RowsOf(lines, idx, vhciPorts).Ok? ==> RowsOf(lines, idx, vhciPorts).value == Kept(lines)
    decreases |lines|
  {
    if lines != [] {
      var init, last := lines[..|lines| - 1], lines[|lines| - 1];
      assert lines == init + [last];
      RowsOfIff(init, idx, vhciPorts);
      KeptJoin(init, [last]);
    }
  }

  /** The first line that does not fit decides the error. */
  lemma FirstMisfitDecides(lines: seq<Line>, k: nat, idx: U32, vhciPorts: U32)
    requires vhciPorts > 0 && k < |lines| && !Fits(lines[k], idx, vhciPorts)
    requires forall j :: 0 <= j < k ==> Fits(lines[j], idx, vhciPorts)
    ensures RowsOf(lines, idx, vhciPorts) ==
            Err(if lines[k].NotReady? then ControllerNotReady else WrongController)
  {
    RowsOfIff(lines[..k], idx, vhciPorts);
    assert lines[..k + 1][..k] == lines[..k];
    RowsFail(lines, k + 1, idx, vhciPorts);
  }

  /** Every row belongs to one of the controllers that were read. */
  lemma {:induction false} RowsInBlock(lines: seq<Line>, idx: U32, vhciPorts: U32)
    requires RowsOf(lines, idx, vhciPorts).Ok?
    ensures forall k :: 0 <= k < |RowsOf(lines, idx, vhciPorts).value| ==>
      RowsOf(lines, idx, vhciPorts).value[k].port / vhciPorts == idx
    decreases |lines|
  {
    if lines != [] { RowsInBlock(lines[..|lines| - 1], idx, vhciPorts); }
  }

  ghost predicate InBlocks(rows: seq<Row>, controllers: nat, vhciPorts: U32) {
    vhciPorts > 0 && forall k :: 0 <= k < |rows| ==> rows[k].port / vhciPorts < controllers
  }

  lemma {:induction false} TableInBlocks(files: seq<StatusFile>, vhciPorts: U32)
    requires |files| < TWO_32 && vhciPorts > 0 && TableOf(files, vhciPorts).Ok?
    ensures InBlocks(TableOf(files, vhciPorts).value, |files|, vhciPorts)
    decreases |files|
  {
    if files != [] {
      var init := files[..|files| - 1];
      TableInBlocks(init, vhciPorts);
      RowsInBlock(files[|files| - 1].lines, |files| - 1, vhciPorts);
    }
  }

  ghost predicate FileFits(file: StatusFile, idx: U32, block: nat) {
    file.Lines? && forall k :: 0 <= k < |file.lines| ==> Fits(file.lines[k], idx, block)
  }

  /** Every file is there and fits its controller. */
  ghost predicate AllFit(files: seq<StatusFile>, block: nat)
    requires |files| < TWO_32
  {
    forall i :: 0 <= i < |files| ==> FileFits(files[i], i, block)
  }

  lemma AllFitSnoc(files: seq<StatusFile>, block: nat)
    requires 0 < |files| < TWO_32
    ensures
      var n := |files| - 1;
      AllFit(files, block) <==> AllFit(files[..n], block) && FileFits(files[n], n, block)
  {
    var n := |files| - 1;
    assert forall i :: 0 <= i < n ==> files[..n][i] == files[i];
  }

  /** The rows of all files, file after file. */
  function AllKept(files: seq<StatusFile>): seq<Row> {
    if files == [] then []
    else
      AllKept(files[..|files| - 1])
      + match files[|files| - 1]
        case Lines(lines) => Kept(lines)
        case Unreadable => []
  }

  lemma {:induction false} TableOfIff(files: seq<StatusFile>, vhciPorts: U32)
    requires |files| < TWO_32 && vhciPorts > 0
    ensures TableOf(files, vhciPorts).Ok? <==> AllFit(files, vhciPorts)
    ensures TableOf(files, vhciPorts).Ok? ==> TableOf(files, vhciPorts).value == AllKept(files)
    decreases |files|
  {
    if files != [] {
      var n := |files| - 1;
      var init := files[..n];
      TableOfIff(init, vhciPorts);
      AllFitSnoc(files, vhciPorts);
      if files[n].Lines? { RowsOfIff(files[n].lines, n, vhciPorts); }
    }
  }

  // --- Choosing a port -----------------------------------------------------

  predicate Eligible(row: Row, desired: Hub) { row.hub == desired && IsFree(row.status) }

  /** `p` is the least port of a free row of the desired hub. */
  ghost predicate LeastFree(rows: seq<Row>, desired: Hub, p: U32) {
    && (exists k :: 0 <= k < |rows| && Eligible(rows[k], desired) && rows[k].port == p)
    && (forall k :: 0 <= k < |rows| && Eligible(rows[k], desired) ==> p <= rows[k].port)
  }

  ghost predicate NoneFree(rows: seq<Row>, desired: Hub) {
    forall k :: 0 <= k < |rows| ==> !Eligible(rows[k], desired)
  }

  method LowestFreePort(rows: seq<Row>, desired: Hub) returns (lowest: U32, found: bool)
    ensures if found then LeastFree(rows, desired, lowest) else NoneFree(rows, desired)
  {
    lowest, found := TWO_32 - 1, false;
    var k := 0;
    while k < |rows|
      invariant 0 <= k <= |rows|
      invariant if found then LeastFree(rows[..k], desired, lowest) else NoneFree(rows[..k], desired)
    {
      var r := rows[k];
      if r.hub == desired && IsFree(r.status) {
        if !found || r.port < lowest {
          lowest, found := r.port, true;
          assert rows[..k + 1][k] == r;
        } else {
          var j :| 0 <= j < k && Eligible(rows[..k][j], desired) && rows[..k][j].port == lowest;
          assert rows[..k + 1][j] == rows[..k][j];
        }
      } else if found {
        var j :| 0 <= j < k && Eligible(rows[..k][j], desired) && rows[..k][j].port == lowest;
        assert rows[..k + 1][j] == rows[..k][j];
      }
      k := k + 1;
    }
    assert rows[..k] == rows;
  }

  predicate InRange(t: StatusTopology, port: U32) { port < Mul(t.controllers, t.vhciPorts) }

  /** A row of the snapshot always passes the range check on that snapshot. */
  lemma RowIsInRange(nports: U32, controllers: U32, port: U32)
    requires controllers < 0x8000_0000 && StatusOf(nports, controllers).Ok?
    requires
      var t := StatusOf(nports, controllers).value;
      t.vhciPorts > 0 && port / t.vhciPorts < controllers
    ensures InRange(StatusOf(nports, controllers).value, port)
  {
    StatusIsExact(nports, controllers);
    QuotientBounds(port, controllers, StatusOf(nports, controllers).value.vhciPorts);
  }

  /** No earlier row has the port of row `k`. */
  ghost predicate Fresh(rows: seq<Row>, k: nat)
    requires k < |rows|
  {
    forall j :: 0 <= j < k ==> rows[j].port != rows[k].port
  }

  /** readStatusRowsWithTopology over the files of all controllers. */
  method ReadStatusRows(files: seq<StatusFile>, vhciPorts: U32) returns (r: Result<seq<Row>, StatusFailure>)
    requires |files| < TWO_32
    ensures r == TableOf(files, vhciPorts)
  {
    var rows: seq<Row> := [];
    var i := 0;
    while i < |files|
      invariant 0 <= i <= |files| && TableOf(files[..i], vhciPorts) == Ok(rows)
    {
      assert files[..i + 1][..i] == files[..i];
      if TableOf(files[..i + 1], vhciPorts).Err? { TableFails(files, i + 1, vhciPorts); }
      if files[i].Unreadable? { return Err(FileUnreadable); }
      var parsed := ParseStatusFile(files[i].lines, i, vhciPorts);
      if parsed.Err? { return Err(parsed.error); }
      rows := rows + parsed.value;
      i := i + 1;
    }
    assert files[..i] == files;
    return Ok(rows);
  }

  lemma {:induction false} TableFails(files: seq<StatusFile>, k: nat, vhciPorts: U32)
    requires k <= |files| < TWO_32 && TableOf(files[..k], vhciPorts).Err?
    ensures TableOf(files, vhciPorts) == TableOf(files[..k], vhciPorts)
    decreases |files|
  {
    if k == |files| {
      assert files[..k] == files;
    } else {
      assert files[..|files| - 1][..k] == files[..k];
      TableFails(files[..|files| - 1], k, vhciPorts);
    }
  }

  /** statusForPort. */
  method StatusForPort(rows: seq<Row>, id: U32) returns (s: Option<Status>)
    ensures s.None? <==> forall k :: 0 <= k < |rows| ==> rows[k].port != id
    ensures s.Some? ==> exists k :: 0 <= k < |rows| && rows[k] == Row(rows[k].hub, id, s.value) && Fresh(rows, k)
  {
    var k := 0;
    while k < |rows|
      invariant 0 <= k <= |rows| && forall j :: 0 <= j < k ==> rows[j].port != id
    {
      if rows[k].port == id { return Some(rows[k].status); }
      k := k + 1;
    }
    return None;
  }
}
