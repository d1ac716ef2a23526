/** The row rules of the spreadsheet importer
    (internal/pkg/service/importer/service.go). The xlsx reader is replaced by
    the rows of the first sheet, each with its 1-based index and the text of
    its cells; every ParseBlock*File runs the same loop over them: skip header
    and short rows, decode the cells of a kept row in order, stop at the first
    cell that does not decode, otherwise append one record. */
module Importer {
  import opened Wrappers
  import opened Civil
  import opened Models
  import opened Convertor

  datatype Row = Row(index: int, cells: seq<string>)

  /** The wrapped error: what failed to parse, and the row it failed in
      ("<context> row <index>"). The parser's own error is not kept. */
  datatype ImportError = ImportError(context: string, row: int)

  /** What one row contributes. */
  datatype RowOutcome<T> = Skip | Emit(record: T) | Abort(error: ImportError)

  // ---------------------------------------------------------------------
  // The shared loop.

  /** The result of the loop over rows, read off recursively. */
  function CollectRows<T>(rows: seq<Row>, step: Row -> RowOutcome<T>): (r: Result<seq<T>, ImportError>)
    ensures r.Success? ==> |r.value| <= |rows|
    ensures r.Failure? ==> exists i :: 0 <= i < |rows| && step(rows[i]) == Abort(r.error)
  {
    if rows == [] then Success([])
    else
      match step(rows[0])
      case Skip => CollectRows(rows[1..], step)
      case Abort(e) => Failure(e)
      case Emit(x) =>
        match CollectRows(rows[1..], step)
        case Success(xs) => Success([x] + xs)
        case Failure(e) => Failure(e)
  }

  /** The rows the loop does not skip, in order. */
  function Kept<T>(rows: seq<Row>, step: Row -> RowOutcome<T>): (kept: seq<Row>)
    ensures |kept| <= |rows|
    ensures forall r :: r in kept ==> r in rows && !step(r).Skip?
  {
    if rows == [] then []
    else if step(rows[0]).Skip? then Kept(rows[1..], step)
    else [rows[0]] + Kept(rows[1..], step)
  }

  function Prepend<T>(out: seq<T>, r: Result<seq<T>, ImportError>): Result<seq<T>, ImportError>
  {
    match r
    case Success(xs) => Success(out + xs)
    case Failure(e) => Failure(e)
  }

  lemma PrependNothing<T>(r: Result<seq<T>, ImportError>)
    ensures Prepend([], r) == r
  {
    if r.Success? {
      assert [] + r.value == r.value;
    }
  }

  lemma PrependOne<T>(out: seq<T>, x: T, r: Result<seq<T>, ImportError>)
    ensures Prepend(out, Prepend([x], r)) == Prepend(out + [x], r)
  {
    if r.Success? {
      assert out + ([x] + r.value) == (out + [x]) + r.value;
    }
  }

  /** The loop of ParseBlock*File: on the first aborting row the records
      gathered so far are dropped and only the error is returned. */
  method ParseRows<T>(rows: seq<Row>, step: Row -> RowOutcome<T>) returns (r: Result<seq<T>, ImportError>)
    ensures r == CollectRows(rows, step)
  {
    var out: seq<T> := [];
    var i := 0;
    assert rows[0..] == rows;
    PrependNothing(CollectRows(rows, step));
    while i < |rows|
      invariant 0 <= i <= |rows|
      invariant CollectRows(rows, step) == Prepend(out, CollectRows(rows[i..], step))
    {
      assert rows[i..][1..] == rows[i + 1..];
      match step(rows[i]) {
        case Skip =>
        case Abort(e) =>
          return Failure(e);
        case Emit(x) =>
          PrependOne(out, x, CollectRows(rows[i + 1..], step));
          out := out + [x];
      }
      i := i + 1;
    }
    assert rows[i..] == [];
    assert out + [] == out;
    return Success(out);
  }

  /** The loop succeeds exactly when no row aborts. */
  lemma {:induction false} CollectSucceeds<T>(rows: seq<Row>, step: Row -> RowOutcome<T>)
    ensures CollectRows(rows, step).Success? <==> forall i :: 0 <= i < |rows| ==> !step(rows[i]).Abort?
  {
    if rows != [] {
      CollectSucceeds(rows[1..], step);
      assert forall i :: 1 <= i < |rows| ==> rows[i] == rows[1..][i - 1];
    }
  }

  /** On success there is one record per kept row, in row order, and each is
      the record that row emits. */
  lemma {:induction false} CollectRecords<T>(rows: seq<Row>, step: Row -> RowOutcome<T>)
    requires CollectRows(rows, step).Success?
    ensures var xs := CollectRows(rows, step).value;
            var kept := Kept(rows, step);
            |xs| == |kept| && forall k :: 0 <= k < |xs| ==> step(kept[k]) == Emit(xs[k])
  {
    if rows != [] {
      CollectRecords(rows[1..], step);
    }
  }

  /** The loop fails with e exactly when e is the error of the first row that aborts. */
  lemma {:induction false} CollectFailsAtFirstAbort<T>(rows: seq<Row>, step: Row -> RowOutcome<T>, e: ImportError)
    ensures CollectRows(rows, step) == Failure(e) <==>
            exists i :: 0 <= i < |rows| && step(rows[i]) == Abort(e) &&
                        forall j :: 0 <= j < i ==> !step(rows[j]).Abort?
  {
    if rows != [] {
      CollectFailsAtFirstAbort(rows[1..], step, e);
      if !step(rows[0]).Abort? {
        if CollectRows(rows, step) == Failure(e) {
          var i :| 0 <= i < |rows| - 1 && step(rows[1..][i]) == Abort(e) &&
                   forall j :: 0 <= j < i ==> !step(rows[1..][j]).Abort?;
          assert forall j :: 0 <= j < i + 1 ==> !step(rows[j]).Abort? by {
            forall j | 0 <= j < i + 1 ensures !step(rows[j]).Abort? {
              if j > 0 { assert rows[j] == rows[1..][j - 1]; }
            }
          }
        }
        if exists i :: 0 <= i < |rows| && step(rows[i]) == Abort(e) &&
                       forall j :: 0 <= j < i ==> !step(rows[j]).Abort? {
          var i :| 0 <= i < |rows| && step(rows[i]) == Abort(e) &&
                   forall j :: 0 <= j < i ==> !step(rows[j]).Abort?;
          assert i > 0 && step(rows[1..][i - 1]) == Abort(e);
          assert forall j :: 0 <= j < i - 1 ==> !step(rows[1..][j]).Abort? by {
            forall j | 0 <= j < i - 1 ensures !step(rows[1..][j]).Abort? {
              assert rows[1..][j] == rows[j + 1];
            }
          }
        }
      }
    }
  }

  /** Importing a file is importing its rows one after another: records of
      a successful first part come before those of the rest. */
  lemma {:induction false} CollectAppend<T>(a: seq<Row>, b: seq<Row>, step: Row -> RowOutcome<T>)
    requires CollectRows(a, step).Success?
    ensures CollectRows(a + b, step) == Prepend(CollectRows(a, step).value, CollectRows(b, step))
  {
    if a != [] {
      assert (a + b)[1..] == a[1..] + b;
      CollectAppend(a[1..], b, step);
      match CollectRows(b, step)
      case Success(ys) =>
        if step(a[0]).Emit? {
          var x := step(a[0]).record;
          assert [x] + (CollectRows(a[1..], step).value + ys) == ([x] + CollectRows(a[1..], step).value) + ys;
        }
      case Failure(_) =>
    } else {
      assert a + b == b;
      assert Prepend([], CollectRows(b, step)) == CollectRows(b, step) by {
        if CollectRows(b, step).Success? {
          assert [] + CollectRows(b, step).value == CollectRows(b, step).value;
        }
      }
    }
  }

  // ---------------------------------------------------------------------
  // Cell decoding.

  /** parseFlexibleTime on a cell, as an optional instant. */
  function TimeCell(raw: string, p: Parsers): Option<Instant>
  {
    match ParseFlexibleTime(raw, p)
    case Success(t) => Some(t)
    case Failure(_) => None
  }

  // ---------------------------------------------------------------------
  // Block 1: timestamp, pressure at gauge depth, temperature.

  /** Row 1 is the header; rows with fewer than three cells are ignored. */
  predicate BlockOneKept(row: Row)
  {
    row.index != 1 && |row.cells| >= 3
  }

  function BlockOneRow(row: Row, p: Parsers): (o: RowOutcome<TableOne>)
    ensures o.Skip? <==> !BlockOneKept(row)
    ensures o.Emit? <==> BlockOneKept(row) && TimeCell(row.cells[0], p).Some? &&
                         p.parseFloat(row.cells[1]).Some? && p.parseFloat(row.cells[2]).Some?
    ensures o.Emit? ==> o.record == TableOne(TimeCell(row.cells[0], p).value, p.parseFloat(row.cells[1]).value,
                                             p.parseFloat(row.cells[2]).value, None)
    ensures o.Abort? ==> o.error.row == row.index
    ensures o.Abort? ==> (o.error.context ==
              if TimeCell(row.cells[0], p).None? then "parse timestamp block1"
              else if p.parseFloat(row.cells[1]).None? then "parse pressure block1"
              else "parse temperature block1")
  {
    if !BlockOneKept(row) then Skip
    else
      var cells := row.cells;
      match TimeCell(cells[0], p)
      case None => Abort(ImportError("parse timestamp block1", row.index))
      case Some(ts) =>
        match p.parseFloat(cells[1])
        case None => Abort(ImportError("parse pressure block1", row.index))
        case Some(pres) =>
          match p.parseFloat(cells[2])
          case None => Abort(ImportError("parse temperature block1", row.index))
          case Some(temp) => Emit(TableOne(ts, pres, temp, None))
  }

  function BlockOneStep(p: Parsers): Row -> RowOutcome<TableOne>
  {
    row => BlockOneRow(row, p)
  }

  method ParseBlockOneFile(rows: seq<Row>, p: Parsers) returns (r: Result<seq<TableOne>, ImportError>)
    ensures r == CollectRows(rows, BlockOneStep(p))
  {
    r := ParseRows(rows, BlockOneStep(p));
  }

  /** A Block 1 import succeeds exactly when every kept row decodes, and then
      yields one record per kept row, in order, built from cells 0-2 with no
      reduced pressure yet; otherwise it reports the first bad row. */
  lemma BlockOneImport(rows: seq<Row>, p: Parsers)
    ensures CollectRows(rows, BlockOneStep(p)).Success? <==>
            forall i :: 0 <= i < |rows| && BlockOneKept(rows[i]) ==>
              TimeCell(rows[i].cells[0], p).Some? && p.parseFloat(rows[i].cells[1]).Some? && p.parseFloat(rows[i].cells[2]).Some?
    ensures CollectRows(rows, BlockOneStep(p)).Success? ==>
            var xs := CollectRows(rows, BlockOneStep(p)).value;
            var kept := Kept(rows, BlockOneStep(p));
            |xs| == |kept| &&
            forall k :: 0 <= k < |xs| ==>
              BlockOneKept(kept[k]) && xs[k].pressureAtVdp.None? &&
              Some(xs[k].timestamp) == TimeCell(kept[k].cells[0], p) &&
              Some(xs[k].pressureDepth) == p.parseFloat(kept[k].cells[1]) &&
              Some(xs[k].temperatureDepth) == p.parseFloat(kept[k].cells[2])
    ensures CollectRows(rows, BlockOneStep(p)).Failure? ==>
            exists i :: 0 <= i < |rows| && BlockOneKept(rows[i]) &&
                        CollectRows(rows, BlockOneStep(p)).error.row == rows[i].index
  {
    var step := BlockOneStep(p);
    CollectSucceeds(rows, step);
    if CollectRows(rows, step).Success? {
      CollectRecords(rows, step);
    } else {
      CollectFailsAtFirstAbort(rows, step, CollectRows(rows, step).error);
    }
  }

  // ---------------------------------------------------------------------
  // Block 2: tubing, annulus and line pressure, each with its timestamp.

  /** Rows 1 and 2 are headers; rows with fewer than six cells are ignored. */
  predicate BlockTwoKept(row: Row)
  {
    row.index > 2 && |row.cells| >= 6
  }

  /** The six cells in their read order, none failing. */
  predicate BlockTwoDecodes(row: Row, p: Parsers)
    requires |row.cells| >= 6
  {
    TimeCell(row.cells[0], p).Some? && p.parseFloat(row.cells[1]).Some? &&
    TimeCell(row.cells[2], p).Some? && p.parseFloat(row.cells[3]).Some? &&
    TimeCell(row.cells[4], p).Some? && p.parseFloat(row.cells[5]).Some?
  }

  /** The context of the first of the six cells that fails. */
  function BlockTwoContext(row: Row, p: Parsers): string
    requires |row.cells| >= 6
  {
    if TimeCell(row.cells[0], p).None? then "parse tubing timestamp"
    else if p.parseFloat(row.cells[1]).None? then "parse tubing pressure"
    else if TimeCell(row.cells[2], p).None? then "parse annulus timestamp"
    else if p.parseFloat(row.cells[3]).None? then "parse annulus pressure"
    else if TimeCell(row.cells[4], p).None? then "parse linear timestamp"
    else "parse linear pressure"
  }

  function BlockTwoRow(row: Row, p: Parsers): (o: RowOutcome<TableTwo>)
    ensures o.Skip? <==> !BlockTwoKept(row)
    ensures o.Emit? <==> BlockTwoKept(row) && BlockTwoDecodes(row, p)
    ensures o.Emit? ==> o.record == TableTwo(
                          TimeCell(row.cells[0], p).value, p.parseFloat(row.cells[1]).value,
                          TimeCell(row.cells[2], p).value, p.parseFloat(row.cells[3]).value,
                          TimeCell(row.cells[4], p).value, p.parseFloat(row.cells[5]).value)
    ensures o.Abort? ==> o.error == ImportError(BlockTwoContext(row, p), row.index)
  {
    if !BlockTwoKept(row) then Skip
    else
      var cells := row.cells;
      match TimeCell(cells[0], p)
      case None => Abort(ImportError("parse tubing timestamp", row.index))
      case Some(tsTub) =>
        match p.parseFloat(cells[1])
        case None => Abort(ImportError("parse tubing pressure", row.index))
        case Some(presTub) =>
          match TimeCell(cells[2], p)
          case None => Abort(ImportError("parse annulus timestamp", row.index))
          case Some(tsAnn) =>
            match p.parseFloat(cells[3])
            case None => Abort(ImportError("parse annulus pressure", row.index))
            case Some(presAnn) =>
              match TimeCell(cells[4], p)
              case None => Abort(ImportError("parse linear timestamp", row.index))
              case Some(tsLin) =>
                match p.parseFloat(cells[5])
                case None => Abort(ImportError("parse linear pressure", row.index))
                case Some(presLin) => Emit(TableTwo(tsTub, presTub, tsAnn, presAnn, tsLin, presLin))
  }

  function BlockTwoStep(p: Parsers): Row -> RowOutcome<TableTwo>
  {
    row => BlockTwoRow(row, p)
  }

  method ParseBlockTwoFile(rows: seq<Row>, p: Parsers) returns (r: Result<seq<TableTwo>, ImportError>)
    ensures r == CollectRows(rows, BlockTwoStep(p))
  {
    r := ParseRows(rows, BlockTwoStep(p));
  }

  /** A Block 2 import succeeds exactly when every kept row decodes, and then
      maps cells 0-5 of each kept row, in order, to the tubing, annulus and
      line (timestamp, pressure) pairs; otherwise it reports the first bad
      row and the first bad cell in it. */
  lemma BlockTwoImport(rows: seq<Row>, p: Parsers)
    ensures CollectRows(rows, BlockTwoStep(p)).Success? <==>
            forall i :: 0 <= i < |rows| && BlockTwoKept(rows[i]) ==> BlockTwoDecodes(rows[i], p)
    ensures CollectRows(rows, BlockTwoStep(p)).Success? ==>
            var xs := CollectRows(rows, BlockTwoStep(p)).value;
            var kept := Kept(rows, BlockTwoStep(p));
            |xs| == |kept| &&
            forall k :: 0 <= k < |xs| ==>
              BlockTwoKept(kept[k]) &&
              Some(xs[k].timestampTubing) == TimeCell(kept[k].cells[0], p) &&
              Some(xs[k].pressureTubing) == p.parseFloat(kept[k].cells[1]) &&
              Some(xs[k].timestampAnnulus) == TimeCell(kept[k].cells[2], p) &&
              Some(xs[k].pressureAnnulus) == p.parseFloat(kept[k].cells[3]) &&
              Some(xs[k].timestampLinear) == TimeCell(kept[k].cells[4], p) &&
              Some(xs[k].pressureLinear) == p.parseFloat(kept[k].cells[5])
    ensures CollectRows(rows, BlockTwoStep(p)).Failure? ==>
            exists i :: 0 <= i < |rows| && BlockTwoKept(rows[i]) && !BlockTwoDecodes(rows[i], p) &&
                        CollectRows(rows, BlockTwoStep(p)).error == ImportError(BlockTwoContext(rows[i], p), rows[i].index) &&
                        forall j :: 0 <= j < i && BlockTwoKept(rows[j]) ==> BlockTwoDecodes(rows[j], p)
  {
    var step := BlockTwoStep(p);
    CollectSucceeds(rows, step);
    if CollectRows(rows, step).Success? {
      CollectRecords(rows, step);
    } else {
      CollectFailsAtFirstAbort(rows, step, CollectRows(rows, step).error);
    }
  }

  // ---------------------------------------------------------------------
  // Block 3: liquid rate, water cut, gas rate.

  /** Row 1 is the header; rows with fewer than four cells are ignored. */
  predicate BlockThreeKept(row: Row)
  {
    row.index != 1 && |row.cells| >= 4
  }

  function BlockThreeRow(row: Row, p: Parsers): (o: RowOutcome<TableThree>)
    ensures o.Skip? <==> !BlockThreeKept(row)
    ensures o.Emit? <==> BlockThreeKept(row) && TimeCell(row.cells[0], p).Some? &&
                         p.parseFloat(row.cells[1]).Some? && p.parseFloat(row.cells[2]).Some? &&
                         p.parseFloat(row.cells[3]).Some?
    ensures o.Emit? ==> o.record == TableThree(TimeCell(row.cells[0], p).value, p.parseFloat(row.cells[1]).value,
                                               p.parseFloat(row.cells[2]).value, p.parseFloat(row.cells[3]).value,
                                               None, None, None)
    ensures o.Abort? ==> o.error.row == row.index
    ensures o.Abort? ==> (o.error.context ==
              if TimeCell(row.cells[0], p).None? then "parse timestamp block3"
              else if p.parseFloat(row.cells[1]).None? then "parse flow liquid"
              else if p.parseFloat(row.cells[2]).None? then "parse water cut"
              else "parse flow gas")
  {
    if !BlockThreeKept(row) then Skip
    else
      var cells := row.cells;
      match TimeCell(cells[0], p)
      case None => Abort(ImportError("parse timestamp block3", row.index))
      case Some(ts) =>
        match p.parseFloat(cells[1])
        case None => Abort(ImportError("parse flow liquid", row.index))
        case Some(flowL) =>
          match p.parseFloat(cells[2])
          case None => Abort(ImportError("parse water cut", row.index))
          case Some(wc) =>
            match p.parseFloat(cells[3])
            case None => Abort(ImportError("parse flow gas", row.index))
            case Some(flowG) => Emit(TableThree(ts, flowL, wc, flowG, None, None, None))
  }

  function BlockThreeStep(p: Parsers): Row -> RowOutcome<TableThree>
  {
    row => BlockThreeRow(row, p)
  }

  method ParseBlockThreeFile(rows: seq<Row>, p: Parsers) returns (r: Result<seq<TableThree>, ImportError>)
    ensures r == CollectRows(rows, BlockThreeStep(p))
  {
    r := ParseRows(rows, BlockThreeStep(p));
  }

  /** A Block 3 import succeeds exactly when every kept row decodes, and then
      yields one record per kept row, in order, from cells 0-3 with the
      derived rates left absent; otherwise it reports the first bad row. */
  lemma BlockThreeImport(rows: seq<Row>, p: Parsers)
    ensures CollectRows(rows, BlockThreeStep(p)).Success? <==>
            forall i :: 0 <= i < |rows| && BlockThreeKept(rows[i]) ==>
              TimeCell(rows[i].cells[0], p).Some? && p.parseFloat(rows[i].cells[1]).Some? &&
              p.parseFloat(rows[i].cells[2]).Some? && p.parseFloat(rows[i].cells[3]).Some?
    ensures CollectRows(rows, BlockThreeStep(p)).Success? ==>
            var xs := CollectRows(rows, BlockThreeStep(p)).value;
            var kept := Kept(rows, BlockThreeStep(p));
            |xs| == |kept| &&
            forall k :: 0 <= k < |xs| ==>
              BlockThreeKept(kept[k]) &&
              xs[k].oilFlowRate.None? && xs[k].waterFlowRate.None? && xs[k].gasOilRatio.None? &&
              Some(xs[k].timestamp) == TimeCell(kept[k].cells[0], p) &&
              Some(xs[k].flowLiquid) == p.parseFloat(kept[k].cells[1]) &&
              Some(xs[k].waterCut) == p.parseFloat(kept[k].cells[2]) &&
              Some(xs[k].flowGas) == p.parseFloat(kept[k].cells[3])
    ensures CollectRows(rows, BlockThreeStep(p)).Failure? ==>
            exists i :: 0 <= i < |rows| && BlockThreeKept(rows[i]) &&
                        CollectRows(rows, BlockThreeStep(p)).error.row == rows[i].index
  {
    var step := BlockThreeStep(p);
    CollectSucceeds(rows, step);
    if CollectRows(rows, step).Success? {
      CollectRecords(rows, step);
    } else {
      CollectFailsAtFirstAbort(rows, step, CollectRows(rows, step).error);
    }
  }
}
