/** File mode (`PlotFile`, Plot.py): every row of an existing log becomes one
    point, timestamp from the first field and latency from the second, an
    empty second field standing for a failed probe. Reading the file and
    `float()` are modelled by the rows of `Cell`s the reader yields and
    `CsvLog.ParseFloat`. */
module PlotFile {
  import opened Py
  import opened CsvLog
  import opened Sampler
  import opened Session

  /** One point of the chart: a timestamp and a latency. */
  type Point = (real, real)

  /** The message Python gives when `raise e(...)` calls the caught
      `ValueError` instance as if it were a class. */
  const NotCallable: string := "'ValueError' object is not callable"

  /** Whether a field read back is the empty string `''`: the reader gives
      `''` for an empty field, here `Empty` or an empty `Text`. */
  predicate Blank(c: Cell) {
    c.Empty? || c == Text("")
  }

  /** One iteration of `yield_points`: the first field must parse as a
      number; then an empty second field gives the sentinel and any other
      must parse too. A missing field is an `IndexError`; an unparseable first
      field a `ValueError`; an unparseable second field ends in `TypeError`,
      because the handler calls the exception it caught. */
  function RowPoint(row: seq<Cell>): (r: Result<Point>)
    ensures r.Ok? <==> |row| >= 2 && row[0].Number? && (Blank(row[1]) || row[1].Number?)
    ensures r.Ok? ==> r.value == (row[0].n, if Blank(row[1]) then Sentinel else row[1].n)
    ensures |row| >= 1 && !row[0].Number? ==> r.Err? && r.error.ValueError?
    ensures |row| < 2 && (|row| == 0 || row[0].Number?) ==> r.Err? && r.error.IndexError?
    ensures |row| >= 2 && row[0].Number? && !Blank(row[1]) && !row[1].Number? ==>
      r == Err(TypeError(NotCallable))
  {
    if |row| == 0 then Err(IndexError("list index out of range"))
    else
      match ParseFloat(row[0])
      case Err(e) => Err(e)
      case Ok(stamp) =>
        if |row| < 2 then Err(IndexError("list index out of range"))
        else if Blank(row[1]) then Ok((stamp, Sentinel))
        else
          match ParseFloat(row[1])
          case Err(_) => Err(TypeError(NotCallable))
          case Ok(y) => Ok((stamp, y))
  }

  /** Row `k` is the first row that does not give a point. */
  predicate FirstFailure(rows: seq<seq<Cell>>, k: int) {
    0 <= k < |rows| && RowPoint(rows[k]).Err? && forall j :: 0 <= j < k ==> RowPoint(rows[j]).Ok?
  }

  /** The points `yield_points` yields for all of `rows`, or the exception of
      the first row that fails: one point per row, in row order. */
  function YieldPoints(rows: seq<seq<Cell>>): (r: Result<seq<Point>>)
    ensures r.Ok? <==> forall k :: 0 <= k < |rows| ==> RowPoint(rows[k]).Ok?
    ensures r.Ok? ==> |r.value| == |rows|
    ensures r.Ok? ==> forall k :: 0 <= k < |rows| ==> RowPoint(rows[k]) == Ok(r.value[k])
    ensures r.Err? ==> exists k :: FirstFailure(rows, k) && RowPoint(rows[k]) == Err(r.error)
    decreases |rows|
  {
    if rows == [] then Ok([])
    else
      match RowPoint(rows[0])
      case Err(e) => Err(e)
      case Ok(p) =>
        match YieldPoints(rows[1..])
        case Err(e) =>
          assert exists k :: FirstFailure(rows, k) && RowPoint(rows[k]) == Err(e) by {
            var k' :| FirstFailure(rows[1..], k') && RowPoint(rows[1..][k']) == Err(e);
            FailureShifts(rows, k');
          }
          Err(e)
        case Ok(ps) =>
          assert forall k :: 0 < k < |rows| ==> rows[k] == rows[1..][k - 1];
          Ok([p] + ps)
  }

  /** Behind a row that gives a point, the first failure of the remaining rows
      is the first failure of all of them, one position later. */
  lemma FailureShifts(rows: seq<seq<Cell>>, k: int)
    requires rows != [] && RowPoint(rows[0]).Ok? && FirstFailure(rows[1..], k)
    ensures FirstFailure(rows, k + 1) && rows[k + 1] == rows[1..][k]
  {
    forall j | 0 <= j < k + 1 ensures RowPoint(rows[j]).Ok? {
      if j > 0 { assert rows[j] == rows[1..][j - 1]; }
    }
  }

  /** `PlotFile.__init__` up to drawing: the log must be accessible, else a
      `RuntimeError`; then the points are collected into `x` and `y` in order,
      and the first failing row aborts the whole load, so no partial chart is
      drawn. */
  method LoadPlotFile(accessible: bool, csvPath: string, rows: seq<seq<Cell>>)
    returns (r: Result<(seq<real>, seq<real>)>)
    ensures !accessible ==> r == Err(RuntimeError("Cannot access " + csvPath + "!"))
    ensures accessible ==> (r.Ok? <==> YieldPoints(rows).Ok?)
    ensures accessible && r.Err? ==> r.error == YieldPoints(rows).error
    ensures r.Ok? ==> |r.value.0| == |r.value.1| == |rows|
    ensures r.Ok? ==> forall k :: 0 <= k < |rows| ==> (r.value.0[k], r.value.1[k]) == YieldPoints(rows).value[k]
  {
    if !accessible {
      return Err(RuntimeError("Cannot access " + csvPath + "!"));
    }
    var x: seq<real> := [];
    var y: seq<real> := [];
    var k := 0;
    while k < |rows|
      invariant 0 <= k <= |rows|
      invariant |x| == |y| == k
      invariant forall j :: 0 <= j < k ==> RowPoint(rows[j]) == Ok((x[j], y[j]))
    {
      match RowPoint(rows[k]) {
        case Err(e) =>
          FirstFailureIsTheError(rows, k);
          return Err(e);
        case Ok(p) =>
          x := x + [p.0];
          y := y + [p.1];
      }
      k := k + 1;
    }
    AllPointsCollected(rows, x, y);
    r := Ok((x, y));
  }

  /** When every row gives a point, `YieldPoints` yields exactly those points. */
  lemma AllPointsCollected(rows: seq<seq<Cell>>, x: seq<real>, y: seq<real>)
    requires |x| == |y| == |rows|
    requires forall j :: 0 <= j < |rows| ==> RowPoint(rows[j]) == Ok((x[j], y[j]))
    ensures YieldPoints(rows).Ok?
    ensures forall k :: 0 <= k < |rows| ==> YieldPoints(rows).value[k] == (x[k], y[k])
  {
  }

  /** The exception `YieldPoints` reports is that of the first failing row. */
  lemma FirstFailureIsTheError(rows: seq<seq<Cell>>, k: int)
    requires FirstFailure(rows, k)
    ensures YieldPoints(rows) == Err(RowPoint(rows[k]).error)
  {
    assert 0 <= k < |rows| && RowPoint(rows[k]).Err?;
    var r := YieldPoints(rows);
    assert r.Err?;
    var k' :| FirstFailure(rows, k') && RowPoint(rows[k']) == Err(r.error);
    assert 0 <= k' < |rows| && RowPoint(rows[k']).Err?;
  }

  /** The point each logged sample reads back as: its timestamp and its stored
      latency. */
  function SamplePoints(vals: seq<Option<Sample>>): seq<Point>
    requires AllWellTyped(vals)
  {
    if vals == [] then []
    else (if vals[0].Some? then [(Stamp(vals[0].value), Latency(vals[0].value))] else []) + SamplePoints(vals[1..])
  }

  /** What a live session logs reads back, row for row, as the points it
      plotted: timestamps as written and a missing latency, logged as an empty
      field, as the sentinel. */
  lemma {:induction false} LogRoundTrip(vals: seq<Option<Sample>>)
    requires AllWellTyped(vals)
    ensures YieldPoints(Serialised(Rows(vals))) == Ok(SamplePoints(vals))
    decreases |vals|
  {
    if vals != [] {
      assert AllWellTyped(vals[1..]) by {
        forall k | 0 <= k < |vals[1..]| && vals[1..][k].Some? ensures WellTyped(vals[1..][k].value) {
          assert vals[1..][k] == vals[k + 1];
        }
      }
      LogRoundTrip(vals[1..]);
      if vals[0].Some? {
        var s := vals[0].value;
        var row := Serialise(Fields(s));
        assert RowPoint(row) == Ok((Stamp(s), Latency(s)));
        assert Rows(vals) == [Fields(s)] + Rows(vals[1..]);
        SerialisedAppend([Fields(s)], Rows(vals[1..]));
        assert Serialised([Fields(s)]) == [row];
        var lines := [row] + Serialised(Rows(vals[1..]));
        assert lines[1..] == Serialised(Rows(vals[1..]));
      } else {
        assert Rows(vals) == Rows(vals[1..]);
        assert SamplePoints(vals) == SamplePoints(vals[1..]);
      }
    }
  }

  /** The round trip through a live session: everything `get_pings` logs
      (with `nofile` unset) reads back in file mode as one point per sample,
      in order, even where the live table has already evicted it. */
  lemma SessionLogReadsBack(t: PlotTables.Table, vals: seq<Option<Sample>>)
    requires PlotTables.Bounded(t) && t.length >= 1 && AllWellTyped(vals)
    ensures YieldPoints(Serialised(IngestAll(t, vals, false).2)) == Ok(SamplePoints(vals))
  {
    IngestAllWellTyped(t, vals, false);
    LogRoundTrip(vals);
  }
}
