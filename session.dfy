/** A live monitoring session: the checks of `Core.__init__` (core.py) and
    the sample ingestion `Animate.get_pings` (Plot.py), which moves each
    yielded sample into the shared plot table and, unless `nofile` is set, into
    the CSV log. */
module Session {
  import opened Py
  import Window
  import opened PlotTables
  import opened Files
  import opened CsvLog
  import opened Sampler

  /** The latency `get_pings` stores: a missing (`None`) latency becomes the
      sentinel. */
  function StoredLatency(v: Value): (r: Value)
    ensures v.VNone? ==> r == VFloat(Sentinel)
    ensures !v.VNone? ==> r == v
  {
    if v.VNone? then VFloat(Sentinel) else v
  }

  /** The effect of one `get_pings` step: how it ended, the table after it, and
      the row forwarded to `write_csv`, if any. */
  datatype Ingested = Ingested(outcome: Outcome, table: Table, written: Option<seq<Value>>)

  /** One iteration of `get_pings` on the value `val` the generator yielded:
      idle leaves everything alone; a sample's time goes through
      `fromtimestamp` into `x`, then its latency into `y`, then, unless
      `nofile`, the whole sample into the log. An exception stops the step
      where it is raised, so a rejected latency leaves `x` one longer. */
  function Ingest(t: Table, val: Option<Sample>, nofile: bool): (r: Ingested)
    ensures val.None? ==> r == Ingested(Pass, t, None)
    ensures r.table.length == t.length
    ensures r.outcome.Fail? ==> r.written.None?
    ensures r.outcome.Pass? && val.Some? ==> r.written == if nofile then None else Some(Fields(val.value))
    ensures val.Some? && FromTimestamp(val.value.time).Err? ==> r == Ingested(Fail(FromTimestamp(val.value.time).error), t, None)
  {
    match val
    case None => Ingested(Pass, t, None)
    case Some(s) =>
      match FromTimestamp(s.time)
      case Err(e) => Ingested(Fail(e), t, None)
      case Ok(stamp) =>
        var (o1, t1) := AppendedX(t, VDateTime(stamp));
        if o1.Fail? then Ingested(o1, t1, None)
        else
          var (o2, t2) := AppendedY(t1, StoredLatency(s.latency));
          if o2.Fail? then Ingested(o2, t2, None)
          else Ingested(Pass, t2, if nofile then None else Some(Fields(s)))
  }

  /** A sample `get_pings` can store: a numeric time and a float or missing
      latency. */
  predicate WellTyped(s: Sample) {
    (s.time.VInt? || s.time.VFloat?) && (s.latency.VFloat? || s.latency.VNone?)
  }

  /** The timestamp and the stored latency of a well-typed sample. */
  function Stamp(s: Sample): real
    requires WellTyped(s)
  {
    FromTimestamp(s.time).value
  }

  function Latency(s: Sample): real
    requires WellTyped(s)
  {
    StoredLatency(s.latency).f
  }

  /** A sample appends exactly one entry to each list, `None` becoming the
      sentinel, so lists of equal length stay equal and within capacity. */
  lemma SampleAppendsOne(t: Table, s: Sample, nofile: bool)
    requires Bounded(t) && t.length >= 1 && WellTyped(s)
    ensures var r := Ingest(t, Some(s), nofile);
      r.outcome == Pass &&
      r.table.x == Window.Append(t.x, Stamp(s), t.length).value &&
      r.table.y == Window.Append(t.y, Latency(s), t.length).value &&
      Bounded(r.table) &&
      (|t.x| == |t.y| ==> |r.table.x| == |r.table.y|)
  {
    Window.AppendKeepsBound(t.x, Stamp(s), t.length);
    Window.AppendKeepsBound(t.y, Latency(s), t.length);
  }

  /** A latency of the wrong type (an int, say) is rejected by `appendy` after
      `appendx` has already stored the time: `x` and `y` fall out of step. */
  lemma WrongLatencyDesynchronises(t: Table, s: Sample, nofile: bool)
    requires Bounded(t) && t.length >= 1 && |t.x| == |t.y|
    requires (s.time.VInt? || s.time.VFloat?) && s.latency.VInt?
    ensures var r := Ingest(t, Some(s), nofile);
      r.outcome.Fail? && r.outcome.error.TypeError? && r.written.None? &&
      r.table.y == t.y && r.table.x == Window.Append(t.x, FromTimestamp(s.time).value, t.length).value
  {
    Window.AppendKeepsBound(t.x, FromTimestamp(s.time).value, t.length);
  }

  /** `get_pings` run over the values the generator yields, stopping at the
      first exception: the outcome, the table, and the rows written. */
  function IngestAll(t: Table, vals: seq<Option<Sample>>, nofile: bool): (Outcome, Table, seq<seq<Value>>)
    decreases |vals|
  {
    if vals == [] then (Pass, t, [])
    else
      var one := Ingest(t, vals[0], nofile);
      if one.outcome.Fail? then (one.outcome, one.table, [])
      else
        var rest := IngestAll(one.table, vals[1..], nofile);
        (rest.0, rest.1, WrittenRows(one.written) + rest.2)
  }

  predicate AllWellTyped(vals: seq<Option<Sample>>) {
    forall k :: 0 <= k < |vals| && vals[k].Some? ==> WellTyped(vals[k].value)
  }

  /** The timestamps of the samples among `vals`, in order (idle values skipped). */
  function Stamps(vals: seq<Option<Sample>>): seq<real>
    requires AllWellTyped(vals)
  {
    if vals == [] then []
    else (if vals[0].Some? then [Stamp(vals[0].value)] else []) + Stamps(vals[1..])
  }

  /** The stored latencies of the samples among `vals`, in order. */
  function Latencies(vals: seq<Option<Sample>>): seq<real>
    requires AllWellTyped(vals)
  {
    if vals == [] then []
    else (if vals[0].Some? then [Latency(vals[0].value)] else []) + Latencies(vals[1..])
  }

  /** The rows of the samples among `vals`, in order. */
  function Rows(vals: seq<Option<Sample>>): seq<seq<Value>> {
    if vals == [] then []
    else (if vals[0].Some? then [Fields(vals[0].value)] else []) + Rows(vals[1..])
  }

  /** Ingesting well-typed values never fails; the lists evolve exactly as the
      window rule applied to the samples' times and latencies, idle values
      contributing nothing; and every sample is logged unless `nofile`. */
  lemma {:induction false} IngestAllWellTyped(t: Table, vals: seq<Option<Sample>>, nofile: bool)
    requires Bounded(t) && t.length >= 1 && AllWellTyped(vals)
    ensures var r := IngestAll(t, vals, nofile);
      r.0 == Pass &&
      Window.Fill(t.x, Stamps(vals), t.length) == Ok(r.1.x) &&
      Window.Fill(t.y, Latencies(vals), t.length) == Ok(r.1.y) &&
      r.1.length == t.length && Bounded(r.1) &&
      r.2 == (if nofile then [] else Rows(vals))
    decreases |vals|
  {
    if vals != [] {
      var rest := vals[1..];
      var one := Ingest(t, vals[0], nofile);
      SamplesUnfold(vals);
      IngestAllUnfold(t, vals, nofile);
      if vals[0].Some? {
        var s := vals[0].value;
        SampleAppendsOne(t, s, nofile);
        IngestAllWellTyped(one.table, rest, nofile);
        Window.FillUnfold(t.x, Stamps(vals), t.length);
        Window.FillUnfold(t.y, Latencies(vals), t.length);
      } else {
        IngestAllWellTyped(t, rest, nofile);
      }
    }
  }

  /** `Stamps`, `Latencies` and `Rows` of a non-empty run: the first value's
      entries, then the rest's. */
  lemma SamplesUnfold(vals: seq<Option<Sample>>)
    requires vals != [] && AllWellTyped(vals)
    ensures AllWellTyped(vals[1..])
    ensures vals[0].Some? ==>
      Stamps(vals) != [] && Stamps(vals)[0] == Stamp(vals[0].value) && Stamps(vals)[1..] == Stamps(vals[1..]) &&
      Latencies(vals) != [] && Latencies(vals)[0] == Latency(vals[0].value) && Latencies(vals)[1..] == Latencies(vals[1..]) &&
      Rows(vals) == [Fields(vals[0].value)] + Rows(vals[1..])
    ensures vals[0].None? ==>
      Stamps(vals) == Stamps(vals[1..]) && Latencies(vals) == Latencies(vals[1..]) && Rows(vals) == Rows(vals[1..])
  {
    assert AllWellTyped(vals[1..]) by {
      forall k | 0 <= k < |vals[1..]| && vals[1..][k].Some? ensures WellTyped(vals[1..][k].value) {
        assert vals[1..][k] == vals[k + 1];
      }
    }
    if vals[0].Some? {
      assert ([Stamp(vals[0].value)] + Stamps(vals[1..]))[1..] == Stamps(vals[1..]);
      assert ([Latency(vals[0].value)] + Latencies(vals[1..]))[1..] == Latencies(vals[1..]);
    }
  }

  /** FIFO through ingestion: from an empty table of capacity `n`, the table
      holds the last `min(samples, n)` times and latencies, in order, the two
      lists of equal length. */
  lemma IngestFifo(n: int, vals: seq<Option<Sample>>, nofile: bool)
    requires n >= 1 && AllWellTyped(vals)
    ensures var r := IngestAll(Table([], [], n), vals, nofile);
      r.0 == Pass &&
      r.1.x == Window.LastN(Stamps(vals), n) &&
      r.1.y == Window.LastN(Latencies(vals), n) &&
      r.1.length == n && |r.1.x| == |r.1.y| <= n
  {
    IngestAllWellTyped(Table([], [], n), vals, nofile);
    Window.FifoFromEmpty(Stamps(vals), n);
    Window.FifoFromEmpty(Latencies(vals), n);
    StampsLatenciesSameLength(vals);
  }

  lemma {:induction false} StampsLatenciesSameLength(vals: seq<Option<Sample>>)
    requires AllWellTyped(vals)
    ensures |Stamps(vals)| == |Latencies(vals)|
    decreases |vals|
  {
    if vals != [] {
      assert AllWellTyped(vals[1..]) by {
        forall k | 0 <= k < |vals[1..]| && vals[1..][k].Some? ensures WellTyped(vals[1..][k].value) {
          assert vals[1..][k] == vals[k + 1];
        }
      }
      StampsLatenciesSameLength(vals[1..]);
    }
  }

  /** A worked case: times 1, 2, 3 with latencies 10.5, none, 12.0 into a table
      of capacity 2 leave times 2, 3 and latencies -100.0, 12.0. */
  lemma WindowExample(vals: seq<Option<Sample>>, nofile: bool)
    requires vals == [
      Some(Sample(VFloat(1.0), VFloat(10.5), 3000, 64, "host")),
      Some(Sample(VFloat(2.0), VNone, 3000, 64, "host")),
      Some(Sample(VFloat(3.0), VFloat(12.0), 3000, 64, "host"))]
    ensures IngestAll(Table([], [], 2), vals, nofile).1 == Table([2.0, 3.0], [-100.0, 12.0], 2)
  {
    assert AllWellTyped(vals) by {
      assert WellTyped(vals[0].value) && WellTyped(vals[1].value) && WellTyped(vals[2].value);
    }
    IngestFifo(2, vals, nofile);
    ThreeSamples(vals);
    assert Stamp(vals[0].value) == 1.0 && Stamp(vals[1].value) == 2.0 && Stamp(vals[2].value) == 3.0;
    assert Latency(vals[0].value) == 10.5 && Latency(vals[1].value) == -100.0 && Latency(vals[2].value) == 12.0;
    assert Window.LastN([1.0, 2.0, 3.0], 2) == [2.0, 3.0];
    assert Window.LastN([10.5, -100.0, 12.0], 2) == [-100.0, 12.0];
  }

  lemma ThreeSamples(vals: seq<Option<Sample>>)
    requires |vals| == 3 && AllWellTyped(vals)
    requires vals[0].Some? && vals[1].Some? && vals[2].Some?
    ensures Stamps(vals) == [Stamp(vals[0].value), Stamp(vals[1].value), Stamp(vals[2].value)]
    ensures Latencies(vals) == [Latency(vals[0].value), Latency(vals[1].value), Latency(vals[2].value)]
  {
    assert vals[1..][1..] == vals[2..] && vals[2..][1..] == [];
    assert AllWellTyped(vals[1..]) && AllWellTyped(vals[2..]);
    assert Stamps(vals[2..]) == [Stamp(vals[2].value)];
    assert Latencies(vals[2..]) == [Latency(vals[2].value)];
  }

  /** As the code is written, the sample yielded for a probe that raised
      `TypeError` carries a datetime as its time, on which `get_pings`'
      `fromtimestamp` raises `TypeError`: the failure aborts ingestion and is
      neither plotted nor logged. */
  lemma FailedProbeAbortsIngestAsWritten(cfg: Config, s: State, now: int, t: Table, nofile: bool)
    requires Due(Resume(s, now), now, cfg.delay)
    ensures var out := StepAsWritten(cfg, s, now, RaisedTypeError).1;
      out.Some? && Ingest(t, out, nofile) == Ingested(Fail(TypeError("an integer is required")), t, None)
  {
  }

  /** With the failure sample stamped like any other, a failed probe is stored
      as the sentinel latency at the dispatch time and is logged unless
      `nofile`. */
  lemma FailedProbeIngested(cfg: Config, s: State, now: int, t: Table, nofile: bool)
    requires Due(Resume(s, now), now, cfg.delay) && Bounded(t) && t.length >= 1
    ensures var out := Step(cfg, s, now, RaisedTypeError).1;
      var r := Ingest(t, out, nofile);
      out.Some? && r.outcome == Pass &&
      r.table.x == Window.Append(t.x, now as real, t.length).value &&
      r.table.y == Window.Append(t.y, Sentinel, t.length).value &&
      r.written == (if nofile then None else Some(Fields(out.value)))
  {
    SampleAppendsOne(t, Step(cfg, s, now, RaisedTypeError).1.value, nofile);
  }

  /** The state `Core.__init__` leaves: the ping generator, and, unless
      `nofile`, the log file it built and a CSV writer on it. */
  class Core {
    const address: string
    const delay: int
    const nofile: bool
    const pingGenerator: Pinger
    const builtFile: Option<Target>
    const cwriter: CsvWriter?

    /** With `nofile` no file is built and no writer exists; otherwise both do. */
    predicate Valid() {
      (nofile <==> builtFile.None?) && (nofile <==> cwriter == null)
    }

    constructor (address: string, delay: int, timeout: int, start: int,
                 built: Option<Target>, existing: seq<seq<Cell>>)
      ensures this.address == address && this.delay == delay && nofile == built.None?
      ensures fresh(pingGenerator) && pingGenerator.cfg == Config(address, timeout, DefaultSize, delay)
      ensures pingGenerator.View() == Started(start, delay)
      ensures builtFile == built && Valid()
      ensures cwriter != null ==> fresh(cwriter) && cwriter.lines == existing
    {
      this.address := address;
      this.delay := delay;
      nofile := built.None?;
      pingGenerator := new Pinger(Config(address, timeout, DefaultSize, delay), start);
      builtFile := built;
      if built.Some? {
        cwriter := new CsvWriter(existing);
      } else {
        cwriter := null;
      }
    }
  }

  /** `Core.__init__`: a missing address is a `RuntimeError`; the generator is
      created with the given timeout and delay (size stays 64); with `nofile`
      nothing is built, otherwise `buildfile` runs and its exception, if any,
      propagates. `contents` gives the rows already in a file opened for
      appending; `start` is the clock reading of the generator's line 79. */
  method NewCore(address: Option<string>, filePath: Option<string>, fileName: Option<string>,
                 nofile: bool, delay: int, timeout: int, start: int,
                 canOpen: Target -> bool, contents: Target -> seq<seq<Cell>>)
    returns (r: Result<Core>)
    ensures address.None? ==> r == Err(RuntimeError("core.Core requires address"))
    ensures address.Some? && nofile ==> r.Ok? && r.value.builtFile.None? && r.value.cwriter == null
    ensures address.Some? && !nofile ==>
      (r.Ok? <==> BuildFile(filePath, fileName, canOpen).result.Ok?) &&
      (r.Err? ==> r.error == BuildFile(filePath, fileName, canOpen).result.error)
    ensures r.Ok? ==> fresh(r.value) && fresh(r.value.pingGenerator) && r.value.Valid()
    ensures r.Ok? ==> r.value.address == address.value && r.value.nofile == nofile
    ensures r.Ok? ==> r.value.pingGenerator.cfg == Config(address.value, timeout, DefaultSize, delay)
    ensures r.Ok? ==> r.value.pingGenerator.View() == Started(start, delay)
    ensures r.Ok? && !nofile ==>
      r.value.builtFile == Some(BuildFile(filePath, fileName, canOpen).result.value) &&
      r.value.cwriter != null && fresh(r.value.cwriter) &&
      r.value.cwriter.lines == contents(r.value.builtFile.value)
  {
    if address.None? {
      return Err(RuntimeError("core.Core requires address"));
    }
    var built: Option<Target> := None;
    if !nofile {
      var b := BuildFile(filePath, fileName, canOpen);
      if b.result.Err? {
        return Err(b.result.error);
      }
      built := Some(b.result.value);
    }
    var existing := if built.Some? then contents(built.value) else [];
    var core := new Core(address.value, delay, timeout, start, built, existing);
    r := Ok(core);
  }

  /** The live plot: a `Core` and the plot table shared by every plot. */
  class Animate {
    const core: Core
    const ptable: PlotTable

    constructor (core: Core, ptable: PlotTable)
      ensures this.core == core && this.ptable == ptable
    {
      this.core := core;
      this.ptable := ptable;
    }

    /** The log lines after a step that forwarded `written`. */
    static function Logged(lines: seq<seq<Cell>>, written: Option<seq<Value>>): seq<seq<Cell>> {
      if written.Some? then lines + [Serialise(written.value)] else lines
    }

    /** One iteration of `get_pings` on a value the generator yielded. */
    method GetPing(val: Option<Sample>) returns (r: Outcome)
      requires core.Valid()
      modifies ptable, core.cwriter
      ensures var ing := Ingest(old(ptable.View()), val, core.nofile);
        r == ing.outcome && ptable.View() == ing.table &&
        (core.cwriter != null ==> core.cwriter.lines == Logged(old(core.cwriter.lines), ing.written))
    {
      if val.None? {
        return Pass;
      }
      var s := val.value;
      var stamp := FromTimestamp(s.time);
      if stamp.Err? {
        return Fail(stamp.error);
      }
      r := ptable.AppendX(VDateTime(stamp.value));
      if r.Fail? {
        return;
      }
      if s.latency.VNone? {
        r := ptable.AppendY(VFloat(Sentinel));
      } else {
        r := ptable.AppendY(s.latency);
      }
      if r.Fail? {
        return;
      }
      if !core.nofile {
        var echoed := WriteCsvData(core.cwriter, Some(Fields(s)));
      }
    }

    /** `get_pings` over a run of yielded values, ending at the first exception. */
    method GetPings(vals: seq<Option<Sample>>) returns (r: Outcome)
      requires core.Valid()
      modifies ptable, core.cwriter
      ensures var all := IngestAll(old(ptable.View()), vals, core.nofile);
        r == all.0 && ptable.View() == all.1 &&
        (core.cwriter != null ==> core.cwriter.lines == old(core.cwriter.lines) + Serialised(all.2))
    {
      ghost var goal := IngestAll(ptable.View(), vals, core.nofile);
      ghost var lines0 := if core.cwriter != null then core.cwriter.lines else [];
      ghost var done: seq<seq<Value>> := [];
      var k := 0;
      r := Pass;
      assert vals[0..] == vals;
      assert done + goal.2 == goal.2;
      assert lines0 + Serialised(done) == lines0;
      while k < |vals|
        invariant 0 <= k <= |vals|
        invariant r == Pass
        invariant var rest := IngestAll(ptable.View(), vals[k..], core.nofile);
          goal == (rest.0, rest.1, done + rest.2)
        invariant core.cwriter != null ==> core.cwriter.lines == lines0 + Serialised(done)
      {
        ghost var one := Ingest(ptable.View(), vals[k], core.nofile);
        IngestAllStep(goal, ptable.View(), vals, k, core.nofile, done);
        r := GetPing(vals[k]);
        if r.Fail? {
          return;
        }
        LoggedSerialised(lines0, done, one.written);
        done := done + WrittenRows(one.written);
        k := k + 1;
      }
      assert vals[k..] == [] && done + [] == done;
    }

    /** One animation frame's work apart from drawing (line 154): advance the
        generator once and ingest what it yields. */
    method Tick(now: int, probe: Probe) returns (r: Outcome)
      requires core.Valid()
      modifies core.pingGenerator, ptable, core.cwriter
      ensures var (st, out) := Step(core.pingGenerator.cfg, old(core.pingGenerator.View()), now, probe);
        var ing := Ingest(old(ptable.View()), out, core.nofile);
        core.pingGenerator.View() == st &&
        r == ing.outcome && ptable.View() == ing.table &&
        (core.cwriter != null ==> core.cwriter.lines == Logged(old(core.cwriter.lines), ing.written))
    {
      var out := core.pingGenerator.Next(now, probe);
      r := GetPing(out);
    }
  }

  /** The rows one step forwarded to the log. */
  function WrittenRows(written: Option<seq<Value>>): seq<seq<Value>> {
    if written.Some? then [written.value] else []
  }

  /** `IngestAll` on a non-empty run: the first step, then the rest. */
  lemma IngestAllUnfold(t: Table, vals: seq<Option<Sample>>, nofile: bool)
    requires vals != []
    ensures var one := Ingest(t, vals[0], nofile);
      IngestAll(t, vals, nofile) ==
        if one.outcome.Fail? then (one.outcome, one.table, [])
        else
          var rest := IngestAll(one.table, vals[1..], nofile);
          (rest.0, rest.1, WrittenRows(one.written) + rest.2)
  {
  }

  /** One step of the loop in `GetPings`: what remains to be done after
      `vals[k]`, given what remained before it. */
  lemma IngestAllStep(goal: (Outcome, Table, seq<seq<Value>>), t: Table, vals: seq<Option<Sample>>,
                      k: int, nofile: bool, done: seq<seq<Value>>)
    requires 0 <= k < |vals|
    requires var rest := IngestAll(t, vals[k..], nofile); goal == (rest.0, rest.1, done + rest.2)
    ensures var one := Ingest(t, vals[k], nofile);
      if one.outcome.Fail? then goal == (one.outcome, one.table, done)
      else
        var rest := IngestAll(one.table, vals[k + 1..], nofile);
        goal == (rest.0, rest.1, (done + WrittenRows(one.written)) + rest.2)
  {
    IngestAllUnfold(t, vals[k..], nofile);
    assert vals[k..][0] == vals[k] && vals[k..][1..] == vals[k + 1..];
    var one := Ingest(t, vals[k], nofile);
    if one.outcome.Fail? {
      assert done + [] == done;
    } else {
      var rest := IngestAll(one.table, vals[k + 1..], nofile);
      assert done + (WrittenRows(one.written) + rest.2) == (done + WrittenRows(one.written)) + rest.2;
    }
  }

  /** Logging one more step's row extends the serialised log by that row. */
  lemma LoggedSerialised(lines: seq<seq<Cell>>, done: seq<seq<Value>>, written: Option<seq<Value>>)
    ensures Animate.Logged(lines + Serialised(done), written) == lines + Serialised(done + WrittenRows(written))
  {
    SerialisedAppend(done, WrittenRows(written));
    if written.Some? {
      assert Serialised([written.value]) == [Serialise(written.value)];
    } else {
      assert done + [] == done;
    }
  }

  /** The log lines of a run of rows, in order. */
  function Serialised(rows: seq<seq<Value>>): (lines: seq<seq<Cell>>)
    ensures |lines| == |rows|
  {
    if rows == [] then [] else [Serialise(rows[0])] + Serialised(rows[1..])
  }

  lemma {:induction false} SerialisedAppend(a: seq<seq<Value>>, b: seq<seq<Value>>)
    ensures Serialised(a + b) == Serialised(a) + Serialised(b)
    decreases |a|
  {
    if a == [] {
      assert a + b == b;
    } else {
      assert (a + b)[1..] == a[1..] + b;
      SerialisedAppend(a[1..], b);
    }
  }
}
