# PingStats core in Dafny

PingStats measures round-trip latency to one host and plots it. In live mode, a
`ping` generator paces the probes and yields either idle (`None`) or a sample
tuple. `Animate.get_pings` moves each sample into a bounded plot window
(`_PlotTable`) and, unless `nofile` is set, into a CSV log. In file mode,
`PlotFile` reads that log back, row by row. This project models those pieces
and proves what they promise:

- `py.dfy` (`Py`): Python values as far as the code tests their types, the
  exceptions it raises, and `datetime.fromtimestamp`.
- `window.dfy` (`Window`): the append-and-evict rule of `appendx`/`appendy`
  on sequences. It proves FIFO eviction, and what happens when a list is
  longer than the capacity or the capacity is not positive.
- `plot_table.dfy` (`PlotTables`): the class `_PlotTable`. It covers the
  constructor's capacity check, the type checks of `appendx`/`appendy`, the
  getters, and the `table_length` override of `_Plot.__init__`.
- `files.dfy` (`Files`): `validate_string`, and `buildfile`'s checks, target
  name and fallback. File opening is an opaque predicate. Which files
  `buildfile` tries to open is recorded, in order.
- `csv_log.dfy` (`CsvLog`): the fields a CSV writer produces, `float()` on
  a field, and `write_csv_data`.
- `sampler.dfy` (`Sampler`): the pacing loop of `ping`, over an abstract
  integer clock with the probe's answer as an input. It proves the strict
  `> delay` test, the sequence counter, and the spacing of dispatched samples.
- `session.dfy` (`Session`): the checks of `Core.__init__`, `get_pings` one
  step at a time and over a run, and one animation frame (advance the
  generator, then ingest what it yields).
- `plot_file.dfy` (`PlotFile`): `yield_points`, the collecting loop of
  `PlotFile.__init__`, and the round trip from the live session's log to the
  points file mode reads back.

Points where the code does something other than what a quick reading
suggests, all of which the model follows:

- Failed probe. The success branch of `ping` yields the float `time.time()`
  as the sample's time (core.py:83). The `TypeError` branch yields a datetime
  (core.py:89), and `get_pings` then raises `TypeError` when it passes that
  to `fromtimestamp` (Plot.py:166). See Findings.
- Test expectation. tests.py:46-47 expects `None` as the latency of a failed
  connection. The code yields `-100.00` when the probe raises `TypeError`, and
  otherwise whatever the probe returned.
- Pacing. `i += 1` and `last_ping = time.time()` (core.py:92-93) come after
  the `yield` of a sample. They run when the generator is next advanced, and
  that advance tests the clock against the `last_ping` it has just read. So,
  for `delay >= 0`, the advance after a sample is always idle. The next gap
  is measured from that resume reading.
- Bad latency field. The handler at Plot.py:232-234 means to raise an error
  naming the row. Its `raise e(...)` calls the caught `ValueError` instance
  instead, so the exception that escapes is `TypeError`.
- `table_length`. This override checks only the type (Plot.py:109-112). A
  capacity of zero or less is accepted, and the first append then raises
  `IndexError` from `pop(0)` on an empty list. A capacity lowered below the
  current length never shrinks the lists. So "length of each list ≤
  capacity" holds after construction but is not an invariant.
- List lengths. A latency that is not a float (an int, say) is rejected by
  `appendy` after `appendx` has already stored the time. The two lists then
  differ in length.
- Invalid names. `buildfile` raises `ValueError` for an invalid path or name
  (core.py:40-44). Only an `OSError` from opening the target (core.py:48-53)
  leads to the fallback file.

## Model

| member | source | states |
|---|---|---|
| `Py.FromTimestamp` | Plot.py:166 | `fromtimestamp` accepts exactly ints and floats, returns their value as the stamp, and raises `TypeError` for anything else |
| `Window.Append` | Plot.py:54-58 | an append fails (`IndexError`) exactly when the list is empty and the capacity is not positive; otherwise it ends with the new value, and what comes before it is the old list, minus its head when the list was full |
| `Window.AppendKeepsBound` | Plot.py:54-58 | within capacity `>= 1`, an append is `s + [a]` when there is room and `s[1..] + [a]` when full, and the list stays within capacity |
| `Window.AppendOverfull` | Plot.py:54-58 | a list longer than the capacity pops one and appends one, keeping its over-full length |
| `Window.FillKeepsLast` | Plot.py:54-58 | after any run of appends, the list is the last `w` values of old list plus inserted values, in insertion order, where `w` is the capacity, or the list's length if it was over-full |
| `Window.FifoFromEmpty` | Plot.py:54-58 | from empty with capacity `n >= 1`, the list holds the last `min(count, n)` inserted values in insertion order |
| `Window.LoweredCapacityNeverShrinks` | Plot.py:54-58 | an over-full list keeps its length through any number of appends |
| `Window.NonPositiveCapacityFails` | Plot.py:54-57 | with capacity `<= 0`, the first append to an empty list raises `IndexError` |
| `PlotTables.CheckLength` | Plot.py:34-42 | `None` gives 250, a positive int is taken as is, an int `<= 0` is a `ValueError`, any other type a `TypeError`; an accepted capacity is `>= 1` |
| `PlotTables.AppendedX` | Plot.py:44-58 | only a datetime is accepted, otherwise `TypeError` and no change; `x` follows the window rule; `y` and the capacity never change |
| `PlotTables.AppendedY` | Plot.py:60-74 | only a float is accepted, otherwise `TypeError` and no change; `y` follows the window rule; `x` and the capacity never change |
| `PlotTables.AppendsKeepBounded` | Plot.py:51-74 | on a table within its capacity `>= 1`, well-typed appends succeed and keep both lists within capacity |
| `PlotTables.LoweredLengthStaysOverfull` | Plot.py:105-112 | after the capacity is lowered below the stored count, `appendx` keeps `x` at its length, so the table exceeds its capacity |
| `PlotTables.PlotTable.constructor` | Plot.py:31-42 | a new table has empty `x` and `y` and the given capacity |
| `PlotTables.PlotTable.AppendX` | Plot.py:44-58 | the outcome and new table state are those of `AppendedX` on the old state |
| `PlotTables.PlotTable.AppendY` | Plot.py:60-74 | the outcome and new table state are those of `AppendedY` on the old state |
| `PlotTables.PlotTable.GetX` | Plot.py:76-77 | returns the current `x` |
| `PlotTables.PlotTable.GetY` | Plot.py:79-80 | returns the current `y` |
| `PlotTables.NewPlotTable` | Plot.py:26-42 | construction succeeds exactly when `CheckLength` accepts, giving a fresh empty table of that capacity; otherwise its exception |
| `PlotTables.ApplyTableLength` | Plot.py:104-112 | `None` leaves the table alone, any int becomes the capacity, any other type is `TypeError`; the lists are never touched |
| `Files.FirstBadCharacter` | core.py:22-30 | returns the first listed character that rejects the text (`'*'` only at the start, others anywhere), and none exactly when no listed character rejects it |
| `Files.ValidateString` | core.py:20-32 | true exactly when the text does not start with `'*'` and has no NUL and no U+0080 anywhere |
| `Files.InnerStarAllowed` | core.py:24-27 | a `'*'` after the first character does not change the verdict |
| `Files.CheckText` | core.py:40-44 | a valid string passes; an invalid one raises `ValueError` with the given message; `None` raises `AttributeError` |
| `Files.BuildFile` | core.py:35-53 | path checked before name, and both before any open; the first open is `path/name.csv`, the fallback `PingStatsLog.csv` is opened only after that fails; a result is always an openable file, and failure of both is `OSError` |
| `Files.PathCheckedFirst` | core.py:40-41 | an illegal path is reported as `Illegal path!`, whatever the name, and nothing is opened |
| `Files.OpensTargetOrFallback` | core.py:46-53 | with legal names, the target is returned when it opens, otherwise `PingStatsLog.csv` when that opens |
| `CsvLog.ParseFloat` | Plot.py:231 | `float()` succeeds exactly on the text of a number, giving that number, and otherwise raises `ValueError` |
| `CsvLog.CellRoundTrip` | core.py:62 | a float or int written to the log reads back as the same number, `None` is written as an empty field, and a datetime's text does not parse |
| `CsvLog.CsvWriter.constructor` | core.py:131 | a writer on a file opened for appending starts from the file's existing rows |
| `CsvLog.CsvWriter.WriteRow` | core.py:62 | appends exactly one line for the row; earlier lines are unchanged |
| `CsvLog.WriteCsvData` | core.py:56-63 | returns its input unchanged; `None` writes nothing; anything else is appended as one row |
| `Sampler.Started` | core.py:78-79 | the counter starts at 1 and `last_ping` one delay before the start reading |
| `Sampler.DispatchAsWritten` | core.py:82-90 | as written, the failure branch yields a datetime time and latency `-100.0` |
| `Sampler.Dispatch` | core.py:82-90 | a sample carries the dispatch time, passes timeout, size and address through, and has the probe's value as latency, or `-100.0` when the probe raised `TypeError` |
| `Sampler.StepAsWritten` | core.py:80-95 | as written, an advance changes the state exactly as `Step` does and yields a sample exactly when `Step` does, but with the as-written failure sample |
| `Sampler.Step` | core.py:80-95 | resuming after a sample increments `i` and reads the clock into `last_ping`; then a probe is dispatched exactly when `now - last_ping > delay`, and the generator stays suspended at that sample, with `i` and `last_ping` not yet updated; with `delay >= 0` the advance after a sample is idle; an idle advance from an idle suspension changes nothing |
| `Sampler.FirstAdvance` | core.py:79-81 | the first advance dispatches exactly when the clock has moved past the start reading |
| `Sampler.RunCounts` | core.py:78-93 | one result per advance; after a run the generator is suspended at a sample exactly when the last advance yielded one; `i` plus the increment still pending there advances by exactly the number of samples yielded |
| `Sampler.IdleAfterSample` | core.py:80-95 | with `delay >= 0` and any clock readings, the advance after a sample yields `None` |
| `Sampler.AfterLastPing` | core.py:79-93 | on a clock that never goes backwards, every sample is more than `delay` after the `last_ping` the first advance tests against |
| `Sampler.RunSpacing` | core.py:80-95 | on a clock that never goes backwards, any two samples are more than `delay` apart |
| `Sampler.BackwardClockSamplesCloser` | core.py:80-95 | a clock that steps backwards shortens the gap: with `delay` 2 and readings 3, 1, 4, samples come at 3 and at 4 |
| `Sampler.Pinger.constructor` | core.py:76-79 | the generator's state is `Started(start, delay)` with the given configuration |
| `Sampler.Pinger.Next` | core.py:80-95 | the new state (`i`, `last_ping`, and whether it is suspended at a sample) and the yielded value are those of `Step` on the old state |
| `Sampler.Pinger.Advance` | core.py:80-95 | successive advances yield and leave exactly what `Run` says |
| `Session.StoredLatency` | Plot.py:168-171 | a `None` latency is stored as `-100.0`; any other is stored as it is |
| `Session.Ingest` | Plot.py:162-176 | idle leaves table and log alone; an unconvertible time changes nothing; a completed step forwards the sample to the log exactly when `nofile` is unset; a failed one logs nothing; the capacity never changes |
| `Session.SampleAppendsOne` | Plot.py:165-171 | a well-typed sample appends exactly one entry to each list by the window rule, with `None` as `-100.0`, keeping equal lengths and the capacity bound |
| `Session.WrongLatencyDesynchronises` | Plot.py:166-171 | a non-float latency raises `TypeError` after the time was stored: `x` grows, `y` does not, nothing is logged |
| `Session.IngestAllWellTyped` | Plot.py:160-176 | over well-typed values, ingestion never fails, the lists evolve by the window rule on the samples' times and latencies, idle values contribute nothing, and every sample is logged unless `nofile` |
| `Session.IngestFifo` | Plot.py:162-176 | from an empty table of capacity `n`, `x` and `y` hold the last `min(samples, n)` times and latencies, of equal length |
| `Session.WindowExample` | Plot.py:162-176 | times 1, 2, 3 with latencies 10.5, `None`, 12.0 into capacity 2 leave `x = [2, 3]`, `y = [-100.0, 12.0]` |
| `Session.FailedProbeAbortsIngestAsWritten` | core.py:88-90 | as written, a due probe that raises `TypeError` makes `get_pings` raise `TypeError`, with nothing stored or logged |
| `Session.FailedProbeIngested` | core.py:88-90 | with the corrected failure sample, a failed probe is stored as `-100.0` at the dispatch time and logged unless `nofile` |
| `Session.Core.constructor` | core.py:115-131 | the generator gets the address, timeout, delay and size 64; a writer exists exactly when a file was built |
| `Session.NewCore` | core.py:105-131 | a missing address is `RuntimeError`; with `nofile` no file and no writer; otherwise it succeeds exactly when `buildfile` does, with a writer on the built file |
| `Session.Animate.constructor` | Plot.py:178-180 | the live plot holds its core and the shared table |
| `Session.Animate.GetPing` | Plot.py:160-176 | outcome, new table and new log lines are those of `Ingest` on the old table |
| `Session.Animate.GetPings` | Plot.py:160-176 | over a run of yielded values, outcome, table and log lines are those of `IngestAll`, ending at the first exception |
| `Session.Animate.Tick` | Plot.py:154 | one frame advances the generator by `Step` and ingests what it yields |
| `PlotFile.RowPoint` | Plot.py:223-236 | a row gives a point exactly when it has at least two fields, the first numeric and the second empty (`''`) or numeric; an empty second field gives `-100.0`; a bad second field raises `TypeError`, a bad first field `ValueError`, a missing field `IndexError` |
| `PlotFile.YieldPoints` | Plot.py:220-236 | succeeds exactly when every row gives a point, producing one point per row in row order; otherwise the first failing row's exception |
| `PlotFile.LoadPlotFile` | Plot.py:204-252 | an inaccessible log is `RuntimeError`; otherwise `x` and `y` are the points of `YieldPoints` in order, or its exception with no partial result |
| `PlotFile.LogRoundTrip` | Plot.py:223-236 | logged samples read back as one point per sample, in order, a `None` latency as `-100.0` |
| `PlotFile.SessionLogReadsBack` | Plot.py:173-174 | everything a live session logs reads back in file mode as one point per sample, including samples the window has evicted |

## Findings

| source | as written | input that shows it | evidently intended | confidence | as-written member | corrected member |
|---|---|---|---|---|---|---|
| core.py:88-90 | the failure branch yields `dt.datetime.fromtimestamp(time.time())` as the sample's time, where the success branch yields the float `time.time()`; `get_pings` passes that value to `fromtimestamp`, which raises `TypeError` | a due advance whose probe raises `TypeError` | a float timestamp, so the failure is stored as `-100.0` and the session goes on | not executed | `Session.FailedProbeAbortsIngestAsWritten` | `Session.FailedProbeIngested` |

## Left out

- Sampler.Pinger.Next: yields the corrected failure sample, with a float time; the code as written is `Sampler.StepAsWritten` (see Findings).
- Sampler.Pinger.constructor: takes the line-79 clock reading when the generator is created, not at its first advance.
- Sampler.Step: every clock read within one advance gives the same reading `now`. These are the resume reading of line 93, the test of line 81 and the sample time of line 83. The source reads the clock separately each time, so with `delay == 0` it could dispatch on the advance right after a sample; the model never does.
- Sampler.RunSpacing: proved only for a clock that never goes backwards. `time.time()` can step back, and then samples can come closer than `delay` (`Sampler.BackwardClockSamplesCloser`).
- Delay: `delay` (0.22 s by default) is an integer number of clock ticks, not a float of seconds.
- Floats: modelled as reals, without rounding. `repr` of a float is assumed to read back exactly.
- `fromtimestamp`: range errors are not modelled. A datetime is represented by the timestamp it was built from.
- Probe: the ICMP probe (`pyping.single_ping`) and `socket.gethostname` are network I/O. The probe's answer is an input: a returned value, or `TypeError`. Other exceptions it may raise (such as `PermissionError`) are not modelled. The `verbose` flag only reaches the probe. `Core` passes `verbose = not (not quiet)`, which is just `quiet`.
- File I/O: `open`, `os.access` and CSV quoting are not modelled. Opening is the predicate `canOpen`, and accessibility is a boolean.
- `os.path.join`: modelled as an uninterpreted pair.
- Log cells: a log field is a `Cell`. A string value is taken to be non-numeric text; only the address is written as a string, and it is never read back.
- Rendering: all matplotlib work is left out. That covers the figure and axes, style, `subplots_adjust`, tick rotation, `_animate`'s clear and redraw, `FuncAnimation` and the `refresh_freq` check that feeds it, and `show_plot`/`savefig`. It is UI in a foreign library.
- Window title: the title built from `sys.argv` and its checks are process-argument plumbing.
- `generate_datetime`: deprecated.
- Logging and `print`: not modelled.
- `Core.yield_generator` and `Animate.animate`: trivial accessors and wrappers.
- Session.Core.constructor: with `nofile` the source never sets `built_file` or `cwriter`, so reading them raises `AttributeError`; the model stores `None` and `null` instead.
- `Core.write_csv`: its call to `write_csv_data` on `self.cwriter` is made directly by `Session.Animate.GetPing`.
- Shared table: the class-level table shared by all plots is a reference the live plot holds. Aliasing between several plot objects is not explored.
- Generator laziness: `_animate` builds a fresh `get_pings` generator every frame, which is modelled as one step per frame.
- tests.py: the project's own test suite (property-based and live-network cases) is not modelled.
