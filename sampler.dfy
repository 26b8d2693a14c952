/** The pacing loop of `ping` (core.py): a generator that, on each advance,
    either dispatches one probe and yields a sample or yields idle (`None`).
    The clock is an abstract integer reading supplied to each advance, in the
    same unit as `delay`; the probe's answer is an input. */
module Sampler {
  import opened Py

  /** Defaults of `ping`'s keywords (`delay=0.22` seconds is a `Config` field
      in clock ticks). */
  const DefaultTimeout: int := 3000
  const DefaultSize: int := 64

  /** The latency a failed probe is reported with, `-100.00`. */
  const Sentinel: real := -100.0

  /** The arguments `ping` passes through to the probe and into every sample. */
  datatype Config = Config(address: string, timeout: int, size: int, delay: int)

  /** The yielded tuple `(time, latency, timeout, size, address)`. */
  datatype Sample = Sample(time: Value, latency: Value, timeout: int, size: int, address: string)

  /** The sample as the sequence handed to `writerow`. */
  function Fields(s: Sample): (r: seq<Value>)
    ensures |r| == 5 && r[0] == s.time && r[1] == s.latency
  {
    [s.time, s.latency, VInt(s.timeout), VInt(s.size), VStr(s.address)]
  }

  /** What `pyping.single_ping(...)[0]` does on one dispatch: returns a value
      (a float latency, or `None` when no reply came) or raises `TypeError`. */
  datatype Probe = Returned(first: Value) | RaisedTypeError

  /** The generator's local state: the probe sequence number `i`, the clock
      reading `last_ping`, and whether it is suspended at the `yield` of a
      sample. Lines 92-93 follow that `yield`, so they run only when the
      generator is next advanced. */
  datatype State = State(i: int, lastPing: int, atSample: bool)

  /** The state after lines 78-79, `start` being the clock reading there:
      `last_ping` is set one delay in the past. */
  function Started(start: int, delay: int): (s: State)
    ensures s.i == 1 && start - s.lastPing == delay && !s.atSample
  {
    State(1, start - delay, false)
  }

  /** Resuming at the clock reading `now`: after a sample's `yield`, lines
      92-93 increment `i` and read the clock into `last_ping`; after an idle
      `yield` nothing happens before the loop's test. */
  function Resume(s: State, now: int): State {
    if s.atSample then State(s.i + 1, now, false) else s
  }

  /** The test of line 81: strictly more than `delay` has elapsed. */
  predicate Due(s: State, now: int, delay: int) {
    now - s.lastPing > delay
  }

  /** The sample the failure branch yields as the code is written: its first
      field is a datetime, where the success branch yields a float. */
  function DispatchAsWritten(cfg: Config, now: int, probe: Probe): (r: Sample)
    ensures probe.RaisedTypeError? ==> r.time.VDateTime? && r.latency == VFloat(Sentinel)
    ensures probe.Returned? ==> r == Dispatch(cfg, now, probe)
  {
    match probe
    case Returned(v) => Sample(VFloat(now as real), v, cfg.timeout, cfg.size, cfg.address)
    case RaisedTypeError => Sample(VDateTime(now as real), VFloat(Sentinel), cfg.timeout, cfg.size, cfg.address)
  }

  /** The sample one dispatch yields, with the failure branch stamped like the
      success branch (a float time), as a timestamped sample is meant to be. */
  function Dispatch(cfg: Config, now: int, probe: Probe): (r: Sample)
    ensures r.time == VFloat(now as real)
    ensures r.timeout == cfg.timeout && r.size == cfg.size && r.address == cfg.address
    ensures r.latency == if probe.Returned? then probe.first else VFloat(Sentinel)
  {
    match probe
    case Returned(v) => Sample(VFloat(now as real), v, cfg.timeout, cfg.size, cfg.address)
    case RaisedTypeError => Sample(VFloat(now as real), VFloat(Sentinel), cfg.timeout, cfg.size, cfg.address)
  }

  /** One advance of the generator, from its suspension to its next `yield`,
      every clock read in it giving `now`: resume, then dispatch exactly when
      due. A dispatch leaves `i` and `last_ping` for the next advance, which,
      with `delay >= 0`, is therefore idle. */
  function Step(cfg: Config, s: State, now: int, probe: Probe): (r: (State, Option<Sample>))
    ensures r.1.Some? <==> Due(Resume(s, now), now, cfg.delay)
    ensures !s.atSample ==> (r.1.Some? <==> Due(s, now, cfg.delay))
    ensures r.1.None? ==> r.0 == Resume(s, now)
    ensures r.1.Some? ==> r.0 == Resume(s, now).(atSample := true) && r.1.value == Dispatch(cfg, now, probe)
    ensures r.0.atSample <==> r.1.Some?
    ensures s.atSample && cfg.delay >= 0 ==> r == (State(s.i + 1, now, false), None)
  {
    var resumed := Resume(s, now);
    if Due(resumed, now, cfg.delay) then (resumed.(atSample := true), Some(Dispatch(cfg, now, probe)))
    else (resumed, None)
  }

  /** One advance as the code is written: the pacing of `Step`, with the
      as-written failure sample. */
  function StepAsWritten(cfg: Config, s: State, now: int, probe: Probe): (r: (State, Option<Sample>))
    ensures r.0 == Step(cfg, s, now, probe).0
    ensures r.1.Some? <==> Step(cfg, s, now, probe).1.Some?
    ensures r.1.Some? ==> r.1.value == DispatchAsWritten(cfg, now, probe)
  {
    var (s', out) := Step(cfg, s, now, probe);
    (s', if out.Some? then Some(DispatchAsWritten(cfg, now, probe)) else None)
  }

  /** The first advance after the start reading dispatches exactly when the
      clock has moved past it. */
  lemma FirstAdvance(cfg: Config, start: int, now: int, probe: Probe)
    ensures Step(cfg, Started(start, cfg.delay), now, probe).1.Some? <==> now > start
  {
  }

  /** Advancing the generator once per clock reading in `nows`, the probe
      answering as `probes` says when it is dispatched. */
  function Run(cfg: Config, s: State, nows: seq<int>, probes: seq<Probe>): (State, seq<Option<Sample>>)
    requires |nows| == |probes|
    decreases |nows|
  {
    if nows == [] then (s, [])
    else
      var (s1, out) := Step(cfg, s, nows[0], probes[0]);
      var (sn, outs) := Run(cfg, s1, nows[1..], probes[1..]);
      (sn, [out] + outs)
  }

  /** The number of samples (non-idle results) in `outs`. */
  function Dispatched(outs: seq<Option<Sample>>): nat {
    if outs == [] then 0 else (if outs[0].Some? then 1 else 0) + Dispatched(outs[1..])
  }

  /** The number of the generator's pending increments: one while it is
      suspended at a sample's `yield`. */
  function Pending(s: State): nat {
    if s.atSample then 1 else 0
  }

  /** One result per advance; the generator is left suspended at a sample
      exactly when the last advance yielded one; and `i`, counting the
      increment still pending there, advances by exactly the number of
      samples yielded. */
  lemma {:induction false} RunCounts(cfg: Config, s: State, nows: seq<int>, probes: seq<Probe>)
    requires |nows| == |probes|
    ensures var (sn, outs) := Run(cfg, s, nows, probes);
      |outs| == |nows| &&
      (nows != [] ==> (sn.atSample <==> outs[|outs| - 1].Some?)) &&
      sn.i + Pending(sn) == s.i + Pending(s) + Dispatched(outs)
    decreases |nows|
  {
    if nows != [] {
      var (s1, out) := Step(cfg, s, nows[0], probes[0]);
      RunCounts(cfg, s1, nows[1..], probes[1..]);
      var outs := Run(cfg, s1, nows[1..], probes[1..]).1;
      assert ([out] + outs)[1..] == outs;
      if outs != [] {
        assert ([out] + outs)[|outs|] == outs[|outs| - 1];
      }
    }
  }

  /** Clock readings that never go backwards. */
  predicate NonDecreasing(nows: seq<int>) {
    forall j, k :: 0 <= j < k < |nows| ==> nows[j] <= nows[k]
  }

  /** `Run` on a non-empty run: the first advance, then the rest. */
  lemma RunUnfold(cfg: Config, s: State, nows: seq<int>, probes: seq<Probe>)
    requires |nows| == |probes| && nows != []
    ensures var (s1, out) := Step(cfg, s, nows[0], probes[0]);
      var outs := Run(cfg, s, nows, probes).1;
      var tail := Run(cfg, s1, nows[1..], probes[1..]).1;
      outs == [out] + tail && |tail| == |nows| - 1 &&
      (forall k :: 0 < k < |outs| ==> outs[k] == tail[k - 1] && nows[k] == nows[1..][k - 1]) &&
      (NonDecreasing(nows) ==> NonDecreasing(nows[1..]))
  {
    var s1 := Step(cfg, s, nows[0], probes[0]).0;
    RunCounts(cfg, s1, nows[1..], probes[1..]);
  }

  /** With `delay >= 0`, the advance after a sample is idle, whatever the
      clock does: resuming reads the clock into `last_ping`, and no time has
      passed since. */
  lemma {:induction false} IdleAfterSample(cfg: Config, s: State, nows: seq<int>, probes: seq<Probe>)
    requires |nows| == |probes| && cfg.delay >= 0
    ensures var outs := Run(cfg, s, nows, probes).1;
      |outs| == |nows| &&
      forall k :: 0 <= k < |outs| - 1 && outs[k].Some? ==> outs[k + 1].None?
    decreases |nows|
  {
    RunCounts(cfg, s, nows, probes);
    if nows != [] {
      var (s1, out) := Step(cfg, s, nows[0], probes[0]);
      var tail := Run(cfg, s1, nows[1..], probes[1..]).1;
      RunUnfold(cfg, s, nows, probes);
      IdleAfterSample(cfg, s1, nows[1..], probes[1..]);
      if |nows| > 1 {
        assert nows[1..][0] == nows[1] && probes[1..][0] == probes[1];
        RunUnfold(cfg, s1, nows[1..], probes[1..]);
      }
    }
  }

  /** On a clock that never goes backwards, every sample is more than `delay`
      after the `last_ping` the first advance tests against. */
  lemma {:induction false} AfterLastPing(cfg: Config, s: State, nows: seq<int>, probes: seq<Probe>)
    requires |nows| == |probes| && cfg.delay >= 0 && NonDecreasing(nows)
    ensures var outs := Run(cfg, s, nows, probes).1;
      |outs| == |nows| &&
      forall k :: 0 <= k < |outs| && outs[k].Some? ==> nows[k] - Resume(s, nows[0]).lastPing > cfg.delay
    decreases |nows|
  {
    RunCounts(cfg, s, nows, probes);
    if nows != [] {
      var (s1, out) := Step(cfg, s, nows[0], probes[0]);
      var tail := Run(cfg, s1, nows[1..], probes[1..]).1;
      RunUnfold(cfg, s, nows, probes);
      AfterLastPing(cfg, s1, nows[1..], probes[1..]);
      if |nows| > 1 {
        assert nows[1..][0] == nows[1] && nows[0] <= nows[1];
        assert Resume(s1, nows[1]).lastPing == Resume(s, nows[0]).lastPing || Resume(s1, nows[1]).lastPing == nows[1];
      }
    }
  }

  /** Pacing: on a clock that never goes backwards, any two samples are more
      than `delay` apart. */
  lemma {:induction false} RunSpacing(cfg: Config, s: State, nows: seq<int>, probes: seq<Probe>)
    requires |nows| == |probes| && cfg.delay >= 0 && NonDecreasing(nows)
    ensures var outs := Run(cfg, s, nows, probes).1;
      |outs| == |nows| &&
      forall j, k :: 0 <= j < k < |outs| && outs[j].Some? && outs[k].Some? ==> nows[k] - nows[j] > cfg.delay
    decreases |nows|
  {
    RunCounts(cfg, s, nows, probes);
    if nows != [] {
      var (s1, out) := Step(cfg, s, nows[0], probes[0]);
      var tail := Run(cfg, s1, nows[1..], probes[1..]).1;
      RunUnfold(cfg, s, nows, probes);
      RunSpacing(cfg, s1, nows[1..], probes[1..]);
      if out.Some? && |nows| > 1 {
        AfterLastPing(cfg, s1, nows[1..], probes[1..]);
        assert nows[1..][0] == nows[1] && nows[0] <= nows[1];
        assert Resume(s1, nows[1]).lastPing == nows[1];
      }
    }
  }

  /** A clock that steps backwards shortens the gap: with `delay` 2 and
      readings 3, 1, 4, the resume reading 1 becomes `last_ping`, and samples
      come at 3 and at 4. */
  lemma BackwardClockSamplesCloser(cfg: Config, probes: seq<Probe>)
    requires cfg.delay == 2 && |probes| == 3
    ensures var outs := Run(cfg, Started(0, 2), [3, 1, 4], probes).1;
      |outs| == 3 && outs[0].Some? && outs[1].None? && outs[2].Some? && 4 - 3 <= cfg.delay
  {
    var s1 := Step(cfg, Started(0, 2), 3, probes[0]).0;
    var s2 := Step(cfg, s1, 1, probes[1]).0;
    assert [3, 1, 4][1..] == [1, 4] && [1, 4][1..] == [4] && [4][1..] == [];
    assert Run(cfg, s2, [4], probes[2..]).1 == [Step(cfg, s2, 4, probes[2]).1];
  }

  /** The running `ping` generator. */
  class Pinger {
    const cfg: Config
    var i: int
    var lastPing: int
    var atSample: bool

    function View(): State
      reads this
    {
      State(i, lastPing, atSample)
    }

    /** The generator entered for the first time, up to line 79, with the clock
        reading `start`. */
    constructor (cfg: Config, start: int)
      ensures this.cfg == cfg && View() == Started(start, cfg.delay)
    {
      this.cfg := cfg;
      i := 1;
      lastPing := start - cfg.delay;
      atSample := false;
    }

    /** One advance: from the suspension, round the `while 1` loop, to the
        next `yield`. */
    method Next(now: int, probe: Probe) returns (out: Option<Sample>)
      modifies this
      ensures (View(), out) == Step(cfg, old(View()), now, probe)
    {
      if atSample {
        i := i + 1;
        lastPing := now;
        atSample := false;
      }
      if now - lastPing > cfg.delay {
        out := Some(Dispatch(cfg, now, probe));
        atSample := true;
      } else {
        out := None;
      }
    }

    /** Successive advances, one per clock reading. */
    method Advance(nows: seq<int>, probes: seq<Probe>) returns (outs: seq<Option<Sample>>)
      requires |nows| == |probes|
      modifies this
      ensures (View(), outs) == Run(cfg, old(View()), nows, probes)
    {
      ghost var goal := Run(cfg, View(), nows, probes);
      outs := [];
      var k := 0;
      assert nows[0..] == nows && probes[0..] == probes && outs + goal.1 == goal.1;
      while k < |nows|
        invariant 0 <= k <= |nows|
        invariant goal == (Run(cfg, View(), nows[k..], probes[k..]).0, outs + Run(cfg, View(), nows[k..], probes[k..]).1)
      {
        ghost var before := View();
        ghost var rest := Run(cfg, before, nows[k..], probes[k..]);
        var out := Next(nows[k], probes[k]);
        assert nows[k..][1..] == nows[k + 1..] && probes[k..][1..] == probes[k + 1..];
        ghost var rest' := Run(cfg, View(), nows[k + 1..], probes[k + 1..]);
        assert rest == (rest'.0, [out] + rest'.1);
        assert outs + rest.1 == (outs + [out]) + rest'.1;
        outs := outs + [out];
        k := k + 1;
      }
      assert nows[k..] == [] && outs + [] == outs;
    }
  }
}
