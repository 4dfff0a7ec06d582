/** The control loop: the persisted state, the run-time trackers, one tick of
    the polling loop as a state transition, and the controller object whose
    methods perform that transition in place. */
module ControlLoop {
  import opened Base
  import opened Settings
  import opened BrightnessCurve
  import opened Actuation
  import opened ChangeGate

  /** What survives a restart: the user offset and the last brightness set. */
  datatype PersistedState = PersistedState(userOffset: real, lastBrightness: int)

  /** The state used when no state file could be read. */
  function LoadState(stored: Option<PersistedState>): (s: PersistedState)
    ensures stored.None? ==> s.userOffset == 0.0 && s.lastBrightness == 50
    ensures stored.Some? ==> s == stored.value
  {
    match stored
    case Some(st) => st
    case None => PersistedState(0.0, 50)
  }

  /** The drift-detection baseline before anything was written: the first
      device's reading, or 50 when the reading is missing or zero (Python's
      `reading or 50`). */
  function InitialBaseline(reading: Option<nat>): (b: int)
    ensures b > 0
    ensures reading.Some? && reading.value != 0 ==> b == reading.value
    ensures reading.None? || reading.value == 0 ==> b == 50
  {
    if reading.Some? && reading.value != 0 then reading.value else 50
  }

  /** Persisted state plus the run-time trackers: the last logged target,
      the last value actually written and the first-iteration flag. */
  datatype Trackers = Trackers(
    state: PersistedState,
    lastLogged: Option<real>,
    lastSet: int,
    isFirstRun: bool)

  /** What the environment supplies to one tick: the first device's reading,
      the sun altitude, the two altitudes the imminence gate looks at, and
      whether each configured device's write command ran without error. */
  datatype TickInputs = TickInputs(
    actual: Option<nat>,
    altitude: Option<real>,
    altitudeNow: Option<real>,
    altitudeLater: Option<real>,
    outcomes: seq<bool>)

  /** What a tick did: nothing (no altitude), or whether a manual change was
      absorbed, whether the write was logged, the commands issued and the
      value written (None when some device failed). */
  datatype Report =
    | Skipped
    | Applied(offsetReset: bool, logged: bool, issued: seq<Command>, written: Option<int>)

  datatype StepResult = StepResult(next: Trackers, report: Report)

  /** Manual-change detection: not on the first iteration, only with a
      reading, and only when the reading is further than the tolerance from
      the value this controller last wrote. */
  predicate ManualChange(cfg: Config, t: Trackers, actual: Option<nat>)
  {
    !t.isFirstRun && actual.Some?
    && Abs((actual.value - t.lastSet) as real) > cfg.manualChangeTolerance
  }

  /** The user offset after detection: reset so that the curve plus offset
      equals the reading, or left alone. */
  function OffsetAfter(cfg: Config, t: Trackers, actual: Option<nat>, calculated: real): real
  {
    if ManualChange(cfg, t, actual) then actual.value as real - calculated
    else t.state.userOffset
  }

  /** The brightness this tick aims for: the curve plus the (possibly reset)
      user offset. */
  function Target(cfg: Config, t: Trackers, inp: TickInputs): real
    requires inp.altitude.Some?
  {
    var calculated := FromSun(cfg, inp.altitude.value);
    calculated + OffsetAfter(cfg, t, inp.actual, calculated)
  }

  predicate FitsDevices(cfg: Config, inp: TickInputs)
  {
    |inp.outcomes| == |cfg.devices|
  }

  /** One iteration of the polling loop. */
  function Step(cfg: Config, t: Trackers, inp: TickInputs): (r: StepResult)
    requires FitsDevices(cfg, inp)
    ensures inp.altitude.None? <==> r.report.Skipped?
    ensures inp.altitude.None? ==> r.next == t
    ensures inp.altitude.Some? ==> !r.next.isFirstRun
  {
    match inp.altitude
    case None => StepResult(t, Skipped)
    case Some(altitude) =>
      var calculated := FromSun(cfg, altitude);
      var shouldLog := ChangeSoon(cfg, t.state.userOffset, inp.altitudeNow, inp.altitudeLater);
      var offset := OffsetAfter(cfg, t, inp.actual, calculated);
      var finalBrightness := calculated + offset;
      var willChange := Material(t.lastLogged, finalBrightness);
      var value := Actuated(cfg, finalBrightness);
      var ok := AllWritesSucceed(cfg.devices, inp.outcomes);
      var next := Trackers(
        PersistedState(offset, if ok then value else t.state.lastBrightness),
        if ok && willChange then Some(finalBrightness) else t.lastLogged,
        if ok then value else t.lastSet,
        false);
      StepResult(next, Applied(ManualChange(cfg, t, inp.actual), shouldLog && willChange,
                               Commands(cfg.devices, value), if ok then Some(value) else None))
  }

  /** What a tick with an altitude reports: the commands for the actuated
      target go to every device whatever the gates say, the written value is
      reported only if every write succeeded, and the tick is logged exactly
      when both the imminence gate (on the offset before detection) and the
      materiality gate are open. */
  lemma TickReport(cfg: Config, t: Trackers, inp: TickInputs)
    requires FitsDevices(cfg, inp) && inp.altitude.Some?
    ensures var r := Step(cfg, t, inp).report;
            var v := Actuated(cfg, Target(cfg, t, inp));
            && r.issued == Commands(cfg.devices, v)
            && r.written == (if AllWritesSucceed(cfg.devices, inp.outcomes) then Some(v) else None)
            && r.logged == (ChangeSoon(cfg, t.state.userOffset, inp.altitudeNow, inp.altitudeLater)
                            && Material(t.lastLogged, Target(cfg, t, inp)))
  {
  }

  /** The user offset changes exactly when a manual change is detected, and
      then it becomes the reading minus the curve's target. */
  lemma OffsetOnlyOnManualChange(cfg: Config, t: Trackers, inp: TickInputs)
    requires FitsDevices(cfg, inp) && inp.altitude.Some?
    ensures Step(cfg, t, inp).report.offsetReset == ManualChange(cfg, t, inp.actual)
    ensures ManualChange(cfg, t, inp.actual) ==>
              Step(cfg, t, inp).next.state.userOffset
              == inp.actual.value as real - FromSun(cfg, inp.altitude.value)
    ensures !ManualChange(cfg, t, inp.actual) ==>
              Step(cfg, t, inp).next.state.userOffset == t.state.userOffset
  {
  }

  /** A detected manual change is absorbed, not fought: the new target is
      exactly the reading, so a reading inside the brightness bounds is
      written back unchanged. */
  lemma ManualChangeIsKept(cfg: Config, t: Trackers, inp: TickInputs)
    requires FitsDevices(cfg, inp) && inp.altitude.Some?
    requires ManualChange(cfg, t, inp.actual)
    ensures Target(cfg, t, inp) == inp.actual.value as real
    ensures cfg.minBrightness <= inp.actual.value <= cfg.maxBrightness
            && AllWritesSucceed(cfg.devices, inp.outcomes) ==>
              Step(cfg, t, inp).report.written == Some(inp.actual.value)
              && Step(cfg, t, inp).next.lastSet == inp.actual.value
  {
    var actual := inp.actual.value;
    var calculated := FromSun(cfg, inp.altitude.value);
    assert OffsetAfter(cfg, t, inp.actual, calculated) == actual as real - calculated;
    assert Target(cfg, t, inp) == actual as real;
    assert Trunc(actual as real) == actual;
  }

  /** The write baselines move only when every device write succeeded; the
      logged baseline moves to the target only when, in addition, the
      materiality gate was open. */
  lemma BaselinesFollowWrites(cfg: Config, t: Trackers, inp: TickInputs)
    requires FitsDevices(cfg, inp) && inp.altitude.Some?
    ensures var next := Step(cfg, t, inp).next;
            var ok := AllWritesSucceed(cfg.devices, inp.outcomes);
            && (ok ==> next.lastSet == next.state.lastBrightness == Actuated(cfg, Target(cfg, t, inp)))
            && (!ok ==> next.lastSet == t.lastSet && next.state.lastBrightness == t.state.lastBrightness)
            && next.lastLogged == (if ok && Material(t.lastLogged, Target(cfg, t, inp))
                                   then Some(Target(cfg, t, inp)) else t.lastLogged)
  {
  }

  /** Under an unchanged sun, with nobody touching the display and every
      write succeeding, a second tick changes nothing and logs nothing. */
  lemma SteadyTickIsFixedPoint(cfg: Config, t: Trackers, first: TickInputs, second: TickInputs)
    requires FitsDevices(cfg, first) && FitsDevices(cfg, second)
    requires 0.0 <= cfg.manualChangeTolerance
    requires first.altitude.Some? && second.altitude == first.altitude
    requires AllWritesSucceed(cfg.devices, first.outcomes)
    requires AllWritesSucceed(cfg.devices, second.outcomes)
    requires second.actual.None? || second.actual.value == Step(cfg, t, first).next.lastSet
    ensures Step(cfg, Step(cfg, t, first).next, second).next == Step(cfg, t, first).next
    ensures !Step(cfg, Step(cfg, t, first).next, second).report.logged
  {
    var t1 := Step(cfg, t, first).next;
    var calculated := FromSun(cfg, first.altitude.value);
    assert !ManualChange(cfg, t1, second.actual);
    assert Target(cfg, t1, second) == Target(cfg, t, first);
  }

  /** The state is in step: the last written value and the persisted last
      brightness agree and lie within the brightness bounds. */
  predicate Synced(cfg: Config, t: Trackers)
  {
    t.lastSet == t.state.lastBrightness
    && cfg.minBrightness <= t.lastSet <= cfg.maxBrightness
  }

  /** A fully successful tick brings the state in step, and no tick takes it
      out of step again. */
  lemma StepSyncs(cfg: Config, t: Trackers, inp: TickInputs)
    requires FitsDevices(cfg, inp) && cfg.minBrightness <= cfg.maxBrightness
    requires Synced(cfg, t) || (inp.altitude.Some? && AllWritesSucceed(cfg.devices, inp.outcomes))
    ensures Synced(cfg, Step(cfg, t, inp).next)
  {
  }

  predicate AllFit(cfg: Config, ticks: seq<TickInputs>)
  {
    forall k :: 0 <= k < |ticks| ==> FitsDevices(cfg, ticks[k])
  }

  /** The trackers after a sequence of ticks. */
  function Steps(cfg: Config, t: Trackers, ticks: seq<TickInputs>): Trackers
    requires AllFit(cfg, ticks)
  {
    if ticks == [] then t
    else Step(cfg, Steps(cfg, t, ticks[..|ticks| - 1]), ticks[|ticks| - 1]).next
  }

  /** The reports of a sequence of ticks, in order. */
  function Reports(cfg: Config, t: Trackers, ticks: seq<TickInputs>): seq<Report>
    requires AllFit(cfg, ticks)
  {
    if ticks == [] then []
    else
      var n := |ticks| - 1;
      Reports(cfg, t, ticks[..n]) + [Step(cfg, Steps(cfg, t, ticks[..n]), ticks[n]).report]
  }

  /** Running one more tick extends the run by one Step. */
  lemma StepsSnoc(cfg: Config, t: Trackers, ticks: seq<TickInputs>, i: nat)
    requires AllFit(cfg, ticks) && i < |ticks|
    ensures AllFit(cfg, ticks[..i]) && AllFit(cfg, ticks[..i + 1])
    ensures var r := Step(cfg, Steps(cfg, t, ticks[..i]), ticks[i]);
            Steps(cfg, t, ticks[..i + 1]) == r.next
            && Reports(cfg, t, ticks[..i + 1]) == Reports(cfg, t, ticks[..i]) + [r.report]
  {
    assert ticks[..i + 1][..i] == ticks[..i];
  }

  /** Once in step, the state stays in step across any number of ticks. */
  lemma {:induction false} StepsKeepSynced(cfg: Config, t: Trackers, ticks: seq<TickInputs>)
    requires AllFit(cfg, ticks) && cfg.minBrightness <= cfg.maxBrightness
    requires Synced(cfg, t)
    ensures Synced(cfg, Steps(cfg, t, ticks))
  {
    if ticks != [] {
      var n := |ticks| - 1;
      StepsKeepSynced(cfg, t, ticks[..n]);
      StepSyncs(cfg, Steps(cfg, t, ticks[..n]), ticks[n]);
    }
  }

  /** The first-iteration flag stays set exactly as long as every tick so far
      lacked an altitude. */
  lemma {:induction false} FirstRunUntilAltitude(cfg: Config, t: Trackers, ticks: seq<TickInputs>)
    requires AllFit(cfg, ticks)
    ensures Steps(cfg, t, ticks).isFirstRun
        <==> t.isFirstRun && forall k :: 0 <= k < |ticks| ==> ticks[k].altitude.None?
  {
    if ticks != [] {
      var n := |ticks| - 1;
      FirstRunUntilAltitude(cfg, t, ticks[..n]);
      assert forall k :: 0 <= k < n ==> ticks[..n][k] == ticks[k];
    }
  }

  /** The trackers at the start of the loop: the drift baseline from the
      first reading, and the first-iteration flag set. */
  function Begin(t: Trackers, reading: Option<nat>): Trackers
  {
    t.(lastSet := InitialBaseline(reading), isFirstRun := true)
  }

  /** The controller. `state` and `lastLoggedBrightness` are its attributes
      in the source; `lastSetBrightness` and `isFirstRun` are locals of its
      main loop, kept as fields so that one iteration is one Tick call. */
  class SunDimmer {
    const config: Config
    var state: PersistedState
    var lastLoggedBrightness: Option<real>
    var lastSetBrightness: int
    var isFirstRun: bool

    function Snapshot(): Trackers
      reads this
    {
      Trackers(state, lastLoggedBrightness, lastSetBrightness, isFirstRun)
    }

    /** Construction loads the state (or the default) and has logged nothing. */
    constructor (config: Config, stored: Option<PersistedState>)
      ensures this.config == config
      ensures Snapshot() == Trackers(LoadState(stored), None, InitialBaseline(None), true)
    {
      this.config := config;
      state := LoadState(stored);
      lastLoggedBrightness := None;
      lastSetBrightness := 50;
      isFirstRun := true;
    }

    /** Replace the user offset; the last brightness and every other field
      are left as they were. Persisting the state is not modelled. */
    method SetOffset(newOffset: real) returns (ok: bool)
      modifies this`state
      ensures ok
      ensures state == old(state).(userOffset := newOffset)
    {
      state := state.(userOffset := newOffset);
      ok := true;
    }

    /** One iteration of the main loop. */
    method Tick(inp: TickInputs) returns (report: Report)
      requires FitsDevices(config, inp)
      modifies this
      ensures Snapshot() == Step(config, old(Snapshot()), inp).next
      ensures report == Step(config, old(Snapshot()), inp).report
    {
      if inp.altitude.None? {
        return Skipped;
      }
      ghost var expected := Step(config, Snapshot(), inp);
      var altitude := inp.altitude.value;
      var calculatedBrightness := FromSun(config, altitude);
      var shouldLog := ChangeSoon(config, state.userOffset, inp.altitudeNow, inp.altitudeLater);

      var offsetReset := false;
      if !isFirstRun && inp.actual.Some? {
        var tolerance := config.manualChangeTolerance;
        if Abs((inp.actual.value - lastSetBrightness) as real) > tolerance {
          var newOffset := inp.actual.value as real - calculatedBrightness;
          var _ := SetOffset(newOffset);
          offsetReset := true;
        }
      }

      var finalBrightness := calculatedBrightness + state.userOffset;
      var brightnessWillChange := Material(lastLoggedBrightness, finalBrightness);
      var newlySet, issued := SetBrightness(config, finalBrightness, inp.outcomes);
      if newlySet.Some? {
        lastSetBrightness := newlySet.value;
        state := state.(lastBrightness := newlySet.value);
        if brightnessWillChange {
          lastLoggedBrightness := Some(finalBrightness);
        }
      }
      isFirstRun := false;
      report := Applied(offsetReset, shouldLog && brightnessWillChange, issued, newlySet);
      assert report == expected.report;
      assert Snapshot() == expected.next;
    }

    /** The main loop over a finite sequence of ticks, after reading the
      initial drift baseline. */
    method Run(initialReading: Option<nat>, ticks: seq<TickInputs>) returns (reports: seq<Report>)
      requires AllFit(config, ticks)
      modifies this
      ensures Snapshot() == Steps(config, Begin(old(Snapshot()), initialReading), ticks)
      ensures reports == Reports(config, Begin(old(Snapshot()), initialReading), ticks)
    {
      lastSetBrightness := InitialBaseline(initialReading);
      isFirstRun := true;
      ghost var start := Snapshot();
      reports := [];
      for i := 0 to |ticks|
        invariant AllFit(config, ticks[..i])
        invariant Snapshot() == Steps(config, start, ticks[..i])
        invariant reports == Reports(config, start, ticks[..i])
      {
        StepsSnoc(config, start, ticks, i);
        var report := Tick(ticks[i]);
        reports := reports + [report];
      }
      assert ticks[..|ticks|] == ticks;
    }
  }
}
