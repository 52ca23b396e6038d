/**
 * The reservoir fill control of the firmware's main loop: a second water pump
 * that refills the reservoir between a low and a high level switch, with a
 * five-minute safety timeout. The firmware keeps this state in global
 * variables; here they are the fields of one object. The level switches and
 * the millisecond clock are the parameters `low`, `high` and `now`.
 */
module ReservoirFill {
  import opened Util
  import opened Pump

  /** The safety timeout in milliseconds. */
  const MaxRuntime: U32 := 300000

  /** The global flags and the state of the reservoir pump. */
  datatype Fill = Fill(
    enabled: bool,
    lowLevel: bool,
    highLevel: bool,
    running: bool,
    startTime: U32,
    pump: PumpState)

  /**
   * The flag that says the pump runs agrees with the pump, and the pump only
   * ever runs without a duration of its own, so its timed check never ends a run.
   */
  predicate FillValid(f: Fill) {
    && PumpValid(f.pump)
    && f.running == f.pump.running
    && (f.pump.running ==> f.pump.runDuration == 0)
  }

  /** Tells whether the pump should stop: high level reached, or the safety timeout passed. */
  predicate ShouldStop(f: Fill, high: bool, now: U32) {
    high || Sub32(now, f.startTime) > MaxRuntime
  }

  /** `handleReservoirPump()`, one pass of the control loop. */
  function Handle(f: Fill, low: bool, high: bool, now: U32): (r: Fill)
    ensures r.enabled == f.enabled
    ensures f.enabled ==> r.lowLevel == low && r.highLevel == high
    ensures !f.enabled ==> r.lowLevel == f.lowLevel && r.highLevel == f.highLevel && r.startTime == f.startTime
    ensures FillValid(f) ==> FillValid(r)
    ensures FillValid(f) && !f.enabled ==> !r.running
    ensures FillValid(f) && f.enabled ==>
              (r.running <==> if f.running then !ShouldStop(f, high, now) else low && !high)
  {
    if !f.enabled then
      var p := CheckTimedRun(f.pump, now);
      if p.running then f.(pump := PumpStop(p).0, running := false) else f.(pump := p)
    else
      var g := f.(lowLevel := low, highLevel := high);
      if g.running then
        if ShouldStop(g, high, now) then g.(pump := PumpStop(g.pump).0, running := false) else g
      else if low && !high then g.(pump := PumpStart(g.pump, now), running := true, startTime := now)
      else g
  }

  /** The clock reading a manual fill of `seconds` seconds is backdated to, as the firmware computes it. */
  function BackdatedStartAsWritten(now: U32, seconds: U16): U32 {
    Sub32(now, ToU32(MaxRuntime - seconds * 1000))
  }

  /** The backdated start with the requested time held to the safety timeout. */
  function BackdatedStart(now: U32, seconds: U16): U32 {
    Sub32(now, MaxRuntime - Min(seconds, MaxRuntime / 1000) * 1000)
  }

  /** `startManualReservoirFilling(seconds)` as the firmware writes it. */
  function StartManualAsWritten(f: Fill, seconds: U16, high: bool, now: U32): (r: (Fill, bool))
    ensures r.1 <==> f.enabled && !high
    ensures r.0.enabled == f.enabled && r.0.lowLevel == f.lowLevel
    ensures !r.1 ==> r.0.running == f.running && r.0.pump == f.pump && r.0.startTime == f.startTime
    ensures r.1 ==> r.0.running && r.0.pump.running && r.0.pump.startTime == now && !r.0.highLevel
    ensures FillValid(f) ==> FillValid(r.0)
    ensures r.1 && seconds == 0 ==> r.0.startTime == now
    ensures r.1 && 0 < seconds <= 300 ==> Sub32(now, r.0.startTime) == MaxRuntime - seconds * 1000
  {
    if !f.enabled then (f, false)
    else if high then (f.(highLevel := true), false)
    else
      var start := if seconds > 0 then BackdatedStartAsWritten(now, seconds) else now;
      (f.(highLevel := false, pump := PumpStart(f.pump, now), running := true, startTime := start), true)
  }

  /** `startManualReservoirFilling(seconds)` with a request above five minutes held to five minutes. */
  function StartManual(f: Fill, seconds: U16, high: bool, now: U32): (r: (Fill, bool))
    ensures r.1 <==> f.enabled && !high
    ensures r.0.enabled == f.enabled && r.0.lowLevel == f.lowLevel
    ensures !r.1 ==> r.0.running == f.running && r.0.pump == f.pump && r.0.startTime == f.startTime
    ensures r.1 ==> r.0.running && r.0.pump.running && r.0.pump.startTime == now && !r.0.highLevel
    ensures FillValid(f) ==> FillValid(r.0)
    ensures r.1 && seconds == 0 ==> r.0.startTime == now
    ensures r.1 && 0 < seconds ==> Sub32(now, r.0.startTime) == MaxRuntime - Min(seconds, 300) * 1000
  {
    if !f.enabled then (f, false)
    else if high then (f.(highLevel := true), false)
    else
      var start := if seconds > 0 then BackdatedStart(now, seconds) else now;
      (f.(highLevel := false, pump := PumpStart(f.pump, now), running := true, startTime := start), true)
  }

  /** `stopReservoirPump()`: only a running pump is stopped. */
  function StopFill(f: Fill): (r: Fill)
    ensures !r.running
    ensures !f.running ==> r == f
    ensures r.enabled == f.enabled && r.lowLevel == f.lowLevel && r.highLevel == f.highLevel
    ensures FillValid(f) ==> FillValid(r) && !r.pump.running
  {
    if f.running then f.(pump := PumpStop(f.pump).0, running := false) else f
  }

  /** `enableReservoirPump(enabled)`: disabling also stops a running pump. */
  function EnableFill(f: Fill, enabled: bool): (r: Fill)
    ensures r.enabled == enabled
    ensures enabled || !f.running ==> r == f.(enabled := enabled)
    ensures !enabled ==> !r.running
    ensures FillValid(f) ==> FillValid(r) && (!enabled ==> !r.pump.running)
  {
    var g := f.(enabled := enabled);
    if !enabled && g.running then g.(pump := PumpStop(g.pump).0, running := false) else g
  }

  // ---- properties ----

  lemma OperationsKeepFillValid(f: Fill, low: bool, high: bool, now: U32, seconds: U16, enabled: bool)
    requires FillValid(f)
    ensures FillValid(Handle(f, low, high, now))
    ensures FillValid(StartManual(f, seconds, high, now).0)
    ensures FillValid(StartManualAsWritten(f, seconds, high, now).0)
    ensures FillValid(StopFill(f)) && FillValid(EnableFill(f, enabled))
  {
  }

  /** With the feature off, a pass only stops a running pump; flags other than `running` stay as they were. */
  lemma DisabledOnlyStops(f: Fill, low: bool, high: bool, now: U32)
    requires FillValid(f) && !f.enabled
    ensures var g := Handle(f, low, high, now);
            && !g.running && !g.pump.running
            && g.enabled == f.enabled && g.lowLevel == f.lowLevel && g.highLevel == f.highLevel
            && g.startTime == f.startTime
            && (!f.running ==> g == f)
  {
  }

  /** A running pump is stopped exactly when the high level is reached or more than 300000 ms have passed. */
  lemma RunningStopsOnHighOrTimeout(f: Fill, low: bool, high: bool, now: U32)
    requires FillValid(f) && f.enabled && f.running
    ensures var g := Handle(f, low, high, now);
            && (g.running <==> !high && Sub32(now, f.startTime) <= MaxRuntime)
            && g.pump.running == g.running
            && g.lowLevel == low && g.highLevel == high && g.startTime == f.startTime
  {
  }

  /** An idle pump starts exactly when the level is low and not high, and then from `now`. */
  lemma IdleStartsOnLowLevel(f: Fill, low: bool, high: bool, now: U32)
    requires FillValid(f) && f.enabled && !f.running
    ensures var g := Handle(f, low, high, now);
            && (g.running <==> low && !high)
            && (g.running ==> g.startTime == now && g.pump.running && g.pump.startTime == now)
            && (!g.running ==> g == f.(lowLevel := low, highLevel := high))
  {
  }

  /** A manual fill is refused, and nothing but the high-level flag changes, when the feature is off or the reservoir is full. */
  lemma ManualFillRefused(f: Fill, seconds: U16, high: bool, now: U32)
    ensures !f.enabled ==> StartManual(f, seconds, high, now) == (f, false)
    ensures f.enabled && high ==> StartManual(f, seconds, high, now) == (f.(highLevel := true), false)
    ensures StartManual(f, seconds, high, now).1 <==> f.enabled && !high
  {
  }

  /** Elapsed time measured from a start backdated by `back` milliseconds. */
  lemma ElapsedFromBackdated(now: U32, later: U32, back: int)
    requires 0 <= back <= MaxRuntime
    requires Sub32(later, now) < U32Modulus - MaxRuntime
    ensures Sub32(later, Sub32(now, back)) == Sub32(later, now) + back
  {
  }

  /**
   * An accepted manual fill of `seconds > 0` seconds, requests above five
   * minutes held to five, runs until the first pass after `min(seconds, 300)`
   * seconds, unless the reservoir fills first; without a duration it runs
   * until the safety timeout.
   */
  lemma ManualFillRunsForItsTime(f: Fill, seconds: U16, now: U32, low: bool, later: U32)
    requires FillValid(f) && f.enabled
    requires Sub32(later, now) < U32Modulus - MaxRuntime
    ensures var g := StartManual(f, seconds, false, now).0;
            var limit := if seconds > 0 then Min(seconds, 300) * 1000 else MaxRuntime;
            g.running && Handle(g, low, false, later).running <==> Sub32(later, now) <= limit
  {
    var back := if seconds > 0 then MaxRuntime - Min(seconds, 300) * 1000 else 0;
    ElapsedFromBackdated(now, later, back);
  }

  /**
   * As written, a manual fill of more than 300 seconds ends at the first pass:
   * the backdating distance is negative, so the start lands in the future and
   * the elapsed time wraps around past the safety timeout.
   */
  lemma LongManualFillStopsAtOnceAsWritten(f: Fill, seconds: U16, now: U32, low: bool)
    requires FillValid(f) && f.enabled && seconds > 300
    ensures var g := StartManualAsWritten(f, seconds, false, now);
            g.1 && g.0.running && !Handle(g.0, low, false, now).running
  {
    var ahead := seconds * 1000 - MaxRuntime;
    assert ToU32(MaxRuntime - seconds * 1000) == U32Modulus - ahead;
    assert BackdatedStartAsWritten(now, seconds) == Add32(now, ahead);
  }

  /** For requests of at most five minutes the firmware's start time and the held one agree. */
  lemma BackdatingAgreesUpToFiveMinutes(now: U32, seconds: U16)
    requires seconds <= 300
    ensures BackdatedStartAsWritten(now, seconds) == BackdatedStart(now, seconds)
  {
  }

  /** Stopping twice is stopping once; enabling changes only the flag. */
  lemma StopAndEnable(f: Fill)
    requires FillValid(f)
    ensures !StopFill(f).running && !StopFill(f).pump.running
    ensures StopFill(StopFill(f)) == StopFill(f)
    ensures EnableFill(f, true) == f.(enabled := true)
    ensures !EnableFill(f, false).enabled && !EnableFill(f, false).running && !EnableFill(f, false).pump.running
  {
  }

  /** The reservoir globals, owning the reservoir's pump. */
  class Reservoir {
    const pump: WaterPump
    var enabled: bool
    var lowLevel: bool
    var highLevel: bool
    var running: bool
    var startTime: U32

    function State(): Fill
      reads this, pump
    {
      Fill(enabled, lowLevel, highLevel, running, startTime, pump.State())
    }

    ghost predicate Valid()
      reads this, pump
    {
      FillValid(State())
    }

    /** The flags as the firmware initializes them: everything off. */
    constructor (reservoirPump: WaterPump)
      requires FillValid(Fill(false, false, false, false, 0, reservoirPump.State()))
      ensures pump == reservoirPump && Valid()
      ensures State() == Fill(false, false, false, false, 0, old(reservoirPump.State()))
    {
      pump := reservoirPump;
      enabled := false;
      lowLevel := false;
      highLevel := false;
      running := false;
      startTime := 0;
    }

    method HandleReservoirPump(low: bool, high: bool, now: U32)
      requires Valid()
      modifies this, pump
      ensures Valid()
      ensures State() == Handle(old(State()), low, high, now)
    {
      if !enabled {
        var pumpRuns := pump.IsRunning(now);
        if pumpRuns {
          var _ := pump.Stop();
          running := false;
        }
        return;
      }
      lowLevel := low;
      highLevel := high;
      if running {
        var shouldStop := false;
        if highLevel {
          shouldStop := true;
        }
        if Sub32(now, startTime) > MaxRuntime {
          shouldStop := true;
        }
        if shouldStop {
          var _ := pump.Stop();
          running := false;
        }
      } else if lowLevel && !highLevel {
        var _ := pump.Start(now);
        running := true;
        startTime := now;
      }
    }

    method StartManualReservoirFilling(seconds: U16, high: bool, now: U32) returns (ok: bool)
      requires Valid()
      modifies this, pump
      ensures Valid()
      ensures (State(), ok) == StartManualAsWritten(old(State()), seconds, high, now)
    {
      if !enabled {
        return false;
      }
      highLevel := high;
      if highLevel {
        return false;
      }
      var _ := pump.Start(now);
      running := true;
      startTime := now;
      if seconds > 0 {
        startTime := Sub32(now, ToU32(MaxRuntime - seconds * 1000));
      }
      return true;
    }

    method StopReservoirPump()
      requires Valid()
      modifies this, pump
      ensures Valid()
      ensures State() == StopFill(old(State()))
    {
      if running {
        var _ := pump.Stop();
        running := false;
      }
    }

    method EnableReservoirPump(enable: bool)
      requires Valid()
      modifies this, pump
      ensures Valid()
      ensures State() == EnableFill(old(State()), enable)
    {
      enabled := enable;
      if !enable && running {
        var _ := pump.Stop();
        running := false;
      }
    }

    function IsReservoirPumpEnabled(): (e: bool)
      reads this
      ensures e == enabled
    {
      enabled
    }

    /**
     * `getReservoirStatus`: reads the switches directly, reports the running
     * flag, and always succeeds; each `want` says whether that pointer is non-null.
     */
    method GetReservoirStatus(low: bool, high: bool, wantLow: bool, wantHigh: bool, wantRunning: bool)
      returns (ok: bool, isLow: Option<bool>, isHigh: Option<bool>, isRunning: Option<bool>)
      ensures ok
      ensures isLow == (if wantLow then Some(low) else None)
      ensures isHigh == (if wantHigh then Some(high) else None)
      ensures isRunning == (if wantRunning then Some(running) else None)
    {
      ok := true;
      isLow := if wantLow then Some(low) else None;
      isHigh := if wantHigh then Some(high) else None;
      isRunning := if wantRunning then Some(running) else None;
    }
  }
}
