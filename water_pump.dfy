/**
 * The water pump: a relay on one output pin with a timed-run state machine.
 * The millisecond clock is the `now` parameter of every operation that reads
 * it; driving the pin and the debug log have no effect on the state.
 */
module Pump {
  import opened Util

  datatype PumpState = PumpState(
    initialized: bool,
    running: bool,
    lastError: int,
    startTime: U32,
    runDuration: U32,
    manualMode: bool)

  /** Error code of `stop()` on a pump that was never initialized. */
  const ErrNotInitialized := 1

  const InitialPump := PumpState(false, false, 0, 0, 0, false)

  /** Only a started pump runs, and a pump is initialized before it starts. */
  predicate PumpValid(s: PumpState) {
    s.running ==> s.initialized
  }

  /** `initialize()`: configures the pin once; it cannot fail. */
  function PumpInitialize(s: PumpState): (r: PumpState)
    ensures r.initialized
    ensures s.initialized ==> r == s
    ensures !s.initialized ==> r.lastError == 0
    ensures r.running == s.running && r.startTime == s.startTime
    ensures r.runDuration == s.runDuration && r.manualMode == s.manualMode
  {
    if s.initialized then s else s.(initialized := true, lastError := 0)
  }

  /** `start()`: runs indefinitely, in automatic mode, from `now`. */
  function PumpStart(s: PumpState, now: U32): (r: PumpState)
    ensures r.initialized && r.running && r.startTime == now && r.runDuration == 0 && !r.manualMode
    ensures r.lastError == (if s.initialized then s.lastError else 0)
  {
    PumpInitialize(s).(running := true, startTime := now, runDuration := 0, manualMode := false)
  }

  /** `stop()`: refused with code 1 before initialization, else the pump is off and leaves manual mode. */
  function PumpStop(s: PumpState): (r: (PumpState, bool))
    ensures r.1 <==> s.initialized
    ensures r.1 ==> !r.0.running && !r.0.manualMode && r.0.lastError == s.lastError
    ensures !r.1 ==> r.0 == s.(lastError := ErrNotInitialized)
    ensures r.0.initialized == s.initialized && r.0.startTime == s.startTime && r.0.runDuration == s.runDuration
  {
    if !s.initialized then (s.(lastError := ErrNotInitialized), false)
    else (s.(running := false, manualMode := false), true)
  }

  /** `runFor(seconds)`: zero seconds is a stop; otherwise a manual run of `seconds` seconds. */
  function PumpRunFor(s: PumpState, seconds: U32, now: U32): (r: (PumpState, bool))
    ensures seconds == 0 ==> r == PumpStop(s)
    ensures seconds > 0 ==> r.1 && r.0.initialized && r.0.running && r.0.manualMode
                            && r.0.startTime == now && r.0.runDuration == seconds
  {
    if seconds == 0 then PumpStop(s)
    else (PumpStart(s, now).(manualMode := true, runDuration := seconds), true)
  }

  /** The length of a timed run in milliseconds, computed in 32-bit unsigned arithmetic. */
  function TargetMillis(s: PumpState): U32 {
    Mul32(s.runDuration, 1000)
  }

  /** Whether a timed run is due to end at `now`. */
  predicate Expired(s: PumpState, now: U32) {
    s.running && s.runDuration > 0 && Sub32(now, s.startTime) >= TargetMillis(s)
  }

  /** `checkTimedRun()`: a timed run whose time is up is stopped; nothing else changes. */
  function CheckTimedRun(s: PumpState, now: U32): (r: PumpState)
    ensures PumpValid(s) ==> PumpValid(r) && !Expired(r, now)
    ensures Expired(s, now) && s.initialized ==> !r.running && !r.manualMode && r.runDuration == s.runDuration
    ensures !Expired(s, now) ==> r == s
  {
    if Expired(s, now) then PumpStop(s).0 else s
  }

  /** `getRunTime()`: whole seconds since the start, 0 when stopped. */
  function RunTime(s: PumpState, now: U32): (secs: nat)
    ensures !s.running ==> secs == 0
    ensures s.running ==> secs * 1000 <= Sub32(now, s.startTime) < (secs + 1) * 1000
  {
    if !s.running then 0 else Sub32(now, s.startTime) / 1000
  }

  // ---- properties ----

  /** Every operation keeps a running pump initialized. */
  lemma PumpOperationsKeepValid(s: PumpState, seconds: U32, now: U32)
    requires PumpValid(s)
    ensures PumpValid(PumpInitialize(s)) && PumpValid(PumpStart(s, now)) && PumpValid(PumpStop(s).0)
    ensures PumpValid(PumpRunFor(s, seconds, now).0) && PumpValid(CheckTimedRun(s, now))
  {
  }

  /** Initializing twice is initializing once; afterwards the pump is ready, with code 0 if it was not before. */
  lemma InitializeIdempotent(s: PumpState)
    ensures PumpInitialize(PumpInitialize(s)) == PumpInitialize(s)
    ensures PumpInitialize(s).initialized
    ensures !s.initialized ==> PumpInitialize(s).lastError == 0
    ensures s.initialized ==> PumpInitialize(s) == s
  {
  }

  /** A started pump runs from `now` with no duration, so the timed check never stops it. */
  lemma StartedPumpNeverExpires(s: PumpState, now: U32, later: U32)
    ensures var t := PumpStart(s, now);
            t.running && t.initialized && t.startTime == now && !t.manualMode
            && CheckTimedRun(t, later) == t
  {
  }

  /**
   * Stopping an uninitialized pump only records code 1; stopping an initialized
   * one succeeds even when it already stands, keeps its duration, and a second
   * stop changes nothing more.
   */
  lemma StopBehaviour(s: PumpState)
    ensures !s.initialized ==> PumpStop(s) == (s.(lastError := ErrNotInitialized), false)
    ensures s.initialized ==> PumpStop(s).1 && !PumpStop(s).0.running && !PumpStop(s).0.manualMode
                              && PumpStop(s).0.runDuration == s.runDuration
    ensures PumpStop(PumpStop(s).0).0 == PumpStop(s).0
  {
  }

  /** `runFor(0)` is exactly `stop()`. */
  lemma RunForZeroIsStop(s: PumpState, now: U32)
    ensures PumpRunFor(s, 0, now) == PumpStop(s)
  {
  }

  /**
   * A manual run of `seconds > 0` seconds is running, initialized, manual and
   * timed, and the timed check ends it exactly when `seconds * 1000` milliseconds
   * (32-bit) have passed since the start.
   */
  lemma TimedRunEndsOnTime(s: PumpState, seconds: U32, now: U32, later: U32)
    requires seconds > 0
    ensures var t := PumpRunFor(s, seconds, now);
            && t.1 && t.0.running && t.0.initialized && t.0.manualMode && t.0.runDuration == seconds
            && (Sub32(later, now) >= Mul32(seconds, 1000) <==> !CheckTimedRun(t.0, later).running)
  {
  }

  /** A pump is never reported running once its timed run is due, and an unexpired pump is left alone. */
  lemma CheckedPumpNotOverdue(s: PumpState, now: U32)
    requires PumpValid(s)
    ensures !(CheckTimedRun(s, now).running && Expired(s, now))
    ensures Expired(s, now) ==> !CheckTimedRun(s, now).running && !CheckTimedRun(s, now).manualMode
    ensures !Expired(s, now) ==> CheckTimedRun(s, now) == s
  {
  }

  /** A run without a duration never ends by itself. */
  lemma UntimedRunNeverExpires(s: PumpState, now: U32)
    requires s.runDuration == 0
    ensures CheckTimedRun(s, now) == s
  {
  }

  /** The run time is the elapsed time since the start in whole seconds, rounded down. */
  lemma RunTimeBounds(s: PumpState, now: U32)
    requires s.running
    ensures RunTime(s, now) * 1000 <= Sub32(now, s.startTime) < (RunTime(s, now) + 1) * 1000
  {
  }

  class WaterPump {
    const controlPin: int
    var initialized: bool
    var running: bool
    var lastError: int
    var startTime: U32
    var runDuration: U32
    var manualMode: bool

    function State(): PumpState
      reads this
    {
      PumpState(initialized, running, lastError, startTime, runDuration, manualMode)
    }

    constructor (pin: int)
      ensures controlPin == pin && State() == InitialPump
    {
      controlPin := pin;
      initialized := false;
      running := false;
      lastError := 0;
      startTime := 0;
      runDuration := 0;
      manualMode := false;
    }

    method Initialize() returns (ok: bool)
      modifies this
      ensures ok && State() == PumpInitialize(old(State()))
    {
      if initialized {
        return true;
      }
      initialized := true;
      lastError := 0;
      return true;
    }

    function IsAvailable(): (ready: bool)
      reads this
      ensures ready == State().initialized
    {
      initialized
    }

    method Start(now: U32) returns (ok: bool)
      modifies this
      ensures ok && State() == PumpStart(old(State()), now)
    {
      if !initialized {
        var ready := Initialize();
        if !ready {
          return false;
        }
      }
      running := true;
      startTime := now;
      runDuration := 0;
      manualMode := false;
      return true;
    }

    method Stop() returns (ok: bool)
      modifies this
      ensures (State(), ok) == PumpStop(old(State()))
    {
      if !initialized {
        lastError := ErrNotInitialized;
        return false;
      }
      running := false;
      manualMode := false;
      return true;
    }

    method RunFor(seconds: U32, now: U32) returns (ok: bool)
      modifies this
      ensures (State(), ok) == PumpRunFor(old(State()), seconds, now)
    {
      if seconds == 0 {
        ok := Stop();
        return;
      }
      var started := Start(now);
      if !started {
        return false;
      }
      manualMode := true;
      runDuration := seconds;
      return true;
    }

    method CheckTimedRunNow(now: U32)
      modifies this
      ensures State() == CheckTimedRun(old(State()), now)
    {
      if running && runDuration > 0 {
        var elapsed := Sub32(now, startTime);
        var target := Mul32(runDuration, 1000);
        if elapsed >= target {
          var _ := Stop();
        }
      }
    }

    /** `isRunning()`: the timed check first, then the running flag. */
    method IsRunning(now: U32) returns (r: bool)
      modifies this
      ensures State() == CheckTimedRun(old(State()), now) && r == State().running
    {
      CheckTimedRunNow(now);
      r := running;
    }

    method Update(now: U32)
      modifies this
      ensures State() == CheckTimedRun(old(State()), now)
    {
      CheckTimedRunNow(now);
    }

    function GetRunTime(now: U32): (secs: nat)
      reads this
      ensures !running ==> secs == 0
      ensures running ==> secs * 1000 <= Sub32(now, startTime) < (secs + 1) * 1000
    {
      RunTime(State(), now)
    }

    function GetRunDuration(): (seconds: U32)
      reads this
      ensures seconds == State().runDuration
    {
      runDuration
    }

    function IsManualMode(): (manual: bool)
      reads this
      ensures manual == State().manualMode
    {
      manualMode
    }

    method SetManualMode(manual: bool)
      modifies this
      ensures State() == old(State()).(manualMode := manual)
    {
      manualMode := manual;
    }
  }
}
