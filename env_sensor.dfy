/**
 * The BME280 environmental sensor on the I2C bus, as far as the controller
 * sees it: whether the chip answers at initialization, and the three values
 * it delivers per read, any of which can be "not a number". The bus and the
 * chip's own compensation arithmetic are parameters: `found` is the chip's
 * answer to the start-up probe, and each read is handed the chip's samples.
 */
module EnvSensor {
  import opened Util

  const ErrNotFound := 1
  const ErrReadFailed := 2

  datatype EnvState = EnvState(
    initialized: bool,
    lastError: int,
    temperature: Measure,
    humidity: Measure,
    pressure: Measure)

  const InitialEnv := EnvState(false, 0, Value(0.0), Value(0.0), Value(0.0))

  /** Pascals as hectopascals; NaN stays NaN. */
  function Hectopascals(pa: Measure): (r: Measure)
    ensures r.NaN? <==> pa.NaN?
    ensures pa.Value? ==> r.v * 100.0 == pa.v
  {
    if pa.NaN? then NaN else Value(pa.v / 100.0)
  }

  /** `initialize()`: done once; code 1 when the chip does not answer. */
  function EnvInit(s: EnvState, found: bool): (r: (EnvState, bool))
    ensures r.1 <==> s.initialized || found
    ensures r.1 <==> r.0.initialized
    ensures s.initialized ==> r.0 == s
    ensures !s.initialized ==> r.0.lastError == (if found then 0 else ErrNotFound)
    ensures r.0.temperature == s.temperature && r.0.humidity == s.humidity && r.0.pressure == s.pressure
  {
    if s.initialized then (s, true)
    else if !found then (s.(lastError := ErrNotFound), false)
    else (s.(initialized := true, lastError := 0), true)
  }

  /** `read()`: lazy initialization, then the three samples are stored, and code 2 if any is NaN. */
  function EnvRead(s: EnvState, found: bool, t: Measure, h: Measure, pa: Measure): (r: (EnvState, bool))
    ensures r.1 <==> (s.initialized || found) && t.Value? && h.Value? && pa.Value?
    ensures !s.initialized && !found ==> r == (s.(lastError := ErrNotFound), false)
    ensures s.initialized || found ==>
              && r.0.initialized && r.0.temperature == t && r.0.humidity == h && r.0.pressure == Hectopascals(pa)
              && r.0.lastError == (if r.1 then 0 else ErrReadFailed)
  {
    var i := EnvInit(s, found);
    if !i.1 then i
    else
      var stored := i.0.(temperature := t, humidity := h, pressure := Hectopascals(pa));
      if t.NaN? || h.NaN? || pa.NaN? then (stored.(lastError := ErrReadFailed), false)
      else (stored.(lastError := 0), true)
  }

  /** `isAvailable()`: initialized, or initialization now succeeds. */
  function EnvAvailable(s: EnvState, found: bool): (r: (EnvState, bool))
    ensures r.1 <==> s.initialized || found
    ensures r == EnvInit(s, found)
  {
    if !s.initialized then EnvInit(s, found) else (s, true)
  }

  // ---- properties ----

  /**
   * A read succeeds exactly when the chip is (or now becomes) initialized and
   * delivers three numbers; it then stores them, the pressure in hectopascals,
   * and clears the error code.
   */
  lemma EnvReadOutcome(s: EnvState, found: bool, t: Measure, h: Measure, pa: Measure)
    ensures var r := EnvRead(s, found, t, h, pa);
            && (r.1 <==> (s.initialized || found) && t.Value? && h.Value? && pa.Value?)
            && (r.1 ==> (r.0.initialized && r.0.lastError == 0 && r.0.temperature == t && r.0.humidity == h
                         && r.0.pressure.v * 100.0 == pa.v))
  {
  }

  /**
   * The two failures: a chip that does not answer leaves the samples alone with
   * code 1; a NaN sample is stored all the same, with code 2.
   */
  lemma EnvReadFailures(s: EnvState, found: bool, t: Measure, h: Measure, pa: Measure)
    ensures !s.initialized && !found ==> EnvRead(s, found, t, h, pa) == (s.(lastError := ErrNotFound), false)
    ensures var r := EnvRead(s, found, t, h, pa);
            (s.initialized || found) && (t.NaN? || h.NaN? || pa.NaN?) ==>
              !r.1 && r.0.lastError == ErrReadFailed && r.0.temperature == t && r.0.humidity == h
  {
  }

  /** Initialization happens once; availability checks never touch the samples. */
  lemma EnvInitOnce(s: EnvState, found: bool, again: bool)
    ensures EnvInit(s, found).1 ==> EnvInit(EnvInit(s, found).0, again) == (EnvInit(s, found).0, true)
    ensures EnvInit(s, found).1 <==> EnvInit(s, found).0.initialized
    ensures EnvAvailable(s, found) == EnvInit(s, found)
  {
  }

  class BME280Sensor {
    const i2cAddress: int
    const name: string
    var initialized: bool
    var lastError: int
    var temperature: Measure
    var humidity: Measure
    var pressure: Measure

    function State(): EnvState
      reads this
    {
      EnvState(initialized, lastError, temperature, humidity, pressure)
    }

    constructor (address: int, sensorName: string)
      ensures i2cAddress == address && name == sensorName && State() == InitialEnv
    {
      i2cAddress := address;
      name := sensorName;
      initialized := false;
      lastError := 0;
      temperature := Value(0.0);
      humidity := Value(0.0);
      pressure := Value(0.0);
    }

    /** `found` is whether the chip answers the start-up probe. */
    method Initialize(found: bool) returns (ok: bool)
      modifies this
      ensures (State(), ok) == EnvInit(old(State()), found)
    {
      if initialized {
        return true;
      }
      if !found {
        lastError := ErrNotFound;
        return false;
      }
      initialized := true;
      lastError := 0;
      return true;
    }

    /** `t`, `h` and `pa` are the chip's samples: degrees Celsius, percent and pascals. */
    method Read(found: bool, t: Measure, h: Measure, pa: Measure) returns (ok: bool)
      modifies this
      ensures (State(), ok) == EnvRead(old(State()), found, t, h, pa)
    {
      if !initialized {
        var ready := Initialize(found);
        if !ready {
          return false;
        }
      }
      temperature := t;
      humidity := h;
      pressure := Hectopascals(pa);
      if temperature.NaN? || humidity.NaN? || pressure.NaN? {
        lastError := ErrReadFailed;
        return false;
      }
      lastError := 0;
      return true;
    }

    method IsAvailable(found: bool) returns (ok: bool)
      modifies this
      ensures (State(), ok) == EnvAvailable(old(State()), found)
    {
      if !initialized {
        ok := Initialize(found);
        return;
      }
      return true;
    }

    function GetLastError(): (e: int)
      reads this
      ensures e == State().lastError
    {
      lastError
    }
  }
}
