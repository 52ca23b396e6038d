/**
 * The watering controller: it owns no hardware itself but drives the
 * environmental sensor, the soil sensor, the plant pump and the storage. Its
 * decisions are functions of a `System` value holding the controller's own
 * fields and the four components' states; the class's methods are proved to
 * move the real objects exactly as those functions say.
 */
module Controller {
  import opened Util
  import opened SerialLine
  import P = Pump
  import Soil = SoilSensor
  import Env = EnvSensor
  import St = Storage
  import MC = ModbusClient

  const ErrMissingComponent := 1
  const ErrStorageInit := 2
  const ErrEnvInit := 3
  const ErrSoilInit := 4
  const ErrPumpInit := 5
  const ErrEnvRead := 6
  const ErrSoilRead := 7
  const ErrNotInitialized := 8

  /** The longest watering run a setter accepts, in seconds. */
  const MaxWateringDuration: U32 := 300

  /** The storage key the settings are saved under. */
  const ConfigKey := "watering_config"

  /** The seven saved settings. Intervals for reading and logging are in milliseconds, the watering interval in seconds. */
  datatype Settings = Settings(
    sensorReadInterval: U32,
    dataLogInterval: U32,
    minWateringInterval: U32,
    thresholdLow: real,
    thresholdHigh: real,
    wateringDuration: U32,
    wateringEnabled: bool)

  const DefaultSettings := Settings(60000, 300000, 21600, 30.0, 55.0, 20, true)

  datatype Ctl = Ctl(
    initialized: bool,
    lastError: int,
    lastSensorReadTime: U32,
    lastDataLogTime: U32,
    lastWateringTime: U32,
    settings: Settings)

  const InitialCtl := Ctl(false, 0, 0, 0, 0, DefaultSettings)

  /** The controller together with the state of every component it drives. */
  datatype System = System(
    ctl: Ctl,
    env: Env.EnvState,
    soil: Soil.SoilState,
    link: MC.Link,
    pump: P.PumpState,
    store: St.StorageState)

  /**
   * What is fixed about the wiring: whether all four components were given,
   * what the flash offers, and how the soil sensor is connected.
   */
  datatype Wiring = Wiring(present: bool, flash: St.Flash, soilHasClient: bool, soilHasSerial: bool, soilAddr: byte)

  /**
   * What the world supplies during one call: the millisecond clock, the wall
   * clock for log timestamps, and the environmental chip's answers.
   */
  datatype Inputs = Inputs(now: U32, clock: int, envFound: bool, temperature: Measure, humidity: Measure, pressure: Measure)

  // ---- configuration ----

  /** The document `saveConfiguration()` writes: exactly the seven settings. */
  function ConfigDoc(c: Settings): map<string, St.Scalar> {
    map["sensorReadInterval" := St.Int(c.sensorReadInterval),
        "dataLogInterval" := St.Int(c.dataLogInterval),
        "minWateringInterval" := St.Int(c.minWateringInterval),
        "moistureThresholdLow" := St.Dec(c.thresholdLow),
        "moistureThresholdHigh" := St.Dec(c.thresholdHigh),
        "wateringDuration" := St.Int(c.wateringDuration),
        "wateringEnabled" := St.Flag(c.wateringEnabled)]
  }

  /** A stored scalar read as an unsigned 32-bit setting; anything else reads as 0. */
  function AsU32(v: St.Scalar): U32 {
    if v.Int? && 0 <= v.i < U32Modulus then v.i else 0
  }

  function AsReal(v: St.Scalar): real {
    match v
      case Int(i) => i as real
      case Dec(r) => r
      case Flag(_) => 0.0
  }

  function AsBool(v: St.Scalar): bool {
    v.Flag? && v.b
  }

  /** `loadConfiguration()`'s parse: every key present overrides its setting, unchecked; other text changes nothing. */
  function LoadSettings(c: Settings, text: St.Text): Settings {
    if !text.Doc? then c
    else
      var d := text.fields;
      Settings(
        if "sensorReadInterval" in d then AsU32(d["sensorReadInterval"]) else c.sensorReadInterval,
        if "dataLogInterval" in d then AsU32(d["dataLogInterval"]) else c.dataLogInterval,
        if "minWateringInterval" in d then AsU32(d["minWateringInterval"]) else c.minWateringInterval,
        if "moistureThresholdLow" in d then AsReal(d["moistureThresholdLow"]) else c.thresholdLow,
        if "moistureThresholdHigh" in d then AsReal(d["moistureThresholdHigh"]) else c.thresholdHigh,
        if "wateringDuration" in d then AsU32(d["wateringDuration"]) else c.wateringDuration,
        if "wateringEnabled" in d then AsBool(d["wateringEnabled"]) else c.wateringEnabled)
  }

  /** `loadConfiguration()`: the stored text under the settings key, the empty string by default. */
  function LoadConfig(s: System, w: Wiring): (r: System)
    ensures r == s.(store := r.store, ctl := s.ctl.(settings := r.ctl.settings))
    ensures r.store.data == s.store.data && r.store.order == s.store.order && r.store.config == s.store.config
    ensures !St.StoreInit(s.store, w.flash).1 || !s.store.config.Config? || ConfigKey !in s.store.config.entries
            ==> r.ctl.settings == s.ctl.settings
  {
    var g := St.GetConfig(s.store, w.flash, ConfigKey, St.Plain(""));
    s.(store := g.0, ctl := s.ctl.(settings := LoadSettings(s.ctl.settings, g.1)))
  }

  /** Storage that starts holds the document of `c` under the settings key after the write. */
  predicate SavedAs(before: St.StorageState, flash: St.Flash, after: St.StorageState, c: Settings) {
    St.StoreInit(before, flash).1 ==>
      after.config.Config? && ConfigKey in after.config.entries && after.config.entries[ConfigKey] == St.Doc(ConfigDoc(c))
  }

  /** `saveConfiguration()`: the seven settings under the settings key. */
  function SaveConfig(s: System, w: Wiring): (r: System)
    ensures r == s.(store := r.store)
    ensures r.store.data == s.store.data && r.store.order == s.store.order
    ensures !St.StoreInit(s.store, w.flash).1 ==> r.store == St.StoreInit(s.store, w.flash).0
    ensures SavedAs(s.store, w.flash, r.store, s.ctl.settings)
  {
    s.(store := St.StoreConfig(s.store, w.flash, ConfigKey, St.Doc(ConfigDoc(s.ctl.settings))).0)
  }

  // ---- initialization ----

  /**
   * `initialize()`: done once. Without all four components, code 1. Otherwise
   * all four are initialized, each failure overwriting the code, and only when
   * all succeed are the settings loaded and the controller initialized.
   */
  function CtlInit(s: System, w: Wiring, envFound: bool): (r: (System, bool))
    ensures s.ctl.initialized ==> r == (s, true)
    ensures r.1 <==> r.0.ctl.initialized
    ensures !s.ctl.initialized && !w.present ==> r == (s.(ctl := s.ctl.(lastError := ErrMissingComponent)), false)
    ensures !s.ctl.initialized && r.1 ==>
              && r.0.ctl.lastError == 0 && r.0.ctl.lastSensorReadTime == 0
              && r.0.ctl.lastDataLogTime == 0 && r.0.ctl.lastWateringTime == 0
    ensures !r.1 ==> r.0.ctl.settings == s.ctl.settings && r.0.pump.running == s.pump.running
  {
    if s.ctl.initialized then (s, true)
    else if !w.present then (s.(ctl := s.ctl.(lastError := ErrMissingComponent)), false)
    else
      var c := InitComponents(s, w, envFound);
      if c.1 then (Started(c.0, w), true) else c
  }

  /** The four component initializations in order, each failure overwriting the code. */
  function InitComponents(s: System, w: Wiring, envFound: bool): (System, bool) {
    var a := InitStorageAndEnv(s, w, envFound);
    var b := InitSoilAndPump(a.0, w);
    (b.0, a.1 && b.1)
  }

  function InitStorageAndEnv(s: System, w: Wiring, envFound: bool): (System, bool) {
    var st := St.StoreInit(s.store, w.flash);
    var en := Env.EnvInit(s.env, envFound);
    var code := if en.1 then (if st.1 then s.ctl.lastError else ErrStorageInit) else ErrEnvInit;
    (s.(ctl := s.ctl.(lastError := code), env := en.0, store := st.0), st.1 && en.1)
  }

  /** The soil sensor's initialization, then the pump's, which cannot fail. */
  function InitSoilAndPump(s: System, w: Wiring): (System, bool) {
    var so := Soil.SoilInit(s.soil, s.link, w.soilHasClient, w.soilHasSerial, w.soilAddr);
    var code := if so.ok then s.ctl.lastError else ErrSoilInit;
    (s.(ctl := s.ctl.(lastError := code), soil := so.sensor, link := so.link, pump := P.PumpInitialize(s.pump)), so.ok)
  }

  /** After a successful start: the settings are loaded, the schedules reset and the controller initialized. */
  function Started(s: System, w: Wiring): System {
    var l := LoadConfig(s, w);
    l.(ctl := l.ctl.(lastSensorReadTime := 0, lastDataLogTime := 0, lastWateringTime := 0,
                     initialized := true, lastError := 0))
  }

  // ---- the watering decision ----

  /** Whether the minimum interval since the last watering has passed. */
  predicate GateOpen(c: Ctl, now: U32) {
    Sub32(now, c.lastWateringTime) >= Mul32(c.settings.minWateringInterval, 1000)
  }

  /**
   * `processReadings()`. The pump's running state is asked for (which runs its
   * timed check) only when watering is enabled, and again in the stopping test.
   */
  function ProcessReadings(s: System, now: U32): (r: (System, bool))
    ensures r.1 ==> && s.ctl.settings.wateringEnabled && s.soil.readings.moisture <= s.ctl.settings.thresholdLow
                    && GateOpen(s.ctl, now) && r.0.ctl.lastWateringTime == now
    ensures r.1 && s.ctl.settings.wateringDuration > 0 ==>
              r.0.pump.running && r.0.pump.manualMode && r.0.pump.runDuration == s.ctl.settings.wateringDuration
    ensures !r.1 ==> r.0.ctl == s.ctl
    ensures r.0 == s.(pump := r.0.pump, ctl := s.ctl.(lastWateringTime := r.0.ctl.lastWateringTime))
  {
    var s1 := if s.ctl.settings.wateringEnabled then Tick(s, now) else s;
    if ShouldStart(s1, now) then (Water(s1, now), true) else (StopIfWet(s1, now), false)
  }

  /** The start rule, on the pump as it stands after its timed check. */
  predicate ShouldStart(s: System, now: U32) {
    && s.ctl.settings.wateringEnabled
    && !s.pump.running
    && s.soil.readings.moisture <= s.ctl.settings.thresholdLow
    && GateOpen(s.ctl, now)
  }

  /** A run of the configured duration from `now`, which becomes the watering time. */
  function Water(s: System, now: U32): System {
    s.(pump := P.PumpRunFor(s.pump, s.ctl.settings.wateringDuration, now).0, ctl := s.ctl.(lastWateringTime := now))
  }

  /** The stop rule: after a second timed check, a running pump stops once the soil is wet enough. */
  function StopIfWet(s: System, now: U32): System {
    var p := P.CheckTimedRun(s.pump, now);
    if p.running && s.soil.readings.moisture >= s.ctl.settings.thresholdHigh then s.(pump := P.PumpStop(p).0)
    else s.(pump := p)
  }

  /** The sensor-read branch of `update()`: environment first, the soil only after it; the read time always moves. */
  function ReadSensors(s: System, w: Wiring, inp: Inputs): System {
    var e := Env.EnvRead(s.env, inp.envFound, inp.temperature, inp.humidity, inp.pressure);
    var s1 := s.(env := e.0);
    var s2 := if !e.1 then s1.(ctl := s1.ctl.(lastError := ErrEnvRead)) else ReadSoilAndDecide(s1, w, inp.now);
    s2.(ctl := s2.ctl.(lastSensorReadTime := inp.now))
  }

  /** The soil read, and the watering decision only when it succeeded. */
  function ReadSoilAndDecide(s: System, w: Wiring, now: U32): System {
    var so := Soil.SoilRead(s.soil, s.link, w.soilHasClient, w.soilHasSerial, w.soilAddr);
    AfterSoilRead(s.(soil := so.sensor, link := so.link), so.ok, now)
  }

  function AfterSoilRead(s: System, ok: bool, now: U32): System {
    if ok then ProcessReadings(s, now).0 else s.(ctl := s.ctl.(lastError := ErrSoilRead))
  }

  function Append(st: St.StorageState, flash: St.Flash, sensorId: string, readingType: string, v: Measure, clock: int): St.StorageState {
    St.StoreReading(st, flash, sensorId, readingType, v, clock).0
  }

  /** The environmental part of `logSensorData()`: three readings. */
  function LogEnv(st: St.StorageState, flash: St.Flash, env: Env.EnvState, clock: int): St.StorageState {
    var s1 := Append(st, flash, "env", "temperature", env.temperature, clock);
    var s2 := Append(s1, flash, "env", "humidity", env.humidity, clock);
    Append(s2, flash, "env", "pressure", env.pressure, clock)
  }

  /** The soil part of `logSensorData()`: four readings, then each nutrient that is not negative. */
  function LogSoil(st: St.StorageState, flash: St.Flash, r: Soil.Readings, clock: int): St.StorageState {
    var s1 := Append(st, flash, "soil", "moisture", Value(r.moisture), clock);
    var s2 := Append(s1, flash, "soil", "temperature", Value(r.temperature), clock);
    var s3 := Append(s2, flash, "soil", "ph", Value(r.ph), clock);
    var s4 := Append(s3, flash, "soil", "ec", Value(r.ec), clock);
    var s5 := if r.nitrogen >= 0.0 then Append(s4, flash, "soil", "nitrogen", Value(r.nitrogen), clock) else s4;
    var s6 := if r.phosphorus >= 0.0 then Append(s5, flash, "soil", "phosphorus", Value(r.phosphorus), clock) else s5;
    if r.potassium >= 0.0 then Append(s6, flash, "soil", "potassium", Value(r.potassium), clock) else s6
  }

  /** `update()`: lazy initialization, the pump's timed check, then the read and log schedules. */
  function CtlUpdate(s: System, w: Wiring, inp: Inputs): (r: System)
    ensures !CtlInit(s, w, inp.envFound).1 ==> r == CtlInit(s, w, inp.envFound).0
    ensures CtlInit(s, w, inp.envFound).1 ==>
              r.ctl.initialized && r.ctl.settings == CtlInit(s, w, inp.envFound).0.ctl.settings
    ensures var i := CtlInit(s, w, inp.envFound);
            i.1 && !ReadDue(i.0.ctl, inp.now) ==> r.pump == P.CheckTimedRun(i.0.pump, inp.now)
  {
    var i := CtlInit(s, w, inp.envFound);
    if !i.1 then i.0
    else LogStep(ReadStep(Tick(i.0, inp.now), w, inp), w, inp)
  }

  /** The pump's own `update()`. */
  function Tick(s: System, now: U32): System {
    s.(pump := P.CheckTimedRun(s.pump, now))
  }

  function ReadDue(c: Ctl, now: U32): bool {
    Sub32(now, c.lastSensorReadTime) >= c.settings.sensorReadInterval
  }

  function LogDue(c: Ctl, now: U32): bool {
    Sub32(now, c.lastDataLogTime) >= c.settings.dataLogInterval
  }

  function ReadStep(s: System, w: Wiring, inp: Inputs): System {
    if ReadDue(s.ctl, inp.now) then ReadSensors(s, w, inp) else s
  }

  function LogStep(s: System, w: Wiring, inp: Inputs): System {
    if LogDue(s.ctl, inp.now) then
      s.(store := LogSoil(LogEnv(s.store, w.flash, s.env, inp.clock), w.flash, s.soil.readings, inp.clock),
         ctl := s.ctl.(lastDataLogTime := inp.now))
    else s
  }

  // ---- manual control and settings ----

  /** `manualWatering(duration)`: lazy initialization, then the pump run. */
  function CtlManualWatering(s: System, w: Wiring, envFound: bool, duration: U32, now: U32): (r: (System, bool))
    ensures r.1 <==> CtlInit(s, w, envFound).1
    ensures !r.1 ==> r.0 == CtlInit(s, w, envFound).0
    ensures r.1 ==> && r.0.ctl.initialized && r.0.pump.running && r.0.pump.startTime == now
                    && r.0.pump.runDuration == duration && r.0.pump.manualMode == (duration > 0)
                    && r.0.ctl.lastWateringTime == now
  {
    var i := CtlInit(s, w, envFound);
    if !i.1 then (i.0, false) else ManualRun(i.0, duration, now)
  }

  /** A timed run, or an open-ended one for 0; the watering time moves only on success. */
  function ManualRun(s: System, duration: U32, now: U32): (System, bool) {
    var r := if duration > 0 then P.PumpRunFor(s.pump, duration, now) else (P.PumpStart(s.pump, now), true);
    var t := s.(pump := r.0);
    if r.1 then (t.(ctl := t.ctl.(lastWateringTime := now)), true) else (t, false)
  }

  /** `stopWatering()`: refused with code 8 before initialization. */
  function CtlStopWatering(s: System): (r: (System, bool))
    ensures r.1 <==> s.ctl.initialized && s.pump.initialized
    ensures r.1 ==> !r.0.pump.running && !r.0.pump.manualMode
    ensures !s.ctl.initialized ==> r.0 == s.(ctl := s.ctl.(lastError := ErrNotInitialized))
    ensures s.ctl.initialized ==> r.0 == s.(pump := r.0.pump)
  {
    if !s.ctl.initialized then (s.(ctl := s.ctl.(lastError := ErrNotInitialized)), false)
    else
      var r := P.PumpStop(s.pump);
      (s.(pump := r.0), r.1)
  }

  function WithSettings(s: System, c: Settings): System {
    s.(ctl := s.ctl.(settings := c))
  }

  function CtlSetThresholdLow(s: System, w: Wiring, t: real): (r: System)
    ensures !(0.0 <= t <= 100.0) ==> r == s
    ensures 0.0 <= t <= 100.0 ==> && r == s.(ctl := s.ctl.(settings := s.ctl.settings.(thresholdLow := t)), store := r.store)
                                    && SavedAs(s.store, w.flash, r.store, r.ctl.settings)
  {
    if 0.0 <= t <= 100.0 then SaveConfig(WithSettings(s, s.ctl.settings.(thresholdLow := t)), w) else s
  }

  function CtlSetThresholdHigh(s: System, w: Wiring, t: real): (r: System)
    ensures !(0.0 <= t <= 100.0) ==> r == s
    ensures 0.0 <= t <= 100.0 ==> && r == s.(ctl := s.ctl.(settings := s.ctl.settings.(thresholdHigh := t)), store := r.store)
                                    && SavedAs(s.store, w.flash, r.store, r.ctl.settings)
  {
    if 0.0 <= t <= 100.0 then SaveConfig(WithSettings(s, s.ctl.settings.(thresholdHigh := t)), w) else s
  }

  function CtlSetWateringDuration(s: System, w: Wiring, seconds: U32): (r: System)
    ensures !(0 < seconds <= MaxWateringDuration) ==> r == s
    ensures 0 < seconds <= MaxWateringDuration ==> && r == s.(ctl := s.ctl.(settings := s.ctl.settings.(wateringDuration := seconds)), store := r.store)
                                                     && SavedAs(s.store, w.flash, r.store, r.ctl.settings)
  {
    if 0 < seconds <= MaxWateringDuration then SaveConfig(WithSettings(s, s.ctl.settings.(wateringDuration := seconds)), w) else s
  }

  function CtlSetMinWateringInterval(s: System, w: Wiring, seconds: U32): (r: System)
    ensures !(seconds > 0) ==> r == s
    ensures seconds > 0 ==> && r == s.(ctl := s.ctl.(settings := s.ctl.settings.(minWateringInterval := seconds)), store := r.store)
                              && SavedAs(s.store, w.flash, r.store, r.ctl.settings)
  {
    if seconds > 0 then SaveConfig(WithSettings(s, s.ctl.settings.(minWateringInterval := seconds)), w) else s
  }

  function CtlEnableWatering(s: System, w: Wiring, enable: bool): (r: System)
    ensures r == s.(ctl := s.ctl.(settings := s.ctl.settings.(wateringEnabled := enable)), store := r.store)
    ensures SavedAs(s.store, w.flash, r.store, r.ctl.settings)
  {
    SaveConfig(WithSettings(s, s.ctl.settings.(wateringEnabled := enable)), w)
  }

  /** `getTimeSinceLastWatering()`: 0 before the first watering, else whole seconds since it. */
  function TimeSinceLastWatering(c: Ctl, now: U32): (t: nat)
    ensures c.lastWateringTime != 0 ==> t * 1000 <= Sub32(now, c.lastWateringTime) < (t + 1) * 1000
    ensures c.lastWateringTime == 0 ==> t == 0
  {
    if c.lastWateringTime == 0 then 0 else Sub32(now, c.lastWateringTime) / 1000
  }

  /** `getCurrentMoisture()`: -1 before initialization, else the soil sensor's last moisture. */
  function CurrentMoisture(c: Ctl, soil: Soil.SoilState, hasSoil: bool): real {
    if !c.initialized || !hasSoil then -1.0 else soil.readings.moisture
  }

  // ---- properties ----

  /** Everything the controller relies on between calls. */
  predicate SysValid(s: System, w: Wiring) {
    && (s.ctl.initialized ==> w.present)
    && Soil.SoilValid(s.soil, s.link, w.soilHasClient)
  }

  lemma InitKeepsValid(s: System, w: Wiring, envFound: bool)
    requires SysValid(s, w)
    ensures SysValid(CtlInit(s, w, envFound).0, w)
  {
    if !s.ctl.initialized && w.present {
      Soil.InitKeepsValid(s.soil, s.link, w.soilHasClient, w.soilHasSerial, w.soilAddr);
    }
  }

  lemma UpdateKeepsValid(s: System, w: Wiring, inp: Inputs)
    requires SysValid(s, w)
    ensures SysValid(CtlUpdate(s, w, inp), w)
  {
    InitKeepsValid(s, w, inp.envFound);
    var i := CtlInit(s, w, inp.envFound);
    if i.1 {
      var t := Tick(i.0, inp.now);
      ReadStepKeepsValid(t, w, inp);
      LogStepKeepsValid(ReadStep(t, w, inp), w, inp);
    }
  }

  lemma ReadStepKeepsValid(s: System, w: Wiring, inp: Inputs)
    requires SysValid(s, w)
    ensures SysValid(ReadStep(s, w, inp), w)
  {
    if ReadDue(s.ctl, inp.now) {
      var s1 := s.(env := Env.EnvRead(s.env, inp.envFound, inp.temperature, inp.humidity, inp.pressure).0);
      Soil.ReadKeepsValid(s1.soil, s1.link, w.soilHasClient, w.soilHasSerial, w.soilAddr);
      var so := Soil.SoilRead(s1.soil, s1.link, w.soilHasClient, w.soilHasSerial, w.soilAddr);
      AfterSoilReadFrame(s1.(soil := so.sensor, link := so.link), so.ok, inp.now);
    }
  }

  /**
   * What follows the soil read touches only the pump, the error code and the
   * watering time: sensors, bus, storage, schedule and settings stay.
   */
  lemma AfterSoilReadFrame(s: System, ok: bool, now: U32)
    ensures var r := AfterSoilRead(s, ok, now);
            && r.soil == s.soil && r.link == s.link && r.env == s.env && r.store == s.store
            && r.ctl.initialized == s.ctl.initialized && r.ctl.settings == s.ctl.settings
            && r.ctl.lastSensorReadTime == s.ctl.lastSensorReadTime && r.ctl.lastDataLogTime == s.ctl.lastDataLogTime
  {
  }

  lemma LogStepKeepsValid(s: System, w: Wiring, inp: Inputs)
    requires SysValid(s, w)
    ensures SysValid(LogStep(s, w, inp), w)
  {
  }

  /**
   * Initialization is all or nothing: it succeeds exactly when storage, the
   * environmental sensor and the soil sensor all start; a failure leaves the
   * code of the last component that failed, and the controller uninitialized.
   */
  lemma InitAllOrNothing(s: System, w: Wiring, envFound: bool)
    requires !s.ctl.initialized && w.present
    ensures var r := CtlInit(s, w, envFound);
            var stOk := St.StoreInit(s.store, w.flash).1;
            var enOk := Env.EnvInit(s.env, envFound).1;
            var soOk := Soil.SoilInit(s.soil, s.link, w.soilHasClient, w.soilHasSerial, w.soilAddr).ok;
            && (r.1 <==> stOk && enOk && soOk)
            && (r.1 <==> r.0.ctl.initialized)
            && (r.1 ==> r.0.ctl.lastError == 0 && r.0.ctl.lastSensorReadTime == 0
                        && r.0.ctl.lastDataLogTime == 0 && r.0.ctl.lastWateringTime == 0)
            && (!r.1 ==> r.0.ctl.lastError == if !soOk then ErrSoilInit else if !enOk then ErrEnvInit else ErrStorageInit)
            && (!r.1 ==> r.0.ctl.settings == s.ctl.settings)
  {
  }

  /** Initialization happens once, and without every component it only records code 1. */
  lemma InitOnceAndMissing(s: System, w: Wiring, envFound: bool)
    ensures s.ctl.initialized ==> CtlInit(s, w, envFound) == (s, true)
    ensures !s.ctl.initialized && !w.present ==>
              CtlInit(s, w, envFound) == (s.(ctl := s.ctl.(lastError := ErrMissingComponent)), false)
  {
  }

  /**
   * The start rule: the pump is started for the configured duration, and the
   * watering time set, exactly when watering is enabled, the pump is not
   * running after its timed check, the moisture is at or below the low
   * threshold and the minimum interval has passed.
   */
  lemma StartRule(s: System, now: U32)
    ensures var r := ProcessReadings(s, now);
            var c := s.ctl.settings;
            var starts := c.wateringEnabled && !P.CheckTimedRun(s.pump, now).running
                          && s.soil.readings.moisture <= c.thresholdLow && GateOpen(s.ctl, now);
            && (r.1 <==> starts)
            && (r.1 ==> r.0.ctl.lastWateringTime == now
                        && r.0.pump == P.PumpRunFor(P.CheckTimedRun(s.pump, now), c.wateringDuration, now).0)
            && (!r.1 ==> r.0.ctl == s.ctl)
  {
  }

  /**
   * The stop rule: when the pump was not started, a running pump is stopped
   * exactly when the moisture reaches the high threshold.
   */
  lemma StopRule(s: System, now: U32)
    requires P.PumpValid(s.pump)
    ensures var r := ProcessReadings(s, now);
            var p := P.CheckTimedRun(s.pump, now);
            !r.1 ==> (r.0.pump == if p.running && s.soil.readings.moisture >= s.ctl.settings.thresholdHigh
                                   then P.PumpStop(p).0 else p)
  {
    P.PumpOperationsKeepValid(s.pump, 0, now);
    P.CheckedPumpNotOverdue(P.CheckTimedRun(s.pump, now), now);
  }

  /** Before the minimum interval has passed, the decision never starts the pump. */
  lemma MinIntervalGate(s: System, now: U32)
    requires !GateOpen(s.ctl, now)
    ensures !ProcessReadings(s, now).1 && ProcessReadings(s, now).0.ctl == s.ctl
  {
  }

  /**
   * The read schedule: sensors are read exactly when the read interval has
   * passed since the last read, and the read time then becomes `now`;
   * otherwise neither sensor nor the bus is touched. Reading never changes the
   * log time, the settings or the storage.
   */
  lemma ReadSchedule(s: System, w: Wiring, inp: Inputs)
    ensures var r := ReadStep(s, w, inp);
            && (ReadDue(s.ctl, inp.now) ==> r.ctl.lastSensorReadTime == inp.now)
            && (!ReadDue(s.ctl, inp.now) ==> r == s)
            && r.ctl.lastDataLogTime == s.ctl.lastDataLogTime && r.ctl.settings == s.ctl.settings
            && r.ctl.initialized == s.ctl.initialized && r.store == s.store
  {
    if ReadDue(s.ctl, inp.now) {
      var s1 := s.(env := Env.EnvRead(s.env, inp.envFound, inp.temperature, inp.humidity, inp.pressure).0);
      var so := Soil.SoilRead(s1.soil, s1.link, w.soilHasClient, w.soilHasSerial, w.soilAddr);
      AfterSoilReadFrame(s1.(soil := so.sensor, link := so.link), so.ok, inp.now);
    }
  }

  /**
   * An environmental read failure leaves code 6 and neither the soil sensor,
   * the bus nor the pump touched; only the read time moves.
   */
  lemma EnvReadFailure(s: System, w: Wiring, inp: Inputs)
    requires !Env.EnvRead(s.env, inp.envFound, inp.temperature, inp.humidity, inp.pressure).1
    ensures var e := Env.EnvRead(s.env, inp.envFound, inp.temperature, inp.humidity, inp.pressure);
            ReadSensors(s, w, inp) == s.(env := e.0, ctl := s.ctl.(lastError := ErrEnvRead, lastSensorReadTime := inp.now))
  {
  }

  /** A soil read failure leaves code 7, the failed sensor state, and no watering decision. */
  lemma SoilReadFailure(s: System, w: Wiring, now: U32)
    requires !Soil.SoilRead(s.soil, s.link, w.soilHasClient, w.soilHasSerial, w.soilAddr).ok
    ensures var so := Soil.SoilRead(s.soil, s.link, w.soilHasClient, w.soilHasSerial, w.soilAddr);
            ReadSoilAndDecide(s, w, now) == s.(soil := so.sensor, link := so.link, ctl := s.ctl.(lastError := ErrSoilRead))
  {
  }

  /**
   * The log schedule: data is logged, and the log time moved to `now`, exactly
   * when the log interval has passed; otherwise the log step changes nothing.
   */
  lemma LogSchedule(s: System, w: Wiring, inp: Inputs)
    ensures var r := LogStep(s, w, inp);
            && (LogDue(s.ctl, inp.now) ==>
                  r == s.(store := LogSoil(LogEnv(s.store, w.flash, s.env, inp.clock), w.flash, s.soil.readings, inp.clock),
                          ctl := s.ctl.(lastDataLogTime := inp.now)))
            && (!LogDue(s.ctl, inp.now) ==> r == s)
  {
  }

  /** An append on started storage adds one reading at the end of its own file. */
  lemma AppendOwn(st: St.StorageState, flash: St.Flash, sensorId: string, readingType: string, v: Measure, clock: int)
    requires st.initialized
    ensures var name := St.FileName(sensorId, readingType);
            var r := Append(st, flash, sensorId, readingType, v, clock);
            r.initialized && St.SeriesOf(r.data, name) == St.SeriesOf(st.data, name) + [St.Reading(clock, v)]
  {
  }

  /** An append leaves every other file as it was. */
  lemma AppendOthers(st: St.StorageState, flash: St.Flash, sensorId: string, readingType: string, v: Measure, clock: int, name: string)
    requires st.initialized && name != St.FileName(sensorId, readingType)
    ensures St.SeriesOf(Append(st, flash, sensorId, readingType, v, clock).data, name) == St.SeriesOf(st.data, name)
  {
  }

  /**
   * Logging the environment on started storage appends exactly one reading,
   * stamped with the wall clock, to each of its three files.
   */
  lemma LogEnvAppendsOnePerKey(st: St.StorageState, flash: St.Flash, env: Env.EnvState, clock: int)
    requires st.initialized
    ensures var r := LogEnv(st, flash, env, clock);
            && St.SeriesOf(r.data, "env_temperature.json") == St.SeriesOf(st.data, "env_temperature.json") + [St.Reading(clock, env.temperature)]
            && St.SeriesOf(r.data, "env_humidity.json") == St.SeriesOf(st.data, "env_humidity.json") + [St.Reading(clock, env.humidity)]
            && St.SeriesOf(r.data, "env_pressure.json") == St.SeriesOf(st.data, "env_pressure.json") + [St.Reading(clock, env.pressure)]
  {
    var t, h, p := "env_temperature.json", "env_humidity.json", "env_pressure.json";
    assert St.FileName("env", "temperature") == t && St.FileName("env", "humidity") == h && St.FileName("env", "pressure") == p;
    assert t != h && t != p && h != p by {
      assert |t| != |h| && |t| != |p| && h[4] != p[4];
    }
    var s1 := Append(st, flash, "env", "temperature", env.temperature, clock);
    var s2 := Append(s1, flash, "env", "humidity", env.humidity, clock);
    AppendOwn(st, flash, "env", "temperature", env.temperature, clock);
    AppendOthers(st, flash, "env", "temperature", env.temperature, clock, h);
    AppendOthers(st, flash, "env", "temperature", env.temperature, clock, p);
    AppendOwn(s1, flash, "env", "humidity", env.humidity, clock);
    AppendOthers(s1, flash, "env", "humidity", env.humidity, clock, t);
    AppendOthers(s1, flash, "env", "humidity", env.humidity, clock, p);
    AppendOwn(s2, flash, "env", "pressure", env.pressure, clock);
    AppendOthers(s2, flash, "env", "pressure", env.pressure, clock, t);
    AppendOthers(s2, flash, "env", "pressure", env.pressure, clock, h);
  }

  /**
   * One pass of an initialized controller: the pump's timed check always runs,
   * the sensors are read when the read interval has passed, and data is logged
   * when the log interval has passed, by the schedule as it stood before the pass.
   */
  lemma UpdateOfInitialized(s: System, w: Wiring, inp: Inputs)
    requires s.ctl.initialized
    ensures var r := CtlUpdate(s, w, inp);
            && (ReadDue(s.ctl, inp.now) ==> r.ctl.lastSensorReadTime == inp.now)
            && (!ReadDue(s.ctl, inp.now) ==> r.ctl.lastSensorReadTime == s.ctl.lastSensorReadTime
                                              && r.soil == s.soil && r.env == s.env && r.link == s.link)
            && (LogDue(s.ctl, inp.now) ==> r.ctl.lastDataLogTime == inp.now)
            && (!LogDue(s.ctl, inp.now) ==> r.ctl.lastDataLogTime == s.ctl.lastDataLogTime && r.store == s.store)
            && r.ctl.settings == s.ctl.settings && r.ctl.initialized
            && (!ReadDue(s.ctl, inp.now) ==> r.pump == P.CheckTimedRun(s.pump, inp.now))
  {
    var t := Tick(s, inp.now);
    ReadSchedule(t, w, inp);
    LogSchedule(ReadStep(t, w, inp), w, inp);
  }

  /** An uninitialized controller whose start fails does nothing else in that pass. */
  lemma UpdateWithoutStart(s: System, w: Wiring, inp: Inputs)
    requires !CtlInit(s, w, inp.envFound).1
    ensures CtlUpdate(s, w, inp) == CtlInit(s, w, inp.envFound).0
    ensures !CtlUpdate(s, w, inp).ctl.initialized
  {
  }

  /** Saving writes exactly the seven settings, and loading the saved text restores each of them. */
  lemma SettingsRoundTrip(c: Settings, before: Settings)
    ensures ConfigDoc(c).Keys == {"sensorReadInterval", "dataLogInterval", "minWateringInterval", "moistureThresholdLow",
                                  "moistureThresholdHigh", "wateringDuration", "wateringEnabled"}
    ensures LoadSettings(before, St.Doc(ConfigDoc(c))) == c
  {
  }

  /** Through storage: settings saved and then loaded again come back unchanged, whatever was loaded over them. */
  lemma SaveThenLoad(s: System, w: Wiring, other: Settings)
    requires St.StoreInit(s.store, w.flash).1
    ensures LoadConfig(WithSettings(SaveConfig(s, w), other), w).ctl.settings == s.ctl.settings
  {
    var doc := St.Doc(ConfigDoc(s.ctl.settings));
    St.StoreThenGetConfig(s.store, w.flash, ConfigKey, doc, ConfigKey, St.Plain(""));
    SettingsRoundTrip(s.ctl.settings, other);
  }

  /**
   * A setter accepts exactly the values in its range. A rejected value changes
   * nothing; an accepted one changes that one setting and the storage, and
   * nothing else. Enabling or disabling watering is always accepted.
   */
  lemma SetterRanges(s: System, w: Wiring, t: real, seconds: U32, enable: bool)
    ensures !(0.0 <= t <= 100.0) ==> CtlSetThresholdLow(s, w, t) == s && CtlSetThresholdHigh(s, w, t) == s
    ensures 0.0 <= t <= 100.0 ==>
              var r := CtlSetThresholdLow(s, w, t);
              r == s.(ctl := s.ctl.(settings := s.ctl.settings.(thresholdLow := t)), store := r.store)
    ensures 0.0 <= t <= 100.0 ==>
              var r := CtlSetThresholdHigh(s, w, t);
              r == s.(ctl := s.ctl.(settings := s.ctl.settings.(thresholdHigh := t)), store := r.store)
    ensures !(0 < seconds <= MaxWateringDuration) ==> CtlSetWateringDuration(s, w, seconds) == s
    ensures 0 < seconds <= MaxWateringDuration ==>
              var r := CtlSetWateringDuration(s, w, seconds);
              r == s.(ctl := s.ctl.(settings := s.ctl.settings.(wateringDuration := seconds)), store := r.store)
    ensures seconds == 0 ==> CtlSetMinWateringInterval(s, w, seconds) == s
    ensures seconds > 0 ==>
              var r := CtlSetMinWateringInterval(s, w, seconds);
              r == s.(ctl := s.ctl.(settings := s.ctl.settings.(minWateringInterval := seconds)), store := r.store)
    ensures var r := CtlEnableWatering(s, w, enable);
            r == s.(ctl := s.ctl.(settings := s.ctl.settings.(wateringEnabled := enable)), store := r.store)
  {
  }

  /** Every accepted setting is saved: loading the configuration afterwards gives it back. */
  lemma AcceptedSettingsPersist(s: System, w: Wiring, t: real, seconds: U32, enable: bool, other: Settings)
    requires St.StoreInit(s.store, w.flash).1
    ensures 0.0 <= t <= 100.0 ==>
              LoadConfig(WithSettings(CtlSetThresholdLow(s, w, t), other), w).ctl.settings.thresholdLow == t
    ensures 0.0 <= t <= 100.0 ==>
              LoadConfig(WithSettings(CtlSetThresholdHigh(s, w, t), other), w).ctl.settings.thresholdHigh == t
    ensures 0 < seconds <= MaxWateringDuration ==>
              LoadConfig(WithSettings(CtlSetWateringDuration(s, w, seconds), other), w).ctl.settings.wateringDuration == seconds
    ensures seconds > 0 ==>
              LoadConfig(WithSettings(CtlSetMinWateringInterval(s, w, seconds), other), w).ctl.settings.minWateringInterval == seconds
    ensures LoadConfig(WithSettings(CtlEnableWatering(s, w, enable), other), w).ctl.settings.wateringEnabled == enable
  {
    var c := s.ctl.settings;
    if 0.0 <= t <= 100.0 {
      LoadsBack(s, w, c.(thresholdLow := t), CtlSetThresholdLow(s, w, t), other);
      LoadsBack(s, w, c.(thresholdHigh := t), CtlSetThresholdHigh(s, w, t), other);
    }
    if 0 < seconds <= MaxWateringDuration {
      LoadsBack(s, w, c.(wateringDuration := seconds), CtlSetWateringDuration(s, w, seconds), other);
    }
    if seconds > 0 {
      LoadsBack(s, w, c.(minWateringInterval := seconds), CtlSetMinWateringInterval(s, w, seconds), other);
    }
    LoadsBack(s, w, c.(wateringEnabled := enable), CtlEnableWatering(s, w, enable), other);
  }

  /** One setter's saved settings, loaded back over any others. */
  lemma LoadsBack(s: System, w: Wiring, c: Settings, r: System, other: Settings)
    requires St.StoreInit(s.store, w.flash).1 && r == SaveConfig(WithSettings(s, c), w)
    ensures LoadConfig(WithSettings(r, other), w).ctl.settings == c
  {
    SaveThenLoad(WithSettings(s, c), w, other);
  }

  /**
   * Manual watering, once the controller has started, always succeeds: a
   * timed manual run of `duration` seconds, or an open-ended automatic run
   * for 0, from `now`, which becomes the watering time. If the controller
   * cannot start, nothing but the start attempt happens.
   */
  lemma ManualWateringEffect(s: System, w: Wiring, envFound: bool, duration: U32, now: U32)
    ensures var i := CtlInit(s, w, envFound);
            var r := CtlManualWatering(s, w, envFound, duration, now);
            && (r.1 <==> i.1)
            && (!r.1 ==> r.0 == i.0)
            && (r.1 ==> r.0.ctl == i.0.ctl.(lastWateringTime := now)
                        && r.0.pump.running && r.0.pump.initialized && r.0.pump.startTime == now
                        && r.0.pump.runDuration == duration && (r.0.pump.manualMode <==> duration > 0))
  {
  }

  /** Stopping before initialization records code 8 and leaves the pump alone. */
  lemma StopBeforeInit(s: System)
    requires !s.ctl.initialized
    ensures CtlStopWatering(s) == (s.(ctl := s.ctl.(lastError := ErrNotInitialized)), false)
    ensures CtlStopWatering(s).0.pump == s.pump
  {
  }

  // ---- the controller object ----

  class WateringController {
    const envSensor: Env.BME280Sensor?
    const soilSensor: Soil.ModbusSoilSensor?
    const waterPump: P.WaterPump?
    const dataStorage: St.LittleFSStorage?
    var initialized: bool
    var lastError: int
    var lastSensorReadTime: U32
    var lastDataLogTime: U32
    var lastWateringTime: U32
    var wateringEnabled: bool
    var sensorReadInterval: U32
    var dataLogInterval: U32
    var minWateringInterval: U32
    var moistureThresholdLow: real
    var moistureThresholdHigh: real
    var wateringDuration: U32

    function SoilClient(): MC.SP3485ModbusClient? {
      if soilSensor == null then null else soilSensor.client
    }

    function SoilSerial(): SerialPort? {
      if SoilClient() == null then null else SoilClient().serial
    }

    function SettingsNow(): Settings
      reads this
    {
      Settings(sensorReadInterval, dataLogInterval, minWateringInterval, moistureThresholdLow,
               moistureThresholdHigh, wateringDuration, wateringEnabled)
    }

    function CtlNow(): Ctl
      reads this
    {
      Ctl(initialized, lastError, lastSensorReadTime, lastDataLogTime, lastWateringTime, SettingsNow())
    }

    function EnvNow(): Env.EnvState
      reads envSensor
    {
      if envSensor == null then Env.InitialEnv else envSensor.State()
    }

    function SoilNow(): Soil.SoilState
      reads soilSensor
    {
      if soilSensor == null then Soil.InitialSoil else soilSensor.State()
    }

    function LinkNow(): MC.Link
      reads SoilClient(), SoilSerial()
    {
      Soil.LinkOf(SoilClient())
    }

    function PumpNow(): P.PumpState
      reads waterPump
    {
      if waterPump == null then P.InitialPump else waterPump.State()
    }

    function StoreNow(): St.StorageState
      reads dataStorage
    {
      if dataStorage == null then St.StorageState(false, 0, St.NoConfig, map[], []) else dataStorage.State()
    }

    function SysNow(): System
      reads this, envSensor, soilSensor, SoilClient(), SoilSerial(), waterPump, dataStorage
    {
      System(CtlNow(), EnvNow(), SoilNow(), LinkNow(), PumpNow(), StoreNow())
    }

    function WiringNow(): Wiring
      reads SoilClient()
    {
      Wiring(
        envSensor != null && soilSensor != null && waterPump != null && dataStorage != null,
        if dataStorage == null then St.Flash(false, false) else dataStorage.flash,
        SoilClient() != null,
        SoilClient() != null && SoilClient().serial != null,
        if soilSensor == null then 0 else soilSensor.deviceAddress)
    }

    ghost predicate Valid()
      reads this, soilSensor, SoilClient(), dataStorage
    {
      && (soilSensor != null ==> soilSensor.Valid())
      && (dataStorage != null ==> dataStorage.Valid())
      && (initialized ==> envSensor != null && soilSensor != null && waterPump != null && dataStorage != null)
    }

    constructor (environmental: Env.BME280Sensor?, soil: Soil.ModbusSoilSensor?, pump: P.WaterPump?, storage: St.LittleFSStorage?)
      requires soil != null ==> soil.Valid()
      requires storage != null ==> storage.Valid()
      ensures envSensor == environmental && soilSensor == soil && waterPump == pump && dataStorage == storage
      ensures CtlNow() == InitialCtl && Valid()
    {
      envSensor := environmental;
      soilSensor := soil;
      waterPump := pump;
      dataStorage := storage;
      initialized := false;
      lastError := 0;
      lastSensorReadTime := 0;
      lastDataLogTime := 0;
      lastWateringTime := 0;
      wateringEnabled := true;
      sensorReadInterval := DefaultSettings.sensorReadInterval;
      dataLogInterval := DefaultSettings.dataLogInterval;
      minWateringInterval := DefaultSettings.minWateringInterval;
      moistureThresholdLow := DefaultSettings.thresholdLow;
      moistureThresholdHigh := DefaultSettings.thresholdHigh;
      wateringDuration := DefaultSettings.wateringDuration;
    }

    method SetSettings(c: Settings)
      modifies this
      ensures CtlNow() == old(CtlNow()).(settings := c)
    {
      sensorReadInterval := c.sensorReadInterval;
      dataLogInterval := c.dataLogInterval;
      minWateringInterval := c.minWateringInterval;
      moistureThresholdLow := c.thresholdLow;
      moistureThresholdHigh := c.thresholdHigh;
      wateringDuration := c.wateringDuration;
      wateringEnabled := c.wateringEnabled;
    }

    method LoadConfiguration()
      requires dataStorage != null
      modifies this, dataStorage
      ensures SysNow() == LoadConfig(old(SysNow()), WiringNow())
    {
      var text := dataStorage.GetConfigValue(ConfigKey, St.Plain(""));
      SetSettings(LoadSettings(SettingsNow(), text));
    }

    method SaveConfiguration()
      requires dataStorage != null
      modifies dataStorage
      ensures SysNow() == SaveConfig(old(SysNow()), WiringNow())
    {
      var stored := dataStorage.StoreConfigValue(ConfigKey, St.Doc(ConfigDoc(SettingsNow())));
    }

    /** `envFound` is the environmental chip's answer to its start-up probe. */
    method Initialize(envFound: bool) returns (ok: bool)
      requires Valid()
      modifies this, envSensor, soilSensor, SoilClient(), SoilSerial(), waterPump, dataStorage
      ensures Valid()
      ensures (SysNow(), ok) == CtlInit(old(SysNow()), WiringNow(), envFound)
    {
      if initialized {
        return true;
      }
      if envSensor == null || soilSensor == null || waterPump == null || dataStorage == null {
        lastError := ErrMissingComponent;
        return false;
      }
      ok := InitializeComponents(envFound);
      if ok {
        Start();
      }
    }

    /** What a successful `initialize()` does after the components have started. */
    method Start()
      requires Valid() && envSensor != null && soilSensor != null && waterPump != null && dataStorage != null
      modifies this, dataStorage
      ensures Valid()
      ensures SysNow() == Started(old(SysNow()), WiringNow())
    {
      LoadConfiguration();
      lastSensorReadTime := 0;
      lastDataLogTime := 0;
      lastWateringTime := 0;
      initialized := true;
      lastError := 0;
    }

    /** The four component initializations, each failure overwriting the code. */
    method InitializeComponents(envFound: bool) returns (success: bool)
      requires Valid() && !initialized
      requires envSensor != null && soilSensor != null && waterPump != null && dataStorage != null
      modifies this, envSensor, soilSensor, SoilClient(), SoilSerial(), waterPump, dataStorage
      ensures Valid() && !initialized
      ensures (SysNow(), success) == InitComponents(old(SysNow()), WiringNow(), envFound)
    {
      var first := InitializeStorageAndEnv(envFound);
      var second := InitializeSoilAndPump();
      success := first && second;
    }

    method InitializeStorageAndEnv(envFound: bool) returns (success: bool)
      requires envSensor != null && dataStorage != null
      modifies this, envSensor, dataStorage
      ensures (SysNow(), success) == InitStorageAndEnv(old(SysNow()), WiringNow(), envFound)
    {
      var code := lastError;
      var stOk := StartStorage();
      code := if stOk then code else ErrStorageInit;
      var envOk := StartEnvironment(envFound);
      lastError := if envOk then code else ErrEnvInit;
      success := stOk && envOk;
    }

    method InitializeSoilAndPump() returns (success: bool)
      requires Valid() && soilSensor != null && waterPump != null
      modifies this, soilSensor, SoilClient(), SoilSerial(), waterPump
      ensures Valid() && initialized == old(initialized)
      ensures (SysNow(), success) == InitSoilAndPump(old(SysNow()), WiringNow())
    {
      var code := lastError;
      var soilOk := StartSoil();
      code := if soilOk then code else ErrSoilInit;
      var pumpOk := StartPump();
      lastError := if pumpOk then code else ErrPumpInit;
      success := soilOk && pumpOk;
    }

    method StartStorage() returns (ok: bool)
      requires dataStorage != null
      modifies dataStorage
      ensures var r := St.StoreInit(old(StoreNow()), dataStorage.flash);
              SysNow() == old(SysNow()).(store := r.0) && ok == r.1
    {
      ok := dataStorage.Initialize();
    }

    method StartEnvironment(envFound: bool) returns (ok: bool)
      requires envSensor != null
      modifies envSensor
      ensures var r := Env.EnvInit(old(EnvNow()), envFound);
              SysNow() == old(SysNow()).(env := r.0) && ok == r.1
    {
      ok := envSensor.Initialize(envFound);
    }

    method StartSoil() returns (ok: bool)
      requires Valid() && soilSensor != null
      modifies soilSensor, SoilClient(), SoilSerial()
      ensures Valid()
      ensures var w := WiringNow();
              var r := Soil.SoilInit(old(SoilNow()), old(LinkNow()), w.soilHasClient, w.soilHasSerial, w.soilAddr);
              SysNow() == old(SysNow()).(soil := r.sensor, link := r.link) && ok == r.ok
    {
      ok := soilSensor.Initialize();
    }

    method StartPump() returns (ok: bool)
      requires Valid() && waterPump != null
      modifies waterPump
      ensures Valid()
      ensures SysNow() == old(SysNow()).(pump := P.PumpInitialize(old(PumpNow()))) && ok
    {
      ok := waterPump.Initialize();
    }

    method ReadEnvironment(inp: Inputs) returns (ok: bool)
      requires envSensor != null
      modifies envSensor
      ensures var r := Env.EnvRead(old(EnvNow()), inp.envFound, inp.temperature, inp.humidity, inp.pressure);
              SysNow() == old(SysNow()).(env := r.0) && ok == r.1
    {
      ok := envSensor.Read(inp.envFound, inp.temperature, inp.humidity, inp.pressure);
    }

    method ReadSoil() returns (ok: bool)
      requires Valid() && soilSensor != null
      modifies soilSensor, SoilClient(), SoilSerial()
      ensures Valid()
      ensures var w := WiringNow();
              var r := Soil.SoilRead(old(SoilNow()), old(LinkNow()), w.soilHasClient, w.soilHasSerial, w.soilAddr);
              SysNow() == old(SysNow()).(soil := r.sensor, link := r.link) && ok == r.ok
    {
      ok := soilSensor.Read();
    }

    /** `processReadings()`, once initialized. */
    method ProcessReadingsNow(now: U32) returns (started: bool)
      requires Valid() && initialized
      modifies this, waterPump
      ensures Valid()
      ensures (SysNow(), started) == ProcessReadings(old(SysNow()), now)
    {
      var running := false;
      if wateringEnabled {
        running := waterPump.IsRunning(now);
      }
      if wateringEnabled && !running && soilSensor.moisture <= moistureThresholdLow
         && Sub32(now, lastWateringTime) >= Mul32(minWateringInterval, 1000) {
        WaterNow(now);
        return true;
      }
      StopIfWetNow(now);
      return false;
    }

    method WaterNow(now: U32)
      requires waterPump != null
      modifies this, waterPump
      ensures SysNow() == Water(old(SysNow()), now)
    {
      var _ := waterPump.RunFor(wateringDuration, now);
      lastWateringTime := now;
    }

    method StopIfWetNow(now: U32)
      requires waterPump != null && soilSensor != null
      modifies waterPump
      ensures SysNow() == StopIfWet(old(SysNow()), now)
    {
      var running := waterPump.IsRunning(now);
      if running && soilSensor.moisture >= moistureThresholdHigh {
        var _ := waterPump.Stop();
      }
    }

    /** The sensor-read branch of `update()`. */
    method ReadSensorsNow(inp: Inputs)
      requires Valid() && initialized
      modifies this, envSensor, soilSensor, SoilClient(), SoilSerial(), waterPump
      ensures Valid() && initialized
      ensures SysNow() == ReadSensors(old(SysNow()), WiringNow(), inp)
    {
      var envOk := ReadEnvironment(inp);
      if envOk {
        ReadSoilAndDecideNow(inp.now);
      } else {
        lastError := ErrEnvRead;
      }
      lastSensorReadTime := inp.now;
    }

    method ReadSoilAndDecideNow(now: U32)
      requires Valid() && initialized
      modifies this, soilSensor, SoilClient(), SoilSerial(), waterPump
      ensures Valid() && initialized
      ensures SysNow() == ReadSoilAndDecide(old(SysNow()), WiringNow(), now)
    {
      var soilOk := ReadSoil();
      AfterSoilReadNow(soilOk, now);
    }

    method AfterSoilReadNow(soilOk: bool, now: U32)
      requires Valid() && initialized
      modifies this, waterPump
      ensures Valid() && initialized
      ensures SysNow() == AfterSoilRead(old(SysNow()), soilOk, now)
    {
      if soilOk {
        var _ := ProcessReadingsNow(now);
      } else {
        lastError := ErrSoilRead;
      }
    }

    /** `logSensorData()`: one reading per quantity into storage, stamped with the wall clock. */
    method LogSensorData(clock: int)
      requires initialized && Valid()
      modifies dataStorage
      ensures Valid()
      ensures SysNow() == old(SysNow()).(store := LogSoil(LogEnv(old(StoreNow()), WiringNow().flash, EnvNow(), clock),
                                                          WiringNow().flash, SoilNow().readings, clock))
    {
      LogEnvironment(EnvNow(), clock);
      LogSoilReadings(SoilNow().readings, clock);
    }

    method LogEnvironment(env: Env.EnvState, clock: int)
      requires dataStorage != null && dataStorage.Valid()
      modifies dataStorage
      ensures dataStorage.Valid()
      ensures dataStorage.State() == LogEnv(old(dataStorage.State()), dataStorage.flash, env, clock)
    {
      var stored := dataStorage.StoreSensorReading("env", "temperature", env.temperature, clock);
      stored := dataStorage.StoreSensorReading("env", "humidity", env.humidity, clock);
      stored := dataStorage.StoreSensorReading("env", "pressure", env.pressure, clock);
    }

    method LogSoilReadings(r: Soil.Readings, clock: int)
      requires dataStorage != null && dataStorage.Valid()
      modifies dataStorage
      ensures dataStorage.Valid()
      ensures dataStorage.State() == LogSoil(old(dataStorage.State()), dataStorage.flash, r, clock)
    {
      var stored := dataStorage.StoreSensorReading("soil", "moisture", Value(r.moisture), clock);
      stored := dataStorage.StoreSensorReading("soil", "temperature", Value(r.temperature), clock);
      stored := dataStorage.StoreSensorReading("soil", "ph", Value(r.ph), clock);
      stored := dataStorage.StoreSensorReading("soil", "ec", Value(r.ec), clock);
      if r.nitrogen >= 0.0 {
        stored := dataStorage.StoreSensorReading("soil", "nitrogen", Value(r.nitrogen), clock);
      }
      if r.phosphorus >= 0.0 {
        stored := dataStorage.StoreSensorReading("soil", "phosphorus", Value(r.phosphorus), clock);
      }
      if r.potassium >= 0.0 {
        stored := dataStorage.StoreSensorReading("soil", "potassium", Value(r.potassium), clock);
      }
    }

    /** `update()`, one pass of the main loop; `inp` carries the clocks and the environmental chip's answers. */
    method Update(inp: Inputs)
      requires Valid()
      modifies this, envSensor, soilSensor, SoilClient(), SoilSerial(), waterPump, dataStorage
      ensures Valid()
      ensures SysNow() == CtlUpdate(old(SysNow()), WiringNow(), inp)
    {
      var ok := Initialize(inp.envFound);
      if !ok {
        return;
      }
      TickNow(inp.now);
      ReadStepNow(inp);
      LogStepNow(inp);
    }

    method TickNow(now: U32)
      requires Valid() && waterPump != null
      modifies waterPump
      ensures Valid()
      ensures SysNow() == Tick(old(SysNow()), now)
    {
      waterPump.Update(now);
    }

    method ReadStepNow(inp: Inputs)
      requires Valid() && initialized
      modifies this, envSensor, soilSensor, SoilClient(), SoilSerial(), waterPump
      ensures Valid() && initialized
      ensures SysNow() == ReadStep(old(SysNow()), WiringNow(), inp)
    {
      if Sub32(inp.now, lastSensorReadTime) >= sensorReadInterval {
        ReadSensorsNow(inp);
      }
    }

    method LogStepNow(inp: Inputs)
      requires Valid() && initialized
      modifies this, dataStorage
      ensures Valid() && initialized
      ensures SysNow() == LogStep(old(SysNow()), WiringNow(), inp)
    {
      if Sub32(inp.now, lastDataLogTime) >= dataLogInterval {
        LogSensorData(inp.clock);
        lastDataLogTime := inp.now;
      }
    }

    method ManualWatering(envFound: bool, duration: U32, now: U32) returns (result: bool)
      requires Valid()
      modifies this, envSensor, soilSensor, SoilClient(), SoilSerial(), waterPump, dataStorage
      ensures Valid()
      ensures (SysNow(), result) == CtlManualWatering(old(SysNow()), WiringNow(), envFound, duration, now)
    {
      var ok := Initialize(envFound);
      if !ok {
        return false;
      }
      result := ManualRunNow(duration, now);
    }

    method ManualRunNow(duration: U32, now: U32) returns (result: bool)
      requires Valid() && waterPump != null
      modifies this, waterPump
      ensures Valid()
      ensures (SysNow(), result) == ManualRun(old(SysNow()), duration, now)
    {
      if duration > 0 {
        result := waterPump.RunFor(duration, now);
      } else {
        result := waterPump.Start(now);
      }
      if result {
        lastWateringTime := now;
      }
    }

    method StopWatering() returns (ok: bool)
      requires Valid()
      modifies this, waterPump
      ensures Valid()
      ensures (SysNow(), ok) == CtlStopWatering(old(SysNow()))
    {
      if !initialized {
        lastError := ErrNotInitialized;
        return false;
      }
      ok := waterPump.Stop();
    }

    method EnableWatering(enable: bool)
      requires dataStorage != null
      modifies this, dataStorage
      ensures SysNow() == CtlEnableWatering(old(SysNow()), WiringNow(), enable)
    {
      wateringEnabled := enable;
      SaveConfiguration();
    }

    method SetMoistureThresholdLow(threshold: real)
      requires dataStorage != null
      modifies this, dataStorage
      ensures SysNow() == CtlSetThresholdLow(old(SysNow()), WiringNow(), threshold)
    {
      if 0.0 <= threshold <= 100.0 {
        moistureThresholdLow := threshold;
        SaveConfiguration();
      }
    }

    method SetMoistureThresholdHigh(threshold: real)
      requires dataStorage != null
      modifies this, dataStorage
      ensures SysNow() == CtlSetThresholdHigh(old(SysNow()), WiringNow(), threshold)
    {
      if 0.0 <= threshold <= 100.0 {
        moistureThresholdHigh := threshold;
        SaveConfiguration();
      }
    }

    method SetWateringDuration(seconds: U32)
      requires dataStorage != null
      modifies this, dataStorage
      ensures SysNow() == CtlSetWateringDuration(old(SysNow()), WiringNow(), seconds)
    {
      if 0 < seconds <= MaxWateringDuration {
        wateringDuration := seconds;
        SaveConfiguration();
      }
    }

    method SetMinWateringInterval(seconds: U32)
      requires dataStorage != null
      modifies this, dataStorage
      ensures SysNow() == CtlSetMinWateringInterval(old(SysNow()), WiringNow(), seconds)
    {
      if seconds > 0 {
        minWateringInterval := seconds;
        SaveConfiguration();
      }
    }

    function GetLastError(): (e: int)
      reads this
      ensures e == CtlNow().lastError
    {
      lastError
    }

    function IsWateringEnabled(): (e: bool)
      reads this
      ensures e == CtlNow().settings.wateringEnabled
    {
      wateringEnabled
    }

    function GetCurrentMoisture(): (m: real)
      reads this, soilSensor
      ensures m == CurrentMoisture(CtlNow(), SoilNow(), soilSensor != null)
    {
      if !initialized || soilSensor == null then -1.0 else soilSensor.moisture
    }

    function GetTimeSinceLastWatering(now: U32): (t: nat)
      reads this
      ensures t == TimeSinceLastWatering(CtlNow(), now)
    {
      if lastWateringTime == 0 then 0 else Sub32(now, lastWateringTime) / 1000
    }
  }
}
