/**
 * The RS485 soil sensor: eight holding registers read over the Modbus
 * transport and converted to moisture, temperature, pH, conductivity,
 * nitrogen, phosphorus, potassium and humidity. Every step is a function of
 * the sensor's state and of the transport's `Link`, so the properties speak
 * about what goes out on the line and what comes back.
 */
module SoilSensor {
  import opened Util
  import opened SerialLine
  import opened ModbusClient

  /** The register map: one register per quantity, from 0 to 7. */
  const RegMoisture: U16 := 0
  const RegisterCount: U16 := 8

  const ErrNoClient := 1
  const ErrClientInit := 2
  const ErrNoAnswer := 3
  const ErrReadFailed := 4
  const ErrImplausible := 5

  datatype Readings = Readings(
    moisture: real,
    temperature: real,
    humidity: real,
    ph: real,
    ec: real,
    nitrogen: real,
    phosphorus: real,
    potassium: real)

  const NoReadings := Readings(0.0, 0.0, 0.0, 0.0, 0.0, 0.0, 0.0, 0.0)

  datatype SoilState = SoilState(initialized: bool, lastError: int, readings: Readings)

  const InitialSoil := SoilState(false, 0, NoReadings)

  /** The sensor state, the transport after the step, and the step's boolean result. */
  datatype SoilStep = SoilStep(sensor: SoilState, link: Link, ok: bool)

  /** A register read as a two's-complement 16-bit number. */
  function Signed16(r: U16): (t: int)
    ensures -0x8000 <= t < 0x8000
    ensures t % 0x10000 == r
    ensures t >= 0 <==> r < 0x8000
  {
    if r < 0x8000 then r else r - 0x10000
  }

  /** Tenths for moisture, temperature, pH and humidity; plain units for the rest. */
  function Decode(regs: seq<U16>): Readings
    requires |regs| == 8
  {
    Readings(
      moisture := regs[0] as real / 10.0,
      temperature := Signed16(regs[1]) as real / 10.0,
      humidity := regs[7] as real / 10.0,
      ph := regs[2] as real / 10.0,
      ec := regs[3] as real,
      nitrogen := regs[4] as real,
      phosphorus := regs[5] as real,
      potassium := regs[6] as real)
  }

  /** The ranges a reading must lie in to be accepted. */
  predicate Plausible(r: Readings) {
    && 0.0 <= r.moisture <= 100.0
    && -40.0 <= r.temperature <= 80.0
    && 3.0 <= r.ph <= 9.0
    && 0.0 <= r.humidity <= 100.0
  }

  /** `initialize()`: once successful it is a no-op; else client, transport and a one-register probe. */
  function SoilInit(s: SoilState, l: Link, hasClient: bool, hasSerial: bool, addr: byte): (r: SoilStep)
    ensures r.ok <==> r.sensor.initialized
    ensures r.sensor.readings == s.readings
    ensures s.initialized ==> r == SoilStep(s, l, true)
    ensures !s.initialized ==>
              var i := LinkInitialize(l, hasSerial);
              && (r.ok <==> hasClient && i.1 && LinkRead(i.0, hasSerial, addr, RegMoisture, 1).1.Registers?)
              && (!hasClient ==> r == SoilStep(s.(lastError := ErrNoClient), l, false))
              && (hasClient && !i.1 ==> r.sensor == s.(lastError := ErrClientInit))
              && (hasClient && i.1 && !r.ok ==> r.sensor == s.(lastError := ErrNoAnswer))
              && (r.ok ==> r.sensor == s.(initialized := true, lastError := 0))
  {
    if s.initialized then SoilStep(s, l, true)
    else if !hasClient then SoilStep(s.(lastError := ErrNoClient), l, false)
    else
      var i := LinkInitialize(l, hasSerial);
      if !i.1 then SoilStep(s.(lastError := ErrClientInit), i.0, false)
      else
        var probe := LinkRead(i.0, hasSerial, addr, RegMoisture, 1);
        if probe.1.Failed? then SoilStep(s.(lastError := ErrNoAnswer), probe.0, false)
        else SoilStep(s.(initialized := true, lastError := 0), probe.0, true)
  }

  /** A sensor is only initialized with a transport behind it that is initialized as well. */
  predicate SoilValid(s: SoilState, l: Link, hasClient: bool) {
    s.initialized ==> hasClient && l.client.initialized
  }

  /** The read of all eight registers and its conversion, once the sensor is initialized. */
  function ReadAll(s: SoilState, l: Link, hasSerial: bool, addr: byte): SoilStep {
    var rd := LinkRead(l, hasSerial, addr, RegMoisture, RegisterCount);
    if rd.1.Failed? then SoilStep(s.(lastError := ErrReadFailed), rd.0, false)
    else
      var readings := Decode(rd.1.values);
      if !Plausible(readings) then SoilStep(s.(readings := readings, lastError := ErrImplausible), rd.0, false)
      else SoilStep(s.(readings := readings, lastError := 0), rd.0, true)
  }

  /** `read()`: lazy initialization, then one request for all eight registers. */
  function SoilRead(s: SoilState, l: Link, hasClient: bool, hasSerial: bool, addr: byte): (r: SoilStep)
    ensures r.ok ==> r.sensor.lastError == 0 && r.sensor.initialized && Plausible(r.sensor.readings)
    ensures !r.ok ==> r.sensor.lastError in {ErrNoClient, ErrClientInit, ErrNoAnswer, ErrReadFailed, ErrImplausible}
    ensures var i := SoilInit(s, l, hasClient, hasSerial, addr);
            && (!i.ok ==> r == i)
            && (i.ok && LinkRead(i.link, hasSerial, addr, RegMoisture, RegisterCount).1.Failed? ==>
                  && !r.ok && r.sensor == i.sensor.(lastError := ErrReadFailed) && r.sensor.readings == s.readings)
  {
    var i := SoilInit(s, l, hasClient, hasSerial, addr);
    if !i.ok then i
    else ReadAll(i.sensor, i.link, hasSerial, addr)
  }

  /** `isAvailable()`: initialization when not yet done, else a one-register probe whose values are dropped. */
  function SoilAvailable(s: SoilState, l: Link, hasClient: bool, hasSerial: bool, addr: byte): (r: SoilStep)
    ensures r.sensor.readings == s.readings
    ensures !s.initialized ==> r == SoilInit(s, l, hasClient, hasSerial, addr)
    ensures s.initialized ==>
              && r.sensor == s
              && (r.ok <==> hasClient && LinkRead(l, hasSerial, addr, RegMoisture, 1).1.Registers?)
              && (!hasClient ==> r.link == l)
  {
    if !s.initialized then SoilInit(s, l, hasClient, hasSerial, addr)
    else if !hasClient then SoilStep(s, l, false)
    else
      var probe := LinkRead(l, hasSerial, addr, RegMoisture, 1);
      SoilStep(s, probe.0, probe.1.Registers?)
  }

  // ---- properties ----

  /** The acceptance ranges, stated on the raw registers. */
  lemma PlausibleIffRaw(regs: seq<U16>)
    requires |regs| == 8
    ensures Plausible(Decode(regs)) <==>
            regs[0] <= 1000 && -400 <= Signed16(regs[1]) <= 800 && 30 <= regs[2] <= 90 && regs[7] <= 1000
  {
  }

  /** Conductivity and the three nutrients never cause a reading to be refused. */
  lemma NutrientsIrrelevant(regs: seq<U16>, other: seq<U16>)
    requires |regs| == 8 && |other| == 8
    requires regs[0] == other[0] && regs[1] == other[1] && regs[2] == other[2] && regs[7] == other[7]
    ensures Plausible(Decode(regs)) <==> Plausible(Decode(other))
  {
  }

  /** A temperature register at or above 0x8000 is a temperature below zero. */
  lemma NegativeTemperatures(regs: seq<U16>)
    requires |regs| == 8
    ensures Decode(regs).temperature < 0.0 <==> regs[1] >= 0x8000
    ensures regs[1] == 0xFFFF ==> Decode(regs).temperature == -0.1
  {
  }

  /**
   * A read succeeds exactly when the sensor is (or becomes) initialized, the
   * eight-register read returns values and they are in range; the readings are
   * then the decoded values, and `lastError` is 0.
   */
  lemma ReadOutcome(s: SoilState, l: Link, hasClient: bool, hasSerial: bool, addr: byte)
    ensures var i := SoilInit(s, l, hasClient, hasSerial, addr);
            var rd := LinkRead(i.link, hasSerial, addr, RegMoisture, RegisterCount);
            var r := SoilRead(s, l, hasClient, hasSerial, addr);
            && (r.ok <==> i.ok && rd.1.Registers? && Plausible(Decode(rd.1.values)))
            && (r.ok ==> r.sensor.readings == Decode(rd.1.values) && r.link == rd.0)
  {
  }

  /**
   * The readings a failed read leaves behind: unchanged on every failure but an
   * out-of-range one, which stores the rejected values all the same.
   */
  lemma FailedReadKeepsReadings(s: SoilState, l: Link, hasClient: bool, hasSerial: bool, addr: byte)
    ensures var r := SoilRead(s, l, hasClient, hasSerial, addr);
            !r.ok && r.sensor.lastError != ErrImplausible ==> r.sensor.readings == s.readings
    ensures var r := SoilRead(s, l, hasClient, hasSerial, addr);
            !r.ok && r.sensor.lastError == ErrImplausible ==> !Plausible(r.sensor.readings)
  {
  }

  /** Initialization is done at most once: on an initialized sensor it changes nothing. */
  lemma InitOnce(s: SoilState, l: Link, hasClient: bool, hasSerial: bool, addr: byte)
    ensures var r := SoilInit(s, l, hasClient, hasSerial, addr);
            r.ok ==> SoilInit(r.sensor, r.link, hasClient, hasSerial, addr) == SoilStep(r.sensor, r.link, true)
    ensures s.initialized ==> SoilInit(s, l, hasClient, hasSerial, addr) == SoilStep(s, l, true)
  {
  }

  /** Without a client nothing is sent and the sensor reports code 1. */
  lemma NoClientNoTraffic(s: SoilState, l: Link, hasSerial: bool, addr: byte)
    requires !s.initialized
    ensures SoilRead(s, l, false, hasSerial, addr) == SoilStep(s.(lastError := ErrNoClient), l, false)
    ensures SoilAvailable(s, l, false, hasSerial, addr) == SoilStep(s.(lastError := ErrNoClient), l, false)
  {
  }

  /** Every operation keeps an initialized sensor's transport initialized. */
  lemma InitKeepsValid(s: SoilState, l: Link, hasClient: bool, hasSerial: bool, addr: byte)
    requires SoilValid(s, l, hasClient)
    ensures var r := SoilInit(s, l, hasClient, hasSerial, addr); SoilValid(r.sensor, r.link, hasClient)
  {
  }

  lemma ReadKeepsValid(s: SoilState, l: Link, hasClient: bool, hasSerial: bool, addr: byte)
    requires SoilValid(s, l, hasClient)
    ensures var r := SoilRead(s, l, hasClient, hasSerial, addr); SoilValid(r.sensor, r.link, hasClient)
  {
    InitKeepsValid(s, l, hasClient, hasSerial, addr);
  }

  lemma AvailableKeepsValid(s: SoilState, l: Link, hasClient: bool, hasSerial: bool, addr: byte)
    requires SoilValid(s, l, hasClient)
    ensures var r := SoilAvailable(s, l, hasClient, hasSerial, addr); SoilValid(r.sensor, r.link, hasClient)
  {
    InitKeepsValid(s, l, hasClient, hasSerial, addr);
  }

  /**
   * An initialized sensor whose device answers with the well-formed reply for
   * the eight registers `regs` sends exactly one request, for registers 0 to 7,
   * stores the decoded values, and succeeds exactly when they are in range.
   */
  lemma ReadOfAnsweringSensor(s: SoilState, l: Link, addr: byte, regs: seq<U16>)
    requires s.initialized && l.client.initialized && |regs| == 8
    requires |l.port.answers| > 0 && l.port.answers[0] == ReadResponseFrame(addr, regs)
    ensures var r := SoilRead(s, l, true, true, addr);
            && r.link.port.written == l.port.written + [ReadRequestFrame(addr, RegMoisture, RegisterCount)]
            && r.sensor.readings == Decode(regs)
            && (r.ok <==> Plausible(Decode(regs)))
  {
    ReadOfAnsweringDevice(l, addr, RegMoisture, regs);
  }

  /** The transport's view of a missing client. */
  function LinkOf(client: SP3485ModbusClient?): Link
    reads client, if client != null then client.serial else null
  {
    if client == null then Link(ClientState(false, 0, DefaultTimeoutMs, 0, 0), NoPort) else client.LinkNow()
  }

  class ModbusSoilSensor {
    const client: SP3485ModbusClient?
    const deviceAddress: byte
    const name: string
    var initialized: bool
    var lastError: int
    var moisture: real
    var temperature: real
    var humidity: real
    var ph: real
    var ec: real
    var nitrogen: real
    var phosphorus: real
    var potassium: real

    ghost predicate Valid()
      reads this, client
    {
      && (client != null ==> client.Valid())
      && (initialized ==> client != null && client.initialized)
    }

    function CurrentReadings(): Readings
      reads this
    {
      Readings(moisture, temperature, humidity, ph, ec, nitrogen, phosphorus, potassium)
    }

    function State(): SoilState
      reads this
    {
      SoilState(initialized, lastError, CurrentReadings())
    }

    function LinkNow(): Link
      reads client, if client != null then client.serial else null
    {
      LinkOf(client)
    }

    predicate HasSerial()
      reads client
    {
      client != null && client.serial != null
    }

    constructor (modbus: SP3485ModbusClient?, address: byte, sensorName: string)
      requires modbus != null ==> modbus.Valid()
      ensures client == modbus && deviceAddress == address && name == sensorName
      ensures State() == InitialSoil && Valid()
    {
      client := modbus;
      deviceAddress := address;
      name := sensorName;
      initialized := false;
      lastError := 0;
      moisture := 0.0;
      temperature := 0.0;
      humidity := 0.0;
      ph := 0.0;
      ec := 0.0;
      nitrogen := 0.0;
      phosphorus := 0.0;
      potassium := 0.0;
    }

    method Initialize() returns (ok: bool)
      requires Valid()
      modifies this, client, if client != null then client.serial else null
      ensures Valid()
      ensures SoilInit(old(State()), old(LinkNow()), client != null, HasSerial(), deviceAddress)
              == SoilStep(State(), LinkNow(), ok)
    {
      if initialized {
        return true;
      }
      if client == null {
        lastError := ErrNoClient;
        return false;
      }
      var ready := client.Initialize();
      if !ready {
        lastError := ErrClientInit;
        return false;
      }
      var testRegister := new U16[1];
      var answered := client.ReadHoldingRegisters(deviceAddress, RegMoisture, 1, testRegister);
      if !answered {
        lastError := ErrNoAnswer;
        return false;
      }
      initialized := true;
      lastError := 0;
      return true;
    }

    method Read() returns (ok: bool)
      requires Valid()
      modifies this, client, if client != null then client.serial else null
      ensures Valid()
      ensures SoilRead(old(State()), old(LinkNow()), client != null, HasSerial(), deviceAddress)
              == SoilStep(State(), LinkNow(), ok)
    {
      ok := Initialize();
      if !ok {
        return;
      }
      ok := ReadRegisters();
    }

    /** The eight-register read and the conversion, once initialized. */
    method ReadRegisters() returns (ok: bool)
      requires Valid() && initialized
      modifies this, client, if client != null then client.serial else null
      ensures Valid()
      ensures ReadAll(old(State()), old(LinkNow()), HasSerial(), deviceAddress) == SoilStep(State(), LinkNow(), ok)
    {
      var registerValues := new U16[RegisterCount];
      var got := client.ReadHoldingRegisters(deviceAddress, RegMoisture, RegisterCount, registerValues);
      if !got {
        lastError := ErrReadFailed;
        return false;
      }
      assert registerValues[..RegisterCount] == registerValues[..];
      ok := Convert(registerValues[..]);
    }

    /** Converts the eight registers to readings and checks their ranges. */
    method Convert(registerValues: seq<U16>) returns (ok: bool)
      requires |registerValues| == 8
      modifies this
      ensures ok == Plausible(Decode(registerValues))
      ensures State() == old(State()).(readings := Decode(registerValues), lastError := if ok then 0 else ErrImplausible)
    {
      moisture := registerValues[0] as real / 10.0;
      var rawTemp := Signed16(registerValues[1]);
      temperature := rawTemp as real / 10.0;
      ph := registerValues[2] as real / 10.0;
      ec := registerValues[3] as real;
      nitrogen := registerValues[4] as real;
      phosphorus := registerValues[5] as real;
      potassium := registerValues[6] as real;
      humidity := registerValues[7] as real / 10.0;
      if !(0.0 <= moisture <= 100.0 && -40.0 <= temperature <= 80.0 && 3.0 <= ph <= 9.0 && 0.0 <= humidity <= 100.0) {
        lastError := ErrImplausible;
        return false;
      }
      lastError := 0;
      return true;
    }

    method IsAvailable() returns (ok: bool)
      requires Valid()
      modifies this, client, if client != null then client.serial else null
      ensures Valid()
      ensures SoilAvailable(old(State()), old(LinkNow()), client != null, HasSerial(), deviceAddress)
              == SoilStep(State(), LinkNow(), ok)
    {
      if !initialized {
        ok := Initialize();
        return;
      }
      if client == null {
        return false;
      }
      ok := client.ReadHoldingRegisters(deviceAddress, RegMoisture, 1, null);
    }

    function GetLastError(): (e: int)
      reads this
      ensures e == State().lastError
    {
      lastError
    }
  }
}
