# Soil-moisture watering firmware: a Dafny model

This project models the control core of an ESP32 watering system, and proves properties of that model. The system reads an RS-485 soil sensor over Modbus RTU and reads a BME280 environmental sensor. It waters a plant through a pump when the soil is dry. It refills the reservoir between two level switches. It keeps its settings and a time series per quantity in LittleFS flash storage.

There is one module per part of the firmware:

- `Util`: 32-bit unsigned time arithmetic (`Sub32`, `Mul32`, `ToU32`) and the `Measure` type, a real number or NaN.
- `ModbusCrc`: CRC-16/MODBUS and its nested-loop implementation.
- `SerialLine`: the RS-485 line as the master sees it. Each frame written receives the bytes that arrive before the timeout.
- `ModbusClient`: the SP3485 Modbus RTU master. It covers request framing for functions 0x03 and 0x06, the ordered validation of replies with their numeric error codes, big-endian register decoding, and the success and error counters.
- `SoilSensor`: the eight-register soil sensor, with its scaling, signed temperature and range check.
- `EnvSensor`: the BME280 sensor as the controller sees it.
- `Pump`: the water pump's timed-run state machine.
- `Storage`: LittleFS storage. It holds a key/value configuration and append-only time series per file, with a time-window query, a latest-reading search and pruning.
- `ReservoirFill`: the reservoir fill control of the main loop.
- `Controller`: the watering controller. It covers lazy all-or-nothing initialization, the read and log schedules, the threshold decision behind a minimum-interval gate, the bounded setters, manual watering, and the saving and loading of settings.

Each class keeps the fields the firmware updates. Its methods are proved to move the object exactly as a pure function of the old state says: `State() == F(old(State()), inputs)`. The properties the firmware promises are lemmas about those functions.

Hardware inputs are parameters:

- the millisecond clock `now`, a 32-bit value whose differences wrap;
- the wall clock `clock`;
- the level switches;
- the environmental chip's answers;
- the bytes the serial line delivers.

## Model

| member | source | states |
|---|---|---|
| Util.Sub32 | src/WateringController.cpp:178 | the wrapping 32-bit difference `a - b`: adding `b` back gives `a` modulo 2^32 |
| Util.ToU32 | src/main.cpp:559 | conversion of an int to `unsigned long`: congruent to the input modulo 2^32 |
| ModbusCrc.CalculateCrc | src/communication/SP3485ModbusClient.cpp:72-95 | the nested loop over a 16-bit register returns `Crc16` of the first `length` bytes |
| ModbusCrc.CrcEmpty | src/communication/SP3485ModbusClient.cpp:74 | the CRC of an empty buffer is the initial value 0xFFFF |
| ModbusCrc.CrcConcat | src/communication/SP3485ModbusClient.cpp:76-92 | the CRC of a concatenation is the CRC of the second part, started from the CRC of the first |
| ModbusCrc.CrcAppendByte | src/communication/SP3485ModbusClient.cpp:76-92 | appending a byte folds exactly that byte into the running CRC |
| ModbusCrc.RoundsInjective | src/communication/SP3485ModbusClient.cpp:80-90 | any number of shift rounds maps distinct registers to distinct registers |
| ModbusCrc.UpdateInjective | src/communication/SP3485ModbusClient.cpp:78-90 | folding a fixed byte into distinct CRCs gives distinct CRCs |
| ModbusCrc.TrailerResidue | src/communication/SP3485ModbusClient.cpp:118-129 | folding two bytes, low byte first, into a CRC gives 0 exactly when they are that CRC |
| ModbusCrc.CrcCheckIsResidue | src/communication/SP3485ModbusClient.cpp:204-216 | a frame whose last two bytes are the CRC of the rest, low byte first, is exactly a frame whose CRC over all bytes is 0 |
| ModbusCrc.AppendedCrcLeavesZero | src/communication/SP3485ModbusClient.cpp:118-129 | a buffer followed by its own CRC, low byte first, has CRC 0 |
| ModbusClient.RequestFrameLayout | src/communication/SP3485ModbusClient.cpp:117-129 | bytes 2-3 and 4-5 of a request read back, high byte first, as the two words, and bytes 6-7, low byte first, as the CRC of bytes 0-5 |
| ModbusClient.RequestFrame | src/communication/SP3485ModbusClient.cpp:117-129 | a request is 8 bytes: address, function code and the two words high byte first, then the CRC of those six bytes low byte first; the CRC over all 8 bytes is 0 |
| ModbusClient.DecodeEncodeRegisters | src/communication/SP3485ModbusClient.cpp:218-226 | decoding big-endian byte pairs gives back the register list they encode |
| ModbusClient.CheckReadResponse | src/communication/SP3485ModbusClient.cpp:165-216 | validation of a read reply in the firmware's order, with a 5-byte exception reply not rejected as short. The first check that fails picks the code: a reply of the wrong length that is not an exception reply is 3, a wrong address 4, function 0x83 is 100 plus the exception code, any other function 5, a wrong byte count 6, and a frame whose CRC residue is not zero 7. An accepted reply carries exactly `count` registers, whose meaning `ReadResponseAccepted` proves. This is the corrected half of the first finding; the client itself uses `CheckReadResponseAsWritten` |
| ModbusClient.CheckReadResponseAsWritten | src/communication/SP3485ModbusClient.cpp:163-216 | the same validation with the length check as written: any reply of other than 5 + 2*count bytes is code 3. On a reply of the full length, a wrong address is 4, function 0x83 is 100 plus the exception code, any other function 5, a wrong byte count 6, and a nonzero CRC residue 7. An accepted reply carries exactly `count` registers. The client's read path uses this validation |
| ModbusClient.ReadResponseAccepted | src/communication/SP3485ModbusClient.cpp:165-226 | a reply is accepted exactly when it is well formed, and register i is then bytes 3+2i and 4+2i, high byte first |
| ModbusClient.AcceptedIffWellFormed | src/communication/SP3485ModbusClient.cpp:165-216 | the reply checks accept a reply if and only if it has the full length, the device's address, function 0x03, byte count 2*count and a CRC residue of zero |
| ModbusClient.AcceptedRegisters | src/communication/SP3485ModbusClient.cpp:218-226 | an accepted reply has length 5 + 2*count, and its registers are the big-endian pairs after the byte count |
| ModbusClient.ReadRoundTrip | src/communication/SP3485ModbusClient.cpp:165-226 | every register list survives the device's reply and the master's validation |
| ModbusClient.ExceptionReplyReported | src/communication/SP3485ModbusClient.cpp:180-187 | with the corrected validation, an exception reply to a one-register read yields code 100 plus the exception code |
| ModbusClient.ExceptionReplyAsWritten | src/communication/SP3485ModbusClient.cpp:147-169 | as written, the same 5-byte exception reply yields code 3 |
| ModbusClient.ExceptionReplyReadAsWritten | src/communication/SP3485ModbusClient.cpp:97-231 | through the whole read as written: an initialized master whose device answers a one-register read with an exception reply fails with code 3 and counts one error |
| ModbusClient.CheckDiffersOnlyOnExceptionReplies | src/communication/SP3485ModbusClient.cpp:147-216 | the corrected and as-written validations differ only on 5-byte exception replies to reads of at least one register |
| ModbusClient.ReceiveLength | src/communication/SP3485ModbusClient.cpp:151-162 | the receive loop with the exception reply recognised, the corrected half of the first finding: it never takes more than arrived, nor more than the expected length |
| ModbusClient.ReceiveLengthAsWritten | src/communication/SP3485ModbusClient.cpp:151-162 | the receive loop as written, which the client uses, waiting for the full expected length: it never takes more than arrived, nor more than expected |
| ModbusClient.WriteEchoAccepted | src/communication/SP3485ModbusClient.cpp:285-321 | the echo check of a write reply passes exactly when the reply is the request's own 8 bytes |
| ModbusClient.CheckWriteEcho | src/communication/SP3485ModbusClient.cpp:288-317 | code 0 exactly when 8 bytes arrived, the first six echo the request and the last two are their CRC. A reply of other than 8 bytes is code 3, one whose head differs from the request's 8, and one with the right head but a nonzero CRC residue 7 |
| ModbusClient.LinkInitialize | src/communication/SP3485ModbusClient.cpp:23-58 | `initialize()` succeeds exactly when the client was initialized or has a serial port, and exactly when it leaves the client initialized; an initialized client is untouched; no port is code 1; a fresh start clears the code and discards the received bytes; counters and timeout are kept |
| ModbusClient.LinkInitOnce | src/communication/SP3485ModbusClient.cpp:25-28 | after a successful `initialize()`, a second one changes nothing and succeeds |
| ModbusClient.LinkRead | src/communication/SP3485ModbusClient.cpp:97-231 | `readHoldingRegisters`, with the validation as written: a lazy init failure counts as an error; a successful read returns `count` registers with code 0; exactly one counter moves, by one |
| ModbusClient.LinkWrite | src/communication/SP3485ModbusClient.cpp:233-322 | `writeSingleRegister`: exactly one counter moves, by one, and the success counter moves exactly when the write succeeds |
| ModbusClient.ReadExchange | src/communication/SP3485ModbusClient.cpp:110-231 | a read on a ready transport: the bound on the count, one request on the line, and the as-written receive and validation of its answer; success moves the success counter and returns `count` registers, failure the error counter with a nonzero code |
| ModbusClient.ReadReply | src/communication/SP3485ModbusClient.cpp:145-231 | what a read makes of the bytes arriving after its request: accepted replies give exactly `count` registers and move the success counter, rejected ones a nonzero code on the error counter; the bytes sent and the device's scripted answers are untouched |
| ModbusClient.WriteExchange | src/communication/SP3485ModbusClient.cpp:246-321 | a write on a ready transport: one request on the line and the echo check of its answer |
| ModbusClient.OversizedReadSendsNothing | src/communication/SP3485ModbusClient.cpp:110-115 | more than 125 registers fails with code 2 and one more error, before anything is drained or sent |
| ModbusClient.ReadOfAnsweringDevice | src/communication/SP3485ModbusClient.cpp:117-231 | an initialized master sends exactly the read request, for any count up to 125 and including 0. A device answering with the well-formed reply for `values` yields `values` |
| ModbusClient.AnswerTakenWhole | src/communication/SP3485ModbusClient.cpp:151-162 | the receive loop takes a device's whole reply to a read |
| ModbusClient.SP3485ModbusClient.Initialize | src/communication/SP3485ModbusClient.cpp:23-58 | runs once; without a serial port it sets code 1; otherwise it drains the line and marks the client initialized |
| ModbusClient.SP3485ModbusClient.Drain | src/communication/SP3485ModbusClient.cpp:131-135 | the bytes waiting on the line are discarded, and nothing else changes |
| ModbusClient.SP3485ModbusClient.Send | src/communication/SP3485ModbusClient.cpp:131-143 | the line is drained, the frame is logged as written, and the device's answer to it starts arriving |
| ModbusClient.SP3485ModbusClient.ReceiveEcho | src/communication/SP3485ModbusClient.cpp:273-286 | the write's receive loop takes the first min(arrived, 8) bytes into `response` and removes exactly those from the line |
| ModbusClient.SP3485ModbusClient.Receive | src/communication/SP3485ModbusClient.cpp:151-162 | the receive loop, as written, fills `response` with the first `ReceiveLengthAsWritten` bytes delivered and removes exactly those from the line |
| ModbusClient.SP3485ModbusClient.ReadHoldingRegisters | src/communication/SP3485ModbusClient.cpp:97-231 | new state and line as `LinkRead` (as written) says; on success `buffer[i]` is register i for every i < count; a null buffer is not written, and on failure the buffer is unchanged |
| ModbusClient.SP3485ModbusClient.ExchangeRead | src/communication/SP3485ModbusClient.cpp:110-231 | the read after the transport is ready, as `ReadExchange` (as written) says, with the buffer filled on success only |
| ModbusClient.SP3485ModbusClient.ReceiveReadReply | src/communication/SP3485ModbusClient.cpp:145-231 | the receive loop and the reply checks, as `ReadReply` says; registers reach the caller's buffer only when the reply is accepted, and no other buffer entry changes |
| ModbusClient.SP3485ModbusClient.WriteSingleRegister | src/communication/SP3485ModbusClient.cpp:233-322 | new state and line as `LinkWrite` says |
| ModbusClient.SP3485ModbusClient.GetLastError | src/communication/SP3485ModbusClient.cpp:324-327 | the last error code |
| ModbusClient.SP3485ModbusClient.SetTimeout | src/communication/SP3485ModbusClient.cpp:329-332 | only the timeout changes |
| ModbusClient.SP3485ModbusClient.GetStatistics | src/communication/SP3485ModbusClient.cpp:334-345 | the success and error counters, with nothing changed |
| SoilSensor.Signed16 | src/sensors/ModbusSoilSensor.cpp:81 | a register as a two's-complement number: in [-32768, 32767], congruent to the register modulo 2^16, and negative exactly from 0x8000 up |
| SoilSensor.PlausibleIffRaw | src/sensors/ModbusSoilSensor.cpp:91-98 | the range check on the scaled values is r0 <= 1000, -400 <= int16(r1) <= 800, 30 <= r2 <= 90 and r7 <= 1000 on the raw registers |
| SoilSensor.NutrientsIrrelevant | src/sensors/ModbusSoilSensor.cpp:91-98 | conductivity, nitrogen, phosphorus and potassium never decide acceptance |
| SoilSensor.NegativeTemperatures | src/sensors/ModbusSoilSensor.cpp:81 | a temperature register from 0x8000 up decodes to a temperature below zero |
| SoilSensor.SoilInit | src/sensors/ModbusSoilSensor.cpp:32-58 | `initialize()`: an initialized sensor is left as it is and reports success. Otherwise it succeeds exactly when a client is present, the transport starts and the one-register probe of the moisture register returns registers; success then gives code 0. Without a client it is code 1 with no line traffic, a transport that does not start gives 2, and an unanswered probe 3. The readings are never touched |
| SoilSensor.SoilRead | src/sensors/ModbusSoilSensor.cpp:60-102 | `read()`: a failed initialization is that failure. A failed eight-register read leaves code 4 with the readings as they were. It succeeds exactly when it leaves code 0, with plausible readings; a failure leaves one of codes 1-5 |
| SoilSensor.SoilAvailable | src/sensors/ModbusSoilSensor.cpp:104-116 | `isAvailable()`: an uninitialized sensor is initialized, with that result. On an initialized one the answer is the one-register probe of the moisture register: true exactly when a client is present and the probe returns registers, with the sensor state unchanged. The stored readings are never touched |
| SoilSensor.ReadOutcome | src/sensors/ModbusSoilSensor.cpp:60-102 | a read succeeds exactly when initialization succeeds, the 8-register read returns values and they pass the range check; the readings are then the decoded values |
| SoilSensor.FailedReadKeepsReadings | src/sensors/ModbusSoilSensor.cpp:68-98 | every failure other than the range check leaves the readings unchanged; a range failure (code 5) leaves the rejected, out-of-range values stored |
| SoilSensor.InitOnce | src/sensors/ModbusSoilSensor.cpp:34-36 | initialization of an initialized sensor changes nothing and sends nothing |
| SoilSensor.NoClientNoTraffic | src/sensors/ModbusSoilSensor.cpp:38-41 | without a client, initialization records code 1 and nothing is sent |
| SoilSensor.InitKeepsValid | src/sensors/ModbusSoilSensor.cpp:32-58 | an initialized sensor always has an initialized transport behind it, after `initialize()` too |
| SoilSensor.ReadKeepsValid | src/sensors/ModbusSoilSensor.cpp:60-102 | the same after `read()` |
| SoilSensor.AvailableKeepsValid | src/sensors/ModbusSoilSensor.cpp:104-116 | the same after `isAvailable()` |
| SoilSensor.ReadOfAnsweringSensor | src/sensors/ModbusSoilSensor.cpp:66-101 | an initialized sensor whose device answers sends one request for registers 0-7, stores their decoding, and succeeds exactly when it is in range |
| SoilSensor.ModbusSoilSensor.Initialize | src/sensors/ModbusSoilSensor.cpp:32-58 | sensor, transport and line move as `SoilInit` says |
| SoilSensor.ModbusSoilSensor.Read | src/sensors/ModbusSoilSensor.cpp:60-102 | sensor, transport and line move as `SoilRead` says |
| SoilSensor.ModbusSoilSensor.ReadRegisters | src/sensors/ModbusSoilSensor.cpp:68-101 | the eight-register read of an initialized sensor and the conversion move sensor, transport and line as `ReadAll` says, keeping the sensor valid |
| SoilSensor.ModbusSoilSensor.Convert | src/sensors/ModbusSoilSensor.cpp:78-101 | the eight fields become the decoded registers; the result is the range check, and the code is 0 or 5 accordingly |
| SoilSensor.ModbusSoilSensor.IsAvailable | src/sensors/ModbusSoilSensor.cpp:104-116 | sensor, transport and line move as `SoilAvailable` says |
| SoilSensor.ModbusSoilSensor.GetLastError | src/sensors/ModbusSoilSensor.cpp:118-121 | the last error code |
| EnvSensor.Hectopascals | src/sensors/BME280Sensor.cpp:62 | pascals to hectopascals; NaN stays NaN |
| EnvSensor.EnvInit | src/sensors/BME280Sensor.cpp:28-51 | succeeds exactly when the sensor was initialized or the chip answers, and exactly when it leaves the sensor initialized; an initialized sensor is untouched; a missing chip is code 1; the samples are never touched |
| EnvSensor.EnvRead | src/sensors/BME280Sensor.cpp:53-73 | succeeds exactly when the chip is or becomes initialized and all three samples are numbers; an absent chip only records code 1; otherwise all three are stored, the pressure in hectopascals, with code 0 or, for a NaN sample, 2 |
| EnvSensor.EnvAvailable | src/sensors/BME280Sensor.cpp:75-81 | available exactly when initialized or the chip now answers; it is initialization |
| EnvSensor.EnvReadOutcome | src/sensors/BME280Sensor.cpp:53-73 | a read succeeds exactly when the chip is or becomes initialized and all three samples are numbers; they are then stored with code 0 |
| EnvSensor.EnvReadFailures | src/sensors/BME280Sensor.cpp:28-73 | an absent chip only records code 1; a NaN sample is stored all the same, with code 2 |
| EnvSensor.EnvInitOnce | src/sensors/BME280Sensor.cpp:28-81 | initialization happens once; it succeeds exactly when it leaves the sensor initialized; `isAvailable()` is initialization |
| EnvSensor.BME280Sensor.Initialize | src/sensors/BME280Sensor.cpp:28-51 | the state moves as `EnvInit` says |
| EnvSensor.BME280Sensor.Read | src/sensors/BME280Sensor.cpp:53-73 | the state moves as `EnvRead` says |
| EnvSensor.BME280Sensor.IsAvailable | src/sensors/BME280Sensor.cpp:75-81 | the state moves as `EnvAvailable` says |
| Pump.PumpOperationsKeepValid | src/actuators/WaterPump.cpp:30-169 | no operation leaves an uninitialized pump running |
| Pump.PumpInitialize | src/actuators/WaterPump.cpp:30-43 | the pump is initialized afterwards, with code 0 if it was not before; an initialized pump is untouched; the run state is never touched |
| Pump.PumpStart | src/actuators/WaterPump.cpp:60-79 | the pump runs, initialized, from `now`, without a duration and in automatic mode; the code is kept, or 0 after a first initialization |
| Pump.PumpStop | src/actuators/WaterPump.cpp:81-100 | succeeds exactly when initialized, and then the pump is off and out of manual mode even when it was already off; an uninitialized pump only gets code 1; start time and duration are kept |
| Pump.PumpRunFor | src/actuators/WaterPump.cpp:102-123 | 0 seconds is `stop()`; otherwise it succeeds with a running, initialized manual run of `seconds` seconds from `now` |
| Pump.CheckTimedRun | src/actuators/WaterPump.cpp:146-169 | a valid pump is never left overdue; an overdue initialized pump is stopped, out of manual mode, its duration kept; a pump that is not overdue is untouched |
| Pump.RunTime | src/actuators/WaterPump.cpp:131-139 | 0 when stopped, else the whole seconds elapsed since the start (32-bit), rounded down |
| Pump.InitializeIdempotent | src/actuators/WaterPump.cpp:30-43 | initializing twice is initializing once; afterwards the pump is initialized, with code 0 if it was not before |
| Pump.StartedPumpNeverExpires | src/actuators/WaterPump.cpp:60-79 | `start()` runs from `now` in automatic mode without a duration, so the timed check never ends it |
| Pump.StopBehaviour | src/actuators/WaterPump.cpp:81-100 | stopping an uninitialized pump only sets code 1; stopping an initialized one succeeds even when already stopped, clears manual mode, and keeps the duration; stopping twice is stopping once |
| Pump.RunForZeroIsStop | src/actuators/WaterPump.cpp:104-107 | `runFor(0)` is exactly `stop()` |
| Pump.TimedRunEndsOnTime | src/actuators/WaterPump.cpp:102-169 | `runFor(s > 0)` is a running manual run of `s` seconds, and the timed check ends it exactly when `s*1000` ms (32-bit) have passed |
| Pump.CheckedPumpNotOverdue | src/actuators/WaterPump.cpp:125-169 | after the timed check no run is overdue; an unexpired pump is left alone |
| Pump.UntimedRunNeverExpires | src/actuators/WaterPump.cpp:146-169 | a run without a duration never ends by itself |
| Pump.RunTimeBounds | src/actuators/WaterPump.cpp:131-139 | the run time is the elapsed time in whole seconds, rounded down |
| Pump.WaterPump.Initialize | src/actuators/WaterPump.cpp:30-43 | always succeeds, as `PumpInitialize` says |
| Pump.WaterPump.Start | src/actuators/WaterPump.cpp:60-79 | always succeeds, as `PumpStart` says |
| Pump.WaterPump.Stop | src/actuators/WaterPump.cpp:81-100 | as `PumpStop` says |
| Pump.WaterPump.RunFor | src/actuators/WaterPump.cpp:102-123 | as `PumpRunFor` says |
| Pump.WaterPump.IsRunning | src/actuators/WaterPump.cpp:125-129 | runs the timed check first, then reports `running` |
| Pump.WaterPump.Update | src/actuators/WaterPump.cpp:171-174 | the timed check |
| Pump.WaterPump.CheckTimedRunNow | src/actuators/WaterPump.cpp:146-169 | the state moves as `CheckTimedRun` says |
| Pump.WaterPump.IsAvailable | src/actuators/WaterPump.cpp:45-48 | whether the pump is initialized |
| Pump.WaterPump.GetRunTime | src/actuators/WaterPump.cpp:131-139 | 0 when stopped, else the whole seconds since the start, rounded down |
| Pump.WaterPump.GetRunDuration | src/actuators/WaterPump.cpp:141-144 | the duration of the timed run, 0 for an open-ended one |
| Pump.WaterPump.IsManualMode | src/actuators/WaterPump.cpp:176-179 | the manual flag |
| Pump.WaterPump.SetManualMode | src/actuators/WaterPump.cpp:181-185 | only the manual flag changes |
| Storage.FileNameIsJson | src/storage/LittleFSStorage.cpp:59-63 | the data path is the folder, a slash and the file name id + "_" + type + ".json", and that file name ends in ".json" |
| Storage.FilterConcat | src/storage/LittleFSStorage.cpp:226-233 | filtering a concatenation filters each part |
| Storage.FilterMembers | src/storage/LittleFSStorage.cpp:226-233 | a reading is in the filtered series exactly when it is in the series and accepted |
| Storage.FilterKeepsAll | src/storage/LittleFSStorage.cpp:320-330 | nothing is removed exactly when every reading is accepted, and the series is then unchanged |
| Storage.FilterIdempotent | src/storage/LittleFSStorage.cpp:226-233 | filtering twice with the same test is filtering once |
| Storage.LatestIndex | src/storage/LittleFSStorage.cpp:269-286 | the position the search reports: -1, or a valid index whose timestamp is positive |
| Storage.LatestIsFirstMaximum | src/storage/LittleFSStorage.cpp:269-286 | the search finds nothing exactly when no timestamp is positive; otherwise it finds the first reading with the greatest positive timestamp |
| Storage.PruneFileEffect | src/storage/LittleFSStorage.cpp:306-344 | pruning one entry leaves the folder's names and every other entry unchanged; the entry holds its readings not older than the cutoff; the count removed plus what remains is what was there |
| Storage.PruneAllEffect | src/storage/LittleFSStorage.cpp:306-344 | after the pass, every listed JSON series holds exactly its readings not older than the cutoff, in order; every other entry is unchanged |
| Storage.NoOldReadingsLeft | src/storage/LittleFSStorage.cpp:306-344 | no listed series holds a reading older than the cutoff after the pass |
| Storage.TotalSizeFrame | src/storage/LittleFSStorage.cpp:306-344 | the total size of listed entries depends only on those entries |
| Storage.PruneCount | src/storage/LittleFSStorage.cpp:306-346 | the reported count is exactly the number of readings that disappeared from the listed files |
| Storage.StoreReadingKeepsValid | src/storage/LittleFSStorage.cpp:142-191 | storing keeps the folder listing naming every data file exactly once |
| Storage.PruneKeepsValid | src/storage/LittleFSStorage.cpp:289-347 | so does pruning |
| Storage.StoreInit | src/storage/LittleFSStorage.cpp:25-57 | succeeds exactly when already initialized or the flash mounts and the folder exists, and exactly when it leaves storage initialized; only the flag and the code change: 1 when the flash does not mount, 2 when the folder cannot be made, 0 on a first success |
| Storage.StoreConfig | src/storage/LittleFSStorage.cpp:65-106 | succeeds exactly when storage starts; it then holds a readable configuration with `key` set to `value` and every other key as it was readable before; data files are never touched |
| Storage.GetConfig | src/storage/LittleFSStorage.cpp:108-140 | the stored value of `key` when storage starts and the file holds the key, else the default; code 5 only for an unparseable file; nothing but the code and the start-up changes |
| Storage.StoreReading | src/storage/LittleFSStorage.cpp:142-191 | succeeds exactly when storage starts; the reading is then appended to its file, a new file is added to the listing, every other file is unchanged, and the configuration is never touched |
| Storage.GetReadings | src/storage/LittleFSStorage.cpp:193-239 | the readings of the file inside the closed window when storage starts, else none; code 5 only for a corrupt file; nothing but the code and the start-up changes |
| Storage.LastReading | src/storage/LittleFSStorage.cpp:241-287 | the latest value of the file when storage starts, else NaN; code 5 only for a corrupt file; nothing but the code and the start-up changes |
| Storage.Prune | src/storage/LittleFSStorage.cpp:289-347 | without storage, 0 and nothing pruned; otherwise only data files change, no file disappears, and with a listing that names each file once the count is exactly the readings that disappeared |
| Storage.StoreThenGetConfig | src/storage/LittleFSStorage.cpp:65-140 | after `storeConfig(k, v)`, `getConfig(k, _)` is `v`; other keys keep their values, or read as their defaults when the file had not parsed |
| Storage.GetConfigDefaults | src/storage/LittleFSStorage.cpp:108-140 | the default comes back for a missing file, an unparseable one (code 5) and a missing key |
| Storage.FailedStartChangesOnlyCode | src/storage/LittleFSStorage.cpp:25-46 | storage that cannot start stores nothing and answers queries with NaN or nothing |
| Storage.StoreReadingAppends | src/storage/LittleFSStorage.cpp:142-191 | a reading is appended at the end of its file; a missing or corrupt file starts afresh with it; other files are untouched |
| Storage.StoreThenQuery | src/storage/LittleFSStorage.cpp:142-239 | a window query after a store sees what it saw before, followed by the new reading when its timestamp is in the window |
| Storage.StoreThenLatest | src/storage/LittleFSStorage.cpp:142-287 | a reading stored with a positive timestamp beyond all others is the latest one |
| Storage.Filter | src/storage/LittleFSStorage.cpp:226-233 | the filtered series is no longer than the series |
| Storage.FilterReadings | src/storage/LittleFSStorage.cpp:226-233 | the filter loop returns exactly `Filter(rs, keep)` |
| Storage.FindLatest | src/storage/LittleFSStorage.cpp:269-286 | the search loop returns exactly `LatestValue(rs)` |
| Storage.LittleFSStorage.Default | include/storage/LittleFSStorage.h:51-52 | the constructor with its default arguments: the configuration file `/config.json` and the data folder `/data`, with the storage not yet started and its invariant holding |
| Storage.LittleFSStorage.Initialize | src/storage/LittleFSStorage.cpp:25-57 | runs once; code 1 when the flash does not mount, 2 when the data folder cannot be made |
| Storage.LittleFSStorage.GetSensorDataFilename | src/storage/LittleFSStorage.cpp:59-63 | the path is `DataFilename(dataFolder, id, type)` |
| Storage.LittleFSStorage.StoreConfigValue | src/storage/LittleFSStorage.cpp:65-106 | as `StoreConfig` says |
| Storage.LittleFSStorage.GetConfigValue | src/storage/LittleFSStorage.cpp:108-140 | as `GetConfig` says |
| Storage.LittleFSStorage.StoreSensorReading | src/storage/LittleFSStorage.cpp:142-191 | as `StoreReading` says, keeping the listing naming every data file exactly once |
| Storage.LittleFSStorage.GetSensorReadings | src/storage/LittleFSStorage.cpp:193-239 | as `GetReadings` says |
| Storage.LittleFSStorage.GetLastSensorReading | src/storage/LittleFSStorage.cpp:241-287 | as `LastReading` says |
| Storage.LittleFSStorage.PruneOldReadings | src/storage/LittleFSStorage.cpp:289-347 | as `Prune` says: every listed entry pruned in turn, and the total count; the listing still names every data file exactly once |
| Storage.LittleFSStorage.PruneListed | src/storage/LittleFSStorage.cpp:300-344 | the pass over the folder listing: the files and the pruned total are those of `PruneAll` over the listing, and nothing but the files changes |
| ReservoirFill.OperationsKeepFillValid | src/main.cpp:486-594 | every operation keeps the running flag in agreement with the pump, and the pump without a timed run |
| ReservoirFill.Handle | src/main.cpp:486-531 | the enabled flag is kept; with the feature on the switches are recorded; on a valid state a disabled pass leaves the pump off, a running pump keeps running exactly when the level is not high and the timeout has not passed, and an idle one starts exactly when low and not high |
| ReservoirFill.StartManualAsWritten | src/main.cpp:538-566 | accepted exactly when the feature is on and the reservoir is not full; an accepted fill runs the pump from `now`, and for 1 to 300 seconds its start is backdated so that exactly `seconds` seconds remain before the timeout |
| ReservoirFill.StartManual | src/main.cpp:538-566 | the same, with every request above 300 seconds held to 300: exactly `min(seconds, 300)` seconds remain before the timeout |
| ReservoirFill.StopFill | src/main.cpp:571-577 | afterwards nothing runs; a stopped pump is untouched; the feature and level flags are kept |
| ReservoirFill.EnableFill | src/main.cpp:583-594 | the flag is set; enabling, or disabling an idle pump, changes nothing else; disabling stops a running pump |
| ReservoirFill.DisabledOnlyStops | src/main.cpp:488-496 | with the feature off, a pass only stops a running pump and clears the flag |
| ReservoirFill.RunningStopsOnHighOrTimeout | src/main.cpp:503-521 | a running pump stops exactly when the high level is seen or more than 300000 ms have passed |
| ReservoirFill.IdleStartsOnLowLevel | src/main.cpp:524-530 | an idle pump starts exactly when the level is low and not high, from `now` |
| ReservoirFill.ManualFillRefused | src/main.cpp:538-551 | a manual fill with the feature off or the reservoir full is refused, with only the high-level flag updated |
| ReservoirFill.ElapsedFromBackdated | src/main.cpp:503-560 | the elapsed time from a start backdated by `back` ms is the real elapsed time plus `back`, in 32-bit arithmetic |
| ReservoirFill.ManualFillRunsForItsTime | src/main.cpp:503-566 | after an accepted manual fill of `s` seconds, with the high switch open, the pump still runs at a later pass exactly when at most `min(s, 300)` seconds have passed (300 s when `s` is 0) |
| ReservoirFill.LongManualFillStopsAtOnceAsWritten | src/main.cpp:503-560 | as written, a manual fill of more than 300 s ends at the very next pass |
| ReservoirFill.BackdatingAgreesUpToFiveMinutes | src/main.cpp:558-560 | for at most 300 s the firmware's start time and the held one agree |
| ReservoirFill.StopAndEnable | src/main.cpp:571-594 | stopping twice is stopping once; enabling only sets the flag; disabling also stops the pump |
| ReservoirFill.Reservoir.HandleReservoirPump | src/main.cpp:486-531 | globals and pump move as `Handle` says |
| ReservoirFill.Reservoir.StartManualReservoirFilling | src/main.cpp:538-566 | globals and pump move as `StartManualAsWritten` says |
| ReservoirFill.Reservoir.StopReservoirPump | src/main.cpp:571-577 | as `StopFill` says |
| ReservoirFill.Reservoir.EnableReservoirPump | src/main.cpp:583-594 | as `EnableFill` says |
| ReservoirFill.Reservoir.IsReservoirPumpEnabled | src/main.cpp:600-602 | the enabled flag |
| ReservoirFill.Reservoir.GetReservoirStatus | src/main.cpp:611-627 | always true; the switches and the running flag, for each output the caller asks for |
| Controller.InitAllOrNothing | src/WateringController.cpp:49-98 | initialization succeeds exactly when storage, environmental and soil sensor all start; only then is the controller initialized, with code 0 and the schedules reset; a failure leaves the code of the last failing component and the settings as they were |
| Controller.InitOnceAndMissing | src/WateringController.cpp:51-59 | an initialized controller does nothing; without every component only code 1 is recorded |
| Controller.CtlInit | src/WateringController.cpp:49-98 | an initialized controller is untouched; success exactly when the controller ends initialized; without every component only code 1; a first success clears the code and resets the three schedules; a failure keeps the settings and the pump's running flag |
| Controller.LoadConfig | src/WateringController.cpp:100-141 | only the settings and the start-up of storage change; without storage, a readable file or the key, the settings stay as they were |
| Controller.SaveConfig | src/WateringController.cpp:143-162 | only storage changes, never its data files; with storage started, the document of the current settings is stored under the settings key |
| Controller.CtlUpdate | src/WateringController.cpp:164-201 | a pass whose initialization fails is just that failure. Otherwise the controller stays initialized and keeps the settings it had after initialization. When no sensor read is due, the pump ends exactly as its timed check leaves it |
| Controller.ProcessReadings | src/WateringController.cpp:203-224 | a watering start needs watering enabled, moisture at most the low threshold and the minimum interval passed, and sets the watering time to `now`; with a duration the pump then runs for it, in manual mode; without a start the controller's own state is unchanged; only the pump and the watering time ever change |
| Controller.CtlManualWatering | src/WateringController.cpp:275-296 | succeeds exactly when initialization does; the pump then runs from `now` for `duration`, manual exactly when `duration > 0`, and the watering time becomes `now`; a failed initialization is all that happens |
| Controller.CtlStopWatering | src/WateringController.cpp:298-306 | succeeds exactly when controller and pump are initialized, and the pump is then off; before initialization only code 8; only the pump changes otherwise |
| Controller.CtlEnableWatering | src/WateringController.cpp:264-268 | the flag is set, only it and storage change, and with storage started the new settings are saved |
| Controller.CtlSetThresholdLow | src/WateringController.cpp:326-332 | a value outside [0, 100] changes nothing; an accepted one changes only that setting and storage, and is saved |
| Controller.CtlSetThresholdHigh | src/WateringController.cpp:334-340 | the same for the high threshold |
| Controller.CtlSetWateringDuration | src/WateringController.cpp:342-348 | a duration outside (0, 300] changes nothing; an accepted one changes only that setting and storage, and is saved |
| Controller.CtlSetMinWateringInterval | src/WateringController.cpp:350-356 | an interval of 0 changes nothing; an accepted one changes only that setting and storage, and is saved |
| Controller.InitKeepsValid | src/WateringController.cpp:49-98 | an initialized controller has all components, and its soil sensor an initialized transport, after `initialize()` too |
| Controller.UpdateKeepsValid | src/WateringController.cpp:164-201 | the same after `update()` |
| Controller.ReadStepKeepsValid | src/WateringController.cpp:177-194 | the same after the read branch |
| Controller.LogStepKeepsValid | src/WateringController.cpp:197-200 | the same after the log branch |
| Controller.AfterSoilReadFrame | src/WateringController.cpp:182-193 | what follows the soil read touches only the pump, the error code and the watering time |
| Controller.StartRule | src/WateringController.cpp:203-216 | the pump is started for the configured duration, and the watering time set, exactly when watering is enabled, the pump is not running after its timed check, moisture <= low threshold, and `minWateringInterval*1000` ms (32-bit) have passed |
| Controller.StopRule | src/WateringController.cpp:218-223 | when not started, a running pump is stopped exactly when moisture >= high threshold |
| Controller.MinIntervalGate | src/WateringController.cpp:211-212 | before the minimum interval no watering starts |
| Controller.ReadSchedule | src/WateringController.cpp:177-194 | sensors are read exactly when the read interval has passed, and the read time becomes `now`; otherwise nothing changes |
| Controller.EnvReadFailure | src/WateringController.cpp:179-191 | an environmental failure sets code 6 and skips the soil read and the decision |
| Controller.SoilReadFailure | src/WateringController.cpp:181-188 | a soil failure sets code 7 and skips the decision |
| Controller.LogSchedule | src/WateringController.cpp:197-200 | data is logged, and the log time becomes `now`, exactly when the log interval has passed; otherwise nothing changes |
| Controller.AppendOwn | src/WateringController.cpp:226-257 | each logged value is appended at the end of its own file |
| Controller.AppendOthers | src/WateringController.cpp:226-257 | and leaves every other file alone |
| Controller.LogEnvAppendsOnePerKey | src/WateringController.cpp:228-233 | the environmental log appends one reading, stamped with the wall clock, to each of its three files |
| Controller.UpdateOfInitialized | src/WateringController.cpp:164-201 | one pass of an initialized controller reads and logs by the schedule as it stood, and keeps the settings. Without a due sensor read, the pump is exactly as its timed check leaves it |
| Controller.UpdateWithoutStart | src/WateringController.cpp:166-170 | a pass whose lazy initialization fails does nothing else |
| Controller.SettingsRoundTrip | src/WateringController.cpp:100-162 | the saved document has exactly the seven keys, and loading it restores each of the seven settings |
| Controller.SaveThenLoad | src/WateringController.cpp:100-162 | through storage: settings saved and then loaded come back unchanged |
| Controller.SetterRanges | src/WateringController.cpp:264-356 | the setters accept thresholds in [0, 100], durations in (0, 300] and intervals > 0, and always accept enabling; a rejected value changes nothing, an accepted one changes only that setting and the storage |
| Controller.AcceptedSettingsPersist | src/WateringController.cpp:143-356 | with storage started, every accepted setting is saved: loading the configuration afterwards gives it back |
| Controller.ManualWateringEffect | src/WateringController.cpp:275-296 | after a successful lazy init, manual watering succeeds: a timed manual run for `duration > 0`, an open-ended automatic run for 0, and the watering time becomes `now`; a failed init returns false with nothing else done |
| Controller.StopBeforeInit | src/WateringController.cpp:298-306 | stopping before initialization sets code 8, returns false and leaves the pump alone |
| Controller.TimeSinceLastWatering | src/WateringController.cpp:317-324 | 0 before any watering, else the whole seconds elapsed since it (32-bit) |
| Controller.WateringController.constructor | src/WateringController.cpp:12-38 | defaults 60000 ms, 300000 ms, 21600 s, 30 %, 55 %, 20 s, watering enabled, uninitialized |
| Controller.WateringController.Initialize | src/WateringController.cpp:49-98 | controller and components move as `CtlInit` says |
| Controller.WateringController.LoadConfiguration | src/WateringController.cpp:100-141 | as `LoadConfig` says |
| Controller.WateringController.SaveConfiguration | src/WateringController.cpp:143-162 | as `SaveConfig` says |
| Controller.WateringController.Update | src/WateringController.cpp:164-201 | controller and components move as `CtlUpdate` says |
| Controller.WateringController.ProcessReadingsNow | src/WateringController.cpp:203-224 | as `ProcessReadings` says |
| Controller.WateringController.LogSensorData | src/WateringController.cpp:226-257 | only storage changes, as `LogEnv` then `LogSoil` say |
| Controller.WateringController.ManualWatering | src/WateringController.cpp:275-296 | as `CtlManualWatering` says |
| Controller.WateringController.StopWatering | src/WateringController.cpp:298-306 | as `CtlStopWatering` says |
| Controller.WateringController.EnableWatering | src/WateringController.cpp:264-268 | as `CtlEnableWatering` says |
| Controller.WateringController.SetMoistureThresholdLow | src/WateringController.cpp:326-332 | as `CtlSetThresholdLow` says |
| Controller.WateringController.SetMoistureThresholdHigh | src/WateringController.cpp:334-340 | as `CtlSetThresholdHigh` says |
| Controller.WateringController.SetWateringDuration | src/WateringController.cpp:342-348 | as `CtlSetWateringDuration` says |
| Controller.WateringController.SetMinWateringInterval | src/WateringController.cpp:350-356 | as `CtlSetMinWateringInterval` says |
| Controller.WateringController.GetLastError | src/WateringController.cpp:259-262 | the last error code |
| Controller.WateringController.IsWateringEnabled | src/WateringController.cpp:270-273 | the enabled flag |
| Controller.WateringController.GetCurrentMoisture | src/WateringController.cpp:308-315 | -1 before initialization or without a soil sensor, else its moisture |
| Controller.WateringController.GetTimeSinceLastWatering | src/WateringController.cpp:317-324 | as `TimeSinceLastWatering` says |

## Left out

- The CRC test vector: the claim that `01 03 00 00 00 01` has CRC 0x0A84, sent as `84 0A`, is not proved. Evaluating the 48 shift rounds on a literal is beyond what the verifier does cheaply. The model proves the general algebra of the checksum instead: concatenation, residue and trailer.
- Direction switching of the RS-485 driver, `delayMicroseconds`, `flush`, `yield` and real-time timeout polling have no observable effect on the bytes and are not represented. The line is a list of answers: the bytes that arrive within the timeout after each frame written. The timeout value is stored but bounds no wait.
- Bytes are integers in [0, 256), not bit vectors. The CRC's exclusive or is defined digit by digit on integers.
- Time does not advance within one call: every `millis()` of one call reads the same `now`.
- Floating point: moisture, thresholds and readings are exact reals. NaN exists only where the firmware produces it: BME280 samples and missing readings. A NaN threshold passed to a setter is not modelled.
- EnvSensor: the Adafruit BME280 driver and the I2C bus are not part of this model. The chip's presence and its three samples are parameters.
- Storage: the JSON and LittleFS layers are abstract. A file is what it parses to, or `Corrupt`/`BadConfig` when it does not parse. A saved settings document is its map of seven values, and serialization is taken as exact.
- Storage: a configuration value that is not a JSON object is a plain string, and loading ignores it. This covers an empty string, a parse failure and a non-object document alike.
- Storage: failures to open or create a file (codes 3, 4 and 6) are not modelled, because the abstract file system always opens. Subdirectories of the data folder and the exact name `file.name()` reports are not modelled either: each listed entry is a file name within the folder.
- Storage: `getStorageStats` and every `getName()` are not modelled; they only report constant or file-system data.
- Controller: `logSensorData` is modelled call by call. The one-reading-per-file property is proved for the three environmental values; for the soil values only the per-append lemmas `AppendOwn` and `AppendOthers` are proved.
- Controller: loading a setting converts the stored scalar the way it is most likely meant. A whole number fits an unsigned setting, and a number fits a threshold. Any other mismatch reads as 0 or false. The exact conversions of ArduinoJson are not modelled.
- Controller: the pump's `initialize()` cannot fail, so code 5 is never set. The pure model has no failing pump initialization.
- Controller: the destructor, which stops a running pump, is not modelled; the model has no object lifetimes.
- Reservoir: the `digitalRead` of the two level switches and the pump's GPIO are parameters, and the serial log messages are not modelled.

## Findings

The classes and the functions they follow keep the behaviour as written. Each corrected definition stands beside them, with the intended property proved about it.

| source | as written | input that shows it | evidently intended | confidence | as-written member | corrected member |
|---|---|---|---|---|---|---|
| src/communication/SP3485ModbusClient.cpp:147-187 | The receive loop waits for 5 + 2*count bytes, and an answer of any other length is code 3 before the function byte is looked at. A Modbus exception reply is 5 bytes long, so for every read of at least one register it is reported as incomplete. (With a count of 0 the expected length is 5 and the exception branch is reached.) | A read of one register, answered with the exception reply `[addr, 0x83, 0x02, crcLo, crcHi]`. | Report code 100 + exception code, as lines 180-187 do for an exception reply. | not executed | ModbusClient.CheckReadResponseAsWritten, ModbusClient.ReceiveLengthAsWritten, ModbusClient.ExceptionReplyAsWritten, ModbusClient.ExceptionReplyReadAsWritten | ModbusClient.CheckReadResponse, ModbusClient.ReceiveLength, ModbusClient.ExceptionReplyReported |
| src/main.cpp:558-560 | The start time of a manual fill is backdated by `300000 - seconds*1000` ms. For `seconds > 300` this is negative. Converted to unsigned, it puts the start in the future, so the next pass sees a huge elapsed time. | `startManualReservoirFilling(301)`, then one `handleReservoirPump()` with the level low. | A fill of at most the five-minute safety timeout, ending when the timeout fires. | not executed | ReservoirFill.StartManualAsWritten, ReservoirFill.LongManualFillStopsAtOnceAsWritten, ReservoirFill.Reservoir.StartManualReservoirFilling | ReservoirFill.StartManual, ReservoirFill.ManualFillRunsForItsTime |
