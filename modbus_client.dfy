/**
 * Modbus RTU master over an RS-485 line: request framing for Read Holding
 * Registers (0x03) and Write Single Register (0x06), response validation with
 * numeric error codes, and success / error counters.
 */
module ModbusClient {
  import opened ModbusCrc
  import opened SerialLine
  import opened Util

  const FnReadHolding: byte := 0x03
  const FnWriteSingle: byte := 0x06
  const FnReadException: byte := 0x83
  const MaxReadCount: U16 := 125
  const DefaultTimeoutMs: U32 := 1000

  const ErrNoSerial := 1
  const ErrRegisterCount := 2
  const ErrIncomplete := 3
  const ErrWrongAddress := 4
  const ErrWrongFunction := 5
  const ErrWrongByteCount := 6
  const ErrCrc := 7
  const ErrEchoMismatch := 8
  const ExceptionBase := 100

  /** An 8-byte request: address, function, two big-endian words, checksum low byte first. */
  function RequestFrame(addr: byte, fn: byte, a: U16, b: U16): (f: seq<byte>)
    ensures |f| == 8 && f[..6] == [addr, fn, Hi(a), Lo(a), Hi(b), Lo(b)]
    ensures f[6] == Lo(Crc16(f[..6])) && f[7] == Hi(Crc16(f[..6]))
    ensures Crc16(f) == 0
  {
    var head := [addr, fn, Hi(a), Lo(a), Hi(b), Lo(b)];
    AppendedCrcLeavesZero(head);
    assert (head + [Lo(Crc16(head)), Hi(Crc16(head))])[..6] == head;
    head + [Lo(Crc16(head)), Hi(Crc16(head))]
  }

  function ReadRequestFrame(addr: byte, start: U16, count: U16): seq<byte> {
    RequestFrame(addr, FnReadHolding, start, count)
  }

  function WriteRequestFrame(addr: byte, register: U16, value: U16): seq<byte> {
    RequestFrame(addr, FnWriteSingle, register, value)
  }

  /** Every request is eight bytes whose trailer is the checksum of the first six, so its residue is zero. */
  lemma RequestFrameLayout(addr: byte, fn: byte, a: U16, b: U16)
    ensures var f := RequestFrame(addr, fn, a, b);
            && |f| == 8
            && f[..6] == [addr, fn, Hi(a), Lo(a), Hi(b), Lo(b)]
            && Word(f[2], f[3]) == a && Word(f[4], f[5]) == b
            && Word(f[7], f[6]) == Crc16(f[..6])
            && Crc16(f) == 0
  {
    var f := RequestFrame(addr, fn, a, b);
    WordOfBytes(a);
    WordOfBytes(b);
    WordOfBytes(Crc16(f[..6]));
  }

  datatype ReadResult = Registers(values: seq<U16>) | Failed(code: int)

  /** The error code a result leaves in `lastError`. */
  function CodeOf(r: ReadResult): int {
    if r.Registers? then 0 else r.code
  }

  /** Address, function, byte count, two bytes per register and the two checksum bytes. */
  function ExpectedReadLength(count: nat): nat {
    5 + 2 * count
  }

  /** A 5-byte exception reply: address, 0x83, exception code, checksum. */
  predicate IsExceptionReply(got: seq<byte>) {
    |got| == 5 && got[1] == FnReadException
  }

  /** Big-endian register words from their byte pairs. */
  function DecodeRegisters(data: seq<byte>): seq<U16>
    decreases |data|
  {
    if |data| < 2 then [] else [Word(data[0], data[1])] + DecodeRegisters(data[2..])
  }

  /** The bytes of each register, high byte first. */
  function EncodeRegisters(values: seq<U16>): seq<byte>
    decreases |values|
  {
    if |values| == 0 then [] else [Hi(values[0]), Lo(values[0])] + EncodeRegisters(values[1..])
  }

  lemma {:induction false} DecodeRegistersAt(data: seq<byte>)
    ensures |DecodeRegisters(data)| == |data| / 2
    ensures forall i :: 0 <= i < |data| / 2 ==> DecodeRegisters(data)[i] == Word(data[2 * i], data[2 * i + 1])
    decreases |data|
  {
    if |data| >= 2 {
      DecodeRegistersAt(data[2..]);
      forall i | 1 <= i < |data| / 2
        ensures DecodeRegisters(data)[i] == Word(data[2 * i], data[2 * i + 1])
      {
        assert DecodeRegisters(data)[i] == DecodeRegisters(data[2..])[i - 1];
        assert data[2..][2 * (i - 1)] == data[2 * i];
        assert data[2..][2 * (i - 1) + 1] == data[2 * i + 1];
      }
    }
  }

  lemma {:induction false} EncodeRegistersLength(values: seq<U16>)
    ensures |EncodeRegisters(values)| == 2 * |values|
    decreases |values|
  {
    if |values| > 0 {
      EncodeRegistersLength(values[1..]);
    }
  }

  /** Decoding the big-endian bytes of a register list gives the list back. */
  lemma {:induction false} DecodeEncodeRegisters(values: seq<U16>)
    ensures DecodeRegisters(EncodeRegisters(values)) == values
    decreases |values|
  {
    if |values| > 0 {
      var e := EncodeRegisters(values);
      EncodeRegistersLength(values[1..]);
      assert e[2..] == EncodeRegisters(values[1..]);
      DecodeEncodeRegisters(values[1..]);
      WordOfBytes(values[0]);
    }
  }

  /** The trailer comparison on a frame of `n` bytes is the whole-frame residue test. */
  lemma ResidueOfLength(got: seq<byte>, n: nat)
    ensures |got| == n >= 2 ==> (Word(got[n - 1], got[n - 2]) == Crc16(got[..n - 2]) <==> Crc16(got) == 0)
  {
    if |got| == n >= 2 {
      CrcCheckIsResidue(got);
    }
  }

  /**
   * Validation of a read reply, in the transport's order: length, address,
   * function (0x83 is an exception carrying its code), byte count, checksum.
   * A 5-byte exception reply is not rejected as incomplete (see README, Findings).
   */
  function CheckReadResponse(addr: byte, count: nat, got: seq<byte>): (r: ReadResult)
    requires count <= 125
    ensures r.Registers? ==> |r.values| == count
    ensures |got| != ExpectedReadLength(count) && !IsExceptionReply(got) ==> r == Failed(ErrIncomplete)
    ensures (|got| == ExpectedReadLength(count) || IsExceptionReply(got)) ==>
              && (got[0] != addr ==> r == Failed(ErrWrongAddress))
              && (got[0] == addr && got[1] == FnReadException ==> r == Failed(ExceptionBase + got[2]))
    ensures |got| == ExpectedReadLength(count) && got[0] == addr ==>
              && (got[1] != FnReadHolding && got[1] != FnReadException ==> r == Failed(ErrWrongFunction))
              && (got[1] == FnReadHolding && got[2] != 2 * count ==> r == Failed(ErrWrongByteCount))
              && (got[1] == FnReadHolding && got[2] == 2 * count && Crc16(got) != 0 ==> r == Failed(ErrCrc))
  {
    var n := ExpectedReadLength(count);
    ResidueOfLength(got, n);
    if |got| != n && !IsExceptionReply(got) then Failed(ErrIncomplete)
    else if got[0] != addr then Failed(ErrWrongAddress)
    else if got[1] != FnReadHolding then
      (if got[1] == FnReadException then Failed(ExceptionBase + got[2]) else Failed(ErrWrongFunction))
    else if got[2] != 2 * count then Failed(ErrWrongByteCount)
    else if Word(got[n - 1], got[n - 2]) != Crc16(got[..n - 2]) then Failed(ErrCrc)
    else
      DecodeRegistersAt(got[3..n - 2]);
      Registers(DecodeRegisters(got[3..n - 2]))
  }

  /** The same validation as the transport has it: any reply shorter than 5+2*count bytes is incomplete. */
  function CheckReadResponseAsWritten(addr: byte, count: nat, got: seq<byte>): (r: ReadResult)
    requires count <= 125
    ensures r.Registers? ==> |r.values| == count
    ensures |got| != ExpectedReadLength(count) ==> r == Failed(ErrIncomplete)
    ensures |got| == ExpectedReadLength(count) ==>
              && (got[0] != addr ==> r == Failed(ErrWrongAddress))
              && (got[0] == addr && got[1] == FnReadException ==> r == Failed(ExceptionBase + got[2]))
              && (got[0] == addr && got[1] != FnReadHolding && got[1] != FnReadException ==> r == Failed(ErrWrongFunction))
              && (got[0] == addr && got[1] == FnReadHolding && got[2] != 2 * count ==> r == Failed(ErrWrongByteCount))
              && (got[0] == addr && got[1] == FnReadHolding && got[2] == 2 * count && Crc16(got) != 0 ==> r == Failed(ErrCrc))
  {
    if |got| != ExpectedReadLength(count) then Failed(ErrIncomplete) else CheckReadResponse(addr, count, got)
  }

  /** A complete, well-formed reply to a read of `count` registers from `addr`. */
  predicate WellFormedReadResponse(addr: byte, count: nat, got: seq<byte>) {
    && |got| == ExpectedReadLength(count)
    && got[0] == addr
    && got[1] == FnReadHolding
    && got[2] == 2 * count
    && Crc16(got) == 0
  }

  /** A reply is accepted exactly when it is well formed, and then register i is bytes 3+2i, 4+2i big-endian. */
  lemma ReadResponseAccepted(addr: byte, count: nat, got: seq<byte>)
    requires count <= 125
    ensures CheckReadResponse(addr, count, got).Registers? <==> WellFormedReadResponse(addr, count, got)
    ensures CheckReadResponse(addr, count, got).Registers? ==>
              forall i :: 0 <= i < count ==>
                CheckReadResponse(addr, count, got).values[i] == Word(got[3 + 2 * i], got[4 + 2 * i])
  {
    AcceptedIffWellFormed(addr, count, got);
    if CheckReadResponse(addr, count, got).Registers? {
      AcceptedRegisters(addr, count, got);
      var data := got[3..3 + 2 * count];
      DecodeRegistersAt(data);
      forall i | 0 <= i < count
        ensures data[2 * i] == got[3 + 2 * i] && data[2 * i + 1] == got[4 + 2 * i]
      {
      }
    }
  }

  /** The reply checks of `readHoldingRegisters()` accept exactly the well-formed replies. */
  lemma AcceptedIffWellFormed(addr: byte, count: nat, got: seq<byte>)
    requires count <= 125
    ensures CheckReadResponse(addr, count, got).Registers? <==> WellFormedReadResponse(addr, count, got)
  {
    var n := ExpectedReadLength(count);
    if |got| == n {
      CrcCheckIsResidue(got);
      assert got[..n - 2] == got[..|got| - 2];
    }
  }

  /** An accepted reply has the full length, and its registers are the big-endian pairs after the byte count. */
  lemma AcceptedRegisters(addr: byte, count: nat, got: seq<byte>)
    requires count <= 125 && CheckReadResponse(addr, count, got).Registers?
    ensures |got| == ExpectedReadLength(count)
    ensures CheckReadResponse(addr, count, got).values == DecodeRegisters(got[3..3 + 2 * count])
  {
    var n := ExpectedReadLength(count);
    if |got| == n {
      assert got[3..n - 2] == got[3..3 + 2 * count];
    }
  }

  /** The reply a device sends to a read of `|values|` registers. */
  function ReadResponseFrame(addr: byte, values: seq<U16>): seq<byte>
    requires |values| <= 125
  {
    var body := [addr, FnReadHolding, 2 * |values|] + EncodeRegisters(values);
    body + [Lo(Crc16(body)), Hi(Crc16(body))]
  }

  /** Every register list survives the trip through the device's reply and the master's validation. */
  lemma ReadRoundTrip(addr: byte, values: seq<U16>)
    requires |values| <= 125
    ensures CheckReadResponse(addr, |values|, ReadResponseFrame(addr, values)) == Registers(values)
  {
    var body := [addr, FnReadHolding, 2 * |values|] + EncodeRegisters(values);
    var f := ReadResponseFrame(addr, values);
    EncodeRegistersLength(values);
    var n := ExpectedReadLength(|values|);
    assert |f| == n;
    assert f[..n - 2] == body;
    WordOfBytes(Crc16(body));
    assert Word(f[n - 1], f[n - 2]) == Crc16(f[..n - 2]);
    assert f[3..n - 2] == EncodeRegisters(values);
    DecodeEncodeRegisters(values);
  }


  /** A device exception reply to a read of one register yields 100 plus the exception code. */
  lemma ExceptionReplyReported(addr: byte, exc: byte, lo: byte, hi: byte)
    ensures CheckReadResponse(addr, 1, [addr, FnReadException, exc, lo, hi]) == Failed(100 + exc)
  {
  }

  /** As written, that same 5-byte exception reply is reported as incomplete (code 3). */
  lemma ExceptionReplyAsWritten(addr: byte, exc: byte, lo: byte, hi: byte)
    ensures CheckReadResponseAsWritten(addr, 1, [addr, FnReadException, exc, lo, hi]) == Failed(ErrIncomplete)
  {
  }

  /** The two validations differ only on 5-byte exception replies to reads of at least one register. */
  lemma CheckDiffersOnlyOnExceptionReplies(addr: byte, count: nat, got: seq<byte>)
    requires count <= 125
    requires !(IsExceptionReply(got) && count >= 1)
    ensures CheckReadResponse(addr, count, got) == CheckReadResponseAsWritten(addr, count, got)
  {
  }

  /** How many of the bytes the line delivers the receive loop takes: a full reply, or an exception reply. */
  function ReceiveLength(rx: seq<byte>, expected: nat): (k: nat)
    requires expected >= 5
    ensures k <= |rx| && k <= expected
  {
    if |rx| >= 5 && rx[1] == FnReadException then 5 else Min(|rx|, expected)
  }

  /** The receive loop as written: it waits for the full expected length. */
  function ReceiveLengthAsWritten(rx: seq<byte>, expected: nat): (k: nat)
    ensures k <= |rx| && k <= expected
  {
    Min(|rx|, expected)
  }

  /** Validation of a write reply: eight bytes, an echo of the request head, and a matching checksum. */
  function CheckWriteEcho(request: seq<byte>, got: seq<byte>): (code: int)
    requires |request| == 8
    ensures code == 0 <==> |got| == 8 && got[..6] == request[..6] && Word(got[7], got[6]) == Crc16(got[..6])
    ensures code == 0 || code == ErrIncomplete || code == ErrEchoMismatch || code == ErrCrc
    ensures |got| != 8 ==> code == ErrIncomplete
    ensures |got| == 8 && got[..6] != request[..6] ==> code == ErrEchoMismatch
    ensures |got| == 8 && got[..6] == request[..6] && Crc16(got) != 0 ==> code == ErrCrc
  {
    ResidueOfLength(got, 8);
    if |got| != 8 then ErrIncomplete
    else if got[..6] != request[..6] then ErrEchoMismatch
    else if Word(got[7], got[6]) != Crc16(got[..6]) then ErrCrc
    else 0
  }

  /** A write succeeds exactly when the device echoes the request byte for byte. */
  lemma WriteEchoAccepted(addr: byte, register: U16, value: U16, got: seq<byte>)
    ensures CheckWriteEcho(WriteRequestFrame(addr, register, value), got) == 0
        <==> got == WriteRequestFrame(addr, register, value)
  {
    var f := WriteRequestFrame(addr, register, value);
    RequestFrameLayout(addr, FnWriteSingle, register, value);
    if |got| == 8 && got[..6] == f[..6] {
      if Word(got[7], got[6]) == Crc16(got[..6]) {
        assert Word(got[7], got[6]) == Word(f[7], f[6]);
        assert got[7] == f[7] && got[6] == f[6];
        assert got == got[..6] + [got[6], got[7]];
        assert f == f[..6] + [f[6], f[7]];
      }
    }
  }

  // ---- state of one transport together with the line it owns ----

  datatype ClientState = ClientState(initialized: bool, lastError: int, timeout: U32, successCount: U32, errorCount: U32)

  datatype Link = Link(client: ClientState, port: PortState)

  const NoPort := PortState([], [], [])

  function Fail(c: ClientState, code: int): ClientState {
    c.(lastError := code, errorCount := Inc32(c.errorCount))
  }

  function Succeed(c: ClientState): ClientState {
    c.(lastError := 0, successCount := Inc32(c.successCount))
  }

  /** `initialize()`: no-op when already initialized, code 1 without a serial port, else drain and mark initialized. */
  function LinkInitialize(l: Link, hasSerial: bool): (r: (Link, bool))
    ensures r.1 <==> l.client.initialized || hasSerial
    ensures r.1 <==> r.0.client.initialized
    ensures l.client.initialized ==> r.0 == l
    ensures !l.client.initialized ==> r.0.client.lastError == (if hasSerial then 0 else ErrNoSerial)
    ensures !l.client.initialized && hasSerial ==> r.0.port.rx == [] && r.0.port.written == l.port.written
    ensures r.0.client.successCount == l.client.successCount && r.0.client.errorCount == l.client.errorCount
    ensures r.0.client.timeout == l.client.timeout && r.0.port.answers == l.port.answers
  {
    if l.client.initialized then (l, true)
    else if !hasSerial then (l.(client := l.client.(lastError := ErrNoSerial)), false)
    else (Link(l.client.(initialized := true, lastError := 0), Drained(l.port)), true)
  }

  /** A transport that initialized once stays initialized: a second `initialize()` changes nothing. */
  lemma LinkInitOnce(l: Link, hasSerial: bool, again: bool)
    ensures var i := LinkInitialize(l, hasSerial);
            i.1 ==> LinkInitialize(i.0, again) == (i.0, true)
  {
  }

  /**
   * `readHoldingRegisters` once the transport is ready: the bound on the count,
   * then one request and the validation of what arrives in answer.
   */
  function ReadExchange(l: Link, addr: byte, start: U16, count: U16): (r: (Link, ReadResult))
    ensures r.1.Registers? ==> |r.1.values| == count && r.0.client == Succeed(l.client)
    ensures r.1.Failed? ==> r.1.code != 0 && r.0.client == Fail(l.client, r.1.code)
    ensures count <= MaxReadCount ==> r.0.port.written == l.port.written + [ReadRequestFrame(addr, start, count)]
  {
    if count > MaxReadCount then (Link(Fail(l.client, ErrRegisterCount), l.port), Failed(ErrRegisterCount))
    else ReadReply(l.client, Written(Drained(l.port), ReadRequestFrame(addr, start, count)), addr, count)
  }

  /** What a read makes of the bytes arriving after its request: the receive loop as written, then the validation. */
  function ReadReply(c: ClientState, p: PortState, addr: byte, count: U16): (r: (Link, ReadResult))
    requires count <= MaxReadCount
    ensures r.1.Registers? ==> |r.1.values| == count && r.0.client == Succeed(c)
    ensures r.1.Failed? ==> r.1.code != 0 && r.0.client == Fail(c, r.1.code)
    ensures r.0.port.written == p.written && r.0.port.answers == p.answers
  {
    var k := ReceiveLengthAsWritten(p.rx, ExpectedReadLength(count));
    var res := CheckReadResponseAsWritten(addr, count, p.rx[..k]);
    var c' := if res.Registers? then Succeed(c) else Fail(c, res.code);
    (Link(c', p.(rx := p.rx[k..])), res)
  }

  /**
   * `readHoldingRegisters`: the new transport and line state and the outcome.
   * Exactly one of the two counters moves, by one: the success counter exactly
   * when registers come back, and `lastError` is then 0, else the failure's code.
   */
  function LinkRead(l: Link, hasSerial: bool, addr: byte, start: U16, count: U16): (r: (Link, ReadResult))
    ensures var l', res := r.0, r.1;
            && (res.Registers? ==> |res.values| == count
                                   && l'.client.successCount == Inc32(l.client.successCount)
                                   && l'.client.errorCount == l.client.errorCount && l'.client.lastError == 0)
            && (res.Failed? ==> l'.client.errorCount == Inc32(l.client.errorCount)
                                && l'.client.successCount == l.client.successCount
                                && l'.client.lastError == res.code && res.code != 0)
  {
    var init := LinkInitialize(l, hasSerial);
    var l1 := init.0;
    if !init.1 then (l1.(client := l1.client.(errorCount := Inc32(l1.client.errorCount))), Failed(l1.client.lastError))
    else ReadExchange(l1, addr, start, count)
  }

  /** `writeSingleRegister` once the transport is ready: one request and the check of its echo. */
  function WriteExchange(l: Link, addr: byte, register: U16, value: U16): (r: (Link, bool))
    ensures r.1 ==> r.0.client == Succeed(l.client)
    ensures !r.1 ==> r.0.client.lastError != 0 && r.0.client == Fail(l.client, r.0.client.lastError)
    ensures r.0.port.written == l.port.written + [WriteRequestFrame(addr, register, value)]
  {
    var frame := WriteRequestFrame(addr, register, value);
    var p := Written(Drained(l.port), frame);
    var k := Min(|p.rx|, 8);
    var code := CheckWriteEcho(frame, p.rx[..k]);
    var c := if code == 0 then Succeed(l.client) else Fail(l.client, code);
    (Link(c, p.(rx := p.rx[k..])), code == 0)
  }

  /**
   * `writeSingleRegister`: the new transport and line state and whether the echo
   * was accepted. Exactly one of the two counters moves, by one: the success
   * counter exactly when the write succeeded.
   */
  function LinkWrite(l: Link, hasSerial: bool, addr: byte, register: U16, value: U16): (r: (Link, bool))
    ensures var l', ok := r.0, r.1;
            && (ok ==> l'.client.successCount == Inc32(l.client.successCount)
                       && l'.client.errorCount == l.client.errorCount && l'.client.lastError == 0)
            && (!ok ==> l'.client.errorCount == Inc32(l.client.errorCount)
                        && l'.client.successCount == l.client.successCount && l'.client.lastError != 0)
  {
    var init := LinkInitialize(l, hasSerial);
    var l1 := init.0;
    if !init.1 then (l1.(client := l1.client.(errorCount := Inc32(l1.client.errorCount))), false)
    else WriteExchange(l1, addr, register, value)
  }

  /** A register count over 125 fails with code 2 before anything is drained or sent. */
  lemma OversizedReadSendsNothing(l: Link, addr: byte, start: U16, count: U16)
    requires l.client.initialized && count > MaxReadCount
    ensures LinkRead(l, true, addr, start, count) == (Link(Fail(l.client, ErrRegisterCount), l.port), Failed(ErrRegisterCount))
  {
  }

  /**
   * An initialized transport sends exactly the read request, and when the device
   * answers with the well-formed reply for `values`, the read returns them.
   */
  lemma ReadOfAnsweringDevice(l: Link, addr: byte, start: U16, values: seq<U16>)
    requires l.client.initialized && |values| <= 125
    requires |l.port.answers| > 0 && l.port.answers[0] == ReadResponseFrame(addr, values)
    ensures var r := LinkRead(l, true, addr, start, |values|);
            && r.0.port.written == l.port.written + [ReadRequestFrame(addr, start, |values|)]
            && r.1 == Registers(values)
            && r.0.port.rx == []
  {
    var p := Written(Drained(l.port), ReadRequestFrame(addr, start, |values|));
    assert p.rx == ReadResponseFrame(addr, values);
    AnswerTakenWhole(addr, values, p.rx);
    ReadRoundTrip(addr, values);
  }

  /**
   * As written, a device's exception reply to a read of one register fails the
   * whole read with code 3, and one more error is counted.
   */
  lemma ExceptionReplyReadAsWritten(l: Link, addr: byte, start: U16, exc: byte, lo: byte, hi: byte)
    requires l.client.initialized
    requires |l.port.answers| > 0 && l.port.answers[0] == [addr, FnReadException, exc, lo, hi]
    ensures var r := LinkRead(l, true, addr, start, 1);
            && r.1 == Failed(ErrIncomplete)
            && r.0.client.errorCount == Inc32(l.client.errorCount)
  {
    ExceptionReplyAsWritten(addr, exc, lo, hi);
  }

  /** Either receive loop takes a device's whole reply to a read, and nothing is left over. */
  lemma AnswerTakenWhole(addr: byte, values: seq<U16>, rx: seq<byte>)
    requires |values| <= 125 && rx == ReadResponseFrame(addr, values)
    ensures ReceiveLengthAsWritten(rx, ExpectedReadLength(|values|)) == |rx|
    ensures ReceiveLength(rx, ExpectedReadLength(|values|)) == |rx|
    ensures rx[..|rx|] == rx && rx[|rx|..] == []
  {
    EncodeRegistersLength(values);
    assert rx[1] == FnReadHolding;
  }

  /** The transport's view of a missing serial port. */
  function PortOf(serial: SerialPort?): PortState
    reads serial
  {
    if serial == null then NoPort else serial.State()
  }

  class SP3485ModbusClient {
    const serial: SerialPort?
    const dePin: int
    var initialized: bool
    var lastError: int
    var timeout: U32
    var successCount: U32
    var errorCount: U32

    ghost predicate Valid()
      reads this
    {
      initialized ==> serial != null
    }

    function State(): ClientState
      reads this
    {
      ClientState(initialized, lastError, timeout, successCount, errorCount)
    }

    function LinkNow(): Link
      reads this, serial
    {
      Link(State(), PortOf(serial))
    }

    constructor (serialPort: SerialPort?, directionPin: int)
      ensures serial == serialPort && dePin == directionPin && Valid()
      ensures State() == ClientState(false, 0, DefaultTimeoutMs, 0, 0)
    {
      serial := serialPort;
      dePin := directionPin;
      initialized := false;
      lastError := 0;
      timeout := DefaultTimeoutMs;
      successCount := 0;
      errorCount := 0;
    }

    /** Discards every byte waiting in the receive buffer. */
    method Drain()
      requires serial != null
      modifies serial
      ensures serial.State() == Drained(old(serial.State()))
    {
      while true
        invariant serial.written == old(serial.written) && serial.answers == old(serial.answers)
        decreases |serial.rx|
      {
        var more := serial.Available();
        if !more {
          break;
        }
        var _ := serial.Read();
      }
    }

    method Initialize() returns (ok: bool)
      requires Valid()
      modifies this, serial
      ensures Valid()
      ensures (LinkNow(), ok) == LinkInitialize(old(LinkNow()), serial != null)
    {
      if initialized {
        return true;
      }
      if serial == null {
        lastError := ErrNoSerial;
        return false;
      }
      var waiting := serial.Available();
      if waiting {
        Drain();
      }
      initialized := true;
      lastError := 0;
      return true;
    }

    /** Builds the 8-byte request in a local buffer: head bytes, then the checksum low byte first. */
    static method BuildRequest(addr: byte, fn: byte, a: U16, b: U16) returns (request: array<byte>)
      ensures fresh(request) && request[..] == RequestFrame(addr, fn, a, b)
    {
      request := new byte[8];
      request[0] := addr;
      request[1] := fn;
      request[2] := Hi(a);
      request[3] := Lo(a);
      request[4] := Hi(b);
      request[5] := Lo(b);
      var crc := CalculateCrc(request, 6);
      request[6] := Lo(crc);
      request[7] := Hi(crc);
      assert request[..6] == [addr, fn, Hi(a), Lo(a), Hi(b), Lo(b)];
    }

    /** Clears the receive buffer, then transmits the frame. */
    method Send(frame: seq<byte>)
      requires serial != null
      modifies serial
      ensures serial.State() == Written(Drained(old(serial.State())), frame)
    {
      Drain();
      serial.Write(frame);
    }

    /** Reads received bytes into `response` until the expected length is in, or nothing more arrives. */
    method Receive(response: array<byte>, expected: nat) returns (bytesRead: nat)
      requires serial != null && expected <= response.Length
      modifies serial, response
      ensures bytesRead == ReceiveLengthAsWritten(old(serial.rx), expected)
      ensures response[..bytesRead] == old(serial.rx)[..bytesRead]
      ensures serial.State() == old(serial.State()).(rx := old(serial.rx)[bytesRead..])
    {
      bytesRead := 0;
      ghost var incoming := serial.rx;
      while bytesRead < expected
        invariant bytesRead <= expected && bytesRead <= |incoming|
        invariant response[..bytesRead] == incoming[..bytesRead]
        invariant serial.State() == old(serial.State()).(rx := incoming[bytesRead..])
        decreases expected - bytesRead
      {
        var more := serial.Available();
        if !more {
          break;
        }
        var b := serial.Read();
        response[bytesRead] := b;
        bytesRead := bytesRead + 1;
      }
    }

    /** Reads up to eight received bytes into `response`. */
    method ReceiveEcho(response: array<byte>) returns (bytesRead: nat)
      requires serial != null && response.Length == 8
      modifies serial, response
      ensures bytesRead == Min(|old(serial.rx)|, 8)
      ensures response[..bytesRead] == old(serial.rx)[..bytesRead]
      ensures serial.State() == old(serial.State()).(rx := old(serial.rx)[bytesRead..])
    {
      bytesRead := 0;
      ghost var incoming := serial.rx;
      while bytesRead < 8
        invariant bytesRead <= 8 && bytesRead <= |incoming|
        invariant response[..bytesRead] == incoming[..bytesRead]
        invariant serial.State() == old(serial.State()).(rx := incoming[bytesRead..])
        decreases 8 - bytesRead
      {
        var more := serial.Available();
        if !more {
          break;
        }
        var b := serial.Read();
        response[bytesRead] := b;
        bytesRead := bytesRead + 1;
      }
    }

    /** Register i of the reply is bytes 3+2i and 4+2i, high byte first. */
    static method DecodeInto(response: array<byte>, count: nat, buffer: array<U16>)
      requires 5 + 2 * count <= response.Length && count <= buffer.Length
      modifies buffer
      ensures buffer[..count] == DecodeRegisters(response[3..3 + 2 * count])
      ensures buffer[count..] == old(buffer[count..])
    {
      var i := 0;
      while i < count
        invariant 0 <= i <= count
        invariant forall j :: 0 <= j < i ==> buffer[j] == Word(response[3 + 2 * j], response[4 + 2 * j])
        invariant forall j :: i <= j < buffer.Length ==> buffer[j] == old(buffer[j])
      {
        buffer[i] := Word(response[3 + 2 * i], response[4 + 2 * i]);
        i := i + 1;
      }
      DecodeRegistersAt(response[3..3 + 2 * count]);
    }

    /** Reads `count` holding registers starting at `start` from device `addr` into `buffer`, when given. */
    method ReadHoldingRegisters(addr: byte, start: U16, count: U16, buffer: array?<U16>) returns (ok: bool)
      requires Valid()
      requires buffer != null && count <= MaxReadCount ==> buffer.Length >= count
      modifies this, serial, buffer
      ensures Valid()
      ensures var r := LinkRead(old(LinkNow()), serial != null, addr, start, count);
              && LinkNow() == r.0
              && ok == r.1.Registers?
              && (ok && buffer != null ==> buffer[..count] == r.1.values
                                           && buffer[count..] == old(buffer[count..]))
              && (!ok && buffer != null ==> buffer[..] == old(buffer[..]))
    {
      ghost var l0 := LinkNow();
      if !initialized {
        var ready := Initialize();
        if !ready {
          errorCount := Inc32(errorCount);
          return false;
        }
      }
      assert LinkInitialize(l0, serial != null) == (LinkNow(), true);
      ok := ExchangeRead(addr, start, count, buffer);
    }

    /** The part of a read after the transport is ready: bound check, request, reply, decode. */
    method ExchangeRead(addr: byte, start: U16, count: U16, buffer: array?<U16>) returns (ok: bool)
      requires Valid() && initialized
      requires buffer != null && count <= MaxReadCount ==> buffer.Length >= count
      modifies this, serial, buffer
      ensures Valid()
      ensures var r := ReadExchange(old(LinkNow()), addr, start, count);
              && LinkNow() == r.0
              && ok == r.1.Registers?
              && (ok && buffer != null ==> buffer[..count] == r.1.values
                                           && buffer[count..] == old(buffer[count..]))
              && (!ok && buffer != null ==> buffer[..] == old(buffer[..]))
    {
      ghost var l1 := LinkNow();
      if count > MaxReadCount {
        lastError := ErrRegisterCount;
        errorCount := Inc32(errorCount);
        return false;
      }
      var request := BuildRequest(addr, FnReadHolding, start, count);
      Send(request[..]);
      ok := ReceiveReadReply(addr, count, buffer);
    }

    /** The reply half of a read: receive, validate, and on success decode into `buffer`. */
    method ReceiveReadReply(addr: byte, count: U16, buffer: array?<U16>) returns (ok: bool)
      requires Valid() && initialized && count <= MaxReadCount
      requires buffer != null ==> buffer.Length >= count
      modifies this, serial, buffer
      ensures Valid()
      ensures var r := ReadReply(old(State()), old(serial.State()), addr, count);
              && LinkNow() == r.0
              && ok == r.1.Registers?
              && (ok && buffer != null ==> buffer[..count] == r.1.values
                                           && buffer[count..] == old(buffer[count..]))
              && (!ok && buffer != null ==> buffer[..] == old(buffer[..]))
    {
      ghost var c0, p0 := State(), serial.State();
      var response := new byte[256];
      var bytesRead := Receive(response, ExpectedReadLength(count));
      var result := CheckReadResponseAsWritten(addr, count, response[..bytesRead]);
      ghost var p1 := p0.(rx := p0.rx[bytesRead..]);
      assert ReadReply(c0, p0, addr, count) == (Link(if result.Registers? then Succeed(c0) else Fail(c0, result.code), p1), result);
      if result.Registers? && buffer != null {
        Deliver(response, bytesRead, addr, count, buffer);
      }
      Record(result);
      assert serial.State() == p1;
      ok := result.Registers?;
    }

    /** Copies the registers of an accepted reply, the first `bytesRead` bytes of `response`, into `buffer`. */
    static method Deliver(response: array<byte>, bytesRead: nat, addr: byte, count: U16, buffer: array<U16>)
      requires bytesRead <= response.Length && count <= MaxReadCount && count <= buffer.Length
      requires CheckReadResponseAsWritten(addr, count, response[..bytesRead]).Registers?
      modifies buffer
      ensures buffer[..count] == CheckReadResponseAsWritten(addr, count, response[..bytesRead]).values
      ensures buffer[count..] == old(buffer[count..])
    {
      ghost var got := response[..bytesRead];
      AcceptedRegisters(addr, count, got);
      assert got[3..3 + 2 * count] == response[3..3 + 2 * count];
      DecodeInto(response, count, buffer);
    }

    /** The counters after a validated exchange: a success clears the code, a failure records it. */
    method Record(result: ReadResult)
      modifies this
      ensures State() == if result.Registers? then Succeed(old(State())) else Fail(old(State()), result.code)
    {
      if result.Failed? {
        lastError := result.code;
        errorCount := Inc32(errorCount);
      } else {
        lastError := 0;
        successCount := Inc32(successCount);
      }
    }

    /** Writes `value` to register `register` of device `addr` and checks the echo. */
    method WriteSingleRegister(addr: byte, register: U16, value: U16) returns (ok: bool)
      requires Valid()
      modifies this, serial
      ensures Valid()
      ensures (LinkNow(), ok) == LinkWrite(old(LinkNow()), serial != null, addr, register, value)
    {
      ghost var l0 := LinkNow();
      if !initialized {
        var ready := Initialize();
        if !ready {
          errorCount := Inc32(errorCount);
          return false;
        }
      }
      ghost var l1 := LinkNow();
      assert LinkInitialize(l0, serial != null) == (l1, true);
      var request := BuildRequest(addr, FnWriteSingle, register, value);
      Send(request[..]);
      var response := new byte[8];
      var bytesRead := ReceiveEcho(response);
      var code := ValidateEcho(response, bytesRead, request);
      assert WriteExchange(l1, addr, register, value).1 == (code == 0);
      if code != 0 {
        lastError := code;
        errorCount := Inc32(errorCount);
        assert LinkNow() == WriteExchange(l1, addr, register, value).0;
        return false;
      }
      lastError := 0;
      successCount := Inc32(successCount);
      assert LinkNow() == WriteExchange(l1, addr, register, value).0;
      return true;
    }

    /** The echo checks in order: length, the six head bytes one by one, then the checksum; 0 when accepted. */
    static method ValidateEcho(response: array<byte>, bytesRead: nat, request: array<byte>) returns (code: int)
      requires bytesRead <= response.Length && request.Length == 8
      ensures code == CheckWriteEcho(request[..], response[..bytesRead])
    {
      if bytesRead != 8 {
        return ErrIncomplete;
      }
      var i := 0;
      while i < 6
        invariant 0 <= i <= 6
        invariant response[..i] == request[..i]
      {
        if response[i] != request[i] {
          assert response[..bytesRead][..6][i] != request[..][..6][i];
          return ErrEchoMismatch;
        }
        i := i + 1;
      }
      assert response[..bytesRead][..6] == request[..][..6];
      var responseCrc := Word(response[7], response[6]);
      var calculatedCrc := CalculateCrc(response, 6);
      if responseCrc != calculatedCrc {
        return ErrCrc;
      }
      return 0;
    }

    function GetLastError(): (e: int)
      reads this
      ensures e == State().lastError
    {
      lastError
    }

    /** The timeout bounds the real-time wait only; the line model already gives the bytes that arrive in time. */
    method SetTimeout(timeoutMs: U32)
      modifies this
      ensures State() == old(State()).(timeout := timeoutMs)
    {
      timeout := timeoutMs;
    }

    method GetStatistics() returns (successes: U32, errors: U32)
      ensures successes == State().successCount && errors == State().errorCount
    {
      successes, errors := successCount, errorCount;
    }
  }
}
