/**
 * The half-duplex RS-485 serial line the Modbus master drives. Direction
 * switching and settling delays have no observable effect on the bytes and
 * are not represented. `answers[k]` is the byte stream the line delivers after
 * the k-th frame written from now on, within the transport's timeout.
 */
module SerialLine {
  import opened Util

  datatype PortState = PortState(written: seq<seq<byte>>, rx: seq<byte>, answers: seq<seq<byte>>)

  /** The bytes the line delivers in answer to the next frame written (nothing if the device is silent). */
  function NextAnswer(answers: seq<seq<byte>>): seq<byte> {
    if |answers| == 0 then [] else answers[0]
  }

  function LaterAnswers(answers: seq<seq<byte>>): seq<seq<byte>> {
    if |answers| == 0 then [] else answers[1..]
  }

  /** Draining the receive buffer. */
  function Drained(p: PortState): PortState {
    p.(rx := [])
  }

  /** Writing a frame: it is logged as sent and the device's answer starts arriving. */
  function Written(p: PortState, frame: seq<byte>): PortState {
    PortState(p.written + [frame], p.rx + NextAnswer(p.answers), LaterAnswers(p.answers))
  }

  class SerialPort {
    var written: seq<seq<byte>>
    var rx: seq<byte>
    var answers: seq<seq<byte>>

    function State(): PortState
      reads this
    {
      PortState(written, rx, answers)
    }

    constructor (pending: seq<byte>, replies: seq<seq<byte>>)
      ensures State() == PortState([], pending, replies)
    {
      written, rx, answers := [], pending, replies;
    }

    /** Whether a received byte is waiting to be read. */
    method Available() returns (b: bool)
      ensures b <==> rx != []
    {
      b := rx != [];
    }

    method Read() returns (b: byte)
      requires rx != []
      modifies this
      ensures b == old(rx[0])
      ensures State() == old(State()).(rx := old(rx[1..]))
    {
      b := rx[0];
      rx := rx[1..];
    }

    /** Sends `frame` and waits for transmission to complete. */
    method Write(frame: seq<byte>)
      modifies this
      ensures State() == Written(old(State()), frame)
    {
      written := written + [frame];
      rx := rx + NextAnswer(answers);
      answers := LaterAnswers(answers);
    }
  }
}
