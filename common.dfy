/**
 * Shared vocabulary of the djio model: fixed-width integers as subset
 * types, Option/Result, the two-state button and LED values, and a MIDI
 * output connection whose effect is a log of the messages it accepted.
 */
module Common {

  type Byte = x: int | 0 <= x < 0x100
  type U7 = x: int | 0 <= x < 0x80
  type U14 = x: int | 0 <= x < 0x4000
  type U16 = x: int | 0 <= x < 0x1_0000
  type U32 = x: int | 0 <= x < 0x1_0000_0000
  type U64 = x: int | 0 <= x < 0x1_0000_0000_0000_0000

  const U32_MAX: U32 := 0xFFFF_FFFF
  const I32_MAX: int := 0x7FFF_FFFF

  /** A MIDI message as the raw bytes handed over by the transport. */
  type Message = seq<Byte>

  /** `u32::wrapping_add` */
  function WrappingAddU32(a: U32, b: U32): (r: U32)
    ensures a + b <= U32_MAX ==> r == a + b
    ensures a + b > U32_MAX ==> r == a + b - 0x1_0000_0000
  {
    (a + b) % 0x1_0000_0000
  }

  datatype Option<T> = None | Some(value: T)

  datatype Result<T, E> = Ok(value: T) | Err(error: E)

  datatype Unit = Unit

  /** A simple two-state button. */
  datatype ButtonInput = Pressed | Released

  /** A simple on/off LED. */
  datatype LedOutput = Off | On

  /** Why an output could not be delivered. */
  datatype OutputError = Disconnected | SendFailed

  /**
   * A MIDI output connection. Sending is the only effect: an accepted
   * message is appended to `sent`. The transport may refuse a message;
   * which attempts it refuses is fixed up front by `failing`, a set of
   * attempt numbers, so that callers' error paths can be stated.
   */
  class MidiConnection {
    var sent: seq<Message>
    var attempts: nat
    const failing: set<nat>

    constructor (failing: set<nat>)
      ensures this.failing == failing
      ensures sent == [] && attempts == 0
    {
      this.failing := failing;
      sent := [];
      attempts := 0;
    }

    /** Whether the next send attempt will be refused. */
    predicate NextFails()
      reads this
    {
      attempts in failing
    }

    method Send(msg: Message) returns (r: Result<Unit, OutputError>)
      modifies this
      ensures attempts == old(attempts) + 1
      ensures r.Ok? <==> !old(NextFails())
      ensures r.Err? ==> r.error == SendFailed
      ensures sent == if r.Ok? then old(sent) + [msg] else old(sent)
    {
      if attempts in failing {
        r := Err(SendFailed);
      } else {
        sent := sent + [msg];
        r := Ok(Unit);
      }
      attempts := attempts + 1;
    }
  }
}
