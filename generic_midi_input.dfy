/**
 * Generic MIDI input: every three-byte message is a control whose index
 * is the status and first data byte, and whose value is the second data
 * byte.
 */
module GenericMidiInput {
  import opened Common
  import opened Djio
  import I = Input
  import opened Midi

  /**
   * The control index of a message: `status << 7 | command`. For a 7-bit
   * command byte the two do not overlap.
   */
  function IndexOf(status: Byte, command: Byte): (ci: ControlIndex)
    ensures ci.value == status * 128 + command - (if status % 2 == 1 && command >= 128 then 128 else 0)
    ensures command < 128 ==> ci.value / 128 == status && ci.value % 128 == command
  {
    ShiftOr7Bytes(status, command);
    ControlIndex(ShiftOr7(status, command))
  }

  /** `try_decode_midi_input` */
  function TryDecodeMidiInput(input: Message): (r: Decoded<Control>)
    ensures r.Err? <==> |input| != 3
    ensures r.Ok? ==> r.value.Some?
    ensures r.Ok? ==> r.value.value.index == IndexOf(input[0], input[1])
    ensures r.Ok? ==> ToBits(r.value.value.value) == input[2]
  {
    if |input| != 3 then Err(MidiInputDecodeError)
    else Ok(Some(Control(IndexOf(input[0], input[1]), FromBits(input[2]))))
  }

  /**
   * Distinct messages with 7-bit first data bytes decode to distinct
   * controls: the status, the command and the value are all recovered.
   */
  lemma DecodeInjective(a: Message, b: Message)
    requires |a| == 3 && |b| == 3 && a[1] < 128 && b[1] < 128
    ensures TryDecodeMidiInput(a) == TryDecodeMidiInput(b) ==> a == b
  {
    if TryDecodeMidiInput(a) == TryDecodeMidiInput(b) {
      var ia, ib := IndexOf(a[0], a[1]), IndexOf(b[0], b[1]);
      assert ia == ib;
      assert a[0] == b[0] && a[1] == b[1];
      assert a[2] == b[2];
    }
  }

  /** `try_decode_midi_input_event`: the decoded control at `ts`. */
  function DecodeEvent(ts: TimeStamp, input: Message): (r: Decoded<I.InputEvent<Control>>)
    ensures r.Err? <==> |input| != 3
    ensures r.Ok? ==> r.value.Some? && r.value.value.ts == ts
    ensures r.Ok? ==> TryDecodeMidiInput(input) == Ok(Some(r.value.value.input))
  {
    match TryDecodeMidiInput(input)
    case Err(e) => Err(e)
    case Ok(None) => Ok(None)
    case Ok(Some(control)) => Ok(Some(I.InputEvent(ts, control)))
  }

  /** The stateless decoder object. */
  class MidiInputEventDecoder {
    constructor ()
    {
    }

    method TryDecodeMidiInputEvent(ts: TimeStamp, input: Message) returns (r: Decoded<I.InputEvent<Control>>)
      ensures r == DecodeEvent(ts, input)
    {
      r := DecodeEvent(ts, input);
    }
  }
}
