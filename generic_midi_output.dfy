/**
 * Generic MIDI output: a control is sent back as a three-byte message
 * built from its index and the low bits of its value.
 */
module GenericMidiOutput {
  import opened Common
  import opened Djio
  import GenericMidiInput

  /**
   * The message `send_output` builds for a control as written:
   * `[(index >> 7) & 0x7f, index & 0x7f, bits & 0x7f]`.
   */
  function EncodeControl(control: Control): (msg: Message)
    ensures |msg| == 3 && msg[0] < 128 && msg[1] < 128 && msg[2] < 128
    ensures msg[1] == control.index.value % 128 && msg[2] == ToBits(control.value) % 128
  {
    [(control.index.value / 128) % 128, control.index.value % 128, ToBits(control.value) % 128]
  }

  /**
   * As written the status byte loses its high bit: sending back what a
   * message decodes to yields the message with bit 7 of the status
   * cleared, which no longer is a MIDI status byte.
   */
  lemma StatusHighBitLost(msg: Message)
    requires |msg| == 3 && msg[1] < 128 && msg[2] < 128
    ensures GenericMidiInput.TryDecodeMidiInput(msg).Ok?
    ensures EncodeControl(GenericMidiInput.TryDecodeMidiInput(msg).value.value) == [msg[0] % 128, msg[1], msg[2]]
    ensures msg[0] >= 128 ==> EncodeControl(GenericMidiInput.TryDecodeMidiInput(msg).value.value) != msg
  {
  }

  /** The encoding with the whole status byte, `(index >> 7) & 0xff`. */
  function EncodeControlCorrected(control: Control): (msg: Message)
    ensures |msg| == 3 && msg[1] < 128 && msg[2] < 128
    ensures msg[0] == (control.index.value / 128) % 256
  {
    [(control.index.value / 128) % 256, control.index.value % 128, ToBits(control.value) % 128]
  }

  /**
   * Corrected, sending back what a message with 7-bit data bytes decodes
   * to reproduces the message exactly.
   */
  lemma DecodeEncodeRoundTrip(msg: Message)
    requires |msg| == 3 && msg[1] < 128 && msg[2] < 128
    ensures GenericMidiInput.TryDecodeMidiInput(msg).Ok?
    ensures EncodeControlCorrected(GenericMidiInput.TryDecodeMidiInput(msg).value.value) == msg
  {
  }

  /** The two encodings agree exactly on the controls of status bytes below 0x80. */
  lemma EncodingsAgree(control: Control)
    ensures EncodeControl(control) == EncodeControlCorrected(control) <==> (control.index.value / 128) % 256 < 128
  {
  }

  class OutputGateway {
    var connection: Option<MidiConnection>

    /** `OutputGateway::default`: nothing attached. */
    constructor ()
      ensures connection.None?
    {
      connection := None;
    }

    /** `send_output`: one message on the attached connection, or `Disconnected`. */
    method SendOutput(control: Control) returns (r: Result<Unit, OutputError>)
      modifies if connection.Some? then {connection.value} else {}
      ensures connection.None? ==> r == Err(Disconnected)
      ensures connection.Some? ==>
                var c := connection.value;
                c.attempts == old(c.attempts) + 1 &&
                (r.Ok? <==> old(c.attempts) !in c.failing) &&
                (r.Err? ==> r.error == SendFailed) &&
                c.sent == if r.Ok? then old(c.sent) + [EncodeControl(control)] else old(c.sent)
    {
      if connection.None? {
        return Err(Disconnected);
      }
      r := connection.value.Send(EncodeControl(control));
    }

    /**
     * `attach_midi_output_connection`: moves the connection out of the
     * caller's slot, which is left empty, into the empty gateway.
     */
    method AttachMidiOutputConnection(slot: Option<MidiConnection>)
      returns (r: Result<Unit, OutputError>, rest: Option<MidiConnection>)
      requires connection.None?
      requires slot.Some?
      modifies this
      ensures r.Ok?
      ensures connection == slot && rest.None?
    {
      connection := slot;
      rest := None;
      r := Ok(Unit);
    }

    /** `detach_midi_output_connection`: hands back the connection and leaves the gateway empty. */
    method DetachMidiOutputConnection() returns (c: Option<MidiConnection>)
      modifies this
      ensures c == old(connection)
      ensures connection.None?
    {
      c := connection;
      connection := None;
    }
  }

  /** Detaching twice: the second detach finds nothing. */
  method DetachTwice(g: OutputGateway) returns (first: Option<MidiConnection>, second: Option<MidiConnection>)
    modifies g
    ensures first == old(g.connection)
    ensures second.None? && g.connection.None?
  {
    first := g.DetachMidiOutputConnection();
    second := g.DetachMidiOutputConnection();
  }
}
