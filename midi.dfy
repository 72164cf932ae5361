/**
 * Shared MIDI plumbing: the decode outcome, its dispatch to an event
 * sink, the system-reset message and the forwarding of a boxed output
 * connection.
 */
module Midi {
  import opened Common
  import Djio

  /** A message that a decoder could not make sense of. */
  datatype MidiInputDecodeError = MidiInputDecodeError

  /**
   * The outcome of decoding one message: an event, nothing worth an
   * event (not an error), or a decode error.
   */
  type Decoded<E> = Result<Option<E>, MidiInputDecodeError>

  const MIDI_OUTPUT_SYSTEM_RESET: Message := [0xff]

  /** A device with the prefix its MIDI port names start with. */
  datatype MidiDeviceDescriptor = MidiDeviceDescriptor(device: Djio.DeviceDescriptor, portNamePrefix: string)

  /** A port: a generated index and the port's name. */
  datatype MidiPortDescriptor = MidiPortDescriptor(index: Djio.PortIndex, name: string)

  /**
   * A control input event sink: every call hands over one batch of
   * events, and the sink's only observable state is the batches it
   * received.
   */
  class EventSink<E> {
    var batches: seq<seq<E>>

    constructor ()
      ensures batches == []
    {
      batches := [];
    }

    method SinkControlInputEvents(events: seq<E>)
      modifies this
      ensures batches == old(batches) + [events]
    {
      batches := batches + [events];
    }
  }

  /**
   * `consume_midi_input_event`, given what the decoder returned for the
   * message: an event is sunk as a batch of its own; the message counts
   * as handled unless it failed to decode.
   */
  method ConsumeMidiInputEvent<E>(outcome: Decoded<E>, sink: EventSink<E>) returns (handled: bool)
    modifies sink
    ensures handled <==> outcome.Ok?
    ensures sink.batches == old(sink.batches) + (if outcome.Ok? && outcome.value.Some? then [[outcome.value.value]] else [])
  {
    match outcome
    case Ok(Some(event)) =>
      sink.SinkControlInputEvents([event]);
      handled := true;
    case Ok(None) =>
      handled := true;
    case Err(_) =>
      handled := false;
  }

  /** `MidiOutputConnection::send_midi_system_reset`: the one-byte reset message. */
  method SendMidiSystemReset(c: MidiConnection) returns (r: Result<Unit, OutputError>)
    modifies c
    ensures c.attempts == old(c.attempts) + 1
    ensures r.Ok? <==> old(c.attempts) !in c.failing
    ensures c.sent == if r.Ok? then old(c.sent) + [[0xff]] else old(c.sent)
  {
    r := c.Send(MIDI_OUTPUT_SYSTEM_RESET);
  }

  /** A boxed connection: every message goes to the connection it owns. */
  class BoxedMidiOutputConnection {
    const inner: MidiConnection

    constructor (inner: MidiConnection)
      ensures this.inner == inner
    {
      this.inner := inner;
    }

    method SendMidiOutput(msg: Message) returns (r: Result<Unit, OutputError>)
      modifies inner
      ensures inner.attempts == old(inner.attempts) + 1
      ensures r.Ok? <==> old(inner.attempts) !in inner.failing
      ensures inner.sent == if r.Ok? then old(inner.sent) + [msg] else old(inner.sent)
    {
      r := inner.Send(msg);
    }
  }
}
