/**
 * Pioneer DDJ-400, older generation: a fixed table from three-byte MIDI
 * messages to deck and mixer inputs, with 14-bit values delivered as
 * separate high and low halves.
 */
module PioneerDdj400 {
  import opened Common
  import opened Djio
  import I = Input

  const DEVICE_DESCRIPTOR: DeviceDescriptor := DeviceDescriptor("Pioneer", "DDJ-400")
  const PORT_NAME_PREFIX: string := "DDJ-400"

  /** One half of a 14-bit value. */
  datatype HalfU14 = Hi(hi: Byte) | Lo(lo: Byte)

  datatype Deck = Left | Right
  datatype DeckButton = PlayPause | Cue
  datatype WheelDirection = Rev | Fwd
  datatype MixerChannel = Left | Right

  datatype DeckInput =
    | Button(ctrl: DeckButton, input: ButtonInput)
    | PitchFader(half: HalfU14)
    | JogWheel(direction: WheelDirection)

  datatype MixerInput =
    | Crossfader(crossfaderHalf: HalfU14)
    | VolumeFader(channel: MixerChannel, volumeHalf: HalfU14)

  datatype Input =
    | Deck(deck: Deck, deckInput: DeckInput)
    | Mixer(mixerInput: MixerInput)

  function U7ToButton(v: Byte): (r: ButtonInput)
    requires v == 0 || v == 127
    ensures r == Pressed <==> v == 127
  {
    if v == 0 then Released else Pressed
  }

  /** Button messages must carry 0 or 127; every other message is accepted. */
  predicate Accepted(msg: Message)
  {
    |msg| == 3 && msg[0] in {0x90, 0x91} && msg[1] in {0x0b, 0x0c} ==> msg[2] in {0, 127}
  }

  /** The channel of deck messages: 0 for the left deck, 1 for the right. */
  function DeckOfChannel(ch: Byte): Deck
  {
    if ch == 0 then Deck.Left else Deck.Right
  }

  function MixerChannelOf(deck: Deck): MixerChannel
  {
    match deck
    case Left => MixerChannel.Left
    case Right => MixerChannel.Right
  }

  /** `Input::try_from_midi_message` */
  function TryFromMidiMessage(msg: Message): (r: Option<Input>)
    requires Accepted(msg)
    ensures r.Some? ==> |msg| == 3 && msg[0] in {0x90, 0x91, 0xb0, 0xb1, 0xb6}
    ensures r.Some? && r.value.Deck? ==>
              msg[0] in {0x90, 0x91, 0xb0, 0xb1} &&
              (r.value.deck == Deck.Left <==> msg[0] in {0x90, 0xb0})
    ensures r.Some? && r.value.Mixer? && r.value.mixerInput.Crossfader? <==>
              |msg| == 3 && msg[0] == 0xb6 && msg[1] in {0x3f, 0x1f}
  {
    if |msg| != 3 then None
    else
      var status, d1, d2 := msg[0], msg[1], msg[2];
      if status in {0x90, 0x91} then
        var deck := DeckOfChannel(status - 0x90);
        if d1 == 0x0b then Some(Input.Deck(deck, DeckInput.Button(PlayPause, U7ToButton(d2))))
        else if d1 == 0x0c then Some(Input.Deck(deck, DeckInput.Button(Cue, U7ToButton(d2))))
        else None
      else if status == 0xb6 then
        if d1 == 0x3f then Some(Input.Mixer(Crossfader(Lo(d2))))
        else if d1 == 0x1f then Some(Input.Mixer(Crossfader(Hi(d2))))
        else None
      else if status in {0xb0, 0xb1} then
        var deck := DeckOfChannel(status - 0xb0);
        if d1 == 0x33 then Some(Input.Mixer(VolumeFader(MixerChannelOf(deck), Lo(d2))))
        else if d1 == 0x13 then Some(Input.Mixer(VolumeFader(MixerChannelOf(deck), Hi(d2))))
        else if d1 == 0x00 then Some(Input.Deck(deck, PitchFader(Hi(d2))))
        else if d1 == 0x20 then Some(Input.Deck(deck, PitchFader(Lo(d2))))
        else if d1 == 0x21 && d2 == 0x3f then Some(Input.Deck(deck, JogWheel(Rev)))
        else if d1 == 0x21 && d2 == 0x41 then Some(Input.Deck(deck, JogWheel(Fwd)))
        else None
      else None
  }

  function ChannelOfDeck(deck: Deck): Byte
  {
    match deck
    case Left => 0
    case Right => 1
  }

  function ChannelOfMixer(channel: MixerChannel): Byte
  {
    match channel
    case Left => 0
    case Right => 1
  }

  function HalfNote(half: HalfU14, hiNote: Byte, loNote: Byte): (Byte, Byte)
  {
    match half
    case Hi(v) => (hiNote, v)
    case Lo(v) => (loNote, v)
  }

  /** The message the controller sends for an input: the inverse of the table. */
  function MidiMessageOf(input: Input): (msg: Message)
    ensures |msg| == 3 && Accepted(msg)
  {
    match input
    case Deck(deck, Button(ctrl, state)) =>
      [0x90 + ChannelOfDeck(deck),
       match ctrl case PlayPause => 0x0b case Cue => 0x0c,
       match state case Pressed => 127 case Released => 0]
    case Deck(deck, PitchFader(half)) =>
      var (d1, d2) := HalfNote(half, 0x00, 0x20);
      [0xb0 + ChannelOfDeck(deck), d1, d2]
    case Deck(deck, JogWheel(dir)) =>
      [0xb0 + ChannelOfDeck(deck), 0x21, match dir case Rev => 0x3f case Fwd => 0x41]
    case Mixer(Crossfader(half)) =>
      var (d1, d2) := HalfNote(half, 0x1f, 0x3f);
      [0xb6, d1, d2]
    case Mixer(VolumeFader(channel, half)) =>
      var (d1, d2) := HalfNote(half, 0x13, 0x33);
      [0xb0 + ChannelOfMixer(channel), d1, d2]
  }

  /**
   * The table is a bijection between the inputs and the messages it
   * recognises: every input is decoded from its message, and every
   * recognised message is the message of what it decodes to.
   */
  lemma MessageRoundTrip(input: Input, msg: Message)
    ensures TryFromMidiMessage(MidiMessageOf(input)) == Some(input)
    ensures Accepted(msg) && TryFromMidiMessage(msg).Some? ==>
              MidiMessageOf(TryFromMidiMessage(msg).value) == msg
  {
    match input
    case Deck(deck, _) => {}
    case Mixer(VolumeFader(channel, _)) => {}
    case Mixer(Crossfader(_)) => {}
  }

  /** `Gateway::handle_midi_input`: unrecognised messages are silently ignored. */
  function HandleMidiInput(ts: TimeStamp, msg: Message): (events: seq<I.InputEvent<Input>>)
    requires Accepted(msg)
    ensures |events| <= 1
    ensures |events| == 1 <==> TryFromMidiMessage(msg).Some?
    ensures forall e | e in events :: e.ts == ts && Some(e.input) == TryFromMidiMessage(msg)
  {
    match TryFromMidiMessage(msg)
    case None => []
    case Some(input) => [I.InputEvent(ts, input)]
  }
}
