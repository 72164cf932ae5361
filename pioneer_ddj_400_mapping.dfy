/**
 * Pioneer DDJ-400 input mapping: the same message table as the older
 * device module, producing the mapping layer's own event types.
 */
module PioneerDdj400Mapping {
  import opened Common
  import P = PioneerDdj400

  datatype Deck = Left | Right
  datatype DeckButton = PlayPause | Cue
  datatype WheelDirection = Rev | Fwd
  datatype MixerChannel = Left | Right

  datatype DeckInputEvent =
    | Button(ctrl: DeckButton, input: ButtonInput)
    | PitchFader(half: P.HalfU14)
    | JogWheel(direction: WheelDirection)

  datatype MixerInputEvent =
    | Crossfader(crossfaderHalf: P.HalfU14)
    | VolumeFader(channel: MixerChannel, volumeHalf: P.HalfU14)

  datatype InputEvent =
    | Deck(deck: Deck, deckInput: DeckInputEvent)
    | Mixer(mixerInput: MixerInputEvent)

  function U7ToButton(v: Byte): (r: ButtonInput)
    requires v == 0 || v == 127
    ensures r == Pressed <==> v == 127
  {
    if v == 0 then Released else Pressed
  }

  /** Button messages must carry 0 or 127. */
  predicate Accepted(msg: Message)
  {
    |msg| == 3 && msg[0] in {0x90, 0x91} && msg[1] in {0x0b, 0x0c} ==> msg[2] in {0, 127}
  }

  /** `InputEvent::try_from_midi_message` */
  function TryFromMidiMessage(msg: Message): (r: Option<InputEvent>)
    requires Accepted(msg)
    ensures r.Some? ==> |msg| == 3
    ensures r.Some? && r.value.Deck? ==> (r.value.deck == Deck.Left <==> msg[0] in {0x90, 0xb0})
    ensures r.Some? && r.value.Deck? && r.value.deckInput.Button? ==>
              msg[0] in {0x90, 0x91} && (r.value.deckInput.ctrl == PlayPause <==> msg[1] == 0x0b)
    ensures r.Some? && r.value.Deck? && r.value.deckInput.JogWheel? ==>
              msg[1] == 0x21 && (r.value.deckInput.direction == Rev <==> msg[2] == 0x3f)
    ensures r.Some? && r.value.Mixer? && r.value.mixerInput.Crossfader? <==>
              |msg| == 3 && msg[0] == 0xb6 && msg[1] in {0x3f, 0x1f}
  {
    if |msg| != 3 then None
    else
      var status, d1, d2 := msg[0], msg[1], msg[2];
      var deck := if status in {0x90, 0xb0} then Deck.Left else Deck.Right;
      var channel := if status == 0xb0 then MixerChannel.Left else MixerChannel.Right;
      if status in {0x90, 0x91} && d1 == 0x0b then Some(Deck(deck, Button(PlayPause, U7ToButton(d2))))
      else if status in {0x90, 0x91} && d1 == 0x0c then Some(Deck(deck, Button(Cue, U7ToButton(d2))))
      else if status == 0xb6 && d1 == 0x3f then Some(Mixer(Crossfader(P.Lo(d2))))
      else if status == 0xb6 && d1 == 0x1f then Some(Mixer(Crossfader(P.Hi(d2))))
      else if status in {0xb0, 0xb1} && d1 == 0x33 then Some(Mixer(VolumeFader(channel, P.Lo(d2))))
      else if status in {0xb0, 0xb1} && d1 == 0x13 then Some(Mixer(VolumeFader(channel, P.Hi(d2))))
      else if status in {0xb0, 0xb1} && d1 == 0x00 then Some(Deck(deck, PitchFader(P.Hi(d2))))
      else if status in {0xb0, 0xb1} && d1 == 0x20 then Some(Deck(deck, PitchFader(P.Lo(d2))))
      else if status in {0xb0, 0xb1} && d1 == 0x21 && d2 == 0x3f then Some(Deck(deck, JogWheel(Rev)))
      else if status in {0xb0, 0xb1} && d1 == 0x21 && d2 == 0x41 then Some(Deck(deck, JogWheel(Fwd)))
      else None
  }

  /** The mapping layer's name for an input of the device module. */
  function FromDeviceInput(input: P.Input): (r: InputEvent)
  {
    match input
    case Deck(deck, deckInput) =>
      var d := match deck case Left => Deck.Left case Right => Deck.Right;
      Deck(d,
        match deckInput
        case Button(ctrl, state) => Button(match ctrl case PlayPause => PlayPause case Cue => Cue, state)
        case PitchFader(half) => PitchFader(half)
        case JogWheel(dir) => JogWheel(match dir case Rev => Rev case Fwd => Fwd))
    case Mixer(Crossfader(half)) => Mixer(Crossfader(half))
    case Mixer(VolumeFader(channel, half)) =>
      Mixer(VolumeFader(match channel case Left => MixerChannel.Left case Right => MixerChannel.Right, half))
  }

  /**
   * The two tables agree: every message decodes here exactly as the
   * device module decodes it, so both recognise the same messages.
   */
  lemma AgreesWithDeviceTable(msg: Message)
    requires Accepted(msg)
    ensures P.Accepted(msg)
    ensures TryFromMidiMessage(msg).Some? <==> P.TryFromMidiMessage(msg).Some?
    ensures P.TryFromMidiMessage(msg).Some? ==>
              TryFromMidiMessage(msg) == Some(FromDeviceInput(P.TryFromMidiMessage(msg).value))
  {
  }
}
