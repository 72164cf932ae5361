/**
 * Denon DJ MC6000MK2 input: three-byte MIDI messages decoded into deck,
 * side and mixer inputs, and the flat sensor enumeration with its
 * control-index encoding.
 *
 * The decoder splits the status byte into a command and a channel. As
 * written the command is the LOW nibble of the status, although MIDI puts
 * the command into the high nibble and the channel into the low one; both
 * the decoder as written and the decoder with the high nibble are
 * modelled, and the rest of the model uses the latter.
 */
module DenonDjMc6000Mk2Input {
  import opened Common
  import opened Djio
  import I = Input

  datatype Deck = One | Two | Three | Four
  datatype Side = Left | Right

  /**
   * Constants of the parent module, which is not part of this model:
   * the MIDI command codes, the deck button notes and `Deck::side`.
   */
  datatype Constants = Constants(
    cmdNoteOff: Byte,
    cmdNoteOn: Byte,
    cmdCc: Byte,
    deckCueButton: Byte,
    deckPlayPauseButton: Byte,
    deckSyncButton: Byte,
    sideOf: Deck -> Side)

  /** Notes of the two shift buttons, one per side. */
  const SHIFT_NOTES: set<Byte> := {0x60, 0x61}

  /** Command of the pitch-fader messages. */
  const PITCH_CMD: Byte := 0xe0

  /**
   * What MIDI makes of the command constants: distinct status high
   * nibbles other than the pitch command, and deck button notes that are
   * distinct and not shift notes.
   */
  predicate ValidConstants(k: Constants)
  {
    && k.cmdNoteOff % 16 == 0 && k.cmdNoteOn % 16 == 0 && k.cmdCc % 16 == 0
    && k.cmdNoteOff >= 0x80 && k.cmdNoteOn >= 0x80 && k.cmdCc >= 0x80
    && k.cmdNoteOff != k.cmdNoteOn && k.cmdNoteOff != k.cmdCc && k.cmdNoteOn != k.cmdCc
    && PITCH_CMD !in {k.cmdNoteOff, k.cmdNoteOn, k.cmdCc}
    && k.deckCueButton !in SHIFT_NOTES && k.deckPlayPauseButton !in SHIFT_NOTES
    && k.deckSyncButton !in SHIFT_NOTES
    && k.deckCueButton != k.deckPlayPauseButton && k.deckCueButton != k.deckSyncButton
    && k.deckPlayPauseButton != k.deckSyncButton
  }

  /** The channel of a deck; decks 1 and 3 share the left side's channels. */
  function ChannelOfDeck(deck: Deck): (ch: Byte)
    ensures ch < 4
  {
    match deck
    case One => 0
    case Three => 1
    case Two => 2
    case Four => 3
  }

  /**
   * The status of a command sent for a deck, from the source's unused
   * `deck_cmd_to_midi_status`: the command with the deck's channel in its
   * two lowest bits.
   */
  function DeckCmdToMidiStatus(deck: Deck, cmd: Byte): (status: Byte)
    requires cmd % 4 == 0
    ensures status - status % 4 == cmd
    ensures status % 4 == ChannelOfDeck(deck)
  {
    BitOrDisjoint(cmd / 4, 2, ChannelOfDeck(deck));
    cmd + ChannelOfDeck(deck)
  }

  /** The deck of a status: its two lowest bits. */
  function DeckOfStatus(status: Byte): (deck: Deck)
    ensures ChannelOfDeck(deck) == status % 4
  {
    match status % 4
    case 0 => One
    case 1 => Three
    case 2 => Two
    case 3 => Four
  }

  /** `midi_status_to_deck_cmd` as written: the command is `status & 0xf`. */
  function MidiStatusToDeckCmd(status: Byte): (r: (Deck, Byte))
    ensures r.1 < 16 && r.1 == status % 16
    ensures ChannelOfDeck(r.0) == status % 4
  {
    (DeckOfStatus(status), status % 16)
  }

  /** `midi_status_to_deck_cmd` with the command taken as `status & 0xf0`. */
  function MidiStatusToDeckCmdCorrected(status: Byte): (r: (Deck, Byte))
    ensures r.1 % 16 == 0 && r.1 <= status < r.1 + 16
    ensures ChannelOfDeck(r.0) == status % 4
  {
    (DeckOfStatus(status), status - status % 16)
  }

  /** The channel in the status identifies the deck. */
  lemma ChannelOfDeckInjective(a: Deck, b: Deck)
    ensures ChannelOfDeck(a) == ChannelOfDeck(b) ==> a == b
  {
  }

  /**
   * With the command in the high nibble the status encoding round-trips
   * for every deck and command.
   */
  lemma {:induction false} StatusRoundTrip(deck: Deck, cmd: Byte)
    requires cmd % 16 == 0
    ensures MidiStatusToDeckCmdCorrected(DeckCmdToMidiStatus(deck, cmd)) == (deck, cmd)
  {
    var status := DeckCmdToMidiStatus(deck, cmd);
    LowNibble(cmd, ChannelOfDeck(deck));
    assert status % 16 == ChannelOfDeck(deck);
    ChannelOfDeckInjective(DeckOfStatus(status), deck);
  }

  /** A channel below 16 added to a command in the high nibble is the low nibble. */
  lemma LowNibble(cmd: Byte, ch: nat)
    requires cmd % 16 == 0 && ch < 16
    ensures (cmd + ch) % 16 == ch
  {
    var q := cmd / 16;
    assert cmd + ch == 16 * q + ch;
  }

  /**
   * As written the command decoded from a status is its channel: the
   * command the status was built from is lost for every deck.
   */
  lemma StatusCommandLost(deck: Deck, cmd: Byte)
    requires cmd % 16 == 0
    ensures MidiStatusToDeckCmd(DeckCmdToMidiStatus(deck, cmd)) == (deck, ChannelOfDeck(deck))
    ensures cmd != 0 ==> MidiStatusToDeckCmd(DeckCmdToMidiStatus(deck, cmd)).1 != cmd
  {
    var status := DeckCmdToMidiStatus(deck, cmd);
    ChannelOfDeckInjective(DeckOfStatus(status), deck);
  }

  /** `midi_value_to_button`: 0x00 is released and 0x40 pressed. */
  function MidiValueToButton(data2: Byte): (r: ButtonInput)
    requires data2 == 0x00 || data2 == 0x40
    ensures r == Pressed <==> data2 == 0x40
  {
    if data2 == 0x00 then Released else Pressed
  }

  /** The `inverse()` of a value; that conversion is not part of this model. */
  datatype Inverted<T> = Inverse(of: T)

  datatype SideInput =
    | ShiftButton(shift: ButtonInput)
    | PitchFader(pitch: Inverted<I.CenterSliderInput>)
    | Efx1Knob(efx1: I.SliderInput)
    | Efx2Knob(efx2: I.SliderInput)
    | Efx3Knob(efx3: I.SliderInput)

  datatype DeckInput =
    | CueButton(cue: ButtonInput)
    | PlayPauseButton(playPause: ButtonInput)
    | SyncButton(sync: ButtonInput)
    | LevelFader(level: I.SliderInput)
    | JogWheelBend(bend: Inverted<I.SliderEncoderInput>)
    | JogWheelScratch(scratch: Inverted<I.SliderEncoderInput>)
    | GainKnob(gain: I.CenterSliderInput)
    | EqHiKnob(eqHi: I.SliderInput)
    | EqLoKnob(eqLo: I.SliderInput)
    | EqMidKnob(eqMid: I.SliderInput)

  /**
   * A decoded input. `BrowseKnob(raw)` stands for
   * `StepEncoderInput::from_u7(raw)`, which is not part of this model.
   */
  datatype Input =
    | Crossfader(crossfader: I.CenterSliderInput)
    | BrowseKnob(raw: Byte)
    | Side(side: Side, sideInput: SideInput)
    | Deck(deck: Deck, deckInput: DeckInput)

  /** The arms of the decoder, tried in the source's order. */
  predicate IsNoteCmd(k: Constants, cmd: Byte)
  {
    cmd == k.cmdNoteOff || cmd == k.cmdNoteOn
  }

  predicate IsCcCmd(k: Constants, cmd: Byte)
  {
    !IsNoteCmd(k, cmd) && cmd == k.cmdCc
  }

  predicate IsPitchCmd(k: Constants, cmd: Byte)
  {
    !IsNoteCmd(k, cmd) && !IsCcCmd(k, cmd) && cmd == PITCH_CMD
  }

  /** The controller-change codes the decoder handles. */
  predicate HandledCc(d1: Byte)
  {
    (0x01 <= d1 <= 0x05) || (0x07 <= d1 <= 0x17) || d1 in {0x51, 0x52, 0x54, 0x55, 0x56, 0x57}
  }

  /** The note codes the decoder handles. */
  predicate HandledNote(k: Constants, d1: Byte)
  {
    d1 in SHIFT_NOTES || d1 == k.deckCueButton || d1 == k.deckPlayPauseButton || d1 == k.deckSyncButton
  }

  /**
   * What decoding a command demands of the data bytes: button values
   * 0x00 or 0x40 agreeing with note-off and note-on, and 7-bit values
   * wherever a value is converted.
   */
  predicate AcceptedFor(k: Constants, cmd: Byte, d1: Byte, d2: Byte)
  {
    && (IsNoteCmd(k, cmd) ==>
          (d2 == 0x00 || d2 == 0x40) &&
          (cmd == k.cmdNoteOn <==> d2 == 0x40) &&
          (cmd == k.cmdNoteOff <==> d2 == 0x00))
    && (IsCcCmd(k, cmd) && HandledCc(d1) ==> d2 < 128)
    && (IsPitchCmd(k, cmd) ==> d1 < 128 && d2 < 128)
  }

  /** The button state an input carries, if it is a button. */
  function ButtonOf(input: Input): Option<ButtonInput>
  {
    match input
    case Side(_, ShiftButton(b)) => Some(b)
    case Deck(_, CueButton(b)) => Some(b)
    case Deck(_, PlayPauseButton(b)) => Some(b)
    case Deck(_, SyncButton(b)) => Some(b)
    case _ => None
  }

  /** The note arm. */
  function DecodeNote(k: Constants, deck: Deck, d1: Byte, button: ButtonInput): (r: Option<Input>)
    ensures r.Some? <==> HandledNote(k, d1)
    ensures r.Some? ==> ButtonOf(r.value) == Some(button)
    ensures r.Some? && r.value.Side? ==> r.value.side == k.sideOf(deck) && d1 in SHIFT_NOTES
    ensures r.Some? && r.value.Deck? ==> r.value.deck == deck && d1 !in SHIFT_NOTES
  {
    if d1 in SHIFT_NOTES then Some(Side(k.sideOf(deck), ShiftButton(button)))
    else if d1 == k.deckCueButton then Some(Input.Deck(deck, CueButton(button)))
    else if d1 == k.deckPlayPauseButton then Some(Input.Deck(deck, PlayPauseButton(button)))
    else if d1 == k.deckSyncButton then Some(Input.Deck(deck, SyncButton(button)))
    else None
  }

  /** The controller-change arm. */
  function DecodeCc(k: Constants, deck: Deck, d1: Byte, d2: Byte): (r: Option<Input>)
    requires HandledCc(d1) ==> d2 < 128
    ensures r.Some? <==> HandledCc(d1)
    ensures r.Some? ==> ButtonOf(r.value).None?
    ensures r.Some? && r.value.Deck? ==> r.value.deck == deck
    ensures r.Some? && r.value.Side? ==> r.value.side == k.sideOf(deck) && !r.value.sideInput.PitchFader?
    ensures r.Some? && (r.value.Crossfader? || r.value.BrowseKnob?) ==> d1 in {0x16, 0x17, 0x54}
  {
    if d1 in {0x01, 0x07, 0x0c, 0x11} then Some(Input.Deck(deck, GainKnob(I.CenterSliderFromU7(d2))))
    else if d1 in {0x02, 0x08, 0x0d, 0x12} then Some(Input.Deck(deck, EqHiKnob(I.SliderFromU7(d2))))
    else if d1 in {0x03, 0x09, 0x0e, 0x13} then Some(Input.Deck(deck, EqMidKnob(I.SliderFromU7(d2))))
    else if d1 in {0x04, 0x0a, 0x0f, 0x14} then Some(Input.Deck(deck, EqLoKnob(I.SliderFromU7(d2))))
    else if d1 in {0x05, 0x0b, 0x10, 0x15} then Some(Input.Deck(deck, LevelFader(I.SliderFromU7(d2))))
    else if d1 in {0x16, 0x17} then Some(Crossfader(I.CenterSliderFromU7(d2)))
    else if d1 == 0x51 then Some(Input.Deck(deck, JogWheelBend(Inverse(I.SliderEncoderFromU7(d2)))))
    else if d1 == 0x52 then Some(Input.Deck(deck, JogWheelScratch(Inverse(I.SliderEncoderFromU7(d2)))))
    else if d1 == 0x54 then Some(BrowseKnob(d2))
    else if d1 == 0x55 then Some(Side(k.sideOf(deck), Efx1Knob(I.SliderFromU7(d2))))
    else if d1 == 0x56 then Some(Side(k.sideOf(deck), Efx2Knob(I.SliderFromU7(d2))))
    else if d1 == 0x57 then Some(Side(k.sideOf(deck), Efx3Knob(I.SliderFromU7(d2))))
    else None
  }

  /** The pitch-fader arm: a 14-bit value, least significant byte first. */
  function DecodePitch(k: Constants, deck: Deck, d1: U7, d2: U7): (r: Input)
    ensures r.Side? && r.side == k.sideOf(deck) && r.sideInput.PitchFader?
    ensures r.sideInput.pitch.of.position < 0.0 <==> d2 < 64
  {
    Side(k.sideOf(deck), PitchFader(Inverse(I.CenterSliderFromU14(U7BeToU14(d2, d1)))))
  }

  /** The input decoded from a command, a deck and the two data bytes. */
  function DecodeCmd(k: Constants, deck: Deck, cmd: Byte, d1: Byte, d2: Byte): (r: Option<Input>)
    requires AcceptedFor(k, cmd, d1, d2)
    ensures r.Some? ==> IsNoteCmd(k, cmd) || IsCcCmd(k, cmd) || IsPitchCmd(k, cmd)
    ensures IsNoteCmd(k, cmd) ==>
              (r.Some? <==> HandledNote(k, d1)) &&
              (r.Some? ==> ButtonOf(r.value) == Some(if cmd == k.cmdNoteOn then Pressed else Released))
    ensures IsCcCmd(k, cmd) ==> (r.Some? <==> HandledCc(d1))
    ensures IsPitchCmd(k, cmd) <==> r.Some? && r.value.Side? && r.value.sideInput.PitchFader?
    ensures r.Some? && r.value.Deck? ==> r.value.deck == deck
    ensures r.Some? && r.value.Side? ==> r.value.side == k.sideOf(deck)
  {
    if IsNoteCmd(k, cmd) then DecodeNote(k, deck, d1, MidiValueToButton(d2))
    else if cmd == k.cmdCc then DecodeCc(k, deck, d1, d2)
    else if cmd == PITCH_CMD then Some(DecodePitch(k, deck, d1, d2))
    else None
  }

  /** What the source demands of a message, with the command as written. */
  predicate Accepted(k: Constants, msg: Message)
  {
    |msg| == 3 ==> AcceptedFor(k, MidiStatusToDeckCmd(msg[0]).1, msg[1], msg[2])
  }

  predicate AcceptedCorrected(k: Constants, msg: Message)
  {
    |msg| == 3 ==> AcceptedFor(k, MidiStatusToDeckCmdCorrected(msg[0]).1, msg[1], msg[2])
  }

  /**
   * `InputGateway::recv_midi_input` as written: messages that are not
   * three bytes long or that no arm handles emit nothing, every other
   * message one event at `ts`.
   */
  function RecvMidiInput(k: Constants, ts: TimeStamp, msg: Message): (events: seq<I.InputEvent<Input>>)
    requires Accepted(k, msg)
    ensures |events| <= 1
    ensures |msg| != 3 ==> events == []
    ensures |events| == 1 ==> events[0].ts == ts
    ensures |msg| == 3 ==>
              var (deck, cmd) := MidiStatusToDeckCmd(msg[0]);
              (|events| == 1 <==> DecodeCmd(k, deck, cmd, msg[1], msg[2]).Some?) &&
              (|events| == 1 ==> Some(events[0].input) == DecodeCmd(k, deck, cmd, msg[1], msg[2]))
  {
    if |msg| != 3 then []
    else
      var (deck, cmd) := MidiStatusToDeckCmd(msg[0]);
      match DecodeCmd(k, deck, cmd, msg[1], msg[2])
      case None => []
      case Some(input) => [I.InputEvent(ts, input)]
  }

  /** `recv_midi_input` with the command taken from the high nibble. */
  function RecvMidiInputCorrected(k: Constants, ts: TimeStamp, msg: Message): (events: seq<I.InputEvent<Input>>)
    requires AcceptedCorrected(k, msg)
    ensures |events| <= 1
    ensures |msg| != 3 ==> events == []
    ensures |events| == 1 ==> events[0].ts == ts
    ensures |msg| == 3 ==>
              var (deck, cmd) := MidiStatusToDeckCmdCorrected(msg[0]);
              (|events| == 1 <==> DecodeCmd(k, deck, cmd, msg[1], msg[2]).Some?) &&
              (|events| == 1 ==> Some(events[0].input) == DecodeCmd(k, deck, cmd, msg[1], msg[2]))
  {
    if |msg| != 3 then []
    else
      var (deck, cmd) := MidiStatusToDeckCmdCorrected(msg[0]);
      match DecodeCmd(k, deck, cmd, msg[1], msg[2])
      case None => []
      case Some(input) => [I.InputEvent(ts, input)]
  }

  /**
   * As written the pitch-fader arm is dead: whatever the constants, no
   * message decodes to a pitch-fader input, because the command is a
   * low nibble and never equals 0xe0.
   */
  lemma PitchFaderNeverDecoded(k: Constants, ts: TimeStamp, msg: Message)
    requires Accepted(k, msg)
    ensures forall e | e in RecvMidiInput(k, ts, msg) :: !(e.input.Side? && e.input.sideInput.PitchFader?)
  {
  }

  /**
   * As written, once the command constants are status high nibbles as in
   * MIDI, every message is accepted and none emits anything.
   */
  lemma NothingDecoded(k: Constants, ts: TimeStamp, msg: Message)
    requires ValidConstants(k)
    ensures Accepted(k, msg)
    ensures RecvMidiInput(k, ts, msg) == []
  {
  }

  /** The message the controller sends for a pitch-fader position of a deck. */
  function PitchMessage(deck: Deck, value: U14): (msg: Message)
    ensures |msg| == 3
  {
    [DeckCmdToMidiStatus(deck, PITCH_CMD), value % 128, value / 128]
  }

  /**
   * Corrected, a pitch-fader message decodes to the pitch fader of the
   * deck's side with the 14-bit value it carries.
   */
  lemma {:induction false} PitchMessageDecodes(k: Constants, ts: TimeStamp, deck: Deck, value: U14)
    requires ValidConstants(k)
    ensures AcceptedCorrected(k, PitchMessage(deck, value))
    ensures RecvMidiInputCorrected(k, ts, PitchMessage(deck, value)) ==
              [I.InputEvent(ts, Side(k.sideOf(deck), PitchFader(Inverse(I.CenterSliderFromU14(value)))))]
  {
    StatusRoundTrip(deck, PITCH_CMD);
    var msg := PitchMessage(deck, value);
    assert U7BeToU14(msg[2], msg[1]) == value;
  }

  datatype DeckButton = Cue | PlayPause | Sync

  function NoteOfButton(k: Constants, b: DeckButton): Byte
  {
    match b
    case Cue => k.deckCueButton
    case PlayPause => k.deckPlayPauseButton
    case Sync => k.deckSyncButton
  }

  function DeckButtonInput(b: DeckButton, state: ButtonInput): DeckInput
  {
    match b
    case Cue => CueButton(state)
    case PlayPause => PlayPauseButton(state)
    case Sync => SyncButton(state)
  }

  /** The note-on or note-off message the controller sends for a deck button. */
  function ButtonMessage(k: Constants, deck: Deck, b: DeckButton, state: ButtonInput): (msg: Message)
    requires ValidConstants(k)
    ensures |msg| == 3
  {
    var cmd := match state case Pressed => k.cmdNoteOn case Released => k.cmdNoteOff;
    [DeckCmdToMidiStatus(deck, cmd), NoteOfButton(k, b), match state case Pressed => 0x40 case Released => 0x00]
  }

  /** Corrected, every deck button message decodes to that button of that deck. */
  lemma {:induction false} ButtonMessageDecodes(k: Constants, ts: TimeStamp, deck: Deck, b: DeckButton, state: ButtonInput)
    requires ValidConstants(k)
    ensures AcceptedCorrected(k, ButtonMessage(k, deck, b, state))
    ensures RecvMidiInputCorrected(k, ts, ButtonMessage(k, deck, b, state)) ==
              [I.InputEvent(ts, Input.Deck(deck, DeckButtonInput(b, state)))]
  {
    var cmd := match state case Pressed => k.cmdNoteOn case Released => k.cmdNoteOff;
    StatusRoundTrip(deck, cmd);
  }

  /**
   * The mixer-strip codes come in four blocks of five consecutive codes,
   * starting at 0x01, 0x07, 0x0c and 0x11; the slot of a code is its
   * offset within its block.
   */
  function StripSlot(d1: Byte): (slot: Option<nat>)
    ensures slot.Some? ==> slot.value < 5
  {
    if 0x01 <= d1 <= 0x05 then Some(d1 - 0x01)
    else if 0x07 <= d1 <= 0x0b then Some(d1 - 0x07)
    else if 0x0c <= d1 <= 0x10 then Some(d1 - 0x0c)
    else if 0x11 <= d1 <= 0x15 then Some(d1 - 0x11)
    else None
  }

  /** The control in each slot of a block: gain, high, mid and low EQ, level. */
  function StripControl(slot: nat, v: U7): DeckInput
    requires slot < 5
  {
    if slot == 0 then GainKnob(I.CenterSliderFromU7(v))
    else if slot == 1 then EqHiKnob(I.SliderFromU7(v))
    else if slot == 2 then EqMidKnob(I.SliderFromU7(v))
    else if slot == 3 then EqLoKnob(I.SliderFromU7(v))
    else LevelFader(I.SliderFromU7(v))
  }

  /**
   * Every code of the four blocks decodes to the control of its slot on
   * the deck of the status, and every gain, EQ or level input comes from
   * such a code.
   */
  lemma StripLayout(k: Constants, deck: Deck, d1: Byte, d2: U7)
    ensures StripSlot(d1).Some? ==> DecodeCc(k, deck, d1, d2) == Some(Input.Deck(deck, StripControl(StripSlot(d1).value, d2)))
    ensures DecodeCc(k, deck, d1, d2).Some? && DecodeCc(k, deck, d1, d2).value.Deck? ==>
              var c := DecodeCc(k, deck, d1, d2).value.deckInput;
              (c.GainKnob? || c.EqHiKnob? || c.EqMidKnob? || c.EqLoKnob? || c.LevelFader?) ==> StripSlot(d1).Some?
  {
  }

  const SENSOR_COUNT: nat := 76

  /**
   * Flattened enumeration of all sensors, `repr(u32)`: a sensor is its
   * declaration ordinal, with one named constant per variant.
   */
  newtype Sensor = n: int | 0 <= n < 76

  const BrowseKnobShiftButton: Sensor := 0
  const TapButton: Sensor := 1
  const TapHoldButton: Sensor := 2
  const TouchPadModeButton: Sensor := 3
  const TouchPadLowerLeftButton: Sensor := 4
  const TouchPadLowerRightButton: Sensor := 5
  const TouchPadUpperLeftButton: Sensor := 6
  const TouchPadUpperRightButton: Sensor := 7
  const CrossfaderCenterSlider: Sensor := 8
  const BrowseKnobStepEncoder: Sensor := 9
  const ProgramKnobStepEncoder: Sensor := 10
  const AudiolessMonitorLevel: Sensor := 11
  const AudiolessMonitorMix: Sensor := 12
  const AudiolessMasterLevel: Sensor := 13
  const TouchPadXSlider: Sensor := 14
  const TouchPadYSlider: Sensor := 15
  const DeckAFxButton: Sensor := 16
  const DeckALoadButton: Sensor := 17
  const DeckAMonitorButton: Sensor := 18
  const DeckAShiftButton: Sensor := 19
  const DeckATouchStripCenterButton: Sensor := 20
  const DeckATouchStripHotCueCenterButton: Sensor := 21
  const DeckATouchStripHotCueLeftButton: Sensor := 22
  const DeckATouchStripHotCueRightButton: Sensor := 23
  const DeckATouchStripLeftButton: Sensor := 24
  const DeckATouchStripLoopCenterButton: Sensor := 25
  const DeckATouchStripLoopLeftButton: Sensor := 26
  const DeckATouchStripLoopRightButton: Sensor := 27
  const DeckATouchStripRightButton: Sensor := 28
  const DeckATouchWheelScratchButton: Sensor := 29
  const DeckACueButton: Sensor := 30
  const DeckACueShiftButton: Sensor := 31
  const DeckAPlayPauseButton: Sensor := 32
  const DeckAPlayPauseShiftButton: Sensor := 33
  const DeckASyncButton: Sensor := 34
  const DeckASyncShiftButton: Sensor := 35
  const DeckALevelFaderSlider: Sensor := 36
  const DeckATouchStripSlider: Sensor := 37
  const DeckATouchWheelBendSliderEncoder: Sensor := 38
  const DeckATouchWheelScratchSliderEncoder: Sensor := 39
  const DeckATouchWheelSearchSliderEncoder: Sensor := 40
  const DeckAGainKnobCenterSlider: Sensor := 41
  const DeckAEqHiKnobCenterSlider: Sensor := 42
  const DeckAEqLoKnobCenterSlider: Sensor := 43
  const DeckAEqMidKnobCenterSlider: Sensor := 44
  const DeckAPitchFaderCenterSlider: Sensor := 45
  const DeckBFxButton: Sensor := 46
  const DeckBLoadButton: Sensor := 47
  const DeckBMonitorButton: Sensor := 48
  const DeckBShiftButton: Sensor := 49
  const DeckBTouchStripLeftButton: Sensor := 50
  const DeckBTouchStripCenterButton: Sensor := 51
  const DeckBTouchStripRightButton: Sensor := 52
  const DeckBTouchStripLoopLeftButton: Sensor := 53
  const DeckBTouchStripLoopCenterButton: Sensor := 54
  const DeckBTouchStripLoopRightButton: Sensor := 55
  const DeckBTouchStripHotCueLeftButton: Sensor := 56
  const DeckBTouchStripHotCueCenterButton: Sensor := 57
  const DeckBTouchStripHotCueRightButton: Sensor := 58
  const DeckBTouchWheelScratchButton: Sensor := 59
  const DeckBCueButton: Sensor := 60
  const DeckBCueShiftButton: Sensor := 61
  const DeckBPlayPauseButton: Sensor := 62
  const DeckBPlayPauseShiftButton: Sensor := 63
  const DeckBSyncButton: Sensor := 64
  const DeckBSyncShiftButton: Sensor := 65
  const DeckBLevelFaderSlider: Sensor := 66
  const DeckBTouchStripSlider: Sensor := 67
  const DeckBTouchWheelBendSliderEncoder: Sensor := 68
  const DeckBTouchWheelScratchSliderEncoder: Sensor := 69
  const DeckBTouchWheelSearchSliderEncoder: Sensor := 70
  const DeckBGainKnobCenterSlider: Sensor := 71
  const DeckBEqHiKnobCenterSlider: Sensor := 72
  const DeckBEqLoKnobCenterSlider: Sensor := 73
  const DeckBEqMidKnobCenterSlider: Sensor := 74
  const DeckBPitchFaderCenterSlider: Sensor := 75

  /** `From<Sensor> for ControlIndex`: the ordinal. */
  function SensorToControlIndex(s: Sensor): (ci: ControlIndex)
    ensures ci.value < SENSOR_COUNT
  {
    ControlIndex(s as int)
  }

  datatype InvalidControlIndex = InvalidControlIndex

  /** `TryFrom<ControlIndex> for Sensor`: only ordinals of variants are sensors. */
  function SensorFromControlIndex(ci: ControlIndex): (r: Result<Sensor, InvalidControlIndex>)
    ensures r.Ok? <==> ci.value < SENSOR_COUNT
  {
    if ci.value < SENSOR_COUNT then Ok(ci.value as Sensor) else Err(InvalidControlIndex)
  }

  /**
   * The control-index encoding is a bijection between the sensors and the
   * indices below `SENSOR_COUNT`.
   */
  lemma SensorIndexRoundTrip(s: Sensor, ci: ControlIndex)
    ensures SensorFromControlIndex(SensorToControlIndex(s)) == Ok(s)
    ensures SensorFromControlIndex(ci).Ok? ==> SensorToControlIndex(SensorFromControlIndex(ci).value) == ci
  {
  }
}
