/**
 * Korg KAOSS DJ, older generation of the MIDI decoder. Every button
 * carries a layer: the shifted browse encoder push and the shifted
 * PlayPause/Sync/Cue deck buttons send their own note numbers.
 */
module KorgKaossDj {
  import opened Common
  import opened Djio
  import I = Input
  import M = InputMapping

  const DEVICE_DESCRIPTOR: DeviceDescriptor := DeviceDescriptor("Korg", "KAOSS DJ")
  const PORT_NAME_PREFIX: string := "KAOSS DJ"

  datatype Button =
    | Tap | TapHold | TouchPadMode
    | TouchPadUpperLeft | TouchPadUpperRight | TouchPadLowerLeft | TouchPadLowerRight
    | BrowseEncoderShifted

  datatype CenterSlider = CrossFader

  datatype StepEncoder = BrowseKnob | BrowseKnobShifted | ProgramKnob

  datatype Slider = TouchPadX | TouchPadY

  datatype Deck = A | B

  datatype Layer = Default | Shifted

  datatype DeckButton =
    | Load | Shift | PlayPause | Sync | Cue | Monitor | Fx
    | TouchStripLeft | TouchStripCenter | TouchStripRight
    | TouchStripLoopLeft | TouchStripLoopCenter | TouchStripLoopRight
    | TouchStripHotCueLeft | TouchStripHotCueCenter | TouchStripHotCueRight
    | TouchWheelScratch

  datatype DeckSlider = LineFader | TouchStrip

  datatype DeckSliderEncoder = TouchWheelBend | TouchWheelScratch | TouchWheelSearch

  datatype DeckCenterSlider = PitchFader | GainKnob | LoEqKnob | MidEqKnob | HiEqKnob

  datatype Input =
    | Button(button: Button, layer: Layer, buttonInput: ButtonInput)
    | Slider(slider: Slider, sliderInput: I.SliderInput)
    | CenterSlider(centerSlider: CenterSlider, centerSliderInput: I.CenterSliderInput)
    | StepEncoder(stepEncoder: StepEncoder, stepEncoderInput: I.StepEncoderInput)
    | Deck(deck: Deck, deckInput: DeckInput)

  datatype DeckInput =
    | Button(deckButton: DeckButton, layer: Layer, deckButtonInput: ButtonInput)
    | Slider(deckSlider: DeckSlider, deckSliderInput: I.SliderInput)
    | CenterSlider(deckCenterSlider: DeckCenterSlider, deckCenterSliderInput: I.CenterSliderInput)
    | SliderEncoder(deckSliderEncoder: DeckSliderEncoder, deckSliderEncoderInput: M.SliderEncoderValue)

  predicate IsButtonValue(v: Byte) { v == 0x00 || v == 0x7f }

  /** Button state; only 0 and 127 are ever sent. */
  function U7ToButton(v: Byte): (r: ButtonInput)
    requires IsButtonValue(v)
    ensures r == Pressed <==> v == 0x7f
  {
    if v == 0x00 then Released else Pressed
  }

  predicate IsStepValue(v: Byte) { v == 0x01 || v == 0x7f }

  /** One step clockwise (1) or counter-clockwise (127). */
  function U7ToStepEncoder(v: Byte): (r: I.StepEncoderInput)
    requires IsStepValue(v)
    ensures r.delta == 1 || r.delta == -1
    ensures r.delta == 1 <==> v == 0x01
  {
    I.StepEncoderInput(if v == 0x01 then 1 else -1)
  }

  /** Global buttons and their layer, sent as notes on MIDI channel 7 (status 0x96). */
  function GlobalNote(d1: Byte): (r: Option<(Button, Layer)>)
    ensures r.Some? ==> (r.value.1 == Layer.Shifted <==> d1 == 0x07)
    ensures r.Some? ==> (r.value.0 == Button.BrowseEncoderShifted <==> d1 == 0x07)
  {
    match d1
    case 0x07 => Some((Button.BrowseEncoderShifted, Layer.Shifted))
    case 0x0b => Some((Button.Tap, Layer.Default))
    case 0x21 => Some((Button.TapHold, Layer.Default))
    case 0x22 => Some((Button.TouchPadMode, Layer.Default))
    case 0x4a => Some((Button.TouchPadUpperLeft, Layer.Default))
    case 0x4b => Some((Button.TouchPadUpperRight, Layer.Default))
    case 0x4c => Some((Button.TouchPadLowerLeft, Layer.Default))
    case 0x4d => Some((Button.TouchPadLowerRight, Layer.Default))
    case _ => None
  }

  /** Deck buttons and their layer, sent as notes on MIDI channels 8 and 9. */
  function DeckNote(d1: Byte): (r: Option<(DeckButton, Layer)>)
  {
    match d1
    case 0x0e => Some((DeckButton.Load, Layer.Default))
    case 0x0f => Some((DeckButton.TouchStripLoopLeft, Layer.Default))
    case 0x10 => Some((DeckButton.TouchStripLoopCenter, Layer.Default))
    case 0x11 => Some((DeckButton.TouchStripLoopRight, Layer.Default))
    case 0x12 => Some((DeckButton.TouchStripHotCueLeft, Layer.Default))
    case 0x13 => Some((DeckButton.TouchStripHotCueCenter, Layer.Default))
    case 0x14 => Some((DeckButton.TouchStripHotCueRight, Layer.Default))
    case 0x15 => Some((DeckButton.TouchStripLeft, Layer.Default))
    case 0x16 => Some((DeckButton.TouchStripCenter, Layer.Default))
    case 0x17 => Some((DeckButton.TouchStripRight, Layer.Default))
    case 0x18 => Some((DeckButton.Fx, Layer.Default))
    case 0x19 => Some((DeckButton.Monitor, Layer.Default))
    case 0x1a => Some((DeckButton.Shift, Layer.Default))
    case 0x1b => Some((DeckButton.PlayPause, Layer.Default))
    case 0x1d => Some((DeckButton.Sync, Layer.Default))
    case 0x1e => Some((DeckButton.Cue, Layer.Default))
    case 0x1f => Some((DeckButton.TouchWheelScratch, Layer.Default))
    case 0x2e => Some((DeckButton.PlayPause, Layer.Shifted))
    case 0x2f => Some((DeckButton.Sync, Layer.Shifted))
    case 0x30 => Some((DeckButton.Cue, Layer.Shifted))
    case _ => None
  }

  /**
   * Reference note number of a deck button in a layer: only PlayPause,
   * Sync and Cue have a shifted note.
   */
  function NoteOfDeckButton(b: DeckButton, l: Layer): (r: Option<Byte>)
  {
    match l
    case Shifted => (
      match b
      case PlayPause => Some(0x2e)
      case Sync => Some(0x2f)
      case Cue => Some(0x30)
      case _ => None)
    case Default => Some(
      match b
      case Load => 0x0e
      case TouchStripLoopLeft => 0x0f
      case TouchStripLoopCenter => 0x10
      case TouchStripLoopRight => 0x11
      case TouchStripHotCueLeft => 0x12
      case TouchStripHotCueCenter => 0x13
      case TouchStripHotCueRight => 0x14
      case TouchStripLeft => 0x15
      case TouchStripCenter => 0x16
      case TouchStripRight => 0x17
      case Fx => 0x18
      case Monitor => 0x19
      case Shift => 0x1a
      case PlayPause => 0x1b
      case Sync => 0x1d
      case Cue => 0x1e
      case TouchWheelScratch => 0x1f)
  }

  /**
   * The deck note table and its reference inverse agree in both
   * directions: each (button, layer) pair has at most one note number
   * and each note number names at most one pair.
   */
  lemma DeckNoteBijective(d1: Byte, b: DeckButton, l: Layer)
    ensures DeckNote(d1) == Some((b, l)) <==> NoteOfDeckButton(b, l) == Some(d1)
  {
    match l
    case Shifted => {}
    case Default => {
      match b
      case Load => {}
      case Shift => {}
      case PlayPause => {}
      case Sync => {}
      case Cue => {}
      case Monitor => {}
      case Fx => {}
      case TouchStripLeft => {}
      case TouchStripCenter => {}
      case TouchStripRight => {}
      case TouchStripLoopLeft => {}
      case TouchStripLoopCenter => {}
      case TouchStripLoopRight => {}
      case TouchStripHotCueLeft => {}
      case TouchStripHotCueCenter => {}
      case TouchStripHotCueRight => {}
      case TouchWheelScratch => {}
    }
  }

  /** Deck sliders and encoders, sent as control changes (status 0xb7/0xb8). */
  function DeckCc(d1: Byte, d2: Byte): (r: Option<DeckInput>)
    ensures r.Some? ==> !r.value.Button?
  {
    match d1
    case 0x0e => Some(DeckInput.SliderEncoder(DeckSliderEncoder.TouchWheelBend, M.SliderEncoderValue(d2)))
    case 0x0f => Some(DeckInput.SliderEncoder(DeckSliderEncoder.TouchWheelSearch, M.SliderEncoderValue(d2)))
    case 0x10 => Some(DeckInput.SliderEncoder(DeckSliderEncoder.TouchWheelScratch, M.SliderEncoderValue(d2)))
    case 0x18 => Some(DeckInput.Slider(DeckSlider.LineFader, M.U7ToSlider(d2)))
    case 0x19 => Some(DeckInput.CenterSlider(DeckCenterSlider.PitchFader, M.U7ToCenterSlider(d2)))
    case 0x1a => Some(DeckInput.CenterSlider(DeckCenterSlider.GainKnob, M.U7ToCenterSlider(d2)))
    case 0x1b => Some(DeckInput.CenterSlider(DeckCenterSlider.HiEqKnob, M.U7ToCenterSlider(d2)))
    case 0x1c => Some(DeckInput.CenterSlider(DeckCenterSlider.MidEqKnob, M.U7ToCenterSlider(d2)))
    case 0x1d => Some(DeckInput.CenterSlider(DeckCenterSlider.LoEqKnob, M.U7ToCenterSlider(d2)))
    case 0x21 => Some(DeckInput.Slider(DeckSlider.TouchStrip, M.U7ToSlider(d2)))
    case _ => None
  }

  /** Whether the message is one the controller sends (the source panics on any other). */
  predicate Accepted(msg: Message)
  {
    |msg| == 3 &&
    var status, d1, d2 := msg[0], msg[1], msg[2];
    if status == 0x96 then GlobalNote(d1).Some? && IsButtonValue(d2)
    else if status == 0x97 || status == 0x98 then DeckNote(d1).Some? && IsButtonValue(d2)
    else if status == 0xb8 && d1 == 0x0c then true
    else if (status == 0xb6 || status == 0xb7) && d1 == 0x0c then status == 0xb7
    else if (status == 0xb6 || status == 0xb7 || status == 0xb8) && d1 == 0x0d then true
    else if status == 0xb6 then d1 == 0x17 || ((d1 == 0x1e || d1 == 0x1f) && IsStepValue(d2))
    else if status == 0xb7 || status == 0xb8 then DeckCc(d1, d2).Some?
    else false
  }

  /** The deck whose MIDI channel a status byte addresses. */
  function DeckOfStatus(status: Byte): (r: Deck)
    requires status in {0x97, 0x98, 0xb7, 0xb8}
    ensures r == Deck.A <==> status in {0x97, 0xb7}
  {
    if status == 0x97 || status == 0xb7 then Deck.A else Deck.B
  }

  /**
   * `Input::try_from_midi_message`. Arms are tried in source order; the
   * touch pad X/Y controller numbers win over the global and deck ones.
   */
  function TryFromMidiMessage(msg: Message): (r: Option<Input>)
    requires Accepted(msg)
    ensures r.None? <==> msg[0] == 0xb8 && msg[1] == 0x0c
    ensures r.Some? && r.value.Deck? ==>
              msg[0] in {0x97, 0x98, 0xb7, 0xb8} && r.value.deck == DeckOfStatus(msg[0])
    ensures r.Some? && r.value.Button? ==>
              msg[0] == 0x96 && (r.value.layer == Layer.Shifted <==> msg[1] == 0x07)
    ensures r.Some? && r.value.Deck? && r.value.deckInput.Button? ==>
              msg[0] in {0x97, 0x98} &&
              (r.value.deckInput.layer == Layer.Shifted <==> msg[1] in {0x2e, 0x2f, 0x30})
    ensures msg[1] == 0x0c && r.Some? ==>
              r.value == Input.Slider(Slider.TouchPadX, M.U7ToSlider(msg[2]))
    ensures msg[0] in {0xb6, 0xb7, 0xb8} && msg[1] == 0x0d ==>
              r == Some(Input.Slider(Slider.TouchPadY, M.U7ToSlider(msg[2])))
    ensures msg[0] in {0x96, 0x97, 0x98} ==>
              r.Some? && (r.value.Button? || (r.value.Deck? && r.value.deckInput.Button?))
  {
    var status, d1, d2 := msg[0], msg[1], msg[2];
    if status == 0x96 then
      var (b, l) := GlobalNote(d1).value;
      Some(Input.Button(b, l, U7ToButton(d2)))
    else if status == 0x97 || status == 0x98 then
      var (b, l) := DeckNote(d1).value;
      Some(Input.Deck(DeckOfStatus(status), DeckInput.Button(b, l, U7ToButton(d2))))
    else if status == 0xb8 && d1 == 0x0c then
      // duplicate touch pad X message, filtered
      None
    else if (status == 0xb6 || status == 0xb7) && d1 == 0x0c then
      Some(Input.Slider(Slider.TouchPadX, M.U7ToSlider(d2)))
    else if (status == 0xb6 || status == 0xb7 || status == 0xb8) && d1 == 0x0d then
      Some(Input.Slider(Slider.TouchPadY, M.U7ToSlider(d2)))
    else if status == 0xb6 then
      if d1 == 0x17 then Some(Input.CenterSlider(CenterSlider.CrossFader, M.U7ToCenterSlider(d2)))
      else if d1 == 0x1e then Some(Input.StepEncoder(StepEncoder.BrowseKnob, U7ToStepEncoder(d2)))
      else Some(Input.StepEncoder(StepEncoder.ProgramKnob, U7ToStepEncoder(d2)))
    else
      Some(Input.Deck(DeckOfStatus(status), DeckCc(d1, d2).value))
  }

  /**
   * A deck button message round-trips: the note number of a button in a
   * layer, sent on the deck's channel, decodes to that button and layer.
   */
  lemma DeckButtonDecodes(deck: Deck, b: DeckButton, l: Layer, input: ButtonInput)
    requires NoteOfDeckButton(b, l).Some?
    ensures var msg := [if deck == Deck.A then 0x97 else 0x98, NoteOfDeckButton(b, l).value,
                        if input == Pressed then 0x7f else 0x00];
            Accepted(msg) &&
            TryFromMidiMessage(msg) == Some(Input.Deck(deck, DeckInput.Button(b, l, input)))
  {
    DeckNoteBijective(NoteOfDeckButton(b, l).value, b, l);
  }

  /** `Gateway::handle_midi_input`: one event carrying `ts` if the message decodes, else none. */
  function HandleMidiInput(ts: TimeStamp, msg: Message): (events: seq<I.InputEvent<Input>>)
    requires Accepted(msg)
    ensures |events| <= 1
    ensures |events| == 1 <==> !(msg[0] == 0xb8 && msg[1] == 0x0c)
    ensures forall e | e in events :: e.ts == ts && Some(e.input) == TryFromMidiMessage(msg)
  {
    match TryFromMidiMessage(msg)
    case None => []
    case Some(input) => [I.InputEvent(ts, input)]
  }
}
