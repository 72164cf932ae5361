/**
 * Korg KAOSS DJ: decoding of MIDI input messages into typed controller
 * inputs, and the flattening of those inputs into generic control inputs
 * indexed by sensor ordinal.
 */
module KorgKaossDjInput {
  import opened Common
  import opened Djio
  import I = Input

  /** Left (A) and right (B) deck. */
  datatype Deck = A | B

  datatype Button =
    | BrowseKnobShift | Tap | TapHold | TouchPadLowerLeft | TouchPadLowerRight
    | TouchPadMode | TouchPadUpperLeft | TouchPadUpperRight

  datatype CenterSlider = CrossFader

  datatype StepEncoder = BrowseKnob | ProgramKnob

  datatype Slider = TouchPadX | TouchPadY

  datatype Layer = Plain | Shift

  datatype DeckButton =
    | Fx | Load | Monitor | Shift
    | TouchStripLeft | TouchStripCenter | TouchStripRight
    | TouchStripLoopLeft | TouchStripLoopCenter | TouchStripLoopRight
    | TouchStripHotCueLeft | TouchStripHotCueCenter | TouchStripHotCueRight
    | TouchWheelScratch

  datatype DeckLayerButton = Cue | PlayPause | Sync

  datatype DeckSlider = LevelFader | TouchStrip

  datatype DeckSliderEncoder = TouchWheelBend | TouchWheelScratch | TouchWheelSearch

  datatype DeckCenterSlider = GainKnob | HiEqKnob | LoEqKnob | MidEqKnob | PitchFader

  datatype Input =
    | Button(button: Button, buttonInput: ButtonInput)
    | Slider(slider: Slider, sliderInput: I.SliderInput)
    | CenterSlider(centerSlider: CenterSlider, centerSliderInput: I.CenterSliderInput)
    | StepEncoder(stepEncoder: StepEncoder, stepEncoderInput: I.StepEncoderInput)
    | Deck(deck: Deck, deckInput: DeckInput)

  datatype DeckInput =
    | Button(deckButton: DeckButton, deckButtonInput: ButtonInput)
    | LayerButton(layerButton: DeckLayerButton, layer: Layer, layerButtonInput: ButtonInput)
    | Slider(deckSlider: DeckSlider, deckSliderInput: I.SliderInput)
    | CenterSlider(deckCenterSlider: DeckCenterSlider, deckCenterSliderInput: I.CenterSliderInput)
    | SliderEncoder(deckSliderEncoder: DeckSliderEncoder, deckSliderEncoderInput: I.SliderEncoderInput)

  /** A deck control without its value. */
  datatype DeckControl =
    | ButtonCtrl(button: DeckButton)
    | LayerButtonCtrl(layerButton: DeckLayerButton, layer: Layer)
    | SliderCtrl(slider: DeckSlider)
    | SliderEncoderCtrl(encoder: DeckSliderEncoder)
    | CenterSliderCtrl(centerSlider: DeckCenterSlider)

  /** A control without its value: what an input is about, not what it says. */
  datatype Control =
    | ButtonCtrl(button: Button)
    | SliderCtrl(slider: Slider)
    | CenterSliderCtrl(centerSlider: CenterSlider)
    | StepEncoderCtrl(encoder: StepEncoder)
    | DeckCtrl(deck: Deck, control: DeckControl)

  predicate IsButtonValue(v: Byte) { v == 0x00 || v == 0x7f }

  /** Button state; only 0 and 127 are ever sent. */
  function U7ToButton(v: Byte): (r: ButtonInput)
    requires IsButtonValue(v)
    ensures r == Pressed <==> v == 0x7f
  {
    if v == 0x00 then Released else Pressed
  }

  predicate IsStepValue(v: Byte) { v == 0x01 || v == 0x7f }

  /** One step clockwise (1) or counter-clockwise (127). */
  function U7ToStepEncoder(v: Byte): (r: I.StepEncoderInput)
    requires IsStepValue(v)
    ensures r.delta == 1 || r.delta == -1
    ensures r.delta == 1 <==> v == 0x01
  {
    I.StepEncoderInput(if v == 0x01 then 1 else -1)
  }

  /** Global buttons, sent as notes on MIDI channel 7 (status 0x96). */
  function GlobalNote(d1: Byte): (r: Option<Button>)
  {
    match d1
    case 0x07 => Some(Button.BrowseKnobShift)
    case 0x0b => Some(Button.Tap)
    case 0x21 => Some(Button.TapHold)
    case 0x22 => Some(Button.TouchPadMode)
    case 0x4a => Some(Button.TouchPadUpperLeft)
    case 0x4b => Some(Button.TouchPadUpperRight)
    case 0x4c => Some(Button.TouchPadLowerLeft)
    case 0x4d => Some(Button.TouchPadLowerRight)
    case _ => None
  }

  /** Deck buttons, sent as notes on MIDI channels 8 and 9 (status 0x97/0x98). */
  function DeckNote(d1: Byte): (r: Option<DeckControl>)
    ensures r.Some? ==> r.value.ButtonCtrl? || r.value.LayerButtonCtrl?
  {
    match d1
    case 0x0e => Some(DeckControl.ButtonCtrl(DeckButton.Load))
    case 0x0f => Some(DeckControl.ButtonCtrl(DeckButton.TouchStripLoopLeft))
    case 0x10 => Some(DeckControl.ButtonCtrl(DeckButton.TouchStripLoopCenter))
    case 0x11 => Some(DeckControl.ButtonCtrl(DeckButton.TouchStripLoopRight))
    case 0x12 => Some(DeckControl.ButtonCtrl(DeckButton.TouchStripHotCueLeft))
    case 0x13 => Some(DeckControl.ButtonCtrl(DeckButton.TouchStripHotCueCenter))
    case 0x14 => Some(DeckControl.ButtonCtrl(DeckButton.TouchStripHotCueRight))
    case 0x15 => Some(DeckControl.ButtonCtrl(DeckButton.TouchStripLeft))
    case 0x16 => Some(DeckControl.ButtonCtrl(DeckButton.TouchStripCenter))
    case 0x17 => Some(DeckControl.ButtonCtrl(DeckButton.TouchStripRight))
    case 0x18 => Some(DeckControl.ButtonCtrl(DeckButton.Fx))
    case 0x19 => Some(DeckControl.ButtonCtrl(DeckButton.Monitor))
    case 0x1a => Some(DeckControl.ButtonCtrl(DeckButton.Shift))
    case 0x1b => Some(DeckControl.LayerButtonCtrl(DeckLayerButton.PlayPause, Layer.Plain))
    case 0x1d => Some(DeckControl.LayerButtonCtrl(DeckLayerButton.Sync, Layer.Plain))
    case 0x1e => Some(DeckControl.LayerButtonCtrl(DeckLayerButton.Cue, Layer.Plain))
    case 0x1f => Some(DeckControl.ButtonCtrl(DeckButton.TouchWheelScratch))
    case 0x2e => Some(DeckControl.LayerButtonCtrl(DeckLayerButton.PlayPause, Layer.Shift))
    case 0x2f => Some(DeckControl.LayerButtonCtrl(DeckLayerButton.Sync, Layer.Shift))
    case 0x30 => Some(DeckControl.LayerButtonCtrl(DeckLayerButton.Cue, Layer.Shift))
    case _ => None
  }

  /** Deck sliders and encoders, sent as control changes (status 0xb7/0xb8). */
  function DeckCc(d1: Byte): (r: Option<DeckControl>)
    ensures r.Some? ==> !r.value.ButtonCtrl? && !r.value.LayerButtonCtrl?
  {
    match d1
    case 0x0e => Some(DeckControl.SliderEncoderCtrl(DeckSliderEncoder.TouchWheelBend))
    case 0x0f => Some(DeckControl.SliderEncoderCtrl(DeckSliderEncoder.TouchWheelSearch))
    case 0x10 => Some(DeckControl.SliderEncoderCtrl(DeckSliderEncoder.TouchWheelScratch))
    case 0x18 => Some(DeckControl.SliderCtrl(DeckSlider.LevelFader))
    case 0x19 => Some(DeckControl.CenterSliderCtrl(DeckCenterSlider.PitchFader))
    case 0x1a => Some(DeckControl.CenterSliderCtrl(DeckCenterSlider.GainKnob))
    case 0x1b => Some(DeckControl.CenterSliderCtrl(DeckCenterSlider.HiEqKnob))
    case 0x1c => Some(DeckControl.CenterSliderCtrl(DeckCenterSlider.MidEqKnob))
    case 0x1d => Some(DeckControl.CenterSliderCtrl(DeckCenterSlider.LoEqKnob))
    case 0x21 => Some(DeckControl.SliderCtrl(DeckSlider.TouchStrip))
    case _ => None
  }

  /** Reference note number of every deck button (inverse of `DeckNote`). */
  function NoteOfDeckControl(c: DeckControl): (r: Option<Byte>)
  {
    match c
    case ButtonCtrl(b) => Some(
      match b
      case Load => 0x0e
      case TouchStripLoopLeft => 0x0f
      case TouchStripLoopCenter => 0x10
      case TouchStripLoopRight => 0x11
      case TouchStripHotCueLeft => 0x12
      case TouchStripHotCueCenter => 0x13
      case TouchStripHotCueRight => 0x14
      case TouchStripLeft => 0x15
      case TouchStripCenter => 0x16
      case TouchStripRight => 0x17
      case Fx => 0x18
      case Monitor => 0x19
      case Shift => 0x1a
      case TouchWheelScratch => 0x1f)
    case LayerButtonCtrl(b, l) => Some(
      match b
      case PlayPause => if l == Layer.Plain then 0x1b else 0x2e
      case Sync => if l == Layer.Plain then 0x1d else 0x2f
      case Cue => if l == Layer.Plain then 0x1e else 0x30)
    case _ => None
  }

  /**
   * Every deck button and layer button has exactly one note number: the
   * note table and its reference inverse agree in both directions.
   */
  lemma DeckNoteBijective(d1: Byte, c: DeckControl)
    ensures DeckNote(d1) == Some(c) <==> NoteOfDeckControl(c) == Some(d1)
  {
    match c
    case ButtonCtrl(b) => {
      match b
      case Load => {}
      case TouchStripLoopLeft => {}
      case TouchStripLoopCenter => {}
      case TouchStripLoopRight => {}
      case TouchStripHotCueLeft => {}
      case TouchStripHotCueCenter => {}
      case TouchStripHotCueRight => {}
      case TouchStripLeft => {}
      case TouchStripCenter => {}
      case TouchStripRight => {}
      case Fx => {}
      case Monitor => {}
      case Shift => {}
      case TouchWheelScratch => {}
    }
    case LayerButtonCtrl(b, l) => {}
    case _ => {}
  }

  /** Whether the message is one the controller sends (the source panics on any other). */
  predicate Accepted(msg: Message)
  {
    |msg| == 3 &&
    var status, d1, d2 := msg[0], msg[1], msg[2];
    if status == 0x96 then GlobalNote(d1).Some? && IsButtonValue(d2)
    else if status == 0x97 || status == 0x98 then DeckNote(d1).Some? && IsButtonValue(d2)
    else if status == 0xb8 && d1 == 0x0c then true
    else if (status == 0xb6 || status == 0xb7) && d1 == 0x0c then status == 0xb7 && d2 < 0x80
    else if (status == 0xb6 || status == 0xb7 || status == 0xb8) && d1 == 0x0d then d2 < 0x80
    else if status == 0xb6 then
      (d1 == 0x17 && d2 < 0x80) || ((d1 == 0x1e || d1 == 0x1f) && IsStepValue(d2))
    else if status == 0xb7 || status == 0xb8 then DeckCc(d1).Some? && d2 < 0x80
    else false
  }

  /** The deck whose MIDI channel a status byte addresses. */
  function DeckOfStatus(status: Byte): (r: Deck)
    requires status in {0x97, 0x98, 0xb7, 0xb8}
    ensures r == Deck.A <==> status in {0x97, 0xb7}
  {
    if status == 0x97 || status == 0xb7 then Deck.A else Deck.B
  }

  /** The value of a deck control decoded from its data byte. */
  function DeckInputOf(c: DeckControl, d2: Byte): (r: DeckInput)
    requires (c.ButtonCtrl? || c.LayerButtonCtrl?) ==> IsButtonValue(d2)
    requires !(c.ButtonCtrl? || c.LayerButtonCtrl?) ==> d2 < 0x80
    ensures DeckControlOf(r) == c
  {
    match c
    case ButtonCtrl(b) => DeckInput.Button(b, U7ToButton(d2))
    case LayerButtonCtrl(b, l) => DeckInput.LayerButton(b, l, U7ToButton(d2))
    case SliderCtrl(s) => DeckInput.Slider(s, I.SliderFromU7(d2))
    case SliderEncoderCtrl(e) => DeckInput.SliderEncoder(e, I.SliderEncoderFromU7(d2))
    case CenterSliderCtrl(cs) => DeckInput.CenterSlider(cs, I.CenterSliderFromU7(d2))
  }

  /**
   * `Input::try_from_midi_message`. Arms are tried in source order; the
   * touch pad X/Y controller numbers win over the global and deck ones.
   */
  function TryFromMidiMessage(msg: Message): (r: Option<Input>)
    requires Accepted(msg)
    ensures r.None? <==> msg[0] == 0xb8 && msg[1] == 0x0c
    ensures r.Some? && r.value.Deck? ==>
              msg[0] in {0x97, 0x98, 0xb7, 0xb8} && r.value.deck == DeckOfStatus(msg[0])
    ensures r.Some? && r.value.Deck? && r.value.deckInput.LayerButton? ==>
              (r.value.deckInput.layer == Layer.Shift <==> msg[1] in {0x2e, 0x2f, 0x30})
    ensures msg[1] == 0x0c && r.Some? ==>
              r.value == Input.Slider(Slider.TouchPadX, I.SliderFromU7(msg[2]))
    ensures msg[0] in {0xb6, 0xb7, 0xb8} && msg[1] == 0x0d ==>
              r == Some(Input.Slider(Slider.TouchPadY, I.SliderFromU7(msg[2])))
    ensures r.Some? && (r.value.Button? || (r.value.Deck? && (r.value.deckInput.Button? || r.value.deckInput.LayerButton?))) <==>
              msg[0] in {0x96, 0x97, 0x98}
  {
    var status, d1, d2 := msg[0], msg[1], msg[2];
    if status == 0x96 then
      Some(Input.Button(GlobalNote(d1).value, U7ToButton(d2)))
    else if status == 0x97 || status == 0x98 then
      Some(Input.Deck(DeckOfStatus(status), DeckInputOf(DeckNote(d1).value, d2)))
    else if status == 0xb8 && d1 == 0x0c then
      // duplicate touch pad X message, filtered
      None
    else if (status == 0xb6 || status == 0xb7) && d1 == 0x0c then
      Some(Input.Slider(Slider.TouchPadX, I.SliderFromU7(d2)))
    else if (status == 0xb6 || status == 0xb7 || status == 0xb8) && d1 == 0x0d then
      Some(Input.Slider(Slider.TouchPadY, I.SliderFromU7(d2)))
    else if status == 0xb6 then
      if d1 == 0x17 then Some(Input.CenterSlider(CenterSlider.CrossFader, I.CenterSliderFromU7(d2)))
      else if d1 == 0x1e then Some(Input.StepEncoder(StepEncoder.BrowseKnob, U7ToStepEncoder(d2)))
      else Some(Input.StepEncoder(StepEncoder.ProgramKnob, U7ToStepEncoder(d2)))
    else
      Some(Input.Deck(DeckOfStatus(status), DeckInputOf(DeckCc(d1).value, d2)))
  }

  /**
   * A deck button message round-trips: the note number of a deck
   * button, sent on the deck's channel, decodes to that very button.
   */
  lemma DeckButtonDecodes(deck: Deck, c: DeckControl, b: ButtonInput)
    requires c.ButtonCtrl? || c.LayerButtonCtrl?
    ensures NoteOfDeckControl(c).Some?
    ensures var msg := [if deck == Deck.A then 0x97 else 0x98, NoteOfDeckControl(c).value,
                        if b == Pressed then 0x7f else 0x00];
            Accepted(msg) &&
            TryFromMidiMessage(msg) == Some(Input.Deck(deck, DeckInputOf(c, msg[2])))
  {
    var d1 := NoteOfDeckControl(c).value;
    DeckNoteBijective(d1, c);
  }

  /** The events emitted for one message: one carrying `ts` if it decodes, else none. */
  function HandleMidiInput(ts: TimeStamp, msg: Message): (events: seq<I.InputEvent<Input>>)
    requires Accepted(msg)
    ensures |events| <= 1
    ensures |events| == 1 <==> !(msg[0] == 0xb8 && msg[1] == 0x0c)
    ensures forall e | e in events :: e.ts == ts && Some(e.input) == TryFromMidiMessage(msg)
  {
    match TryFromMidiMessage(msg)
    case None => []
    case Some(input) => [I.InputEvent(ts, input)]
  }

  const SENSOR_COUNT: nat := 73

  /**
   * Flattened enumeration of all sensors. The enumeration is `repr(u32)`
   * and converted with `to_u32`, so a sensor is modelled by its
   * discriminant, the declaration ordinal, with one named constant per
   * variant.
   */
  newtype Sensor = n: int | 0 <= n < 73

  const BrowseKnobShiftButton: Sensor := 0
  const TapButton: Sensor := 1
  const TapHoldButton: Sensor := 2
  const TouchPadModeButton: Sensor := 3
  const TouchPadLowerLeftButton: Sensor := 4
  const TouchPadLowerRightButton: Sensor := 5
  const TouchPadUpperLeftButton: Sensor := 6
  const TouchPadUpperRightButton: Sensor := 7
  const CrossFaderCenterSlider: Sensor := 8
  const BrowseKnobStepEncoder: Sensor := 9
  const ProgramKnobStepEncoder: Sensor := 10
  const TouchPadXSlider: Sensor := 11
  const TouchPadYSlider: Sensor := 12
  const DeckAFxButton: Sensor := 13
  const DeckALoadButton: Sensor := 14
  const DeckAMonitorButton: Sensor := 15
  const DeckAShiftButton: Sensor := 16
  const DeckATouchStripCenterButton: Sensor := 17
  const DeckATouchStripHotCueCenterButton: Sensor := 18
  const DeckATouchStripHotCueLeftButton: Sensor := 19
  const DeckATouchStripHotCueRightButton: Sensor := 20
  const DeckATouchStripLeftButton: Sensor := 21
  const DeckATouchStripLoopCenterButton: Sensor := 22
  const DeckATouchStripLoopLeftButton: Sensor := 23
  const DeckATouchStripLoopRightButton: Sensor := 24
  const DeckATouchStripRightButton: Sensor := 25
  const DeckATouchWheelScratchButton: Sensor := 26
  const DeckACueButton: Sensor := 27
  const DeckACueShiftButton: Sensor := 28
  const DeckAPlayPauseButton: Sensor := 29
  const DeckAPlayPauseShiftButton: Sensor := 30
  const DeckASyncButton: Sensor := 31
  const DeckASyncShiftButton: Sensor := 32
  const DeckALevelFaderSlider: Sensor := 33
  const DeckATouchStripSlider: Sensor := 34
  const DeckATouchWheelBendSliderEncoder: Sensor := 35
  const DeckATouchWheelScratchSliderEncoder: Sensor := 36
  const DeckATouchWheelSearchSliderEncoder: Sensor := 37
  const DeckAGainKnobCenterSlider: Sensor := 38
  const DeckAHiEqKnobCenterSlider: Sensor := 39
  const DeckALoEqKnobCenterSlider: Sensor := 40
  const DeckAMidEqKnobCenterSlider: Sensor := 41
  const DeckAPitchFaderCenterSlider: Sensor := 42
  const DeckBFxButton: Sensor := 43
  const DeckBLoadButton: Sensor := 44
  const DeckBMonitorButton: Sensor := 45
  const DeckBShiftButton: Sensor := 46
  const DeckBTouchStripLeftButton: Sensor := 47
  const DeckBTouchStripCenterButton: Sensor := 48
  const DeckBTouchStripRightButton: Sensor := 49
  const DeckBTouchStripLoopLeftButton: Sensor := 50
  const DeckBTouchStripLoopCenterButton: Sensor := 51
  const DeckBTouchStripLoopRightButton: Sensor := 52
  const DeckBTouchStripHotCueLeftButton: Sensor := 53
  const DeckBTouchStripHotCueCenterButton: Sensor := 54
  const DeckBTouchStripHotCueRightButton: Sensor := 55
  const DeckBTouchWheelScratchButton: Sensor := 56
  const DeckBCueButton: Sensor := 57
  const DeckBCueShiftButton: Sensor := 58
  const DeckBPlayPauseButton: Sensor := 59
  const DeckBPlayPauseShiftButton: Sensor := 60
  const DeckBSyncButton: Sensor := 61
  const DeckBSyncShiftButton: Sensor := 62
  const DeckBLevelFaderSlider: Sensor := 63
  const DeckBTouchStripSlider: Sensor := 64
  const DeckBTouchWheelBendSliderEncoder: Sensor := 65
  const DeckBTouchWheelScratchSliderEncoder: Sensor := 66
  const DeckBTouchWheelSearchSliderEncoder: Sensor := 67
  const DeckBGainKnobCenterSlider: Sensor := 68
  const DeckBHiEqKnobCenterSlider: Sensor := 69
  const DeckBLoEqKnobCenterSlider: Sensor := 70
  const DeckBMidEqKnobCenterSlider: Sensor := 71
  const DeckBPitchFaderCenterSlider: Sensor := 72

  /**
   * The sensor that reports a control (`From<Input> for ControlInput`).
   * Its ordinal decodes back to the control, so distinct controls have
   * distinct sensors.
   */
  function SensorOf(c: Control): (s: Sensor)
    ensures ControlOfIndex(s as nat) == Some(c)
  {
    match c
    case ButtonCtrl(b) => (
      match b
      case BrowseKnobShift => BrowseKnobShiftButton
      case Tap => TapButton
      case TapHold => TapHoldButton
      case TouchPadMode => TouchPadModeButton
      case TouchPadLowerLeft => TouchPadLowerLeftButton
      case TouchPadLowerRight => TouchPadLowerRightButton
      case TouchPadUpperLeft => TouchPadUpperLeftButton
      case TouchPadUpperRight => TouchPadUpperRightButton
      )
    case SliderCtrl(sl) => (
      match sl
      case TouchPadX => TouchPadXSlider
      case TouchPadY => TouchPadYSlider
      )
    case CenterSliderCtrl(cs) => (
      match cs
      case CrossFader => CrossFaderCenterSlider
      )
    case StepEncoderCtrl(e) => (
      match e
      case BrowseKnob => BrowseKnobStepEncoder
      case ProgramKnob => ProgramKnobStepEncoder
      )
    case DeckCtrl(deck, dc) =>
      match deck
      case A => (
        match dc
        case ButtonCtrl(b) => (
          match b
          case Fx => DeckAFxButton
          case Load => DeckALoadButton
          case Monitor => DeckAMonitorButton
          case Shift => DeckAShiftButton
          case TouchStripCenter => DeckATouchStripCenterButton
          case TouchStripHotCueCenter => DeckATouchStripHotCueCenterButton
          case TouchStripHotCueLeft => DeckATouchStripHotCueLeftButton
          case TouchStripHotCueRight => DeckATouchStripHotCueRightButton
          case TouchStripLeft => DeckATouchStripLeftButton
          case TouchStripLoopCenter => DeckATouchStripLoopCenterButton
          case TouchStripLoopLeft => DeckATouchStripLoopLeftButton
          case TouchStripLoopRight => DeckATouchStripLoopRightButton
          case TouchStripRight => DeckATouchStripRightButton
          case TouchWheelScratch => DeckATouchWheelScratchButton
          )
        case LayerButtonCtrl(lb, l) => (
          match lb
          case Cue => (match l case Plain => DeckACueButton case Shift => DeckACueShiftButton)
          case PlayPause => (match l case Plain => DeckAPlayPauseButton case Shift => DeckAPlayPauseShiftButton)
          case Sync => (match l case Plain => DeckASyncButton case Shift => DeckASyncShiftButton)
          )
        case SliderCtrl(sl) => (
          match sl
          case LevelFader => DeckALevelFaderSlider
          case TouchStrip => DeckATouchStripSlider
          )
        case SliderEncoderCtrl(e) => (
          match e
          case TouchWheelBend => DeckATouchWheelBendSliderEncoder
          case TouchWheelScratch => DeckATouchWheelScratchSliderEncoder
          case TouchWheelSearch => DeckATouchWheelSearchSliderEncoder
          )
        case CenterSliderCtrl(cs) => (
          match cs
          case GainKnob => DeckAGainKnobCenterSlider
          case HiEqKnob => DeckAHiEqKnobCenterSlider
          case LoEqKnob => DeckALoEqKnobCenterSlider
          case MidEqKnob => DeckAMidEqKnobCenterSlider
          case PitchFader => DeckAPitchFaderCenterSlider
          )
        )
      case B => (
        match dc
        case ButtonCtrl(b) => (
          match b
          case Fx => DeckBFxButton
          case Load => DeckBLoadButton
          case Monitor => DeckBMonitorButton
          case Shift => DeckBShiftButton
          case TouchStripCenter => DeckBTouchStripCenterButton
          case TouchStripHotCueCenter => DeckBTouchStripHotCueCenterButton
          case TouchStripHotCueLeft => DeckBTouchStripHotCueLeftButton
          case TouchStripHotCueRight => DeckBTouchStripHotCueRightButton
          case TouchStripLeft => DeckBTouchStripLeftButton
          case TouchStripLoopCenter => DeckBTouchStripLoopCenterButton
          case TouchStripLoopLeft => DeckBTouchStripLoopLeftButton
          case TouchStripLoopRight => DeckBTouchStripLoopRightButton
          case TouchStripRight => DeckBTouchStripRightButton
          case TouchWheelScratch => DeckBTouchWheelScratchButton
          )
        case LayerButtonCtrl(lb, l) => (
          match lb
          case Cue => (match l case Plain => DeckBCueButton case Shift => DeckBCueShiftButton)
          case PlayPause => (match l case Plain => DeckBPlayPauseButton case Shift => DeckBPlayPauseShiftButton)
          case Sync => (match l case Plain => DeckBSyncButton case Shift => DeckBSyncShiftButton)
          )
        case SliderCtrl(sl) => (
          match sl
          case LevelFader => DeckBLevelFaderSlider
          case TouchStrip => DeckBTouchStripSlider
          )
        case SliderEncoderCtrl(e) => (
          match e
          case TouchWheelBend => DeckBTouchWheelBendSliderEncoder
          case TouchWheelScratch => DeckBTouchWheelScratchSliderEncoder
          case TouchWheelSearch => DeckBTouchWheelSearchSliderEncoder
          )
        case CenterSliderCtrl(cs) => (
          match cs
          case GainKnob => DeckBGainKnobCenterSlider
          case HiEqKnob => DeckBHiEqKnobCenterSlider
          case LoEqKnob => DeckBLoEqKnobCenterSlider
          case MidEqKnob => DeckBMidEqKnobCenterSlider
          case PitchFader => DeckBPitchFaderCenterSlider
          )
        )
  }

  /**
   * Reference decoding of a control index: the control whose sensor has
   * ordinal `n`, as a balanced decision tree over the ordinals.
   */
  function ControlOfIndex(n: nat): (r: Option<Control>)
    ensures r.Some? <==> n < SENSOR_COUNT
  {
    if n >= SENSOR_COUNT then None
    else
      if n < 36 then
        if n < 18 then
          if n < 9 then
            if n < 4 then
              if n < 2 then
                if n < 1 then
                  Some(Control.ButtonCtrl(Button.BrowseKnobShift))
                else
                  Some(Control.ButtonCtrl(Button.Tap))
              else
                if n < 3 then
                  Some(Control.ButtonCtrl(Button.TapHold))
                else
                  Some(Control.ButtonCtrl(Button.TouchPadMode))
            else
              if n < 6 then
                if n < 5 then
                  Some(Control.ButtonCtrl(Button.TouchPadLowerLeft))
                else
                  Some(Control.ButtonCtrl(Button.TouchPadLowerRight))
              else
                if n < 7 then
                  Some(Control.ButtonCtrl(Button.TouchPadUpperLeft))
                else
                  if n < 8 then
                    Some(Control.ButtonCtrl(Button.TouchPadUpperRight))
                  else
                    Some(Control.CenterSliderCtrl(CenterSlider.CrossFader))
          else
            if n < 13 then
              if n < 11 then
                if n < 10 then
                  Some(Control.StepEncoderCtrl(StepEncoder.BrowseKnob))
                else
                  Some(Control.StepEncoderCtrl(StepEncoder.ProgramKnob))
              else
                if n < 12 then
                  Some(Control.SliderCtrl(Slider.TouchPadX))
                else
                  Some(Control.SliderCtrl(Slider.TouchPadY))
            else
              if n < 15 then
                if n < 14 then
                  Some(Control.DeckCtrl(Deck.A, DeckControl.ButtonCtrl(DeckButton.Fx)))
                else
                  Some(Control.DeckCtrl(Deck.A, DeckControl.ButtonCtrl(DeckButton.Load)))
              else
                if n < 16 then
                  Some(Control.DeckCtrl(Deck.A, DeckControl.ButtonCtrl(DeckButton.Monitor)))
                else
                  if n < 17 then
                    Some(Control.DeckCtrl(Deck.A, DeckControl.ButtonCtrl(DeckButton.Shift)))
                  else
                    Some(Control.DeckCtrl(Deck.A, DeckControl.ButtonCtrl(DeckButton.TouchStripCenter)))
        else
          if n < 27 then
            if n < 22 then
              if n < 20 then
                if n < 19 then
                  Some(Control.DeckCtrl(Deck.A, DeckControl.ButtonCtrl(DeckButton.TouchStripHotCueCenter)))
                else
                  Some(Control.DeckCtrl(Deck.A, DeckControl.ButtonCtrl(DeckButton.TouchStripHotCueLeft)))
              else
                if n < 21 then
                  Some(Control.DeckCtrl(Deck.A, DeckControl.ButtonCtrl(DeckButton.TouchStripHotCueRight)))
                else
                  Some(Control.DeckCtrl(Deck.A, DeckControl.ButtonCtrl(DeckButton.TouchStripLeft)))
            else
              if n < 24 then
                if n < 23 then
                  Some(Control.DeckCtrl(Deck.A, DeckControl.ButtonCtrl(DeckButton.TouchStripLoopCenter)))
                else
                  Some(Control.DeckCtrl(Deck.A, DeckControl.ButtonCtrl(DeckButton.TouchStripLoopLeft)))
              else
                if n < 25 then
                  Some(Control.DeckCtrl(Deck.A, DeckControl.ButtonCtrl(DeckButton.TouchStripLoopRight)))
                else
                  if n < 26 then
                    Some(Control.DeckCtrl(Deck.A, DeckControl.ButtonCtrl(DeckButton.TouchStripRight)))
                  else
                    Some(Control.DeckCtrl(Deck.A, DeckControl.ButtonCtrl(DeckButton.TouchWheelScratch)))
          else
            if n < 31 then
              if n < 29 then
                if n < 28 then
                  Some(Control.DeckCtrl(Deck.A, DeckControl.LayerButtonCtrl(DeckLayerButton.Cue, Layer.Plain)))
                else
                  Some(Control.DeckCtrl(Deck.A, DeckControl.LayerButtonCtrl(DeckLayerButton.Cue, Layer.Shift)))
              else
                if n < 30 then
                  Some(Control.DeckCtrl(Deck.A, DeckControl.LayerButtonCtrl(DeckLayerButton.PlayPause, Layer.Plain)))
                else
                  Some(Control.DeckCtrl(Deck.A, DeckControl.LayerButtonCtrl(DeckLayerButton.PlayPause, Layer.Shift)))
            else
              if n < 33 then
                if n < 32 then
                  Some(Control.DeckCtrl(Deck.A, DeckControl.LayerButtonCtrl(DeckLayerButton.Sync, Layer.Plain)))
                else
                  Some(Control.DeckCtrl(Deck.A, DeckControl.LayerButtonCtrl(DeckLayerButton.Sync, Layer.Shift)))
              else
                if n < 34 then
                  Some(Control.DeckCtrl(Deck.A, DeckControl.SliderCtrl(DeckSlider.LevelFader)))
                else
                  if n < 35 then
                    Some(Control.DeckCtrl(Deck.A, DeckControl.SliderCtrl(DeckSlider.TouchStrip)))
                  else
                    Some(Control.DeckCtrl(Deck.A, DeckControl.SliderEncoderCtrl(DeckSliderEncoder.TouchWheelBend)))
      else
        if n < 54 then
          if n < 45 then
            if n < 40 then
              if n < 38 then
                if n < 37 then
                  Some(Control.DeckCtrl(Deck.A, DeckControl.SliderEncoderCtrl(DeckSliderEncoder.TouchWheelScratch)))
                else
                  Some(Control.DeckCtrl(Deck.A, DeckControl.SliderEncoderCtrl(DeckSliderEncoder.TouchWheelSearch)))
              else
                if n < 39 then
                  Some(Control.DeckCtrl(Deck.A, DeckControl.CenterSliderCtrl(DeckCenterSlider.GainKnob)))
                else
                  Some(Control.DeckCtrl(Deck.A, DeckControl.CenterSliderCtrl(DeckCenterSlider.HiEqKnob)))
            else
              if n < 42 then
                if n < 41 then
                  Some(Control.DeckCtrl(Deck.A, DeckControl.CenterSliderCtrl(DeckCenterSlider.LoEqKnob)))
                else
                  Some(Control.DeckCtrl(Deck.A, DeckControl.CenterSliderCtrl(DeckCenterSlider.MidEqKnob)))
              else
                if n < 43 then
                  Some(Control.DeckCtrl(Deck.A, DeckControl.CenterSliderCtrl(DeckCenterSlider.PitchFader)))
                else
                  if n < 44 then
                    Some(Control.DeckCtrl(Deck.B, DeckControl.ButtonCtrl(DeckButton.Fx)))
                  else
                    Some(Control.DeckCtrl(Deck.B, DeckControl.ButtonCtrl(DeckButton.Load)))
          else
            if n < 49 then
              if n < 47 then
                if n < 46 then
                  Some(Control.DeckCtrl(Deck.B, DeckControl.ButtonCtrl(DeckButton.Monitor)))
                else
                  Some(Control.DeckCtrl(Deck.B, DeckControl.ButtonCtrl(DeckButton.Shift)))
              else
                if n < 48 then
                  Some(Control.DeckCtrl(Deck.B, DeckControl.ButtonCtrl(DeckButton.TouchStripLeft)))
                else
                  Some(Control.DeckCtrl(Deck.B, DeckControl.ButtonCtrl(DeckButton.TouchStripCenter)))
            else
              if n < 51 then
                if n < 50 then
                  Some(Control.DeckCtrl(Deck.B, DeckControl.ButtonCtrl(DeckButton.TouchStripRight)))
                else
                  Some(Control.DeckCtrl(Deck.B, DeckControl.ButtonCtrl(DeckButton.TouchStripLoopLeft)))
              else
                if n < 52 then
                  Some(Control.DeckCtrl(Deck.B, DeckControl.ButtonCtrl(DeckButton.TouchStripLoopCenter)))
                else
                  if n < 53 then
                    Some(Control.DeckCtrl(Deck.B, DeckControl.ButtonCtrl(DeckButton.TouchStripLoopRight)))
                  else
                    Some(Control.DeckCtrl(Deck.B, DeckControl.ButtonCtrl(DeckButton.TouchStripHotCueLeft)))
        else
          if n < 63 then
            if n < 58 then
              if n < 56 then
                if n < 55 then
                  Some(Control.DeckCtrl(Deck.B, DeckControl.ButtonCtrl(DeckButton.TouchStripHotCueCenter)))
                else
                  Some(Control.DeckCtrl(Deck.B, DeckControl.ButtonCtrl(DeckButton.TouchStripHotCueRight)))
              else
                if n < 57 then
                  Some(Control.DeckCtrl(Deck.B, DeckControl.ButtonCtrl(DeckButton.TouchWheelScratch)))
                else
                  Some(Control.DeckCtrl(Deck.B, DeckControl.LayerButtonCtrl(DeckLayerButton.Cue, Layer.Plain)))
            else
              if n < 60 then
                if n < 59 then
                  Some(Control.DeckCtrl(Deck.B, DeckControl.LayerButtonCtrl(DeckLayerButton.Cue, Layer.Shift)))
                else
                  Some(Control.DeckCtrl(Deck.B, DeckControl.LayerButtonCtrl(DeckLayerButton.PlayPause, Layer.Plain)))
              else
                if n < 61 then
                  Some(Control.DeckCtrl(Deck.B, DeckControl.LayerButtonCtrl(DeckLayerButton.PlayPause, Layer.Shift)))
                else
                  if n < 62 then
                    Some(Control.DeckCtrl(Deck.B, DeckControl.LayerButtonCtrl(DeckLayerButton.Sync, Layer.Plain)))
                  else
                    Some(Control.DeckCtrl(Deck.B, DeckControl.LayerButtonCtrl(DeckLayerButton.Sync, Layer.Shift)))
          else
            if n < 68 then
              if n < 65 then
                if n < 64 then
                  Some(Control.DeckCtrl(Deck.B, DeckControl.SliderCtrl(DeckSlider.LevelFader)))
                else
                  Some(Control.DeckCtrl(Deck.B, DeckControl.SliderCtrl(DeckSlider.TouchStrip)))
              else
                if n < 66 then
                  Some(Control.DeckCtrl(Deck.B, DeckControl.SliderEncoderCtrl(DeckSliderEncoder.TouchWheelBend)))
                else
                  if n < 67 then
                    Some(Control.DeckCtrl(Deck.B, DeckControl.SliderEncoderCtrl(DeckSliderEncoder.TouchWheelScratch)))
                  else
                    Some(Control.DeckCtrl(Deck.B, DeckControl.SliderEncoderCtrl(DeckSliderEncoder.TouchWheelSearch)))
            else
              if n < 70 then
                if n < 69 then
                  Some(Control.DeckCtrl(Deck.B, DeckControl.CenterSliderCtrl(DeckCenterSlider.GainKnob)))
                else
                  Some(Control.DeckCtrl(Deck.B, DeckControl.CenterSliderCtrl(DeckCenterSlider.HiEqKnob)))
              else
                if n < 71 then
                  Some(Control.DeckCtrl(Deck.B, DeckControl.CenterSliderCtrl(DeckCenterSlider.LoEqKnob)))
                else
                  if n < 72 then
                    Some(Control.DeckCtrl(Deck.B, DeckControl.CenterSliderCtrl(DeckCenterSlider.MidEqKnob)))
                  else
                    Some(Control.DeckCtrl(Deck.B, DeckControl.CenterSliderCtrl(DeckCenterSlider.PitchFader)))
  }



  /** The control an input is about. */
  function ControlOf(x: Input): (c: Control)
  {
    match x
    case Button(b, _) => Control.ButtonCtrl(b)
    case Slider(s, _) => Control.SliderCtrl(s)
    case CenterSlider(s, _) => Control.CenterSliderCtrl(s)
    case StepEncoder(e, _) => Control.StepEncoderCtrl(e)
    case Deck(deck, d) => Control.DeckCtrl(deck, DeckControlOf(d))
  }

  function DeckControlOf(d: DeckInput): (c: DeckControl)
  {
    match d
    case Button(b, _) => DeckControl.ButtonCtrl(b)
    case LayerButton(b, l, _) => DeckControl.LayerButtonCtrl(b, l)
    case Slider(s, _) => DeckControl.SliderCtrl(s)
    case CenterSlider(s, _) => DeckControl.CenterSliderCtrl(s)
    case SliderEncoder(e, _) => DeckControl.SliderEncoderCtrl(e)
  }

  /** The sensor value an input carries, converted into the generic input type. */
  function ValueOf(x: Input): (v: I.Input)
  {
    match x
    case Button(_, b) => I.Input.Button(b)
    case Slider(_, s) => I.Input.Slider(s)
    case CenterSlider(_, s) => I.Input.CenterSlider(s)
    case StepEncoder(_, e) => I.Input.StepEncoder(e)
    case Deck(_, d) => (
      match d
      case Button(_, b) => I.Input.Button(b)
      case LayerButton(_, _, b) => I.Input.Button(b)
      case Slider(_, s) => I.Input.Slider(s)
      case CenterSlider(_, s) => I.Input.CenterSlider(s)
      case SliderEncoder(_, e) => I.Input.SliderEncoder(e))
  }

  /**
   * `From<Input> for ControlInput`: the sensor ordinal becomes the control
   * index and the value is carried over.
   */
  function ControlInputFrom(x: Input): (r: I.ControlInput)
    ensures r.index.value < SENSOR_COUNT
    ensures ControlOfIndex(r.index.value) == Some(ControlOf(x))
    ensures r.input == ValueOf(x)
  {
    I.ControlInput(ControlIndex(SensorOf(ControlOf(x)) as int), ValueOf(x))
  }

  /**
   * Flattening loses nothing about the control: two inputs get the same
   * control index exactly when they are about the same control.
   */
  lemma ControlIndexInjective(x: Input, y: Input)
    ensures ControlInputFrom(x).index == ControlInputFrom(y).index <==> ControlOf(x) == ControlOf(y)
  {
  }
}
