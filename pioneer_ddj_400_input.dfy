/**
 * Pioneer DDJ-400 MIDI input, newest generation: sensors, their control
 * indices, and a decoder whose only state is the high byte of the last
 * 14-bit control change.
 */
module PioneerDdj400Input {
  import opened Common
  import opened Djio
  import I = Input
  import opened PioneerDdj400Constants
  import opened Midi

  /*
   * The sensor enumerations are `repr(u8)` and are converted to control
   * indices by casting, so each is modelled by its discriminant, the
   * declaration ordinal, with one named constant per variant.
   */

  const MAIN_SENSOR_COUNT: bv8 := 11
  type MainSensor = x: bv8 | x < 11

  const LoadLeftButton: MainSensor := 0
  const LoadRightButton: MainSensor := 1
  const RotarySelectorStepEncoder: MainSensor := 2
  const RotarySelectorButton: MainSensor := 3
  const MasterLevelSlider: MainSensor := 4
  const MainHeadphoneCueButton: MainSensor := 5
  const HeadphonesMixingCenterSlider: MainSensor := 6
  const HeadphonesLevelSlider: MainSensor := 7
  const CrossfaderCenterSlider: MainSensor := 8
  const FilterLeftCenterSlider: MainSensor := 9
  const FilterRightCenterSlider: MainSensor := 10

  const DECK_SENSOR_COUNT: bv8 := 30
  type DeckSensor = x: bv8 | x < 30

  const BeatSyncButton: DeckSensor := 0
  const CueLoopCallRightButton: DeckSensor := 1
  const CueLoopCallLeftButton: DeckSensor := 2
  const DeleteButton: DeckSensor := 3
  const MemoryButton: DeckSensor := 4
  const ReloopExitButton: DeckSensor := 5
  const OutButton: DeckSensor := 6
  const InAdjustButton: DeckSensor := 7
  const OutAdjustButton: DeckSensor := 8
  const ActiveLoopButton: DeckSensor := 9
  const In4BeatButton: DeckSensor := 10
  const JogWheelTouch: DeckSensor := 11
  const JogWheelTopEncoder: DeckSensor := 12
  const JogWheelOuterEncoder: DeckSensor := 13
  const HotCueModeButton: DeckSensor := 14
  const BeatLoopModeButton: DeckSensor := 15
  const BeatJumpModeButton: DeckSensor := 16
  const SamplerModeButton: DeckSensor := 17
  const TempoCenterSlider: DeckSensor := 18
  const PlayPauseButton: DeckSensor := 19
  const CueButton: DeckSensor := 20
  const CueToStartButton: DeckSensor := 21
  const TempoRangeButton: DeckSensor := 22
  const ShiftButton: DeckSensor := 23
  const TrimSlider: DeckSensor := 24
  const EqHighCenterSlider: DeckSensor := 25
  const EqMidCenterSlider: DeckSensor := 26
  const EqLowCenterSlider: DeckSensor := 27
  const DeckHeadphoneCueButton: DeckSensor := 28
  const LevelFader: DeckSensor := 29

  type EffectSensor = x: bv8 | x < 6

  const BeatLeftButton: EffectSensor := 0
  const BeatRightButton: EffectSensor := 1
  const BeatFxSelectButton: EffectSensor := 2
  const BeatFxChannelSelectSwitch: EffectSensor := 3
  const BeatFxLevelDepthKnob: EffectSensor := 4
  const BeatFxOnOffButton: EffectSensor := 5

  /** The eight performance pads of each pad mode, numbered from 0. */
  datatype PerformancePadSensor =
    | HotCue(nr: Byte)
    | BeatLoop(nr: Byte)
    | BeatJump(nr: Byte)
    | Sampler(nr: Byte)
    | Keyboard(nr: Byte)
    | PadFx1(nr: Byte)
    | PadFx2(nr: Byte)
    | KeyShift(nr: Byte)

  datatype Sensor =
    | Main(main: MainSensor)
    | Deck(deck: Deck, deckSensor: DeckSensor)
    | Effect(effect: EffectSensor)
    | Performance(performanceDeck: Deck, pad: PerformancePadSensor)

  /** The first pad id of a pad mode: the high nibble of its ids. */
  function PadModeBase(p: PerformancePadSensor): (r: Byte)
    ensures r % 16 == 0 && r < 0x80
  {
    match p
    case HotCue(_) => 0x00
    case PadFx1(_) => 0x10
    case BeatJump(_) => 0x20
    case Sampler(_) => 0x30
    case Keyboard(_) => 0x40
    case PadFx2(_) => 0x50
    case BeatLoop(_) => 0x60
    case KeyShift(_) => 0x70
  }

  /**
   * `PerformancePadSensor::as_u8`: the pad number added to the mode's
   * base id, wrapping around in `u8` (a debug build would panic instead).
   */
  function AsU8(p: PerformancePadSensor): (r: Byte)
    ensures p.nr < 8 ==> r == PadModeBase(p) + p.nr && r % 16 < 8 && r < 0x78
  {
    (PadModeBase(p) + p.nr) % 0x100
  }

  /**
   * `PerformancePadSensor::try_from_u8`: ids 0xN0..=0xN7 for N in 0..=7
   * name pad 0..=7 of mode N; every other id is rejected.
   */
  function TryFromU8(id: Byte): (r: Option<PerformancePadSensor>)
    ensures r.Some? <==> id < 0x80 && id % 16 < 8
    ensures r.Some? ==> r.value.nr == id % 16 && PadModeBase(r.value) == id - id % 16
  {
    if id < 0x80 && id % 16 < 8 then
      var nr := id % 16;
      Some(
        match id / 16
        case 0 => HotCue(nr)
        case 1 => PadFx1(nr)
        case 2 => BeatJump(nr)
        case 3 => Sampler(nr)
        case 4 => Keyboard(nr)
        case 5 => PadFx2(nr)
        case 6 => BeatLoop(nr)
        case _ => KeyShift(nr))
    else None
  }

  /** Pad ids and pads with numbers 0..=7 are in one-to-one correspondence. */
  lemma PadIdRoundTrip(p: PerformancePadSensor, id: Byte)
    ensures p.nr < 8 ==> TryFromU8(AsU8(p)) == Some(p)
    ensures TryFromU8(id).Some? ==> AsU8(TryFromU8(id).value) == id
  {
    if p.nr < 8 {
      var q := TryFromU8(AsU8(p)).value;
      assert q.nr == p.nr;
      match p
      case HotCue(_) => {}
      case PadFx1(_) => {}
      case BeatJump(_) => {}
      case Sampler(_) => {}
      case Keyboard(_) => {}
      case PadFx2(_) => {}
      case BeatLoop(_) => {}
      case KeyShift(_) => {}
    }
  }

  function PerformanceDeckBit(b: IndexBits, deck: Deck): bv32
  {
    match deck
    case One => b.performanceDeckOne
    case Two => b.performanceDeckTwo
  }

  /** The bit pattern of a sensor's control index. */
  function SensorBits(b: IndexBits, s: Sensor): bv32
  {
    match s
    case Main(m) => m as bv32
    case Deck(deck, d) => DeckBit(b, deck) | d as bv32
    case Effect(e) => e as bv32
    case Performance(deck, p) => PerformanceDeckBit(b, deck) | AsU8(p) as bv32
  }

  /** `Sensor::to_control_index`: deck bits OR-ed onto the discriminant or pad id. */
  function SensorToControlIndex(b: IndexBits, s: Sensor): (r: ControlIndex)
    ensures s.Main? ==> r.value == s.main as int
    ensures s.Effect? ==> r.value == s.effect as int
  {
    ToControlIndex(SensorBits(b, s))
  }

  datatype InvalidInputControlIndex = InvalidInputControlIndex

  /**
   * `Sensor::try_from(ControlIndex)`: the deck bits select a deck, reject
   * the index when both are set, and otherwise leave a main sensor; the
   * enumeration field must then name a variant.
   */
  function SensorFromBits(b: IndexBits, x: bv32): (r: Result<Sensor, InvalidInputControlIndex>)
    requires b.enumBitMask <= 0xff
    ensures r.Ok? ==> r.value.Main? || r.value.Deck?
  {
    var enumIndex := EnumField(b, x);
    var deckBits := DeckField(b, x);
    if deckBits == b.deckOne then
      if enumIndex < DECK_SENSOR_COUNT then Ok(Sensor.Deck(Deck.One, enumIndex)) else Err(InvalidInputControlIndex)
    else if deckBits == b.deckTwo then
      if enumIndex < DECK_SENSOR_COUNT then Ok(Sensor.Deck(Deck.Two, enumIndex)) else Err(InvalidInputControlIndex)
    else if deckBits == b.deckBitMask then
      Err(InvalidInputControlIndex)
    else if enumIndex < MAIN_SENSOR_COUNT then Ok(Sensor.Main(enumIndex))
    else Err(InvalidInputControlIndex)
  }

  /**
   * A decoded deck sensor carries its deck's bit and its discriminant in
   * the index; a decoded main sensor carries its discriminant, and its
   * deck field is neither deck's bit nor both.
   */
  function SensorFromControlIndex(b: IndexBits, ci: ControlIndex): (r: Result<Sensor, InvalidInputControlIndex>)
    requires b.enumBitMask <= 0xff
    ensures r.Ok? ==> r.value.Main? || r.value.Deck?
    ensures r.Ok? && r.value.Deck? ==>
              DeckField(b, IndexBitsOf(ci)) == DeckBit(b, r.value.deck) &&
              EnumField(b, IndexBitsOf(ci)) == r.value.deckSensor
    ensures r.Ok? && r.value.Main? ==>
              DeckField(b, IndexBitsOf(ci)) !in {b.deckOne, b.deckTwo, b.deckBitMask} &&
              EnumField(b, IndexBitsOf(ci)) == r.value.main
  {
    SensorFromBits(b, IndexBitsOf(ci))
  }

  lemma DeckSensorFromBits(b: IndexBits, x: bv32, deck: Deck, d: DeckSensor)
    requires b.enumBitMask <= 0xff && b.deckOne != b.deckTwo
    requires EnumField(b, x) == d && DeckField(b, x) == DeckBit(b, deck)
    ensures SensorFromBits(b, x) == Ok(Sensor.Deck(deck, d))
  {
  }

  /** An index with both deck bits set names no sensor. */
  lemma BothDecksRejected(b: IndexBits, ci: ControlIndex)
    requires ValidIndexBits(b)
    requires IndexBitsOf(ci) & b.deckBitMask == b.deckBitMask
    ensures SensorFromControlIndex(b, ci).Err?
  {
  }

  lemma MainIndexRoundTrip(b: IndexBits, m: MainSensor)
    requires ValidIndexBits(b)
    ensures SensorFromControlIndex(b, SensorToControlIndex(b, Sensor.Main(m))) == Ok(Sensor.Main(m))
  {
    PlainFields(b, m);
    assert IndexBitsOf(SensorToControlIndex(b, Sensor.Main(m))) == m as bv32;
  }

  /** The control index of a deck sensor carries the deck bit and the discriminant. */
  lemma DeckIndexFields(b: IndexBits, deck: Deck, d: DeckSensor)
    requires FieldsDisjoint(b) && DeckBit(b, deck) & b.deckBitMask == DeckBit(b, deck)
    ensures var x := SensorBits(b, Sensor.Deck(deck, d));
            EnumField(b, x) == d && DeckField(b, x) == DeckBit(b, deck)
  {
    DeckIndexOfFields(b, DeckBit(b, deck), d);
  }

  lemma DeckIndexRoundTrip(b: IndexBits, deck: Deck, d: DeckSensor)
    requires ValidIndexBits(b)
    ensures SensorFromControlIndex(b, SensorToControlIndex(b, Sensor.Deck(deck, d))) == Ok(Sensor.Deck(deck, d))
  {
    var x := SensorBits(b, Sensor.Deck(deck, d));
    DeckBitInMask(b, deck);
    DeckIndexFields(b, deck, d);
    DeckSensorFromBits(b, x, deck, d);
    assert IndexBitsOf(SensorToControlIndex(b, Sensor.Deck(deck, d))) == x;
  }

  /**
   * Main and deck sensors survive the trip through their control index.
   * Effect indices are read back as the main sensor with the same
   * discriminant, and performance pads are not decoded at all.
   */
  lemma SensorIndexRoundTrip(b: IndexBits, s: Sensor)
    requires ValidIndexBits(b)
    ensures s.Main? || s.Deck? ==> SensorFromControlIndex(b, SensorToControlIndex(b, s)) == Ok(s)
    ensures s.Effect? ==>
              SensorFromControlIndex(b, SensorToControlIndex(b, s)) == Ok(Sensor.Main(s.effect))
  {
    match s
    case Main(m) => MainIndexRoundTrip(b, m);
    case Deck(deck, d) => DeckIndexRoundTrip(b, deck, d);
    case Effect(e) => {
      MainIndexRoundTrip(b, e);
      assert SensorToControlIndex(b, s) == SensorToControlIndex(b, Sensor.Main(e));
    }
    case Performance(_, _) => {}
  }

  predicate IsButtonValue(v: Byte) { v == 0x00 || v == 0x7f }

  function U7ToButton(v: Byte): (r: ButtonInput)
    requires IsButtonValue(v)
    ensures r == Pressed <==> v == 0x7f
  {
    if v == 0x00 then Released else Pressed
  }

  /** `midi_status_to_deck`: the deck whose channel is the status' low nibble. */
  function StatusToDeck(m: MidiConstants, status: Byte): (r: Deck)
    requires ValidMidi(m)
    requires status % 16 in {m.channelDeckOne, m.channelDeckTwo}
    ensures r == Deck.One <==> status % 16 == m.channelDeckOne
  {
    if status % 16 == m.channelDeckOne then Deck.One else Deck.Two
  }

  /** `midi_status_to_performance_deck` */
  function StatusToPerformanceDeck(m: MidiConstants, status: Byte): (r: Deck)
    requires ValidMidi(m)
    requires status % 16 in {m.channelPerformanceDeckOne, m.channelPerformanceDeckTwo}
    ensures r == Deck.One <==> status % 16 == m.channelPerformanceDeckOne
  {
    if status % 16 == m.channelPerformanceDeckOne then Deck.One else Deck.Two
  }

  /** Main section buttons. */
  function MainButton(d1: Byte): Option<MainSensor>
  {
    match d1
    case 0x40 => Some(RotarySelectorStepEncoder)
    case 0x41 => Some(RotarySelectorButton)
    case 0x46 => Some(LoadLeftButton)
    case 0x47 => Some(LoadRightButton)
    case 0x63 => Some(MainHeadphoneCueButton)
    case _ => None
  }

  /** Beat FX buttons; 0x10 and 0x14 are the channel switch positions, handled apart. */
  function EffectButton(d1: Byte): Option<EffectSensor>
  {
    match d1
    case 0x47 => Some(BeatFxOnOffButton)
    case 0x4a => Some(BeatLeftButton)
    case 0x4b => Some(BeatRightButton)
    case 0x63 => Some(BeatFxSelectButton)
    case 0x11 => Some(BeatFxChannelSelectSwitch)
    case _ => None
  }

  /** Deck buttons. */
  function DeckButton(d1: Byte): Option<DeckSensor>
  {
    match d1
    case 0x0b => Some(PlayPauseButton)
    case 0x0c => Some(CueButton)
    case 0x10 => Some(In4BeatButton)
    case 0x11 => Some(OutButton)
    case 0x1b => Some(HotCueModeButton)
    case 0x20 => Some(BeatJumpModeButton)
    case 0x22 => Some(SamplerModeButton)
    case 0x36 => Some(JogWheelTouch)
    case 0x3d => Some(MemoryButton)
    case 0x3e => Some(DeleteButton)
    case 0x3f => Some(ShiftButton)
    case 0x48 => Some(CueToStartButton)
    case 0x4c => Some(InAdjustButton)
    case 0x4d => Some(ReloopExitButton)
    case 0x4e => Some(OutAdjustButton)
    case 0x50 => Some(ActiveLoopButton)
    case 0x51 => Some(CueLoopCallLeftButton)
    case 0x53 => Some(CueLoopCallRightButton)
    case 0x54 => Some(DeckHeadphoneCueButton)
    case 0x58 => Some(BeatSyncButton)
    case 0x60 => Some(TempoRangeButton)
    case 0x6d => Some(BeatLoopModeButton)
    case _ => None
  }

  /** The sensor a note message names, if its status and note number are known. */
  function ButtonSensor(m: MidiConstants, msg: Message): (r: Option<Sensor>)
    requires ValidMidi(m) && |msg| == 3
  {
    var status, d1 := msg[0], msg[1];
    if status == m.statusButtonMain then
      match MainButton(d1) case Some(s) => Some(Sensor.Main(s)) case None => None
    else if status == m.statusButtonEffect then
      match EffectButton(d1) case Some(s) => Some(Sensor.Effect(s)) case None => None
    else if status == m.statusButtonDeckOne || status == m.statusButtonDeckTwo then
      match DeckButton(d1) case Some(s) => Some(Sensor.Deck(StatusToDeck(m, status), s)) case None => None
    else if status == m.statusButtonPerformanceDeckOne || status == m.statusButtonPerformanceDeckTwo then
      match TryFromU8(d1)
      case Some(p) => Some(Sensor.Performance(StatusToPerformanceDeck(m, status), p))
      case None => None
    else None
  }

  /** Whether a message is an effect note that only sets the channel switch position. */
  predicate IsChannelSwitchNote(m: MidiConstants, msg: Message)
  {
    |msg| == 3 && msg[0] != m.statusButtonMain && msg[0] == m.statusButtonEffect &&
    msg[1] in {0x10, 0x14}
  }

  /**
   * Whether a message is a control change that only carries a high byte;
   * statuses are tried in the decoder's order: main, effect, decks.
   */
  predicate IsHighByteCc(m: MidiConstants, msg: Message)
  {
    |msg| == 3 &&
    if msg[0] == m.statusCcMain then msg[1] in {0x1f, 0x08, 0x0d, 0x0c, 0x17, 0x18}
    else if msg[0] == m.statusCcEffect then msg[1] == 0x02
    else if msg[0] == m.statusCcDeckOne || msg[0] == m.statusCcDeckTwo then
      msg[1] in {0x00, 0x13, 0x07, 0x0f, 0x0b, 0x04}
    else false
  }

  type Decoded = Result<Option<(Sensor, I.Input)>, MidiInputDecodeError>

  /** The outcome of one decoding step and the decoder's new high byte. */
  datatype Step = Step(outcome: Decoded, lastHi: Byte)

  /** Button messages whose state byte is read must carry 0 or 127. */
  predicate ButtonDecodable(m: MidiConstants, msg: Message)
    requires ValidMidi(m)
  {
    |msg| == 3 && ButtonSensor(m, msg).Some? && msg[1] != 0x11 ==> IsButtonValue(msg[2])
  }

  /**
   * `try_decode_button_event`. A known note yields its sensor with the
   * button state, except that note 0x11 reports the stored high byte as
   * a selector position. The channel switch notes only set the high
   * byte. A non-note status yields nothing; an unknown note is an error.
   */
  function ButtonStep(m: MidiConstants, lastHi: Byte, msg: Message): (r: Step)
    requires ValidMidi(m) && ButtonDecodable(m, msg)
    ensures r.lastHi != lastHi ==> IsChannelSwitchNote(m, msg)
    ensures IsChannelSwitchNote(m, msg) ==>
              r.outcome == Ok(None) &&
              r.lastHi == (if msg[2] == 0x7f then (if msg[1] == 0x10 then 0 else 2) else 1)
    ensures r.outcome == Ok(None) <==>
              |msg| != 3 || msg[0] !in ButtonStatuses(m) || IsChannelSwitchNote(m, msg)
    ensures r.outcome.Ok? && r.outcome.value.Some? ==>
              |msg| == 3 && Some(r.outcome.value.value.0) == ButtonSensor(m, msg) &&
              r.outcome.value.value.1 ==
                (if msg[1] == 0x11 then I.Input.Selector(lastHi) else I.Input.Button(U7ToButton(msg[2])))
    ensures r.outcome.Err? <==>
              |msg| == 3 && msg[0] in ButtonStatuses(m) && !IsChannelSwitchNote(m, msg) &&
              ButtonSensor(m, msg).None?
  {
    if |msg| != 3 then Step(Ok(None), lastHi)
    else if IsChannelSwitchNote(m, msg) then
      Step(Ok(None), if msg[2] == 0x7f then (if msg[1] == 0x10 then 0 else 2) else 1)
    else if msg[0] !in ButtonStatuses(m) then Step(Ok(None), lastHi)
    else
      match ButtonSensor(m, msg)
      case None => Step(Err(MidiInputDecodeError), lastHi)
      case Some(sensor) =>
        var value := if msg[1] == 0x11 then I.Input.Selector(lastHi) else I.Input.Button(U7ToButton(msg[2]));
        Step(Ok(Some((sensor, value))), lastHi)
  }

  /** The effect sensor whose position the channel switch notes store. */
  const ChannelSelectSwitch: Sensor := Sensor.Effect(BeatFxChannelSelectSwitch)

  /** The value the button decoder is meant to give a known note. */
  function IntendedButtonValue(sensor: Sensor, lastHi: Byte, v: Byte): (r: I.Input)
    requires sensor != ChannelSelectSwitch ==> IsButtonValue(v)
    ensures r.Selector? <==> sensor == ChannelSelectSwitch
  {
    if sensor == ChannelSelectSwitch then I.Input.Selector(lastHi) else I.Input.Button(U7ToButton(v))
  }

  /** Only the channel select switch may carry a state byte other than 0 or 127. */
  predicate ButtonDecodableCorrected(m: MidiConstants, msg: Message)
    requires ValidMidi(m)
  {
    ButtonDecodable(m, msg) &&
    (|msg| == 3 && ButtonSensor(m, msg).Some? && ButtonSensor(m, msg).value != ChannelSelectSwitch ==>
       IsButtonValue(msg[2]))
  }

  /**
   * The button decoder with the selector value confined to the channel
   * select switch: every other sensor reports its button state, whatever
   * its note number.
   */
  function ButtonStepCorrected(m: MidiConstants, lastHi: Byte, msg: Message): (r: Step)
    requires ValidMidi(m) && ButtonDecodableCorrected(m, msg)
    ensures r.lastHi == ButtonStep(m, lastHi, msg).lastHi
    ensures r.outcome.Ok? <==> ButtonStep(m, lastHi, msg).outcome.Ok?
    ensures r.outcome == Ok(None) <==> ButtonStep(m, lastHi, msg).outcome == Ok(None)
    ensures r.outcome.Ok? && r.outcome.value.Some? ==>
              |msg| == 3 && Some(r.outcome.value.value.0) == ButtonSensor(m, msg) &&
              (r.outcome.value.value.1.Selector? <==> r.outcome.value.value.0 == ChannelSelectSwitch)
  {
    var s := ButtonStep(m, lastHi, msg);
    match s.outcome
    case Ok(Some((sensor, _))) => Step(Ok(Some((sensor, IntendedButtonValue(sensor, lastHi, msg[2])))), s.lastHi)
    case _ => s
  }

  /**
   * A deck's out button shares note 0x11 with the channel select switch,
   * so the decoder as written reports its press as a selector position
   * holding the stored high byte; the corrected decoder reports it as
   * pressed.
   */
  lemma OutButtonReportedAsSelector(m: MidiConstants, lastHi: Byte)
    requires ValidMidi(m)
    requires m.statusButtonDeckOne != m.statusButtonMain && m.statusButtonDeckOne != m.statusButtonEffect
    ensures var msg := [m.statusButtonDeckOne, 0x11, 0x7f];
            ButtonDecodableCorrected(m, msg) &&
            ButtonStep(m, lastHi, msg).outcome ==
              Ok(Some((Sensor.Deck(Deck.One, OutButton), I.Input.Selector(lastHi)))) &&
            ButtonStepCorrected(m, lastHi, msg).outcome ==
              Ok(Some((Sensor.Deck(Deck.One, OutButton), I.Input.Button(Pressed))))
  {
    var msg := [m.statusButtonDeckOne, 0x11, 0x7f];
    assert ButtonSensor(m, msg) == Some(Sensor.Deck(Deck.One, OutButton));
  }

  /** How the low byte of a control change is turned into a value. */
  datatype CcKind = Slider14 | CenterSlider14 | InvertedCenterSlider14 | StepEncoder7

  function MainCc(d1: Byte): Option<(MainSensor, CcKind)>
  {
    match d1
    case 0x3f => Some((CrossfaderCenterSlider, CenterSlider14))
    case 0x28 => Some((MasterLevelSlider, Slider14))
    case 0x2d => Some((HeadphonesLevelSlider, Slider14))
    case 0x2c => Some((HeadphonesMixingCenterSlider, CenterSlider14))
    case 0x40 => Some((RotarySelectorStepEncoder, StepEncoder7))
    case 0x37 => Some((FilterLeftCenterSlider, CenterSlider14))
    case 0x38 => Some((FilterRightCenterSlider, CenterSlider14))
    case _ => None
  }

  function DeckCc(d1: Byte): Option<(DeckSensor, CcKind)>
  {
    match d1
    case 0x20 => Some((TempoCenterSlider, InvertedCenterSlider14))
    case 0x33 => Some((LevelFader, Slider14))
    case 0x21 => Some((JogWheelOuterEncoder, StepEncoder7))
    case 0x22 => Some((JogWheelTopEncoder, StepEncoder7))
    case 0x24 => Some((TrimSlider, Slider14))
    case 0x27 => Some((EqHighCenterSlider, CenterSlider14))
    case 0x2b => Some((EqMidCenterSlider, CenterSlider14))
    case 0x2f => Some((EqLowCenterSlider, CenterSlider14))
    case _ => None
  }

  /** The sensor and value kind a low-byte control change names. */
  function CcSensor(m: MidiConstants, msg: Message): (r: Option<(Sensor, CcKind)>)
    requires ValidMidi(m) && |msg| == 3
  {
    var status, d1 := msg[0], msg[1];
    if status == m.statusCcMain then
      match MainCc(d1) case Some((s, k)) => Some((Sensor.Main(s), k)) case None => None
    else if status == m.statusCcEffect then
      if d1 == 0x22 then Some((Sensor.Effect(BeatFxLevelDepthKnob), CenterSlider14)) else None
    else if status == m.statusCcDeckOne || status == m.statusCcDeckTwo then
      match DeckCc(d1) case Some((s, k)) => Some((Sensor.Deck(StatusToDeck(m, status), s), k)) case None => None
    else None
  }

  /** 14-bit values combine the stored high byte with the data byte; both must be 7-bit. */
  predicate CcDecodable(m: MidiConstants, lastHi: Byte, msg: Message)
    requires ValidMidi(m)
  {
    |msg| == 3 && CcSensor(m, msg).Some? && CcSensor(m, msg).value.1 != StepEncoder7 ==>
      lastHi < 0x80 && msg[2] < 0x80
  }

  function CcValue(kind: CcKind, hi: Byte, lo: Byte): (r: I.Input)
    requires kind != StepEncoder7 ==> hi < 0x80 && lo < 0x80
  {
    match kind
    case Slider14 => I.Input.Slider(I.SliderFromU14(U7BeToU14(hi, lo)))
    case CenterSlider14 => I.Input.CenterSlider(I.CenterSliderFromU14(U7BeToU14(hi, lo)))
    case InvertedCenterSlider14 => I.Input.InvertedCenterSlider(I.CenterSliderFromU14(U7BeToU14(hi, lo)))
    case StepEncoder7 => I.Input.StepEncoderU7(lo)
  }

  /**
   * `try_decode_cc_event`. A high-byte control change stores its data
   * byte and yields nothing; a known low-byte control change yields its
   * sensor with a value built from the stored high byte; anything else,
   * including every non-control-change status, is an error.
   */
  function CcStep(m: MidiConstants, lastHi: Byte, msg: Message): (r: Step)
    requires ValidMidi(m) && CcDecodable(m, lastHi, msg)
    ensures r.lastHi == if IsHighByteCc(m, msg) then msg[2] else lastHi
    ensures r.outcome == Ok(None) <==> IsHighByteCc(m, msg)
    ensures r.outcome.Ok? && r.outcome.value.Some? ==>
              |msg| == 3 && CcSensor(m, msg).Some? && CcSensor(m, msg).value.0 == r.outcome.value.value.0 &&
              r.outcome.value.value.1 == CcValue(CcSensor(m, msg).value.1, lastHi, msg[2])
    ensures |msg| != 3 || msg[0] !in CcStatuses(m) ==> r.outcome.Err?
  {
    if IsHighByteCc(m, msg) then Step(Ok(None), msg[2])
    else if |msg| != 3 then Step(Err(MidiInputDecodeError), lastHi)
    else
      match CcSensor(m, msg)
      case None => Step(Err(MidiInputDecodeError), lastHi)
      case Some((sensor, kind)) => Step(Ok(Some((sensor, CcValue(kind, lastHi, msg[2])))), lastHi)
  }

  /** What the top-level decoder needs of a message and the decoder state. */
  predicate Decodable(m: MidiConstants, lastHi: Byte, msg: Message)
    requires ValidMidi(m)
  {
    ButtonDecodable(m, msg) &&
    CcDecodable(m, ButtonStep(m, lastHi, msg).lastHi, msg)
  }

  type DecodedEvent = Result<Option<I.InputEvent<I.ControlInput>>, MidiInputDecodeError>

  function ToEvent(b: IndexBits, ts: TimeStamp, ev: (Sensor, I.Input)): I.InputEvent<I.ControlInput>
  {
    I.InputEvent(ts, I.ControlInput(SensorToControlIndex(b, ev.0), ev.1))
  }

  /**
   * `try_decode_midi_input_event` as written: the button decoder first,
   * then the control change decoder, and an error whenever neither
   * yields an event. A stored high byte therefore ends in an error and
   * the decoder never answers `Ok(None)`.
   */
  function DecodeEvent(k: Constants, lastHi: Byte, ts: TimeStamp, msg: Message): (r: (DecodedEvent, Byte))
    requires ValidMidi(k.midi) && Decodable(k.midi, lastHi, msg)
    ensures r.0 != Ok(None)
    ensures r.0.Ok? ==> r.0.value.Some? && r.0.value.value.ts == ts
    ensures IsHighByteCc(k.midi, msg) ==> r == (Err(MidiInputDecodeError), msg[2])
    ensures IsChannelSwitchNote(k.midi, msg) ==> r.0.Err? && r.1 == ButtonStep(k.midi, lastHi, msg).lastHi
  {
    var b := ButtonStep(k.midi, lastHi, msg);
    match b.outcome
    case Err(e) => (Err(e), b.lastHi)
    case Ok(Some(ev)) => (Ok(Some(ToEvent(k.index, ts, ev))), b.lastHi)
    case Ok(None) =>
      var c := CcStep(k.midi, b.lastHi, msg);
      match c.outcome
      case Err(e) => (Err(e), c.lastHi)
      case Ok(Some(ev)) => (Ok(Some(ToEvent(k.index, ts, ev))), c.lastHi)
      case Ok(None) => (Err(MidiInputDecodeError), c.lastHi)
  }

  predicate DecodableCorrected(m: MidiConstants, lastHi: Byte, msg: Message)
    requires ValidMidi(m)
  {
    ButtonDecodableCorrected(m, msg) && Decodable(m, lastHi, msg)
  }

  /**
   * The decoding the decoder contract asks for: a message that only
   * stores a high byte is decoded successfully without an event, and
   * only the channel select switch reports a selector position.
   */
  function DecodeEventCorrected(k: Constants, lastHi: Byte, ts: TimeStamp, msg: Message): (r: (DecodedEvent, Byte))
    requires ValidMidi(k.midi) && DecodableCorrected(k.midi, lastHi, msg)
    ensures r.0 == Ok(None) <==> IsHighByteCc(k.midi, msg) || IsChannelSwitchNote(k.midi, msg)
    ensures r.0.Ok? && r.0.value.Some? ==> r.0.value.value.ts == ts
    ensures r.1 == DecodeEvent(k, lastHi, ts, msg).1
    ensures r.0.Err? <==> DecodeEvent(k, lastHi, ts, msg).0.Err? &&
                          !IsHighByteCc(k.midi, msg) && !IsChannelSwitchNote(k.midi, msg)
    ensures r.0.Ok? && r.0.value.Some? ==>
              r.0.value.value.input.index == DecodeEvent(k, lastHi, ts, msg).0.value.value.input.index
  {
    var b := ButtonStepCorrected(k.midi, lastHi, msg);
    match b.outcome
    case Err(e) => (Err(e), b.lastHi)
    case Ok(Some(ev)) => (Ok(Some(ToEvent(k.index, ts, ev))), b.lastHi)
    case Ok(None) =>
      if IsChannelSwitchNote(k.midi, msg) then (Ok(None), b.lastHi)
      else
        var c := CcStep(k.midi, b.lastHi, msg);
        match c.outcome
        case Err(e) => (Err(e), c.lastHi)
        case Ok(Some(ev)) => (Ok(Some(ToEvent(k.index, ts, ev))), c.lastHi)
        case Ok(None) => (Ok(None), c.lastHi)
  }

  /**
   * The crossfader high byte, as the device sends it, is reported as a
   * decoding failure by the decoder as written, and as a successful
   * decoding without an event by the corrected one.
   */
  lemma HighByteReportedAsError(k: Constants, lastHi: Byte, ts: TimeStamp, hi: Byte)
    requires ValidMidi(k.midi)
    ensures var msg := [k.midi.statusCcMain, 0x1f, hi];
            DecodableCorrected(k.midi, lastHi, msg) &&
            DecodeEvent(k, lastHi, ts, msg).0 == Err(MidiInputDecodeError) &&
            DecodeEventCorrected(k, lastHi, ts, msg).0 == Ok(None)
  {
    var msg := [k.midi.statusCcMain, 0x1f, hi];
    assert IsHighByteCc(k.midi, msg);
    assert msg[0] !in ButtonStatuses(k.midi);
  }

  /**
   * A 14-bit value is composed from the high byte most recently stored
   * by any control: after a high-byte message of one control, the low
   * byte of any 14-bit main control is combined with that byte.
   */
  lemma HighByteSharedAcrossControls(k: Constants, lastHi: Byte, hiMsg: Message, lo: Byte, d1: Byte)
    requires Valid(k)
    requires IsHighByteCc(k.midi, hiMsg) && hiMsg[2] < 0x80 && lo < 0x80
    requires MainCc(d1).Some? && MainCc(d1).value.1 != StepEncoder7
    ensures var loMsg := [k.midi.statusCcMain, d1, lo];
            var hi := hiMsg[2];
            Decodable(k.midi, lastHi, hiMsg) &&
            DecodeEvent(k, lastHi, TimeStamp(0), hiMsg).1 == hi &&
            Decodable(k.midi, hi, loMsg) &&
            CcStep(k.midi, hi, loMsg).outcome ==
              Ok(Some((Sensor.Main(MainCc(d1).value.0), CcValue(MainCc(d1).value.1, hi, lo))))
  {
    var loMsg := [k.midi.statusCcMain, d1, lo];
    assert hiMsg[0] !in ButtonStatuses(k.midi);
    assert !IsHighByteCc(k.midi, loMsg);
  }

  /**
   * The decoder of the device: its only state is the high byte of the
   * last 14-bit control change (or channel switch position).
   */
  class MidiInputEventDecoder {
    var lastHi: Byte

    constructor ()
      ensures lastHi == 0
    {
      lastHi := 0;
    }

    /** `try_decode_button_event` */
    method TryDecodeButtonEvent(m: MidiConstants, msg: Message) returns (r: Decoded)
      requires ValidMidi(m) && ButtonDecodable(m, msg)
      modifies this
      ensures Step(r, lastHi) == ButtonStep(m, old(lastHi), msg)
    {
      if |msg| != 3 {
        return Ok(None);
      }
      var status, d1, d2 := msg[0], msg[1], msg[2];
      var sensor: Sensor;
      if status == m.statusButtonMain {
        var s := MainButton(d1);
        if s.None? {
          return Err(MidiInputDecodeError);
        }
        sensor := Sensor.Main(s.value);
      } else if status == m.statusButtonEffect {
        if d1 == 0x10 {
          lastHi := if d2 == 0x7f then 0 else 1;
          return Ok(None);
        } else if d1 == 0x14 {
          lastHi := if d2 == 0x7f then 2 else 1;
          return Ok(None);
        }
        var s := EffectButton(d1);
        if s.None? {
          return Err(MidiInputDecodeError);
        }
        sensor := Sensor.Effect(s.value);
      } else if status == m.statusButtonDeckOne || status == m.statusButtonDeckTwo {
        var deck := StatusToDeck(m, status);
        var s := DeckButton(d1);
        if s.None? {
          return Err(MidiInputDecodeError);
        }
        sensor := Sensor.Deck(deck, s.value);
      } else if status == m.statusButtonPerformanceDeckOne || status == m.statusButtonPerformanceDeckTwo {
        var deck := StatusToPerformanceDeck(m, status);
        var s := TryFromU8(d1);
        if s.None? {
          return Err(MidiInputDecodeError);
        }
        sensor := Sensor.Performance(deck, s.value);
      } else {
        return Ok(None);
      }
      var value := if d1 == 0x11 then I.Input.Selector(lastHi) else I.Input.Button(U7ToButton(d2));
      r := Ok(Some((sensor, value)));
    }

    /** `try_decode_cc_event` */
    method TryDecodeCcEvent(m: MidiConstants, msg: Message) returns (r: Decoded)
      requires ValidMidi(m) && CcDecodable(m, lastHi, msg)
      modifies this
      ensures Step(r, lastHi) == CcStep(m, old(lastHi), msg)
    {
      if IsHighByteCc(m, msg) {
        lastHi := msg[2];
        return Ok(None);
      }
      if |msg| != 3 {
        return Err(MidiInputDecodeError);
      }
      var s := CcSensor(m, msg);
      if s.None? {
        return Err(MidiInputDecodeError);
      }
      var (sensor, kind) := s.value;
      r := Ok(Some((sensor, CcValue(kind, lastHi, msg[2]))));
    }

    /** `try_decode_midi_input_event` */
    method TryDecodeMidiInputEvent(k: Constants, ts: TimeStamp, msg: Message) returns (r: DecodedEvent)
      requires ValidMidi(k.midi) && Decodable(k.midi, lastHi, msg)
      modifies this
      ensures (r, lastHi) == DecodeEvent(k, old(lastHi), ts, msg)
    {
      var b := TryDecodeButtonEvent(k.midi, msg);
      if b.Err? {
        return Err(b.error);
      }
      if b.value.Some? {
        return Ok(Some(ToEvent(k.index, ts, b.value.value)));
      }
      var c := TryDecodeCcEvent(k.midi, msg);
      if c.Err? {
        return Err(c.error);
      }
      if c.value.Some? {
        return Ok(Some(ToEvent(k.index, ts, c.value.value)));
      }
      return Err(MidiInputDecodeError);
    }
  }
}
