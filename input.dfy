/**
 * Sensor values of controller inputs and their normalisation from raw
 * 7-bit and 14-bit MIDI values. Positions are exact rationals (`real`);
 * the source computes them in `f32`.
 */
module Input {
  import opened Common
  import opened Djio

  /** An input together with the time it was received. */
  datatype InputEvent<T> = InputEvent(ts: TimeStamp, input: T)

  /** A pad button with a pressure in [0, 1]. */
  datatype PadButtonInput = PadButtonInput(pressure: real)

  /** A continuous fader or knob with a position in [0, 1]. */
  datatype SliderInput = SliderInput(position: real)

  /** A fader or knob with a symmetric centre and a position in [-1, 1]. */
  datatype CenterSliderInput = CenterSliderInput(position: real)

  /** An endless encoder that sends discrete steps. */
  datatype StepEncoderInput = StepEncoderInput(delta: int)

  /** An endless encoder that sends continuous deltas; 1.0 is one clockwise turn. */
  datatype SliderEncoderInput = SliderEncoderInput(delta: real)

  /**
   * All sensor values. `StepEncoderU7(raw)` stands for
   * `StepEncoderInput::from_u7(raw)` and the `Inverted…` variants for the
   * `inverse()` of the wrapped value; neither conversion is defined in
   * the modelled files, so they are kept symbolic. `Selector(choice)` is
   * a multi-position switch.
   */
  datatype Input =
    | Button(button: ButtonInput)
    | PadButton(pad: PadButtonInput)
    | Slider(slider: SliderInput)
    | CenterSlider(center: CenterSliderInput)
    | StepEncoder(step: StepEncoderInput)
    | SliderEncoder(encoder: SliderEncoderInput)
    | StepEncoderU7(raw: Byte)
    | InvertedCenterSlider(inverted: CenterSliderInput)
    | InvertedSliderEncoder(invertedEncoder: SliderEncoderInput)
    | Selector(choice: U32)

  /** A sensor value addressed by its generic control index. */
  datatype ControlInput = ControlInput(index: ControlIndex, input: Input)

  const MIN_PRESSURE: real := 0.0
  const MAX_PRESSURE: real := 1.0

  /** A pad counts as pressed as soon as there is any pressure. */
  predicate IsPressed(pad: PadButtonInput)
    requires MIN_PRESSURE <= pad.pressure <= MAX_PRESSURE
    ensures IsPressed(pad) <==> pad.pressure > MIN_PRESSURE
  {
    pad.pressure != MIN_PRESSURE
  }

  function PadButtonFromU7(input: U7): (r: PadButtonInput)
    ensures MIN_PRESSURE <= r.pressure <= MAX_PRESSURE
    ensures IsPressed(r) <==> input != 0
    ensures input == 127 ==> r.pressure == MAX_PRESSURE
  {
    PadButtonInput(input as real / 127.0)
  }

  function PadButtonFromU14(input: U14): (r: PadButtonInput)
    ensures MIN_PRESSURE <= r.pressure <= MAX_PRESSURE
    ensures IsPressed(r) <==> input != 0
    ensures input == 16383 ==> r.pressure == MAX_PRESSURE
  {
    PadButtonInput(input as real / 16383.0)
  }

  function SliderFromU7(input: U7): (r: SliderInput)
    ensures 0.0 <= r.position <= 1.0
    ensures r.position == 0.0 <==> input == 0
    ensures r.position == 1.0 <==> input == 127
  {
    SliderInput(input as real / 127.0)
  }

  function SliderFromU14(input: U14): (r: SliderInput)
    ensures 0.0 <= r.position <= 1.0
    ensures r.position == 0.0 <==> input == 0
    ensures r.position == 1.0 <==> input == 16383
  {
    SliderInput(input as real / 16383.0)
  }

  /** Larger raw values give strictly larger slider positions. */
  lemma SliderMonotonic(a: U7, b: U7, c: U14, d: U14)
    ensures a < b ==> SliderFromU7(a).position < SliderFromU7(b).position
    ensures c < d ==> SliderFromU14(c).position < SliderFromU14(d).position
  {
  }

  /**
   * Below the centre the lower half [0, 64) is scaled by 64, above it the
   * upper half [64, 127] by 63, so both ends reach exactly -1 and +1.
   */
  function CenterSliderFromU7(input: U7): (r: CenterSliderInput)
    ensures -1.0 <= r.position <= 1.0
    ensures r.position < 0.0 <==> input < 64
    ensures r.position == 0.0 <==> input == 64
    ensures r.position == -1.0 <==> input == 0
    ensures r.position == 1.0 <==> input == 127
  {
    if input < 64 then CenterSliderInput((input - 64) as real / 64.0)
    else CenterSliderInput((input - 64) as real / 63.0)
  }

  function CenterSliderFromU14(input: U14): (r: CenterSliderInput)
    ensures -1.0 <= r.position <= 1.0
    ensures r.position < 0.0 <==> input < 8192
    ensures r.position == 0.0 <==> input == 8192
    ensures r.position == -1.0 <==> input == 0
    ensures r.position == 1.0 <==> input == 16383
  {
    if input < 8192 then CenterSliderInput((input - 8192) as real / 8192.0)
    else CenterSliderInput((input - 8192) as real / 8191.0)
  }

  lemma CenterSliderMonotonic(a: U7, b: U7, c: U14, d: U14)
    ensures a < b ==> CenterSliderFromU7(a).position < CenterSliderFromU7(b).position
    ensures c < d ==> CenterSliderFromU14(c).position < CenterSliderFromU14(d).position
  {
  }

  /** `u8::wrapping_sub` followed by a cast to `i8`. */
  function WrappingSubAsI8(a: Byte, b: Byte): (r: int)
    ensures -128 <= r < 128
    ensures (r - (a - b)) % 256 == 0
  {
    var d := (a - b) % 256;
    if d < 128 then d else d - 256
  }

  /** `u16::wrapping_sub` followed by a cast to `i16`. */
  function WrappingSubAsI16(a: U16, b: U16): (r: int)
    ensures -32768 <= r < 32768
    ensures (r - (a - b)) % 65536 == 0
  {
    var d := (a - b) % 65536;
    if d < 32768 then d else d - 65536
  }

  /**
   * 7-bit two's complement delta: [0, 64) turns clockwise by up to one
   * turn, [64, 128) counter-clockwise, 64 being one full turn.
   */
  function SliderEncoderFromU7(input: U7): (r: SliderEncoderInput)
    ensures input < 64 ==> 0.0 <= r.delta <= 1.0
    ensures input >= 64 ==> -1.0 <= r.delta < 0.0
    ensures r.delta == 0.0 <==> input == 0
    ensures r.delta == 1.0 <==> input == 63
    ensures r.delta == -1.0 <==> input == 64
    ensures input == 127 ==> r.delta == -1.0 / 64.0
  {
    if input < 64 then SliderEncoderInput(input as real / 63.0)
    else SliderEncoderInput(WrappingSubAsI8(input, 128) as real / 64.0)
  }

  function SliderEncoderFromU14(input: U14): (r: SliderEncoderInput)
    ensures input < 8192 ==> 0.0 <= r.delta <= 1.0
    ensures input >= 8192 ==> -1.0 <= r.delta < 0.0
    ensures r.delta == 0.0 <==> input == 0
    ensures r.delta == 1.0 <==> input == 8191
    ensures r.delta == -1.0 <==> input == 8192
    ensures input == 16383 ==> r.delta == -1.0 / 8192.0
  {
    if input < 8192 then SliderEncoderInput(input as real / 8191.0)
    else SliderEncoderInput(WrappingSubAsI16(input, 16384) as real / 8192.0)
  }
}
