/**
 * Conversion helpers of the older input-mapping generation. Unlike the
 * crate-level helpers they take whole bytes and never check that the
 * MIDI data bytes are 7-bit values.
 */
module InputMapping {
  import opened Common
  import opened Djio
  import opened Input

  /**
   * `u16::from(hi) << 7 | u16::from(lo)` without masking: the OR adds for
   * 7-bit bytes and loses 128 when both bytes have bit 7 of the result set.
   */
  function U7BeToU14Unmasked(hi: Byte, lo: Byte): (r: U16)
    ensures lo < 128 ==> r == hi * 128 + lo
    ensures hi < 128 && lo < 128 ==> r < 0x4000 && r / 128 == hi && r % 128 == lo
    ensures r == hi * 128 + lo - (if hi % 2 == 1 && lo >= 128 then 128 else 0)
  {
    ShiftOr7Bytes(hi, lo);
    ShiftOr7(hi, lo)
  }

  /** Position `input / 127`; only 7-bit inputs stay within [0, 1]. */
  function U7ToSlider(input: Byte): (r: SliderInput)
    ensures r.position >= 0.0
    ensures r.position <= 1.0 <==> input <= 127
    ensures r.position == 0.0 <==> input == 0
    ensures r.position == 1.0 <==> input == 127
  {
    SliderInput(input as real / 127.0)
  }

  /** Position `input / 16383`; only 14-bit inputs stay within [0, 1]. */
  function U14ToSlider(input: U16): (r: SliderInput)
    ensures r.position >= 0.0
    ensures r.position <= 1.0 <==> input <= 16383
    ensures r.position == 0.0 <==> input == 0
    ensures r.position == 1.0 <==> input == 16383
  {
    SliderInput(input as real / 16383.0)
  }

  /**
   * Position `input * 2 / 127 - 1`: an odd number of steps over [-1, 1],
   * so no raw value lands exactly on the centre.
   */
  function U7ToCenterSlider(input: Byte): (r: CenterSliderInput)
    ensures r.position >= -1.0
    ensures r.position <= 1.0 <==> input <= 127
    ensures r.position == -1.0 <==> input == 0
    ensures r.position == 1.0 <==> input == 127
    ensures r.position != 0.0
    ensures r.position < 0.0 <==> input < 64
  {
    CenterSliderInput(input as real * 2.0 / 127.0 - 1.0)
  }

  function U14ToCenterSlider(input: U16): (r: CenterSliderInput)
    ensures r.position >= -1.0
    ensures r.position <= 1.0 <==> input <= 16383
    ensures r.position == -1.0 <==> input == 0
    ensures r.position == 1.0 <==> input == 16383
    ensures r.position != 0.0
    ensures r.position < 0.0 <==> input < 8192
  {
    CenterSliderInput(input as real * 2.0 / 16383.0 - 1.0)
  }

  /**
   * The value of a touch wheel: the conversion `u7_to_slider_encoder`
   * that the decoders call is not part of this model, so the value is
   * kept as the raw data byte it is computed from.
   */
  datatype SliderEncoderValue = SliderEncoderValue(raw: Byte)

  /** Both centre-slider conversions are strictly increasing. */
  lemma CenterSliderIncreasing(a: Byte, b: Byte, c: U16, d: U16)
    ensures a < b ==> U7ToCenterSlider(a).position < U7ToCenterSlider(b).position
    ensures c < d ==> U14ToCenterSlider(c).position < U14ToCenterSlider(d).position
  {
  }
}
