# djio, modelled in Dafny

djio is a Rust library for DJ controllers: it decodes the MIDI and HID
messages of a controller's sensors (buttons, faders, knobs, jog wheels,
pads) into normalised control inputs, encodes LED and other outputs into
messages, detects controllers among the MIDI ports, runs a HID I/O thread
per device, and keeps a registry of addressable parameters with ramped
output values.

This project models the library's core and proves properties of the
model. One Dafny module stands for one source file:

- `Djio` (`src/lib.rs`): port indices that skip the invalid index 0 on
  wrap-around, the sequential port index generator, 14-bit values from two
  7-bit bytes, device names, and the bit conversions of control values and
  time stamps. `Common` holds the shared vocabulary (options, results,
  bytes, button and LED values, an owned MIDI output connection that
  records what it sends).
- `Input` and `InputMapping` (`src/input`): the normalisation of raw 7- and
  14-bit values into pad pressures, sliders, centre sliders and slider
  encoders, over exact reals.
- `KorgKaossDjInput`, `KorgKaossDj`, `KorgKaossDjMapping`,
  `KorgKaossDjOutput`: the three generations of the Korg Kaoss DJ decoder,
  its sensor ↔ control index conversion, and its deck LED encoder and
  output gateway.
- `PioneerDdj400Constants`, `PioneerDdj400Input`, `PioneerDdj400`,
  `PioneerDdj400Mapping`, `PioneerDdj400Output`: the Pioneer DDJ-400
  decoders (including the stateful decoder with its stored high byte), the
  sensor and LED ↔ control index conversions, LED messages and the output
  gateway that turns all LEDs off on attach and detach.
- `DenonDjMc6000Mk2Input`, `GenericMidiInput`, `GenericMidiOutput`: the
  Denon MC6000MK2 input gateway and the generic MIDI codec.
- `Midi` and `DeckModel`: consuming decoded MIDI events, the system reset
  message, and the LED states of the play state of a deck.
- `Hid`, `HidReport`, `HidThread`, `NiTraktorKontrolS4Mk3`: HID usage
  pages, timeouts, device ids and deduplicated enumeration, the connection
  state of a device, the per-report-id buffer recycler, the I/O thread's
  command handling and its read loop with double-buffered deduplication,
  and the Traktor Kontrol S4MK3 context that keeps report statistics and
  writes the initialisation and finalisation reports.
- `Midir`: detection of DJ controllers among named MIDI ports and the
  connection state of a detected device.
- `Controller`, `ControllerMidiContext`, `ControllerMidi`: the context that
  holds at most one attached MIDI controller together with the thread of
  its task, in both generations.
- `Param`, `ParamRegistry`, `ParamRamping`: parameter values and their
  ranges, the registry of parameter addresses and descriptors, and linear
  or stepped ramps between two values.

What the source computes as an expression is a function with a contract;
what it changes in place (a decoder's stored byte, an output gateway's
connection, the buffer recycler, a device's connection, a controller
context, the registry, a ramp) is a class whose methods state the new
state. Loops of the source (the port index generator, turning all LEDs
off, deduplicating enumerated devices, the HID read loop, draining the
recycle queue, detecting controllers) are methods with loop invariants,
proved against reference functions whose properties are lemmas.

Platform answers are parameters of the model: the device's answer to a
HID read or write, whether a port can be opened, the names of the
enumerated ports, the iteration order of a hash map, and the clock.
Constants that the library defines in modules outside the model (MIDI
status bytes, control index bit fields) are parameters constrained by the
assumptions the code makes about them.

Where the documented intent and the code disagree, the model follows the
code and proves the disagreement; the corrected definition is modelled
next to it (see "Findings").

## Model

| member | source | states |
|---|---|---|
| Djio.Name | src/lib.rs:62-77 | the product name alone when the vendor name is empty, otherwise vendor name, one space, product name |
| Djio.Successor | src/lib.rs:116-128 | reference successor of a port index: never `INVALID`, one more below `u32::MAX`, and `MAX` wraps straight to `MIN` |
| Djio.DefaultPortIndexIsInvalid | src/lib.rs:290-293 | the default port index is `INVALID` |
| Djio.Next | src/lib.rs:116-128 | the wrap-around loop of `PortIndex::next` ends with the valid successor |
| Djio.GeneratedSequence | src/lib.rs:136-151 | a fresh generator yields 1, 2, 3, … up to `u32::MAX`, and the call after that yields `MIN`, never 0 |
| Djio.PortIndexGenerator.constructor | src/lib.rs:137-140 | a new generator's counter holds the invalid index |
| Djio.PortIndexGenerator.Next | src/lib.rs:142-151 | the `fetch_add` loop returns a valid index, the successor of the previous counter, and leaves the counter at it |
| Djio.ShiftOr7Adds | src/lib.rs:250-255 | for 7-bit inputs the shift-and-OR equals `hi * 128 + lo` |
| Djio.ShiftOr7Bytes | src/lib.rs:250-255 | on whole bytes the result is 128 short of `hi * 128 + lo` exactly when the low bit of `hi` and bit 7 of `lo` are both set, and it fits 16 bits |
| Djio.U7BeToU14 | src/lib.rs:250-255 | the 14-bit composition is `hi * 128 + lo`, and dividing by 128 and taking the remainder recovers `hi` and `lo` |
| Common.WrappingAddU32 | src/lib.rs:119 | `u32::wrapping_add`: the sum below 2^32, else the sum minus 2^32 |
| Input.PadButtonFromU7 | src/input/mod.rs:40-52 | pressure in [0, 1], 127 gives full pressure, and the pad is pressed iff the raw value is non-zero |
| Input.IsPressed | src/input/mod.rs:41-45 | a pad within the pressure bounds is pressed iff its pressure is above the minimum |
| Input.PadButtonFromU14 | src/input/mod.rs:40-59 | pressure in [0, 1], 16383 gives full pressure, and the pad is pressed iff the raw value is non-zero |
| Input.SliderFromU7 | src/input/mod.rs:74-79 | position in [0, 1], exactly 0 iff the input is 0 and exactly 1 iff it is 127 |
| Input.SliderFromU14 | src/input/mod.rs:81-86 | position in [0, 1], exactly 0 iff the input is 0 and exactly 1 iff it is 16383 |
| Input.SliderMonotonic | src/input/mod.rs:74-86 | both slider conversions are strictly increasing |
| Input.CenterSliderFromU7 | src/input/mod.rs:102-112 | position in [-1, 1]; -1 iff 0, 0 iff 64, 1 iff 127, negative iff the input is below 64 |
| Input.CenterSliderFromU14 | src/input/mod.rs:114-124 | position in [-1, 1]; -1 iff 0, 0 iff 8192, 1 iff 16383, negative iff the input is below 8192 |
| Input.CenterSliderMonotonic | src/input/mod.rs:102-124 | both centre-slider conversions are strictly increasing |
| Input.WrappingSubAsI8 | src/input/mod.rs:150-158 | `u8::wrapping_sub` then a cast to `i8`: a value in [-128, 128) congruent to `a - b` modulo 256 |
| Input.WrappingSubAsI16 | src/input/mod.rs:162-170 | `u16::wrapping_sub` then a cast to `i16`: a value in [-32768, 32768) congruent to `a - b` modulo 65536 |
| Input.SliderEncoderFromU7 | src/input/mod.rs:148-158 | below 64 a delta in [0, 1], from 64 on a delta in [-1, 0); 0 iff 0, +1 iff 63, -1 iff 64, and 127 is -1/64 |
| Input.SliderEncoderFromU14 | src/input/mod.rs:160-170 | below 8192 a delta in [0, 1], from 8192 on a delta in [-1, 0); 0 iff 0, +1 iff 8191, -1 iff 8192, and 16383 is -1/8192 |
| InputMapping.U7BeToU14Unmasked | src/input/mapping/mod.rs:6-9 | without masking: `hi * 128 + lo` for a 7-bit `lo`, invertible for 7-bit inputs, and 128 short when the two bytes overlap in bit 7 |
| InputMapping.U7ToSlider | src/input/mapping/mod.rs:11-15 | `input / 127`: non-negative, at most 1 iff the input is 7-bit, 0 iff 0 and 1 iff 127 |
| InputMapping.U14ToSlider | src/input/mapping/mod.rs:17-21 | `input / 16383`: non-negative, at most 1 iff the input is 14-bit, 0 iff 0 and 1 iff 16383 |
| InputMapping.U7ToCenterSlider | src/input/mapping/mod.rs:23-27 | -1 iff 0 and +1 iff 127, never exactly 0, and negative iff the input is below 64 |
| InputMapping.U14ToCenterSlider | src/input/mapping/mod.rs:29-33 | -1 iff 0 and +1 iff 16383, never exactly 0, and negative iff the input is below 8192 |
| InputMapping.CenterSliderIncreasing | src/input/mapping/mod.rs:23-33 | both centre-slider conversions are strictly increasing |
| KorgKaossDjInput.U7ToButton | src/devices/korg_kaoss_dj/input.rs:14-20 | on the two values the device sends, Pressed iff 127 |
| KorgKaossDjInput.U7ToStepEncoder | src/devices/korg_kaoss_dj/input.rs:22-29 | one step, +1 iff the value is 1 and -1 for 127 |
| KorgKaossDjInput.DeckNote | src/devices/korg_kaoss_dj/input.rs:214-361 | deck note numbers name buttons or layer buttons only |
| KorgKaossDjInput.DeckCc | src/devices/korg_kaoss_dj/input.rs:413-484 | deck control changes never name a button |
| KorgKaossDjInput.DeckNoteBijective | src/devices/korg_kaoss_dj/input.rs:214-361 | the deck note table and its reference inverse agree in both directions, so every deck button has exactly one note number |
| KorgKaossDjInput.DeckOfStatus | src/devices/korg_kaoss_dj/input.rs:207-213 | status 0x97/0xb7 address deck A, 0x98/0xb8 deck B |
| KorgKaossDjInput.DeckInputOf | src/devices/korg_kaoss_dj/input.rs:214-484 | the decoded deck input is about the control that was looked up |
| KorgKaossDjInput.TryFromMidiMessage | src/devices/korg_kaoss_dj/input.rs:167-490 | `None` exactly for the duplicate touch-pad X `[0xb8, 0x0c, _]`; decks follow the status byte; the shift layer iff notes 0x2e-0x30; 0x0c is touch-pad X and 0x0d touch-pad Y before any other arm; buttons come exactly from note statuses |
| KorgKaossDjInput.DeckButtonDecodes | src/devices/korg_kaoss_dj/input.rs:207-361 | a deck button's note number, sent on the deck's channel, decodes to that very button and state |
| KorgKaossDjInput.HandleMidiInput | src/devices/korg_kaoss_dj/input.rs:527-535 | exactly one event, carrying the given time stamp and the decoded input, iff the message decodes; none otherwise |
| KorgKaossDjInput.SensorOf | src/devices/korg_kaoss_dj/input.rs:541-629 | a control's sensor ordinal decodes back to the control |
| KorgKaossDjInput.ControlOfIndex | src/devices/korg_kaoss_dj/input.rs:541-635 | an index names a control iff it is below the number of sensors |
| KorgKaossDjInput.ControlInputFrom | src/devices/korg_kaoss_dj/input.rs:637-887 | the control index is a sensor ordinal that decodes to the input's control, and the value is carried over |
| KorgKaossDjInput.ControlIndexInjective | src/devices/korg_kaoss_dj/input.rs:637-887 | two inputs get the same control index iff they are about the same (deck, control, layer) |
| KorgKaossDj.U7ToButton | src/devices/korg_kaoss_dj.rs:146-152 | on the two values the device sends, Pressed iff 127 |
| KorgKaossDj.U7ToStepEncoder | src/devices/korg_kaoss_dj.rs:154-161 | one step, +1 iff the value is 1 and -1 for 127 |
| KorgKaossDj.GlobalNote | src/devices/korg_kaoss_dj.rs:168-213 | a global note is in the shifted layer iff it is 0x07, which is the shifted browse encoder |
| KorgKaossDj.DeckNoteBijective | src/devices/korg_kaoss_dj.rs:221-382 | the deck note table and its reference inverse agree in both directions: only PlayPause, Sync and Cue have a shifted note |
| KorgKaossDj.DeckCc | src/devices/korg_kaoss_dj.rs:434-505 | deck control changes never name a button |
| KorgKaossDj.DeckOfStatus | src/devices/korg_kaoss_dj.rs:214-220 | status 0x97/0xb7 address deck A, 0x98/0xb8 deck B |
| KorgKaossDj.TryFromMidiMessage | src/devices/korg_kaoss_dj.rs:166-511 | `None` exactly for `[0xb8, 0x0c, _]`; decks follow the status; global buttons are shifted iff note 0x07, deck buttons iff notes 0x2e-0x30; touch-pad X/Y arms win; every note message decodes to a button |
| KorgKaossDj.DeckButtonDecodes | src/devices/korg_kaoss_dj.rs:214-382 | a deck button's note number in its layer, sent on the deck's channel, decodes to that button, layer and state |
| KorgKaossDj.HandleMidiInput | src/devices/korg_kaoss_dj.rs:539-546 | exactly one event with the given time stamp iff the message decodes |
| KorgKaossDjMapping.U7ToButton | src/input/mapping/korg_kaoss_dj.rs:138-144 | on the two values the device sends, Pressed iff 127 |
| KorgKaossDjMapping.U7ToStepEncoder | src/input/mapping/korg_kaoss_dj.rs:146-153 | one step, +1 iff the value is 1 and -1 for 127 |
| KorgKaossDjMapping.GlobalNote | src/input/mapping/korg_kaoss_dj.rs:160-194 | global notes decode iff they are 0x07, 0x0b, 0x22 or 0x4a-0x4d, shifted iff 0x07 |
| KorgKaossDjMapping.DeckNoteBijective | src/input/mapping/korg_kaoss_dj.rs:202-363 | the deck note table and its reference inverse agree in both directions |
| KorgKaossDjMapping.DeckCc | src/input/mapping/korg_kaoss_dj.rs:411-482 | deck control changes never name a button |
| KorgKaossDjMapping.DeckOfStatus | src/input/mapping/korg_kaoss_dj.rs:195-201 | status 0x97/0xb7 address deck A, 0x98/0xb8 deck B |
| KorgKaossDjMapping.TryFromMidiMessage | src/input/mapping/korg_kaoss_dj.rs:158-490 | `None` iff the message is not 3 bytes, has an unknown status, or is an unknown global note; decks follow the status; shift layers as for the device; both 0xb7/0xb8 0x0c give touch-pad X and 0x0d touch-pad Y; `[0xb6, 0x17, v]` is the crossfader and the other 0xb6 controls are the browse (0x1e) or program encoder |
| KorgKaossDjMapping.TapHoldIgnored | src/input/mapping/korg_kaoss_dj.rs:160-194 | tap-and-hold note 0x21 is ignored rather than decoded |
| KorgKaossDjMapping.DeckButtonDecodes | src/input/mapping/korg_kaoss_dj.rs:195-363 | a deck button's note number in its layer decodes to that button, layer and state |
| KorgKaossDjOutput.LedToU7 | src/devices/korg_kaoss_dj/output.rs:42-47 | 0x7f iff On, otherwise 0x00 |
| KorgKaossDjOutput.DeckLedMessage | src/devices/korg_kaoss_dj/output.rs:85-97 | three bytes: 0x97 iff deck A (else 0x98), a note in 0x1a/0x1b/0x1d/0x1e, and the LED byte |
| KorgKaossDjOutput.DeckControlOfLed | src/devices/korg_kaoss_dj/output.rs:89-95 | a supported LED sits on a deck button |
| KorgKaossDjOutput.DeckLedMessageDecodes | src/devices/korg_kaoss_dj/output.rs:85-97 | the LED message decodes, on the input side, to the same deck's button, pressed iff the LED is On |
| KorgKaossDjOutput.OutputGateway.Attach | src/devices/korg_kaoss_dj/output.rs:55-61 | the gateway owns the given connection |
| KorgKaossDjOutput.OutputGateway.Detach | src/devices/korg_kaoss_dj/output.rs:62-68 | detach returns the very connection that was attached |
| KorgKaossDjOutput.OutputGateway.SendDeckLedOutput | src/devices/korg_kaoss_dj/output.rs:78-98 | exactly one three-byte LED message is sent when the connection accepts it, and the error is passed on otherwise |
| PioneerDdj400Input.PadModeBase | src/devices/pioneer_ddj_400/input.rs:118-128 | each pad mode's base id is a multiple of 16 below 0x80 |
| PioneerDdj400Input.AsU8 | src/devices/pioneer_ddj_400/input.rs:118-128 | for pad numbers 0..=7 the id is the mode's base plus the number, with low nibble below 8 |
| PioneerDdj400Input.TryFromU8 | src/devices/pioneer_ddj_400/input.rs:130-143 | an id names a pad iff it is 0xN0..=0xN7 with N in 0..=7; the pad number is the low nibble and the mode the high one |
| PioneerDdj400Input.PadIdRoundTrip | src/devices/pioneer_ddj_400/input.rs:117-143 | pads numbered 0..=7 and accepted ids are in one-to-one correspondence |
| PioneerDdj400Input.SensorToControlIndex | src/devices/pioneer_ddj_400/input.rs:156-176 | main and effect sensors are their bare discriminant, with no deck bits |
| PioneerDdj400Input.SensorFromBits | src/devices/pioneer_ddj_400/input.rs:188-208 | only main or deck sensors are ever decoded |
| PioneerDdj400Input.SensorFromControlIndex | src/devices/pioneer_ddj_400/input.rs:191-208 | only main or deck sensors are decoded; a deck sensor's index carries that deck's bit and its discriminant; a main sensor's index carries its discriminant and neither deck bit alone nor both |
| PioneerDdj400Input.DeckSensorFromBits | src/devices/pioneer_ddj_400/input.rs:191-208 | an index with a deck's bit and a deck discriminant decodes to that deck sensor |
| PioneerDdj400Input.BothDecksRejected | src/devices/pioneer_ddj_400/input.rs:191-208 | an index with both deck bits set is rejected |
| PioneerDdj400Input.MainIndexRoundTrip | src/devices/pioneer_ddj_400/input.rs:156-208 | a main sensor decodes back from its control index |
| PioneerDdj400Input.DeckIndexFields | src/devices/pioneer_ddj_400/input.rs:156-176 | a deck sensor's index carries the deck bit and the discriminant, both readable by masking |
| PioneerDdj400Input.DeckIndexRoundTrip | src/devices/pioneer_ddj_400/input.rs:156-208 | a deck sensor decodes back from its control index |
| PioneerDdj400Input.SensorIndexRoundTrip | src/devices/pioneer_ddj_400/input.rs:156-208 | main and deck sensors survive the trip through their index; an effect index reads back as the main sensor with the same discriminant |
| PioneerDdj400Input.U7ToButton | src/devices/pioneer_ddj_400/input.rs:211-217 | on the two values the device sends, Pressed iff 127 |
| PioneerDdj400Input.StatusToDeck | src/devices/pioneer_ddj_400/input.rs:219-225 | deck one iff the low nibble of the status is deck one's channel |
| PioneerDdj400Input.StatusToPerformanceDeck | src/devices/pioneer_ddj_400/input.rs:227-233 | deck one iff the low nibble is deck one's performance channel |
| PioneerDdj400Input.ButtonStep | src/devices/pioneer_ddj_400/input.rs:264-353 | only the channel switch notes 0x10/0x14 change the high byte (to 0/1/2) and yield nothing; a non-note status yields nothing; an unknown note is an error; a known note yields its sensor with its button state, except that note 0x11 yields the stored high byte as a selector |
| PioneerDdj400Input.IntendedButtonValue | src/devices/pioneer_ddj_400/input.rs:346-351 | only the channel select switch is meant to report a selector position |
| PioneerDdj400Input.ButtonStepCorrected | src/devices/pioneer_ddj_400/input.rs:264-353 | the same outcomes and high byte as as written, except that the selector value is confined to the channel select switch |
| PioneerDdj400Input.OutButtonReportedAsSelector | src/devices/pioneer_ddj_400/input.rs:346-351 | a deck's out button, pressed, is reported as a selector position as written and as pressed when corrected |
| PioneerDdj400Input.CcStep | src/devices/pioneer_ddj_400/input.rs:356-463 | a high-byte control change stores its data byte and yields nothing; a known low byte yields its sensor with a value built from the stored high byte; anything else is an error |
| PioneerDdj400Input.DecodeEvent | src/devices/pioneer_ddj_400/input.rs:241-261 | as written the decoder never answers `Ok(None)`: a high-byte message is an error (after storing the byte), as is a channel switch note, and every event carries the given time stamp |
| PioneerDdj400Input.DecodeEventCorrected | src/devices/pioneer_ddj_400/input.rs:241-261 | `Ok(None)` exactly for messages that only store a high byte or switch position; otherwise the same errors, high byte and control index as as written |
| PioneerDdj400Input.HighByteReportedAsError | src/devices/pioneer_ddj_400/input.rs:247-253 | the crossfader high byte is a decoding error as written and a successful decoding without an event when corrected |
| PioneerDdj400Input.HighByteSharedAcrossControls | src/devices/pioneer_ddj_400/input.rs:366-393 | a 14-bit value combines the high byte most recently stored by any control with the low byte of another |
| PioneerDdj400Input.MidiInputEventDecoder.constructor | src/devices/pioneer_ddj_400/input.rs:235-238 | a new decoder's high byte is 0 |
| PioneerDdj400Input.MidiInputEventDecoder.TryDecodeButtonEvent | src/devices/pioneer_ddj_400/input.rs:264-353 | outcome and new high byte are those of `ButtonStep` |
| PioneerDdj400Input.MidiInputEventDecoder.TryDecodeCcEvent | src/devices/pioneer_ddj_400/input.rs:356-463 | outcome and new high byte are those of `CcStep` |
| PioneerDdj400Input.MidiInputEventDecoder.TryDecodeMidiInputEvent | src/devices/pioneer_ddj_400/input.rs:241-261 | outcome and new high byte are those of `DecodeEvent` |
| PioneerDdj400.U7ToButton | src/devices/pioneer_ddj_400.rs:72-78 | on the two values the device sends, Pressed iff 127 |
| PioneerDdj400.TryFromMidiMessage | src/devices/pioneer_ddj_400.rs:82-162 | decoded messages are 3 bytes with status 0x90/0x91/0xb0/0xb1/0xb6; the left deck iff status 0x90/0xb0; the crossfader iff `[0xb6, 0x1f or 0x3f, _]` |
| PioneerDdj400.MidiMessageOf | src/devices/pioneer_ddj_400.rs:82-162 | every input has a three-byte message the decoder accepts |
| PioneerDdj400.MessageRoundTrip | src/devices/pioneer_ddj_400.rs:82-162 | the table is a bijection: every input decodes from its message, and every recognised message is the message of what it decodes to |
| PioneerDdj400.HandleMidiInput | src/devices/pioneer_ddj_400.rs:191-198 | exactly one event with the given time stamp iff the message decodes |
| PioneerDdj400Mapping.U7ToButton | src/input/mapping/pioneer_ddj_400.rs:52-58 | on the two values the device sends, Pressed iff 127 |
| PioneerDdj400Mapping.TryFromMidiMessage | src/input/mapping/pioneer_ddj_400.rs:62-158 | decoded messages are 3 bytes; the left deck iff status 0x90/0xb0; buttons are PlayPause iff note 0x0b; jog is Rev iff 0x3f; the crossfader iff `[0xb6, 0x1f or 0x3f, _]` |
| PioneerDdj400Mapping.AgreesWithDeviceTable | src/input/mapping/pioneer_ddj_400.rs:62-158 | this table decodes exactly the messages the device module's table decodes, to the same inputs |
| PioneerDdj400Output.LedDeck | src/devices/pioneer_ddj_400/output.rs:27-33 | no deck iff a main LED, else the LED's own deck |
| PioneerDdj400Output.LedToControlIndex | src/devices/pioneer_ddj_400/output.rs:35-40 | a main LED's index is its bare discriminant |
| PioneerDdj400Output.LedFromControlIndex | src/devices/pioneer_ddj_400/output.rs:87-104 | a deck LED's index carries that deck's bit and its discriminant; a main LED's index carries its discriminant and neither deck bit alone nor both |
| PioneerDdj400Output.DeckLedFromFields | src/devices/pioneer_ddj_400/output.rs:87-104 | a deck bit and an LED discriminant decode to that deck LED |
| PioneerDdj400Output.DeckLedIndexFields | src/devices/pioneer_ddj_400/output.rs:35-40 | a deck LED's index carries the deck bit and the discriminant |
| PioneerDdj400Output.LedIndexRoundTrip | src/devices/pioneer_ddj_400/output.rs:34-105 | every LED decodes back from its control index |
| PioneerDdj400Output.BothDecksRejected | src/devices/pioneer_ddj_400/output.rs:94 | an index with both deck bits set is rejected |
| PioneerDdj400Output.LedToU7 | src/devices/pioneer_ddj_400/output.rs:46-51 | 0x7f iff On, otherwise 0x00 |
| PioneerDdj400Output.NoteOnStatus | src/devices/pioneer_ddj_400/output.rs:114-116 | the status' low nibble is the deck's channel and its high part the note-on command |
| PioneerDdj400Output.NoteOnStatusIsOr | src/devices/pioneer_ddj_400/output.rs:114-116 | that status is the bitwise OR of command and channel |
| PioneerDdj400Output.LedMessage | src/devices/pioneer_ddj_400/output.rs:108-131 | three bytes: main LEDs on the main status with their own note, deck LEDs as note-on on the deck channel, the LED byte last |
| PioneerDdj400Output.DeckLedNoteIsButtonNote | src/devices/pioneer_ddj_400/output.rs:117-125 | each deck LED is switched with the note that its button sends on the input side |
| PioneerDdj400Output.DeckLedMessageDecodes | src/devices/pioneer_ddj_400/output.rs:114-127 | a deck LED message decodes on the input side to that deck's button, pressed iff On |
| PioneerDdj400Output.AllLeds | src/devices/pioneer_ddj_400/output.rs:152-162 | the visiting order has sixteen LEDs |
| PioneerDdj400Output.AllLedsComplete | src/devices/pioneer_ddj_400/output.rs:152-162 | every LED is visited |
| PioneerDdj400Output.AllOffMessages | src/devices/pioneer_ddj_400/output.rs:152-162 | the i-th message switches the i-th LED off |
| PioneerDdj400Output.LeadingSuccesses | src/devices/pioneer_ddj_400/output.rs:152-162 | the number of attempts before the first refused one |
| PioneerDdj400Output.TurnOffAllLeds | src/devices/pioneer_ddj_400/output.rs:152-162 | the off messages are sent in order up to the first refused one; success iff all sixteen were delivered |
| PioneerDdj400Output.OutputGateway.constructor | src/devices/pioneer_ddj_400/output.rs:169-175 | nothing attached |
| PioneerDdj400Output.OutputGateway.SendLedOutput | src/devices/pioneer_ddj_400/output.rs:178-183 | `Disconnected` without a connection; otherwise exactly the LED message is sent, if accepted |
| PioneerDdj400Output.OutputGateway.SendOutput | src/devices/pioneer_ddj_400/output.rs:187-193 | a control index that names no LED fails and sends nothing; otherwise as `SendLedOutput` |
| PioneerDdj400Output.OutputGateway.AttachMidiOutputConnection | src/devices/pioneer_ddj_400/output.rs:197-208 | switches all LEDs off first and takes the connection iff that succeeded |
| PioneerDdj400Output.OutputGateway.DetachMidiOutputConnection | src/devices/pioneer_ddj_400/output.rs:210-218 | returns the connection after the all-off attempt and leaves the gateway empty |
| DenonDjMc6000Mk2Input.ChannelOfDeck | src/devices/denon_dj_mc6000mk2/input.rs:19-25 | a deck's channel is one of the four two-bit patterns |
| DenonDjMc6000Mk2Input.DeckCmdToMidiStatus | src/devices/denon_dj_mc6000mk2/input.rs:30-39 | the command in the high bits and the deck's channel in the two lowest bits |
| DenonDjMc6000Mk2Input.DeckOfStatus | src/devices/denon_dj_mc6000mk2/input.rs:19-25 | the deck whose channel is the status' two lowest bits |
| DenonDjMc6000Mk2Input.ChannelOfDeckInjective | src/devices/denon_dj_mc6000mk2/input.rs:19-25 | the channel identifies the deck |
| DenonDjMc6000Mk2Input.MidiStatusToDeckCmd | src/devices/denon_dj_mc6000mk2/input.rs:17-28 | as written: the command is the low nibble of the status and the deck its two lowest bits |
| DenonDjMc6000Mk2Input.MidiStatusToDeckCmdCorrected | src/devices/denon_dj_mc6000mk2/input.rs:17-28 | corrected: the command is the status rounded down to its high nibble |
| DenonDjMc6000Mk2Input.StatusRoundTrip | src/devices/denon_dj_mc6000mk2/input.rs:17-39 | corrected, decoding the status built for any deck and command gives back both |
| DenonDjMc6000Mk2Input.StatusCommandLost | src/devices/denon_dj_mc6000mk2/input.rs:18 | as written, the decoded command is the deck's channel, never the non-zero command the status was built from |
| DenonDjMc6000Mk2Input.MidiValueToButton | src/devices/denon_dj_mc6000mk2/input.rs:41-47 | Pressed iff 0x40, Released for 0x00 |
| DenonDjMc6000Mk2Input.DecodeNote | src/devices/denon_dj_mc6000mk2/input.rs:122-151 | a note decodes iff it is a shift note or a known deck button; the button state is carried; shift notes address the deck's side, the others the deck |
| DenonDjMc6000Mk2Input.DecodeCc | src/devices/denon_dj_mc6000mk2/input.rs:152-238 | a control change decodes iff its code is handled; never a button; deck controls address the status' deck; crossfader and browse knob only from 0x16/0x17/0x54 |
| DenonDjMc6000Mk2Input.DecodePitch | src/devices/denon_dj_mc6000mk2/input.rs:239-245 | the side's pitch fader, negative iff the high data byte is below 64 |
| DenonDjMc6000Mk2Input.DecodeCmd | src/devices/denon_dj_mc6000mk2/input.rs:121-250 | only note, control change and pitch commands decode; note-on presses and note-off releases; pitch faders come exactly from the pitch command |
| DenonDjMc6000Mk2Input.RecvMidiInput | src/devices/denon_dj_mc6000mk2/input.rs:115-255 | as written: nothing unless three bytes; one event with the given time stamp iff the command decoded from the status handles the data bytes |
| DenonDjMc6000Mk2Input.RecvMidiInputCorrected | src/devices/denon_dj_mc6000mk2/input.rs:115-255 | the same with the command taken from the high nibble |
| DenonDjMc6000Mk2Input.PitchFaderNeverDecoded | src/devices/denon_dj_mc6000mk2/input.rs:239-245 | as written no message ever decodes to a pitch-fader input |
| DenonDjMc6000Mk2Input.NothingDecoded | src/devices/denon_dj_mc6000mk2/input.rs:18 | as written, with MIDI's command codes, no message emits anything |
| DenonDjMc6000Mk2Input.PitchMessage | src/devices/denon_dj_mc6000mk2/input.rs:239-245 | a pitch-fader message is three bytes |
| DenonDjMc6000Mk2Input.PitchMessageDecodes | src/devices/denon_dj_mc6000mk2/input.rs:239-245 | corrected, a pitch-fader message decodes to the pitch fader of the deck's side with its 14-bit value |
| DenonDjMc6000Mk2Input.ButtonMessage | src/devices/denon_dj_mc6000mk2/input.rs:122-151 | a deck button message is three bytes |
| DenonDjMc6000Mk2Input.ButtonMessageDecodes | src/devices/denon_dj_mc6000mk2/input.rs:122-151 | corrected, each deck button message decodes to that button of that deck |
| DenonDjMc6000Mk2Input.StripSlot | src/devices/denon_dj_mc6000mk2/input.rs:153-187 | the slot of a strip code within its block of five |
| DenonDjMc6000Mk2Input.StripLayout | src/devices/denon_dj_mc6000mk2/input.rs:153-187 | each code of the four blocks decodes to its slot's control on the status' deck, and every gain, EQ or level input comes from such a code |
| DenonDjMc6000Mk2Input.SensorToControlIndex | src/devices/denon_dj_mc6000mk2/input.rs:368-373 | the index is below the number of sensors |
| DenonDjMc6000Mk2Input.SensorFromControlIndex | src/devices/denon_dj_mc6000mk2/input.rs:377-383 | an index names a sensor iff it is below the number of sensors |
| DenonDjMc6000Mk2Input.SensorIndexRoundTrip | src/devices/denon_dj_mc6000mk2/input.rs:368-383 | the encoding is a bijection between sensors and the indices below their number |
| GenericMidiInput.IndexOf | src/devices/generic_midi/input.rs:13 | `status << 7 \| command`: status and command are recovered for a 7-bit command |
| GenericMidiInput.TryDecodeMidiInput | src/devices/generic_midi/input.rs:9-17 | an error iff not exactly three bytes; otherwise always a control whose index is `status << 7 \| command` and whose bits are the third byte |
| GenericMidiInput.DecodeInjective | src/devices/generic_midi/input.rs:9-17 | distinct three-byte messages with 7-bit command bytes decode to distinct controls |
| GenericMidiInput.DecodeEvent | src/devices/generic_midi/input.rs:19-26 | the decoded control, at the given time stamp, and the same error |
| GenericMidiInput.MidiInputEventDecoder.TryDecodeMidiInputEvent | src/devices/generic_midi/input.rs:30-38 | the decoder object delegates unchanged |
| GenericMidiOutput.EncodeControl | src/devices/generic_midi/output.rs:27-30 | three 7-bit bytes: the index's low seven bits second and the value's low seven bits third |
| GenericMidiOutput.StatusHighBitLost | src/devices/generic_midi/output.rs:28 | re-encoding a decoded message clears bit 7 of its status, so a MIDI status byte never comes back |
| GenericMidiOutput.EncodeControlCorrected | src/devices/generic_midi/output.rs:27-30 | the first byte is the whole status byte of the index |
| GenericMidiOutput.DecodeEncodeRoundTrip | src/devices/generic_midi/output.rs:27-30 | corrected, re-encoding a decoded message reproduces it exactly |
| GenericMidiOutput.EncodingsAgree | src/devices/generic_midi/output.rs:27-30 | the two encodings agree exactly for status bytes below 0x80 |
| GenericMidiOutput.OutputGateway.constructor | src/devices/generic_midi/output.rs:14-20 | nothing attached |
| GenericMidiOutput.OutputGateway.SendOutput | src/devices/generic_midi/output.rs:23-32 | `Disconnected` without a connection; otherwise one attempt that delivers exactly the encoded message, if accepted |
| GenericMidiOutput.OutputGateway.AttachMidiOutputConnection | src/devices/generic_midi/output.rs:36-44 | the connection moves from the caller's slot, left empty, into the empty gateway |
| GenericMidiOutput.OutputGateway.DetachMidiOutputConnection | src/devices/generic_midi/output.rs:46-48 | returns the attached connection and leaves the gateway empty |
| GenericMidiOutput.DetachTwice | src/devices/generic_midi/output.rs:46-48 | a second detach returns nothing |
| Common.MidiConnection.Send | src/midi/mod.rs:126-127 | one attempt; the message is delivered iff the transport accepts it, that is iff `NextFails` did not hold before |
| Midi.EventSink.SinkControlInputEvents | src/midi/mod.rs:111-116 | the sink receives the batch |
| Midi.ConsumeMidiInputEvent | src/midi/mod.rs:103-123 | handled iff decoding did not fail; the sink receives exactly `[event]` for an event and nothing otherwise |
| Midi.SendMidiSystemReset | src/midi/mod.rs:129-131 | exactly the one-byte message 0xff is sent, if accepted |
| Midi.BoxedMidiOutputConnection.SendMidiOutput | src/midi/mod.rs:136-143 | the boxed connection delivers exactly the bytes through the connection it owns |
| DeckModel.PioneerCueLedState | src/deck.rs:46-55 | On iff paused on the cue, previewing or playing; BlinkFast iff paused elsewhere; Off iff ended |
| DeckModel.PioneerPlayPauseLedState | src/deck.rs:57-64 | On iff playing; BlinkSlow iff paused or previewing; Off iff ended |
| DeckModel.LedStatesAgree | src/deck.rs:46-64 | both LEDs are dark exactly at the end, the cue LED is lit whenever play/pause is, and so on |
| DeckModel.DefaultTempo | src/deck.rs:89-98 | range 0.08 at the centre position |
| DeckModel.DefaultPlaybackParams | src/deck.rs:119-126 | rate 1.0, not paused, no pitch |
| DeckModel.DefaultPlayer | src/deck.rs:128-140 | cue at the start with the default tempo and playback |
| Hid.UsagePageFrom | src/hid/mod.rs:85-138 | total on 16-bit codes: `VendorDefined(n)` iff n ≥ 0xff00, `Reserved(n)` carries its code |
| Hid.NamedPageRoundTrip | src/hid/mod.rs:85-138 | every named page is recovered from its code in the usage tables |
| Hid.CodeRoundTrip | src/hid/mod.rs:85-138 | every 16-bit code maps to a page with that code, so distinct codes give distinct pages |
| Hid.ReservedCodes | src/hid/mod.rs:85-138 | exactly the codes in the listed reserved ranges map to `Reserved` |
| Hid.TimeoutMillis | src/hid/mod.rs:331-340 | -1 iff no timeout; otherwise the milliseconds saturated at `i32::MAX` |
| Hid.TimeoutMonotonic | src/hid/mod.rs:331-340 | a longer timeout never gives a shorter wait |
| Hid.TrimStart | src/hid/mod.rs:249-261 | drops exactly the leading whitespace |
| Hid.TrimEnd | src/hid/mod.rs:249-261 | drops exactly the trailing whitespace |
| Hid.Trim | src/hid/mod.rs:249-261 | the trimmed serial number neither starts nor ends with whitespace |
| Hid.TrimInfix | src/hid/mod.rs:249-261 | the trimmed string is an infix of the input and only whitespace is dropped on both sides |
| Hid.TrimEmpty | src/hid/mod.rs:249-261 | a string trims to nothing iff it is all whitespace |
| Hid.DeviceIdFrom | src/hid/mod.rs:245-261 | succeeds iff a serial number is present and not blank; the id holds vendor, product and the trimmed serial number |
| Hid.DeviceIdTrimmed | src/hid/mod.rs:245-261 | a stored serial number is non-empty and has no surrounding whitespace |
| Hid.DedupCovers | src/hid/mod.rs:182-192 | the kept devices cover every path of the enumerated list |
| Hid.DedupDistinct | src/hid/mod.rs:182-192 | the kept devices have pairwise distinct paths |
| Hid.DedupFirst | src/hid/mod.rs:182-192 | each kept device is the first enumerated device with its path |
| Hid.Dedup | src/hid/mod.rs:182-192 | the kept devices are enumerated devices and no more than were enumerated |
| Hid.QueryDevicesDedup | src/hid/mod.rs:182-192 | the filtering loop keeps exactly `Dedup` of the enumerated list, in enumeration order |
| Hid.HidDevice.constructor | src/hid/mod.rs:265-271 | a new device is not connected |
| Hid.HidDevice.IsConnected | src/hid/mod.rs:278-280 | connected iff the device holds an open connection |
| Hid.HidDevice.Connect | src/hid/mod.rs:282-294 | a no-op success when connected; otherwise the open outcome, connected iff it succeeded |
| Hid.HidDevice.Disconnect | src/hid/mod.rs:296-300 | the device is not connected afterwards |
| Hid.HidDevice.Read | src/hid/mod.rs:302-320 | `NotConnected` without a connection; otherwise the device's answer, read with `timeout_millis` of the timeout |
| Hid.HidDevice.Write | src/hid/mod.rs:302-324 | `NotConnected` without a connection; otherwise the device's answer |
| Hid.DisconnectedDeviceFails | src/hid/mod.rs:296-324 | after `disconnect` the device is not connected and reads and writes fail with `NotConnected` |
| HidReport.BufferRecycler.constructor | src/hid/report.rs:12-19 | 256 empty slots, one per report id |
| HidReport.BufferRecycler.TryFetchBuf | src/hid/report.rs:22-27 | `None` iff the slot is empty; otherwise the last pushed buffer is popped (LIFO) |
| HidReport.BufferRecycler.FillBuf | src/hid/report.rs:30-54 | the buffer holds exactly `data`, whatever the recycled buffer's length, and the slot of `data[0]` loses its last buffer if it had one |
| HidReport.BufferRecycler.RecycleBuf | src/hid/report.rs:56-62 | the buffer is pushed onto slot `buffer[0]`; every other slot is unchanged |
| HidReport.RecycleThenFetch | src/hid/report.rs:22-62 | a recycled buffer is the next one fetched, and the recycler is back where it was |
| HidThread.Dispatch | src/hid/thread.rs:146-194 | only `Terminate` yields no event; every other command's event hands its buffer back; an expired write makes no device call and reports `ReportWriteExpired`, any other write writes exactly the first `buf_len` bytes and reports success iff the device accepted them |
| HidThread.HandleCommand | src/hid/thread.rs:146-194 | as written: a write is dropped, and reported expired, iff its deadline lies in the future |
| HidThread.HandleCommandCorrected | src/hid/thread.rs:146-194 | a write is dropped, and reported expired, iff its deadline has passed |
| HidThread.DeadlineInverted | src/hid/thread.rs:170-180 | as written, a report due in the future is discarded as expired and one whose deadline has passed is written |
| HidThread.WriteBeforeDeadline | src/hid/thread.rs:170-180 | corrected, a report whose deadline has not passed is written in full and its buffer is returned |
| HidThread.FirstReadTimeout | src/hid/thread.rs:238-252 | zero iff the first-read budget is used up; otherwise between the minimum and the budget, in whole milliseconds |
| HidThread.FirstReadTimeoutValues | src/hid/thread.rs:119-130 | with the constants as set, the first read waits one millisecond or not at all |
| HidThread.DropRepeatsProperties | src/hid/thread.rs:283-298 | the double-buffer dedup leaves no two equal neighbours, keeps the latest report and never adds reports |
| HidThread.AccountedStep | src/hid/thread.rs:253-307 | one more read result adds its report, if non-empty, or its error to what is accounted |
| HidThread.DropRepeatsStep | src/hid/thread.rs:283-298 | a report equal to the last one is dropped, any other is appended |
| HidThread.AccountedError | src/hid/thread.rs:264-269 | a read error is reported as an event and reading goes on |
| HidThread.AccountedEmpty | src/hid/thread.rs:271-276 | an empty read ends the cycle without an event |
| HidThread.AccountedRepeat | src/hid/thread.rs:283-298 | a duplicate of the last delivered report is discarded |
| HidThread.AccountedFresh | src/hid/thread.rs:299-306 | a report that differs from the last one is delivered and becomes the last one |
| HidThread.AccountedOther | src/hid/thread.rs:206-213 | command events change neither delivered reports nor reported errors |
| HidThread.ReadOnce | src/hid/thread.rs:262-305 | one read keeps the double buffer and the delivered reports in step with the results read; the cycle stops exactly when a read succeeds with no report; the last cycle start becomes this cycle's start iff the read delivered a report; command events are untouched |
| HidThread.WaitFirstShape | src/hid/thread.rs:255-261 | of the reads of one cycle the first waits for the computed timeout and every later one does not wait |
| HidThread.ReadCycle | src/hid/thread.rs:253-307 | reads until no report is pending: every read but the last found a report or failed, and unless the results ran out the last read found no report; only the first read waits; every error is reported and the reports are delivered without consecutive repeats; the last cycle start becomes this cycle's start iff the cycle delivered a report; command events are untouched |
| HidThread.ThreadFn | src/hid/thread.rs:197-309 | runs until the channel disconnects or `Terminate` arrives and then announces `Terminating`; the device calls and command events are those of `handle_command` on the received commands, in cycle order; every cycle reads until a read finds no report (`LogDrained`); the delivered reports are exactly the non-empty reports read, with repeats dropped; every read error is reported; the log of reads is valid, so each cycle's first read waits `FirstReadTimeout` of the time since the start of the last cycle that delivered a report (`LogTimeouts`) |
| HidThread.CommandPhase | src/hid/thread.rs:206-215 | `Terminate` stops the thread with nothing changed; any other received command adds its device call and event, in order, and leaves delivered reports and errors as they were |
| HidThread.ReadPhase | src/hid/thread.rs:219-306 | the cycle's reads extend the log: they run until a read finds no report, the first read waits `FirstReadTimeout` of the time since the last delivering cycle, the new last start is this cycle's start iff the cycle delivered a report, and command events are untouched |
| HidThread.LogDrainedAppend | src/hid/thread.rs:253-307 | a cycle that read until no report was pending, appended to a log of such cycles, keeps every cycle drained |
| HidThread.LogTimeouts | src/hid/thread.rs:239-261 | in a valid log, the first read of each cycle waits what is left of the first-read budget since the last cycle that delivered a report, and every later read of the cycle does not wait |
| HidThread.TimeoutsOfShape | src/hid/thread.rs:254-261 | in the timeouts of all reads, the first read of each cycle has that cycle's timeout and every other read has zero |
| HidThread.EventsAppend | src/hid/thread.rs:210-305 | a read event adds only to the delivered reports, an error event only to the errors, a command event only to the command events |
| NiTraktorKontrolS4Mk3.MaxOf | src/devices/ni_traktor_kontrol_s4mk3/mod.rs:59-66 | the largest element of the durations, none iff there are none |
| NiTraktorKontrolS4Mk3.ReportStats.constructor | src/devices/ni_traktor_kontrol_s4mk3/mod.rs:43-48 | no reports counted, no last instant, no maximum |
| NiTraktorKontrolS4Mk3.ReportStats.Update | src/devices/ni_traktor_kontrol_s4mk3/mod.rs:52-67 | the count goes up by one; the duration since the previous report is returned, none for the first; the maximum stays the largest duration seen |
| NiTraktorKontrolS4Mk3.UpdateTwice | src/devices/ni_traktor_kontrol_s4mk3/mod.rs:52-67 | two updates: no duration for the first, the gap between them for the second, which is then the maximum |
| NiTraktorKontrolS4Mk3.RecycledBuffersAreReturned | src/devices/ni_traktor_kontrol_s4mk3/mod.rs:136-170 | every buffer the context recycles is one the thread handed back |
| NiTraktorKontrolS4Mk3.ThreadContext.constructor | src/devices/ni_traktor_kontrol_s4mk3/mod.rs:207-216 | one empty statistics slot per report id and nothing recycled |
| NiTraktorKontrolS4Mk3.ThreadContext.HandleEvent | src/devices/ni_traktor_kontrol_s4mk3/mod.rs:100-170 | a report updates the statistics of its report id; written and expired reports and failed feature-report writes send their buffer back; nothing else is recycled |
| NiTraktorKontrolS4Mk3.IsSupported | src/devices/ni_traktor_kontrol_s4mk3/mod.rs:195-198 | supported iff the vendor id is 0x17cc and the product id 0x1720 |
| NiTraktorKontrolS4Mk3.AttachOutcome | src/devices/ni_traktor_kontrol_s4mk3/mod.rs:200-232 | `NotSupported` iff the ids do not match, then `NotConnected` iff disconnected; success iff supported and connected |
| NiTraktorKontrolS4Mk3.Attach | src/devices/ni_traktor_kontrol_s4mk3/mod.rs:200-232 | fails exactly as `AttachOutcome` says; on success a fresh context with the device's info, an empty recycler and no commands |
| NiTraktorKontrolS4Mk3.ZeroReport | src/devices/ni_traktor_kontrol_s4mk3/mod.rs:264-300 | a report of the given length holding its id and zeros |
| NiTraktorKontrolS4Mk3.SequenceLayout | src/devices/ni_traktor_kontrol_s4mk3/mod.rs:264-300 | the jog wheel reports are 27 bytes (id 48, wheel, 1, 3) and 41 bytes (id 50, wheel); finalization writes four reports with ids 128, 129 and 50 |
| NiTraktorKontrolS4Mk3.PushAll | src/devices/ni_traktor_kontrol_s4mk3/mod.rs:308-320 | the recycler keeps one slot per report id |
| NiTraktorKontrolS4Mk3.PushAllSlots | src/devices/ni_traktor_kontrol_s4mk3/mod.rs:308-320 | recycling queued buffers appends to each slot exactly that report id's buffers, in order |
| NiTraktorKontrolS4Mk3.DeviceContext.constructor | src/devices/ni_traktor_kontrol_s4mk3/mod.rs:224-230 | a context with the device's info, empty recycler slots, no queued buffers and no commands |
| NiTraktorKontrolS4Mk3.DeviceContext.SendRecycled | src/devices/ni_traktor_kontrol_s4mk3/mod.rs:78-86 | the buffer joins the end of the recycle queue |
| NiTraktorKontrolS4Mk3.DeviceContext.RecycleQueuedBuffers | src/devices/ni_traktor_kontrol_s4mk3/mod.rs:308-320 | the queue is drained into the recycler in order; commands are unchanged |
| NiTraktorKontrolS4Mk3.DeviceContext.WriteReport | src/devices/ni_traktor_kontrol_s4mk3/mod.rs:322-332 | the queue is drained and exactly one write of `data` without a deadline is submitted |
| NiTraktorKontrolS4Mk3.DeviceContext.Initialize | src/devices/ni_traktor_kontrol_s4mk3/mod.rs:264-277 | submits the two jog wheel activation reports, wheel 0 first |
| NiTraktorKontrolS4Mk3.DeviceContext.Finalize | src/devices/ni_traktor_kontrol_s4mk3/mod.rs:284-300 | submits the four reports of the finalization sequence, in order |
| Midir.FindDescriptor | src/midi/midir.rs:270-273 | a descriptor whose prefix starts the port name, none iff no descriptor matches |
| Midir.FindDescriptorFirst | src/midi/midir.rs:270-273 | the descriptor found is the first matching one in the given order |
| Midir.InputPortsKeys | src/midi/midir.rs:265-280 | a prefix is detected for input iff some readable input port is attributed to it |
| Midir.InputPorts | src/midi/midir.rs:265-280 | every input entry is keyed by the prefix of the descriptor it is attributed to and is one of the ports looked at |
| Midir.InputPortsEntry | src/midi/midir.rs:265-280 | the entry of a prefix is the last readable port attributed to it, with the descriptor it is attributed to |
| Midir.FindPrefix | src/midi/midir.rs:286-289 | a prefix that starts the port name, none iff no detected input prefix does |
| Midir.OutputPortsSpec | src/midi/midir.rs:281-296 | every output port is keyed by a detected input prefix that starts its name and is a readable port |
| Midir.OutputPorts | src/midi/midir.rs:281-296 | every output entry is keyed by a detected input prefix that starts the port's name |
| Midir.ReconnectOutcome | src/midi/midir.rs:126-202 | reconnecting without a connection and without a gateway factory fails with `Disconnected`; success iff each step on the way succeeds |
| Midir.MidirDevice.constructor | src/midi/midir.rs:76-87 | the device keeps its descriptor and ports and is not connected |
| Midir.MidirDevice.Disconnect | src/midi/midir.rs:144-153 | the device is not connected afterwards |
| Midir.MidirDevice.IsConnected | src/midi/midir.rs:122-124 | connected iff the device holds an input connection |
| Midir.MidirDevice.Reconnect | src/midi/midir.rs:126-142 | fails exactly as `ReconnectOutcome` says; connected afterwards iff it succeeded; the output connects to the output port's name and an existing input keeps its gateway |
| Midir.ReconnectWithoutFactory | src/midi/midir.rs:164-167 | a disconnected device without a gateway factory stays disconnected and reports `Disconnected` |
| Midir.Retain | src/midi/midir.rs:297 | keeps exactly the input ports whose prefix also has an output port, with their entries |
| Midir.DeviceOrderDetected | src/midi/midir.rs:297-304 | every device prefix has both an input and an output port, so the removal of its output port always finds one |
| Midir.NewDevice | src/midi/midir.rs:302-326 | a fresh disconnected device whose input port draws the next index and output port the one after |
| Midir.DetectDjControllers | src/midi/midir.rs:260-329 | one fresh disconnected device per prefix with both an input and an output port, each with the ports detected for it and indices drawn input first, two per device |
| Midir.BuildDevices | src/midi/midir.rs:299-328 | one new device per prefix, in order, with indices `2k+1` and `2k+2` past the generator's start |
| Midir.DetectedPrefix | src/midi/midir.rs:278 | every detected device is attributed to the prefix it is listed under |
| Midir.DetectedDeviceAvailable | src/midi/midir.rs:105-119 | a detected device is available on the port lists it was detected from: both of its port names are listed |
| Controller.Spawn | src/controller/midi/context.rs:38 | the spawned thread runs the given task |
| Controller.SpawnTask | src/controller/midi/context.rs:38 | a thread is spawned iff there is a task, and it runs that task |
| Controller.JoinedBy | src/controller/midi/context.rs:54-65 | detaching joins at most one thread, and one iff a controller with a thread is attached |
| ControllerMidiContext.SingleMidiControllerContext.constructor | src/controller/midi/context.rs:11-15 | nothing attached and no thread joined |
| ControllerMidiContext.SingleMidiControllerContext.AttachedController | src/controller/midi/context.rs:18-21 | the attached controller, none iff none is attached |
| ControllerMidiContext.SingleMidiControllerContext.DetachController | src/controller/midi/context.rs:45-67 | nothing is attached afterwards; the previously attached controller is returned and its thread, if any, joined |
| ControllerMidiContext.SingleMidiControllerContext.AttachController | src/controller/midi/context.rs:23-43 | the previous controller is detached and its thread joined; the new controller is attached with a thread iff it has a task |
| ControllerMidiContext.SingleMidiControllerContext.MapInputEvent | src/controller/midi/context.rs:69-79 | nothing without a controller; otherwise the attached controller's mapping of the event |
| ControllerMidiContext.AttachReplaceDetach | src/controller/midi/context.rs:23-67 | attaching a second controller joins the first one's thread; detaching then yields the second and leaves the context empty |
| ControllerMidi.SingleMidiControllerContext.constructor | src/controller/midi.rs:19-24 | nothing attached and no thread joined |
| ControllerMidi.SingleMidiControllerContext.IsAttached | src/controller/midi.rs:29-31 | attached iff a controller is stored |
| ControllerMidi.SingleMidiControllerContext.DetachController | src/controller/midi.rs:55-77 | nothing is attached afterwards; the previously attached controller is returned and its thread, if any, joined |
| ControllerMidi.SingleMidiControllerContext.AttachController | src/controller/midi.rs:33-53 | the previous controller is detached and its thread joined; the new controller is attached with a thread iff it has a task |
| ControllerMidi.SingleMidiControllerContext.MapInputEvent | src/controller/midi.rs:79-89 | nothing without a controller; otherwise the controller's mapping of the event, converted |
| ControllerMidi.DetachTwice | src/controller/midi.rs:55-77 | a second detach finds nothing and joins no thread |
| Param.Compare | src/param/mod.rs:70 | the ordering of two integers: less, equal or greater exactly as they compare |
| Param.CompareReal | src/param/mod.rs:70 | the ordering of two floats that are numbers |
| Param.PartialCmp | src/param/mod.rs:70-82 | incomparable iff two floats meet and one is NaN; values of different variants are ordered by variant |
| Param.ValueEqIsEqualityOnNumbers | src/param/mod.rs:70 | for values without NaN, derived equality is structural equality |
| Param.UnboundedRange | src/param/mod.rs:233-238 | both bounds are unbounded |
| Param.DefaultRangeIsUnbounded | src/param/mod.rs:298-302 | the default range is the unbounded one |
| Param.RangeValueType | src/param/mod.rs:241-263 | none iff both bounds are unbounded; otherwise the type of each present bound |
| Param.ContainsValue | src/param/mod.rs:270-295 | as written: a failing or incomparable minimum decides; otherwise the maximum's check decides |
| Param.ContainsValueInRange | src/param/mod.rs:270-295 | for a value and bounds of one type without NaN: in range iff at or above an included minimum (above an excluded one) and at or below an included maximum (below an excluded one) |
| Param.UnboundedContainsAll | src/param/mod.rs:270-295 | an unbounded range contains every value, NaN included |
| Param.ContainsValueNone | src/param/mod.rs:270-295 | the result is inconclusive only when a NaN takes part in a comparison |
| Param.MixedTypesCompared | src/param/mod.rs:265-295 | as written, a value of another type than the bounds is ranked by its variant instead of being refused |
| Param.ContainsValueCorrected | src/param/mod.rs:265-295 | corrected: a bound of another type than the value gives `None` |
| Param.ContainsValueCorrectedSpec | src/param/mod.rs:265-295 | corrected: `None` iff a bound has another type or a NaN is compared; otherwise membership in the range |
| Param.DefaultValueDescriptor | src/param/mod.rs:206-211 | the default value with the default, unbounded range |
| Param.DefaultValueDescriptorType | src/param/mod.rs:206-217 | a default descriptor has the type of its value, an untyped range, and its range contains every value |
| Param.DescriptorValueType | src/param/mod.rs:214-216 | the value type names the variant of the default value |
| Param.DescriptorEqReflexive | src/param/mod.rs:172-197 | a descriptor equals itself iff none of its values is NaN |
| ParamRegistry.EntryRegistration | src/param/registry.rs:96-120 | the header holds status, id and the entry's address; a descriptor is reported iff the entry is ready, with its shared value |
| ParamRegistry.NewOutputValue | src/param/registry.rs:263-268 | a shared value is created iff the parameter is an output, initialised with the default value |
| ParamRegistry.AddressToIdMap.constructor | src/param/registry.rs:35-39 | an empty map |
| ParamRegistry.AddressToIdMap.GetOrAdd | src/param/registry.rs:50-69 | a known address keeps its id and changes nothing; a new one gets the next id, the map's size |
| ParamRegistry.AddressToIdMap.Get | src/param/registry.rs:72-74 | the id of a known address, none iff unknown |
| ParamRegistry.Registry.constructor | src/param/registry.rs:367-374 | nothing registered |
| ParamRegistry.Registry.Register | src/param/registry.rs:210-240 | keeps ids and entries one-to-one; a new address gets the next id and a pending entry; a known one its id, changing nothing |
| ParamRegistry.Registry.RegisterDescriptor | src/param/registry.rs:241-317 | a new address gets the next consecutive id and exactly one entry; a known address keeps its id and the entry count; a pending entry becomes ready with the descriptor and a new shared value for outputs; a ready entry with an equal descriptor is returned unchanged; an unequal one gives `AddressOccupied` and changes nothing; no other entry changes |
| ParamRegistry.Registry.RegisterAddress | src/param/registry.rs:323-326 | a known address reports its entry unchanged; a new one gets the next id and a pending entry |
| ParamRegistry.Registry.GetRegistered | src/param/registry.rs:329-334 | the registration of an existing id, none iff the id is beyond the entries |
| ParamRegistry.Registry.FindRegistered | src/param/registry.rs:337-364 | none iff the address is unknown; otherwise its id, and its descriptor and shared value iff ready |
| ParamRegistry.RegisterTwoThenRepeat | src/param/registry.rs:210-240 | new addresses get ids 0 and 1; registering the first again yields id 0 and adds nothing |
| ParamRamping.Immediate | src/param/ramping.rs:26-32 | no steps, switching at once |
| ParamRamping.StepDelta | src/param/ramping.rs:45-60 | for a linear ramp over some steps, the steps times the increment cover the distance to the target; otherwise zero |
| ParamRamping.RampEndpoints | src/param/ramping.rs:122-143 | a ramp ends at its target; a non-leading ramp starts at its initial value; a leading one is at its target throughout |
| ParamRamping.LinearBetween | src/param/ramping.rs:122-143 | a linear ramp never leaves the interval between its initial and target values |
| ParamRamping.LinearMonotone | src/param/ramping.rs:122-143 | a linear ramp moves monotonically towards its target |
| ParamRamping.LinearValue | src/param/ramping.rs:137 | the value computed with the increment is the interpolated value `step/steps` of the way |
| ParamRamping.ImmediateIsTarget | src/param/ramping.rs:26-32 | an immediate ramp yields its target from the first value on |
| ParamRamping.RampingF32.constructor | src/param/ramping.rs:86-93 | a ramp at its first step with the increment of its configuration |
| ParamRamping.RampingF32.CurrentValue | src/param/ramping.rs:122-143 | the ramp's value at the current step |
| ParamRamping.RampingF32.RemainingSteps | src/param/ramping.rs:146-149 | the steps left until the ramp's end |
| ParamRamping.RampingF32.Advance | src/param/ramping.rs:151-157 | moves forward by the given steps, stopping at the last one |
| ParamRamping.RampingF32.ResetProfile | src/param/ramping.rs:104-112 | a new ramp from the current value to the new target; a ramp that does not switch at once continues without a jump |
| ParamRamping.RampingF32.Reset | src/param/ramping.rs:100-102 | a new ramp from the current value to the new target with the old profile |
| ParamRamping.RampingF32.Next | src/param/ramping.rs:168-172 | the current value, then one step forward; never exhausted |
| ParamRamping.RampingF32.Take | src/param/ramping.rs:163-173 | the next `n` values of the ramp, its value held once it ends |
| ParamRamping.RampFourSteps | src/param/ramping.rs:179-225 | over four steps from -1 to 1: leading gives 1 throughout, trailing -1 four times then 1, linear -1, -0.5, 0, 0.5, then 1 |

## Left out

- Floating point: `f32` values are exact reals. Rounding, infinities and the lossy step-count conversion are not modelled. `Value::F32` keeps NaN, because NaN decides equality and ordering of parameter values.
- ParamRamping.RampingF32.CurrentValue: states the exact interpolated value; the `f32` rounding of `initial + delta * step` is not modelled.
- `Tempo::playback_rate`, `map_position_linear`, the `inverse` methods of the slider inputs and `StepEncoderInput::from_u7`/`from_u14` are kept as uninterpreted values or function parameters; their code is not part of this model.
- Constants of parent modules (MIDI status bytes, control index bit masks) are parameters with the assumptions the code relies on, not fixed numbers.
- The Denon conversion from `Input` to `ControlRegister`, the Korg `send_led_output` and the Korg deck LEDs other than Shift, PlayPause, Sync and Cue are unimplemented in the source; those LEDs are excluded by a precondition.
- `unreachable!()` arms and `debug_assert!`s become preconditions, not behaviour.
- The contents a HID feature-report read puts into its buffer, and the uninitialised bytes of the read slots, are not modelled.
- The throttling sleeps of the HID thread (at most one cycle per `MIN_CYCLE_TIME`, 250 microseconds) and `Instant::now` are replaced by the clock values of each cycle, given as inputs.
- HID and MIDI device calls (opening, reading, writing, connecting ports, naming ports) are replaced by their outcomes, given as inputs.
- Threads, channels and abort handles are opaque tokens: `HidThread::spawn`/`join`, the S4MK3 `detach`, the mpsc channels (modelled as queues), and `ControllerThread`.
- NiTraktorKontrolS4Mk3.ReportStats.Update: the count is unbounded; the panic of `checked_add` on `usize` overflow is not modelled.
- Atomic shared values of output parameters are opaque cells holding their initial value; the lock-free atomics are not part of this model.
- The iteration order of hash maps and sets is a parameter (`keyOrder`, `deviceOrder`).
- The input callback that midir invokes on a background thread is not modelled.
- Logging is left out.
- The older midir wrapper `src/midi.rs`, `src/controller/thread.rs`, `src/output/blinking_led_task.rs` and the examples are not part of this model.
- PioneerDdj400Output.OutputGateway.SendOutput: the conversion of a control value into an LED state (`value.into()`) is a parameter, `ledOf`; its code is not part of this model.
- HidThread.ThreadFn: runs the as-written command handling, so it inherits the inverted write deadline described under Findings.

## Findings

| source | as written | input that shows it | evidently intended | confidence | as-written member | corrected member |
|---|---|---|---|---|---|---|
| src/devices/pioneer_ddj_400/input.rs:247-253 | a message that only stores a 14-bit control's high byte returns `Ok(None)` from the sub-decoder and then `Err` from `try_decode_midi_input_event` | `[0xB6, 0x1F, v]` (crossfader high byte) | `Ok(None)`: the byte is stored and no event is due, which is not a decoding error | not executed | PioneerDdj400Input.HighByteReportedAsError | PioneerDdj400Input.DecodeEventCorrected |
| src/devices/pioneer_ddj_400/input.rs:346-351 | every button message with data1 0x11 is reported as a selector holding the stored high byte | a deck's out button, note 0x11 pressed | a selector only for the channel switch; other 0x11 buttons report their button state | not executed | PioneerDdj400Input.OutButtonReportedAsSelector | PioneerDdj400Input.ButtonStepCorrected |
| src/devices/denon_dj_mc6000mk2/input.rs:18 | `cmd = status & 0xf` keeps the channel nibble instead of the command nibble, so no command arm matches and the 0xe0 pitch-fader arm is dead | `[0xE0, lo, hi]` (pitch fader of deck One) | `cmd = status & 0xf0` | not executed | DenonDjMc6000Mk2Input.PitchFaderNeverDecoded | DenonDjMc6000Mk2Input.PitchMessageDecodes |
| src/devices/generic_midi/output.rs:28 | the status byte is masked to seven bits, so re-encoding a decoded message clears the status bit | decoding `[0x90, 0x3C, 0x7F]` and encoding it sends `[0x10, 0x3C, 0x7F]` | the status byte survives the round trip: `(index >> 7) & 0xff` | not executed | GenericMidiOutput.StatusHighBitLost | GenericMidiOutput.DecodeEncodeRoundTrip |
| src/hid/thread.rs:174 | a report write counts as expired when its deadline lies in the future | a `WriteReport` whose deadline is one nanosecond after now | expired once the deadline has passed: `deadline < now` | not executed | HidThread.DeadlineInverted | HidThread.WriteBeforeDeadline |
| src/param/mod.rs:265-295 | `contains_value` compares a value of another type than the bounds by the derived variant order instead of returning `None` | `I32(3)` against the range `[Bool(false), ∞)` gives `Some(true)` | `None` when a bound's type differs from the value's, as its documentation says | not executed | Param.MixedTypesCompared | Param.ContainsValueCorrectedSpec |
