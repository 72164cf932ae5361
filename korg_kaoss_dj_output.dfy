/**
 * Korg KAOSS DJ LED output: deck button LEDs are switched with the same
 * note messages the buttons send, on the deck's MIDI channel.
 */
module KorgKaossDjOutput {
  import opened Common
  import KI = KorgKaossDjInput

  datatype Led =
    | MonitorLevelKnob | MonitorMixKnob | MasterLevelKnob
    | TabButton | TabHoldButton | HoldButton

  datatype DeckLed =
    | ShiftButton | PlayPauseButton | SyncButton | CueButton | MonitorButton | FxButton
    | TouchStripLeft | TouchStripCenter | TouchStripRight
    | TouchStripLoopLeft | TouchStripLoopCenter | TouchStripLoopRight
    | TouchStripHotCueLeft | TouchStripHotCueCenter | TouchStripHotCueRight
    | GainKnob | LoEqKnob | MidEqKnob | HiEqKnob

  /** LED state as a MIDI data byte. */
  function LedToU7(output: LedOutput): (r: Byte)
    ensures r == 0x00 || r == 0x7f
    ensures r == 0x7f <==> output == On
  {
    match output
    case Off => 0x00
    case On => 0x7f
  }

  /** Only these deck LEDs have a known note number; the others are unimplemented. */
  predicate IsSupportedDeckLed(led: DeckLed)
  {
    led in {DeckLed.ShiftButton, DeckLed.PlayPauseButton, DeckLed.SyncButton, DeckLed.CueButton}
  }

  /** The note message that switches a deck LED. */
  function DeckLedMessage(deck: KI.Deck, led: DeckLed, output: LedOutput): (msg: Message)
    requires IsSupportedDeckLed(led)
    ensures |msg| == 3
    ensures msg[0] == 0x97 <==> deck == KI.Deck.A
    ensures msg[0] in {0x97, 0x98}
    ensures msg[1] in {0x1a, 0x1b, 0x1d, 0x1e}
    ensures msg[2] == LedToU7(output)
  {
    var status := match deck case A => 0x97 case B => 0x98;
    var data1 := match led
      case ShiftButton => 0x1a
      case PlayPauseButton => 0x1b
      case SyncButton => 0x1d
      case CueButton => 0x1e;
    [status, data1, LedToU7(output)]
  }

  /** The button underneath a supported deck LED, in the input decoder's terms. */
  function DeckControlOfLed(led: DeckLed): (c: KI.DeckControl)
    requires IsSupportedDeckLed(led)
    ensures c.ButtonCtrl? || c.LayerButtonCtrl?
  {
    match led
    case ShiftButton => KI.DeckControl.ButtonCtrl(KI.DeckButton.Shift)
    case PlayPauseButton => KI.DeckControl.LayerButtonCtrl(KI.DeckLayerButton.PlayPause, KI.Layer.Plain)
    case SyncButton => KI.DeckControl.LayerButtonCtrl(KI.DeckLayerButton.Sync, KI.Layer.Plain)
    case CueButton => KI.DeckControl.LayerButtonCtrl(KI.DeckLayerButton.Cue, KI.Layer.Plain)
  }

  /**
   * The message for a deck LED is one the input decoder accepts, and it
   * decodes to the same deck's button in the plain layer, pressed exactly
   * when the LED is switched on.
   */
  lemma DeckLedMessageDecodes(deck: KI.Deck, led: DeckLed, output: LedOutput)
    requires IsSupportedDeckLed(led)
    ensures var msg := DeckLedMessage(deck, led, output);
            KI.Accepted(msg) &&
            KI.TryFromMidiMessage(msg) ==
              Some(KI.Input.Deck(deck, KI.DeckInputOf(DeckControlOfLed(led), msg[2])))
    ensures KI.U7ToButton(LedToU7(output)) == Pressed <==> output == On
  {
    var c := DeckControlOfLed(led);
    var b := if output == On then Pressed else Released;
    KI.DeckButtonDecodes(deck, c, b);
    assert KI.NoteOfDeckControl(c).value == DeckLedMessage(deck, led, output)[1];
  }

  /** The output side of a connected device: owns one MIDI output connection. */
  class OutputGateway {
    const connection: MidiConnection

    /** `attach`: wraps the connection. */
    constructor Attach(connection: MidiConnection)
      ensures this.connection == connection
    {
      this.connection := connection;
    }

    /** `detach`: hands back the very connection that was attached. */
    method Detach() returns (c: MidiConnection)
      ensures c == connection
    {
      c := connection;
    }

    /** `send_deck_led_output`: exactly one three-byte message per call. */
    method SendDeckLedOutput(deck: KI.Deck, led: DeckLed, output: LedOutput)
      returns (r: Result<Unit, OutputError>)
      requires IsSupportedDeckLed(led)
      modifies connection
      ensures r.Ok? <==> old(connection.attempts) !in connection.failing
      ensures connection.sent ==
                if r.Ok? then old(connection.sent) + [DeckLedMessage(deck, led, output)]
                else old(connection.sent)
    {
      r := connection.Send(DeckLedMessage(deck, led, output));
    }
  }
}
