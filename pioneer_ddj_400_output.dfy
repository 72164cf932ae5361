/**
 * Pioneer DDJ-400 LED output: LEDs and their control indices, the note
 * message that switches an LED, and a gateway that switches all LEDs
 * off whenever a MIDI output connection is attached or detached.
 */
module PioneerDdj400Output {
  import opened Common
  import opened Djio
  import I = Input
  import opened PioneerDdj400Constants
  import PI = PioneerDdj400Input

  const MAIN_LED_COUNT: bv8 := 2
  type MainLed = x: bv8 | x < 2

  const MasterCue: MainLed := 0
  const BeatFx: MainLed := 1

  const DECK_LED_COUNT: bv8 := 7
  type DeckLed = x: bv8 | x < 7

  const PlayPauseButton: DeckLed := 0
  const CueButton: DeckLed := 1
  const BeatSyncButton: DeckLed := 2
  const LoopInButton: DeckLed := 3
  const LoopOutButton: DeckLed := 4
  const ReloopExitButton: DeckLed := 5
  const HeadphoneCueButton: DeckLed := 6

  datatype Led = Main(main: MainLed) | Deck(deck: Deck, deckLed: DeckLed)

  /** `Led::deck`: the deck an LED belongs to, none for the main section. */
  function LedDeck(led: Led): (r: Option<Deck>)
    ensures r.None? <==> led.Main?
    ensures r.Some? ==> led == Led.Deck(r.value, led.deckLed)
  {
    match led
    case Main(_) => None
    case Deck(deck, _) => Some(deck)
  }

  /** The bit pattern of an LED's control index. */
  function LedBits(b: IndexBits, led: Led): bv32
  {
    match led
    case Main(l) => l as bv32
    case Deck(deck, l) => DeckBit(b, deck) | l as bv32
  }

  /** `Led::to_control_index`: the deck bit OR-ed onto the discriminant. */
  function LedToControlIndex(b: IndexBits, led: Led): (r: ControlIndex)
    ensures led.Main? ==> r.value == led.main as int
  {
    ToControlIndex(LedBits(b, led))
  }

  datatype InvalidOutputControlIndex = InvalidOutputControlIndex

  /**
   * `Led::try_from(ControlIndex)`: the deck bits select a deck, reject
   * the index when both are set, and otherwise leave a main LED; the
   * enumeration field must then name a variant.
   */
  function LedFromBits(b: IndexBits, x: bv32): (r: Result<Led, InvalidOutputControlIndex>)
    requires b.enumBitMask <= 0xff
  {
    var enumIndex := EnumField(b, x);
    var deckBits := DeckField(b, x);
    if deckBits == b.deckOne then
      if enumIndex < DECK_LED_COUNT then Ok(Led.Deck(Deck.One, enumIndex)) else Err(InvalidOutputControlIndex)
    else if deckBits == b.deckTwo then
      if enumIndex < DECK_LED_COUNT then Ok(Led.Deck(Deck.Two, enumIndex)) else Err(InvalidOutputControlIndex)
    else if deckBits == b.deckBitMask then
      Err(InvalidOutputControlIndex)
    else if enumIndex < MAIN_LED_COUNT then Ok(Led.Main(enumIndex))
    else Err(InvalidOutputControlIndex)
  }

  /**
   * A decoded deck LED carries its deck's bit and its discriminant in the
   * index; a decoded main LED carries its discriminant, and its deck
   * field is neither deck's bit nor both.
   */
  function LedFromControlIndex(b: IndexBits, ci: ControlIndex): (r: Result<Led, InvalidOutputControlIndex>)
    requires b.enumBitMask <= 0xff
    ensures r.Ok? && r.value.Deck? ==>
              DeckField(b, IndexBitsOf(ci)) == DeckBit(b, r.value.deck) &&
              EnumField(b, IndexBitsOf(ci)) == r.value.deckLed
    ensures r.Ok? && r.value.Main? ==>
              DeckField(b, IndexBitsOf(ci)) !in {b.deckOne, b.deckTwo, b.deckBitMask} &&
              EnumField(b, IndexBitsOf(ci)) == r.value.main
  {
    LedFromBits(b, IndexBitsOf(ci))
  }

  lemma DeckLedFromFields(b: IndexBits, x: bv32, deck: Deck, l: DeckLed)
    requires b.enumBitMask <= 0xff && b.deckOne != b.deckTwo
    requires EnumField(b, x) == l && DeckField(b, x) == DeckBit(b, deck)
    ensures LedFromBits(b, x) == Ok(Led.Deck(deck, l))
  {
  }

  /** The control index of a deck LED carries the deck bit and the discriminant. */
  lemma DeckLedIndexFields(b: IndexBits, deck: Deck, l: DeckLed)
    requires FieldsDisjoint(b) && DeckBit(b, deck) & b.deckBitMask == DeckBit(b, deck)
    ensures var x := LedBits(b, Led.Deck(deck, l));
            EnumField(b, x) == l && DeckField(b, x) == DeckBit(b, deck)
  {
    DeckIndexOfFields(b, DeckBit(b, deck), l);
  }

  /** Every LED survives the trip through its control index. */
  lemma LedIndexRoundTrip(b: IndexBits, led: Led)
    requires ValidIndexBits(b)
    ensures LedFromControlIndex(b, LedToControlIndex(b, led)) == Ok(led)
  {
    var ci := LedToControlIndex(b, led);
    match led
    case Main(l) => {
      PlainFields(b, l);
      assert IndexBitsOf(ci) == l as bv32;
    }
    case Deck(deck, l) => {
      var x := LedBits(b, led);
      DeckBitInMask(b, deck);
      DeckLedIndexFields(b, deck, l);
      DeckLedFromFields(b, x, deck, l);
      assert IndexBitsOf(ci) == x;
    }
  }

  /** An index with both deck bits set names no LED. */
  lemma BothDecksRejected(b: IndexBits, ci: ControlIndex)
    requires ValidIndexBits(b)
    requires IndexBitsOf(ci) & b.deckBitMask == b.deckBitMask
    ensures LedFromControlIndex(b, ci).Err?
  {
  }

  /** LED state as a MIDI data byte. */
  function LedToU7(output: LedOutput): (r: Byte)
    ensures r == 0x00 || r == 0x7f
    ensures r == 0x7f <==> output == On
  {
    match output
    case Off => 0x00
    case On => 0x7f
  }

  /** A command with an empty low nibble OR-ed with a 4-bit channel is their sum. */
  lemma CommandChannelOr(command: Byte, channel: Byte)
    requires command % 16 == 0 && channel < 16
    ensures BitOr(command, channel) == command + channel
  {
    assert Pow2(4) == 16 by {
      assert Pow2(1) == 2;
      assert Pow2(2) == 4;
      assert Pow2(3) == 8;
    }
    var x := command / 16;
    assert x * Pow2(4) == command;
    BitOrDisjoint(x, 4, channel);
  }

  /**
   * `MIDI_COMMAND_NOTE_ON | deck.midi_channel()`; the OR of a command
   * with an empty low nibble and a channel is their sum (NoteOnStatusIsOr).
   */
  function NoteOnStatus(m: MidiConstants, deck: Deck): (r: Byte)
    requires ValidMidi(m)
    ensures r % 16 == MidiChannel(m, deck)
    ensures r - r % 16 == m.commandNoteOn
  {
    var command, channel := m.commandNoteOn, MidiChannel(m, deck);
    assert command + channel < 0x100 && (command + channel) % 16 == channel by {
      assert command == 16 * (command / 16);
    }
    command + channel
  }

  lemma NoteOnStatusIsOr(m: MidiConstants, deck: Deck)
    requires ValidMidi(m)
    ensures NoteOnStatus(m, deck) == BitOr(m.commandNoteOn, MidiChannel(m, deck))
  {
    CommandChannelOr(m.commandNoteOn, MidiChannel(m, deck));
  }

  function DeckLedNote(m: MidiConstants, l: DeckLed): Byte
  {
    match l
    case 0 => m.noteDeckPlayPauseButton
    case 1 => 0x0c
    case 2 => 0x58
    case 3 => 0x10
    case 4 => 0x11
    case 5 => 0x4d
    case _ => 0x54
  }

  /** `led_output_into_midi_message` */
  function LedMessage(m: MidiConstants, led: Led, output: LedOutput): (msg: Message)
    requires ValidMidi(m)
    ensures |msg| == 3
    ensures led.Main? ==> msg[0] == m.statusButtonMain &&
                          msg[1] == if led.main == MasterCue then m.noteMasterCue else m.noteBeatFx
    ensures led.Deck? ==> msg[0] == m.commandNoteOn + MidiChannel(m, led.deck)
    ensures msg[2] == LedToU7(output)
  {
    match led
    case Main(l) => [m.statusButtonMain, if l == MasterCue then m.noteMasterCue else m.noteBeatFx, LedToU7(output)]
    case Deck(deck, l) => [NoteOnStatus(m, deck), DeckLedNote(m, l), LedToU7(output)]
  }

  /** The button under a deck LED, in the input decoder's terms. */
  function DeckSensorOfLed(l: DeckLed): PI.DeckSensor
  {
    match l
    case 0 => PI.PlayPauseButton
    case 1 => PI.CueButton
    case 2 => PI.BeatSyncButton
    case 3 => PI.In4BeatButton
    case 4 => PI.OutButton
    case 5 => PI.ReloopExitButton
    case _ => PI.DeckHeadphoneCueButton
  }

  /**
   * How the parent constants are laid out on the device: the deck button
   * statuses are note-on messages on the deck channels and differ from
   * the main and effect statuses, and play/pause is note 0x0b.
   */
  predicate DeckNotesLayout(m: MidiConstants)
  {
    m.statusButtonDeckOne == m.commandNoteOn + m.channelDeckOne &&
    m.statusButtonDeckTwo == m.commandNoteOn + m.channelDeckTwo &&
    m.statusButtonDeckOne !in {m.statusButtonMain, m.statusButtonEffect} &&
    m.statusButtonDeckTwo !in {m.statusButtonMain, m.statusButtonEffect} &&
    m.noteDeckPlayPauseButton == 0x0b
  }

  /** The note of a deck LED is the note its button sends, on the input side. */
  lemma DeckLedNoteIsButtonNote(m: MidiConstants, l: DeckLed)
    requires DeckNotesLayout(m)
    ensures PI.DeckButton(DeckLedNote(m, l)) == Some(DeckSensorOfLed(l))
  {
  }

  /**
   * A deck LED is switched with the note its button sends: the input
   * decoder reads the LED message as that deck's button, pressed exactly
   * when the LED is switched on.
   */
  lemma DeckLedMessageDecodes(m: MidiConstants, deck: Deck, l: DeckLed, output: LedOutput, lastHi: Byte)
    requires ValidMidi(m) && DeckNotesLayout(m)
    ensures var msg := LedMessage(m, Led.Deck(deck, l), output);
            PI.ButtonDecodableCorrected(m, msg) &&
            PI.ButtonStepCorrected(m, lastHi, msg).outcome ==
              Ok(Some((PI.Sensor.Deck(deck, DeckSensorOfLed(l)),
                       I.Input.Button(if output == On then Pressed else Released))))
  {
    var msg := LedMessage(m, Led.Deck(deck, l), output);
    assert msg[0] == (match deck case One => m.statusButtonDeckOne case Two => m.statusButtonDeckTwo);
    DeckLedNoteIsButtonNote(m, l);
    assert PI.ButtonSensor(m, msg) == Some(PI.Sensor.Deck(deck, DeckSensorOfLed(l)));
  }

  /** The LEDs in the order `turn_off_all_leds` visits them: main LEDs, then each deck's. */
  function AllLeds(): (leds: seq<Led>)
    ensures |leds| == 16
  {
    [Led.Main(MasterCue), Led.Main(BeatFx)] +
    seq(7, (i: int) requires 0 <= i < 7 => Led.Deck(Deck.One, i as bv8)) +
    seq(7, (i: int) requires 0 <= i < 7 => Led.Deck(Deck.Two, i as bv8))
  }

  /** `turn_off_all_leds` visits every LED. */
  lemma AllLedsComplete(led: Led)
    ensures led in AllLeds()
  {
    var leds := AllLeds();
    match led
    case Main(l) => assert leds[l as int] == led;
    case Deck(One, l) => assert leds[2 + l as int] == led;
    case Deck(Two, l) => assert leds[9 + l as int] == led;
  }

  /** The messages that switch every LED off, in sending order. */
  function AllOffMessages(m: MidiConstants): (msgs: seq<Message>)
    requires ValidMidi(m)
    ensures |msgs| == 16
    ensures forall i :: 0 <= i < 16 ==> msgs[i] == LedMessage(m, AllLeds()[i], Off)
  {
    seq(16, (i: int) requires 0 <= i < 16 => LedMessage(m, AllLeds()[i], Off))
  }

  /** How many of `n` consecutive send attempts from attempt `start` succeed before the first failure. */
  function LeadingSuccesses(failing: set<nat>, start: nat, n: nat): (r: nat)
    ensures r <= n
    ensures forall j :: start <= j < start + r ==> j !in failing
    ensures r < n ==> start + r in failing
    decreases n
  {
    if n == 0 || start in failing then 0
    else 1 + LeadingSuccesses(failing, start + 1, n - 1)
  }

  /**
   * `turn_off_all_leds`: sends the off message of every LED in order and
   * stops at the first refused message, so that exactly the messages
   * before it are delivered.
   */
  method TurnOffAllLeds(m: MidiConstants, c: MidiConnection) returns (r: Result<Unit, OutputError>)
    requires ValidMidi(m)
    modifies c
    ensures var k := LeadingSuccesses(c.failing, old(c.attempts), 16);
            (r.Ok? <==> k == 16) &&
            c.sent == old(c.sent) + AllOffMessages(m)[..k] &&
            c.attempts == old(c.attempts) + (if r.Ok? then 16 else k + 1)
    ensures r.Err? ==> r.error == SendFailed
  {
    var leds := AllLeds();
    ghost var msgs := AllOffMessages(m);
    var i := 0;
    while i < |leds|
      invariant 0 <= i <= 16
      invariant c.sent == old(c.sent) + msgs[..i]
      invariant c.attempts == old(c.attempts) + i
      invariant forall j :: old(c.attempts) <= j < old(c.attempts) + i ==> j !in c.failing
    {
      var s := c.Send(LedMessage(m, leds[i], Off));
      if s.Err? {
        LeadingSuccessesIs(c.failing, old(c.attempts), 16, i);
        return s;
      }
      assert msgs[..i + 1] == msgs[..i] + [msgs[i]];
      i := i + 1;
    }
    LeadingSuccessesIs(c.failing, old(c.attempts), 16, 16);
    assert msgs[..16] == msgs;
    return Ok(Unit);
  }

  /** The successes before the first failure are determined by where that failure is. */
  lemma LeadingSuccessesIs(failing: set<nat>, start: nat, n: nat, i: nat)
    requires i <= n
    requires forall j :: start <= j < start + i ==> j !in failing
    requires i < n ==> start + i in failing
    ensures LeadingSuccesses(failing, start, n) == i
  {
  }

  /** The output side of the device: owns the MIDI output connection while attached. */
  class OutputGateway {
    var connection: Option<MidiConnection>

    /** `OutputGateway::default`: nothing attached. */
    constructor ()
      ensures connection.None?
    {
      connection := None;
    }

    /** `send_led_output`: one message on the attached connection, or `Disconnected`. */
    method SendLedOutput(m: MidiConstants, led: Led, output: LedOutput) returns (r: Result<Unit, OutputError>)
      requires ValidMidi(m)
      modifies if connection.Some? then {connection.value} else {}
      ensures connection.None? ==> r == Err(Disconnected)
      ensures connection.Some? ==>
                var c := connection.value;
                (r.Ok? <==> old(c.attempts) !in c.failing) &&
                (r.Err? ==> r.error == SendFailed) &&
                c.sent == if r.Ok? then old(c.sent) + [LedMessage(m, led, output)] else old(c.sent)
    {
      if connection.None? {
        return Err(Disconnected);
      }
      r := connection.value.Send(LedMessage(m, led, output));
    }

    /**
     * `send_output`: the control index must name an LED, and the control
     * value is turned into an LED state by `ledOf`.
     */
    method SendOutput(k: Constants, control: Control, ledOf: ControlValue -> LedOutput)
      returns (r: Result<Unit, OutputError>)
      requires Valid(k)
      modifies if connection.Some? then {connection.value} else {}
      ensures LedFromControlIndex(k.index, control.index).Err? ==>
                r == Err(SendFailed) &&
                (connection.Some? ==> unchanged(connection.value))
      ensures LedFromControlIndex(k.index, control.index).Ok? && connection.None? ==> r == Err(Disconnected)
      ensures LedFromControlIndex(k.index, control.index).Ok? && connection.Some? ==>
                var c := connection.value;
                var led := LedFromControlIndex(k.index, control.index).value;
                (r.Ok? <==> old(c.attempts) !in c.failing) &&
                c.sent == if r.Ok? then old(c.sent) + [LedMessage(k.midi, led, ledOf(control.value))] else old(c.sent)
    {
      var led := LedFromControlIndex(k.index, control.index);
      if led.Err? {
        return Err(SendFailed);
      }
      r := SendLedOutput(k.midi, led.value, ledOf(control.value));
    }

    /**
     * `attach_midi_output_connection`: switches all LEDs off first and
     * takes ownership of the connection only when that succeeded.
     */
    method AttachMidiOutputConnection(m: MidiConstants, c: MidiConnection) returns (r: Result<Unit, OutputError>)
      requires ValidMidi(m)
      requires connection.None?
      modifies this, c
      ensures r.Ok? <==> connection == Some(c)
      ensures r.Err? ==> connection.None?
      ensures var k := LeadingSuccesses(c.failing, old(c.attempts), 16);
              (r.Ok? <==> k == 16) &&
              c.sent == old(c.sent) + AllOffMessages(m)[..k]
    {
      r := TurnOffAllLeds(m, c);
      if r.Ok? {
        connection := Some(c);
      }
    }

    /**
     * `detach_midi_output_connection`: hands back the connection after
     * trying to switch all LEDs off; a failure there is only logged.
     */
    method DetachMidiOutputConnection(m: MidiConstants) returns (c: Option<MidiConnection>)
      requires ValidMidi(m)
      modifies this, if connection.Some? then {connection.value} else {}
      ensures c == old(connection)
      ensures connection.None?
      ensures c.Some? ==>
                c.value.sent ==
                  old(c.value.sent) + AllOffMessages(m)[..LeadingSuccesses(c.value.failing, old(c.value.attempts), 16)]
    {
      c := connection;
      if c.None? {
        return;
      }
      connection := None;
      var _ := TurnOffAllLeds(m, c.value);
    }
  }
}
