/**
 * Pioneer DDJ-400: the decks and the constants of the device's parent
 * module. Their values are not part of this model, so they are
 * parameters, and the assumptions the decoders and encoders rely on are
 * stated as validity predicates.
 */
module PioneerDdj400Constants {
  import opened Common
  import opened Djio

  datatype Deck = One | Two

  /**
   * The layout of a control index: deck bits (`CONTROL_INDEX_DECK_*`)
   * above an enumeration field (`CONTROL_INDEX_ENUM_BIT_MASK`).
   */
  datatype IndexBits = IndexBits(
    deckOne: bv32,
    deckTwo: bv32,
    deckBitMask: bv32,
    enumBitMask: bv32,
    performanceDeckOne: bv32,
    performanceDeckTwo: bv32)

  /**
   * The enumeration field fits a byte and holds every discriminant
   * (below 32), the deck bits lie inside the deck mask and outside the
   * enumeration field, and the two decks and the "both decks" mask are
   * three different non-zero patterns.
   */
  predicate ValidIndexBits(b: IndexBits)
  {
    FieldsDisjoint(b) &&
    b.deckOne & b.deckBitMask == b.deckOne &&
    b.deckTwo & b.deckBitMask == b.deckTwo &&
    b.deckOne != 0 && b.deckTwo != 0 && b.deckOne != b.deckTwo &&
    b.deckOne != b.deckBitMask && b.deckTwo != b.deckBitMask
  }

  /** The enumeration field fits a byte, holds 0..=31 and lies outside the deck mask. */
  predicate FieldsDisjoint(b: IndexBits)
  {
    b.enumBitMask <= 0xff &&
    b.enumBitMask & 0x1f == 0x1f &&
    b.deckBitMask & b.enumBitMask == 0
  }

  /** `Deck::control_index_bit_mask`, assumed to be the deck's `CONTROL_INDEX_DECK_*`. */
  function DeckBit(b: IndexBits, deck: Deck): bv32
  {
    match deck
    case One => b.deckOne
    case Two => b.deckTwo
  }

  /** The MIDI status bytes, channels and note numbers of the parent module. */
  datatype MidiConstants = MidiConstants(
    statusButtonMain: Byte,
    statusButtonEffect: Byte,
    statusButtonDeckOne: Byte,
    statusButtonDeckTwo: Byte,
    statusButtonPerformanceDeckOne: Byte,
    statusButtonPerformanceDeckTwo: Byte,
    statusCcMain: Byte,
    statusCcEffect: Byte,
    statusCcDeckOne: Byte,
    statusCcDeckTwo: Byte,
    channelDeckOne: Byte,
    channelDeckTwo: Byte,
    channelPerformanceDeckOne: Byte,
    channelPerformanceDeckTwo: Byte,
    commandNoteOn: Byte,
    noteMasterCue: Byte,
    noteBeatFx: Byte,
    noteDeckPlayPauseButton: Byte)

  /** The note (button) statuses, in the order the button decoder tries them. */
  function ButtonStatuses(m: MidiConstants): set<Byte>
  {
    {m.statusButtonMain, m.statusButtonEffect, m.statusButtonDeckOne, m.statusButtonDeckTwo,
     m.statusButtonPerformanceDeckOne, m.statusButtonPerformanceDeckTwo}
  }

  function CcStatuses(m: MidiConstants): set<Byte>
  {
    {m.statusCcMain, m.statusCcEffect, m.statusCcDeckOne, m.statusCcDeckTwo}
  }

  /**
   * Channels are 4-bit, distinct per deck, and are the low nibble of the
   * deck's status bytes; the note-on command has an empty low nibble;
   * no status byte is both a note and a control change status.
   */
  predicate ValidMidi(m: MidiConstants)
  {
    m.channelDeckOne < 16 && m.channelDeckTwo < 16 &&
    m.channelPerformanceDeckOne < 16 && m.channelPerformanceDeckTwo < 16 &&
    m.channelDeckOne != m.channelDeckTwo &&
    m.channelPerformanceDeckOne != m.channelPerformanceDeckTwo &&
    m.statusButtonDeckOne % 16 == m.channelDeckOne &&
    m.statusButtonDeckTwo % 16 == m.channelDeckTwo &&
    m.statusCcDeckOne % 16 == m.channelDeckOne &&
    m.statusCcDeckTwo % 16 == m.channelDeckTwo &&
    m.statusButtonPerformanceDeckOne % 16 == m.channelPerformanceDeckOne &&
    m.statusButtonPerformanceDeckTwo % 16 == m.channelPerformanceDeckTwo &&
    m.commandNoteOn % 16 == 0 &&
    ButtonStatuses(m) !! CcStatuses(m)
  }

  /** `Deck::midi_channel`, assumed to be the deck's `MIDI_CHANNEL_DECK_*`. */
  function MidiChannel(m: MidiConstants, deck: Deck): Byte
  {
    match deck
    case One => m.channelDeckOne
    case Two => m.channelDeckTwo
  }

  datatype Constants = Constants(index: IndexBits, midi: MidiConstants)

  predicate Valid(k: Constants)
  {
    ValidIndexBits(k.index) && ValidMidi(k.midi)
  }

  /** The bit pattern of a control index. */
  function IndexBitsOf(ci: ControlIndex): bv32
  {
    ci.value as bv32
  }

  /** A 32-bit pattern as a control index. */
  function ToControlIndex(x: bv32): (r: ControlIndex)
    ensures IndexBitsOf(r) == x
  {
    Bv32RoundTrip(x);
    ControlIndex(x as int)
  }

  lemma Bv32RoundTrip(x: bv32)
    ensures (x as int) as bv32 == x
  {
  }

  /** The enumeration field of a control index. */
  function EnumField(b: IndexBits, x: bv32): bv8
    requires b.enumBitMask <= 0xff
  {
    (x & b.enumBitMask) as bv8
  }

  /** The deck bits of a control index. */
  function DeckField(b: IndexBits, x: bv32): bv32
  {
    x & b.deckBitMask
  }

  lemma NarrowBack(d: bv8)
    ensures (d as bv32) as bv8 == d
  {
  }

  /** A deck's bit lies inside the deck mask. */
  lemma DeckBitInMask(b: IndexBits, deck: Deck)
    requires ValidIndexBits(b)
    ensures DeckBit(b, deck) & b.deckBitMask == DeckBit(b, deck)
  {
  }

  /**
   * OR-ing deck bits and a discriminant below 32 keeps both readable:
   * masking recovers the discriminant and the deck bits.
   */
  lemma DeckIndexOfFields(b: IndexBits, d: bv32, s: bv8)
    requires FieldsDisjoint(b) && d & b.deckBitMask == d && s < 32
    ensures EnumField(b, d | s as bv32) == s
    ensures DeckField(b, d | s as bv32) == d
  {
  }

  /** A discriminant below 32 on its own has no deck bits. */
  lemma PlainFields(b: IndexBits, s: bv8)
    requires ValidIndexBits(b) && s < 32
    ensures EnumField(b, s as bv32) == s
    ensures DeckField(b, s as bv32) == 0
  {
    DeckIndexOfFields(b, 0, s);
    assert (0 | s as bv32) == s as bv32;
  }
}
