/**
 * Virtual DJ deck: play states, the LED states a Pioneer-style deck
 * shows for them, and the default tempo and playback parameters. Rates
 * and positions are exact rationals; the source uses `f32` and `f64`.
 */
module DeckModel {
  import opened Common
  import I = Input

  const PLAYBACK_RATE_DEFAULT: real := 1.0
  const PLAYBACK_RATE_PAUSED: real := 0.0

  /** ±8 % */
  const TEMPO_RANGE_DEFAULT: real := 0.08

  /** The centre of a centre slider. */
  const CENTER_POSITION: real := 0.0

  type I8 = x: int | -128 <= x < 128

  datatype Position = Position(offsetSecs: real)
  datatype Cue = Cue(position: Position)

  datatype PlayState =
    | Paused(onCue: bool)
    | Previewing(cue: Cue)
    | Playing
    | Ended

  /** The LED states the two tables use. */
  datatype LedState = Off | On | BlinkFast | BlinkSlow

  /**
   * `pioneer_cue_led_state`: lit while the deck sits on the cue, previews
   * it or plays, blinking fast while paused elsewhere, dark at the end.
   */
  function PioneerCueLedState(s: PlayState): (led: LedState)
    ensures led == LedState.On <==> (s.Paused? && s.onCue) || s.Previewing? || s.Playing?
    ensures led == LedState.BlinkFast <==> s.Paused? && !s.onCue
    ensures led == LedState.Off <==> s.Ended?
    ensures led != LedState.BlinkSlow
  {
    match s
    case Paused(true) => LedState.On
    case Previewing(_) => LedState.On
    case Playing => LedState.On
    case Paused(false) => LedState.BlinkFast
    case Ended => LedState.Off
  }

  /**
   * `pioneer_playpause_led_state`: lit only while playing, blinking
   * slowly while paused or previewing, dark at the end.
   */
  function PioneerPlayPauseLedState(s: PlayState): (led: LedState)
    ensures led == LedState.On <==> s.Playing?
    ensures led == LedState.BlinkSlow <==> s.Paused? || s.Previewing?
    ensures led == LedState.Off <==> s.Ended?
    ensures led != LedState.BlinkFast
  {
    match s
    case Playing => LedState.On
    case Paused(_) => LedState.BlinkSlow
    case Previewing(_) => LedState.BlinkSlow
    case Ended => LedState.Off
  }

  /**
   * The two LEDs agree: both are dark exactly at the end, the cue LED is
   * lit whenever the play/pause LED is, a fast-blinking cue LED comes
   * with a slowly blinking play/pause LED, and the cue LED is lit beside
   * a blinking play/pause LED exactly while paused on the cue or
   * previewing.
   */
  lemma LedStatesAgree(s: PlayState)
    ensures PioneerCueLedState(s) == LedState.Off <==> PioneerPlayPauseLedState(s) == LedState.Off
    ensures PioneerPlayPauseLedState(s) == LedState.On ==> PioneerCueLedState(s) == LedState.On
    ensures PioneerCueLedState(s) == LedState.BlinkFast ==> PioneerPlayPauseLedState(s) == LedState.BlinkSlow
    ensures PioneerCueLedState(s) == LedState.On && PioneerPlayPauseLedState(s) == LedState.BlinkSlow <==>
              (s.Paused? && s.onCue) || s.Previewing?
  {
  }

  /** A media item and its duration in seconds, if known. */
  datatype Playable = Playable(playState: PlayState, duration: Option<real>)

  datatype Tempo = Tempo(range: real, input: I.CenterSliderInput)

  datatype PlaybackParams = PlaybackParams(rate: real, pitchSemitones: Option<I8>)

  datatype Player = Player(cue: Cue, tempo: Tempo, playbackParams: PlaybackParams)

  /** `Tempo::default`: ±8 % around the centred slider. */
  function DefaultTempo(): (t: Tempo)
    ensures t.range == TEMPO_RANGE_DEFAULT && t.input.position == CENTER_POSITION
  {
    Tempo.Tempo(TEMPO_RANGE_DEFAULT, I.CenterSliderInput(CENTER_POSITION))
  }

  /** `PlaybackParams::default`: normal speed, pitch follows the tempo. */
  function DefaultPlaybackParams(): (p: PlaybackParams)
    ensures p.rate == PLAYBACK_RATE_DEFAULT && p.rate != PLAYBACK_RATE_PAUSED
    ensures p.pitchSemitones.None?
  {
    PlaybackParams(PLAYBACK_RATE_DEFAULT, None)
  }

  /** `Player::default`: cue at the start, default tempo and playback. */
  function DefaultPlayer(): (p: Player)
    ensures p.cue.position.offsetSecs == 0.0
    ensures p.tempo == DefaultTempo() && p.playbackParams == DefaultPlaybackParams()
  {
    Player(Cue.Cue(Position.Position(0.0)), DefaultTempo(), DefaultPlaybackParams())
  }

  /** `Player` with all fields optional; absent fields are not updated. */
  datatype UpdatePlayer = UpdatePlayer(cue: Option<Cue>, tempo: Option<Tempo>, playbackParams: Option<PlaybackParams>)

  /** Deck inputs. */
  datatype Input =
    | Cue(cueButton: ButtonInput)
    | PlayPause(playPauseButton: ButtonInput)
    | Sync(syncButton: ButtonInput)
    | Position(position: I.SliderInput)
    | Tempo(tempo: I.CenterSliderInput)
}
