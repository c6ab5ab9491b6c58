/** The firmware's static configuration: pad indices, per-channel tuning tables, MIDI note
    numbers and the timing and velocity constants. Nothing here changes at run time. */
module Config {

  /** Number of sensor channels (`NUM_PADS`). */
  const NumPads: int := 11

  /** A sensor channel index, 0 .. NUM_PADS-1. */
  type Channel = c: int | 0 <= c < 11

  // Channel indices; the source's Portuguese names are given in parentheses.
  const KickPad: Channel := 0        // bass drum (BUMBO_PAD)
  const FloorTomPad: Channel := 1    // floor tom (SURDO_PAD)
  const Tom1Pad: Channel := 2        // TOM1_PAD
  const Tom2Pad: Channel := 3        // TOM2_PAD
  const HiHatPad: Channel := 4       // hi-hat (CHIMBAL_PAD)
  const SnarePad: Channel := 5       // snare skin (CAIXA_PAD)
  const SnareRimPad: Channel := 6    // snare rim (ARO_CAIXA_PAD)
  const RideBowPad: Channel := 7     // ride bow (CONDUCAO_BORDA_PAD)
  const RideBellPad: Channel := 8    // ride bell (CONDUCAO_CUPULA_PAD)
  const CrashBowPad: Channel := 9    // crash bow (ATAQUE_BORDA_PAD)
  const CrashBellPad: Channel := 10  // crash bell (ATAQUE_CUPULA_PAD)

  /** The channels ticked by the first (single-zone) loop, `j <= CHIMBAL_PAD`. */
  type SinglePad = j: int | 0 <= j <= 4

  /** The primary channels ticked by the second (dual-zone) loop, `j = CAIXA_PAD; j < NUM_PADS;
      j += 2`; the secondary channel of pad j is j + 1. */
  type DualPad = j: int | j == 5 || j == 7 || j == 9 witness 5

  /** The two dual-zone pads with a bell sensor: the ride and the crash cymbal. */
  predicate IsCymbal(j: DualPad) { j != SnarePad }

  // Hi-hat and snare notes that are not in the per-channel note table.
  const HatClosedNote: int := 42     // MIDI_NOTE_CHIMBAL_CLOSED
  const HatOpenNote: int := 46       // MIDI_NOTE_CHIMBAL_OPEN
  const HatPedalNote: int := 44      // MIDI_NOTE_CHIMBAL_PEDAL
  const RimshotNote: int := 40       // MIDI_NOTE_RIMSHOT

  /** Velocity of the pedal "chick" note sent when the hi-hat pedal closes. */
  const PedalChickVelocity: int := 30

  const MinVelocity: int := 10
  const MaxVelocity: int := 127

  // State durations in milliseconds.
  const PeakDetectionWindowMs: int := 7     // PEAK_DETECTION_WINDOW_MS
  const SilentDebounceMs: int := 30         // SILENT_DEBOUNCE_MS
  const RepiqueCheckMs: int := 180          // REPIQUE_CHECK_MS
  const ChokeConfirmationMs: int := 20      // CHOKE_CONFIRMATION_TIME_MS

  // Crosstalk suppression.
  const HighVelocityThreshold: int := 115   // HIGH_VELOCITY_THRESHOLD
  const LowVelocityDiscard: int := 29       // LOW_VELOCITY_DISCARD_THRESHOLD
  const CrosstalkWindowMs: int := 130       // CROSSTALK_WINDOW_MS

  /** Absolute floor of the secondary peak below which a choke is confirmed. */
  const ChokeSecondaryFloor: int := 20

  /** Minimum raw reading that counts as a strike (`threshold[]`). */
  function Threshold(c: Channel): (t: int)
    ensures 0 < t < 1023
  {
    match c
    case 0 => 120
    case 1 => 45
    case 2 => 230
    case 3 => 150
    case 4 => 80
    case 5 => 55
    case 6 => 40
    case _ => 35   // both cymbals, bow and bell
  }

  /** Ceiling of the retrigger threshold right after a strike (`retriggerThreshold[]`). Every
      ceiling lies above the channel's threshold, below full scale, and at or above 1.5 times the
      threshold, so the retrigger start always has room between its floor and its ceiling. */
  function RetriggerCeiling(c: Channel): (r: int)
    ensures Threshold(c) < r < 1023
    ensures 3 * Threshold(c) <= 2 * r
  {
    match c
    case 0 => 900
    case 1 => 950
    case 2 => 950
    case 3 => 950
    case 4 => 900
    case 5 => 550
    case 6 => 100
    case 7 => 950
    case 8 => 950
    case _ => 680  // crash bow and bell
  }

  /** Note sent for a strike on each channel (`midiNote[]`); the hi-hat entry is the closed
      note, which the pedal may replace by the open one. */
  function MidiNote(c: Channel): (n: int)
    ensures 36 <= n < 128
    ensures n != HatOpenNote && n != HatPedalNote && n != RimshotNote
    ensures n == HatClosedNote <==> c == HiHatPad
    ensures n == 36 <==> c == KickPad
  {
    match c
    case 0 => 36
    case 1 => 41
    case 2 => 43
    case 3 => 45
    case 4 => HatClosedNote
    case 5 => 38
    case 6 => 39
    case 7 => 50
    case 8 => 53
    case 9 => 49
    case _ => 51
  }

  /** `gainFactor[]` in tenths: 1 is 10, 7 is 70 (ride bell), 1.2 is 12 (crash bell). */
  function GainTenths(c: Channel): (g: nat)
    ensures 10 <= g <= 70
    ensures g == 10 <==> c != RideBellPad && c != CrashBellPad
  {
    match c
    case 8 => 70
    case 10 => 12
    case _ => 10
  }
}
