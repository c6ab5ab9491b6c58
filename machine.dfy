/** The per-pad strike state machine of `loop()` as pure functions over the firmware's state:
    one tick of a single-zone pad, one tick of a dual-zone pair, the hi-hat pedal poll, and a
    whole `loop()` pass over all pads. The `DrumModule` class of module `Firmware` is proved to
    follow these functions step for step. */
module PadMachine {
  import opened ArduinoMath
  import opened Config
  import opened Midi
  import opened Strike

  /** The two shipped variants of the loop. `WithComments` is code_with_comments.c; `Main` is
      main.c, whose single-zone loop is also the whole of doxygen_1.0/oldscope.c. */
  datatype Variant = WithComments | Main

  /** `enum PadState`. */
  datatype PadState = Idle | PeakDetection | SilentDebounce | RepiqueCheck | ChokeConfirmation

  /** Entry j of the four per-pad arrays: `padState[j]`, `stateChangeTime[j]`,
      `peakSensorValues[j]` and `retriggerThresholdInitialDecay[j]`. */
  datatype Slot = Slot(state: PadState, since: Time, peak: Reading, decay: int)

  /** The global scalars: `lastHighVelocityMidiTime`, `pedalChimbalState`,
      `lastPedalChimbalState` and the set of notes whose "...Playing" flag is set. */
  datatype Shared = Shared(lastHigh: Time, pedal: Level, lastPedal: Level, playing: set<int>)

  /** What one tick of a single-zone pad leaves behind and sends. */
  datatype Step = Step(slot: Slot, shared: Shared, events: seq<Event>)

  /** What one tick of a dual-zone pair (channels j and j + 1) leaves behind and sends. */
  datatype DualStep = DualStep(primary: Slot, secondary: Slot, shared: Shared, events: seq<Event>)

  /** The two extra `analogRead`s per channel of the choke peak-hold: the value compared with
      the held peak and the value stored. code_with_comments.c reads once per channel and uses
      the read for both; main.c calls `analogRead` once for the test and once for the store. */
  datatype ChokeReads = ChokeReads(primaryTest: Reading, primaryHeld: Reading,
                                   secondaryTest: Reading, secondaryHeld: Reading)

  /** The whole firmware state: the eleven slots and the shared scalars. */
  datatype Kit = Kit(slots: seq<Slot>, shared: Shared)

  /** A state together with the events sent while reaching it. */
  datatype Outcome = Outcome(kit: Kit, events: seq<Event>)

  /** Everything one pass of `loop()` reads from the outside world: the pedal's `digitalRead`,
      each channel's `analogRead`, the `millis()` taken in pad j's iteration (index j; for a
      dual pair the primary's index), and the choke peak-hold reads of each primary. */
  datatype Inputs = Inputs(pedal: Level, analog: seq<Reading>, clock: seq<Time>, choke: seq<ChokeReads>)

  predicate WellFormed(k: Kit) { |k.slots| == NumPads }

  predicate Complete(ins: Inputs)
  {
    |ins.analog| == NumPads && |ins.clock| == NumPads && |ins.choke| == NumPads
  }

  /** The state `setup()` leaves: every pad IDLE with zero time, peak and decay start; both
      pedal variables HIGH; the crosstalk timestamp 0; no flag set. */
  function Init(): (k: Kit)
    ensures WellFormed(k)
    ensures forall j | 0 <= j < NumPads :: k.slots[j] == Slot(Idle, 0, 0, 0)
  {
    Kit(seq(NumPads, _ => Slot(Idle, 0, 0, 0)), Shared(0, High, High, {}))
  }

  /** The larger of two readings: the peak-hold update `if (reading > peak) peak = reading`, and
      the `max` of two readings. */
  function MaxReading(peak: Reading, reading: Reading): Reading
  {
    if reading > peak then reading else peak
  }

  /** The notes a validated, non-crosstalk single-zone strike sends. */
  function SingleEmit(j: SinglePad, sh: Shared, velocity: int): (r: seq<Event>)
    ensures OnCount(r) == 1
    ensures r[0] == NoteOn(if j == HiHatPad && sh.pedal == High then HatOpenNote else MidiNote(j), velocity)
    ensures j != HiHatPad ==> |r| == 1
  {
    if j == HiHatPad then HatStrike(sh.pedal, sh.playing, velocity)
    else [NoteOn(MidiNote(j), velocity)]
  }

  /** A validated single-zone strike that is not crosstalk, given its velocity: the notes are
      sent, a strong strike arms the crosstalk window, and the pad enters SILENT_DEBOUNCE with
      its retrigger start computed from the peak. */
  function SingleStrikeStep(j: SinglePad, p: Slot, sh: Shared, velocity: int, now: Time): (r: Step)
    ensures r.slot.state == SilentDebounce && r.slot.since == now && r.slot.peak == p.peak
    ensures OneAndHalf(Threshold(j)) <= r.slot.decay <= Max(OneAndHalf(Threshold(j)), RetriggerCeiling(j))
    ensures OnCount(r.events) == 1
    ensures r.shared.lastHigh == now || r.shared.lastHigh == sh.lastHigh
    ensures r.shared.pedal == sh.pedal && r.shared.lastPedal == sh.lastPedal
  {
    var es := SingleEmit(j, sh, velocity);
    var lastHigh := if ArmsCrosstalk(velocity, MidiNote(j)) then now else sh.lastHigh;
    Step(Slot(SilentDebounce, now, p.peak, RetriggerStart(j, p.peak)),
         sh.(lastHigh := lastHigh, playing := Sound(sh.playing, es)), es)
  }

  /** One iteration of the single-zone loop for pad j, given its `analogRead` and `millis()`. */
  function SingleStep(v: Variant, j: SinglePad, p: Slot, sh: Shared, reading: Reading, now: Time): (r: Step)
    ensures r.events != [] ==> p.state == PeakDetection && r.slot.state == SilentDebounce && OnCount(r.events) == 1
    ensures r.slot.state == ChokeConfirmation ==> r.slot == p
    ensures r.shared.lastHigh == now || r.shared.lastHigh == sh.lastHigh
    ensures r.shared.pedal == sh.pedal && r.shared.lastPedal == sh.lastPedal
  {
    match p.state
    case Idle =>
      if reading > Threshold(j) then Step(Slot(PeakDetection, now, reading, p.decay), sh, [])
      else Step(p, sh, [])
    case PeakDetection =>
      if Elapsed(now, p.since) < PeakDetectionWindowMs then
        Step(p.(peak := MaxReading(p.peak, reading)), sh, [])
      else if p.peak <= Threshold(j) then
        Step(p.(state := Idle), sh, [])
      else
        var velocity := Velocity(j, p.peak);
        if IsCrosstalk(velocity, now, sh.lastHigh) then Step(p.(state := Idle), sh, [])
        else SingleStrikeStep(j, p, sh, velocity, now)
    case SilentDebounce =>
      if Elapsed(now, p.since) >= SilentDebounceMs then Step(p.(state := RepiqueCheck, since := now), sh, [])
      else Step(p, sh, [])
    case RepiqueCheck =>
      var elapsed := Elapsed(now, p.since);
      if elapsed >= RepiqueCheckMs then Step(p.(state := Idle), sh, [])
      else if reading > DecayThreshold(j, p.decay, elapsed) then
        Step(Slot(PeakDetection, now, reading, p.decay), sh, [])
      else Step(p, sh, [])
    case ChokeConfirmation =>
      // code_with_comments.c has no case for this state; main.c resets the pad.
      if v == Main then Step(p.(state := Idle), sh, []) else Step(p, sh, [])
  }

  /** The notes a validated, non-crosstalk dual-zone strike sends. */
  function DualEmit(j: DualPad, primary: Reading, secondary: Reading, vp: int, vs: int): (r: seq<Event>)
    ensures 1 <= |r| <= 2 && OnCount(r) <= 1
    ensures OnCount(r) == 0 <==> r == [NoteOff(MidiNote(j), 0), NoteOff(MidiNote(j + 1), 0)]
    ensures forall i | 0 <= i < |r| ::
      r[i].note == MidiNote(j) || r[i].note == MidiNote(j + 1) || (j == SnarePad && r[i].note == RimshotNote)
  {
    if j == SnarePad then SnareRoute(primary, secondary, vp, vs)
    else CymbalRoute(j, primary, secondary, vp, vs)
  }

  /** A dual-zone pair in IDLE: a strike on either channel starts peak detection with both
      readings as the initial peaks. */
  function DualIdleStep(j: DualPad, p: Slot, s: Slot, sh: Shared, rp: Reading, rs: Reading, now: Time): (r: DualStep)
    ensures r.events == [] && r.shared == sh && r.primary.decay == p.decay && r.secondary.decay == s.decay
    ensures r.primary.state == PeakDetection && p.state != PeakDetection ==>
      r.primary.since == now && (r.primary.peak > Threshold(j) || r.secondary.peak > Threshold(j + 1))
    ensures r.primary.state != PeakDetection ==> r.primary == p && r.secondary == s
  {
    if rp > Threshold(j) || rs > Threshold(j + 1) then
      DualStep(Slot(PeakDetection, now, rp, p.decay), s.(peak := rs), sh, [])
    else DualStep(p, s, sh, [])
  }

  /** A dual-zone pair in PEAK_DETECTION. */
  function DualPeakStep(j: DualPad, p: Slot, s: Slot, sh: Shared, rp: Reading, rs: Reading, now: Time): (r: DualStep)
    ensures r.primary.peak >= p.peak && r.secondary.peak >= s.peak
    ensures r.primary.state == p.state || r.primary.state == Idle || r.primary.state == SilentDebounce
    ensures r.events != [] ==> r.primary.state == SilentDebounce
    ensures r.shared.pedal == sh.pedal && r.shared.lastPedal == sh.lastPedal
  {
    if Elapsed(now, p.since) < PeakDetectionWindowMs then
      DualStep(p.(peak := MaxReading(p.peak, rp)), s.(peak := MaxReading(s.peak, rs)), sh, [])
    else if p.peak <= Threshold(j) && s.peak <= Threshold(j + 1) then
      DualStep(p.(state := Idle), s, sh, [])
    else DualValidatedStep(j, p, s, sh, now)
  }

  /** The end of a dual-zone peak-detection window when at least one peak passed its threshold:
      crosstalk test, routing, crosstalk arming, SILENT_DEBOUNCE and the retrigger start of both
      channels, computed from the larger peak. */
  function DualValidatedStep(j: DualPad, p: Slot, s: Slot, sh: Shared, now: Time): (r: DualStep)
    ensures r.primary.peak == p.peak && r.secondary.peak == s.peak
    ensures r.primary.state == Idle || r.primary.state == SilentDebounce
    ensures r.primary.state == Idle ==> r.events == [] && r.shared == sh
    ensures r.shared.pedal == sh.pedal && r.shared.lastPedal == sh.lastPedal
  {
    var vp := Velocity(j, p.peak);
    var vs := Velocity(j + 1, s.peak);
    if IsCrosstalk(Max(vs, vp), now, sh.lastHigh) then
      DualStep(p.(state := Idle), s, sh, [])
    else DualStrikeStep(j, p, s, sh, vp, vs, now)
  }

  /** A validated dual-zone strike that is not crosstalk, given the two velocities. */
  function DualStrikeStep(j: DualPad, p: Slot, s: Slot, sh: Shared, vp: int, vs: int, now: Time): (r: DualStep)
    ensures r.primary.state == SilentDebounce && r.primary.since == now && r.primary.peak == p.peak
    ensures r.secondary.decay == r.primary.decay
    ensures OneAndHalf(Threshold(j)) <= r.primary.decay <= Max(OneAndHalf(Threshold(j)), RetriggerCeiling(j))
    ensures 1 <= |r.events| <= 2
    ensures r.shared.lastHigh == now || r.shared.lastHigh == sh.lastHigh
    ensures r.shared.pedal == sh.pedal && r.shared.lastPedal == sh.lastPedal
  {
    var es := DualEmit(j, p.peak, s.peak, vp, vs);
    var lastHigh := if ArmsCrosstalk(Max(vs, vp), MidiNote(j)) then now else sh.lastHigh;
    var start := RetriggerStart(j, MaxReading(p.peak, s.peak));
    DualStep(Slot(SilentDebounce, now, p.peak, start), s.(decay := start),
             sh.(lastHigh := lastHigh, playing := Sound(sh.playing, es)), es)
  }

  /** A dual-zone pair in SILENT_DEBOUNCE. */
  function DualDebounceStep(p: Slot, s: Slot, sh: Shared, now: Time): (r: DualStep)
    ensures r.events == [] && r.shared == sh && r.secondary == s
    ensures r.primary.peak == p.peak && r.primary.decay == p.decay
    ensures r.primary != p ==> Elapsed(now, p.since) >= SilentDebounceMs && r.primary.state == RepiqueCheck
  {
    if Elapsed(now, p.since) >= SilentDebounceMs then DualStep(p.(state := RepiqueCheck, since := now), s, sh, [])
    else DualStep(p, s, sh, [])
  }

  /** A dual-zone pair in REPIQUE_CHECK: the larger reading is compared with the decaying
      threshold of the primary channel. */
  function DualRepiqueStep(j: DualPad, p: Slot, s: Slot, sh: Shared, rp: Reading, rs: Reading, now: Time): (r: DualStep)
    ensures r.events == [] && r.shared == sh && r.primary.decay == p.decay && r.secondary.decay == s.decay
    ensures r.primary.state == PeakDetection && r.primary != p ==>
      r.primary.since == now && MaxReading(r.primary.peak, r.secondary.peak) > OneAndHalf(Threshold(j))
  {
    var elapsed := Elapsed(now, p.since);
    if elapsed >= RepiqueCheckMs then DualStep(p.(state := Idle), s, sh, [])
    else if MaxReading(rp, rs) > DecayThreshold(j, p.decay, elapsed) then
      DualStep(Slot(PeakDetection, now, rp, p.decay), s.(peak := rs), sh, [])
    else DualStep(p, s, sh, [])
  }

  /** The choke peak-hold of one channel: the held peak, the value compared with it and the
      value stored when the comparison succeeds. */
  function ChokeHeld(v: Variant, peak: Reading, test: Reading, held: Reading): (r: Reading)
    ensures r == peak || (test > peak && r == (if v == WithComments then test else held))
    ensures v == WithComments ==> r >= peak && r >= test
  {
    if test > peak then (if v == WithComments then test else held) else peak
  }

  /** The CHOKE_CONFIRMATION handler of a cymbal (ride or crash): peak-hold, and once 20 ms have
      passed since the state was entered, the verdict. */
  function ChokeConfirm(v: Variant, j: DualPad, p: Slot, s: Slot, sh: Shared, cr: ChokeReads, now: Time): (r: DualStep)
    requires IsCymbal(j)
    ensures r.shared.lastHigh == sh.lastHigh && r.shared.pedal == sh.pedal && r.shared.lastPedal == sh.lastPedal
    ensures OnCount(r.events) == 0
    ensures Elapsed(now, p.since) < ChokeConfirmationMs ==> r.events == [] && r.primary.state == p.state
    ensures Elapsed(now, p.since) >= ChokeConfirmationMs ==> r.primary.peak == 0 && r.secondary.peak == 0
  {
    var pp := ChokeHeld(v, p.peak, cr.primaryTest, cr.primaryHeld);
    var ps := ChokeHeld(v, s.peak, cr.secondaryTest, cr.secondaryHeld);
    if Elapsed(now, p.since) >= ChokeConfirmationMs then ChokeVerdict(j, p, s, sh, pp, ps, now)
    else DualStep(p.(peak := pp), s.(peak := ps), sh, [])
  }

  /** The verdict at the end of the choke window, given the held peaks `pp` and `ps`: a confirmed
      choke turns both notes of the cymbal off; otherwise the pad goes back to peak detection if
      a peak passed its threshold, else to IDLE. Both peaks are cleared in every case. */
  function ChokeVerdict(j: DualPad, p: Slot, s: Slot, sh: Shared, pp: Reading, ps: Reading, now: Time): (r: DualStep)
    requires IsCymbal(j)
    ensures r.primary.peak == 0 && r.secondary.peak == 0
    ensures r.primary.state == Idle || r.primary.state == PeakDetection
    ensures OnCount(r.events) == 0
    ensures r.events != [] <==> 20 * ps < pp || ps < ChokeSecondaryFloor
    ensures r.events != [] ==> MidiNote(j) !in r.shared.playing && MidiNote(j + 1) !in r.shared.playing
    ensures r.shared.lastHigh == sh.lastHigh && r.shared.pedal == sh.pedal && r.shared.lastPedal == sh.lastPedal
  {
    if 20 * ps < pp || ps < ChokeSecondaryFloor then
      var es := [NoteOff(MidiNote(j), 0), NoteOff(MidiNote(j + 1), 0)];
      ShortSequences(sh.playing, es[0], es[1]);
      assert MidiNote(j) in Tracked && MidiNote(j + 1) in Tracked && MidiNote(j) != MidiNote(j + 1);
      DualStep(p.(state := Idle, peak := 0), s.(peak := 0), sh.(playing := Sound(sh.playing, es)), es)
    else if pp > Threshold(j) || ps > Threshold(j + 1) then
      DualStep(p.(state := PeakDetection, since := now, peak := 0), s.(peak := 0), sh, [])
    else
      DualStep(p.(state := Idle, peak := 0), s.(peak := 0), sh, [])
  }

  /** One iteration of the dual-zone loop for the pair (j, j + 1), given both `analogRead`s,
      the choke peak-hold reads and `millis()`. Only the primary's state and time change. */
  function DualStepOf(v: Variant, j: DualPad, p: Slot, s: Slot, sh: Shared,
                      rp: Reading, rs: Reading, cr: ChokeReads, now: Time): (r: DualStep)
    ensures r.secondary == s.(peak := r.secondary.peak, decay := r.secondary.decay)
    ensures r.shared.pedal == sh.pedal && r.shared.lastPedal == sh.lastPedal
  {
    match p.state
    case Idle => DualIdleStep(j, p, s, sh, rp, rs, now)
    case PeakDetection => DualPeakStep(j, p, s, sh, rp, rs, now)
    case SilentDebounce => DualDebounceStep(p, s, sh, now)
    case RepiqueCheck => DualRepiqueStep(j, p, s, sh, rp, rs, now)
    case ChokeConfirmation =>
      if IsCymbal(j) then ChokeConfirm(v, j, p, s, sh, cr, now)
      else DualStep(p.(state := Idle, peak := 0), s.(peak := 0), sh, [])
  }

  /** The shared state and the events of the hi-hat pedal poll at the top of `loop()`. */
  datatype Polled = Polled(shared: Shared, events: seq<Event>)

  function PedalStep(sh: Shared, level: Level): (r: Polled)
    ensures r.shared.pedal == level && r.shared.lastPedal == level && r.shared.lastHigh == sh.lastHigh
    ensures level == sh.lastPedal ==> r.events == [] && r.shared.playing == sh.playing
  {
    var es := PedalEdge(level, sh.lastPedal, sh.playing);
    Polled(sh.(pedal := level, lastPedal := level, playing := Sound(sh.playing, es)), es)
  }

  /** The pedal poll applied to a whole state. */
  function PedalAt(k: Kit, level: Level): (o: Outcome)
    ensures o.kit.slots == k.slots
  {
    var pl := PedalStep(k.shared, level);
    Outcome(k.(shared := pl.shared), pl.events)
  }

  /** Pad j's single-zone iteration applied to a whole state. */
  function SingleAt(v: Variant, k: Kit, j: SinglePad, reading: Reading, now: Time): (o: Outcome)
    requires WellFormed(k)
    ensures WellFormed(o.kit)
    ensures forall i | 0 <= i < NumPads && i != j :: o.kit.slots[i] == k.slots[i]
    ensures o.kit.shared.pedal == k.shared.pedal && o.kit.shared.lastPedal == k.shared.lastPedal
  {
    var st := SingleStep(v, j, k.slots[j], k.shared, reading, now);
    Outcome(Kit(k.slots[j := st.slot], st.shared), st.events)
  }

  /** Pair j's dual-zone iteration applied to a whole state: it writes entries j and j + 1
      and no other, and never touches the state or time entry of the secondary channel. */
  function DualAt(v: Variant, k: Kit, j: DualPad, rp: Reading, rs: Reading, cr: ChokeReads, now: Time): (o: Outcome)
    requires WellFormed(k)
    ensures WellFormed(o.kit)
    ensures forall i | 0 <= i < NumPads && i != j && i != j + 1 :: o.kit.slots[i] == k.slots[i]
    ensures o.kit.slots[j + 1].state == k.slots[j + 1].state
    ensures o.kit.slots[j + 1].since == k.slots[j + 1].since
    ensures o.kit.shared.pedal == k.shared.pedal && o.kit.shared.lastPedal == k.shared.lastPedal
  {
    var st := DualStepOf(v, j, k.slots[j], k.slots[j + 1], k.shared, rp, rs, cr, now);
    Outcome(Kit(k.slots[j := st.primary][j + 1 := st.secondary], st.shared), st.events)
  }

  /** The first `n` iterations of the single-zone loop (pads 0 .. n-1): they touch no slot from
      n on, in particular no dual-zone channel, and leave the pedal variables alone. */
  function RunSingles(v: Variant, k: Kit, ins: Inputs, n: nat): (o: Outcome)
    requires WellFormed(k) && Complete(ins) && n <= 5
    ensures WellFormed(o.kit)
    ensures forall i | n <= i < NumPads :: o.kit.slots[i] == k.slots[i]
    ensures o.kit.shared.pedal == k.shared.pedal && o.kit.shared.lastPedal == k.shared.lastPedal
  {
    if n == 0 then Outcome(k, [])
    else
      var o := RunSingles(v, k, ins, n - 1);
      var o' := SingleAt(v, o.kit, n - 1, ins.analog[n - 1], ins.clock[n - 1]);
      Outcome(o'.kit, o.events + o'.events)
  }

  /** The primary channel of the n-th dual-zone iteration (n = 0, 1, 2). */
  function DualIndex(n: nat): DualPad
    requires n < 3
  {
    SnarePad + 2 * n
  }

  /** The first `n` iterations of the dual-zone loop: they touch no single-zone slot and no
      channel of a later pair, and leave the pedal variables alone. */
  function RunDuals(v: Variant, k: Kit, ins: Inputs, n: nat): (o: Outcome)
    requires WellFormed(k) && Complete(ins) && n <= 3
    ensures WellFormed(o.kit)
    ensures forall i | 0 <= i < SnarePad :: o.kit.slots[i] == k.slots[i]
    ensures forall i | SnarePad + 2 * n <= i < NumPads :: o.kit.slots[i] == k.slots[i]
    ensures o.kit.shared.pedal == k.shared.pedal && o.kit.shared.lastPedal == k.shared.lastPedal
  {
    if n == 0 then Outcome(k, [])
    else
      var o := RunDuals(v, k, ins, n - 1);
      var j := DualIndex(n - 1);
      var o' := DualAt(v, o.kit, j, ins.analog[j], ins.analog[j + 1], ins.choke[j], ins.clock[j]);
      Outcome(o'.kit, o.events + o'.events)
  }

  /** One whole pass of `loop()`: pedal poll, the single-zone loop, the dual-zone loop. After it
      both pedal variables hold the level this pass read. */
  function LoopSpec(v: Variant, k: Kit, ins: Inputs): (o: Outcome)
    requires WellFormed(k) && Complete(ins)
    ensures WellFormed(o.kit)
    ensures o.kit.shared.pedal == ins.pedal && o.kit.shared.lastPedal == ins.pedal
  {
    var o0 := PedalAt(k, ins.pedal);
    var o1 := RunSingles(v, o0.kit, ins, 5);
    var o2 := RunDuals(v, o1.kit, ins, 3);
    Outcome(o2.kit, o0.events + o1.events + o2.events)
  }

  /** Consecutive passes of `loop()`, one per element of `tape`. After at least one pass the
      pedal variables hold the level the last pass read. */
  function Run(v: Variant, k: Kit, tape: seq<Inputs>): (o: Outcome)
    requires WellFormed(k)
    requires forall t | 0 <= t < |tape| :: Complete(tape[t])
    ensures WellFormed(o.kit)
    ensures tape != [] ==>
      o.kit.shared.pedal == tape[|tape| - 1].pedal && o.kit.shared.lastPedal == tape[|tape| - 1].pedal
    decreases |tape|
  {
    if tape == [] then Outcome(k, [])
    else
      var o := LoopSpec(v, k, tape[0]);
      var o' := Run(v, o.kit, tape[1..]);
      Outcome(o'.kit, o.events + o'.events)
  }
}
