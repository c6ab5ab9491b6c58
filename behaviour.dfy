/** What one tick of a pad does in each state, stated as the code computes it:
    peak hold, false positives, crosstalk, emission, debounce, retrigger, choke handling. */
module Behaviour {
  import opened ArduinoMath
  import opened Config
  import opened Midi
  import opened Strike
  import opened PadMachine

  // ---------------------------------------------------------------- single-zone pads

  /** IDLE: a reading above the threshold starts peak detection now, with the reading as the
      first peak; anything else changes nothing. Nothing is sent. */
  lemma SingleIdle(v: Variant, j: SinglePad, p: Slot, sh: Shared, reading: Reading, now: Time)
    requires p.state == Idle
    ensures var st := SingleStep(v, j, p, sh, reading, now);
      && st.events == [] && st.shared == sh
      && (st.slot.state == PeakDetection <==> reading > Threshold(j))
      && (reading > Threshold(j) ==> st.slot.since == now && st.slot.peak == reading)
      && (reading <= Threshold(j) ==> st.slot == p)
  {
  }

  /** PEAK_DETECTION inside the 7 ms window: the held peak becomes the larger of itself and the
      reading, so it never decreases; nothing else changes and nothing is sent. */
  lemma SinglePeakHold(v: Variant, j: SinglePad, p: Slot, sh: Shared, reading: Reading, now: Time)
    requires p.state == PeakDetection && Elapsed(now, p.since) < PeakDetectionWindowMs
    ensures var st := SingleStep(v, j, p, sh, reading, now);
      && st.events == [] && st.shared == sh
      && st.slot.peak >= p.peak && st.slot.peak >= reading
      && (st.slot.peak == p.peak || st.slot.peak == reading)
      && st.slot == p.(peak := st.slot.peak)
  {
  }

  /** End of the window with a peak at or below the threshold: back to IDLE, nothing sent and
      the crosstalk timestamp untouched. */
  lemma SingleFalsePositive(v: Variant, j: SinglePad, p: Slot, sh: Shared, reading: Reading, now: Time)
    requires p.state == PeakDetection && Elapsed(now, p.since) >= PeakDetectionWindowMs
    requires p.peak <= Threshold(j)
    ensures var st := SingleStep(v, j, p, sh, reading, now);
      st.slot == p.(state := Idle) && st.events == [] && st.shared == sh
  {
  }

  /** A weak strike (velocity below 29) less than 130 ms after the last strong one is taken for
      crosstalk: back to IDLE, nothing sent, nothing else changed. */
  lemma SingleCrosstalkDiscarded(v: Variant, j: SinglePad, p: Slot, sh: Shared, reading: Reading, now: Time)
    requires p.state == PeakDetection && Elapsed(now, p.since) >= PeakDetectionWindowMs
    requires p.peak > Threshold(j)
    requires Velocity(j, p.peak) < LowVelocityDiscard && Elapsed(now, sh.lastHigh) < CrosstalkWindowMs
    ensures var st := SingleStep(v, j, p, sh, reading, now);
      st.slot == p.(state := Idle) && st.events == [] && st.shared == sh
  {
  }

  /** A validated strike that is not crosstalk sends exactly one Note On, with the velocity of
      its peak (in 10..127): the closed hi-hat with the pedal down, the open one with the pedal up, the pad's
      own note otherwise. The pad enters SILENT_DEBOUNCE now, keeps its peak and starts its
      retrigger threshold from the peak. The crosstalk timestamp moves to now exactly when the
      velocity is above 115 on a pad whose note is above 36; the pedal is untouched. */
  lemma {:induction false} SingleEmission(v: Variant, j: SinglePad, p: Slot, sh: Shared, reading: Reading, now: Time)
    requires p.state == PeakDetection && Elapsed(now, p.since) >= PeakDetectionWindowMs
    requires p.peak > Threshold(j) && !IsCrosstalk(Velocity(j, p.peak), now, sh.lastHigh)
    ensures var st := SingleStep(v, j, p, sh, reading, now);
      var note := if j != HiHatPad then MidiNote(j) else if sh.pedal == Low then HatClosedNote else HatOpenNote;
      && OnCount(st.events) == 1
      && st.events[0].NoteOn? && st.events[0].note == note
      && st.events[0].velocity == Velocity(j, p.peak)
      && MinVelocity <= st.events[0].velocity <= MaxVelocity
      && st.slot == Slot(SilentDebounce, now, p.peak, RetriggerStart(j, p.peak))
      && (st.shared.lastHigh == if st.events[0].velocity > HighVelocityThreshold && note > 36 then now else sh.lastHigh)
      && st.shared.pedal == sh.pedal && st.shared.lastPedal == sh.lastPedal
  {
    var velocity := Velocity(j, p.peak);
    var es := SingleEmit(j, sh, velocity);
    if j != HiHatPad {
      ShortSequences(sh.playing, NoteOn(MidiNote(j), velocity), NoteOn(MidiNote(j), velocity));
    }
    assert es[0] == NoteOn(if j != HiHatPad then MidiNote(j) else if sh.pedal == Low then HatClosedNote else HatOpenNote, velocity);
  }

  /** The bass drum (note 36) never opens a crosstalk window, whatever it reads. */
  lemma KickNeverArms(v: Variant, p: Slot, sh: Shared, reading: Reading, now: Time)
    ensures SingleStep(v, KickPad, p, sh, reading, now).shared.lastHigh == sh.lastHigh
  {
  }

  /** SILENT_DEBOUNCE: before 30 ms have passed nothing changes and nothing is sent; from then
      on the pad moves to REPIQUE_CHECK, timed from now, still sending nothing. */
  lemma SingleDebounce(v: Variant, j: SinglePad, p: Slot, sh: Shared, reading: Reading, now: Time)
    requires p.state == SilentDebounce
    ensures var st := SingleStep(v, j, p, sh, reading, now);
      && st.events == [] && st.shared == sh
      && (Elapsed(now, p.since) < SilentDebounceMs ==> st.slot == p)
      && (Elapsed(now, p.since) >= SilentDebounceMs ==> st.slot == p.(state := RepiqueCheck, since := now))
  {
  }

  /** Consecutive ticks of one single-zone pad, given the reading and the `millis()` value of
      each tick; the shared state is the one the pad itself leaves behind. */
  function Ticks(v: Variant, j: SinglePad, p: Slot, sh: Shared, readings: seq<Reading>, times: seq<Time>): Step
    requires |readings| == |times|
    decreases |times|
  {
    if times == [] then Step(p, sh, [])
    else
      var st := SingleStep(v, j, p, sh, readings[0], times[0]);
      var rest := Ticks(v, j, st.slot, st.shared, readings[1..], times[1..]);
      Step(rest.slot, rest.shared, st.events + rest.events)
  }

  /** However many ticks fall less than 30 ms after a pad entered SILENT_DEBOUNCE, and whatever
      they read, the pad stays where it is and sends nothing: no second Note On comes from a
      pad within 30 ms of its emission. */
  lemma {:induction false} NoRetriggerWithinDebounce(v: Variant, j: SinglePad, p: Slot, sh: Shared,
                                                     readings: seq<Reading>, times: seq<Time>)
    requires p.state == SilentDebounce && |readings| == |times|
    requires forall t | 0 <= t < |times| :: Elapsed(times[t], p.since) < SilentDebounceMs
    ensures Ticks(v, j, p, sh, readings, times) == Step(p, sh, [])
    decreases |times|
  {
    if times != [] {
      SingleDebounce(v, j, p, sh, readings[0], times[0]);
      NoRetriggerWithinDebounce(v, j, p, sh, readings[1..], times[1..]);
    }
  }

  /** REPIQUE_CHECK after 180 ms: back to IDLE with the peak untouched, nothing sent. */
  lemma SingleRepiqueExpired(v: Variant, j: SinglePad, p: Slot, sh: Shared, reading: Reading, now: Time)
    requires p.state == RepiqueCheck && Elapsed(now, p.since) >= RepiqueCheckMs
    ensures var st := SingleStep(v, j, p, sh, reading, now);
      st.slot == p.(state := Idle) && st.events == [] && st.shared == sh
  {
  }

  /** REPIQUE_CHECK within 180 ms: a reading above the decaying threshold is a new strike (peak
      detection from now, the reading as the peak, which is then above 1.5 times the pad's
      threshold); otherwise nothing changes. Nothing is sent either way. */
  lemma SingleRepique(v: Variant, j: SinglePad, p: Slot, sh: Shared, reading: Reading, now: Time)
    requires p.state == RepiqueCheck && Elapsed(now, p.since) < RepiqueCheckMs
    ensures var st := SingleStep(v, j, p, sh, reading, now);
      var retrigger := reading > DecayThreshold(j, p.decay, Elapsed(now, p.since));
      && st.events == [] && st.shared == sh
      && (retrigger ==> st.slot == Slot(PeakDetection, now, reading, p.decay)
                        && st.slot.peak > OneAndHalf(Threshold(j)))
      && (!retrigger ==> st.slot == p)
  {
  }

  /** A single-zone pad found in CHOKE_CONFIRMATION: main.c (and oldscope.c) reset it to IDLE,
      code_with_comments.c has no case for it and leaves it. Nothing is sent. */
  lemma SingleChoke(v: Variant, j: SinglePad, p: Slot, sh: Shared, reading: Reading, now: Time)
    requires p.state == ChokeConfirmation
    ensures var st := SingleStep(v, j, p, sh, reading, now);
      && st.events == [] && st.shared == sh
      && st.slot == (if v == Main then p.(state := Idle) else p)
  {
  }

  /** Tom 1 (threshold 230, note 43) holding a peak of 500 at the end of its window, outside
      any crosstalk window, sends Note On 43 with velocity 49. */
  lemma Tom1Example(v: Variant, p: Slot, sh: Shared, reading: Reading, now: Time)
    requires p.state == PeakDetection && p.peak == 500 && Elapsed(now, p.since) >= PeakDetectionWindowMs
    requires Elapsed(now, sh.lastHigh) >= CrosstalkWindowMs
    ensures SingleStep(v, Tom1Pad, p, sh, reading, now).events == [NoteOn(43, 49)]
  {
    Tom1Velocity();
  }

  // ---------------------------------------------------------------- dual-zone pairs

  /** IDLE: a reading above its own channel's threshold on either channel starts peak detection
      now, both readings becoming the first peaks; nothing is sent. */
  lemma DualIdle(v: Variant, j: DualPad, p: Slot, s: Slot, sh: Shared, rp: Reading, rs: Reading, cr: ChokeReads, now: Time)
    requires p.state == Idle
    ensures var r := DualStepOf(v, j, p, s, sh, rp, rs, cr, now);
      var hit := rp > Threshold(j) || rs > Threshold(j + 1);
      && r.events == [] && r.shared == sh
      && (r.primary.state == PeakDetection <==> hit)
      && (hit ==> r.primary.since == now && r.primary.peak == rp && r.secondary.peak == rs)
      && (!hit ==> r.primary == p && r.secondary == s)
  {
  }

  /** PEAK_DETECTION inside the window: each channel's peak becomes the larger of itself and its
      reading, so neither decreases; nothing is sent. */
  lemma DualPeakHold(v: Variant, j: DualPad, p: Slot, s: Slot, sh: Shared, rp: Reading, rs: Reading, cr: ChokeReads, now: Time)
    requires p.state == PeakDetection && Elapsed(now, p.since) < PeakDetectionWindowMs
    ensures var r := DualStepOf(v, j, p, s, sh, rp, rs, cr, now);
      && r.events == [] && r.shared == sh
      && r.primary.peak >= p.peak && r.primary.peak >= rp && (r.primary.peak == p.peak || r.primary.peak == rp)
      && r.secondary.peak >= s.peak && r.secondary.peak >= rs && (r.secondary.peak == s.peak || r.secondary.peak == rs)
      && r.primary == p.(peak := r.primary.peak) && r.secondary == s.(peak := r.secondary.peak)
  {
  }

  /** End of the window with both peaks at or below their own thresholds: back to IDLE, nothing
      sent, the crosstalk timestamp untouched. */
  lemma DualFalsePositive(v: Variant, j: DualPad, p: Slot, s: Slot, sh: Shared, rp: Reading, rs: Reading, cr: ChokeReads, now: Time)
    requires p.state == PeakDetection && Elapsed(now, p.since) >= PeakDetectionWindowMs
    requires p.peak <= Threshold(j) && s.peak <= Threshold(j + 1)
    ensures var r := DualStepOf(v, j, p, s, sh, rp, rs, cr, now);
      r.primary == p.(state := Idle) && r.secondary == s && r.events == [] && r.shared == sh
  {
  }

  /** The crosstalk rule on the larger of the two velocities. */
  lemma DualCrosstalkDiscarded(v: Variant, j: DualPad, p: Slot, s: Slot, sh: Shared, rp: Reading, rs: Reading, cr: ChokeReads, now: Time)
    requires p.state == PeakDetection && Elapsed(now, p.since) >= PeakDetectionWindowMs
    requires p.peak > Threshold(j) || s.peak > Threshold(j + 1)
    requires Max(Velocity(j + 1, s.peak), Velocity(j, p.peak)) < LowVelocityDiscard
    requires Elapsed(now, sh.lastHigh) < CrosstalkWindowMs
    ensures var r := DualStepOf(v, j, p, s, sh, rp, rs, cr, now);
      r.primary == p.(state := Idle) && r.secondary == s && r.events == [] && r.shared == sh
  {
  }

  /** A validated dual-zone strike that is not crosstalk: the pair enters SILENT_DEBOUNCE now
      (never CHOKE_CONFIRMATION, even for a choke candidate) and both channels start their
      retrigger threshold from the larger of the two peaks. The crosstalk timestamp moves to now
      exactly when the larger velocity is above 115 (every pair note is above 36). The events
      are the snare or cymbal routing of the two peaks and their velocities, so the rim/skin and
      bell/bow choices and the velocities sent are those `SnareRoute` and `CymbalRoute` state.
      A snare strike sends exactly one Note On, the rimshot exactly when the skin peak is above
      600 and the rim peak above 80. A cymbal strike whose bell peak is below 5% of its bow
      peak sends the Note Offs of bow and bell and no Note On; any other cymbal strike sends
      one Note On. */
  lemma {:induction false} DualEmission(v: Variant, j: DualPad, p: Slot, s: Slot, sh: Shared, rp: Reading, rs: Reading, cr: ChokeReads, now: Time)
    requires p.state == PeakDetection && Elapsed(now, p.since) >= PeakDetectionWindowMs
    requires p.peak > Threshold(j) || s.peak > Threshold(j + 1)
    requires !IsCrosstalk(Max(Velocity(j + 1, s.peak), Velocity(j, p.peak)), now, sh.lastHigh)
    ensures var r := DualStepOf(v, j, p, s, sh, rp, rs, cr, now);
      var start := RetriggerStart(j, MaxReading(p.peak, s.peak));
      && r.primary == Slot(SilentDebounce, now, p.peak, start)
      && r.secondary == s.(decay := start)
      && r.events == DualEmit(j, p.peak, s.peak, Velocity(j, p.peak), Velocity(j + 1, s.peak))
      && r.shared.lastHigh == (if Max(Velocity(j + 1, s.peak), Velocity(j, p.peak)) > HighVelocityThreshold then now else sh.lastHigh)
      && (j == SnarePad ==> |r.events| == 1 && OnCount(r.events) == 1
                            && (r.events[0].note == RimshotNote <==> p.peak > 600 && s.peak > 80))
      && (IsCymbal(j) && 20 * s.peak < p.peak ==>
            r.events == [NoteOff(MidiNote(j), 0), NoteOff(MidiNote(j + 1), 0)] && OnCount(r.events) == 0)
      && (IsCymbal(j) && !(20 * s.peak < p.peak) ==> |r.events| == 1 && OnCount(r.events) == 1)
  {
  }

  /** The crosstalk timestamp of a dual-zone tick moves only to now, and only after a strike
      whose larger velocity is above 115. */
  lemma DualArming(v: Variant, j: DualPad, p: Slot, s: Slot, sh: Shared, rp: Reading, rs: Reading, cr: ChokeReads, now: Time)
    ensures var r := DualStepOf(v, j, p, s, sh, rp, rs, cr, now);
      r.shared.lastHigh != sh.lastHigh ==>
        && r.shared.lastHigh == now && p.state == PeakDetection
        && Max(Velocity(j + 1, s.peak), Velocity(j, p.peak)) > HighVelocityThreshold
  {
    var r := DualStepOf(v, j, p, s, sh, rp, rs, cr, now);
    if p.state == PeakDetection {
      if Elapsed(now, p.since) >= PeakDetectionWindowMs && !(p.peak <= Threshold(j) && s.peak <= Threshold(j + 1)) {
        assert r == DualValidatedStep(j, p, s, sh, now);
      } else {
        assert r.shared == sh;
      }
    } else if p.state == ChokeConfirmation && IsCymbal(j) {
      assert r.shared.lastHigh == sh.lastHigh;
    } else {
      assert r.shared == sh;
    }
  }

  /** SILENT_DEBOUNCE of a pair: silent, and timed exactly like a single-zone pad. */
  lemma DualDebounce(v: Variant, j: DualPad, p: Slot, s: Slot, sh: Shared, rp: Reading, rs: Reading, cr: ChokeReads, now: Time)
    requires p.state == SilentDebounce
    ensures var r := DualStepOf(v, j, p, s, sh, rp, rs, cr, now);
      && r.events == [] && r.shared == sh && r.secondary == s
      && (Elapsed(now, p.since) < SilentDebounceMs ==> r.primary == p)
      && (Elapsed(now, p.since) >= SilentDebounceMs ==> r.primary == p.(state := RepiqueCheck, since := now))
  {
  }

  /** Consecutive ticks of one dual-zone pair, given both readings, the choke-handler reads
      and the `millis()` value of each tick; the shared state is the one the pair itself leaves
      behind. */
  function DualTicks(v: Variant, j: DualPad, p: Slot, s: Slot, sh: Shared, rps: seq<Reading>, rss: seq<Reading>,
                     crs: seq<ChokeReads>, times: seq<Time>): DualStep
    requires |rps| == |times| && |rss| == |times| && |crs| == |times|
    decreases |times|
  {
    if times == [] then DualStep(p, s, sh, [])
    else
      var st := DualStepOf(v, j, p, s, sh, rps[0], rss[0], crs[0], times[0]);
      var rest := DualTicks(v, j, st.primary, st.secondary, st.shared, rps[1..], rss[1..], crs[1..], times[1..]);
      DualStep(rest.primary, rest.secondary, rest.shared, st.events + rest.events)
  }

  /** However many ticks fall less than 30 ms after a pair entered SILENT_DEBOUNCE, and whatever
      either channel reads, the pair stays where it is and sends nothing: no second Note On
      comes from a pair within 30 ms of its emission. */
  lemma {:induction false} PairNoRetriggerWithinDebounce(v: Variant, j: DualPad, p: Slot, s: Slot, sh: Shared,
                                                         rps: seq<Reading>, rss: seq<Reading>,
                                                         crs: seq<ChokeReads>, times: seq<Time>)
    requires p.state == SilentDebounce && |rps| == |times| && |rss| == |times| && |crs| == |times|
    requires forall t | 0 <= t < |times| :: Elapsed(times[t], p.since) < SilentDebounceMs
    ensures DualTicks(v, j, p, s, sh, rps, rss, crs, times) == DualStep(p, s, sh, [])
    decreases |times|
  {
    if times != [] {
      DualDebounce(v, j, p, s, sh, rps[0], rss[0], crs[0], times[0]);
      PairNoRetriggerWithinDebounce(v, j, p, s, sh, rps[1..], rss[1..], crs[1..], times[1..]);
    }
  }

  /** REPIQUE_CHECK of a pair: IDLE after 180 ms with the peaks untouched; before that, the
      larger reading above the primary's decaying threshold starts peak detection with both
      readings as peaks. Nothing is sent. */
  lemma DualRepique(v: Variant, j: DualPad, p: Slot, s: Slot, sh: Shared, rp: Reading, rs: Reading, cr: ChokeReads, now: Time)
    requires p.state == RepiqueCheck
    ensures var r := DualStepOf(v, j, p, s, sh, rp, rs, cr, now);
      var elapsed := Elapsed(now, p.since);
      && r.events == [] && r.shared == sh
      && (elapsed >= RepiqueCheckMs ==> r.primary == p.(state := Idle) && r.secondary == s)
      && (elapsed < RepiqueCheckMs && MaxReading(rp, rs) > DecayThreshold(j, p.decay, elapsed) ==>
            r.primary == Slot(PeakDetection, now, rp, p.decay) && r.secondary == s.(peak := rs))
      && (elapsed < RepiqueCheckMs && MaxReading(rp, rs) <= DecayThreshold(j, p.decay, elapsed) ==>
            r.primary == p && r.secondary == s)
  {
  }

  /** The snare has no choke: found in CHOKE_CONFIRMATION it goes straight to IDLE with both
      peaks cleared, sending nothing. */
  lemma SnareChoke(v: Variant, p: Slot, s: Slot, sh: Shared, rp: Reading, rs: Reading, cr: ChokeReads, now: Time)
    requires p.state == ChokeConfirmation
    ensures var r := DualStepOf(v, SnarePad, p, s, sh, rp, rs, cr, now);
      r.primary == p.(state := Idle, peak := 0) && r.secondary == s.(peak := 0) && r.events == [] && r.shared == sh
  {
  }

  /** A cymbal in CHOKE_CONFIRMATION before 20 ms: peak hold on both channels, nothing sent. */
  lemma ChokeWaiting(v: Variant, j: DualPad, p: Slot, s: Slot, sh: Shared, rp: Reading, rs: Reading, cr: ChokeReads, now: Time)
    requires IsCymbal(j) && p.state == ChokeConfirmation && Elapsed(now, p.since) < ChokeConfirmationMs
    ensures var r := DualStepOf(v, j, p, s, sh, rp, rs, cr, now);
      && r.events == [] && r.shared == sh
      && r.primary == p.(peak := ChokeHeld(v, p.peak, cr.primaryTest, cr.primaryHeld))
      && r.secondary == s.(peak := ChokeHeld(v, s.peak, cr.secondaryTest, cr.secondaryHeld))
  {
  }

  /** A cymbal in CHOKE_CONFIRMATION once 20 ms have passed, with held peaks pp and ps: if the
      bell peak is below 5% of the bow peak or below 20 the choke is confirmed, both notes of
      the cymbal are turned off and the pad goes to IDLE; otherwise the pad goes back to peak
      detection when either peak is above its own threshold, else to IDLE, sending nothing.
      Both peaks are cleared in every case. */
  lemma ChokeExpiry(v: Variant, j: DualPad, p: Slot, s: Slot, sh: Shared, rp: Reading, rs: Reading, cr: ChokeReads, now: Time)
    requires IsCymbal(j) && p.state == ChokeConfirmation && Elapsed(now, p.since) >= ChokeConfirmationMs
    ensures var r := DualStepOf(v, j, p, s, sh, rp, rs, cr, now);
      var pp := ChokeHeld(v, p.peak, cr.primaryTest, cr.primaryHeld);
      var ps := ChokeHeld(v, s.peak, cr.secondaryTest, cr.secondaryHeld);
      var confirmed := 20 * ps < pp || ps < ChokeSecondaryFloor;
      && r.primary.peak == 0 && r.secondary.peak == 0
      && (confirmed ==> r.primary.state == Idle && r.events == [NoteOff(MidiNote(j), 0), NoteOff(MidiNote(j + 1), 0)])
      && (!confirmed ==> r.events == [] && r.shared == sh)
      && (!confirmed ==> (r.primary.state == PeakDetection <==> pp > Threshold(j) || ps > Threshold(j + 1)))
      && (r.primary.state == PeakDetection ==> r.primary.since == now)
  {
  }

  /** code_with_comments.c compares and stores the same read, so its choke peak hold never
      lowers a peak. */
  lemma ChokeHoldNeverDrops(peak: Reading, test: Reading, held: Reading)
    ensures ChokeHeld(WithComments, peak, test, held) >= peak
  {
  }

  /** main.c compares one `analogRead` with the held peak and stores another, so its peak hold
      can lower the peak: a test read of 200 against a peak of 100 followed by a stored read of
      50 leaves 50. */
  lemma MainChokeHoldCanDrop()
    ensures ChokeHeld(Main, 100, 200, 50) == 50
  {
  }
}
