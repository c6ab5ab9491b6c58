/** What the pad state machine guarantees over whole runs: an invariant of every state reached
    from `setup()`, and the consequences the firmware relies on (no pad ever waits for a choke,
    the false-positive branch of a single-zone pad is dead, the open and closed hi-hat never
    sound together). */
module Properties {
  import opened ArduinoMath
  import opened Config
  import opened Midi
  import opened Strike
  import opened PadMachine

  /** The open and the closed hi-hat note are never flagged as sounding at the same time. */
  predicate HatExclusive(playing: set<int>)
  {
    !(HatClosedNote in playing && HatOpenNote in playing)
  }

  /** A single-zone pad never waits for a choke, and while it looks for a peak the peak it
      holds is above the pad's threshold. */
  predicate SingleOk(j: SinglePad, p: Slot)
  {
    p.state != ChokeConfirmation && (p.state == PeakDetection ==> p.peak > Threshold(j))
  }

  /** A dual-zone pair never waits for a choke, its secondary channel stays IDLE (only the
      primary's state changes), and while it looks for a peak one of its peaks is above that
      channel's threshold. */
  predicate DualOk(j: DualPad, p: Slot, s: Slot)
  {
    && p.state != ChokeConfirmation
    && s.state == Idle
    && (p.state == PeakDetection ==> p.peak > Threshold(j) || s.peak > Threshold(j + 1))
  }

  /** The invariant of every state reachable from `setup()`. */
  predicate Inv(k: Kit)
  {
    && WellFormed(k)
    && (forall j: int | 0 <= j <= 4 :: SingleOk(j, k.slots[j]))
    && DualOk(5, k.slots[5], k.slots[6])
    && DualOk(7, k.slots[7], k.slots[8])
    && DualOk(9, k.slots[9], k.slots[10])
    && HatExclusive(k.shared.playing)
  }

  /** Events that name neither hi-hat note leave both hi-hat flags as they were. */
  lemma {:induction false} SoundKeepsHat(playing: set<int>, es: seq<Event>)
    requires forall i | 0 <= i < |es| :: es[i].note != HatClosedNote && es[i].note != HatOpenNote
    ensures HatClosedNote in Sound(playing, es) <==> HatClosedNote in playing
    ensures HatOpenNote in Sound(playing, es) <==> HatOpenNote in playing
  {
    SoundKeepsOthers(playing, es, HatClosedNote);
    SoundKeepsOthers(playing, es, HatOpenNote);
  }

  /** A strike of a single-zone pad leaves the hi-hat notes exclusive: the hi-hat strike turns
      the other variant off, every other pad's note is not a hi-hat note. */
  lemma {:induction false} SingleEmitKeepsHat(j: SinglePad, sh: Shared, velocity: int)
    requires HatExclusive(sh.playing)
    ensures HatExclusive(Sound(sh.playing, SingleEmit(j, sh, velocity)))
  {
    if j == HiHatPad {
      HatStrikeSound(sh.pedal, sh.playing, velocity);
    } else {
      SoundKeepsHat(sh.playing, SingleEmit(j, sh, velocity));
    }
  }

  /** No dual-zone strike names a hi-hat note. */
  lemma DualEmitNotHat(j: DualPad, primary: Reading, secondary: Reading, vp: int, vs: int)
    ensures var es := DualEmit(j, primary, secondary, vp, vs);
      forall i | 0 <= i < |es| :: es[i].note != HatClosedNote && es[i].note != HatOpenNote
  {
  }

  /** One tick of a single-zone pad keeps its part of the invariant. */
  lemma {:induction false} SingleStepKeeps(v: Variant, j: SinglePad, p: Slot, sh: Shared, reading: Reading, now: Time)
    requires SingleOk(j, p) && HatExclusive(sh.playing)
    ensures SingleOk(j, SingleStep(v, j, p, sh, reading, now).slot)
    ensures HatExclusive(SingleStep(v, j, p, sh, reading, now).shared.playing)
  {
    if p.state == PeakDetection && Elapsed(now, p.since) >= PeakDetectionWindowMs && p.peak > Threshold(j) {
      var velocity := Velocity(j, p.peak);
      if !IsCrosstalk(velocity, now, sh.lastHigh) {
        SingleEmitKeepsHat(j, sh, velocity);
      }
    }
  }

  /** One tick of a dual-zone pair keeps its part of the invariant. */
  lemma {:induction false} DualStepKeeps(v: Variant, j: DualPad, p: Slot, s: Slot, sh: Shared,
                                         rp: Reading, rs: Reading, cr: ChokeReads, now: Time)
    requires DualOk(j, p, s) && HatExclusive(sh.playing)
    ensures var r := DualStepOf(v, j, p, s, sh, rp, rs, cr, now);
      DualOk(j, r.primary, r.secondary) && HatExclusive(r.shared.playing)
  {
    var r := DualStepOf(v, j, p, s, sh, rp, rs, cr, now);
    if p.state == PeakDetection {
      assert r == DualPeakStep(j, p, s, sh, rp, rs, now);
      DualPeakKeeps(j, p, s, sh, rp, rs, now);
    } else {
      assert Threshold(j + 1) <= Threshold(j);
      assert r.shared == sh;
    }
  }

  /** The end of a dual-zone peak-detection window keeps the invariant: a strike either is
      discarded or goes to SILENT_DEBOUNCE, and its events never name a hi-hat note. */
  lemma {:induction false} DualPeakKeeps(j: DualPad, p: Slot, s: Slot, sh: Shared, rp: Reading, rs: Reading, now: Time)
    requires p.state == PeakDetection && DualOk(j, p, s) && HatExclusive(sh.playing)
    ensures var r := DualPeakStep(j, p, s, sh, rp, rs, now);
      DualOk(j, r.primary, r.secondary) && HatExclusive(r.shared.playing)
  {
    if Elapsed(now, p.since) >= PeakDetectionWindowMs && !(p.peak <= Threshold(j) && s.peak <= Threshold(j + 1)) {
      var vp, vs := Velocity(j, p.peak), Velocity(j + 1, s.peak);
      if !IsCrosstalk(Max(vs, vp), now, sh.lastHigh) {
        DualEmitNotHat(j, p.peak, s.peak, vp, vs);
        SoundKeepsHat(sh.playing, DualEmit(j, p.peak, s.peak, vp, vs));
      }
    }
  }

  /** The pedal poll changes no slot and keeps the hi-hat notes exclusive: a change to LOW turns
      the open note off, a change to HIGH the closed one. */
  lemma {:induction false} PedalAtKeeps(k: Kit, level: Level)
    requires Inv(k)
    ensures Inv(PedalAt(k, level).kit)
  {
    PedalEdgeSound(level, k.shared.lastPedal, k.shared.playing);
  }

  /** Pad j's single-zone tick keeps the invariant of the whole state. */
  lemma {:induction false} SingleAtKeeps(v: Variant, k: Kit, j: SinglePad, reading: Reading, now: Time)
    requires Inv(k)
    ensures Inv(SingleAt(v, k, j, reading, now).kit)
  {
    SingleStepKeeps(v, j, k.slots[j], k.shared, reading, now);
    var k' := SingleAt(v, k, j, reading, now).kit;
    forall i: int | 0 <= i <= 4
      ensures SingleOk(i, k'.slots[i])
    {
      if i != j {
        assert k'.slots[i] == k.slots[i];
      }
    }
  }

  /** Pair j's dual-zone tick keeps the invariant of the whole state. */
  lemma {:induction false} DualAtKeeps(v: Variant, k: Kit, j: DualPad, rp: Reading, rs: Reading, cr: ChokeReads, now: Time)
    requires Inv(k)
    ensures Inv(DualAt(v, k, j, rp, rs, cr, now).kit)
  {
    DualStepKeeps(v, j, k.slots[j], k.slots[j + 1], k.shared, rp, rs, cr, now);
    var k' := DualAt(v, k, j, rp, rs, cr, now).kit;
    forall i: int | 0 <= i <= 4
      ensures SingleOk(i, k'.slots[i])
    {
      assert k'.slots[i] == k.slots[i];
    }
  }

  lemma {:induction false} RunSinglesKeeps(v: Variant, k: Kit, ins: Inputs, n: nat)
    requires Inv(k) && Complete(ins) && n <= 5
    ensures Inv(RunSingles(v, k, ins, n).kit)
  {
    if n > 0 {
      RunSinglesKeeps(v, k, ins, n - 1);
      var o := RunSingles(v, k, ins, n - 1);
      SingleAtKeeps(v, o.kit, n - 1, ins.analog[n - 1], ins.clock[n - 1]);
    }
  }

  lemma {:induction false} RunDualsKeeps(v: Variant, k: Kit, ins: Inputs, n: nat)
    requires Inv(k) && Complete(ins) && n <= 3
    ensures Inv(RunDuals(v, k, ins, n).kit)
  {
    if n > 0 {
      RunDualsKeeps(v, k, ins, n - 1);
      var o := RunDuals(v, k, ins, n - 1);
      var j := DualIndex(n - 1);
      DualAtKeeps(v, o.kit, j, ins.analog[j], ins.analog[j + 1], ins.choke[j], ins.clock[j]);
    }
  }

  /** A whole pass of `loop()` keeps the invariant. */
  lemma {:induction false} LoopKeeps(v: Variant, k: Kit, ins: Inputs)
    requires Inv(k) && Complete(ins)
    ensures Inv(LoopSpec(v, k, ins).kit)
  {
    var o0 := PedalAt(k, ins.pedal);
    PedalAtKeeps(k, ins.pedal);
    var o1 := RunSingles(v, o0.kit, ins, 5);
    RunSinglesKeeps(v, o0.kit, ins, 5);
    RunDualsKeeps(v, o1.kit, ins, 3);
  }

  /** `setup()` establishes the invariant. */
  lemma InitInv()
    ensures Inv(Init())
  {
  }

  /** Every state reached from a state satisfying the invariant satisfies it. */
  lemma {:induction false} RunKeeps(v: Variant, k: Kit, tape: seq<Inputs>)
    requires Inv(k)
    requires forall t | 0 <= t < |tape| :: Complete(tape[t])
    ensures Inv(Run(v, k, tape).kit)
    decreases |tape|
  {
    if tape != [] {
      LoopKeeps(v, k, tape[0]);
      RunKeeps(v, LoopSpec(v, k, tape[0]).kit, tape[1..]);
    }
  }

  /** Because the transition into CHOKE_CONFIRMATION is commented out in every variant, no pad
      of a state reached from `setup()` is ever in that state, whatever the readings and times. */
  lemma ChokeNeverEntered(v: Variant, tape: seq<Inputs>)
    requires forall t | 0 <= t < |tape| :: Complete(tape[t])
    ensures forall j | 0 <= j < NumPads :: Run(v, Init(), tape).kit.slots[j].state != ChokeConfirmation
  {
    InitInv();
    RunKeeps(v, Init(), tape);
    var k := Run(v, Init(), tape).kit;
    forall j | 0 <= j < NumPads
      ensures k.slots[j].state != ChokeConfirmation
    {
      if j <= 4 {
        assert SingleOk(j, k.slots[j]);
      } else if j % 2 == 1 {
        assert DualOk(j, k.slots[j], k.slots[j + 1]);
      } else {
        assert DualOk(j - 1, k.slots[j - 1], k.slots[j]);
      }
    }
  }

  /** In a state reached from `setup()`, a pad looking for a peak holds one above its
      threshold, so the false-positive return to IDLE at the end of the window never happens:
      for a single-zone pad its own peak, for a dual-zone pair the peak of one of its channels. */
  lemma FalsePositiveUnreachable(v: Variant, tape: seq<Inputs>)
    requires forall t | 0 <= t < |tape| :: Complete(tape[t])
    ensures var k := Run(v, Init(), tape).kit;
      && (forall j: int | 0 <= j <= 4 && k.slots[j].state == PeakDetection :: k.slots[j].peak > Threshold(j))
      && (forall j: DualPad | k.slots[j].state == PeakDetection ::
            k.slots[j].peak > Threshold(j) || k.slots[j + 1].peak > Threshold(j + 1))
  {
    InitInv();
    RunKeeps(v, Init(), tape);
    var k := Run(v, Init(), tape).kit;
    assert forall j: int | 0 <= j <= 4 :: SingleOk(j, k.slots[j]);
  }

  /** In a state reached from `setup()` the open and closed hi-hat notes never sound together. */
  lemma HatNeverBoth(v: Variant, tape: seq<Inputs>)
    requires forall t | 0 <= t < |tape| :: Complete(tape[t])
    ensures !(HatClosedNote in Run(v, Init(), tape).kit.shared.playing
              && HatOpenNote in Run(v, Init(), tape).kit.shared.playing)
  {
    InitInv();
    RunKeeps(v, Init(), tape);
  }

  // ---------------------------------------------------------------- flags and messages

  /** The flags of a single-zone tick are those its events leave. */
  lemma SingleFlags(v: Variant, j: SinglePad, p: Slot, sh: Shared, reading: Reading, now: Time)
    ensures var st := SingleStep(v, j, p, sh, reading, now);
      st.shared.playing == Sound(sh.playing, st.events)
  {
  }

  /** The flags of a dual-zone tick are those its events leave. */
  lemma DualFlags(v: Variant, j: DualPad, p: Slot, s: Slot, sh: Shared, rp: Reading, rs: Reading, cr: ChokeReads, now: Time)
    ensures var r := DualStepOf(v, j, p, s, sh, rp, rs, cr, now);
      r.shared.playing == Sound(sh.playing, r.events)
  {
  }

  lemma {:induction false} RunSinglesFlags(v: Variant, k: Kit, ins: Inputs, n: nat)
    requires WellFormed(k) && Complete(ins) && n <= 5
    ensures RunSingles(v, k, ins, n).kit.shared.playing == Sound(k.shared.playing, RunSingles(v, k, ins, n).events)
  {
    if n > 0 {
      RunSinglesFlags(v, k, ins, n - 1);
      var o := RunSingles(v, k, ins, n - 1);
      var o' := SingleAt(v, o.kit, n - 1, ins.analog[n - 1], ins.clock[n - 1]);
      SingleFlags(v, n - 1, o.kit.slots[n - 1], o.kit.shared, ins.analog[n - 1], ins.clock[n - 1]);
      SoundAppend(k.shared.playing, o.events, o'.events);
    }
  }

  lemma {:induction false} RunDualsFlags(v: Variant, k: Kit, ins: Inputs, n: nat)
    requires WellFormed(k) && Complete(ins) && n <= 3
    ensures RunDuals(v, k, ins, n).kit.shared.playing == Sound(k.shared.playing, RunDuals(v, k, ins, n).events)
  {
    if n > 0 {
      RunDualsFlags(v, k, ins, n - 1);
      var o := RunDuals(v, k, ins, n - 1);
      var j := DualIndex(n - 1);
      var o' := DualAt(v, o.kit, j, ins.analog[j], ins.analog[j + 1], ins.choke[j], ins.clock[j]);
      DualFlags(v, j, o.kit.slots[j], o.kit.slots[j + 1], o.kit.shared, ins.analog[j], ins.analog[j + 1], ins.choke[j], ins.clock[j]);
      SoundAppend(k.shared.playing, o.events, o'.events);
    }
  }

  /** After a whole pass of `loop()` the "...Playing" flags are exactly what the Note On and
      Note Off messages sent during the pass leave of the flags before it. */
  lemma {:induction false} LoopFlags(v: Variant, k: Kit, ins: Inputs)
    requires WellFormed(k) && Complete(ins)
    ensures LoopSpec(v, k, ins).kit.shared.playing == Sound(k.shared.playing, LoopSpec(v, k, ins).events)
  {
    var o0 := PedalAt(k, ins.pedal);
    var o1 := RunSingles(v, o0.kit, ins, 5);
    var o2 := RunDuals(v, o1.kit, ins, 3);
    RunSinglesFlags(v, o0.kit, ins, 5);
    RunDualsFlags(v, o1.kit, ins, 3);
    SoundAppend(k.shared.playing, o0.events, o1.events);
    SoundAppend(k.shared.playing, o0.events + o1.events, o2.events);
  }

  /** From `setup()` on, the flags are the result of all messages ever sent. */
  lemma {:induction false} RunFlags(v: Variant, k: Kit, tape: seq<Inputs>)
    requires WellFormed(k)
    requires forall t | 0 <= t < |tape| :: Complete(tape[t])
    ensures Run(v, k, tape).kit.shared.playing == Sound(k.shared.playing, Run(v, k, tape).events)
    decreases |tape|
  {
    if tape != [] {
      var o := LoopSpec(v, k, tape[0]);
      LoopFlags(v, k, tape[0]);
      RunFlags(v, o.kit, tape[1..]);
      SoundAppend(k.shared.playing, o.events, Run(v, o.kit, tape[1..]).events);
    }
  }

  /** Every event has note and velocity in 0..127. */
  predicate AllValid(es: seq<Event>)
  {
    forall i | 0 <= i < |es| :: DataBytesValid(es[i])
  }

  lemma {:induction false} SingleValid(v: Variant, j: SinglePad, p: Slot, sh: Shared, reading: Reading, now: Time)
    ensures AllValid(SingleStep(v, j, p, sh, reading, now).events)
  {
    if p.state == PeakDetection && j == HiHatPad {
      var velocity := Velocity(j, p.peak);
      var es := HatStrike(sh.pedal, sh.playing, velocity);
      assert forall i | 0 <= i < |es| :: es[i].velocity == velocity || es[i].velocity == 0;
    }
  }

  lemma DualValid(v: Variant, j: DualPad, p: Slot, s: Slot, sh: Shared, rp: Reading, rs: Reading, cr: ChokeReads, now: Time)
    ensures AllValid(DualStepOf(v, j, p, s, sh, rp, rs, cr, now).events)
  {
    var r := DualStepOf(v, j, p, s, sh, rp, rs, cr, now);
    if p.state == PeakDetection {
      assert r == DualPeakStep(j, p, s, sh, rp, rs, now);
      if Elapsed(now, p.since) >= PeakDetectionWindowMs && !(p.peak <= Threshold(j) && s.peak <= Threshold(j + 1)) {
        var vp, vs := Velocity(j, p.peak), Velocity(j + 1, s.peak);
        if !IsCrosstalk(Max(vs, vp), now, sh.lastHigh) {
          assert r.events == DualEmit(j, p.peak, s.peak, vp, vs);
          DualEmitValid(j, p.peak, s.peak, vp, vs);
        }
      }
    } else if p.state == ChokeConfirmation && IsCymbal(j) {
      assert r.events == [] || r.events == [NoteOff(MidiNote(j), 0), NoteOff(MidiNote(j + 1), 0)];
    } else {
      assert r.events == [];
    }
  }

  /** The events of a validated dual-zone strike carry data values when its velocities do. */
  lemma DualEmitValid(j: DualPad, primary: Reading, secondary: Reading, vp: int, vs: int)
    requires MinVelocity <= vp <= MaxVelocity && MinVelocity <= vs <= MaxVelocity
    ensures AllValid(DualEmit(j, primary, secondary, vp, vs))
  {
  }

  lemma {:induction false} LoopValid(v: Variant, k: Kit, ins: Inputs)
    requires WellFormed(k) && Complete(ins)
    ensures AllValid(LoopSpec(v, k, ins).events)
  {
    var o0 := PedalAt(k, ins.pedal);
    var o1 := RunSingles(v, o0.kit, ins, 5);
    var o2 := RunDuals(v, o1.kit, ins, 3);
    RunSinglesValid(v, o0.kit, ins, 5);
    RunDualsValid(v, o1.kit, ins, 3);
    assert AllValid(o0.events);
  }

  lemma {:induction false} RunSinglesValid(v: Variant, k: Kit, ins: Inputs, n: nat)
    requires WellFormed(k) && Complete(ins) && n <= 5
    ensures AllValid(RunSingles(v, k, ins, n).events)
  {
    if n > 0 {
      RunSinglesValid(v, k, ins, n - 1);
      var o := RunSingles(v, k, ins, n - 1);
      SingleValid(v, n - 1, o.kit.slots[n - 1], o.kit.shared, ins.analog[n - 1], ins.clock[n - 1]);
    }
  }

  lemma {:induction false} RunDualsValid(v: Variant, k: Kit, ins: Inputs, n: nat)
    requires WellFormed(k) && Complete(ins) && n <= 3
    ensures AllValid(RunDuals(v, k, ins, n).events)
  {
    if n > 0 {
      RunDualsValid(v, k, ins, n - 1);
      var o := RunDuals(v, k, ins, n - 1);
      var j := DualIndex(n - 1);
      DualValid(v, j, o.kit.slots[j], o.kit.slots[j + 1], o.kit.shared, ins.analog[j], ins.analog[j + 1], ins.choke[j], ins.clock[j]);
    }
  }

  /** Every message the firmware ever sends carries a note and a velocity in 0..127, so a
      receiver decodes each one back into the event that produced it. */
  lemma {:induction false} RunDecodes(v: Variant, k: Kit, tape: seq<Inputs>)
    requires WellFormed(k)
    requires forall t | 0 <= t < |tape| :: Complete(tape[t])
    ensures var es := Run(v, k, tape).events;
      forall i | 0 <= i < |es| :: Decode(WireAll(es)[i]) == Some(es[i])
  {
    RunValid(v, k, tape);
    var es := Run(v, k, tape).events;
    forall i | 0 <= i < |es|
      ensures Decode(WireAll(es)[i]) == Some(es[i])
    {
      WireRoundTrip(es[i]);
    }
  }

  lemma {:induction false} RunValid(v: Variant, k: Kit, tape: seq<Inputs>)
    requires WellFormed(k)
    requires forall t | 0 <= t < |tape| :: Complete(tape[t])
    ensures AllValid(Run(v, k, tape).events)
    decreases |tape|
  {
    if tape != [] {
      LoopValid(v, k, tape[0]);
      RunValid(v, LoopSpec(v, k, tape[0]).kit, tape[1..]);
    }
  }
}
