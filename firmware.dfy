/** The firmware's global state and its procedures, `setup()`, `loop()`, `midiNoteOn` and
    `midiNoteOff`, as a class whose fields are the globals. `Serial.write` appends to the ghost
    field `out`; `analogRead`, `digitalRead` and `millis()` are parameters. Every method is
    proved to leave the state `PadMachine` prescribes and to write the bytes of the events it
    prescribes. */
module Firmware {
  import opened ArduinoMath
  import opened Config
  import opened Midi
  import opened Strike
  import opened PadMachine

  /** The per-pad arrays read side by side as slots. */
  function Zip(ps: seq<PadState>, ts: seq<Time>, pk: seq<Reading>, dc: seq<int>): (r: seq<Slot>)
    requires |ts| == |ps| && |pk| == |ps| && |dc| == |ps|
    ensures |r| == |ps|
    ensures forall i | 0 <= i < |ps| :: r[i] == Slot(ps[i], ts[i], pk[i], dc[i])
  {
    seq(|ps|, i requires 0 <= i < |ps| => Slot(ps[i], ts[i], pk[i], dc[i]))
  }

  /** The messages of two consecutive stages, written after those already sent. */
  lemma WireAllAppend2(w: seq<Message>, a: seq<Event>, b: seq<Event>)
    ensures w + WireAll(a) + WireAll(b) == w + WireAll(a + b)
  {
    WireAllAppend(a, b);
  }

  /** The messages of three consecutive stages, written after those already sent. */
  lemma WireAllAppend3(w: seq<Message>, a: seq<Event>, b: seq<Event>, c: seq<Event>)
    ensures w + WireAll(a) + WireAll(b) + WireAll(c) == w + WireAll(a + b + c)
  {
    WireAllAppend(a, b);
    WireAllAppend(a + b, c);
  }

  /** Four arrays that agree with older ones except at entries j and k hold the older slots
      with slots j and k replaced. */
  lemma ZipFrame(ps: seq<PadState>, ts: seq<Time>, pk: seq<Reading>, dc: seq<int>,
                 ps': seq<PadState>, ts': seq<Time>, pk': seq<Reading>, dc': seq<int>, j: nat, k: nat)
    requires |ts| == |ps| && |pk| == |ps| && |dc| == |ps| && j < |ps| && k < |ps|
    requires |ps'| == |ps| && |ts'| == |ps| && |pk'| == |ps| && |dc'| == |ps|
    requires forall i | 0 <= i < |ps| && i != j && i != k ::
      ps'[i] == ps[i] && ts'[i] == ts[i] && pk'[i] == pk[i] && dc'[i] == dc[i]
    ensures Zip(ps', ts', pk', dc')
         == Zip(ps, ts, pk, dc)[j := Slot(ps'[j], ts'[j], pk'[j], dc'[j])][k := Slot(ps'[k], ts'[k], pk'[k], dc'[k])]
  {
  }

  class DrumModule {
    /** Which of the two shipped loops this instance runs. */
    const variant: Variant

    const padState: array<PadState>
    const stateChangeTime: array<Time>
    const peakSensorValues: array<Reading>
    const retriggerThresholdInitialDecay: array<int>
    var lastHighVelocityMidiTime: Time
    var pedalChimbalState: Level
    var lastPedalChimbalState: Level
    /** The notes whose "...Playing" flag is set. */
    var playing: set<int>
    /** Every message handed to `Serial.write` so far, oldest first. */
    ghost var out: seq<Message>

    ghost predicate Valid()
      reads this
    {
      padState.Length == NumPads && stateChangeTime.Length == NumPads
      && peakSensorValues.Length == NumPads && retriggerThresholdInitialDecay.Length == NumPads
    }

    /** The state as a value of the specification. */
    ghost function View(): (k: Kit)
      requires Valid()
      reads this, padState, stateChangeTime, peakSensorValues, retriggerThresholdInitialDecay
      ensures WellFormed(k)
    {
      Kit(Zip(padState[..], stateChangeTime[..], peakSensorValues[..], retriggerThresholdInitialDecay[..]), SharedNow())
    }

    /** The static zero-initialisation of the globals followed by `setup()`. */
    constructor(v: Variant)
      ensures Valid() && variant == v
      ensures View() == Init()
      ensures out == []
    {
      variant := v;
      padState := new PadState[NumPads](_ => Idle);
      stateChangeTime := new Time[NumPads](_ => 0);
      peakSensorValues := new Reading[NumPads](_ => 0);
      retriggerThresholdInitialDecay := new int[NumPads](_ => 0);
      lastHighVelocityMidiTime := 0;
      pedalChimbalState := High;
      lastPedalChimbalState := High;
      playing := {};
      out := [];
      new;
      for i := 0 to NumPads
        invariant out == [] && playing == {} && lastHighVelocityMidiTime == 0
        invariant pedalChimbalState == High && lastPedalChimbalState == High
        invariant forall k | 0 <= k < NumPads :: padState[k] == Idle && stateChangeTime[k] == 0
        invariant forall k | 0 <= k < NumPads :: peakSensorValues[k] == 0 && retriggerThresholdInitialDecay[k] == 0
      {
        padState[i] := Idle;
        stateChangeTime[i] := 0;
        retriggerThresholdInitialDecay[i] := 0;
      }
      assert View().slots == Init().slots;
    }

    /** Entry j of the four per-pad arrays. */
    ghost function SlotAt(j: nat): Slot
      requires Valid() && j < NumPads
      reads this, padState, stateChangeTime, peakSensorValues, retriggerThresholdInitialDecay
    {
      Slot(padState[j], stateChangeTime[j], peakSensorValues[j], retriggerThresholdInitialDecay[j])
    }

    /** The global scalars. */
    ghost function SharedNow(): Shared
      reads this
    {
      Shared(lastHighVelocityMidiTime, pedalChimbalState, lastPedalChimbalState, playing)
    }

    /** The per-pad arrays changed at most at entries j and k. */
    twostate predicate WritesOnly(j: nat, k: nat)
      requires Valid() && j < NumPads && k < NumPads
      reads this, padState, stateChangeTime, peakSensorValues, retriggerThresholdInitialDecay
    {
      forall i | 0 <= i < NumPads && i != j && i != k ::
        && padState[i] == old(padState[i]) && stateChangeTime[i] == old(stateChangeTime[i])
        && peakSensorValues[i] == old(peakSensorValues[i])
        && retriggerThresholdInitialDecay[i] == old(retriggerThresholdInitialDecay[i])
    }

    /** `midiNoteOn`: writes a Note On message and sets the flag of the note, if it has one. */
    method MidiNoteOn(note: int, velocity: int)
      modifies this`playing, this`out
      ensures out == old(out) + [Wire(NoteOn(note, velocity))]
      ensures playing == AfterEvent(old(playing), NoteOn(note, velocity))
    {
      out := out + [Message(NoteOnStatus, Byte(note), Byte(velocity))];
      if note == MidiNote(RideBowPad) { playing := playing + {note}; }
      else if note == MidiNote(RideBellPad) { playing := playing + {note}; }
      else if note == MidiNote(CrashBowPad) { playing := playing + {note}; }
      else if note == MidiNote(CrashBellPad) { playing := playing + {note}; }
      else if note == MidiNote(SnarePad) { playing := playing + {note}; }
      else if note == MidiNote(SnareRimPad) { playing := playing + {note}; }
      else if note == HatClosedNote { playing := playing + {note}; }
      else if note == HatOpenNote { playing := playing + {note}; }
    }

    /** `midiNoteOff`: writes a Note Off message and clears the flag of the note, if it has one. */
    method MidiNoteOff(note: int, velocity: int)
      modifies this`playing, this`out
      ensures out == old(out) + [Wire(NoteOff(note, velocity))]
      ensures playing == AfterEvent(old(playing), NoteOff(note, velocity))
    {
      out := out + [Message(NoteOffStatus, Byte(note), Byte(velocity))];
      if note == MidiNote(RideBowPad) { playing := playing - {note}; }
      else if note == MidiNote(RideBellPad) { playing := playing - {note}; }
      else if note == MidiNote(CrashBowPad) { playing := playing - {note}; }
      else if note == MidiNote(CrashBellPad) { playing := playing - {note}; }
      else if note == MidiNote(SnarePad) { playing := playing - {note}; }
      else if note == MidiNote(SnareRimPad) { playing := playing - {note}; }
      else if note == HatClosedNote { playing := playing - {note}; }
      else if note == HatOpenNote { playing := playing - {note}; }
    }

    /** The hi-hat pedal poll at the top of `loop()`, given the pin's `digitalRead`. */
    method PollPedal(level: Level)
      requires Valid()
      modifies this`pedalChimbalState, this`lastPedalChimbalState, this`playing, this`out
      ensures Valid()
      ensures View() == PedalAt(old(View()), level).kit
      ensures out == old(out) + WireAll(PedalAt(old(View()), level).events)
    {
      ghost var before := playing;
      assert HatOpenNote in Tracked && HatClosedNote in Tracked && HatPedalNote !in Tracked;
      ShortSequences(before, NoteOff(HatOpenNote, 0), NoteOn(HatPedalNote, PedalChickVelocity));
      ShortSequences(before, NoteOn(HatPedalNote, PedalChickVelocity), NoteOn(HatPedalNote, PedalChickVelocity));
      ShortSequences(before, NoteOff(HatClosedNote, 0), NoteOff(HatClosedNote, 0));
      if level != lastPedalChimbalState {
        lastPedalChimbalState := level;
        if level == Low {
          if HatOpenNote in playing {
            MidiNoteOff(HatOpenNote, 0);
            if variant == WithComments { playing := playing - {HatOpenNote}; }
          }
          MidiNoteOn(HatPedalNote, PedalChickVelocity);
        } else {
          if HatClosedNote in playing {
            MidiNoteOff(HatClosedNote, 0);
            if variant == WithComments { playing := playing - {HatClosedNote}; }
          }
        }
      }
      pedalChimbalState := level;
      assert playing == Sound(before, PedalEdge(level, old(lastPedalChimbalState), before));
      assert View().slots == old(View()).slots;
    }

    /** A validated hi-hat strike: the note the pedal selects, then the Note Off of the other. */
    method PlayHat(velocity: int)
      modifies this`playing, this`out
      ensures out == old(out) + WireAll(HatStrike(pedalChimbalState, old(playing), velocity))
      ensures playing == Sound(old(playing), HatStrike(pedalChimbalState, old(playing), velocity))
    {
      var (on, other) := if pedalChimbalState == Low then (HatClosedNote, HatOpenNote) else (HatOpenNote, HatClosedNote);
      ShortSequences(playing, NoteOn(on, velocity), NoteOff(other, 0));
      ShortSequences(playing + {on}, NoteOff(other, 0), NoteOff(other, 0));
      assert on in Tracked && other in Tracked;
      MidiNoteOn(on, velocity);
      if variant == WithComments { playing := playing + {on}; }
      if other in playing {
        MidiNoteOff(other, 0);
        if variant == WithComments { playing := playing - {other}; }
      }
    }

    /** One pass of `loop()`: poll the pedal, tick the single-zone pads 0 .. 4, then the
        dual-zone pairs (5, 6), (7, 8), (9, 10). The readings and clock values it takes from
        the hardware are the fields of `ins`. */
    method Loop(ins: Inputs)
      requires Valid() && Complete(ins)
      modifies padState, stateChangeTime, peakSensorValues, retriggerThresholdInitialDecay
      modifies this`pedalChimbalState, this`lastPedalChimbalState
      modifies this`lastHighVelocityMidiTime, this`playing, this`out
      ensures Valid()
      ensures View() == LoopSpec(variant, old(View()), ins).kit
      ensures out == old(out) + WireAll(LoopSpec(variant, old(View()), ins).events)
    {
      ghost var o0 := PedalAt(View(), ins.pedal);
      ghost var o1 := RunSingles(variant, o0.kit, ins, 5);
      ghost var o2 := RunDuals(variant, o1.kit, ins, 3);
      ghost var w := out;
      PollPedal(ins.pedal);
      SingleZoneLoop(ins);
      DualZoneLoop(ins);
      WireAllAppend3(w, o0.events, o1.events, o2.events);
    }

    /** The first `for` loop of `loop()`: pads 0 .. 4 (`j <= CHIMBAL_PAD`), each with its own
        `analogRead` and `millis()`. */
    method SingleZoneLoop(ins: Inputs)
      requires Valid() && Complete(ins)
      modifies padState, stateChangeTime, peakSensorValues, retriggerThresholdInitialDecay
      modifies this`lastHighVelocityMidiTime, this`playing, this`out
      ensures Valid()
      ensures View() == RunSingles(variant, old(View()), ins, 5).kit
      ensures out == old(out) + WireAll(RunSingles(variant, old(View()), ins, 5).events)
    {
      ghost var k := View();
      for j := 0 to 5
        invariant Valid()
        invariant View() == RunSingles(variant, k, ins, j).kit
        invariant out == old(out) + WireAll(RunSingles(variant, k, ins, j).events)
      {
        ghost var o := RunSingles(variant, k, ins, j);
        ghost var o' := SingleAt(variant, o.kit, j, ins.analog[j], ins.clock[j]);
        SingleZoneStep(j, ins.analog[j], ins.clock[j]);
        WireAllAppend2(old(out), o.events, o'.events);
      }
    }

    /** The second `for` loop of `loop()`: the pairs (j, j + 1) for j = 5, 7, 9 (`j = CAIXA_PAD;
        j < NUM_PADS; j = j + 2`). */
    method DualZoneLoop(ins: Inputs)
      requires Valid() && Complete(ins)
      modifies padState, stateChangeTime, peakSensorValues, retriggerThresholdInitialDecay
      modifies this`lastHighVelocityMidiTime, this`playing, this`out
      ensures Valid()
      ensures View() == RunDuals(variant, old(View()), ins, 3).kit
      ensures out == old(out) + WireAll(RunDuals(variant, old(View()), ins, 3).events)
    {
      ghost var k := View();
      ghost var n := 0;
      ghost var o := Outcome(k, []);
      var j := SnarePad;
      while j < NumPads
        invariant Valid()
        invariant n <= 3 && j == SnarePad + 2 * n
        invariant o == RunDuals(variant, k, ins, n)
        invariant View() == o.kit && out == old(out) + WireAll(o.events)
      {
        ghost var o' := DualAt(variant, o.kit, j, ins.analog[j], ins.analog[j + 1], ins.choke[j], ins.clock[j]);
        assert DualIndex(n) == j;
        DualZoneStep(j, ins.analog[j], ins.analog[j + 1], ins.choke[j], ins.clock[j]);
        WireAllAppend2(old(out), o.events, o'.events);
        o := Outcome(o'.kit, o.events + o'.events);
        n := n + 1;
        j := j + 2;
      }
    }

    /** One iteration of the single-zone loop for pad j, given its `analogRead` and `millis()`:
        the `switch (padState[j])`, one helper method per case. */
    method SingleZoneStep(j: SinglePad, reading: Reading, now: Time)
      requires Valid()
      modifies padState, stateChangeTime, peakSensorValues, retriggerThresholdInitialDecay
      modifies this`lastHighVelocityMidiTime, this`playing, this`out
      ensures Valid()
      ensures View() == SingleAt(variant, old(View()), j, reading, now).kit
      ensures out == old(out) + WireAll(SingleAt(variant, old(View()), j, reading, now).events)
    {
      match padState[j]
      case Idle => SingleIdle(j, reading, now);
      case PeakDetection => SinglePeakDetection(j, reading, now);
      case SilentDebounce => SingleSilentDebounce(j, reading, now);
      case RepiqueCheck => SingleRepiqueCheck(j, reading, now);
      case ChokeConfirmation =>
        if variant == Main {
          padState[j] := Idle;
        }
      ZipFrame(old(padState[..]), old(stateChangeTime[..]), old(peakSensorValues[..]), old(retriggerThresholdInitialDecay[..]),
               padState[..], stateChangeTime[..], peakSensorValues[..], retriggerThresholdInitialDecay[..], j, j);
    }

    method SingleIdle(j: SinglePad, reading: Reading, now: Time)
      requires Valid() && padState[j] == Idle
      modifies padState, stateChangeTime, peakSensorValues
      ensures Valid() && WritesOnly(j, j) && SharedNow() == old(SharedNow()) && out == old(out)
      ensures SlotAt(j) == SingleStep(variant, j, old(SlotAt(j)), old(SharedNow()), reading, now).slot
    {
      if reading > Threshold(j) {
        peakSensorValues[j] := reading;
        padState[j] := PeakDetection;
        stateChangeTime[j] := now;
      }
    }

    method SinglePeakDetection(j: SinglePad, reading: Reading, now: Time)
      requires Valid() && padState[j] == PeakDetection
      modifies padState, stateChangeTime, peakSensorValues, retriggerThresholdInitialDecay
      modifies this`lastHighVelocityMidiTime, this`playing, this`out
      ensures Valid() && WritesOnly(j, j)
      ensures var st := SingleStep(variant, j, old(SlotAt(j)), old(SharedNow()), reading, now);
        SlotAt(j) == st.slot && SharedNow() == st.shared && out == old(out) + WireAll(st.events)
    {
      if Elapsed(now, stateChangeTime[j]) < PeakDetectionWindowMs {
        if reading > peakSensorValues[j] {
          peakSensorValues[j] := reading;
        }
      } else if peakSensorValues[j] <= Threshold(j) {
        padState[j] := Idle;
      } else {
        var velocity := Velocity(j, peakSensorValues[j]);
        if IsCrosstalk(velocity, now, lastHighVelocityMidiTime) {
          padState[j] := Idle;
        } else {
          SingleStrike(j, velocity, now);
        }
      }
    }

    /** A validated single-zone strike that is not crosstalk: the notes, the crosstalk arming,
        SILENT_DEBOUNCE and the retrigger start. */
    method SingleStrike(j: SinglePad, velocity: int, now: Time)
      requires Valid()
      modifies padState, stateChangeTime, retriggerThresholdInitialDecay
      modifies this`lastHighVelocityMidiTime, this`playing, this`out
      ensures Valid() && WritesOnly(j, j)
      ensures var st := SingleStrikeStep(j, old(SlotAt(j)), old(SharedNow()), velocity, now);
        SlotAt(j) == st.slot && SharedNow() == st.shared && out == old(out) + WireAll(st.events)
    {
      if j == HiHatPad {
        PlayHat(velocity);
      } else {
        ShortSequences(playing, NoteOn(MidiNote(j), velocity), NoteOn(MidiNote(j), velocity));
        MidiNoteOn(MidiNote(j), velocity);
      }
      if velocity > HighVelocityThreshold && MidiNote(j) > 36 {
        lastHighVelocityMidiTime := now;
      }
      padState[j] := SilentDebounce;
      stateChangeTime[j] := now;
      retriggerThresholdInitialDecay[j] := RetriggerStart(j, peakSensorValues[j]);
    }

    method SingleSilentDebounce(j: SinglePad, reading: Reading, now: Time)
      requires Valid() && padState[j] == SilentDebounce
      modifies padState, stateChangeTime
      ensures Valid() && WritesOnly(j, j) && SharedNow() == old(SharedNow()) && out == old(out)
      ensures SlotAt(j) == SingleStep(variant, j, old(SlotAt(j)), old(SharedNow()), reading, now).slot
    {
      if Elapsed(now, stateChangeTime[j]) >= SilentDebounceMs {
        padState[j] := RepiqueCheck;
        stateChangeTime[j] := now;
      }
    }

    method SingleRepiqueCheck(j: SinglePad, reading: Reading, now: Time)
      requires Valid() && padState[j] == RepiqueCheck
      modifies padState, stateChangeTime, peakSensorValues
      ensures Valid() && WritesOnly(j, j) && SharedNow() == old(SharedNow()) && out == old(out)
      ensures SlotAt(j) == SingleStep(variant, j, old(SlotAt(j)), old(SharedNow()), reading, now).slot
    {
      var elapsedTime := Elapsed(now, stateChangeTime[j]);
      if elapsedTime >= RepiqueCheckMs {
        padState[j] := Idle;
      } else {
        var currentRetriggerThreshold := DecayThreshold(j, retriggerThresholdInitialDecay[j], elapsedTime);
        if reading > currentRetriggerThreshold {
          peakSensorValues[j] := reading;
          padState[j] := PeakDetection;
          stateChangeTime[j] := now;
        }
      }
    }

    /** The pair (j, j + 1) and the shared scalars now hold what `st` prescribes, the output
        grew by the bytes of its events, and no other array entry changed. */
    twostate predicate DualFollows(j: DualPad, st: DualStep)
      requires Valid()
      reads this, padState, stateChangeTime, peakSensorValues, retriggerThresholdInitialDecay
    {
      && WritesOnly(j, j + 1)
      && SlotAt(j) == st.primary && SlotAt(j + 1) == st.secondary && SharedNow() == st.shared
      && out == old(out) + WireAll(st.events)
    }

    /** One iteration of the dual-zone loop for the pair (j, j + 1), given both `analogRead`s,
        the choke peak-hold reads and `millis()`. */
    method DualZoneStep(j: DualPad, rp: Reading, rs: Reading, cr: ChokeReads, now: Time)
      requires Valid()
      modifies padState, stateChangeTime, peakSensorValues, retriggerThresholdInitialDecay
      modifies this`lastHighVelocityMidiTime, this`playing, this`out
      ensures Valid()
      ensures View() == DualAt(variant, old(View()), j, rp, rs, cr, now).kit
      ensures out == old(out) + WireAll(DualAt(variant, old(View()), j, rp, rs, cr, now).events)
    {
      ghost var st := DualStepOf(variant, j, SlotAt(j), SlotAt(j + 1), SharedNow(), rp, rs, cr, now);
      DualSwitch(j, rp, rs, cr, now);
      ghost var ps, ts, pk, dc :=
        old(padState[..]), old(stateChangeTime[..]), old(peakSensorValues[..]), old(retriggerThresholdInitialDecay[..]);
      ZipFrame(ps, ts, pk, dc, padState[..], stateChangeTime[..], peakSensorValues[..], retriggerThresholdInitialDecay[..], j, j + 1);
    }

    /** The `switch (padState[j])` of the dual-zone loop, one helper method per case. */
    method DualSwitch(j: DualPad, rp: Reading, rs: Reading, cr: ChokeReads, now: Time)
      requires Valid()
      modifies padState, stateChangeTime, peakSensorValues, retriggerThresholdInitialDecay
      modifies this`lastHighVelocityMidiTime, this`playing, this`out
      ensures Valid()
      ensures DualFollows(j, DualStepOf(variant, j, old(SlotAt(j)), old(SlotAt(j + 1)), old(SharedNow()), rp, rs, cr, now))
    {
      match padState[j]
      case Idle => DualIdle(j, rp, rs, now);
      case PeakDetection => DualPeakDetection(j, rp, rs, now);
      case SilentDebounce => DualSilentDebounce(j, now);
      case RepiqueCheck => DualRepiqueCheck(j, rp, rs, now);
      case ChokeConfirmation => DualChokeConfirmation(j, cr, now);
    }

    method DualIdle(j: DualPad, rp: Reading, rs: Reading, now: Time)
      requires Valid()
      modifies padState, stateChangeTime, peakSensorValues
      ensures Valid()
      ensures DualFollows(j, DualIdleStep(j, old(SlotAt(j)), old(SlotAt(j + 1)), old(SharedNow()), rp, rs, now))
    {
      ShortSequences(playing, NoteOff(0, 0), NoteOff(0, 0));
      if rp > Threshold(j) || rs > Threshold(j + 1) {
        peakSensorValues[j] := rp;
        peakSensorValues[j + 1] := rs;
        padState[j] := PeakDetection;
        stateChangeTime[j] := now;
      }
    }

    method DualPeakDetection(j: DualPad, rp: Reading, rs: Reading, now: Time)
      requires Valid() && padState[j] == PeakDetection
      modifies padState, stateChangeTime, peakSensorValues, retriggerThresholdInitialDecay
      modifies this`lastHighVelocityMidiTime, this`playing, this`out
      ensures Valid()
      ensures DualFollows(j, DualPeakStep(j, old(SlotAt(j)), old(SlotAt(j + 1)), old(SharedNow()), rp, rs, now))
    {
      ShortSequences(playing, NoteOff(0, 0), NoteOff(0, 0));
      if Elapsed(now, stateChangeTime[j]) < PeakDetectionWindowMs {
        if rp > peakSensorValues[j] {
          peakSensorValues[j] := rp;
        }
        if rs > peakSensorValues[j + 1] {
          peakSensorValues[j + 1] := rs;
        }
      } else if peakSensorValues[j] <= Threshold(j) && peakSensorValues[j + 1] <= Threshold(j + 1) {
        padState[j] := Idle;
      } else {
        DualValidated(j, now);
      }
    }

    /** The end of a dual-zone peak-detection window with at least one peak above its threshold. */
    method DualValidated(j: DualPad, now: Time)
      requires Valid() && padState[j] == PeakDetection
      modifies padState, stateChangeTime, retriggerThresholdInitialDecay
      modifies this`lastHighVelocityMidiTime, this`playing, this`out
      ensures Valid()
      ensures DualFollows(j, DualValidatedStep(j, old(SlotAt(j)), old(SlotAt(j + 1)), old(SharedNow()), now))
    {
      var velocityPrincipal := Velocity(j, peakSensorValues[j]);
      var velocitySecundario := Velocity(j + 1, peakSensorValues[j + 1]);
      if IsCrosstalk(Max(velocitySecundario, velocityPrincipal), now, lastHighVelocityMidiTime) {
        padState[j] := Idle;
        ShortSequences(playing, NoteOff(0, 0), NoteOff(0, 0));
      } else {
        DualStrike(j, velocityPrincipal, velocitySecundario, now);
      }
    }

    /** A validated dual-zone strike that is not crosstalk: routing, crosstalk arming,
        SILENT_DEBOUNCE and the retrigger start of both channels. */
    method DualStrike(j: DualPad, velocityPrincipal: int, velocitySecundario: int, now: Time)
      requires Valid() && padState[j] == PeakDetection
      modifies padState, stateChangeTime, retriggerThresholdInitialDecay
      modifies this`lastHighVelocityMidiTime, this`playing, this`out
      ensures Valid()
      ensures DualFollows(j, DualStrikeStep(j, old(SlotAt(j)), old(SlotAt(j + 1)), old(SharedNow()),
                                            velocityPrincipal, velocitySecundario, now))
    {
      PlayDual(j, velocityPrincipal, velocitySecundario, now);
      if Max(velocitySecundario, velocityPrincipal) > HighVelocityThreshold && MidiNote(j) > 36 {
        lastHighVelocityMidiTime := now;
      }
      EnterDebounce(j, now);
    }

    /** After a dual-zone strike: SILENT_DEBOUNCE for the primary channel (unless it is waiting
        for a choke) and the same retrigger start, from the larger peak, for both channels. */
    method EnterDebounce(j: DualPad, now: Time)
      requires Valid() && padState[j] == PeakDetection
      modifies padState, stateChangeTime, retriggerThresholdInitialDecay
      ensures Valid() && WritesOnly(j, j + 1)
      ensures var start := RetriggerStart(j, MaxReading(peakSensorValues[j], peakSensorValues[j + 1]));
        && SlotAt(j) == old(SlotAt(j)).(state := SilentDebounce, since := now, decay := start)
        && SlotAt(j + 1) == old(SlotAt(j + 1)).(decay := start)
    {
      if padState[j] != ChokeConfirmation {
        padState[j] := SilentDebounce;
        stateChangeTime[j] := now;
      }
      retriggerThresholdInitialDecay[j] := RetriggerStart(j, MaxReading(peakSensorValues[j], peakSensorValues[j + 1]));
      retriggerThresholdInitialDecay[j + 1] := retriggerThresholdInitialDecay[j];
    }

    /** The routing of a validated dual-zone strike: rimshot, rim or skin for the snare; bell,
        choke candidate or bow for a cymbal. The choke candidate marks `stateChangeTime[j]`. */
    method PlayDual(j: DualPad, velocityPrincipal: int, velocitySecundario: int, now: Time)
      requires Valid()
      modifies stateChangeTime, this`playing, this`out
      ensures Valid()
      ensures forall i | 0 <= i < NumPads && i != j :: stateChangeTime[i] == old(stateChangeTime[i])
      ensures var es := DualEmit(j, old(peakSensorValues[j]), old(peakSensorValues[j + 1]), velocityPrincipal, velocitySecundario);
        out == old(out) + WireAll(es) && playing == Sound(old(playing), es)
    {
      var pp: int, ps: int := peakSensorValues[j], peakSensorValues[j + 1];
      if j == SnarePad {
        if peakSensorValues[SnarePad] > 600 && peakSensorValues[SnareRimPad] > 2 * Threshold(SnareRimPad) {
          ShortSequences(playing, NoteOn(RimshotNote, Max(velocityPrincipal, velocitySecundario)), NoteOff(0, 0));
          MidiNoteOn(RimshotNote, Max(velocityPrincipal, velocitySecundario));
        } else if pp < 1000 && 11 * ps > 10 * pp {
          ShortSequences(playing, NoteOn(MidiNote(j + 1), velocitySecundario), NoteOff(0, 0));
          MidiNoteOn(MidiNote(j + 1), velocitySecundario);
        } else {
          ShortSequences(playing, NoteOn(MidiNote(j), velocityPrincipal), NoteOff(0, 0));
          MidiNoteOn(MidiNote(j), velocityPrincipal);
        }
      } else {
        if pp < 1000 && ps > pp {
          ShortSequences(playing, NoteOn(MidiNote(j + 1), velocitySecundario), NoteOff(0, 0));
          MidiNoteOn(MidiNote(j + 1), velocitySecundario);
        } else if 20 * ps < pp {
          ShortSequences(playing, NoteOff(MidiNote(j), 0), NoteOff(MidiNote(j + 1), 0));
          MidiNoteOff(MidiNote(j), 0);
          MidiNoteOff(MidiNote(j + 1), 0);
          stateChangeTime[j] := now;
        } else {
          ShortSequences(playing, NoteOn(MidiNote(j), velocityPrincipal), NoteOff(0, 0));
          MidiNoteOn(MidiNote(j), velocityPrincipal);
        }
      }
    }

    method DualSilentDebounce(j: DualPad, now: Time)
      requires Valid()
      modifies padState, stateChangeTime
      ensures Valid()
      ensures DualFollows(j, DualDebounceStep(old(SlotAt(j)), old(SlotAt(j + 1)), old(SharedNow()), now))
    {
      ShortSequences(playing, NoteOff(0, 0), NoteOff(0, 0));
      if Elapsed(now, stateChangeTime[j]) >= SilentDebounceMs {
        padState[j] := RepiqueCheck;
        stateChangeTime[j] := now;
      }
    }

    method DualRepiqueCheck(j: DualPad, rp: Reading, rs: Reading, now: Time)
      requires Valid()
      modifies padState, stateChangeTime, peakSensorValues
      ensures Valid()
      ensures DualFollows(j, DualRepiqueStep(j, old(SlotAt(j)), old(SlotAt(j + 1)), old(SharedNow()), rp, rs, now))
    {
      ShortSequences(playing, NoteOff(0, 0), NoteOff(0, 0));
      var elapsedTime := Elapsed(now, stateChangeTime[j]);
      if elapsedTime >= RepiqueCheckMs {
        padState[j] := Idle;
      } else {
        var currentRetriggerThreshold := DecayThreshold(j, retriggerThresholdInitialDecay[j], elapsedTime);
        if MaxReading(rp, rs) > currentRetriggerThreshold {
          peakSensorValues[j] := rp;
          peakSensorValues[j + 1] := rs;
          padState[j] := PeakDetection;
          stateChangeTime[j] := now;
        }
      }
    }

    method DualChokeConfirmation(j: DualPad, cr: ChokeReads, now: Time)
      requires Valid() && padState[j] == ChokeConfirmation
      modifies padState, stateChangeTime, peakSensorValues, this`playing, this`out
      ensures Valid()
      ensures DualFollows(j, DualStepOf(variant, j, old(SlotAt(j)), old(SlotAt(j + 1)), old(SharedNow()), 0, 0, cr, now))
    {
      ShortSequences(playing, NoteOff(0, 0), NoteOff(0, 0));
      if j == RideBowPad || j == CrashBowPad {
        ChokePeakHold(j, cr);
        if Elapsed(now, stateChangeTime[j]) >= ChokeConfirmationMs {
          ChokeExpired(j, now);
        }
      } else {
        padState[j] := Idle;
        peakSensorValues[j] := 0;
        peakSensorValues[j + 1] := 0;
      }
    }

    /** The peak-hold of both channels during choke confirmation. */
    method ChokePeakHold(j: DualPad, cr: ChokeReads)
      requires Valid()
      modifies peakSensorValues
      ensures Valid()
      ensures peakSensorValues[j] == ChokeHeld(variant, old(peakSensorValues[j]), cr.primaryTest, cr.primaryHeld)
      ensures peakSensorValues[j + 1] == ChokeHeld(variant, old(peakSensorValues[j + 1]), cr.secondaryTest, cr.secondaryHeld)
      ensures forall i | 0 <= i < NumPads && i != j && i != j + 1 :: peakSensorValues[i] == old(peakSensorValues[i])
    {
      if variant == WithComments {
        var currentPrimaryRead := cr.primaryTest;
        var currentSecondaryRead := cr.secondaryTest;
        if currentPrimaryRead > peakSensorValues[j] {
          peakSensorValues[j] := currentPrimaryRead;
        }
        if currentSecondaryRead > peakSensorValues[j + 1] {
          peakSensorValues[j + 1] := currentSecondaryRead;
        }
      } else {
        if cr.primaryTest > peakSensorValues[j] {
          peakSensorValues[j] := cr.primaryHeld;
        }
        if cr.secondaryTest > peakSensorValues[j + 1] {
          peakSensorValues[j + 1] := cr.secondaryHeld;
        }
      }
    }

    /** The end of the choke confirmation window of a cymbal, after the peak-hold. */
    method ChokeExpired(j: DualPad, now: Time)
      requires Valid() && IsCymbal(j)
      modifies padState, stateChangeTime, peakSensorValues, this`playing, this`out
      ensures Valid()
      ensures DualFollows(j, ChokeVerdict(j, old(SlotAt(j)), old(SlotAt(j + 1)), old(SharedNow()),
                                          old(peakSensorValues[j]), old(peakSensorValues[j + 1]), now))
    {
      ShortSequences(playing, NoteOff(MidiNote(j), 0), NoteOff(MidiNote(j + 1), 0));
      var peakPrincipal: int, peakSecundario: int := peakSensorValues[j], peakSensorValues[j + 1];
      if 20 * peakSecundario < peakPrincipal || peakSecundario < ChokeSecondaryFloor {
        if j == RideBowPad {
          MidiNoteOff(MidiNote(RideBowPad), 0);
          MidiNoteOff(MidiNote(RideBellPad), 0);
        } else if j == CrashBowPad {
          MidiNoteOff(MidiNote(CrashBowPad), 0);
          MidiNoteOff(MidiNote(CrashBellPad), 0);
        }
        padState[j] := Idle;
      } else {
        if peakSensorValues[j] > Threshold(j) || peakSensorValues[j + 1] > Threshold(j + 1) {
          padState[j] := PeakDetection;
          stateChangeTime[j] := now;
        } else {
          padState[j] := Idle;
        }
      }
      peakSensorValues[j] := 0;
      peakSensorValues[j + 1] := 0;
    }
  }
}
