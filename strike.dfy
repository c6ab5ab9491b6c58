/** The companion arithmetic of the pad state machine (velocity mapping, retrigger start value,
    decaying retrigger threshold, crosstalk tests) and the pure note-selection rules: dual-zone
    routing, the hi-hat strike and the hi-hat pedal edges. */
module Strike {
  import opened ArduinoMath
  import opened Config
  import opened Midi

  /** Velocity of a validated peak: `round(peak * gain)` mapped from [threshold, 1023] onto
      [10, 127] and constrained to that range. */
  function Velocity(c: Channel, peak: Reading): (v: int)
    ensures MinVelocity <= v <= MaxVelocity
  {
    var adjusted := RoundTenths(peak, GainTenths(c));
    Constrain(Map(adjusted, Threshold(c), 1023, MinVelocity, MaxVelocity), MinVelocity, MaxVelocity)
  }

  lemma MapMonotone(x1: int, x2: int, inMin: int, inMax: int, outMin: int, outMax: int)
    requires inMin < inMax && outMin <= outMax && x1 <= x2
    ensures Map(x1, inMin, inMax, outMin, outMax) <= Map(x2, inMin, inMax, outMin, outMax)
  {
    MulMonotone(x1 - inMin, x2 - inMin, outMax - outMin);
    TruncDivMonotone((x1 - inMin) * (outMax - outMin), (x2 - inMin) * (outMax - outMin), inMax - inMin);
  }

  /** A harder hit never gets a lower velocity: the mapping is monotone in the peak. */
  lemma {:induction false} VelocityMonotone(c: Channel, p1: Reading, p2: Reading)
    requires p1 <= p2
    ensures Velocity(c, p1) <= Velocity(c, p2)
  {
    var g := GainTenths(c);
    MulMonotone(p1, p2, g);
    DivMonotone(p1 * g + 5, p2 * g + 5, 10);
    MapMonotone(RoundTenths(p1, g), RoundTenths(p2, g), Threshold(c), 1023, MinVelocity, MaxVelocity);
  }

  /** A peak whose gain-adjusted value reaches full scale gets the maximum velocity, and one whose
      adjusted value is at or below the threshold gets the minimum. */
  lemma {:induction false} VelocityExtremes(c: Channel, peak: Reading)
    ensures RoundTenths(peak, GainTenths(c)) >= 1023 ==> Velocity(c, peak) == MaxVelocity
    ensures RoundTenths(peak, GainTenths(c)) <= Threshold(c) ==> Velocity(c, peak) == MinVelocity
  {
    var adjusted := RoundTenths(peak, GainTenths(c));
    if adjusted >= 1023 {
      MapMonotone(1023, adjusted, Threshold(c), 1023, MinVelocity, MaxVelocity);
    } else if adjusted <= Threshold(c) {
      MapMonotone(adjusted, Threshold(c), Threshold(c), 1023, MinVelocity, MaxVelocity);
    }
  }

  /** Tom 1 (threshold 230, gain 1): a peak of 500 maps to velocity 49. */
  lemma Tom1Velocity()
    ensures Velocity(Tom1Pad, 500) == 49
  {
  }

  /** The value the decaying retrigger threshold starts from after a strike:
      `max((int)(threshold * 1.5), min(retriggerThreshold, peak * 1.5))`, truncated to `int`. */
  function RetriggerStart(c: Channel, peak: Reading): (r: int)
    ensures Threshold(c) <= OneAndHalf(Threshold(c)) <= r
    ensures r <= Max(OneAndHalf(Threshold(c)), RetriggerCeiling(c))
    ensures r <= Max(OneAndHalf(Threshold(c)), OneAndHalf(peak))
    ensures OneAndHalf(Threshold(c)) <= OneAndHalf(peak) <= RetriggerCeiling(c) ==> r == OneAndHalf(peak)
    ensures OneAndHalf(peak) < OneAndHalf(Threshold(c)) ==> r == OneAndHalf(Threshold(c))
    ensures OneAndHalf(peak) >= RetriggerCeiling(c) ==> r == Max(OneAndHalf(Threshold(c)), RetriggerCeiling(c))
  {
    Max(OneAndHalf(Threshold(c)), Min(RetriggerCeiling(c), OneAndHalf(peak)))
  }

  /** The retrigger threshold `elapsed` ms into the repique window: `map(elapsed, 0, 180, start,
      threshold)`, never below `(long)(threshold * 1.5)`. */
  function DecayThreshold(c: Channel, start: int, elapsed: nat): (t: int)
    requires elapsed < RepiqueCheckMs
    ensures t >= OneAndHalf(Threshold(c)) >= Threshold(c)
    ensures elapsed == 0 ==> t == Max(OneAndHalf(Threshold(c)), start)
    ensures start >= Threshold(c) ==> t <= Max(OneAndHalf(Threshold(c)), start)
  {
    var thr := Threshold(c);
    var t := Max(OneAndHalf(thr), Map(elapsed, 0, RepiqueCheckMs, start, thr));
    assert start >= thr ==> Map(elapsed, 0, RepiqueCheckMs, start, thr) <= start by {
      if start >= thr {
        MulMonotone(0, elapsed, start - thr);
        assert elapsed * (thr - start) == -(elapsed * (start - thr));
        TruncDivMonotone(elapsed * (thr - start), 0, RepiqueCheckMs);
      }
    }
    t
  }

  /** Once the start value is at least the threshold (every start `RetriggerStart` computes is),
      the retrigger threshold never rises as the repique window goes on. */
  lemma {:induction false} DecayNonIncreasing(c: Channel, start: int, e1: nat, e2: nat)
    requires start >= Threshold(c)
    requires e1 <= e2 < RepiqueCheckMs
    ensures DecayThreshold(c, start, e2) <= DecayThreshold(c, start, e1)
  {
    var d := start - Threshold(c);
    MulMonotone(e1, e2, d);
    assert e1 * (Threshold(c) - start) == -(e1 * d);
    assert e2 * (Threshold(c) - start) == -(e2 * d);
    TruncDivMonotone(e2 * (Threshold(c) - start), e1 * (Threshold(c) - start), RepiqueCheckMs);
  }

  /** A weak strike shortly after a strong one is taken for vibration from another pad: the
      velocity is below 29 and fewer than 130 ms have passed on the wrapping millisecond clock,
      directly or across a wrap of `millis()`. */
  function IsCrosstalk(velocity: int, now: Time, lastHigh: Time): (b: bool)
    ensures b ==> velocity < LowVelocityDiscard
    ensures lastHigh <= now ==> (b <==> velocity < LowVelocityDiscard && now - lastHigh < CrosstalkWindowMs)
    ensures now < lastHigh ==>
      (b <==> velocity < LowVelocityDiscard && now + TimeModulus - lastHigh < CrosstalkWindowMs)
  {
    velocity < LowVelocityDiscard && Elapsed(now, lastHigh) < CrosstalkWindowMs
  }

  /** Whether a sent strike starts a new crosstalk window: a strong velocity on a pad whose
      (primary) note is above the bass drum's 36. Such a strike is never weak enough to count as
      crosstalk itself, and the bass drum never arms the window. */
  function ArmsCrosstalk(velocity: int, note: int): (b: bool)
    ensures b ==> velocity >= LowVelocityDiscard
    ensures note <= 36 ==> !b
    ensures note > 36 ==> (b <==> velocity > HighVelocityThreshold)
  {
    velocity > HighVelocityThreshold && note > 36
  }

  /** The note a snare strike sends: rimshot when skin and rim are both hit hard, else the rim
      when it dominates, else the skin. */
  function SnareRoute(skin: Reading, rim: Reading, vSkin: int, vRim: int): (r: seq<Event>)
    ensures |r| == 1 && r[0].NoteOn? && OnCount(r) == 1
    ensures r[0].note == RimshotNote <==> skin > 600 && rim > 2 * Threshold(SnareRimPad)
    ensures r[0].note == RimshotNote ==> r[0].velocity == Max(vSkin, vRim)
    ensures r[0].note == MidiNote(SnareRimPad)
        <==> !(skin > 600 && rim > 2 * Threshold(SnareRimPad)) && skin < 1000 && 11 * rim > 10 * skin
    ensures r[0].note == MidiNote(SnareRimPad) ==> r[0].velocity == vRim
    ensures r[0].note == MidiNote(SnarePad) ==> r[0].velocity == vSkin
    ensures r[0].note in {RimshotNote, MidiNote(SnareRimPad), MidiNote(SnarePad)}
  {
    if skin > 600 && rim > 2 * Threshold(SnareRimPad) then
      [NoteOn(RimshotNote, Max(vSkin, vRim))]
    else if skin < 1000 && 11 * rim > 10 * skin then   // rim * 1.1 > skin
      [NoteOn(MidiNote(SnareRimPad), vRim)]
    else
      [NoteOn(MidiNote(SnarePad), vSkin)]
  }

  /** What a cymbal strike sends: the bell note when the bell dominates, two Note Offs (bow and
      bell) when the bell peak is below 5% of the bow peak (a choke candidate), else the bow note. */
  function CymbalRoute(j: DualPad, bow: Reading, bell: Reading, vBow: int, vBell: int): (r: seq<Event>)
    requires IsCymbal(j)
    ensures 20 * bell < bow <==> OnCount(r) == 0
    ensures 20 * bell < bow ==> r == [NoteOff(MidiNote(j), 0), NoteOff(MidiNote(j + 1), 0)]
    ensures !(20 * bell < bow) ==> |r| == 1 && r[0].NoteOn? && OnCount(r) == 1
    ensures !(20 * bell < bow) ==> (r[0].note == MidiNote(j + 1) <==> bow < 1000 && bell > bow)
    ensures !(20 * bell < bow) ==> r[0].velocity == (if r[0].note == MidiNote(j) then vBow else vBell)
    ensures forall i | 0 <= i < |r| :: r[i].note == MidiNote(j) || r[i].note == MidiNote(j + 1)
  {
    ShortSequences({}, NoteOff(MidiNote(j), 0), NoteOff(MidiNote(j + 1), 0));
    if bow < 1000 && bell > bow then
      [NoteOn(MidiNote(j + 1), vBell)]
    else if 20 * bell < bow then                       // bell < bow * 0.05
      [NoteOff(MidiNote(j), 0), NoteOff(MidiNote(j + 1), 0)]
    else
      [NoteOn(MidiNote(j), vBow)]
  }

  /** What a validated hi-hat strike sends: the closed note with the pedal down (LOW), else the
      open one, followed by a Note Off for the other variant if its flag is set. */
  function HatStrike(pedal: Level, playing: set<int>, velocity: int): (r: seq<Event>)
    ensures OnCount(r) == 1
    ensures r[0] == NoteOn(if pedal == Low then HatClosedNote else HatOpenNote, velocity)
    ensures forall i | 0 <= i < |r| :: r[i].note == HatClosedNote || r[i].note == HatOpenNote
    ensures |r| <= 2
    ensures NoteOff(HatOpenNote, 0) in r <==> pedal == Low && HatOpenNote in playing
    ensures NoteOff(HatClosedNote, 0) in r <==> pedal == High && HatClosedNote in playing
  {
    ShortSequences(playing, NoteOn(HatClosedNote, velocity), NoteOff(HatOpenNote, 0));
    ShortSequences(playing, NoteOn(HatOpenNote, velocity), NoteOff(HatClosedNote, 0));
    if pedal == Low then
      if HatOpenNote in playing then [NoteOn(HatClosedNote, velocity), NoteOff(HatOpenNote, 0)]
      else [NoteOn(HatClosedNote, velocity)]
    else
      if HatClosedNote in playing then
        var r := [NoteOn(HatOpenNote, velocity), NoteOff(HatClosedNote, 0)];
        assert pedal == High && r[1] == NoteOff(HatClosedNote, 0);
        r
      else [NoteOn(HatOpenNote, velocity)]
  }

  /** After a hi-hat strike exactly one of the two hi-hat notes is flagged as sounding, the one
      the pedal selects, and no other flag changes. */
  lemma {:induction false} HatStrikeSound(pedal: Level, playing: set<int>, velocity: int)
    ensures HatClosedNote in Sound(playing, HatStrike(pedal, playing, velocity)) <==> pedal == Low
    ensures HatOpenNote in Sound(playing, HatStrike(pedal, playing, velocity)) <==> pedal == High
    ensures forall n | n != HatClosedNote && n != HatOpenNote ::
      n in Sound(playing, HatStrike(pedal, playing, velocity)) <==> n in playing
  {
    var r := HatStrike(pedal, playing, velocity);
    var (on, other) := if pedal == Low then (HatClosedNote, HatOpenNote) else (HatOpenNote, HatClosedNote);
    assert on in Tracked && other in Tracked;
    ShortSequences(playing, NoteOn(on, velocity), NoteOff(other, 0));
    if other in playing {
      assert r == [NoteOn(on, velocity), NoteOff(other, 0)];
    } else {
      assert r == [NoteOn(on, velocity)];
    }
  }

  /** What a poll of the hi-hat pedal sends, given its previous level: on a change to LOW the
      open note is turned off if it sounds, then the pedal chick is played; on a change to HIGH
      the closed note is turned off if it sounds; without a change nothing is sent. */
  function PedalEdge(level: Level, lastLevel: Level, playing: set<int>): (r: seq<Event>)
    ensures level == lastLevel ==> r == []
    ensures OnCount(r) == (if level != lastLevel && level == Low then 1 else 0)
    ensures level != lastLevel && level == Low ==> r[|r| - 1] == NoteOn(HatPedalNote, PedalChickVelocity)
    ensures forall i | 0 <= i < |r| :: r[i].note in {HatOpenNote, HatClosedNote, HatPedalNote}
  {
    ShortSequences(playing, NoteOff(HatOpenNote, 0), NoteOn(HatPedalNote, PedalChickVelocity));
    ShortSequences(playing, NoteOn(HatPedalNote, PedalChickVelocity), NoteOn(HatPedalNote, PedalChickVelocity));
    ShortSequences(playing, NoteOff(HatClosedNote, 0), NoteOff(HatClosedNote, 0));
    if level == lastLevel then []
    else if level == Low then
      (if HatOpenNote in playing then [NoteOff(HatOpenNote, 0)] else [])
        + [NoteOn(HatPedalNote, PedalChickVelocity)]
    else
      (if HatClosedNote in playing then [NoteOff(HatClosedNote, 0)] else [])
  }

  /** A pedal edge turns off exactly the hi-hat note the new position rules out, and only if it
      was sounding; the other hi-hat flag and every other flag keep their values. */
  lemma {:induction false} PedalEdgeSound(level: Level, lastLevel: Level, playing: set<int>)
    ensures NoteOff(HatOpenNote, 0) in PedalEdge(level, lastLevel, playing)
      <==> level != lastLevel && level == Low && HatOpenNote in playing
    ensures NoteOff(HatClosedNote, 0) in PedalEdge(level, lastLevel, playing)
      <==> level != lastLevel && level == High && HatClosedNote in playing
    ensures level != lastLevel && level == Low ==> HatOpenNote !in Sound(playing, PedalEdge(level, lastLevel, playing))
    ensures level != lastLevel && level == High ==> HatClosedNote !in Sound(playing, PedalEdge(level, lastLevel, playing))
    ensures forall n | n != HatOpenNote || level != Low || level == lastLevel ::
      n != HatClosedNote || level != High || level == lastLevel ==>
      (n in Sound(playing, PedalEdge(level, lastLevel, playing)) <==> n in playing)
  {
    var r := PedalEdge(level, lastLevel, playing);
    var chick := NoteOn(HatPedalNote, PedalChickVelocity);
    assert HatClosedNote in Tracked && HatOpenNote in Tracked && HatPedalNote !in Tracked;
    ShortSequences(playing, NoteOff(HatOpenNote, 0), chick);
    ShortSequences(playing, chick, chick);
    ShortSequences(playing, NoteOff(HatClosedNote, 0), chick);
    if level == lastLevel {
      assert r == [];
    } else if level == Low {
      if HatOpenNote in playing {
        assert r == [NoteOff(HatOpenNote, 0), chick];
      } else {
        assert r == [chick];
      }
    } else if HatClosedNote in playing {
      assert r == [NoteOff(HatClosedNote, 0)];
      assert r[0] == NoteOff(HatClosedNote, 0);
    } else {
      assert r == [];
    }
  }
}
