# Arduino e-drum firmware: the pad state machine, modelled and verified in Dafny

The firmware turns the readings of eleven piezo sensors into MIDI notes. There are five
single-zone pads and three dual-zone pairs:

- single-zone pads: kick 0, floor tom 1, tom 1 2, tom 2 3, hi-hat 4;
- dual-zone pairs: snare skin/rim 5/6, ride bow/bell 7/8, crash bow/bell 9/10.

A digital hi-hat pedal completes the kit.

Every pass of `loop()` does three things in order:

1. It polls the pedal. An edge to LOW sends the pedal "chick" and silences the open hi-hat. An edge to HIGH silences the closed hi-hat.
2. It ticks each single-zone pad.
3. It ticks each dual-zone pair.

Each pad runs the state machine IDLE → PEAK_DETECTION → SILENT_DEBOUNCE → REPIQUE_CHECK → IDLE or PEAK_DETECTION. A dual-zone pair also has a CHOKE_CONFIRMATION handler. The parts of a tick:

- **Peak detection.** A 7 ms window holds the highest reading.
- **Velocity.** `round(peak·gain)` goes through Arduino `map` onto 10..127, then `constrain`.
- **Crosstalk suppressor.** A weak hit (velocity < 29) is dropped if it comes within 130 ms of a strong one. A strong hit is velocity > 115 on a note above 36.
- **Retrigger threshold.** It starts at `max(⌊thr·1.5⌋, min(ceiling, ⌊peak·1.5⌋))` and decays linearly over the 180 ms REPIQUE_CHECK window.
- **Routing.** The snare picks rimshot, then rim, then skin. A cymbal picks bell, then the choke candidate (two Note Offs), then bow.
- **Emitters.** `midiNoteOn` and `midiNoteOff` write the three bytes of a Note On (0x90) or Note Off (0x80) Channel Voice Message of the MIDI 1.0 Detailed Specification on channel 0. They also keep a "…Playing" flag for eight notes.

Two variants of the loop ship, `Variant = WithComments | Main`:

- `WithComments` is code_with_comments.c.
- `Main` is main.c. The file doxygen_1.0/oldscope.c holds the same code as main.c's single-zone loop, with added doc comments, so the `Main` single-zone loop models it too.

The variants differ in three places, and the model follows each:

- **Single-zone CHOKE_CONFIRMATION.** main.c resets it to IDLE. code_with_comments.c has no case, so the pad stays as it is.
- **Choke peak-hold.** main.c calls `analogRead` once for the comparison and again for the value it stores. code_with_comments.c reads once.
- **Hat flags.** code_with_comments.c clears or sets them again right after the emitter has done so. The model proves this changes nothing.

The project has these modules:

- `ArduinoMath` (arduino.dfy): the Arduino core's `map`, `constrain` and `max`/`min`, C truncating division, `unsigned long` time differences, and exact integer forms of the float expressions.
- `Config` (config.dfy): the pad indices and the constant tables (`threshold`, `retriggerThreshold`, `midiNote`, `gainFactor`, the time windows).
- `Midi` (midi.dfy): note events, their bytes on the wire, a receiver's decoding, and the "…Playing" flags as the set `playing` of sounding tracked notes.
- `Strike` (strike.dfy): the pure formulas, which are velocity, retrigger start, decaying threshold, crosstalk test, snare and cymbal routing, hi-hat strike and pedal edge.
- `PadMachine` (machine.dfy): one tick of a single-zone pad, one tick of a dual-zone pair, the pedal poll, one `loop()` pass and a run of passes, all as pure functions.
- `Firmware` (firmware.dfy): class `DrumModule`.
  - Its fields are the firmware's globals: the four per-pad arrays, `lastHighVelocityMidiTime`, the two pedal variables and the flags. A ghost `out` holds every message handed to `Serial.write`.
  - Its methods follow the C code statement by statement, one helper method per `switch` case. Each is proved to leave exactly the state, and send exactly the messages, that the `PadMachine` functions give.
- `Properties` (properties.dfy): an invariant of every reachable state, the flag bookkeeping, and the validity and decodability of every message sent.
- `Behaviour` (behaviour.dfy): each branch of the state machine as an input/output statement.

Some consequences of the code worth stating on their own:

- **Tom 1 at peak 500.** With threshold 230 and gain 1, tom 1 holding a peak of 500 sends exactly Note On(43, 49) (`Behaviour.Tom1Example`).
- **Choke-candidate branch.** The transition into CHOKE_CONFIRMATION is commented out in both files. The shipped cymbal therefore sends two Note Offs and enters SILENT_DEBOUNCE. The choke handler is modelled, and proved unreachable from `setup()` (`Properties.ChokeNeverEntered`).
- **Choke comparison.** The choke test is `20·bell < bow`, a strict comparison.
- **Choke reclassified as a strike.** When the pad goes back to PEAK_DETECTION, both peaks are set to 0.
- **Peaks on return to IDLE.** The peaks are not reset when a pad returns to IDLE from the false-positive, crosstalk or REPIQUE_CHECK-expiry branches. Only the choke handler zeroes them.

## Model

| member | source | states |
|---|---|---|
| ArduinoMath.Elapsed | main.c:321 | `now - since` on `unsigned long`: the d with `(since + d) mod 2^32 == now`, equal to `now - since` without a wrap and to `now - since + 2^32` across one |
| ArduinoMath.TruncDiv | main.c:281 | C's `/` by a positive divisor truncates toward zero: for a ≥ 0, q·b ≤ a < q·b + b; for a < 0, q·b − b < a ≤ q·b |
| ArduinoMath.Map | main.c:281 | Arduino `map` with C truncating division: sends `inMin` to `outMin` and `inMax` to `outMax` |
| ArduinoMath.Constrain | main.c:282 | the result lies in `[lo, hi]`, is `x` when `x` is inside and the nearer bound otherwise |
| ArduinoMath.RoundTenths | main.c:280 | `round(peak·gain)` with the gain in tenths: the nearest integer, halves rounded up (away from zero for these non-negative values) |
| ArduinoMath.OneAndHalf | main.c:305 | `(int)(t·1.5)` for t ≥ 0: ⌊3t/2⌋ |
| Config.Threshold | main.c:102-104 | every strike threshold lies strictly between 0 and the ADC maximum 1023 |
| Config.RetriggerCeiling | main.c:112-114 | every `retriggerThreshold` entry lies above its channel's threshold and below 1023, and is at least 1.5 times the threshold |
| Config.GainTenths | main.c:125-127 | every gain lies between 1 and 7; only the ride bell (7) and the crash bell (1.2) differ from 1 |
| Config.MidiNote | main.c:77-89 | every pad note is a MIDI data value of at least 36; only the hi-hat has note 42, only the kick has 36; none is 46, 44 or 40 |
| Midi.Byte | main.c:483-484 | the `(byte)` cast: a value in 0..255, unchanged for values already in range |
| Midi.Wire | main.c:480-507 | the status byte is 0x90 exactly for a Note On and 0x80 exactly for a Note Off; both data bytes are in 0..255 and equal the note and velocity when those are already in byte range |
| Midi.WireAll | main.c:480-507 | one three-byte message per emitter call, in call order |
| Midi.Decode | main.c:480-507 | a receiver accepts exactly Note On or Note Off status with 7-bit data, and what it accepts is the message the firmware writes for the decoded event |
| Midi.WireRoundTrip | main.c:480-507 | a receiver decodes the three bytes of any Note On or Note Off with data values 0..127 back into the same event |
| Midi.AfterEvent | main.c:486-494 | one emitter call changes only the flag of its own note: a tracked note's flag ends up set iff the call is a Note On; an untracked note changes nothing |
| Midi.Sound | main.c:480-518 | after a sequence of emitter calls, no untracked note is affected, and the last call naming a tracked note decides its flag |
| Midi.SoundKeepsOthers | main.c:480-518 | a flag that no emitted event names keeps its value |
| Strike.Velocity | main.c:280-282 | the velocity of any channel and any peak lies in [10, 127] |
| Strike.MapMonotone | main.c:281 | `map` with increasing ranges is non-decreasing in its input |
| Strike.VelocityMonotone | main.c:280-282 | a larger peak never gives a smaller velocity |
| Strike.VelocityExtremes | main.c:280-282 | an adjusted peak at or above 1023 gives 127; at or below the threshold gives 10 |
| Strike.Tom1Velocity | main.c:280-282 | tom 1 (threshold 230, gain 1) with peak 500 gives velocity 49 |
| Strike.RetriggerStart | main.c:305 | the start lies between ⌊thr·1.5⌋ (≥ thr) and max(⌊thr·1.5⌋, ceiling); it is ⌊peak·1.5⌋ when that lies between floor and ceiling, ⌊thr·1.5⌋ when ⌊peak·1.5⌋ is below the floor, and max(⌊thr·1.5⌋, ceiling) when ⌊peak·1.5⌋ reaches the ceiling |
| Strike.DecayThreshold | main.c:325-326 | the effective REPIQUE_CHECK threshold is never below ⌊thr·1.5⌋ (hence never below thr), starts at max(⌊thr·1.5⌋, start) and never exceeds it |
| Strike.DecayNonIncreasing | main.c:325-326 | the effective threshold does not increase with elapsed time |
| Strike.IsCrosstalk | main.c:284 | a strike is crosstalk iff its velocity is below 29 and fewer than 130 ms have passed on the 32-bit clock, stated for both the non-wrapped and the wrapped case |
| Strike.ArmsCrosstalk | main.c:299 | a strike above note 36 arms the window iff its velocity exceeds 115; an arming strike is never itself weak enough to be crosstalk; the kick never arms it |
| Strike.SnareRoute | main.c:375-382 | a snare strike sends exactly one Note On; it is the rimshot (40, max velocity) iff skin > 600 and rim > 80; otherwise the rim note (39, rim velocity) iff skin < 1000 and 1.1·rim > skin; else the skin note (38, skin velocity) |
| Strike.CymbalRoute | main.c:383-395 | a cymbal sends no Note On iff 20·bell < bow, and then Note Off bow and Note Off bell; otherwise one Note On, the bell note iff bow < 1000 and bell > bow, with that channel's velocity; only the pad's two notes are named |
| Strike.HatStrike | main.c:287-294 | a hi-hat strike sends one Note On, 42 if the pedal is LOW else 46, first, and at most two events naming only the two hi-hat notes; Note Off 46 is sent iff the pedal is LOW and the open flag is set, Note Off 42 iff the pedal is HIGH and the closed flag is set |
| Strike.HatStrikeSound | main.c:287-294 | after a hi-hat strike exactly the selected variant's flag is set and the other is clear; all other flags are unchanged |
| Strike.PedalEdge | main.c:241-254 | no edge sends nothing; an edge to LOW ends with Note On(44, 30) and sends one Note On, an edge to HIGH sends no Note On; only hi-hat notes are named |
| Strike.PedalEdgeSound | main.c:241-254 | Note Off 46 is sent iff the edge is to LOW and the open flag is set; Note Off 42 iff the edge is to HIGH and the closed flag is set; afterwards that flag is clear and every other flag unchanged |
| PadMachine.Init | main.c:221-227 | after `setup()` every pad is IDLE with zero time, peak and retrigger start |
| PadMachine.PedalAt | main.c:240-255 | the pedal poll changes no per-pad entry |
| PadMachine.PedalStep | main.c:241-255 | after the poll both pedal variables hold the level read; without an edge nothing is sent and no flag changes; the crosstalk timestamp is untouched |
| PadMachine.SingleEmit | main.c:287-297 | a strike sends exactly one Note On, first: the pad's note, or for the hi-hat the open note when the pedal is HIGH; a pad other than the hi-hat sends nothing else |
| PadMachine.SingleStrikeStep | main.c:286-305 | a non-crosstalk strike enters SILENT_DEBOUNCE at now with its peak, a retrigger start between ⌊thr·1.5⌋ and max(⌊thr·1.5⌋, ceiling), exactly one Note On, and the timestamp either now or unchanged |
| PadMachine.SingleStep | main.c:262-341 | a single-zone tick sends something only when a pad in PEAK_DETECTION enters SILENT_DEBOUNCE, and then exactly one Note On; it never moves a pad into CHOKE_CONFIRMATION; the timestamp moves only to now; the pedal variables are untouched |
| PadMachine.DualEmit | main.c:375-395 | dual routing sends one or two events with at most one Note On; it sends no Note On iff it sends Note Off to both notes of the pair; every event names a note of the pair or, for the snare, the rimshot |
| PadMachine.DualIdleStep | main.c:351-359 | IDLE sends nothing; arming starts the window at now with a peak above its channel's threshold; otherwise nothing changes |
| PadMachine.DualPeakStep | main.c:361-411 | PEAK_DETECTION never lowers either peak, ends in the same state, IDLE or SILENT_DEBOUNCE, and sends only when entering SILENT_DEBOUNCE |
| PadMachine.DualValidatedStep | main.c:368-408 | a validated window keeps both peaks and ends IDLE (silently, globals unchanged) or in SILENT_DEBOUNCE |
| PadMachine.DualStrikeStep | main.c:374-407 | a non-crosstalk pair strike enters SILENT_DEBOUNCE at now, gives both channels the same retrigger start within its bounds, sends one or two events and moves the timestamp only to now |
| PadMachine.DualDebounceStep | main.c:413-418 | SILENT_DEBOUNCE of a pair sends nothing, keeps both peaks and starts, and changes the primary only once 30 ms have passed, to REPIQUE_CHECK |
| PadMachine.DualRepiqueStep | main.c:420-436 | REPIQUE_CHECK of a pair sends nothing and keeps both retrigger starts; a retrigger starts at now with the larger new peak above 1.5 times the threshold |
| PadMachine.ChokeHeld | main.c:440-441 | the held peak is kept or replaced by the variant's stored read, and only when the test read exceeds it; with one read per channel it is the maximum of peak and read |
| PadMachine.ChokeConfirm | main.c:439-463 | the cymbal choke handler sends no Note On and leaves the timestamp and pedal alone; before 20 ms it sends nothing and keeps the state; from 20 ms on it clears both peaks |
| PadMachine.ChokeVerdict | main.c:443-463 | the verdict clears both peaks and ends IDLE or in PEAK_DETECTION; it sends (only Note Offs) iff 20·bell < bow or bell < 20, and then both cymbal flags are clear |
| PadMachine.SingleAt | main.c:258-342 | one single-zone iteration for pad j changes no slot but j |
| PadMachine.DualAt | main.c:345-471 | one dual-zone iteration for pair j writes only entries j and j+1, and never the state or time of the secondary channel |
| PadMachine.DualStepOf | main.c:350-470 | a dual-zone tick changes only the peak and retrigger start of the secondary channel |
| PadMachine.RunSingles | main.c:258-342 | the first n single-zone iterations touch no slot from n on (no dual-zone channel) and leave the pedal variables alone |
| PadMachine.RunDuals | main.c:345-471 | the first n dual-zone iterations touch no single-zone slot and no channel of a later pair, and leave the pedal variables alone |
| PadMachine.LoopSpec | main.c:237-472 | after one `loop()` pass both pedal variables hold the level that pass read |
| PadMachine.Run | main.c:237-472 | after one or more passes both pedal variables hold the level the last pass read |
| Firmware.DrumModule.constructor | main.c:218-230 | the globals' zero-initialisation plus `setup()` give the state `PadMachine.Init`, pedal variables HIGH, no flag set and no byte written |
| Firmware.DrumModule.MidiNoteOn | main.c:480-495 | appends exactly (0x90, note, velocity) as bytes and sets the flag of that note only, if it has one |
| Firmware.DrumModule.MidiNoteOff | main.c:503-518 | appends exactly (0x80, note, velocity) as bytes and clears the flag of that note only, if it has one |
| Firmware.DrumModule.PollPedal | code_with_comments.c:179-197 | the new state and the bytes written are those of `PadMachine.PedalAt` (whose events `Strike.PedalEdge` describes), in both variants |
| Firmware.DrumModule.PlayHat | code_with_comments.c:239-254 | writes the messages of `Strike.HatStrike` and leaves the flags it gives, in both variants |
| Firmware.DrumModule.Loop | main.c:237-472 | one `loop()` pass leaves the state `PadMachine.LoopSpec` gives and appends the bytes of its events |
| Firmware.DrumModule.SingleZoneLoop | doxygen_1.0/oldscope.c:11-149 | the five single-zone iterations leave the state and write the bytes of `PadMachine.RunSingles` |
| Firmware.DrumModule.DualZoneLoop | main.c:345-471 | the three dual-zone iterations (j = 5, 7, 9) leave the state and write the bytes of `PadMachine.RunDuals` |
| Firmware.DrumModule.SingleZoneStep | main.c:262-341 | one single-zone `switch` leaves the state and writes the bytes of `PadMachine.SingleAt`, including the variant's CHOKE_CONFIRMATION case |
| Firmware.DrumModule.SingleIdle | doxygen_1.0/oldscope.c:16-29 | IDLE: writes only entry j, sends nothing, and leaves slot j as `PadMachine.SingleStep` gives |
| Firmware.DrumModule.SinglePeakDetection | doxygen_1.0/oldscope.c:31-99 | PEAK_DETECTION: writes only entry j and leaves slot j, the globals and the output as `PadMachine.SingleStep` gives |
| Firmware.DrumModule.SingleStrike | doxygen_1.0/oldscope.c:61-93 | a validated strike: the emission, the crosstalk timestamp, SILENT_DEBOUNCE and the retrigger start as `PadMachine.SingleStrikeStep` gives |
| Firmware.DrumModule.SingleSilentDebounce | doxygen_1.0/oldscope.c:101-114 | SILENT_DEBOUNCE: writes only entry j, sends nothing, and follows `PadMachine.SingleStep` |
| Firmware.DrumModule.SingleRepiqueCheck | doxygen_1.0/oldscope.c:116-142 | REPIQUE_CHECK: writes only entry j, sends nothing, and follows `PadMachine.SingleStep` |
| Firmware.DrumModule.DualZoneStep | code_with_comments.c:307-487 | one dual-zone iteration leaves the state and writes the bytes of `PadMachine.DualAt` |
| Firmware.DrumModule.DualSwitch | code_with_comments.c:311-487 | the dual-zone `switch` writes only entries j and j+1 and follows `PadMachine.DualStepOf` |
| Firmware.DrumModule.DualIdle | code_with_comments.c:312-321 | IDLE: follows `PadMachine.DualIdleStep`, writing only entries j and j+1 |
| Firmware.DrumModule.DualPeakDetection | code_with_comments.c:322-406 | PEAK_DETECTION: follows `PadMachine.DualPeakStep`, writing only entries j and j+1 |
| Firmware.DrumModule.DualValidated | code_with_comments.c:338-403 | the end of a window with a peak above threshold: follows `PadMachine.DualValidatedStep` |
| Firmware.DrumModule.DualStrike | code_with_comments.c:351-403 | a non-crosstalk dual strike: follows `PadMachine.DualStrikeStep` (routing, timestamp, SILENT_DEBOUNCE, retrigger start copied to j+1) |
| Firmware.DrumModule.EnterDebounce | code_with_comments.c:393-402 | the pad enters SILENT_DEBOUNCE at `now` and both channels get the retrigger start of the larger peak; nothing else in the arrays changes |
| Firmware.DrumModule.PlayDual | code_with_comments.c:352-386 | writes the messages of `PadMachine.DualEmit` (snare or cymbal routing) and leaves the flags they give; only `stateChangeTime[j]` may change in the arrays |
| Firmware.DrumModule.DualSilentDebounce | code_with_comments.c:408-415 | SILENT_DEBOUNCE: follows `PadMachine.DualDebounceStep` |
| Firmware.DrumModule.DualRepiqueCheck | code_with_comments.c:417-434 | REPIQUE_CHECK: follows `PadMachine.DualRepiqueStep` |
| Firmware.DrumModule.DualChokeConfirmation | main.c:438-469 | CHOKE_CONFIRMATION of a pair: follows `PadMachine.DualStepOf` for the variant (cymbal peak-hold and verdict, snare reset) |
| Firmware.DrumModule.ChokePeakHold | main.c:439-441 | each channel's held peak becomes `PadMachine.ChokeHeld` of the variant's reads; no other peak changes |
| Firmware.DrumModule.ChokeExpired | main.c:443-463 | the verdict at the end of the choke window follows `PadMachine.ChokeVerdict` |
| Properties.DualEmitNotHat | main.c:375-395 | no dual-zone emission names a hi-hat note |
| Properties.SingleStepKeeps | main.c:262-341 | a single-zone tick keeps the pad out of CHOKE_CONFIRMATION, keeps peak > threshold while in PEAK_DETECTION, and keeps the hat flags exclusive |
| Properties.DualStepKeeps | main.c:350-470 | a dual-zone tick keeps the pair out of CHOKE_CONFIRMATION, its secondary IDLE, one peak above its threshold while in PEAK_DETECTION, and the hat flags exclusive |
| Properties.DualPeakKeeps | main.c:361-411 | the same for the PEAK_DETECTION case |
| Properties.PedalAtKeeps | main.c:240-255 | the pedal poll keeps the invariant; in particular it leaves the hat flags exclusive |
| Properties.SingleAtKeeps | main.c:258-342 | one single-zone iteration keeps the invariant of the whole state |
| Properties.DualAtKeeps | main.c:345-471 | one dual-zone iteration keeps the invariant of the whole state |
| Properties.RunSinglesKeeps | main.c:258-342 | the single-zone loop keeps the invariant |
| Properties.RunDualsKeeps | main.c:345-471 | the dual-zone loop keeps the invariant |
| Properties.LoopKeeps | main.c:237-472 | one `loop()` pass keeps the invariant |
| Properties.InitInv | main.c:218-230 | the state after `setup()` satisfies the invariant |
| Properties.RunKeeps | main.c:237-472 | any number of passes keeps the invariant |
| Properties.ChokeNeverEntered | main.c:386-391 | with the transition commented out, no pad is ever in CHOKE_CONFIRMATION in a state reached from `setup()` |
| Properties.FalsePositiveUnreachable | doxygen_1.0/oldscope.c:94-97 | in a reachable state a single-zone pad in PEAK_DETECTION holds a peak above its threshold, and a dual pair one channel above its own, so the false-positive return to IDLE is never taken |
| Properties.HatNeverBoth | main.c:287-294 | in a reachable state the open and closed hi-hat flags are never both set |
| Properties.SingleFlags | main.c:262-341 | after a single-zone tick the flags are those the emitted events leave |
| Properties.DualFlags | main.c:350-470 | after a dual-zone tick the flags are those the emitted events leave |
| Properties.RunSinglesFlags | main.c:258-342 | the same for the single-zone loop |
| Properties.RunDualsFlags | main.c:345-471 | the same for the dual-zone loop |
| Properties.LoopFlags | main.c:237-472 | the same for one `loop()` pass |
| Properties.RunFlags | main.c:237-472 | the same for any number of passes |
| Properties.SingleValid | main.c:284-301 | every event a single-zone tick sends has note and velocity in 0..127 |
| Properties.DualValid | main.c:372-395 | every event a dual-zone tick sends has note and velocity in 0..127 |
| Properties.DualEmitValid | main.c:375-395 | dual-zone routing with velocities in [10, 127] sends only valid data bytes |
| Properties.RunSinglesValid | main.c:258-342 | every event of the single-zone loop has valid data bytes |
| Properties.RunDualsValid | main.c:345-471 | every event of the dual-zone loop has valid data bytes |
| Properties.LoopValid | main.c:237-472 | every event of a `loop()` pass has valid data bytes |
| Properties.RunValid | main.c:237-472 | every event of any number of passes has valid data bytes |
| Properties.RunDecodes | main.c:480-507 | a receiver decodes every message the firmware writes back into the event that produced it |
| Behaviour.SingleIdle | doxygen_1.0/oldscope.c:22-28 | IDLE enters PEAK_DETECTION iff the reading exceeds the threshold, with peak = reading and time = now; otherwise nothing changes; nothing is sent |
| Behaviour.SinglePeakHold | doxygen_1.0/oldscope.c:41-45 | inside the 7 ms window the peak becomes max(peak, reading); nothing else changes and nothing is sent |
| Behaviour.SingleFalsePositive | doxygen_1.0/oldscope.c:94-97 | at window end with peak ≤ threshold the pad goes IDLE, sends nothing and leaves the crosstalk timestamp alone |
| Behaviour.SingleCrosstalkDiscarded | doxygen_1.0/oldscope.c:58-60 | a validated strike with velocity < 29 within 130 ms of the last strong hit goes IDLE and sends nothing |
| Behaviour.SingleEmission | doxygen_1.0/oldscope.c:61-93 | a validated non-crosstalk strike sends exactly one Note On (42/46 for the hi-hat by pedal, else the pad's note) whose velocity is `Strike.Velocity` of the peak (hence in [10, 127]), enters SILENT_DEBOUNCE at now with the retrigger start, and arms the crosstalk window iff velocity > 115 and note > 36 |
| Behaviour.KickNeverArms | doxygen_1.0/oldscope.c:83-85 | a kick-pad tick never changes the crosstalk timestamp |
| Behaviour.SingleDebounce | doxygen_1.0/oldscope.c:109-113 | SILENT_DEBOUNCE sends nothing and moves to REPIQUE_CHECK at now iff 30 ms have passed |
| Behaviour.NoRetriggerWithinDebounce | main.c:313-318 | any sequence of ticks within 30 ms of entering SILENT_DEBOUNCE changes nothing and sends nothing, so no second Note On comes within 30 ms |
| Behaviour.PairNoRetriggerWithinDebounce | main.c:413-418 | any sequence of ticks of a pair within 30 ms of entering SILENT_DEBOUNCE changes nothing and sends nothing, whatever either channel reads |
| Behaviour.SingleRepiqueExpired | doxygen_1.0/oldscope.c:127-129 | after 180 ms in REPIQUE_CHECK the pad goes IDLE with its peak untouched and sends nothing |
| Behaviour.SingleRepique | doxygen_1.0/oldscope.c:131-140 | within the window a reading above the decaying threshold restarts PEAK_DETECTION at now with peak = reading (> ⌊thr·1.5⌋); otherwise nothing changes |
| Behaviour.SingleChoke | doxygen_1.0/oldscope.c:145-147 | a single-zone CHOKE_CONFIRMATION goes IDLE in main.c and stays unchanged in code_with_comments.c; nothing is sent |
| Behaviour.Tom1Example | main.c:272-305 | tom 1 with peak 500 at window end and no recent strong hit sends exactly Note On(43, 49) |
| Behaviour.DualIdle | main.c:351-359 | an IDLE pair enters PEAK_DETECTION iff either channel exceeds its own threshold, with both readings as peaks and time = now |
| Behaviour.DualPeakHold | code_with_comments.c:324-332 | inside the window each channel's peak becomes max(peak, reading) independently |
| Behaviour.DualFalsePositive | code_with_comments.c:335-336 | at window end with both peaks at or below their thresholds the pair goes IDLE and sends nothing |
| Behaviour.DualCrosstalkDiscarded | code_with_comments.c:348-350 | max of the two velocities < 29 within 130 ms of a strong hit: IDLE, nothing sent |
| Behaviour.DualEmission | code_with_comments.c:351-402 | a non-crosstalk dual strike enters SILENT_DEBOUNCE (also on the choke-candidate branch) with the retrigger start of the larger peak on both channels; the events are exactly the snare or cymbal routing (`Strike.SnareRoute`, `Strike.CymbalRoute`) of the two peaks and their velocities, so the rim/skin and bell/bow choices and velocities follow; the snare sends one Note On, the rimshot iff skin > 600 and rim > 80; a cymbal with 20·bell < bow sends the two Note Offs and no Note On, otherwise one Note On; the crosstalk timestamp becomes now iff the larger velocity exceeds 115, and stays otherwise |
| Behaviour.DualArming | code_with_comments.c:389-391 | a dual-zone tick changes the crosstalk timestamp only to now, only from PEAK_DETECTION, and only when the larger velocity exceeds 115 |
| Behaviour.DualDebounce | main.c:413-418 | SILENT_DEBOUNCE of a pair sends nothing and moves to REPIQUE_CHECK at now iff 30 ms have passed |
| Behaviour.DualRepique | main.c:420-436 | REPIQUE_CHECK of a pair: IDLE after 180 ms; otherwise PEAK_DETECTION at now with both readings as peaks iff the larger reading exceeds the decaying threshold |
| Behaviour.SnareChoke | main.c:464-468 | CHOKE_CONFIRMATION on the snare goes IDLE, zeroes both peaks and sends nothing |
| Behaviour.ChokeWaiting | code_with_comments.c:439-448 | before 20 ms a cymbal in CHOKE_CONFIRMATION only peak-holds both channels and sends nothing |
| Behaviour.ChokeExpiry | main.c:443-462 | at 20 ms: if 20·bell < bow or bell < 20, Note Off to both notes and IDLE; otherwise PEAK_DETECTION at now iff a peak exceeds its threshold, else IDLE; both peaks become 0 in every case |
| Behaviour.ChokeHoldNeverDrops | code_with_comments.c:443-448 | with one read per channel the held peak never decreases |
| Behaviour.MainChokeHoldCanDrop | main.c:440-441 | with the second `analogRead` stored, the held peak can decrease (held 100, test read 200, stored read 50 leaves 50) |

## Left out

- Hardware set-up (`Serial.begin`, `pinMode`, the `piezoPin` table) is not modelled; only `setup()`'s initialisation of the state is.
- `Serial.write` is modelled as appending to the ghost sequence `out`; the transport itself is not.
- `analogRead`, `digitalRead` and `millis()` become parameters (`Inputs`): one reading per channel and one clock value per iteration, plus the choke handler's own reads. The `millis()` at the top of `loop()` is overwritten before any use and is not modelled.
- Floating point is not modelled. `gainFactor` is in tenths with `round` taken half up, `RETRIGGER_MIN_MULTIPLIER` 1.5 is ⌊3t/2⌋, `* 0.05` is `20·b < a` and `* 1.1` is `11·b > 10·a`. These agree with the float expressions for the non-negative readings involved, up to float rounding of exact ties, which is not modelled.
- The AVR `min`/`max` macros' argument promotion is not modelled; the model takes the mathematical max and min.
- C integer widths are not modelled except the 32-bit `unsigned long` time differences. Readings are 0..1023, so no intermediate value of the code leaves the range of its C type.
- ArduinoMath.Map: only `inMin < inMax` is modelled, which every call site satisfies (threshold < 1023, 0 < 180).
- `peakFoundTime` is written but never read and is not modelled.
- The commented-out transition into CHOKE_CONFIRMATION is not modelled; the shipped code is.
- Numbers that appear only in comments and disagree with the declared constants (20 ms, 60 ms) are ignored.
- No concurrency or interrupts exist in the firmware, so none are modelled.
