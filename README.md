# Patch engine and note tables of midi-psg-synth, in Dafny

This project models the per-voice patch engine of an Arduino MIDI synthesiser
that drives an SN76489 PSG and a YM2203 FM chip, together with the note tables
that turn pitches into chip divisors and F-numbers. The model has four modules:

- `IntegerPolicy` (`integer_policy.dfy`): the clamping macros `LIMIT`, `MIN`,
  `MAX` and `FLOOR_MINUS`, and C's signed division. C truncates toward zero
  and Dafny's `/` is Euclidean, so `TruncDiv` writes out C's behaviour. Its
  sign and monotonicity laws are proved.
- `Generators` (`generators.dfy`): the envelope and LFO generators as the
  patch engine sees them. Each has a status (envelopes only) and a value.
  What a transition does to a generator is given as a rules record of total
  functions, because the generators' own code is not part of this model.
- `Patch` (`patch.dfy`):
  - the presets and `getDelayTicks`;
  - `PsgPatchState`, a class whose methods drive its four generators in a
    fixed order, and from which the PSG level and frequency are computed;
  - `FmPatchState::getOperatorLevel`, a pure function of the preset, the
    velocity, the delay flag and the carrier table.
  - A ghost history `calls` records every transition a `PsgPatchState` sends,
    in order.
- `NoteMappings` (`note_mappings.dfy`):
  - the three tables `NOTES_125KHZ`, `NOTES_250KHZ` and `F_NUMBERS_4MHZ`,
    entry for entry as in the header;
  - facts about the tables, proved by evaluating them;
  - the declared contracts of `getFrequencyN` and `getFNumber`, stated over
    any `...ForCents` correction;
  - a linear reference correction, with lemmas showing that a note plus cents
    lands between the note's entry and the next note's.

## Model

| member | source | states |
|---|---|---|
| IntegerPolicy.Min | src/arduino/Patch.cpp:5 | the result is the smaller argument |
| IntegerPolicy.Max | src/arduino/Patch.cpp:6 | the result is the larger argument |
| IntegerPolicy.Limit | src/arduino/Patch.cpp:4-6 | the result lies in [lo, hi]; a value already inside is kept; a value below gives lo and a value above gives hi |
| IntegerPolicy.LimitMonotone | src/arduino/Patch.cpp:4-6 | clamping never reverses the order of two values |
| IntegerPolicy.FloorMinus | src/arduino/Patch.cpp:8-9 | `a - b` when b <= a, otherwise 0; never negative and never above a |
| IntegerPolicy.TruncDiv | src/arduino/Patch.cpp:90-92 | C's `/` on signed ints: the remainder is smaller than the divisor in magnitude and has the numerator's sign |
| IntegerPolicy.TruncDivUnique | src/arduino/Patch.cpp:90-92 | those two remainder conditions determine the quotient |
| IntegerPolicy.TruncDivNegate | src/arduino/Patch.cpp:90-92 | negating the numerator negates the quotient, unlike Euclidean division |
| IntegerPolicy.TruncDivNegateDivisor | src/arduino/Patch.cpp:90-92 | negating the divisor negates the quotient |
| IntegerPolicy.TruncDivOfNonNegative | src/arduino/Patch.cpp:116 | for non-negative operands C's and Dafny's divisions agree |
| IntegerPolicy.TruncDivMonotone | src/arduino/Patch.cpp:116 | with a positive divisor, a larger numerator never gives a smaller quotient |
| Patch.DelayTicks | src/arduino/Patch.cpp:11 | the tick count is 4 times the delay time; it is exactly invertible and at most 1020 |
| Patch.ApplyPsgPreset | src/arduino/Patch.cpp:27-29 | every field of the result is the preset's, so nothing of the old target survives |
| Patch.ApplyFmPreset | src/arduino/Patch.cpp:128-130 | every field of the result is the preset's |
| Patch.VelocityScaledLevel | src/arduino/Patch.cpp:90-95 | the level before delay attenuation is in 0..15; at the centre velocity it is the clamped envelope value, and an envelope value already in range is kept |
| Patch.VelocityScaledLevelRisesWithVelocity | src/arduino/Patch.cpp:90-95 | with a positive interval, a higher velocity never gives a lower level |
| Patch.VelocityScaledLevelFallsWithVelocity | src/arduino/Patch.cpp:90-95 | with a negative interval, a higher velocity never gives a higher level |
| Patch.PsgPatchState.constructor | src/arduino/Patch.cpp:15-18 | no preset is bound, the state is not a delay copy, and no generator has been driven yet |
| Patch.PsgPatchState.Initialize | src/arduino/Patch.cpp:20-25 | each generator is re-initialised once, in the fixed order; nothing else changes |
| Patch.PsgPatchState.SetShapes | src/arduino/Patch.cpp:34-37 | each generator gets its shape from the preset once, in the fixed order; only the generators change |
| Patch.PsgPatchState.SetPatch | src/arduino/Patch.cpp:31-40 | binds the preset and the delay flag; every generator is first re-initialised and only then given its shape from the new preset; the note is kept |
| Patch.PsgPatchState.NoteOn | src/arduino/Patch.cpp:42-50 | records pitch and velocity, sets `held` and restarts every generator in order; the state is active afterwards whenever the envelope's start leaves it running |
| Patch.PsgPatchState.NoteOff | src/arduino/Patch.cpp:52-58 | clears `held` and sends note-off to every generator in order; a state that had finished stays finished |
| Patch.PsgPatchState.Tick | src/arduino/Patch.cpp:60-68 | once the amplitude envelope is done nothing changes at all; otherwise each generator advances exactly once, in order |
| Patch.PsgPatchState.IsActive | src/arduino/Patch.cpp:102-104 | definition: active exactly while the amplitude envelope's status is not done; no contract of its own, used by NoteOn, NoteOff, Tick and GetLevel |
| Patch.PsgPatchState.GetFrequencyCents | src/arduino/Patch.cpp:70-77 | 100 * pitch plus the frequency LFO value and the detune; the delay detune is added exactly when the state is a delay copy |
| Patch.PsgPatchState.GetLevel | src/arduino/Patch.cpp:79-100 | 0 when the envelope is done or its value is 0, whatever the velocity; otherwise the velocity-scaled level, which a delay copy lowers by the delay attenuation but never below 0; always in 0..15 and never above the level without delay |
| Patch.VelocityScaledOperatorLevel | src/arduino/Patch.cpp:112-118 | total level plus (centre - velocity) * scaling / 64, truncated and clamped to 0..127; at the centre velocity it is the preset's total level |
| Patch.IsCarrier | src/arduino/Patch.cpp:121 | definition: the carrier table's flag for the preset's algorithm and the operator; no contract of its own, used by OperatorLevel and DelayOnlyDucksCarriers |
| Patch.OperatorLevel | src/arduino/Patch.cpp:108-126 | getOperatorLevel as written: zero scaling returns the preset total level outright; otherwise the velocity-scaled level, raised on a delay copy's carriers by 8 per attenuation step, capped at 127 |
| Patch.DelayOnlyDucksCarriers | src/arduino/Patch.cpp:120-125 | the delay copy's operator level is never below the primary's, and a modulator's level is the same in both |
| Patch.OperatorLevelFallsWithVelocity | src/arduino/Patch.cpp:112-118 | with positive scaling, a higher velocity never raises an operator's level, for the primary and the delay copy alike |
| Patch.PrimaryOperatorLevel | src/arduino/Patch.cpp:109-118 | the primary voice's operator level: the preset's total level without scaling, else the velocity-scaled level; within 0..127 |
| Patch.DuckedOperatorLevel | src/arduino/Patch.cpp:108-126 | the corrected getOperatorLevel: the primary level, raised on every carrier of a delay copy by 8 per attenuation step and capped at 127 |
| Patch.DuckingDiffersOnlyAtZeroScaling | src/arduino/Patch.cpp:108-126 | the written and corrected policies agree except on a delay copy's carrier with zero scaling |
| Patch.DelayCarriersAlwaysDucked | src/arduino/Patch.cpp:120-124 | under the corrected policy, with attenuation and room below 127, a delay copy's carrier is always strictly quieter than the primary's |
| Patch.ZeroScalingSkipsDelayDucking | src/arduino/Patch.cpp:109-124 | a concrete preset on which the written policy leaves a delay copy's carrier at the primary's level 20, where the corrected policy gives 60 |
| NoteMappings.TablesHaveOneEntryPerNote | NoteMappings.h:8-55 | each of the three tables has exactly 128 entries, one per MIDI note |
| NoteMappings.Notes125KhzNonIncreasing | NoteMappings.h:4-21 | the SN76489 divisors never increase with the note |
| NoteMappings.Notes250KhzNonIncreasing | NoteMappings.h:23-40 | the YM2203 divisors never increase with the note |
| NoteMappings.Notes125KhzFitTenBitsFromNote47 | NoteMappings.h:7-21 | an SN76489 divisor fits the chip's 10-bit field (at most 1023) exactly for notes 47 and up |
| NoteMappings.Notes250KhzFitTwelveBitsFromNote35 | NoteMappings.h:26-40 | a YM2203 divisor fits the chip's 12-bit field (at most 4095) exactly for notes 35 and up |
| NoteMappings.FNumbersRiseWithinOctaves | NoteMappings.h:44-55 | every base F-number lies in [617, 1165]; the numbers strictly rise within an octave and drop at each octave boundary |
| NoteMappings.FNumbersRepeatByOctave | NoteMappings.h:42-55 | the F-numbers repeat with period 12 from note 1 on; only note 0 (618 against 617) breaks the pattern the header's comment asks about |
| NoteMappings.FrequencyN | NoteMappings.h:59-64 | getFrequencyN: the divisor is never above the divisor of the pitch's note |
| NoteMappings.FNumber | NoteMappings.h:70-75 | getFNumber: the F-number is never below the F-number of the pitch's note |
| NoteMappings.FrequencyNOfNoteAndCents | NoteMappings.h:59-64 | for a note and cents below 100, getFrequencyN is the note's divisor minus getFrequencyNForCents(note, cents) |
| NoteMappings.FNumberOfNoteAndCents | NoteMappings.h:70-75 | for a note and cents below 100, getFNumber is the note's F-number plus getFNumberForCents(note, cents) |
| NoteMappings.LinearNForCents | NoteMappings.h:59-61 | a reference correction that never exceeds the gap to the next note's divisor |
| NoteMappings.LinearFNumberForCents | NoteMappings.h:70-72 | a reference correction that never exceeds the gap to the next note's F-number |
| NoteMappings.LinearFrequencyNBetweenNotes | NoteMappings.h:59-64 | with the reference correction and a non-increasing table, the divisor lies between the next note's and the note's own; it equals the note's own at 0 cents, is strictly above the next note's when the two differ, and never rises with cents |
| NoteMappings.LinearFNumberBetweenNotes | NoteMappings.h:70-75 | with the reference correction and a rising step, the F-number is at least the note's own and strictly below the next note's; it equals the note's own at 0 cents and never falls with cents |
| NoteMappings.Notes125KhzInterpolate | NoteMappings.h:8-21 | for the SN76489 table, note plus cents lands between the two notes' divisors, lower as the cents rise |
| NoteMappings.Notes250KhzInterpolate | NoteMappings.h:27-40 | for the YM2203 table, the same |
| NoteMappings.FNumbersInterpolateWithinOctave | NoteMappings.h:44-55 | inside an octave, note plus cents lands between the two notes' F-numbers, higher as the cents rise |

`Patch.PsgPatchState.IsActive` (src/arduino/Patch.cpp:102-104: active until
the amplitude envelope is done) and `Patch.IsCarrier` (the
`FM_CARRIERS_BY_ALGORITHM[algorithm][op]` lookup at src/arduino/Patch.cpp:121)
are definitions without contracts of their own. What they mean is stated
through `NoteOn`, `NoteOff`, `Tick` and `GetLevel`, and through
`OperatorLevel` and `DelayOnlyDucksCarriers`.

## Left out

- The envelope and LFO generators' own behaviour. Their code is not part of this model. Their transitions are parameters, given by the `EnvelopeRules`/`LfoRules` records. The promises a generator would have to keep (`StartsRunning`, `DoneIsFinal`) are hypotheses of the contracts that need them.
- `FM_CARRIERS_BY_ALGORITHM` and the preset layouts of Patch.h. Patch.h is not part of this model. The carrier table is a parameter of 8 rows of 4 flags. The presets hold only the fields the engine reads.
- The rest of FmPatchState. Patch.cpp defines only `getOperatorLevel` of FmPatchState, so its inputs (preset, velocity, delay flag) are parameters and not fields of a class.
- The bodies of getFrequencyNForCents, getFrequencyN, getFNumberForCents and getFNumber. They are declared only. The model states the declared contracts over any correction. The linear corrections are a reference, not the implementation.
- getBlock. Only its declaration exists, with no contract to state.
- Note 127 with non-zero cents. The header leaves it open. The reference corrections return 0 there, and no lemma claims anything about it.
- NoteMappings.LinearFNumberForCents: across every octave boundary (notes 11, 23, ...) the reference correction is 0, so cents on those notes do not move the F-number. The source's change of block there is part of getBlock, which is not modelled.
- Voice.h and MidiManager.h. They are declarations and plain structs whose behaviour lives elsewhere.
- `memcpy` in applyPsgPreset/applyFmPreset. It is modelled as a value copy of the whole preset; byte layout and aliasing of target and preset are not modelled.
- Patch.PsgPatchState.GetFrequencyCents: the sum is returned as an unbounded `int`. The source stores it in an `unsigned`, so a negative sum would wrap modulo 2^32. That is not modelled.
- Patch.PsgPatchState.GetLevel: the requires asks for a non-zero velocity interval whenever the division is reached. The source would divide by zero there.
- Patch.PsgPatchState.SetPatch: the bound preset is stored as a value snapshot, taken to stay unchanged while it is bound. The source keeps only a pointer `_patch` to a shared preset, re-reads it on every getLevel and getFrequencyCents, and hands the generators pointers into it. A write into the bound preset after setPatch (for example applyPsgPreset with it as target) changes the source's next level and frequency but not the model's; that aliasing is not modelled.
- Patch.PsgPatchState.constructor: the source leaves pitch, velocity, `held`, the preset pointer and the generators uninitialised until setPatch and noteOn. The model leaves them arbitrary, and a state read before setPatch reads an arbitrary preset rather than an unset pointer.
- Patch.OperatorLevel: delay attenuations are taken as non-negative. The source mixes signed and unsigned operands, and a negative attenuation would become a huge unsigned value. Total levels are taken in 0..127, the 7-bit range of the register.
- Patch.VelocityScaledOperatorLevel: integers are unbounded, so signed 32-bit overflow in `(velocity_center - velocity) * scaling` is not modelled. It cannot happen if, as assumed, the operator scalings are byte-sized, but the model's `operatorScaling` is an unbounded `int`. The sum `total_level + attenuation` is taken to be computed in signed `int`, as the preset types in Patch.h are not part of this model. If `total_level` were `unsigned`, a negative sum would wrap and LIMIT would give 127 instead of 0.
- NoteMappings.FrequencyN: returns an `int`. The source's unsigned subtraction would wrap if a correction exceeded the entry. With the reference correction it never does.

## Findings

| source | as written | input that shows it | evidently intended | confidence | as-written member | corrected member |
|---|---|---|---|---|---|---|
| src/arduino/Patch.cpp:109-124 | an operator with zero velocity scaling returns its total level before the delay check, so a delay copy's carrier is not ducked | total level 20 on every operator, scaling 0, delay copy, carrier operator, delay attenuation 5: the level is 20, the same as the primary voice | zero scaling skips only the velocity scaling; the delay copy's carrier still gets 8 per step of attenuation, giving 60 | medium, not executed | Patch.OperatorLevel, Patch.ZeroScalingSkipsDelayDucking | Patch.DuckedOperatorLevel, Patch.DelayCarriersAlwaysDucked |
