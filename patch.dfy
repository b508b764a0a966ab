/** The per-voice patch parameter engine of src/arduino/Patch.cpp: presets,
    the PSG patch state (a class that drives four generators and computes a
    level and a frequency from them), and the FM operator level policy. */
module Patch {
  import opened IntegerPolicy
  import opened Generators

  // ---------------------------------------------------------------------
  // Presets. Patch.h is not part of this model: each structure holds the
  // fields the engine reads, with the ranges of the chip registers they feed.
  // ---------------------------------------------------------------------

  /** The PSG's level is 4 bits. */
  const PSG_MAX_LEVEL := 15
  /** An FM operator's total level is 7 bits. */
  const FM_MAX_LEVEL := 127
  const FM_OPERATOR_COUNT := 4
  const FM_ALGORITHM_COUNT := 8
  /** FM velocity scaling is fixed point: 64 stands for a factor of one. */
  const FM_SCALING_ONE := 64
  /** Each step of FM delay attenuation adds 8 to a carrier's total level. */
  const FM_DELAY_STEP := 8

  datatype PsgDelayConfig = PsgDelayConfig(detuneCents: int, attenuation: nat)

  datatype VelocityConfig = VelocityConfig(velocityCenter: byte, interval: int)

  datatype PsgPatch = PsgPatch(
    amplitudeEnvelope: EnvelopeShape,
    frequencyEnvelope: EnvelopeShape,
    amplitudeLfo: LfoShape,
    frequencyLfo: LfoShape,
    detuneCents: int,
    delayConfig: PsgDelayConfig,
    velocityConfig: VelocityConfig)

  type TotalLevel = x: int | 0 <= x <= 127

  datatype FmOperator = FmOperator(totalLevel: TotalLevel, otherParameters: seq<int>)

  datatype FmCoreParameters = FmCoreParameters(algorithm: nat, operators: seq<FmOperator>)

  datatype VelocityLevelScaling = VelocityLevelScaling(velocityCenter: byte, operatorScaling: seq<int>)

  datatype FmDelayConfig = FmDelayConfig(attenuation: nat)

  datatype FmPatch = FmPatch(
    coreParameters: FmCoreParameters,
    velocityLevelScaling: VelocityLevelScaling,
    delayConfig: FmDelayConfig)

  /** The fixed array sizes of the FM preset, and an algorithm number that
      indexes the carrier table. */
  predicate WellFormedFmPatch(patch: FmPatch)
  {
    patch.coreParameters.algorithm < FM_ALGORITHM_COUNT &&
    |patch.coreParameters.operators| == FM_OPERATOR_COUNT &&
    |patch.velocityLevelScaling.operatorScaling| == FM_OPERATOR_COUNT
  }

  /** FM_CARRIERS_BY_ALGORITHM: for each algorithm, which of the four
      operators are carriers. Its contents are not part of this model. */
  type CarrierTable = seq<seq<bool>>

  predicate WellFormedCarrierTable(carriers: CarrierTable)
  {
    |carriers| == FM_ALGORITHM_COUNT &&
    forall a :: 0 <= a < |carriers| ==> |carriers[a]| == FM_OPERATOR_COUNT
  }

  // ---------------------------------------------------------------------
  // Helpers of Patch.cpp
  // ---------------------------------------------------------------------

  /** getDelayTicks: a delay time in the preset's units, as ticks. The
      conversion is exact and invertible, so no delay time is lost. */
  function DelayTicks(delayTime: byte): (ticks: nat)
    ensures ticks % 4 == 0 && ticks / 4 == delayTime
    ensures ticks <= 4 * 255
  {
    4 * delayTime
  }

  /** applyPsgPreset: the target becomes a verbatim copy of the preset;
      nothing of the old target survives. */
  function ApplyPsgPreset(target: PsgPatch, preset: PsgPatch): (copied: PsgPatch)
    ensures copied.amplitudeEnvelope == preset.amplitudeEnvelope
    ensures copied.frequencyEnvelope == preset.frequencyEnvelope
    ensures copied.amplitudeLfo == preset.amplitudeLfo
    ensures copied.frequencyLfo == preset.frequencyLfo
    ensures copied.detuneCents == preset.detuneCents
    ensures copied.delayConfig == preset.delayConfig
    ensures copied.velocityConfig == preset.velocityConfig
  {
    preset
  }

  /** applyFmPreset: the target becomes a verbatim copy of the preset;
      nothing of the old target survives. */
  function ApplyFmPreset(target: FmPatch, preset: FmPatch): (copied: FmPatch)
    ensures copied.coreParameters == preset.coreParameters
    ensures copied.velocityLevelScaling == preset.velocityLevelScaling
    ensures copied.delayConfig == preset.delayConfig
  {
    preset
  }

  // ---------------------------------------------------------------------
  // PSG level policy
  // ---------------------------------------------------------------------

  /** The PSG level before delay attenuation: the envelope value minus
      (velocity_center - velocity) / interval, truncated toward zero, and
      clamped to the chip's 0..15. A velocity at the centre costs nothing. */
  function VelocityScaledLevel(envelope: int, velocity: byte, config: VelocityConfig): (level: nat)
    requires config.interval != 0
    ensures level <= PSG_MAX_LEVEL
    ensures velocity == config.velocityCenter ==> level == Limit(envelope, 0, PSG_MAX_LEVEL)
    ensures 0 <= envelope <= PSG_MAX_LEVEL && velocity == config.velocityCenter ==> level == envelope
  {
    Limit(envelope - TruncDiv(config.velocityCenter - velocity, config.interval), 0, PSG_MAX_LEVEL)
  }

  /** With a positive interval a louder velocity never gives a lower level. */
  lemma {:induction false} VelocityScaledLevelRisesWithVelocity(envelope: int, config: VelocityConfig, v1: byte, v2: byte)
    requires config.interval > 0 && v1 <= v2
    ensures VelocityScaledLevel(envelope, v1, config) <= VelocityScaledLevel(envelope, v2, config)
  {
    TruncDivMonotone(config.velocityCenter - v2, config.velocityCenter - v1, config.interval);
    LimitMonotone(envelope - TruncDiv(config.velocityCenter - v1, config.interval),
                  envelope - TruncDiv(config.velocityCenter - v2, config.interval), 0, PSG_MAX_LEVEL);
  }

  /** With a negative interval the velocity sense is inverted: a louder
      velocity never gives a higher level. */
  lemma {:induction false} VelocityScaledLevelFallsWithVelocity(envelope: int, config: VelocityConfig, v1: byte, v2: byte)
    requires config.interval < 0 && v1 <= v2
    ensures VelocityScaledLevel(envelope, v1, config) >= VelocityScaledLevel(envelope, v2, config)
  {
    var c, i := config.velocityCenter, config.interval;
    TruncDivNegateDivisor(c - v1, -i);
    TruncDivNegateDivisor(c - v2, -i);
    TruncDivMonotone(c - v2, c - v1, -i);
    LimitMonotone(envelope - TruncDiv(c - v2, i), envelope - TruncDiv(c - v1, i), 0, PSG_MAX_LEVEL);
  }

  // ---------------------------------------------------------------------
  // PSG patch state
  // ---------------------------------------------------------------------

  /** PsgPatchState: the mutable per-voice state of a PSG voice. It is bound
      to a preset by SetPatch, owns four generators, and records the pitch
      and velocity of the current note. `calls` is the history of the
      transitions it has sent to its generators, in order. */
  class PsgPatchState {
    const envelopeRules: EnvelopeRules
    const lfoRules: LfoRules

    var patch: PsgPatch
    var patchSet: bool
    var isDelay: bool
    var pitch: byte
    var velocity: byte
    var held: bool

    var amplitudeEnvelope: EnvelopeState
    var frequencyEnvelope: EnvelopeState
    var amplitudeLfo: LfoState
    var frequencyLfo: LfoState

    ghost var calls: seq<Call>

    /** No preset is bound and the state is not a delay copy; the pitch,
        velocity and generators are left as they happen to be. */
    constructor (envelopeRules: EnvelopeRules, lfoRules: LfoRules)
      ensures this.envelopeRules == envelopeRules && this.lfoRules == lfoRules
      ensures !patchSet && !isDelay
      ensures calls == []
    {
      this.envelopeRules := envelopeRules;
      this.lfoRules := lfoRules;
      patchSet := false;
      isDelay := false;
      calls := [];
    }

    /** Re-initialises all four generators, in order; nothing else changes. */
    method Initialize()
      modifies this`amplitudeEnvelope, this`frequencyEnvelope, this`amplitudeLfo, this`frequencyLfo, this`calls
      ensures amplitudeEnvelope == envelopeRules.initialize(old(amplitudeEnvelope))
      ensures frequencyEnvelope == envelopeRules.initialize(old(frequencyEnvelope))
      ensures amplitudeLfo == lfoRules.initialize(old(amplitudeLfo))
      ensures frequencyLfo == lfoRules.initialize(old(frequencyLfo))
      ensures calls == old(calls) + ToAll(Transition.Initialize)
    {
      amplitudeEnvelope := envelopeRules.initialize(amplitudeEnvelope);
      frequencyEnvelope := envelopeRules.initialize(frequencyEnvelope);
      amplitudeLfo := lfoRules.initialize(amplitudeLfo);
      frequencyLfo := lfoRules.initialize(frequencyLfo);
      calls := calls + ToAll(Transition.Initialize);
    }

    /** Gives each generator its shape from a preset, in order. */
    method SetShapes(shapes: PsgPatch)
      modifies this`amplitudeEnvelope, this`frequencyEnvelope, this`amplitudeLfo, this`frequencyLfo, this`calls
      ensures amplitudeEnvelope == envelopeRules.setEnvelopeShape(old(amplitudeEnvelope), shapes.amplitudeEnvelope)
      ensures frequencyEnvelope == envelopeRules.setEnvelopeShape(old(frequencyEnvelope), shapes.frequencyEnvelope)
      ensures amplitudeLfo == lfoRules.setLfo(old(amplitudeLfo), shapes.amplitudeLfo)
      ensures frequencyLfo == lfoRules.setLfo(old(frequencyLfo), shapes.frequencyLfo)
      ensures calls == old(calls) + ToAll(Transition.SetShape)
    {
      amplitudeEnvelope := envelopeRules.setEnvelopeShape(amplitudeEnvelope, shapes.amplitudeEnvelope);
      frequencyEnvelope := envelopeRules.setEnvelopeShape(frequencyEnvelope, shapes.frequencyEnvelope);
      amplitudeLfo := lfoRules.setLfo(amplitudeLfo, shapes.amplitudeLfo);
      frequencyLfo := lfoRules.setLfo(frequencyLfo, shapes.frequencyLfo);
      calls := calls + ToAll(Transition.SetShape);
    }

    /** Binds the preset and the delay flag, re-initialises all four
        generators and only then gives each its shape from the preset. The
        current note (pitch, velocity, held) is kept. */
    method SetPatch(newPatch: PsgPatch, newIsDelay: bool)
      modifies this
      ensures patch == newPatch && patchSet && isDelay == newIsDelay
      ensures amplitudeEnvelope == envelopeRules.setEnvelopeShape(
                envelopeRules.initialize(old(amplitudeEnvelope)), newPatch.amplitudeEnvelope)
      ensures frequencyEnvelope == envelopeRules.setEnvelopeShape(
                envelopeRules.initialize(old(frequencyEnvelope)), newPatch.frequencyEnvelope)
      ensures amplitudeLfo == lfoRules.setLfo(lfoRules.initialize(old(amplitudeLfo)), newPatch.amplitudeLfo)
      ensures frequencyLfo == lfoRules.setLfo(lfoRules.initialize(old(frequencyLfo)), newPatch.frequencyLfo)
      ensures calls == old(calls) + ToAll(Transition.Initialize) + ToAll(Transition.SetShape)
      ensures pitch == old(pitch) && velocity == old(velocity) && held == old(held)
    {
      patch := newPatch;
      Initialize();
      SetShapes(newPatch);
      patchSet := true;
      isDelay := newIsDelay;
    }

    /** Records the note, marks it held and restarts all four generators
        (restart, not resume). With a generator that starts running, the
        state is active afterwards. */
    method NoteOn(newPitch: byte, newVelocity: byte)
      modifies this
      ensures pitch == newPitch && velocity == newVelocity && held
      ensures amplitudeEnvelope == envelopeRules.start(old(amplitudeEnvelope))
      ensures frequencyEnvelope == envelopeRules.start(old(frequencyEnvelope))
      ensures amplitudeLfo == lfoRules.start(old(amplitudeLfo))
      ensures frequencyLfo == lfoRules.start(old(frequencyLfo))
      ensures calls == old(calls) + ToAll(Transition.Start)
      ensures patch == old(patch) && patchSet == old(patchSet) && isDelay == old(isDelay)
      ensures envelopeRules.StartsRunning() ==> IsActive()
    {
      pitch := newPitch;
      velocity := newVelocity;
      held := true;
      amplitudeEnvelope := envelopeRules.start(amplitudeEnvelope);
      frequencyEnvelope := envelopeRules.start(frequencyEnvelope);
      amplitudeLfo := lfoRules.start(amplitudeLfo);
      frequencyLfo := lfoRules.start(frequencyLfo);
      calls := calls + ToAll(Transition.Start);
    }

    /** Releases the note: clears `held` and sends note-off to all four
        generators. Pitch, velocity, preset and delay flag are kept, and a
        state that had finished stays finished. */
    method NoteOff()
      modifies this
      ensures !held
      ensures amplitudeEnvelope == envelopeRules.noteOff(old(amplitudeEnvelope))
      ensures frequencyEnvelope == envelopeRules.noteOff(old(frequencyEnvelope))
      ensures amplitudeLfo == lfoRules.noteOff(old(amplitudeLfo))
      ensures frequencyLfo == lfoRules.noteOff(old(frequencyLfo))
      ensures calls == old(calls) + ToAll(Transition.NoteOff)
      ensures pitch == old(pitch) && velocity == old(velocity)
      ensures patch == old(patch) && patchSet == old(patchSet) && isDelay == old(isDelay)
      ensures envelopeRules.DoneIsFinal() && !old(IsActive()) ==> !IsActive()
    {
      held := false;
      amplitudeEnvelope := envelopeRules.noteOff(amplitudeEnvelope);
      frequencyEnvelope := envelopeRules.noteOff(frequencyEnvelope);
      amplitudeLfo := lfoRules.noteOff(amplitudeLfo);
      frequencyLfo := lfoRules.noteOff(frequencyLfo);
      calls := calls + ToAll(Transition.NoteOff);
    }

    /** One tick. Once the amplitude envelope is done nothing changes at all;
        otherwise each generator is advanced exactly once, in the order
        amplitude envelope, frequency envelope, amplitude LFO, frequency LFO. */
    method Tick()
      modifies this
      ensures !old(IsActive()) ==> unchanged(this)
      ensures old(IsActive()) ==>
        amplitudeEnvelope == envelopeRules.tick(old(amplitudeEnvelope)) &&
        frequencyEnvelope == envelopeRules.tick(old(frequencyEnvelope)) &&
        amplitudeLfo == lfoRules.tick(old(amplitudeLfo)) &&
        frequencyLfo == lfoRules.tick(old(frequencyLfo)) &&
        calls == old(calls) + ToAll(Transition.Tick)
      ensures pitch == old(pitch) && velocity == old(velocity) && held == old(held)
      ensures patch == old(patch) && patchSet == old(patchSet) && isDelay == old(isDelay)
      ensures envelopeRules.DoneIsFinal() && !old(IsActive()) ==> !IsActive()
    {
      if amplitudeEnvelope.status == Done {
        return;
      }
      amplitudeEnvelope := envelopeRules.tick(amplitudeEnvelope);
      frequencyEnvelope := envelopeRules.tick(frequencyEnvelope);
      amplitudeLfo := lfoRules.tick(amplitudeLfo);
      frequencyLfo := lfoRules.tick(frequencyLfo);
      calls := calls + ToAll(Transition.Tick);
    }

    /** isActive: the voice sounds until its amplitude envelope is done. */
    predicate IsActive()
      reads this
    {
      amplitudeEnvelope.status != Done
    }

    /** getFrequencyCents: the note's pitch in cents, moved by the frequency
        LFO and the preset's detune; the delay copy is further detuned by the
        delay detune, and only the delay copy is. */
    function GetFrequencyCents(): (cents: int)
      reads this
      ensures cents - frequencyLfo.value - patch.detuneCents ==
                100 * pitch + (if isDelay then patch.delayConfig.detuneCents else 0)
      ensures !isDelay ==> cents == 100 * pitch + frequencyLfo.value + patch.detuneCents
    {
      var frequencyCents := pitch * 100 + frequencyLfo.value + patch.detuneCents;
      if isDelay then frequencyCents + patch.delayConfig.detuneCents else frequencyCents
    }

    /** getLevel: silent once the envelope is done or at a zero envelope
        value, whatever the velocity; otherwise the velocity-scaled level,
        which the delay copy lowers further by the delay attenuation, never
        below 0. */
    function GetLevel(): (level: nat)
      reads this
      requires IsActive() && amplitudeEnvelope.value != 0 ==> patch.velocityConfig.interval != 0
      ensures level <= PSG_MAX_LEVEL
      ensures !IsActive() ==> level == 0
      ensures amplitudeEnvelope.value == 0 ==> level == 0
      ensures IsActive() && amplitudeEnvelope.value != 0 && !isDelay ==>
        level == VelocityScaledLevel(amplitudeEnvelope.value, velocity, patch.velocityConfig)
      ensures IsActive() && amplitudeEnvelope.value != 0 && isDelay ==>
        level == Max(VelocityScaledLevel(amplitudeEnvelope.value, velocity, patch.velocityConfig)
                     - patch.delayConfig.attenuation, 0)
      ensures IsActive() && amplitudeEnvelope.value != 0 ==>
        level <= VelocityScaledLevel(amplitudeEnvelope.value, velocity, patch.velocityConfig)
    {
      if !IsActive() then 0
      else
        var envelopeAmplitude := amplitudeEnvelope.value;
        if envelopeAmplitude == 0 then 0
        else
          var scaledLevel := VelocityScaledLevel(envelopeAmplitude, velocity, patch.velocityConfig);
          if isDelay then FloorMinus(scaledLevel, patch.delayConfig.attenuation) else scaledLevel
    }
  }

  // ---------------------------------------------------------------------
  // FM operator level policy (FmPatchState::getOperatorLevel). The FM patch
  // state's other members are not part of this model; the fields its
  // getOperatorLevel reads are parameters here.
  // ---------------------------------------------------------------------

  function IsCarrier(patch: FmPatch, carriers: CarrierTable, op: nat): bool
    requires WellFormedFmPatch(patch) && WellFormedCarrierTable(carriers) && op < FM_OPERATOR_COUNT
  {
    carriers[patch.coreParameters.algorithm][op]
  }

  /** The operator's total level scaled by velocity: total_level plus
      (velocity_center - velocity) * operator_scaling / 64, truncated toward
      zero, clamped to 0..127. At the centre velocity it is the preset's
      total level. */
  function VelocityScaledOperatorLevel(patch: FmPatch, velocity: byte, op: nat): (level: nat)
    requires WellFormedFmPatch(patch) && op < FM_OPERATOR_COUNT
    ensures level <= FM_MAX_LEVEL
    ensures velocity == patch.velocityLevelScaling.velocityCenter ==>
      level == patch.coreParameters.operators[op].totalLevel
  {
    var velocityMagnitude := patch.velocityLevelScaling.velocityCenter - velocity;
    var velocityScaling := patch.velocityLevelScaling.operatorScaling[op];
    var attenuation := TruncDiv(velocityMagnitude * velocityScaling, FM_SCALING_ONE);
    Limit(patch.coreParameters.operators[op].totalLevel + attenuation, 0, FM_MAX_LEVEL)
  }

  /** getOperatorLevel, as the source writes it: an operator with zero
      velocity scaling keeps its preset total level outright; otherwise the
      velocity-scaled level, to which the delay copy adds 8 per step of
      delay attenuation on carrier operators only, capped at 127. */
  function OperatorLevel(patch: FmPatch, velocity: byte, isDelay: bool, carriers: CarrierTable, op: nat): (level: nat)
    requires WellFormedFmPatch(patch) && WellFormedCarrierTable(carriers) && op < FM_OPERATOR_COUNT
    ensures level <= FM_MAX_LEVEL
    ensures patch.velocityLevelScaling.operatorScaling[op] == 0 ==>
      level == patch.coreParameters.operators[op].totalLevel
    ensures patch.velocityLevelScaling.operatorScaling[op] != 0 && !(isDelay && IsCarrier(patch, carriers, op)) ==>
      level == VelocityScaledOperatorLevel(patch, velocity, op)
    ensures patch.velocityLevelScaling.operatorScaling[op] != 0 && isDelay && IsCarrier(patch, carriers, op) ==>
      level == Min(VelocityScaledOperatorLevel(patch, velocity, op) + FM_DELAY_STEP * patch.delayConfig.attenuation,
                   FM_MAX_LEVEL)
  {
    if patch.velocityLevelScaling.operatorScaling[op] == 0 then
      patch.coreParameters.operators[op].totalLevel
    else
      var velocityScaledLevel := VelocityScaledOperatorLevel(patch, velocity, op);
      if isDelay && IsCarrier(patch, carriers, op) then
        Limit(velocityScaledLevel + patch.delayConfig.attenuation * FM_DELAY_STEP, 0, FM_MAX_LEVEL)
      else
        velocityScaledLevel
  }

  /** The delay copy is never louder than the primary voice (a higher total
      level is more attenuation), and its modulators are identical to the
      primary's. */
  lemma DelayOnlyDucksCarriers(patch: FmPatch, velocity: byte, carriers: CarrierTable, op: nat)
    requires WellFormedFmPatch(patch) && WellFormedCarrierTable(carriers) && op < FM_OPERATOR_COUNT
    ensures OperatorLevel(patch, velocity, true, carriers, op) >= OperatorLevel(patch, velocity, false, carriers, op)
    ensures !IsCarrier(patch, carriers, op) ==>
      OperatorLevel(patch, velocity, true, carriers, op) == OperatorLevel(patch, velocity, false, carriers, op)
  {
  }

  /** (c - v1) * s >= (c - v2) * s for a positive scaling and v1 <= v2. */
  lemma ScaledMagnitudeOrder(c: int, v1: int, v2: int, s: int)
    requires v1 <= v2 && s > 0
    ensures (c - v1) * s >= (c - v2) * s
  {
    assert (c - v1) * s - (c - v2) * s == (v2 - v1) * s;
    NonNegativeProduct(v2 - v1, s);
  }

  /** With a positive operator scaling, a louder velocity never raises the
      operator's total level (never attenuates it more), for the primary
      voice and for the delay copy alike. */
  lemma {:induction false} OperatorLevelFallsWithVelocity(
    patch: FmPatch, v1: byte, v2: byte, isDelay: bool, carriers: CarrierTable, op: nat)
    requires WellFormedFmPatch(patch) && WellFormedCarrierTable(carriers) && op < FM_OPERATOR_COUNT
    requires patch.velocityLevelScaling.operatorScaling[op] > 0 && v1 <= v2
    ensures OperatorLevel(patch, v1, isDelay, carriers, op) >= OperatorLevel(patch, v2, isDelay, carriers, op)
  {
    var c, s := patch.velocityLevelScaling.velocityCenter, patch.velocityLevelScaling.operatorScaling[op];
    var tl := patch.coreParameters.operators[op].totalLevel;
    ScaledMagnitudeOrder(c, v1, v2, s);
    TruncDivMonotone((c - v2) * s, (c - v1) * s, FM_SCALING_ONE);
    LimitMonotone(tl + TruncDiv((c - v2) * s, FM_SCALING_ONE), tl + TruncDiv((c - v1) * s, FM_SCALING_ONE), 0, FM_MAX_LEVEL);
  }

  // ---------------------------------------------------------------------
  // The zero-scaling early return of getOperatorLevel also skips the delay
  // copy's carrier ducking. PrimaryOperatorLevel and DuckedOperatorLevel
  // are the evidently intended policy: the bypass only skips the velocity
  // scaling, and the delay copy's carriers are always ducked.
  // ---------------------------------------------------------------------

  /** The operator level of the primary voice: the preset's total level when
      the operator has no velocity scaling, else the velocity-scaled level. */
  function PrimaryOperatorLevel(patch: FmPatch, velocity: byte, op: nat): (level: nat)
    requires WellFormedFmPatch(patch) && op < FM_OPERATOR_COUNT
    ensures level <= FM_MAX_LEVEL
    ensures patch.velocityLevelScaling.operatorScaling[op] == 0 ==>
      level == patch.coreParameters.operators[op].totalLevel
  {
    if patch.velocityLevelScaling.operatorScaling[op] == 0 then patch.coreParameters.operators[op].totalLevel
    else VelocityScaledOperatorLevel(patch, velocity, op)
  }

  /** The intended getOperatorLevel: the primary level, to which the delay
      copy adds 8 per step of delay attenuation on every carrier, whatever
      the operator's velocity scaling. */
  function DuckedOperatorLevel(patch: FmPatch, velocity: byte, isDelay: bool, carriers: CarrierTable, op: nat): (level: nat)
    requires WellFormedFmPatch(patch) && WellFormedCarrierTable(carriers) && op < FM_OPERATOR_COUNT
    ensures level <= FM_MAX_LEVEL
    ensures isDelay && IsCarrier(patch, carriers, op) ==>
      level == Min(PrimaryOperatorLevel(patch, velocity, op) + FM_DELAY_STEP * patch.delayConfig.attenuation,
                   FM_MAX_LEVEL)
    ensures !(isDelay && IsCarrier(patch, carriers, op)) ==> level == PrimaryOperatorLevel(patch, velocity, op)
  {
    var primary := PrimaryOperatorLevel(patch, velocity, op);
    if isDelay && IsCarrier(patch, carriers, op) then
      Limit(primary + patch.delayConfig.attenuation * FM_DELAY_STEP, 0, FM_MAX_LEVEL)
    else
      primary
  }

  /** The two policies agree everywhere except on a delay copy's carrier
      with zero velocity scaling. */
  lemma DuckingDiffersOnlyAtZeroScaling(patch: FmPatch, velocity: byte, isDelay: bool, carriers: CarrierTable, op: nat)
    requires WellFormedFmPatch(patch) && WellFormedCarrierTable(carriers) && op < FM_OPERATOR_COUNT
    ensures OperatorLevel(patch, velocity, false, carriers, op) == PrimaryOperatorLevel(patch, velocity, op)
    ensures !(isDelay && IsCarrier(patch, carriers, op) && patch.velocityLevelScaling.operatorScaling[op] == 0) ==>
      OperatorLevel(patch, velocity, isDelay, carriers, op) == DuckedOperatorLevel(patch, velocity, isDelay, carriers, op)
  {
  }

  /** In the intended policy every carrier of the delay copy is strictly
      quieter than the primary's whenever there is delay attenuation and
      room below the 127 ceiling. */
  lemma DelayCarriersAlwaysDucked(patch: FmPatch, velocity: byte, carriers: CarrierTable, op: nat)
    requires WellFormedFmPatch(patch) && WellFormedCarrierTable(carriers) && op < FM_OPERATOR_COUNT
    requires IsCarrier(patch, carriers, op) && patch.delayConfig.attenuation > 0
    requires PrimaryOperatorLevel(patch, velocity, op) < FM_MAX_LEVEL
    ensures DuckedOperatorLevel(patch, velocity, true, carriers, op) > PrimaryOperatorLevel(patch, velocity, op)
  {
  }

  /** As written, a delay copy's carrier with zero velocity scaling is not
      ducked: with total level 20 and delay attenuation 5 it stays at 20,
      as loud as the primary voice, where the intended level is 60. */
  lemma ZeroScalingSkipsDelayDucking()
    ensures var op := FmOperator(20, []);
            var patch := FmPatch(FmCoreParameters(0, [op, op, op, op]),
                                 VelocityLevelScaling(64, [0, 0, 0, 0]),
                                 FmDelayConfig(5));
            var carriers := [[true, true, true, true], [true, true, true, true],
                             [true, true, true, true], [true, true, true, true],
                             [true, true, true, true], [true, true, true, true],
                             [true, true, true, true], [true, true, true, true]];
            OperatorLevel(patch, 100, true, carriers, 3) == 20 &&
            OperatorLevel(patch, 100, false, carriers, 3) == 20 &&
            DuckedOperatorLevel(patch, 100, true, carriers, 3) == 60
  {
  }
}
