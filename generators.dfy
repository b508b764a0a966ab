/** The envelope and LFO generators that a patch state owns, seen only
    through the interface the patch engine uses: a status (envelopes only),
    a signed value, and the transitions initialize, set-shape, start,
    note-off and tick. What each transition does to a generator is the
    generator's own code, which is not part of this model, so it is given
    as a rules record of total functions. */
module Generators {

  /** The status an envelope reports; the patch engine distinguishes only
      the terminal `Done`. */
  datatype EnvelopeStatus = Running(phase: nat) | Done

  /** An envelope shape as stored in a preset. Its layout is defined
      outside this model; it is carried through verbatim. */
  datatype EnvelopeShape = EnvelopeShape(words: seq<int>)

  /** An LFO shape as stored in a preset, carried through verbatim. */
  datatype LfoShape = LfoShape(words: seq<int>)

  /** An envelope generator: its status, its current value and whatever
      else it remembers. */
  datatype EnvelopeState = EnvelopeState(status: EnvelopeStatus, value: int, memory: seq<int>)

  /** An LFO generator: its current value and whatever else it remembers. */
  datatype LfoState = LfoState(value: int, memory: seq<int>)

  /** What the envelope generator's transitions do. */
  datatype EnvelopeRules = EnvelopeRules(
    initialize: EnvelopeState -> EnvelopeState,
    setEnvelopeShape: (EnvelopeState, EnvelopeShape) -> EnvelopeState,
    start: EnvelopeState -> EnvelopeState,
    noteOff: EnvelopeState -> EnvelopeState,
    tick: EnvelopeState -> EnvelopeState)
  {
    /** The generator's published promise that `start` leaves it running. */
    ghost predicate StartsRunning()
    {
      forall e: EnvelopeState {:trigger start(e)} :: start(e).status != Done
    }

    /** The generator's published promise that `Done` is only left by a
        new `start`: neither a tick nor a note-off leaves it. */
    ghost predicate DoneIsFinal()
    {
      (forall e: EnvelopeState {:trigger tick(e)} :: e.status == Done ==> tick(e).status == Done) &&
      (forall e: EnvelopeState {:trigger noteOff(e)} :: e.status == Done ==> noteOff(e).status == Done)
    }
  }

  /** What the LFO generator's transitions do. */
  datatype LfoRules = LfoRules(
    initialize: LfoState -> LfoState,
    setLfo: (LfoState, LfoShape) -> LfoState,
    start: LfoState -> LfoState,
    noteOff: LfoState -> LfoState,
    tick: LfoState -> LfoState)

  /** The four generators a patch state owns. */
  datatype Generator = AmplitudeEnvelope | FrequencyEnvelope | AmplitudeLfo | FrequencyLfo

  /** The transitions a patch state sends to its generators. */
  datatype Transition = Initialize | SetShape | Start | NoteOff | Tick

  /** One transition sent to one generator; a patch state's history of
      these records the order in which its generators were driven. */
  datatype Call = Call(generator: Generator, transition: Transition)

  /** The same transition sent to all four generators in the fixed order
      amplitude envelope, frequency envelope, amplitude LFO, frequency LFO. */
  function ToAll(t: Transition): seq<Call>
  {
    [Call(AmplitudeEnvelope, t), Call(FrequencyEnvelope, t), Call(AmplitudeLfo, t), Call(FrequencyLfo, t)]
  }
}
