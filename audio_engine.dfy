/** The synthesizer. Every Web Audio call an instrument voice makes (creating
    a node, setting a wave type or a parameter, scheduling a ramp, connecting,
    starting, stopping) is recorded as one operation in the engine's plan, in
    the order the source issues it. Strummed chords are recorded as the timers
    they set. The audio clock and Math.random() are parameters. */
module AudioEngine {
  import opened Types

  datatype Wave = Sine | Triangle | Sawtooth
  datatype FilterType = Lowpass | Bandpass
  datatype NodeKind = OscillatorNode | GainNode | BiquadFilterNode | BufferSourceNode

  /** The audio parameters the voices touch. */
  datatype Param = Frequency | Detune | Gain | Q

  /** Where a connection goes: a node, one of a node's parameters, or the
      master gain (which feeds the device). */
  datatype Target = Node(id: nat) | ParamOf(id: nat, param: Param) | Master

  /** One recorded Web Audio call; `id` names the node it acts on. */
  datatype Op =
    | Create(id: nat, kind: NodeKind)
    | SetWave(id: nat, wave: Wave)
    | SetFilterType(id: nat, filter: FilterType)
    | SetValue(id: nat, param: Param, value: real)
    | SetValueAtTime(id: nat, param: Param, value: real, time: real)
    | LinearRamp(id: nat, param: Param, value: real, time: real)
    | ExponentialRamp(id: nat, param: Param, value: real, time: real)
    | Connect(from: nat, to: Target)
    | LoadBuffer(id: nat, samples: seq<real>)
    | Start(id: nat, time: real)
    | Stop(id: nat, time: real)

  /** A setTimeout the strum registers: after delayMs, playTone(frequency,
      duration, instrument). */
  datatype Timer = Timer(delayMs: real, frequency: real, duration: real, instrument: Instrument)

  // ------------------------------------------------------------------
  // The voice plans, one per timbre, starting at node id n
  // ------------------------------------------------------------------

  /** An oscillator's wave type and its frequency set at time t. */
  function Tone(osc: nat, wave: Wave, f: real, t: real): seq<Op>
  {
    [SetWave(osc, wave), SetValueAtTime(osc, Frequency, f, t)]
  }

  /** A source started at t and stopped at `stop`. */
  function Play(source: nat, t: real, stop: real): seq<Op>
  {
    [Start(source, t), Stop(source, stop)]
  }

  /** synthMetallophone's envelope: 0 -> 0.6 in 5 ms, exponential decay to
      0.001 at t + d. */
  function MetallophoneEnvelope(env: nat, t: real, d: real): seq<Op>
  {
    [ SetValueAtTime(env, Gain, 0.0, t),
      LinearRamp(env, Gain, 0.6, t + 0.005),
      ExponentialRamp(env, Gain, 0.001, t + d) ]
  }

  /** synthMetallophone: one sine through its envelope. */
  function MetallophonePlan(f: real, t: real, d: real, n: nat): seq<Op>
  {
    [Create(n, OscillatorNode), Create(n + 1, GainNode)]
    + Tone(n, Sine, f, t)
    + MetallophoneEnvelope(n + 1, t, d)
    + [Connect(n, Node(n + 1)), Connect(n + 1, Master)]
    + Play(n, t, t + d)
  }

  /** A piano voice's envelope: 0 -> peak in 20 ms, exponential decay to 0.01
      at t + d. */
  function PianoEnvelope(gain: nat, peak: real, t: real, d: real): seq<Op>
  {
    [ SetValueAtTime(gain, Gain, 0.0, t),
      LinearRamp(gain, Gain, peak, t + 0.02),
      ExponentialRamp(gain, Gain, 0.01, t + d) ]
  }

  /** One createOsc call of synthPiano: an oscillator and its own gain. */
  function PianoVoicePlan(f: real, t: real, d: real, n: nat, wave: Wave, detune: real, peak: real): seq<Op>
  {
    [Create(n, OscillatorNode), Create(n + 1, GainNode)]
    + Tone(n, wave, f, t) + [SetValue(n, Detune, detune)]
    + PianoEnvelope(n + 1, peak, t, d)
    + [Connect(n, Node(n + 1)), Connect(n + 1, Master)]
    + Play(n, t, t + d)
  }

  /** synthPiano: the triangle fundamental and two sines 5 cents sharp and flat. */
  function PianoPlan(f: real, t: real, d: real, n: nat): seq<Op>
  {
    PianoVoicePlan(f, t, d, n, Triangle, 0.0, 0.4)
    + PianoVoicePlan(f, t, d, n + 2, Sine, 5.0, 0.3)
    + PianoVoicePlan(f, t, d, n + 4, Sine, -5.0, 0.3)
  }

  /** synthGuitar's lowpass: Q 0, cutoff 6f falling exponentially to f in 300 ms. */
  function GuitarFilter(filter: nat, f: real, t: real): seq<Op>
  {
    [ SetFilterType(filter, Lowpass), SetValue(filter, Q, 0.0),
      SetValueAtTime(filter, Frequency, f * 6.0, t),
      ExponentialRamp(filter, Frequency, f, t + 0.3) ]
  }

  /** synthGuitar's pluck: 0 -> 0.5 in 15 ms, 0.1 at t + 0.5, 0 at t + d. */
  function GuitarEnvelope(env: nat, t: real, d: real): seq<Op>
  {
    [ SetValueAtTime(env, Gain, 0.0, t),
      LinearRamp(env, Gain, 0.5, t + 0.015),
      ExponentialRamp(env, Gain, 0.1, t + 0.5),
      LinearRamp(env, Gain, 0.0, t + d) ]
  }

  /** synthGuitar: a sawtooth through the lowpass and the pluck envelope. */
  function GuitarPlan(f: real, t: real, d: real, n: nat): seq<Op>
  {
    [Create(n, OscillatorNode), Create(n + 1, BiquadFilterNode), Create(n + 2, GainNode)]
    + Tone(n, Sawtooth, f, t)
    + GuitarFilter(n + 1, f, t)
    + GuitarEnvelope(n + 2, t, d)
    + [Connect(n, Node(n + 1)), Connect(n + 1, Node(n + 2)), Connect(n + 2, Master)]
    + Play(n, t, t + d)
  }

  /** The flute's LFO (node n + 3, 5 Hz) and its depth (node n + 4, gain 5),
      added to the frequency of oscillator n. */
  function FluteVibrato(n: nat): seq<Op>
  {
    [ Create(n + 3, OscillatorNode), Create(n + 4, GainNode),
      SetValue(n + 3, Frequency, 5.0), SetValue(n + 4, Gain, 5.0),
      Connect(n + 3, Node(n + 4)), Connect(n + 4, ParamOf(n, Frequency)) ]
  }

  /** The flute's breath: noise (node n + 5) through a bandpass at 2f, Q 1
      (node n + 6) and a gain of 0.05 (node n + 7) into the envelope n + 1. */
  function FluteBreath(f: real, n: nat, noise: seq<real>): seq<Op>
  {
    [ Create(n + 5, BufferSourceNode), LoadBuffer(n + 5, noise),
      Create(n + 6, BiquadFilterNode), SetFilterType(n + 6, Bandpass),
      SetValue(n + 6, Frequency, f * 2.0), SetValue(n + 6, Q, 1.0),
      Create(n + 7, GainNode), SetValue(n + 7, Gain, 0.05),
      Connect(n + 5, Node(n + 6)), Connect(n + 6, Node(n + 7)), Connect(n + 7, Node(n + 1)) ]
  }

  /** The flute's sound graph: the sine (n), its envelope (n + 1), a biquad
      filter (n + 2) that the source creates and never uses, the vibrato and
      the breath. */
  function FluteGraph(f: real, t: real, n: nat, noise: seq<real>): seq<Op>
  {
    [Create(n, OscillatorNode), Create(n + 1, GainNode), Create(n + 2, BiquadFilterNode)]
    + Tone(n, Sine, f, t)
    + FluteVibrato(n)
    + FluteBreath(f, n, noise)
  }

  /** The flute's envelope: 0 -> 0.5 in 100 ms, held at 0.5 until t + d - 0.2,
      0 at t + d. */
  function FluteEnvelope(env: nat, t: real, d: real): seq<Op>
  {
    [ SetValueAtTime(env, Gain, 0.0, t),
      LinearRamp(env, Gain, 0.5, t + 0.1),
      SetValueAtTime(env, Gain, 0.5, t + d - 0.2),
      LinearRamp(env, Gain, 0.0, t + d) ]
  }

  /** The flute's three sources, all started at t and stopped at t + d. */
  function FlutePlayback(n: nat, t: real, d: real): seq<Op>
  {
    [ Start(n, t), Start(n + 3, t), Start(n + 5, t),
      Stop(n, t + d), Stop(n + 3, t + d), Stop(n + 5, t + d) ]
  }

  /** synthFlute: the graph, the envelope, the wiring to the master and the
      playback. */
  function FlutePlan(f: real, t: real, d: real, n: nat, noise: seq<real>): seq<Op>
  {
    FluteGraph(f, t, n, noise)
    + FluteEnvelope(n + 1, t, d)
    + [Connect(n, Node(n + 1)), Connect(n + 1, Master)]
    + FlutePlayback(n, t, d)
  }

  /** The white-noise samples Math.random() * 2 - 1. */
  function NoiseSamples(random: seq<real>): seq<real>
  {
    seq(|random|, i requires 0 <= i < |random| => random[i] * 2.0 - 1.0)
  }

  /** The number of nodes each timbre creates. */
  function NodeCount(instrument: Instrument): nat
  {
    match instrument
    case Piano => 6
    case Guitar => 3
    case Flute => 8
    case Profelofono => 2
  }

  /** The flute sets one wave type, sine, on its tone: the LFO keeps the
      default wave and the noise source has none. */
  lemma FluteWaves(f: real, t: real, d: real, n: nat, noise: seq<real>)
    ensures WavesOnly(FlutePlan(f, t, d, n, noise), {SetWave(n, Sine)})
  {
    var w := {SetWave(n, Sine)};
    var head := [Create(n, OscillatorNode), Create(n + 1, GainNode), Create(n + 2, BiquadFilterNode)] + Tone(n, Sine, f, t);
    var graph := FluteVibrato(n) + FluteBreath(f, n, noise);
    var tail := FluteEnvelope(n + 1, t, d) + [Connect(n, Node(n + 1)), Connect(n + 1, Master)] + FlutePlayback(n, t, d);
    assert FlutePlan(f, t, d, n, noise) == head + graph + tail;
    NoWaves(graph, w);
    NoWaves(tail, w);
    WavesAppend(head, graph, w);
    WavesAppend(head + graph, tail, w);
  }

  /** playTone's dispatch: the guitar gets one extra second of tail; the
      metallophone is the default branch. */
  function TonePlan(instrument: Instrument, f: real, t: real, d: real, n: nat, noise: seq<real>): seq<Op>
  {
    match instrument
    case Piano => PianoPlan(f, t, d, n)
    case Guitar => GuitarPlan(f, t, d + 1.0, n)
    case Flute => FlutePlan(f, t, d, n, noise)
    case Profelofono => MetallophonePlan(f, t, d, n)
  }

  /** The delay of string i: 50 ms per string plus up to 10 ms of jitter. */
  function StrumOffset(i: nat, jitter: real): (s: real)
    requires 0.0 <= jitter < 1.0
    ensures 0.05 * (i as real) <= s < 0.05 * (i as real) + 0.01
  {
    (i as real) * 0.05 + jitter * 0.01
  }

  /** Every value lies in [0, 1), as Math.random() promises. */
  predicate UnitInterval(random: seq<real>)
  {
    forall i | 0 <= i < |random| :: 0.0 <= random[i] < 1.0
  }

  /** The timers playChord registers: one per frequency, in order. */
  function StrumSchedule(frequencies: seq<real>, instrument: Instrument, jitter: seq<real>): seq<Timer>
    requires |jitter| == |frequencies| && UnitInterval(jitter)
  {
    seq(|frequencies|, i requires 0 <= i < |frequencies| =>
      Timer(StrumOffset(i, jitter[i]) * 1000.0, frequencies[i], 3.5, instrument))
  }

  // ------------------------------------------------------------------
  // Queries over a plan
  // ------------------------------------------------------------------

  /** The operations the queries below pick out. */
  predicate CreatesOscillator(op: Op)
  {
    op.Create? && op.kind == OscillatorNode
  }

  predicate FeedsMaster(op: Op)
  {
    op.Connect? && op.to == Master
  }

  /** A start, if op is one, happens at t, and a stop at `stop`. */
  predicate TimedOp(op: Op, t: real, stop: real)
  {
    (op.Start? ==> op.time == t) && (op.Stop? ==> op.time == stop)
  }

  /** The oscillators a plan creates. */
  function Oscillators(p: seq<Op>): set<nat>
  {
    set op | op in p && CreatesOscillator(op) :: op.id
  }

  /** The nodes connected straight to the master gain. */
  function ToMaster(p: seq<Op>): set<nat>
  {
    set op | op in p && FeedsMaster(op) :: op.from
  }

  /** Every wave type p sets is one of `allowed`: no node gets another wave. */
  predicate WavesOnly(p: seq<Op>, allowed: set<Op>)
  {
    forall op | op in p && op.SetWave? :: op in allowed
  }

  /** Every start in p happens at t and every stop at `stop`. */
  predicate Timed(p: seq<Op>, t: real, stop: real)
  {
    forall op | op in p :: TimedOp(op, t, stop)
  }

  /** Node id is started at t and stopped at `stop`. */
  predicate Plays(p: seq<Op>, id: nat, t: real, stop: real)
  {
    Start(id, t) in p && Stop(id, stop) in p
  }

  /** The queries distribute over the concatenation of plans. */
  lemma QueriesAppend(a: seq<Op>, b: seq<Op>)
    ensures Oscillators(a + b) == Oscillators(a) + Oscillators(b)
    ensures ToMaster(a + b) == ToMaster(a) + ToMaster(b)
  {
  }

  /** Wave settings of a concatenation are those of its parts. */
  lemma WavesAppend(a: seq<Op>, b: seq<Op>, allowed: set<Op>)
    requires WavesOnly(a, allowed) && WavesOnly(b, allowed)
    ensures WavesOnly(a + b, allowed)
  {
  }

  /** A plan whose waves are among `a` has them among any larger set. */
  lemma WavesWiden(p: seq<Op>, a: set<Op>, b: set<Op>)
    requires WavesOnly(p, a) && a <= b
    ensures WavesOnly(p, b)
  {
  }

  /** Envelopes, filters, wiring and playback set no wave type. */
  lemma NoWaves(p: seq<Op>, allowed: set<Op>)
    requires forall op | op in p :: !op.SetWave?
    ensures WavesOnly(p, allowed)
  {
  }

  // ------------------------------------------------------------------
  // The engine
  // ------------------------------------------------------------------

  class Engine {
    /** `ctx != null` and `masterGain != null`. */
    var hasContext: bool
    var hasMasterGain: bool
    /** ctx.sampleRate, samples per second. */
    const sampleRate: nat
    /** ctx.state === 'suspended'. */
    var suspended: bool
    /** masterGain.gain.value. */
    var masterLevel: real
    /** The next free node id. */
    var nextId: nat
    /** Every Web Audio call made so far, in order. */
    var plan: seq<Op>
    /** The strum timers registered so far. */
    var timers: seq<Timer>

    /** The constructor: with an AudioContext class available, a context and a
        master gain at 0.5; otherwise neither. */
    constructor (available: bool, rate: nat, startsSuspended: bool)
      ensures hasContext == available && hasMasterGain == available
      ensures sampleRate == rate && suspended == (available && startsSuspended)
      ensures masterLevel == (if available then 0.5 else 0.0)
      ensures nextId == 0 && plan == [] && timers == []
    {
      hasContext := available;
      hasMasterGain := available;
      sampleRate := rate;
      suspended := available && startsSuspended;
      masterLevel := if available then 0.5 else 0.0;
      nextId := 0;
      plan := [];
      timers := [];
    }

    /** resumeContext, with the device's resume taken to succeed at once. */
    method ResumeContext()
      modifies this`suspended
      ensures suspended == (old(suspended) && !hasContext)
    {
      if hasContext && suspended {
        suspended := false;
      }
    }

    /** Record a group of calls, in order. */
    method Emit(ops: seq<Op>)
      modifies this`plan
      ensures plan == old(plan) + ops
    {
      for i := 0 to |ops|
        invariant plan == old(plan) + ops[..i]
      {
        plan := plan + [ops[i]];
      }
      assert ops[..|ops|] == ops;
    }

    /** Record the creation of a node under the next free id. */
    method CreateNode(kind: NodeKind) returns (id: nat)
      modifies this`plan, this`nextId
      ensures id == old(nextId) && nextId == old(nextId) + 1
      ensures plan == old(plan) + [Create(id, kind)]
    {
      id := nextId;
      nextId := nextId + 1;
      plan := plan + [Create(id, kind)];
    }

    method SynthMetallophone(f: real, t: real, d: real)
      modifies this`plan, this`nextId
      ensures old(hasContext && hasMasterGain) ==>
                plan == old(plan) + MetallophonePlan(f, t, d, old(nextId)) && nextId == old(nextId) + 2
      ensures !old(hasContext && hasMasterGain) ==> plan == old(plan) && nextId == old(nextId)
    {
      if !hasContext || !hasMasterGain {
        return;
      }
      var osc := CreateNode(OscillatorNode);
      var env := CreateNode(GainNode);
      Emit(Tone(osc, Sine, f, t));
      Emit(MetallophoneEnvelope(env, t, d));
      Emit([Connect(osc, Node(env)), Connect(env, Master)]);
      Emit(Play(osc, t, t + d));
    }

    /** The createOsc closure of synthPiano. */
    method PianoVoice(f: real, t: real, d: real, wave: Wave, detune: real, peak: real)
      modifies this`plan, this`nextId
      ensures plan == old(plan) + PianoVoicePlan(f, t, d, old(nextId), wave, detune, peak)
      ensures nextId == old(nextId) + 2
    {
      var osc := CreateNode(OscillatorNode);
      var gain := CreateNode(GainNode);
      Emit(Tone(osc, wave, f, t) + [SetValue(osc, Detune, detune)]);
      Emit(PianoEnvelope(gain, peak, t, d));
      Emit([Connect(osc, Node(gain)), Connect(gain, Master)]);
      Emit(Play(osc, t, t + d));
    }

    method SynthPiano(f: real, t: real, d: real)
      modifies this`plan, this`nextId
      ensures old(hasContext && hasMasterGain) ==>
                plan == old(plan) + PianoPlan(f, t, d, old(nextId)) && nextId == old(nextId) + 6
      ensures !old(hasContext && hasMasterGain) ==> plan == old(plan) && nextId == old(nextId)
    {
      if !hasContext || !hasMasterGain {
        return;
      }
      PianoVoice(f, t, d, Triangle, 0.0, 0.4);
      PianoVoice(f, t, d, Sine, 5.0, 0.3);
      PianoVoice(f, t, d, Sine, -5.0, 0.3);
    }

    method SynthGuitar(f: real, t: real, d: real)
      modifies this`plan, this`nextId
      ensures old(hasContext && hasMasterGain) ==>
                plan == old(plan) + GuitarPlan(f, t, d, old(nextId)) && nextId == old(nextId) + 3
      ensures !old(hasContext && hasMasterGain) ==> plan == old(plan) && nextId == old(nextId)
    {
      if !hasContext || !hasMasterGain {
        return;
      }
      var osc := CreateNode(OscillatorNode);
      var filter := CreateNode(BiquadFilterNode);
      var env := CreateNode(GainNode);
      Emit(Tone(osc, Sawtooth, f, t));
      Emit(GuitarFilter(filter, f, t));
      Emit(GuitarEnvelope(env, t, d));
      Emit([Connect(osc, Node(filter)), Connect(filter, Node(env)), Connect(env, Master)]);
      Emit(Play(osc, t, t + d));
    }

    /** The loop filling the two-second noise buffer with Math.random() * 2 - 1. */
    method NoiseBuffer(random: seq<real>) returns (data: seq<real>)
      requires UnitInterval(random)
      ensures data == NoiseSamples(random)
      ensures forall i | 0 <= i < |data| :: -1.0 <= data[i] < 1.0
    {
      var buffer := new real[|random|];
      for i := 0 to |random|
        invariant forall k | 0 <= k < i :: buffer[k] == random[k] * 2.0 - 1.0
      {
        buffer[i] := random[i] * 2.0 - 1.0;
      }
      data := buffer[..];
    }

    /** The flute's vibrato, built once the oscillator n, its envelope and the
        unused filter exist. */
    method FluteVibratoNodes(n: nat)
      requires nextId == n + 3
      modifies this`plan, this`nextId
      ensures plan == old(plan) + FluteVibrato(n) && nextId == old(nextId) + 2
    {
      var lfo := CreateNode(OscillatorNode);
      var lfoGain := CreateNode(GainNode);
      Emit([ SetValue(lfo, Frequency, 5.0), SetValue(lfoGain, Gain, 5.0),
             Connect(lfo, Node(lfoGain)), Connect(lfoGain, ParamOf(n, Frequency)) ]);
    }

    /** The flute's breath noise, built after the vibrato. */
    method FluteBreathNodes(f: real, n: nat, random: seq<real>)
      requires nextId == n + 5 && UnitInterval(random)
      modifies this`plan, this`nextId
      ensures plan == old(plan) + FluteBreath(f, n, NoiseSamples(random)) && nextId == old(nextId) + 3
    {
      var data := NoiseBuffer(random);
      var noise := CreateNode(BufferSourceNode);
      Emit([LoadBuffer(noise, data)]);
      var noiseFilter := CreateNode(BiquadFilterNode);
      Emit([SetFilterType(noiseFilter, Bandpass), SetValue(noiseFilter, Frequency, f * 2.0), SetValue(noiseFilter, Q, 1.0)]);
      var noiseGain := CreateNode(GainNode);
      Emit([ SetValue(noiseGain, Gain, 0.05),
             Connect(noise, Node(noiseFilter)), Connect(noiseFilter, Node(noiseGain)), Connect(noiseGain, Node(n + 1)) ]);
    }

    method SynthFlute(f: real, t: real, d: real, random: seq<real>)
      requires |random| == 2 * sampleRate && UnitInterval(random)
      modifies this`plan, this`nextId
      ensures old(hasContext && hasMasterGain) ==>
                plan == old(plan) + FlutePlan(f, t, d, old(nextId), NoiseSamples(random)) && nextId == old(nextId) + 8
      ensures !old(hasContext && hasMasterGain) ==> plan == old(plan) && nextId == old(nextId)
    {
      if !hasContext || !hasMasterGain {
        return;
      }
      ghost var p0 := plan;
      var osc := CreateNode(OscillatorNode);
      var env := CreateNode(GainNode);
      var filter := CreateNode(BiquadFilterNode);
      Emit(Tone(osc, Sine, f, t));
      FluteVibratoNodes(osc);
      FluteBreathNodes(f, osc, random);
      assert plan == p0 + FluteGraph(f, t, osc, NoiseSamples(random));
      Emit(FluteEnvelope(env, t, d));
      Emit([Connect(osc, Node(env)), Connect(env, Master)]);
      Emit(FlutePlayback(osc, t, d));
    }

    /** playTone(frequency, duration = 1.5, instrument = 'profelofono') at
        audio time `now`; `random` feeds the flute's noise buffer. */
    method PlayTone(frequency: real, now: real, random: seq<real>, duration: real := 1.5, instrument: Instrument := Profelofono)
      requires instrument == Flute ==> |random| == 2 * sampleRate && UnitInterval(random)
      modifies this`plan, this`nextId, this`suspended
      ensures old(hasContext && hasMasterGain) ==>
                && plan == old(plan) + TonePlan(instrument, frequency, now, duration, old(nextId), NoiseSamples(random))
                && nextId == old(nextId) + NodeCount(instrument)
                && !suspended
      ensures !old(hasContext && hasMasterGain) ==>
                plan == old(plan) && nextId == old(nextId) && suspended == old(suspended)
    {
      if !hasContext || !hasMasterGain {
        return;
      }
      ResumeContext();
      match instrument
      case Piano => SynthPiano(frequency, now, duration);
      case Guitar => SynthGuitar(frequency, now, duration + 1.0);
      case Flute => SynthFlute(frequency, now, duration, random);
      case Profelofono => SynthMetallophone(frequency, now, duration);
    }

    /** playChord(frequencies, instrument = 'guitar'): after resuming the
        device, one timer per frequency; `jitter` holds the Math.random()
        draws, one per string. */
    method PlayChord(frequencies: seq<real>, jitter: seq<real>, instrument: Instrument := Guitar)
      requires |jitter| == |frequencies| && UnitInterval(jitter)
      modifies this`timers, this`suspended
      ensures old(hasContext) ==>
                timers == old(timers) + StrumSchedule(frequencies, instrument, jitter) && !suspended
      ensures !old(hasContext) ==> timers == old(timers) && suspended == old(suspended)
    {
      if !hasContext {
        return;
      }
      ResumeContext();
      var strumSpeed := 0.05;
      for i := 0 to |frequencies|
        invariant !suspended
        invariant timers == old(timers) + StrumSchedule(frequencies[..i], instrument, jitter[..i])
      {
        var timeOffset := (i as real) * strumSpeed + jitter[i] * 0.01;
        timers := timers + [Timer(timeOffset * 1000.0, frequencies[i], 3.5, instrument)];
      }
      assert frequencies[..|frequencies|] == frequencies && jitter[..|jitter|] == jitter;
    }
  }

  // ------------------------------------------------------------------
  // Properties of the plans
  // ------------------------------------------------------------------

  /** The metallophone: one oscillator. */
  lemma MetallophoneSources(f: real, t: real, d: real, n: nat)
    ensures Oscillators(MetallophonePlan(f, t, d, n)) == {n}
  {
  }

  /** The metallophone's oscillator feeds its gain node, which alone feeds
      the master. */
  lemma MetallophoneWiring(f: real, t: real, d: real, n: nat)
    ensures ToMaster(MetallophonePlan(f, t, d, n)) == {n + 1}
    ensures Connect(n, Node(n + 1)) in MetallophonePlan(f, t, d, n)
  {
  }

  /** The metallophone starts at t and stops at t + d. */
  lemma MetallophoneSchedule(f: real, t: real, d: real, n: nat)
    ensures Timed(MetallophonePlan(f, t, d, n), t, t + d)
    ensures Plays(MetallophonePlan(f, t, d, n), n, t, t + d)
  {
  }

  /** The metallophone's sound: a sine at f under the envelope
      0 @ t -> 0.6 @ t + 0.005 -> 0.001 @ t + d. */
  lemma MetallophoneShape(f: real, t: real, d: real, n: nat)
    ensures var p := MetallophonePlan(f, t, d, n);
      && SetWave(n, Sine) in p && SetValueAtTime(n, Frequency, f, t) in p
      && SetValueAtTime(n + 1, Gain, 0.0, t) in p
      && LinearRamp(n + 1, Gain, 0.6, t + 0.005) in p
      && ExponentialRamp(n + 1, Gain, 0.001, t + d) in p
  {
  }

  /** The metallophone sets one wave type, sine, on its oscillator only. */
  lemma MetallophoneWaves(f: real, t: real, d: real, n: nat)
    ensures WavesOnly(MetallophonePlan(f, t, d, n), {SetWave(n, Sine)})
  {
    var head := [Create(n, OscillatorNode), Create(n + 1, GainNode)] + Tone(n, Sine, f, t);
    var tail := MetallophoneEnvelope(n + 1, t, d) + [Connect(n, Node(n + 1)), Connect(n + 1, Master)] + Play(n, t, t + d);
    assert MetallophonePlan(f, t, d, n) == head + tail;
    NoWaves(tail, {SetWave(n, Sine)});
    WavesAppend(head, tail, {SetWave(n, Sine)});
  }

  /** One piano voice: one oscillator n, through its own gain n + 1, the
      only node feeding the master. */
  lemma PianoVoiceSources(f: real, t: real, d: real, n: nat, wave: Wave, detune: real, peak: real)
    ensures Oscillators(PianoVoicePlan(f, t, d, n, wave, detune, peak)) == {n}
  {
  }

  lemma PianoVoiceWiring(f: real, t: real, d: real, n: nat, wave: Wave, detune: real, peak: real)
    ensures ToMaster(PianoVoicePlan(f, t, d, n, wave, detune, peak)) == {n + 1}
    ensures Connect(n, Node(n + 1)) in PianoVoicePlan(f, t, d, n, wave, detune, peak)
  {
  }

  /** One piano voice's sound: frequency f with the given wave and detune,
      under the envelope 0 @ t -> peak @ t + 0.02 -> 0.01 @ t + d. */
  lemma PianoVoiceShape(f: real, t: real, d: real, n: nat, wave: Wave, detune: real, peak: real)
    ensures var p := PianoVoicePlan(f, t, d, n, wave, detune, peak);
      && SetWave(n, wave) in p && SetValueAtTime(n, Frequency, f, t) in p && SetValue(n, Detune, detune) in p
      && SetValueAtTime(n + 1, Gain, 0.0, t) in p
      && LinearRamp(n + 1, Gain, peak, t + 0.02) in p
      && ExponentialRamp(n + 1, Gain, 0.01, t + d) in p
  {
  }

  /** A piano voice sets only its own oscillator's wave. */
  lemma PianoVoiceWaves(f: real, t: real, d: real, n: nat, wave: Wave, detune: real, peak: real)
    ensures WavesOnly(PianoVoicePlan(f, t, d, n, wave, detune, peak), {SetWave(n, wave)})
  {
    var head := [Create(n, OscillatorNode), Create(n + 1, GainNode)] + Tone(n, wave, f, t);
    var tail := [SetValue(n, Detune, detune)] + PianoEnvelope(n + 1, peak, t, d)
      + [Connect(n, Node(n + 1)), Connect(n + 1, Master)] + Play(n, t, t + d);
    assert PianoVoicePlan(f, t, d, n, wave, detune, peak) == head + tail;
    NoWaves(tail, {SetWave(n, wave)});
    WavesAppend(head, tail, {SetWave(n, wave)});
  }

  /** synthPiano: exactly three oscillators. */
  lemma PianoSources(f: real, t: real, d: real, n: nat)
    ensures Oscillators(PianoPlan(f, t, d, n)) == {n, n + 2, n + 4}
    ensures |Oscillators(PianoPlan(f, t, d, n))| == 3
  {
    var v1 := PianoVoicePlan(f, t, d, n, Triangle, 0.0, 0.4);
    var v2 := PianoVoicePlan(f, t, d, n + 2, Sine, 5.0, 0.3);
    var v3 := PianoVoicePlan(f, t, d, n + 4, Sine, -5.0, 0.3);
    PianoVoiceSources(f, t, d, n, Triangle, 0.0, 0.4);
    PianoVoiceSources(f, t, d, n + 2, Sine, 5.0, 0.3);
    PianoVoiceSources(f, t, d, n + 4, Sine, -5.0, 0.3);
    QueriesAppend(v1, v2);
    QueriesAppend(v1 + v2, v3);
  }

  /** Each piano oscillator feeds its own gain, and those three gains are
      what feeds the master. */
  lemma PianoWiring(f: real, t: real, d: real, n: nat)
    ensures ToMaster(PianoPlan(f, t, d, n)) == {n + 1, n + 3, n + 5}
    ensures var p := PianoPlan(f, t, d, n);
      Connect(n, Node(n + 1)) in p && Connect(n + 2, Node(n + 3)) in p && Connect(n + 4, Node(n + 5)) in p
  {
    var v1 := PianoVoicePlan(f, t, d, n, Triangle, 0.0, 0.4);
    var v2 := PianoVoicePlan(f, t, d, n + 2, Sine, 5.0, 0.3);
    var v3 := PianoVoicePlan(f, t, d, n + 4, Sine, -5.0, 0.3);
    PianoVoiceWiring(f, t, d, n, Triangle, 0.0, 0.4);
    PianoVoiceWiring(f, t, d, n + 2, Sine, 5.0, 0.3);
    PianoVoiceWiring(f, t, d, n + 4, Sine, -5.0, 0.3);
    QueriesAppend(v1, v2);
    QueriesAppend(v1 + v2, v3);
  }

  /** All three piano oscillators start at t and stop at t + d. */
  lemma PianoSchedule(f: real, t: real, d: real, n: nat)
    ensures Timed(PianoPlan(f, t, d, n), t, t + d)
    ensures Plays(PianoPlan(f, t, d, n), n, t, t + d)
    ensures Plays(PianoPlan(f, t, d, n), n + 2, t, t + d)
    ensures Plays(PianoPlan(f, t, d, n), n + 4, t, t + d)
  {
  }

  /** The piano voices' sound: every one at f with the envelope
      0 @ t -> peak @ t + 0.02 -> 0.01 @ t + d, and in order (triangle,
      0 cents, peak 0.4), (sine, +5, 0.3), (sine, -5, 0.3). */
  lemma PianoShape(f: real, t: real, d: real, n: nat)
    ensures var p := PianoPlan(f, t, d, n);
      && SetWave(n, Triangle) in p && SetValue(n, Detune, 0.0) in p && LinearRamp(n + 1, Gain, 0.4, t + 0.02) in p
      && SetWave(n + 2, Sine) in p && SetValue(n + 2, Detune, 5.0) in p && LinearRamp(n + 3, Gain, 0.3, t + 0.02) in p
      && SetWave(n + 4, Sine) in p && SetValue(n + 4, Detune, -5.0) in p && LinearRamp(n + 5, Gain, 0.3, t + 0.02) in p
      && SetValueAtTime(n, Frequency, f, t) in p && SetValueAtTime(n + 2, Frequency, f, t) in p
      && SetValueAtTime(n + 4, Frequency, f, t) in p
      && SetValueAtTime(n + 1, Gain, 0.0, t) in p && ExponentialRamp(n + 1, Gain, 0.01, t + d) in p
      && SetValueAtTime(n + 3, Gain, 0.0, t) in p && ExponentialRamp(n + 3, Gain, 0.01, t + d) in p
      && SetValueAtTime(n + 5, Gain, 0.0, t) in p && ExponentialRamp(n + 5, Gain, 0.01, t + d) in p
  {
  }

  /** The piano sets a triangle on its first oscillator and sines on the
      other two, and no other wave. */
  lemma PianoWaves(f: real, t: real, d: real, n: nat)
    ensures WavesOnly(PianoPlan(f, t, d, n), {SetWave(n, Triangle), SetWave(n + 2, Sine), SetWave(n + 4, Sine)})
  {
    var w := {SetWave(n, Triangle), SetWave(n + 2, Sine), SetWave(n + 4, Sine)};
    var v1 := PianoVoicePlan(f, t, d, n, Triangle, 0.0, 0.4);
    var v2 := PianoVoicePlan(f, t, d, n + 2, Sine, 5.0, 0.3);
    var v3 := PianoVoicePlan(f, t, d, n + 4, Sine, -5.0, 0.3);
    PianoVoiceWaves(f, t, d, n, Triangle, 0.0, 0.4);
    PianoVoiceWaves(f, t, d, n + 2, Sine, 5.0, 0.3);
    PianoVoiceWaves(f, t, d, n + 4, Sine, -5.0, 0.3);
    WavesWiden(v1, {SetWave(n, Triangle)}, w);
    WavesWiden(v2, {SetWave(n + 2, Sine)}, w);
    WavesWiden(v3, {SetWave(n + 4, Sine)}, w);
    WavesAppend(v1, v2, w);
    WavesAppend(v1 + v2, v3, w);
  }

  /** The guitar: one oscillator. */
  lemma GuitarSources(f: real, t: real, d: real, n: nat)
    ensures Oscillators(GuitarPlan(f, t, d, n)) == {n}
  {
  }

  /** The guitar's chain: oscillator into the lowpass into the envelope,
      which alone feeds the master. */
  lemma GuitarWiring(f: real, t: real, d: real, n: nat)
    ensures ToMaster(GuitarPlan(f, t, d, n)) == {n + 2}
    ensures var p := GuitarPlan(f, t, d, n);
      Connect(n, Node(n + 1)) in p && Connect(n + 1, Node(n + 2)) in p
  {
  }

  /** The guitar's oscillator starts at t and stops at t + d. */
  lemma GuitarSchedule(f: real, t: real, d: real, n: nat)
    ensures Timed(GuitarPlan(f, t, d, n), t, t + d)
    ensures Plays(GuitarPlan(f, t, d, n), n, t, t + d)
  {
  }

  /** The guitar's sound: a sawtooth at f; lowpass with Q 0 and cutoff
      6f @ t -> f @ t + 0.3; envelope 0 @ t -> 0.5 @ t + 0.015 -> 0.1 @ t + 0.5
      -> 0 @ t + d. */
  lemma GuitarShape(f: real, t: real, d: real, n: nat)
    ensures var p := GuitarPlan(f, t, d, n);
      && SetWave(n, Sawtooth) in p && SetValueAtTime(n, Frequency, f, t) in p
      && SetFilterType(n + 1, Lowpass) in p && SetValue(n + 1, Q, 0.0) in p
      && SetValueAtTime(n + 1, Frequency, 6.0 * f, t) in p && ExponentialRamp(n + 1, Frequency, f, t + 0.3) in p
      && SetValueAtTime(n + 2, Gain, 0.0, t) in p && LinearRamp(n + 2, Gain, 0.5, t + 0.015) in p
      && ExponentialRamp(n + 2, Gain, 0.1, t + 0.5) in p && LinearRamp(n + 2, Gain, 0.0, t + d) in p
  {
  }

  /** The guitar sets one wave type, sawtooth, on its oscillator only. */
  lemma GuitarWaves(f: real, t: real, d: real, n: nat)
    ensures WavesOnly(GuitarPlan(f, t, d, n), {SetWave(n, Sawtooth)})
  {
    var head := [Create(n, OscillatorNode), Create(n + 1, BiquadFilterNode), Create(n + 2, GainNode)] + Tone(n, Sawtooth, f, t);
    var tail := GuitarFilter(n + 1, f, t) + GuitarEnvelope(n + 2, t, d)
      + [Connect(n, Node(n + 1)), Connect(n + 1, Node(n + 2)), Connect(n + 2, Master)] + Play(n, t, t + d);
    assert GuitarPlan(f, t, d, n) == head + tail;
    NoWaves(tail, {SetWave(n, Sawtooth)});
    WavesAppend(head, tail, {SetWave(n, Sawtooth)});
  }

  /** The flute: two oscillators (the tone n and its LFO n + 3) and the
      noise buffer source n + 5. */
  lemma FluteSources(f: real, t: real, d: real, n: nat, noise: seq<real>)
    ensures Oscillators(FlutePlan(f, t, d, n, noise)) == {n, n + 3}
    ensures Create(n + 5, BufferSourceNode) in FlutePlan(f, t, d, n, noise)
  {
    var tail := FluteEnvelope(n + 1, t, d) + [Connect(n, Node(n + 1)), Connect(n + 1, Master)] + FlutePlayback(n, t, d);
    assert FlutePlan(f, t, d, n, noise) == FluteGraph(f, t, n, noise) + tail;
    FluteGraphSources(f, t, n, noise);
    FluteTailSources(t, d, n);
    QueriesAppend(FluteGraph(f, t, n, noise), tail);
  }

  lemma FluteGraphSources(f: real, t: real, n: nat, noise: seq<real>)
    ensures Oscillators(FluteGraph(f, t, n, noise)) == {n, n + 3}
    ensures Create(n + 5, BufferSourceNode) in FluteGraph(f, t, n, noise)
  {
    var head := [Create(n, OscillatorNode), Create(n + 1, GainNode), Create(n + 2, BiquadFilterNode)] + Tone(n, Sine, f, t);
    FluteHeadSources(f, t, n);
    FluteNoiseSources(f, n, noise);
    assert FluteGraph(f, t, n, noise) == head + (FluteVibrato(n) + FluteBreath(f, n, noise));
    QueriesAppend(head, FluteVibrato(n) + FluteBreath(f, n, noise));
    QueriesAppend(FluteVibrato(n), FluteBreath(f, n, noise));
  }

  lemma FluteHeadSources(f: real, t: real, n: nat)
    ensures Oscillators([Create(n, OscillatorNode), Create(n + 1, GainNode), Create(n + 2, BiquadFilterNode)] + Tone(n, Sine, f, t)) == {n}
    ensures Oscillators(FluteVibrato(n)) == {n + 3}
  {
  }

  lemma FluteNoiseSources(f: real, n: nat, noise: seq<real>)
    ensures Oscillators(FluteBreath(f, n, noise)) == {}
    ensures FluteBreath(f, n, noise)[0] == Create(n + 5, BufferSourceNode)
  {
    forall op | op in FluteBreath(f, n, noise)
      ensures !CreatesOscillator(op)
    {
    }
  }

  lemma FluteTailSources(t: real, d: real, n: nat)
    ensures Oscillators(FluteEnvelope(n + 1, t, d) + [Connect(n, Node(n + 1)), Connect(n + 1, Master)] + FlutePlayback(n, t, d)) == {}
  {
    forall op | op in FluteEnvelope(n + 1, t, d) + [Connect(n, Node(n + 1)), Connect(n + 1, Master)] + FlutePlayback(n, t, d)
      ensures !CreatesOscillator(op)
    {
    }
  }

  /** The flute's envelope n + 1 alone feeds the master. */
  lemma FluteWiring(f: real, t: real, d: real, n: nat, noise: seq<real>)
    ensures ToMaster(FlutePlan(f, t, d, n, noise)) == {n + 1}
  {
  }

  /** The flute's three sources start at t and stop together at t + d. */
  lemma FluteSchedule(f: real, t: real, d: real, n: nat, noise: seq<real>)
    ensures Timed(FlutePlan(f, t, d, n, noise), t, t + d)
    ensures Plays(FlutePlan(f, t, d, n, noise), n, t, t + d)
    ensures Plays(FlutePlan(f, t, d, n, noise), n + 3, t, t + d)
    ensures Plays(FlutePlan(f, t, d, n, noise), n + 5, t, t + d)
  {
  }

  /** The flute's sound: a sine at f with a 5 Hz LFO of gain 5 on its
      frequency; noise through a bandpass at 2f (Q 1, gain 0.05) into the same
      envelope 0 @ t -> 0.5 @ t + 0.1, held at 0.5 @ t + d - 0.2, 0 @ t + d;
      the noise buffer holds one sample in [-1, 1) per random draw. */
  lemma FluteShape(f: real, t: real, d: real, n: nat, random: seq<real>)
    requires UnitInterval(random)
    ensures var p := FlutePlan(f, t, d, n, NoiseSamples(random));
      && SetWave(n, Sine) in p && SetValueAtTime(n, Frequency, f, t) in p
      && SetValue(n + 3, Frequency, 5.0) in p && SetValue(n + 4, Gain, 5.0) in p
      && Connect(n + 3, Node(n + 4)) in p && Connect(n + 4, ParamOf(n, Frequency)) in p
      && SetFilterType(n + 6, Bandpass) in p && SetValue(n + 6, Frequency, 2.0 * f) in p
      && SetValue(n + 6, Q, 1.0) in p && SetValue(n + 7, Gain, 0.05) in p
      && Connect(n + 5, Node(n + 6)) in p && Connect(n + 6, Node(n + 7)) in p && Connect(n + 7, Node(n + 1)) in p
      && Connect(n, Node(n + 1)) in p
      && SetValueAtTime(n + 1, Gain, 0.0, t) in p && LinearRamp(n + 1, Gain, 0.5, t + 0.1) in p
      && SetValueAtTime(n + 1, Gain, 0.5, t + d - 0.2) in p && LinearRamp(n + 1, Gain, 0.0, t + d) in p
      && LoadBuffer(n + 5, NoiseSamples(random)) in p
    ensures |NoiseSamples(random)| == |random|
    ensures forall i | 0 <= i < |random| :: -1.0 <= NoiseSamples(random)[i] < 1.0
  {
  }

  /** playTone's dispatch: every source starts at t; piano, flute and the
      metallophone stop at t + d, the guitar one second later. */
  lemma DispatchSchedule(instrument: Instrument, f: real, t: real, d: real, n: nat, noise: seq<real>)
    ensures var stop := if instrument == Guitar then t + d + 1.0 else t + d;
      Timed(TonePlan(instrument, f, t, d, n, noise), t, stop) && Plays(TonePlan(instrument, f, t, d, n, noise), n, t, stop)
  {
    match instrument
    case Piano => PianoSchedule(f, t, d, n);
    case Guitar => GuitarSchedule(f, t, d + 1.0, n);
    case Flute => FluteSchedule(f, t, d, n, noise);
    case Profelofono => MetallophoneSchedule(f, t, d, n);
  }

  /** The strum: exactly one playTone(freq_i, 3.5, instrument) per frequency,
      the i-th delayed by [50 i, 50 i + 10) ms, so the delays strictly
      increase with the string index. */
  lemma StrumOrder(frequencies: seq<real>, instrument: Instrument, jitter: seq<real>)
    requires |jitter| == |frequencies| && UnitInterval(jitter)
    ensures var s := StrumSchedule(frequencies, instrument, jitter);
      && |s| == |frequencies|
      && (forall i | 0 <= i < |s| ::
            s[i].frequency == frequencies[i] && s[i].duration == 3.5 && s[i].instrument == instrument
            && 50.0 * (i as real) <= s[i].delayMs < 50.0 * (i as real) + 10.0)
      && (forall i, j | 0 <= i < j < |s| :: s[i].delayMs < s[j].delayMs)
  {
    var s := StrumSchedule(frequencies, instrument, jitter);
    forall i, j | 0 <= i < j < |s|
      ensures s[i].delayMs < s[j].delayMs
    {
      assert s[i].delayMs < 50.0 * (i as real) + 10.0;
      assert 50.0 * (j as real) <= s[j].delayMs;
    }
  }
}
