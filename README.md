# Music academy toolkit — a Dafny model

This project models the computational core of a web toolkit for a music
academy. The toolkit has five parts.

- **The chromatic tuner** (`Tuner`). An autocorrelation pitch estimator runs over one frame of
  microphone samples. It has an RMS silence gate, edge trimming at the 0.2 threshold, the O(M²)
  correlation, the descent to the first rise and a strict-`>` argmax, and a parabolic refinement
  that is skipped at the boundaries. After it come the mapping of a note number to a note name and
  cents, the start/stop state of the panel, and the needle's rotation and "in tune" test.
- **The synthesizer** (`AudioEngine`). An `Engine` class records every Web Audio call a voice makes
  as an operation in a `plan` log. The voices are metallophone, piano (three detuned oscillators),
  guitar (sawtooth through a falling lowpass) and flute (sine with a 5 Hz LFO, plus breath noise
  through a bandpass). The log also records the timers a strummed chord registers. Each voice's
  calls are a function of its inputs, and lemmas state its oscillators, wiring, start/stop times
  and parameter values.
- **The instrument panel** (`InstrumentPanel`). It holds the 88-key piano table and its generator loop,
  the recorder's fingering chart with note detection, hole cycling and the off-chart pitch, and
  the guitar. The guitar covers the chord library and its lookup, the builder's fret/nut/dot
  clicks, and the strum that plays exactly the sounding strings.
- **The circle of fifths** (`CircleOfFifths`). It holds the twelve-key table, the relative natural
  minor (the scale read from its sixth degree), slice angles and ring radii, hover and selection
  emphasis, and the major and minor degree-chord grids.
- **The teacher's dashboard** (`Dashboard`). It covers appending a student from the form,
  removing by id, and the guard and busy flag of the lesson-plan generator.

`Types` holds the shared records: the four instrument timbres, student levels, the
student row and the key signature.

Components whose handlers update state in place are classes: `Tuner.TunerPanel`,
`AudioEngine.Engine`, `InstrumentPanel.FlutePanel` and `InstrumentPanel.GuitarPanel`. Their
functions read the fields and their methods state the new state. Pure computations are
functions with lemmas. A loop in the source is a method with its invariants, proved equal to a
specification function: the autocorrelation stages, the key generator, the noise buffer, the
strum timers and the guitar's pluck loop.

Behaviours of the code worth noting, which the model keeps:

- `playTone` has no guard against a frequency of zero or below. It schedules the voice anyway.
- The flute's LFO gain of 5 is connected to the oscillator's `frequency`. It therefore swings
  the pitch by ±5 Hz, not by ±5 cents.
- `updatePitch` keeps the last reading when the estimator returns the `-1` sentinel. It does
  not reset the display.
- The `+57` note number is computed but never used. Only the `+69` one reaches the display.
- At a boundary of the correlation array the refinement reads `undefined`. That makes the
  curvature `NaN`, which is falsy, so the period is left unrefined.
- The flute panel starts labelled `"Silencio"`. The detector itself says `"Silencio (Aire)"`
  for an open fingering.

## Model

| member | source | states |
|---|---|---|
| Tuner.SumSquares | components/tools/Tuner.tsx:26-29 | the accumulated energy is never negative and is zero for an all-zero frame |
| Tuner.LeadFrom | components/tools/Tuner.tsx:35-36 | the forward scan from i stops at the first quiet sample of the lower half, and at 0 when there is none |
| Tuner.LeadTrim | components/tools/Tuner.tsx:34-36 | r1 is the first index i with 2i < N and \|buf[i]\| < 0.2, otherwise 0 |
| Tuner.TailFrom | components/tools/Tuner.tsx:37-38 | the backward scan stops at the first quiet sample N − i of the upper half, and at N − 1 when there is none |
| Tuner.TailTrim | components/tools/Tuner.tsx:34-38 | r2 is N − i for the first i in [1, N/2) whose sample is quiet, otherwise N − 1 |
| Tuner.Segment | components/tools/Tuner.tsx:39-40 | the kept segment is never longer than the frame and is the contiguous run of samples starting at r1 (TrimBounds gives its end) |
| Tuner.DescentFrom | components/tools/Tuner.tsx:48 | the descent scan stops at the first d where c[d] ≤ c[d+1] or the array ends, and c strictly falls before it |
| Tuner.Descent | components/tools/Tuner.tsx:48 | d is the first lag at which the correlation stops decreasing, and d < M for a non-empty array |
| Tuner.PeakFrom | components/tools/Tuner.tsx:49-55 | the argmax scan with its running maximum ends at the peak of c over [d, M) |
| Tuner.IsPeak | components/tools/Tuner.tsx:49-56 | the argmax property stated independently of the scan: −1 when nothing on [d, i) exceeds −1, else the first index of the maximum; PeakFrom and Peak satisfy it and PeakUnique shows it has one solution |
| Tuner.Peak | components/tools/Tuner.tsx:49-56 | T0 is −1 exactly when no c[k] exceeds −1 on [d, M); otherwise it is the first index attaining the maximum |
| Tuner.PeakUnique | components/tools/Tuner.tsx:49-56 | the peak property has a single solution, so the scan's answer is determined |
| Tuner.Refine | components/tools/Tuner.tsx:59-62 | the period is T0 itself at a boundary and when the curvature a is zero; otherwise it is T0 − (c[T0+1] − c[T0−1]) / (2(c[T0−1] + c[T0+1] − 2c[T0])); when T0 is a local maximum it stays within half a lag of T0 |
| Tuner.VertexWithinHalf | components/tools/Tuner.tsx:59-62 | the vertex of a non-flat parabola through three points whose middle is the largest lies within ±0.5 of the middle |
| Tuner.Frequency | components/tools/Tuner.tsx:64 | sampleRate / T is infinite exactly when T is 0, positive for a positive period and negative for a negative one |
| Tuner.AutoCorrelation | components/tools/Tuner.tsx:21-65 | the estimator returns the silence sentinel exactly when the mean square is below 0.0001 (RMS < 0.01) |
| Tuner.SquaredSum | components/tools/Tuner.tsx:26-29 | the accumulation loop computes the frame's sum of squares |
| Tuner.TrimStart | components/tools/Tuner.tsx:35-36 | the forward trimming loop with its break yields r1 |
| Tuner.TrimEnd | components/tools/Tuner.tsx:37-38 | the backward trimming loop with its break yields r2 |
| Tuner.Correlate | components/tools/Tuner.tsx:43-46 | the nested loops fill c with c[i] = Σ_{j<M−i} x[j]·x[j+i] for every lag i |
| Tuner.DescentIndex | components/tools/Tuner.tsx:48 | the while loop stops at the descent point |
| Tuner.PeakIndex | components/tools/Tuner.tsx:49-55 | the argmax loop, starting from maxval = maxpos = −1, yields the first maximal index or −1 |
| Tuner.RefinedPeriod | components/tools/Tuner.tsx:59-62 | the interpolation step returns the refined period |
| Tuner.AutoCorrelate | components/tools/Tuner.tsx:21-65 | the whole imperative estimator returns what the stage-by-stage specification does |
| Tuner.LagZeroIsEnergy | components/tools/Tuner.tsx:43-46 | the zero-lag correlation sum is the sum of squares of the segment |
| Tuner.Correlation | components/tools/Tuner.tsx:42-46 | the correlation array has one entry per lag of the segment; Correlate computes it and CorrelationAtZero gives its lag-0 value |
| Tuner.CorrelationAtZero | components/tools/Tuner.tsx:43-46 | c[0] equals the segment's energy and is never negative |
| Tuner.ZeroFrameIsSilent | components/tools/Tuner.tsx:26-32 | a non-empty all-zero frame is rejected as silent |
| Tuner.TrimBounds | components/tools/Tuner.tsx:34-41 | for N ≥ 2, 0 ≤ r1 < r2 ≤ N − 1 and the kept segment is buf[r1..r2), r2 excluded |
| Tuner.ShortFrameGivesNegativeRate | components/tools/Tuner.tsx:34-64 | a loud frame of at most one sample trims to nothing, leaves T0 = −1 and yields −sampleRate |
| Tuner.PeakFoundFromLagZero | components/tools/Tuner.tsx:48-56 | when the descent stops at lag 0 of a non-empty segment a peak is always found |
| Tuner.RefinedPeriodNearPeak | components/tools/Tuner.tsx:56-64 | an interior peak after the descent point gives a positive period within half a lag of T0 |
| Tuner.Round | components/tools/Tuner.tsx:79 | Math.round gives the integer r with r − 0.5 ≤ x < r + 0.5 |
| Tuner.JsRem12 | components/tools/Tuner.tsx:79 | JavaScript's % 12 agrees with the mathematical remainder for non-negative operands and lies in (−12, 0] for negative ones |
| Tuner.NoteName | components/tools/Tuner.tsx:79-85 | a non-negative rounded note number names NOTE_STRINGS[n mod 12]; "-" appears exactly when the JavaScript index is negative |
| Tuner.Cents | components/tools/Tuner.tsx:82 | the detune floor((n − round(n))·100) lies in [−50, 49] |
| Tuner.OctaveInvariance | components/tools/Tuner.tsx:78-82 | for every note number n ≥ −0.5 (below it JavaScript's % goes negative), raising n by 12 changes neither the note name nor the cents |
| Tuner.ConcertA | components/tools/Tuner.tsx:78-81 | a note number rounding to 69, or to A in any octave from 9 up, is named "A" |
| Tuner.ReadingOf | components/tools/Tuner.tsx:75-86 | the −1 sentinel gives no reading; a positive frequency gives its rounded pitch, its note name and its cents; the detune is NaN or in [−50, 49] |
| Tuner.Updated | components/tools/Tuner.tsx:75-87 | one tick keeps listening and error as they were; on either −1 form (silence, or sampleRate/T0 = −1) the display is unchanged; a positive frequency shows its reading; any other negative or zero frequency shows its rounded pitch, note "-" and a NaN detune, and an infinite one shows pitch Infinity, note "-" and a NaN detune |
| Tuner.Stopped | components/tools/Tuner.tsx:119-131 | stopping clears listening and resets pitch 0, note "-" and detune 0, keeping the error |
| Tuner.StopIdempotent | components/tools/Tuner.tsx:119-131 | stopping twice is stopping once |
| Tuner.Clamp45 | components/tools/Tuner.tsx:138 | the clamp lands in [−45, 45], is the identity inside it and saturates outside |
| Tuner.Rotation | components/tools/Tuner.tsx:138 | the needle angle is NaN exactly for a NaN detune, is otherwise within ±45°, and is 0.9° per cent for detunes in [−50, 50] |
| Tuner.NeedleNeverClampsOnReadings | components/tools/Tuner.tsx:82-138 | every reading of a positive frequency turns the needle by exactly 0.9 × cents, never clamped |
| Tuner.InTuneNeedleNearCentre | components/tools/Tuner.tsx:138-139 | when the display is in tune the needle is within 3.6° of the centre |
| Tuner.IsInTune | components/tools/Tuner.tsx:139 | the in-tune test holds only for a finite detune of at most 4 cents either way (the source's \|detune\| < 5 on integer cents) |
| Tuner.TunerPanel.constructor | components/tools/Tuner.tsx:8-12 | the panel starts idle with pitch 0, note "-", detune 0 and no error |
| Tuner.TunerPanel.StartTuner | components/tools/Tuner.tsx:92-117 | a granted microphone starts listening and clears the error; a refused one records the error message and changes nothing else |
| Tuner.TunerPanel.UpdatePitch | components/tools/Tuner.tsx:67-90 | one tick sets the display to the updated reading for the frame's estimate |
| Tuner.TunerPanel.StopTuner | components/tools/Tuner.tsx:119-131 | stopping leaves the display in the stopped state |
| AudioEngine.StrumOffset | services/audioEngine.ts:28-31 | string i is delayed by 50 i ms plus less than 10 ms of jitter |
| AudioEngine.StrumSchedule | services/audioEngine.ts:28-35 | one timer per frequency, each asking for playTone(freq, 3.5, instrument); StrumOrder proves the delays and their order |
| AudioEngine.Engine.constructor | services/audioEngine.ts:7-15 | with an audio context class there is a context and a master gain at 0.5; without one there is neither; nothing is scheduled yet |
| AudioEngine.Engine.ResumeContext | services/audioEngine.ts:17-21 | a suspended context is resumed; without a context nothing changes |
| AudioEngine.Engine.SynthMetallophone | services/audioEngine.ts:63-83 | with a context and master gain the metallophone's calls are appended using two fresh node ids; otherwise nothing happens |
| AudioEngine.Engine.PianoVoice | services/audioEngine.ts:89-104 | one createOsc call appends one oscillator and its own gain, with their calls |
| AudioEngine.Engine.SynthPiano | services/audioEngine.ts:85-112 | the three piano voices are appended in order using six fresh ids, or nothing without a context |
| AudioEngine.Engine.SynthGuitar | services/audioEngine.ts:114-143 | the guitar's oscillator, lowpass and envelope calls are appended using three fresh ids, or nothing without a context |
| AudioEngine.Engine.NoiseBuffer | services/audioEngine.ts:164-169 | the filling loop yields random·2 − 1 per draw, every sample in [−1, 1) |
| AudioEngine.Engine.FluteVibratoNodes | services/audioEngine.ts:155-161 | the LFO and its depth gain are created and wired to the tone's frequency |
| AudioEngine.Engine.FluteBreathNodes | services/audioEngine.ts:163-181 | the noise source, its bandpass and its gain are created and wired into the envelope |
| AudioEngine.Engine.SynthFlute | services/audioEngine.ts:145-199 | the flute's calls, including a noise buffer of 2 × sampleRate samples, are appended using eight fresh ids, or nothing without a context |
| AudioEngine.Engine.PlayTone | services/audioEngine.ts:38-59 | with a context and master gain the device is resumed and the timbre's voice is scheduled at the current time, the guitar with one extra second; otherwise nothing changes |
| AudioEngine.Engine.PlayChord | services/audioEngine.ts:24-36 | with a context the device is resumed and one timer per frequency is registered in order; without one nothing changes |
| AudioEngine.MetallophoneSources | services/audioEngine.ts:63-83 | the metallophone creates exactly one oscillator |
| AudioEngine.MetallophoneWiring | services/audioEngine.ts:78-79 | the oscillator feeds the envelope, and the envelope alone feeds the master |
| AudioEngine.MetallophoneSchedule | services/audioEngine.ts:81-82 | every start is at t and every stop at t + duration |
| AudioEngine.MetallophoneShape | services/audioEngine.ts:70-76 | a sine at f under the envelope 0 → 0.6 in 5 ms, decaying exponentially to 0.001 at t + duration |
| AudioEngine.MetallophoneWaves | services/audioEngine.ts:70 | the only wave type the metallophone sets is sine, on its oscillator |
| AudioEngine.MetallophonePlan | services/audioEngine.ts:63-83 | the metallophone's call log; MetallophoneSources, MetallophoneWiring, MetallophoneSchedule and MetallophoneShape state its oscillator, wiring, times and values |
| AudioEngine.PianoVoiceSources | services/audioEngine.ts:89-104 | one piano voice creates exactly one oscillator |
| AudioEngine.PianoVoiceWiring | services/audioEngine.ts:100-101 | the voice's oscillator feeds its own gain, the only node it connects to the master |
| AudioEngine.PianoVoiceShape | services/audioEngine.ts:92-98 | the voice plays f with its wave and detune under 0 → peak in 20 ms → 0.01 at t + duration |
| AudioEngine.PianoVoiceWaves | services/audioEngine.ts:92 | a piano voice sets only its own oscillator's wave |
| AudioEngine.PianoSources | services/audioEngine.ts:106-111 | the piano creates exactly three oscillators |
| AudioEngine.PianoWiring | services/audioEngine.ts:100-111 | exactly the three voice gains feed the master, each fed by its own oscillator |
| AudioEngine.PianoSchedule | services/audioEngine.ts:102-103 | all three piano oscillators start at t and stop at t + duration |
| AudioEngine.PianoShape | services/audioEngine.ts:89-111 | the voices are (triangle, 0 cents, 0.4), (sine, +5, 0.3), (sine, −5, 0.3), all at f with the same envelope times |
| AudioEngine.PianoWaves | services/audioEngine.ts:92-111 | the piano sets triangle on its first oscillator and sine on the other two, and no other wave |
| AudioEngine.PianoPlan | services/audioEngine.ts:85-112 | the piano's call log of three voices; PianoSources, PianoWiring, PianoSchedule and PianoShape state its oscillators, wiring, times and values |
| AudioEngine.GuitarSources | services/audioEngine.ts:117 | the guitar creates exactly one oscillator |
| AudioEngine.GuitarWiring | services/audioEngine.ts:137-139 | oscillator → lowpass → envelope, and the envelope alone feeds the master |
| AudioEngine.GuitarSchedule | services/audioEngine.ts:141-142 | the guitar's oscillator starts at t and stops at t + duration |
| AudioEngine.GuitarShape | services/audioEngine.ts:121-135 | a sawtooth at f; lowpass Q 0 from 6f down to f in 300 ms; envelope 0 → 0.5 in 15 ms → 0.1 at 0.5 s → 0 at t + duration |
| AudioEngine.GuitarWaves | services/audioEngine.ts:121 | the only wave type the guitar sets is sawtooth, on its oscillator |
| AudioEngine.GuitarPlan | services/audioEngine.ts:114-143 | the guitar's call log; GuitarSources, GuitarWiring, GuitarSchedule and GuitarShape state its oscillator, filter chain, times and values |
| AudioEngine.FluteSources | services/audioEngine.ts:148-170 | the flute creates exactly two oscillators, the tone and its LFO, plus one noise buffer source |
| AudioEngine.FluteWiring | services/audioEngine.ts:189-190 | the flute's envelope alone feeds the master |
| AudioEngine.FluteSchedule | services/audioEngine.ts:192-198 | tone, LFO and noise all start at t and stop together at t + duration |
| AudioEngine.FluteShape | services/audioEngine.ts:152-187 | sine at f with a 5 Hz LFO of gain 5 on its frequency; noise via a bandpass at 2f (Q 1) and gain 0.05 into the envelope 0 → 0.5 in 100 ms, held to t + d − 0.2, 0 at t + d |
| AudioEngine.FluteWaves | services/audioEngine.ts:152-161 | the only wave type the flute sets is sine, on its tone; the LFO keeps the default wave |
| AudioEngine.FlutePlan | services/audioEngine.ts:145-199 | the flute's call log; FluteSources, FluteWiring, FluteSchedule and FluteShape state its oscillators, noise source, wiring, times and values |
| AudioEngine.DispatchSchedule | services/audioEngine.ts:38-59 | every timbre starts at the current time; the guitar stops one second after the others' t + duration |
| AudioEngine.TonePlan | services/audioEngine.ts:44-58 | the timbre switch, with the metallophone as default; DispatchSchedule gives each timbre's start and stop, and PlayTone appends it |
| AudioEngine.StrumOrder | services/audioEngine.ts:24-36 | one playTone(freq_i, 3.5, instrument) per frequency, the i-th delayed by [50 i, 50 i + 10) ms, so the delays strictly increase |
| InstrumentPanel.GeneratePianoKeys | components/tools/Profelofono.tsx:13-36 | the generator loop builds exactly the 88-key table, the frequency multiplied by the ratio after each key |
| InstrumentPanel.KeyAt | components/tools/Profelofono.tsx:19-33 | the key at index i: name, octave floor((i + 9) / 12), black exactly on a sharp, frequency 27.5 · ratio^i; BlackPattern, OctaveStartsAtC and OctaveDoubles state its properties |
| InstrumentPanel.PianoKeys | components/tools/Profelofono.tsx:13-36 | the 88-key table; GeneratePianoKeys computes it and PianoRange, WhiteKeyCount and BlackKeysInside describe it |
| InstrumentPanel.PianoRange | components/tools/Profelofono.tsx:13-36 | 88 keys from A0 at 27.5 Hz to C8, key i with id i |
| InstrumentPanel.BlackPattern | components/tools/Profelofono.tsx:19-22 | a key is black exactly when it is 1, 4, 6, 9 or 11 semitones above an A |
| InstrumentPanel.OctaveStartsAtC | components/tools/Profelofono.tsx:19-26 | the octave number steps up by one exactly at each C and otherwise stays |
| InstrumentPanel.OctaveDoubles | components/tools/Profelofono.tsx:16-33 | with a ratio whose twelfth power is 2, the key an octave up has the same label, the next octave and twice the frequency |
| InstrumentPanel.WhiteKeyCount | components/tools/Profelofono.tsx:160-172 | the keyboard has 52 white keys, which exactly fill its 52 × 44 px width |
| InstrumentPanel.WhitesBeforeBlack | components/tools/Profelofono.tsx:176 | every black key has between 1 and 51 white keys before it |
| InstrumentPanel.BlackKeysInside | components/tools/Profelofono.tsx:173-184 | every black key, placed at whiteKeysBefore·44 − 14, straddles the edge of two white keys and lies inside the keyboard |
| InstrumentPanel.FindFrom | components/tools/Profelofono.tsx:125 | find returns the first chart entry whose pattern equals the fingering, or none when no entry does |
| InstrumentPanel.PatternsDistinct | components/tools/Profelofono.tsx:81-91 | the nine chart patterns are pairwise distinct, each of eight holes, and none is all open |
| InstrumentPanel.DetectFluteNote | components/tools/Profelofono.tsx:124-127 | a charted fingering gets its name; otherwise an all-open one gets "Silencio (Aire)" and anything else "Posición desconocida" |
| InstrumentPanel.HoleSumBounds | components/tools/Profelofono.tsx:134 | the sum of hole values lies between 0 and the number of holes |
| InstrumentPanel.ApproxFrequencyRange | components/tools/Profelofono.tsx:134-135 | off the chart the pitch 523.25 + (8 − closed)·60 lies in [523.25, 1003.25] |
| InstrumentPanel.ApproxFrequency | components/tools/Profelofono.tsx:134-135 | the off-chart pitch 523.25 + (8 − Σ holes) · 60; ApproxFrequencyRange bounds it |
| InstrumentPanel.NextHole | components/tools/Profelofono.tsx:116-119 | a click always leaves a valid hole value of 0, 1 or 0.5 |
| InstrumentPanel.HoleCycle | components/tools/Profelofono.tsx:116-119 | each click changes the hole, and three clicks bring it back |
| InstrumentPanel.FlutePanel.constructor | components/tools/Profelofono.tsx:105-106 | the recorder starts with all eight holes open, labelled "Silencio" |
| InstrumentPanel.FlutePanel.ToggleFluteHole | components/tools/Profelofono.tsx:115-122 | only the clicked hole cycles, the label becomes the detector's verdict, and a valid fingering stays valid |
| InstrumentPanel.FlutePanel.ChooseNote | components/tools/Profelofono.tsx:469-473 | a chart button sets its fingering and name, which agree with the detector, and requests its pitch for 1 s on the flute |
| InstrumentPanel.FlutePanel.PlayFluteCurrent | components/tools/Profelofono.tsx:129-138 | a charted fingering plays its pitch for 1.5 s; any other fingering plays the approximate pitch for 0.5 s |
| InstrumentPanel.PlayGuitarChord | components/tools/Profelofono.tsx:140-150 | the loop collects one pluck per string whose fret is not negative |
| InstrumentPanel.Plucks | components/tools/Profelofono.tsx:140-148 | the sounding strings of a chord in string order; PlucksExact and SilentChord characterise it, and PlayGuitarChord computes it |
| InstrumentPanel.PlucksExact | components/tools/Profelofono.tsx:140-148 | each pluck is a sounding string with its own fret, in increasing string order, and every sounding string is plucked |
| InstrumentPanel.SilentChord | components/tools/Profelofono.tsx:140-148 | nothing is plucked exactly when every string is muted |
| InstrumentPanel.FindChord | components/tools/Profelofono.tsx:200 | the lookup finds a library entry with that root and quality, or none when no entry has them |
| InstrumentPanel.LookupChord | components/tools/Profelofono.tsx:200 | the library lookup from the first entry; FindChord states its result, and LibraryKeysDistinct and DemoQualitiesMissing describe what it can find |
| InstrumentPanel.LibraryWellFormed | components/tools/Profelofono.tsx:46-71 | every library chord has six strings, fingers 0–4 matching its frets, a root from ROOTS and a quality among the first four |
| InstrumentPanel.DemoQualitiesMissing | components/tools/Profelofono.tsx:46-70 | no chord of the qualities sus4, dim, aug, 9, 11 or 13 exists in the demo library |
| InstrumentPanel.LibraryKeysDistinct | components/tools/Profelofono.tsx:46-68 | no two library entries share a root and a quality |
| InstrumentPanel.GuitarPanel.constructor | components/tools/Profelofono.tsx:98-102 | the guitar starts in library mode on C Mayor with six muted strings and no fingers |
| InstrumentPanel.GuitarPanel.ActiveChord | components/tools/Profelofono.tsx:194-209 | builder mode shows the custom chord; library mode shows the entry found or six muted strings with the demo notice |
| InstrumentPanel.GuitarPanel.SetMode | components/tools/Profelofono.tsx:215-216 | the mode buttons set the mode |
| InstrumentPanel.GuitarPanel.SelectChord | components/tools/Profelofono.tsx:221-222 | the selectors set the root and quality |
| InstrumentPanel.GuitarPanel.FretClick | components/tools/Profelofono.tsx:280-294 | the same fret cycles the finger 1→2→3→4→1; a new fret moves there with finger 1; no other string changes |
| InstrumentPanel.GuitarPanel.NutClick | components/tools/Profelofono.tsx:252-256 | only in builder mode, a muted string opens and any other string is muted |
| InstrumentPanel.GuitarPanel.DotClick | components/tools/Profelofono.tsx:300-306 | only in builder mode, the dot cycles the string's finger |
| InstrumentPanel.GuitarPanel.Strum | components/tools/Profelofono.tsx:322 | the strum plays the shown chord's sounding strings; a missing library chord plays nothing |
| InstrumentPanel.FingerCycle | components/tools/Profelofono.tsx:287 | the finger cycle always yields 1–4 and returns after four clicks |
| CircleOfFifths.GetMinorScale | components/tools/CircleOfFifths.tsx:34-36 | the minor scale has as many notes as the major one |
| CircleOfFifths.MinorScalePermutes | components/tools/CircleOfFifths.tsx:34-36 | the minor scale is a permutation of the major scale |
| CircleOfFifths.MinorScaleDegrees | components/tools/CircleOfFifths.tsx:31-36 | degree i of the minor scale is degree (i + 5) mod n of the major one |
| CircleOfFifths.MinorScaleRoundTrip | components/tools/CircleOfFifths.tsx:31-36 | reading the minor scale from its third degree gives the major scale back |
| CircleOfFifths.KeyTable | components/tools/CircleOfFifths.tsx:9-25 | twelve keys of seven notes, each relative minor named after the first note of its minor scale |
| CircleOfFifths.KeyNamesDistinct | components/tools/CircleOfFifths.tsx:9-25 | the twelve key names are pairwise distinct |
| CircleOfFifths.FifthsChain | components/tools/CircleOfFifths.tsx:9-25 | going clockwise each tonic is the fifth degree of the previous key, except across the enharmonic seam after Do# |
| CircleOfFifths.StartAngle | components/tools/CircleOfFifths.tsx:60 | slice i starts at 30 i − 105 degrees |
| CircleOfFifths.SlicesTile | components/tools/CircleOfFifths.tsx:60-82 | consecutive slices meet, the twelve cover 360°, the label angle lies inside its slice, and slice 0 is centred at the top |
| CircleOfFifths.RingLayout | components/tools/CircleOfFifths.tsx:46-83 | a label lies strictly between its ring's radii (232.5 and 145 for the two rings); the rings nest, and the white centre disc of radius innerRadius − 2 lies inside the inner ring |
| CircleOfFifths.Click | components/tools/CircleOfFifths.tsx:99 | a click selects the clicked key and keeps the hover |
| CircleOfFifths.MouseEnter | components/tools/CircleOfFifths.tsx:100 | entering a slice hovers it and keeps the selection |
| CircleOfFifths.MouseLeave | components/tools/CircleOfFifths.tsx:101 | leaving clears every hover and keeps the selection |
| CircleOfFifths.ClickSelectsOne | components/tools/CircleOfFifths.tsx:168 | after a click exactly the clicked slice shows as selected |
| CircleOfFifths.InitiallyDo | components/tools/CircleOfFifths.tsx:28 | initially exactly the slice of Do shows as selected |
| CircleOfFifths.Emphasis | components/tools/CircleOfFifths.tsx:92-94 | a slice is enlarged exactly when selected or hovered; selection gives full opacity, and hovering adds nothing to a selected slice |
| CircleOfFifths.Scale | components/tools/CircleOfFifths.tsx:93 | 1.05 for a selected or hovered slice, 1 otherwise; Emphasis states it |
| CircleOfFifths.Opacity | components/tools/CircleOfFifths.tsx:94 | 1 when selected, 0.9 when only hovered, 0.85 otherwise; Emphasis orders the three |
| CircleOfFifths.GridsShareChords | components/tools/CircleOfFifths.tsx:261-344 | degree i of the minor grid is degree (i + 5) mod 7 of the major grid, with the same root, quality and label |
| CircleOfFifths.NumeralsFit | components/tools/CircleOfFifths.tsx:261-344 | in both grids a capital numeral marks exactly the major chords and a degree sign exactly the diminished ones |
| CircleOfFifths.MajorPattern | components/tools/CircleOfFifths.tsx:261-300 | the major grid is built on the scale's degrees with qualities major, minor, minor, major, major, minor, diminished |
| CircleOfFifths.MajorGrid | components/tools/CircleOfFifths.tsx:261-300 | the seven chords of the major key; MajorPattern and NumeralsFit describe them |
| CircleOfFifths.MinorGrid | components/tools/CircleOfFifths.tsx:305-344 | the seven chords of the relative minor; GridsShareChords ties them to the major grid and NumeralsFit to their numerals |
| Dashboard.InitialRoster | components/Dashboard.tsx:6-21 | the roster starts with three students of distinct ids, the modal closed, the form empty and nothing selected or generating |
| Dashboard.AddStudent | components/Dashboard.tsx:23-34 | one student is appended, earlier entries unchanged, its fields taken from the form; the modal closes and the form resets to empty with level Principiante |
| Dashboard.OpenModal | components/Dashboard.tsx:58-59 | the button opens the modal; the roster, form, selection, plan, busy flag and topic stay as they were |
| Dashboard.AddFreshKeepsUnique | components/Dashboard.tsx:25-31 | appending a student whose id is not yet used keeps the ids distinct |
| Dashboard.RemoveStudent | components/Dashboard.tsx:36-38 | a student is kept exactly when its id differs from the removed one, and the roster never grows |
| Dashboard.RemoveAppend | components/Dashboard.tsx:36-38 | removal distributes over concatenation, so the kept students stay in their original order |
| Dashboard.RemoveSingle | components/Dashboard.tsx:36-38 | a single student is dropped exactly when it carries the id |
| Dashboard.RemoveAbsent | components/Dashboard.tsx:36-38 | removing an id nobody has leaves the roster as it was |
| Dashboard.RemoveIdempotent | components/Dashboard.tsx:36-38 | removing twice is removing once |
| Dashboard.RemoveCount | components/Dashboard.tsx:36-38 | exactly the students carrying the id are dropped |
| Dashboard.RemoveKeepsUnique | components/Dashboard.tsx:36-38 | removal keeps the ids distinct |
| Dashboard.AddThenRemove | components/Dashboard.tsx:23-38 | removing a just-added student whose id was fresh gives the old roster back |
| Dashboard.FindStudent | components/Dashboard.tsx:42 | find returns the first student with the id, and none exactly when no student has it |
| Dashboard.SelectStudent | components/Dashboard.tsx:99 | the row's button selects that student's id; the roster, topic, modal, form, plan and busy flag stay as they were |
| Dashboard.GenerationRequest | components/Dashboard.tsx:40-46 | generation proceeds exactly when a non-empty id is selected, the topic is non-empty and a student of that id exists, and then asks about that student |
| Dashboard.HandleGenerateAI | components/Dashboard.tsx:40-49 | a refused guard leaves no trace; otherwise the first state is busy and still shows the old plan, and the second shows the generator's plan with busy cleared; this handler changes none of the roster, selection, topic, modal or form |
| Dashboard.SelectThenGenerate | components/Dashboard.tsx:40-46 | in a roster of distinct ids, selecting a student and typing a topic generates for exactly that student |
| Dashboard.RemoveSelectedBlocksGeneration | components/Dashboard.tsx:36-43 | once the selected student is removed, generation is refused |

## Left out

- Execution of the Web Audio graph is not modelled: sound, gain automation curves, node lifetimes and garbage collection. Each voice is modelled as the ordered log of calls it makes.
- `getUserMedia`, the analyser node and `requestAnimationFrame` are left out. The microphone's outcome is a parameter of `StartTuner`. Each animation frame is one `UpdatePitch` call with the frame's estimate.
- IEEE-754 arithmetic is modelled with exact reals. `Math.sqrt` is avoided by comparing the mean square with 0.0001. `Math.log`/`Math.pow` are avoided by taking the note number and the semitone ratio as parameters.
- Guitar frequencies `GUITAR_TUNING[s] · 2^(fret/12)` are represented by (string, fret) pairs.
- `NaN` and `Infinity` appear only where the source's guards make them matter: the refinement's boundary reads, division by a zero period, and the display's NaN detune.
- `Math.random` is a parameter: the strum jitter, the noise samples and the new student's id. Distinct ids are therefore not guaranteed, and lemmas about uniqueness assume a fresh id.
- The clock is a parameter: the audio context's `currentTime` and the student's join date.
- `setTimeout` callbacks are recorded as timers rather than run later.
- `ResumeContext`: the device's asynchronous `resume` is taken to succeed at once.
- The lesson-plan service and its canned demo reply are left out. The generator is a function parameter of `HandleGenerateAI`.
- Dashboard.HandleGenerateAI: other handlers that run during the `await` are not modelled. These are the topic input, a row's select button and its remove button. In the source they can change the topic, the selection or the roster before the plan arrives. The trace shows only this handler's own updates.
- AudioEngine.Engine.constructor: the master gain's connection to the destination is not recorded in the plan. Voices connect to the master node only.
- The flute's `filter` node is created but never configured or connected by the source. The model creates it and nothing more.
- The view routing and menu of the application shell are not modelled.
- The SVG coordinates from `Math.cos`/`Math.sin`, label splitting on `/`, CSS classes, the cartoon flutist, the piano's scroll offset and the level badge colours are left out.
- The metallophone panel's note tables (`METAL_NOTES`, `METAL_ACCIDENTALS`) and their colours are left out, and so is the instrument selector. They are presentational tables, and they play through `PlayTone`, which is modelled.
- The individual piano key buttons (`onClick` → `playTone(freq, 1.5, 'piano')`) are not modelled separately. They are one `PlayTone` call.
- The form's field edits and the topic input are plain assignments to the state and are not modelled separately.
- The generate button's `disabled` attribute is not modelled, and neither is the cancel button. The handler's own guard is.
- InstrumentPanel.GuitarPanel.FretClick: the fret cells exist only in builder mode, but the model does not require builder mode because the handler itself does not check it.
- InstrumentPanel.GuitarPanel.DotClick: the dot is drawn only on strings with a fret above 0, and the model does not require that either.
