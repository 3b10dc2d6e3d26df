/** The virtual-instrument panel: the 88-key piano table, the recorder's
    fingering chart and recogniser, and the guitar's chord library, strum and
    fretboard builder. Sound itself is requested from the synthesizer; here a
    request is a value (frequency, duration, instrument) and a guitar strum is
    the list of (string, fret) pairs it sounds. */
module InstrumentPanel {
  import opened Types

  /** A call audioEngine.playTone(frequency, duration, instrument). */
  datatype ToneRequest = ToneRequest(frequency: real, duration: real, instrument: Instrument)

  // ------------------------------------------------------------------
  // Piano: 88 keys, A0 to C8
  // ------------------------------------------------------------------

  /** The twelve pitch-class names, starting at A (the lowest piano key). */
  const AFirstNames: seq<string> := ["A", "A#", "B", "C", "C#", "D", "D#", "E", "F", "F#", "G", "G#"]

  /** One key of the piano table. */
  datatype PianoKey = PianoKey(id: nat, name: string, pitchName: string, freq: real, isBlack: bool, octave: nat)

  /** x raised to the k-th power. */
  function Pow(x: real, k: nat): real
  {
    if k == 0 then 1.0 else Pow(x, k - 1) * x
  }

  lemma {:induction false} PowAdd(x: real, a: nat, b: nat)
    ensures Pow(x, a + b) == Pow(x, a) * Pow(x, b)
  {
    if b > 0 {
      PowAdd(x, a, b - 1);
      var p, q := Pow(x, a), Pow(x, b - 1);
      assert Pow(x, a + b) == (p * q) * x;
      MulAssoc(p, q, x);
    }
  }

  lemma MulAssoc(p: real, q: real, x: real)
    ensures (p * q) * x == p * (q * x)
  {
  }

  /** The decimal digit d, as the template literal prints it. */
  function Digit(d: nat): char
    requires d < 10
  {
    ('0' as int + d) as char
  }

  /** Key i of the table: its label, its octave floor((i + 9) / 12), its name
      (label then octave) and the frequency 27.5 * ratio^i, where ratio stands
      for the twelfth root of two. */
  function KeyAt(i: nat, ratio: real): PianoKey
    requires i < 88
  {
    var pitchName := AFirstNames[i % 12];
    var octave := (i + 9) / 12;
    PianoKey(i, pitchName + [Digit(octave)], pitchName, 27.5 * Pow(ratio, i), '#' in pitchName, octave)
  }

  /** The whole table. */
  function PianoKeys(ratio: real): seq<PianoKey>
  {
    seq(88, i requires 0 <= i < 88 => KeyAt(i, ratio))
  }

  /** generatePianoKeys: one key per step, the frequency multiplied by ratio
      after each. */
  method GeneratePianoKeys(ratio: real) returns (keys: seq<PianoKey>)
    ensures keys == PianoKeys(ratio)
  {
    keys := [];
    var currentFreq := 27.5;
    var i := 0;
    while i < 88
      invariant 0 <= i <= 88
      invariant |keys| == i
      invariant forall j | 0 <= j < i :: keys[j] == KeyAt(j, ratio)
      invariant currentFreq == 27.5 * Pow(ratio, i)
    {
      var noteIndex := i % 12;
      var octave := (i + 9) / 12;
      var noteName := AFirstNames[noteIndex];
      var isBlack := '#' in noteName;
      keys := keys + [PianoKey(i, noteName + [Digit(octave)], noteName, currentFreq, isBlack, octave)];
      currentFreq := currentFreq * ratio;
      i := i + 1;
    }
  }

  /** The table runs from A0 (27.5 Hz) to C8, and key i has id i. */
  lemma PianoRange(ratio: real)
    ensures |PianoKeys(ratio)| == 88
    ensures PianoKeys(ratio)[0].name == "A0" && PianoKeys(ratio)[0].freq == 27.5
    ensures PianoKeys(ratio)[87].name == "C8"
    ensures forall i | 0 <= i < 88 :: PianoKeys(ratio)[i].id == i
  {
    assert (87 + 9) / 12 == 8;
  }

  /** Key i is black exactly on the five pitch classes A#, C#, D#, F#, G#,
      which sit 1, 4, 6, 9 and 11 semitones above A. */
  lemma BlackPattern(ratio: real, i: nat)
    requires i < 88
    ensures PianoKeys(ratio)[i].isBlack <==> i % 12 in {1, 4, 6, 9, 11}
  {
    var k := i % 12;
    assert AFirstNames[k] == PianoKeys(ratio)[i].pitchName;
    if k == 0 { assert AFirstNames[k] == "A"; }
    else if k == 1 { assert AFirstNames[k] == "A#"; }
    else if k == 2 { assert AFirstNames[k] == "B"; }
    else if k == 3 { assert AFirstNames[k] == "C"; }
    else if k == 4 { assert AFirstNames[k] == "C#"; }
    else if k == 5 { assert AFirstNames[k] == "D"; }
    else if k == 6 { assert AFirstNames[k] == "D#"; }
    else if k == 7 { assert AFirstNames[k] == "E"; }
    else if k == 8 { assert AFirstNames[k] == "F"; }
    else if k == 9 { assert AFirstNames[k] == "F#"; }
    else if k == 10 { assert AFirstNames[k] == "G"; }
    else { assert AFirstNames[k] == "G#"; }
  }

  /** (12 m + j) mod 12 is j and (12 m + j) / 12 is m. */
  lemma Periodic(m: nat, j: nat)
    requires j < 12
    ensures (12 * m + j) % 12 == j && (12 * m + j) / 12 == m
  {
  }

  /** Only index 3 of the A-first table names C. */
  lemma CAtThree(k: nat)
    requires k < 12
    ensures AFirstNames[k] == "C" <==> k == 3
  {
    assert AFirstNames[k][0] == "AABCCDDEFFGG"[k];
    assert |AFirstNames[k]| == 1 <==> k in {0, 2, 3, 5, 7, 8, 10};
  }

  /** The octave number steps up by one exactly at each C, as in scientific
      pitch notation, and otherwise stays. */
  lemma OctaveStartsAtC(ratio: real, i: nat)
    requires i + 1 < 88
    ensures var keys := PianoKeys(ratio);
      && (keys[i + 1].octave == keys[i].octave || keys[i + 1].octave == keys[i].octave + 1)
      && (keys[i + 1].octave == keys[i].octave + 1 <==> keys[i + 1].pitchName == "C")
  {
    var m, q := i / 12, i % 12;
    assert i == 12 * m + q;
    var k := (i + 1) % 12;
    if q == 11 {
      Periodic(m + 1, 0);
      Periodic(m + 1, 8);
      Periodic(m + 1, 9);
      assert k == 0;
    } else if q == 2 {
      Periodic(m, 3);
      Periodic(m, 11);
      Periodic(m + 1, 0);
      assert k == 3;
    } else if q < 2 {
      Periodic(m, q + 1);
      Periodic(m, q + 9);
      Periodic(m, q + 10);
      assert k == q + 1;
    } else {
      Periodic(m, q + 1);
      Periodic(m + 1, q - 3);
      Periodic(m + 1, q - 2);
      assert k == q + 1;
    }
    CAtThree(k);
  }

  /** With ratio^12 == 2, a key an octave up has the same label, the next
      octave number and twice the frequency. */
  lemma OctaveDoubles(ratio: real, i: nat)
    requires Pow(ratio, 12) == 2.0 && i + 12 < 88
    ensures var keys := PianoKeys(ratio);
      && keys[i + 12].pitchName == keys[i].pitchName
      && keys[i + 12].octave == keys[i].octave + 1
      && keys[i + 12].freq == 2.0 * keys[i].freq
  {
    PowAdd(ratio, i, 12);
    Periodic((i + 9) / 12, (i + 9) % 12);
    Periodic((i + 9) / 12 + 1, (i + 9) % 12);
    assert (i + 12) % 12 == i % 12 by {
      Periodic(i / 12, i % 12);
      Periodic(i / 12 + 1, i % 12);
    }
  }

  /** The white keys among the first n positions of the table. */
  function WhitesBelow(n: nat): nat
  {
    if n == 0 then 0 else WhitesBelow(n - 1) + (if '#' in AFirstNames[(n - 1) % 12] then 0 else 1)
  }

  /** The number of white keys in a list of keys. */
  function WhiteCount(keys: seq<PianoKey>): nat
  {
    if |keys| == 0 then 0
    else WhiteCount(keys[..|keys| - 1]) + (if keys[|keys| - 1].isBlack then 0 else 1)
  }

  /** White keys among the first k keys of an octave that starts at A. */
  const OctaveWhites: seq<nat> := [0, 1, 1, 2, 3, 3, 4, 4, 5, 6, 6, 7, 7]

  lemma {:induction false} OctavePrefix(m: nat, k: nat)
    requires k <= 12
    ensures WhitesBelow(12 * m + k) == WhitesBelow(12 * m) + OctaveWhites[k]
  {
    if k > 0 {
      OctavePrefix(m, k - 1);
      Periodic(m, k - 1);
      assert WhitesBelow(12 * m + k) == WhitesBelow(12 * m + k - 1) + (if '#' in AFirstNames[k - 1] then 0 else 1);
      OctaveStep(k - 1);
    }
  }

  /** One more key of the octave adds one white key exactly when it is natural. */
  lemma OctaveStep(j: nat)
    requires j < 12
    ensures OctaveWhites[j + 1] == OctaveWhites[j] + (if '#' in AFirstNames[j] then 0 else 1)
  {
  }

  lemma {:induction false} Octaves(m: nat)
    ensures WhitesBelow(12 * m) == 7 * m
  {
    if m > 0 {
      Octaves(m - 1);
      OctavePrefix(m - 1, 12);
    }
  }

  lemma {:induction false} WhiteCountPrefix(ratio: real, n: nat)
    requires n <= 88
    ensures WhiteCount(PianoKeys(ratio)[..n]) == WhitesBelow(n)
  {
    if n > 0 {
      WhiteCountPrefix(ratio, n - 1);
      assert PianoKeys(ratio)[..n][..n - 1] == PianoKeys(ratio)[..n - 1];
    }
  }

  /** The drawing: white keys 44 px wide, black keys 28 px wide, and a
      keyboard 52 * 44 px wide. */
  const WhiteKeyWidth := 44
  const BlackKeyWidth := 28
  const KeyboardWidth := 52 * 44

  /** The keyboard has 52 white keys, exactly filling its drawn width. */
  lemma WhiteKeyCount(ratio: real)
    ensures WhiteCount(PianoKeys(ratio)) == 52
    ensures WhiteCount(PianoKeys(ratio)) * WhiteKeyWidth == KeyboardWidth
  {
    Octaves(7);
    OctavePrefix(7, 4);
    WhiteCountPrefix(ratio, 88);
    assert PianoKeys(ratio)[..88] == PianoKeys(ratio);
  }

  /** The left edge of a black key: 44 px per white key before it, less 14. */
  function BlackKeyLeft(keys: seq<PianoKey>, index: nat): int
    requires index <= |keys|
  {
    WhiteCount(keys[..index]) * WhiteKeyWidth - 14
  }

  lemma {:induction false} WhitesMonotone(a: nat, b: nat)
    requires a <= b
    ensures WhitesBelow(a) <= WhitesBelow(b)
  {
    if a < b {
      WhitesMonotone(a, b - 1);
    }
  }

  /** A black key has at least one and at most 51 white keys before it. */
  lemma WhitesBeforeBlack(ratio: real, i: nat)
    requires i < 88 && PianoKeys(ratio)[i].isBlack
    ensures 1 <= WhiteCount(PianoKeys(ratio)[..i]) <= 51
  {
    assert '#' in AFirstNames[i % 12];
    assert i != 0;
    assert AFirstNames[87 % 12] == "C";
    WhiteCountPrefix(ratio, i);
    WhitesMonotone(1, i);
    WhitesMonotone(i + 1, 87);
    assert WhitesBelow(i + 1) == WhitesBelow(i);
    Octaves(7);
    OctavePrefix(7, 3);
  }

  /** Every black key straddles the edge between two white keys and lies
      inside the keyboard. */
  lemma BlackKeysInside(ratio: real, i: nat)
    requires i < 88 && PianoKeys(ratio)[i].isBlack
    ensures var left, edge := BlackKeyLeft(PianoKeys(ratio), i), WhiteCount(PianoKeys(ratio)[..i]) * WhiteKeyWidth;
      0 < left < edge < left + BlackKeyWidth <= KeyboardWidth
  {
    WhitesBeforeBlack(ratio, i);
  }

  // ------------------------------------------------------------------
  // Recorder
  // ------------------------------------------------------------------

  /** One entry of the fingering chart. A hole is 1 when covered, 0 when open
      and 0.5 when half covered; the thumb hole comes first. */
  datatype RecorderNote = RecorderNote(name: string, freq: real, holes: seq<real>, explanation: string)

  const RecorderNotes: seq<RecorderNote> := [
    RecorderNote("DO (C5)", 523.25, [1.0, 1.0, 1.0, 1.0, 1.0, 1.0, 1.0, 1.0], "Todos los orificios tapados. Soplo suave."),
    RecorderNote("RE (D5)", 587.33, [1.0, 1.0, 1.0, 1.0, 1.0, 1.0, 1.0, 0.0], "Destapar el orificio inferior."),
    RecorderNote("MI (E5)", 659.25, [1.0, 1.0, 1.0, 1.0, 1.0, 1.0, 0.0, 0.0], "Mano derecha: solo dedo índice."),
    RecorderNote("FA (F5)", 698.46, [1.0, 1.0, 1.0, 1.0, 0.0, 1.0, 1.0, 0.0], "Digitación barroca."),
    RecorderNote("SOL (G5)", 783.99, [1.0, 1.0, 1.0, 1.0, 0.0, 0.0, 0.0, 0.0], "Solo mano izquierda."),
    RecorderNote("LA (A5)", 880.00, [1.0, 1.0, 1.0, 0.0, 0.0, 0.0, 0.0, 0.0], "Dos dedos superiores."),
    RecorderNote("SI (B5)", 987.77, [1.0, 1.0, 0.0, 0.0, 0.0, 0.0, 0.0, 0.0], "Solo dedo índice superior."),
    RecorderNote("DO Agudo (C6)", 1046.50, [1.0, 0.0, 1.0, 0.0, 0.0, 0.0, 0.0, 0.0], "Invertir índice y medio."),
    RecorderNote("RE Agudo (D6)", 1174.66, [0.0, 0.0, 1.0, 0.0, 0.0, 0.0, 0.0, 0.0], "Solo dedo medio izquierdo (abierto atrás).")
  ]

  const SilenceName := "Silencio (Aire)"
  const UnknownName := "Posición desconocida"

  /** The first chart entry from index k on whose pattern equals holes. */
  function FindFrom(holes: seq<real>, k: nat): (r: Option<nat>)
    requires k <= |RecorderNotes|
    ensures r.Some? ==> k <= r.value < |RecorderNotes| && RecorderNotes[r.value].holes == holes
    ensures r.Some? ==> forall j | k <= j < r.value :: RecorderNotes[j].holes != holes
    ensures r.None? ==> forall j | k <= j < |RecorderNotes| :: RecorderNotes[j].holes != holes
    decreases |RecorderNotes| - k
  {
    if k == |RecorderNotes| then None
    else if RecorderNotes[k].holes == holes then Some(k)
    else FindFrom(holes, k + 1)
  }

  /** RECORDER_NOTES.find, comparing the hole patterns element by element. */
  function FindFingering(holes: seq<real>): Option<nat>
  {
    FindFrom(holes, 0)
  }

  predicate AllOpen(holes: seq<real>)
  {
    forall i | 0 <= i < |holes| :: holes[i] == 0.0
  }

  /** No two chart entries share a pattern, and none leaves every hole open. */
  lemma PatternsDistinct()
    ensures forall i, j | 0 <= i < j < |RecorderNotes| :: RecorderNotes[i].holes != RecorderNotes[j].holes
    ensures forall i | 0 <= i < |RecorderNotes| :: !AllOpen(RecorderNotes[i].holes) && |RecorderNotes[i].holes| == 8
  {
    forall i, j | 0 <= i < j < |RecorderNotes|
      ensures RecorderNotes[i].holes != RecorderNotes[j].holes
    {
      // a hole on which entry i differs from every later entry j
      var d := if i == 0 then 7
               else if i == 1 then (if j == 2 then 6 else if j == 3 then 4 else 5)
               else if i == 2 then 4 else if i == 3 then 5 else if i == 4 then 3
               else if i == 5 then (if j == 6 then 2 else 1)
               else if i == 6 then 1 else 0;
      assert RecorderNotes[i].holes[d] != RecorderNotes[j].holes[d];
    }
    forall i | 0 <= i < |RecorderNotes|
      ensures !AllOpen(RecorderNotes[i].holes) && |RecorderNotes[i].holes| == 8
    {
      // the thumb hole is covered on every entry but the last
      var w := if i == 8 then 2 else 0;
      assert RecorderNotes[i].holes[w] == 1.0;
    }
  }

  /** detectFluteNote: the name of the chart entry the fingering matches;
      otherwise silence when every hole is open, or an unknown position. */
  function DetectFluteNote(holes: seq<real>): (name: string)
    ensures forall k | 0 <= k < |RecorderNotes| && RecorderNotes[k].holes == holes :: name == RecorderNotes[k].name
    ensures (forall k | 0 <= k < |RecorderNotes| :: RecorderNotes[k].holes != holes) ==>
              name == (if AllOpen(holes) then SilenceName else UnknownName)
  {
    PatternsDistinct();
    match FindFingering(holes)
    case Some(k) => RecorderNotes[k].name
    case None => if AllOpen(holes) then SilenceName else UnknownName
  }

  /** The sum of the hole values, left to right (reduce with 0). */
  function HoleSum(holes: seq<real>): real
  {
    if |holes| == 0 then 0.0 else HoleSum(holes[..|holes| - 1]) + holes[|holes| - 1]
  }

  /** A hole value the panel can hold: open, covered or half covered. */
  predicate HoleValue(h: real)
  {
    h == 0.0 || h == 1.0 || h == 0.5
  }

  /** Eight holes, each open, covered or half covered. */
  predicate Fingering(holes: seq<real>)
  {
    |holes| == 8 && forall i | 0 <= i < |holes| :: HoleValue(holes[i])
  }

  lemma {:induction false} HoleSumBounds(holes: seq<real>)
    requires forall i | 0 <= i < |holes| :: HoleValue(holes[i])
    ensures 0.0 <= HoleSum(holes) <= |holes| as real
  {
    if |holes| > 0 {
      HoleSumBounds(holes[..|holes| - 1]);
    }
  }

  /** The pitch played for a fingering that is not in the chart. */
  function ApproxFrequency(holes: seq<real>): real
  {
    523.25 + (8.0 - HoleSum(holes)) * 60.0
  }

  /** Off the chart, the approximate pitch lies between the closed-recorder
      DO (523.25 Hz) and 1003.25 Hz. */
  lemma ApproxFrequencyRange(holes: seq<real>)
    requires Fingering(holes)
    ensures RecorderNotes[0].freq <= ApproxFrequency(holes) <= 1003.25
  {
    HoleSumBounds(holes);
  }

  /** A click on a hole: open -> covered -> half covered -> open. */
  function NextHole(h: real): (n: real)
    ensures HoleValue(n)
  {
    if h == 0.0 then 1.0 else if h == 1.0 then 0.5 else 0.0
  }

  /** Three clicks bring a hole back to where it was. */
  lemma HoleCycle(h: real)
    requires HoleValue(h)
    ensures NextHole(NextHole(NextHole(h))) == h
    ensures NextHole(h) != h
  {
  }

  /** The recorder's state: the fingering and the detected-note label. */
  class FlutePanel {
    var holes: seq<real>
    var detected: string

    constructor ()
      ensures holes == [0.0, 0.0, 0.0, 0.0, 0.0, 0.0, 0.0, 0.0] && detected == "Silencio"
    {
      holes := [0.0, 0.0, 0.0, 0.0, 0.0, 0.0, 0.0, 0.0];
      detected := "Silencio";
    }

    /** toggleFluteHole: cycle one hole and relabel the fingering. */
    method ToggleFluteHole(index: nat)
      requires index < |holes|
      modifies this
      ensures holes == old(holes)[index := NextHole(old(holes)[index])]
      ensures |holes| == |old(holes)| && forall i | 0 <= i < |holes| && i != index :: holes[i] == old(holes)[i]
      ensures detected == DetectFluteNote(holes)
      ensures Fingering(old(holes)) ==> Fingering(holes)
    {
      var newHoles := holes;
      if newHoles[index] == 0.0 {
        newHoles := newHoles[index := 1.0];
      } else if newHoles[index] == 1.0 {
        newHoles := newHoles[index := 0.5];
      } else {
        newHoles := newHoles[index := 0.0];
      }
      holes := newHoles;
      detected := DetectFluteNote(newHoles);
    }

    /** A click on chart entry k: take its fingering and name, and play its
        pitch for one second. The label agrees with the recogniser. */
    method ChooseNote(k: nat) returns (req: ToneRequest)
      requires k < |RecorderNotes|
      modifies this
      ensures holes == RecorderNotes[k].holes && detected == RecorderNotes[k].name
      ensures detected == DetectFluteNote(holes)
      ensures req == ToneRequest(RecorderNotes[k].freq, 1.0, Flute)
    {
      holes := RecorderNotes[k].holes;
      detected := RecorderNotes[k].name;
      req := ToneRequest(RecorderNotes[k].freq, 1.0, Flute);
    }

    /** playFluteCurrent: a charted fingering plays its pitch for 1.5 s;
        any other plays the approximate pitch for 0.5 s. */
    method PlayFluteCurrent() returns (req: ToneRequest)
      ensures forall k | 0 <= k < |RecorderNotes| && RecorderNotes[k].holes == holes ::
                req == ToneRequest(RecorderNotes[k].freq, 1.5, Flute)
      ensures (forall k | 0 <= k < |RecorderNotes| :: RecorderNotes[k].holes != holes) ==>
                req == ToneRequest(ApproxFrequency(holes), 0.5, Flute)
    {
      PatternsDistinct();
      var found := FindFingering(holes);
      if found.Some? {
        req := ToneRequest(RecorderNotes[found.value].freq, 1.5, Flute);
      } else {
        var closedCount := HoleSum(holes);
        req := ToneRequest(523.25 + (8.0 - closedCount) * 60.0, 0.5, Flute);
      }
    }
  }

  // ------------------------------------------------------------------
  // Guitar
  // ------------------------------------------------------------------

  /** Open-string frequencies, low E to high e. */
  const GuitarTuning: seq<real> := [82.41, 110.00, 146.83, 196.00, 246.94, 329.63]

  /** A sounded string: its index (0 is low E) and its fret (0 is open). */
  datatype Pluck = Pluck(stringIndex: nat, fret: nat)

  /** The strings a fret list sounds, in string order; -1 (and any negative
      fret) mutes the string. */
  function Plucks(frets: seq<int>): seq<Pluck>
  {
    if |frets| == 0 then []
    else
      var last := frets[|frets| - 1];
      Plucks(frets[..|frets| - 1]) + (if last >= 0 then [Pluck(|frets| - 1, last)] else [])
  }

  /** playGuitarChord: push one note per non-muted string. */
  method PlayGuitarChord(frets: seq<int>) returns (plucks: seq<Pluck>)
    ensures plucks == Plucks(frets)
  {
    plucks := [];
    var s := 0;
    while s < |frets|
      invariant 0 <= s <= |frets|
      invariant plucks == Plucks(frets[..s])
    {
      assert frets[..s + 1][..s] == frets[..s];
      if frets[s] >= 0 {
        plucks := plucks + [Pluck(s, frets[s])];
      }
      s := s + 1;
    }
    assert frets[..s] == frets;
  }

  /** Every pluck names a string of the chord at its own fret, the strings
      strictly increase, and every non-muted string is plucked. */
  lemma {:induction false} PlucksExact(frets: seq<int>)
    ensures forall p | p in Plucks(frets) :: p.stringIndex < |frets| && frets[p.stringIndex] == p.fret
    ensures forall i, j | 0 <= i < j < |Plucks(frets)| :: Plucks(frets)[i].stringIndex < Plucks(frets)[j].stringIndex
    ensures forall s | 0 <= s < |frets| && frets[s] >= 0 :: Pluck(s, frets[s]) in Plucks(frets)
  {
    if |frets| > 0 {
      var init := frets[..|frets| - 1];
      PlucksExact(init);
      forall s | 0 <= s < |frets| && frets[s] >= 0
        ensures Pluck(s, frets[s]) in Plucks(frets)
      {
        if s < |init| {
          assert init[s] == frets[s];
        }
      }
    }
  }

  /** Nothing is plucked exactly when every string is muted. */
  lemma {:induction false} SilentChord(frets: seq<int>)
    ensures Plucks(frets) == [] <==> forall s | 0 <= s < |frets| :: frets[s] < 0
  {
    PlucksExact(frets);
    if |frets| > 0 {
      SilentChord(frets[..|frets| - 1]);
    }
  }

  /** A library chord under its root and quality: frets from low E to high e
      (-1 muted, 0 open) and the finger on each string (0 none, 1 index ...
      4 little finger). */
  datatype LibraryChord = LibraryChord(root: string, quality: string, frets: seq<int>, fingers: seq<nat>, explanation: string)

  /** CHORD_LIBRARY, its two levels of keys flattened into (root, quality). */
  const ChordLibrary: seq<LibraryChord> := [
    LibraryChord("C", "Mayor", [-1, 3, 2, 0, 1, 0], [0, 3, 2, 0, 1, 0], "Do Mayor. Dedo 1 en Si, Dedo 2 en Re, Dedo 3 en La."),
    LibraryChord("C", "Menor", [-1, 3, 5, 5, 4, 3], [0, 1, 3, 4, 2, 1], "Do Menor. Cejilla en traste 3."),
    LibraryChord("C", "7", [-1, 3, 2, 3, 1, 0], [0, 3, 2, 4, 1, 0], "Do Séptima. Añade el dedo meñique en Sol (3ra cuerda)."),
    LibraryChord("C", "Maj7", [-1, 3, 2, 0, 0, 0], [0, 3, 2, 0, 0, 0], "Do Maj7. Levanta el dedo índice."),
    LibraryChord("D", "Mayor", [-1, -1, 0, 2, 3, 2], [0, 0, 0, 1, 3, 2], "Re Mayor. Triángulo clásico."),
    LibraryChord("D", "Menor", [-1, -1, 0, 2, 3, 1], [0, 0, 0, 2, 3, 1], "Re Menor."),
    LibraryChord("E", "Mayor", [0, 2, 2, 1, 0, 0], [0, 2, 3, 1, 0, 0], "Mi Mayor. Usa todas las cuerdas."),
    LibraryChord("E", "Menor", [0, 2, 2, 0, 0, 0], [0, 2, 3, 0, 0, 0], "Mi Menor. Solo dos dedos."),
    LibraryChord("G", "Mayor", [3, 2, 0, 0, 0, 3], [2, 1, 0, 0, 0, 3], "Sol Mayor."),
    LibraryChord("A", "Mayor", [-1, 0, 2, 2, 2, 0], [0, 0, 1, 2, 3, 0], "La Mayor. Tres dedos en línea."),
    LibraryChord("A", "Menor", [-1, 0, 2, 2, 1, 0], [0, 0, 2, 3, 1, 0], "La Menor.")
  ]

  const Qualities: seq<string> := ["Mayor", "Menor", "7", "Maj7", "sus4", "dim", "aug", "9", "11", "13"]
  const Roots: seq<string> := ["C", "C#", "D", "D#", "E", "F", "F#", "G", "G#", "A", "A#", "B"]

  const UnavailableInfo := "Acorde no disponible en la versión demo."

  predicate Names(c: LibraryChord, root: string, quality: string)
  {
    c.root == root && c.quality == quality
  }

  /** The first library entry from index k on filed under root and quality. */
  function FindChord(root: string, quality: string, k: nat): (r: Option<nat>)
    requires k <= |ChordLibrary|
    ensures r.Some? ==> k <= r.value < |ChordLibrary| && Names(ChordLibrary[r.value], root, quality)
    ensures r.None? ==> forall j | k <= j < |ChordLibrary| :: !Names(ChordLibrary[j], root, quality)
    decreases |ChordLibrary| - k
  {
    if k == |ChordLibrary| then None
    else if Names(ChordLibrary[k], root, quality) then Some(k)
    else FindChord(root, quality, k + 1)
  }

  /** CHORD_LIBRARY[root]?.[quality], as the index of the entry. */
  function LookupChord(root: string, quality: string): Option<nat>
  {
    FindChord(root, quality, 0)
  }

  /** Six strings; frets from -1 (muted) up; fingers 0 to 4, and a finger is
      placed exactly on the strings stopped at a fret. */
  predicate WellFormedShape(c: LibraryChord)
  {
    |c.frets| == 6 && |c.fingers| == 6 && forall s | 0 <= s < 6 :: FingerFits(c.frets[s], c.fingers[s])
  }

  /** A fret from -1 up, a finger from 0 to 4, and a finger exactly on a
      stopped string. */
  predicate FingerFits(fret: int, finger: nat)
  {
    -1 <= fret && finger <= 4 && (finger == 0 <==> fret <= 0)
  }

  /** Every library chord is well formed and can be reached from the root and
      quality selectors, among the first four qualities only. */
  lemma LibraryWellFormed()
    ensures forall k | 0 <= k < |ChordLibrary| ::
              WellFormedShape(ChordLibrary[k]) && ChordLibrary[k].root in Roots && ChordLibrary[k].quality in Qualities[..4]
  {
    forall k | 0 <= k < |ChordLibrary|
      ensures WellFormedShape(ChordLibrary[k])
    {
    }
    assert Roots[0] == "C" && Roots[2] == "D" && Roots[4] == "E" && Roots[7] == "G" && Roots[9] == "A";
    assert Qualities[..4] == ["Mayor", "Menor", "7", "Maj7"];
  }

  /** The six qualities beyond Maj7 are offered by the selector but never in
      the library, so they always fall back. */
  lemma DemoQualitiesMissing(root: string, quality: string)
    requires quality in Qualities[4..]
    ensures LookupChord(root, quality).None?
  {
    LibraryWellFormed();
    assert Qualities[4..] == ["sus4", "dim", "aug", "9", "11", "13"];
    assert quality !in Qualities[..4];
  }

  /** No two library entries are filed under the same root and quality. */
  lemma LibraryKeysDistinct()
    ensures forall i, j | 0 <= i < j < |ChordLibrary| ::
              !Names(ChordLibrary[j], ChordLibrary[i].root, ChordLibrary[i].quality)
  {
  }

  /** A unique six-string list of muted strings. */
  const AllMuted: seq<int> := [-1, -1, -1, -1, -1, -1]

  /** What the fretboard shows. */
  datatype ChordView = ChordView(frets: seq<int>, fingers: seq<nat>, info: Option<string>)

  datatype GuitarMode = LibraryMode | BuilderMode

  /** The guitar's state: the mode, the library selection and the builder's
      own frets and fingers. */
  class GuitarPanel {
    var mode: GuitarMode
    var root: string
    var quality: string
    var customFrets: seq<int>
    var customFingers: seq<nat>

    /** Six strings in the builder's lists. */
    predicate Valid()
      reads this
    {
      |customFrets| == 6 && |customFingers| == 6
    }

    constructor ()
      ensures Valid()
      ensures mode == LibraryMode && root == "C" && quality == "Mayor"
      ensures customFrets == AllMuted && customFingers == [0, 0, 0, 0, 0, 0]
    {
      mode := LibraryMode;
      root := "C";
      quality := "Mayor";
      customFrets := AllMuted;
      customFingers := [0, 0, 0, 0, 0, 0];
    }

    /** The fretboard being shown: the library chord when one is selected
        and available, six muted strings with a notice when it is not, and
        the builder's own chord in builder mode. */
    function ActiveChord(): (v: ChordView)
      reads this
      ensures mode == BuilderMode ==> v == ChordView(customFrets, customFingers, None)
      ensures mode == LibraryMode && LookupChord(root, quality).Some? ==>
                var c := ChordLibrary[LookupChord(root, quality).value];
                Names(c, root, quality) && v == ChordView(c.frets, c.fingers, Some(c.explanation))
      ensures mode == LibraryMode && LookupChord(root, quality).None? ==>
                v == ChordView(AllMuted, customFingers, Some(UnavailableInfo))
    {
      if mode == LibraryMode then
        match LookupChord(root, quality)
        case Some(k) => ChordView(ChordLibrary[k].frets, ChordLibrary[k].fingers, Some(ChordLibrary[k].explanation))
        case None => ChordView(AllMuted, customFingers, Some(UnavailableInfo))
      else ChordView(customFrets, customFingers, None)
    }

    /** The mode buttons. */
    method SetMode(m: GuitarMode)
      modifies this`mode
      ensures mode == m
    {
      mode := m;
    }

    /** The root and quality selectors. */
    method SelectChord(r: string, q: string)
      modifies this`root, this`quality
      ensures root == r && quality == q
    {
      root := r;
      quality := q;
    }

    /** A click on fret k + 1 of string s: the same fret again cycles the
        finger 1 -> 2 -> 3 -> 4 -> 1; another fret moves there with finger 1. */
    method FretClick(s: nat, k: nat)
      requires Valid() && s < 6
      modifies this`customFrets, this`customFingers
      ensures Valid()
      ensures old(customFrets[s]) == k + 1 ==>
                customFrets == old(customFrets) && customFingers == old(customFingers)[s := old(customFingers[s]) % 4 + 1]
      ensures old(customFrets[s]) != k + 1 ==>
                customFrets == old(customFrets)[s := k + 1] && customFingers == old(customFingers)[s := 1]
      ensures customFrets[s] == k + 1 && 1 <= customFingers[s] <= 4
    {
      var newFrets := customFrets;
      var newFingers := customFingers;
      if newFrets[s] == k + 1 {
        newFingers := newFingers[s := newFingers[s] % 4 + 1];
      } else {
        newFrets := newFrets[s := k + 1];
        newFingers := newFingers[s := 1];
      }
      customFrets := newFrets;
      customFingers := newFingers;
    }

    /** A click on the nut of string s, in builder mode only: muted becomes
        open and anything else becomes muted. The finger stays. */
    method NutClick(s: nat)
      requires Valid() && s < 6
      modifies this`customFrets
      ensures Valid()
      ensures old(mode) != BuilderMode ==> customFrets == old(customFrets)
      ensures old(mode) == BuilderMode ==>
                customFrets == old(customFrets)[s := if old(customFrets[s]) == -1 then 0 else -1]
    {
      if mode != BuilderMode {
        return;
      }
      var newFrets := customFrets;
      newFrets := newFrets[s := if newFrets[s] == -1 then 0 else -1];
      customFrets := newFrets;
    }

    /** A click on the finger dot of string s, in builder mode only: cycle
        the finger. */
    method DotClick(s: nat)
      requires Valid() && s < 6
      modifies this`customFingers
      ensures Valid()
      ensures old(mode) != BuilderMode ==> customFingers == old(customFingers)
      ensures old(mode) == BuilderMode ==>
                customFingers == old(customFingers)[s := old(customFingers[s]) % 4 + 1]
    {
      if mode != BuilderMode {
        return;
      }
      var newFingers := customFingers;
      newFingers := newFingers[s := newFingers[s] % 4 + 1];
      customFingers := newFingers;
    }

    /** The strum button: sound the chord being shown. */
    method Strum() returns (plucks: seq<Pluck>)
      ensures plucks == Plucks(ActiveChord().frets)
      ensures mode == LibraryMode && LookupChord(root, quality).None? ==> plucks == []
    {
      plucks := PlayGuitarChord(ActiveChord().frets);
      SilentChord(ActiveChord().frets);
    }
  }

  /** Four clicks on a finger dot bring the finger back; from any finger the
      next one is 1 to 4. */
  lemma FingerCycle(f: nat)
    ensures 1 <= f % 4 + 1 <= 4
    ensures 1 <= f <= 4 ==> ((((f % 4 + 1) % 4 + 1) % 4 + 1) % 4 + 1) == f
  {
  }
}
