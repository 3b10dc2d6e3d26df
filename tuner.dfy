/** The chromatic tuner: an autocorrelation pitch estimator over one frame of
    microphone samples, the mapping from a note number to a pitch-class name
    and a cents deviation, and the tuner panel's display state.

    Samples are exact reals. The note number 12*log2(f/440)+69 cannot be
    computed here, so the mapping starts from it as a parameter. */
module Tuner {
  import opened Types

  /** The twelve pitch-class names, starting at C. */
  const NoteStrings: seq<string> := ["C", "C#", "D", "D#", "E", "F", "F#", "G", "G#", "A", "A#", "B"]

  // ------------------------------------------------------------------
  // Pitch estimation
  // ------------------------------------------------------------------

  /** What the estimator returns: the `-1` sentinel for a weak signal, a
      frequency `sampleRate / T0`, or the division by a zero period (which
      JavaScript turns into `Infinity`). */
  datatype Estimate = Silent | Hz(f: real) | Infinite

  /** Sum of the squared samples. */
  function SumSquares(buf: seq<real>): (r: real)
    ensures r >= 0.0
    ensures (forall i | 0 <= i < |buf| :: buf[i] == 0.0) ==> r == 0.0
  {
    if buf == [] then 0.0 else SumSquares(buf[..|buf| - 1]) + buf[|buf| - 1] * buf[|buf| - 1]
  }

  /** The RMS gate: sqrt(sum/N) < 0.01, compared squared. An empty frame gives
      0/0 = NaN in the source, and NaN < 0.01 is false, so it is not silent. */
  predicate IsSilent(buf: seq<real>)
  {
    |buf| > 0 && SumSquares(buf) < 0.0001 * (|buf| as real)
  }

  /** A sample below the 0.2 trimming threshold in magnitude. */
  predicate Quiet(x: real)
  {
    -0.2 < x < 0.2
  }

  /** The forward trimming scan started at index i. */
  function LeadFrom(buf: seq<real>, i: nat): (r: nat)
    decreases |buf| - i
    ensures r == 0 || (i <= r && 2 * r < |buf| && Quiet(buf[r]))
    ensures forall j | i <= j < r :: !Quiet(buf[j])
    ensures (forall j | i <= j && 2 * j < |buf| :: !Quiet(buf[j])) ==> r == 0
    ensures (exists j :: i <= j && 2 * j < |buf| && Quiet(buf[j])) ==> i <= r && 2 * r < |buf| && Quiet(buf[r])
  {
    if 2 * i >= |buf| then 0
    else if Quiet(buf[i]) then i
    else LeadFrom(buf, i + 1)
  }

  /** r1: the first index in the lower half whose sample is quiet, otherwise 0. */
  function LeadTrim(buf: seq<real>): (r1: nat)
    ensures (exists j :: 0 <= j && 2 * j < |buf| && Quiet(buf[j])) ==>
              2 * r1 < |buf| && Quiet(buf[r1]) && forall j | 0 <= j < r1 :: !Quiet(buf[j])
    ensures (forall j | 0 <= j && 2 * j < |buf| :: !Quiet(buf[j])) ==> r1 == 0
  {
    LeadFrom(buf, 0)
  }

  /** The backward trimming scan at distance i from the end (index N - i). */
  function TailFrom(buf: seq<real>, i: nat): (r: int)
    requires i >= 1
    decreases |buf| - i
    ensures r == |buf| - 1 || (|buf| < 2 * r && r <= |buf| - i && Quiet(buf[r]))
    ensures forall j | r < j && j <= |buf| - i :: !Quiet(buf[j])
    ensures (exists j :: |buf| < 2 * j && j <= |buf| - i && Quiet(buf[j])) ==>
              |buf| < 2 * r && r <= |buf| - i && Quiet(buf[r])
  {
    if 2 * i >= |buf| then |buf| - 1
    else if Quiet(buf[|buf| - i]) then |buf| - i
    else TailFrom(buf, i + 1)
  }

  /** r2: the last quiet index in the upper half, not counting the final
      sample, otherwise N - 1. */
  function TailTrim(buf: seq<real>): (r2: int)
    ensures (exists j :: |buf| < 2 * j && j < |buf| && Quiet(buf[j])) ==>
              |buf| < 2 * r2 && r2 < |buf| && Quiet(buf[r2]) && forall j | r2 < j < |buf| :: !Quiet(buf[j])
    ensures (forall j | |buf| < 2 * j && j < |buf| :: !Quiet(buf[j])) ==> r2 == |buf| - 1
  {
    TailFrom(buf, 1)
  }

  /** The kept part buf[r1..r2). For an empty frame r2 is -1, and the
      source's slice(0, -1) of an empty array is empty. */
  function Segment(buf: seq<real>): (seg: seq<real>)
    ensures |seg| <= |buf|
    ensures seg == [] || (LeadTrim(buf) + |seg| <= |buf| && seg == buf[LeadTrim(buf)..LeadTrim(buf) + |seg|])
  {
    var r1 := LeadTrim(buf);
    var r2 := TailTrim(buf);
    if r1 <= r2 then buf[r1..r2] else []
  }

  /** The sum of x[j] * x[j + lag] over j < k. */
  function LagSum(x: seq<real>, lag: nat, k: nat): real
    requires lag + k <= |x|
  {
    if k == 0 then 0.0 else LagSum(x, lag, k - 1) + x[k - 1] * x[k - 1 + lag]
  }

  /** The unnormalised autocorrelation at one lag. */
  function Lag(x: seq<real>, lag: nat): real
    requires lag <= |x|
  {
    LagSum(x, lag, |x| - lag)
  }

  /** The autocorrelation sequence c of the kept segment. */
  function Correlation(x: seq<real>): (c: seq<real>)
    ensures |c| == |x|
  {
    seq(|x|, i requires 0 <= i < |x| => Lag(x, i))
  }

  /** The descent scan started at index d. */
  function DescentFrom(c: seq<real>, d: nat): (r: nat)
    decreases |c| - d
    ensures d <= r
    ensures d < |c| ==> r < |c|
    ensures d >= |c| ==> r == d
    ensures r + 1 >= |c| || c[r] <= c[r + 1]
    ensures forall k | d <= k < r :: c[k] > c[k + 1]
  {
    if d + 1 >= |c| then d
    else if c[d] <= c[d + 1] then d
    else DescentFrom(c, d + 1)
  }

  /** d: the first lag at which the correlation stops decreasing (reading
      past the end of c compares against `undefined`, which is false). */
  function Descent(c: seq<real>): (d: nat)
    ensures d <= |c| && (|c| > 0 ==> d < |c|)
    ensures d + 1 >= |c| || c[d] <= c[d + 1]
    ensures forall k | 0 <= k < d :: c[k] > c[k + 1]
  {
    DescentFrom(c, 0)
  }

  /** t is the peak of c over [d, i) as the argmax scan finds it: -1 when no
      value exceeds -1, otherwise the first index attaining the maximum. */
  ghost predicate IsPeak(c: seq<real>, d: nat, i: nat, t: int)
    requires i <= |c|
  {
    if t == -1 then forall k | d <= k < i :: c[k] <= -1.0
    else
      && d <= t < i
      && c[t] > -1.0
      && (forall k | d <= k < i :: c[k] <= c[t])
      && (forall k | d <= k < t :: c[k] < c[t])
  }

  /** The argmax scan from index i with the running maximum and its position. */
  function PeakFrom(c: seq<real>, d: nat, i: nat, maxval: real, maxpos: int): (r: int)
    requires d <= i <= |c|
    requires IsPeak(c, d, i, maxpos)
    requires maxval == if maxpos == -1 then -1.0 else c[maxpos]
    decreases |c| - i
    ensures IsPeak(c, d, |c|, r)
  {
    if i == |c| then maxpos
    else if c[i] > maxval then PeakFrom(c, d, i + 1, c[i], i)
    else PeakFrom(c, d, i + 1, maxval, maxpos)
  }

  /** T0: the first index in [d, |c|) attaining the maximum of c, provided
      that maximum exceeds -1; otherwise -1. */
  function Peak(c: seq<real>, d: nat): (t: int)
    requires d <= |c|
    ensures t == -1 || d <= t < |c|
    ensures t == -1 <==> forall k | d <= k < |c| :: c[k] <= -1.0
    ensures t != -1 ==> c[t] > -1.0 && (forall k | d <= k < |c| :: c[k] <= c[t]) && (forall k | d <= k < t :: c[k] < c[t])
  {
    PeakFrom(c, d, d, -1.0, -1)
  }

  /** The peak is determined by IsPeak: the argmax scan has one answer. */
  lemma PeakUnique(c: seq<real>, d: nat, t1: int, t2: int)
    requires d <= |c|
    requires IsPeak(c, d, |c|, t1) && IsPeak(c, d, |c|, t2)
    ensures t1 == t2
  {
  }

  /** The parabolic correction of T0. It is applied only when both
      neighbours exist and the curvature a is non-zero; at a boundary the
      source reads `undefined`, a becomes NaN, and NaN is falsy. */
  function Refine(c: seq<real>, t0: int): (t: real)
    ensures !(0 < t0 < |c| - 1) ==> t == t0 as real
    ensures 0 < t0 < |c| - 1 && c[t0 - 1] + c[t0 + 1] == 2.0 * c[t0] ==> t == t0 as real
    ensures 0 < t0 < |c| - 1 && c[t0 - 1] + c[t0 + 1] != 2.0 * c[t0] ==>
              t == t0 as real - (c[t0 + 1] - c[t0 - 1]) / (2.0 * (c[t0 - 1] + c[t0 + 1] - 2.0 * c[t0]))
    ensures 0 < t0 < |c| - 1 && c[t0 - 1] <= c[t0] && c[t0 + 1] <= c[t0] ==>
              t0 as real - 0.5 <= t <= t0 as real + 0.5
  {
    if 0 < t0 < |c| - 1 then
      var x1, x2, x3 := c[t0 - 1], c[t0], c[t0 + 1];
      var a := (x1 + x3 - 2.0 * x2) / 2.0;
      var b := (x3 - x1) / 2.0;
      if a != 0.0 then
        VertexWithinHalf(x1, x2, x3);
        t0 as real - b / (2.0 * a)
      else t0 as real
    else t0 as real
  }

  /** When the middle of three values is the largest and the parabola through
      them is not flat, its vertex lies within half a lag of the middle. */
  lemma VertexWithinHalf(x1: real, x2: real, x3: real)
    requires (x1 + x3 - 2.0 * x2) / 2.0 != 0.0
    ensures var a, b := (x1 + x3 - 2.0 * x2) / 2.0, (x3 - x1) / 2.0;
            x1 <= x2 && x3 <= x2 ==> -0.5 <= b / (2.0 * a) <= 0.5
  {
    var a, b := (x1 + x3 - 2.0 * x2) / 2.0, (x3 - x1) / 2.0;
    if x1 <= x2 && x3 <= x2 {
      var q := b / (2.0 * a);
      assert a < 0.0;
      assert q * (2.0 * a) == b;
      assert a <= b <= -a;
    }
  }

  /** sampleRate / T, with the division by zero made explicit. */
  function Frequency(sampleRate: real, period: real): (e: Estimate)
    requires sampleRate > 0.0
    ensures e != Silent
    ensures period == 0.0 <==> e == Infinite
    ensures period > 0.0 ==> e.Hz? && e.f > 0.0
    ensures period < 0.0 ==> e.Hz? && e.f < 0.0
  {
    if period == 0.0 then Infinite else Hz(sampleRate / period)
  }

  /** The whole estimator as one function of the frame. */
  function AutoCorrelation(buf: seq<real>, sampleRate: real): (e: Estimate)
    requires sampleRate > 0.0
    ensures e == Silent <==> IsSilent(buf)
  {
    if IsSilent(buf) then Silent
    else
      var c := Correlation(Segment(buf));
      var d := Descent(c);
      Frequency(sampleRate, Refine(c, Peak(c, d)))
  }

  // ---- the estimator as the source runs it ----

  /** The accumulation loop of the RMS gate. */
  method SquaredSum(buf: seq<real>) returns (sum: real)
    ensures sum == SumSquares(buf)
  {
    sum := 0.0;
    for i := 0 to |buf|
      invariant sum == SumSquares(buf[..i])
    {
      assert buf[..i + 1][..i] == buf[..i];
      sum := sum + buf[i] * buf[i];
    }
    assert buf[..|buf|] == buf;
  }

  /** The forward trimming loop, leaving it at the first quiet sample. */
  method TrimStart(buf: seq<real>) returns (r1: nat)
    ensures r1 == LeadTrim(buf)
  {
    r1 := 0;
    var i := 0;
    while 2 * i < |buf|
      invariant r1 == 0 && LeadFrom(buf, i) == LeadFrom(buf, 0)
      decreases |buf| - i
    {
      if Quiet(buf[i]) {
        r1 := i;
        break;
      }
      i := i + 1;
    }
  }

  /** The backward trimming loop, leaving it at the first quiet sample
      counted from the end. */
  method TrimEnd(buf: seq<real>) returns (r2: int)
    ensures r2 == TailTrim(buf)
  {
    r2 := |buf| - 1;
    var i := 1;
    while 2 * i < |buf|
      invariant i >= 1
      invariant r2 == |buf| - 1 && TailFrom(buf, i) == TailFrom(buf, 1)
      decreases |buf| - i
    {
      if Quiet(buf[|buf| - i]) {
        r2 := |buf| - i;
        break;
      }
      i := i + 1;
    }
  }

  /** The O(M^2) nested loops filling the correlation array in place. */
  method Correlate(x: seq<real>) returns (cs: seq<real>)
    ensures |cs| == |x|
    ensures forall i | 0 <= i < |x| :: cs[i] == Lag(x, i)
  {
    var m := |x|;
    var c := new real[m](_ => 0.0);
    for i := 0 to m
      invariant forall k | 0 <= k < i :: c[k] == Lag(x, k)
      invariant forall k | i <= k < m :: c[k] == 0.0
    {
      for j := 0 to m - i
        invariant c[i] == LagSum(x, i, j)
        invariant forall k | 0 <= k < i :: c[k] == Lag(x, k)
        invariant forall k | i < k < m :: c[k] == 0.0
      {
        c[i] := c[i] + x[j] * x[j + i];
      }
    }
    cs := c[..];
  }

  /** The descent loop `while (c[d] > c[d + 1]) d++`. */
  method DescentIndex(c: seq<real>) returns (d: nat)
    ensures d == Descent(c)
  {
    d := 0;
    while d + 1 < |c| && c[d] > c[d + 1]
      invariant DescentFrom(c, d) == DescentFrom(c, 0)
      decreases |c| - d
    {
      d := d + 1;
    }
  }

  /** The argmax loop with strict `>`, starting from maxval = maxpos = -1. */
  method PeakIndex(c: seq<real>, d: nat) returns (maxpos: int)
    requires d <= |c|
    ensures maxpos == Peak(c, d)
  {
    var maxval := -1.0;
    maxpos := -1;
    for i := d to |c|
      invariant IsPeak(c, d, i, maxpos)
      invariant maxval == if maxpos == -1 then -1.0 else c[maxpos]
    {
      if c[i] > maxval {
        maxval := c[i];
        maxpos := i;
      }
    }
    PeakUnique(c, d, maxpos, Peak(c, d));
  }

  /** The parabolic interpolation step. x1 or x3 read outside c would be
      `undefined` and make a NaN, so the boundary peaks keep T0. */
  method RefinedPeriod(c: seq<real>, t: int) returns (period: real)
    ensures period == Refine(c, t)
  {
    period := t as real;
    if 0 < t < |c| - 1 {
      var x1, x2, x3 := c[t - 1], c[t], c[t + 1];
      var a := (x1 + x3 - 2.0 * x2) / 2.0;
      var b := (x3 - x1) / 2.0;
      if a != 0.0 {
        period := t as real - b / (2.0 * a);
      }
    }
  }

  /** autoCorrelate: the RMS gate, trimming, correlation, descent, argmax,
      the guarded parabolic correction and sampleRate / T0. */
  method AutoCorrelate(buf: seq<real>, sampleRate: real) returns (e: Estimate)
    requires sampleRate > 0.0
    ensures e == AutoCorrelation(buf, sampleRate)
  {
    var size := |buf|;
    var sum := SquaredSum(buf);
    if size > 0 && sum < 0.0001 * (size as real) {
      return Silent;
    }
    var r1 := TrimStart(buf);
    var r2 := TrimEnd(buf);
    var x := if r1 <= r2 then buf[r1..r2] else [];
    var c := Correlate(x);
    assert c == Correlation(x);
    var d := DescentIndex(c);
    var t := PeakIndex(c, d);
    var period := RefinedPeriod(c, t);
    if period == 0.0 {
      e := Infinite;
    } else {
      e := Hz(sampleRate / period);
    }
  }

  // ---- properties of the estimator ----

  /** The zero-lag correlation is the segment's sum of squares. */
  lemma {:induction false} LagZeroIsEnergy(x: seq<real>, k: nat)
    requires k <= |x|
    ensures LagSum(x, 0, k) == SumSquares(x[..k])
  {
    if k > 0 {
      LagZeroIsEnergy(x, k - 1);
      assert x[..k][..k - 1] == x[..k - 1];
    }
  }

  /** Hence c[0] is never negative. */
  lemma CorrelationAtZero(x: seq<real>)
    requires |x| > 0
    ensures Correlation(x)[0] == SumSquares(x) && Correlation(x)[0] >= 0.0
  {
    LagZeroIsEnergy(x, |x|);
    assert x[..|x|] == x;
  }

  /** An all-zero frame of at least one sample is rejected as silent. */
  lemma ZeroFrameIsSilent(buf: seq<real>, sampleRate: real)
    requires sampleRate > 0.0 && |buf| > 0
    requires forall i | 0 <= i < |buf| :: buf[i] == 0.0
    ensures AutoCorrelation(buf, sampleRate) == Silent
  {
  }

  /** For a frame of two or more samples the trimmed segment is buf[r1..r2)
      with r1 < r2 <= N - 1: it is never empty and never holds the last sample. */
  lemma TrimBounds(buf: seq<real>)
    requires |buf| >= 2
    ensures 0 <= LeadTrim(buf) < TailTrim(buf) <= |buf| - 1
    ensures Segment(buf) == buf[LeadTrim(buf)..TailTrim(buf)]
  {
  }

  /** A frame of at most one sample leaves nothing after trimming; if it is
      not silent, the argmax finds nothing and the source returns
      sampleRate / -1. */
  lemma ShortFrameGivesNegativeRate(buf: seq<real>, sampleRate: real)
    requires sampleRate > 0.0 && |buf| <= 1 && !IsSilent(buf)
    ensures Segment(buf) == []
    ensures AutoCorrelation(buf, sampleRate) == Hz(-sampleRate)
  {
    assert LeadTrim(buf) == 0 && TailTrim(buf) == |buf| - 1;
    assert Segment(buf) == [];
    assert Correlation([]) == [];
  }

  /** When the descent stops at lag 0 of a non-empty segment, c[0] >= 0 > -1
      so the argmax always finds a lag. */
  lemma PeakFoundFromLagZero(x: seq<real>)
    requires |x| > 0 && Descent(Correlation(x)) == 0
    ensures Peak(Correlation(x), 0) >= 0
  {
    CorrelationAtZero(x);
  }

  /** When the peak lies strictly after the descent point and has both
      neighbours, the refined period is within half a lag of T0, so it is
      positive and the estimate is a positive frequency. */
  lemma RefinedPeriodNearPeak(c: seq<real>, d: nat)
    requires d <= |c|
    requires d < Peak(c, d) < |c| - 1
    ensures var t0 := Peak(c, d);
            t0 as real - 0.5 <= Refine(c, t0) <= t0 as real + 0.5 && Refine(c, t0) > 0.0
  {
    var t0 := Peak(c, d);
    assert c[t0 - 1] <= c[t0] && c[t0 + 1] <= c[t0];
  }

  // ------------------------------------------------------------------
  // Note number to note name and cents
  // ------------------------------------------------------------------

  /** Math.round: the nearest integer, halves rounded up. */
  function Round(x: real): (r: int)
    ensures (r as real) - 0.5 <= x < (r as real) + 0.5
  {
    (x + 0.5).Floor
  }

  /** JavaScript's `a % 12` on integers: the remainder takes the sign of the
      dividend. */
  function JsRem12(a: int): (r: int)
    ensures a >= 0 ==> 0 <= r < 12 && r == a % 12
    ensures a < 0 ==> -12 < r <= 0 && (r == 0 <==> a % 12 == 0)
  {
    if a >= 0 then a % 12 else -((-a) % 12)
  }

  /** NOTE_STRINGS[Math.round(n) % 12] || "-": an index outside the table
      reads `undefined` and shows "-". */
  function NoteName(n: real): (name: string)
    ensures Round(n) >= 0 ==> name == NoteStrings[Round(n) % 12]
    ensures name == "-" <==> Round(n) < 0 && Round(n) % 12 != 0
    ensures name != "-" ==> name in NoteStrings
  {
    var k := JsRem12(Round(n));
    if 0 <= k < 12 then NoteStrings[k] else "-"
  }

  /** Math.floor((n - Math.round(n)) * 100). */
  function Cents(n: real): (c: int)
    ensures -50 <= c <= 49
  {
    ((n - Round(n) as real) * 100.0).Floor
  }

  /** One octave up changes neither the name nor the cents. */
  lemma OctaveInvariance(n: real)
    requires n >= -0.5
    ensures NoteName(n + 12.0) == NoteName(n) && Cents(n + 12.0) == Cents(n)
  {
    var k := Round(n);
    assert Round(n + 12.0) == k + 12;
    assert (k + 12) % 12 == k % 12;
  }

  /** A note number that rounds to A (index 9) names "A": concert A (n = 69)
      and its octaves. */
  lemma ConcertA(n: real, octave: nat)
    requires Round(n) == 9 + 12 * octave
    ensures NoteName(n) == "A"
  {
  }

  // ------------------------------------------------------------------
  // The tuner panel
  // ------------------------------------------------------------------

  /** A JavaScript number as the display holds it. */
  datatype JsNumber = Finite(v: int) | NaN | Infinity

  /** One reading computed from an estimate. */
  datatype Reading = Reading(pitch: JsNumber, note: string, detune: JsNumber)

  /** The panel's state. */
  datatype Display = Display(isListening: bool, pitch: JsNumber, note: string, detune: JsNumber, error: Option<string>)

  const MicrophoneError := "No se pudo acceder al micrófono. Por favor permite el acceso."

  /** The reading updatePitch shows for an estimate, None when the estimate is
      the -1 sentinel. n stands for 12*log2(f/440)+69 and matters only for a
      positive finite f; for f <= 0 the logarithm is NaN, and for Infinity
      the rounded note number is Infinity, whose remainder is NaN. */
  function ReadingOf(ac: Estimate, n: real): (r: Option<Reading>)
    ensures r == None <==> ac == Silent || ac == Hz(-1.0)
    ensures ac.Hz? && ac.f > 0.0 ==> r == Some(Reading(Finite(Round(ac.f)), NoteName(n), Finite(Cents(n))))
    ensures r.Some? && r.value.note != "-" ==> ac.Hz? && ac.f > 0.0 && r.value.note in NoteStrings
    ensures r.Some? ==> r.value.detune.NaN? || (r.value.detune.Finite? && -50 <= r.value.detune.v <= 49)
  {
    match ac
    case Silent => None
    case Hz(f) =>
      if f == -1.0 then None
      else if f > 0.0 then Some(Reading(Finite(Round(f)), NoteName(n), Finite(Cents(n))))
      else Some(Reading(Finite(Round(f)), "-", NaN))
    case Infinite => Some(Reading(Infinity, "-", NaN))
  }

  /** The display after one updatePitch tick: unchanged on the sentinel. */
  function Updated(s: Display, ac: Estimate, n: real): (t: Display)
    ensures t.isListening == s.isListening && t.error == s.error
    ensures ac == Silent || ac == Hz(-1.0) ==> t == s
    ensures ac.Hz? && ac.f > 0.0 ==> t.pitch == Finite(Round(ac.f)) && t.note == NoteName(n) && t.detune == Finite(Cents(n))
    ensures ac.Hz? && ac.f <= 0.0 && ac.f != -1.0 ==> t.pitch == Finite(Round(ac.f)) && t.note == "-" && t.detune == NaN
    ensures ac == Infinite ==> t.pitch == Infinity && t.note == "-" && t.detune == NaN
  {
    match ReadingOf(ac, n)
    case None => s
    case Some(r) => s.(pitch := r.pitch, note := r.note, detune := r.detune)
  }

  /** The display after stopTuner. */
  function Stopped(s: Display): (t: Display)
    ensures !t.isListening && t.pitch == Finite(0) && t.note == "-" && t.detune == Finite(0)
    ensures t.error == s.error
  {
    s.(isListening := false, pitch := Finite(0), note := "-", detune := Finite(0))
  }

  /** Stopping twice is stopping once. */
  lemma StopIdempotent(s: Display)
    ensures Stopped(Stopped(s)) == Stopped(s)
  {
  }

  /** Clamp to the needle's range [-45, 45]. */
  function Clamp45(x: real): (r: real)
    ensures -45.0 <= r <= 45.0
    ensures -45.0 <= x <= 45.0 ==> r == x
    ensures x < -45.0 ==> r == -45.0
    ensures x > 45.0 ==> r == 45.0
  {
    if 45.0 < x then 45.0 else if x < -45.0 then -45.0 else x
  }

  /** The needle rotation max(-45, min(45, detune * 0.9)) in degrees; NaN
      propagates through min and max, shown as None. */
  function Rotation(detune: JsNumber): (r: Option<real>)
    ensures r == None <==> detune == NaN
    ensures r.Some? ==> -45.0 <= r.value <= 45.0
    ensures detune.Finite? && -50 <= detune.v <= 50 ==> r == Some(detune.v as real * 0.9)
  {
    match detune
    case Finite(v) => Some(Clamp45(v as real * 0.9))
    case NaN => None
    case Infinity => Some(45.0)
  }

  /** |detune| < 5 and pitch > 0; a NaN detune is never in tune. */
  predicate IsInTune(detune: JsNumber, pitch: JsNumber)
    ensures IsInTune(detune, pitch) ==> detune.Finite? && -4 <= detune.v <= 4
  {
    && detune.Finite? && -5 < detune.v < 5
    && (pitch.Infinity? || (pitch.Finite? && pitch.v > 0))
  }

  /** A reading of a positive frequency is never clamped: the cents deviation
      lies in [-50, 49], so the needle turns by exactly 0.9 degrees per cent. */
  lemma NeedleNeverClampsOnReadings(f: real, n: real)
    requires f > 0.0
    ensures var r := ReadingOf(Hz(f), n);
            r.Some? && Rotation(r.value.detune) == Some(Cents(n) as real * 0.9)
  {
  }

  /** In tune means the needle is within 3.6 degrees of the centre. */
  lemma InTuneNeedleNearCentre(detune: JsNumber, pitch: JsNumber)
    requires IsInTune(detune, pitch)
    ensures Rotation(detune).Some? && -3.6 <= Rotation(detune).value <= 3.6
  {
  }

  /** The tuner component's state, with the microphone session and the
      animation-frame loop left to the caller. */
  class TunerPanel {
    var isListening: bool
    var pitch: JsNumber
    var note: string
    var detune: JsNumber
    var error: Option<string>

    function View(): Display
      reads this
    {
      Display(isListening, pitch, note, detune, error)
    }

    /** The initial state of the five useState hooks. */
    constructor ()
      ensures View() == Display(false, Finite(0), "-", Finite(0), None)
    {
      isListening := false;
      pitch := Finite(0);
      note := "-";
      detune := Finite(0);
      error := None;
    }

    /** startTuner with the outcome of the microphone request: on success the
        panel listens and the error clears; on failure it records the error. */
    method StartTuner(granted: bool)
      modifies this
      ensures granted ==> View() == old(View()).(isListening := true, error := None)
      ensures !granted ==> View() == old(View()).(error := Some(MicrophoneError))
    {
      if granted {
        isListening := true;
        error := None;
      } else {
        error := Some(MicrophoneError);
      }
    }

    /** One tick of updatePitch with the frame's estimate and note number. */
    method UpdatePitch(ac: Estimate, n: real)
      modifies this
      ensures View() == Updated(old(View()), ac, n)
    {
      if ac != Silent && ac != Hz(-1.0) {
        var r := ReadingOf(ac, n).value;
        pitch := r.pitch;
        note := r.note;
        detune := r.detune;
      }
    }

    /** stopTuner: stop listening and reset the reading. */
    method StopTuner()
      modifies this
      ensures View() == Stopped(old(View()))
    {
      isListening := false;
      pitch := Finite(0);
      note := "-";
      detune := Finite(0);
    }
  }
}
