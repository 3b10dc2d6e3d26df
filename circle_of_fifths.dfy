/** The circle of fifths: the table of the twelve major keys, the relative
    natural minor scale, the angles and radii of the two rings of slices,
    the hover and selection styling, and the grids of chords built on the
    degrees of the major scale and of its relative minor. */
module CircleOfFifths {
  import opened Types

  /** The twelve major keys, clockwise from the top, sharps first. */
  const Keys: seq<KeySignature> := [
    KeySignature("Do", "La m", "0", ["Do", "Re", "Mi", "Fa", "Sol", "La", "Si"], "#ef4444"),
    KeySignature("Sol", "Mi m", "1#", ["Sol", "La", "Si", "Do", "Re", "Mi", "Fa#"], "#f97316"),
    KeySignature("Re", "Si m", "2#", ["Re", "Mi", "Fa#", "Sol", "La", "Si", "Do#"], "#f59e0b"),
    KeySignature("La", "Fa# m", "3#", ["La", "Si", "Do#", "Re", "Mi", "Fa#", "Sol#"], "#eab308"),
    KeySignature("Mi", "Do# m", "4#", ["Mi", "Fa#", "Sol#", "La", "Si", "Do#", "Re#"], "#84cc16"),
    KeySignature("Si / Do b", "Sol# m / Lab m", "5# / 7b", ["Si", "Do#", "Re#", "Mi", "Fa#", "Sol#", "La#"], "#22c55e"),
    KeySignature("Fa# / Sol b", "Re# m / Mib m", "6# / 6b", ["Fa#", "Sol#", "La#", "Si", "Do#", "Re#", "Mi#"], "#06b6d4"),
    KeySignature("Do# / Re b", "La# m / Sib m", "7# / 5b", ["Do#", "Re#", "Mi#", "Fa#", "Sol#", "La#", "Si#"], "#3b82f6"),
    KeySignature("La b", "Fa m", "4b", ["Lab", "Sib", "Do", "Reb", "Mib", "Fa", "Sol"], "#6366f1"),
    KeySignature("Mi b", "Do m", "3b", ["Mib", "Fa", "Sol", "Lab", "Sib", "Do", "Re"], "#8b5cf6"),
    KeySignature("Si b", "Sol m", "2b", ["Sib", "Do", "Re", "Mib", "Fa", "Sol", "La"], "#d946ef"),
    KeySignature("Fa", "Re m", "1b", ["Fa", "Sol", "La", "Sib", "Do", "Re", "Mi"], "#ec4899")
  ]

  // ------------------------------------------------------------------
  // The relative minor
  // ------------------------------------------------------------------

  /** getMinorScale: the scale read from its sixth degree, notes.slice(5)
      followed by notes.slice(0, 5); a list shorter than five is returned as
      it is, as the two slices then give [] and the whole list. */
  function GetMinorScale(notes: seq<string>): (r: seq<string>)
    ensures |r| == |notes|
  {
    if |notes| >= 5 then notes[5..] + notes[..5] else notes
  }

  /** The minor scale has the same notes as the major one. */
  lemma MinorScalePermutes(notes: seq<string>)
    ensures multiset(GetMinorScale(notes)) == multiset(notes)
  {
    if |notes| >= 5 {
      assert notes == notes[..5] + notes[5..];
    }
  }

  /** Degree i of the minor scale is degree (i + 5) mod n of the major one. */
  lemma MinorScaleDegrees(notes: seq<string>, i: nat)
    requires |notes| >= 5 && i < |notes|
    ensures GetMinorScale(notes)[i] == notes[(i + 5) % |notes|]
  {
    var n := |notes|;
    if i < n - 5 {
      assert (i + 5) % n == i + 5;
    } else {
      assert i + 5 == n + (i + 5 - n);
      assert (i + 5) % n == i + 5 - n;
    }
  }

  /** Reading the minor scale from its third degree gives the major scale back. */
  lemma MinorScaleRoundTrip(notes: seq<string>)
    requires |notes| == 7
    ensures var m := GetMinorScale(notes); m[2..] + m[..2] == notes
  {
    var m := GetMinorScale(notes);
    assert m[2..] == notes[..5];
    assert m[..2] == notes[5..];
  }

  /** Starts(s, p): p is a prefix of s. */
  predicate Starts(s: string, p: string)
  {
    |p| <= |s| && s[..|p|] == p
  }

  /** A key of seven notes whose relative minor is named after the first note
      of its minor scale. */
  predicate MinorNamed(k: KeySignature)
  {
    |k.notes| == 7 && Starts(k.relativeMinor, GetMinorScale(k.notes)[0] + " m")
  }

  lemma NamedAfterSixth(k: KeySignature, rest: string)
    requires |k.notes| == 7 && k.relativeMinor == k.notes[5] + " m" + rest
    ensures MinorNamed(k)
  {
    assert GetMinorScale(k.notes)[0] == k.notes[5];
    assert k.relativeMinor == (k.notes[5] + " m") + rest;
  }

  /** The first six keys, up to Si / Do b. */
  lemma SharpKeysNamed()
    ensures forall i | 0 <= i < 6 :: MinorNamed(Keys[i])
  {
    NamedAfterSixth(Keys[0], "");
    NamedAfterSixth(Keys[1], "");
    NamedAfterSixth(Keys[2], "");
    NamedAfterSixth(Keys[3], "");
    NamedAfterSixth(Keys[4], "");
    NamedAfterSixth(Keys[5], " / Lab m");
  }

  /** The last six keys, from Fa# / Sol b. */
  lemma FlatKeysNamed()
    ensures forall i | 6 <= i < 12 :: MinorNamed(Keys[i])
  {
    NamedAfterSixth(Keys[6], " / Mib m");
    NamedAfterSixth(Keys[7], " / Sib m");
    NamedAfterSixth(Keys[8], "");
    NamedAfterSixth(Keys[9], "");
    NamedAfterSixth(Keys[10], "");
    NamedAfterSixth(Keys[11], "");
  }

  /** Twelve keys of seven notes, each relative minor named after the first
      note of the minor scale. */
  lemma KeyTable()
    ensures |Keys| == 12
    ensures forall i | 0 <= i < 12 :: MinorNamed(Keys[i])
  {
    SharpKeysNamed();
    FlatKeysNamed();
  }

  /** The twelve key names are pairwise distinct. */
  lemma KeyNamesDistinct()
    ensures forall i, j | 0 <= i < j < |Keys| :: Keys[i].key != Keys[j].key
  {
    forall i, j | 0 <= i < j < |Keys|
      ensures Keys[i].key != Keys[j].key
    {
      assert Keys[i].key[0] != Keys[j].key[0] || Keys[i].key[1] != Keys[j].key[1] || |Keys[i].key| != |Keys[j].key|;
    }
  }

  /** Going clockwise each key's tonic is the fifth degree of the one before,
      except across the enharmonic seam between Do# and La b. */
  lemma FifthsChain(i: nat)
    requires i < 12 && i != 7
    ensures Keys[(i + 1) % 12].notes[0] == Keys[i].notes[4]
  {
  }

  // ------------------------------------------------------------------
  // Slice geometry
  // ------------------------------------------------------------------

  const TotalSlices := 12
  const OuterRadius := 280
  const MidRadius := 185
  const InnerRadius := 105
  /** The white disc drawn over the centre. */
  const CentreDiscRadius := InnerRadius - 2

  /** Where slice index starts, in degrees: shifted a quarter turn back and a
      half slice more, so slice 0 is centred at the top. */
  function StartAngle(index: int): (a: real)
    ensures a == 30.0 * index as real - 105.0
  {
    (index as real * 360.0) / TotalSlices as real - 90.0 - 15.0
  }

  function EndAngle(index: int): real
  {
    StartAngle(index) + 30.0
  }

  /** The angle where the label sits. */
  function MidAngle(index: int): real
  {
    StartAngle(index) + 15.0
  }

  /** Neighbouring slices meet, the twelve span exactly one turn, each label
      sits inside its slice, and the first label points straight up. */
  lemma SlicesTile(i: nat)
    requires i < 12
    ensures i < 11 ==> EndAngle(i) == StartAngle(i + 1)
    ensures EndAngle(11) - StartAngle(0) == 360.0
    ensures StartAngle(i) < MidAngle(i) < EndAngle(i)
    ensures MidAngle(0) == -90.0
  {
  }

  /** The label radius, halfway across the ring. */
  function TextRadius(rOut: int, rIn: int): real
  {
    (rOut + rIn) as real / 2.0
  }

  /** Labels sit strictly inside their ring; the major ring (280 to 185)
      and the minor ring (185 to 105) share the 185 boundary, and the white
      disc at the centre (radius 103) lies inside the minor ring. */
  lemma RingLayout(rOut: int, rIn: int)
    requires rIn < rOut
    ensures rIn as real < TextRadius(rOut, rIn) < rOut as real
    ensures TextRadius(OuterRadius, MidRadius) == 232.5 && TextRadius(MidRadius, InnerRadius) == 145.0
    ensures InnerRadius < MidRadius < OuterRadius && 0 < CentreDiscRadius < InnerRadius
  {
  }

  // ------------------------------------------------------------------
  // Selection and hover
  // ------------------------------------------------------------------

  /** The component's two pieces of state. */
  datatype View = View(selectedKey: KeySignature, hoveredIndex: Option<int>)

  const InitialView := View(Keys[0], None)

  /** Slice index is drawn as selected when its key's name is the selected one. */
  predicate IsSelected(v: View, index: nat)
    requires index < |Keys|
  {
    v.selectedKey.key == Keys[index].key
  }

  predicate IsHovered(v: View, index: nat)
  {
    v.hoveredIndex == Some(index)
  }

  /** A click on either slice of index i selects key i. */
  function Click(v: View, index: nat): (w: View)
    requires index < |Keys|
    ensures w.selectedKey == Keys[index] && w.hoveredIndex == v.hoveredIndex
  {
    v.(selectedKey := Keys[index])
  }

  function MouseEnter(v: View, index: nat): (w: View)
    ensures IsHovered(w, index) && w.selectedKey == v.selectedKey
  {
    v.(hoveredIndex := Some(index))
  }

  function MouseLeave(v: View): (w: View)
    ensures forall i: nat :: !IsHovered(w, i)
    ensures w.selectedKey == v.selectedKey
  {
    v.(hoveredIndex := None)
  }

  /** After a click on slice i exactly slice i is drawn selected, in both rings. */
  lemma ClickSelectsOne(v: View, index: nat, j: nat)
    requires index < |Keys| && j < |Keys|
    ensures IsSelected(Click(v, index), j) <==> j == index
  {
    KeyNamesDistinct();
  }

  /** The initial view selects Do, the top slice, alone. */
  lemma InitiallyDo(j: nat)
    requires j < |Keys|
    ensures IsSelected(InitialView, j) <==> j == 0
  {
    KeyNamesDistinct();
  }

  /** The slice's scale: enlarged when selected or hovered. */
  function Scale(isSelected: bool, isHovered: bool): real
  {
    if isSelected then 1.05 else if isHovered then 1.05 else 1.0
  }

  /** The slice's opacity: full when selected, 0.9 under the mouse, 0.85
      otherwise. */
  function Opacity(isSelected: bool, isHovered: bool): real
  {
    if isSelected then 1.0 else if isHovered then 0.9 else 0.85
  }

  /** A slice is enlarged exactly when it is selected or hovered; selection
      is the most opaque state and a plain slice the least, and hovering a
      selected slice changes nothing. */
  lemma Emphasis(isSelected: bool, isHovered: bool)
    ensures Scale(isSelected, isHovered) > 1.0 <==> isSelected || isHovered
    ensures Opacity(isSelected, isHovered) <= Opacity(true, isHovered)
    ensures Opacity(false, false) <= Opacity(isSelected, isHovered)
    ensures isSelected ==> Scale(true, isHovered) == Scale(true, false) && Opacity(true, isHovered) == Opacity(true, false)
  {
  }

  // ------------------------------------------------------------------
  // Degree chords
  // ------------------------------------------------------------------

  datatype Quality = Major | Minor | Diminished

  /** One cell of a chord grid: the Roman numeral, the root and the quality. */
  datatype DegreeChord = DegreeChord(numeral: string, root: string, quality: Quality)

  /** The text shown for a chord: the root, with "m" for minor and a degree
      sign for diminished. */
  function ChordLabel(c: DegreeChord): string
  {
    match c.quality
    case Major => c.root
    case Minor => c.root + "m"
    case Diminished => c.root + "°"
  }

  /** The grid of the major scale: I, ii, iii, IV, V, vi, vii°. */
  function MajorGrid(notes: seq<string>): seq<DegreeChord>
    requires |notes| >= 7
  {
    [ DegreeChord("I", notes[0], Major), DegreeChord("ii", notes[1], Minor),
      DegreeChord("iii", notes[2], Minor), DegreeChord("IV", notes[3], Major),
      DegreeChord("V", notes[4], Major), DegreeChord("vi", notes[5], Minor),
      DegreeChord("vii°", notes[6], Diminished) ]
  }

  /** The grid of the relative minor, on the rotated scale: i, ii°, III, iv,
      v, VI, VII. */
  function MinorGrid(notes: seq<string>): seq<DegreeChord>
    requires |notes| >= 7
  {
    var m := GetMinorScale(notes);
    [ DegreeChord("i", m[0], Minor), DegreeChord("ii°", m[1], Diminished),
      DegreeChord("III", m[2], Major), DegreeChord("iv", m[3], Minor),
      DegreeChord("v", m[4], Minor), DegreeChord("VI", m[5], Major),
      DegreeChord("VII", m[6], Major) ]
  }

  /** A numeral in capitals marks a major chord and one with a degree sign a
      diminished chord. */
  predicate NumeralFits(c: DegreeChord)
  {
    |c.numeral| > 0
    && (c.quality == Major <==> c.numeral[0] in {'I', 'V'})
    && (c.quality == Diminished <==> c.numeral[|c.numeral| - 1] == '°')
  }

  /** The relative minor uses the same seven chords as its major key: degree
      i of the minor grid is degree (i + 5) mod 7 of the major grid, with the
      same root, quality and label. */
  lemma GridsShareChords(notes: seq<string>, i: nat)
    requires |notes| == 7 && i < 7
    ensures var mi, ma := MinorGrid(notes)[i], MajorGrid(notes)[(i + 5) % 7];
      mi.root == ma.root && mi.quality == ma.quality && ChordLabel(mi) == ChordLabel(ma)
  {
    MinorScaleDegrees(notes, i);
  }

  /** In both grids every numeral fits its quality. */
  lemma NumeralsFit(notes: seq<string>, i: nat)
    requires |notes| >= 7 && i < 7
    ensures NumeralFits(MajorGrid(notes)[i]) && NumeralFits(MinorGrid(notes)[i])
  {
  }

  /** The qualities down the major grid follow the major-scale pattern
      major, minor, minor, major, major, minor, diminished. */
  lemma MajorPattern(notes: seq<string>)
    requires |notes| >= 7
    ensures forall i | 0 <= i < 7 :: MajorGrid(notes)[i].root == notes[i]
    ensures forall i | 0 <= i < 7 :: MajorGrid(notes)[i].quality == [Major, Minor, Minor, Major, Major, Minor, Diminished][i]
  {
  }
}
