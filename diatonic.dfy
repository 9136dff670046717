/** What `buildChords` makes of a scale that `buildScale` spelled
    (script.js:35-116 together): the intervals inside a spelled scale are the
    mode pattern's own, so the labels depend on the mode and the degree and
    never on the key, and every mode labels its degrees as the major scale
    labels the degrees it starts from. */
module Diatonic {
  import opened Tables
  import opened Scale
  import opened Chords

  /** The semitones from pattern offset i up to the offset `step` degrees
      further on, cyclically. */
  function PatternInterval(p: seq<nat>, i: nat, step: nat): (semitones: int)
    requires i < |p|
    ensures 0 <= semitones < 12
  {
    (p[(i + step) % |p|] as int - p[i] + 12) % 12
  }

  /** Two pitch classes an offset apart in the pattern stay that far apart mod 12. */
  lemma {:induction false} ShiftedDifference(t: int, a: int, b: int)
    ensures (((t + b) % 12) - ((t + a) % 12) + 12) % 12 == (b - a + 12) % 12
  {
    var qa, qb := (t + a) / 12, (t + b) / 12;
    assert (t + a) % 12 == t + a - 12 * qa;
    assert (t + b) % 12 == t + b - 12 * qb;
    var d := b - a + 12;
    assert ((t + b) % 12) - ((t + a) % 12) + 12 == d - 12 * (qb - qa);
    ModShift(d, qb - qa);
  }

  /** Offsets measured from c keep their distances mod 12. */
  lemma {:induction false} MeasuredFrom(c: int, a: int, b: int, x: int, y: int)
    requires x == (a - c + 12) % 12 && y == (b - c + 12) % 12
    ensures (y - x + 12) % 12 == (b - a + 12) % 12
  {
    ShiftedDifference(12 - c, a, b);
  }

  /** Adding a multiple of 12 does not change a residue mod 12. */
  lemma {:induction false} ModShift(d: int, m: int)
    ensures (d - 12 * m) % 12 == d % 12
  {
    var r := d % 12;
    assert d == 12 * (d / 12) + r;
    assert d - 12 * m == 12 * (d / 12 - m) + r;
  }

  /** In any spelling of a pattern, the interval the chord builder measures
      between two scale notes is the interval between their pattern offsets:
      the tonic drops out. */
  lemma {:induction false} SpelledIntervals(notes: seq<NoteName>, tonic: PitchClass, p: seq<nat>, i: nat, step: nat)
    requires SpellsPattern(notes, tonic, p) && i < |notes|
    ensures KnownNotes(notes)
    ensures Interval(notes[i], Tone(notes, i, step)) == PatternInterval(p, i, step)
  {
    var j := (i + step) % |notes|;
    var a, b := p[i], p[j];
    assert NoteToIndex[notes[i]] == (tonic + a) % 12;
    assert NoteToIndex[notes[j]] == (tonic + b) % 12;
    ShiftedDifference(tonic, a, b);
  }

  /** Reducing a summand mod 7 first does not change the sum mod 7. */
  lemma {:induction false} ModSevenSum(x: int, y: int)
    ensures ((x % 7) + y) % 7 == (x + y) % 7
  {
    var z := x + y;
    assert (x % 7) + y == z - 7 * (x / 7);
    var r := z % 7;
    assert z == 7 * (z / 7) + r;
    assert z - 7 * (x / 7) == 7 * (z / 7 - x / 7) + r;
  }

  /** If p is q read from offset d and measured from q[d], the intervals of
      p from degree i are those of q from degree i + d. */
  lemma {:induction false} RotationInterval(p: seq<nat>, q: seq<nat>, d: nat, i: nat, step: nat)
    requires |p| == 7 && |q| == 7 && d < 7 && i < 7
    requires p[i] == (q[(i + d) % 7] as int - q[d] + 12) % 12
    requires p[(i + step) % 7] == (q[((i + step) % 7 + d) % 7] as int - q[d] + 12) % 12
    ensures PatternInterval(p, i, step) == PatternInterval(q, (i + d) % 7, step)
  {
    var j := (i + step) % 7;
    ModSevenSum(i + d, step);
    ModSevenSum(i + step, d);
    assert ((i + d) % 7 + step) % 7 == (j + d) % 7;
    MeasuredFrom(q[d], q[(i + d) % 7], q[(j + d) % 7], p[i], p[j]);
  }

  /** Reading the intervals of a mode from degree i is reading the Ionian
      intervals from the degree the mode starts on, moved up by i. */
  lemma {:induction false} RotatedIntervals(mode: Mode, i: nat, step: nat)
    requires i < 7
    ensures |ScalePattern(mode)| == 7 && |ScalePattern(Ionian)| == 7
    ensures PatternInterval(ScalePattern(mode), i, step) ==
      PatternInterval(ScalePattern(Ionian), (i + ModeDegree(mode)) % 7, step)
  {
    ModesAreRotations(mode, i);
    ModesAreRotations(mode, (i + step) % 7);
    RotationInterval(ScalePattern(mode), ScalePattern(Ionian), ModeDegree(mode), i, step);
  }

  /** The triad qualities of the major scale's degrees, I to vii. */
  const MajorScaleQualities: seq<Quality> := [Major, Minor, Minor, Major, Major, Minor, Diminished]

  /** The seventh above each degree of the major scale, in semitones. */
  const MajorScaleSevenths: seq<int> := [11, 10, 10, 11, 10, 10, 10]

  /** The Ionian pattern's thirds, fifths and sevenths give those qualities
      and sevenths. */
  lemma IonianDegrees(k: nat)
    requires k < 7
    ensures TriadQuality(PatternInterval(ScalePattern(Ionian), k, 2), PatternInterval(ScalePattern(Ionian), k, 4))
      == MajorScaleQualities[k]
    ensures PatternInterval(ScalePattern(Ionian), k, 6) == MajorScaleSevenths[k]
  {
    var p := ScalePattern(Ionian);
    assert p == [0, 2, 4, 5, 7, 9, 11];
    if k == 0 {
    } else if k == 1 {
    } else if k == 2 {
    } else if k == 3 {
    } else if k == 4 {
    } else if k == 5 {
    } else {
    }
  }

  /** Degree i of any key's scale in any mode has the triad quality and the
      seventh of degree i + ModeDegree(mode) of the major scale. */
  lemma {:induction false} DiatonicQualities(key: NoteName, mode: Mode, i: nat)
    requires key in NoteToIndex && i < 7
    ensures |BuildScale(key, mode)| == 7 && KnownNotes(BuildScale(key, mode))
    ensures DegreeQuality(BuildScale(key, mode), i) == MajorScaleQualities[(i + ModeDegree(mode)) % 7]
    ensures SeventhInterval(BuildScale(key, mode), i) == MajorScaleSevenths[(i + ModeDegree(mode)) % 7]
  {
    var scale := BuildScale(key, mode);
    var tonic := NoteToIndex[key];
    var p := ScalePattern(mode);
    PatternsWellFormed(mode);
    SpelledIntervals(scale, tonic, p, i, 2);
    SpelledIntervals(scale, tonic, p, i, 4);
    SpelledIntervals(scale, tonic, p, i, 6);
    RotatedIntervals(mode, i, 2);
    RotatedIntervals(mode, i, 4);
    RotatedIntervals(mode, i, 6);
    IonianDegrees((i + ModeDegree(mode)) % 7);
  }

  /** The labels of degree i depend on the mode alone: every key gives the
      same triad, seventh and ninth suffixes. */
  lemma {:induction false} LabelsIgnoreKey(key1: NoteName, key2: NoteName, mode: Mode, i: nat)
    requires key1 in NoteToIndex && key2 in NoteToIndex && i < 7
    ensures |BuildScale(key1, mode)| == 7 && KnownNotes(BuildScale(key1, mode))
    ensures |BuildScale(key2, mode)| == 7 && KnownNotes(BuildScale(key2, mode))
    ensures TriadAt(BuildScale(key1, mode), i).suffix == TriadAt(BuildScale(key2, mode), i).suffix
    ensures SeventhAt(BuildScale(key1, mode), i).suffix == SeventhAt(BuildScale(key2, mode), i).suffix
    ensures NinthAt(BuildScale(key1, mode), i).suffix == NinthAt(BuildScale(key2, mode), i).suffix
  {
    DiatonicQualities(key1, mode, i);
    DiatonicQualities(key2, mode, i);
  }

  /** The labels the program gives the major scale's triads, I to vii. */
  const MajorTriadLabels: seq<string> := ["", "m", "m", "", "", "m", "dim"]

  /** The labels it gives the major scale's seventh chords; the one on vii,
      a half-diminished seventh, comes out as "dim7". */
  const MajorSeventhLabels: seq<string> := ["maj7", "m7", "m7", "maj7", "7", "m7", "dim7"]

  /** The labels it gives the major scale's ninth chords. */
  const MajorNinthLabels: seq<string> := ["maj9", "m9", "m9", "maj9", "9", "m9", "dim9"]

  /** The major scale's qualities and sevenths get those labels. */
  lemma MajorDegreeLabels(k: nat)
    requires k < 7
    ensures TriadSuffix(MajorScaleQualities[k]) == MajorTriadLabels[k]
    ensures SeventhSuffix(MajorScaleQualities[k], MajorScaleSevenths[k]) == MajorSeventhLabels[k]
    ensures NinthSuffix(MajorScaleQualities[k], MajorScaleSevenths[k]) == MajorNinthLabels[k]
    ensures MajorScaleQualities[k] != Unknown
    ensures MajorTriadLabels[k] in {"", "m", "dim"}
    ensures MajorSeventhLabels[k] in {"maj7", "7", "m7", "dim7"}
    ensures MajorNinthLabels[k] in {"maj9", "9", "m9", "dim9"}
    ensures MajorScaleQualities[k] == Diminished ==>
      MajorScaleSevenths[k] == 10 && MajorSeventhLabels[k] == "dim7" && MajorNinthLabels[k] == "dim9"
  {
  }

  /** In every key, degree i of a mode is labelled as degree i + ModeDegree(mode)
      of the major scale: a major key reads C, Dm, Em, F, G, Am, Bdim, and
      its Dorian reads Dm, Em, F, G, Am, Bdim, C. */
  lemma {:induction false} ModeLabels(key: NoteName, mode: Mode, i: nat)
    requires key in NoteToIndex && i < 7
    ensures |BuildScale(key, mode)| == 7 && KnownNotes(BuildScale(key, mode))
    ensures TriadAt(BuildScale(key, mode), i).suffix == MajorTriadLabels[(i + ModeDegree(mode)) % 7]
    ensures SeventhAt(BuildScale(key, mode), i).suffix == MajorSeventhLabels[(i + ModeDegree(mode)) % 7]
    ensures NinthAt(BuildScale(key, mode), i).suffix == MajorNinthLabels[(i + ModeDegree(mode)) % 7]
  {
    DiatonicQualities(key, mode, i);
    MajorDegreeLabels((i + ModeDegree(mode)) % 7);
  }

  /** On a scale of the program, every triad is recognised; a major triad
      gets "maj7" or "7", a minor one "m7", and a diminished one, whose
      seventh lies 10 semitones up, gets "dim7" and "dim9" (the "m7b5"
      label needs a seventh 9 semitones up, which no mode has). */
  lemma {:induction false} DiatonicLabels(key: NoteName, mode: Mode, i: nat)
    requires key in NoteToIndex && i < 7
    ensures |BuildScale(key, mode)| == 7 && KnownNotes(BuildScale(key, mode))
    ensures DegreeQuality(BuildScale(key, mode), i) != Unknown
    ensures TriadAt(BuildScale(key, mode), i).suffix in {"", "m", "dim"}
    ensures SeventhAt(BuildScale(key, mode), i).suffix in {"maj7", "7", "m7", "dim7"}
    ensures NinthAt(BuildScale(key, mode), i).suffix in {"maj9", "9", "m9", "dim9"}
    ensures DegreeQuality(BuildScale(key, mode), i) == Diminished ==>
      SeventhInterval(BuildScale(key, mode), i) == 10 &&
      SeventhAt(BuildScale(key, mode), i).suffix == "dim7" && NinthAt(BuildScale(key, mode), i).suffix == "dim9"
  {
    DiatonicQualities(key, mode, i);
    ModeLabels(key, mode, i);
    MajorDegreeLabels((i + ModeDegree(mode)) % 7);
  }

  /** The chords of C major on I, ii and vii: C E G, D F A C E, B D F A,
      with the sus2 C D G and the sus4 C F G. */
  lemma CMajorChordTones()
    ensures |BuildScale(C, Ionian)| == 7 && KnownNotes(BuildScale(C, Ionian))
    ensures TriadAt(BuildScale(C, Ionian), 0).notes == [C, E, G]
    ensures SeventhAt(BuildScale(C, Ionian), 6).notes == [B, D, F, A]
    ensures NinthAt(BuildScale(C, Ionian), 1).notes == [D, F, A, C, E]
    ensures Sus2At(BuildScale(C, Ionian), 0) == Chord(C, "sus2", [C, D, G])
    ensures Sus4At(BuildScale(C, Ionian), 0) == Chord(C, "sus4", [C, F, G])
  {
    CMajorScale();
  }
}
