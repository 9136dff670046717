/** The chord builder of script.js:56-116. For every degree of a scale it
    stacks scale tones (cyclically, modulo the scale's length), measures the
    third, fifth and seventh above the root in semitones, labels the triad,
    seventh and ninth from a fixed table, and emits one triad, one seventh,
    one ninth and two suspended chords. The program formats each chord as an
    HTML line; here a chord is its root, its suffix and its notes. */
module Chords {
  import opened Tables

  /** One output line: `<b>${root}${suffix}</b>` followed by the notes. */
  datatype Chord = Chord(root: NoteName, suffix: string, notes: seq<NoteName>)

  /** Every note of the scale is one `noteToIndex` knows. */
  predicate KnownNotes(scale: seq<NoteName>)
  {
    forall k :: 0 <= k < |scale| ==> scale[k] in NoteToIndex
  }

  /** The semitones from the root up to x, reduced mod 12 (script.js:72-75):
      the one shift in [0, 11] that takes the root's pitch class to x's. */
  function Interval(root: NoteName, x: NoteName): (semitones: int)
    requires root in NoteToIndex && x in NoteToIndex
    ensures 0 <= semitones < 12
    ensures (NoteToIndex[root] + semitones) % 12 == NoteToIndex[x]
  {
    var rootIdx: int, xIdx: int := NoteToIndex[root], NoteToIndex[x];
    (xIdx - rootIdx + 12) % 12
  }

  /** The triad qualities the program tells apart; anything else is Unknown. */
  datatype Quality = Major | Minor | Diminished | Unknown

  /** The branch of script.js:80-96 taken for a third and a fifth above the root. */
  function TriadQuality(thirdInt: int, fifthInt: int): Quality
  {
    if thirdInt == 4 && fifthInt == 7 then Major
    else if thirdInt == 3 && fifthInt == 7 then Minor
    else if thirdInt == 3 && fifthInt == 6 then Diminished
    else Unknown
  }

  /** `triadQ` */
  function TriadSuffix(q: Quality): string
  {
    match q
    case Major => ""
    case Minor => "m"
    case Diminished => "dim"
    case Unknown => "?"
  }

  /** `seventhQ` */
  function SeventhSuffix(q: Quality, seventhInt: int): string
  {
    match q
    case Major => if seventhInt == 11 then "maj7" else "7"
    case Minor => if seventhInt == 10 then "m7" else "m(maj7)"
    case Diminished => if seventhInt == 9 then "m7b5" else "dim7"
    case Unknown => "?7"
  }

  /** `ninthQ` */
  function NinthSuffix(q: Quality, seventhInt: int): string
  {
    match q
    case Major => if seventhInt == 11 then "maj9" else "9"
    case Minor => if seventhInt == 10 then "m9" else "m(maj9)"
    case Diminished => if seventhInt == 9 then "m9b5" else "dim9"
    case Unknown => "?9"
  }

  /** The scale tone `step` degrees above degree i, wrapping round the end of
      the scale (script.js:65-70). */
  function Tone(scale: seq<NoteName>, i: nat, step: nat): NoteName
    requires i < |scale|
  {
    scale[(i + step) % |scale|]
  }

  /** The quality of the triad on degree i. */
  function DegreeQuality(scale: seq<NoteName>, i: nat): Quality
    requires i < |scale| && KnownNotes(scale)
  {
    TriadQuality(Interval(scale[i], Tone(scale, i, 2)), Interval(scale[i], Tone(scale, i, 4)))
  }

  /** The seventh above the root of degree i, in semitones. */
  function SeventhInterval(scale: seq<NoteName>, i: nat): int
    requires i < |scale| && KnownNotes(scale)
  {
    Interval(scale[i], Tone(scale, i, 6))
  }

  /** The triad on degree i: root, third and fifth. */
  function TriadAt(scale: seq<NoteName>, i: nat): Chord
    requires i < |scale| && KnownNotes(scale)
  {
    Chord(scale[i], TriadSuffix(DegreeQuality(scale, i)), [scale[i], Tone(scale, i, 2), Tone(scale, i, 4)])
  }

  /** The seventh chord on degree i: the triad and the seventh. */
  function SeventhAt(scale: seq<NoteName>, i: nat): Chord
    requires i < |scale| && KnownNotes(scale)
  {
    Chord(scale[i], SeventhSuffix(DegreeQuality(scale, i), SeventhInterval(scale, i)), [scale[i], Tone(scale, i, 2), Tone(scale, i, 4), Tone(scale, i, 6)])
  }

  /** The ninth chord on degree i: the seventh chord and the second. */
  function NinthAt(scale: seq<NoteName>, i: nat): Chord
    requires i < |scale| && KnownNotes(scale)
  {
    Chord(scale[i], NinthSuffix(DegreeQuality(scale, i), SeventhInterval(scale, i)), [scale[i], Tone(scale, i, 2), Tone(scale, i, 4), Tone(scale, i, 6), Tone(scale, i, 1)])
  }

  /** The sus2 chord on degree i: root, second and fifth. */
  function Sus2At(scale: seq<NoteName>, i: nat): Chord
    requires i < |scale|
  {
    Chord(scale[i], "sus2", [scale[i], Tone(scale, i, 1), Tone(scale, i, 4)])
  }

  /** The sus4 chord on degree i: root, fourth and fifth. */
  function Sus4At(scale: seq<NoteName>, i: nat): Chord
    requires i < |scale|
  {
    Chord(scale[i], "sus4", [scale[i], Tone(scale, i, 3), Tone(scale, i, 4)])
  }

  /** The triads of degrees 0 .. n-1, in order. */
  function TriadsUpTo(scale: seq<NoteName>, n: nat): seq<Chord>
    requires n <= |scale| && KnownNotes(scale)
  {
    if n == 0 then [] else TriadsUpTo(scale, n - 1) + [TriadAt(scale, n - 1)]
  }

  /** The seventh chords of degrees 0 .. n-1, in order. */
  function SeventhsUpTo(scale: seq<NoteName>, n: nat): seq<Chord>
    requires n <= |scale| && KnownNotes(scale)
  {
    if n == 0 then [] else SeventhsUpTo(scale, n - 1) + [SeventhAt(scale, n - 1)]
  }

  /** The ninth chords of degrees 0 .. n-1, in order. */
  function NinthsUpTo(scale: seq<NoteName>, n: nat): seq<Chord>
    requires n <= |scale| && KnownNotes(scale)
  {
    if n == 0 then [] else NinthsUpTo(scale, n - 1) + [NinthAt(scale, n - 1)]
  }

  /** The suspended chords of degrees 0 .. n-1: each degree's sus2, then its sus4. */
  function SuspendedUpTo(scale: seq<NoteName>, n: nat): seq<Chord>
    requires n <= |scale|
  {
    if n == 0 then [] else SuspendedUpTo(scale, n - 1) + [Sus2At(scale, n - 1), Sus4At(scale, n - 1)]
  }

  /** Entry k of the first n triads, sevenths and ninths is degree k's chord. */
  lemma {:induction false} UpToAt(scale: seq<NoteName>, n: nat, k: nat)
    requires n <= |scale| && KnownNotes(scale) && k < n
    ensures |TriadsUpTo(scale, n)| == n && TriadsUpTo(scale, n)[k] == TriadAt(scale, k)
    ensures |SeventhsUpTo(scale, n)| == n && SeventhsUpTo(scale, n)[k] == SeventhAt(scale, k)
    ensures |NinthsUpTo(scale, n)| == n && NinthsUpTo(scale, n)[k] == NinthAt(scale, k)
  {
    if k < n - 1 {
      UpToAt(scale, n - 1, k);
    } else if n > 1 {
      UpToAt(scale, n - 1, 0);
    }
  }

  /** Entries 2k and 2k+1 of the first n degrees' suspended chords are degree k's sus2 and sus4. */
  lemma {:induction false} SuspendedUpToAt(scale: seq<NoteName>, n: nat, k: nat)
    requires n <= |scale| && k < n
    ensures |SuspendedUpTo(scale, n)| == 2 * n
    ensures SuspendedUpTo(scale, n)[2 * k] == Sus2At(scale, k)
    ensures SuspendedUpTo(scale, n)[2 * k + 1] == Sus4At(scale, k)
  {
    if k < n - 1 {
      SuspendedUpToAt(scale, n - 1, k);
    } else if n > 1 {
      SuspendedUpToAt(scale, n - 1, 0);
    }
  }

  /** All |scale| triads, sevenths, ninths and suspended pairs, degree by degree. */
  lemma EveryDegree(scale: seq<NoteName>)
    requires KnownNotes(scale)
    ensures |TriadsUpTo(scale, |scale|)| == |scale| && |SeventhsUpTo(scale, |scale|)| == |scale|
    ensures |NinthsUpTo(scale, |scale|)| == |scale| && |SuspendedUpTo(scale, |scale|)| == 2 * |scale|
    ensures forall i :: 0 <= i < |scale| ==>
      TriadsUpTo(scale, |scale|)[i] == TriadAt(scale, i) && SeventhsUpTo(scale, |scale|)[i] == SeventhAt(scale, i) &&
      NinthsUpTo(scale, |scale|)[i] == NinthAt(scale, i)
    ensures forall i :: 0 <= i < |scale| ==>
      SuspendedUpTo(scale, |scale|)[2 * i] == Sus2At(scale, i) && SuspendedUpTo(scale, |scale|)[2 * i + 1] == Sus4At(scale, i)
  {
    if |scale| > 0 {
      UpToAt(scale, |scale|, 0);
      SuspendedUpToAt(scale, |scale|, 0);
    }
    forall i | 0 <= i < |scale|
      ensures TriadsUpTo(scale, |scale|)[i] == TriadAt(scale, i) && SeventhsUpTo(scale, |scale|)[i] == SeventhAt(scale, i)
      ensures NinthsUpTo(scale, |scale|)[i] == NinthAt(scale, i)
      ensures SuspendedUpTo(scale, |scale|)[2 * i] == Sus2At(scale, i) && SuspendedUpTo(scale, |scale|)[2 * i + 1] == Sus4At(scale, i)
    {
      UpToAt(scale, |scale|, i);
      SuspendedUpToAt(scale, |scale|, i);
    }
  }

  /** The if/else chain of script.js:80-96: the triad, seventh and ninth
      suffixes for a third, fifth and seventh above the root. */
  method QualityLabels(thirdInt: int, fifthInt: int, seventhInt: int) returns (triadQ: string, seventhQ: string, ninthQ: string)
    ensures triadQ == TriadSuffix(TriadQuality(thirdInt, fifthInt))
    ensures seventhQ == SeventhSuffix(TriadQuality(thirdInt, fifthInt), seventhInt)
    ensures ninthQ == NinthSuffix(TriadQuality(thirdInt, fifthInt), seventhInt)
  {
      if thirdInt == 4 && fifthInt == 7 {
        triadQ := "";
        seventhQ := if seventhInt == 11 then "maj7" else "7";
        ninthQ := if seventhInt == 11 then "maj9" else "9";
      } else if thirdInt == 3 && fifthInt == 7 {
        triadQ := "m";
        seventhQ := if seventhInt == 10 then "m7" else "m(maj7)";
        ninthQ := if seventhInt == 10 then "m9" else "m(maj9)";
      } else if thirdInt == 3 && fifthInt == 6 {
        triadQ := "dim";
        seventhQ := if seventhInt == 9 then "m7b5" else "dim7";
        ninthQ := if seventhInt == 9 then "m9b5" else "dim9";
      } else {
        triadQ := "?";
        seventhQ := "?7";
        ninthQ := "?9";
      }
  }

  /** One pass of the loop of `buildChords` (script.js:63-112): look up the
      degree's tones, measure the intervals, label and stack the chords. */
  method DegreeChords(scale: seq<NoteName>, i: nat)
    returns (triad: Chord, seventhChord: Chord, ninthChord: Chord, sus2: Chord, sus4: Chord)
    requires i < |scale| && KnownNotes(scale)
    ensures triad == TriadAt(scale, i) && seventhChord == SeventhAt(scale, i) && ninthChord == NinthAt(scale, i)
    ensures sus2 == Sus2At(scale, i) && sus4 == Sus4At(scale, i)
  {
    var len := |scale|;
    var root := scale[i];
    var second := scale[(i + 1) % len];
    var third := scale[(i + 2) % len];
    var fourth := scale[(i + 3) % len];
    var fifth := scale[(i + 4) % len];
    var seventh := scale[(i + 6) % len];

    var thirdInt := Interval(root, third);
    var fifthInt := Interval(root, fifth);
    var seventhInt := Interval(root, seventh);

    var triadQ, seventhQ, ninthQ := QualityLabels(thirdInt, fifthInt, seventhInt);
    triad := Chord(root, triadQ, [root, third, fifth]);
    seventhChord := Chord(root, seventhQ, [root, third, fifth, seventh]);
    ninthChord := Chord(root, ninthQ, [root, third, fifth, seventh, second]);
    sus2 := Chord(root, "sus2", [root, second, fifth]);
    sus4 := Chord(root, "sus4", [root, fourth, fifth]);
  }

  /** `buildChords(scaleNotes)`: one triad, seventh and ninth per degree, and
      for each degree its sus2 followed by its sus4. */
  method BuildChords(scale: seq<NoteName>)
    returns (triads: seq<Chord>, sevenths: seq<Chord>, ninths: seq<Chord>, suspended: seq<Chord>)
    requires KnownNotes(scale)
    ensures |triads| == |scale| && |sevenths| == |scale| && |ninths| == |scale|
    ensures |suspended| == 2 * |scale|
    ensures forall i :: 0 <= i < |scale| ==>
      triads[i] == TriadAt(scale, i) && sevenths[i] == SeventhAt(scale, i) && ninths[i] == NinthAt(scale, i)
    ensures forall i :: 0 <= i < |scale| ==>
      suspended[2 * i] == Sus2At(scale, i) && suspended[2 * i + 1] == Sus4At(scale, i)
  {
    triads, sevenths, ninths, suspended := [], [], [], [];
    var len := |scale|;
    for i := 0 to len
      invariant |triads| == i && |sevenths| == i && |ninths| == i && |suspended| == 2 * i
      invariant triads == TriadsUpTo(scale, i) && sevenths == SeventhsUpTo(scale, i)
      invariant ninths == NinthsUpTo(scale, i) && suspended == SuspendedUpTo(scale, i)
    {
      var triad, seventhChord, ninthChord, sus2, sus4 := DegreeChords(scale, i);
      triads := triads + [triad];
      sevenths := sevenths + [seventhChord];
      ninths := ninths + [ninthChord];
      suspended := suspended + [sus2, sus4];
    }
    EveryDegree(scale);
  }

  /** The interval up from a to b and the one back down add up to a whole
      octave, unless a and b are the same pitch class, when both are 0. */
  lemma IntervalInversion(a: NoteName, b: NoteName)
    requires a in NoteToIndex && b in NoteToIndex
    ensures Interval(a, b) == 0 <==> NoteToIndex[a] == NoteToIndex[b]
    ensures NoteToIndex[a] != NoteToIndex[b] ==> Interval(a, b) + Interval(b, a) == 12
  {
    var x: int, y: int := NoteToIndex[a], NoteToIndex[b];
    assert Interval(a, b) == (y - x + 12) % 12 && Interval(b, a) == (x - y + 12) % 12;
  }

  /** The triad suffix names the three recognised shapes and nothing else:
      (4, 7) major, (3, 7) minor, (3, 6) diminished, and "?" for every other pair. */
  lemma TriadSuffixes(thirdInt: int, fifthInt: int)
    ensures TriadSuffix(TriadQuality(thirdInt, fifthInt)) == "" <==> thirdInt == 4 && fifthInt == 7
    ensures TriadSuffix(TriadQuality(thirdInt, fifthInt)) == "m" <==> thirdInt == 3 && fifthInt == 7
    ensures TriadSuffix(TriadQuality(thirdInt, fifthInt)) == "dim" <==> thirdInt == 3 && fifthInt == 6
    ensures TriadSuffix(TriadQuality(thirdInt, fifthInt)) == "?" <==>
      !(thirdInt == 4 && fifthInt == 7) && !(thirdInt == 3 && fifthInt == 7) && !(thirdInt == 3 && fifthInt == 6)
  {
  }

  /** A seventh suffix tells which triad it was built on: different qualities
      never share a seventh label, nor a ninth label. */
  lemma SuffixesTellQuality(q1: Quality, s1: int, q2: Quality, s2: int)
    ensures SeventhSuffix(q1, s1) == SeventhSuffix(q2, s2) ==> q1 == q2
    ensures NinthSuffix(q1, s1) == NinthSuffix(q2, s2) ==> q1 == q2
  {
  }

  /** A string with every '7' turned into a '9'. */
  function SevenToNine(s: string): (t: string)
    ensures |t| == |s|
  {
    seq(|s|, k requires 0 <= k < |s| => if s[k] == '7' then '9' else s[k])
  }

  /** Each ninth label is its seventh label with the 7 read as 9. */
  lemma NinthMirrorsSeventh(q: Quality, seventhInt: int)
    ensures NinthSuffix(q, seventhInt) == SevenToNine(SeventhSuffix(q, seventhInt))
  {
    var s := SeventhSuffix(q, seventhInt);
    assert SevenToNine(s) == NinthSuffix(q, seventhInt) by {
      var t := SevenToNine(s);
      forall k | 0 <= k < |s| ensures t[k] == NinthSuffix(q, seventhInt)[k] {
      }
    }
  }

  /** Every seventh label starts with its triad's label, except the one the
      program gives a diminished triad whose seventh lies 9 semitones up:
      "m7b5" does not start with "dim". */
  lemma SeventhExtendsTriad(q: Quality, seventhInt: int)
    ensures TriadSuffix(q) <= SeventhSuffix(q, seventhInt) <==> !(q == Diminished && seventhInt == 9)
  {
    if q == Diminished && seventhInt == 9 {
      assert SeventhSuffix(q, seventhInt)[0] != TriadSuffix(q)[0];
    }
  }

  /** The chords of a degree share its root; the seventh chord is the triad
      plus the tone six degrees up, the ninth chord that plus the tone one
      degree up, and the suspended chords replace the third by the second or
      the fourth. */
  lemma ChordTones(scale: seq<NoteName>, i: nat)
    requires i < |scale| && KnownNotes(scale)
    ensures TriadAt(scale, i).root == scale[i] && TriadAt(scale, i).notes[0] == scale[i]
    ensures SeventhAt(scale, i).root == scale[i] && NinthAt(scale, i).root == scale[i]
    ensures Sus2At(scale, i).root == scale[i] && Sus4At(scale, i).root == scale[i]
    ensures SeventhAt(scale, i).notes == TriadAt(scale, i).notes + [scale[(i + 6) % |scale|]]
    ensures NinthAt(scale, i).notes == SeventhAt(scale, i).notes + [scale[(i + 1) % |scale|]]
    ensures Sus2At(scale, i).notes == TriadAt(scale, i).notes[1 := scale[(i + 1) % |scale|]]
    ensures Sus4At(scale, i).notes == TriadAt(scale, i).notes[1 := scale[(i + 3) % |scale|]]
  {
  }
}
