/** The constant data the harmony engine is built on (script.js:3-25):
    the note-name lookup, the all-sharps and all-flats spellings of the
    twelve pitch classes, and the seven mode interval patterns. */
module Tables {

  /** A pitch class: a semitone count modulo 12, with C = 0. */
  type PitchClass = x: int | 0 <= x < 12

  datatype Accidental = Natural | Sharp | Flat

  /** A note name as the program writes it: a letter, then "#", "b" or nothing. */
  datatype NoteName = NoteName(letter: char, accidental: Accidental)
  {
    /** The name as a string, e.g. "C#" or "Bb". */
    function Text(): (s: string)
      ensures |s| > 0 && s[0] == letter
    {
      [letter] + match accidental
        case Natural => ""
        case Sharp => "#"
        case Flat => "b"
    }
  }

  const C := NoteName('C', Natural)
  const CSharp := NoteName('C', Sharp)
  const DFlat := NoteName('D', Flat)
  const D := NoteName('D', Natural)
  const DSharp := NoteName('D', Sharp)
  const EFlat := NoteName('E', Flat)
  const E := NoteName('E', Natural)
  const F := NoteName('F', Natural)
  const FSharp := NoteName('F', Sharp)
  const GFlat := NoteName('G', Flat)
  const G := NoteName('G', Natural)
  const GSharp := NoteName('G', Sharp)
  const AFlat := NoteName('A', Flat)
  const A := NoteName('A', Natural)
  const ASharp := NoteName('A', Sharp)
  const BFlat := NoteName('B', Flat)
  const B := NoteName('B', Natural)

  /** `noteToIndex`: the 17 note names the program knows, each with its pitch class. */
  const NoteToIndex: map<NoteName, PitchClass> := map[
    C := 0, CSharp := 1, DFlat := 1,
    D := 2, DSharp := 3, EFlat := 3,
    E := 4,
    F := 5, FSharp := 6, GFlat := 6,
    G := 7, GSharp := 8, AFlat := 8,
    A := 9, ASharp := 10, BFlat := 10,
    B := 11
  ]

  /** `sharpNotes`: pitch class i spelled with a sharp wherever it needs an accidental. */
  const SharpNotes: seq<NoteName> := [C, CSharp, D, DSharp, E, F, FSharp, G, GSharp, A, ASharp, B]

  /** `flatNotes`: pitch class i spelled with a flat wherever it needs an accidental. */
  const FlatNotes: seq<NoteName> := [C, DFlat, D, EFlat, E, F, GFlat, G, AFlat, A, BFlat, B]

  /** The keys of `scalePatterns`, in the order the program lists them. */
  datatype Mode = Ionian | Dorian | Phrygian | Lydian | Mixolydian | Aeolian | Locrian
  {
    /** The name the program shows for the mode. */
    function Name(): string
    {
      match this
      case Ionian => "Ionian (Major)"
      case Dorian => "Dorian"
      case Phrygian => "Phrygian"
      case Lydian => "Lydian"
      case Mixolydian => "Mixolydian"
      case Aeolian => "Aeolian (Minor)"
      case Locrian => "Locrian"
    }
  }

  /** `scalePatterns[mode]`: the mode's offsets in semitones above the tonic. */
  function ScalePattern(mode: Mode): seq<nat>
  {
    match mode
    case Ionian => [0, 2, 4, 5, 7, 9, 11]
    case Dorian => [0, 2, 3, 5, 7, 9, 10]
    case Phrygian => [0, 1, 3, 5, 7, 8, 10]
    case Lydian => [0, 2, 4, 6, 7, 9, 11]
    case Mixolydian => [0, 2, 4, 5, 7, 9, 10]
    case Aeolian => [0, 2, 3, 5, 7, 8, 10]
    case Locrian => [0, 1, 3, 5, 6, 8, 10]
  }

  /** A mode pattern: seven strictly increasing offsets in [0, 11], the first being 0. */
  predicate WellFormedPattern(p: seq<nat>)
  {
    |p| == 7 && p[0] == 0 && p[6] < 12 &&
    forall i, j :: 0 <= i < j < |p| ==> p[i] < p[j]
  }

  /** The degree of the major scale a mode starts on: Ionian on the first,
      Dorian on the second, and so on to Locrian on the seventh. */
  function ModeDegree(mode: Mode): (d: nat)
    ensures d < 7
    ensures d == 0 <==> mode == Ionian
  {
    match mode
    case Ionian => 0
    case Dorian => 1
    case Phrygian => 2
    case Lydian => 3
    case Mixolydian => 4
    case Aeolian => 5
    case Locrian => 6
  }

  /** Each mode's pattern is the Ionian pattern read from the mode's degree
      and measured from that degree's note. */
  lemma ModesAreRotations(mode: Mode, k: nat)
    requires k < 7
    ensures |ScalePattern(mode)| == 7 && |ScalePattern(Ionian)| == 7
    ensures ScalePattern(mode)[k] ==
      (ScalePattern(Ionian)[(k + ModeDegree(mode)) % 7] as int - ScalePattern(Ionian)[ModeDegree(mode)] + 12) % 12
  {
    match mode
    case Ionian =>
    case Dorian =>
    case Phrygian =>
    case Lydian =>
    case Mixolydian =>
    case Aeolian =>
    case Locrian =>
  }

  /** Both spelling tables give pitch class i a name that the lookup maps back to i. */
  lemma TablesAgree(i: PitchClass)
    ensures |SharpNotes| == 12 && |FlatNotes| == 12
    ensures SharpNotes[i] in NoteToIndex && NoteToIndex[SharpNotes[i]] == i
    ensures FlatNotes[i] in NoteToIndex && NoteToIndex[FlatNotes[i]] == i
  {
  }

  /** Every entry of `scalePatterns` is a well-formed seven-note pattern. */
  lemma PatternsWellFormed(mode: Mode)
    ensures WellFormedPattern(ScalePattern(mode))
  {
  }

  /** Every key name is its pitch class's entry in the sharp table or in the
      flat table: a flat name only in the flat one, a sharp name only in the
      sharp one, a natural name in both. */
  lemma KeyNames(key: NoteName)
    requires key in NoteToIndex
    ensures |SharpNotes| == 12 && |FlatNotes| == 12
    ensures key.accidental != Flat <==> key == SharpNotes[NoteToIndex[key]]
    ensures key.accidental != Sharp <==> key == FlatNotes[NoteToIndex[key]]
  {
  }

  /** The "#" of a name's text is its sharp, and nothing else in it is. */
  lemma SharpInText(n: NoteName)
    requires n in NoteToIndex
    ensures '#' in n.Text() <==> n.accidental == Sharp
  {
  }
}
