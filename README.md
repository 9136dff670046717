# Diatonic harmony engine, modelled in Dafny

This project models the harmony core of `script.js`:

- the note lookup `noteToIndex`;
- the all-sharps and all-flats spellings `sharpNotes` and `flatNotes`;
- the seven mode patterns `scalePatterns`;
- the duplicate-letter test `hasDuplicateLetters`;
- the scale speller `buildScale`;
- the chord builder `buildChords`.

It proves what these promise.

- `buildScale(key, mode)` returns seven notes. Note k has pitch class `(tonic + pattern[k]) % 12`. The notes come wholly from the sharp table or wholly from the flat table. The flat table is used exactly when the sharp spelling repeats a letter and the key has no `#`.
- `buildChords` emits one triad, one seventh and one ninth chord per degree, then a sus2 and a sus4 per degree. Chord tones are taken cyclically from the scale. Labels come from a fixed table of intervals.
- On a scale that `buildScale` spelled, the intervals are those of the mode pattern. So every chord label depends on the mode and the degree, never on the key.
- Every mode labels its degrees as the major scale labels the degrees it starts from. Every triad is recognised.

Modelling choices:

- A note name is a letter with an accidental (`Tables.NoteName`). `Text()` renders it as the program writes it, e.g. `"C#"`. A mode is an enumeration whose `Name()` is the program's display name.
- A lookup that JavaScript answers with `undefined` becomes a precondition. That covers a key missing from `noteToIndex`, a mode missing from `scalePatterns`, and a scale note `noteToIndex` does not know.
- An output line is the record `Chords.Chord(root, suffix, notes)`. It replaces the HTML string with its bold name and `" - "`-joined notes.
- `buildScale` is pure: two `map`s and one conditional reassignment. It becomes the function `Scale.BuildScale`.
- `buildChords` is imperative and becomes the method `Chords.BuildChords`. Its `for` loop is proved against the recursive specifications `TriadsUpTo`, `SeventhsUpTo`, `NinthsUpTo` and `SuspendedUpTo`.
  - The body of one loop pass is the method `Chords.DegreeChords`.
  - The `if`/`else` chain that assigns `triadQ`, `seventhQ` and `ninthQ` is the method `Chords.QualityLabels`.

The code labels a diminished triad whose seventh lies 9 semitones up (a diminished seventh) as `"m7b5"`/`"m9b5"`. It labels one whose seventh lies 10 semitones up (a half-diminished seventh) as `"dim7"`/`"dim9"`. The model keeps these labels as written (script.js:90-91).

- `Chords.SeventhExtendsTriad` shows that this is the one seventh label that does not start with its triad's label.
- `Diatonic.DiatonicLabels` and `Diatonic.MajorDegreeLabels` show what the labels mean on real scales. Every diminished triad of every mode has a half-diminished seventh, and it is labelled `"dim7"`, e.g. B D F A in C major.

## Model

| member | source | states |
|---|---|---|
| Tables.NoteName.Text | script.js:3-11 | a name's text is non-empty and its first character, the one `n[0]` reads, is the letter |
| Tables.TablesAgree | script.js:3-14 | both spelling tables have 12 entries, and `noteToIndex` maps `sharpNotes[i]` and `flatNotes[i]` back to i |
| Tables.PatternsWellFormed | script.js:17-25 | every mode pattern has 7 strictly increasing offsets below 12, the first being 0 |
| Tables.ModesAreRotations | script.js:17-25 | every mode pattern is the Ionian pattern read from the mode's degree and measured from that degree's offset, mod 12 |
| Tables.KeyNames | script.js:3-14 | a known name is its pitch class's sharp-table entry exactly when it is not flat, and its flat-table entry exactly when it is not sharp |
| Tables.SharpInText | script.js:45 | `'#'` occurs in a known name's text exactly when the name is sharp |
| Scale.Letters | script.js:30 | one letter per note, letter k being note k's first character |
| Scale.ElementCount | script.js:31-32 | the set of a sequence's elements is never larger than the sequence, and equally large exactly when no element occurs twice |
| Scale.HasDuplicateLetters | script.js:29-33 | the test is true exactly when two different positions hold notes with the same letter |
| Scale.SpellPitch | script.js:40-48 | note k spelled from either table has pitch class `(tonic + pattern[k]) % 12` and is a name `noteToIndex` knows |
| Scale.SpellPitches | script.js:40-48 | a spelling from either table is as long as the pattern and gives every note k pitch class `(tonic + pattern[k]) % 12` |
| Scale.SpelledPitches | script.js:35-52 | a spelling of a mode pattern has 7 notes, starts on the tonic's pitch class and has no pitch class twice |
| Scale.BuildScale | script.js:35-52 | the scale has one note per pattern offset, note k having pitch class `(noteToIndex[key] + pattern[k]) % 12`, whichever table spelled it |
| Scale.SpellScale | script.js:39-51 | the chosen spelling sounds the pattern on the tonic, note by note |
| Scale.ScalePitches | script.js:35-52 | every scale has 7 notes, the first with the key's pitch class, and no pitch class twice |
| Scale.SpellingChoice | script.js:40-49 | the scale is exactly the sharp spelling when the key has a `#` or that spelling repeats no letter, and exactly the flat spelling otherwise |
| Scale.RepeatedLettersSurvive | script.js:44-49 | a scale with a repeated letter comes from a sharp spelling with one, kept either by the `#` guard or because the flat spelling repeats a letter too |
| Scale.SpellFirst | script.js:40-42 | a spelling starts with the tonic's entry of its table |
| Scale.TonicSpelling | script.js:36-49 | the scale starts with the key's own name unless the key is flat and its sharp spelling repeats no letter |
| Scale.CMajorScale | script.js:35-52 | C Ionian is C D E F G A B |
| Scale.FMajorScale | script.js:35-52 | F Ionian's sharp spelling F G A A# C D E repeats A, so the scale is F G A Bb C D E |
| Scale.FSharpMajorRepeatsLetter | script.js:35-52 | F# Ionian is F# G# A# B C# D# F: the `#` guard keeps a repeated F |
| Scale.DFlatLocrianRespelled | script.js:35-52 | Db Locrian is spelled C# D E F# G A B |
| Chords.Interval | script.js:72-75 | the interval lies in [0, 11] and is the shift that takes the root's pitch class to the note's, mod 12 |
| Chords.IntervalInversion | script.js:72-75 | an interval is 0 exactly for the same pitch class, and otherwise it and the interval back add up to 12 |
| Chords.TriadSuffixes | script.js:80-96 | the triad suffix is "" exactly for (4, 7), "m" exactly for (3, 7), "dim" exactly for (3, 6), and "?" exactly for every other pair |
| Chords.SuffixesTellQuality | script.js:80-96 | two seventh labels, or two ninth labels, are equal only for the same triad quality |
| Chords.NinthMirrorsSeventh | script.js:80-96 | every ninth label is its seventh label with the 7 read as 9 |
| Chords.SeventhExtendsTriad | script.js:80-96 | every seventh label starts with its triad label, except exactly "m7b5" for a diminished triad with a seventh 9 semitones up |
| Chords.ChordTones | script.js:65-112 | a degree's chords share its root; the seventh is the triad plus the tone six degrees up, the ninth that plus the tone one degree up; sus2 and sus4 replace the third by the second or fourth |
| Chords.QualityLabels | script.js:77-96 | the three labels are the triad, seventh and ninth suffixes of the triad quality of the third and fifth, given the seventh |
| Chords.DegreeChords | script.js:65-112 | one loop pass yields exactly degree i's triad, seventh, ninth, sus2 and sus4 chords, with tones taken cyclically |
| Chords.UpToAt | script.js:98-106 | entry k of the first n triads, sevenths and ninths is degree k's chord |
| Chords.SuspendedUpToAt | script.js:107-112 | the suspended list of the first n degrees has 2n entries, entry 2k being degree k's sus2 and 2k+1 its sus4 |
| Chords.EveryDegree | script.js:64-113 | after the last degree each list holds every degree's chord at its position |
| Chords.BuildChords | script.js:56-116 | triads, sevenths and ninths have one entry per degree, suspended two, and entry i (2i, 2i+1) is degree i's chord (sus2, sus4) |
| Diatonic.SpelledIntervals | script.js:72-75 | inside a spelled scale, the interval between two notes is the interval between their pattern offsets, whatever the tonic |
| Diatonic.RotatedIntervals | script.js:17-25 | a mode's intervals from degree i are the Ionian intervals from degree i + the mode's degree |
| Diatonic.IonianDegrees | script.js:80-96 | the Ionian pattern's triads are major, minor, minor, major, major, minor, diminished, with sevenths 11, 10, 10, 11, 10, 10, 10 |
| Diatonic.DiatonicQualities | script.js:35-96 | degree i of every key's scale in every mode has the quality and seventh of major-scale degree i + the mode's degree |
| Diatonic.LabelsIgnoreKey | script.js:35-96 | two keys in the same mode get the same triad, seventh and ninth labels on every degree |
| Diatonic.MajorDegreeLabels | script.js:80-96 | the major scale's degrees get the labels "", m, m, "", "", m, dim / maj7, m7, m7, maj7, 7, m7, dim7 / the ninths alike, and its diminished degree has a seventh 10 semitones up |
| Diatonic.ModeLabels | script.js:17-96 | in every key, degree i of a mode gets the labels of major-scale degree i + the mode's degree |
| Diatonic.DiatonicLabels | script.js:88-91 | no triad of a program-built scale is labelled "?", and every diminished one has a seventh 10 semitones up and is labelled "dim7" and "dim9", never "m7b5" |
| Diatonic.CMajorChordTones | script.js:98-112 | the C major chords: triad C E G, seventh on vii B D F A, ninth on ii D F A C E, sus2 C D G, sus4 C F G |

## Left out

- DOM wiring is not modelled, because it only reads and writes the page. That covers `populateDropdowns`, `drawChords`, the `DOMContentLoaded` listener and the button handlers (script.js:120-191).
- `setRandomKeyAndMode` is not modelled, because it depends on `Math.random` and the page's option lists.
- The HTML of each output line is not modelled, because it is presentation. That is the `<b>…</b>&nbsp;` markup and the `" - "` join. A line is the record `Chord(root, suffix, notes)`.
- `Mode.Name` is kept only as documentation of the display names. The model indexes the patterns by the `Mode` enumeration, not by the name strings.
- Undefined lookups are not modelled. `buildScale` with a key or mode missing from the tables is excluded by `requires key in NoteToIndex` and by the `Mode` type.
- Chords.BuildChords: requires every scale note to be known to `noteToIndex`; the model does not cover an unknown note. In the program an unknown note gives `NaN` intervals (script.js:72-75), with these effects:
  - A degree whose root, third or fifth is unknown gets "?", "?7" and "?9".
  - A degree where only the seventh is unknown keeps its triad label. Its seventh and ninth labels take the "else" side of the seventh test: "7"/"9" for a major triad, "m(maj7)"/"m(maj9)" for a minor one, "dim7"/"dim9" for a diminished one.
  - The sus2 and sus4 chords carry no label that depends on an interval, so they are unaffected.
- Scale.HasDuplicateLetters: is defined on note names, not on arbitrary strings. A string whose first character is `undefined` (the empty string) cannot occur.
- Chords.BuildChords: returns the four lists as four out-parameters (`triads`, `sevenths`, `ninths`, `suspended`) rather than one object with four fields.
