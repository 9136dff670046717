/** The scale builder of script.js:29-52: spell a mode on a tonic from the
    all-sharps table, and fall back to the all-flats table when the sharp
    spelling repeats a letter and the key name carries no '#'. */
module Scale {
  import opened Tables

  /** The first character of each name, that is its letter, in order (script.js:30). */
  function Letters(notes: seq<NoteName>): (letters: seq<char>)
    ensures |letters| == |notes|
    ensures forall k :: 0 <= k < |notes| ==> letters[k] == notes[k].letter
  {
    seq(|notes|, k requires 0 <= k < |notes| => notes[k].Text()[0])
  }

  ghost predicate Distinct<T>(s: seq<T>)
  {
    forall i, j :: 0 <= i < j < |s| ==> s[i] != s[j]
  }

  /** A sequence has as many different elements as it is long exactly when
      no element occurs twice. */
  lemma {:induction false} ElementCount<T>(s: seq<T>)
    ensures |set x | x in s| <= |s|
    ensures |set x | x in s| == |s| <==> Distinct(s)
  {
    if s != [] {
      var t := s[1..];
      ElementCount(t);
      assert (set x | x in s) == {s[0]} + (set x | x in t) by {
        forall x ensures x in s <==> x == s[0] || x in t {
          if x in s && x != s[0] {
            var k :| 0 <= k < |s| && s[k] == x;
            assert t[k - 1] == x;
          }
        }
      }
      if s[0] in t {
        var k :| 0 <= k < |t| && t[k] == s[0];
        assert s[0] == s[k + 1];
        assert !Distinct(s);
      } else {
        assert Distinct(s) <==> Distinct(t) by {
          if Distinct(t) {
            forall i, j | 0 <= i < j < |s| ensures s[i] != s[j] {
              if i == 0 {
                assert s[j] == t[j - 1];
              } else {
                assert s[i] == t[i - 1] && s[j] == t[j - 1];
              }
            }
          }
          if Distinct(s) {
            forall i, j | 0 <= i < j < |t| ensures t[i] != t[j] {
              assert t[i] == s[i + 1] && t[j] == s[j + 1];
            }
          }
        }
      }
    }
  }

  /** `hasDuplicateLetters`: compares the number of letters with the size of
      the set of letters; true exactly when two positions share a first character. */
  function HasDuplicateLetters(notes: seq<NoteName>): (dup: bool)
    ensures dup <==> exists i, j :: 0 <= i < j < |notes| && notes[i].letter == notes[j].letter
  {
    var letters := Letters(notes);
    ElementCount(letters);
    |letters| != |set l | l in letters|
  }

  /** One table entry per pattern offset: the entry of the pitch class that
      lies the offset above the tonic, mod 12 (script.js:40-42, 46-48). */
  function Spell(table: seq<NoteName>, tonic: PitchClass, pattern: seq<nat>): seq<NoteName>
    requires |table| == 12
  {
    seq(|pattern|, k requires 0 <= k < |pattern| => table[(tonic + pattern[k]) % 12])
  }

  /** Note k of a spelling from either table has pitch class (tonic + pattern[k]) % 12. */
  lemma SpellPitch(table: seq<NoteName>, tonic: PitchClass, pattern: seq<nat>, k: nat)
    requires table == SharpNotes || table == FlatNotes
    requires k < |pattern|
    ensures |table| == 12
    ensures Spell(table, tonic, pattern)[k] in NoteToIndex &&
      NoteToIndex[Spell(table, tonic, pattern)[k]] == (tonic + pattern[k]) % 12
  {
    var pc := (tonic + pattern[k]) % 12;
    TablesAgree(pc);
    assert Spell(table, tonic, pattern)[k] == table[pc];
  }

  /** Spelling any pattern from either table gives note k the pitch class (tonic + pattern[k]) % 12. */
  lemma SpellPitches(table: seq<NoteName>, tonic: PitchClass, pattern: seq<nat>)
    requires table == SharpNotes || table == FlatNotes
    ensures |table| == 12 && |Spell(table, tonic, pattern)| == |pattern|
    ensures forall k :: 0 <= k < |pattern| ==>
      Spell(table, tonic, pattern)[k] in NoteToIndex &&
      NoteToIndex[Spell(table, tonic, pattern)[k]] == (tonic + pattern[k]) % 12
  {
    TablesAgree(0);
    forall k | 0 <= k < |pattern|
      ensures Spell(table, tonic, pattern)[k] in NoteToIndex &&
              NoteToIndex[Spell(table, tonic, pattern)[k]] == (tonic + pattern[k]) % 12
    {
      SpellPitch(table, tonic, pattern, k);
    }
  }

  /** The sharp spelling of `mode` on `key`, which `buildScale` tries first. */
  function SharpSpelling(key: NoteName, mode: Mode): seq<NoteName>
    requires key in NoteToIndex
  {
    Spell(SharpNotes, NoteToIndex[key], ScalePattern(mode))
  }

  /** The flat spelling of `mode` on `key`, the fallback. */
  function FlatSpelling(key: NoteName, mode: Mode): seq<NoteName>
    requires key in NoteToIndex
  {
    Spell(FlatNotes, NoteToIndex[key], ScalePattern(mode))
  }

  /** The notes, one per offset, sound the pattern on the tonic: note k has
      pitch class (tonic + pattern[k]) % 12. */
  predicate SpellsPattern(notes: seq<NoteName>, tonic: PitchClass, pattern: seq<nat>)
  {
    |notes| == |pattern| &&
    forall k :: 0 <= k < |notes| ==>
      notes[k] in NoteToIndex && NoteToIndex[notes[k]] == (tonic + pattern[k]) % 12
  }

  /** A spelling of a well-formed pattern starts on the tonic and has seven
      different pitch classes. */
  lemma SpelledPitches(notes: seq<NoteName>, tonic: PitchClass, pattern: seq<nat>)
    requires WellFormedPattern(pattern) && SpellsPattern(notes, tonic, pattern)
    ensures |notes| == 7 && NoteToIndex[notes[0]] == tonic
    ensures forall i, j :: 0 <= i < j < 7 ==> NoteToIndex[notes[i]] != NoteToIndex[notes[j]]
  {
    forall i, j | 0 <= i < j < 7 ensures NoteToIndex[notes[i]] != NoteToIndex[notes[j]] {
      assert 0 < pattern[j] - pattern[i] < 12;
    }
  }

  /** The key's text contains a sharp sign (script.js:45). */
  predicate NamesSharp(key: NoteName)
  {
    '#' in key.Text()
  }

  /** `buildScale(key, modeName)`: one note per pattern offset, note k having
      pitch class (tonic + pattern[k]) % 12 whichever table spelled it. */
  function BuildScale(key: NoteName, mode: Mode): (notes: seq<NoteName>)
    requires key in NoteToIndex
    ensures SpellsPattern(notes, NoteToIndex[key], ScalePattern(mode))
  {
    SpellScale(NoteToIndex[key], ScalePattern(mode), NamesSharp(key))
  }

  /** What `buildScale` does once both lookups are done: the sharp spelling,
      replaced by the flat one when it repeats a letter and the key has no '#'. */
  function SpellScale(tonic: PitchClass, pattern: seq<nat>, sharpKey: bool): (notes: seq<NoteName>)
    ensures SpellsPattern(notes, tonic, pattern)
  {
    var sharp := Spell(SharpNotes, tonic, pattern);
    var table := if HasDuplicateLetters(sharp) && !sharpKey then FlatNotes else SharpNotes;
    SpellPitches(table, tonic, pattern);
    Spell(table, tonic, pattern)
  }

  /** Every scale has seven notes, the first of them the tonic's pitch
      class, and no pitch class twice (though a letter may repeat). */
  lemma ScalePitches(key: NoteName, mode: Mode)
    requires key in NoteToIndex
    ensures |BuildScale(key, mode)| == 7
    ensures NoteToIndex[BuildScale(key, mode)[0]] == NoteToIndex[key]
    ensures forall i, j :: 0 <= i < j < 7 ==>
      NoteToIndex[BuildScale(key, mode)[i]] != NoteToIndex[BuildScale(key, mode)[j]]
  {
    PatternsWellFormed(mode);
    SpelledPitches(BuildScale(key, mode), NoteToIndex[key], ScalePattern(mode));
  }

  /** The spelling is all-sharps when the key names a sharp or the sharp
      spelling has no repeated letter, and all-flats otherwise: never a mixture. */
  lemma SpellingChoice(key: NoteName, mode: Mode)
    requires key in NoteToIndex
    ensures NamesSharp(key) || !HasDuplicateLetters(SharpSpelling(key, mode)) ==>
      BuildScale(key, mode) == SharpSpelling(key, mode)
    ensures !NamesSharp(key) && HasDuplicateLetters(SharpSpelling(key, mode)) ==>
      BuildScale(key, mode) == FlatSpelling(key, mode)
  {
  }

  /** A repeated letter survives only when the sharp spelling has one and
      either the '#' guard blocks the fallback or the flat spelling has one too. */
  lemma RepeatedLettersSurvive(key: NoteName, mode: Mode)
    requires key in NoteToIndex
    requires HasDuplicateLetters(BuildScale(key, mode))
    ensures HasDuplicateLetters(SharpSpelling(key, mode))
    ensures NamesSharp(key) || HasDuplicateLetters(FlatSpelling(key, mode))
  {
  }

  /** A spelling of a pattern starting at offset 0 starts with the tonic's entry. */
  lemma SpellFirst(table: seq<NoteName>, tonic: PitchClass, pattern: seq<nat>)
    requires |table| == 12 && |pattern| > 0 && pattern[0] == 0
    ensures Spell(table, tonic, pattern)[0] == table[tonic]
  {
  }

  /** The case analysis behind TonicSpelling, on the facts alone: the first
      note is the sharp or the flat name of the tonic as the '#' test and the
      duplicate test choose, and the key is one of those names. */
  lemma FirstNoteChoice(key: NoteName, first: NoteName, sharpName: NoteName, flatName: NoteName, sharpKey: bool, dup: bool)
    requires first == if sharpKey || !dup then sharpName else flatName
    requires key.accidental != Flat <==> key == sharpName
    requires key.accidental != Sharp <==> key == flatName
    requires sharpKey <==> key.accidental == Sharp
    ensures first == key <==> !(key.accidental == Flat && !dup)
  {
  }

  /** The scale starts with the key's own name, except for a flat key whose
      sharp spelling has no repeated letter: that scale starts with the sharp name. */
  lemma TonicSpelling(key: NoteName, mode: Mode)
    requires key in NoteToIndex
    ensures |BuildScale(key, mode)| > 0
    ensures BuildScale(key, mode)[0] == key <==>
      !(key.accidental == Flat && !HasDuplicateLetters(SharpSpelling(key, mode)))
  {
    PatternsWellFormed(mode);
    var t := NoteToIndex[key];
    var dup := HasDuplicateLetters(SharpSpelling(key, mode));
    SpellFirst(SharpNotes, t, ScalePattern(mode));
    SpellFirst(FlatNotes, t, ScalePattern(mode));
    KeyNames(key);
    SharpInText(key);
    SpellingChoice(key, mode);
    FirstNoteChoice(key, BuildScale(key, mode)[0], SharpNotes[t], FlatNotes[t], NamesSharp(key), dup);
  }

  /** C Ionian: C D E F G A B, spelled from the sharp table. */
  lemma CMajorScale()
    ensures BuildScale(C, Ionian) == [C, D, E, F, G, A, B]
  {
    var sharp := SharpSpelling(C, Ionian);
    assert sharp == [C, D, E, F, G, A, B];
    assert !HasDuplicateLetters(sharp);
  }

  /** F Ionian: the sharp spelling repeats A (A, A#), so the flats are used. */
  lemma FMajorScale()
    ensures SharpSpelling(F, Ionian) == [F, G, A, ASharp, C, D, E]
    ensures HasDuplicateLetters(SharpSpelling(F, Ionian))
    ensures BuildScale(F, Ionian) == [F, G, A, BFlat, C, D, E]
  {
    var sharp := SharpSpelling(F, Ionian);
    assert sharp == [F, G, A, ASharp, C, D, E];
    assert sharp[2].letter == sharp[3].letter;
    assert FlatSpelling(F, Ionian) == [F, G, A, BFlat, C, D, E];
  }

  /** F# Ionian: the sharp spelling repeats F (F#, F) and the '#' in the key
      keeps it, so the scale has a repeated letter. */
  lemma FSharpMajorRepeatsLetter()
    ensures BuildScale(FSharp, Ionian) == [FSharp, GSharp, ASharp, B, CSharp, DSharp, F]
    ensures HasDuplicateLetters(BuildScale(FSharp, Ionian))
  {
    var sharp := SharpSpelling(FSharp, Ionian);
    assert sharp == [FSharp, GSharp, ASharp, B, CSharp, DSharp, F];
    assert NamesSharp(FSharp);
    assert sharp[0].letter == sharp[6].letter;
  }

  /** Db Locrian: the sharp spelling has no repeated letter, so the scale is
      shown from C# rather than Db. */
  lemma DFlatLocrianRespelled()
    ensures BuildScale(DFlat, Locrian) == [CSharp, D, E, FSharp, G, A, B]
  {
    var sharp := SharpSpelling(DFlat, Locrian);
    assert sharp == [CSharp, D, E, FSharp, G, A, B];
    assert !HasDuplicateLetters(sharp);
  }
}
