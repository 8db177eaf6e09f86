/**
 * The fixed pitch tables of the instrument: the sixteen note names C4..D6,
 * their frequencies, the eight direct scale keys, the Japanese syllable of
 * each note and the 0-15 selector table.
 */
module NoteFrequencies {

  /** The sixteen white-key notes from C4 up to D6 (the `NoteName` union). */
  predicate IsNoteName(s: string)
  {
    s in {"C4", "D4", "E4", "F4", "G4", "A4", "B4",
          "C5", "D5", "E5", "F5", "G5", "A5", "B5",
          "C6", "D6"}
  }

  type NoteName = s: string | IsNoteName(s) witness "C4"

  /** Frequency in hertz of every note name. */
  const NoteFrequencyTable: map<NoteName, real> := map[
    "C4" := 261.63, "D4" := 293.66, "E4" := 329.63, "F4" := 349.23,
    "G4" := 392.0,  "A4" := 440.0,  "B4" := 493.88, "C5" := 523.25,
    "D5" := 587.33, "E5" := 659.25, "F5" := 698.46, "G5" := 783.99,
    "A5" := 880.0,  "B5" := 987.77, "C6" := 1046.5, "D6" := 1174.66]

  /** The direct scale keys and the note each one plays. */
  const KeyToNote: map<string, NoteName> := map[
    "a" := "C4", "s" := "D4", "d" := "E4", "f" := "F4",
    "z" := "G4", "x" := "A4", "c" := "B4", "v" := "C5"]

  /** The keys of `KeyToNote` in the order the table declares them. */
  const KeyToNoteOrder: seq<string> := ["a", "s", "d", "f", "z", "x", "c", "v"]

  /** Japanese solfege syllable of every note name. */
  const NoteNames: map<NoteName, string> := map[
    "C4" := "ド", "D4" := "レ", "E4" := "ミ", "F4" := "ファ",
    "G4" := "ソ", "A4" := "ラ", "B4" := "シ", "C5" := "ド",
    "D5" := "レ", "E5" := "ミ", "F5" := "ファ", "G5" := "ソ",
    "A5" := "ラ", "B5" := "シ", "C6" := "ド", "D6" := "レ"]

  /** Selector value 0..15 to note. */
  const BinaryToNote: seq<NoteName> := [
    "C4", "D4", "E4", "F4", "G4", "A4", "B4",
    "C5", "D5", "E5", "F5", "G5", "A5", "B5",
    "C6", "D6"]

  /** The white-key letters of one octave, C first. */
  const WhiteLetters: string := "CDEFGAB"

  /** The name of the `i`-th white key counted from C4. */
  function WhiteKeyName(i: nat): (r: string)
    requires i < 21
    ensures |r| == 2 && r[0] in WhiteLetters && '4' <= r[1] <= '6'
  {
    [WhiteLetters[i % 7], ('4' as int + i / 7) as char]
  }

  /** The selector table holds exactly sixteen entries. */
  lemma BinaryToNoteLength()
    ensures |BinaryToNote| == 16
  {
  }

  /** Entry `i` is the `i`-th white key from C4: letter "CDEFGAB"[i mod 7], octave 4 + i/7. */
  lemma BinaryToNoteIsWhiteKeys(i: nat)
    requires i < |BinaryToNote|
    ensures BinaryToNote[i] == WhiteKeyName(i)
  {
    if i < 7 {
      assert i % 7 == i && i / 7 == 0;
    } else if i < 14 {
      assert i % 7 == i - 7 && i / 7 == 1;
    } else {
      assert i % 7 == i - 14 && i / 7 == 2;
    }
  }

  /** No note appears twice in the selector table, and every note appears. */
  lemma BinaryToNoteIsPermutationOfNames()
    ensures forall i, j :: 0 <= i < j < |BinaryToNote| ==> BinaryToNote[i] != BinaryToNote[j]
    ensures forall n: NoteName :: n in BinaryToNote
  {
  }

  /** The eight scale keys play the first eight selector notes, in declaration order. */
  lemma KeyToNoteMatchesSelectorTable()
    ensures |KeyToNoteOrder| == 8
    ensures KeyToNote.Keys == set k | k in KeyToNoteOrder
    ensures forall i :: 0 <= i < 8 ==> KeyToNote[KeyToNoteOrder[i]] == BinaryToNote[i]
  {
    KeyToNoteKeys();
    forall i | 0 <= i < 8 ensures KeyToNote[KeyToNoteOrder[i]] == BinaryToNote[i] {
      KeyToNoteEntry(i);
    }
  }

  lemma KeyToNoteKeys()
    ensures KeyToNote.Keys == set k | k in KeyToNoteOrder
  {
    assert KeyToNote.Keys == {"a", "s", "d", "f", "z", "x", "c", "v"};
    assert (set k | k in KeyToNoteOrder) == {"a", "s", "d", "f", "z", "x", "c", "v"};
  }

  lemma KeyToNoteEntry(i: nat)
    requires i < 8
    ensures KeyToNoteOrder[i] in KeyToNote && KeyToNote[KeyToNoteOrder[i]] == BinaryToNote[i]
  {
    if i < 4 {
      assert KeyToNoteOrder[i] in {"a", "s", "d", "f"};
    } else {
      assert KeyToNoteOrder[i] in {"z", "x", "c", "v"};
    }
  }

  /** Every note is a white-key letter and a one-digit octave from 4 to 6. */
  lemma NoteNameShape(n: NoteName)
    ensures |n| == 2 && n[0] in WhiteLetters && '4' <= n[1] <= '6'
  {
  }

  /** The syllable depends only on the letter: notes an octave apart share it. */
  lemma NoteNamesDependOnLetterOnly(m: NoteName, n: NoteName)
    requires m[0] == n[0]
    ensures NoteNames[m] == NoteNames[n]
  {
    NoteNameShape(m);
    NoteNameShape(n);
    assert m == [m[0], m[1]] && n == [n[0], n[1]];
    OctavesShareSyllable(m[0]);
  }

  /** The notes of one letter in octaves 4, 5 and (for C and D) 6 share a syllable. */
  lemma OctavesShareSyllable(c: char)
    requires c in WhiteLetters
    ensures NoteNames[[c, '4']] == NoteNames[[c, '5']]
    ensures c in "CD" ==> NoteNames[[c, '4']] == NoteNames[[c, '6']]
  {
  }

  /** Every note has a positive frequency. */
  lemma FrequenciesDefinedAndPositive(n: NoteName)
    ensures n in NoteFrequencyTable && NoteFrequencyTable[n] > 0.0
  {
  }
}
