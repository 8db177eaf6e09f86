/**
 * Pitch naming by semitone offset from a base note: "E4" plus 1 is "F4",
 * "B4" plus 1 is "C5". Names are strings, as in the program; the computed
 * frequency is kept symbolic because 2^(s/12) is not a rational number.
 */
module FrequencySystem {
  import opened Wrappers
  import opened NoteFrequencies

  /** The two errors the naming functions throw. */
  datatype Error =
    | InvalidBaseNoteFormat(baseNote: string)
    | UnknownBaseNote(baseNote: string)

  /** A frequency in hertz, `baseHz * 2^(semitones / 12)`, left unevaluated. */
  datatype Frequency = Scaled(baseHz: real, semitones: int)

  /** A resolved note: its base, the offset, the frequency and both names. */
  datatype FrequencyNote = FrequencyNote(
    baseNote: string,
    semitoneOffset: int,
    frequency: Frequency,
    noteName: string,
    displayName: string)

  /** The base notes a `FrequencyNote` may be built from, with their frequencies. */
  const BaseNoteFrequencies: map<string, real> := map[
    "C4" := 261.63, "D4" := 293.66, "E4" := 329.63, "F4" := 349.23,
    "G4" := 392.0,  "A4" := 440.0,  "B4" := 493.88, "C5" := 523.25,
    "D5" := 587.33, "E5" := 659.25, "F5" := 698.46, "G5" := 783.99,
    "A5" := 880.0,  "B5" := 987.77, "C6" := 1046.5, "D6" := 1174.66]

  const DefaultBaseNote: string := "C4"

  /** Natural note letters in octave order. */
  const NoteNamesInOctave: string := "CDEFGAB"

  /** Semitones above C of each natural letter, in `NoteNamesInOctave` order. */
  const SemitonesFromC: seq<int> := [0, 2, 4, 5, 7, 9, 11]

  /** Name of each of the twelve semitones of an octave, sharps for the black keys. */
  const SemitoneToNote: seq<string> :=
    ["C", "C#", "D", "D#", "E", "F", "F#", "G", "G#", "A", "A#", "B"]

  /** Japanese solfege syllable of each natural letter. */
  const JapaneseNoteNames: map<char, string> := map[
    'C' := "ド", 'D' := "レ", 'E' := "ミ", 'F' := "ファ",
    'G' := "ソ", 'A' := "ラ", 'B' := "シ"]

  // ---------------------------------------------------------------------
  // Decimal numerals (`\d+`, `parseInt(_, 10)`, and template rendering)

  predicate IsDigit(c: char)
  {
    '0' <= c <= '9'
  }

  /** One or more decimal digits: the regular expression `\d+`. */
  predicate IsDigits(s: string)
  {
    |s| > 0 && forall i :: 0 <= i < |s| ==> IsDigit(s[i])
  }

  function DigitValue(c: char): nat
    requires IsDigit(c)
  {
    c as int - '0' as int
  }

  /** `parseInt(s, 10)` of a string of digits; leading zeros are allowed. */
  function ParseDecimal(s: string): nat
    requires forall i :: 0 <= i < |s| ==> IsDigit(s[i])
    decreases |s|
  {
    if s == [] then 0
    else ParseDecimal(s[..|s| - 1]) * 10 + DigitValue(s[|s| - 1])
  }

  /** The decimal numeral of `n`, without leading zeros. */
  function NatToDecimal(n: nat): (r: string)
    ensures IsDigits(r)
    decreases n
  {
    if n < 10 then [('0' as int + n) as char]
    else NatToDecimal(n / 10) + [('0' as int + n % 10) as char]
  }

  /** How an integer is rendered inside a template literal. */
  function IntToDecimal(i: int): string
  {
    if i < 0 then "-" + NatToDecimal(-i) else NatToDecimal(i)
  }

  /** Parsing a rendered numeral gives the number back. */
  lemma {:induction false} ParseDecimalOfNatToDecimal(n: nat)
    ensures ParseDecimal(NatToDecimal(n)) == n
    decreases n
  {
    if n >= 10 {
      ParseDecimalOfNatToDecimal(n / 10);
      var s := NatToDecimal(n);
      assert s[..|s| - 1] == NatToDecimal(n / 10);
    }
  }

  // ---------------------------------------------------------------------
  // The two name patterns

  /** `/^([A-G])(\d+)$/`: a natural letter and an octave number. */
  predicate MatchesBaseNotePattern(s: string)
  {
    |s| >= 2 && s[0] in NoteNamesInOctave && IsDigits(s[1..])
  }

  /** `/^([A-G]#?)(\d+)$/`: a letter, an optional sharp and an octave number. */
  predicate MatchesDisplayPattern(s: string)
  {
    |s| >= 2 && s[0] in NoteNamesInOctave &&
    if s[1] == '#' then IsDigits(s[2..]) else IsDigits(s[1..])
  }

  /** Position of a natural letter in `NoteNamesInOctave`. */
  function LetterIndex(c: char): (r: nat)
    requires c in NoteNamesInOctave
    ensures r < 7 && NoteNamesInOctave[r] == c
  {
    if c == 'C' then 0 else if c == 'D' then 1 else if c == 'E' then 2
    else if c == 'F' then 3 else if c == 'G' then 4 else if c == 'A' then 5 else 6
  }

  /** Semitones from C0 to a natural base note: `octave * 12 + semitonesFromC`. */
  function AbsoluteSemitone(baseNote: string): int
    requires MatchesBaseNotePattern(baseNote)
  {
    ParseDecimal(baseNote[1..]) * 12 + SemitonesFromC[LetterIndex(baseNote[0])]
  }

  /** A letter and one digit: the octave is that digit. */
  lemma OneDigitBase(baseNote: string)
    requires |baseNote| == 2 && baseNote[0] in NoteNamesInOctave && IsDigit(baseNote[1])
    ensures MatchesBaseNotePattern(baseNote)
    ensures AbsoluteSemitone(baseNote) ==
            DigitValue(baseNote[1]) * 12 + SemitonesFromC[LetterIndex(baseNote[0])]
  {
    var digits := baseNote[1..];
    assert digits == [baseNote[1]] && digits[..|digits| - 1] == [];
    assert ParseDecimal(digits) == ParseDecimal(digits[..|digits| - 1]) * 10 + DigitValue(digits[0]);
  }

  // ---------------------------------------------------------------------
  // Rendering a semitone count as a note name

  /** JavaScript's `%`: the remainder takes the sign of the dividend. */
  function TruncatedRemainder(a: int, n: int): (r: int)
    requires n > 0
    ensures -n < r < n
  {
    if a >= 0 then a % n else -((-a) % n)
  }

  /**
   * The name of an absolute semitone count as the program builds it:
   * `Math.floor(t / 12)` for the octave (Dafny's `/` by a positive divisor
   * is the same floor) and `t % 12` with JavaScript's truncating `%` for the
   * index; an index below zero reads `undefined` from the array.
   */
  function PitchNameAsWritten(total: int): string
  {
    var index := TruncatedRemainder(total, 12);
    (if index >= 0 then SemitoneToNote[index] else "undefined") + IntToDecimal(total / 12)
  }

  /** The name of an absolute semitone count with a floored remainder. */
  function PitchName(total: int): string
  {
    SemitoneToNote[total % 12] + IntToDecimal(total / 12)
  }

  /** `calculateNoteName` as written, with JavaScript's truncating `%`. */
  function CalculateNoteNameAsWritten(baseNote: string, semitoneOffset: int): (r: Result<string, Error>)
    ensures r.Failure? <==> !MatchesBaseNotePattern(baseNote)
    ensures r.Failure? ==> r.error == InvalidBaseNoteFormat(baseNote)
  {
    if !MatchesBaseNotePattern(baseNote) then Failure(InvalidBaseNoteFormat(baseNote))
    else Success(PitchNameAsWritten(AbsoluteSemitone(baseNote) + semitoneOffset))
  }

  /**
   * The note `semitoneOffset` semitones from `baseNote`. Throws
   * "Invalid base note format" unless the base is a natural letter followed
   * by an octave number.
   */
  function CalculateNoteName(baseNote: string, semitoneOffset: int): (r: Result<string, Error>)
    ensures r.Failure? <==> !MatchesBaseNotePattern(baseNote)
    ensures r.Failure? ==> r.error == InvalidBaseNoteFormat(baseNote)
  {
    if !MatchesBaseNotePattern(baseNote) then Failure(InvalidBaseNoteFormat(baseNote))
    else Success(PitchName(AbsoluteSemitone(baseNote) + semitoneOffset))
  }

  /**
   * The Japanese display name of a note name: the letter's syllable, then
   * "#" for a sharp; the octave is dropped. Anything else is returned as is.
   */
  function GetDisplayName(noteName: string): (r: string)
    ensures !MatchesDisplayPattern(noteName) ==> r == noteName
    ensures MatchesDisplayPattern(noteName) ==>
      r != noteName && |r| > 0 && (r[|r| - 1] == '#' <==> noteName[1] == '#')
  {
    if !MatchesDisplayPattern(noteName) then noteName
    else
      var sharp := if noteName[1] == '#' then "#" else "";
      JapaneseNoteNames[noteName[0]] + sharp
  }

  /**
   * Builds the note record for `baseNote` plus `semitoneOffset`; throws
   * "Unknown base note" for a base outside `BaseNoteFrequencies`.
   */
  function CreateFrequencyNote(baseNote: string, semitoneOffset: int): (r: Result<FrequencyNote, Error>)
    ensures r.Failure? <==> baseNote !in BaseNoteFrequencies
    ensures r.Failure? ==> r.error == UnknownBaseNote(baseNote)
    ensures r.Success? ==>
      && r.value.baseNote == baseNote
      && r.value.semitoneOffset == semitoneOffset
      && r.value.frequency == Scaled(BaseNoteFrequencies[baseNote], semitoneOffset)
      && CalculateNoteName(baseNote, semitoneOffset) == Success(r.value.noteName)
      && r.value.displayName == GetDisplayName(r.value.noteName)
  {
    if baseNote !in BaseNoteFrequencies then Failure(UnknownBaseNote(baseNote))
    else
      BaseNotesAreNatural(baseNote);
      var noteName := CalculateNoteName(baseNote, semitoneOffset);
      match noteName
      case Failure(e) => Failure(e)
      case Success(name) =>
        Success(FrequencyNote(
          baseNote, semitoneOffset,
          Scaled(BaseNoteFrequencies[baseNote], semitoneOffset),
          name, GetDisplayName(name)))
  }

  // ---------------------------------------------------------------------
  // Properties

  /** Every base note is a natural letter with a one-digit octave, 4 to 6. */
  lemma BaseNotesAreNatural(baseNote: string)
    requires baseNote in BaseNoteFrequencies
    ensures MatchesBaseNotePattern(baseNote)
    ensures |baseNote| == 2 && '4' <= baseNote[1] <= '6'
  {
  }

  /** The malformed bases of the program's own examples are rejected. */
  lemma RejectsMalformedBaseNotes()
    ensures CalculateNoteName("X4", 0) == Failure(InvalidBaseNoteFormat("X4"))
    ensures CalculateNoteName("C", 0) == Failure(InvalidBaseNoteFormat("C"))
    ensures CalculateNoteName("C#4", 0).Failure?
  {
  }

  /** Each semitone name begins with its natural letter; index `SemitonesFromC[i]` is that letter alone. */
  lemma {:induction false} NaturalSemitoneNames(i: nat)
    requires i < 7
    ensures SemitoneToNote[SemitonesFromC[i]] == [NoteNamesInOctave[i]]
  {
  }

  /**
   * The name is the pitch class and octave of the absolute semitone count:
   * `total == 12 * octave + pitchClass`, for every offset, negative ones too.
   */
  lemma {:induction false} NoteNameIsPitchClassAndOctave(baseNote: string, semitoneOffset: int)
    returns (pitchClass: nat, octave: int)
    requires MatchesBaseNotePattern(baseNote)
    ensures pitchClass < 12
    ensures 12 * octave + pitchClass == AbsoluteSemitone(baseNote) + semitoneOffset
    ensures CalculateNoteName(baseNote, semitoneOffset) ==
            Success(SemitoneToNote[pitchClass] + IntToDecimal(octave))
  {
    var total := AbsoluteSemitone(baseNote) + semitoneOffset;
    pitchClass, octave := total % 12, total / 12;
  }

  /** Offset 0 gives a natural note with a canonical octave back unchanged. */
  lemma {:induction false} OffsetZeroIsIdentity(letter: char, octave: nat)
    requires letter in NoteNamesInOctave
    ensures CalculateNoteName([letter] + NatToDecimal(octave), 0) ==
            Success([letter] + NatToDecimal(octave))
  {
    var name := [letter] + NatToDecimal(octave);
    assert name[1..] == NatToDecimal(octave);
    ParseDecimalOfNatToDecimal(octave);
    var i := LetterIndex(letter);
    NaturalSemitoneNames(i);
    var total := octave * 12 + SemitonesFromC[i];
    assert AbsoluteSemitone(name) == total;
    assert total % 12 == SemitonesFromC[i] && total / 12 == octave;
  }

  /** In particular every base note maps to itself at offset 0. */
  lemma {:induction false} OffsetZeroKeepsBaseNotes(baseNote: string)
    requires baseNote in BaseNoteFrequencies
    ensures CalculateNoteName(baseNote, 0) == Success(baseNote)
  {
    BaseNotesAreNatural(baseNote);
    var octave := baseNote[1] as int - '0' as int;
    assert baseNote == [baseNote[0]] + NatToDecimal(octave);
    OffsetZeroIsIdentity(baseNote[0], octave);
  }

  /** Twelve more semitones keep the pitch class and raise the octave by one. */
  lemma {:induction false} TwelveSemitonesRaiseOctave(baseNote: string, semitoneOffset: int)
    returns (pitchClass: nat, octave: int)
    requires MatchesBaseNotePattern(baseNote)
    ensures pitchClass < 12
    ensures CalculateNoteName(baseNote, semitoneOffset) ==
            Success(SemitoneToNote[pitchClass] + IntToDecimal(octave))
    ensures CalculateNoteName(baseNote, semitoneOffset + 12) ==
            Success(SemitoneToNote[pitchClass] + IntToDecimal(octave + 1))
  {
    var total := AbsoluteSemitone(baseNote) + semitoneOffset;
    pitchClass, octave := total % 12, total / 12;
    assert (total + 12) % 12 == pitchClass && (total + 12) / 12 == octave + 1;
    assert PitchName(total + 12) == SemitoneToNote[pitchClass] + IntToDecimal(octave + 1);
  }

  /** Names in octaves 0 to 9 end in a single digit. */
  lemma OneDigitOctaveName(total: int)
    requires 0 <= total < 120
    ensures PitchName(total) == SemitoneToNote[total % 12] + [('0' as int + total / 12) as char]
  {
  }

  /** Worked examples from C4: semitones, an octave and two octaves up. */
  lemma NoteNameExamplesFromC4()
    ensures CalculateNoteName("C4", 1) == Success("C#4")
    ensures CalculateNoteName("C4", 5) == Success("F4")
    ensures CalculateNoteName("C4", 12) == Success("C5")
    ensures CalculateNoteName("C4", 24) == Success("C6")
    ensures CalculateNoteName("C4", 15) == Success("D#5")
  {
    OneDigitBase("C4");
    OneDigitOctaveName(49);
    assert PitchName(49) == "C#4";
    OneDigitOctaveName(53);
    assert PitchName(53) == "F4";
    OneDigitOctaveName(60);
    assert PitchName(60) == "C5";
    OneDigitOctaveName(72);
    assert PitchName(72) == "C6";
    OneDigitOctaveName(63);
    assert PitchName(63) == "D#5";
  }

  /** Different bases reach the same note: C4+5, D4+3 and E4+1 are all F4. */
  lemma NoteNameExamplesSameTarget()
    ensures CalculateNoteName("D4", 3) == Success("F4")
    ensures CalculateNoteName("E4", 1) == Success("F4")
    ensures CalculateNoteName("E4", 8) == Success("C5")
  {
    OneDigitBase("D4");
    OneDigitBase("E4");
    OneDigitOctaveName(53);
    assert PitchName(53) == "F4";
    OneDigitOctaveName(60);
    assert PitchName(60) == "C5";
  }

  /** The octave carries in both directions: B4+1 is C5 and C5-1 is B4. */
  lemma NoteNameExamplesCarry()
    ensures CalculateNoteName("B4", 1) == Success("C5")
    ensures CalculateNoteName("C5", -1) == Success("B4")
  {
    OneDigitBase("B4");
    OneDigitBase("C5");
    OneDigitOctaveName(60);
    assert PitchName(60) == "C5";
    OneDigitOctaveName(59);
    assert PitchName(59) == "B4";
  }

  /** A semitone name followed by digits matches the display pattern. */
  lemma SemitoneNameWithDigitsMatches(pitchClass: nat, digits: string)
    requires pitchClass < 12 && IsDigits(digits)
    ensures MatchesDisplayPattern(SemitoneToNote[pitchClass] + digits)
  {
    var cls := SemitoneToNote[pitchClass];
    var name := cls + digits;
    assert name[0] == cls[0] && cls[0] in NoteNamesInOctave;
    if |cls| == 2 {
      assert name[1] == '#' && name[2..] == digits;
    } else {
      assert name[1] == digits[0] && name[1..] == digits;
    }
  }

  /** A name with a non-negative octave matches the display pattern, so it gets a syllable. */
  lemma {:induction false} NoteNameMatchesDisplayPattern(baseNote: string, semitoneOffset: int)
    requires MatchesBaseNotePattern(baseNote)
    requires AbsoluteSemitone(baseNote) + semitoneOffset >= 0
    ensures MatchesDisplayPattern(CalculateNoteName(baseNote, semitoneOffset).value)
    ensures GetDisplayName(CalculateNoteName(baseNote, semitoneOffset).value) !=
            CalculateNoteName(baseNote, semitoneOffset).value
  {
    var p, o := NoteNameIsPitchClassAndOctave(baseNote, semitoneOffset);
    assert o >= 0;
    SemitoneNameWithDigitsMatches(p, NatToDecimal(o));
  }

  /** A sharp name's syllable is its letter's syllable followed by "#". */
  lemma SharpIsLetterSyllable(letter: char, digits: string)
    requires letter in NoteNamesInOctave && IsDigits(digits)
    ensures GetDisplayName([letter, '#'] + digits) == GetDisplayName([letter] + digits) + "#"
  {
    assert ([letter, '#'] + digits)[2..] == digits && ([letter] + digits)[1..] == digits;
  }

  /** The octave digits never affect the display name. */
  lemma DisplayNameIgnoresOctave(pitch: string, digits1: string, digits2: string)
    requires pitch in SemitoneToNote
    requires IsDigits(digits1) && IsDigits(digits2)
    ensures GetDisplayName(pitch + digits1) == GetDisplayName(pitch + digits2)
  {
    var n1, n2 := pitch + digits1, pitch + digits2;
    if |pitch| == 2 {
      assert n1[2..] == digits1 && n2[2..] == digits2;
    } else {
      assert n1[1..] == digits1 && n2[1..] == digits2;
    }
  }

  /** The display names of the program's examples, the fallback included. */
  lemma DisplayNameExamples()
    ensures GetDisplayName("C4") == "ド" && GetDisplayName("F4") == "ファ"
    ensures GetDisplayName("C#4") == "ド#" && GetDisplayName("F#5") == "ファ#"
    ensures GetDisplayName("A#3") == "ラ#"
    ensures GetDisplayName("X4") == "X4"
  {
  }

  /** The display name of every table note is its `NoteNames` syllable. */
  lemma DisplayNameAgreesWithNoteNames(n: NoteName)
    ensures GetDisplayName(n) == NoteNames[n]
  {
    NoteNameShape(n);
    assert n[1..] == [n[1]];
    assert GetDisplayName(n) == JapaneseNoteNames[n[0]];
    SyllableOfLetter(n);
  }

  /** `NoteNames` gives each note the syllable of its letter. */
  lemma SyllableOfLetter(n: NoteName)
    ensures n[0] in JapaneseNoteNames && NoteNames[n] == JapaneseNoteNames[n[0]]
  {
  }

  /** The base-note table is the note-frequency table under another name. */
  lemma BaseNotesAreNoteNames(baseNote: string)
    ensures baseNote in BaseNoteFrequencies <==> IsNoteName(baseNote)
    ensures baseNote in BaseNoteFrequencies ==>
      BaseNoteFrequencies[baseNote] == NoteFrequencyTable[baseNote]
  {
  }

  /** The default base note is a valid base. */
  lemma DefaultBaseNoteIsKnown()
    ensures DefaultBaseNote in BaseNoteFrequencies
  {
  }

  /** A known base whose name computes to `name` yields the record built from it. */
  lemma RecordOfNamedNote(baseNote: string, semitoneOffset: int, name: string)
    requires baseNote in BaseNoteFrequencies
    requires CalculateNoteName(baseNote, semitoneOffset) == Success(name)
    ensures CreateFrequencyNote(baseNote, semitoneOffset) == Success(FrequencyNote(
      baseNote, semitoneOffset, Scaled(BaseNoteFrequencies[baseNote], semitoneOffset),
      name, GetDisplayName(name)))
  {
  }

  /** C4 plus 5 is F4, ファ, at the C4 frequency raised five semitones. */
  lemma CreateFrequencyNoteFromC4()
    ensures CreateFrequencyNote("C4", 5) ==
      Success(FrequencyNote("C4", 5, Scaled(261.63, 5), "F4", "ファ"))
  {
    OneDigitBase("C4");
    OneDigitOctaveName(53);
    assert PitchName(53) == "F4";
    RecordOfNamedNote("C4", 5, "F4");
    assert GetDisplayName("F4") == "ファ";
  }

  /** Sharps reach the record: C4 plus 1 is C#4, ド#. */
  lemma CreateFrequencyNoteSharps()
    ensures CreateFrequencyNote("C4", 1).value.noteName == "C#4"
    ensures CreateFrequencyNote("C4", 1).value.displayName == "ド#"
  {
    OneDigitBase("C4");
    OneDigitOctaveName(49);
    assert PitchName(49) == "C#4";
    RecordOfNamedNote("C4", 1, "C#4");
    assert GetDisplayName("C#4") == "ド#";
  }

  /** A4 plus 3 is C5, ド. */
  lemma CreateFrequencyNoteFromA4()
    ensures CreateFrequencyNote("A4", 3) ==
      Success(FrequencyNote("A4", 3, Scaled(440.0, 3), "C5", "ド"))
  {
    OneDigitBase("A4");
    OneDigitOctaveName(60);
    assert PitchName(60) == "C5";
    RecordOfNamedNote("A4", 3, "C5");
    assert GetDisplayName("C5") == "ド";
  }

  /** Offset 0 keeps the base note and its table frequency; unknown bases are refused. */
  lemma CreateFrequencyNoteEdgeExamples()
    ensures CreateFrequencyNote("G4", 0) ==
      Success(FrequencyNote("G4", 0, Scaled(BaseNoteFrequencies["G4"], 0), "G4", "ソ"))
    ensures CreateFrequencyNote("X4", 0) == Failure(UnknownBaseNote("X4"))
  {
    OffsetZeroKeepsBaseNotes("G4");
    assert GetDisplayName("G4") == "ソ";
  }

  /** Below octave 0 the written `%` indexes the name table at -1. */
  lemma NegativeTotalReadsUndefined()
    ensures CalculateNoteNameAsWritten("C0", -1) == Success("undefined-1")
    ensures CalculateNoteName("C0", -1) == Success("B-1")
  {
    OneDigitBase("C0");
    assert AbsoluteSemitone("C0") == 0;
    assert TruncatedRemainder(-1, 12) == -1 && -1 / 12 == -1 && -1 % 12 == 11;
    assert IntToDecimal(-1) == "-1";
    assert PitchNameAsWritten(-1) == "undefined-1";
    assert PitchName(-1) == "B-1";
  }

  /** For a non-negative total the written and the corrected naming agree. */
  lemma AsWrittenAgreesFromOctaveZero(baseNote: string, semitoneOffset: int)
    requires MatchesBaseNotePattern(baseNote)
    requires AbsoluteSemitone(baseNote) + semitoneOffset >= 0
    ensures CalculateNoteNameAsWritten(baseNote, semitoneOffset) ==
            CalculateNoteName(baseNote, semitoneOffset)
  {
  }
}
