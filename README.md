# Digital finger instrument core, in Dafny

The note tables list sixteen white-key notes from C4 to D6. The eight
direct scale keys (`a s d f z x c v`) choose among the first eight of them,
C4 to C5. The voice key `j` makes the chosen note sound. This project models four parts of the instrument's core and
proves what they promise:

- **Pitch naming** (`FrequencySystem`)
  - `calculateNoteName` reads a base note such as `E4` and moves it by a
    number of semitones. The twelve-tone pitch class wraps around and the
    octave carries.
  - `getDisplayName` gives the Japanese solfège syllable of a name.
  - `createFrequencyNote` builds the full note record.
- **Keyboard tracker and note resolver** (`ScaleDecision`)
  - `updateKeyboardState` records key presses and releases, in press order.
  - `determineOutputScale` picks the note of the most recently pressed scale
    key still held. It plays only while a voice key is held.
- **Envelope controller** (`EnvelopeSystem`)
  - An ADSR gain envelope per sounding tone, with start, release, hard stop
    and dispose.
  - Its auto-release and completion timers.
  - `validateEnvelopeConfig`.
- **Key and note tables** (`KeyTypes`, `NoteFrequencies`)
  - The voice-key and scale-key predicates.
  - The fixed note, frequency, syllable and selector tables.

`Wrappers` (Option, Result) and `Sequences` (subsequences and removal of an
element) are shared helpers.

How the model represents the source:

- **Thrown errors** become `Result` values. `InvalidBaseNoteFormat` and
  `UnknownBaseNote` carry the offending input.
- **`undefined`** becomes `Option`.
- **Frequencies** are reals. A computed frequency stays symbolic as
  `Scaled(baseHz, semitones)`, standing for `baseHz * 2^(semitones/12)`.
- **The envelope controller** is a class.
  - Its calls on the Web Audio gain parameter are recorded in an
    append-only `gainLog`.
  - Each `window.setTimeout` becomes an entry of `pendingTimers`. The host
    runs a pending timer with `Fire`, in whatever order it chooses.
  - Callback invocations are recorded in `invokedCallbacks`.
  - The audio clock `currentTime` is a parameter `now` of each operation.
- **`Date.now()`** is the `timestamp` parameter of `UpdateKeyboardState`.

## Model

| member | source | states |
|---|---|---|
| NoteFrequencies.BinaryToNoteLength | src/shared/noteFrequencies.ts:75-92 | the selector table has exactly sixteen entries |
| NoteFrequencies.BinaryToNoteIsWhiteKeys | src/shared/noteFrequencies.ts:75-92 | entry i has letter "CDEFGAB"[i mod 7] and octave 4 + i/7 (0→C4, 7→C5, 14→C6, 15→D6) |
| NoteFrequencies.BinaryToNoteIsPermutationOfNames | src/shared/noteFrequencies.ts:1-17 | the selector entries are pairwise distinct and every note name occurs among them |
| NoteFrequencies.KeyToNoteMatchesSelectorTable | src/shared/noteFrequencies.ts:42-51 | the keys of the scale-key table are exactly a, s, d, f, z, x, c, v, and the i-th of them plays selector note i |
| NoteFrequencies.NoteNamesDependOnLetterOnly | src/shared/noteFrequencies.ts:53-70 | two notes with the same letter have the same syllable (C4, C5, C6 are all ド) |
| NoteFrequencies.FrequenciesDefinedAndPositive | src/shared/noteFrequencies.ts:23-40 | every one of the sixteen notes has a frequency, and it is positive |
| NoteFrequencies.WhiteKeyName | src/shared/noteFrequencies.ts:75-92 | the name of the i-th white key from C4 is a white letter followed by one octave digit from 4 to 6 |
| KeyTypes.IsVoiceKey | src/shared/keyTypes.ts:7-16 | a key is a voice key exactly when it is "j" |
| KeyTypes.VoiceKeyExamples | src/shared/keyTypes.ts:14-16 | "j" is a voice key; "J", "a", "k" and "1" are not (case-sensitive) |
| KeyTypes.IsScaleKey | src/shared/keyTypes.ts:23-25 | corrected test: a key is a scale key exactly when it is one of the eight own keys of the scale-key table |
| KeyTypes.IsScaleKeyAsWritten | src/shared/keyTypes.ts:23-25 | the written `in` test holds exactly for the eight scale keys and the names every object inherits |
| KeyTypes.InheritedNameCountsAsScaleKey | src/shared/keyTypes.ts:23-25 | "toString" passes the written test but is not a scale key |
| KeyTypes.GetVoiceKeys | src/shared/keyTypes.ts:31-33 | the list holds exactly the voice keys, without duplicates |
| KeyTypes.GetScaleKeys | src/shared/keyTypes.ts:39-41 | eight distinct keys, which are exactly the scale keys |
| KeyTypes.GetScaleFromKey | src/shared/keyTypes.ts:48-50 | a note exactly for a scale key, and then one of the first eight selector notes |
| KeyTypes.ScaleFromKeyFollowsTable | src/shared/keyTypes.ts:39-50 | the i-th scale key plays selector note i |
| KeyTypes.VoiceAndScaleKeysDisjoint | src/shared/keyTypes.ts:7-25 | no key is both a voice key and a scale key |
| FrequencySystem.ParseDecimalOfNatToDecimal | src/shared/frequencySystem.ts:96 | parsing the rendered numeral of n gives n back |
| FrequencySystem.LetterIndex | src/shared/frequencySystem.ts:99-101 | a natural letter's index is below 7 and names that letter, so the "Invalid note name" branch is unreachable |
| FrequencySystem.CalculateNoteName | src/shared/frequencySystem.ts:85-134 | fails exactly when the base does not match `[A-G]\d+`, and then with the invalid-format error naming the base |
| FrequencySystem.RejectsMalformedBaseNotes | src/shared/frequencySystem.ts:90-93 | "X4", "C" and "C#4" are rejected as malformed |
| FrequencySystem.NoteNameIsPitchClassAndOctave | src/shared/frequencySystem.ts:108-133 | for every offset, negative ones included, the name is the pitch class p < 12 followed by the octave o, where 12·o + p is the base's absolute semitone count plus the offset |
| FrequencySystem.NaturalSemitoneNames | src/shared/frequencySystem.ts:108-130 | the semitone table names each natural letter at its semitone position |
| FrequencySystem.OffsetZeroIsIdentity | src/shared/frequencySystem.ts:96-133 | offset 0 returns any natural letter with a canonical octave unchanged |
| FrequencySystem.OffsetZeroKeepsBaseNotes | src/shared/frequencySystem.ts:26-133 | offset 0 returns every base-table note unchanged |
| FrequencySystem.TwelveSemitonesRaiseOctave | src/shared/frequencySystem.ts:113-114 | twelve more semitones keep the pitch class and raise the octave by one |
| FrequencySystem.NoteNameExamplesFromC4 | src/shared/frequencySystem.ts:108-133 | from C4: +1 is C#4, +5 is F4, +12 is C5, +15 is D#5, +24 is C6 |
| FrequencySystem.NoteNameExamplesSameTarget | src/shared/frequencySystem.ts:108-112 | C4+5, D4+3 and E4+1 all name F4, because only the total counts |
| FrequencySystem.NoteNameExamplesCarry | src/shared/frequencySystem.ts:113-114 | the octave carries both ways: B4+1 is C5 and C5-1 is B4 |
| FrequencySystem.NoteNameMatchesDisplayPattern | src/shared/frequencySystem.ts:117-143 | with a non-negative total, every computed name matches `[A-G]#?\d+`, so the display-name fallback is never taken for it |
| FrequencySystem.GetDisplayName | src/shared/frequencySystem.ts:142-153 | input that does not match is returned unchanged; a matching name gets a syllable that ends in "#" exactly when the name is sharp |
| FrequencySystem.SharpIsLetterSyllable | src/shared/frequencySystem.ts:142-153 | for every letter and octave, the sharp name's display name is the natural name's syllable followed by "#" (D#5 is レ#) |
| FrequencySystem.DisplayNameIgnoresOctave | src/shared/frequencySystem.ts:148-152 | the octave digits never change the display name |
| FrequencySystem.DisplayNameExamples | src/shared/frequencySystem.ts:142-153 | C4→ド, F4→ファ, C#4→ド#, F#5→ファ#, A#3→ラ#, and X4 falls back to X4 |
| FrequencySystem.DisplayNameAgreesWithNoteNames | src/shared/frequencySystem.ts:53-61 | for every table note, the display name equals its syllable in the note-name table |
| FrequencySystem.BaseNotesAreNatural | src/shared/frequencySystem.ts:26-43 | every base note is a natural letter with one octave digit from 4 to 6 |
| FrequencySystem.BaseNotesAreNoteNames | src/shared/frequencySystem.ts:26-43 | the base-note table has exactly the sixteen note names as keys, with the same frequencies |
| FrequencySystem.DefaultBaseNoteIsKnown | src/shared/frequencySystem.ts:195 | the default base note C4 is in the base-note table |
| FrequencySystem.CreateFrequencyNote | src/shared/frequencySystem.ts:162-185 | fails exactly for a base outside the table, with the unknown-base error; otherwise it echoes base and offset, scales the table frequency by the offset, and carries the computed name and its display name |
| FrequencySystem.CreateFrequencyNoteFromC4 | src/shared/frequencySystem.ts:162-185 | C4+5 is F4, ファ, the C4 frequency raised five semitones |
| FrequencySystem.CreateFrequencyNoteFromA4 | src/shared/frequencySystem.ts:162-185 | A4+3 is C5, ド |
| FrequencySystem.CreateFrequencyNoteSharps | src/shared/frequencySystem.ts:162-185 | C4+1 is C#4, ド# |
| FrequencySystem.CreateFrequencyNoteEdgeExamples | src/shared/frequencySystem.ts:166-168 | G4+0 is G4 at the table frequency; X4 is refused as an unknown base |
| FrequencySystem.CalculateNoteNameAsWritten | src/shared/frequencySystem.ts:85-134 | the written code, with JavaScript's truncating `%`, fails under the same conditions as the corrected one |
| FrequencySystem.NegativeTotalReadsUndefined | src/shared/frequencySystem.ts:113-131 | C0-1 names "undefined-1" as written; the corrected code names it B-1 |
| FrequencySystem.AsWrittenAgreesFromOctaveZero | src/shared/frequencySystem.ts:113-114 | for a non-negative total, the written and the corrected code agree |
| ScaleDecision.LatestScale | src/shared/scaleDecision.ts:71-88 | no note when no mapped key is held; otherwise the mapping of the last held mapped entry of the press order, or no note when that entry is the empty key |
| ScaleDecision.UpdateKeyboardState | src/shared/scaleDecision.ts:114-151 | the key is held afterwards exactly on a press, no other key's held state changes, a press puts the key last in the order, and a release leaves the order alone |
| ScaleDecision.LatestHeldScaleKeyIndex | src/shared/scaleDecision.ts:71-73 | the found position holds a mapped key that is held, and no later entry does; None exactly when no entry is a held mapped key |
| ScaleDecision.DetermineOutputScale | src/shared/scaleDecision.ts:59-109 | plays exactly when a note is chosen; the new audio state is that note; it plays only with a voice key held, and the note is a value of the mapping |
| ScaleDecision.NoVoiceKeyNoSound | src/shared/scaleDecision.ts:68-107 | with no voice key held: no sound, no note, audio state cleared, whatever scale keys are held |
| ScaleDecision.PlaysLatestHeldScaleKey | src/shared/scaleDecision.ts:70-88 | with a voice key held, the note is the mapping of the last press-order entry that is mapped and held |
| ScaleDecision.NoHeldScaleKeyNoSound | src/shared/scaleDecision.ts:89-97 | with no mapped key held: no sound and audio state cleared |
| ScaleDecision.DecisionIgnoresAudioStateAndStrategy | src/shared/scaleDecision.ts:34-65 | neither the audio state passed in nor the priority strategy changes the decision |
| ScaleDecision.PressMovesKeyToEnd | src/shared/scaleDecision.ts:126-131 | a press holds the key and moves it to the end of the order, where it occurs once; the remaining entries are a subsequence of the old order with every other key's count unchanged |
| ScaleDecision.PressStampsTimes | src/shared/scaleDecision.ts:123-139 | a press stamps the voice time exactly for a voice key and the scale time exactly for a mapped key; otherwise each time is carried over |
| ScaleDecision.ReleaseOnlyUnholds | src/shared/scaleDecision.ts:140-150 | a release only drops the key from the held set; order and times are unchanged |
| ScaleDecision.CreateEmptyKeyboardState | src/shared/scaleDecision.ts:156-163 | the empty state satisfies the invariant and never plays |
| ScaleDecision.CreateEmptyAudioState | src/shared/scaleDecision.ts:168-172 | nothing is playing |
| ScaleDecision.UpdatePreservesInvariant | src/shared/scaleDecision.ts:121-150 | every press or release keeps the order duplicate-free and every held key in the order |
| ScaleDecision.LatestIgnoresUnheldTail | src/shared/scaleDecision.ts:71-73 | appending an unheld key does not change the latest held scale key |
| ScaleDecision.LatestIgnoresUnheldKey | src/shared/scaleDecision.ts:71-130 | removing an unheld key does not change which key is the latest held one |
| ScaleDecision.PressThenReleaseRestoresDecision | src/shared/scaleDecision.ts:70-143 | pressing and releasing a key that was not held restores the previous decision |
| ScaleDecision.SessionFirstPresses | src/shared/scaleDecision.ts:59-151 | from the empty state, a alone is silent and a then j plays C4, with a and j held in that order |
| ScaleDecision.SessionPressS | src/shared/scaleDecision.ts:59-151 | with a and j held in that order, pressing s plays D4 |
| ScaleDecision.SessionOnlyAHeld | src/shared/scaleDecision.ts:59-109 | with only a scale key held and the voice key up, nothing sounds |
| ScaleDecision.SessionWithTwoScaleKeys | src/shared/scaleDecision.ts:59-151 | a, j, s, release s, release j gives silence, C4, D4, C4 (a takes over again), silence |
| ScaleDecision.KeyTableConfig | src/shared/keyTypes.ts:7-25 | the instrument's configuration has exactly the voice keys and exactly the scale keys |
| Sequences.WithoutCharacterized | src/shared/scaleDecision.ts:130 | `filter(k => k !== key)` keeps every other occurrence in order and drops every `key` |
| Sequences.WithoutNoDuplicates | src/shared/scaleDecision.ts:130 | filtering keeps a duplicate-free order duplicate-free |
| EnvelopeSystem.EnvelopeController.constructor | src/audio/envelopeSystem.ts:39-45 | a new controller is valid and not releasing, with nothing kept, logged, pending or invoked |
| EnvelopeSystem.EnvelopeController.SetOnReleaseComplete | src/audio/envelopeSystem.ts:123-126 | the owner attaches or detaches the completion callback; nothing else changes |
| EnvelopeSystem.EnvelopeController.ClearReleaseTimeout | src/audio/envelopeSystem.ts:150-155 | cancels exactly the kept timer and forgets its id, so no tracked timer is pending; untracked timers stay |
| EnvelopeSystem.EnvelopeController.ScheduleAutoRelease | src/audio/envelopeSystem.ts:138-145 | adds one auto-release timer of autoReleaseTime·1000 ms and keeps its id |
| EnvelopeSystem.EnvelopeController.Start | src/audio/envelopeSystem.ts:52-76 | leaves the releasing phase; logs cancel, set 0, a linear ramp to the peak at now+attack and an exponential ramp to max(peak·sustain, 0.001) at now+attack+decay; the only tracked timer afterwards is the auto-release when one is asked for; untracked timers stay |
| EnvelopeSystem.EnvelopeController.Release | src/audio/envelopeSystem.ts:82-100 | when already releasing, nothing changes; otherwise it enters the releasing phase, replaces any tracked timer by a release-completion timer of release·1000 ms, and logs cancel, hold the current value, and an exponential ramp to 0.001 at now+release |
| EnvelopeSystem.EnvelopeController.Stop | src/audio/envelopeSystem.ts:105-121 | in any phase: releasing, no tracked timer, a logged 10 ms linear fade to 0, and one more untracked 15 ms completion timer |
| EnvelopeSystem.EnvelopeController.IsReleasingState | src/audio/envelopeSystem.ts:131-133 | returns the releasing flag; when not releasing, no release completion is pending |
| EnvelopeSystem.EnvelopeController.Dispose | src/audio/envelopeSystem.ts:160-163 | cancels the tracked timer and detaches the callback; untracked timers stay |
| EnvelopeSystem.EnvelopeController.Fire | src/audio/envelopeSystem.ts:97-144 | an auto-release releases with its own configuration; a completion calls the callback attached at that moment, or nothing; a fired tracked timer leaves its id kept |
| EnvelopeSystem.RestartCancelsPendingRelease | src/audio/envelopeSystem.ts:56-97 | start, release, start: the release's completion is no longer pending |
| EnvelopeSystem.ReleaseTwiceIsReleaseOnce | src/audio/envelopeSystem.ts:83 | a second release logs nothing and sets no timer |
| EnvelopeSystem.StopTwiceSchedulesTwoCompletions | src/audio/envelopeSystem.ts:118-120 | two stops leave two completion timers pending |
| EnvelopeSystem.StopThenStartKeepsStopCompletion | src/audio/envelopeSystem.ts:58-120 | a start after a stop leaves the stop's completion pending under the new note |
| EnvelopeSystem.DisposeSilencesCallbacks | src/audio/envelopeSystem.ts:98-163 | after dispose, no timer that fires invokes a callback |
| EnvelopeSystem.AutoReleaseLifecycle | src/audio/envelopeSystem.ts:73-145 | start with auto-release, fire, fire: the start and release ramps are logged, the callback runs exactly once, and no tracked timer is left |
| EnvelopeSystem.ValidateEnvelopeConfig | src/audio/envelopeSystem.ts:184-202 | valid exactly when there are no messages, exactly when every bound holds; message k appears exactly when bound k is violated, in the fixed order attack, decay, sustain, release, maxVolume |
| EnvelopeSystem.ReportIf | src/audio/envelopeSystem.ts:190-196 | one check appends its message exactly when its bound is violated, keeping the messages in table order |
| EnvelopeSystem.InRangeIffNoViolation | src/audio/envelopeSystem.ts:190-196 | a configuration is in range exactly when no message applies |
| EnvelopeSystem.DefaultEnvelopePassesValidation | src/audio/envelopeSystem.ts:25-201 | the default envelope is valid, with no messages |
| EnvelopeSystem.SustainLevel | src/audio/envelopeSystem.ts:66-68 | the decay target is peak·sustain, or 0.001 when that is lower |

## Left out

- `calculateFrequencyFromSemitones` (frequencySystem.ts:71-76) computes `2 ** (s/12)` in floating point. The model keeps the frequency as the symbolic `Scaled(base, semitones)`.
- The gain values themselves are not modelled: the curve shapes, and reading `gain.value` when `release` and `stop` hold the current level. The log records the scheduling calls only.
- Timer delays are recorded but not interpreted. There is no clock ordering between timers: `Fire` may run any pending timer at any time, so every interleaving is covered.
- The `reason` diagnostic strings of `determineOutputScale` are not modelled.
- The thrown messages ("Invalid base note format: …", "Unknown base note: …") become error values that carry the input.
- FrequencySystem.CalculateNoteName: the offset is an integer. The source types it `number`, so a fractional offset would index the semitone table with a non-integer.
- FrequencySystem.ParseDecimal: `parseInt` of very long digit strings loses precision in floating point. The model's octave is exact. Very large octaves would also render in exponent form in JavaScript.
- FrequencySystem.GetDisplayName: the `|| baseNote` fallback (frequencySystem.ts:152) is not modelled. A matching name always has a syllable, so the fallback cannot be taken.
- FrequencySystem.CreateFrequencyNote: the table lookup is modelled by own keys. In the source, an inherited name such as "toString" passes the `undefined` check. It then fails one step later with the invalid-format error instead of the unknown-base error.
- FrequencySystem.CreateFrequencyNote: the note name comes from the corrected `CalculateNoteName`. For a table base whose total falls below zero (an offset below -48 from C4, such as `createFrequencyNote("C4", -49)`), the source's record carries "undefined-1" as both note name and display name, where the model's carries "B-1" and "B-1". For every non-negative total the two agree (`AsWrittenAgreesFromOctaveZero`). This is the finding on frequencySystem.ts:113-131 below.
- KeyTypes.GetScaleFromKey: returns None for inherited names such as "toString". The source returns the inherited function there (keyTypes.ts:48-50, the same `in` as the finding below).
- ScaleDecision.DetermineOutputScale: the mapping is consulted by own keys. With the source's `in` (scaleDecision.ts:73,137), a held key named after an inherited member would count as mapped.
- ScaleDecision.UpdateKeyboardState: the scale timestamp uses own keys too (scaleDecision.ts:137). This is a weaker treatment of inherited names for the same reason.
- EnvelopeSystem.ValidateEnvelopeConfig: the configuration fields are reals, so NaN is outside the model. In the source a NaN field fails every `<` and `>` test at envelopeSystem.ts:190-196, so a configuration such as `attack: NaN` is reported valid with no messages. Infinite values are left out for the same reason.
- `priorityStrategy` is kept in the configuration but never read, as in the source (scaleDecision.ts:34). Only the last-pressed rule exists.
- Out of scope: the React hook over the Web Audio API (`useAudioContext`), the UI components, and the window key listeners. So is the caller's configuration in the note player, which is built without a scale-key mapping.
- The controller is bound to one gain parameter and one timer host. It has no audio context or gain-node object, and no other controller shares its timers.
- `stop()` is not idempotent. Each call sets its own untracked 15 ms completion timer, so two calls report completion twice (`StopTwiceSchedulesTwoCompletions`).
- `start` does not cancel a pending stop completion. That timer can still call the owner back while the next note sounds (`StopThenStartKeepsStopCompletion`).

## Findings

| source | as written | input that shows it | evidently intended | confidence | as-written member | corrected member |
|---|---|---|---|---|---|---|
| src/shared/frequencySystem.ts:113-131 | the pitch class is `target % 12` with JavaScript's truncating remainder, which is negative for a negative total, so `semitoneToNote[-1]` is `undefined` | `calculateNoteName("C0", -1)` gives "undefined-1" | a floored remainder to match `Math.floor` for the octave, giving "B-1" | not executed | FrequencySystem.NegativeTotalReadsUndefined | FrequencySystem.NoteNameIsPitchClassAndOctave |
| src/shared/keyTypes.ts:23-25 | `key in KEY_TO_NOTE` also finds names every object inherits | `isScaleKey("toString")` is true | only the eight own keys of the table are scale keys | not executed | KeyTypes.InheritedNameCountsAsScaleKey | KeyTypes.IsScaleKey |
