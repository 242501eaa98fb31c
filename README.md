# Piano chords: a Dafny model

A model of the core of a browser piano that plays notes and chords, together with proofs about it. The model covers:

- **Constant tables.** The twelve sharp-spelled note names, the two displayed octaves, the eight chord rows (four triads, four sevenths), the computer-keyboard layout and the sampled notes.
- **Chord arithmetic.** Inversion of an interval list, realising intervals as `(note, octave)` pitches with octave carry, chord intervals by quality and type, the maximum inversion, the ordinal suffix of an inversion label, chord abbreviations and the nearest sampled note.
- **The on-screen keyboard.** Its 24 keys, and the integer part of their layout: the white-key column and the stacking order.
- **The keyboard controller.** One run of the keyboard effect. It holds a temporary-inversion override, a temporary seventh override, and a table of the chords being held, keyed by voice. Its key-down and key-up handlers play and stop notes or chords through callbacks. A chord is released with the parameters it was started with.
- **The application component.** Its selection state (chord type, inversion, play mode; choosing a chord type resets the inversion), the press and release dispatch to the synthesizer, its own key list and its white-key table.

Modules follow the source files:

| module | file | source |
|---|---|---|
| `JsBuiltins` | js_builtins.dfy | the JavaScript built-ins used: `indexOf`, `Math.abs`, `%`, `toLowerCase`, `replace` |
| `MusicConstants` | music_constants.dfy | src/constants/music.ts |
| `MusicTypes` | music_types.dfy | src/types/music.ts |
| `MusicUtils` | music_utils.dfy | src/utils/music.ts |
| `PianoKeys` | piano_keys.dfy | src/utils/pianoKeys.ts |
| `KeyboardControls` | keyboard_controls.dfy | src/hooks/useKeyboardControls.ts |
| `App` | app.dfy | src/App.tsx |

Modelling choices:

- **Notes.** Every note the core handles comes from `NOTES` or from `KEY_TO_NOTE`. So a note is the datatype `MusicConstants.Note`, with twelve constructors, and `MusicConstants.Name` gives its name string.
- **Pitches.** A pitch string `${note}${octave}` is the pair `MusicTypes.Pitch(note, octave)`. The rendering is injective because `MusicConstants.NamesDistinct` holds and no name ends in a digit or a minus sign.
- **Integers.** They are Dafny's unbounded `int`. JavaScript `%` is written out as `JsBuiltins.JsRem` where the sign matters. `Math.floor(x / 12)` is Dafny's `/`, which agrees with it for the positive divisor 12.
- **Loops.** Where the source loops or reassigns (`applyInversion`, `abbreviateChord`, the nearest-sample search, both `generatePianoKeys`), the model is a method proved against a function or a predicate.
- **Mutable state.** The keyboard effect's closure variables are the fields of class `KeyboardControls.KeyboardEffect`. A ghost `trace` records every callback invoked. Its invariant `Valid()` says that the table of held chords is `Sounding(trace)`, what the callbacks so far leave held. `SoundingIsLastPlay` characterises that table by a second, independent definition: the last chord callback on each voice.
- **The application component.** Its `useState` fields are the fields of class `App.PianoApp`. A ghost `audio` log records the attack and release calls made on the synthesizer.
- **Two ChordTypes.** src/utils/music.ts imports `CHORD_QUALITIES` and a `ChordType` of `'triad' | 'seventh'`, but the constants file defines neither. In src/constants/music.ts, `ChordType` is the set of eight row names. The model therefore has:
  - `MusicUtils.ChordQuality`, whose base triads are the four triad rows;
  - `MusicUtils.ChordType` for triad/seventh;
  - `MusicConstants.ChordType` for the eight rows, used by the keyboard controller and the application component.

## Model

| member | source | states |
|---|---|---|
| JsBuiltins.IndexOf | src/utils/pianoKeys.ts:65 | the first position holding the element, or -1 when it is absent |
| JsBuiltins.IndexFrom | src/utils/pianoKeys.ts:65 | the search of `indexOf` from a position past which the element is known absent |
| JsBuiltins.IndexOfDistinct | src/utils/music.ts:19 | in a list without repetitions, `indexOf` of the element at position i is i |
| JsBuiltins.Abs | src/utils/music.ts:106 | `Math.abs` is non-negative and is x or -x |
| JsBuiltins.ToLower | src/hooks/useKeyboardControls.ts:46 | same length; no upper-case letter is left; each upper-case letter becomes its lower-case letter and every other character is kept |
| JsBuiltins.RemoveFirstCutsIndexOf | src/utils/pianoKeys.ts:65 | `replace` keeps a string without the character, and otherwise removes exactly the occurrence `indexOf` finds |
| JsBuiltins.JsRem | src/utils/music.ts:58-59 | JavaScript `%`: Dafny's remainder for a non-negative dividend, for a negative one the remainder of its magnitude, negated: a value in (-b, 0] |
| MusicConstants.NotesAreChromatic | src/constants/music.ts:2 | NOTES has 12 distinct entries and holds every note; the naturals C D E F G A B sit at 0 2 4 5 7 9 11; the sharps sit at 1 3 6 8 10, each named as the natural below plus '#' |
| MusicConstants.NamesDistinct | src/constants/music.ts:2 | two notes have the same name exactly when they are the same note |
| MusicConstants.NoteIndex | src/utils/music.ts:19 | the position of a note in NOTES: in range, and NOTES at it is the note |
| MusicConstants.NoteIndexIsIndexOf | src/utils/music.ts:19 | that position is what `NOTES.indexOf` returns |
| MusicConstants.NotesIndexed | src/constants/music.ts:2 | positions and notes correspond one to one |
| MusicConstants.FiveSharps | src/utils/pianoKeys.ts:14-15 | exactly five of the twelve notes contain '#' |
| MusicConstants.ChordIntervals | src/constants/music.ts:6-15 | every chord row starts at 0, rises strictly and stays below 12; triads have 3 tones, sevenths 4 |
| MusicConstants.SeventhRowsExtendTriads | src/constants/music.ts:7-14 | major7, minor7 and diminished7 are their triads plus 11, 10 and 9; dominant7 is the major triad plus 10 |
| MusicConstants.ChordRowsDistinct | src/constants/music.ts:6-15 | no two chord names have the same row |
| MusicConstants.KeyPlaysNote | src/constants/music.ts:28-41 | each layout key plays a note of the scale, and it is the key listed for that note |
| MusicConstants.KeyToNoteInjective | src/constants/music.ts:28-41 | no two layout keys play the same note |
| MusicConstants.NoteHasKey | src/constants/music.ts:28-41 | every note of the scale has a layout key |
| MusicConstants.KeyToNoteOnto | src/constants/music.ts:28-41 | the layout's set of notes is exactly the notes of NOTES |
| MusicConstants.SamplesAreNotes | src/constants/music.ts:44 | the samples are the distinct notes at positions 9, 0, 3, 6 |
| MusicUtils.Inverted | src/utils/music.ts:7-13 | k passes of the rotation keep the number of tones |
| MusicUtils.ApplyInversion | src/utils/music.ts:4-14 | the shift/push loop, and the early return for 0, compute `Inverted(intervals, inversion)` |
| MusicUtils.InvertedClosedForm | src/utils/music.ts:7-13 | for 0 <= k <= n, inversion k is `xs[k..]` followed by `xs[..k]` raised by 12 |
| MusicUtils.InvertedFullCycle | src/utils/music.ts:7-13 | inverting by the number of tones raises every tone by 12 |
| MusicUtils.InvertedCompose | src/utils/music.ts:8-11 | a + b passes are a passes then b passes |
| MusicUtils.InvertedCommutesWithLift | src/utils/music.ts:8-11 | inverting a chord an octave up gives the inversion an octave up |
| MusicUtils.InvertedWrapsAround | src/utils/music.ts:8-11 | n more passes give the same voicing an octave higher |
| MusicUtils.LastInversionThenOneMore | src/utils/music.ts:8-11 | one pass after the last inversion gives the root position an octave up |
| MusicUtils.InversionKeepsPitchClasses | src/utils/music.ts:8-11 | an inversion has the same multiset of pitch classes as the chord |
| MusicUtils.InvertedStaysNonNegative | src/utils/music.ts:9-10 | non-negative intervals stay non-negative under inversion |
| MusicUtils.RaisedTonesCountInversion | src/utils/music.ts:8-11 | for a chord inside one octave, inversion k has exactly k tones at 12 or above |
| MusicUtils.InvertedAt | src/utils/music.ts:7-13 | position i of inversion k is an unmoved tone, or a moved one raised by 12 |
| MusicUtils.InvertedInjective | src/utils/music.ts:7-13 | the same inversion of two different chords gives different voicings |
| MusicUtils.InvertedDeterminesChord | src/utils/music.ts:7-13 | for chords inside one octave, the voicing determines both the chord and the inversion |
| MusicUtils.RealizeInterval | src/utils/music.ts:19-21 | the pitch is exactly `interval` semitones above the root at `octave` |
| MusicUtils.GenerateChordNotes | src/utils/music.ts:17-23 | one pitch per interval, in order; pitch i is intervals[i] semitones above the root |
| MusicUtils.SemitoneDeterminesPitch | src/utils/music.ts:20-21 | two sharp-spelled pitches are equal exactly when their absolute semitones are |
| MusicUtils.ChordNotesDetermineIntervals | src/utils/music.ts:17-23 | for a fixed root and octave, equal pitch lists come exactly from equal interval lists |
| MusicUtils.CMajorFirstInversion | src/utils/music.ts:4-23 | C major at octave 4 in first inversion is E4 G4 C5 |
| MusicUtils.MajorFirstInversion | src/utils/music.ts:7-13 | the major triad in first inversion is 4, 7, 12 |
| MusicUtils.CFirstInversionPitches | src/utils/music.ts:17-23 | 4, 7 and 12 above C at octave 4 are E4, G4 and C5 |
| MusicUtils.CMinorSeventh | src/utils/music.ts:17-37 | C minor seventh at octave 4 is C4 D#4 G4 A#4 |
| MusicUtils.RealizeLifted | src/utils/music.ts:20-21 | an interval 12 wider is the same note one octave up |
| MusicUtils.ChordNotesAppend | src/utils/music.ts:18 | the pitch list of a concatenation is the concatenation of the pitch lists |
| MusicUtils.ChordNotesLift | src/utils/music.ts:17-23 | intervals raised by 12 give the same pitches one octave up |
| MusicUtils.ChordNotesOfInversion | src/utils/music.ts:4-23 | the pitches of inversion k are those of the upper tones, then those of the lowest k tones one octave up |
| MusicUtils.GetChordIntervals | src/utils/music.ts:26-48 | the base triad for a triad, or base triad plus 11/10/9/10 for major/minor/diminished/augmented; always in root position with the triad first |
| MusicUtils.GetMaxInversions | src/utils/music.ts:51-54 | the number of intervals minus 1: 2 for a triad, 3 for a seventh |
| MusicUtils.OrdinalFromRemainders | src/utils/music.ts:60-69 | given the remainders of a number by 10 and 100, the branches pick the suffix its last two digits call for; last digits other than 1-3 get "th" |
| MusicUtils.OrdinalSuffix | src/utils/music.ts:57-70 | for n >= 0: "th" when the tens digit is 1, otherwise st/nd/rd for a last digit of 1/2/3, "th" otherwise; a negative n always gets "th" |
| MusicUtils.OrdinalSuffixExamples | src/utils/music.ts:57-70 | 1st, 2nd, 3rd, 4th, 11th, 12th, 13th, 21st, 112th, 0th |
| MusicUtils.QualityAbbreviation | src/utils/music.ts:74-94 | each quality's name is three letters |
| MusicUtils.ChordAbbreviation | src/utils/music.ts:73-96 | three letters for a triad, four for a seventh, and '7' last exactly for a seventh |
| MusicUtils.AbbreviationsDistinct | src/utils/music.ts:73-96 | two chords have the same abbreviation exactly when they have the same quality and type |
| MusicUtils.AbbreviateChord | src/utils/music.ts:73-96 | the switch and the `+= '7'` build `ChordAbbreviation(quality, type)` |
| MusicUtils.SamplePositions | src/utils/music.ts:102 | four distinct samples, at positions 9, 0, 3, 6 of NOTES |
| MusicUtils.NoteIndices | src/utils/music.ts:102 | one index per sample, each the position of that sample in NOTES |
| MusicUtils.SampleIndicesValue | src/utils/music.ts:102 | the index table of the samples is [9, 0, 3, 6] |
| MusicUtils.ClosestIndex | src/utils/music.ts:105-114 | the entry nearest the note's index, with nothing nearer anywhere and everything before it strictly farther |
| MusicUtils.ClosestSampleIsNearest | src/utils/music.ts:100-114 | the index the search picks, turned back into a note, is the nearest sample, the first listed on a tie |
| MusicUtils.DistancesByIndex | src/utils/music.ts:109 | distances between indices are the distances between the notes |
| MusicUtils.MapNoteToAvailableSample | src/utils/music.ts:100-124 | returns the nearest sample (first listed on a tie), an octave lower exactly when the sample's index exceeds the note's |
| MusicUtils.NearestSampleUnique | src/utils/music.ts:105-124 | at most one pitch meets that requirement |
| MusicUtils.SampledNoteMapsToItself | src/utils/music.ts:100-124 | a sampled note maps to itself, in its own octave |
| MusicUtils.SampleAboveDropsAnOctave | src/utils/music.ts:117-118 | as written, D4 maps to D#3, 11 semitones below, although D#4 is 1 semitone away |
| MusicUtils.MapNoteToNearestSample | src/utils/music.ts:100-124 | the corrected mapping: the same nearest sample, in the note's own octave |
| MusicUtils.SampleWithinTwo | src/constants/music.ts:44 | every note has a sample within two positions |
| MusicUtils.NearestSampleWithinTwoSemitones | src/utils/music.ts:100-124 | the corrected mapping's pitch is never more than 2 semitones from the note |
| PianoKeys.GeneratePianoKeys | src/utils/pianoKeys.ts:6-31 | 2 x 12 keys; key i is note `NOTES[i % 12]`, black iff it has '#', at octave `OCTAVES[i / 12]` plus the shift, with globalIndex i |
| PianoKeys.KeysAreDistinctPitches | src/utils/pianoKeys.ts:6-31 | the keyboard has 24 keys and no two are the same note in the same octave |
| PianoKeys.KeyColour | src/utils/pianoKeys.ts:15 | a key is black exactly when its note contains '#', i.e. at positions 1 3 6 8 10 of each octave |
| PianoKeys.WhiteKeyIndex | src/utils/pianoKeys.ts:62-66 | the white key index is in 0..6, and that white key is the note's letter |
| PianoKeys.WhiteKeyTable | src/utils/pianoKeys.ts:62-66 | stripping '#' and looking the name up gives 0 0 1 1 2 3 3 4 4 5 5 6 |
| PianoKeys.SharpSharesNaturalsWhiteKey | src/utils/pianoKeys.ts:62-66 | a sharp has the white-key index of the natural just below it |
| PianoKeys.WhiteKeysInOrder | src/utils/pianoKeys.ts:62-66 | the naturals of an octave have strictly increasing white-key indices |
| PianoKeys.KeySlot | src/utils/pianoKeys.ts:35-39 | a key's column lies in the seven columns of its octave, at the white key of its letter |
| PianoKeys.KeyZIndex | src/utils/pianoKeys.ts:45-57 | zIndex 10 exactly for black keys and 1 exactly for white keys |
| PianoKeys.BlackKeysDrawnAbove | src/utils/pianoKeys.ts:45-57 | black keys get a higher zIndex than white keys, and keys of one colour share one |
| PianoKeys.KeySlotAt | src/utils/pianoKeys.ts:35-39 | key i's column is its white-key index plus 7 for the second octave |
| PianoKeys.WhiteKeysLeftToRight | src/utils/pianoKeys.ts:35-53 | the white keys fill columns 0 to 13 in key order |
| PianoKeys.BlackKeyOverPrecedingWhite | src/utils/pianoKeys.ts:35-53 | every black key follows a white key and shares its column |
| KeyboardControls.NoteForKey | src/hooks/useKeyboardControls.ts:47 | a note exactly for the one-character layout keys, and the key is the one listed for that note |
| KeyboardControls.InversionDigit | src/hooks/useKeyboardControls.ts:70-71 | a value exactly for "1", "2", "3", and it is the digit's value |
| KeyboardControls.KeyRolesDisjoint | src/hooks/useKeyboardControls.ts:47-83 | a key is at most one of: note key, inversion digit, '7' |
| KeyboardControls.ShiftedLetterPlaysSameNote | src/hooks/useKeyboardControls.ts:46-47 | by the lower-casing, a shifted letter looks up the same note |
| KeyboardControls.SoundingAppend | src/hooks/useKeyboardControls.ts:62-109 | one more callback changes the held chords by that callback's step |
| KeyboardControls.LastTouch | src/hooks/useKeyboardControls.ts:62-109 | the last chord play or stop on a voice, with none after it |
| KeyboardControls.SoundingIsLastPlay | src/hooks/useKeyboardControls.ts:62-109 | a voice is held exactly when its last chord callback was a play, and is held with that play's inversion and type |
| KeyboardControls.PlayThenRecord | src/hooks/useKeyboardControls.ts:60-65 | a chord play and its recording report hold the played chord on its voice |
| KeyboardControls.NonChordCallbacksKeepHeld | src/hooks/useKeyboardControls.ts:54-65 | note plays and stops and recording reports leave the held chords alone |
| KeyboardControls.ReleaseUsesPressParameters | src/hooks/useKeyboardControls.ts:104-109 | a held voice's entry carries the inversion and type of the press that started it |
| KeyboardControls.ShiftReleasedBeforeKey | src/hooks/useKeyboardControls.ts:50-109 | pressing A with shift and releasing it after shift plays C5 but stops C4, and C5 stays held |
| KeyboardControls.KeyboardEffect.Octave | src/hooks/useKeyboardControls.ts:50-52 | octave `5 + octaveShift` exactly with shift, `4 + octaveShift` exactly without |
| KeyboardControls.KeyboardEffect.Current | src/hooks/useKeyboardControls.ts:58-59 | each override when it is set, otherwise the selection |
| KeyboardControls.KeyboardEffect.constructor | src/hooks/useKeyboardControls.ts:35-38 | a fresh effect run: the configuration, no overrides, nothing held |
| KeyboardControls.KeyboardEffect.KeyDown | src/hooks/useKeyboardControls.ts:40-84 | form-field events change nothing; a repeated note key plays nothing and leaves the table alone; a note key plays at `4 + octaveShift` (+1 with shift); digits and '7' set the overrides in chord mode only, repeats included; the invariant is kept |
| KeyboardControls.KeyboardEffect.PressNote | src/hooks/useKeyboardControls.ts:54-55 | note mode: exactly one NotePlay, no other state change |
| KeyboardControls.KeyboardEffect.PressChord | src/hooks/useKeyboardControls.ts:56-66 | chord mode: ChordPlay with each override if set, else the selection, then AddToRecording with isBlack = '#' in note; the parameters are stored under the voice |
| KeyboardControls.KeyboardEffect.PressControl | src/hooks/useKeyboardControls.ts:69-83 | a digit 1-3 sets the inversion override only when <= getMaxInversions(); '7' sets the type override to the seventh of the selected type; no callback |
| KeyboardControls.KeyboardEffect.KeyUp | src/hooks/useKeyboardControls.ts:86-122 | form-field events change nothing; a note key stops the note or chord; digits and '7' clear their override in chord mode |
| KeyboardControls.KeyboardEffect.ReleaseNote | src/hooks/useKeyboardControls.ts:100-101 | note mode: exactly one NoteStop, no other state change |
| KeyboardControls.KeyboardEffect.ReleaseChord | src/hooks/useKeyboardControls.ts:102-110 | chord mode: ChordStop with the stored parameters, or the selection when none are stored; only that voice's entry is removed |
| KeyboardControls.KeyboardEffect.ReleaseControl | src/hooks/useKeyboardControls.ts:113-121 | a digit 1-3 clears the inversion override, '7' the type override; no callback |
| App.MaxInversionsOf | src/App.tsx:91-94 | the row's tone count minus 1: 2 for triads, 3 for sevenths |
| App.ChordPitches | src/App.tsx:138-145 | one pitch per tone of the selected row |
| App.ReleaseMatchesAttackIffSelectionUnchanged | src/App.tsx:151-164 | for valid inversions, `stopChord` releases what `playChord` attacked exactly when the chord type and inversion are unchanged |
| App.GeneratePianoKeys | src/App.tsx:64-86 | 24 keys; key i is the unshifted keyboard's key i, with globalIndex i |
| App.WhiteKeyMapIsTable | src/App.tsx:205 | the component's written-out `whiteKeyMap` is the table of white keys that stripping the sharp yields |
| App.WhiteKeyIndex | src/App.tsx:204-207 | the written-out `whiteKeyMap` agrees with the sharp-stripping lookup for all 12 notes |
| App.KeySlot | src/App.tsx:187-189 | the component's column equals the keyboard module's column |
| App.KeyZIndex | src/App.tsx:191-200 | zIndex 2 exactly for black keys and 1 exactly for white keys |
| App.ZIndexOrderAgrees | src/App.tsx:191-200 | zIndex 2/1 stacks keys in the same order as 10/1: black above white |
| App.PianoApp.InversionOptions | src/App.tsx:263-267 | the menu lists 0 .. getMaxInversions() in order, and nothing else |
| App.PianoApp.constructor | src/App.tsx:36-39 | no synthesizer, major, root position, chord mode |
| App.PianoApp.AttachSynth | src/App.tsx:43-61 | the synthesizer becomes present; nothing else changes |
| App.PianoApp.SelectChordType | src/App.tsx:243-246 | sets the type and resets the inversion to 0, keeping the inversion within range |
| App.PianoApp.SelectInversion | src/App.tsx:261 | sets the inversion to a menu value, keeping it within range |
| App.PianoApp.SelectPlayMode | src/App.tsx:229 | sets the play mode only |
| App.PianoApp.PlayNote | src/App.tsx:110-120 | attacks the single pitch, or does nothing without a synthesizer |
| App.PianoApp.StopNote | src/App.tsx:123-127 | releases the single pitch, or does nothing without a synthesizer |
| App.PianoApp.PlayChord | src/App.tsx:130-148 | attacks the selected row, inverted by the selected inversion, above the root; nothing without a synthesizer |
| App.PianoApp.StopChord | src/App.tsx:151-164 | releases the chord as selected at release time; nothing without a synthesizer |
| App.PianoApp.SelectedChordNotes | src/App.tsx:138-145 | `applyInversion` then the interval-to-pitch map give `ChordPitches` of the selection |
| App.PianoApp.HandleKeyPress | src/App.tsx:167-173 | note mode plays the note, chord mode plays the chord |
| App.PianoApp.HandleKeyRelease | src/App.tsx:176-182 | note mode stops the note, chord mode stops the chord |

The application component repeats `applyInversion` (src/App.tsx:97-107) and `getOrdinalSuffix` (src/App.tsx:314-327) with the same bodies as in src/utils/music.ts. Those copies are modelled by `MusicUtils.ApplyInversion` and `MusicUtils.OrdinalSuffix`, and `PianoApp.SelectedChordNotes` calls the former. The component's `NOTES`, `OCTAVES` and `CHORD_TYPES` (src/App.tsx:6-19) are equal to the constants file's tables and are modelled by them.

On the keyboard, mouse-leave calls the same `handleKeyRelease` as mouse-up (src/App.tsx:283-285), so `PianoApp.HandleKeyRelease` models both.

A voice can stay stuck in the keyboard controller. The key-up handler computes the octave from the shift state at release time, and the voice key contains that octave. Say a note key is pressed with shift held and shift is let go before the note key. Then the release looks up the unshifted octave:
- it stops a chord at the wrong pitch, with the parameters stored for that pitch, or the selected ones when none are stored;
- the entry stored at press time stays in the table.

`ReleaseChord`'s contract states exactly this: it removes only the entry for the octave of the release. `KeyboardControls.ShiftReleasedBeforeKey` plays the sequence through from a fresh effect run.

## Left out

- Audio through Tone.js is not modelled: synthesizer and sampler construction, `Tone.start` and the audio-context check, `dispose`, sample URLs. A `triggerAttack`/`triggerRelease` is an entry in the ghost `audio` log, written as if the awaited `Tone.start` had already finished.
- `Tone.Frequency` and every floating-point layout value are out: key frequencies, `left` percentages, black-key offsets and key widths. `PianoKey` carries no frequency; only integer columns and zIndex values are modelled.
- DOM and React plumbing is not modelled: event-listener registration and removal, effect scheduling, rendering. A new `KeyboardEffect` object stands for each effect run. A run's held-chord table is lost when a dependency changes, as it is in the source.
- Events are given by their fields: the key string, `shiftKey`, `repeat`, and whether the target is an input, textarea or select.
- The bodies of `onAddToRecording`, `getMaxInversions` and `addSeventhToChordType` are not part of this model; the last two are function values fixed at construction. The hook's `isRecording` parameter is unused apart from the dependency list, and the component's `isPlaying` state is never read.
- Recording and playback are not modelled, because the source contains no sequencer: src/types/music.ts declares only the `RecordedChord` shape.
- src/services/audioService.ts is not part of this model. It wraps the sampler, and its only logic combines `applyInversion` and `generateChordNotes`, which are modelled.
- src/hooks/useAudioSampler.ts is not part of this model. It creates the `Tone.Sampler`, builds its sample-URL table (every sampled note in octaves 0 to 8, with '#' spelled "sharp"), and plays and releases lists of notes. All of this is audio-layer work, left out with Tone.js above.
- Notes are the datatype `Note`, not strings. A name outside NOTES, for which `NOTES.indexOf` gives -1, cannot reach the modelled functions, so that path of `generateChordNotes` and `mapNoteToAvailableSample` is not modelled. `abbreviateChord`'s `default` branch is unreachable for the same reason.
- Pitch strings are `(note, octave)` pairs. Number-to-string conversion is not modelled.
- `toLowerCase` is ASCII lower-casing. Keys that only JavaScript's property lookup would find on a plain object (inherited properties) are not modelled: no key value names one once lower-cased.
- MusicUtils.ApplyInversion: requires a non-empty list for a positive inversion. On an empty list `shift()!` would push `undefined + 12`, which is NaN.
- MusicUtils.GenerateChordNotes: requires non-negative intervals, where JavaScript `%` and `Math.floor` agree with Dafny's `%` and `/`. Every interval list in the source is non-negative.
- App.ChordPitches: states only the length; what the pitches are follows from `MusicUtils.GenerateChordNotes` and `MusicUtils.Inverted`, which it is built from.

## Findings

| source | as written | input that shows it | evidently intended | confidence | as-written member | corrected member |
|---|---|---|---|---|---|---|
| src/utils/music.ts:117-118 | `octaveDiff = Math.floor((noteIndex - closestIndex) / 12)` lowers the octave whenever the chosen sample lies above the note. The search compares positions inside one octave, so the sample it picks is always in the note's own octave. | note D, octave 4: the nearest sample is D#, one position up, and the result is D#3, eleven semitones below D4, although D#4 is one semitone above | the nearest sample in the note's octave: D4 maps to D#4, and every note lands within two semitones of a sample | medium, not executed (`mapNoteToAvailableSample` is imported by none of src/App.tsx, src/hooks/useKeyboardControls.ts, src/hooks/useAudioSampler.ts, src/services/audioService.ts) | MusicUtils.SampleAboveDropsAnOctave | MusicUtils.MapNoteToNearestSample |
