/** The fixed tables of the piano: note names, octaves, chord rows,
    play modes, the computer-keyboard layout and the sampled notes. */
module MusicConstants {
  import opened JsBuiltins

  /** The twelve names that NOTES lists, one per pitch class; every note
      the piano handles is one of them. */
  datatype Note = C | CSharp | D | DSharp | E | F | FSharp | G | GSharp | A | ASharp | B

  /** The name string of a note, sharp-spelled. */
  function Name(n: Note): string {
    match n
    case C => "C" case CSharp => "C#" case D => "D" case DSharp => "D#"
    case E => "E" case F => "F" case FSharp => "F#" case G => "G"
    case GSharp => "G#" case A => "A" case ASharp => "A#" case B => "B"
  }

  /** The twelve pitch classes from C. */
  const NOTES: seq<Note> := [C, CSharp, D, DSharp, E, F, FSharp, G, GSharp, A, ASharp, B]

  /** The octaves shown on the keyboard before any octave shift. */
  const OCTAVES: seq<int> := [4, 5]

  /** The eight named rows of the chord table. */
  datatype ChordType =
    | Major | Minor | Diminished | Augmented
    | Major7 | Minor7 | Dominant7 | Diminished7

  /** `CHORD_TYPES[t]`: the row's semitone offsets from the root. Every row
      is in root position; the four triads have three tones and the four
      sevenths four. */
  function ChordIntervals(t: ChordType): (r: seq<int>)
    ensures RootPositionRow(r)
    ensures |r| == if IsSeventhRow(t) then 4 else 3
  {
    match t
    case Major => [0, 4, 7]
    case Minor => [0, 3, 7]
    case Diminished => [0, 3, 6]
    case Augmented => [0, 4, 8]
    case Major7 => [0, 4, 7, 11]
    case Minor7 => [0, 3, 7, 10]
    case Dominant7 => [0, 4, 7, 10]
    case Diminished7 => [0, 3, 6, 9]
  }

  predicate IsSeventhRow(t: ChordType) {
    t.Major7? || t.Minor7? || t.Dominant7? || t.Diminished7?
  }

  /** `PLAY_MODES`: a press sounds one note or a whole chord. */
  datatype PlayMode = NoteMode | ChordMode

  /** `KEY_TO_NOTE`: the home row plays the naturals, the row above the
      sharps. Every key of the table is one character, so the keys are `char`s. */
  const KEY_TO_NOTE: map<char, Note> := map[
    'a' := C, 's' := D, 'd' := E, 'f' := F, 'g' := G, 'h' := A, 'j' := B,
    'w' := CSharp, 'e' := DSharp, 't' := FSharp, 'y' := GSharp, 'u' := ASharp]

  /** The notes for which a piano sample exists. */
  const AVAILABLE_SAMPLES: seq<Note> := [A, C, DSharp, FSharp]

  /** `note.includes('#')`: the note is a black key. */
  predicate IsSharp(n: Note) {
    '#' in Name(n)
  }

  /** A row in root position: starts at the root, rises strictly, stays inside one octave. */
  predicate RootPositionRow(s: seq<int>) {
    && |s| > 0 && s[0] == 0
    && (forall i :: 0 < i < |s| ==> s[i - 1] < s[i])
    && (forall i :: 0 <= i < |s| ==> 0 <= s[i] < 12)
  }

  /** NOTES is the chromatic scale from C: each of the twelve notes once,
      the naturals C D E F G A B at semitones 0 2 4 5 7 9 11, and each of
      the other five named as the natural below it with a sharp. */
  lemma NotesAreChromatic()
    ensures |NOTES| == 12 && Distinct(NOTES)
    ensures forall n: Note :: n in NOTES
    ensures Name(NOTES[0]) == "C" && Name(NOTES[2]) == "D" && Name(NOTES[4]) == "E" && Name(NOTES[5]) == "F"
    ensures Name(NOTES[7]) == "G" && Name(NOTES[9]) == "A" && Name(NOTES[11]) == "B"
    ensures forall i :: 0 <= i < |NOTES| ==> (IsSharp(NOTES[i]) <==> i in {1, 3, 6, 8, 10})
    ensures forall i :: 0 < i < |NOTES| && IsSharp(NOTES[i]) ==> Name(NOTES[i]) == Name(NOTES[i - 1]) + "#"
    ensures forall i :: 0 <= i < |NOTES| && !IsSharp(NOTES[i]) ==> |Name(NOTES[i])| == 1
  {
    forall n: Note
      ensures n in NOTES
    {
      match n
      case C => assert NOTES[0] == n;
      case CSharp => assert NOTES[1] == n;
      case D => assert NOTES[2] == n;
      case DSharp => assert NOTES[3] == n;
      case E => assert NOTES[4] == n;
      case F => assert NOTES[5] == n;
      case FSharp => assert NOTES[6] == n;
      case G => assert NOTES[7] == n;
      case GSharp => assert NOTES[8] == n;
      case A => assert NOTES[9] == n;
      case ASharp => assert NOTES[10] == n;
      case B => assert NOTES[11] == n;
    }
  }

  /** No two notes share a name, so the pitch string `${note}${octave}`
      can stand for the pair of note and octave. */
  lemma NamesDistinct(m: Note, n: Note)
    ensures Name(m) == Name(n) <==> m == n
  {
  }

  /** `NOTES.indexOf(n)`: the position of a note in NOTES, which is its
      number of semitones above C. */
  function NoteIndex(n: Note): (i: int)
    ensures 0 <= i < |NOTES| && NOTES[i] == n
  {
    match n
    case C => 0 case CSharp => 1 case D => 2 case DSharp => 3 case E => 4 case F => 5
    case FSharp => 6 case G => 7 case GSharp => 8 case A => 9 case ASharp => 10 case B => 11
  }

  /** The position of a note is what `NOTES.indexOf` returns for it. */
  lemma NoteIndexIsIndexOf(n: Note)
    ensures NoteIndex(n) == IndexOf(NOTES, n)
  {
    NotesAreChromatic();
    IndexOfDistinct(NOTES, NoteIndex(n));
  }

  /** Positions and notes correspond one to one. */
  lemma NotesIndexed()
    ensures |NOTES| == 12
    ensures forall i :: 0 <= i < |NOTES| ==> NoteIndex(NOTES[i]) == i
  {
    NotesAreChromatic();
  }

  /** Exactly five of the twelve pitch classes are black keys. */
  lemma FiveSharps()
    ensures |set i | 0 <= i < |NOTES| && IsSharp(NOTES[i])| == 5
  {
    NotesAreChromatic();
    assert (set i | 0 <= i < |NOTES| && IsSharp(NOTES[i])) == {1, 3, 6, 8, 10};
  }

  /** The seventh rows extend the triad rows: major7, minor7 and
      diminished7 add 11, 10 and 9 to their triads, dominant7 adds 10 to
      the major triad. */
  lemma SeventhRowsExtendTriads()
    ensures ChordIntervals(Major7) == ChordIntervals(Major) + [11]
    ensures ChordIntervals(Minor7) == ChordIntervals(Minor) + [10]
    ensures ChordIntervals(Diminished7) == ChordIntervals(Diminished) + [9]
    ensures ChordIntervals(Dominant7) == ChordIntervals(Major) + [10]
  {
  }

  /** No two rows of the chord table are the same chord. */
  lemma ChordRowsDistinct(t1: ChordType, t2: ChordType)
    ensures ChordIntervals(t1) == ChordIntervals(t2) ==> t1 == t2
  {
  }

  /** The key that plays each note, in the order of NOTES. */
  const KEY_FOR_NOTE: string := "awsedftgyhuj"

  /** The position in NOTES of the note a key plays. */
  function NoteIndexOfKey(k: char): int {
    match k
    case 'a' => 0 case 'w' => 1 case 's' => 2 case 'e' => 3 case 'd' => 4 case 'f' => 5
    case 't' => 6 case 'g' => 7 case 'y' => 8 case 'h' => 9 case 'u' => 10 case 'j' => 11
    case _ => -1
  }

  /** One key of the layout: it plays a note of the scale, and it is the
      key listed for that note. */
  lemma KeyPlaysNote(k: char)
    requires k in KEY_TO_NOTE
    ensures 0 <= NoteIndexOfKey(k) < |NOTES|
    ensures KEY_TO_NOTE[k] == NOTES[NoteIndexOfKey(k)] && KEY_FOR_NOTE[NoteIndexOfKey(k)] == k
  {
    assert KEY_TO_NOTE.Keys == {'a', 's', 'd', 'f', 'g', 'h', 'j', 'w', 'e', 't', 'y', 'u'};
  }

  /** No two keys of the layout play the same note. */
  lemma KeyToNoteInjective()
    ensures forall k1, k2 :: k1 in KEY_TO_NOTE && k2 in KEY_TO_NOTE && k1 != k2 ==> KEY_TO_NOTE[k1] != KEY_TO_NOTE[k2]
  {
    NotesAreChromatic();
    forall k1, k2 | k1 in KEY_TO_NOTE && k2 in KEY_TO_NOTE && KEY_TO_NOTE[k1] == KEY_TO_NOTE[k2]
      ensures k1 == k2
    {
      KeyPlaysNote(k1);
      KeyPlaysNote(k2);
    }
  }

  /** Every note of the scale has its key. */
  lemma NoteHasKey(i: int)
    requires 0 <= i < |NOTES|
    ensures KEY_FOR_NOTE[i] in KEY_TO_NOTE && KEY_TO_NOTE[KEY_FOR_NOTE[i]] == NOTES[i]
  {
    assert KEY_FOR_NOTE[i] in KEY_TO_NOTE.Keys;
  }

  /** The layout plays every note of the scale and nothing else: its image
      is exactly NOTES. */
  lemma KeyToNoteOnto()
    ensures KEY_TO_NOTE.Values == set i | 0 <= i < |NOTES| :: NOTES[i]
  {
    forall k | k in KEY_TO_NOTE
      ensures KEY_TO_NOTE[k] in NOTES
    {
      KeyPlaysNote(k);
    }
    forall i | 0 <= i < |NOTES|
      ensures NOTES[i] in KEY_TO_NOTE.Values
    {
      NoteHasKey(i);
    }
  }

  /** The sampled notes are the notes of the scale at positions 9, 0, 3 and 6. */
  lemma SamplesAreNotes()
    ensures AVAILABLE_SAMPLES == [NOTES[9], NOTES[0], NOTES[3], NOTES[6]]
    ensures Distinct(AVAILABLE_SAMPLES)
  {
  }
}
