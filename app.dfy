/** The application component: its selection state (chord type, inversion
    and play mode), the press and release dispatch to the synthesizer, its
    own key list and the integer part of its key layout. */
module App {
  import opened MusicTypes
  import M = MusicConstants
  import MusicUtils
  import PianoKeys

  /** A call on the synthesizer: `triggerAttack` or `triggerRelease` of
      some pitches (a single note is a list of one). */
  datatype AudioCall = Attack(pitches: seq<Pitch>) | Release(pitches: seq<Pitch>)

  /** `getMaxInversions` for a row of the chord table: one less than its
      number of tones. */
  function MaxInversionsOf(t: M.ChordType): (r: int)
    ensures r == (if M.IsSeventhRow(t) then 3 else 2)
  {
    |M.ChordIntervals(t)| - 1
  }

  /** The pitches `playChord` and `stopChord` compute: the row of `t`,
      inverted `inversion` times, realised above `root` at `octave`. */
  function ChordPitches(root: M.Note, octave: int, t: M.ChordType, inversion: int): (r: seq<Pitch>)
    ensures |r| == |M.ChordIntervals(t)|
  {
    MusicUtils.InvertedStaysNonNegative(M.ChordIntervals(t), inversion);
    MusicUtils.GenerateChordNotes(root, MusicUtils.Inverted(M.ChordIntervals(t), inversion), octave)
  }

  /** `stopChord` recomputes the pitches from the selection at release
      time, so it releases what `playChord` attacked exactly when the
      chord type and inversion are the same at both moments. */
  lemma ReleaseMatchesAttackIffSelectionUnchanged(root: M.Note, octave: int,
                                                  t1: M.ChordType, i1: int, t2: M.ChordType, i2: int)
    requires 0 <= i1 <= MaxInversionsOf(t1) && 0 <= i2 <= MaxInversionsOf(t2)
    ensures ChordPitches(root, octave, t1, i1) == ChordPitches(root, octave, t2, i2) <==> t1 == t2 && i1 == i2
  {
    var xs, ys := M.ChordIntervals(t1), M.ChordIntervals(t2);
    if ChordPitches(root, octave, t1, i1) == ChordPitches(root, octave, t2, i2) {
      MusicUtils.InvertedStaysNonNegative(xs, i1);
      MusicUtils.InvertedStaysNonNegative(ys, i2);
      MusicUtils.ChordNotesDetermineIntervals(root, MusicUtils.Inverted(xs, i1), MusicUtils.Inverted(ys, i2), octave);
      MusicUtils.InvertedDeterminesChord(xs, i1, ys, i2);
      M.ChordRowsDistinct(t1, t2);
    }
  }

  /** The component's `generatePianoKeys`: for each octave of OCTAVES, one
      key per note of the scale, numbered by a running counter. */
  method GeneratePianoKeys() returns (keys: seq<PianoKey>)
    ensures |keys| == |M.OCTAVES| * |M.NOTES|
    ensures forall i :: 0 <= i < |keys| ==> keys[i] == PianoKeys.KeyAt(0, i)
  {
    keys := [];
    var globalIndex := 0;
    for o := 0 to |M.OCTAVES|
      invariant |keys| == 12 * o && globalIndex == |keys|
      invariant forall i :: 0 <= i < |keys| ==> keys[i] == PianoKeys.KeyAt(0, i)
    {
      var octave := M.OCTAVES[o];
      for noteIndex := 0 to |M.NOTES|
        invariant |keys| == 12 * o + noteIndex && globalIndex == |keys|
        invariant forall i :: 0 <= i < |keys| ==> keys[i] == PianoKeys.KeyAt(0, i)
      {
        var note := M.NOTES[noteIndex];
        PianoKeys.BlockPosition(o, noteIndex);
        keys := keys + [PianoKey(note, M.IsSharp(note), octave, globalIndex)];
        globalIndex := globalIndex + 1;
      }
    }
  }

  /** The component's `whiteKeyMap`: the white key of each position of NOTES. */
  const WHITE_KEY_MAP: seq<int> := [0, 0, 1, 1, 2, 3, 3, 4, 4, 5, 5, 6]

  /** The component writes out the same table the keyboard module computes. */
  lemma WhiteKeyMapIsTable()
    ensures WHITE_KEY_MAP == PianoKeys.WHITE_KEY_OF_NOTE
  {
  }

  /** The component's `getWhiteKeyIndex`: a lookup in `whiteKeyMap`, which
      agrees with stripping the sharp and finding the letter. */
  function WhiteKeyIndex(noteIndex: int): (r: int)
    requires 0 <= noteIndex < |M.NOTES|
    ensures r == PianoKeys.WhiteKeyIndex(noteIndex)
  {
    WhiteKeyMapIsTable();
    PianoKeys.WhiteKeyTable(noteIndex);
    WHITE_KEY_MAP[noteIndex]
  }

  /** The integer column of a key in the component's `getKeyPosition`,
      counted from the first octave of OCTAVES; it is the same column as
      in the keyboard module's layout. */
  function KeySlot(key: PianoKey): (r: int)
    ensures r == PianoKeys.KeySlot(key)
  {
    WhiteKeyIndex(M.NoteIndex(key.note)) + (key.octave - M.OCTAVES[0]) * 7
  }

  /** The `zIndex` of the component's `getKeyPosition`. */
  function KeyZIndex(key: PianoKey): (r: int)
    ensures r > 0
    ensures r == 2 <==> key.isBlack
    ensures r == 1 <==> !key.isBlack
  {
    if key.isBlack then 2 else 1
  }

  /** The component stacks keys with other numbers than the keyboard
      module, but in the same order: black keys above white ones. */
  lemma ZIndexOrderAgrees(a: PianoKey, b: PianoKey)
    ensures KeyZIndex(a) < KeyZIndex(b) <==> PianoKeys.KeyZIndex(a) < PianoKeys.KeyZIndex(b)
    ensures KeyZIndex(a) > KeyZIndex(b) <==> a.isBlack && !b.isBlack
  {
  }

  /** The component's state and the calls it makes on the synthesizer. */
  class PianoApp {
    /** Whether the synthesizer has been created yet (`synth !== null`). */
    var hasSynth: bool
    var selectedChordType: M.ChordType
    var selectedInversion: int
    var playMode: M.PlayMode
    /** Every call made on the synthesizer so far, in order. */
    ghost var audio: seq<AudioCall>

    /** `getMaxInversions` for the selected chord type. */
    function MaxInversions(): int
      reads this
    {
      MaxInversionsOf(selectedChordType)
    }

    /** The values the inversion menu offers: 0 to `getMaxInversions()`. */
    function InversionOptions(): (r: seq<int>)
      reads this
      ensures |r| == MaxInversions() + 1
      ensures forall i :: 0 <= i < |r| ==> r[i] == i
      ensures forall v :: v in r <==> 0 <= v <= MaxInversions()
    {
      var m := MaxInversions();
      var r := seq(m + 1, i => i);
      forall v | 0 <= v <= m
        ensures v in r
      {
        assert r[v] == v;
      }
      assert forall v :: v in r ==> 0 <= v <= m by {
        forall v | v in r
          ensures 0 <= v <= m
        {
          var i :| 0 <= i < |r| && r[i] == v;
        }
      }
      r
    }

    /** The selected inversion is one the selected chord type has. */
    ghost predicate Valid()
      reads this
    {
      0 <= selectedInversion <= MaxInversions()
    }

    /** The initial state: no synthesizer yet, major, root position, chord mode. */
    constructor()
      ensures !hasSynth && selectedChordType == M.ChordType.Major && selectedInversion == 0
      ensures playMode == M.ChordMode && audio == []
      ensures Valid()
    {
      hasSynth := false;
      selectedChordType := M.ChordType.Major;
      selectedInversion := 0;
      playMode := M.ChordMode;
      audio := [];
    }

    /** The mount effect's `setSynth`. */
    method AttachSynth()
      requires Valid()
      modifies this
      ensures Valid() && hasSynth
      ensures selectedChordType == old(selectedChordType) && selectedInversion == old(selectedInversion)
      ensures playMode == old(playMode) && audio == old(audio)
    {
      hasSynth := true;
    }

    /** The chord-type menu: selecting a type resets the inversion to root
        position, which every type has. */
    method SelectChordType(t: M.ChordType)
      requires Valid()
      modifies this
      ensures Valid()
      ensures selectedChordType == t && selectedInversion == 0
      ensures hasSynth == old(hasSynth) && playMode == old(playMode) && audio == old(audio)
    {
      selectedChordType := t;
      selectedInversion := 0;
    }

    /** The inversion menu, whose values are the options it lists. */
    method SelectInversion(v: int)
      requires Valid() && v in InversionOptions()
      modifies this
      ensures Valid()
      ensures selectedInversion == v
      ensures hasSynth == old(hasSynth) && selectedChordType == old(selectedChordType)
      ensures playMode == old(playMode) && audio == old(audio)
    {
      selectedInversion := v;
    }

    /** The play-mode menu. */
    method SelectPlayMode(m: M.PlayMode)
      requires Valid()
      modifies this
      ensures Valid()
      ensures playMode == m
      ensures hasSynth == old(hasSynth) && selectedChordType == old(selectedChordType)
      ensures selectedInversion == old(selectedInversion) && audio == old(audio)
    {
      playMode := m;
    }

    /** `playNote`: attacks the one pitch, or does nothing without a synthesizer. */
    method PlayNote(note: M.Note, octave: int)
      modifies this
      ensures audio == old(audio) + (if hasSynth then [Attack([Pitch(note, octave)])] else [])
      ensures hasSynth == old(hasSynth) && selectedChordType == old(selectedChordType)
      ensures selectedInversion == old(selectedInversion) && playMode == old(playMode)
    {
      if !hasSynth {
        return;
      }
      audio := audio + [Attack([Pitch(note, octave)])];
    }

    /** `stopNote`: releases the one pitch, or does nothing without a synthesizer. */
    method StopNote(note: M.Note, octave: int)
      modifies this
      ensures audio == old(audio) + (if hasSynth then [Release([Pitch(note, octave)])] else [])
      ensures hasSynth == old(hasSynth) && selectedChordType == old(selectedChordType)
      ensures selectedInversion == old(selectedInversion) && playMode == old(playMode)
    {
      if !hasSynth {
        return;
      }
      audio := audio + [Release([Pitch(note, octave)])];
    }

    /** `playChord`: attacks the selected chord, in the selected inversion,
        on `rootNote` at `octave`; nothing without a synthesizer. */
    method PlayChord(rootNote: M.Note, octave: int)
      modifies this
      ensures audio == old(audio) +
        (if hasSynth then [Attack(ChordPitches(rootNote, octave, selectedChordType, selectedInversion))] else [])
      ensures hasSynth == old(hasSynth) && selectedChordType == old(selectedChordType)
      ensures selectedInversion == old(selectedInversion) && playMode == old(playMode)
    {
      if !hasSynth {
        return;
      }
      var chordNotes := SelectedChordNotes(rootNote, octave);
      audio := audio + [Attack(chordNotes)];
    }

    /** `stopChord`: releases the selected chord as it is selected now;
        nothing without a synthesizer. */
    method StopChord(rootNote: M.Note, octave: int)
      modifies this
      ensures audio == old(audio) +
        (if hasSynth then [Release(ChordPitches(rootNote, octave, selectedChordType, selectedInversion))] else [])
      ensures hasSynth == old(hasSynth) && selectedChordType == old(selectedChordType)
      ensures selectedInversion == old(selectedInversion) && playMode == old(playMode)
    {
      if !hasSynth {
        return;
      }
      var chordNotes := SelectedChordNotes(rootNote, octave);
      audio := audio + [Release(chordNotes)];
    }

    /** The pitch list both `playChord` and `stopChord` build: the selected
        row, inverted by the loop of `applyInversion`, then mapped to pitches. */
    method SelectedChordNotes(rootNote: M.Note, octave: int) returns (chordNotes: seq<Pitch>)
      ensures chordNotes == ChordPitches(rootNote, octave, selectedChordType, selectedInversion)
    {
      var chordIntervals := M.ChordIntervals(selectedChordType);
      var invertedIntervals := MusicUtils.ApplyInversion(chordIntervals, selectedInversion);
      MusicUtils.InvertedStaysNonNegative(chordIntervals, selectedInversion);
      chordNotes := MusicUtils.GenerateChordNotes(rootNote, invertedIntervals, octave);
    }

    /** `handleKeyPress` (mouse down): a note or a chord by play mode. */
    method HandleKeyPress(key: PianoKey)
      modifies this
      ensures audio == old(audio) +
        (if !hasSynth then []
         else if playMode == M.NoteMode then [Attack([Pitch(key.note, key.octave)])]
         else [Attack(ChordPitches(key.note, key.octave, selectedChordType, selectedInversion))])
      ensures hasSynth == old(hasSynth) && selectedChordType == old(selectedChordType)
      ensures selectedInversion == old(selectedInversion) && playMode == old(playMode)
    {
      if playMode == M.NoteMode {
        PlayNote(key.note, key.octave);
      } else {
        PlayChord(key.note, key.octave);
      }
    }

    /** `handleKeyRelease` (mouse up, and mouse leaving the key): stops a
        note or a chord by play mode. */
    method HandleKeyRelease(key: PianoKey)
      modifies this
      ensures audio == old(audio) +
        (if !hasSynth then []
         else if playMode == M.NoteMode then [Release([Pitch(key.note, key.octave)])]
         else [Release(ChordPitches(key.note, key.octave, selectedChordType, selectedInversion))])
      ensures hasSynth == old(hasSynth) && selectedChordType == old(selectedChordType)
      ensures selectedInversion == old(selectedInversion) && playMode == old(playMode)
    {
      if playMode == M.NoteMode {
        StopNote(key.note, key.octave);
      } else {
        StopChord(key.note, key.octave);
      }
    }
  }
}
