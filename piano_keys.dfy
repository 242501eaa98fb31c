/** The on-screen keyboard: the list of keys and the integer parts of
    their layout (white-key slot and stacking order). */
module PianoKeys {
  import opened JsBuiltins
  import opened MusicTypes
  import M = MusicConstants

  /** Key `i` of the keyboard built for `octaveShift`: note `i % 12` of the
      scale, in octave `OCTAVES[i / 12]` shifted, numbered `i`. */
  function KeyAt(octaveShift: int, i: int): PianoKey
    requires 0 <= i < |M.OCTAVES| * |M.NOTES|
  {
    var note := M.NOTES[i % 12];
    PianoKey(note, M.IsSharp(note), M.OCTAVES[i / 12] + octaveShift, i)
  }

  /** Positions in a 12-note row: `12 * o + n` is note `n` of block `o`. */
  lemma BlockPosition(o: int, n: int)
    requires 0 <= o && 0 <= n < 12
    ensures (12 * o + n) % 12 == n && (12 * o + n) / 12 == o
  {
  }

  /** `generatePianoKeys`: for each shifted octave in order, one key per
      note of the scale, numbered by a running counter. */
  method GeneratePianoKeys(octaveShift: int) returns (keys: seq<PianoKey>)
    ensures |keys| == |M.OCTAVES| * |M.NOTES|
    ensures forall i :: 0 <= i < |keys| ==> keys[i] == KeyAt(octaveShift, i)
  {
    keys := [];
    var globalIndex := 0;
    var shiftedOctaves := seq(|M.OCTAVES|, j requires 0 <= j < |M.OCTAVES| => M.OCTAVES[j] + octaveShift);
    for o := 0 to |shiftedOctaves|
      invariant |keys| == 12 * o && globalIndex == |keys|
      invariant forall i :: 0 <= i < |keys| ==> keys[i] == KeyAt(octaveShift, i)
    {
      var octave := shiftedOctaves[o];
      for noteIndex := 0 to |M.NOTES|
        invariant |keys| == 12 * o + noteIndex && globalIndex == |keys|
        invariant forall i :: 0 <= i < |keys| ==> keys[i] == KeyAt(octaveShift, i)
      {
        var note := M.NOTES[noteIndex];
        var isBlack := M.IsSharp(note);
        BlockPosition(o, noteIndex);
        keys := keys + [PianoKey(note, isBlack, octave, globalIndex)];
        globalIndex := globalIndex + 1;
      }
    }
  }

  /** The keyboard has 24 keys, each numbered by its position, and no two
      of them are the same note in the same octave. */
  lemma KeysAreDistinctPitches(octaveShift: int, i: int, j: int)
    requires 0 <= i < 24 && 0 <= j < 24
    ensures |M.OCTAVES| * |M.NOTES| == 24
    ensures KeyAt(octaveShift, i).globalIndex == i
    ensures (KeyAt(octaveShift, i).note == KeyAt(octaveShift, j).note
             && KeyAt(octaveShift, i).octave == KeyAt(octaveShift, j).octave) <==> i == j
  {
    M.NotesIndexed();
    var a, b := KeyAt(octaveShift, i), KeyAt(octaveShift, j);
    if a.note == b.note && a.octave == b.octave {
      assert M.NoteIndex(a.note) == i % 12 && M.NoteIndex(b.note) == j % 12;
      assert i / 12 == j / 12;
    }
  }

  /** A key is black exactly when its note is a sharp: positions 1, 3, 6,
      8 and 10 of each octave, five of twelve (see `FiveSharps`). */
  lemma KeyColour(octaveShift: int, i: int)
    requires 0 <= i < |M.OCTAVES| * |M.NOTES|
    ensures KeyAt(octaveShift, i).isBlack <==> M.IsSharp(KeyAt(octaveShift, i).note)
    ensures KeyAt(octaveShift, i).isBlack <==> i % 12 in {1, 3, 6, 8, 10}
  {
    M.NotesAreChromatic();
  }

  /** The white keys in keyboard order. */
  const WHITE_KEYS: seq<string> := ["C", "D", "E", "F", "G", "A", "B"]

  /** `getWhiteKeyIndex`: the position in C D E F G A B of the note's name
      with its sharp removed. The caller passes a position of NOTES. */
  function WhiteKeyIndex(noteIndex: int): (r: int)
    requires 0 <= noteIndex < |M.NOTES|
    ensures 0 <= r < |WHITE_KEYS| && WHITE_KEYS[r] == M.Name(M.NOTES[noteIndex])[..1]
  {
    WhiteKeyTable(noteIndex);
    IndexOf(WHITE_KEYS, RemoveFirst(M.Name(M.NOTES[noteIndex]), '#'))
  }

  /** The white key of every note, in the order of NOTES: the closed form
      of `getWhiteKeyIndex`. */
  const WHITE_KEY_OF_NOTE: seq<int> := [0, 0, 1, 1, 2, 3, 3, 4, 4, 5, 5, 6]

  /** Stripping the sharp from each name and looking it up among the white
      keys gives the table above. */
  lemma WhiteKeyTable(i: int)
    requires 0 <= i < |M.NOTES|
    ensures IndexOf(WHITE_KEYS, RemoveFirst(M.Name(M.NOTES[i]), '#')) == WHITE_KEY_OF_NOTE[i]
    ensures WHITE_KEYS[WHITE_KEY_OF_NOTE[i]] == M.Name(M.NOTES[i])[..1]
  {
    var name := M.Name(M.NOTES[i]);
    if i == 0 { assert RemoveFirst(name, '#') == "C"; }
    else if i == 1 { assert RemoveFirst(name, '#') == "C"; }
    else if i == 2 { assert RemoveFirst(name, '#') == "D"; }
    else if i == 3 { assert RemoveFirst(name, '#') == "D"; }
    else if i == 4 { assert RemoveFirst(name, '#') == "E"; }
    else if i == 5 { assert RemoveFirst(name, '#') == "F"; }
    else if i == 6 { assert RemoveFirst(name, '#') == "F"; }
    else if i == 7 { assert RemoveFirst(name, '#') == "G"; }
    else if i == 8 { assert RemoveFirst(name, '#') == "G"; }
    else if i == 9 { assert RemoveFirst(name, '#') == "A"; }
    else if i == 10 { assert RemoveFirst(name, '#') == "A"; }
    else { assert RemoveFirst(name, '#') == "B"; }
  }

  /** A sharp sits on the white key of the natural just below it. */
  lemma SharpSharesNaturalsWhiteKey(i: int)
    requires 0 < i < |M.NOTES| && M.IsSharp(M.NOTES[i])
    ensures WhiteKeyIndex(i) == WhiteKeyIndex(i - 1)
    ensures !M.IsSharp(M.NOTES[i - 1])
  {
    M.NotesAreChromatic();
    WhiteKeyTable(i);
    WhiteKeyTable(i - 1);
  }

  /** The white keys of one octave take the seven white-key positions in
      order, one each. */
  lemma WhiteKeysInOrder(i: int, j: int)
    requires 0 <= i < j < |M.NOTES| && !M.IsSharp(M.NOTES[i]) && !M.IsSharp(M.NOTES[j])
    ensures WhiteKeyIndex(i) < WhiteKeyIndex(j)
  {
    M.NotesAreChromatic();
    WhiteKeyTable(i);
    WhiteKeyTable(j);
  }

  /** The integer column of a key in `getKeyPosition`: its white-key index
      plus seven per octave above octave 4. */
  function KeySlot(key: PianoKey): (r: int)
    ensures 0 <= r - (key.octave - 4) * 7 < |WHITE_KEYS|
    ensures WHITE_KEYS[r - (key.octave - 4) * 7] == M.Name(key.note)[..1]
  {
    WhiteKeyIndex(M.NoteIndex(key.note)) + (key.octave - 4) * 7
  }

  /** The `zIndex` that `getKeyPosition` gives a key. */
  function KeyZIndex(key: PianoKey): (r: int)
    ensures r > 0
    ensures r == 10 <==> key.isBlack
    ensures r == 1 <==> !key.isBlack
  {
    if key.isBlack then 10 else 1
  }

  /** Black keys are drawn above white ones, and keys of one colour share a layer. */
  lemma BlackKeysDrawnAbove(a: PianoKey, b: PianoKey)
    ensures a.isBlack && !b.isBlack ==> KeyZIndex(a) > KeyZIndex(b)
    ensures a.isBlack == b.isBlack ==> KeyZIndex(a) == KeyZIndex(b)
  {
  }

  /** The column of key `i` of the unshifted keyboard: its white-key
      index plus seven for the second octave. */
  lemma KeySlotAt(i: int)
    requires 0 <= i < |M.OCTAVES| * |M.NOTES|
    ensures KeySlot(KeyAt(0, i)) == WhiteKeyIndex(i % 12) + 7 * (i / 12)
  {
    M.NotesIndexed();
    assert M.OCTAVES[i / 12] == 4 + i / 12;
  }

  /** On the unshifted keyboard, the white keys fill columns 0 to 13 from
      left to right in key order. */
  lemma WhiteKeysLeftToRight(i: int, j: int)
    requires 0 <= i < j < |M.OCTAVES| * |M.NOTES|
    requires !KeyAt(0, i).isBlack && !KeyAt(0, j).isBlack
    ensures 0 <= KeySlot(KeyAt(0, i)) < KeySlot(KeyAt(0, j)) < 14
  {
    KeySlotAt(i);
    KeySlotAt(j);
    if i / 12 == j / 12 {
      WhiteKeysInOrder(i % 12, j % 12);
    }
  }

  /** A key that does not start an octave has its predecessor in the same octave. */
  lemma PreviousInSameOctave(j: int)
    requires 0 <= j && j % 12 != 0
    ensures (j - 1) % 12 == j % 12 - 1 && (j - 1) / 12 == j / 12
  {
  }

  /** Every black key sits in the column of the white key just before it. */
  lemma BlackKeyOverPrecedingWhite(j: int)
    requires 0 <= j < |M.OCTAVES| * |M.NOTES| && KeyAt(0, j).isBlack
    ensures 0 < j && !KeyAt(0, j - 1).isBlack && KeySlot(KeyAt(0, j)) == KeySlot(KeyAt(0, j - 1))
  {
    KeyColour(0, j);
    PreviousInSameOctave(j);
    KeyColour(0, j - 1);
    KeySlotAt(j);
    KeySlotAt(j - 1);
    SharpSharesNaturalsWhiteKey(j % 12);
  }
}
