/** The computer-keyboard controller: one run of the keyboard effect, with
    its two temporary overrides and the table of chords being held. */
module KeyboardControls {
  import opened JsBuiltins
  import opened MusicTypes
  import M = MusicConstants

  /** The callbacks the controller invokes, with their arguments. */
  datatype Callback =
    | NotePlay(note: M.Note, octave: int)
    | NoteStop(note: M.Note, octave: int)
    | ChordPlay(note: M.Note, octave: int, inversion: int, chordType: M.ChordType)
    | ChordStop(note: M.Note, octave: int, inversion: int, chordType: M.ChordType)
    | AddToRecording(note: M.Note, octave: int, isBlack: bool)

  /** `KEY_TO_NOTE[key]`: the note a (lower-cased) key plays, if any. */
  function NoteForKey(key: string): (r: Option<M.Note>)
    ensures r.Some? <==> |key| == 1 && key[0] in M.KEY_TO_NOTE
    ensures r.Some? ==> M.KEY_FOR_NOTE[M.NoteIndex(r.value)] == key[0]
  {
    if |key| == 1 && key[0] in M.KEY_TO_NOTE then
      M.KeyPlaysNote(key[0]);
      M.NotesIndexed();
      Some(M.KEY_TO_NOTE[key[0]])
    else None
  }

  /** `['1', '2', '3'].includes(key)` together with `parseInt(key)`. */
  function InversionDigit(key: string): (r: Option<int>)
    ensures r.Some? <==> key in {"1", "2", "3"}
    ensures r.Some? ==> 1 <= r.value <= 3 && key == [('0' as int + r.value) as char]
  {
    if key == "1" then Some(1) else if key == "2" then Some(2) else if key == "3" then Some(3) else None
  }

  /** A key is a note key, a digit key, the seventh key or none of them:
      never two at once, so one event acts in at most one way. */
  lemma KeyRolesDisjoint(key: string)
    ensures NoteForKey(key).Some? ==> InversionDigit(key).None? && key != "7"
    ensures InversionDigit(key).Some? ==> key != "7" && 1 <= InversionDigit(key).value <= 3
  {
    if NoteForKey(key).Some? {
      assert key[0] in M.KEY_TO_NOTE.Keys;
      assert M.KEY_TO_NOTE.Keys == {'a', 's', 'd', 'f', 'g', 'h', 'j', 'w', 'e', 't', 'y', 'u'};
    }
  }

  /** The event's key is lower-cased before the lookup, so a letter typed
      with shift held plays the same note as without. */
  lemma ShiftedLetterPlaysSameNote(k: char)
    requires 'a' <= k <= 'z'
    ensures NoteForKey(ToLower([(k as int - 32) as char])) == NoteForKey(ToLower([k]))
  {
    assert ToLower([(k as int - 32) as char]) == [k];
    assert ToLower([k]) == [k];
  }

  /** One callback's effect on the chords being held: a chord play records
      its parameters under its voice, a chord stop forgets the voice. */
  function Step(held: map<Pitch, ChordData>, c: Callback): map<Pitch, ChordData> {
    match c
    case ChordPlay(n, o, inv, t) => held[Pitch(n, o) := ChordData(inv, t)]
    case ChordStop(n, o, _, _) => held - {Pitch(n, o)}
    case _ => held
  }

  /** The chords a sequence of callbacks leaves held. */
  ghost function Sounding(trace: seq<Callback>): map<Pitch, ChordData> {
    if trace == [] then map[] else Step(Sounding(trace[..|trace| - 1]), trace[|trace| - 1])
  }

  lemma SoundingAppend(trace: seq<Callback>, c: Callback)
    ensures Sounding(trace + [c]) == Step(Sounding(trace), c)
  {
    assert (trace + [c])[..|trace + [c]| - 1] == trace;
  }

  /** Whether a callback starts or stops a chord on voice `v`. */
  predicate Touches(c: Callback, v: Pitch) {
    (c.ChordPlay? || c.ChordStop?) && Pitch(c.note, c.octave) == v
  }

  /** The position of the last callback that starts or stops a chord on
      `v`, or -1 when there is none. */
  function LastTouch(trace: seq<Callback>, v: Pitch): (r: int)
    ensures -1 <= r < |trace|
    ensures r >= 0 ==> Touches(trace[r], v)
    ensures forall j :: r < j < |trace| ==> !Touches(trace[j], v)
  {
    if trace == [] then -1
    else if Touches(trace[|trace| - 1], v) then |trace| - 1
    else LastTouch(trace[..|trace| - 1], v)
  }

  /** A voice is held exactly when the last chord callback on it started a
      chord, and then it is held with that chord's inversion and type. */
  lemma {:induction false} SoundingIsLastPlay(trace: seq<Callback>, v: Pitch)
    ensures v in Sounding(trace) <==> LastTouch(trace, v) >= 0 && trace[LastTouch(trace, v)].ChordPlay?
    ensures v in Sounding(trace) ==>
      Sounding(trace)[v] == ChordData(trace[LastTouch(trace, v)].inversion, trace[LastTouch(trace, v)].chordType)
  {
    if trace != [] {
      var init := trace[..|trace| - 1];
      SoundingIsLastPlay(init, v);
      if !Touches(trace[|trace| - 1], v) {
        assert LastTouch(trace, v) == LastTouch(init, v);
        if LastTouch(init, v) >= 0 {
          assert trace[LastTouch(init, v)] == init[LastTouch(init, v)];
        }
      }
    }
  }

  /** A chord play followed by its recording report holds exactly the
      played chord on the played voice, on top of what was held. */
  lemma PlayThenRecord(trace: seq<Callback>, play: Callback, record: Callback)
    requires play.ChordPlay? && record.AddToRecording?
    ensures Sounding(trace + [play, record])
         == Sounding(trace)[Pitch(play.note, play.octave) := ChordData(play.inversion, play.chordType)]
  {
    SoundingAppend(trace, play);
    assert trace + [play, record] == (trace + [play]) + [record];
    SoundingAppend(trace + [play], record);
  }

  /** Callbacks other than chord plays and stops leave the held chords alone. */
  lemma NonChordCallbacksKeepHeld(trace: seq<Callback>, c: Callback)
    requires !c.ChordPlay? && !c.ChordStop?
    ensures Sounding(trace + [c]) == Sounding(trace)
  {
    SoundingAppend(trace, c);
  }

  /** One run of the keyboard effect: the configuration it was created with
      and the state its two handlers share. */
  class KeyboardEffect {
    const playMode: M.PlayMode
    const octaveShift: int
    const selectedChordType: M.ChordType
    const selectedInversion: int
    /** The caller's `getMaxInversions` and `addSeventhToChordType`. */
    const getMaxInversions: () -> int
    const addSeventhToChordType: M.ChordType -> M.ChordType

    var temporaryInversion: Option<int>
    var temporaryChordType: Option<M.ChordType>
    var activeChords: map<Pitch, ChordData>
    /** Every callback invoked so far, in order. */
    ghost var trace: seq<Callback>

    /** The state the handlers keep: the table of held chords is what the
        callbacks so far leave held; an inversion override is 1, 2 or 3
        and no higher than the maximum; a chord-type override is the
        seventh of the selected type; in note mode nothing is held or
        overridden. */
    ghost predicate Valid()
      reads this
    {
      && activeChords == Sounding(trace)
      && (temporaryInversion.Some? ==>
            1 <= temporaryInversion.value <= 3 && temporaryInversion.value <= getMaxInversions())
      && (temporaryChordType.Some? ==> temporaryChordType.value == addSeventhToChordType(selectedChordType))
      && (playMode == M.NoteMode ==>
            activeChords == map[] && temporaryInversion.None? && temporaryChordType.None?
            && forall i :: 0 <= i < |trace| ==> trace[i].NotePlay? || trace[i].NoteStop?)
    }

    /** `4 + octaveShift`, one higher while shift is held. */
    function Octave(shiftKey: bool): (r: int)
      ensures shiftKey <==> r == 5 + octaveShift
      ensures !shiftKey <==> r == 4 + octaveShift
    {
      4 + octaveShift + (if shiftKey then 1 else 0)
    }

    /** The inversion and chord type a chord played now uses: each override
        if set, otherwise the selection. */
    function Current(): (r: ChordData)
      reads this
      ensures r.inversion == if temporaryInversion.Some? then temporaryInversion.value else selectedInversion
      ensures r.chordType == if temporaryChordType.Some? then temporaryChordType.value else selectedChordType
    {
      ChordData(temporaryInversion.GetOr(selectedInversion), temporaryChordType.GetOr(selectedChordType))
    }

    /** A fresh effect run: nothing held, no overrides. */
    constructor(playMode: M.PlayMode, octaveShift: int, selectedChordType: M.ChordType, selectedInversion: int,
                getMaxInversions: () -> int, addSeventhToChordType: M.ChordType -> M.ChordType)
      ensures this.playMode == playMode && this.octaveShift == octaveShift
      ensures this.selectedChordType == selectedChordType && this.selectedInversion == selectedInversion
      ensures this.getMaxInversions == getMaxInversions && this.addSeventhToChordType == addSeventhToChordType
      ensures temporaryInversion.None? && temporaryChordType.None? && activeChords == map[] && trace == []
      ensures Valid()
    {
      this.playMode := playMode;
      this.octaveShift := octaveShift;
      this.selectedChordType := selectedChordType;
      this.selectedInversion := selectedInversion;
      this.getMaxInversions := getMaxInversions;
      this.addSeventhToChordType := addSeventhToChordType;
      temporaryInversion := None;
      temporaryChordType := None;
      activeChords := map[];
      trace := [];
    }

    /** `handleKeyDown`. A note key that is not a repeat plays the note, or
        in chord mode plays the chord with the current parameters, records
        them under its voice and reports the key for recording; in chord
        mode a digit 1 to 3 sets the inversion override when the chord
        has that many inversions, and 7 sets the seventh override. Events
        aimed at a form field are ignored. */
    method KeyDown(eventKey: string, shiftKey: bool, repeat: bool, inFormField: bool)
      requires Valid()
      modifies this
      ensures Valid()
      ensures inFormField ==>
        && temporaryInversion == old(temporaryInversion) && temporaryChordType == old(temporaryChordType)
        && activeChords == old(activeChords) && trace == old(trace)
      ensures !inFormField ==>
        var key := ToLower(eventKey);
        var note := NoteForKey(key);
        var digit := InversionDigit(key);
        && (note.None? || repeat ==> activeChords == old(activeChords) && trace == old(trace))
        && (note.Some? && !repeat && playMode == M.NoteMode ==>
              activeChords == old(activeChords) && trace == old(trace) + [NotePlay(note.value, Octave(shiftKey))])
        && (note.Some? && !repeat && playMode == M.ChordMode ==>
              var v := Pitch(note.value, Octave(shiftKey));
              var d := old(Current());
              && activeChords == old(activeChords)[v := d]
              && trace == old(trace) + [ChordPlay(v.note, v.octave, d.inversion, d.chordType),
                                        AddToRecording(v.note, v.octave, M.IsSharp(v.note))])
        && temporaryInversion ==
             (if playMode == M.ChordMode && digit.Some? && digit.value <= getMaxInversions()
              then digit else old(temporaryInversion))
        && temporaryChordType ==
             (if playMode == M.ChordMode && key == "7"
              then Some(addSeventhToChordType(selectedChordType)) else old(temporaryChordType))
    {
      if inFormField {
        return;
      }
      var key := ToLower(eventKey);
      var note := NoteForKey(key);
      KeyRolesDisjoint(key);
      if note.Some? && !repeat {
        if playMode == M.NoteMode {
          PressNote(note.value, Octave(shiftKey));
        } else {
          PressChord(note.value, Octave(shiftKey));
        }
      }
      PressControl(key);
    }

    /** The sounding part of a key press in note mode: the note is played. */
    method PressNote(note: M.Note, octave: int)
      requires Valid() && playMode == M.NoteMode
      modifies this
      ensures Valid()
      ensures temporaryInversion == old(temporaryInversion) && temporaryChordType == old(temporaryChordType)
      ensures activeChords == old(activeChords) && trace == old(trace) + [NotePlay(note, octave)]
    {
      SoundingAppend(trace, NotePlay(note, octave));
      trace := trace + [NotePlay(note, octave)];
    }

    /** The sounding part of a key press in chord mode: the chord is played
        with the current parameters, which are recorded under its voice, and
        the key is reported for recording. */
    method PressChord(note: M.Note, octave: int)
      requires Valid() && playMode == M.ChordMode
      modifies this
      ensures Valid()
      ensures temporaryInversion == old(temporaryInversion) && temporaryChordType == old(temporaryChordType)
      ensures var d := old(Current());
        && activeChords == old(activeChords)[Pitch(note, octave) := d]
        && trace == old(trace) + [ChordPlay(note, octave, d.inversion, d.chordType),
                                  AddToRecording(note, octave, M.IsSharp(note))]
    {
      var currentInversion := temporaryInversion.GetOr(selectedInversion);
      var currentChordType := temporaryChordType.GetOr(selectedChordType);
      var play := ChordPlay(note, octave, currentInversion, currentChordType);
      var record := AddToRecording(note, octave, M.IsSharp(note));
      var held := activeChords[Pitch(note, octave) := ChordData(currentInversion, currentChordType)];
      PlayThenRecord(trace, play, record);
      trace := trace + [play, record];
      activeChords := held;
    }

    /** The override part of a key press, in chord mode only: a digit 1 to
        3 within the chord's inversions sets the inversion override, 7 the
        seventh override. */
    method PressControl(key: string)
      requires Valid()
      modifies this
      ensures Valid()
      ensures activeChords == old(activeChords) && trace == old(trace)
      ensures temporaryInversion ==
        (if playMode == M.ChordMode && InversionDigit(key).Some? && InversionDigit(key).value <= getMaxInversions()
         then InversionDigit(key) else old(temporaryInversion))
      ensures temporaryChordType ==
        (if playMode == M.ChordMode && key == "7"
         then Some(addSeventhToChordType(selectedChordType)) else old(temporaryChordType))
    {
      var digit := InversionDigit(key);
      if digit.Some? && playMode == M.ChordMode {
        var maxInversions := getMaxInversions();
        if digit.value <= maxInversions {
          temporaryInversion := digit;
        }
      }
      if key == "7" && playMode == M.ChordMode {
        temporaryChordType := Some(addSeventhToChordType(selectedChordType));
      }
    }

    /** `handleKeyUp`. A note key stops the note, or in chord mode stops the
        chord with the parameters recorded for its voice (the selection if
        none) and forgets the voice; in chord mode a digit 1 to 3 clears
        the inversion override and 7 the seventh override. Events aimed at
        a form field are ignored. */
    method KeyUp(eventKey: string, shiftKey: bool, inFormField: bool)
      requires Valid()
      modifies this
      ensures Valid()
      ensures inFormField ==>
        && temporaryInversion == old(temporaryInversion) && temporaryChordType == old(temporaryChordType)
        && activeChords == old(activeChords) && trace == old(trace)
      ensures !inFormField ==>
        var key := ToLower(eventKey);
        var note := NoteForKey(key);
        && (note.None? ==> activeChords == old(activeChords) && trace == old(trace))
        && (note.Some? && playMode == M.NoteMode ==>
              activeChords == old(activeChords) && trace == old(trace) + [NoteStop(note.value, Octave(shiftKey))])
        && (note.Some? && playMode == M.ChordMode ==>
              var v := Pitch(note.value, Octave(shiftKey));
              var d := if v in old(activeChords) then old(activeChords)[v]
                       else ChordData(selectedInversion, selectedChordType);
              && activeChords == old(activeChords) - {v}
              && trace == old(trace) + [ChordStop(v.note, v.octave, d.inversion, d.chordType)])
        && temporaryInversion ==
             (if playMode == M.ChordMode && InversionDigit(key).Some? then None else old(temporaryInversion))
        && temporaryChordType ==
             (if playMode == M.ChordMode && key == "7" then None else old(temporaryChordType))
    {
      if inFormField {
        return;
      }
      var key := ToLower(eventKey);
      var note := NoteForKey(key);
      if note.Some? {
        if playMode == M.NoteMode {
          ReleaseNote(note.value, Octave(shiftKey));
        } else {
          ReleaseChord(note.value, Octave(shiftKey));
        }
      }
      ReleaseControl(key);
    }

    /** The sounding part of a key release in note mode: the note is stopped. */
    method ReleaseNote(note: M.Note, octave: int)
      requires Valid() && playMode == M.NoteMode
      modifies this
      ensures Valid()
      ensures temporaryInversion == old(temporaryInversion) && temporaryChordType == old(temporaryChordType)
      ensures activeChords == old(activeChords) && trace == old(trace) + [NoteStop(note, octave)]
    {
      SoundingAppend(trace, NoteStop(note, octave));
      trace := trace + [NoteStop(note, octave)];
    }

    /** The sounding part of a key release in chord mode: the chord is
        stopped with the parameters recorded under its voice, or with the
        selection when none are, and the voice is forgotten. */
    method ReleaseChord(note: M.Note, octave: int)
      requires Valid() && playMode == M.ChordMode
      modifies this
      ensures Valid()
      ensures temporaryInversion == old(temporaryInversion) && temporaryChordType == old(temporaryChordType)
      ensures var v := Pitch(note, octave);
        var d := if v in old(activeChords) then old(activeChords)[v] else ChordData(selectedInversion, selectedChordType);
        && activeChords == old(activeChords) - {v}
        && trace == old(trace) + [ChordStop(note, octave, d.inversion, d.chordType)]
    {
      var chordKey := Pitch(note, octave);
      var chordData := if chordKey in activeChords then Some(activeChords[chordKey]) else None;
      var inversionUsed := if chordData.Some? then chordData.value.inversion else selectedInversion;
      var chordTypeUsed := if chordData.Some? then chordData.value.chordType else selectedChordType;
      SoundingAppend(trace, ChordStop(note, octave, inversionUsed, chordTypeUsed));
      trace := trace + [ChordStop(note, octave, inversionUsed, chordTypeUsed)];
      activeChords := activeChords - {chordKey};
    }

    /** The override part of a key release, in chord mode only: a digit 1
        to 3 clears the inversion override, 7 the seventh override. */
    method ReleaseControl(key: string)
      requires Valid()
      modifies this
      ensures Valid()
      ensures activeChords == old(activeChords) && trace == old(trace)
      ensures temporaryInversion ==
        (if playMode == M.ChordMode && InversionDigit(key).Some? then None else old(temporaryInversion))
      ensures temporaryChordType ==
        (if playMode == M.ChordMode && key == "7" then None else old(temporaryChordType))
    {
      if InversionDigit(key).Some? && playMode == M.ChordMode {
        temporaryInversion := None;
      }
      if key == "7" && playMode == M.ChordMode {
        temporaryChordType := None;
      }
    }
  }

  /** What a chord stop releases: for a held voice, exactly the inversion
      and chord type of the press that started it, whatever the overrides
      are at release time. */
  lemma ReleaseUsesPressParameters(trace: seq<Callback>, v: Pitch)
    requires v in Sounding(trace)
    ensures LastTouch(trace, v) >= 0 && trace[LastTouch(trace, v)].ChordPlay?
    ensures Sounding(trace)[v].inversion == trace[LastTouch(trace, v)].inversion
    ensures Sounding(trace)[v].chordType == trace[LastTouch(trace, v)].chordType
  {
    SoundingIsLastPlay(trace, v);
  }

  /** A chord pressed with shift held and released after shift: key-up
      looks the voice up one octave lower, so it stops C4, which nothing
      played, and C5 stays in the table of held chords. */
  method ShiftReleasedBeforeKey() returns (e: KeyboardEffect)
    ensures Pitch(M.C, 5) in e.activeChords && Pitch(M.C, 4) !in e.activeChords
    ensures e.trace == [ChordPlay(M.C, 5, 0, M.Major), AddToRecording(M.C, 5, false), ChordStop(M.C, 4, 0, M.Major)]
  {
    e := new KeyboardEffect(M.ChordMode, 0, M.Major, 0, () => 2, t => t);
    e.KeyDown("A", true, false, false);
    e.KeyUp("a", false, false);
  }
}
