/** The records the piano passes around. */
module MusicTypes {
  import MusicConstants

  /** A value that may be absent (`T | null`, or a missing map entry). */
  datatype Option<T> = None | Some(value: T) {
    /** `x !== null ? x : fallback`. */
    function GetOr(fallback: T): T {
      match this
      case Some(v) => v
      case None => fallback
    }
  }

  /** A sounding pitch, the pair `(note, octave)` from which the audio
      layer's name string `${note}${octave}` is rendered. */
  datatype Pitch = Pitch(note: MusicConstants.Note, octave: int)

  /** One key of the on-screen keyboard; its floating-point frequency is
      not part of this model. */
  datatype PianoKey = PianoKey(note: MusicConstants.Note, isBlack: bool, octave: int, globalIndex: int)

  /** The parameters a chord was started with. */
  datatype ChordData = ChordData(inversion: int, chordType: MusicConstants.ChordType)
}
