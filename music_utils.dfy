/** Chord arithmetic: inversions, interval lists, realising intervals as
    sharp-spelled pitches, display helpers and the nearest sampled note. */
module MusicUtils {
  import opened JsBuiltins
  import opened MusicTypes
  import M = MusicConstants

  /** The four chord qualities, each with a base triad. */
  datatype ChordQuality = Major | Minor | Diminished | Augmented

  /** Whether a chord is the bare triad or the triad with a seventh. */
  datatype ChordType = Triad | Seventh

  /** `CHORD_QUALITIES[q]`: the base triad of a quality, which is the
      matching triad row of the chord table. */
  function BaseTriad(q: ChordQuality): seq<int> {
    match q
    case Major => M.ChordIntervals(M.ChordType.Major)
    case Minor => M.ChordIntervals(M.ChordType.Minor)
    case Diminished => M.ChordIntervals(M.ChordType.Diminished)
    case Augmented => M.ChordIntervals(M.ChordType.Augmented)
  }

  // ---------------------------------------------------------------------
  // applyInversion

  /** One pass of `applyInversion`'s loop: the lowest interval moves to the
      top, one octave higher. */
  function RaiseLowest(xs: seq<int>): seq<int>
    requires |xs| > 0
  {
    xs[1..] + [xs[0] + 12]
  }

  /** The intervals after `k` passes of `applyInversion`'s loop; none when
      `k <= 0`. */
  function Inverted(xs: seq<int>, k: int): (r: seq<int>)
    requires k <= 0 || |xs| > 0
    ensures |r| == |xs|
    decreases k
  {
    if k <= 0 then xs else RaiseLowest(Inverted(xs, k - 1))
  }

  /** Every interval one octave higher. */
  function Lift(xs: seq<int>): seq<int> {
    seq(|xs|, i requires 0 <= i < |xs| => xs[i] + 12)
  }

  /** Each interval reduced to its pitch class. */
  function PitchClasses(xs: seq<int>): seq<int> {
    seq(|xs|, i requires 0 <= i < |xs| => xs[i] % 12)
  }

  /** `applyInversion`: returns the list itself for inversion 0, otherwise
      copies it and `inversion` times shifts off the first interval and
      pushes it back raised by 12. An empty list with a positive inversion
      is excluded: `shift()!` would push `undefined + 12`. */
  method ApplyInversion(intervals: seq<int>, inversion: int) returns (result: seq<int>)
    requires inversion <= 0 || |intervals| > 0
    ensures result == Inverted(intervals, inversion)
  {
    if inversion == 0 {
      return intervals;
    }
    result := intervals;
    var i := 0;
    while i < inversion
      invariant 0 <= i && (inversion > 0 ==> i <= inversion) && (inversion <= 0 ==> i == 0)
      invariant result == Inverted(intervals, i)
    {
      var first := result[0];
      result := result[1..] + [first + 12];
      i := i + 1;
    }
  }

  /** Inversion k of a chord moves its lowest k tones, each an octave up,
      above the others. */
  lemma {:induction false} InvertedClosedForm(xs: seq<int>, k: int)
    requires 0 <= k <= |xs|
    ensures Inverted(xs, k) == xs[k..] + Lift(xs[..k])
  {
    if k == 0 {
      assert xs[..0] == [] && Lift([]) == [];
    } else {
      InvertedClosedForm(xs, k - 1);
      var prev := xs[k - 1..] + Lift(xs[..k - 1]);
      assert prev[0] == xs[k - 1];
      assert prev[1..] == xs[k..] + Lift(xs[..k - 1]);
      assert Lift(xs[..k]) == Lift(xs[..k - 1]) + [xs[k - 1] + 12];
    }
  }

  /** Inverting by the number of tones lifts the whole chord an octave. */
  lemma InvertedFullCycle(xs: seq<int>)
    ensures Inverted(xs, |xs|) == Lift(xs)
  {
    InvertedClosedForm(xs, |xs|);
    assert xs[|xs|..] == [] && xs[..|xs|] == xs;
  }

  /** Inverting by a and then by b is inverting by a + b. */
  lemma {:induction false} InvertedCompose(xs: seq<int>, a: nat, b: nat)
    requires |xs| > 0
    ensures Inverted(xs, a + b) == Inverted(Inverted(xs, a), b)
  {
    if b > 0 {
      InvertedCompose(xs, a, b - 1);
    }
  }

  /** Inverting commutes with lifting the chord an octave. */
  lemma {:induction false} InvertedCommutesWithLift(xs: seq<int>, k: nat)
    requires |xs| > 0
    ensures Inverted(Lift(xs), k) == Lift(Inverted(xs, k))
  {
    if k > 0 {
      InvertedCommutesWithLift(xs, k - 1);
      var ys := Inverted(xs, k - 1);
      assert RaiseLowest(Lift(ys)) == Lift(RaiseLowest(ys));
    }
  }

  /** An inversion beyond the last one wraps around, one octave higher:
      the inversion index is not clamped. */
  lemma InvertedWrapsAround(xs: seq<int>, k: nat)
    requires |xs| > 0
    ensures Inverted(xs, k + |xs|) == Lift(Inverted(xs, k))
  {
    InvertedCompose(xs, |xs|, k);
    InvertedFullCycle(xs);
    InvertedCommutesWithLift(xs, k);
  }

  /** The last inversion followed by one more pass gives the chord in root
      position, one octave up. */
  lemma LastInversionThenOneMore(xs: seq<int>)
    requires |xs| > 0
    ensures Inverted(Inverted(xs, |xs| - 1), 1) == Lift(xs)
  {
    InvertedCompose(xs, |xs| - 1, 1);
    InvertedFullCycle(xs);
  }

  /** An inversion keeps the chord's pitch classes: only the voicing changes. */
  lemma {:induction false} InversionKeepsPitchClasses(xs: seq<int>, k: int)
    requires k <= 0 || |xs| > 0
    ensures multiset(PitchClasses(Inverted(xs, k))) == multiset(PitchClasses(xs))
    decreases k
  {
    if k > 0 {
      InversionKeepsPitchClasses(xs, k - 1);
      var ys := Inverted(xs, k - 1);
      assert PitchClasses(RaiseLowest(ys)) == PitchClasses(ys[1..]) + [ys[0] % 12];
      assert PitchClasses(ys) == [ys[0] % 12] + PitchClasses(ys[1..]);
    }
  }

  /** Inverting never lowers an interval, so non-negative intervals stay so. */
  lemma {:induction false} InvertedStaysNonNegative(xs: seq<int>, k: int)
    requires k <= 0 || |xs| > 0
    requires forall i :: 0 <= i < |xs| ==> xs[i] >= 0
    ensures forall i :: 0 <= i < |xs| ==> Inverted(xs, k)[i] >= 0
    decreases k
  {
    if k > 0 {
      InvertedStaysNonNegative(xs, k - 1);
    }
  }

  /** Every interval inside one octave above the root. */
  predicate WithinOctave(xs: seq<int>) {
    forall i :: 0 <= i < |xs| ==> 0 <= xs[i] < 12
  }

  /** How many intervals lie an octave or more above the root. */
  function CountRaised(s: seq<int>): nat {
    if s == [] then 0 else CountRaised(s[..|s| - 1]) + (if s[|s| - 1] >= 12 then 1 else 0)
  }

  lemma {:induction false} CountRaisedAppend(a: seq<int>, b: seq<int>)
    ensures CountRaised(a + b) == CountRaised(a) + CountRaised(b)
    decreases |b|
  {
    if b == [] {
      assert a + b == a;
    } else {
      CountRaisedAppend(a, b[..|b| - 1]);
      assert (a + b)[..|a + b| - 1] == a + b[..|b| - 1];
    }
  }

  lemma {:induction false} CountRaisedBelow(s: seq<int>)
    requires forall i :: 0 <= i < |s| ==> s[i] < 12
    ensures CountRaised(s) == 0
    decreases |s|
  {
    if s != [] {
      CountRaisedBelow(s[..|s| - 1]);
    }
  }

  lemma {:induction false} CountRaisedAbove(s: seq<int>)
    requires forall i :: 0 <= i < |s| ==> s[i] >= 12
    ensures CountRaised(s) == |s|
    decreases |s|
  {
    if s != [] {
      CountRaisedAbove(s[..|s| - 1]);
    }
  }

  /** Inversion k of a chord inside one octave has exactly k tones an
      octave or more above the root. */
  lemma RaisedTonesCountInversion(xs: seq<int>, k: int)
    requires WithinOctave(xs) && 0 <= k <= |xs|
    ensures CountRaised(Inverted(xs, k)) == k
  {
    InvertedClosedForm(xs, k);
    CountRaisedAppend(xs[k..], Lift(xs[..k]));
    CountRaisedBelow(xs[k..]);
    CountRaisedAbove(Lift(xs[..k]));
  }

  /** The same number of inversions applied to two different chords give
      different voicings. */
  lemma InvertedInjective(xs: seq<int>, ys: seq<int>, k: int)
    requires |xs| == |ys| && 0 <= k <= |xs|
    requires Inverted(xs, k) == Inverted(ys, k)
    ensures xs == ys
  {
    var n, r := |xs|, Inverted(xs, k);
    forall i | 0 <= i < n
      ensures xs[i] == ys[i]
    {
      var p := if i < k then n - k + i else i - k;
      InvertedAt(xs, k, p);
      InvertedAt(ys, k, p);
      assert r[p] == (if i < k then xs[i] + 12 else xs[i]) == (if i < k then ys[i] + 12 else ys[i]);
    }
  }

  /** Position `i` of inversion `k`: a tone not yet moved, or a moved one
      an octave up. */
  lemma InvertedAt(xs: seq<int>, k: int, i: int)
    requires 0 <= k <= |xs| && 0 <= i < |xs|
    ensures Inverted(xs, k)[i] == if i < |xs| - k then xs[i + k] else xs[i - (|xs| - k)] + 12
  {
    InvertedClosedForm(xs, k);
  }

  /** For chords inside one octave, the voicing determines both the chord
      and the inversion. */
  lemma InvertedDeterminesChord(xs: seq<int>, k: int, ys: seq<int>, j: int)
    requires WithinOctave(xs) && WithinOctave(ys)
    requires 0 <= k <= |xs| && 0 <= j <= |ys|
    requires Inverted(xs, k) == Inverted(ys, j)
    ensures xs == ys && k == j
  {
    RaisedTonesCountInversion(xs, k);
    RaisedTonesCountInversion(ys, j);
    InvertedInjective(xs, ys, k);
  }

  // ---------------------------------------------------------------------
  // generateChordNotes

  /** The absolute semitone of a pitch: twelve per octave, counted from C. */
  function Semitone(p: Pitch): int {
    12 * p.octave + M.NoteIndex(p.note)
  }

  /** One element of `generateChordNotes`: the note `interval` semitones
      above `root`, carrying whole octaves into the octave number. */
  function RealizeInterval(root: M.Note, interval: int, octave: int): (p: Pitch)
    requires interval >= 0
    ensures Semitone(p) == 12 * octave + M.NoteIndex(root) + interval
  {
    var n := M.NoteIndex(root) + interval;
    M.NotesIndexed();
    Pitch(M.NOTES[n % 12], octave + n / 12)
  }

  /** `generateChordNotes`: one pitch per interval, in interval order, each
      exactly that many semitones above the root at `octave`. */
  function GenerateChordNotes(root: M.Note, intervals: seq<int>, octave: int): (r: seq<Pitch>)
    requires forall i :: 0 <= i < |intervals| ==> intervals[i] >= 0
    ensures |r| == |intervals|
    ensures forall i :: 0 <= i < |r| ==>
      Semitone(r[i]) == 12 * octave + M.NoteIndex(root) + intervals[i]
  {
    seq(|intervals|, i requires 0 <= i < |intervals| => RealizeInterval(root, intervals[i], octave))
  }

  /** A sharp-spelled pitch is determined by its absolute semitone. */
  lemma SemitoneDeterminesPitch(p: Pitch, q: Pitch)
    ensures Semitone(p) == Semitone(q) <==> p == q
  {
    if Semitone(p) == Semitone(q) {
      var i, j := M.NoteIndex(p.note), M.NoteIndex(q.note);
      assert p.octave == q.octave && i == j;
    }
  }

  /** For a fixed root and octave, the pitches determine the intervals. */
  lemma ChordNotesDetermineIntervals(root: M.Note, xs: seq<int>, ys: seq<int>, octave: int)
    requires forall i :: 0 <= i < |xs| ==> xs[i] >= 0
    requires forall i :: 0 <= i < |ys| ==> ys[i] >= 0
    ensures GenerateChordNotes(root, xs, octave) == GenerateChordNotes(root, ys, octave) <==> xs == ys
  {
    var a, b := GenerateChordNotes(root, xs, octave), GenerateChordNotes(root, ys, octave);
    if a == b {
      forall i | 0 <= i < |xs|
        ensures xs[i] == ys[i]
      {
        assert Semitone(a[i]) == Semitone(b[i]);
      }
    }
  }

  /** C major at octave 4 in first inversion: E4 G4 C5. */
  lemma CMajorFirstInversion()
    ensures GenerateChordNotes(M.C, Inverted(BaseTriad(Major), 1), 4) == [Pitch(M.E, 4), Pitch(M.G, 4), Pitch(M.C, 5)]
  {
    MajorFirstInversion();
    CFirstInversionPitches();
  }

  /** The major triad in first inversion: the root moves an octave up. */
  lemma MajorFirstInversion()
    ensures Inverted(BaseTriad(Major), 1) == [4, 7, 12]
  {
  }

  /** The intervals 4, 7 and 12 above C4 are E4, G4 and C5. */
  lemma CFirstInversionPitches()
    ensures GenerateChordNotes(M.C, [4, 7, 12], 4) == [Pitch(M.E, 4), Pitch(M.G, 4), Pitch(M.C, 5)]
  {
    M.NotesIndexed();
  }

  /** C minor seventh at octave 4: C4 D#4 G4 A#4. */
  lemma CMinorSeventh()
    ensures GenerateChordNotes(M.C, GetChordIntervals(Minor, Seventh), 4)
         == [Pitch(M.C, 4), Pitch(M.DSharp, 4), Pitch(M.G, 4), Pitch(M.ASharp, 4)]
  {
    M.NotesIndexed();
  }

  /** An interval an octave wider is the same note one octave up. */
  lemma RealizeLifted(root: M.Note, interval: int, octave: int)
    requires interval >= 0
    ensures RealizeInterval(root, interval + 12, octave) == RealizeInterval(root, interval, octave + 1)
  {
    SemitoneDeterminesPitch(RealizeInterval(root, interval + 12, octave), RealizeInterval(root, interval, octave + 1));
  }

  /** The pitches of two interval lists one after the other. */
  lemma ChordNotesAppend(root: M.Note, a: seq<int>, b: seq<int>, octave: int)
    requires forall i :: 0 <= i < |a| ==> a[i] >= 0
    requires forall i :: 0 <= i < |b| ==> b[i] >= 0
    ensures forall i :: 0 <= i < |a + b| ==> (a + b)[i] >= 0
    ensures GenerateChordNotes(root, a + b, octave) == GenerateChordNotes(root, a, octave) + GenerateChordNotes(root, b, octave)
  {
    var r, ra, rb := GenerateChordNotes(root, a + b, octave), GenerateChordNotes(root, a, octave), GenerateChordNotes(root, b, octave);
    forall i | 0 <= i < |r|
      ensures r[i] == (ra + rb)[i]
    {
      if i < |a| {
        assert r[i] == RealizeInterval(root, a[i], octave);
      } else {
        assert r[i] == RealizeInterval(root, b[i - |a|], octave);
      }
    }
  }

  /** Lifting every interval an octave is starting one octave higher. */
  lemma ChordNotesLift(root: M.Note, xs: seq<int>, octave: int)
    requires forall i :: 0 <= i < |xs| ==> xs[i] >= 0
    ensures forall i :: 0 <= i < |xs| ==> Lift(xs)[i] >= 0
    ensures GenerateChordNotes(root, Lift(xs), octave) == GenerateChordNotes(root, xs, octave + 1)
  {
    forall i | 0 <= i < |xs|
      ensures GenerateChordNotes(root, Lift(xs), octave)[i] == GenerateChordNotes(root, xs, octave + 1)[i]
    {
      RealizeLifted(root, xs[i], octave);
    }
  }

  /** The pitches of inversion k: the chord's upper tones, then its lowest
      k tones one octave higher; with k = 0 the chord in root position. */
  lemma ChordNotesOfInversion(root: M.Note, xs: seq<int>, k: int, octave: int)
    requires 0 <= k <= |xs|
    requires forall i :: 0 <= i < |xs| ==> xs[i] >= 0
    ensures forall i :: 0 <= i < |xs| ==> Inverted(xs, k)[i] >= 0
    ensures GenerateChordNotes(root, Inverted(xs, k), octave)
         == GenerateChordNotes(root, xs[k..], octave) + GenerateChordNotes(root, xs[..k], octave + 1)
  {
    InvertedClosedForm(xs, k);
    ChordNotesLift(root, xs[..k], octave);
    ChordNotesAppend(root, xs[k..], Lift(xs[..k]), octave);
  }

  // ---------------------------------------------------------------------
  // getChordIntervals, getMaxInversions

  /** `getChordIntervals`: the base triad, or for a seventh the triad with
      the quality's seventh on top. */
  function GetChordIntervals(quality: ChordQuality, chordType: ChordType): (r: seq<int>)
    ensures |r| == (if chordType == Triad then 3 else 4)
    ensures r[..3] == BaseTriad(quality)
    ensures M.RootPositionRow(r)
    ensures chordType == Triad ==> r == BaseTriad(quality)
    ensures chordType == Seventh && quality == Major ==> r == M.ChordIntervals(M.ChordType.Major7)
    ensures chordType == Seventh && quality == Minor ==> r == M.ChordIntervals(M.ChordType.Minor7)
    ensures chordType == Seventh && quality == Diminished ==> r == M.ChordIntervals(M.ChordType.Diminished7)
    ensures chordType == Seventh && quality == Augmented ==> r == BaseTriad(Augmented) + [M.ChordIntervals(M.ChordType.Dominant7)[3]]
  {
    var baseIntervals := BaseTriad(quality);
    if chordType == Triad then baseIntervals
    else
      match quality
      case Major => baseIntervals + [11]
      case Minor => baseIntervals + [10]
      case Diminished => baseIntervals + [9]
      case Augmented => baseIntervals + [10]
  }

  /** `getMaxInversions`: the highest inversion of the chord. */
  function GetMaxInversions(quality: ChordQuality, chordType: ChordType): (r: int)
    ensures r == |GetChordIntervals(quality, chordType)| - 1
    ensures r == (if chordType == Triad then 2 else 3)
  {
    |GetChordIntervals(quality, chordType)| - 1
  }

  // ---------------------------------------------------------------------
  // getOrdinalSuffix

  /** The English ordinal suffix read off the last two decimal digits:
      the teens take "th", otherwise 1, 2, 3 take "st", "nd", "rd". */
  function SuffixForDigits(last: int, tens: int): string {
    if tens == 1 then "th"
    else if last == 1 then "st"
    else if last == 2 then "nd"
    else if last == 3 then "rd"
    else "th"
  }

  /** The last two decimal digits of `n` are its tens digit and its last digit. */
  lemma DecimalDigits(n: int)
    requires n >= 0
    ensures n % 100 == 10 * ((n / 10) % 10) + n % 10
  {
    var q, d := n / 10, n % 10;
    var t, e := q / 10, q % 10;
    assert n == 10 * q + d;
    assert q == 10 * t + e;
    assert n == 100 * t + (10 * e + d) && 0 <= 10 * e + d < 100;
  }

  /** `getOrdinalSuffix`, with JavaScript's `%`: a negative number always
      gets "th", since its remainders are never positive. */
  function OrdinalSuffix(num: int): (s: string)
    ensures num >= 0 ==> s == SuffixForDigits(num % 10, (num / 10) % 10)
    ensures num < 0 ==> s == "th"
  {
    var j := JsRem(num, 10);
    var k := JsRem(num, 100);
    if num >= 0 then DecimalDigits(num); OrdinalFromRemainders(j, k)
    else OrdinalFromRemainders(j, k)
  }

  /** A few inversion labels: 1st, 2nd, 3rd, 4th, and the teens. */
  lemma OrdinalSuffixExamples()
    ensures OrdinalSuffix(1) == "st" && OrdinalSuffix(2) == "nd" && OrdinalSuffix(3) == "rd" && OrdinalSuffix(4) == "th"
    ensures OrdinalSuffix(11) == "th" && OrdinalSuffix(12) == "th" && OrdinalSuffix(13) == "th"
    ensures OrdinalSuffix(21) == "st" && OrdinalSuffix(112) == "th" && OrdinalSuffix(0) == "th"
  {
  }

  /** The branches of `getOrdinalSuffix` on `j = num % 10`, `k = num % 100`. */
  function OrdinalFromRemainders(j: int, k: int): (r: string)
    ensures 0 <= j < 10 && 0 <= k < 100 && k % 10 == j ==> r == SuffixForDigits(j, k / 10)
    ensures j <= 0 || j > 3 ==> r == "th"
  {
    if j == 1 && k != 11 then "st"
    else if j == 2 && k != 12 then "nd"
    else if j == 3 && k != 13 then "rd"
    else "th"
  }

  // ---------------------------------------------------------------------
  // abbreviateChord

  /** The display name of a quality. */
  function QualityAbbreviation(q: ChordQuality): (r: string)
    ensures |r| == 3 && forall i :: 0 <= i < |r| ==> 'a' <= r[i] <= 'z' || 'A' <= r[i] <= 'Z'
  {
    match q
    case Major => "Maj"
    case Minor => "min"
    case Diminished => "dim"
    case Augmented => "aug"
  }

  /** The abbreviation of a chord: its quality's name, then "7" for a seventh. */
  function ChordAbbreviation(quality: ChordQuality, chordType: ChordType): (r: string)
    ensures |r| == (if chordType == Seventh then 4 else 3)
    ensures r[|r| - 1] == '7' <==> chordType == Seventh
  {
    QualityAbbreviation(quality) + (if chordType == Seventh then "7" else "")
  }

  /** No two chords share an abbreviation. */
  lemma AbbreviationsDistinct(q1: ChordQuality, t1: ChordType, q2: ChordQuality, t2: ChordType)
    ensures ChordAbbreviation(q1, t1) == ChordAbbreviation(q2, t2) <==> q1 == q2 && t1 == t2
  {
    var a, b := ChordAbbreviation(q1, t1), ChordAbbreviation(q2, t2);
    if a == b {
      assert a[..3] == QualityAbbreviation(q1) && b[..3] == QualityAbbreviation(q2);
    }
  }

  /** `abbreviateChord`: picks the quality's name, then appends "7" for a seventh. */
  method AbbreviateChord(quality: ChordQuality, chordType: ChordType) returns (qualityAbbr: string)
    ensures qualityAbbr == ChordAbbreviation(quality, chordType)
  {
    qualityAbbr := "";
    match quality {
      case Major => qualityAbbr := "Maj";
      case Minor => qualityAbbr := "min";
      case Diminished => qualityAbbr := "dim";
      case Augmented => qualityAbbr := "aug";
    }
    if chordType == Seventh {
      qualityAbbr := qualityAbbr + "7";
    }
  }

  // ---------------------------------------------------------------------
  // mapNoteToAvailableSample

  /** Where the sampled notes sit in NOTES. */
  lemma SamplePositions()
    ensures |M.AVAILABLE_SAMPLES| == 4 && Distinct(M.AVAILABLE_SAMPLES)
    ensures M.NoteIndex(M.AVAILABLE_SAMPLES[0]) == 9 && M.NoteIndex(M.AVAILABLE_SAMPLES[1]) == 0
    ensures M.NoteIndex(M.AVAILABLE_SAMPLES[2]) == 3 && M.NoteIndex(M.AVAILABLE_SAMPLES[3]) == 6
  {
    M.NotesIndexed();
    M.SamplesAreNotes();
  }

  /** `samples.map(n => NOTES.indexOf(n))`. */
  function NoteIndices(samples: seq<M.Note>): (r: seq<int>)
    ensures |r| == |samples|
    ensures forall i :: 0 <= i < |r| ==> 0 <= r[i] < |M.NOTES| && M.NOTES[r[i]] == samples[i]
  {
    seq(|samples|, i requires 0 <= i < |samples| => M.NoteIndex(samples[i]))
  }

  /** The sampled notes lie at positions 9, 0, 3 and 6 of NOTES. */
  lemma SampleIndicesValue()
    ensures NoteIndices(M.AVAILABLE_SAMPLES) == [9, 0, 3, 6]
  {
    SamplePositions();
  }

  /** How far apart two notes are in the list NOTES (not around the circle). */
  function NoteDistance(a: M.Note, b: M.Note): int {
    Abs(M.NoteIndex(a) - M.NoteIndex(b))
  }

  /** The search loop of `mapNoteToAvailableSample`: the entry of
      `indices` nearest to `noteIndex`, the first such on a tie. */
  method ClosestIndex(noteIndex: int, indices: seq<int>) returns (closestIndex: int, ghost chosen: int)
    requires |indices| > 0
    ensures 0 <= chosen < |indices| && closestIndex == indices[chosen]
    ensures forall j :: 0 <= j < |indices| ==> Abs(noteIndex - closestIndex) <= Abs(noteIndex - indices[j])
    ensures forall j :: 0 <= j < chosen ==> Abs(noteIndex - closestIndex) < Abs(noteIndex - indices[j])
  {
    closestIndex := indices[0];
    var minDistance := Abs(noteIndex - closestIndex);
    chosen := 0;
    for k := 0 to |indices|
      invariant 0 <= chosen < |indices| && closestIndex == indices[chosen]
      invariant minDistance == Abs(noteIndex - closestIndex)
      invariant forall j :: 0 <= j < k ==> minDistance <= Abs(noteIndex - indices[j])
      invariant forall j :: 0 <= j < chosen ==> minDistance < Abs(noteIndex - indices[j])
    {
      var distance := Abs(noteIndex - indices[k]);
      if distance < minDistance {
        minDistance := distance;
        closestIndex := indices[k];
        chosen := k;
      }
    }
  }

  /** `n` is the sample the search of `mapNoteToAvailableSample` picks for
      `note` among `samples`: one of them, at least as near to the note as
      every other, and strictly nearer than every one listed before it. */
  predicate IsNearestSampleNote(samples: seq<M.Note>, note: M.Note, n: M.Note) {
    && n in samples
    && (forall j :: 0 <= j < |samples| ==> NoteDistance(note, n) <= NoteDistance(note, samples[j]))
    && (forall j :: 0 <= j < IndexOf(samples, n) ==> NoteDistance(note, n) < NoteDistance(note, samples[j]))
  }

  /** `sample` is what `mapNoteToAvailableSample` returns for `note` at
      `octave`: the nearest sample, one octave down exactly when it lies
      above the note. */
  predicate IsNearestSample(samples: seq<M.Note>, note: M.Note, octave: int, sample: Pitch) {
    && IsNearestSampleNote(samples, note, sample.note)
    && sample.octave == if M.NoteIndex(sample.note) > M.NoteIndex(note) then octave - 1 else octave
  }

  /** Reading the result of the search back as note names: for a table of
      distinct notes of the scale, the entry the search picks from the
      index table, turned back into a note, is the nearest sample. */
  lemma ClosestSampleIsNearest(note: M.Note, samples: seq<M.Note>, closestIndex: int, chosen: int)
    requires Distinct(samples)
    requires 0 <= chosen < |samples| && closestIndex == NoteIndices(samples)[chosen]
    requires forall j :: 0 <= j < |samples| ==>
      Abs(M.NoteIndex(note) - closestIndex) <= Abs(M.NoteIndex(note) - NoteIndices(samples)[j])
    requires forall j :: 0 <= j < chosen ==>
      Abs(M.NoteIndex(note) - closestIndex) < Abs(M.NoteIndex(note) - NoteIndices(samples)[j])
    ensures 0 <= closestIndex < |M.NOTES| && M.NoteIndex(M.NOTES[closestIndex]) == closestIndex
    ensures IsNearestSampleNote(samples, note, M.NOTES[closestIndex])
  {
    M.NotesIndexed();
    var n := M.NOTES[closestIndex];
    assert n == samples[chosen];
    IndexOfDistinct(samples, chosen);
    DistancesByIndex(note, samples);
  }

  /** The distances the search compares are the distances between notes. */
  lemma DistancesByIndex(note: M.Note, samples: seq<M.Note>)
    ensures forall j :: 0 <= j < |samples| ==>
      NoteDistance(note, samples[j]) == Abs(M.NoteIndex(note) - NoteIndices(samples)[j])
  {
  }

  /** Two positions of the scale are less than an octave apart, so the
      floored octave difference is -1 or 0. */
  lemma OctaveBelowWhenAbove(d: int)
    requires -12 <= d < 12
    ensures d / 12 == if d < 0 then -1 else 0
  {
  }

  /** `mapNoteToAvailableSample`: the sampled note nearest to `note` by
      position in NOTES, the first one listed on a tie, and the octave one
      lower when that sample lies above the note. */
  method MapNoteToAvailableSample(note: M.Note, octave: int) returns (sample: Pitch)
    ensures IsNearestSample(M.AVAILABLE_SAMPLES, note, octave, sample)
  {
    var noteIndex := M.NoteIndex(note);
    var availableIndices := NoteIndices(M.AVAILABLE_SAMPLES);
    SampleIndicesValue();
    var closestIndex, chosen := ClosestIndex(noteIndex, availableIndices);
    M.SamplesAreNotes();
    ClosestSampleIsNearest(note, M.AVAILABLE_SAMPLES, closestIndex, chosen);
    OctaveBelowWhenAbove(noteIndex - closestIndex);
    // Math.floor, which for the positive divisor 12 is Dafny's division.
    var octaveDiff := (noteIndex - closestIndex) / 12;
    sample := Pitch(M.NOTES[closestIndex], octave + octaveDiff);
  }

  /** The nearest-sample requirement leaves no choice: at most one pitch
      meets it. */
  lemma NearestSampleUnique(samples: seq<M.Note>, note: M.Note, octave: int, a: Pitch, b: Pitch)
    requires IsNearestSample(samples, note, octave, a) && IsNearestSample(samples, note, octave, b)
    ensures a == b
  {
    var ia, ib := IndexOf(samples, a.note), IndexOf(samples, b.note);
    assert samples[ia] == a.note && samples[ib] == b.note;
    assert NoteDistance(note, samples[ia]) == NoteDistance(note, samples[ib]);
    assert ia == ib;
  }

  /** A note that has its own sample is played from that sample, in its own octave. */
  lemma SampledNoteMapsToItself(note: M.Note, octave: int)
    requires note in M.AVAILABLE_SAMPLES
    ensures IsNearestSample(M.AVAILABLE_SAMPLES, note, octave, Pitch(note, octave))
  {
    M.NotesIndexed();
    forall j | 0 <= j < IndexOf(M.AVAILABLE_SAMPLES, note)
      ensures 0 < NoteDistance(note, M.AVAILABLE_SAMPLES[j])
    {
      var other := M.AVAILABLE_SAMPLES[j];
      assert M.NOTES[M.NoteIndex(other)] == other != note == M.NOTES[M.NoteIndex(note)];
    }
  }

  /** The octave rule as written: for D4 the nearest sample is D#, one
      semitone up, but it comes back as D#3, eleven semitones down, while
      D#4 is a sample one semitone away. */
  lemma SampleAboveDropsAnOctave()
    ensures IsNearestSample(M.AVAILABLE_SAMPLES, M.D, 4, Pitch(M.DSharp, 3))
    ensures Semitone(Pitch(M.D, 4)) - Semitone(Pitch(M.DSharp, 3)) == 11
    ensures Semitone(Pitch(M.DSharp, 4)) - Semitone(Pitch(M.D, 4)) == 1
  {
    SamplePositions();
    IndexOfDistinct(M.AVAILABLE_SAMPLES, 2);
  }

  /** `mapNoteToAvailableSample` with the octave kept: the search picks a
      sample in the note's own octave, so no octave correction is due. */
  method MapNoteToNearestSample(note: M.Note, octave: int) returns (sample: Pitch)
    ensures IsNearestSampleNote(M.AVAILABLE_SAMPLES, note, sample.note) && sample.octave == octave
  {
    var noteIndex := M.NoteIndex(note);
    var availableIndices := NoteIndices(M.AVAILABLE_SAMPLES);
    SampleIndicesValue();
    var closestIndex, chosen := ClosestIndex(noteIndex, availableIndices);
    M.SamplesAreNotes();
    ClosestSampleIsNearest(note, M.AVAILABLE_SAMPLES, closestIndex, chosen);
    sample := Pitch(M.NOTES[closestIndex], octave);
  }

  /** A sample within two positions of `note`: every note has one. */
  function SampleWithinTwo(note: M.Note): (j: int)
    ensures 0 <= j < |M.AVAILABLE_SAMPLES| && NoteDistance(note, M.AVAILABLE_SAMPLES[j]) <= 2
  {
    SamplePositions();
    var i := M.NoteIndex(note);
    if i <= 1 then 1 else if i <= 4 then 2 else if i <= 7 then 3 else 0
  }

  /** With the octave kept, the sample played is never more than two
      semitones from the note asked for. */
  lemma NearestSampleWithinTwoSemitones(note: M.Note, octave: int, sample: Pitch)
    requires IsNearestSampleNote(M.AVAILABLE_SAMPLES, note, sample.note) && sample.octave == octave
    ensures Abs(Semitone(sample) - Semitone(Pitch(note, octave))) <= 2
  {
    var j := SampleWithinTwo(note);
    M.NotesIndexed();
    assert NoteDistance(note, sample.note) <= NoteDistance(note, M.AVAILABLE_SAMPLES[j]);
  }
}
