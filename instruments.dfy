/** The instruments of src/arpeggio/instrument.py: a registry of five
    instrument classes, and the call that turns a playable into samples.
    Signal synthesis is a parameter: `Synth(kind, pitch, sampleRate,
    duration)` stands for the pydub generator of `kind`, which receives no
    pitch for white noise. */
module Instruments {
  import opened Wrappers
  import opened Tables
  import Audio

  datatype Kind = Sine | Triangle | Square | Sawtooth | Noise

  /** The `instruments` dictionary, in the source's order. */
  const Registry: seq<(string, Kind)> :=
    [("sine", Sine), ("triangle", Triangle), ("square", Square), ("sawtooth", Sawtooth), ("noise", Noise)]

  /** `get_instrument`: case-insensitive, KeyError for an unknown name. */
  function GetInstrument(name: string): (r: Result<Kind>)
    ensures r.Err? <==> Lower(name) !in LowerKeys(Registry)
    ensures r.Err? ==> r.error == KeyError
  {
    match Lookup(Registry, name)
    case Some(k) => Ok(k)
    case None => Err(KeyError)
  }

  /** The registry holds exactly the five lowercase names, and each is
      found in any case. */
  lemma GetInstrumentTable(name: string, i: nat)
    requires i < |Registry| && Lower(name) == Registry[i].0
    ensures GetInstrument(name) == Ok(Registry[i].1)
    ensures LowerKeys(Registry) == ["sine", "triangle", "square", "sawtooth", "noise"]
  {
    assert Lower("sine") == "sine" && Lower("triangle") == "triangle" && Lower("square") == "square";
    assert Lower("sawtooth") == "sawtooth" && Lower("noise") == "noise";
    LookupDistinct(Registry, name, i);
  }

  /** What `Instrument.__call__` may receive: nothing (a rest), a note, a
      chord, or a value of any other type. A note is its semitone offset. */
  datatype Playable = NoPlayable | NotePlayable(note: int) | ChordPlayable(notes: seq<int>) | OtherPlayable

  /** pydub's `AudioSegment.silent`: int(11025 * duration / 1000) zero
      frames (none for a non-positive duration). */
  function Silence(duration: real): (r: seq<int>)
    ensures duration <= 0.0 ==> r == []
    ensures duration > 0.0 ==> |r| as real <= 11025.0 * duration / 1000.0 < |r| as real + 1.0
    ensures forall i :: 0 <= i < |r| ==> r[i] == 0
  {
    var frames := 11025.0 * duration / 1000.0;
    if frames <= 0.0 then [] else seq(frames.Floor, _ => 0)
  }

  type Synth = (Kind, Option<int>, int, real) -> seq<int>

  /** `_play_note`: the generator of the instrument's kind; white noise is
      not told the pitch. */
  function PlayNote(kind: Kind, synth: Synth, sampleRate: int, note: int, duration: real): seq<int> {
    synth(kind, if kind == Noise then None else Some(note), sampleRate, duration)
  }

  /** The number of frames a pydub generator is asked for,
      `int(sample_rate * (duration / 1000))`: truncated toward zero, so it
      is negative exactly when the duration is a whole frame or more below
      zero. */
  function Frames(sampleRate: int, duration: real): (r: int)
    ensures r < 0 <==> sampleRate as real * (duration / 1000.0) <= -1.0
    ensures duration >= 0.0 && sampleRate >= 0 ==> r >= 0
  {
    Audio.Truncate(sampleRate as real * (duration / 1000.0))
  }

  /** Whether playing raises in the generator: a note, or a chord with a
      note, asked for a negative number of frames, which
      `itertools.islice` refuses with ValueError. A rest goes to
      `AudioSegment.silent` and never raises. */
  predicate GeneratorFails(playable: Playable, sampleRate: int, duration: real) {
    Sounds(playable) && Frames(sampleRate, duration) < 0
  }

  /** Whether playing runs a generator at all: a note, or a chord with a
      note. */
  predicate Sounds(playable: Playable) {
    playable.NotePlayable? || (playable.ChordPlayable? && |playable.notes| > 0)
  }

  /** The bit depths pydub's generators know the sample range of: its
      range table holds 8, 16 and 32 bits only. */
  predicate BitDepthKnown(bitDepth: int) {
    bitDepth == 8 || bitDepth == 16 || bitDepth == 32
  }

  /** `__call__`: None gives silence, a note one generated slice, a chord
      the normalized overlay of one slice per note, and anything else a
      TypeError; a note or chord the generator refuses raises ValueError. */
  function Call(kind: Kind, synth: Synth, sampleRate: int, playable: Playable, duration: real): (r: Result<seq<int>>)
    ensures playable.NoPlayable? ==> r == Ok(Silence(duration))
    ensures GeneratorFails(playable, sampleRate, duration) ==> r == Err(ValueError)
    ensures playable.NotePlayable? && Frames(sampleRate, duration) >= 0 ==>
      r == Ok(PlayNote(kind, synth, sampleRate, playable.note, duration))
    ensures playable.ChordPlayable? && !GeneratorFails(playable, sampleRate, duration) ==>
      r == Audio.Overlay(seq(|playable.notes|, i requires 0 <= i < |playable.notes| =>
                               PlayNote(kind, synth, sampleRate, playable.notes[i], duration)))
    ensures playable.OtherPlayable? ==> r == Err(TypeError)
  {
    if GeneratorFails(playable, sampleRate, duration) then Err(ValueError)
    else match playable
      case NoPlayable => Ok(Silence(duration))
      case NotePlayable(n) => Ok(PlayNote(kind, synth, sampleRate, n, duration))
      case ChordPlayable(notes) =>
        Audio.Overlay(seq(|notes|, i requires 0 <= i < |notes| => PlayNote(kind, synth, sampleRate, notes[i], duration)))
      case OtherPlayable => Err(TypeError)
  }

  /** A chord's mix fits the 16-bit range and lasts as long as its longest
      note slice. It fails with ValueError when the generator refuses the
      duration, or inside the mixer when the chord is empty or all its
      slices are. */
  lemma ChordMix(kind: Kind, synth: Synth, sampleRate: int, notes: seq<int>, duration: real)
    ensures var slices := seq(|notes|, i requires 0 <= i < |notes| => PlayNote(kind, synth, sampleRate, notes[i], duration));
            var r := Call(kind, synth, sampleRate, ChordPlayable(notes), duration);
            (r.Err? <==> Frames(sampleRate, duration) < 0 || Audio.MaxLen(slices) == 0)
            && (r.Err? ==> r.error == ValueError)
            && (r.Ok? ==> |r.value| == Audio.MaxLen(slices) && Audio.InRange(r.value))
  {
    var slices := seq(|notes|, i requires 0 <= i < |notes| => PlayNote(kind, synth, sampleRate, notes[i], duration));
    if Audio.Overlay(slices).Ok? {
      Audio.OverlaySpec(slices);
    }
  }

  /** White noise sounds the same whatever note it is asked to play. */
  lemma NoiseIgnoresPitch(synth: Synth, sampleRate: int, a: int, b: int, duration: real)
    ensures Call(Noise, synth, sampleRate, NotePlayable(a), duration)
         == Call(Noise, synth, sampleRate, NotePlayable(b), duration)
  {
  }
}
