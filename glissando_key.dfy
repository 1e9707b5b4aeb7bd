/** Modes and keys of src/glissando/key.py. A mode is a class whose
    `intervals` list is fixed; `Major` and `Minor` are the Ionian and
    Aeolian classes themselves. A key's tonic is a note or a name from the
    `NOTES` table. The arithmetic is `Scales.Key`. */
module GlissandoKey {
  import opened Wrappers
  import opened Tables
  import Scales
  import GlissandoNote

  datatype ModeClass = Ionian | Aeolian | Dorian | Phrygian | Lydian | Mixolydian
                     | Locrian | HarmonicMinor | MelodicMinor
  {
    function Intervals(): seq<int> {
      match this
      case Ionian => [2, 2, 1, 2, 2, 2, 1]
      case Aeolian => [2, 1, 2, 2, 1, 2, 2]
      case Dorian => [2, 1, 2, 2, 2, 1, 2]
      case Phrygian => [1, 2, 2, 2, 1, 2, 2]
      case Lydian => [2, 2, 2, 1, 2, 2, 1]
      case Mixolydian => [2, 2, 1, 2, 2, 1, 2]
      case Locrian => [1, 2, 2, 1, 2, 2, 2]
      case HarmonicMinor => [2, 1, 2, 2, 1, 3, 1]
      case MelodicMinor => [2, 1, 2, 2, 2, 2, 1]
    }

    /** The class-level `Mode.semitones_to`. */
    function SemitonesTo(interval: int, octave: int := 0): (r: Result<int>)
      ensures r.Ok? <==> 1 <= interval <= 7
      ensures r.Ok? ==> r.value == Scales.Sum(Intervals()[..interval - 1]) + 12 * octave
    {
      Scales.SemitonesTo(Intervals(), interval, octave)
    }

    /** Every mode class has seven positive intervals spanning an octave. */
    lemma IntervalsDiatonic()
      ensures Scales.Diatonic(Intervals())
    {
      var m := Intervals();
      assert m[..7] == m;
      assert Scales.Sum(m[..1]) == m[0] by { assert m[..1][..0] == []; }
      Scales.SumPrefixStep(m, 1); Scales.SumPrefixStep(m, 2); Scales.SumPrefixStep(m, 3);
      Scales.SumPrefixStep(m, 4); Scales.SumPrefixStep(m, 5); Scales.SumPrefixStep(m, 6);
    }
  }

  /** `Major = Ionian` and `Minor = Aeolian`. */
  const Major: ModeClass := Ionian
  const Minor: ModeClass := Aeolian

  /** The tonic argument of `Key.__init__`: a note, or a name for the table. */
  datatype Tonic = TonicNote(note: GlissandoNote.Note) | TonicName(name: string)

  datatype Key = Key(tonic: GlissandoNote.Note, mode: ModeClass)
  {
    /** The shared key arithmetic on this key's semitone offsets. */
    function Arithmetic(): Scales.Key { Scales.Key(tonic.offset, mode.Intervals()) }

    /** `Key.note`: every mode has seven intervals, so it never fails. */
    function Note(interval: int, octave: int := 0): (r: GlissandoNote.Note)
      ensures Arithmetic().Note(interval, octave) == Ok(r.offset)
    {
      GlissandoNote.Note(Arithmetic().Note(interval, octave).value)
    }

    /** `Key.chord`: the triad on degrees interval, interval+2, interval+4. */
    function Chord(interval: int, octave: int := 0): (r: GlissandoNote.Chord)
      ensures |r.notes| == 3
      ensures forall k :: 0 <= k < 3 ==> r.notes[k] == Note(interval + 2 * k, octave)
    {
      GlissandoNote.Chord([Note(interval, octave), Note(interval + 2, octave), Note(interval + 4, octave)])
    }

    /** `Key.scale`: degrees 1 to 8 at octave 0. */
    function Scale(): (r: seq<GlissandoNote.Note>)
      ensures |r| == 8 && forall k :: 0 <= k < 8 ==> r[k] == Note(k + 1)
    {
      seq(8, k requires 0 <= k < 8 => Note(k + 1))
    }

    /** Seven degrees up is one octave up, for notes and chords alike; the
        triad climbs within an octave; the scale runs from the tonic to the
        tonic an octave up. */
    lemma Wraps(interval: int, octave: int)
      ensures Note(interval + 7, octave) == Note(interval, octave + 1)
      ensures Chord(interval + 7, octave) == Chord(interval, octave + 1)
      ensures var c := Chord(interval, octave).notes;
              c[0].offset < c[1].offset < c[2].offset < c[0].offset + 12
      ensures Scale()[0] == tonic && Scale()[7] == tonic.Add(12)
    {
      mode.IntervalsDiatonic();
      var k := Arithmetic();
      k.NoteOctaveWrap(interval, octave);
      k.ChordOctaveWrap(interval, octave);
      assert Chord(interval + 7, octave).notes == Chord(interval, octave + 1).notes;
      k.ChordAscending(interval, octave);
      k.ScaleSpansOctave();
    }
  }

  /** `Key.__init__`: a name is resolved through `NOTES`, case-sensitively,
      and an unknown name raises KeyError. */
  function NewKey(tonic: Tonic, mode: ModeClass): (r: Result<Key>)
    ensures tonic.TonicNote? ==> r == Ok(Key(tonic.note, mode))
    ensures tonic.TonicName? ==> (r.Ok? <==> tonic.name in Keys(GlissandoNote.Notes))
    ensures tonic.TonicName? && r.Ok? ==> r.value == Key(GlissandoNote.GetNote(tonic.name).value, mode)
    ensures r.Err? ==> r.error == KeyError
  {
    match tonic
    case TonicNote(n) => Ok(Key(n, mode))
    case TonicName(name) =>
      match GlissandoNote.GetNote(name)
      case Ok(n) => Ok(Key(n, mode))
      case Err(e) => Err(e)
  }

  /** A name of the table gives the key on its note; "A" is the key on
      A440 and "Am" the same key. */
  lemma NewKeyByName(i: nat, mode: ModeClass)
    requires i < |GlissandoNote.Notes|
    ensures NewKey(TonicName(GlissandoNote.Notes[i].0), mode) == Ok(Key(GlissandoNote.Notes[i].1, mode))
    ensures GlissandoNote.Notes[26] == ("A", GlissandoNote.StandardNote)
    ensures GlissandoNote.Notes[27] == ("Am", GlissandoNote.StandardNote)
  {
    GlissandoNote.GetNoteTable(i);
  }

  /** Names are case-sensitive: a lowercase "a" is unknown. */
  lemma NewKeyCaseSensitive(mode: ModeClass)
    ensures NewKey(TonicName("a"), mode) == Err(KeyError)
  {
    GlissandoNote.NamesListed();
  }
}
