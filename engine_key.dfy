/** Modes and keys of src/arpeggio/engine/key.py: the table of named modes,
    its case-insensitive lookup, and keys built from a note name and a mode
    name. The arithmetic of a key is `Scales.Key`. */
module EngineKey {
  import opened Wrappers
  import opened Tables
  import opened Scales
  import EngineNote

  /** The `modes` table, in the source's order. */
  const Modes: seq<(string, seq<int>)> := [
    ("Ionian", [2, 2, 1, 2, 2, 2, 1]),
    ("Major", [2, 2, 1, 2, 2, 2, 1]),
    ("Aeolian", [2, 1, 2, 2, 1, 2, 2]),
    ("Minor", [2, 1, 2, 2, 1, 2, 2]),
    ("Dorian", [2, 1, 2, 2, 2, 1, 2]),
    ("Phrygian", [1, 2, 2, 2, 1, 2, 2]),
    ("Lydian", [2, 2, 2, 1, 2, 2, 1]),
    ("Mixolydian", [2, 2, 1, 2, 2, 1, 2]),
    ("Locrian", [1, 2, 2, 1, 2, 2, 2]),
    ("HarmonicMinor", [2, 1, 2, 2, 1, 3, 1]),
    ("MelodicMinor", [2, 1, 2, 2, 2, 2, 1])]

  /** Every mode of the table has seven positive steps spanning an octave. */
  lemma ModesDiatonic(i: nat)
    requires i < |Modes|
    ensures Diatonic(Modes[i].1)
  {
    var m := Modes[i].1;
    assert m[..7] == m;
    assert Sum(m[..1]) == m[0] by { assert m[..1][..0] == []; }
    SumPrefixStep(m, 1); SumPrefixStep(m, 2); SumPrefixStep(m, 3);
    SumPrefixStep(m, 4); SumPrefixStep(m, 5); SumPrefixStep(m, 6);
  }

  lemma ModeKeysLowered()
    ensures LowerKeys(Modes) == ["ionian", "major", "aeolian", "minor", "dorian", "phrygian",
                                 "lydian", "mixolydian", "locrian", "harmonicminor", "melodicminor"]
  {
    assert Lower("Ionian") == "ionian"; assert Lower("Major") == "major";
    assert Lower("Aeolian") == "aeolian"; assert Lower("Minor") == "minor";
    assert Lower("Dorian") == "dorian"; assert Lower("Phrygian") == "phrygian";
    assert Lower("Lydian") == "lydian"; assert Lower("Mixolydian") == "mixolydian";
    assert Lower("Locrian") == "locrian"; assert Lower("HarmonicMinor") == "harmonicminor";
    assert Lower("MelodicMinor") == "melodicminor";
  }

  /** `get_mode`: the mode with the given name, ignoring case; an unknown
      name raises KeyError. */
  function GetMode(name: string): (r: Result<seq<int>>)
    ensures r.Err? <==> Lower(name) !in LowerKeys(Modes)
    ensures r.Err? ==> r.error == KeyError
  {
    match Lookup(Modes, name)
    case Some(m) => Ok(m)
    case None => Err(KeyError)
  }

  /** Each name finds its own entry, in any case, and what it finds is a
      diatonic mode. */
  lemma GetModeTable(name: string, i: nat)
    requires i < |Modes| && Lower(name) == Lower(Modes[i].0)
    ensures GetMode(name) == Ok(Modes[i].1)
  {
    ModeKeysLowered();
    LookupDistinct(Modes, name, i);
  }

  lemma GetModeDiatonic(name: string)
    requires GetMode(name).Ok?
    ensures Diatonic(GetMode(name).value)
  {
    var i :| 0 <= i < |Modes| && Lower(Modes[i].0) == Lower(name);
    GetModeTable(name, i);
    ModesDiatonic(i);
  }

  lemma GetModeIgnoresCase(name: string)
    ensures GetMode(Lower(name)) == GetMode(name)
  {
    LookupIgnoresCase(Modes, name);
  }

  /** Major is Ionian and minor is Aeolian. */
  lemma ModeAliases()
    ensures GetMode("Major") == GetMode("Ionian") == Ok([2, 2, 1, 2, 2, 2, 1])
    ensures GetMode("Minor") == GetMode("Aeolian") == Ok([2, 1, 2, 2, 1, 2, 2])
  {
    assert GetMode("Major") == GetMode("Ionian") == Ok([2, 2, 1, 2, 2, 2, 1]) by {
      GetModeTable("Major", 1); GetModeTable("Ionian", 0);
    }
    assert GetMode("Minor") == GetMode("Aeolian") == Ok([2, 1, 2, 2, 1, 2, 2]) by {
      GetModeTable("Minor", 3); GetModeTable("Aeolian", 2);
    }
  }

  /** In every mode of the table the degrees climb strictly (the table's
      modes all have seven degrees). */
  lemma TableModeIncreasing(name: string, i: int, j: int, octave: int)
    requires GetMode(name).Ok? && 1 <= i < j <= |GetMode(name).value|
    ensures SemitonesTo(GetMode(name).value, i, octave).value < SemitonesTo(GetMode(name).value, j, octave).value
  {
    GetModeDiatonic(name);
    SemitonesToIncreasing(GetMode(name).value, i, j, octave);
  }

  /** `Key.from_name`: the note is looked up first, then the mode; either
      lookup's KeyError is the result. */
  function FromName(note: string, mode: string): (r: Result<Key>)
    ensures r.Ok? <==> EngineNote.GetNote(note).Ok? && GetMode(mode).Ok?
    ensures r.Ok? ==> r.value == Key(EngineNote.GetNote(note).value, GetMode(mode).value)
    ensures r.Err? ==> r.error == KeyError
  {
    match EngineNote.GetNote(note)
    case Err(e) => Err(e)
    case Ok(tonic) =>
      match GetMode(mode)
      case Err(e) => Err(e)
      case Ok(m) => Ok(Key(tonic, m))
  }

  /** A key built from names never fails afterwards: every degree has a
      note, seven degrees up is one octave up, and its scale spans the
      octave from the tonic. */
  lemma FromNameKeyTotal(note: string, mode: string, interval: int, octave: int)
    requires FromName(note, mode).Ok?
    ensures var k := FromName(note, mode).value;
            k.Note(interval, octave).Ok? && k.Chord(interval, octave).Ok?
            && k.Note(interval + 7, octave) == k.Note(interval, octave + 1)
            && k.Scale().value[0] == k.tonic && k.Scale().value[7] == k.tonic + 12
  {
    var k := FromName(note, mode).value;
    GetModeDiatonic(mode);
    k.NoteOctaveWrap(interval, octave);
    k.ScaleSpansOctave();
  }
}
