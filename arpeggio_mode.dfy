/** src/arpeggio/mode.py: the older copy of the mode table and its lookup.
    `Mode.semitones_to` is `Scales.SemitonesTo`. */
module ArpeggioMode {
  import opened Wrappers
  import opened Tables
  import opened Scales
  import EngineKey

  const Modes: seq<(string, seq<int>)> := [
    ("Ionian", [2, 2, 1, 2, 2, 2, 1]),
    ("Major", [2, 2, 1, 2, 2, 2, 1]),
    ("Aeolian", [2, 1, 2, 2, 1, 2, 2]),
    ("Minor", [2, 1, 2, 2, 1, 2, 2]),
    ("Dorian", [2, 1, 2, 2, 2, 1, 2]),
    ("Phrygian", [1, 2, 2, 2, 1, 2, 2]),
    ("Lydian", [2, 2, 2, 1, 2, 2, 1]),
    ("Mixolydian", [2, 2, 1, 2, 2, 1, 2]),
    ("Locrian", [1, 2, 2, 1, 2, 2, 2]),
    ("HarmonicMinor", [2, 1, 2, 2, 1, 3, 1]),
    ("MelodicMinor", [2, 1, 2, 2, 2, 2, 1])]

  /** `get_mode`: case-insensitive, KeyError for an unknown name. */
  function GetMode(name: string): (r: Result<seq<int>>)
    ensures r.Err? <==> Lower(name) !in LowerKeys(Modes)
    ensures r.Err? ==> r.error == KeyError
  {
    match Lookup(Modes, name)
    case Some(m) => Ok(m)
    case None => Err(KeyError)
  }

  /** This copy of the table is entry for entry the engine's, so the two
      lookups agree on every name, and every mode found is diatonic. */
  lemma SameAsEngine(name: string)
    ensures Modes == EngineKey.Modes
    ensures GetMode(name) == EngineKey.GetMode(name)
    ensures GetMode(name).Ok? ==> Diatonic(GetMode(name).value)
  {
    if GetMode(name).Ok? {
      EngineKey.GetModeDiatonic(name);
    }
  }

  /** The semitone counts the project's tests check. */
  lemma SemitonesExamples()
    ensures GetMode("Major").Ok? && GetMode("Minor").Ok?
    ensures SemitonesTo(GetMode("Major").value, 1, 1) == Ok(12)
    ensures SemitonesTo(GetMode("Major").value, 1, -2) == Ok(-24)
    ensures SemitonesTo(GetMode("Major").value, 3) == Ok(4)
    ensures SemitonesTo(GetMode("Major").value, 5) == Ok(7)
    ensures SemitonesTo(GetMode("Minor").value, 3) == Ok(3)
    ensures SemitonesTo(GetMode("Minor").value, 5) == Ok(7)
  {
    EngineKey.ModeAliases();
    var major := [2, 2, 1, 2, 2, 2, 1];
    var minor := [2, 1, 2, 2, 1, 2, 2];
    assert major[..0] == [] && minor[..0] == [];
    assert major[..2] == [2, 2] && major[..4] == [2, 2, 1, 2];
    assert minor[..2] == [2, 1] && minor[..4] == [2, 1, 2, 2];
    assert Sum([2, 2]) == 4 by { assert [2, 2][..1] == [2]; assert [2][..0] == []; }
    assert Sum([2, 1]) == 3 by { assert [2, 1][..1] == [2]; assert [2][..0] == []; }
    assert Sum([2, 2, 1, 2]) == 7 by { assert [2, 2, 1, 2][..3] == [2, 2, 1]; assert [2, 2, 1][..2] == [2, 2]; assert [2, 2][..1] == [2]; assert [2][..0] == []; }
    assert Sum([2, 1, 2, 2]) == 7 by { assert [2, 1, 2, 2][..3] == [2, 1, 2]; assert [2, 1, 2][..2] == [2, 1]; assert [2, 1][..1] == [2]; assert [2][..0] == []; }
  }
}
