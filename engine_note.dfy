/** Durations and note names of src/arpeggio/engine/note.py.

    A note is its signed distance in semitones from the standard pitch A
    (440 Hz); a duration is a fraction of a whole note. */
module EngineNote {
  import opened Wrappers
  import opened Tables

  /** Fractions of a whole note. */
  type Duration = real

  const WholeNote: Duration := 1.0
  const HalfNote: Duration := 0.5
  const QuarterNote: Duration := 0.25
  const EighthNote: Duration := 0.125
  const SixteenthNote: Duration := 0.0625

  lemma DurationsHalve()
    ensures HalfNote == WholeNote / 2.0 && QuarterNote == HalfNote / 2.0
    ensures EighthNote == QuarterNote / 2.0 && SixteenthNote == EighthNote / 2.0
    ensures SixteenthNote == 1.0 / 16.0
  {
  }

  /** `Duration.to_millis`: how long the duration lasts at `bpm` beats per
      minute with `beatsPerMeasure` beats to a whole note. A zero tempo
      raises ZeroDivisionError; float rounding is not modelled. */
  function ToMillis(d: Duration, bpm: int, beatsPerMeasure: int := 4): (r: Result<real>)
    ensures r.Ok? <==> bpm != 0
    ensures r.Err? ==> r.error == ZeroDivisionError
    ensures r.Ok? ==> r.value * bpm as real == 60000.0 * d * beatsPerMeasure as real
  {
    if bpm == 0 then Err(ZeroDivisionError)
    else Ok((60000.0 * d / bpm as real) * beatsPerMeasure as real)
  }

  /** The worked values the project's own tests rely on. */
  lemma ToMillisExamples()
    ensures ToMillis(QuarterNote, 60) == Ok(1000.0)
    ensures ToMillis(SixteenthNote, 60) == Ok(250.0)
    ensures ToMillis(HalfNote, 120) == Ok(1000.0)
    ensures ToMillis(QuarterNote, 60, 1) == Ok(250.0)
  {
  }

  /** Duration is proportional: halving a note halves its length, and
      doubling the tempo halves it too. */
  lemma ToMillisScales(d: Duration, bpm: int, beatsPerMeasure: int)
    requires bpm != 0
    ensures ToMillis(d / 2.0, bpm, beatsPerMeasure).value == ToMillis(d, bpm, beatsPerMeasure).value / 2.0
    ensures ToMillis(d, 2 * bpm, beatsPerMeasure).value == ToMillis(d, bpm, beatsPerMeasure).value / 2.0
  {
    var b := bpm as real;
    var m := beatsPerMeasure as real;
    assert (60000.0 * (d / 2.0) / b) * m == ((60000.0 * d / b) * m) / 2.0;
    assert (2 * bpm) as real == 2.0 * b;
    assert (60000.0 * d / (2.0 * b)) * m == ((60000.0 * d / b) * m) / 2.0;
  }

  /** `Note.__add__` and `Note.__sub__`: a shift up or down by semitones. */
  function Up(note: int, semitones: int): int { note + semitones }

  function Down(note: int, semitones: int): int { note - semitones }

  /** The two shifts undo each other, and shifting down is shifting up by
      the negated amount. Against the table: A plus three semitones is the
      C of the next octave, and A twelve semitones down and back up is the
      table's A. */
  lemma ShiftsInverse(note: int, s: int)
    ensures Down(Up(note, s), s) == note && Up(Down(note, s), s) == note
    ensures Down(note, s) == Up(note, -s)
    ensures GetNote("C").Ok? && Up(StandardNote, 3) == Up(GetNote("C").value, 12)
    ensures GetNote("A") == Ok(Up(Down(StandardNote, 12), 12))
  {
    GetNoteTable("C", 0);
    GetNoteTable("A", 13);
  }

  /** A440 itself. */
  const StandardNote: int := 0

  /** The `notes` table, as offsets from A, in the source's order. */
  const Notes: seq<(string, int)> := [
    ("C", -9), ("C#", -8), ("Db", -8), ("D", -7), ("D#", -6), ("Eb", -6),
    ("E", -5), ("F", -4), ("F#", -3), ("Gb", -3), ("G", -2), ("G#", -1),
    ("Ab", -1), ("A", 0), ("A#", 1), ("Bb", 1), ("B", 2)]

  /** `get_note`: the note with the given name, ignoring case; an unknown
      name raises KeyError. */
  function GetNote(name: string): (r: Result<int>)
    ensures r.Err? <==> Lower(name) !in LowerKeys(Notes)
    ensures r.Err? ==> r.error == KeyError
  {
    match Lookup(Notes, name)
    case Some(n) => Ok(n)
    case None => Err(KeyError)
  }

  lemma NoteKeysLowered()
    ensures LowerKeys(Notes) == ["c", "c#", "db", "d", "d#", "eb", "e", "f", "f#",
                                 "gb", "g", "g#", "ab", "a", "a#", "bb", "b"]
  {
    assert Lower("C") == "c"; assert Lower("C#") == "c#"; assert Lower("Db") == "db";
    assert Lower("D") == "d"; assert Lower("D#") == "d#"; assert Lower("Eb") == "eb";
    assert Lower("E") == "e"; assert Lower("F") == "f"; assert Lower("F#") == "f#";
    assert Lower("Gb") == "gb"; assert Lower("G") == "g"; assert Lower("G#") == "g#";
    assert Lower("Ab") == "ab"; assert Lower("A") == "a"; assert Lower("A#") == "a#";
    assert Lower("Bb") == "bb"; assert Lower("B") == "b";
  }

  /** No two names of the table differ only in case, so every name finds
      its own entry, whatever case the query is written in. */
  lemma GetNoteTable(name: string, i: nat)
    requires i < |Notes| && Lower(name) == Lower(Notes[i].0)
    ensures GetNote(name) == Ok(Notes[i].1)
  {
    NoteKeysLowered();
    LookupDistinct(Notes, name, i);
  }

  /** Every known note lies in the octave from C below A to B above it. */
  lemma GetNoteRange(name: string)
    requires GetNote(name).Ok?
    ensures -9 <= GetNote(name).value <= 2
  {
    var i :| 0 <= i < |Notes| && Lower(Notes[i].0) == Lower(name);
    GetNoteTable(name, i);
  }

  /** Case never matters. */
  lemma GetNoteIgnoresCase(name: string)
    ensures GetNote(Lower(name)) == GetNote(name)
  {
    LookupIgnoresCase(Notes, name);
  }

  /** The sharps and the flats that name the same pitch, with their
      positions in the table. */
  const Enharmonics: seq<(string, nat, string, nat)> := [
    ("C#", 1, "Db", 2), ("D#", 4, "Eb", 5), ("F#", 8, "Gb", 9),
    ("G#", 11, "Ab", 12), ("A#", 14, "Bb", 15)]

  /** A sharp and its enharmonic flat name the same note. */
  lemma EnharmonicsAgree(k: nat)
    requires k < |Enharmonics|
    ensures GetNote(Enharmonics[k].0).Ok?
    ensures GetNote(Enharmonics[k].0) == GetNote(Enharmonics[k].2)
  {
    var (sharp, i, flat, j) := Enharmonics[k];
    assert i < |Notes| && Notes[i].0 == sharp;
    assert j < |Notes| && Notes[j].0 == flat && Notes[j].1 == Notes[i].1;
    GetNoteTable(sharp, i);
    GetNoteTable(flat, j);
  }

  lemma NoteExamples()
    ensures GetNote("A") == Ok(StandardNote)
    ensures GetNote("c") == Ok(-9)
    ensures GetNote("H") == Err(KeyError)
  {
    GetNoteTable("A", 13);
    GetNoteTable("c", 0);
    NoteH();
  }

  lemma NoteH()
    ensures GetNote("H") == Err(KeyError)
  {
    NoteKeysLowered();
    assert Lower("H") == "h";
  }
}
