/** Durations, notes and the note-name table of src/glissando/note.py.
    A note carries its distance in semitones from A440, standing for the
    source's frequency. */
module GlissandoNote {
  import opened Wrappers
  import EngineNote
  import opened Tables

  /** The duration classes, each a fixed fraction of a whole note. */
  datatype NoteDuration = WholeNote | HalfNote | QuarterNote | EighthNote | SixteenthNote | ThirtySecondNote
  {
    function Fraction(): real {
      match this
      case WholeNote => 1.0
      case HalfNote => 1.0 / 2.0
      case QuarterNote => 1.0 / 4.0
      case EighthNote => 1.0 / 8.0
      case SixteenthNote => 1.0 / 16.0
      case ThirtySecondNote => 1.0 / 32.0
    }

    /** `NoteDuration.to_millis`, computed exactly before the float
        conversion; a zero tempo raises ZeroDivisionError. */
    function ToMillis(bpm: int, beatsPerMeasure: int := 4): (r: Result<real>)
      ensures r.Ok? <==> bpm != 0
      ensures r.Err? ==> r.error == ZeroDivisionError
      ensures r.Ok? ==> r.value * bpm as real == 60000.0 * Fraction() * beatsPerMeasure as real
    {
      if bpm == 0 then Err(ZeroDivisionError)
      else Ok((60000.0 * Fraction() / bpm as real) * beatsPerMeasure as real)
    }
  }

  /** The durations from longest to shortest. */
  const Durations: seq<NoteDuration> :=
    [WholeNote, HalfNote, QuarterNote, EighthNote, SixteenthNote, ThirtySecondNote]

  /** Each duration is half the one before it, starting from a whole note;
      and the formula is the one of the engine's durations. */
  lemma DurationsHalve(bpm: int, beatsPerMeasure: int)
    ensures Durations[0].Fraction() == 1.0
    ensures forall i :: 0 < i < |Durations| ==> Durations[i].Fraction() == Durations[i - 1].Fraction() / 2.0
    ensures forall i :: 0 <= i < |Durations| ==>
      Durations[i].ToMillis(bpm, beatsPerMeasure) == EngineNote.ToMillis(Durations[i].Fraction(), bpm, beatsPerMeasure)
  {
  }

  datatype Note = Note(offset: int)
  {
    /** `Note.__add__`: the note a number of semitones above. */
    function Add(semitones: int): Note { Note(offset + semitones) }

    /** `Note.__sub__`: the note a number of semitones below. */
    function Sub(semitones: int): Note { Note(offset - semitones) }
  }

  /** Going down s semitones is going up -s semitones, and the two shifts
      undo each other. */
  lemma SubIsAddNegated(n: Note, s: int)
    ensures n.Sub(s) == n.Add(-s)
    ensures n.Add(s).Sub(s) == n && n.Sub(s).Add(s) == n
  {
  }

  datatype Chord = Chord(notes: seq<Note>)

  const StandardNote: Note := Note(0)

  /** The `NOTES` dictionary, in the source's order: each name and its
      "m"-suffixed variant. */
  const Notes: seq<(string, Note)> := [
    ("C", StandardNote.Sub(9)), ("Cm", StandardNote.Sub(9)),
    ("C#", StandardNote.Sub(8)), ("Db", StandardNote.Sub(8)),
    ("C#m", StandardNote.Sub(8)), ("Dbm", StandardNote.Sub(8)),
    ("D", StandardNote.Sub(7)), ("Dm", StandardNote.Sub(7)),
    ("D#", StandardNote.Sub(6)), ("Eb", StandardNote.Sub(6)),
    ("D#m", StandardNote.Sub(6)), ("Ebm", StandardNote.Sub(6)),
    ("E", StandardNote.Sub(5)), ("Em", StandardNote.Sub(5)),
    ("F", StandardNote.Sub(4)), ("Fm", StandardNote.Sub(4)),
    ("F#", StandardNote.Sub(3)), ("Gb", StandardNote.Sub(3)),
    ("F#m", StandardNote.Sub(3)), ("Gbm", StandardNote.Sub(3)),
    ("G", StandardNote.Sub(2)), ("Gm", StandardNote.Sub(2)),
    ("G#", StandardNote.Sub(1)), ("Ab", StandardNote.Sub(1)),
    ("G#m", StandardNote.Sub(1)), ("Abm", StandardNote.Sub(1)),
    ("A", StandardNote), ("Am", StandardNote),
    ("A#", StandardNote.Add(1)), ("Bb", StandardNote.Add(1)),
    ("A#m", StandardNote.Add(1)), ("Bbm", StandardNote.Add(1)),
    ("B", StandardNote.Add(2)), ("Bm", StandardNote.Add(2))]

  /** `NOTES[name]`: case-sensitive, KeyError for an unknown name. */
  function GetNote(name: string): (r: Result<Note>)
    ensures r.Ok? <==> name in Keys(Notes)
    ensures r.Err? ==> r.error == KeyError
  {
    match LookupExact(Notes, name)
    case Some(n) => Ok(n)
    case None => Err(KeyError)
  }

  /** No name appears twice, so every name finds its own entry. */
  lemma GetNoteTable(i: nat)
    requires i < |Notes|
    ensures GetNote(Notes[i].0) == Ok(Notes[i].1)
    ensures -9 <= Notes[i].1.offset <= 2
  {
    NamesListed();
    NamesDistinct();
    LookupExactDistinct(Notes, i);
    OffsetsInRange();
  }

  const Names: seq<string> :=
    ["C", "Cm", "C#", "Db", "C#m", "Dbm", "D", "Dm", "D#", "Eb", "D#m", "Ebm",
     "E", "Em", "F", "Fm", "F#", "Gb", "F#m", "Gbm", "G", "Gm", "G#", "Ab", "G#m", "Abm",
     "A", "Am", "A#", "Bb", "A#m", "Bbm", "B", "Bm"]

  lemma NamesListed()
    ensures Keys(Notes) == Names
  {
  }

  lemma NamesDistinct()
    ensures Distinct(Names)
  {
  }

  lemma OffsetsInRange()
    ensures forall i :: 0 <= i < |Notes| ==> -9 <= Notes[i].1.offset <= 2
  {
  }

  /** Every name the table knows gives a note between the C below A and the
      B above it, and A is the standard pitch itself. */
  lemma GetNoteRange(name: string)
    ensures GetNote(name).Ok? ==> -9 <= GetNote(name).value.offset <= 2
    ensures GetNote("A") == Ok(StandardNote)
  {
    if GetNote(name).Ok? {
      var i :| 0 <= i < |Notes| && Keys(Notes)[i] == name;
      GetNoteTable(i);
    }
    GetNoteTable(26);
  }

  /** The positions of each base name and of its "m" variant. */
  const Variants: seq<(nat, nat)> :=
    [(0, 1), (2, 4), (3, 5), (6, 7), (8, 10), (9, 11), (12, 13), (14, 15), (16, 18),
     (17, 19), (20, 21), (22, 24), (23, 25), (26, 27), (28, 30), (29, 31), (32, 33)]

  /** Every name without the suffix has an "m" variant naming the same note;
      `VariantsPartition` shows that these pairs make up the whole table. */
  lemma MinorVariant(k: nat)
    requires k < |Variants|
    ensures var (b, m) := Variants[k];
            b < |Notes| && m < |Notes| && Notes[m].0 == Notes[b].0 + "m"
            && GetNote(Notes[b].0 + "m") == GetNote(Notes[b].0)
    ensures |Notes| == 2 * |Variants|
  {
    var (b, m) := Variants[k];
    VariantEntries(k);
    GetNoteTable(b);
    GetNoteTable(m);
  }

  lemma VariantEntries(k: nat)
    requires k < |Variants|
    ensures var (b, m) := Variants[k];
            b < |Notes| && m < |Notes| && Notes[m].0 == Notes[b].0 + "m" && Notes[m].1 == Notes[b].1
  {
  }

  /** Pair k of `Variants` holds table position i. */
  predicate Covers(k: nat, i: nat)
    requires k < |Variants|
  {
    Variants[k].0 == i || Variants[k].1 == i
  }

  /** Some pair holds table position i. */
  predicate Owned(i: nat) {
    exists k :: 0 <= k < |Variants| && Covers(k, i)
  }

  /** The pairs split the table: every position lies in exactly one pair,
      and the two positions of a pair differ. */
  lemma VariantsPartition()
    ensures forall i :: 0 <= i < |Notes| ==> Owned(i)
    ensures forall k, l, i :: 0 <= k < |Variants| && 0 <= l < |Variants| && k != l && Covers(k, i) ==> !Covers(l, i)
    ensures forall k :: 0 <= k < |Variants| ==> Variants[k].0 != Variants[k].1
  {
    forall i | 0 <= i < |Notes|
      ensures Owned(i)
    {
      var k := if i < 2 then 0 else if i < 6 then (i - 2) % 2 + 1
               else if i < 8 then 3 else if i < 12 then (i - 8) % 2 + 4
               else if i < 14 then 6 else if i < 16 then 7 else if i < 20 then (i - 16) % 2 + 8
               else if i < 22 then 10 else if i < 26 then (i - 22) % 2 + 11
               else if i < 28 then 13 else if i < 32 then (i - 28) % 2 + 14 else 16;
      assert Covers(k, i);
    }
  }
}
