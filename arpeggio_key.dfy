/** src/arpeggio/key.py: keys built on the older mode module. Its note names
    come from src/arpeggio/note.py, which is not part of this model; the
    note table used is `EngineNote`'s. */
module ArpeggioKey {
  import opened Wrappers
  import opened Scales
  import ArpeggioMode
  import EngineNote
  import EngineKey

  /** `Key.from_name`: note first, then mode; either lookup's KeyError. */
  function FromName(note: string, mode: string): (r: Result<Key>)
    ensures r.Ok? <==> EngineNote.GetNote(note).Ok? && ArpeggioMode.GetMode(mode).Ok?
    ensures r.Ok? ==> r.value == Key(EngineNote.GetNote(note).value, ArpeggioMode.GetMode(mode).value)
    ensures r.Err? ==> r.error == KeyError
  {
    match EngineNote.GetNote(note)
    case Err(e) => Err(e)
    case Ok(tonic) =>
      match ArpeggioMode.GetMode(mode)
      case Err(e) => Err(e)
      case Ok(m) => Ok(Key(tonic, m))
  }

  /** The keys the project's tests build: A major sits on A440 itself. */
  lemma FromNameExamples()
    ensures FromName("A", "Major") == Ok(Key(EngineNote.StandardNote, [2, 2, 1, 2, 2, 2, 1]))
    ensures FromName("C#", "Minor") == Ok(Key(-8, [2, 1, 2, 2, 1, 2, 2]))
  {
    AMajor();
    CSharpMinor();
  }

  lemma AMajor()
    ensures FromName("A", "Major") == Ok(Key(EngineNote.StandardNote, [2, 2, 1, 2, 2, 2, 1]))
  {
    EngineNote.GetNoteTable("A", 13);
    EngineKey.GetModeTable("Major", 1);
    ArpeggioMode.SameAsEngine("Major");
  }

  lemma CSharpMinor()
    ensures FromName("C#", "Minor") == Ok(Key(-8, [2, 1, 2, 2, 1, 2, 2]))
  {
    EngineNote.GetNoteTable("C#", 1);
    EngineKey.GetModeTable("Minor", 3);
    ArpeggioMode.SameAsEngine("Minor");
  }

  /** For a key from names, degree i is degree ((i - 1) mod 7) + 1 carried
      ((i - 1) div 7) octaves, floor division included for degrees below 1,
      and i + 7 is the octave above i. */
  lemma FromNameWraps(note: string, mode: string, q: int, w: int, octave: int)
    requires FromName(note, mode).Ok? && 1 <= w <= 7
    ensures var k := FromName(note, mode).value;
            |k.mode| == 7
            && k.Note(q * 7 + w, octave) == Ok(k.tonic + Sum(k.mode[..w - 1]) + 12 * (octave + q))
            && k.Note(q * 7 + w + 7, octave) == k.Note(q * 7 + w, octave + 1)
  {
    var k := FromName(note, mode).value;
    ArpeggioMode.SameAsEngine(mode);
    k.NoteDecomposed(q, w, octave);
    k.NoteOctaveWrap(q * 7 + w, octave);
  }
}
