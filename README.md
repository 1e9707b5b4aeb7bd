# Arpeggio and Glissando in Dafny

This project models the core of the aazuspan/arpeggio repository:

- **Arpeggio** is a small text language for chiptune songs. The model covers:
  - the engine under `src/arpeggio/engine/`;
  - the older copies of keys, modes, tracks and songs directly under `src/arpeggio/`;
  - the AST transformer;
  - the interpreter, which turns a parsed program into an engine song;
  - the sample mixer;
  - the instrument registry.
- **Glissando** is the earlier Python-only API under `src/glissando/`. The model covers its notes, keys, tracks and songs.

How values are represented:

- **Notes** are integer semitone offsets. Name tables count from A440; a key's notes count from its tonic. Transposing by `s` semitones adds `s`, which stands for the source's multiplication of a frequency by 2^(s/12).
- **Durations** are exact fractions of a whole note (`real`). Inside the AST they are counts of sixteenth notes.
- **Failures** are the Python exceptions the code raises: `Wrappers.Result` with `ValueError`, `KeyError`, `TypeError`, `ZeroDivisionError` or `AttributeError`.
- **A track's audio segment** is a timeline: a sequence of `(playable, milliseconds)` events (`Timeline.Event`).
- **A song's render** is the mix to be made: the layers to overlay and how many times the result repeats (`Timeline.Mix`).
- **The sample-level mixer** `normalized_overlay` is modelled on integer sample arrays (`Audio`).
- **Signal synthesis** is a function parameter of the instrument call.

Modules (one file each):

| module | file | models |
|---|---|---|
| `Wrappers`, `Seqs` | wrappers.dfy | exception kinds, `Result`/`Option`, list repetition `s * n`, filtering and flattening |
| `Tables` | tables.dfy | dictionaries as ordered entry lists; exact lookup and lowercase-keyed lookup |
| `Scales` | scales.dfy | the mode and key arithmetic, shared by all three key modules |
| `EngineNote`, `EngineKey` | engine_note.dfy, engine_key.dfy | src/arpeggio/engine/note.py, src/arpeggio/engine/key.py |
| `ArpeggioMode`, `ArpeggioKey` | arpeggio_mode.dfy, arpeggio_key.dfy | src/arpeggio/mode.py, src/arpeggio/key.py |
| `GlissandoNote`, `GlissandoKey` | glissando_note.dfy, glissando_key.dfy | src/glissando/note.py, src/glissando/key.py |
| `Audio` | audio.dfy | src/arpeggio/audio.py |
| `Instruments` | instruments.dfy | src/arpeggio/instrument.py |
| `Timeline` | timeline.dfy | timelines and mixes |
| `ArpAst` | ast.dfy | src/arpeggio/arp_ast.py |
| `Engine` | engine.dfy | src/arpeggio/engine/track.py, src/arpeggio/engine/song.py |
| `Arpeggio` | arpeggio_playback.dfy | src/arpeggio/track.py, src/arpeggio/song.py |
| `Glissando` | glissando_playback.dfy | src/glissando/track.py, src/glissando/song.py |
| `Interpreter` | interpreter.dfy | src/arpeggio/interpreter.py |

Pure code is written as functions and lemmas. The code that changes state is written as classes and methods:

- tracks, whose segment grows or is looped in place;
- songs, whose track list grows;
- the interpreter's loops;
- the mixer's in-place array updates;
- the AST transformer's `line` and `config_dict` loops.

Each method is proved against a function that specifies it.

## Model

| member | source | states |
|---|---|---|
| Scales.SemitonesTo | src/arpeggio/engine/key.py:9-15 | `semitones_to` fails with ValueError exactly when the degree is outside [1, len(mode)] |
| Scales.SemitonesToTonic | src/arpeggio/engine/key.py:15 | degree 1 at octave o is 12*o semitones |
| Scales.SemitonesToStep | src/arpeggio/mode.py:8 | one degree up adds the step between the two degrees (the prefix-sum formula) |
| Scales.SemitonesToIncreasing | src/arpeggio/engine/key.py:15 | with positive steps, later degrees are strictly further from the tonic |
| Scales.SumPrefixStep | src/arpeggio/mode.py:8 | the slice sum `sum(self[:k+1])` is `sum(self[:k]) + self[k]` |
| Scales.DivModNext | src/arpeggio/key.py:29-30 | how Python's `//` and `%` by the mode length move when the degree grows by one |
| Scales.DivModShift | src/arpeggio/key.py:29-30 | adding the mode length keeps the remainder and adds one to the quotient |
| Scales.Key.Note | src/arpeggio/engine/key.py:30-40 | `note` fails only for an empty mode (ZeroDivisionError); otherwise it is never out of range |
| Scales.Key.NoteInRange | src/arpeggio/engine/key.py:37-40 | within [1, len(mode)] the note is the tonic plus `semitones_to(i, o)` |
| Scales.Key.NoteDecomposed | src/arpeggio/key.py:29-32 | floor semantics: degree q*len+w, for any integer q, is degree w carried q octaves |
| Scales.Key.NoteOctaveWrap | src/arpeggio/engine/key.py:37-40 | note(i + len, o) == note(i, o + 1) |
| Scales.Key.NoteStep | src/arpeggio/engine/key.py:37-40 | for a mode summing to 12, one degree up adds the step at the wrapped position |
| Scales.Key.NoteIncreasing | src/arpeggio/engine/key.py:37-40 | for a positive mode summing to 12, a higher degree gives a higher note, across octaves |
| Scales.Key.Chord | src/arpeggio/engine/key.py:42-50 | `chord` fails only for an empty mode, and holds three notes |
| Scales.Key.ChordIsTriad | src/arpeggio/engine/key.py:42-50 | the chord is exactly [note(i,o), note(i+2,o), note(i+4,o)] |
| Scales.Key.ChordOctaveWrap | src/arpeggio/engine/key.py:42-50 | chord(i + len, o) == chord(i, o + 1) |
| Scales.Key.ChordAscending | src/arpeggio/engine/key.py:42-50 | for a diatonic mode the triad ascends and spans less than an octave |
| Scales.Key.OctaveShift | src/arpeggio/engine/key.py:37-40 | one octave up adds 12 semitones |
| Scales.Key.Scale | src/arpeggio/engine/key.py:26-28 | `scale` is the 8 notes of degrees 1 to 8 |
| Scales.Key.ScaleSpansOctave | src/arpeggio/engine/key.py:26-28 | with 7 steps summing to 12 the scale runs from the tonic to the tonic + 12, ascending when diatonic |
| EngineNote.DurationsHalve | src/arpeggio/engine/note.py:16-20 | the duration constants are 1, 1/2, 1/4, 1/8 and 1/16, each half the one before |
| EngineNote.ToMillis | src/arpeggio/engine/note.py:11-13 | `to_millis`: millis * bpm == 60000 * d * beats_per_measure (default 4); a zero tempo raises ZeroDivisionError |
| EngineNote.ToMillisExamples | tests/test_note.py:7-10 | the four worked values of the tests (1000, 250, 1000, 250 ms) |
| EngineNote.ToMillisScales | src/arpeggio/engine/note.py:11-13 | halving the duration or doubling the tempo halves the length |
| EngineNote.Up | src/arpeggio/engine/note.py:33-35 | `note + s` is the note s semitones up |
| EngineNote.Down | src/arpeggio/engine/note.py:29-31 | `note - s` is the note s semitones down |
| EngineNote.ShiftsInverse | src/arpeggio/engine/note.py:29-35 | `+s` and `-s` undo each other and `-s` is `+(-s)`; against the note table, A + 3 is the C an octave above the table's C, and A - 12 brought back up is the table's A (tests/test_note.py:14-17) |
| EngineNote.GetNote | src/arpeggio/engine/note.py:66-68 | `get_note` raises KeyError exactly when the lowered name is not a lowered table key |
| EngineNote.NoteKeysLowered | src/arpeggio/engine/note.py:45-63 | the lowered keys of the `notes` table, in order |
| EngineNote.GetNoteTable | src/arpeggio/engine/note.py:45-68 | every table name, in any case, finds its own offset |
| EngineNote.GetNoteRange | src/arpeggio/engine/note.py:45-63 | every known note lies in [-9, 2] semitones from A |
| EngineNote.GetNoteIgnoresCase | src/arpeggio/engine/note.py:66-68 | the case of the query never matters |
| EngineNote.EnharmonicsAgree | src/arpeggio/engine/note.py:45-63 | C#/Db, D#/Eb, F#/Gb, G#/Ab and A#/Bb name the same note |
| EngineNote.NoteExamples | src/arpeggio/engine/note.py:42-68 | "A" is the standard pitch, "c" is 9 below it, "H" raises KeyError |
| EngineNote.NoteH | src/arpeggio/engine/note.py:66-68 | "H" lowers to no key of the table and raises KeyError |
| EngineKey.ModesDiatonic | src/arpeggio/engine/key.py:58-70 | every table mode has 7 positive steps summing to 12 |
| EngineKey.ModeKeysLowered | src/arpeggio/engine/key.py:58-70 | the lowered mode names, in order |
| EngineKey.GetMode | src/arpeggio/engine/key.py:73-75 | `get_mode` raises KeyError exactly when the lowered name is unknown |
| EngineKey.GetModeTable | src/arpeggio/engine/key.py:58-75 | every mode name, in any case, finds its own step list |
| EngineKey.GetModeDiatonic | src/arpeggio/engine/key.py:58-75 | whatever `get_mode` returns is diatonic |
| EngineKey.GetModeIgnoresCase | src/arpeggio/engine/key.py:73-75 | the case of the query never matters |
| EngineKey.ModeAliases | src/arpeggio/engine/key.py:59-62 | Major equals Ionian and Minor equals Aeolian |
| EngineKey.TableModeIncreasing | src/arpeggio/engine/key.py:9-15 | `semitones_to` strictly increases over [1, 7] for every table mode |
| EngineKey.FromName | src/arpeggio/engine/key.py:52-55 | `from_name` gives Key(get_note(n), get_mode(m)), or the KeyError of either lookup |
| EngineKey.FromNameKeyTotal | src/arpeggio/engine/key.py:26-55 | a key built from names never fails in note or chord, wraps by octaves, and its scale spans tonic to tonic + 12 |
| ArpeggioMode.GetMode | src/arpeggio/mode.py:26-28 | case-insensitive `get_mode`, KeyError exactly for unknown names |
| ArpeggioMode.SameAsEngine | src/arpeggio/mode.py:11-28 | this table is the engine's entry for entry, so both lookups agree, and every mode found is diatonic |
| ArpeggioMode.SemitonesExamples | tests/test_mode.py:5-12 | the six semitone counts of the tests for Major and Minor |
| ArpeggioKey.FromName | src/arpeggio/key.py:44-47 | `from_name` gives Key(get_note(n), get_mode(m)), or the KeyError of either lookup |
| ArpeggioKey.FromNameExamples | tests/test_key.py:7-13 | A major sits on A440 with mode [2,2,1,2,2,2,1]; C# minor has mode [2,1,2,2,1,2,2] |
| ArpeggioKey.AMajor | tests/test_key.py:7-9 | `from_name("A", "Major")` is the key on A440 with mode [2,2,1,2,2,2,1] |
| ArpeggioKey.CSharpMinor | tests/test_key.py:11-13 | `from_name("C#", "Minor")` is the key 8 semitones below A with mode [2,1,2,2,1,2,2] |
| ArpeggioKey.FromNameWraps | src/arpeggio/key.py:22-32 | for keys from names, degree q*7+w is degree w carried q octaves, and i+7 is i an octave up |
| GlissandoNote.NoteDuration.ToMillis | src/glissando/note.py:16-19 | millis * bpm == 60000 * fraction * beats_per_measure, computed exactly; a zero tempo raises ZeroDivisionError |
| GlissandoNote.DurationsHalve | src/glissando/note.py:22-43 | the fractions run 1 down to 1/32, each half the one before, with the engine's formula |
| GlissandoNote.SubIsAddNegated | src/glissando/note.py:55-61 | `n - s` is `n + (-s)`, and the two shifts undo each other |
| GlissandoNote.GetNote | src/glissando/note.py:71-106 | `NOTES[name]` is case-sensitive and raises KeyError exactly for names not in the table |
| GlissandoNote.GetNoteTable | src/glissando/note.py:71-106 | every name finds its own note, an offset in [-9, 2] |
| GlissandoNote.NamesListed | src/glissando/note.py:71-106 | the table's names, in order |
| GlissandoNote.NamesDistinct | src/glissando/note.py:71-106 | no name occurs twice |
| GlissandoNote.OffsetsInRange | src/glissando/note.py:71-106 | every offset lies in [-9, 2] |
| GlissandoNote.GetNoteRange | src/glissando/note.py:69-106 | every lookup that succeeds gives an offset in [-9, 2], and "A" is the standard pitch |
| GlissandoNote.MinorVariant | src/glissando/note.py:71-106 | every base name has an "m" variant giving the same note; the table holds twice as many names as there are pairs |
| GlissandoNote.VariantsPartition | src/glissando/note.py:71-106 | the base/"m" pairs partition the table: every entry is in exactly one pair, and no pair uses an entry twice |
| GlissandoNote.Note.Add | src/glissando/note.py:59-61 | `n + s` is the note s semitones up (`SubIsAddNegated` relates it to `-`) |
| GlissandoNote.Note.Sub | src/glissando/note.py:55-57 | `n - s` is the note s semitones down |
| GlissandoNote.VariantEntries | src/glissando/note.py:71-106 | the positions of each base name and its "m" variant |
| GlissandoKey.ModeClass.SemitonesTo | src/glissando/key.py:15-22 | class-level `semitones_to`: success iff the degree is in [1, 7], the prefix sum plus 12*octave |
| GlissandoKey.ModeClass.IntervalsDiatonic | src/glissando/key.py:63-118 | every mode class has 7 positive intervals summing to 12 |
| GlissandoKey.Key.Note | src/glissando/key.py:40-50 | `note` never fails and agrees with the shared key arithmetic |
| GlissandoKey.Key.Chord | src/glissando/key.py:52-60 | `chord` is exactly the triad of degrees i, i+2, i+4 |
| GlissandoKey.Key.Scale | src/glissando/key.py:36-38 | `scale` is the 8 notes of degrees 1 to 8 |
| GlissandoKey.Key.Wraps | src/glissando/key.py:40-60 | note(i+7,o) == note(i,o+1), the same for chords; triads ascend within an octave; the scale runs from the tonic to the tonic + 12 |
| GlissandoKey.NewKey | src/glissando/key.py:29-34 | a note tonic is kept; a string tonic is looked up in `NOTES`, an unknown one raising KeyError |
| GlissandoKey.NewKeyByName | src/glissando/key.py:29-34 | every table name gives the key on its note; "A" and "Am" are the standard pitch |
| GlissandoKey.NewKeyCaseSensitive | src/glissando/key.py:29-31 | "a" is not a tonic name (KeyError) |
| Tables.Lookup | src/arpeggio/engine/note.py:68 | the lowered-key dictionary has the query exactly when some key lowers to the lowered query |
| Tables.LookupIn | src/arpeggio/engine/note.py:68 | the lowered dictionary keeps a value for q exactly when some key lowers to q |
| Tables.LookupInLast | src/arpeggio/engine/note.py:68 | when two keys lower alike, the later entry wins, as in a dict comprehension |
| Tables.LookupDistinct | src/arpeggio/engine/note.py:68 | with distinct lowered keys, each entry is found by its own name in any case |
| Tables.LookupIgnoresCase | src/arpeggio/engine/note.py:68 | lowering the query first changes nothing |
| Tables.LookupExact | src/glissando/key.py:31 | a dictionary index finds exactly the names in the table |
| Tables.LookupExactInLast | src/glissando/key.py:31 | an exact lookup finds the last entry with that name |
| Tables.LookupExactDistinct | src/glissando/key.py:31 | with distinct names, each entry is found by its name |
| Tables.Lower | src/arpeggio/engine/note.py:68 | lowering keeps the length and maps each character on its own: ASCII 'A' to 'Z' become 'a' to 'z', every other character is kept |
| Tables.LowerIdempotent | src/arpeggio/engine/note.py:68 | lowering twice is lowering once |
| Audio.MaxLen | src/arpeggio/audio.py:13-15 | the longest segment's sample count: no segment is longer and one reaches it |
| Audio.Summed | src/arpeggio/audio.py:17-21 | the zero-padded sum, as long as the longest segment |
| Audio.SeqMax | src/arpeggio/audio.py:25 | `output.max()`: bounds every sample and is one of them |
| Audio.SeqMin | src/arpeggio/audio.py:25 | `output.min()`: bounded by every sample and is one of them |
| Audio.Interp | src/arpeggio/audio.py:26 | the affine map lies in [-32768, 32767], sending max to 32767 and min to -32768 |
| Audio.Truncate | src/arpeggio/audio.py:28 | `astype(np.int16)` truncates toward zero |
| Audio.Rescale | src/arpeggio/audio.py:26-28 | every rescaled sample lies in the 16-bit range |
| Audio.Overlay | src/arpeggio/audio.py:6-28 | `normalized_overlay` raises ValueError exactly when there is no sample at all |
| Audio.OverlaySpec | src/arpeggio/audio.py:13-28 | the output is as long as the longest input, always fits 16 bits, and is the plain sum whenever the sum fits |
| Audio.NoClipInRange | src/arpeggio/audio.py:25 | a sum within range takes no rescale |
| Audio.RescaleMonotone | src/arpeggio/audio.py:26 | rescaling keeps sample order, maps the maximum to 32767 and the minimum to -32768 |
| Audio.SumAtSingle | src/arpeggio/audio.py:19-21 | one segment sums to itself, zero-padded |
| Audio.OverlaySingle | src/arpeggio/audio.py:6-28 | one non-empty in-range segment comes back unchanged |
| Audio.SumAtPrefix | src/arpeggio/audio.py:19-21 | adding one more segment adds its sample where it has one |
| Audio.MaxLenPrefix | src/arpeggio/audio.py:13-15 | the running maximum of the lengths |
| Audio.SeqMaxPrefix | src/arpeggio/audio.py:25 | the running maximum and minimum of the samples |
| Audio.LongestLength | src/arpeggio/audio.py:13-15 | the scan finds the longest length |
| Audio.AddInto | src/arpeggio/audio.py:21 | `output[:len(s)] += s` adds s onto the prefix and leaves the rest |
| Audio.Extremes | src/arpeggio/audio.py:25 | the scan finds `output.min()` and `output.max()` |
| Audio.RescaleAll | src/arpeggio/audio.py:26 | every sample is rescaled in place |
| Audio.SumSegments | src/arpeggio/audio.py:17-21 | the zeroed array with every segment added is the zero-padded sum |
| Audio.NormalizedOverlay | src/arpeggio/audio.py:6-28 | the imperative mixer returns exactly `Overlay` |
| Instruments.GetInstrument | src/arpeggio/instrument.py:96-97 | `get_instrument` raises KeyError exactly for names unknown in any case |
| Instruments.GetInstrumentTable | src/arpeggio/instrument.py:87-93 | the registry holds exactly sine, triangle, square, sawtooth and noise, each found in any case |
| Instruments.Silence | src/arpeggio/instrument.py:55-56 | a rest is all-zero, int(11025 * ms / 1000) frames long |
| Instruments.PlayNote | src/arpeggio/instrument.py:42-47 | a note is handed to the instrument's generator at its pitch; for white noise (lines 78-84) without one |
| Instruments.Call | src/arpeggio/instrument.py:30-47 | None gives silence, a note one slice, a chord the overlay of its notes' slices, anything else TypeError; a note, or a chord with notes, asked for a negative number of frames raises ValueError |
| Instruments.Frames | src/arpeggio/instrument.py:42-47 | the generator's frame count `int(sample_rate * duration / 1000)` is negative exactly when the duration is a whole frame or more below zero |
| Instruments.ChordMix | src/arpeggio/instrument.py:49-53 | a chord fails, with ValueError, exactly when the generator refuses the duration or the mix has no sample; otherwise it fits 16 bits and is as long as the longest slice |
| Instruments.NoiseIgnoresPitch | src/arpeggio/instrument.py:75-84 | white noise sounds the same for every note |
| Timeline.Span | src/arpeggio/instrument.py:55-56 | the length of the slice one event adds: its duration, or nothing for a duration of zero or less |
| Timeline.Length | src/arpeggio/engine/track.py:56-58 | `len(segment)`: the slices of the events added up |
| Timeline.LengthNonNegative | src/arpeggio/engine/track.py:56-58 | no segment lasts a negative time |
| Timeline.LengthZero | src/arpeggio/audio.py:13-25 | a segment lasts no time exactly when every event of it adds an empty slice (`Silent`) |
| Timeline.LengthAppend | src/arpeggio/engine/track.py:89-91 | appending to a segment adds the lengths |
| Timeline.LengthRepeat | src/arpeggio/engine/track.py:95-96 | n copies of a segment are n times as long |
| Timeline.LengthLoop | src/arpeggio/track.py:78-80 | `segment * n` lasts n times as long, and no time for n <= 0 |
| Timeline.RepeatTimes | src/glissando/track.py:70-72 | n copies of a segment last its length n times over |
| Timeline.TimesIsProduct | src/glissando/song.py:44-46 | x added n times is n*x |
| Timeline.MaxLength | src/arpeggio/engine/song.py:24-26 | the longest of some lengths: it bounds all and one reaches it |
| ArpAst.ConfigEntry | src/arpeggio/arp_ast.py:44-47 | a directive is a one-entry dictionary; no value gives True |
| ArpAst.Octave | src/arpeggio/arp_ast.py:49-57 | the four octave marks are accepted; any other raises KeyError |
| ArpAst.OctaveMark | src/arpeggio/arp_ast.py:51-56 | exactly the offsets -2, -1, 1, 2 have a mark |
| ArpAst.OctaveMarksInverse | src/arpeggio/arp_ast.py:51-57 | marks and offsets correspond one to one (_ -2, - -1, + 1, * 2) |
| ArpAst.Merge | src/arpeggio/arp_ast.py:78-88 | the fold of `line`: a Continue lengthens the last entry by a sixteenth, a Continue with nothing before raises ValueError, any other symbol starts an entry |
| ArpAst.MergeFails | src/arpeggio/arp_ast.py:81-84 | the fold raises ValueError iff the symbols start with Continue |
| ArpAst.MergeShape | src/arpeggio/arp_ast.py:78-88 | one entry per non-Continue symbol, each at least a sixteenth, all adding up to one sixteenth per symbol |
| ArpAst.MergeContinues | src/arpeggio/arp_ast.py:82-85 | n Continues lengthen the last entry by n sixteenths |
| ArpAst.MergeContinue | src/arpeggio/arp_ast.py:81-85 | one Continue lengthens the last entry by a sixteenth |
| ArpAst.MergeExpand | src/arpeggio/arp_ast.py:78-88 | merging the symbols an entry list stands for gives the entries back |
| ArpAst.ExpandMerge | src/arpeggio/arp_ast.py:78-88 | expanding the merge gives the symbols back: each entry is its symbol plus one Continue per extra sixteenth |
| ArpAst.ExpandAppend | src/arpeggio/arp_ast.py:78-88 | expansion runs entry by entry |
| ArpAst.TotalSixteenthsBump | src/arpeggio/arp_ast.py:85 | lengthening the last entry lengthens the total by as much |
| ArpAst.TotalSixteenthsAppend | src/arpeggio/arp_ast.py:88 | a new entry adds its length to the total |
| ArpAst.Repeated | src/arpeggio/arp_ast.py:75-76 | `symbols *= repeat` when repeat is non-zero, otherwise the symbols unchanged |
| ArpAst.Line | src/arpeggio/arp_ast.py:71-90 | `line`'s loop returns exactly the merge of the repeated symbols (`symbols *= repeat` when repeat is non-zero) |
| ArpAst.LineCount | src/arpeggio/arp_ast.py:75-88 | n symbols repeated r times give one entry per non-Continue symbol per copy, n*r sixteenths in all (tests/test_parser.py:33) |
| ArpAst.CountAppend | src/arpeggio/arp_ast.py:81-88 | counting entries is additive over concatenation |
| ArpAst.CountRepeat | src/arpeggio/arp_ast.py:75-76 | r copies hold r times the entries |
| ArpAst.Merged | src/arpeggio/arp_ast.py:92-97 | the directives' dictionaries laid over each other in order |
| ArpAst.MergedLastWins | src/arpeggio/arp_ast.py:92-97 | a key is configured iff some directive sets it, with the last such directive's value |
| ArpAst.ConfigDict | src/arpeggio/arp_ast.py:92-97 | the `update` loop builds exactly that merge |
| ArpAst.DigitValue | src/arpeggio/arp_ast.py:103 | decimal digits are 0 to 9 |
| ArpAst.DigitChar | src/arpeggio/arp_ast.py:103 | each digit has its character |
| ArpAst.ParseInt | src/arpeggio/arp_ast.py:103 | `int(text)`: an optional sign and decimal digits; anything else raises ValueError |
| ArpAst.Pow10 | src/arpeggio/arp_ast.py:102 | powers of ten are positive |
| ArpAst.IndexOfDot | src/arpeggio/arp_ast.py:101 | the first "." of the text |
| ArpAst.ParseDecimal | src/arpeggio/arp_ast.py:102 | `float(text)` of a text with a point: an optional sign, digits, the point, digits; anything else raises ValueError |
| ArpAst.SignedNumber | src/arpeggio/arp_ast.py:99-103 | a float iff the text holds ".", otherwise an int; bad text raises ValueError |
| ArpAst.ShowNat | src/arpeggio/arp_ast.py:103 | the decimal numeral of a natural number is non-empty digits |
| ArpAst.DigitsShowNat | src/arpeggio/arp_ast.py:103 | the digits of a numeral read back as the number |
| ArpAst.ShowNatPlain | src/arpeggio/arp_ast.py:101-103 | a numeral has no point and no sign |
| ArpAst.SignedNumberShowInt | src/arpeggio/arp_ast.py:99-103 | any integer written in decimal reads back as that integer |
| ArpAst.DigitsAll | src/arpeggio/arp_ast.py:103 | a text reads as digits exactly when every character is a decimal digit |
| ArpAst.ParseIntAccepts | src/arpeggio/arp_ast.py:103 | `int(text)` succeeds exactly when the text after an optional sign is non-empty digits, and gives that number, negated after '-' |
| ArpAst.ParseDecimalAccepts | src/arpeggio/arp_ast.py:102 | `float(text)` succeeds exactly when the text after an optional sign has more than the point, with digits on both sides of its first point |
| ArpAst.IndexOfDotAt | src/arpeggio/arp_ast.py:101 | the first "." of a text is the one with no "." before it |
| ArpAst.DecimalPieces | src/arpeggio/arp_ast.py:102 | "w.ds" splits at its point into the numeral of w and ds |
| ArpAst.ParseDecimalPieces | src/arpeggio/arp_ast.py:102 | an accepted decimal text has the value of its whole part plus its fraction digits over a power of ten |
| ArpAst.DecimalReads | src/arpeggio/arp_ast.py:102 | `float("w.ds")` is w + ds / 10^len(ds) |
| ArpAst.ParseDecimalNegate | src/arpeggio/arp_ast.py:102 | a leading '-' negates the value of an unsigned decimal text |
| ArpAst.SignedNumberDecimal | src/arpeggio/arp_ast.py:99-102 | "w.ds" is read as the float w + ds / 10^len(ds) |
| ArpAst.SignedNumberNegate | src/arpeggio/arp_ast.py:99-102 | "-w.ds" is read as the negation of "w.ds" |
| ArpAst.SignedNumberOfDecimal | src/arpeggio/arp_ast.py:99-102 | a text with a point that `float` accepts is read as that float |
| Engine.CheckTrack | src/arpeggio/engine/track.py:46-54 | construction succeeds iff volume <= 0, pan in [-1, 1] and loop >= 1; otherwise ValueError |
| Engine.DefaultTrackParamsValid | src/arpeggio/engine/track.py:21-44 | the dataclass defaults pass the checks |
| Engine.Track.constructor | src/arpeggio/engine/track.py:21-54 | a checked track holds its parameters and an empty segment |
| Engine.PlayableOf | src/arpeggio/engine/track.py:68-72 | with `chords` the key's chord, otherwise its note, at the call octave plus the track octave; ZeroDivisionError exactly for an empty mode |
| Engine.Track.AddToTimeline | src/arpeggio/engine/track.py:81-91 | one event of `to_millis(song.bpm)` appended at the end, earlier ones unchanged; a zero tempo raises ZeroDivisionError, a note or chord the generator refuses raises ValueError, and then nothing is added |
| Engine.Track.Play | src/arpeggio/engine/track.py:60-75 | appends and returns the note or chord; ZeroDivisionError for an empty mode or a zero tempo, ValueError for a duration the generator refuses, and then nothing is appended |
| Engine.Track.Rest | src/arpeggio/engine/track.py:77-79 | appends one silent event; only a zero tempo raises, ZeroDivisionError |
| Engine.Track.Len | src/arpeggio/engine/track.py:56-58 | `len(track)`: the segment's length, zero exactly when every event of it is silent |
| Engine.Track.Render | src/arpeggio/engine/track.py:93-98 | the segment repeated `loop` times when loop > 1, otherwise the segment itself |
| Engine.Track.RenderSpec | src/arpeggio/engine/track.py:93-98 | the render is `loop` copies: event i is timeline event i mod n |
| Engine.Track.RenderLength | src/arpeggio/engine/track.py:93-98 | the render lasts `loop` times the track's length |
| Engine.Selected | src/arpeggio/engine/song.py:29-31 | the solo tracks if any (muted or not), else the unmuted tracks |
| Engine.SelectedCount | src/arpeggio/engine/song.py:29-31 | a selected track is played as many times as the song lists it, any other not at all |
| Engine.Song.constructor | src/arpeggio/engine/song.py:17-22 | defaults 120 bpm, 11025 Hz, loop 1, no tracks |
| Engine.Song.Len | src/arpeggio/engine/song.py:24-26 | the longest track; no tracks raises ValueError |
| Engine.MixLength | src/arpeggio/engine/song.py:28-37 | a song's mix has a selected track, and its longest layer is the longest selected render; `Mix.Length` repeats that `repeat` times |
| Engine.Song.Render | src/arpeggio/engine/song.py:28-37 | the selected tracks' renders overlaid, the mix repeated `loop` times when loop > 1; ValueError exactly when every selected render is silent, which includes no track selected |
| Engine.Song.AddTrack | src/arpeggio/engine/song.py:43-49 | a fresh checked track appended last and returned, earlier tracks unchanged; bad parameters raise ValueError and add nothing |
| Engine.RenderLayers | src/arpeggio/engine/song.py:28-37 | each layer of the mix lasts its track's `loop` times its length |
| Engine.LayerLength | src/arpeggio/engine/track.py:93-98 | a track's render lasts `loop` times its length |
| Engine.ValidTrack | src/arpeggio/engine/song.py:43-49 | every track a song selects passed its checks |
| Arpeggio.TrackInit | src/arpeggio/track.py:28-31 | volume > 0 raises ValueError; then the instrument class is instantiated. The pan is not checked here; a pan outside [-1, 1] raises later, in `Arpeggio.Track.Play` and `Arpeggio.Track.Rest` |
| Arpeggio.AddTrackAsWrittenFails | src/arpeggio/song.py:44-46 | passing an instrument instance always fails, where the class with defaults succeeds |
| Arpeggio.Track.constructor | src/arpeggio/track.py:17-39 | the track holds its parameters and starts with an empty segment |
| Arpeggio.Track.Playable | src/arpeggio/track.py:53-58 | with `chords` the key's chord, otherwise its note, at the call octave plus the track octave; ZeroDivisionError exactly for an empty mode |
| Arpeggio.Track.AddToTimeline | src/arpeggio/track.py:66-76 | one event appended at the end. A zero tempo raises ZeroDivisionError. A note or chord the generator refuses at the song's sample rate raises ValueError, and so does `.pan` for a pan outside [-1, 1]. Nothing is added when it raises |
| Arpeggio.Track.Play | src/arpeggio/track.py:45-60 | appends and returns the note or chord; ZeroDivisionError for an empty mode or a zero tempo, ValueError for a duration the generator refuses or a pan outside [-1, 1] |
| Arpeggio.Track.Rest | src/arpeggio/track.py:62-64 | appends one silent event; ZeroDivisionError at a zero tempo, otherwise ValueError exactly for a pan outside [-1, 1] |
| Arpeggio.Track.Len | src/arpeggio/track.py:41-43 | `len(track)`: the segment's length, zero exactly when every event of it is silent |
| Arpeggio.Track.Loop | src/arpeggio/track.py:78-80 | the segment is replaced by n copies of itself, n times as long |
| Arpeggio.Selected | src/arpeggio/song.py:29-31 | the solo tracks if any, else the unmuted tracks |
| Arpeggio.SelectedCount | src/arpeggio/song.py:29-31 | a selected track is played as many times as the song lists it, any other not at all |
| Arpeggio.Song.constructor | src/arpeggio/song.py:17-22 | defaults 120 bpm, 11025 Hz, no tracks, loop 1 |
| Arpeggio.Song.Len | src/arpeggio/song.py:24-26 | the longest track; no tracks raises ValueError |
| Arpeggio.Song.RenderAsWritten | src/arpeggio/song.py:28-36 | as written, render always raises: AttributeError for any selected track, ValueError for none |
| Arpeggio.RenderAsWrittenFails | src/arpeggio/song.py:34-36 | a song with a selected track of positive length fails as written where the intended render succeeds |
| Arpeggio.Song.Render | src/arpeggio/song.py:28-36 | intended render: each selected segment looped when loop > 1 before the overlay, the mix played once; ValueError exactly when every selected segment is silent, which includes no track selected |
| Arpeggio.Song.AddTrackAsWritten | src/arpeggio/song.py:42-48 | as written, add_track always raises the track constructor's error |
| Arpeggio.Song.AddTrack | src/arpeggio/song.py:42-48 | intended add_track: a fresh empty track appended and returned; volume > 0 raises ValueError and adds nothing |
| Arpeggio.RenderLayers | src/arpeggio/song.py:33-36 | each layer lasts LoopCount(loop) times its track's length |
| Arpeggio.SelectedLength | src/arpeggio/song.py:33-34 | a selected track looped lasts LoopCount(loop) times its length |
| Arpeggio.LoopCount | src/arpeggio/song.py:33 | a loop above 1 plays that many times, otherwise once |
| Arpeggio.LoopedAt | src/arpeggio/song.py:34 | event k of a looped segment is event k mod n of the segment |
| Arpeggio.SilentLooped | src/arpeggio/song.py:33-35 | looping a segment keeps it silent or sounding |
| Arpeggio.LoopedLength | src/arpeggio/song.py:34-36 | a looped segment lasts LoopCount(loop) times its length |
| Glissando.NotePlayable | src/glissando/track.py:40-41 | a note is handed to the instrument at its offset |
| Glissando.ChordPlayable | src/glissando/track.py:51-52 | a chord is handed over note by note |
| Glissando.Track.constructor | src/glissando/track.py:17-26 | the track holds its instrument, song and volume and starts empty |
| Glissando.Track.AddToTimeline | src/glissando/track.py:58-68 | one event of `to_millis(song.bpm)` appended at the end; a zero tempo raises ZeroDivisionError, a note or chord at a bit depth other than 8, 16 or 32 raises KeyError, and one the generator refuses raises ValueError (white noise runs at pydub's defaults of 44100 Hz and 16 bits); then nothing is added |
| Glissando.Track.AddNote | src/glissando/track.py:32-41 | appends the key's note at the given octave, with no track octave, a quarter note by default; ZeroDivisionError at a zero tempo, otherwise KeyError exactly at a bit depth other than 8, 16 or 32, otherwise ValueError exactly when the frame count is negative |
| Glissando.Track.AddChord | src/glissando/track.py:43-52 | appends the key's triad, a quarter note by default; ZeroDivisionError at a zero tempo, otherwise KeyError exactly at a bit depth other than 8, 16 or 32, otherwise ValueError exactly when the frame count is negative |
| Glissando.Track.AddRest | src/glissando/track.py:54-56 | appends one silent event, a quarter note by default; only a zero tempo raises, ZeroDivisionError |
| Glissando.Track.Len | src/glissando/track.py:28-30 | `len(track)`: the segment's length, zero exactly when every event of it is silent |
| Glissando.Track.Loop | src/glissando/track.py:70-72 | the segment is replaced by n copies, n times as long |
| Glissando.Song.constructor | src/glissando/song.py:13-20 | defaults 120 bpm, 11025 Hz, 8-bit, no tracks |
| Glissando.Song.Segments | src/glissando/song.py:29-30 | the tracks' segments in order |
| Glissando.Song.Len | src/glissando/song.py:22-24 | the longest track; no tracks raises ValueError |
| Glissando.Song.Rendered | src/glissando/song.py:26-32 | what `render` makes: silence of the song's length with every track's segment laid on; no tracks raises ValueError |
| Glissando.Song.Render | src/glissando/song.py:26-32 | the overlay loop builds silence of the song's length with every track laid on, in order |
| Glissando.Song.AddTrack | src/glissando/song.py:38-42 | a fresh empty track appended and returned; volume > 0 raises ValueError and adds nothing |
| Glissando.Song.Loop | src/glissando/song.py:44-46 | every track's segment is looped n times |
| Glissando.RenderFits | src/glissando/song.py:26-32 | every track fits on the silence, and one reaches its end: the render is as long as the longest track |
| Glissando.LoopLength | src/glissando/song.py:44-46 | looping every track n times makes the longest track n times as long |
| Glissando.TimesMonotone | src/glissando/song.py:44-46 | repetition keeps the order of lengths |
| Glissando.ScaledMax | src/glissando/song.py:44-46 | scaling every length scales the maximum |
| Glissando.MaxLengthUnique | src/glissando/song.py:22-24 | a bound reached by one layer is the maximum |
| Interpreter.Split | src/arpeggio/interpreter.py:16 | `str.split` gives at least one piece and no piece holds the separator |
| Interpreter.JoinSplit | src/arpeggio/interpreter.py:16 | joining the pieces gives the string back; one piece more than separators |
| Interpreter.SplitJoin | src/arpeggio/interpreter.py:16 | splitting joined separator-free pieces gives them back |
| Interpreter.SplitPlain | src/arpeggio/interpreter.py:16 | text without the separator is one piece |
| Interpreter.SplitAfter | src/arpeggio/interpreter.py:16 | text before the first separator is the first piece |
| Interpreter.InterpretKey | src/arpeggio/interpreter.py:12-17 | a non-string raises ValueError; errors are ValueError or KeyError only |
| Interpreter.KeyName | src/arpeggio/interpreter.py:16-17 | "tonic_mode" is `from_name(tonic, mode)` |
| Interpreter.KeyNameMalformed | src/arpeggio/interpreter.py:13-16 | no "_" or more than one raises ValueError |
| Interpreter.DefaultKeyIsCMajor | src/arpeggio/interpreter.py:8 | the default key "C_major" is C major |
| Interpreter.DefaultModeIsMajor | src/arpeggio/interpreter.py:8 | "major" finds the Major steps |
| Interpreter.InterpretInstrument | src/arpeggio/interpreter.py:20-23 | a non-string raises ValueError, a string is `get_instrument` |
| Interpreter.InstrumentNames | src/arpeggio/interpreter.py:9-23 | every registered name is accepted, and the default "sine" is a sine |
| Interpreter.Pop | src/arpeggio/interpreter.py:30-35 | `pop(k, default)` gives the value or the default, and removes k |
| Interpreter.SongArgs | src/arpeggio/interpreter.py:31 | `Song(key=..., **config)`: unknown arguments raise TypeError, missing ones take the defaults |
| Interpreter.TrackArgs | src/arpeggio/interpreter.py:37 | `add_track(**config)`: unknown or mistyped arguments raise TypeError; otherwise each field is its argument (an int volume or pan read as a float) or the dataclass default |
| Interpreter.TrackArgsDefaults | src/arpeggio/interpreter.py:37 | no arguments gives the defaults; one argument sets only its own field |
| Interpreter.SongSetup | src/arpeggio/interpreter.py:30-31 | a song is set up with no tracks |
| Interpreter.TrackSetup | src/arpeggio/interpreter.py:34-37 | a track is set up only with parameters that pass its checks |
| Interpreter.Perform | src/arpeggio/interpreter.py:40-54 | Rest calls `rest`, Interval calls `play(value, octave)`, each for the entry's duration; anything else is skipped; ZeroDivisionError for a zero tempo or an empty mode, ValueError for a note or chord the generator refuses |
| Interpreter.NegativeTempoNote | src/arpeggio/interpreter.py:47-54 | at `@bpm -120` a sixteenth note raises ValueError |
| Interpreter.NegativeTempoRest | src/arpeggio/interpreter.py:41-46 | at `@bpm -120` a sixteenth rest adds an event of -125 ms that lasts no time |
| Interpreter.EachTrack | src/arpeggio/interpreter.py:33-54 | one plan per AST track, in order |
| Interpreter.Interpret | src/arpeggio/interpreter.py:26-56 | `interpret` gives a fresh song whose fresh tracks hold exactly the plan, or the plan's error |
| Interpreter.InterpretTracks | src/arpeggio/interpreter.py:33-54 | the track loop adds one realized track per AST track in order, or stops with the first failure |
| Interpreter.InterpretTrack | src/arpeggio/interpreter.py:34-54 | one pass adds one fresh track holding its plan |
| Interpreter.Performance | src/arpeggio/interpreter.py:39-54 | the events a track's entries add in order, or the first failing call's error |
| Interpreter.PlanTrack | src/arpeggio/interpreter.py:34-54 | one AST track: its instrument and parameters, then its performance |
| Interpreter.Plan | src/arpeggio/interpreter.py:26-56 | `interpret` as a value: the song set-up, then every track planned in order, or the first error |
| Interpreter.PlayEntries | src/arpeggio/interpreter.py:39-54 | the entry loop builds the timeline `Performance` gives, or returns the first failing call's error |
| Interpreter.PerformancePrefixErr | src/arpeggio/interpreter.py:40-54 | an error in the first k entries is the error of the track |
| Interpreter.CollectPrefixErr | src/arpeggio/interpreter.py:33-37 | an error in the first k tracks is the error of the song |
| Interpreter.CollectOk | src/arpeggio/interpreter.py:33-37 | the tracks succeed iff every one does, holding each one's value in order |
| Interpreter.CollectFirstError | src/arpeggio/interpreter.py:33-37 | a failure is the first failing track's |
| Interpreter.PlanTracksSpec | src/arpeggio/interpreter.py:33-37 | one runtime track per AST track in source order; the error is the first failing track's |
| Interpreter.PerformanceAppend | src/arpeggio/interpreter.py:39-40 | entries play in order: two runs give the first's events then the second's |
| Interpreter.PerformanceLines | src/arpeggio/interpreter.py:39 | the flattened lines play line after line |
| Interpreter.PerformanceOk | src/arpeggio/interpreter.py:40-54 | a track plays without error iff every entry can be performed |
| Interpreter.PerformanceEvents | src/arpeggio/interpreter.py:40-54 | every non-Continue entry gives one event, in order, of its duration at the song's tempo |
| Interpreter.SongDefaults | src/arpeggio/interpreter.py:8-31 | an empty configuration gives C major at 120 bpm, 11025 Hz, loop 1 |
| Interpreter.TrackDefaults | src/arpeggio/interpreter.py:9-37 | an empty track configuration gives a sine with the default parameters |
| Interpreter.NotForwarded | src/arpeggio/interpreter.py:30-37 | "key" and "instrument" are taken out before the rest is passed on: a configuration of only one of them succeeds iff its lookup does and leaves every other argument at its default |
| Seqs.Repeat | src/arpeggio/track.py:80 | `s * n` has n * len(s) elements, none for n <= 0 |
| Seqs.RepeatAt | src/arpeggio/engine/track.py:96 | element i of `s * n` is element i mod len(s) |
| Seqs.RepeatAdd | src/arpeggio/arp_ast.py:76 | `s * (m + n)` is `s * m + s * n` |
| Seqs.RepeatOnce | src/arpeggio/engine/track.py:98 | `s * 1` is s |
| Seqs.Filter | src/arpeggio/engine/song.py:29-30 | a comprehension with a condition keeps exactly the elements satisfying it |
| Seqs.FilterAppend | src/arpeggio/engine/song.py:29-30 | filtering a concatenation filters each part in turn, so the kept elements keep their order |
| Seqs.FilterCount | src/arpeggio/engine/song.py:29-30 | an element satisfying the condition is kept as often as it occurs, any other is dropped |
| Seqs.FlattenLength | src/arpeggio/interpreter.py:39 | flattening lines of n entries each gives lines * n entries |

## Left out

- Frequencies and floating point are not modelled. Notes are semitone offsets, and the Hz arithmetic `2 ** (s/12)`, `pytest.approx` and the float rounding of `to_millis` are left out. `Audio.Interp` uses exact reals.
- Audio synthesis is not modelled. What the pydub generators, `.pan` and volume do to the samples is left out, and so are `_spawn`, the byte packing and `random.seed(42)`. `Instruments.Call` takes synthesis as a function parameter.
- Track timelines stand for pydub segments. Concatenation and `* n` are modelled exactly, and millisecond rounding is not. A rest of zero or negative duration, as a negative tempo gives, adds an empty slice (`Timeline.Span`). A note or chord asked for a negative number of frames raises ValueError in the generator (`Instruments.GeneratorFails`), in every track's `_add_to_timeline` and in `Interpreter.Perform`.
- Engine.Track.Play, Arpeggio.Track.Play and Interpreter.Perform model only the sign of the generators' frame count. A chord whose slices all have zero frames makes `normalized_overlay` raise ValueError in src/arpeggio/instrument.py:49-53. The tracks do not model this, because the model does not know the slices' lengths: `Instruments.ChordMix` states it for `Instruments.Call`.
- `Engine.Track` plays at its song's sample rate, as the instrument that `Song.add_track` makes does (src/arpeggio/engine/song.py:44-46). A track built directly with an instrument of another sample rate is not modelled.
- The engine and `Arpeggio` song renders return the mix plan (`Timeline.Mix`), not samples. The sample mixer is modelled separately. When every selected segment is empty, `Render` raises ValueError: `normalized_overlay` fails on a zero-length sum.
- `normalized_overlay` of no segments raises ValueError (`max` of an empty list), and the model follows the code.
- Engine.Song.Render and Arpeggio.Song.Render count a slice as sounding whenever its duration is positive. pydub makes `int(frame_rate * ms / 1000)` frames, so a slice shorter than one frame is empty there. A song whose selected slices are all that short raises ValueError in the source but renders in the model.
- Tables.Lower folds only ASCII 'A' to 'Z', where `str.lower` folds all of Unicode. No lookup changes: every table key is ASCII, and the only non-ASCII character whose lowercase is all ASCII is KELVIN SIGN (U+212A). It lowers to 'k', a letter no table key holds.
- src/arpeggio/engine/instrument.py and src/arpeggio/engine/audio.py are not part of this model. They are imported at src/arpeggio/engine/track.py:10 and src/arpeggio/engine/song.py:10-11, and `engine.get_instrument` is called at src/arpeggio/interpreter.py:23. The model uses `Instruments` (src/arpeggio/instrument.py) and `Audio` (src/arpeggio/audio.py) in their place.
- Only the modes of the tables are modelled, not user-defined `Mode` subclasses. A subclass with no intervals would raise ZeroDivisionError in `note`; `Scales.Key.Note` models that error for keys built directly.
- src/arpeggio/note.py, which src/arpeggio/key.py imports, is not part of this model. `ArpeggioKey` uses the engine's note table.
- src/glissando/instrument.py is not part of this model: it is synthesis only.
- Left out because they are I/O or library glue:
  - src/arpeggio/parser.py and the Lark grammar;
  - src/arpeggio/validation.py and src/arpeggio/exceptions.py;
  - `__main__.py` and `Song.play`.
- `ArpAst.ParseDecimal` does not model exponents, `inf`, `nan` or underscores in `float()` and `int()`.
- The interpreter's `config.pop` mutates the AST dictionaries. The model takes the AST as a value and returns the remaining dictionary.
- `Interpreter.SongArgs` and `Interpreter.TrackArgs` read an argument only when its value has the field's type, and raise TypeError for a value of another type. In Python the song's fields and the track's octave, chords, mute and solo are stored unchecked. The track's volume, pan and loop still go through the comparisons of `__post_init__` (src/arpeggio/engine/track.py:46-54). There a string raises TypeError, a bare `@volume` (True) raises ValueError, and a bare `@pan` or `@loop` passes as 1.
- `Interpreter.SongArgs` does not accept "tracks" as a keyword argument, and `Interpreter.TrackArgs` does not accept `_segment`. The dataclasses would accept them.
- `Glissando.Song.Loop` requires `Valid()`: the tracks are distinct and belong to the song. `AddTrack` keeps this, and the constructor establishes it. A list holding one track twice would loop that track twice in the source.
- `Glissando.LoopLength` states the result as `Times(n, x)`, i.e. x added n times. `Timeline.TimesIsProduct` proves that this equals n * x.
- `Arpeggio.Track.constructor` and `Glissando.Track.constructor` require volume <= 0. The raising path is `Arpeggio.TrackInit` and the `AddTrack` methods.
- `Engine.Track.constructor` requires checked parameters. `Engine.Song.AddTrack` models the ValueError path.
- Instruments are kept as their kind. Their sample rate and bit depth decide only whether a slice can be made: in `Instruments.GeneratorFails` and, for the glissando instruments, `Glissando.Track.DepthFails`. The samples themselves are not modelled.
- Arpeggio.Track.AddToTimeline, Arpeggio.Track.Play and Arpeggio.Track.Rest model only pydub's range check of the pan. The stereo conversion it then makes is not modelled, because samples are not.
- Concurrency and playback are not present in the core.

## Findings

| source | as written | input that shows it | evidently intended | confidence | as-written member | corrected member |
|---|---|---|---|---|---|---|
| src/arpeggio/song.py:44-46 | `add_track` passes `instrument(sample_rate=...)`, an instance, and `Track.__init__` then calls that instance with `sample_rate=` again (src/arpeggio/track.py:31), which `Instrument.__call__` does not accept: TypeError | `Song(key).add_track(Sine)` | pass the class itself, which `Track.__init__` instantiates, so a track is added | not executed | Arpeggio.Song.AddTrackAsWritten, Arpeggio.AddTrackAsWrittenFails | Arpeggio.Song.AddTrack |
| src/arpeggio/song.py:34-36 | `render` calls `track.render()`, which the `Track` of src/arpeggio/track.py does not define: AttributeError | a song with one unmuted track holding one note, then `render()` | use each track's segment, looped when loop > 1, as the overlay's layers | not executed | Arpeggio.Song.RenderAsWritten, Arpeggio.RenderAsWrittenFails | Arpeggio.Song.Render, Arpeggio.RenderLayers |
