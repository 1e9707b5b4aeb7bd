/** src/arpeggio/interpreter.py: turning a parsed song into an engine song.
    The key is read from a "tonic_mode" string, each track's instrument
    from its name, the rest of each configuration is passed on as keyword
    arguments, and every entry of every line is played or rested in
    order. */
module Interpreter {
  import opened Wrappers
  import Seqs
  import Scales
  import EngineNote
  import EngineKey
  import Instruments
  import ArpAst
  import Engine
  import opened Timeline
  import opened Tables

  const DefaultKey: string := "C_major"
  const DefaultInstrument: string := "sine"

  // ----- Splitting the key name -----

  /** Python's `str.split(sep)`: the pieces between the separators, empty
      ones included, so there is always one more piece than separators. */
  function Split(s: string, sep: char): (r: seq<string>)
    ensures |r| >= 1
    ensures forall k :: 0 <= k < |r| ==> sep !in r[k]
    decreases |s|
  {
    if |s| == 0 then [""]
    else
      var rest := Split(s[1..], sep);
      if s[0] == sep then [""] + rest
      else
        assert forall k :: 1 <= k < |rest| ==> rest[1..][k - 1] == rest[k];
        [[s[0]] + rest[0]] + rest[1..]
  }

  /** The pieces put back together with the separator between them. */
  function Join(pieces: seq<string>, sep: char): string
    requires |pieces| >= 1
    decreases |pieces|
  {
    if |pieces| == 1 then pieces[0] else pieces[0] + [sep] + Join(pieces[1..], sep)
  }

  /** How many times the separator occurs. */
  function Occurrences(s: string, c: char): nat
    decreases |s|
  {
    if |s| == 0 then 0 else (if s[0] == c then 1 else 0) + Occurrences(s[1..], c)
  }

  /** Joining the pieces of a split gives the string back, and there is
      one piece more than there are separators. */
  lemma {:induction false} JoinSplit(s: string, sep: char)
    ensures Join(Split(s, sep), sep) == s
    ensures |Split(s, sep)| == Occurrences(s, sep) + 1
    decreases |s|
  {
    if |s| > 0 {
      JoinSplit(s[1..], sep);
      var rest := Split(s[1..], sep);
      if s[0] == sep {
        assert ([""] + rest)[1..] == rest;
      } else {
        var first := [s[0]] + rest[0];
        var pieces := [first] + rest[1..];
        if |rest| == 1 {
          assert Join(pieces, sep) == first;
        } else {
          assert pieces[1..] == rest[1..];
          assert Join(rest, sep) == rest[0] + [sep] + Join(rest[1..], sep);
        }
        assert s == [s[0]] + s[1..];
      }
    }
  }

  /** Splitting pieces joined by a separator none of them holds gives the
      pieces back. */
  lemma {:induction false} SplitJoin(pieces: seq<string>, sep: char)
    requires |pieces| >= 1 && forall k :: 0 <= k < |pieces| ==> sep !in pieces[k]
    ensures Split(Join(pieces, sep), sep) == pieces
    decreases |pieces|
  {
    if |pieces| == 1 {
      SplitPlain(pieces[0], sep);
    } else {
      assert forall k :: 0 <= k < |pieces[1..]| ==> pieces[1..][k] == pieces[k + 1];
      SplitJoin(pieces[1..], sep);
      SplitAfter(pieces[0], Join(pieces[1..], sep), sep);
    }
  }

  /** A string without the separator is one piece. */
  lemma {:induction false} SplitPlain(a: string, sep: char)
    requires sep !in a
    ensures Split(a, sep) == [a]
    decreases |a|
  {
    if |a| > 0 {
      assert a[0] in a;
      assert forall c :: c in a[1..] ==> c in a;
      SplitPlain(a[1..], sep);
      assert [a[0]] + a[1..] == a;
    }
  }

  /** Text before the first separator becomes the first piece. */
  lemma {:induction false} SplitAfter(a: string, b: string, sep: char)
    requires sep !in a
    ensures Split(a + [sep] + b, sep) == [a] + Split(b, sep)
    decreases |a|
  {
    var s := a + [sep] + b;
    if |a| == 0 {
      assert s[1..] == b;
    } else {
      assert a[0] in a;
      assert forall c :: c in a[1..] ==> c in a;
      assert s[1..] == a[1..] + [sep] + b;
      SplitAfter(a[1..], b, sep);
      assert [a[0]] + a[1..] == a;
    }
  }

  // ----- Key and instrument -----

  /** `_interpret_key`: the value must be a string holding "_", which is
      split there into exactly a tonic and a mode name (otherwise
      ValueError, more pieces failing to unpack); the names are then looked
      up, an unknown one raising KeyError. */
  function InterpretKey(v: ArpAst.Value): (r: Result<Scales.Key>)
    ensures !v.VStr? ==> r == Err(ValueError)
    ensures r.Err? ==> r.error == ValueError || r.error == KeyError
  {
    match v
    case VStr(s) =>
      if '_' !in s then Err(ValueError)
      else
        var parts := Split(s, '_');
        if |parts| != 2 then Err(ValueError)
        else EngineKey.FromName(parts[0], parts[1])
    case _ => Err(ValueError)
  }

  /** A tonic and a mode name joined by "_" are the key of that tonic and
      mode. */
  lemma KeyName(tonic: string, mode: string)
    requires '_' !in tonic && '_' !in mode
    ensures InterpretKey(ArpAst.VStr(tonic + "_" + mode)) == EngineKey.FromName(tonic, mode)
  {
    var s := tonic + "_" + mode;
    assert s == Join([tonic, mode], '_');
    SplitJoin([tonic, mode], '_');
    assert s[|tonic|] == '_';
  }

  /** A string with no "_" or with more than one is refused with
      ValueError. */
  lemma KeyNameMalformed(s: string)
    requires Occurrences(s, '_') != 1
    ensures InterpretKey(ArpAst.VStr(s)) == Err(ValueError)
  {
    JoinSplit(s, '_');
  }

  /** The default key is C major. */
  lemma DefaultKeyIsCMajor()
    ensures InterpretKey(ArpAst.VStr(DefaultKey)) == Ok(Scales.Key(-9, [2, 2, 1, 2, 2, 2, 1]))
  {
    assert InterpretKey(ArpAst.VStr(DefaultKey)) == EngineKey.FromName("C", "major") by {
      assert DefaultKey == "C" + "_" + "major";
      KeyName("C", "major");
    }
    assert EngineNote.GetNote("C") == Ok(-9) by {
      EngineNote.GetNoteTable("C", 0);
    }
    DefaultModeIsMajor();
  }

  lemma DefaultModeIsMajor()
    ensures EngineKey.GetMode("major") == Ok([2, 2, 1, 2, 2, 2, 1])
  {
    assert Lower("major") == "major";
    assert Lower("Major") == "major";
    EngineKey.GetModeTable("major", 1);
  }

  /** `_interpret_instrument`: the value must be a string (otherwise
      ValueError), looked up in the registry ignoring case (KeyError for an
      unknown name). */
  function InterpretInstrument(v: ArpAst.Value): (r: Result<Instruments.Kind>)
    ensures !v.VStr? ==> r == Err(ValueError)
    ensures v.VStr? ==> r == Instruments.GetInstrument(v.s)
  {
    match v
    case VStr(s) => Instruments.GetInstrument(s)
    case _ => Err(ValueError)
  }

  /** Every registered name is accepted, the default one being a sine. */
  lemma InstrumentNames(i: nat)
    requires i < |Instruments.Registry|
    ensures InterpretInstrument(ArpAst.VStr(Instruments.Registry[i].0)) == Ok(Instruments.Registry[i].1)
    ensures InterpretInstrument(ArpAst.VStr(DefaultInstrument)) == Ok(Instruments.Sine)
  {
    Instruments.GetInstrumentTable(Instruments.Registry[i].0, i);
    Instruments.GetInstrumentTable(DefaultInstrument, 0);
  }

  // ----- Keyword arguments -----

  /** `dict.pop(k, default)`: the value under k, or the default, and the
      dictionary without k. */
  function Pop(config: ArpAst.Config, k: string, default: ArpAst.Value): (r: (ArpAst.Value, ArpAst.Config))
    ensures r.1 == config - {k} && k !in r.1
    ensures k in config ==> r.0 == config[k]
    ensures k !in config ==> r.0 == default
  {
    (if k in config then config[k] else default, config - {k})
  }

  function IntOr(config: ArpAst.Config, k: string, default: int): int {
    if k in config && config[k].VInt? then config[k].i else default
  }

  function RealOr(config: ArpAst.Config, k: string, default: real): real {
    if k in config && config[k].VInt? then config[k].i as real
    else if k in config && config[k].VFloat? then config[k].f
    else default
  }

  function BoolOr(config: ArpAst.Config, k: string, default: bool): bool {
    if k in config && config[k].VBool? then config[k].b else default
  }

  /** The keyword arguments the engine's `Song` takes besides its key, with
      the type each is read as. */
  predicate SongField(k: string, v: ArpAst.Value) {
    (k == "bpm" || k == "sample_rate" || k == "loop") && v.VInt?
  }

  /** The keyword arguments the engine's `Track` takes besides its
      instrument and song. */
  predicate TrackField(k: string, v: ArpAst.Value) {
    ((k == "volume" || k == "pan") && (v.VInt? || v.VFloat?))
    || ((k == "octave" || k == "loop") && v.VInt?)
    || ((k == "chords" || k == "mute" || k == "solo") && v.VBool?)
  }

  /** `Song(key=key, **config)`: a name the dataclass does not have raises
      TypeError; a missing one takes its default. */
  function SongArgs(config: ArpAst.Config): (r: Result<(int, int, int)>)
    ensures r.Ok? <==> forall k :: k in config ==> SongField(k, config[k])
    ensures r.Err? ==> r.error == TypeError
    ensures r.Ok? ==> r.value == (IntOr(config, "bpm", 120), IntOr(config, "sample_rate", 11025), IntOr(config, "loop", 1))
  {
    if exists k :: k in config && !SongField(k, config[k]) then Err(TypeError)
    else Ok((IntOr(config, "bpm", 120), IntOr(config, "sample_rate", 11025), IntOr(config, "loop", 1)))
  }

  /** `song.add_track(instrument=..., **config)` as far as the arguments go:
      an unknown name raises TypeError, and a missing one takes the
      dataclass default. */
  function TrackArgs(config: ArpAst.Config): (r: Result<Engine.TrackParams>)
    ensures r.Ok? <==> forall k :: k in config ==> TrackField(k, config[k])
    ensures r.Err? ==> r.error == TypeError
    ensures r.Ok? ==> r.value == Engine.TrackParams(
              RealOr(config, "volume", 0.0), RealOr(config, "pan", 0.0), IntOr(config, "octave", 0),
              BoolOr(config, "chords", false), BoolOr(config, "mute", false), BoolOr(config, "solo", false),
              IntOr(config, "loop", 1))
  {
    if exists k :: k in config && !TrackField(k, config[k]) then Err(TypeError)
    else
      var d := Engine.DefaultTrackParams;
      Ok(Engine.TrackParams(RealOr(config, "volume", d.volume), RealOr(config, "pan", d.pan),
                            IntOr(config, "octave", d.octave), BoolOr(config, "chords", d.chords),
                            BoolOr(config, "mute", d.mute), BoolOr(config, "solo", d.solo),
                            IntOr(config, "loop", d.loop)))
  }

  /** With no arguments every field keeps its default; an argument given
      sets its field and leaves the others at their defaults. */
  lemma TrackArgsDefaults(k: string, v: ArpAst.Value)
    requires TrackField(k, v)
    ensures TrackArgs(map[]) == Ok(Engine.DefaultTrackParams)
    ensures var p := TrackArgs(map[k := v]).value;
            var d := Engine.DefaultTrackParams;
            p.volume == (if k == "volume" then (if v.VInt? then v.i as real else v.f) else d.volume)
            && p.pan == (if k == "pan" then (if v.VInt? then v.i as real else v.f) else d.pan)
            && p.octave == (if k == "octave" then v.i else d.octave)
            && p.chords == (if k == "chords" then v.b else d.chords)
            && p.mute == (if k == "mute" then v.b else d.mute)
            && p.solo == (if k == "solo" then v.b else d.solo)
            && p.loop == (if k == "loop" then v.i else d.loop)
  {
    assert forall j :: j in map[k := v] ==> TrackField(j, map[k := v][j]);
  }

  // ----- What interpreting builds -----

  /** The setup of the song: its key (popped from the configuration, "C_major"
      when absent), then the rest of the configuration as arguments. */
  function SongSetup(config: ArpAst.Config): (r: Result<SongPlan>)
    ensures r.Ok? ==> r.value.tracks == []
  {
    var (keyValue, rest) := Pop(config, "key", ArpAst.VStr(DefaultKey));
    match InterpretKey(keyValue)
    case Err(e) => Err(e)
    case Ok(key) =>
      match SongArgs(rest)
      case Err(e) => Err(e)
      case Ok(args) => Ok(SongPlan(key, args.0, args.1, args.2, []))
  }

  /** The setup of one track: its instrument (popped, "sine" when absent),
      its arguments, and the track's range checks. */
  function TrackSetup(t: ArpAst.Track): (r: Result<(Instruments.Kind, Engine.TrackParams)>)
    ensures r.Ok? ==> Engine.CheckTrack(r.value.1).Ok?
  {
    var (instrumentValue, rest) := Pop(t.config, "instrument", ArpAst.VStr(DefaultInstrument));
    match InterpretInstrument(instrumentValue)
    case Err(e) => Err(e)
    case Ok(kind) =>
      match TrackArgs(rest)
      case Err(e) => Err(e)
      case Ok(p) =>
        match Engine.CheckTrack(p)
        case Err(e) => Err(e)
        case Ok(_) => Ok((kind, p))
  }

  /** The entries of a track: every line's entries, line after line. */
  function Entries(t: ArpAst.Track): seq<ArpAst.Entry> {
    Seqs.Flatten(t.lines)
  }

  /** One entry: a rest is rested, an interval played at its octave, for
      the entry's sixteenths; anything else (a stray continuation) is
      skipped. A zero tempo or an empty mode raises ZeroDivisionError, and
      a note or chord the generator refuses at the song's sample rate
      raises ValueError. */
  function Perform(key: Scales.Key, bpm: int, rate: int, p: Engine.TrackParams, e: ArpAst.Entry): (r: Result<Option<Event>>)
    ensures e.symbol.Continue? ==> r == Ok(None)
    ensures e.symbol.Rest? ==> (r.Ok? <==> bpm != 0)
    ensures e.symbol.Interval? ==>
      (r.Ok? <==> (bpm != 0 && |key.mode| > 0
                   && !Instruments.GeneratorFails(Engine.PlayableOf(key, p, e.symbol.value, e.symbol.octave).value, rate,
                                                  EngineNote.ToMillis(e.Duration(), bpm).value)))
    ensures r.Err? ==> r.error == (if bpm == 0 || |key.mode| == 0 then ZeroDivisionError else ValueError)
    ensures r.Ok? && !e.symbol.Continue? ==> r.value.Some? && r.value.value.millis == EngineNote.ToMillis(e.Duration(), bpm).value
    ensures r.Ok? && e.symbol.Rest? ==> r.value.value.playable == Instruments.NoPlayable
    ensures r.Ok? && e.symbol.Interval? ==> r.value.value.playable == Engine.PlayableOf(key, p, e.symbol.value, e.symbol.octave).value
  {
    match e.symbol
    case Continue => Ok(None)
    case Rest =>
      (match EngineNote.ToMillis(e.Duration(), bpm)
       case Err(err) => Err(err)
       case Ok(ms) => Ok(Some(Event(Instruments.NoPlayable, ms))))
    case Interval(v, o) =>
      match Engine.PlayableOf(key, p, v, o)
      case Err(err) => Err(err)
      case Ok(playable) =>
        match EngineNote.ToMillis(e.Duration(), bpm)
        case Err(err) => Err(err)
        case Ok(ms) =>
          if Instruments.GeneratorFails(playable, rate, ms) then Err(ValueError)
          else Ok(Some(Event(playable, ms)))
  }

  /** The timeline a track gets from its entries, in order; the first entry
      that fails decides the error. */
  function Performance(key: Scales.Key, bpm: int, rate: int, p: Engine.TrackParams, entries: seq<ArpAst.Entry>): Result<seq<Event>>
    decreases |entries|
  {
    if |entries| == 0 then Ok([])
    else
      match Performance(key, bpm, rate, p, entries[..|entries| - 1])
      case Err(e) => Err(e)
      case Ok(events) =>
        match Perform(key, bpm, rate, p, entries[|entries| - 1])
        case Err(e) => Err(e)
        case Ok(None) => Ok(events)
        case Ok(Some(event)) => Ok(events + [event])
  }

  datatype TrackPlan = TrackPlan(instrument: Instruments.Kind, params: Engine.TrackParams, timeline: seq<Event>)
  datatype SongPlan = SongPlan(key: Scales.Key, bpm: int, sampleRate: int, loop: int, tracks: seq<TrackPlan>)

  /** The track `interpret` adds for one AST track of a song in the given
      key and tempo. */
  function PlanTrack(key: Scales.Key, bpm: int, rate: int, t: ArpAst.Track): Result<TrackPlan> {
    match TrackSetup(t)
    case Err(e) => Err(e)
    case Ok(setup) =>
      match Performance(key, bpm, rate, setup.1, Entries(t))
      case Err(e) => Err(e)
      case Ok(timeline) => Ok(TrackPlan(setup.0, setup.1, timeline))
  }

  /** The tracks `interpret` adds to a song set up as `song`, one per AST
      track in order, stopping at the first that fails. */
  function PlanTracks(song: SongPlan, tracks: seq<ArpAst.Track>): Result<seq<TrackPlan>> {
    Collect(EachTrack(song, tracks))
  }

  function EachTrack(song: SongPlan, tracks: seq<ArpAst.Track>): (r: seq<Result<TrackPlan>>)
    ensures |r| == |tracks| && forall i :: 0 <= i < |tracks| ==> r[i] == PlanTrack(song.key, song.bpm, song.sampleRate, tracks[i])
  {
    seq(|tracks|, i requires 0 <= i < |tracks| => PlanTrack(song.key, song.bpm, song.sampleRate, tracks[i]))
  }

  /** Steps done in order: all their values, or the first error. */
  function Collect<T>(rs: seq<Result<T>>): Result<seq<T>>
    decreases |rs|
  {
    if |rs| == 0 then Ok([])
    else
      match Collect(rs[..|rs| - 1])
      case Err(e) => Err(e)
      case Ok(values) =>
        match rs[|rs| - 1]
        case Err(e) => Err(e)
        case Ok(v) => Ok(values + [v])
  }

  /** What `interpret` builds from a parsed song, or the error it raises. */
  function Plan(parsed: ArpAst.Song): Result<SongPlan> {
    match SongSetup(parsed.config)
    case Err(e) => Err(e)
    case Ok(song) =>
      match PlanTracks(song, parsed.tracks)
      case Err(e) => Err(e)
      case Ok(tracks) => Ok(song.(tracks := tracks))
  }

  // ----- Interpreting -----

  /** The engine song and its tracks hold what the plan says. */
  ghost predicate Realizes(song: Engine.Song, plan: SongPlan)
    reads song, song.tracks
  {
    song.key == plan.key && song.bpm == plan.bpm && song.sampleRate == plan.sampleRate && song.loop == plan.loop
    && |song.tracks| == |plan.tracks|
    && forall i :: 0 <= i < |song.tracks| ==> TrackRealizes(song, song.tracks[i], plan.tracks[i])
  }

  ghost predicate TrackRealizes(song: Engine.Song, t: Engine.Track, plan: TrackPlan)
    reads t
  {
    t.song == song && t.instrument == plan.instrument && t.Params() == plan.params && t.timeline == plan.timeline
  }

  /** `interpret`: a new engine song with one new track per AST track,
      holding exactly what `Plan` gives; or the exception that `Plan`
      names. */
  method Interpret(parsed: ArpAst.Song) returns (r: Result<Engine.Song>)
    ensures r.Ok? <==> Plan(parsed).Ok?
    ensures r.Err? ==> r.error == Plan(parsed).error
    ensures r.Ok? ==> fresh(r.value) && Realizes(r.value, Plan(parsed).value)
    ensures r.Ok? ==> forall i :: 0 <= i < |r.value.tracks| ==> fresh(r.value.tracks[i])
  {
    var setup := SongSetup(parsed.config);
    if setup.Err? {
      return Err(setup.error);
    }
    var plan := setup.value;
    var song := new Engine.Song(plan.key, plan.bpm, plan.sampleRate, plan.loop);
    var added := InterpretTracks(song, parsed.tracks);
    if added.Err? {
      return Err(added.error);
    }
    assert Realizes(song, plan.(tracks := PlanTracks(plan, parsed.tracks).value));
    return Ok(song);
  }

  /** The loop of `interpret` over the AST tracks, adding each to `song`
      in order. */
  method InterpretTracks(song: Engine.Song, tracks: seq<ArpAst.Track>) returns (r: Result<()>)
    requires song.tracks == []
    modifies song
    ensures var plan := SongPlan(song.key, song.bpm, song.sampleRate, song.loop, []);
            var planned := PlanTracks(plan, tracks);
            (r.Ok? <==> planned.Ok?) && (r.Err? ==> r.error == planned.error)
            && (r.Ok? ==> (|song.tracks| == |planned.value|
                           && forall j :: 0 <= j < |song.tracks| ==>
                                fresh(song.tracks[j]) && TrackRealizes(song, song.tracks[j], planned.value[j])))
  {
    ghost var plan := SongPlan(song.key, song.bpm, song.sampleRate, song.loop, []);
    ghost var each := EachTrack(plan, tracks);
    ghost var planned: seq<TrackPlan> := [];
    var i := 0;
    while i < |tracks|
      invariant 0 <= i <= |tracks|
      invariant Collect(each[..i]) == Ok(planned)
      invariant |song.tracks| == |planned| == i
      invariant forall j :: 0 <= j < i ==> fresh(song.tracks[j]) && TrackRealizes(song, song.tracks[j], planned[j])
    {
      var track := tracks[i];
      assert each[i] == PlanTrack(plan.key, plan.bpm, plan.sampleRate, track);
      CollectStep(each, i, planned);
      ghost var before := song.tracks;
      var added := InterpretTrack(song, track);
      if added.Err? {
        CollectPrefixErr(each, i + 1);
        return Err(added.error);
      }
      assert song.tracks == before + [added.value];
      planned := planned + [each[i].value];
      i := i + 1;
    }
    assert each[..i] == each;
    return Ok(());
  }

  /** One pass of the loop of `interpret`: the track's instrument and
      arguments, `add_track`, then its entries. */
  method InterpretTrack(song: Engine.Song, track: ArpAst.Track) returns (r: Result<Engine.Track>)
    modifies song
    ensures var planned := PlanTrack(song.key, song.bpm, song.sampleRate, track);
            (r.Ok? <==> planned.Ok?) && (r.Err? ==> r.error == planned.error)
            && (r.Ok? ==> fresh(r.value) && song.tracks == old(song.tracks) + [r.value]
                          && TrackRealizes(song, r.value, planned.value))
  {
    var ts := TrackSetup(track);
    if ts.Err? {
      return Err(ts.error);
    }
    var (kind, p) := ts.value;
    var added := song.AddTrack(kind, p);
    var t := added.value;
    var played := PlayEntries(t, Entries(track));
    if played.Err? {
      return Err(played.error);
    }
    return Ok(t);
  }

  /** The loop of `interpret` over one track's entries: rest for a rest,
      play for an interval, skip anything else. The timeline ends up as
      `Performance` says, or the first failing call's error is returned. */
  method PlayEntries(t: Engine.Track, entries: seq<ArpAst.Entry>) returns (r: Result<()>)
    requires t.timeline == []
    modifies t
    ensures var planned := Performance(t.song.key, t.song.bpm, t.song.sampleRate, t.Params(), entries);
            (r.Ok? <==> planned.Ok?) && (r.Ok? ==> t.timeline == planned.value)
            && (r.Err? ==> r.error == planned.error)
  {
    ghost var key := t.song.key;
    ghost var bpm := t.song.bpm;
    ghost var rate := t.song.sampleRate;
    ghost var p := t.Params();
    var k := 0;
    while k < |entries|
      invariant 0 <= k <= |entries|
      invariant Performance(key, bpm, rate, p, entries[..k]) == Ok(t.timeline)
    {
      var e := entries[k];
      assert entries[..k + 1][..k] == entries[..k];
      assert entries[..k + 1][k] == e;
      match e.symbol {
        case Continue =>
        case Rest =>
          var res := t.Rest(e.Duration());
          if res.Err? {
            PerformancePrefixErr(key, bpm, rate, p, entries, k + 1);
            return Err(res.error);
          }
        case Interval(v, o) =>
          var res := t.Play(v, e.Duration(), o);
          if res.Err? {
            PerformancePrefixErr(key, bpm, rate, p, entries, k + 1);
            return Err(res.error);
          }
      }
      k := k + 1;
    }
    assert entries[..k] == entries;
    return Ok(());
  }

  /** An error in the first k entries is the error of the whole track. */
  lemma {:induction false} PerformancePrefixErr(key: Scales.Key, bpm: int, rate: int, p: Engine.TrackParams, entries: seq<ArpAst.Entry>, k: nat)
    requires k <= |entries| && Performance(key, bpm, rate, p, entries[..k]).Err?
    ensures Performance(key, bpm, rate, p, entries) == Performance(key, bpm, rate, p, entries[..k])
    decreases |entries| - k
  {
    if k < |entries| {
      assert entries[..k + 1][..k] == entries[..k];
      PerformancePrefixErr(key, bpm, rate, p, entries, k + 1);
    } else {
      assert entries[..k] == entries;
    }
  }

  /** An error among the first k steps is the error of all of them. */
  lemma {:induction false} CollectPrefixErr<T>(rs: seq<Result<T>>, k: nat)
    requires k <= |rs| && Collect(rs[..k]).Err?
    ensures Collect(rs) == Collect(rs[..k])
    decreases |rs| - k
  {
    if k < |rs| {
      assert rs[..k + 1][..k] == rs[..k];
      CollectPrefixErr(rs, k + 1);
    } else {
      assert rs[..k] == rs;
    }
  }

  /** One more step after successful ones adds its value after theirs, or
      fails with its own error. */
  lemma CollectStep<T>(rs: seq<Result<T>>, k: nat, values: seq<T>)
    requires k < |rs| && Collect(rs[..k]) == Ok(values)
    ensures Collect(rs[..k + 1]) == if rs[k].Ok? then Ok(values + [rs[k].value]) else Err(rs[k].error)
  {
    assert rs[..k + 1][..k] == rs[..k];
  }

  // ----- Properties of the plan -----

  /** Collecting succeeds exactly when every step does, and then holds
      every step's value in order. */
  lemma {:induction false} CollectOk<T>(rs: seq<Result<T>>)
    ensures Collect(rs).Ok? <==> forall i :: 0 <= i < |rs| ==> rs[i].Ok?
    ensures Collect(rs).Ok? ==> (|Collect(rs).value| == |rs|
                                 && forall i :: 0 <= i < |rs| ==> Ok(Collect(rs).value[i]) == rs[i])
    decreases |rs|
  {
    if |rs| > 0 {
      var init := rs[..|rs| - 1];
      assert forall i :: 0 <= i < |init| ==> init[i] == rs[i];
      CollectOk(init);
    }
  }

  /** A failed collection fails with the error of the first failing step. */
  lemma {:induction false} CollectFirstError<T>(rs: seq<Result<T>>)
    requires Collect(rs).Err?
    ensures exists i :: 0 <= i < |rs| && rs[i] == Err(Collect(rs).error)
                        && forall j :: 0 <= j < i ==> rs[j].Ok?
    decreases |rs|
  {
    var init := rs[..|rs| - 1];
    assert forall i :: 0 <= i < |init| ==> init[i] == rs[i];
    if Collect(init).Err? {
      CollectFirstError(init);
      var i :| 0 <= i < |init| && init[i] == Err(Collect(init).error) && forall j :: 0 <= j < i ==> init[j].Ok?;
      assert rs[i] == Err(Collect(rs).error);
    } else {
      CollectOk(init);
      assert rs[|rs| - 1] == Err(Collect(rs).error);
    }
  }

  /** One track per AST track, in order, each planned on its own; a
      failure is the first failing track's. */
  lemma PlanTracksSpec(song: SongPlan, tracks: seq<ArpAst.Track>)
    ensures var r := PlanTracks(song, tracks);
            r.Ok? <==> forall i :: 0 <= i < |tracks| ==> PlanTrack(song.key, song.bpm, song.sampleRate, tracks[i]).Ok?
    ensures var r := PlanTracks(song, tracks);
            r.Ok? ==> (|r.value| == |tracks|
                       && forall i :: 0 <= i < |tracks| ==> Ok(r.value[i]) == PlanTrack(song.key, song.bpm, song.sampleRate, tracks[i]))
    ensures var r := PlanTracks(song, tracks);
            r.Err? ==> exists i :: 0 <= i < |tracks| && PlanTrack(song.key, song.bpm, song.sampleRate, tracks[i]) == Err(r.error)
                                   && forall j :: 0 <= j < i ==> PlanTrack(song.key, song.bpm, song.sampleRate, tracks[j]).Ok?
  {
    var each := EachTrack(song, tracks);
    CollectOk(each);
    if Collect(each).Err? {
      CollectFirstError(each);
    }
  }

  /** Entries are performed one after the other: the timeline of two runs
      of entries is the first's followed by the second's, and an error in
      the first stops everything. */
  lemma {:induction false} PerformanceAppend(key: Scales.Key, bpm: int, rate: int, p: Engine.TrackParams, a: seq<ArpAst.Entry>, b: seq<ArpAst.Entry>)
    ensures Performance(key, bpm, rate, p, a).Err? ==> Performance(key, bpm, rate, p, a + b) == Performance(key, bpm, rate, p, a)
    ensures Performance(key, bpm, rate, p, a).Ok? && Performance(key, bpm, rate, p, b).Ok? ==>
      Performance(key, bpm, rate, p, a + b) == Ok(Performance(key, bpm, rate, p, a).value + Performance(key, bpm, rate, p, b).value)
    ensures Performance(key, bpm, rate, p, a).Ok? && Performance(key, bpm, rate, p, b).Err? ==>
      Performance(key, bpm, rate, p, a + b) == Performance(key, bpm, rate, p, b)
    decreases |b|
  {
    if |b| == 0 {
      assert a + b == a;
      if Performance(key, bpm, rate, p, a).Ok? {
        assert Performance(key, bpm, rate, p, a).value + [] == Performance(key, bpm, rate, p, a).value;
      }
    } else {
      var b' := b[..|b| - 1];
      assert (a + b)[..|a + b| - 1] == a + b';
      assert (a + b)[|a + b| - 1] == b[|b| - 1];
      PerformanceAppend(key, bpm, rate, p, a, b');
      if Performance(key, bpm, rate, p, a).Ok? && Performance(key, bpm, rate, p, b').Ok? {
        var x := Performance(key, bpm, rate, p, a).value;
        var y := Performance(key, bpm, rate, p, b').value;
        match Perform(key, bpm, rate, p, b[|b| - 1])
        case Err(_) =>
        case Ok(None) =>
        case Ok(Some(event)) =>
          assert x + (y + [event]) == (x + y) + [event];
      }
    }
  }

  /** The flattened entries of a track play line after line. */
  lemma {:induction false} PerformanceLines(key: Scales.Key, bpm: int, rate: int, p: Engine.TrackParams, lines: seq<seq<ArpAst.Entry>>)
    requires |lines| > 0
    ensures var init := Seqs.Flatten(lines[..|lines| - 1]);
            var last := lines[|lines| - 1];
            Performance(key, bpm, rate, p, Seqs.Flatten(lines))
              == match Performance(key, bpm, rate, p, init)
                 case Err(e) => Err(e)
                 case Ok(x) => match Performance(key, bpm, rate, p, last)
                               case Err(e) => Err(e)
                               case Ok(y) => Ok(x + y)
  {
    PerformanceAppend(key, bpm, rate, p, Seqs.Flatten(lines[..|lines| - 1]), lines[|lines| - 1]);
  }

  /** A track plays without error exactly when every entry can be
      performed: no rest or interval at a zero tempo, no interval in a key
      without steps, no note or chord the generator refuses. */
  lemma {:induction false} PerformanceOk(key: Scales.Key, bpm: int, rate: int, p: Engine.TrackParams, entries: seq<ArpAst.Entry>)
    ensures Performance(key, bpm, rate, p, entries).Ok? <==> forall k :: 0 <= k < |entries| ==> Perform(key, bpm, rate, p, entries[k]).Ok?
    decreases |entries|
  {
    if |entries| > 0 {
      var init := entries[..|entries| - 1];
      assert forall k :: 0 <= k < |init| ==> init[k] == entries[k];
      PerformanceOk(key, bpm, rate, p, init);
    }
  }

  /** The entries that make an event: all but continuations. */
  function Played(entries: seq<ArpAst.Entry>): seq<ArpAst.Entry> {
    Seqs.Filter(entries, (e: ArpAst.Entry) => !e.symbol.Continue?)
  }

  /** Every entry but a continuation yields one event, in order, lasting
      the entry's duration at the song's tempo; rests are silent and
      intervals are the key's notes or chords. */
  lemma {:induction false} PerformanceEvents(key: Scales.Key, bpm: int, rate: int, p: Engine.TrackParams, entries: seq<ArpAst.Entry>)
    requires Performance(key, bpm, rate, p, entries).Ok?
    ensures var events := Performance(key, bpm, rate, p, entries).value;
            var played := Played(entries);
            |events| == |played|
            && forall k :: 0 <= k < |events| ==> Perform(key, bpm, rate, p, played[k]) == Ok(Some(events[k]))
    decreases |entries|
  {
    if |entries| > 0 {
      var init := entries[..|entries| - 1];
      PerformanceEvents(key, bpm, rate, p, init);
    }
  }

  /** A negative tempo gives negative durations, and a note then raises
      ValueError in the generator: `@bpm -120` with one sixteenth note in
      C major. */
  lemma NegativeTempoNote()
    ensures Perform(Scales.Key(-9, [2, 2, 1, 2, 2, 2, 1]), -120, 11025, Engine.DefaultTrackParams,
                    ArpAst.Entry(ArpAst.Interval(1, 0), 1)) == Err(ValueError)
  {
    assert ArpAst.Entry(ArpAst.Interval(1, 0), 1).Duration() == 1.0 / 16.0;
    assert EngineNote.ToMillis(1.0 / 16.0, -120) == Ok(-125.0);
    assert Instruments.Frames(11025, -125.0) < 0;
  }

  /** At the same tempo a rest adds an event of negative duration, which
      lasts no time. */
  lemma NegativeTempoRest()
    ensures Perform(Scales.Key(-9, [2, 2, 1, 2, 2, 2, 1]), -120, 11025, Engine.DefaultTrackParams,
                    ArpAst.Entry(ArpAst.Rest, 1)) == Ok(Some(Event(Instruments.NoPlayable, -125.0)))
    ensures Span(Event(Instruments.NoPlayable, -125.0)) == 0.0
  {
    assert ArpAst.Entry(ArpAst.Rest, 1).Duration() == 1.0 / 16.0;
    assert EngineNote.ToMillis(1.0 / 16.0, -120) == Ok(-125.0);
  }

  /** An empty configuration gives the default song, C major at 120 bpm
      and 11025 Hz played once. */
  lemma SongDefaults()
    ensures SongSetup(map[]) == Ok(SongPlan(Scales.Key(-9, [2, 2, 1, 2, 2, 2, 1]), 120, 11025, 1, []))
  {
    var empty: ArpAst.Config := map[];
    assert Pop(empty, "key", ArpAst.VStr(DefaultKey)) == (ArpAst.VStr(DefaultKey), empty);
    DefaultKeyIsCMajor();
  }

  /** An empty track configuration gives the sine instrument with the
      default track arguments. */
  lemma TrackDefaults(lines: seq<seq<ArpAst.Entry>>)
    ensures TrackSetup(ArpAst.Track(map[], lines)) == Ok((Instruments.Sine, Engine.DefaultTrackParams))
  {
    var empty: ArpAst.Config := map[];
    assert Pop(empty, "instrument", ArpAst.VStr(DefaultInstrument)) == (ArpAst.VStr(DefaultInstrument), empty);
    InstrumentNames(0);
    Engine.DefaultTrackParamsValid();
  }

  /** "key" and "instrument" are taken out before the rest is passed on:
      giving only them leaves every other argument at its default. */
  lemma NotForwarded(key: ArpAst.Value, instrument: ArpAst.Value, lines: seq<seq<ArpAst.Entry>>)
    ensures var r := SongSetup(map["key" := key]);
            r.Ok? <==> InterpretKey(key).Ok?
    ensures var r := SongSetup(map["key" := key]);
            r.Ok? ==> r.value == SongPlan(InterpretKey(key).value, 120, 11025, 1, [])
    ensures var r := TrackSetup(ArpAst.Track(map["instrument" := instrument], lines));
            (r.Ok? <==> InterpretInstrument(instrument).Ok?)
            && (r.Ok? ==> r.value == (InterpretInstrument(instrument).value, Engine.DefaultTrackParams))
  {
    assert map["key" := key] - {"key"} == map[];
    assert map["instrument" := instrument] - {"instrument"} == map[];
    Engine.DefaultTrackParamsValid();
  }
}
