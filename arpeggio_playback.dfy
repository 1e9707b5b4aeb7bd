/** The tracks and songs of src/arpeggio/track.py and src/arpeggio/song.py,
    the older copy of the engine's. A track here checks only its volume,
    has no loop setting and no `render`, and is looped in place instead. */
module Arpeggio {
  import opened Wrappers
  import Seqs
  import Scales
  import EngineNote
  import Instruments
  import opened Timeline

  /** What `Track.__init__` receives as `instrument`: an instrument class,
      or an instrument already made from one. `Song.add_track` passes the
      latter. */
  datatype InstrumentArg = InstrumentClass(kind: Instruments.Kind) | InstrumentObject(kind: Instruments.Kind)

  /** The keyword arguments of a track beside its instrument and song. */
  datatype TrackParams = TrackParams(volume: real, pan: real, octave: int, chords: bool, mute: bool, solo: bool)

  const DefaultTrackParams: TrackParams := TrackParams(0.0, 0.0, 0, false, false, false)

  /** The checks of `Track.__init__`, in order: a volume above 0 dB raises
      ValueError; then `instrument(sample_rate=...)` makes the instrument,
      which for an instrument object is a call without the playable and
      duration it needs, a TypeError. The pan is not checked here: a pan
      outside [-1, 1] raises only when a slice is panned (`Track.Rest`,
      `Track.Play`). */
  function TrackInit(instrument: InstrumentArg, p: TrackParams): (r: Result<Instruments.Kind>)
    ensures r.Ok? <==> p.volume <= 0.0 && instrument.InstrumentClass?
    ensures r.Ok? ==> r.value == instrument.kind
    ensures p.volume > 0.0 ==> r == Err(ValueError)
    ensures p.volume <= 0.0 && instrument.InstrumentObject? ==> r == Err(TypeError)
  {
    if p.volume > 0.0 then Err(ValueError)
    else match instrument
      case InstrumentClass(k) => Ok(k)
      case InstrumentObject(_) => Err(TypeError)
  }

  /** What `Song.add_track` does: it hands `Track` an instrument object, so
      no track can ever be added through it. */
  lemma AddTrackAsWrittenFails(kind: Instruments.Kind, p: TrackParams)
    ensures TrackInit(InstrumentObject(kind), p).Err?
    ensures TrackInit(InstrumentClass(kind), DefaultTrackParams) == Ok(kind)
  {
  }

  class Track {
    const instrument: Instruments.Kind
    const song: Song
    const volume: real
    const pan: real
    const octave: int
    const chords: bool
    const mute: bool
    const solo: bool
    var segment: seq<Event>

    function Params(): TrackParams {
      TrackParams(volume, pan, octave, chords, mute, solo)
    }

    /** A track that passed `TrackInit`; it starts empty. */
    constructor(instrument: Instruments.Kind, song: Song, p: TrackParams)
      requires p.volume <= 0.0
      ensures this.instrument == instrument && this.song == song && Params() == p
      ensures segment == []
    {
      this.instrument := instrument;
      this.song := song;
      this.volume := p.volume;
      this.pan := p.pan;
      this.octave := p.octave;
      this.chords := p.chords;
      this.mute := p.mute;
      this.solo := p.solo;
      segment := [];
    }

    /** `Track.__len__`. */
    function Len(): (r: real)
      reads this
      ensures r == 0.0 <==> Silent(segment)
    {
      LengthZero(segment);
      Length(segment)
    }

    /** The chord or the note `play` adds, at the call's octave plus the
        track's. */
    function Playable(interval: int, octave: int): (r: Result<Instruments.Playable>)
      ensures r.Ok? <==> |song.key.mode| > 0
      ensures r.Err? ==> r.error == ZeroDivisionError
      ensures r.Ok? && chords ==> r.value == Instruments.ChordPlayable(song.key.Chord(interval, octave + this.octave).value)
      ensures r.Ok? && !chords ==> r.value == Instruments.NotePlayable(song.key.Note(interval, octave + this.octave).value)
    {
      if chords then
        match song.key.Chord(interval, octave + this.octave)
        case Ok(c) => Ok(Instruments.ChordPlayable(c))
        case Err(e) => Err(e)
      else
        match song.key.Note(interval, octave + this.octave)
        case Ok(n) => Ok(Instruments.NotePlayable(n))
        case Err(e) => Err(e)
    }

    /** `_add_to_timeline`: one event at the song's tempo, played by the
        instrument made at the song's sample rate and then panned. A zero
        tempo raises ZeroDivisionError; a note or chord the generator
        refuses raises ValueError, and so does pydub's `pan` for a pan
        outside [-1, 1], which this track never checked. Nothing is added
        when it raises. */
    method AddToTimeline(playable: Instruments.Playable, duration: EngineNote.Duration) returns (r: Result<()>)
      modifies this
      ensures r.Ok? <==> (song.bpm != 0
        && !Instruments.GeneratorFails(playable, song.sampleRate, EngineNote.ToMillis(duration, song.bpm).value)
        && -1.0 <= pan <= 1.0)
      ensures r.Ok? ==> segment == old(segment) + [Event(playable, EngineNote.ToMillis(duration, song.bpm).value)]
      ensures r.Err? ==> r.error == (if song.bpm == 0 then ZeroDivisionError else ValueError) && segment == old(segment)
    {
      match EngineNote.ToMillis(duration, song.bpm)
      case Err(e) => return Err(e);
      case Ok(ms) =>
        if Instruments.GeneratorFails(playable, song.sampleRate, ms) {
          return Err(ValueError);
        }
        if !(-1.0 <= pan <= 1.0) {
          return Err(ValueError);
        }
        segment := segment + [Event(playable, ms)];
        return Ok(());
    }

    /** `Track.play`: appends the note or chord and returns it. */
    method Play(interval: int, duration: EngineNote.Duration, octave: int := 0) returns (r: Result<Instruments.Playable>)
      modifies this
      ensures r.Ok? <==> (|song.key.mode| > 0 && song.bpm != 0
        && !Instruments.GeneratorFails(Playable(interval, octave).value, song.sampleRate,
                                       EngineNote.ToMillis(duration, song.bpm).value)
        && -1.0 <= pan <= 1.0)
      ensures r.Ok? ==> (r == Playable(interval, octave)
        && segment == old(segment) + [Event(r.value, EngineNote.ToMillis(duration, song.bpm).value)])
      ensures r.Err? ==> (r.error == (if |song.key.mode| == 0 || song.bpm == 0 then ZeroDivisionError else ValueError)
        && segment == old(segment))
    {
      var p := Playable(interval, octave);
      if p.Err? {
        return p;
      }
      var added := AddToTimeline(p.value, duration);
      if added.Err? {
        return Err(added.error);
      }
      return p;
    }

    /** `Track.rest`: appends a silent event, which is panned too. */
    method Rest(duration: EngineNote.Duration) returns (r: Result<()>)
      modifies this
      ensures r.Ok? <==> song.bpm != 0 && -1.0 <= pan <= 1.0
      ensures r.Ok? ==> segment == old(segment) + [Event(Instruments.NoPlayable, EngineNote.ToMillis(duration, song.bpm).value)]
      ensures r.Err? ==> r.error == (if song.bpm == 0 then ZeroDivisionError else ValueError) && segment == old(segment)
    {
      r := AddToTimeline(Instruments.NoPlayable, duration);
    }

    /** `Track.loop`: the segment replaced by n copies of itself in a row
        (none for n <= 0). */
    method Loop(n: int)
      modifies this
      ensures segment == Seqs.Repeat(old(segment), n)
      ensures Len() == (if n <= 0 then 0 else n) as real * old(Len())
    {
      var before := segment;
      segment := Seqs.Repeat(before, n);
      LengthLoop(before, n);
      assert Len() == Length(segment);
      assert old(Len()) == Length(before);
    }
  }

  /** The solo tracks if there are any, otherwise the unmuted ones. */
  function Selected(tracks: seq<Track>): (r: seq<Track>)
    ensures forall i :: 0 <= i < |r| ==> r[i] in tracks
    ensures (exists t :: t in tracks && t.solo) ==>
      forall t :: t in tracks ==> (t in r <==> t.solo)
    ensures (forall t :: t in tracks ==> !t.solo) ==>
      forall t :: t in tracks ==> (t in r <==> !t.mute)
  {
    var solo := Seqs.Filter(tracks, (t: Track) => t.solo);
    var unmuted := Seqs.Filter(tracks, (t: Track) => !t.mute);
    if |solo| > 0 then
      assert solo[0] in tracks && solo[0].solo;
      solo
    else
      assert forall t :: t in tracks ==> !t.solo by {
        forall t | t in tracks ensures !t.solo {
          var i :| 0 <= i < |tracks| && tracks[i] == t;
          assert tracks[i] in tracks;
        }
      }
      unmuted
  }

  /** A selected track is played as many times as it is listed, and a
      track that is not selected not at all. */
  lemma SelectedCount(tracks: seq<Track>)
    ensures (exists t :: t in tracks && t.solo) ==>
      forall t: Track :: multiset(Selected(tracks))[t] == if t.solo then multiset(tracks)[t] else 0
    ensures (forall t :: t in tracks ==> !t.solo) ==>
      forall t: Track :: multiset(Selected(tracks))[t] == if !t.mute then multiset(tracks)[t] else 0
  {
    Seqs.FilterCount(tracks, (t: Track) => t.solo);
    Seqs.FilterCount(tracks, (t: Track) => !t.mute);
  }

  class Song {
    const key: Scales.Key
    const bpm: int
    const sampleRate: int
    const loop: int
    var tracks: seq<Track>

    /** The dataclass's fields, defaulting to 120 bpm, 11025 Hz, no loop
        and no tracks. */
    constructor(key: Scales.Key, bpm: int := 120, sampleRate: int := 11025, tracks: seq<Track> := [], loop: int := 1)
      ensures this.key == key && this.bpm == bpm && this.sampleRate == sampleRate && this.loop == loop
      ensures this.tracks == tracks
    {
      this.key := key;
      this.bpm := bpm;
      this.sampleRate := sampleRate;
      this.loop := loop;
      this.tracks := tracks;
    }

    /** `Song.__len__`: the longest track; no tracks raises ValueError. */
    function Len(): (r: Result<real>)
      reads this, tracks
      ensures r.Err? <==> |tracks| == 0
      ensures r.Err? ==> r.error == ValueError
      ensures r.Ok? ==> ((forall i :: 0 <= i < |tracks| ==> tracks[i].Len() <= r.value)
                     && (exists i :: 0 <= i < |tracks| && tracks[i].Len() == r.value))
    {
      if |tracks| == 0 then Err(ValueError)
      else
        var segments := seq(|tracks|, i reads this, tracks requires 0 <= i < |tracks| => tracks[i].segment);
        assert forall i :: 0 <= i < |tracks| ==> Length(segments[i]) == tracks[i].Len();
        Ok(MaxLength(segments))
    }

    /** `Song.render` as written: it calls `render()` on each selected
        track, which these tracks do not have (AttributeError); with no
        track selected the mixer gets nothing and raises ValueError. */
    function RenderAsWritten(): (r: Result<Mix>)
      reads this, tracks
      ensures r.Err?
      ensures |Selected(tracks)| > 0 ==> r.error == AttributeError
      ensures |Selected(tracks)| == 0 ==> r.error == ValueError
    {
      if |Selected(tracks)| > 0 then Err(AttributeError) else Err(ValueError)
    }

    /** `Song.render` as evidently intended, with each track's segment as
        its render: when the song loops, every selected track is repeated
        before the overlay and the mix itself is played once. Nothing to
        mix, no track selected or only ones that last no time, raises
        ValueError. */
    function Render(): (r: Result<Mix>)
      reads this, tracks
      ensures var sel := Selected(tracks);
              r.Err? <==> forall i :: 0 <= i < |sel| ==> Silent(sel[i].segment)
      ensures r.Err? ==> r.error == ValueError
      ensures r.Ok? ==> var sel := Selected(tracks);
              |r.value.layers| == |sel| && r.value.repeat == 1
              && (forall i :: 0 <= i < |sel| ==>
                    r.value.layers[i] == Looped(sel[i].segment, loop))
    {
      var sel := Selected(tracks);
      var layers := seq(|sel|, i reads sel requires 0 <= i < |sel| =>
                          Looped(sel[i].segment, loop));
      assert forall i :: 0 <= i < |sel| ==>
        layers[i] == Looped(sel[i].segment, loop);
      assert forall i :: 0 <= i < |sel| ==> (Silent(layers[i]) <==> Silent(sel[i].segment)) by {
        forall i | 0 <= i < |sel| ensures Silent(layers[i]) <==> Silent(sel[i].segment) {
          SilentLooped(sel[i].segment, loop);
        }
      }
      if forall i :: 0 <= i < |layers| ==> Silent(layers[i]) then Err(ValueError)
      else Ok(Mix(layers, 1))
    }

    /** `Song.add_track` as written: the instrument object it builds makes
        `Track.__init__` fail, so nothing is ever added. */
    method AddTrackAsWritten(instrument: Instruments.Kind, p: TrackParams) returns (r: Result<Track>)
      ensures r.Err? && r == Err(TrackInit(InstrumentObject(instrument), p).error)
    {
      var init := TrackInit(InstrumentObject(instrument), p);
      return Err(init.error);
    }

    /** `Song.add_track` as evidently intended, passing the instrument
        class: a new empty track of this song, appended last and returned;
        a volume above 0 dB raises ValueError and adds nothing. */
    method AddTrack(instrument: Instruments.Kind, p: TrackParams) returns (r: Result<Track>)
      modifies this
      ensures r.Ok? <==> p.volume <= 0.0
      ensures r.Ok? ==> (fresh(r.value) && r.value.song == this && r.value.instrument == instrument
                     && r.value.Params() == p && r.value.segment == [] && tracks == old(tracks) + [r.value])
      ensures r.Err? ==> r.error == ValueError && tracks == old(tracks)
    {
      var init := TrackInit(InstrumentClass(instrument), p);
      if init.Err? {
        return Err(init.error);
      }
      var t := new Track(instrument, this, p);
      tracks := tracks + [t];
      return Ok(t);
    }
  }

  /** For a song with something to play, `render` as written raises
      AttributeError where the intended render mixes the selected tracks. */
  lemma RenderAsWrittenFails(s: Song, i: nat)
    requires i < |Selected(s.tracks)| && Selected(s.tracks)[i].Len() > 0.0
    ensures s.RenderAsWritten() == Err(AttributeError)
    ensures s.Render().Ok?
  {
    LengthZero(Selected(s.tracks)[i].segment);
  }

  /** Looping each track before the overlay, as this version does, gives
      layers `loop` times as long as the tracks: the same length the
      engine's loop after the overlay gives the mix. */
  lemma RenderLayers(s: Song, m: Mix, i: nat)
    requires s.Render() == Ok(m) && i < |m.layers|
    ensures Length(m.layers[i]) == LoopCount(s.loop) as real * Selected(s.tracks)[i].Len()
  {
    assert m.layers[i] == Looped(Selected(s.tracks)[i].segment, s.loop);
    SelectedLength(s, i);
  }

  lemma SelectedLength(s: Song, i: nat)
    requires i < |Selected(s.tracks)|
    ensures Length(Looped(Selected(s.tracks)[i].segment, s.loop)) == LoopCount(s.loop) as real * Selected(s.tracks)[i].Len()
  {
    LoopedLength(Selected(s.tracks)[i].segment, s.loop);
  }

  /** How many times `Song.render` plays each track: `loop` when it
      exceeds 1, otherwise once. */
  function LoopCount(n: int): (r: nat)
    ensures r >= 1 && (n > 1 ==> r == n)
  {
    if n > 1 then n else 1
  }

  /** A segment as `Song.render` loops it. */
  function Looped(segment: seq<Event>, n: int): seq<Event>
  {
    if n > 1 then Seqs.Repeat(segment, n) else segment
  }

  /** A looped segment plays the segment over and over: its event k is
      event k mod |segment| of the segment. */
  lemma LoopedAt(segment: seq<Event>, n: int, k: nat)
    requires k < |Looped(segment, n)|
    ensures |Looped(segment, n)| == LoopCount(n) * |segment|
    ensures Looped(segment, n)[k] == segment[k % |segment|]
  {
    if n > 1 {
      Seqs.RepeatAt(segment, n, k);
    } else {
      Seqs.DivModUnique(k, |segment|, 0, k);
    }
  }

  /** Looping neither silences a segment nor makes a silent one sound. */
  lemma SilentLooped(segment: seq<Event>, n: int)
    ensures Silent(Looped(segment, n)) <==> Silent(segment)
  {
    var l := Looped(segment, n);
    if Silent(segment) {
      forall k | 0 <= k < |l| ensures l[k].millis <= 0.0 {
        LoopedAt(segment, n, k);
      }
    }
    if Silent(l) {
      forall k | 0 <= k < |segment| ensures segment[k].millis <= 0.0 {
        LoopedAt(segment, n, k);
        Seqs.DivModUnique(k, |segment|, 0, k);
      }
    }
  }

  /** A looped segment lasts LoopCount(n) times as long. */
  lemma LoopedLength(segment: seq<Event>, n: int)
    ensures Length(Looped(segment, n)) == LoopCount(n) as real * Length(segment)
  {
    var c := LoopCount(n);
    assert Looped(segment, n) == Seqs.Repeat(segment, c) by {
      if n <= 1 {
        Seqs.RepeatOnce(segment);
      }
    }
    LengthRepeat(segment, c);
  }
}
