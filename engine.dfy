/** The tracks and songs of src/arpeggio/engine/track.py and
    src/arpeggio/engine/song.py. A track appends events to its timeline; a
    song holds tracks and renders them into a mix. */
module Engine {
  import opened Wrappers
  import Seqs
  import Scales
  import EngineNote
  import Instruments
  import opened Timeline

  /** The keyword arguments of a track beside its instrument and song. */
  datatype TrackParams = TrackParams(volume: real, pan: real, octave: int, chords: bool,
                                     mute: bool, solo: bool, loop: int)

  const DefaultTrackParams: TrackParams := TrackParams(0.0, 0.0, 0, false, false, false, 1)

  /** `Track.__post_init__`: the volume may not exceed 0 dB, the pan must
      lie in [-1, 1] and the loop count must be positive; each violation
      raises ValueError. */
  function CheckTrack(p: TrackParams): (r: Result<TrackParams>)
    ensures r.Ok? <==> p.volume <= 0.0 && -1.0 <= p.pan <= 1.0 && p.loop >= 1
    ensures r.Ok? ==> r.value == p
    ensures r.Err? ==> r.error == ValueError
  {
    if p.volume > 0.0 then Err(ValueError)
    else if !(-1.0 <= p.pan <= 1.0) then Err(ValueError)
    else if p.loop < 1 then Err(ValueError)
    else Ok(p)
  }

  lemma DefaultTrackParamsValid()
    ensures CheckTrack(DefaultTrackParams) == Ok(DefaultTrackParams)
  {
  }

  /** What `play` adds on a track with these settings in this key: the
      chord or the note of the call's octave plus the track's octave. An
      empty mode raises ZeroDivisionError. */
  function PlayableOf(key: Scales.Key, p: TrackParams, interval: int, octave: int): (r: Result<Instruments.Playable>)
    ensures r.Ok? <==> |key.mode| > 0
    ensures r.Err? ==> r.error == ZeroDivisionError
    ensures r.Ok? && p.chords ==> r.value == Instruments.ChordPlayable(key.Chord(interval, octave + p.octave).value)
    ensures r.Ok? && !p.chords ==> r.value == Instruments.NotePlayable(key.Note(interval, octave + p.octave).value)
  {
    if p.chords then
      match key.Chord(interval, octave + p.octave)
      case Ok(c) => Ok(Instruments.ChordPlayable(c))
      case Err(e) => Err(e)
    else
      match key.Note(interval, octave + p.octave)
      case Ok(n) => Ok(Instruments.NotePlayable(n))
      case Err(e) => Err(e)
  }

  class Track {
    const instrument: Instruments.Kind
    const song: Song
    const volume: real
    const pan: real
    const octave: int
    const chords: bool
    const mute: bool
    const solo: bool
    const loop: int
    var timeline: seq<Event>

    ghost predicate Valid() {
      CheckTrack(Params()).Ok?
    }

    function Params(): TrackParams {
      TrackParams(volume, pan, octave, chords, mute, solo, loop)
    }

    constructor(instrument: Instruments.Kind, song: Song, p: TrackParams)
      requires CheckTrack(p).Ok?
      ensures Valid()
      ensures this.instrument == instrument && this.song == song && Params() == p
      ensures timeline == []
    {
      this.instrument := instrument;
      this.song := song;
      this.volume := p.volume;
      this.pan := p.pan;
      this.octave := p.octave;
      this.chords := p.chords;
      this.mute := p.mute;
      this.solo := p.solo;
      this.loop := p.loop;
      timeline := [];
    }

    /** `Track.__len__`: the total duration of the timeline. */
    function Len(): (r: real)
      reads this
      ensures r == 0.0 <==> Silent(timeline)
    {
      LengthZero(timeline);
      Length(timeline)
    }

    /** `_add_to_timeline`: the duration is converted at the song's tempo,
        the instrument (made at the song's sample rate) plays it, and one
        event is appended. A zero tempo raises ZeroDivisionError, and a
        note or chord the generator refuses raises ValueError; then nothing
        is added. */
    method AddToTimeline(playable: Instruments.Playable, duration: EngineNote.Duration) returns (r: Result<()>)
      modifies this
      ensures r.Ok? <==> (song.bpm != 0
        && !Instruments.GeneratorFails(playable, song.sampleRate, EngineNote.ToMillis(duration, song.bpm).value))
      ensures r.Ok? ==> timeline == old(timeline) + [Event(playable, EngineNote.ToMillis(duration, song.bpm).value)]
      ensures r.Err? ==> r.error == (if song.bpm == 0 then ZeroDivisionError else ValueError) && timeline == old(timeline)
    {
      match EngineNote.ToMillis(duration, song.bpm)
      case Err(e) => return Err(e);
      case Ok(ms) =>
        if Instruments.GeneratorFails(playable, song.sampleRate, ms) {
          return Err(ValueError);
        }
        timeline := timeline + [Event(playable, ms)];
        return Ok(());
    }

    /** `Track.play`: appends the note or chord and returns it. An empty
        mode or a zero tempo raises ZeroDivisionError, a note or chord the
        generator refuses raises ValueError, and then nothing is appended. */
    method Play(interval: int, duration: EngineNote.Duration, octave: int := 0) returns (r: Result<Instruments.Playable>)
      modifies this
      ensures r.Ok? <==> (|song.key.mode| > 0 && song.bpm != 0
        && !Instruments.GeneratorFails(PlayableOf(song.key, Params(), interval, octave).value, song.sampleRate,
                                       EngineNote.ToMillis(duration, song.bpm).value))
      ensures r.Ok? ==> (r == PlayableOf(song.key, Params(), interval, octave)
        && timeline == old(timeline) + [Event(r.value, EngineNote.ToMillis(duration, song.bpm).value)])
      ensures r.Err? ==> (r.error == (if |song.key.mode| == 0 || song.bpm == 0 then ZeroDivisionError else ValueError)
        && timeline == old(timeline))
    {
      var p := PlayableOf(song.key, Params(), interval, octave);
      if p.Err? {
        return p;
      }
      var added := AddToTimeline(p.value, duration);
      if added.Err? {
        return Err(added.error);
      }
      return p;
    }

    /** `Track.rest`: appends a silent event; a zero tempo raises. */
    method Rest(duration: EngineNote.Duration) returns (r: Result<()>)
      modifies this
      ensures r.Ok? <==> song.bpm != 0
      ensures r.Ok? ==> timeline == old(timeline) + [Event(Instruments.NoPlayable, EngineNote.ToMillis(duration, song.bpm).value)]
      ensures r.Err? ==> r.error == ZeroDivisionError && timeline == old(timeline)
    {
      r := AddToTimeline(Instruments.NoPlayable, duration);
    }

    /** `Track.render`: the timeline repeated `loop` times, the timeline
        itself when `loop` is 1. */
    function Render(): seq<Event>
      reads this
    {
      if loop > 1 then Seqs.Repeat(timeline, loop) else timeline
    }

    /** A render plays the timeline `loop` times over: event i of it is
        event i mod n of the timeline. */
    lemma RenderSpec()
      requires Valid()
      ensures |Render()| == loop * |timeline|
      ensures forall i :: 0 <= i < |Render()| ==> Render()[i] == timeline[i % |timeline|]
    {
      forall i | 0 <= i < |Render()| ensures Render()[i] == timeline[i % |timeline|] {
        if loop > 1 {
          Seqs.RepeatAt(timeline, loop, i);
        } else {
          Seqs.DivModUnique(i, |timeline|, 0, i);
        }
      }
    }

    /** A render is `loop` times as long as the timeline. */
    lemma RenderLength()
      requires Valid()
      ensures Length(Render()) == loop as real * Len()
    {
      if loop > 1 {
        LengthRepeat(timeline, loop);
      } else {
        assert loop as real == 1.0;
      }
    }
  }

  /** The tracks a render plays: the solo tracks if there are any (muted or
      not), otherwise every track that is not muted. */
  function Selected(tracks: seq<Track>): (r: seq<Track>)
    ensures forall i :: 0 <= i < |r| ==> r[i] in tracks
    ensures (exists t :: t in tracks && t.solo) ==>
      forall t :: t in tracks ==> (t in r <==> t.solo)
    ensures (forall t :: t in tracks ==> !t.solo) ==>
      forall t :: t in tracks ==> (t in r <==> !t.mute)
  {
    var solo := Seqs.Filter(tracks, (t: Track) => t.solo);
    var unmuted := Seqs.Filter(tracks, (t: Track) => !t.mute);
    if |solo| > 0 then
      assert solo[0] in tracks && solo[0].solo;
      solo
    else
      assert forall t :: t in tracks ==> !t.solo by {
        forall t | t in tracks ensures !t.solo {
          var i :| 0 <= i < |tracks| && tracks[i] == t;
          assert tracks[i] in tracks;
        }
      }
      unmuted
  }

  /** A selected track is played as many times as it is listed, and a
      track that is not selected not at all. */
  lemma SelectedCount(tracks: seq<Track>)
    ensures (exists t :: t in tracks && t.solo) ==>
      forall t: Track :: multiset(Selected(tracks))[t] == if t.solo then multiset(tracks)[t] else 0
    ensures (forall t :: t in tracks ==> !t.solo) ==>
      forall t: Track :: multiset(Selected(tracks))[t] == if !t.mute then multiset(tracks)[t] else 0
  {
    Seqs.FilterCount(tracks, (t: Track) => t.solo);
    Seqs.FilterCount(tracks, (t: Track) => !t.mute);
  }

  class Song {
    const key: Scales.Key
    const bpm: int
    const sampleRate: int
    const loop: int
    var tracks: seq<Track>

    /** Every track belongs to this song and passed its checks. */
    ghost predicate Valid()
      reads this
    {
      forall t :: t in tracks ==> t.Valid() && t.song == this
    }

    /** A song starts with no tracks; the defaults are 120 bpm, 11025 Hz
        and no loop. */
    constructor(key: Scales.Key, bpm: int := 120, sampleRate: int := 11025, loop: int := 1)
      ensures this.key == key && this.bpm == bpm && this.sampleRate == sampleRate && this.loop == loop
      ensures tracks == [] && Valid()
    {
      this.key := key;
      this.bpm := bpm;
      this.sampleRate := sampleRate;
      this.loop := loop;
      tracks := [];
    }

    /** `Song.__len__`: the longest track; `max` of no tracks raises
        ValueError. */
    function Len(): (r: Result<real>)
      reads this, tracks
      ensures r.Err? <==> |tracks| == 0
      ensures r.Err? ==> r.error == ValueError
      ensures r.Ok? ==> ((forall i :: 0 <= i < |tracks| ==> tracks[i].Len() <= r.value)
                     && (exists i :: 0 <= i < |tracks| && tracks[i].Len() == r.value))
    {
      if |tracks| == 0 then Err(ValueError)
      else
        var timelines := seq(|tracks|, i reads this, tracks requires 0 <= i < |tracks| => tracks[i].timeline);
        assert forall i :: 0 <= i < |tracks| ==> Length(timelines[i]) == tracks[i].Len();
        Ok(MaxLength(timelines))
    }

    /** `Song.render`: the selected tracks' renders overlaid, the mix then
        looped when `loop` exceeds 1. The mixer raises ValueError when
        there is nothing to mix: no track selected, or only renders that
        last no time. */
    function Render(): (r: Result<Mix>)
      reads this, tracks
      ensures var sel := Selected(tracks);
              r.Err? <==> forall i :: 0 <= i < |sel| ==> Silent(sel[i].Render())
      ensures r.Err? ==> r.error == ValueError
      ensures r.Ok? ==> var sel := Selected(tracks);
              |r.value.layers| == |sel| && (forall i :: 0 <= i < |sel| ==> r.value.layers[i] == sel[i].Render())
              && r.value.repeat == (if loop > 1 then loop else 1)
    {
      var sel := Selected(tracks);
      var layers := seq(|sel|, i reads sel requires 0 <= i < |sel| => sel[i].Render());
      assert forall i :: 0 <= i < |sel| ==> layers[i] == sel[i].Render();
      if forall i :: 0 <= i < |layers| ==> Silent(layers[i]) then Err(ValueError)
      else Ok(Mix(layers, if loop > 1 then loop else 1))
    }

    /** `Song.add_track`: a new track of this song, appended last and
        returned; invalid parameters raise ValueError and add nothing. */
    method AddTrack(instrument: Instruments.Kind, p: TrackParams) returns (r: Result<Track>)
      modifies this
      ensures r.Ok? <==> CheckTrack(p).Ok?
      ensures r.Ok? ==> (fresh(r.value) && r.value.Valid() && r.value.song == this
                     && r.value.instrument == instrument && r.value.Params() == p
                     && r.value.timeline == [] && tracks == old(tracks) + [r.value])
      ensures old(Valid()) ==> Valid()
      ensures r.Err? ==> r.error == ValueError && tracks == old(tracks)
    {
      var checked := CheckTrack(p);
      if checked.Err? {
        return Err(checked.error);
      }
      var t := new Track(instrument, this, p);
      tracks := tracks + [t];
      return Ok(t);
    }
  }

  /** Each layer of a song's mix is a selected track played `loop` times
      over, so it lasts `loop` times that track's length. */
  lemma RenderLayers(s: Song, m: Mix, i: nat, t: Track)
    requires s.Valid() && s.Render() == Ok(m) && i < |m.layers| && t == Selected(s.tracks)[i]
    ensures Length(m.layers[i]) == t.loop as real * t.Len()
  {
    ValidTrack(s, t);
    LayerLength(m.layers[i], t);
  }

  /** A mix plays `repeat` times its longest layer (`Mix.Length`). For a
      song's mix that layer is the longest render of a selected track,
      and `Track.RenderLength` shows a render lasts `loop` times its
      track's length. */
  lemma MixLength(s: Song, m: Mix)
    requires s.Render() == Ok(m)
    ensures var sel := Selected(s.tracks);
            |sel| > 0
            && (forall i :: 0 <= i < |sel| ==> Length(sel[i].Render()) <= MaxLength(m.layers))
            && (exists i :: 0 <= i < |sel| && Length(sel[i].Render()) == MaxLength(m.layers))
  {
    var k :| 0 <= k < |m.layers| && Length(m.layers[k]) == MaxLength(m.layers);
  }

  lemma LayerLength(layer: seq<Event>, t: Track)
    requires t.Valid() && layer == t.Render()
    ensures Length(layer) == t.loop as real * t.Len()
  {
    t.RenderLength();
  }

  lemma ValidTrack(s: Song, t: Track)
    requires s.Valid() && t in Selected(s.tracks)
    ensures t.Valid()
  {
    var sel := Selected(s.tracks);
    var i :| 0 <= i < |sel| && sel[i] == t;
    assert t in s.tracks;
  }
}
