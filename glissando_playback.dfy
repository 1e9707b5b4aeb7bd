/** The tracks and songs of src/glissando/track.py and src/glissando/song.py.
    A glissando track has only an instrument and a volume: no pan, no track
    octave, no chord switch, no mute or solo. A song overlays all its
    tracks onto silence as long as the longest one. */
module Glissando {
  import opened Wrappers
  import Seqs
  import GlissandoNote
  import GlissandoKey
  import Instruments
  import opened Timeline

  /** How a glissando note or chord is handed to the instrument. */
  function NotePlayable(n: GlissandoNote.Note): (r: Instruments.Playable)
    ensures r.NotePlayable? && r.note == n.offset
  {
    Instruments.NotePlayable(n.offset)
  }

  function ChordPlayable(c: GlissandoNote.Chord): (r: Instruments.Playable)
    ensures r.ChordPlayable? && |r.notes| == |c.notes|
    ensures forall k :: 0 <= k < |c.notes| ==> r.notes[k] == c.notes[k].offset
  {
    Instruments.ChordPlayable(seq(|c.notes|, k requires 0 <= k < |c.notes| => c.notes[k].offset))
  }

  class Track {
    const instrument: Instruments.Kind
    const song: Song
    const volume: real
    var segment: seq<Event>

    /** A track of a song at a volume of at most 0 dB; it starts empty. */
    constructor(instrument: Instruments.Kind, song: Song, volume: real)
      requires volume <= 0.0
      ensures this.instrument == instrument && this.song == song && this.volume == volume
      ensures segment == []
    {
      this.instrument := instrument;
      this.song := song;
      this.volume := volume;
      segment := [];
    }

    /** `Track.__len__`. */
    function Len(): (r: real)
      reads this
      ensures r == 0.0 <==> Silent(segment)
    {
      LengthZero(segment);
      Length(segment)
    }

    /** The sample rate the instrument's generator runs at: the song's,
        except that white noise is made with pydub's default of 44100 Hz. */
    function Rate(): int {
      if instrument == Instruments.Noise then 44100 else song.sampleRate
    }

    /** The bit depth the instrument's generator runs at: the song's,
        except that white noise is made with pydub's default of 16 bits. */
    function Depth(): int {
      if instrument == Instruments.Noise then 16 else song.bitDepth
    }

    /** Whether playing raises KeyError: pydub's `to_audio_segment` looks
        the bit depth up in its table of sample ranges before it makes a
        single frame. A rest makes no generator and never raises. */
    predicate DepthFails(playable: Instruments.Playable) {
      Instruments.Sounds(playable) && !Instruments.BitDepthKnown(Depth())
    }

    /** `_add_to_timeline`: one event lasting the duration at the song's
        tempo. A zero tempo raises ZeroDivisionError, a note or chord at a
        bit depth pydub does not know raises KeyError, and one the
        generator refuses the duration of raises ValueError, before
        anything is added. */
    method AddToTimeline(playable: Instruments.Playable, duration: GlissandoNote.NoteDuration) returns (r: Result<()>)
      modifies this
      ensures r.Ok? <==> (song.bpm != 0 && !DepthFails(playable)
        && !Instruments.GeneratorFails(playable, Rate(), duration.ToMillis(song.bpm).value))
      ensures r.Ok? ==> segment == old(segment) + [Event(playable, duration.ToMillis(song.bpm).value)]
      ensures r.Err? ==> (r.error == (if song.bpm == 0 then ZeroDivisionError
                                     else if DepthFails(playable) then KeyError
                                     else ValueError)
                          && segment == old(segment))
    {
      match duration.ToMillis(song.bpm)
      case Err(e) => return Err(e);
      case Ok(ms) =>
        if DepthFails(playable) {
          return Err(KeyError);
        }
        if Instruments.GeneratorFails(playable, Rate(), ms) {
          return Err(ValueError);
        }
        segment := segment + [Event(playable, ms)];
        return Ok(());
    }

    /** `Track.add_note`: the key's note at the given octave, a quarter note
        unless said otherwise. */
    method AddNote(interval: int, octave: int := 0, duration: GlissandoNote.NoteDuration := GlissandoNote.QuarterNote)
      returns (r: Result<()>)
      modifies this
      ensures r.Ok? <==> (song.bpm != 0 && Instruments.BitDepthKnown(Depth())
        && Instruments.Frames(Rate(), duration.ToMillis(song.bpm).value) >= 0)
      ensures r.Ok? ==> segment == old(segment) + [Event(NotePlayable(song.key.Note(interval, octave)), duration.ToMillis(song.bpm).value)]
      ensures r.Err? ==> (r.error == (if song.bpm == 0 then ZeroDivisionError
                                     else if !Instruments.BitDepthKnown(Depth()) then KeyError
                                     else ValueError)
                          && segment == old(segment))
    {
      r := AddToTimeline(NotePlayable(song.key.Note(interval, octave)), duration);
    }

    /** `Track.add_chord`: the key's triad on the interval. */
    method AddChord(interval: int, octave: int := 0, duration: GlissandoNote.NoteDuration := GlissandoNote.QuarterNote)
      returns (r: Result<()>)
      modifies this
      ensures r.Ok? <==> (song.bpm != 0 && Instruments.BitDepthKnown(Depth())
        && Instruments.Frames(Rate(), duration.ToMillis(song.bpm).value) >= 0)
      ensures r.Ok? ==> segment == old(segment) + [Event(ChordPlayable(song.key.Chord(interval, octave)), duration.ToMillis(song.bpm).value)]
      ensures r.Err? ==> (r.error == (if song.bpm == 0 then ZeroDivisionError
                                     else if !Instruments.BitDepthKnown(Depth()) then KeyError
                                     else ValueError)
                          && segment == old(segment))
    {
      r := AddToTimeline(ChordPlayable(song.key.Chord(interval, octave)), duration);
    }

    /** `Track.add_rest`: a silent event. */
    method AddRest(duration: GlissandoNote.NoteDuration := GlissandoNote.QuarterNote) returns (r: Result<()>)
      modifies this
      ensures r.Ok? <==> song.bpm != 0
      ensures r.Ok? ==> segment == old(segment) + [Event(Instruments.NoPlayable, duration.ToMillis(song.bpm).value)]
      ensures r.Err? ==> r.error == ZeroDivisionError && segment == old(segment)
    {
      r := AddToTimeline(Instruments.NoPlayable, duration);
    }

    /** `Track.loop`: the segment replaced by n copies of itself in a row
        (none for n <= 0). */
    method Loop(n: int)
      modifies this
      ensures segment == Seqs.Repeat(old(segment), n)
      ensures Len() == (if n <= 0 then 0 else n) as real * old(Len())
    {
      var before := segment;
      segment := Seqs.Repeat(before, n);
      LengthLoop(before, n);
      assert Len() == Length(segment);
      assert old(Len()) == Length(before);
    }
  }

  /** A rendered song: silence of length `base` with every layer laid over
      it from the start. An overlay keeps the length of the segment it is
      laid on. */
  datatype Overlay = Overlay(base: real, layers: seq<seq<Event>>)

  class Song {
    const key: GlissandoKey.Key
    const bpm: int
    const sampleRate: int
    const bitDepth: int
    var tracks: seq<Track>

    /** The tracks are distinct and belong to this song: `add_track` is the
        only way tracks are added. */
    ghost predicate Valid()
      reads this
    {
      (forall t :: t in tracks ==> t.song == this)
      && forall i, j :: 0 <= i < j < |tracks| ==> tracks[i] != tracks[j]
    }

    /** A song with no tracks; the defaults are 120 bpm, 11025 Hz and 8-bit
        samples. */
    constructor(key: GlissandoKey.Key, bpm: int := 120, sampleRate: int := 11025, bitDepth: int := 8)
      ensures this.key == key && this.bpm == bpm && this.sampleRate == sampleRate && this.bitDepth == bitDepth
      ensures tracks == [] && Valid()
    {
      this.key := key;
      this.bpm := bpm;
      this.sampleRate := sampleRate;
      this.bitDepth := bitDepth;
      tracks := [];
    }

    /** The tracks' segments, in order. */
    function Segments(): (r: seq<seq<Event>>)
      reads this, tracks
      ensures |r| == |tracks| && forall i :: 0 <= i < |tracks| ==> r[i] == tracks[i].segment
    {
      seq(|tracks|, i reads this, tracks requires 0 <= i < |tracks| => tracks[i].segment)
    }

    /** `Song.__len__`: the longest track; `max` of no tracks raises
        ValueError. */
    function Len(): (r: Result<real>)
      reads this, tracks
      ensures r.Err? <==> |tracks| == 0
      ensures r.Err? ==> r.error == ValueError
      ensures r.Ok? ==> ((forall i :: 0 <= i < |tracks| ==> tracks[i].Len() <= r.value)
                     && (exists i :: 0 <= i < |tracks| && tracks[i].Len() == r.value))
    {
      if |tracks| == 0 then Err(ValueError)
      else
        var segments := Segments();
        assert forall i :: 0 <= i < |tracks| ==> Length(segments[i]) == tracks[i].Len();
        Ok(MaxLength(segments))
    }

    /** What `Song.render` makes: silence as long as the song with every
        track overlaid, in order; without tracks `len` raises ValueError. */
    function Rendered(): Result<Overlay>
      reads this, tracks
    {
      match Len()
      case Err(e) => Err(e)
      case Ok(l) => Ok(Overlay(l, Segments()))
    }

    /** `Song.render`: the loop overlaying one track after the other. */
    method Render() returns (r: Result<Overlay>)
      ensures r == Rendered()
    {
      var length := Len();
      if length.Err? {
        return Err(length.error);
      }
      var layers: seq<seq<Event>> := [];
      var i := 0;
      while i < |tracks|
        invariant 0 <= i <= |tracks|
        invariant layers == Segments()[..i]
      {
        layers := layers + [tracks[i].segment];
        i := i + 1;
      }
      assert layers == Segments();
      return Ok(Overlay(length.value, layers));
    }

    /** `Song.add_track`: a new empty track of this song, appended last and
        returned; a volume above 0 dB raises ValueError and adds nothing. */
    method AddTrack(instrument: Instruments.Kind, volume: real := 0.0) returns (r: Result<Track>)
      modifies this
      ensures r.Ok? <==> volume <= 0.0
      ensures r.Ok? ==> (fresh(r.value) && r.value.song == this && r.value.instrument == instrument
                     && r.value.volume == volume && r.value.segment == [] && tracks == old(tracks) + [r.value])
      ensures r.Err? ==> r.error == ValueError && tracks == old(tracks)
      ensures old(Valid()) ==> Valid()
    {
      if volume > 0.0 {
        return Err(ValueError);
      }
      var t := new Track(instrument, this, volume);
      tracks := tracks + [t];
      return Ok(t);
    }

    /** `Song.loop`: every track looped n times, and nothing else changed. */
    method Loop(n: int)
      requires Valid()
      modifies tracks
      ensures forall i :: 0 <= i < |tracks| ==> tracks[i].segment == Seqs.Repeat(old(tracks[i].segment), n)
    {
      var i := 0;
      while i < |tracks|
        invariant 0 <= i <= |tracks|
        invariant forall j :: 0 <= j < i ==> tracks[j].segment == Seqs.Repeat(old(tracks[j].segment), n)
        invariant forall j :: i <= j < |tracks| ==> tracks[j].segment == old(tracks[j].segment)
      {
        tracks[i].Loop(n);
        i := i + 1;
      }
    }
  }

  /** With exact millisecond lengths a render loses nothing: the silence
      it starts from is as long as the longest track, so every track fits
      on it, and one track reaches its end. (The rounding of lengths to
      whole frames is outside the model.) */
  lemma RenderFits(s: Song)
    requires |s.tracks| > 0
    ensures s.Rendered().Ok?
    ensures var o := s.Rendered().value;
            |o.layers| == |s.tracks|
            && (forall i :: 0 <= i < |o.layers| ==> o.layers[i] == s.tracks[i].segment && Length(o.layers[i]) <= o.base)
            && (exists i :: 0 <= i < |o.layers| && Length(o.layers[i]) == o.base)
  {
    var o := s.Rendered().value;
    assert forall i :: 0 <= i < |o.layers| ==> Length(o.layers[i]) == s.tracks[i].Len();
  }

  /** Looping every track n times makes the song n times as long: its
      longest track then lasts x added n times over, x being the longest
      before. */
  lemma LoopLength(before: seq<seq<Event>>, after: seq<seq<Event>>, n: nat)
    requires |before| == |after| && forall i :: 0 <= i < |before| ==> after[i] == Seqs.Repeat(before[i], n)
    ensures MaxLength(after) == Times(n, MaxLength(before))
  {
    forall i | 0 <= i < |before| ensures Length(after[i]) == Times(n, Length(before[i])) {
      RepeatTimes(before[i], n);
    }
    ScaledMax(before, after, n);
  }

  /** Repeating keeps the order of lengths. */
  lemma {:induction false} TimesMonotone(n: nat, x: real, y: real)
    requires x <= y
    ensures Times(n, x) <= Times(n, y)
  {
    if n > 0 {
      TimesMonotone(n - 1, x, y);
    }
  }

  /** Repeating every one of some lengths n times repeats the longest of
      them n times. */
  lemma {:induction false} ScaledMax(before: seq<seq<Event>>, after: seq<seq<Event>>, n: nat)
    requires |before| == |after|
    requires forall i :: 0 <= i < |before| ==> Length(after[i]) == Times(n, Length(before[i]))
    ensures MaxLength(after) == Times(n, MaxLength(before))
  {
    if |before| > 0 {
      var m := MaxLength(before);
      var k :| 0 <= k < |before| && Length(before[k]) == m;
      forall i | 0 <= i < |after| ensures Length(after[i]) <= Times(n, m) {
        TimesMonotone(n, Length(before[i]), m);
      }
      MaxLengthUnique(after, Times(n, m), k);
    } else {
      assert MaxLength(before) == 0.0 && MaxLength(after) == 0.0;
      assert Times(n, 0.0) == 0.0 by {
        TimesIsProduct(n, 0.0);
      }
    }
  }

  /** A length that bounds every layer and is reached by one is the
      longest. */
  lemma MaxLengthUnique(layers: seq<seq<Event>>, m: real, k: nat)
    requires k < |layers| && Length(layers[k]) == m
    requires forall i :: 0 <= i < |layers| ==> Length(layers[i]) <= m
    ensures MaxLength(layers) == m
  {
  }
}
