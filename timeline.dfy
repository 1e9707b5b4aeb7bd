/** Timelines: what a track has had added to it, standing for the audio
    segment the source concatenates. Each event is what was played and for
    how many milliseconds. */
module Timeline {
  import Seqs
  import Instruments

  datatype Event = Event(playable: Instruments.Playable, millis: real)

  /** How long the slice an event adds lasts: a duration of zero or less
      gives an empty segment. */
  function Span(e: Event): real
  {
    if e.millis > 0.0 then e.millis else 0.0
  }

  /** The length of a timeline in milliseconds. */
  function Length(events: seq<Event>): real
    decreases |events|
  {
    if |events| == 0 then 0.0 else Length(events[..|events| - 1]) + Span(events[|events| - 1])
  }

  /** No timeline lasts a negative time. */
  lemma {:induction false} LengthNonNegative(events: seq<Event>)
    ensures Length(events) >= 0.0
    decreases |events|
  {
    if |events| > 0 {
      LengthNonNegative(events[..|events| - 1]);
    }
  }

  /** Every event of a timeline adds an empty slice. */
  predicate Silent(events: seq<Event>)
  {
    forall i :: 0 <= i < |events| ==> events[i].millis <= 0.0
  }

  /** A timeline lasts no time exactly when it is silent. */
  lemma {:induction false} LengthZero(events: seq<Event>)
    ensures Length(events) == 0.0 <==> Silent(events)
    decreases |events|
  {
    if |events| > 0 {
      var init := events[..|events| - 1];
      LengthZero(init);
      LengthNonNegative(init);
      assert forall i :: 0 <= i < |init| ==> init[i] == events[i];
    }
  }

  /** Lengths add up under concatenation. */
  lemma {:induction false} LengthAppend(a: seq<Event>, b: seq<Event>)
    ensures Length(a + b) == Length(a) + Length(b)
    decreases |b|
  {
    if |b| == 0 {
      assert a + b == a;
    } else {
      assert (a + b)[..|a + b| - 1] == a + b[..|b| - 1];
      LengthAppend(a, b[..|b| - 1]);
    }
  }

  /** A timeline repeated n times is n times as long. */
  lemma LengthRepeat(events: seq<Event>, n: nat)
    ensures Length(Seqs.Repeat(events, n)) == n as real * Length(events)
  {
    calc {
      Length(Seqs.Repeat(events, n));
    == { RepeatTimes(events, n); }
      Times(n, Length(events));
    == { TimesIsProduct(n, Length(events)); }
      n as real * Length(events);
    }
  }

  /** A timeline looped n times, none for n <= 0, is that many times as
      long. */
  lemma LengthLoop(events: seq<Event>, n: int)
    ensures Length(Seqs.Repeat(events, n)) == (if n <= 0 then 0 else n) as real * Length(events)
  {
    if n > 0 {
      LengthRepeat(events, n);
    } else {
      assert Seqs.Repeat(events, n) == [];
    }
  }

  /** A timeline repeated n times lasts its length n times over. */
  lemma {:induction false} RepeatTimes(events: seq<Event>, n: nat)
    ensures Length(Seqs.Repeat(events, n)) == Times(n, Length(events))
    decreases n
  {
    if n == 0 {
      assert Seqs.Repeat(events, 0) == [];
    } else {
      var rest := Seqs.Repeat(events, n - 1);
      assert Seqs.Repeat(events, n) == events + rest;
      RepeatTimes(events, n - 1);
      LengthAppend(events, rest);
    }
  }

  /** x added to itself n times. */
  function Times(n: nat, x: real): real
  {
    if n == 0 then 0.0 else x + Times(n - 1, x)
  }

  /** Times is multiplication by n. */
  lemma {:induction false} TimesIsProduct(n: nat, x: real)
    ensures Times(n, x) == n as real * x
  {
    if n > 0 {
      TimesIsProduct(n - 1, x);
    }
  }

  /** The longest of some lengths (0 for none). */
  function MaxLength(layers: seq<seq<Event>>): (r: real)
    ensures forall i :: 0 <= i < |layers| ==> Length(layers[i]) <= r
    ensures |layers| > 0 ==> exists i :: 0 <= i < |layers| && Length(layers[i]) == r
    decreases |layers|
  {
    if |layers| == 0 then 0.0
    else
      var m := MaxLength(layers[..|layers| - 1]);
      var l := Length(layers[|layers| - 1]);
      assert forall i :: 0 <= i < |layers| - 1 ==> layers[..|layers| - 1][i] == layers[i];
      if |layers| == 1 || l > m then l else m
  }

  /** A mix to be made: the layers laid over each other, the result played
      `repeat` times in a row. */
  datatype Mix = Mix(layers: seq<seq<Event>>, repeat: nat)
  {
    /** How long the mix plays: its longest layer, repeated. */
    function Length(): real { repeat as real * MaxLength(layers) }
  }
}
