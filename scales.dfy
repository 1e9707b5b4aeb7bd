/** The mode and key arithmetic that src/arpeggio/engine/key.py,
    src/arpeggio/mode.py, src/arpeggio/key.py and src/glissando/key.py each
    spell out in their own copy.

    A mode is its list of semitone steps between successive scale degrees.
    A note is an integer number of semitones: transposing a note by s
    semitones adds s (the source multiplies a frequency by 2^(s/12)). */
module Scales {
  import opened Wrappers
  import Seqs

  function Sum(s: seq<int>): int
    decreases |s|
  {
    if s == [] then 0 else Sum(s[..|s| - 1]) + s[|s| - 1]
  }

  lemma SumPrefixStep(s: seq<int>, k: nat)
    requires k < |s|
    ensures Sum(s[..k + 1]) == Sum(s[..k]) + s[k]
  {
    assert s[..k + 1][..k] == s[..k];
  }

  /** The modes of the source's tables: seven positive steps spanning one octave. */
  predicate Diatonic(steps: seq<int>) {
    |steps| == 7 && Sum(steps) == 12 && forall i :: 0 <= i < |steps| ==> steps[i] > 0
  }

  /** `Mode.semitones_to`: semitones from the tonic to the degree `interval`
      (one-indexed) shifted by whole octaves; degrees outside
      [1, len(mode)] raise ValueError. */
  function SemitonesTo(steps: seq<int>, interval: int, octave: int := 0): (r: Result<int>)
    ensures r.Ok? <==> 1 <= interval <= |steps|
    ensures r.Err? ==> r.error == ValueError
  {
    if interval < 1 || interval > |steps| then Err(ValueError)
    else Ok(Sum(steps[..interval - 1]) + 12 * octave)
  }

  /** Degree 1 is the tonic itself, shifted by whole octaves. */
  lemma SemitonesToTonic(steps: seq<int>, octave: int)
    requires |steps| > 0
    ensures SemitonesTo(steps, 1, octave) == Ok(12 * octave)
  {
    assert steps[..0] == [];
  }

  /** Moving up one degree adds the step between the two degrees. */
  lemma SemitonesToStep(steps: seq<int>, interval: int, octave: int)
    requires 1 <= interval < |steps|
    ensures SemitonesTo(steps, interval + 1, octave).value
         == SemitonesTo(steps, interval, octave).value + steps[interval - 1]
  {
    SumPrefixStep(steps, interval - 1);
  }

  /** Positive steps make semitones_to strictly increasing in the degree. */
  lemma {:induction false} SemitonesToIncreasing(steps: seq<int>, i: int, j: int, octave: int)
    requires forall k :: 0 <= k < |steps| ==> steps[k] > 0
    requires 1 <= i < j <= |steps|
    ensures SemitonesTo(steps, i, octave).value < SemitonesTo(steps, j, octave).value
    decreases j - i
  {
    SemitonesToStep(steps, j - 1, octave);
    if i < j - 1 {
      SemitonesToIncreasing(steps, i, j - 1, octave);
    }
  }

  /** Floor division and modulo by a positive length, as `(i - 1) // n` and
      `(i - 1) % n` compute them in Python (Dafny's / and % agree for n > 0). */
  lemma DivModNext(a: int, n: int)
    requires n > 0
    ensures a % n < n - 1 ==> (a + 1) % n == a % n + 1 && (a + 1) / n == a / n
    ensures a % n == n - 1 ==> (a + 1) % n == 0 && (a + 1) / n == a / n + 1
  {
    var q, r := a / n, a % n;
    if r < n - 1 {
      Seqs.DivModUnique(a + 1, n, q, r + 1);
    } else {
      assert a + 1 == (q + 1) * n + 0;
      Seqs.DivModUnique(a + 1, n, q + 1, 0);
    }
  }

  lemma DivModShift(a: int, n: int)
    requires n > 0
    ensures (a + n) % n == a % n && (a + n) / n == a / n + 1
  {
    var q, r := a / n, a % n;
    assert a + n == (q + 1) * n + r;
    Seqs.DivModUnique(a + n, n, q + 1, r);
  }

  /** A tonic and a mode: `Key` in the source. */
  datatype Key = Key(tonic: int, mode: seq<int>) {

    /** `Key.note`: the degree is wrapped into [1, len(mode)] and the
        overflow carried into the octave; the division by len(mode) raises
        ZeroDivisionError for an empty mode, which is the only failure. */
    function Note(interval: int, octave: int := 0): (r: Result<int>)
      ensures r.Err? <==> |mode| == 0
      ensures r.Err? ==> r.error == ZeroDivisionError
    {
      if |mode| == 0 then Err(ZeroDivisionError)
      else
        var wrappedInterval := (interval - 1) % |mode| + 1;
        var wrappedOctave := octave + (interval - 1) / |mode|;
        match SemitonesTo(mode, wrappedInterval, wrappedOctave)
        case Ok(s) => Ok(tonic + s)
        case Err(e) => Err(e)
    }

    /** Within [1, len(mode)] no wrapping happens. */
    lemma NoteInRange(interval: int, octave: int)
      requires 1 <= interval <= |mode|
      ensures Note(interval, octave) == Ok(tonic + SemitonesTo(mode, interval, octave).value)
    {
      Seqs.DivModUnique(interval - 1, |mode|, 0, interval - 1);
    }

    /** The floor semantics of the wrap: degree q * len(mode) + w, for w in
        [1, len(mode)] and any integer q (negative too), is degree w shifted
        by q octaves. */
    lemma NoteDecomposed(q: int, w: int, octave: int)
      requires 1 <= w <= |mode|
      ensures Note(q * |mode| + w, octave) == Ok(tonic + Sum(mode[..w - 1]) + 12 * (octave + q))
    {
      Seqs.DivModUnique(q * |mode| + w - 1, |mode|, q, w - 1);
    }

    /** Going up len(mode) degrees is going up one octave. */
    lemma NoteOctaveWrap(interval: int, octave: int)
      requires |mode| > 0
      ensures Note(interval + |mode|, octave) == Note(interval, octave + 1)
    {
      DivModShift(interval - 1, |mode|);
    }

    /** For a mode whose steps span an octave, going up one degree adds the
        step at the wrapped position: the last step leads to the next
        octave's tonic. */
    lemma NoteStep(interval: int, octave: int)
      requires |mode| > 0 && Sum(mode) == 12
      ensures Note(interval + 1, octave).value
           == Note(interval, octave).value + mode[(interval - 1) % |mode|]
    {
      var n := |mode|;
      DivModNext(interval - 1, n);
      var w := (interval - 1) % n;
      if w < n - 1 {
        SumPrefixStep(mode, w);
      } else {
        SumPrefixStep(mode, n - 1);
        assert mode[..n] == mode;
        assert mode[..0] == [];
      }
    }

    /** With positive steps spanning an octave, higher degrees are higher
        notes, across octave boundaries too. */
    lemma {:induction false} NoteIncreasing(i: int, j: int, octave: int)
      requires |mode| > 0 && Sum(mode) == 12
      requires forall k :: 0 <= k < |mode| ==> mode[k] > 0
      requires i < j
      ensures Note(i, octave).value < Note(j, octave).value
      decreases j - i
    {
      NoteStep(j - 1, octave);
      if i < j - 1 {
        NoteIncreasing(i, j - 1, octave);
      }
    }

    /** `Key.chord`: the triad on degrees interval, interval+2 and
        interval+4, each wrapped on its own. */
    function Chord(interval: int, octave: int := 0): (r: Result<seq<int>>)
      ensures r.Err? <==> |mode| == 0
      ensures r.Err? ==> r.error == ZeroDivisionError
      ensures r.Ok? ==> |r.value| == 3
    {
      if |mode| == 0 then Err(ZeroDivisionError)
      else Ok([Note(interval, octave).value, Note(interval + 2, octave).value,
               Note(interval + 4, octave).value])
    }

    lemma ChordIsTriad(interval: int, octave: int)
      requires |mode| > 0
      ensures Chord(interval, octave).Ok?
      ensures forall k :: 0 <= k < 3 ==> Chord(interval, octave).value[k] == Note(interval + 2 * k, octave).value
    {
    }

    lemma ChordOctaveWrap(interval: int, octave: int)
      requires |mode| > 0
      ensures Chord(interval + |mode|, octave) == Chord(interval, octave + 1)
    {
      NoteOctaveWrap(interval, octave);
      NoteOctaveWrap(interval + 2, octave);
      NoteOctaveWrap(interval + 4, octave);
      assert interval + |mode| + 2 == interval + 2 + |mode|;
      assert interval + |mode| + 4 == interval + 4 + |mode|;
    }

    /** For a diatonic mode the triad is ascending and spans less than an octave. */
    lemma ChordAscending(interval: int, octave: int)
      requires Diatonic(mode)
      ensures var c := Chord(interval, octave).value;
              c[0] < c[1] < c[2] < c[0] + 12
    {
      NoteIncreasing(interval, interval + 2, octave);
      NoteIncreasing(interval + 2, interval + 4, octave);
      NoteIncreasing(interval + 4, interval + 7, octave);
      NoteOctaveWrap(interval, octave);
      OctaveShift(interval, octave);
    }

    /** Adding an octave adds twelve semitones. */
    lemma OctaveShift(interval: int, octave: int)
      requires |mode| > 0
      ensures Note(interval, octave + 1).value == Note(interval, octave).value + 12
    {
    }

    /** `Key.scale`: the notes of degrees 1 to 8 at octave 0. */
    function Scale(): (r: Result<seq<int>>)
      ensures r.Err? <==> |mode| == 0
      ensures r.Ok? ==> |r.value| == 8 && forall k :: 0 <= k < 8 ==> r.value[k] == Note(k + 1).value
    {
      if |mode| == 0 then Err(ZeroDivisionError)
      else Ok(seq(8, k requires 0 <= k < 8 => Note(k + 1).value))
    }

    /** A seven-step mode's scale runs from the tonic to the tonic an
        octave up; a diatonic one strictly ascends. */
    lemma ScaleSpansOctave()
      requires |mode| == 7
      ensures Scale().value[0] == tonic && Scale().value[7] == tonic + 12
      ensures Diatonic(mode) ==> forall a, b :: 0 <= a < b < 8 ==> Scale().value[a] < Scale().value[b]
    {
      NoteInRange(1, 0);
      SemitonesToTonic(mode, 0);
      NoteOctaveWrap(1, 0);
      SemitonesToTonic(mode, 1);
      NoteInRange(1, 1);
      if Diatonic(mode) {
        forall a, b | 0 <= a < b < 8 ensures Scale().value[a] < Scale().value[b] {
          NoteIncreasing(a + 1, b + 1, 0);
        }
      }
    }
  }
}
