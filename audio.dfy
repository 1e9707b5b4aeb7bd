/** `normalized_overlay` of src/arpeggio/audio.py: mixing 16-bit sample
    arrays. A segment is its sequence of signed samples. */
module Audio {
  import opened Wrappers

  const MinSample: int := -32768
  const MaxSample: int := 32767

  predicate InRange(s: seq<int>) {
    forall i :: 0 <= i < |s| ==> MinSample <= s[i] <= MaxSample
  }

  /** The sample count of the longest segment (0 when there is none). */
  function MaxLen(segments: seq<seq<int>>): (r: nat)
    ensures forall k :: 0 <= k < |segments| ==> |segments[k]| <= r
    ensures |segments| > 0 ==> exists k :: 0 <= k < |segments| && |segments[k]| == r
    ensures |segments| == 0 ==> r == 0
    decreases |segments|
  {
    if |segments| == 0 then 0
    else
      var m := MaxLen(segments[..|segments| - 1]);
      var last := |segments[|segments| - 1]|;
      if last > m then last else m
  }

  /** Sample i of the zero-padded sum: every segment long enough to have an
      i-th sample contributes it. */
  function SumAt(segments: seq<seq<int>>, i: int): int
    decreases |segments|
  {
    if |segments| == 0 then 0
    else
      var last := segments[|segments| - 1];
      SumAt(segments[..|segments| - 1], i) + (if 0 <= i < |last| then last[i] else 0)
  }

  /** The summed samples, as long as the longest segment. */
  function Summed(segments: seq<seq<int>>): (r: seq<int>)
    ensures |r| == MaxLen(segments)
    ensures forall i :: 0 <= i < |r| ==> r[i] == SumAt(segments, i)
  {
    seq(MaxLen(segments), i requires 0 <= i < MaxLen(segments) => SumAt(segments, i))
  }

  function SeqMax(s: seq<int>): (r: int)
    requires |s| > 0
    ensures forall i :: 0 <= i < |s| ==> s[i] <= r
    ensures exists i :: 0 <= i < |s| && s[i] == r
    decreases |s|
  {
    if |s| == 1 then s[0]
    else
      var m := SeqMax(s[..|s| - 1]);
      assert forall i :: 0 <= i < |s| - 1 ==> s[..|s| - 1][i] == s[i];
      if s[|s| - 1] > m then s[|s| - 1] else m
  }

  function SeqMin(s: seq<int>): (r: int)
    requires |s| > 0
    ensures forall i :: 0 <= i < |s| ==> r <= s[i]
    ensures exists i :: 0 <= i < |s| && s[i] == r
    decreases |s|
  {
    if |s| == 1 then s[0]
    else
      var m := SeqMin(s[..|s| - 1]);
      assert forall i :: 0 <= i < |s| - 1 ==> s[..|s| - 1][i] == s[i];
      if s[|s| - 1] < m then s[|s| - 1] else m
  }

  /** `np.interp(x, (lo, hi), (-32768, 32767))` on exact reals: the affine
      map of [lo, hi] onto the 16-bit range. When lo == hi numpy returns the
      right end point. */
  function Interp(x: int, lo: int, hi: int): (r: real)
    requires lo <= x <= hi
    ensures MinSample as real <= r <= MaxSample as real
    ensures x == hi ==> r == MaxSample as real
    ensures lo < hi && x == lo ==> r == MinSample as real
  {
    if lo == hi then MaxSample as real
    else
      var t := (x - lo) as real / (hi - lo) as real;
      assert 0.0 <= t <= 1.0 by {
        assert (x - lo) as real <= (hi - lo) as real;
      }
      MinSample as real + t * (MaxSample - MinSample) as real
  }

  /** `astype(np.int16)` of a value already in range: truncation toward zero. */
  function Truncate(v: real): (r: int)
    ensures v >= 0.0 ==> r as real <= v < r as real + 1.0
    ensures v < 0.0 ==> r as real - 1.0 < v <= r as real
  {
    if v >= 0.0 then v.Floor else -((-v).Floor)
  }

  /** One rescaled sample. */
  function Rescale(x: int, lo: int, hi: int): (r: int)
    requires lo <= x <= hi
    ensures MinSample <= r <= MaxSample
  {
    Truncate(Interp(x, lo, hi))
  }

  /** Whether the summed samples leave the 16-bit range (`output.max() >
      max_val or output.min() < min_val`). */
  predicate Clips(s: seq<int>)
    requires |s| > 0
  {
    SeqMax(s) > MaxSample || SeqMin(s) < MinSample
  }

  /** What `normalized_overlay` returns. No segment at all fails in `max`,
      and segments that are all empty fail in `output.max()`: both raise
      ValueError. */
  function Overlay(segments: seq<seq<int>>): (r: Result<seq<int>>)
    ensures r.Err? <==> MaxLen(segments) == 0
    ensures r.Err? ==> r.error == ValueError
  {
    var sum := Summed(segments);
    if |segments| == 0 || |sum| == 0 then Err(ValueError)
    else if Clips(sum) then
      var lo, hi := SeqMin(sum), SeqMax(sum);
      Ok(seq(|sum|, i requires 0 <= i < |sum| => Rescale(sum[i], lo, hi)))
    else Ok(sum)
  }

  /** The mix is as long as the longest segment, always fits the 16-bit
      range, and is the plain zero-padded sum whenever that sum fits. */
  lemma OverlaySpec(segments: seq<seq<int>>)
    requires Overlay(segments).Ok?
    ensures |Overlay(segments).value| == MaxLen(segments)
    ensures InRange(Overlay(segments).value)
    ensures InRange(Summed(segments)) ==> Overlay(segments).value == Summed(segments)
  {
    var sum := Summed(segments);
    if !Clips(sum) {
      assert forall i :: 0 <= i < |sum| ==> SeqMin(sum) <= sum[i] <= SeqMax(sum);
    }
    if InRange(sum) {
      NoClipInRange(sum);
    }
  }

  lemma NoClipInRange(s: seq<int>)
    requires |s| > 0 && InRange(s)
    ensures !Clips(s)
  {
    var i :| 0 <= i < |s| && s[i] == SeqMax(s);
    var j :| 0 <= j < |s| && s[j] == SeqMin(s);
  }

  /** Rescaling keeps the order of the samples, and maps the loudest and
      the quietest sample to the two ends of the range. */
  lemma RescaleMonotone(x: int, y: int, lo: int, hi: int)
    requires lo <= x <= y <= hi
    ensures Rescale(x, lo, hi) <= Rescale(y, lo, hi)
    ensures Rescale(hi, lo, hi) == MaxSample
    ensures lo < hi ==> Rescale(lo, lo, hi) == MinSample
  {
    if lo < hi {
      var d := (hi - lo) as real;
      assert (x - lo) as real / d <= (y - lo) as real / d by {
        assert (x - lo) as real <= (y - lo) as real;
      }
    }
  }

  lemma SumAtSingle(s: seq<int>, i: int)
    ensures SumAt([s], i) == (if 0 <= i < |s| then s[i] else 0)
  {
    assert [s][..0] == [];
  }

  /** A single non-empty segment already in range comes back unchanged. */
  lemma OverlaySingle(s: seq<int>)
    requires |s| > 0 && InRange(s)
    ensures Overlay([s]) == Ok(s)
  {
    assert [s][..0] == [];
    assert MaxLen([s]) == |s|;
    forall i | 0 <= i < |s| ensures Summed([s])[i] == s[i] {
      SumAtSingle(s, i);
    }
    assert Summed([s]) == s;
    OverlaySpec([s]);
  }

  lemma SumAtPrefix(segments: seq<seq<int>>, k: nat, i: int)
    requires k < |segments|
    ensures SumAt(segments[..k + 1], i) == SumAt(segments[..k], i)
                                          + (if 0 <= i < |segments[k]| then segments[k][i] else 0)
  {
    assert segments[..k + 1][..k] == segments[..k];
  }

  lemma MaxLenPrefix(segments: seq<seq<int>>, k: nat)
    requires k < |segments|
    ensures MaxLen(segments[..k + 1]) == if |segments[k]| > MaxLen(segments[..k]) then |segments[k]| else MaxLen(segments[..k])
  {
    assert segments[..k + 1][..k] == segments[..k];
  }

  lemma SeqMaxPrefix(s: seq<int>, k: nat)
    requires 0 < k < |s|
    ensures SeqMax(s[..k + 1]) == if s[k] > SeqMax(s[..k]) then s[k] else SeqMax(s[..k])
    ensures SeqMin(s[..k + 1]) == if s[k] < SeqMin(s[..k]) then s[k] else SeqMin(s[..k])
  {
    assert s[..k + 1][..k] == s[..k];
  }

  /** The length of the longest segment, found by a scan. */
  method LongestLength(segments: seq<seq<int>>) returns (n: nat)
    ensures n == MaxLen(segments)
  {
    n := 0;
    assert segments[..0] == [];
    for k := 0 to |segments|
      invariant n == MaxLen(segments[..k])
    {
      MaxLenPrefix(segments, k);
      if |segments[k]| > n {
        n := |segments[k]|;
      }
    }
    assert segments[..|segments|] == segments;
  }

  /** `output[:len(segment)] += segment`. */
  method AddInto(output: array<int>, segment: seq<int>)
    requires |segment| <= output.Length
    modifies output
    ensures forall t :: 0 <= t < output.Length ==>
      output[t] == old(output[t]) + (if t < |segment| then segment[t] else 0)
  {
    for j := 0 to |segment|
      invariant forall t :: 0 <= t < output.Length ==>
        output[t] == old(output[t]) + (if t < j then segment[t] else 0)
    {
      output[j] := output[j] + segment[j];
    }
  }

  /** `output.min()` and `output.max()`. */
  method Extremes(a: array<int>) returns (lo: int, hi: int)
    requires a.Length > 0
    ensures lo == SeqMin(a[..]) && hi == SeqMax(a[..])
  {
    lo, hi := a[0], a[0];
    assert a[..1] == [a[0]];
    for j := 1 to a.Length
      invariant lo == SeqMin(a[..j]) && hi == SeqMax(a[..j])
    {
      SeqMaxPrefix(a[..], j);
      assert a[..][..j] == a[..j] && a[..][..j + 1] == a[..j + 1];
      if a[j] < lo { lo := a[j]; }
      if a[j] > hi { hi := a[j]; }
    }
    assert a[..a.Length] == a[..];
  }

  /** The `np.interp` branch, sample by sample in place. */
  method RescaleAll(a: array<int>, lo: int, hi: int)
    requires forall t :: 0 <= t < a.Length ==> lo <= a[t] <= hi
    modifies a
    ensures forall t :: 0 <= t < a.Length ==> a[t] == Rescale(old(a[t]), lo, hi)
  {
    for j := 0 to a.Length
      invariant forall t :: 0 <= t < j ==> a[t] == Rescale(old(a[t]), lo, hi)
      invariant forall t :: j <= t < a.Length ==> a[t] == old(a[t])
    {
      a[j] := Rescale(a[j], lo, hi);
    }
  }

  /** The zeroed array of the longest length with every segment added onto
      its prefix. */
  method SumSegments(segments: seq<seq<int>>) returns (output: array<int>)
    ensures fresh(output)
    ensures output[..] == Summed(segments)
  {
    var maxLen := LongestLength(segments);
    output := new int[maxLen](_ => 0);
    assert segments[..0] == [];
    for k := 0 to |segments|
      invariant forall t :: 0 <= t < maxLen ==> output[t] == SumAt(segments[..k], t)
    {
      AddInto(output, segments[k]);
      forall t | 0 <= t < maxLen ensures output[t] == SumAt(segments[..k + 1], t) {
        SumAtPrefix(segments, k, t);
      }
    }
    assert segments[..|segments|] == segments;
  }

  /** The mixer as the source runs it: the zero-padded sum, then the
      extremes found and, if the sum clips, every sample rescaled in place. */
  method NormalizedOverlay(segments: seq<seq<int>>) returns (r: Result<seq<int>>)
    ensures r == Overlay(segments)
  {
    if |segments| == 0 {
      return Err(ValueError);
    }
    var output := SumSegments(segments);
    if output.Length == 0 {
      return Err(ValueError);
    }
    ghost var sum := output[..];
    var lo, hi := Extremes(output);
    if hi > MaxSample || lo < MinSample {
      assert forall t :: 0 <= t < output.Length ==> lo <= output[t] <= hi by {
        assert forall t :: 0 <= t < output.Length ==> output[t] == sum[t];
      }
      RescaleAll(output, lo, hi);
      assert output[..] == seq(|sum|, i requires 0 <= i < |sum| => Rescale(sum[i], lo, hi));
    }
    return Ok(output[..]);
  }
}
