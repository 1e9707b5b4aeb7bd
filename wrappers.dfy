/** Error results shared by every module of the model.

    The source reports failures by raising Python exceptions; each kind the
    core can raise is one constructor of Exception, and a fallible operation
    returns a Result instead of raising. */
module Wrappers {

  /** The exception classes the modelled code raises. */
  datatype Exception =
    | ValueError
    | KeyError
    | TypeError
    | ZeroDivisionError
    | AttributeError

  datatype Result<+T> = Ok(value: T) | Err(error: Exception)

  datatype Option<+T> = None | Some(value: T)
}

/** Python list operations used by several modules: `s * n` and
    filtering a list by a predicate, as a list comprehension does. */
module Seqs {

  /** Python's `s * n`: n copies of s concatenated, empty when n <= 0. */
  function Repeat<T>(s: seq<T>, n: int): (r: seq<T>)
    ensures |r| == (if n <= 0 then 0 else n * |s|)
    decreases if n <= 0 then 0 else n
  {
    if n <= 0 then []
    else
      var rest := Repeat(s, n - 1);
      assert |s + rest| == (n - 1) * |s| + |s| == n * |s|;
      s + rest
  }

  lemma ModShift(i: int, m: int)
    requires m > 0 && i >= m
    ensures (i - m) % m == i % m
  {
    var q, r := (i - m) / m, (i - m) % m;
    assert i == (q + 1) * m + r;
    DivModUnique(i, m, q + 1, r);
  }

  /** Euclidean division is determined by its defining equation. */
  lemma DivModUnique(a: int, m: int, q: int, r: int)
    requires m > 0 && 0 <= r < m && a == q * m + r
    ensures a / m == q && a % m == r
  {
    var d := q - a / m;
    assert d * m == a % m - r;
    if d > 0 {
      MulMonotone(d, m);
    } else if d < 0 {
      MulMonotone(-d, m);
    }
  }

  lemma MulMonotone(d: int, m: int)
    requires d >= 1 && m > 0
    ensures d * m >= m
  {
    var k := d - 1;
    assert d * m == k * m + m;
  }

  /** Element i of `s * n` is element `i % |s|` of s. */
  lemma {:induction false} RepeatAt<T>(s: seq<T>, n: int, i: nat)
    requires i < |Repeat(s, n)|
    ensures Repeat(s, n)[i] == s[i % |s|]
    decreases if n <= 0 then 0 else n
  {
    if i >= |s| {
      RepeatAt(s, n - 1, i - |s|);
      ModShift(i, |s|);
    } else {
      DivModUnique(i, |s|, 0, i);
    }
  }

  lemma {:induction false} RepeatOnce<T>(s: seq<T>)
    ensures Repeat(s, 1) == s
  {
    assert Repeat(s, 0) == [];
    assert s + [] == s;
  }

  lemma {:induction false} RepeatAdd<T>(s: seq<T>, m: nat, n: nat)
    ensures Repeat(s, m + n) == Repeat(s, m) + Repeat(s, n)
    decreases m
  {
    if m == 0 {
      assert Repeat(s, 0) == [];
      assert [] + Repeat(s, n) == Repeat(s, n);
    } else {
      RepeatAdd(s, m - 1, n);
      assert Repeat(s, m + n) == s + Repeat(s, m - 1 + n);
      assert Repeat(s, m) == s + Repeat(s, m - 1);
    }
  }

  /** The elements of s that satisfy p, in their original order. */
  function Filter<T>(s: seq<T>, p: T -> bool): (r: seq<T>)
    ensures |r| <= |s|
    ensures forall i :: 0 <= i < |r| ==> r[i] in s && p(r[i])
    ensures forall i :: 0 <= i < |s| && p(s[i]) ==> s[i] in r
    decreases |s|
  {
    if s == [] then []
    else
      var init := Filter(s[..|s| - 1], p);
      assert forall i :: 0 <= i < |s| - 1 ==> s[..|s| - 1][i] == s[i];
      if p(s[|s| - 1]) then init + [s[|s| - 1]] else init
  }

  /** Filtering a concatenation filters each part in turn, so the kept
      elements stay in their original order. */
  lemma {:induction false} FilterAppend<T>(a: seq<T>, b: seq<T>, p: T -> bool)
    ensures Filter(a + b, p) == Filter(a, p) + Filter(b, p)
    decreases |b|
  {
    if b == [] {
      assert a + b == a;
    } else {
      var init := b[..|b| - 1];
      FilterAppend(a, init, p);
      assert (a + b)[..|a + b| - 1] == a + init;
      assert (a + b)[|a + b| - 1] == b[|b| - 1];
    }
  }

  /** An element satisfying p is kept as often as it occurs, and any other
      is dropped: duplicates survive, as in a list comprehension. */
  lemma {:induction false} FilterCount<T>(s: seq<T>, p: T -> bool)
    ensures forall x :: multiset(Filter(s, p))[x] == if p(x) then multiset(s)[x] else 0
    decreases |s|
  {
    if s != [] {
      var init := s[..|s| - 1];
      FilterCount(init, p);
      assert s == init + [s[|s| - 1]];
    }
  }

  /** All elements of a list of lists, in order (a nested comprehension). */
  function Flatten<T>(xss: seq<seq<T>>): (r: seq<T>)
    decreases |xss|
  {
    if xss == [] then [] else Flatten(xss[..|xss| - 1]) + xss[|xss| - 1]
  }

  lemma {:induction false} FlattenLength<T>(xss: seq<seq<T>>, n: nat)
    requires forall i :: 0 <= i < |xss| ==> |xss[i]| == n
    ensures |Flatten(xss)| == |xss| * n
    decreases |xss|
  {
    if xss != [] {
      FlattenLength(xss[..|xss| - 1], n);
    }
  }
}
