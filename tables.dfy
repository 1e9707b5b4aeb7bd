/** Name tables: ordered lists of (name, value) entries standing for the
    source's dictionaries, looked up either exactly or ignoring case.

    The case-insensitive lookups first build a dictionary of the lowered
    keys of an insertion-ordered dictionary (a later key wins when two lower
    to the same string) and then index it with the lowered query. */
module Tables {
  import opened Wrappers

  /** `str.lower` on one character, for the ASCII letters. */
  function LowerChar(c: char): (r: char)
    ensures 'A' <= c <= 'Z' ==> r as int == c as int + 32
    ensures !('A' <= c <= 'Z') ==> r == c
  {
    if 'A' <= c <= 'Z' then (c as int + 32) as char else c
  }

  function Lower(s: string): (r: string)
    ensures |r| == |s|
    ensures forall i :: 0 <= i < |s| ==> r[i] == LowerChar(s[i])
  {
    seq(|s|, i requires 0 <= i < |s| => LowerChar(s[i]))
  }

  lemma LowerIdempotent(s: string)
    ensures Lower(Lower(s)) == Lower(s)
  {
    assert forall i :: 0 <= i < |s| ==> Lower(Lower(s))[i] == Lower(s)[i];
  }

  /** The entry that the lowered dictionary keeps for `q`: the last one,
      among the first n entries, whose key lowers to q. */
  function LookupIn<V>(entries: seq<(string, V)>, q: string, n: nat): (r: Option<V>)
    requires n <= |entries|
    ensures r.Some? <==> exists i :: 0 <= i < n && Lower(entries[i].0) == q
  {
    if n == 0 then None
    else if Lower(entries[n - 1].0) == q then Some(entries[n - 1].1)
    else
      var r := LookupIn(entries, q, n - 1);
      assert forall i :: 0 <= i < n && Lower(entries[i].0) == q ==> i < n - 1;
      r
  }

  /** `{k.lower(): v for k, v in entries}.get(name.lower())`. */
  function Lookup<V>(entries: seq<(string, V)>, name: string): (r: Option<V>)
    ensures r.Some? <==> Lower(name) in LowerKeys(entries)
  {
    LookupIn(entries, Lower(name), |entries|)
  }

  /** The lowered keys, in table order. */
  function LowerKeys<V>(entries: seq<(string, V)>): (keys: seq<string>)
    ensures |keys| == |entries|
    ensures forall i :: 0 <= i < |entries| ==> keys[i] == Lower(entries[i].0)
  {
    seq(|entries|, i requires 0 <= i < |entries| => Lower(entries[i].0))
  }

  predicate Distinct(keys: seq<string>) {
    forall i, j :: 0 <= i < j < |keys| ==> keys[i] != keys[j]
  }

  /** Lookup ignores the case of the query. */
  lemma LookupIgnoresCase<V>(entries: seq<(string, V)>, name: string)
    ensures Lookup(entries, Lower(name)) == Lookup(entries, name)
  {
    LowerIdempotent(name);
  }

  lemma {:induction false} LookupInLast<V>(entries: seq<(string, V)>, q: string, n: nat, i: nat)
    requires i < n <= |entries|
    requires Lower(entries[i].0) == q
    requires forall j :: i < j < n ==> Lower(entries[j].0) != q
    ensures LookupIn(entries, q, n) == Some(entries[i].1)
  {
    if n - 1 != i {
      LookupInLast(entries, q, n - 1, i);
    }
  }

  /** When no two keys lower to the same string, the lookup finds exactly the
      entry whose key matches the query up to case. */
  lemma LookupDistinct<V>(entries: seq<(string, V)>, name: string, i: nat)
    requires Distinct(LowerKeys(entries))
    requires i < |entries| && Lower(entries[i].0) == Lower(name)
    ensures Lookup(entries, name) == Some(entries[i].1)
  {
    LookupInLast(entries, Lower(name), |entries|, i);
  }

  /** The names, in table order. */
  function Keys<V>(entries: seq<(string, V)>): (keys: seq<string>)
    ensures |keys| == |entries|
    ensures forall i :: 0 <= i < |entries| ==> keys[i] == entries[i].0
  {
    seq(|entries|, i requires 0 <= i < |entries| => entries[i].0)
  }

  /** The last of the first n entries named exactly `name`. */
  function LookupExactIn<V>(entries: seq<(string, V)>, name: string, n: nat): (r: Option<V>)
    requires n <= |entries|
    ensures r.Some? <==> exists i :: 0 <= i < n && entries[i].0 == name
  {
    if n == 0 then None
    else if entries[n - 1].0 == name then Some(entries[n - 1].1)
    else
      var r := LookupExactIn(entries, name, n - 1);
      assert forall i :: 0 <= i < n && entries[i].0 == name ==> i < n - 1;
      r
  }

  /** `table.get(name)` on a dictionary: a case-sensitive lookup. */
  function LookupExact<V>(entries: seq<(string, V)>, name: string): (r: Option<V>)
    ensures r.Some? <==> name in Keys(entries)
  {
    LookupExactIn(entries, name, |entries|)
  }

  lemma {:induction false} LookupExactInLast<V>(entries: seq<(string, V)>, name: string, n: nat, i: nat)
    requires i < n <= |entries|
    requires entries[i].0 == name
    requires forall j :: i < j < n ==> entries[j].0 != name
    ensures LookupExactIn(entries, name, n) == Some(entries[i].1)
  {
    if n - 1 != i {
      LookupExactInLast(entries, name, n - 1, i);
    }
  }

  /** With distinct names, the lookup finds exactly the entry with that name. */
  lemma LookupExactDistinct<V>(entries: seq<(string, V)>, i: nat)
    requires Distinct(Keys(entries))
    requires i < |entries|
    ensures LookupExact(entries, entries[i].0) == Some(entries[i].1)
  {
    LookupExactInLast(entries, entries[i].0, |entries|, i);
  }
}
