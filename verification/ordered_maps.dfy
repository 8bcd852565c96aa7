/**
 * Python dictionaries keyed by strings: a value mapping together with the
 * order in which keys were first inserted (assigning to an existing key
 * replaces its value but keeps its position).
 */
module OrderedMaps {

  datatype Ordered<V> = Ordered(keys: seq<string>, values: map<string, V>)

  predicate Distinct(s: seq<string>) {
    forall i, j :: 0 <= i < j < |s| ==> s[i] != s[j]
  }

  /** The key order lists every key of the mapping exactly once. */
  ghost predicate Valid<V>(m: Ordered<V>) {
    && Distinct(m.keys)
    && (forall k :: k in m.values <==> k in m.keys)
  }

  function Empty<V>(): (r: Ordered<V>)
    ensures Valid(r) && |r.keys| == 0
  {
    Ordered([], map[])
  }

  /** Python's `d[k] = v`. */
  function Insert<V>(m: Ordered<V>, k: string, v: V): (r: Ordered<V>)
    requires Valid(m)
    ensures Valid(r)
    ensures k in r.values && r.values[k] == v
    ensures forall k' :: k' != k ==> (k' in r.values <==> k' in m.values)
    ensures forall k' :: k' != k && k' in m.values ==> r.values[k'] == m.values[k']
    ensures k in m.values ==> r.keys == m.keys
    ensures k !in m.values ==> r.keys == m.keys + [k]
  {
    if k in m.values then Ordered(m.keys, m.values[k := v])
    else Ordered(m.keys + [k], m.values[k := v])
  }

  /** Position of the first occurrence of `x` in `s`. */
  ghost function FirstIndex(s: seq<string>, x: string): (r: nat)
    requires x in s
    ensures r < |s| && s[r] == x
    ensures forall j :: 0 <= j < r ==> s[j] != x
  {
    if s[0] == x then 0 else 1 + FirstIndex(s[1..], x)
  }

  /** The elements of `s` with repetitions removed, kept at their first occurrence. */
  function Dedup(s: seq<string>): (r: seq<string>)
    ensures Distinct(r)
    ensures forall x :: x in r <==> x in s
    ensures |r| <= |s|
  {
    if |s| == 0 then []
    else
      var d := Dedup(s[..|s| - 1]);
      assert forall x :: x in s <==> x in s[..|s| - 1] || x == s[|s| - 1] by {
        assert s == s[..|s| - 1] + [s[|s| - 1]];
      }
      if s[|s| - 1] in d then d else d + [s[|s| - 1]]
  }

  /** `Dedup` lists the distinct elements in the order of their first occurrence. */
  lemma {:induction false} DedupFirstOccurrenceOrder(s: seq<string>)
    ensures forall i, j :: 0 <= i < j < |Dedup(s)| ==>
      FirstIndex(s, Dedup(s)[i]) < FirstIndex(s, Dedup(s)[j])
  {
    if |s| > 0 {
      var p := s[..|s| - 1];
      var x := s[|s| - 1];
      DedupFirstOccurrenceOrder(p);
      var d := Dedup(p);
      forall y | y in p
        ensures FirstIndex(s, y) == FirstIndex(p, y)
      {
        FirstIndexOfPrefix(s, y);
      }
      if x !in d {
        assert FirstIndex(s, x) == |s| - 1;
      }
    }
  }

  /** An element already in the prefix keeps its first index when one element is appended. */
  lemma FirstIndexOfPrefix(s: seq<string>, y: string)
    requires |s| > 0 && y in s[..|s| - 1]
    ensures FirstIndex(s, y) == FirstIndex(s[..|s| - 1], y)
  {
    var a := FirstIndex(s, y);
    var b := FirstIndex(s[..|s| - 1], y);
    assert forall j :: 0 <= j < b ==> s[j] == s[..|s| - 1][j];
  }

  /**
   * The dictionary built by `d[ks[i]] = vs[i]` for i = 0, 1, ... in turn.
   */
  function FromPairs<V>(ks: seq<string>, vs: seq<V>): (r: Ordered<V>)
    requires |ks| == |vs|
    ensures Valid(r)
    ensures r.keys == Dedup(ks)
  {
    if |ks| == 0 then Empty()
    else
      var n := |ks| - 1;
      var m := FromPairs(ks[..n], vs[..n]);
      Insert(m, ks[n], vs[n])
  }

  /** The value stored for a key is the value of that key's last assignment. */
  lemma {:induction false} LastAssignmentWins<V>(ks: seq<string>, vs: seq<V>, k: string)
    requires |ks| == |vs| && k in ks
    ensures k in FromPairs(ks, vs).values
    ensures FromPairs(ks, vs).values[k] == vs[LastIndex(ks, k)]
  {
    var n := |ks| - 1;
    if ks[n] != k {
      assert k in ks[..n] by { assert ks == ks[..n] + [ks[n]]; }
      LastAssignmentWins(ks[..n], vs[..n], k);
    }
  }

  /** Position of the last occurrence of `x` in `s`. */
  function LastIndex(s: seq<string>, x: string): (r: nat)
    requires x in s
    ensures r < |s| && s[r] == x
    ensures forall j :: r < j < |s| ==> s[j] != x
  {
    if s[|s| - 1] == x then |s| - 1
    else
      assert x in s[..|s| - 1] by { assert s == s[..|s| - 1] + [s[|s| - 1]]; }
      LastIndex(s[..|s| - 1], x)
  }
}
