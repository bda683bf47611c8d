/** The planner's inventory: an insertion-ordered dictionary from item names
    to quantities (Python's OrderedDict, which `State` wraps), its copy, and
    the key tuple through which states are hashed, compared for equality and
    ordered in the search frontier. */
module Inventory {

  /** An insertion-ordered dictionary: `keys` lists the keys in insertion
      order, `vals` holds the value of each. */
  datatype Dict<V> = Dict(keys: seq<string>, vals: map<string, V>) {

    /** Every key is listed exactly once, and exactly the listed keys have values. */
    ghost predicate Valid() {
      && (forall i, j :: 0 <= i < j < |keys| ==> keys[i] != keys[j])
      && (forall k :: k in vals <==> k in keys)
    }

    /** `d[k] = v`: an existing key keeps its place, a new key goes last. */
    function Set(k: string, v: V): (d: Dict<V>)
      requires Valid()
      ensures d.Valid() && d.vals == vals[k := v]
      ensures d.keys == if k in vals then keys else keys + [k]
    {
      if k in vals then Dict(keys, vals[k := v]) else Dict(keys + [k], vals[k := v])
    }
  }

  /** An inventory state: item name to quantity. */
  type State = Dict<int>

  /** The tuple `tuple(self.items())` of a state: its (item, quantity) pairs in key order. */
  function Key(s: State): seq<(string, int)>
    requires s.Valid()
  {
    seq(|s.keys|, i requires 0 <= i < |s.keys| => (s.keys[i], s.vals[s.keys[i]]))
  }

  /** Equal key tuples mean equal states and conversely, so hashing and
      ordering through the key tuple agree with state equality. */
  lemma KeyInjective(a: State, b: State)
    requires a.Valid() && b.Valid()
    ensures Key(a) == Key(b) <==> a == b
  {
    if Key(a) == Key(b) {
      assert |a.keys| == |Key(a)| == |b.keys|;
      forall i | 0 <= i < |a.keys| ensures a.keys[i] == b.keys[i] {
        assert Key(a)[i] == Key(b)[i];
      }
      assert a.keys == b.keys;
      forall k | k in a.vals ensures k in b.vals && a.vals[k] == b.vals[k] {
        var i :| 0 <= i < |a.keys| && a.keys[i] == k;
        assert Key(a)[i] == Key(b)[i];
      }
      assert a.vals == b.vals;
    }
  }

  /** `State.copy`: a new state filled by re-inserting every item of `s` in
      order; the result has the same items, in the same order, with the same
      quantities. */
  method Copy(s: State) returns (c: State)
    requires s.Valid()
    ensures c.Valid() && c.keys == s.keys && c.vals == s.vals
  {
    c := Dict([], map[]);
    var i := 0;
    while i < |s.keys|
      invariant 0 <= i <= |s.keys|
      invariant c.Valid()
      invariant c.keys == s.keys[..i]
      invariant forall k :: k in c.vals ==> c.vals[k] == s.vals[k]
    {
      var k := s.keys[i];
      assert k !in c.keys;
      assert s.keys[..i + 1] == s.keys[..i] + [k];
      c := c.Set(k, s.vals[k]);
      i := i + 1;
    }
    assert c.keys == s.keys;
    assert c.vals.Keys == s.vals.Keys;
  }

  // Python's ordering of strings, of (item, quantity) pairs and of tuples of
  // such pairs: lexicographic, a proper prefix coming first.

  predicate StrLess(a: string, b: string)
    decreases |a|
  {
    if |a| == 0 then |b| > 0
    else if |b| == 0 then false
    else if a[0] != b[0] then a[0] < b[0]
    else StrLess(a[1..], b[1..])
  }

  predicate PairLess(p: (string, int), q: (string, int)) {
    if p.0 != q.0 then StrLess(p.0, q.0) else p.1 < q.1
  }

  predicate TupleLess(x: seq<(string, int)>, y: seq<(string, int)>)
    decreases |x|
  {
    if |x| == 0 then |y| > 0
    else if |y| == 0 then false
    else if x[0] != y[0] then PairLess(x[0], y[0])
    else TupleLess(x[1..], y[1..])
  }

  /** `State.__lt__`: comparison of the key tuples. */
  predicate StateLess(a: State, b: State)
    requires a.Valid() && b.Valid()
  {
    TupleLess(Key(a), Key(b))
  }

  lemma {:induction false} StrLessIrreflexive(a: string)
    ensures !StrLess(a, a)
    decreases |a|
  {
    if |a| > 0 { StrLessIrreflexive(a[1..]); }
  }

  lemma {:induction false} StrLessTransitive(a: string, b: string, c: string)
    requires StrLess(a, b) && StrLess(b, c)
    ensures StrLess(a, c)
    decreases |a|
  {
    if |a| > 0 && a[0] == b[0] && b[0] == c[0] {
      StrLessTransitive(a[1..], b[1..], c[1..]);
    }
  }

  lemma {:induction false} StrLessTotal(a: string, b: string)
    requires a != b
    ensures StrLess(a, b) || StrLess(b, a)
    decreases |a|
  {
    if |a| > 0 && |b| > 0 && a[0] == b[0] {
      assert a == [a[0]] + a[1..] && b == [b[0]] + b[1..];
      StrLessTotal(a[1..], b[1..]);
    }
  }

  lemma PairLessTransitive(p: (string, int), q: (string, int), r: (string, int))
    requires PairLess(p, q) && PairLess(q, r)
    ensures PairLess(p, r)
  {
    if p.0 != q.0 && q.0 != r.0 {
      StrLessTransitive(p.0, q.0, r.0);
      if p.0 == r.0 { StrLessIrreflexive(p.0); }
    }
  }

  lemma {:induction false} TupleLessIrreflexive(x: seq<(string, int)>)
    ensures !TupleLess(x, x)
    decreases |x|
  {
    if |x| > 0 { TupleLessIrreflexive(x[1..]); }
  }

  lemma {:induction false} TupleLessTransitive(x: seq<(string, int)>, y: seq<(string, int)>, z: seq<(string, int)>)
    requires TupleLess(x, y) && TupleLess(y, z)
    ensures TupleLess(x, z)
    decreases |x|
  {
    if |x| > 0 && |z| > 0 {
      if x[0] == y[0] && y[0] == z[0] {
        TupleLessTransitive(x[1..], y[1..], z[1..]);
      } else if x[0] != y[0] && y[0] != z[0] {
        PairLessTransitive(x[0], y[0], z[0]);
      }
    }
  }

  lemma {:induction false} TupleLessTotal(x: seq<(string, int)>, y: seq<(string, int)>)
    requires x != y
    ensures TupleLess(x, y) || TupleLess(y, x)
    decreases |x|
  {
    if |x| > 0 && |y| > 0 {
      if x[0] == y[0] {
        assert x == [x[0]] + x[1..] && y == [y[0]] + y[1..];
        TupleLessTotal(x[1..], y[1..]);
      } else if x[0].0 != y[0].0 {
        StrLessTotal(x[0].0, y[0].0);
      }
    }
  }

  /** State order is a strict total order on states: the frontier's tie-break is deterministic. */
  lemma StateLessStrictTotal(a: State, b: State, c: State)
    requires a.Valid() && b.Valid() && c.Valid()
    ensures !StateLess(a, a)
    ensures StateLess(a, b) && StateLess(b, c) ==> StateLess(a, c)
    ensures a != b ==> StateLess(a, b) || StateLess(b, a)
  {
    TupleLessIrreflexive(Key(a));
    if StateLess(a, b) && StateLess(b, c) { TupleLessTransitive(Key(a), Key(b), Key(c)); }
    if a != b { KeyInjective(a, b); TupleLessTotal(Key(a), Key(b)); }
  }
}
