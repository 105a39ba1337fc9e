/**
 * PHP arrays with string keys, as the plugin uses them: entries kept in
 * insertion order, `$a[$k] = $v` replacing in place or appending, `$a + $b`
 * keeping the left operand's entries, and the key-preserving filters.
 */
module OrderedMaps {
  import opened Wrappers

  type OMap<V> = seq<(string, V)>

  function Keys<V>(m: OMap<V>): (ks: seq<string>)
    ensures |ks| == |m|
    ensures forall i :: 0 <= i < |m| ==> ks[i] == m[i].0
  {
    seq(|m|, i requires 0 <= i < |m| => m[i].0)
  }

  /** `array_key_exists($k, $m)`. */
  predicate HasKey<V>(m: OMap<V>, k: string)
  {
    k in Keys(m)
  }

  /** What every PHP array satisfies: no key occurs twice. */
  predicate DistinctKeys<V>(m: OMap<V>)
  {
    forall i, j :: 0 <= i < j < |m| ==> m[i].0 != m[j].0
  }

  function IndexOf<V>(m: OMap<V>, k: string): (i: nat)
    requires HasKey(m, k)
    ensures i < |m| && m[i].0 == k
    ensures forall j :: 0 <= j < i ==> m[j].0 != k
  {
    if m[0].0 == k then 0
    else
      assert HasKey(m[1..], k) by {
        var j :| 0 <= j < |m| && Keys(m)[j] == k;
        assert Keys(m[1..])[j - 1] == k;
      }
      IndexOf(m[1..], k) + 1
  }

  /** The first position holding `k` is the one `IndexOf` finds. */
  lemma IndexOfIs<V>(m: OMap<V>, k: string, i: nat)
    requires i < |m| && m[i].0 == k
    requires forall j :: 0 <= j < i ==> m[j].0 != k
    ensures HasKey(m, k) && IndexOf(m, k) == i
  {
    assert Keys(m)[i] == k;
  }

  lemma IndexOfAppend<V>(m: OMap<V>, t: OMap<V>, k: string)
    requires HasKey(m, k)
    ensures HasKey(m + t, k) && IndexOf(m + t, k) == IndexOf(m, k)
  {
    var i := IndexOf(m, k);
    assert (m + t)[i] == m[i];
    IndexOfIs(m + t, k, i);
  }

  /** `$m[$k]`: the value stored under `k`, or None where PHP reads NULL. */
  function Get<V>(m: OMap<V>, k: string): (r: Option<V>)
    ensures r.Some? <==> HasKey(m, k)
    ensures r.Some? ==> (k, r.value) in m
  {
    if HasKey(m, k) then Some(m[IndexOf(m, k)].1) else None
  }

  lemma GetAt<V>(m: OMap<V>, i: nat)
    requires DistinctKeys(m) && i < |m|
    ensures Get(m, m[i].0) == Some(m[i].1)
  {
    assert Keys(m)[i] == m[i].0;
  }

  /** `$m[$k] = $v`: an existing key keeps its position, a new one is appended. */
  function Put<V>(m: OMap<V>, k: string, v: V): (r: OMap<V>)
    ensures Get(r, k) == Some(v)
    ensures forall k' :: k' != k ==> Get(r, k') == Get(m, k')
    ensures Keys(r) == if HasKey(m, k) then Keys(m) else Keys(m) + [k]
    ensures DistinctKeys(m) ==> DistinctKeys(r)
  {
    if HasKey(m, k) then
      var i := IndexOf(m, k);
      var r := m[i := (k, v)];
      assert Keys(r) == Keys(m);
      assert forall k' :: k' != k ==> (HasKey(r, k') <==> HasKey(m, k'));
      assert forall k' :: k' != k && HasKey(m, k') ==> IndexOf(r, k') == IndexOf(m, k');
      r
    else
      var r := m + [(k, v)];
      assert Keys(r) == Keys(m) + [k];
      forall k' | k' != k && HasKey(m, k') ensures IndexOf(r, k') == IndexOf(m, k') {
        IndexOfAppend(m, [(k, v)], k');
      }
      r
  }

  /** Storing under a new key appends the entry. */
  lemma PutFresh<V>(m: OMap<V>, k: string, v: V)
    requires !HasKey(m, k)
    ensures Put(m, k, v) == m + [(k, v)]
    ensures forall k' :: HasKey(m + [(k, v)], k') <==> HasKey(m, k') || k' == k
  {
    assert Keys(m + [(k, v)]) == Keys(m) + [k];
  }

  /** Two stores under distinct keys into an empty map append both entries in order. */
  lemma PutTwoFresh<V>(k1: string, v1: V, k2: string, v2: V)
    requires k1 != k2
    ensures Put(Put([], k1, v1), k2, v2) == [(k1, v1), (k2, v2)]
  {
    PutFresh([], k1, v1);
    var m1: OMap<V> := [(k1, v1)];
    assert Keys(m1) == [k1];
    PutFresh(m1, k2, v2);
  }

  /** `foreach ($entries as $k => $v) { $m[$k] = f($k, $v); }` */
  function PutAll<V, W>(m: OMap<W>, entries: OMap<V>, f: (string, V) -> W): OMap<W>
    decreases |entries|
  {
    if entries == [] then m
    else PutAll(Put(m, entries[0].0, f(entries[0].0, entries[0].1)), entries[1..], f)
  }

  lemma PutAllStep<V, W>(m: OMap<W>, entries: OMap<V>, f: (string, V) -> W)
    requires entries != []
    ensures PutAll(m, entries, f) == PutAll(Put(m, entries[0].0, f(entries[0].0, entries[0].1)), entries[1..], f)
  {
  }

  /** `entries` with every value `v` under key `k` replaced by `f(k, v)`. */
  function MapValues<V, W>(entries: OMap<V>, f: (string, V) -> W): (r: OMap<W>)
    ensures |r| == |entries|
    decreases |entries|
  {
    if entries == [] then []
    else [(entries[0].0, f(entries[0].0, entries[0].1))] + MapValues(entries[1..], f)
  }

  lemma {:induction false} MapValuesAt<V, W>(entries: OMap<V>, f: (string, V) -> W, i: nat)
    requires i < |entries|
    ensures MapValues(entries, f)[i] == (entries[i].0, f(entries[i].0, entries[i].1))
    decreases i
  {
    if i > 0 {
      MapValuesAt(entries[1..], f, i - 1);
    }
  }

  lemma FreshAfterPut<V, W>(m: OMap<W>, entries: OMap<V>, w: W)
    requires entries != [] && DistinctKeys(entries)
    requires forall i :: 0 <= i < |entries| ==> !HasKey(m, entries[i].0)
    ensures DistinctKeys(entries[1..])
    ensures forall i :: 0 <= i < |entries[1..]| ==> !HasKey(m + [(entries[0].0, w)], entries[1..][i].0)
  {
    PutFresh(m, entries[0].0, w);
    forall i | 0 <= i < |entries[1..]| ensures !HasKey(m + [(entries[0].0, w)], entries[1..][i].0) {
      assert entries[1..][i] == entries[i + 1];
    }
  }

  /** Storing the entries of a keyed array under keys `m` lacks appends them, in order. */
  lemma {:induction false} PutAllFresh<V, W>(m: OMap<W>, entries: OMap<V>, f: (string, V) -> W)
    requires DistinctKeys(entries)
    requires forall i :: 0 <= i < |entries| ==> !HasKey(m, entries[i].0)
    ensures PutAll(m, entries, f) == m + MapValues(entries, f)
    decreases |entries|
  {
    if entries != [] {
      var x := (entries[0].0, f(entries[0].0, entries[0].1));
      var rest := MapValues(entries[1..], f);
      calc {
        PutAll(m, entries, f);
        PutAll(Put(m, x.0, x.1), entries[1..], f);
        { PutFresh(m, x.0, x.1); }
        PutAll(m + [x], entries[1..], f);
        { FreshAfterPut(m, entries, x.1); PutAllFresh(m + [x], entries[1..], f); }
        m + [x] + rest;
        m + ([x] + rest);
        m + MapValues(entries, f);
      }
    }
  }

  /** Looking up a one-entry map. */
  lemma GetSingle<V>(k: string, v: V, k': string)
    ensures Get([(k, v)], k') == if k' == k then Some(v) else None
  {
    assert Keys([(k, v)]) == [k];
  }

  /** Looking up a two-entry map with distinct keys. */
  lemma GetPair<V>(k1: string, v1: V, k2: string, v2: V, k': string)
    requires k1 != k2
    ensures Get([(k1, v1), (k2, v2)], k') == if k' == k1 then Some(v1) else if k' == k2 then Some(v2) else None
  {
    var m := [(k1, v1), (k2, v2)];
    assert Keys(m) == [k1, k2];
    if k' == k2 {
      IndexOfIs(m, k2, 1);
    }
  }

  /** `$a + $b`: `a`, then the entries of `b` whose key `a` lacks, in `b`'s order. */
  function Union<V>(a: OMap<V>, b: OMap<V>): (r: OMap<V>)
    ensures |r| >= |a| && r[..|a|] == a
    ensures forall k :: HasKey(r, k) <==> HasKey(a, k) || HasKey(b, k)
    ensures forall k :: Get(r, k) == if HasKey(a, k) then Get(a, k) else Get(b, k)
    ensures DistinctKeys(a) ==> DistinctKeys(r)
    decreases |b|
  {
    if b == [] then a
    else
      var a' := UnionStep(a, b[0]);
      var r := Union(a', b[1..]);
      UnionCombine(a, b, a', r);
      r
  }

  /** One step of the union, followed by the union of the rest, is the union. */
  lemma UnionCombine<V>(a: OMap<V>, b: OMap<V>, a': OMap<V>, r: OMap<V>)
    requires b != [] && a' == UnionStep(a, b[0])
    requires |r| >= |a'| && r[..|a'|] == a'
    requires forall k :: HasKey(r, k) <==> HasKey(a', k) || HasKey(b[1..], k)
    requires forall k :: Get(r, k) == if HasKey(a', k) then Get(a', k) else Get(b[1..], k)
    requires DistinctKeys(a') ==> DistinctKeys(r)
    ensures |r| >= |a| && r[..|a|] == a
    ensures forall k :: HasKey(r, k) <==> HasKey(a, k) || HasKey(b, k)
    ensures forall k :: Get(r, k) == if HasKey(a, k) then Get(a, k) else Get(b, k)
    ensures DistinctKeys(a) ==> DistinctKeys(r)
  {
    UnionStepFacts(a, b);
    assert r[..|a|] == a'[..|a|];
  }

  function UnionStep<V>(a: OMap<V>, e: (string, V)): OMap<V>
  {
    if HasKey(a, e.0) then a else a + [e]
  }

  lemma UnionStepFacts<V>(a: OMap<V>, b: OMap<V>)
    requires b != []
    ensures var a' := UnionStep(a, b[0]);
      && |a'| >= |a| && a'[..|a|] == a
      && (forall k :: HasKey(a', k) <==> HasKey(a, k) || k == b[0].0)
      && (forall k :: HasKey(b, k) <==> k == b[0].0 || HasKey(b[1..], k))
      && (forall k :: HasKey(a', k) ==> Get(a', k) == if HasKey(a, k) then Get(a, k) else Get(b, k))
      && (forall k :: !HasKey(a', k) ==> Get(b[1..], k) == Get(b, k))
      && (DistinctKeys(a) ==> DistinctKeys(a'))
  {
    var a' := UnionStep(a, b[0]);
    assert Keys(b) == [b[0].0] + Keys(b[1..]);
    assert Keys(a') == if HasKey(a, b[0].0) then Keys(a) else Keys(a) + [b[0].0];
    forall k | HasKey(a', k) ensures Get(a', k) == if HasKey(a, k) then Get(a, k) else Get(b, k) {
      if HasKey(a, k) {
        IndexOfAppend(a, [b[0]], k);
      } else {
        IndexOfIs(a', k, |a|);
        IndexOfIs(b, k, 0);
      }
    }
    forall k | !HasKey(a', k) && HasKey(b, k) ensures Get(b[1..], k) == Get(b, k) {
      assert IndexOf(b, k) == IndexOf(b[1..], k) + 1;
    }
  }

  /** The elements of `s` that `keep` accepts, in their order (`array_filter`). */
  function Filter<T>(s: seq<T>, keep: T -> bool): (r: seq<T>)
    ensures |r| <= |s|
  {
    if s == [] then []
    else if keep(s[0]) then [s[0]] + Filter(s[1..], keep)
    else Filter(s[1..], keep)
  }

  /** Filtering a two-element sequence keeps each element on its own merit, in order. */
  lemma FilterPair<T>(a: T, b: T, keep: T -> bool)
    ensures Filter([a, b], keep) == (if keep(a) then [a] else []) + (if keep(b) then [b] else [])
  {
    assert [a, b][1..] == [b];
    assert [b][1..] == [];
  }

  /** Filtering keeps exactly the elements the test accepts. */
  lemma {:induction false} FilterMembers<T>(s: seq<T>, keep: T -> bool)
    ensures forall i :: 0 <= i < |Filter(s, keep)| ==> Filter(s, keep)[i] in s && keep(Filter(s, keep)[i])
    ensures forall i :: 0 <= i < |s| && keep(s[i]) ==> s[i] in Filter(s, keep)
  {
    if s != [] {
      var tail := s[1..];
      FilterMembers(tail, keep);
      var r, rest := Filter(s, keep), Filter(tail, keep);
      assert forall x :: x in tail ==> x in s;
      if keep(s[0]) {
        assert r == [s[0]] + rest;
        forall i | 0 <= i < |r| ensures r[i] in s && keep(r[i]) {
          if i > 0 { assert r[i] == rest[i - 1]; }
        }
      } else {
        assert r == rest;
      }
      forall i | 0 <= i < |s| && keep(s[i]) ensures s[i] in r {
        if i > 0 { assert s[i] == tail[i - 1]; }
      }
    }
  }

  /** A test that accepts nothing filters everything out. */
  lemma {:induction false} FilterNone<T>(s: seq<T>, keep: T -> bool)
    requires forall i :: 0 <= i < |s| ==> !keep(s[i])
    ensures Filter(s, keep) == []
  {
    if s != [] {
      var tail := s[1..];
      assert !keep(s[0]);
      assert forall i :: 0 <= i < |tail| ==> tail[i] == s[i + 1];
      FilterNone(tail, keep);
    }
  }

  /** A test that accepts everything leaves the sequence as it is. */
  lemma {:induction false} FilterAll<T>(s: seq<T>, keep: T -> bool)
    requires forall i :: 0 <= i < |s| ==> keep(s[i])
    ensures Filter(s, keep) == s
  {
    if s != [] {
      assert keep(s[0]);
      var tail := s[1..];
      assert forall i :: 0 <= i < |tail| ==> tail[i] == s[i + 1];
      FilterAll(tail, keep);
      assert s == [s[0]] + tail;
    }
  }

  /** Filtering distributes over concatenation. */
  lemma {:induction false} FilterAppend<T>(a: seq<T>, b: seq<T>, keep: T -> bool)
    ensures Filter(a + b, keep) == Filter(a, keep) + Filter(b, keep)
  {
    if a != [] {
      assert (a + b)[0] == a[0];
      assert (a + b)[1..] == a[1..] + b;
      FilterAppend(a[1..], b, keep);
    } else {
      assert a + b == b;
    }
  }

  /** When `keep` accepts exactly the positions `lo` to `hi`, filtering cuts that slice out. */
  lemma {:induction false} FilterRange<T>(s: seq<T>, keep: T -> bool, lo: nat, hi: nat)
    requires lo <= hi <= |s|
    requires forall i :: 0 <= i < |s| ==> (keep(s[i]) <==> lo <= i < hi)
    ensures Filter(s, keep) == s[lo..hi]
  {
    var front, middle, back := s[..lo], s[lo..hi], s[hi..];
    forall i | 0 <= i < |front| ensures !keep(front[i]) {
      assert front[i] == s[i];
    }
    forall i | 0 <= i < |middle| ensures keep(middle[i]) {
      assert middle[i] == s[lo + i];
    }
    forall i | 0 <= i < |back| ensures !keep(back[i]) {
      assert back[i] == s[hi + i];
    }
    FilterNone(front, keep);
    FilterAll(middle, keep);
    FilterNone(back, keep);
    FilterAppend(middle, back, keep);
    SplitThree(s, lo, hi);
    FilterAppend(front, middle + back, keep);
  }

  lemma SplitThree<T>(s: seq<T>, lo: nat, hi: nat)
    requires lo <= hi <= |s|
    ensures s == s[..lo] + (s[lo..hi] + s[hi..])
    ensures s[lo..hi] + [] == s[lo..hi] && [] + s[lo..hi] == s[lo..hi]
  {
    var t := s[lo..];
    assert t[..hi - lo] == s[lo..hi] && t[hi - lo..] == s[hi..];
    assert t[..hi - lo] + t[hi - lo..] == t;
    assert s[..lo] + t == s;
  }

  /** Filtering twice is filtering once by the conjunction `both`. */
  lemma {:induction false} FilterFilter<T>(s: seq<T>, p: T -> bool, q: T -> bool, both: T -> bool)
    requires forall i :: 0 <= i < |s| ==> (both(s[i]) <==> p(s[i]) && q(s[i]))
    ensures Filter(Filter(s, p), q) == Filter(s, both)
  {
    if s != [] {
      assert forall i :: 0 <= i < |s| - 1 ==> s[1..][i] == s[i + 1];
      FilterFilter(s[1..], p, q, both);
      if p(s[0]) {
        assert Filter(s, p) == [s[0]] + Filter(s[1..], p);
        assert Filter(s, p)[1..] == Filter(s[1..], p);
      }
    }
  }

  /** Filtering an array keeps its keys pairwise distinct, and adds no key. */
  lemma {:induction false} FilterKeepsDistinctKeys<V>(m: OMap<V>, keep: ((string, V)) -> bool)
    requires DistinctKeys(m)
    ensures DistinctKeys(Filter(m, keep))
    ensures forall k :: HasKey(Filter(m, keep), k) ==> HasKey(m, k)
  {
    FilterKeysWithin(m, keep);
    if m != [] && keep(m[0]) {
      var tail := m[1..];
      FilterKeepsDistinctKeys(tail, keep);
      forall j | 0 <= j < |tail| ensures Keys(tail)[j] != m[0].0 {
        assert tail[j] == m[j + 1];
      }
      var rest := Filter(tail, keep);
      assert !HasKey(rest, m[0].0);
      ConsDistinctKeys(m[0], rest);
      assert Filter(m, keep) == [m[0]] + rest;
    } else if m != [] {
      FilterKeepsDistinctKeys(m[1..], keep);
    }
  }

  /** Every key of a filtered array is a key of the array. */
  lemma FilterKeysWithin<V>(m: OMap<V>, keep: ((string, V)) -> bool)
    ensures forall k :: HasKey(Filter(m, keep), k) ==> HasKey(m, k)
  {
    FilterMembers(m, keep);
    var r := Filter(m, keep);
    forall k | HasKey(r, k) ensures HasKey(m, k) {
      var e := r[IndexOf(r, k)];
      var j :| 0 <= j < |m| && m[j] == e;
      assert Keys(m)[j] == k;
    }
  }

  /** Putting an entry with a fresh key in front keeps the keys distinct. */
  lemma ConsDistinctKeys<V>(e: (string, V), rest: OMap<V>)
    requires DistinctKeys(rest) && !HasKey(rest, e.0)
    ensures DistinctKeys([e] + rest)
  {
    var r := [e] + rest;
    forall i, j | 0 <= i < j < |r| ensures r[i].0 != r[j].0 {
      if i == 0 {
        assert Keys(rest)[j - 1] == r[j].0;
      } else {
        assert r[i] == rest[i - 1] && r[j] == rest[j - 1];
      }
    }
  }

  /** `array_intersect_key($a, $b)`: the entries of `a` whose key `b` has. */
  function IntersectKeys<V, W>(a: OMap<V>, b: OMap<W>): (r: OMap<V>)
    ensures forall i :: 0 <= i < |r| ==> r[i] in a && HasKey(b, r[i].0)
    ensures forall i :: 0 <= i < |a| && HasKey(b, a[i].0) ==> a[i] in r
  {
    FilterMembers(a, (e: (string, V)) => HasKey(b, e.0));
    Filter(a, (e: (string, V)) => HasKey(b, e.0))
  }
}
