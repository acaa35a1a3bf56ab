/**
  The insertion-ordered map of the `indexmap` crate (`IndexMap`), as the
  parser's branch maps, the parser's `Program` tables and the compiler's
  variable table use it: a sequence of entries in insertion order in which no
  key occurs twice.  Only the three operations the source calls are modelled:
  `get`, `insert` and `swap_remove`.
*/
module IndexMaps {
  import opened Wrappers

  type IndexMap<K, V> = seq<(K, V)>

  function Keys<K(==,!new), V>(m: IndexMap<K, V>): (ks: seq<K>)
    ensures |ks| == |m|
    ensures forall i | 0 <= i < |m| :: ks[i] == m[i].0
  {
    if m == [] then [] else [m[0].0] + Keys(m[1..])
  }

  predicate Distinct<K(==)>(s: seq<K>) {
    forall i, j | 0 <= i < j < |s| :: s[i] != s[j]
  }

  predicate UniqueKeys<K(==,!new), V>(m: IndexMap<K, V>) {
    forall i, j | 0 <= i < j < |m| :: m[i].0 != m[j].0
  }

  /** `IndexMap::get`: the value stored under `k`. */
  function Get<K(==,!new), V>(m: IndexMap<K, V>, k: K): (r: Option<V>)
    ensures r.None? <==> k !in Keys(m)
  {
    if m == [] then None else if m[0].0 == k then Some(m[0].1) else Get(m[1..], k)
  }

  /** The position of `k`, as `IndexMap::get_index_of`. */
  function IndexOf<K(==,!new), V>(m: IndexMap<K, V>, k: K): (r: Option<nat>)
    ensures r.None? <==> k !in Keys(m)
    ensures r.Some? ==> r.value < |m| && m[r.value].0 == k
    ensures r.Some? ==> forall j | 0 <= j < r.value :: m[j].0 != k
  {
    if m == [] then None
    else if m[0].0 == k then Some(0)
    else match IndexOf(m[1..], k)
      case None => None
      case Some(i) => Some(i + 1)
  }

  /**
    `IndexMap::insert`: a key already present keeps its position and gets the
    new value; a new key is appended at the end.
  */
  function Insert<K(==,!new), V>(m: IndexMap<K, V>, k: K, v: V): (r: IndexMap<K, V>)
    ensures Get(r, k) == Some(v)
    ensures forall k' | k' != k :: Get(r, k') == Get(m, k')
    ensures Keys(r) == if k in Keys(m) then Keys(m) else Keys(m) + [k]
  {
    if m == [] then [(k, v)]
    else if m[0].0 == k then
      ConsParts(m);
      EntryCons((k, v), m[1..]);
      EntryCons(m[0], m[1..]);
      assert k in Keys(m);
      [(k, v)] + m[1..]
    else
      var tail := Insert(m[1..], k, v);
      ConsParts(m);
      InsertBehind(m[0], m[1..], k, v, tail);
      [m[0]] + tail
  }

  /** An entry with another key in front of an insertion result leaves it an insertion result. */
  lemma InsertBehind<K(!new), V>(e: (K, V), m: IndexMap<K, V>, k: K, v: V, t: IndexMap<K, V>)
    requires e.0 != k
    requires Get(t, k) == Some(v)
    requires forall k' | k' != k :: Get(t, k') == Get(m, k')
    requires Keys(t) == if k in Keys(m) then Keys(m) else Keys(m) + [k]
    ensures Get([e] + t, k) == Some(v)
    ensures forall k' | k' != k :: Get([e] + t, k') == Get([e] + m, k')
    ensures Keys([e] + t) == if k in Keys([e] + m) then Keys([e] + m) else Keys([e] + m) + [k]
  {
    EntryCons(e, t);
    EntryCons(e, m);
    KeysBehind(e, m, k, t);
  }

  lemma KeysBehind<K(!new), V>(e: (K, V), m: IndexMap<K, V>, k: K, t: IndexMap<K, V>)
    requires e.0 != k
    requires Keys(t) == if k in Keys(m) then Keys(m) else Keys(m) + [k]
    requires Keys([e] + t) == [e.0] + Keys(t) && Keys([e] + m) == [e.0] + Keys(m)
    ensures Keys([e] + t) == if k in Keys([e] + m) then Keys([e] + m) else Keys([e] + m) + [k]
  {
    var ks := Keys(m);
    assert k in [e.0] + ks <==> k in ks;
    if k !in ks {
      AppendAssociates([e.0], ks, [k]);
    }
  }

  lemma AppendAssociates<T>(a: seq<T>, b: seq<T>, c: seq<T>)
    ensures (a + b) + c == a + (b + c)
  {}

  lemma ConsParts<T>(s: seq<T>)
    requires s != []
    ensures s == [s[0]] + s[1..]
  {}

  /** `Keys` and `Get` on a map with one more entry in front. */
  lemma EntryCons<K(!new), V>(e: (K, V), m: IndexMap<K, V>)
    ensures Keys([e] + m) == [e.0] + Keys(m)
    ensures forall k :: Get([e] + m, k) == if e.0 == k then Some(e.1) else Get(m, k)
  {
    assert ([e] + m)[0] == e && ([e] + m)[1..] == m;
  }

  /** Inserting the pairs of `ps` one after the other, left to right (a `fold` of `insert`). */
  function InsertAll<K(==,!new), V>(m: IndexMap<K, V>, ps: seq<(K, V)>): IndexMap<K, V>
    decreases ps
  {
    if ps == [] then m else InsertAll(Insert(m, ps[0].0, ps[0].1), ps[1..])
  }

  /** Reference definition: the keys of `s` in order of first occurrence, after those of `seen`. */
  function FirstOccurrences<K(==)>(seen: seq<K>, s: seq<K>): seq<K>
    decreases s
  {
    if s == [] then seen
    else FirstOccurrences(if s[0] in seen then seen else seen + [s[0]], s[1..])
  }

  /** Reference definition: the value of the last pair in `ps` whose key is `k`. */
  function LastValue<K(==,!new), V>(ps: seq<(K, V)>, k: K): Option<V>
  {
    if ps == [] then None
    else if ps[|ps| - 1].0 == k then Some(ps[|ps| - 1].1)
    else LastValue(ps[..|ps| - 1], k)
  }

  /** The remove-by-swap of `Vec::swap_remove`: the last element takes the place of element `i`. */
  function SwapRemoveAt<T>(s: seq<T>, i: nat): (r: seq<T>)
    requires i < |s|
    ensures |r| == |s| - 1
    ensures multiset(r) == multiset(s) - multiset{s[i]}
    ensures forall j | 0 <= j < |r| :: r[j] == if j == i then s[|s| - 1] else s[j]
  {
    if i == |s| - 1 then
      assert s == s[..i] + [s[i]];
      s[..i]
    else
      SwapRemoveAtMultiset(s, i);
      s[..i] + [s[|s| - 1]] + s[i + 1..|s| - 1]
  }

  lemma SwapRemoveAtMultiset<T>(s: seq<T>, i: nat)
    requires i < |s| - 1
    ensures multiset(s[..i] + [s[|s| - 1]] + s[i + 1..|s| - 1]) == multiset(s) - multiset{s[i]}
  {
    var front, middle, last := s[..i], s[i + 1..|s| - 1], s[|s| - 1];
    assert s == front + [s[i]] + middle + [last];
    assert multiset(s) == multiset(front) + multiset{s[i]} + multiset(middle) + multiset{last};
    assert multiset(front + [last] + middle) == multiset(front) + multiset{last} + multiset(middle);
  }

  /**
    `IndexMap::swap_remove`: removes the entry of `k`, moving the last entry
    into its place, and returns the removed value.
  */
  function SwapRemove<K(==,!new), V>(m: IndexMap<K, V>, k: K): (r: (IndexMap<K, V>, Option<V>))
    ensures r.1 == Get(m, k)
    ensures r.1.None? ==> r.0 == m
  {
    match IndexOf(m, k)
    case None => (m, None)
    case Some(i) => GetAtFirstIndex(m, k); (SwapRemoveAt(m, i), Some(m[i].1))
  }

  lemma {:induction false} GetAtFirstIndex<K(!new), V>(m: IndexMap<K, V>, k: K)
    requires IndexOf(m, k).Some?
    ensures Get(m, k) == Some(m[IndexOf(m, k).value].1)
  {
    if m[0].0 != k {
      GetAtFirstIndex(m[1..], k);
    }
  }

  /** Under unique keys, `get` finds exactly the entries of the map. */
  lemma {:induction false} GetIffEntry<K(!new), V>(m: IndexMap<K, V>, k: K, v: V)
    requires UniqueKeys(m)
    ensures Get(m, k) == Some(v) <==> (k, v) in m
  {
    if m != [] {
      if m[0].0 == k {
        assert forall j | 1 <= j < |m| :: m[j].0 != k;
      } else {
        GetIffEntry(m[1..], k, v);
        assert (k, v) in m <==> (k, v) in m[1..] by {
          assert m == [m[0]] + m[1..];
        }
      }
    }
  }

  lemma {:induction false} InsertKeepsUnique<K(!new), V>(m: IndexMap<K, V>, k: K, v: V)
    requires UniqueKeys(m)
    ensures UniqueKeys(Insert(m, k, v))
  {
    var r := Insert(m, k, v);
    assert Keys(r) == if k in Keys(m) then Keys(m) else Keys(m) + [k];
    forall i, j | 0 <= i < j < |r| ensures r[i].0 != r[j].0 {
      assert Keys(r)[i] == r[i].0 && Keys(r)[j] == r[j].0;
      if j < |m| {
        assert Keys(m)[i] == m[i].0 && Keys(m)[j] == m[j].0;
      } else {
        assert Keys(m)[i] == m[i].0;
      }
    }
  }

  /**
    Removing a key by swap keeps the keys unique, forgets exactly that key and
    leaves every other entry in the map.
  */
  lemma SwapRemoveSpec<K(!new), V>(m: IndexMap<K, V>, k: K)
    requires UniqueKeys(m)
    ensures UniqueKeys(SwapRemove(m, k).0)
    ensures k !in Keys(SwapRemove(m, k).0)
    ensures forall k', v | k' != k :: (k', v) in SwapRemove(m, k).0 <==> (k', v) in m
  {
    match IndexOf(m, k)
    case None =>
    case Some(i) =>
      SwapRemoveAtUnique(m, i);
      SwapRemoveAtEntries(m, i);
  }

  lemma SwapRemoveAtUnique<K(!new), V>(m: IndexMap<K, V>, i: nat)
    requires UniqueKeys(m) && i < |m|
    ensures UniqueKeys(SwapRemoveAt(m, i))
    ensures m[i].0 !in Keys(SwapRemoveAt(m, i))
  {
    var r := SwapRemoveAt(m, i);
    var last := |m| - 1;
    forall a, b | 0 <= a < b < |r| ensures r[a].0 != r[b].0 {
      var pa := if a == i then last else a;
      var pb := if b == i then last else b;
      assert r[a] == m[pa] && r[b] == m[pb] && pa != pb;
    }
    forall j | 0 <= j < |r| ensures r[j].0 != m[i].0 {
      var pj := if j == i then last else j;
      assert r[j] == m[pj] && pj != i;
    }
  }

  lemma SwapRemoveAtEntries<K(!new), V>(m: IndexMap<K, V>, i: nat)
    requires i < |m|
    ensures forall e | e != m[i] :: e in SwapRemoveAt(m, i) <==> e in m
  {
    var r := SwapRemoveAt(m, i);
    forall e | e != m[i] ensures e in r <==> e in m {
      assert e in r <==> e in multiset(r);
      assert e in m <==> e in multiset(m);
    }
  }

  /**
    A fold of `insert` over a list of pairs yields the keys in order of first
    occurrence, no key twice, and under each key the value of its last pair.
  */
  lemma {:induction false} InsertAllSpec<K(!new), V>(m: IndexMap<K, V>, ps: seq<(K, V)>)
    requires UniqueKeys(m)
    ensures UniqueKeys(InsertAll(m, ps))
    ensures Keys(InsertAll(m, ps)) == FirstOccurrences(Keys(m), Keys(ps))
    ensures forall k :: Get(InsertAll(m, ps), k) == if LastValue(ps, k).Some? then LastValue(ps, k) else Get(m, k)
    decreases ps
  {
    if ps != [] {
      var m' := Insert(m, ps[0].0, ps[0].1);
      InsertKeepsUnique(m, ps[0].0, ps[0].1);
      InsertAllSpec(m', ps[1..]);
      assert Keys(ps) == [ps[0].0] + Keys(ps[1..]);
      forall k ensures Get(InsertAll(m, ps), k) == if LastValue(ps, k).Some? then LastValue(ps, k) else Get(m, k) {
        LastValueCons(ps, k);
      }
    }
  }

  /** `LastValue` read from the front: the tail decides unless it has no pair for `k`. */
  lemma {:induction false} LastValueCons<K(!new), V>(ps: seq<(K, V)>, k: K)
    requires ps != []
    ensures LastValue(ps, k) == if LastValue(ps[1..], k).Some? then LastValue(ps[1..], k)
                                else if ps[0].0 == k then Some(ps[0].1) else None
  {
    if |ps| == 1 {
      assert ps[1..] == [];
    } else {
      var init := ps[..|ps| - 1];
      assert init[1..] == ps[1..][..|ps[1..]| - 1];
      if ps[|ps| - 1].0 != k {
        LastValueCons(init, k);
      }
    }
  }

  /** After a remove by swap every other key still finds its value. */
  lemma SwapRemoveGet<K(!new), V>(m: IndexMap<K, V>, k: K, k': K)
    requires UniqueKeys(m) && k' != k
    ensures Get(SwapRemove(m, k).0, k') == Get(m, k')
  {
    var r := SwapRemove(m, k).0;
    SwapRemoveSpec(m, k);
    match Get(m, k')
    case Some(v) =>
      GetIffEntry(m, k', v);
      GetIffEntry(r, k', v);
    case None =>
  }

  /** A key not yet present is appended at the end. */
  lemma {:induction false} InsertNew<K(!new), V>(m: IndexMap<K, V>, k: K, v: V)
    requires k !in Keys(m)
    ensures Insert(m, k, v) == m + [(k, v)]
  {
    if m != [] {
      var head, tail := m[0], m[1..];
      ConsParts(m);
      EntryCons(head, tail);
      assert head.0 != k && k !in Keys(tail);
      InsertNew(tail, k, v);
      assert Insert(m, k, v) == [head] + (tail + [(k, v)]);
      AppendAssociates([head], tail, [(k, v)]);
    }
  }

  /** Removing a key by swap and inserting it again rebinds it and leaves every other key's value. */
  lemma SwapRemoveInsert<K(!new), V>(m: IndexMap<K, V>, k: K, v: V)
    requires UniqueKeys(m)
    ensures var r := Insert(SwapRemove(m, k).0, k, v);
      UniqueKeys(r) && Get(r, k) == Some(v) && forall k' | k' != k :: Get(r, k') == Get(m, k')
  {
    var rest := SwapRemove(m, k).0;
    SwapRemoveSpec(m, k);
    InsertKeepsUnique(rest, k, v);
    forall k' | k' != k ensures Get(Insert(rest, k, v), k') == Get(m, k') {
      SwapRemoveGet(m, k, k');
    }
  }
}
