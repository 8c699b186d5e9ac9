/**
 Merging keyed collections: `_merge_unique` of the planner.

 Items with the same key must be equal.  The merge lists every item once, sorted by key.
 */
module Merging {
  import opened Ordering

  datatype Merge<T> =
    | Merged(items: seq<T>)
    | Conflicting(key: Key)
    | Overflow

  function Flatten<T>(collections: seq<seq<T>>): seq<T>
  {
    if collections == [] then [] else collections[0] + Flatten(collections[1..])
  }

  /** Two items that share a key are the same item. */
  ghost predicate Compatible<T>(all: seq<T>, key: T -> Key)
  {
    forall i, j :: 0 <= i < |all| && 0 <= j < |all| && key(all[i]) == key(all[j]) ==> all[i] == all[j]
  }

  ghost predicate Included<T>(xs: seq<T>, ys: seq<T>)
  {
    forall i :: 0 <= i < |xs| ==> xs[i] in ys
  }

  ghost predicate SameItems<T>(xs: seq<T>, ys: seq<T>)
  {
    (forall i :: 0 <= i < |xs| ==> xs[i] in ys) && forall i :: 0 <= i < |ys| ==> ys[i] in xs
  }

  /** m lists the items of all, each once, sorted by key. */
  ghost predicate IsMerge<T>(all: seq<T>, key: T -> Key, m: seq<T>)
  {
    Strict(m, key) && SameItems(all, m)
  }

  /* ---------- What a merge depends on ---------- */

  /** A merge is determined by the items merged, whatever their order and repetitions. */
  lemma MergeUnique<T>(a: seq<T>, b: seq<T>, key: T -> Key, m: seq<T>, n: seq<T>)
    requires SameItems(a, b) && IsMerge(a, key, m) && IsMerge(b, key, n)
    ensures m == n
  {
    SameElements(m, n, key);
    SortedUnique(m, n, key);
  }

  lemma MergeCompatible<T>(all: seq<T>, key: T -> Key, m: seq<T>)
    requires IsMerge(all, key, m)
    ensures Compatible(all, key)
  {
    forall i, j | 0 <= i < |all| && 0 <= j < |all| && key(all[i]) == key(all[j]) ensures all[i] == all[j] {
      assert all[i] in m && all[j] in m;
      var a :| 0 <= a < |m| && m[a] == all[i];
      var b :| 0 <= b < |m| && m[b] == all[j];
      assert a == b;
    }
  }

  lemma {:induction false} DistinctSubset<T>(xs: seq<T>, ys: seq<T>, key: T -> Key)
    requires DistinctKeys(xs, key) && Included(xs, ys)
    ensures |xs| <= |ys|
  {
    if xs != [] {
      var n := |xs| - 1;
      var k :| 0 <= k < |ys| && ys[k] == xs[n];
      var rest := ys[..k] + ys[k + 1..];
      forall i | 0 <= i < n ensures xs[..n][i] in rest {
        var j :| 0 <= j < |ys| && ys[j] == xs[i];
        assert key(xs[i]) != key(xs[n]);
        assert rest[if j < k then j else j - 1] == xs[i];
      }
      DistinctSubset(xs[..n], rest, key);
    }
  }

  /** Merging fewer items gives no more items. */
  lemma MergeMonotonic<T>(a: seq<T>, b: seq<T>, key: T -> Key, m: seq<T>, n: seq<T>)
    requires IsMerge(a, key, m) && IsMerge(b, key, n) && Included(a, b)
    ensures |m| <= |n|
  {
    forall i | 0 <= i < |m| ensures m[i] in n {
      assert m[i] in a;
      assert m[i] in b;
    }
    DistinctSubset(m, n, key);
  }

  lemma CompatiblePart<T>(a: seq<T>, b: seq<T>, key: T -> Key)
    requires Compatible(b, key) && Included(a, b)
    ensures Compatible(a, key)
  {
    forall i, j | 0 <= i < |a| && 0 <= j < |a| && key(a[i]) == key(a[j]) ensures a[i] == a[j] {
      assert a[i] in b && a[j] in b;
      var p :| 0 <= p < |b| && b[p] == a[i];
      var q :| 0 <= q < |b| && b[q] == a[j];
    }
  }

  /* ---------- The dictionary the merge fills ---------- */

  function Same(k: Key): Key
  {
    k
  }

  /** merged holds the items seen, and keys its keys in insertion order. */
  ghost predicate Holds<T>(seen: seq<T>, key: T -> Key, keys: seq<Key>, merged: map<Key, T>)
  {
    DistinctKeys(keys, Same) &&
    (forall i :: 0 <= i < |keys| ==> keys[i] in merged && merged[keys[i]] in seen && key(merged[keys[i]]) == keys[i]) &&
    (forall k :: k in merged ==> k in keys) &&
    forall i :: 0 <= i < |seen| ==> key(seen[i]) in merged && merged[key(seen[i])] == seen[i]
  }

  lemma HoldsCompatible<T>(seen: seq<T>, key: T -> Key, keys: seq<Key>, merged: map<Key, T>)
    requires Holds(seen, key, keys, merged)
    ensures Compatible(seen, key)
  {
  }

  lemma HoldsOld<T>(seen: seq<T>, key: T -> Key, keys: seq<Key>, merged: map<Key, T>, x: T)
    requires Holds(seen, key, keys, merged) && key(x) in merged && merged[key(x)] == x
    ensures Holds(seen + [x], key, keys, merged[key(x) := x])
  {
    assert merged[key(x) := x] == merged;
  }

  lemma HoldsNew<T>(seen: seq<T>, key: T -> Key, keys: seq<Key>, merged: map<Key, T>, x: T)
    requires Holds(seen, key, keys, merged) && key(x) !in merged
    ensures Holds(seen + [x], key, keys + [key(x)], merged[key(x) := x])
  {
    var keys', merged', seen' := keys + [key(x)], merged[key(x) := x], seen + [x];
    assert seen'[|seen|] == x;
    forall i | 0 <= i < |keys'|
      ensures keys'[i] in merged' && merged'[keys'[i]] in seen' && key(merged'[keys'[i]]) == keys'[i]
    {
      if i < |keys| {
        assert keys[i] != key(x);
        assert merged[keys[i]] in seen;
      }
    }
    forall k | k in merged' ensures k in keys' {
      if k == key(x) {
        assert keys'[|keys|] == k;
      } else {
        assert k in keys;
      }
    }
    forall i, j | 0 <= i < j < |keys'| ensures keys'[i] != keys'[j] {
      if j < |keys| {
        assert Same(keys[i]) != Same(keys[j]);
      }
    }
  }

  function Lookup<T>(keys: seq<Key>, merged: map<Key, T>): (r: seq<T>)
    requires forall i :: 0 <= i < |keys| ==> keys[i] in merged
    ensures |r| == |keys| && forall i :: 0 <= i < |keys| ==> r[i] == merged[keys[i]]
  {
    if keys == [] then [] else [merged[keys[0]]] + Lookup(keys[1..], merged)
  }

  lemma {:induction false} SortedKeysKnown<T>(keys: seq<Key>, merged: map<Key, T>)
    requires forall i :: 0 <= i < |keys| ==> keys[i] in merged
    ensures forall i :: 0 <= i < |keys| ==> Sort(keys, Same)[i] in merged
  {
    forall i | 0 <= i < |keys| ensures Sort(keys, Same)[i] in merged {
      SortMember(keys, Same, Sort(keys, Same)[i]);
    }
  }

  /** Items listed under strictly sorted keys are strictly sorted themselves. */
  lemma StrictItems<T>(sorted: seq<Key>, m: seq<T>, key: T -> Key)
    requires Strict(sorted, Same) && |m| == |sorted|
    requires forall i :: 0 <= i < |m| ==> key(m[i]) == sorted[i]
    ensures Strict(m, key)
  {
    forall i, j | 0 <= i < j < |m| ensures key(m[i]) != key(m[j]) && Leq(key(m[i]), key(m[j])) {
      assert Same(sorted[i]) != Same(sorted[j]) && Leq(Same(sorted[i]), Same(sorted[j]));
    }
  }

  lemma {:induction false} LookedUp<T>(
      seen: seq<T>, key: T -> Key, keys: seq<Key>, merged: map<Key, T>, sorted: seq<Key>, m: seq<T>)
    requires Holds(seen, key, keys, merged) && sorted == Sort(keys, Same)
    requires forall i :: 0 <= i < |keys| ==> sorted[i] in merged
    requires m == Lookup(sorted, merged)
    ensures forall i :: 0 <= i < |m| ==> key(m[i]) == sorted[i] && m[i] in seen
    ensures forall i :: 0 <= i < |seen| ==> seen[i] in m
  {
    forall i | 0 <= i < |sorted| ensures key(m[i]) == sorted[i] && m[i] in seen {
      SortMember(keys, Same, sorted[i]);
    }
    forall i | 0 <= i < |seen| ensures seen[i] in m {
      var k := key(seen[i]);
      assert k in keys;
      SortMember(keys, Same, k);
      var p :| 0 <= p < |sorted| && sorted[p] == k;
      assert m[p] == seen[i];
    }
  }

  /** Reading the dictionary in the order of its sorted keys gives the merge. */
  lemma {:induction false} LookupIsMerge<T>(seen: seq<T>, key: T -> Key, keys: seq<Key>, merged: map<Key, T>, m: seq<T>)
    requires Holds(seen, key, keys, merged)
    requires forall i :: 0 <= i < |keys| ==> Sort(keys, Same)[i] in merged
    requires m == Lookup(Sort(keys, Same), merged)
    ensures IsMerge(seen, key, m)
  {
    var sorted := Sort(keys, Same);
    SortSorted(keys, Same);
    DistinctKeysMultiset(keys, sorted, Same);
    LookedUp(seen, key, keys, merged, sorted, m);
    StrictItems(sorted, m, key);
  }

  /* ---------- The algorithm ---------- */

  /** x clashes with an item seen before it. */
  ghost predicate Clash<T>(all: seq<T>, key: T -> Key, k: Key)
  {
    exists i, j :: 0 <= i < |all| && 0 <= j < |all| && key(all[i]) == k && key(all[j]) == k && all[i] != all[j]
  }

  lemma ClashAt<T>(seen: seq<T>, x: T, rest: seq<T>, key: T -> Key, y: T)
    requires y in seen && key(y) == key(x) && y != x
    ensures Clash(seen + ([x] + rest), key, key(x))
  {
    var all := seen + ([x] + rest);
    var i :| 0 <= i < |seen| && seen[i] == y;
    assert all[i] == y && all[|seen|] == x;
  }

  lemma FlattenNext<T>(collections: seq<seq<T>>, i: nat)
    requires i < |collections|
    ensures Flatten(collections[i..]) == collections[i] + Flatten(collections[i + 1..])
  {
    assert collections[i..][1..] == collections[i + 1..];
  }

  /**
   The inner loop of the merge: one collection goes into the dictionary.
   `rest` is what the outer loop has still to merge.
   */
  method MergeOne<T(==)>(
      items: seq<T>, key: T -> Key, keys0: seq<Key>, merged0: map<Key, T>, ghost seen0: seq<T>, ghost rest: seq<T>)
      returns (clash: bool, at: Key, keys: seq<Key>, merged: map<Key, T>)
    requires Holds(seen0, key, keys0, merged0)
    ensures clash ==> Clash(seen0 + (items + rest), key, at)
    ensures !clash ==> Holds(seen0 + items, key, keys, merged)
  {
    clash, at, keys, merged := false, [], keys0, merged0;
    ghost var seen := seen0;
    var i := 0;
    assert seen0 + items[..0] == seen0;
    while i < |items|
      invariant 0 <= i <= |items| && seen == seen0 + items[..i]
      invariant Holds(seen, key, keys, merged)
    {
      var item := items[i];
      assert seen + [item] == seen0 + items[..i + 1];
      if key(item) in merged {
        if merged[key(item)] != item {
          assert seen + ([item] + (items[i + 1..] + rest)) == seen0 + (items + rest);
          assert key(item) in keys;
          ClashAt(seen, item, items[i + 1..] + rest, key, merged[key(item)]);
          return true, key(item), keys, merged;
        }
        HoldsOld(seen, key, keys, merged, item);
      } else {
        HoldsNew(seen, key, keys, merged, item);
        keys := keys + [key(item)];
      }
      merged := merged[key(item) := item];
      seen := seen + [item];
      i := i + 1;
    }
    assert items[..i] == items;
  }

  lemma ClashIncompatible<T>(all: seq<T>, key: T -> Key, k: Key)
    requires Clash(all, key, k)
    ensures !Compatible(all, key)
  {
  }

  /** `_merge_unique`. */
  method MergeAll<T(==)>(collections: seq<seq<T>>, key: T -> Key, limit: nat) returns (r: Merge<T>)
    ensures r.Merged? ==> IsMerge(Flatten(collections), key, r.items) && |r.items| <= limit
    ensures r.Conflicting? <==> !Compatible(Flatten(collections), key)
    ensures r.Conflicting? ==> Clash(Flatten(collections), key, r.key)
    ensures r.Overflow? ==> exists m :: IsMerge(Flatten(collections), key, m) && |m| > limit
  {
    var keys: seq<Key> := [];
    var merged: map<Key, T> := map[];
    ghost var seen: seq<T> := [];
    ghost var all := Flatten(collections);
    var i := 0;
    assert collections[0..] == collections;
    assert [] + all == all;
    while i < |collections|
      invariant 0 <= i <= |collections| && all == seen + Flatten(collections[i..])
      invariant Holds(seen, key, keys, merged)
    {
      FlattenNext(collections, i);
      ghost var rest := Flatten(collections[i + 1..]);
      var clash, at, keys', merged' := MergeOne(collections[i], key, keys, merged, seen, rest);
      if clash {
        ClashIncompatible(all, key, at);
        return Conflicting(at);
      }
      assert (seen + collections[i]) + rest == seen + (collections[i] + rest);
      keys, merged, seen := keys', merged', seen + collections[i];
      i := i + 1;
    }
    assert collections[i..] == [];
    assert seen == all;
    HoldsCompatible(seen, key, keys, merged);
    SortedKeysKnown(keys, merged);
    var m := Lookup(Sort(keys, Same), merged);
    LookupIsMerge(seen, key, keys, merged, m);
    if |keys| > limit {
      assert IsMerge(all, key, m) && |m| > limit;
      return Overflow;
    }
    return Merged(m);
  }
}
