/**
 Text as Python sees it (sequences of Unicode code points, lone surrogates included) and the
 order that `sorted` uses on strings and on tuples of strings.

 A sort key is a sequence of integers compared lexicographically.  A string is its own key;
 a tuple of strings is encoded by joining its parts with a separator below every code point.
 */
module Ordering {

  type CodePoint = c: int | 0 <= c < 0x11_0000
  type Text = seq<CodePoint>
  type Key = seq<int>

  const SEPARATOR: int := -1

  /** Strict lexicographic order. */
  predicate Less(a: Key, b: Key)
  {
    b != [] && (a == [] || a[0] < b[0] || (a[0] == b[0] && Less(a[1..], b[1..])))
  }

  predicate Leq(a: Key, b: Key)
  {
    !Less(b, a)
  }

  lemma {:induction false} LessIrreflexive(a: Key)
    ensures !Less(a, a)
  {
    if a != [] {
      LessIrreflexive(a[1..]);
    }
  }

  lemma {:induction false} LessTransitive(a: Key, b: Key, c: Key)
    requires Less(a, b) && Less(b, c)
    ensures Less(a, c)
  {
    if a != [] && a[0] == b[0] && b[0] == c[0] {
      LessTransitive(a[1..], b[1..], c[1..]);
    }
  }

  lemma {:induction false} LessTrichotomy(a: Key, b: Key)
    ensures Less(a, b) || a == b || Less(b, a)
  {
    if a != [] && b != [] && a[0] == b[0] {
      LessTrichotomy(a[1..], b[1..]);
      assert a == [a[0]] + a[1..] && b == [b[0]] + b[1..];
    }
  }

  lemma {:induction false} LessAsymmetric(a: Key, b: Key)
    ensures Less(a, b) ==> !Less(b, a)
  {
    if Less(a, b) && Less(b, a) {
      LessTransitive(a, b, a);
      LessIrreflexive(a);
    }
  }

  lemma LeqTransitive(a: Key, b: Key, c: Key)
    requires Leq(a, b) && Leq(b, c)
    ensures Leq(a, c)
  {
    if Less(c, a) {
      LessTrichotomy(b, c);
      if Less(b, c) {
        LessTransitive(b, c, a);
      }
    }
  }

  /** The key of a pair of strings. */
  function PairKey(a: Text, b: Text): Key
  {
    a + [SEPARATOR] + b
  }

  /** Comparing pair keys is comparing the pairs as Python compares tuples. */
  lemma {:induction false} PairKeyOrder(a: Text, b: Text, c: Text, d: Text)
    ensures Less(PairKey(a, b), PairKey(c, d)) <==> Less(a, c) || (a == c && Less(b, d))
  {
    var x, y := PairKey(a, b), PairKey(c, d);
    if a == [] || c == [] {
      assert a == [] ==> x[0] == SEPARATOR && x[1..] == b;
      assert c == [] ==> y[0] == SEPARATOR && y[1..] == d;
      assert a != [] ==> x[0] == a[0];
      assert c != [] ==> y[0] == c[0];
    } else {
      assert x[0] == a[0] && x[1..] == PairKey(a[1..], b);
      assert y[0] == c[0] && y[1..] == PairKey(c[1..], d);
      PairKeyOrder(a[1..], b, c[1..], d);
      assert a == [a[0]] + a[1..] && c == [c[0]] + c[1..];
      assert a == c <==> a[0] == c[0] && a[1..] == c[1..];
    }
  }

  /** Two pairs have the same key only if they are the same pair. */
  lemma PairKeyInjective(a: Text, b: Text, c: Text, d: Text)
    requires PairKey(a, b) == PairKey(c, d)
    ensures a == c && b == d
  {
    PairKeyOrder(a, b, c, d);
    PairKeyOrder(c, d, a, b);
    LessIrreflexive(PairKey(a, b));
    LessTrichotomy(a, c);
    LessTrichotomy(b, d);
  }

  function Identity(t: Text): Key
  {
    t
  }

  /** Text given as a literal. */
  function Word(s: string): (t: Text)
    ensures |t| == |s|
  {
    seq(|s|, i requires 0 <= i < |s| => s[i] as int)
  }

  lemma WordInjective(a: string, b: string)
    requires Word(a) == Word(b)
    ensures a == b
  {
    forall i | 0 <= i < |a| ensures a[i] == b[i] {
      assert Word(a)[i] == Word(b)[i];
    }
  }

  /* ---------- Sorting by a key ---------- */

  predicate Distinct<T(==)>(xs: seq<T>)
  {
    forall i, j :: 0 <= i < j < |xs| ==> xs[i] != xs[j]
  }

  predicate SortedBy<T>(xs: seq<T>, key: T -> Key)
  {
    forall i, j :: 0 <= i < j < |xs| ==> Leq(key(xs[i]), key(xs[j]))
  }

  predicate DistinctKeys<T, K(==)>(xs: seq<T>, key: T -> K)
  {
    forall i, j :: 0 <= i < j < |xs| ==> key(xs[i]) != key(xs[j])
  }

  /** Sorted by key, every key once. */
  predicate Strict<T>(xs: seq<T>, key: T -> Key)
  {
    SortedBy(xs, key) && DistinctKeys(xs, key)
  }

  lemma StrictTail<T>(xs: seq<T>, key: T -> Key)
    requires Strict(xs, key) && xs != []
    ensures Strict(xs[1..], key)
    ensures forall i :: 0 <= i < |xs| - 1 ==> Leq(key(xs[0]), key(xs[1..][i])) && key(xs[0]) != key(xs[1..][i])
  {
    forall i | 0 <= i < |xs| - 1 ensures xs[1..][i] == xs[i + 1] {
    }
  }

  lemma StrictFront<T>(x: T, rest: seq<T>, key: T -> Key)
    requires Strict(rest, key)
    requires forall k :: 0 <= k < |rest| ==> Leq(key(x), key(rest[k])) && key(x) != key(rest[k])
    ensures Strict([x] + rest, key)
  {
    var r := [x] + rest;
    forall i, j | 0 <= i < j < |r| ensures Leq(key(r[i]), key(r[j])) && key(r[i]) != key(r[j]) {
      if i > 0 {
        assert r[i] == rest[i - 1] && r[j] == rest[j - 1];
      }
    }
  }

  function Insert<T>(x: T, xs: seq<T>, key: T -> Key): (r: seq<T>)
    ensures multiset(r) == multiset{x} + multiset(xs)
    ensures |r| == |xs| + 1
  {
    if xs == [] || Leq(key(x), key(xs[0])) then [x] + xs
    else
      assert xs == [xs[0]] + xs[1..];
      [xs[0]] + Insert(x, xs[1..], key)
  }

  /** `sorted(xs, key=key)`: stable, and a permutation of its argument. */
  function Sort<T>(xs: seq<T>, key: T -> Key): (r: seq<T>)
    ensures multiset(r) == multiset(xs)
    ensures |r| == |xs|
  {
    if xs == [] then []
    else
      assert xs == [xs[0]] + xs[1..];
      Insert(xs[0], Sort(xs[1..], key), key)
  }

  lemma {:induction false} InsertSorted<T>(x: T, xs: seq<T>, key: T -> Key)
    requires SortedBy(xs, key)
    ensures SortedBy(Insert(x, xs, key), key)
  {
    var r := Insert(x, xs, key);
    if xs == [] {
    } else if Leq(key(x), key(xs[0])) {
      forall j | 0 < j < |r| ensures Leq(key(r[0]), key(r[j])) {
        if j > 1 {
          LeqTransitive(key(x), key(xs[0]), key(xs[j - 1]));
        }
      }
    } else {
      var rest := Insert(x, xs[1..], key);
      InsertSorted(x, xs[1..], key);
      LessAsymmetric(key(xs[0]), key(x));
      forall j | 0 < j < |r| ensures Leq(key(r[0]), key(r[j])) {
        assert r[j] == rest[j - 1] && rest[j - 1] in multiset(rest);
        assert multiset(rest) == multiset{x} + multiset(xs[1..]);
        if r[j] != x {
          assert r[j] in xs[1..];
        }
      }
      assert r[1..] == rest && SortedBy(r[1..], key);
      forall i, j | 0 < i < j < |r| ensures Leq(key(r[i]), key(r[j])) {
        assert r[i] == r[1..][i - 1] && r[j] == r[1..][j - 1];
      }
    }
  }

  lemma {:induction false} SortSorted<T>(xs: seq<T>, key: T -> Key)
    ensures SortedBy(Sort(xs, key), key)
  {
    if xs != [] {
      SortSorted(xs[1..], key);
      InsertSorted(xs[0], Sort(xs[1..], key), key);
    }
  }

  lemma {:induction false} SortMember<T>(xs: seq<T>, key: T -> Key, x: T)
    ensures x in Sort(xs, key) <==> x in xs
  {
    assert x in Sort(xs, key) <==> x in multiset(Sort(xs, key));
    assert x in xs <==> x in multiset(xs);
  }

  /** Sorting a sorted list changes nothing. */
  lemma {:induction false} SortOfSorted<T>(xs: seq<T>, key: T -> Key)
    requires SortedBy(xs, key)
    ensures Sort(xs, key) == xs
  {
    if xs != [] {
      SortOfSorted(xs[1..], key);
      assert xs == [xs[0]] + xs[1..];
      assert |xs| > 1 ==> Leq(key(xs[0]), key(xs[1]));
    }
  }

  /** Distinctness of keys depends only on the multiset of elements. */
  lemma DistinctKeysMultiset<T, K>(xs: seq<T>, ys: seq<T>, key: T -> K)
    requires multiset(xs) == multiset(ys)
    requires DistinctKeys(xs, key)
    ensures DistinctKeys(ys, key)
  {
    forall i, j | 0 <= i < j < |ys| ensures key(ys[i]) != key(ys[j]) {
      if key(ys[i]) == key(ys[j]) {
        assert ys[i] in multiset(ys) && ys[j] in multiset(ys);
        assert ys[i] in xs && ys[j] in xs;
        var a :| 0 <= a < |xs| && xs[a] == ys[i];
        var b :| 0 <= b < |xs| && xs[b] == ys[j];
        assert a == b;
        TwiceInMultiset(ys, i, j);
        OnceInMultiset(xs, a, key);
      }
    }
  }

  lemma TwiceInMultiset<T>(ys: seq<T>, i: int, j: int)
    requires 0 <= i < j < |ys| && ys[i] == ys[j]
    ensures multiset(ys)[ys[i]] >= 2
  {
    assert ys == ys[..j] + ys[j..];
    assert ys[..j][i] == ys[i] && ys[j..][0] == ys[j];
    assert multiset(ys) == multiset(ys[..j]) + multiset(ys[j..]);
  }

  lemma OnceInMultiset<T, K>(xs: seq<T>, a: int, key: T -> K)
    requires 0 <= a < |xs| && DistinctKeys(xs, key)
    ensures multiset(xs)[xs[a]] == 1
  {
    assert xs == xs[..a] + [xs[a]] + xs[a + 1..];
    assert xs[a] !in xs[..a] by {
      assert forall k :: 0 <= k < a ==> key(xs[k]) != key(xs[a]);
    }
    assert xs[a] !in xs[a + 1..] by {
      assert forall k :: a < k < |xs| ==> key(xs[a]) != key(xs[k]);
    }
  }

  /** Lists without repeated keys that have the same elements are permutations of each other. */
  lemma SameElements<T, K>(xs: seq<T>, ys: seq<T>, key: T -> K)
    requires DistinctKeys(xs, key) && DistinctKeys(ys, key)
    requires forall i :: 0 <= i < |xs| ==> xs[i] in ys
    requires forall i :: 0 <= i < |ys| ==> ys[i] in xs
    ensures multiset(xs) == multiset(ys)
  {
    forall x | x in multiset(xs) || x in multiset(ys) ensures multiset(xs)[x] == multiset(ys)[x] {
      assert x in xs || x in ys;
      assert x in xs && x in ys;
      var i :| 0 <= i < |xs| && xs[i] == x;
      var j :| 0 <= j < |ys| && ys[j] == x;
      OnceInMultiset(xs, i, key);
      OnceInMultiset(ys, j, key);
    }
  }

  lemma SortedHead<T>(xs: seq<T>, ys: seq<T>, key: T -> Key)
    requires SortedBy(xs, key) && SortedBy(ys, key) && DistinctKeys(ys, key)
    requires xs != [] && ys != [] && xs[0] in ys && ys[0] in xs
    ensures xs[0] == ys[0]
  {
    var i :| 0 <= i < |ys| && ys[i] == xs[0];
    var j :| 0 <= j < |xs| && xs[j] == ys[0];
    LessTrichotomy(key(xs[0]), key(ys[0]));
  }

  lemma MultisetTail<T>(xs: seq<T>)
    requires xs != []
    ensures multiset(xs[1..]) == multiset(xs) - multiset{xs[0]}
  {
    assert xs == [xs[0]] + xs[1..];
  }

  /** Two sorted arrangements of the same elements with distinct keys are the same. */
  lemma {:induction false} SortedUnique<T>(xs: seq<T>, ys: seq<T>, key: T -> Key)
    requires SortedBy(xs, key) && SortedBy(ys, key)
    requires multiset(xs) == multiset(ys)
    requires DistinctKeys(xs, key)
    ensures xs == ys
  {
    assert |multiset(xs)| == |xs| && |multiset(ys)| == |ys|;
    if xs != [] {
      assert xs[0] in multiset(ys) && ys[0] in multiset(xs);
      SortedHead(ys, xs, key);
      MultisetTail(xs);
      MultisetTail(ys);
      SortedUnique(xs[1..], ys[1..], key);
      assert xs == [xs[0]] + xs[1..] && ys == [ys[0]] + ys[1..];
    }
  }

  /** The sorted list does not depend on the order of the input. */
  lemma {:induction false} SortCanonical<T>(xs: seq<T>, ys: seq<T>, key: T -> Key)
    requires multiset(xs) == multiset(ys)
    requires DistinctKeys(xs, key)
    ensures Sort(xs, key) == Sort(ys, key)
  {
    SortSorted(xs, key);
    SortSorted(ys, key);
    DistinctKeysMultiset(xs, Sort(xs, key), key);
    SortedUnique(Sort(xs, key), Sort(ys, key), key);
  }

  /* ---------- Sorting keyed members ---------- */

  datatype Member<+T> = Member(key: Text, value: T)

  function MemberKey<T>(m: Member<T>): Key
  {
    m.key
  }

  /** `sorted(mapping.items())`: the keys of a mapping are distinct, so values are never compared. */
  function SortMembers<T>(ms: seq<Member<T>>): (r: seq<Member<T>>)
    ensures |r| == |ms| && multiset(r) == multiset(ms)
  {
    Sort(ms, MemberKey)
  }

  function Map<S, T>(f: S -> T, xs: seq<S>): (r: seq<T>)
    ensures |r| == |xs|
    ensures forall i :: 0 <= i < |xs| ==> r[i] == f(xs[i])
  {
    if xs == [] then [] else [f(xs[0])] + Map(f, xs[1..])
  }

  ghost predicate KeepsKey<S, T>(f: S -> T, xs: seq<S>, ks: S -> Key, kt: T -> Key)
  {
    forall i :: 0 <= i < |xs| ==> kt(f(xs[i])) == ks(xs[i])
  }

  lemma {:induction false} InsertMap<S, T>(f: S -> T, x: S, xs: seq<S>, ks: S -> Key, kt: T -> Key)
    requires KeepsKey(f, xs, ks, kt) && kt(f(x)) == ks(x)
    ensures Insert(f(x), Map(f, xs), kt) == Map(f, Insert(x, xs, ks))
  {
    if xs == [] {
    } else if Leq(ks(x), ks(xs[0])) {
      assert ([x] + xs)[1..] == xs;
    } else {
      InsertMap(f, x, xs[1..], ks, kt);
      assert ([xs[0]] + Insert(x, xs[1..], ks))[1..] == Insert(x, xs[1..], ks);
      assert Map(f, xs)[1..] == Map(f, xs[1..]);
    }
  }

  lemma {:induction false} KeepsKeySorted<S, T>(f: S -> T, xs: seq<S>, ks: S -> Key, kt: T -> Key)
    requires KeepsKey(f, xs, ks, kt)
    ensures KeepsKey(f, Sort(xs, ks), ks, kt)
  {
    var r := Sort(xs, ks);
    forall i | 0 <= i < |r| ensures kt(f(r[i])) == ks(r[i]) {
      SortMember(xs, ks, r[i]);
      var k :| 0 <= k < |xs| && xs[k] == r[i];
    }
  }

  /** A map that keeps the keys commutes with sorting. */
  lemma {:induction false} SortMap<S, T>(f: S -> T, xs: seq<S>, ks: S -> Key, kt: T -> Key)
    requires KeepsKey(f, xs, ks, kt)
    ensures Sort(Map(f, xs), kt) == Map(f, Sort(xs, ks))
  {
    if xs != [] {
      assert KeepsKey(f, xs[1..], ks, kt);
      SortMap(f, xs[1..], ks, kt);
      assert Map(f, xs)[1..] == Map(f, xs[1..]);
      KeepsKeySorted(f, xs[1..], ks, kt);
      InsertMap(f, xs[0], Sort(xs[1..], ks), ks, kt);
    }
  }
}
