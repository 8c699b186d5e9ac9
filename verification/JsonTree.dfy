/**
 JSON values as trees: what a Python value means once its lists and dicts are followed.

 An object keeps its members in insertion order.  `Normal` forgets that order, and `Same` is
 equality up to it: the same constructors, scalars and keys.  Numbers of different kind or text, such
 as 1 and 1.0, differ.
 */
module JsonTree {
  import opened Ordering

  const MINUS: int := 0x2D
  const DOT: int := 0x2E

  predicate IsDigit(c: int)
  {
    0x30 <= c <= 0x39
  }

  /** The characters of a number: digits, signs, the decimal point and the exponent mark. */
  predicate IsNumberChar(c: int)
  {
    IsDigit(c) || c == MINUS || c == DOT || c == 0x2B || c == 0x65
  }

  predicate AllDigits(t: Text)
  {
    forall i :: 0 <= i < |t| ==> IsDigit(t[i])
  }

  /** `-?[0-9]+` */
  predicate IsIntToken(t: Text)
  {
    t != [] && (if t[0] == MINUS then |t| > 1 && AllDigits(t[1..]) else AllDigits(t))
  }

  /** The shortest representation of a finite float: a number that is not an integer token. */
  predicate IsFloatToken(t: Text)
  {
    t != [] && (IsDigit(t[0]) || t[0] == MINUS) && !IsIntToken(t) &&
    forall i :: 0 <= i < |t| ==> IsNumberChar(t[i])
  }

  /** A finite float is identified with its shortest representation, "0.0" for instance. */
  type FloatText = t: Text | IsFloatToken(t) witness ZeroText()

  function ZeroText(): (t: Text)
    ensures IsFloatToken(t)
  {
    var t: Text := [0x30, DOT, 0x30];
    assert t[1] == DOT;
    t
  }

  datatype Json =
    | Null
    | Bool(b: bool)
    | Int(n: int)
    | Float(repr: FloatText)
    | Str(text: Text)
    | Arr(items: seq<Json>)
    | Obj(keys: seq<Text>, items: seq<Json>)

  /* ---------- Measures ---------- */

  function Size(j: Json): nat
  {
    match j
    case Arr(items) => 1 + SizeAll(items)
    case Obj(_, items) => 1 + SizeAll(items)
    case _ => 1
  }

  function SizeAll(js: seq<Json>): nat
  {
    if js == [] then 0 else Size(js[0]) + SizeAll(js[1..])
  }

  /** The deepest level of a tree whose root is at level 0. */
  function Depth(j: Json): nat
  {
    match j
    case Arr(items) => DepthAll(items)
    case Obj(_, items) => DepthAll(items)
    case _ => 0
  }

  /** One more than the deepest level among the trees, 0 if there are none. */
  function DepthAll(js: seq<Json>): nat
  {
    if js == [] then 0
    else
      var d, rest := 1 + Depth(js[0]), DepthAll(js[1..]);
      if d > rest then d else rest
  }

  function KeyChars(keys: seq<Text>): nat
  {
    if keys == [] then 0 else |keys[0]| + KeyChars(keys[1..])
  }

  /** The characters of all strings and keys. */
  function Chars(j: Json): nat
  {
    match j
    case Str(t) => |t|
    case Arr(items) => CharsAll(items)
    case Obj(keys, items) => KeyChars(keys) + CharsAll(items)
    case _ => 0
  }

  function CharsAll(js: seq<Json>): nat
  {
    if js == [] then 0 else Chars(js[0]) + CharsAll(js[1..])
  }

  /* ---------- Objects as members ---------- */

  function Zip<T>(keys: seq<Text>, xs: seq<T>): (r: seq<Member<T>>)
    requires |keys| == |xs|
    ensures |r| == |xs|
    ensures forall i :: 0 <= i < |xs| ==> r[i] == Member(keys[i], xs[i])
  {
    if xs == [] then [] else [Member(keys[0], xs[0])] + Zip(keys[1..], xs[1..])
  }

  function Value<T>(m: Member<T>): T
  {
    m.value
  }

  function Pairs<A, B>(xs: seq<A>, ys: seq<B>): (r: seq<(A, B)>)
    requires |xs| == |ys|
    ensures |r| == |xs|
    ensures forall i :: 0 <= i < |xs| ==> r[i] == (xs[i], ys[i])
  {
    if xs == [] then [] else [(xs[0], ys[0])] + Pairs(xs[1..], ys[1..])
  }

  function FirstOf<A, B>(m: Member<(A, B)>): Member<A>
  {
    Member(m.key, m.value.0)
  }

  function SecondOf<A, B>(m: Member<(A, B)>): Member<B>
  {
    Member(m.key, m.value.1)
  }

  /** Position i of two sorted lists of members comes from one position k of the unsorted lists. */
  ghost predicate FromPosition<A, B>(keys: seq<Text>, xs: seq<A>, ys: seq<B>, a: Member<A>, b: Member<B>)
    requires |keys| == |xs| == |ys|
  {
    exists k :: 0 <= k < |keys| && a == Member(keys[k], xs[k]) && b == Member(keys[k], ys[k])
  }

  lemma {:induction false} SortedParts<A, B>(keys: seq<Text>, xs: seq<A>, ys: seq<B>)
    requires |keys| == |xs| == |ys|
    ensures SortMembers(Zip(keys, xs)) == Map(FirstOf<A, B>, SortMembers(Zip(keys, Pairs(xs, ys))))
    ensures SortMembers(Zip(keys, ys)) == Map(SecondOf<A, B>, SortMembers(Zip(keys, Pairs(xs, ys))))
  {
    var ps := Zip(keys, Pairs(xs, ys));
    assert Map(FirstOf<A, B>, ps) == Zip(keys, xs);
    assert Map(SecondOf<A, B>, ps) == Zip(keys, ys);
    SortMap(FirstOf<A, B>, ps, MemberKey, MemberKey);
    SortMap(SecondOf<A, B>, ps, MemberKey, MemberKey);
  }

  lemma SortedPosition<T>(ms: seq<Member<T>>, i: int) returns (k: int)
    requires 0 <= i < |ms|
    ensures 0 <= k < |ms| && SortMembers(ms)[i] == ms[k]
  {
    SortMember(ms, MemberKey, SortMembers(ms)[i]);
    k :| 0 <= k < |ms| && ms[k] == SortMembers(ms)[i];
  }

  /** Sorting two lists of members that have the same keys permutes both in the same way. */
  lemma {:induction false} SortTogether<A, B>(keys: seq<Text>, xs: seq<A>, ys: seq<B>, i: int)
    requires |keys| == |xs| == |ys| && 0 <= i < |keys|
    ensures FromPosition(keys, xs, ys, SortMembers(Zip(keys, xs))[i], SortMembers(Zip(keys, ys))[i])
  {
    SortedParts(keys, xs, ys);
    var ps := Zip(keys, Pairs(xs, ys));
    var k := SortedPosition(ps, i);
    assert SortMembers(ps)[i] == Member(keys[k], (xs[k], ys[k]));
  }

  /** Every object has one key per member, and no key twice. */
  predicate WellFormed(j: Json)
  {
    match j
    case Arr(items) => forall i :: 0 <= i < |items| ==> WellFormed(items[i])
    case Obj(keys, items) =>
      |keys| == |items| && Distinct(keys) && forall i :: 0 <= i < |items| ==> WellFormed(items[i])
    case _ => true
  }

  /** The same value with the members of every object sorted by key. */
  function Normal(j: Json): Json
    requires WellFormed(j)
  {
    match j
    case Arr(items) => Arr(NormalAll(items))
    case Obj(keys, items) =>
      var ms := SortMembers(Zip(keys, NormalAll(items)));
      Obj(Map(MemberKey, ms), Map(Value, ms))
    case _ => j
  }

  function NormalAll(js: seq<Json>): (r: seq<Json>)
    requires forall i :: 0 <= i < |js| ==> WellFormed(js[i])
    ensures |r| == |js|
    ensures forall i :: 0 <= i < |js| ==> r[i] == Normal(js[i])
  {
    if js == [] then [] else [Normal(js[0])] + NormalAll(js[1..])
  }

  /** Equality of JSON values up to the order of object members. */
  ghost predicate Same(a: Json, b: Json)
    decreases a
  {
    match a
    case Arr(items) =>
      b.Arr? && |items| == |b.items| && forall i :: 0 <= i < |items| ==> Same(items[i], b.items[i])
    case Obj(keys, items) =>
      b.Obj? && |keys| == |items| == |b.keys| == |b.items| &&
      (forall k :: k in keys <==> k in b.keys) &&
      forall i, k :: 0 <= i < |keys| && 0 <= k < |keys| && keys[i] == b.keys[k] ==> Same(items[i], b.items[k])
    case _ => a == b
  }

  /* ---------- Normal forms decide equality ---------- */

  lemma {:induction false} ZipKeys<T>(keys: seq<Text>, xs: seq<T>)
    requires |keys| == |xs| && Distinct(keys)
    ensures DistinctKeys(Zip(keys, xs), MemberKey)
  {
  }

  lemma {:induction false} MembersFromParts<T>(ms: seq<Member<T>>, ns: seq<Member<T>>)
    requires Map(MemberKey, ms) == Map(MemberKey, ns) && Map(Value, ms) == Map(Value, ns)
    ensures ms == ns
  {
    assert |ms| == |Map(Value, ms)| && |ns| == |Map(Value, ns)|;
    forall i | 0 <= i < |ms| ensures ms[i] == ns[i] {
      assert Map(MemberKey, ms)[i] == MemberKey(ms[i]) && Map(MemberKey, ns)[i] == MemberKey(ns[i]);
      assert Map(Value, ms)[i] == Value(ms[i]) && Map(Value, ns)[i] == Value(ns[i]);
    }
  }

  /** The same keys, with the same value under each. */
  ghost predicate SameMembers<T>(ka: seq<Text>, xa: seq<T>, kb: seq<Text>, xb: seq<T>)
    requires |ka| == |xa| && |kb| == |xb|
  {
    |ka| == |kb| && (forall k :: k in ka <==> k in kb) &&
    forall i, k :: 0 <= i < |ka| && 0 <= k < |kb| && ka[i] == kb[k] ==> xa[i] == xb[k]
  }

  lemma Counterpart<T>(xs: seq<T>, ys: seq<T>, i: int) returns (k: int)
    requires multiset(xs) == multiset(ys) && 0 <= i < |xs|
    ensures 0 <= k < |ys| && ys[k] == xs[i]
  {
    assert xs[i] in multiset(ys);
    k :| 0 <= k < |ys| && ys[k] == xs[i];
  }

  lemma {:induction false} PermutedKeys<T>(ka: seq<Text>, xa: seq<T>, kb: seq<Text>, xb: seq<T>, i: int)
    requires |ka| == |xa| && |kb| == |xb| && multiset(Zip(ka, xa)) == multiset(Zip(kb, xb)) && 0 <= i < |ka|
    ensures ka[i] in kb
  {
    var k := Counterpart(Zip(ka, xa), Zip(kb, xb), i);
  }

  lemma {:induction false} PermutedValues<T>(ka: seq<Text>, xa: seq<T>, kb: seq<Text>, xb: seq<T>, i: int, k: int)
    requires |ka| == |xa| && |kb| == |xb| && Distinct(kb) && multiset(Zip(ka, xa)) == multiset(Zip(kb, xb))
    requires 0 <= i < |ka| && 0 <= k < |kb| && ka[i] == kb[k]
    ensures xa[i] == xb[k]
  {
    var k' := Counterpart(Zip(ka, xa), Zip(kb, xb), i);
    assert Zip(kb, xb)[k'] == Member(kb[k'], xb[k']);
  }

  lemma {:induction false} PermutedMembers<T>(ka: seq<Text>, xa: seq<T>, kb: seq<Text>, xb: seq<T>)
    requires |ka| == |xa| && |kb| == |xb| && Distinct(ka) && Distinct(kb)
    requires multiset(Zip(ka, xa)) == multiset(Zip(kb, xb))
    ensures SameMembers(ka, xa, kb, xb)
  {
    assert |ka| == |kb| by {
      assert |multiset(Zip(ka, xa))| == |multiset(Zip(kb, xb))|;
    }
    forall i | 0 <= i < |ka| ensures ka[i] in kb {
      PermutedKeys(ka, xa, kb, xb, i);
    }
    forall k | 0 <= k < |kb| ensures kb[k] in ka {
      PermutedKeys(kb, xb, ka, xa, k);
    }
    forall i, k | 0 <= i < |ka| && 0 <= k < |kb| && ka[i] == kb[k] ensures xa[i] == xb[k] {
      PermutedValues(ka, xa, kb, xb, i, k);
    }
  }

  lemma {:induction false} SameMembersPermuted<T>(ka: seq<Text>, xa: seq<T>, kb: seq<Text>, xb: seq<T>)
    requires |ka| == |xa| && |kb| == |xb| && Distinct(ka) && Distinct(kb)
    requires SameMembers(ka, xa, kb, xb)
    ensures multiset(Zip(ka, xa)) == multiset(Zip(kb, xb))
  {
    var za, zb := Zip(ka, xa), Zip(kb, xb);
    forall i | 0 <= i < |za| ensures za[i] in zb {
      assert ka[i] in kb;
      var k :| 0 <= k < |kb| && kb[k] == ka[i];
      assert zb[k] == za[i];
    }
    forall k | 0 <= k < |zb| ensures zb[k] in za {
      assert kb[k] in ka;
      var i :| 0 <= i < |ka| && kb[k] == ka[i];
      assert zb[k] == za[i];
    }
    ZipKeys(ka, xa);
    ZipKeys(kb, xb);
    SameElements(za, zb, MemberKey);
  }

  /** Two objects have the same normal form exactly when their normalized members agree. */
  lemma {:induction false} NormalObject(a: Json, b: Json)
    requires a.Obj? && b.Obj? && WellFormed(a) && WellFormed(b)
    ensures Normal(a) == Normal(b) <==> SameMembers(a.keys, NormalAll(a.items), b.keys, NormalAll(b.items))
  {
    var za, zb := Zip(a.keys, NormalAll(a.items)), Zip(b.keys, NormalAll(b.items));
    if Normal(a) == Normal(b) {
      MembersFromParts(SortMembers(za), SortMembers(zb));
      PermutedMembers(a.keys, NormalAll(a.items), b.keys, NormalAll(b.items));
    }
    if SameMembers(a.keys, NormalAll(a.items), b.keys, NormalAll(b.items)) {
      SameMembersPermuted(a.keys, NormalAll(a.items), b.keys, NormalAll(b.items));
      ZipKeys(a.keys, NormalAll(a.items));
      SortCanonical(za, zb, MemberKey);
    }
  }

  /** Between the trees of two lists, normal forms decide `Same`. */
  ghost predicate Agree(xs: seq<Json>, ys: seq<Json>)
    requires forall i :: 0 <= i < |xs| ==> WellFormed(xs[i])
    requires forall i :: 0 <= i < |ys| ==> WellFormed(ys[i])
  {
    forall i, k :: 0 <= i < |xs| && 0 <= k < |ys| ==>
      (NormalAll(xs)[i] == NormalAll(ys)[k] <==> Same(xs[i], ys[k]))
  }

  lemma {:induction false} NormalIffSameArr(a: Json, b: Json)
    requires a.Arr? && b.Arr? && WellFormed(a) && WellFormed(b) && Agree(a.items, b.items)
    ensures Normal(a) == Normal(b) <==> Same(a, b)
  {
    var na, nb := NormalAll(a.items), NormalAll(b.items);
    assert na == nb <==> |na| == |nb| && forall i :: 0 <= i < |na| ==> na[i] == nb[i];
  }

  lemma {:induction false} SameMembersIffSame(a: Json, b: Json, na: seq<Json>, nb: seq<Json>)
    requires a.Obj? && b.Obj? && |a.keys| == |a.items| == |na| && |b.keys| == |b.items| == |nb|
    requires forall i, k :: 0 <= i < |na| && 0 <= k < |nb| ==> (na[i] == nb[k] <==> Same(a.items[i], b.items[k]))
    ensures SameMembers(a.keys, na, b.keys, nb) <==> Same(a, b)
  {
  }

  lemma {:induction false} NormalIffSameObj(a: Json, b: Json)
    requires a.Obj? && b.Obj? && WellFormed(a) && WellFormed(b) && Agree(a.items, b.items)
    ensures Normal(a) == Normal(b) <==> Same(a, b)
  {
    NormalObject(a, b);
    SameMembersIffSame(a, b, NormalAll(a.items), NormalAll(b.items));
  }

  /** Normal forms decide equality of JSON values up to member order. */
  lemma {:induction false} NormalIffSame(a: Json, b: Json)
    requires WellFormed(a) && WellFormed(b)
    ensures Normal(a) == Normal(b) <==> Same(a, b)
    decreases a
  {
    if a.Arr? && b.Arr? {
      NormalIffSameAll(a, a.items, b.items);
      NormalIffSameArr(a, b);
    } else if a.Obj? && b.Obj? {
      NormalIffSameAll(a, a.items, b.items);
      NormalIffSameObj(a, b);
    }
  }

  lemma {:induction false} NormalIffSameAll(a: Json, xs: seq<Json>, ys: seq<Json>)
    requires forall i :: 0 <= i < |xs| ==> WellFormed(xs[i])
    requires forall i :: 0 <= i < |ys| ==> WellFormed(ys[i])
    requires forall i :: 0 <= i < |xs| ==> xs[i] < a
    ensures Agree(xs, ys)
    decreases a, 0
  {
    forall i, k | 0 <= i < |xs| && 0 <= k < |ys|
      ensures NormalAll(xs)[i] == NormalAll(ys)[k] <==> Same(xs[i], ys[k])
    {
      NormalIffSame(xs[i], ys[k]);
    }
  }

  /* ---------- Canonical order ---------- */

  /** Every object lists its members in the order of their keys. */
  predicate InOrder(j: Json)
  {
    match j
    case Arr(items) => forall i :: 0 <= i < |items| ==> InOrder(items[i])
    case Obj(keys, items) => InKeyOrder(keys) && forall i :: 0 <= i < |items| ==> InOrder(items[i])
    case _ => true
  }

  predicate InKeyOrder(keys: seq<Text>)
  {
    forall i, k :: 0 <= i < k < |keys| ==> Leq(keys[i], keys[k])
  }

  lemma {:induction false} ZipParts<T>(keys: seq<Text>, xs: seq<T>)
    requires |keys| == |xs|
    ensures Map(MemberKey, Zip(keys, xs)) == keys && Map(Value, Zip(keys, xs)) == xs
  {
  }

  /** A value in canonical order is its own normal form. */
  lemma {:induction false} InOrderNormal(j: Json)
    requires WellFormed(j) && InOrder(j)
    ensures Normal(j) == j
    decreases j
  {
    match j
    case Arr(items) => InOrderNormalAll(j, items);
    case Obj(keys, items) =>
      InOrderNormalAll(j, items);
      var ms := Zip(keys, items);
      assert SortedBy(ms, MemberKey);
      SortOfSorted(ms, MemberKey);
      ZipParts(keys, items);
    case _ =>
  }

  lemma {:induction false} InOrderNormalAll(parent: Json, js: seq<Json>)
    requires forall i :: 0 <= i < |js| ==> js[i] < parent && WellFormed(js[i]) && InOrder(js[i])
    ensures NormalAll(js) == js
    decreases parent, 0
  {
    forall i | 0 <= i < |js| ensures NormalAll(js)[i] == js[i] {
      InOrderNormal(js[i]);
    }
  }
}
