/**
 What the bounded check of an object graph decides.

 `VisitIffBounded`: the check passes exactly when the value unfolds to a finite tree within the
 bounds; the early length check and the order of the tests do not change that.
 `UnfoldableIffAcyclic`: a value unfolds to a finite tree exactly when no cycle can be reached from
 it and everything reachable is expressible in JSON.
 */
module JsonGraphProofs {
  import opened Ordering
  import opened JsonTree
  import opened JsonGraph

  /* ---------- Unfoldings are unique ---------- */

  lemma {:induction false} UnfoldsUnique<N>(g: Graph<N>, v: PyValue<N>, a: Json, b: Json)
    requires Unfolds(g, v, a) && Unfolds(g, v, b)
    ensures a == b
    decreases a
  {
    if v.PyRef? {
      forall i | 0 <= i < |a.items| ensures a.items[i] == b.items[i] {
        UnfoldsUnique(g, g[v.node].items[i], a.items[i], b.items[i]);
      }
      assert a.items == b.items;
      if g[v.node].Dict? {
        var keys := g[v.node].keys;
        assert forall i :: 0 <= i < |keys| ==> keys[i] == StrKey(a.keys[i]) && keys[i] == StrKey(b.keys[i]);
        assert a.keys == b.keys;
      }
    }
  }

  lemma {:induction false} UnfoldingWellFormed<N>(g: Graph<N>, v: PyValue<N>, j: Json)
    requires Closed(g) && Unfolds(g, v, j)
    ensures WellFormed(j)
    decreases j
  {
    if v.PyRef? {
      forall i | 0 <= i < |j.items| ensures WellFormed(j.items[i]) {
        UnfoldingWellFormed(g, g[v.node].items[i], j.items[i]);
      }
      if g[v.node].Dict? {
        var keys := g[v.node].keys;
        forall i, k | 0 <= i < k < |j.keys| ensures j.keys[i] != j.keys[k] {
          assert keys[i] == StrKey(j.keys[i]) && keys[k] == StrKey(j.keys[k]);
        }
      }
    }
  }

  lemma {:induction false} SizeAllAtLeast(js: seq<Json>)
    ensures SizeAll(js) >= |js|
  {
    if js != [] {
      SizeAllAtLeast(js[1..]);
    }
  }

  /* ---------- Keys ---------- */

  function KeyTexts(keys: seq<PyKey>): (ts: seq<Text>)
    requires AllStrings(keys)
    ensures |ts| == |keys|
    ensures forall i :: 0 <= i < |keys| ==> keys[i] == StrKey(ts[i])
  {
    if keys == [] then [] else [keys[0].text] + KeyTexts(keys[1..])
  }

  lemma {:induction false} VisitKeysVerdict(keys: seq<PyKey>, t: Tally)
    requires AllStrings(keys) && t.chars <= MAX_CHARACTERS
    ensures var ts := KeyTexts(keys);
      if t.chars + KeyChars(ts) <= MAX_CHARACTERS && (forall i :: 0 <= i < |ts| ==> Encodable(ts[i]))
      then VisitKeys(keys, t) == Pass(Tally(t.nodes, t.chars + KeyChars(ts)))
      else VisitKeys(keys, t).Fail?
  {
    if keys != [] {
      var ts := KeyTexts(keys);
      if t.chars + |keys[0].text| <= MAX_CHARACTERS {
        VisitKeysVerdict(keys[1..], Tally(t.nodes, t.chars + |keys[0].text|));
        assert ts == [ts[0]] + ts[1..] && ts[1..] == KeyTexts(keys[1..]);
        assert (forall i :: 0 <= i < |ts| ==> Encodable(ts[i])) <==>
          Encodable(ts[0]) && forall i :: 0 <= i < |ts[1..]| ==> Encodable(ts[1..][i]);
      }
    }
  }

  /** The tally after the header of a container that stands for j. */
  function HeaderTally(j: Json, t: Tally): Tally
  {
    Tally(t.nodes + 1, t.chars + if j.Obj? then KeyChars(j.keys) else 0)
  }

  /* ---------- Passing means: unfolds within the bounds ---------- */

  /** j is the tree of v, and visiting it from level depth with tally t ends with tally t'. */
  ghost predicate Accounts<N>(g: Graph<N>, v: PyValue<N>, depth: nat, t: Tally, t': Tally, j: Json)
  {
    Unfolds(g, v, j) && ScalarsOk(j) && depth + Depth(j) <= MAX_DEPTH &&
    t' == Tally(t.nodes + Size(j), t.chars + Chars(j)) && t'.nodes <= MAX_NODES && t'.chars <= MAX_CHARACTERS
  }

  /** The same for the members of a container. */
  ghost predicate AccountsAll<N>(g: Graph<N>, vs: seq<PyValue<N>>, depth: nat, t: Tally, t': Tally, js: seq<Json>)
  {
    |vs| == |js| && (forall i :: 0 <= i < |vs| ==> Unfolds(g, vs[i], js[i]) && ScalarsOk(js[i])) &&
    (js != [] ==> depth + DepthAll(js) <= MAX_DEPTH + 1) &&
    t' == Tally(t.nodes + SizeAll(js), t.chars + CharsAll(js)) && t'.nodes <= MAX_NODES && t'.chars <= MAX_CHARACTERS
  }

  lemma {:induction false} ContainerUnfolds<N>(g: Graph<N>, c: N, js: seq<Json>, j: Json)
    requires c in g && |g[c].items| == |js| && forall i :: 0 <= i < |js| ==> Unfolds(g, g[c].items[i], js[i])
    requires g[c].List? ==> j == Arr(js)
    requires g[c].Dict? ==> |g[c].keys| == |g[c].items| && AllStrings(g[c].keys) && j == Obj(KeyTexts(g[c].keys), js)
    ensures Unfolds(g, PyRef(c), j)
  {
    assert forall i :: 0 <= i < |js| ==> js[i] < j;
    assert UnfoldsAll(g, g[c].items, j, js);
  }

  lemma HeaderFacts<N>(c: N, body: Body<N>, active: set<N>, t: Tally) returns (h: Tally)
    requires t.nodes < MAX_NODES && t.chars <= MAX_CHARACTERS
    requires VisitHeader(c, body, active, Tally(t.nodes + 1, t.chars)).Pass?
    ensures VisitHeader(c, body, active, Tally(t.nodes + 1, t.chars)) == Pass(h)
    ensures body.List? ==> h == Tally(t.nodes + 1, t.chars)
    ensures body.Dict? ==> AllStrings(body.keys)
    ensures body.Dict? ==> h == Tally(t.nodes + 1, t.chars + KeyChars(KeyTexts(body.keys)))
    ensures body.Dict? ==> forall i :: 0 <= i < |body.keys| ==> Encodable(KeyTexts(body.keys)[i])
    ensures h.chars <= MAX_CHARACTERS
  {
    h := VisitHeader(c, body, active, Tally(t.nodes + 1, t.chars)).tally;
    if body.Dict? {
      VisitKeysVerdict(body.keys, Tally(t.nodes + 1, t.chars));
    }
  }

  lemma {:induction false} ContainerAccounts<N>(
      g: Graph<N>, c: N, depth: nat, t: Tally, t': Tally, js: seq<Json>, j: Json)
    requires Unfolds(g, PyRef(c), j) && (j == Arr(js) || (j.Obj? && j.items == js)) && depth <= MAX_DEPTH
    requires j.Obj? ==> forall i :: 0 <= i < |j.keys| ==> Encodable(j.keys[i])
    requires AccountsAll(g, g[c].items, depth + 1, HeaderTally(j, t), t', js)
    ensures Accounts(g, PyRef(c), depth, t, t', j)
  {
  }

  lemma {:induction false} PassAccounts<N>(g: Graph<N>, v: PyValue<N>, depth: nat, active: set<N>, t: Tally)
      returns (j: Json)
    requires Closed(g) && Known(g, v) && t.nodes <= MAX_NODES && t.chars <= MAX_CHARACTERS
    requires Visit(g, v, depth, active, t).Pass?
    ensures Accounts(g, v, depth, t, Visit(g, v, depth, active, t).tally, j)
    decreases MAX_DEPTH + 1 - depth, 0, 0
  {
    match v
    case PyNone => j := Null;
    case PyBool(b) => j := Bool(b);
    case PyInt(n) => j := Int(n);
    case PyFloat(f) => j := Float(f.repr);
    case PyStr(s) => j := Str(s);
    case PyRef(c) =>
      var body := g[c];
      var h := HeaderFacts(c, body, active, t);
      var js := PassAccountsAll(g, body.items, depth + 1, active + {c}, h);
      j := if body.List? then Arr(js) else Obj(KeyTexts(body.keys), js);
      ContainerUnfolds(g, c, js, j);
      ContainerAccounts(g, c, depth, t, Visit(g, v, depth, active, t).tally, js, j);
  }

  lemma {:induction false} PassAccountsAll<N>(
      g: Graph<N>, vs: seq<PyValue<N>>, depth: nat, active: set<N>, t: Tally)
      returns (js: seq<Json>)
    requires Closed(g) && AllKnown(g, vs) && t.nodes <= MAX_NODES && t.chars <= MAX_CHARACTERS
    requires VisitAll(g, vs, depth, active, t).Pass?
    ensures AccountsAll(g, vs, depth, t, VisitAll(g, vs, depth, active, t).tally, js)
    decreases MAX_DEPTH + 1 - depth, 1, |vs|
  {
    if vs == [] {
      js := [];
    } else {
      var t' := Visit(g, vs[0], depth, active, t).tally;
      var j := PassAccounts(g, vs[0], depth, active, t);
      var rest := PassAccountsAll(g, vs[1..], depth, active, t');
      js := [j] + rest;
      assert js[1..] == rest;
    }
  }

  /* ---------- Unfolding within the bounds means: passing ---------- */

  /** Every active container stands for a tree of more than n nodes. */
  ghost predicate Above<N>(g: Graph<N>, active: set<N>, n: nat)
  {
    forall a :: a in active ==> exists j :: Unfolds(g, PyRef(a), j) && Size(j) > n
  }

  lemma {:induction false} NotActive<N>(g: Graph<N>, active: set<N>, c: N, j: Json)
    requires Unfolds(g, PyRef(c), j) && Above(g, active, Size(j))
    ensures c !in active
  {
    if c in active {
      var j' :| Unfolds(g, PyRef(c), j') && Size(j') > Size(j);
      UnfoldsUnique(g, PyRef(c), j, j');
    }
  }

  lemma {:induction false} HeaderPasses<N>(g: Graph<N>, c: N, active: set<N>, t: Tally, j: Json)
    requires Unfolds(g, PyRef(c), j) && Above(g, active, Size(j)) && ScalarsOk(j)
    requires t.nodes + Size(j) <= MAX_NODES && t.chars + Chars(j) <= MAX_CHARACTERS
    ensures VisitHeader(c, g[c], active, Tally(t.nodes + 1, t.chars)) == Pass(HeaderTally(j, t))
  {
    var body := g[c];
    SizeAllAtLeast(j.items);
    NotActive(g, active, c, j);
    if body.Dict? {
      VisitKeysVerdict(body.keys, Tally(t.nodes + 1, t.chars));
      assert KeyTexts(body.keys) == j.keys;
    }
  }

  lemma ChildrenAccount<N>(g: Graph<N>, c: N, depth: nat, t: Tally, t': Tally, j: Json)
    requires Accounts(g, PyRef(c), depth, t, t', j)
    ensures AccountsAll(g, g[c].items, depth + 1, HeaderTally(j, t), t', j.items)
  {
    assert Unfolds(g, PyRef(c), j) && ScalarsOk(j);
    assert j.Arr? || j.Obj?;
    assert UnfoldsAll(g, g[c].items, j, j.items);
  }

  lemma {:induction false} AccountsPass<N>(
      g: Graph<N>, v: PyValue<N>, depth: nat, active: set<N>, t: Tally, t': Tally, j: Json)
    requires Closed(g) && Known(g, v) && Above(g, active, Size(j))
    requires Accounts(g, v, depth, t, t', j)
    ensures Visit(g, v, depth, active, t) == Pass(t')
    decreases j
  {
    if v.PyRef? {
      var c := v.node;
      HeaderPasses(g, c, active, t, j);
      ChildrenAccount(g, c, depth, t, t', j);
      assert Size(j) == 1 + SizeAll(j.items);
      assert Above(g, active + {c}, SizeAll(j.items));
      assert forall i :: 0 <= i < |j.items| ==> j.items[i] < j;
      AccountsAllPass(g, g[c].items, depth + 1, active + {c}, HeaderTally(j, t), t', j, j.items);
    }
  }

  lemma {:induction false} AccountsAllPass<N>(
      g: Graph<N>, vs: seq<PyValue<N>>, depth: nat, active: set<N>, t: Tally, t': Tally, parent: Json, js: seq<Json>)
    requires Closed(g) && AllKnown(g, vs) && Above(g, active, SizeAll(js))
    requires forall i :: 0 <= i < |js| ==> js[i] < parent
    requires AccountsAll(g, vs, depth, t, t', js)
    ensures VisitAll(g, vs, depth, active, t) == Pass(t')
    decreases parent, 0, |js|
  {
    if vs != [] {
      var t1 := Tally(t.nodes + Size(js[0]), t.chars + Chars(js[0]));
      AccountsPass(g, vs[0], depth, active, t, t1, js[0]);
      AccountsAllPass(g, vs[1..], depth, active, t1, t', parent, js[1..]);
    }
  }

  /** The check passes exactly the values that stand for a finite tree within the bounds. */
  lemma {:induction false} VisitIffBounded<N>(g: Graph<N>, v: PyValue<N>)
    requires Closed(g) && Known(g, v)
    ensures Visit(g, v, 0, {}, Tally(0, 0)).Pass? <==> exists j :: Unfolds(g, v, j) && WithinBounds(j)
  {
    var r := Visit(g, v, 0, {}, Tally(0, 0));
    if r.Pass? {
      var j := PassAccounts(g, v, 0, {}, Tally(0, 0));
      assert Unfolds(g, v, j) && WithinBounds(j);
    }
    if j :| Unfolds(g, v, j) && WithinBounds(j) {
      AccountsPass(g, v, 0, {}, Tally(0, 0), Tally(Size(j), Chars(j)), j);
    }
  }

  /** A passing check reports the size of the tree and the number of its characters. */
  lemma {:induction false} VisitTally<N>(g: Graph<N>, v: PyValue<N>, j: Json)
    requires Closed(g) && Known(g, v) && Unfolds(g, v, j)
    requires Visit(g, v, 0, {}, Tally(0, 0)).Pass?
    ensures Visit(g, v, 0, {}, Tally(0, 0)).tally == Tally(Size(j), Chars(j)) && WithinBounds(j) && WellFormed(j)
  {
    var j' := PassAccounts(g, v, 0, {}, Tally(0, 0));
    UnfoldsUnique(g, v, j, j');
    UnfoldingWellFormed(g, v, j);
  }

  /* ---------- Unfolding and cycles ---------- */

  /** The nodes reached from c by following exactly n references. */
  ghost function Layer<N>(g: Graph<N>, c: N, n: nat): set<N>
  {
    if n == 0 then {c}
    else set d, b | d in g && b in Layer(g, c, n - 1) && b in g && PyRef(d) in g[b].items :: d
  }

  /** The nodes reached from c by following one or more references. */
  ghost function Below<N>(g: Graph<N>, c: N): set<N>
  {
    set d | d in g && exists n: nat :: n > 0 && d in Layer(g, c, n)
  }

  /** No node reached from c, c included, is below itself. */
  ghost predicate Acyclic<N>(g: Graph<N>, c: N)
  {
    forall d :: d in Below(g, c) + {c} ==> d !in Below(g, d)
  }

  /** Apart from references, v is a JSON value. */
  predicate PlainOk<N>(v: PyValue<N>)
  {
    !v.PyOther? && (v.PyFloat? ==> v.f.Finite?)
  }

  ghost predicate BodyOk<N>(b: Body<N>)
  {
    (b.Dict? ==> AllStrings(b.keys)) && forall i :: 0 <= i < |b.items| ==> PlainOk(b.items[i])
  }

  /** Everything reached from c can be expressed in JSON. */
  ghost predicate Expressible<N>(g: Graph<N>, c: N)
  {
    forall d :: d in g && d in Below(g, c) + {c} ==> BodyOk(g[d])
  }

  lemma {:induction false} LayerStep<N>(g: Graph<N>, c: N, d: N, e: N, n: nat)
    requires c in g && d in g && PyRef(d) in g[c].items && e in Layer(g, d, n)
    ensures e in Layer(g, c, n + 1)
  {
    if n == 0 {
      assert c in Layer(g, c, 0);
      assert e in Layer(g, c, 1);
    } else {
      var b :| b in Layer(g, d, n - 1) && b in g && e in g && PyRef(e) in g[b].items;
      LayerStep(g, c, d, b, n - 1);
    }
  }

  lemma ChildBelow<N>(g: Graph<N>, c: N, d: N)
    requires c in g && d in g && PyRef(d) in g[c].items
    ensures d in Below(g, c) && Below(g, d) <= Below(g, c)
  {
    assert d in Layer(g, d, 0);
    LayerStep(g, c, d, d, 0);
    forall e | e in Below(g, d) ensures e in Below(g, c) {
      var n: nat :| n > 0 && e in Layer(g, d, n);
      LayerStep(g, c, d, e, n);
    }
  }

  /** A node n references below an unfolding container unfolds too, to a tree smaller by n at least. */
  lemma {:induction false} LayerUnfolds<N>(g: Graph<N>, c: N, j: Json, d: N, n: nat) returns (k: Json)
    requires Unfolds(g, PyRef(c), j) && d in Layer(g, c, n)
    ensures Unfolds(g, PyRef(d), k) && Size(k) + n <= Size(j)
  {
    if n == 0 {
      k := j;
    } else {
      var b :| b in Layer(g, c, n - 1) && b in g && d in g && PyRef(d) in g[b].items;
      var kb := LayerUnfolds(g, c, j, b, n - 1);
      var i :| 0 <= i < |g[b].items| && g[b].items[i] == PyRef(d);
      assert UnfoldsAll(g, g[b].items, kb, kb.items);
      k := kb.items[i];
      assert Unfolds(g, g[b].items[i], k);
      SizeOfItem(kb.items, i);
    }
  }

  lemma {:induction false} SizeOfItem(js: seq<Json>, i: int)
    requires 0 <= i < |js|
    ensures Size(js[i]) <= SizeAll(js)
  {
    if i > 0 {
      SizeOfItem(js[1..], i - 1);
    }
  }

  lemma {:induction false} UnfoldingBodyOk<N>(g: Graph<N>, c: N, j: Json)
    requires Unfolds(g, PyRef(c), j)
    ensures BodyOk(g[c])
  {
    assert UnfoldsAll(g, g[c].items, j, j.items);
    forall i | 0 <= i < |g[c].items| ensures PlainOk(g[c].items[i]) {
      assert Unfolds(g, g[c].items[i], j.items[i]);
    }
  }

  lemma {:induction false} UnfoldableIsAcyclic<N>(g: Graph<N>, c: N, j: Json)
    requires Unfolds(g, PyRef(c), j)
    ensures Acyclic(g, c) && Expressible(g, c)
  {
    forall d | d in Below(g, c) + {c} ensures d !in Below(g, d) && (d in g ==> BodyOk(g[d])) {
      assert c in Layer(g, c, 0);
      var n: nat :| d in Layer(g, c, n);
      var k := LayerUnfolds(g, c, j, d, n);
      UnfoldingBodyOk(g, d, k);
      if d in Below(g, d) {
        var m: nat :| m > 0 && d in Layer(g, d, m);
        var k' := LayerUnfolds(g, d, k, d, m);
        UnfoldsUnique(g, PyRef(d), k, k');
      }
    }
  }

  lemma {:induction false} AcyclicUnfolds<N>(g: Graph<N>, c: N) returns (j: Json)
    requires Closed(g) && c in g && Acyclic(g, c) && Expressible(g, c)
    ensures Unfolds(g, PyRef(c), j)
    decreases Below(g, c), 1, 0
  {
    var body := g[c];
    assert BodyOk(body);
    var js := AcyclicUnfoldsAll(g, c, |body.items|);
    j := if body.List? then Arr(js) else Obj(KeyTexts(body.keys), js);
    ContainerUnfolds(g, c, js, j);
  }

  lemma {:induction false} AcyclicUnfoldsAll<N>(g: Graph<N>, c: N, n: nat) returns (js: seq<Json>)
    requires Closed(g) && c in g && Acyclic(g, c) && Expressible(g, c) && n <= |g[c].items|
    ensures |js| == n && forall i :: 0 <= i < n ==> Unfolds(g, g[c].items[i], js[i])
    decreases Below(g, c), 0, n
  {
    if n == 0 {
      js := [];
    } else {
      var rest := AcyclicUnfoldsAll(g, c, n - 1);
      var v := g[c].items[n - 1];
      assert BodyOk(g[c]) && PlainOk(v);
      var j;
      match v {
        case PyRef(d) =>
          ChildBelow(g, c, d);
          assert d !in Below(g, d);
          j := AcyclicUnfolds(g, d);
        case PyBool(b) => j := Bool(b);
        case PyInt(m) => j := Int(m);
        case PyFloat(f) => j := Float(f.repr);
        case PyStr(s) => j := Str(s);
        case _ => j := Null;
      }
      js := rest + [j];
    }
  }

  /** A container stands for a finite tree exactly when it is acyclic and expressible. */
  lemma {:induction false} UnfoldableIffAcyclic<N>(g: Graph<N>, c: N)
    requires Closed(g) && c in g
    ensures (exists j :: Unfolds(g, PyRef(c), j)) <==> Acyclic(g, c) && Expressible(g, c)
  {
    if j :| Unfolds(g, PyRef(c), j) {
      UnfoldableIsAcyclic(g, c, j);
    }
    if Acyclic(g, c) && Expressible(g, c) {
      var j := AcyclicUnfolds(g, c);
      assert Unfolds(g, PyRef(c), j);
    }
  }
}
