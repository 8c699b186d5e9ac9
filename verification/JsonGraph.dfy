/**
 JSON values as object graphs: what `validate_json` is given.  Lists and dicts are nodes with an
 identity; nodes may be shared, and a node may contain itself.  `Visit` is the bounded depth-first
 check in its recursive form; `Unfolds` says which tree a value stands for.
 */
module JsonGraph {
  import opened Ordering
  import opened JsonTree

  const MAX_DEPTH: nat := 256
  const MAX_NODES: nat := 10_000
  const MAX_CHARACTERS: nat := 4_000_000
  const MAX_INTEGER_BITS: nat := 13_000

  /** A Python float: NaN and the infinities cannot be written as JSON. */
  datatype PyFloat = NonFinite | Finite(repr: FloatText)

  datatype PyValue<N> =
    | PyNone
    | PyBool(b: bool)
    | PyInt(n: int)
    | PyFloat(f: PyFloat)
    | PyStr(text: Text)
    | PyRef(node: N)      // a list or a dict
    | PyOther             // anything that JSON cannot express

  /** A dict key: a string, or some other hashable object. */
  datatype PyKey = StrKey(text: Text) | OtherKey(id: int)

  /** A list, or a dict in insertion order: the value of keys[i] is items[i]. */
  datatype Body<N> =
    | List(items: seq<PyValue<N>>)
    | Dict(keys: seq<PyKey>, items: seq<PyValue<N>>)

  type Graph<N> = map<N, Body<N>>

  /** Every reference leads to a node of the graph; the keys of a dict are distinct. */
  ghost predicate Closed<N>(g: Graph<N>)
  {
    forall c :: c in g ==>
      (forall i :: 0 <= i < |g[c].items| ==> Known(g, g[c].items[i])) &&
      (g[c].Dict? ==> |g[c].keys| == |g[c].items| && Distinct(g[c].keys))
  }

  ghost predicate Known<N>(g: Graph<N>, v: PyValue<N>)
  {
    v.PyRef? ==> v.node in g
  }

  ghost predicate AllKnown<N>(g: Graph<N>, vs: seq<PyValue<N>>)
  {
    forall i :: 0 <= i < |vs| ==> Known(g, vs[i])
  }

  /* ---------- The recursive check ---------- */

  datatype Fault =
    | NodeLimit
    | DepthLimit
    | CharacterLimit
    | InvalidUnicode
    | InvalidUnicodeKey
    | OversizedInteger
    | NonFiniteNumber
    | ReferenceCycle
    | NonStringKey
    | NotJson

  datatype Tally = Tally(nodes: nat, chars: nat)

  datatype Verdict = Pass(tally: Tally) | Fail(fault: Fault)

  /** `str.encode("utf-8")` succeeds exactly on strings without surrogates. */
  predicate Encodable(t: Text)
  {
    forall i :: 0 <= i < |t| ==> !(0xD800 <= t[i] < 0xE000)
  }

  /** `int.bit_length`: the bits of the absolute value. */
  function BitLength(n: int): nat
  {
    BitCount(if n < 0 then -n else n)
  }

  function BitCount(n: nat): nat
  {
    if n == 0 then 0 else 1 + BitCount(n / 2)
  }

  /** The verdict on a value that is not a container, its node already counted. */
  function VisitScalar<N>(v: PyValue<N>, t: Tally): (r: Verdict)
    requires !v.PyRef?
    ensures r.Pass? ==> r.tally.nodes == t.nodes
  {
    match v
    case PyStr(s) =>
      if t.chars + |s| > MAX_CHARACTERS then Fail(CharacterLimit)
      else if !Encodable(s) then Fail(InvalidUnicode)
      else Pass(Tally(t.nodes, t.chars + |s|))
    case PyInt(n) => if BitLength(n) > MAX_INTEGER_BITS then Fail(OversizedInteger) else Pass(t)
    case PyFloat(f) => if f.NonFinite? then Fail(NonFiniteNumber) else Pass(t)
    case PyOther => Fail(NotJson)
    case _ => Pass(t)
  }

  predicate AllStrings(keys: seq<PyKey>)
  {
    forall i :: 0 <= i < |keys| ==> keys[i].StrKey?
  }

  /** Counting the characters of the keys of a dict, in order. */
  function VisitKeys(keys: seq<PyKey>, t: Tally): (r: Verdict)
    requires AllStrings(keys)
    ensures r.Pass? ==> r.tally.nodes == t.nodes
  {
    if keys == [] then Pass(t)
    else if t.chars + |keys[0].text| > MAX_CHARACTERS then Fail(CharacterLimit)
    else if !Encodable(keys[0].text) then Fail(InvalidUnicodeKey)
    else VisitKeys(keys[1..], Tally(t.nodes, t.chars + |keys[0].text|))
  }

  /** The checks made on a container before its members are visited. */
  function VisitHeader<N>(c: N, body: Body<N>, active: set<N>, t: Tally): Verdict
  {
    if |body.items| > MAX_NODES - t.nodes then Fail(NodeLimit)
    else if c in active then Fail(ReferenceCycle)
    else if body.List? then Pass(t)
    else if !AllStrings(body.keys) then Fail(NonStringKey)
    else VisitKeys(body.keys, t)
  }

  /** The bounded depth-first check of v at a level, below the containers in active. */
  function Visit<N>(g: Graph<N>, v: PyValue<N>, depth: nat, active: set<N>, t: Tally): Verdict
    requires Closed(g) && Known(g, v)
    decreases MAX_DEPTH + 1 - depth, 0, 0
  {
    var t' := Tally(t.nodes + 1, t.chars);
    if t'.nodes > MAX_NODES then Fail(NodeLimit)
    else if depth > MAX_DEPTH then Fail(DepthLimit)
    else if !v.PyRef? then VisitScalar(v, t')
    else
      match VisitHeader(v.node, g[v.node], active, t')
      case Fail(e) => Fail(e)
      case Pass(t'') => VisitAll(g, g[v.node].items, depth + 1, active + {v.node}, t'')
  }

  function VisitAll<N>(g: Graph<N>, vs: seq<PyValue<N>>, depth: nat, active: set<N>, t: Tally): Verdict
    requires Closed(g) && AllKnown(g, vs)
    decreases MAX_DEPTH + 1 - depth, 1, |vs|
  {
    if vs == [] then Pass(t)
    else
      match Visit(g, vs[0], depth, active, t)
      case Fail(e) => Fail(e)
      case Pass(t') => VisitAll(g, vs[1..], depth, active, t')
  }

  /* ---------- What a value stands for ---------- */

  /** Following references from v gives the finite tree j. */
  ghost predicate Unfolds<N>(g: Graph<N>, v: PyValue<N>, j: Json)
    decreases j
  {
    match v
    case PyNone => j == Null
    case PyBool(b) => j == Bool(b)
    case PyInt(n) => j == Int(n)
    case PyFloat(f) => f.Finite? && j == Float(f.repr)
    case PyStr(s) => j == Str(s)
    case PyOther => false
    case PyRef(c) =>
      c in g &&
      match g[c] {
        case List(items) => j.Arr? && UnfoldsAll(g, items, j, j.items)
        case Dict(keys, items) =>
          j.Obj? && |keys| == |j.keys| && (forall i :: 0 <= i < |keys| ==> keys[i] == StrKey(j.keys[i])) &&
          UnfoldsAll(g, items, j, j.items)
      }
  }

  /** The values of a container unfold to the children of the tree `parent`. */
  ghost predicate UnfoldsAll<N>(g: Graph<N>, vs: seq<PyValue<N>>, parent: Json, js: seq<Json>)
    requires forall i :: 0 <= i < |js| ==> js[i] < parent
    decreases parent, 0
  {
    |vs| == |js| && forall i :: 0 <= i < |vs| ==> Unfolds(g, vs[i], js[i])
  }

  /** The limits on the strings and numbers of a tree. */
  predicate ScalarsOk(j: Json)
  {
    match j
    case Int(n) => BitLength(n) <= MAX_INTEGER_BITS
    case Str(s) => Encodable(s)
    case Arr(items) => forall i :: 0 <= i < |items| ==> ScalarsOk(items[i])
    case Obj(keys, items) =>
      (forall i :: 0 <= i < |keys| ==> Encodable(keys[i])) && forall i :: 0 <= i < |items| ==> ScalarsOk(items[i])
    case _ => true
  }

  /** The bounds of the JSON engine, stated on the whole tree. */
  predicate WithinBounds(j: Json)
  {
    Size(j) <= MAX_NODES && Depth(j) <= MAX_DEPTH && Chars(j) <= MAX_CHARACTERS && ScalarsOk(j)
  }
}
