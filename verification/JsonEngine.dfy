/**
 The three explicit-stack traversals of the JSON engine, over lists and dicts in the heap.
 */
module JsonEngine {
  import opened Ordering
  import opened JsonTree
  import opened JsonText
  import opened JsonGraph
  import opened JsonGraphProofs

  /** A Python list or dict. */
  class Container {
    var body: Body<Container>

    constructor (body: Body<Container>)
      ensures this.body == body
    {
      this.body := body;
    }
  }

  type Value = PyValue<Container>

  /** The graph g is what the heap holds now. */
  ghost predicate Pictures(g: Graph<Container>)
    reads g.Keys
  {
    forall c :: c in g ==> g[c] == c.body
  }

  /** g is a picture of a part of the heap that contains everything reachable from v. */
  ghost predicate Reaches(g: Graph<Container>, v: Value)
    reads g.Keys
  {
    Pictures(g) && Closed(g) && Known(g, v)
  }

  /* ---------- validate_json ---------- */

  /** An entry of the validator's stack: a value to enter, or a container to leave. */
  datatype Frame<N> = Enter(value: PyValue<N>, depth: nat) | Leave(node: N)

  /** The frames that `stack.extend` pushes for the members of a container: the first on top. */
  function Frames<N>(vs: seq<PyValue<N>>, depth: nat): (fs: seq<Frame<N>>)
    ensures |fs| == |vs|
    ensures forall i :: 0 <= i < |vs| ==> fs[i] == Enter(vs[|vs| - 1 - i], depth)
  {
    if vs == [] then [] else Frames(vs[1..], depth) + [Enter(vs[0], depth)]
  }

  ghost predicate FramesKnown<N>(g: Graph<N>, stack: seq<Frame<N>>)
  {
    forall i :: 0 <= i < |stack| && stack[i].Enter? ==> Known(g, stack[i].value)
  }

  /** What remains to be said when this stack is left to process. */
  ghost function Resume<N>(g: Graph<N>, stack: seq<Frame<N>>, active: set<N>, t: Tally): Verdict
    requires Closed(g) && FramesKnown(g, stack)
  {
    if stack == [] then Pass(t)
    else
      var top, rest := stack[|stack| - 1], stack[..|stack| - 1];
      match top
      case Leave(c) => Resume(g, rest, active - {c}, t)
      case Enter(v, d) =>
        match Visit(g, v, d, active, t)
        case Fail(e) => Fail(e)
        case Pass(t') => Resume(g, rest, active, t')
  }

  /** Processing the frames of all members is visiting them in order. */
  lemma {:induction false} ResumeFrames<N>(
      g: Graph<N>, stack: seq<Frame<N>>, vs: seq<PyValue<N>>, depth: nat, active: set<N>, t: Tally)
    requires Closed(g) && FramesKnown(g, stack) && AllKnown(g, vs)
    ensures FramesKnown(g, stack + Frames(vs, depth))
    ensures Resume(g, stack + Frames(vs, depth), active, t) ==
      match VisitAll(g, vs, depth, active, t)
      case Fail(e) => Fail(e)
      case Pass(t') => Resume(g, stack, active, t')
  {
    if vs == [] {
      assert stack + Frames(vs, depth) == stack;
    } else {
      var s := stack + Frames(vs, depth);
      assert s[|s| - 1] == Enter(vs[0], depth);
      assert s[..|s| - 1] == stack + Frames(vs[1..], depth);
      match Visit(g, vs[0], depth, active, t)
      case Fail(_) =>
        ResumeFrames(g, stack, vs[1..], depth, active, t);
      case Pass(t') =>
        ResumeFrames(g, stack, vs[1..], depth, active, t');
    }
  }

  /** The containers whose leave marker is on the stack. */
  ghost function Markers<N>(stack: seq<Frame<N>>): set<N>
  {
    set i | 0 <= i < |stack| && stack[i].Leave? :: stack[i].node
  }

  ghost predicate MarkersDistinct<N>(stack: seq<Frame<N>>)
  {
    forall i, k :: 0 <= i < k < |stack| && stack[i].Leave? && stack[k].Leave? ==> stack[i].node != stack[k].node
  }

  /** Entering a container: its members are visited below it, then its marker is removed. */
  lemma {:induction false} ResumeContainer<N>(
      g: Graph<N>, stack: seq<Frame<N>>, c: N, depth: nat, active: set<N>, t: Tally)
    requires Closed(g) && FramesKnown(g, stack) && c in g && c !in active
    ensures AllKnown(g, g[c].items)
    ensures FramesKnown(g, stack + [Leave(c)] + Frames(g[c].items, depth + 1))
    ensures Resume(g, stack + [Leave(c)] + Frames(g[c].items, depth + 1), active + {c}, t) ==
      match VisitAll(g, g[c].items, depth + 1, active + {c}, t)
      case Fail(e) => Fail(e)
      case Pass(t') => Resume(g, stack, active, t')
  {
    var s := stack + [Leave(c)];
    assert s[|s| - 1] == Leave(c) && s[..|s| - 1] == stack;
    assert active + {c} - {c} == active;
    ResumeFrames(g, s, g[c].items, depth + 1, active + {c}, t);
  }

  lemma MarkersPop<N>(stack: seq<Frame<N>>)
    requires stack != [] && MarkersDistinct(stack)
    ensures var rest := stack[..|stack| - 1];
      MarkersDistinct(rest) &&
      (stack[|stack| - 1].Enter? ==> Markers(rest) == Markers(stack)) &&
      (stack[|stack| - 1].Leave? ==>
        var c := stack[|stack| - 1].node; c in Markers(stack) && Markers(rest) == Markers(stack) - {c})
  {
    var n := |stack| - 1;
    var rest := stack[..n];
    forall x | x in Markers(stack) && (stack[n].Enter? || x != stack[n].node) ensures x in Markers(rest) {
      var i :| 0 <= i < |stack| && stack[i].Leave? && stack[i].node == x;
      assert rest[i] == stack[i];
    }
    forall x | x in Markers(rest) ensures x in Markers(stack) && (stack[n].Leave? ==> x != stack[n].node) {
      var i :| 0 <= i < |rest| && rest[i].Leave? && rest[i].node == x;
      assert rest[i] == stack[i];
    }
  }

  lemma MarkersPush<N>(stack: seq<Frame<N>>, c: N, fs: seq<Frame<N>>)
    requires MarkersDistinct(stack) && c !in Markers(stack)
    requires forall i :: 0 <= i < |fs| ==> fs[i].Enter?
    ensures MarkersDistinct(stack + [Leave(c)] + fs)
    ensures Markers(stack + [Leave(c)] + fs) == Markers(stack) + {c}
  {
    var s := stack + [Leave(c)] + fs;
    assert s[|stack|] == Leave(c);
    forall x | x in Markers(stack) ensures x in Markers(s) {
      var i :| 0 <= i < |stack| && stack[i].Leave? && stack[i].node == x;
      assert s[i] == stack[i];
    }
    forall x | x in Markers(s) ensures x in Markers(stack) + {c} {
      var i :| 0 <= i < |s| && s[i].Leave? && s[i].node == x;
      assert i <= |stack|;
    }
    forall i | 0 <= i < |stack| && stack[i].Leave? ensures stack[i].node != c {
      assert stack[i].node in Markers(stack);
    }
  }

  /** The character count of the keys of a dict, key by key. */
  method CountKeys(keys: seq<PyKey>, t: Tally) returns (r: Verdict)
    requires AllStrings(keys)
    ensures r == VisitKeys(keys, t)
  {
    var chars: nat := t.chars;
    var i := 0;
    while i < |keys|
      invariant 0 <= i <= |keys|
      invariant VisitKeys(keys, t) == VisitKeys(keys[i..], Tally(t.nodes, chars))
    {
      var key := keys[i].text;
      assert keys[i..][0] == keys[i] && keys[i..][1..] == keys[i + 1..];
      chars := chars + |key|;
      if chars > MAX_CHARACTERS {
        return Fail(CharacterLimit);
      }
      if !Encodable(key) {
        return Fail(InvalidUnicodeKey);
      }
      i := i + 1;
    }
    return Pass(Tally(t.nodes, chars));
  }

  /** The checks on a container before its members are pushed. */
  method CheckHeader<N(==)>(c: N, body: Body<N>, active: set<N>, t: Tally) returns (r: Verdict)
    requires t.nodes <= MAX_NODES
    ensures r == VisitHeader(c, body, active, t)
    ensures r.Pass? ==> r.tally.nodes == t.nodes && c !in active
  {
    if |body.items| > MAX_NODES - t.nodes {
      return Fail(NodeLimit);
    }
    if c in active {
      return Fail(ReferenceCycle);
    }
    r := Pass(t);
    if body.Dict? {
      if !AllStrings(body.keys) {
        return Fail(NonStringKey);
      }
      r := CountKeys(body.keys, t);
    }
  }

  /**
   What every turn of the validator's loop keeps: the active set holds the containers whose leave
   marker is on the stack, and the stack still to be processed leads to the verdict.
   */
  ghost predicate Consistent<N>(g: Graph<N>, stack: seq<Frame<N>>, active: set<N>, t: Tally, verdict: Verdict)
  {
    Closed(g) && FramesKnown(g, stack) && t.nodes <= MAX_NODES &&
    active == Markers(stack) && MarkersDistinct(stack) &&
    Resume(g, stack, active, t) == verdict
  }

  lemma LeaveKeeps<N>(g: Graph<N>, stack: seq<Frame<N>>, active: set<N>, t: Tally, verdict: Verdict)
    requires Consistent(g, stack, active, t, verdict)
    requires stack != [] && stack[|stack| - 1].Leave?
    ensures stack[|stack| - 1].node in active
    ensures Consistent(g, stack[..|stack| - 1], active - {stack[|stack| - 1].node}, t, verdict)
  {
    MarkersPop(stack);
  }

  lemma {:induction false} EnterFails<N>(g: Graph<N>, stack: seq<Frame<N>>, active: set<N>, t: Tally, verdict: Verdict)
    requires Consistent(g, stack, active, t, verdict)
    requires stack != [] && stack[|stack| - 1].Enter?
    requires Visit(g, stack[|stack| - 1].value, stack[|stack| - 1].depth, active, t).Fail?
    ensures verdict == Visit(g, stack[|stack| - 1].value, stack[|stack| - 1].depth, active, t)
  {
  }

  lemma {:induction false} ScalarKeeps<N>(
      g: Graph<N>, stack: seq<Frame<N>>, active: set<N>, t: Tally, verdict: Verdict, t': Tally)
    requires Consistent(g, stack, active, t, verdict)
    requires stack != [] && stack[|stack| - 1].Enter? && t'.nodes <= MAX_NODES
    requires Visit(g, stack[|stack| - 1].value, stack[|stack| - 1].depth, active, t) == Pass(t')
    ensures Consistent(g, stack[..|stack| - 1], active, t', verdict)
  {
    MarkersPop(stack);
  }

  lemma {:induction false} ContainerKeeps<N>(
      g: Graph<N>, stack: seq<Frame<N>>, active: set<N>, t: Tally, verdict: Verdict, c: N, depth: nat, h: Tally)
    requires Consistent(g, stack, active, t, verdict)
    requires stack != [] && stack[|stack| - 1] == Enter(PyRef(c), depth) && c in g
    requires t.nodes < MAX_NODES && depth <= MAX_DEPTH && h.nodes <= MAX_NODES
    requires VisitHeader(c, g[c], active, Tally(t.nodes + 1, t.chars)) == Pass(h)
    ensures Consistent(g, stack[..|stack| - 1] + [Leave(c)] + Frames(g[c].items, depth + 1), active + {c}, h, verdict)
  {
    MarkersPop(stack);
    var rest := stack[..|stack| - 1];
    ResumeContainer(g, rest, c, depth, active, h);
    MarkersPush(rest, c, Frames(g[c].items, depth + 1));
  }

  /** The loop over an explicit stack gives exactly the verdict of the recursive check. */
  method Validate(value: Value, ghost g: Graph<Container>) returns (r: Verdict)
    requires Reaches(g, value)
    ensures r == Visit(g, value, 0, {}, Tally(0, 0))
    ensures r.Pass? <==> exists j :: Unfolds(g, value, j) && WithinBounds(j)
  {
    VisitIffBounded(g, value);
    var stack: seq<Frame<Container>> := [Enter(value, 0)];
    var active: set<Container> := {};
    var t := Tally(0, 0);
    ghost var verdict := Visit(g, value, 0, {}, Tally(0, 0));
    assert stack[..0] == [];
    while stack != []
      invariant Consistent(g, stack, active, t, verdict)
      decreases MAX_NODES - t.nodes, |stack|
    {
      var top := stack[|stack| - 1];
      ghost var before, tally := stack, t;
      stack := stack[..|stack| - 1];
      if top.Leave? {
        LeaveKeeps(g, before, active, t, verdict);
        active := active - {top.node};
      } else {
        if Visit(g, top.value, top.depth, active, t).Fail? {
          EnterFails(g, before, active, t, verdict);
        }
        var current, depth := top.value, top.depth;
        t := Tally(t.nodes + 1, t.chars);
        if t.nodes > MAX_NODES {
          return Fail(NodeLimit);
        }
        if depth > MAX_DEPTH {
          return Fail(DepthLimit);
        }
        if !current.PyRef? {
          var s := VisitScalar(current, t);
          if s.Fail? {
            return s;
          }
          t := s.tally;
          ScalarKeeps(g, before, active, tally, verdict, t);
        } else {
          var c := current.node;
          var body := c.body;
          assert body == g[c];
          var h := CheckHeader(c, body, active, t);
          if h.Fail? {
            return h;
          }
          t := h.tally;
          ContainerKeeps(g, before, active, tally, verdict, c, depth, t);
          active := active + {c};
          stack := stack + [Leave(c)] + Frames(body.items, depth + 1);
        }
      }
    }
    return Pass(t);
  }

  /* ---------- canonicalize_json ---------- */

  /** An entry of the printer's stack: text to emit, or a value still to print. */
  datatype Piece<T> = Token(text: Text) | Pending(value: T)

  /** The stack after the printer pushed list elements i and later, the element at i on top. */
  function PushList<T>(s: seq<Piece<T>>, xs: seq<T>, i: nat): seq<Piece<T>>
    requires i <= |xs|
    decreases |xs| - i
  {
    if i == |xs| then s
    else
      var u := PushList(s, xs, i + 1) + [Pending(xs[i])];
      if i > 0 then u + [Token([COMMA])] else u
  }

  /** The stack after the printer pushed the sorted members i and later. */
  function PushMembers<T>(s: seq<Piece<T>>, ms: seq<Member<T>>, i: nat): seq<Piece<T>>
    requires i <= |ms|
    decreases |ms| - i
  {
    if i == |ms| then s
    else
      var u := PushMember(PushMembers(s, ms, i + 1), ms[i]);
      if i > 0 then u + [Token([COMMA])] else u
  }

  function PushMember<T>(s: seq<Piece<T>>, m: Member<T>): seq<Piece<T>>
  {
    s + [Pending(m.value)] + [Token([COLON])] + [Token(PrintString(m.key))]
  }

  /** What the proof knows about a value still to print: its canonical text and its size. */
  datatype Printed = Printed(text: Text, size: nat)

  function PieceText(p: Piece<Printed>): Text
  {
    match p
    case Token(t) => t
    case Pending(v) => v.text
  }

  function PieceSize(p: Piece<Printed>): nat
  {
    match p
    case Token(_) => 0
    case Pending(v) => v.size
  }

  /** The text that a stack stands for, from the top down. */
  function Render(s: seq<Piece<Printed>>): Text
  {
    if s == [] then [] else PieceText(s[|s| - 1]) + Render(s[..|s| - 1])
  }

  /** The nodes of the trees still to print. */
  function PendingSize(s: seq<Piece<Printed>>): nat
  {
    if s == [] then 0 else PieceSize(s[|s| - 1]) + PendingSize(s[..|s| - 1])
  }

  lemma {:induction false} RenderPush(s: seq<Piece<Printed>>, p: Piece<Printed>)
    ensures Render(s + [p]) == PieceText(p) + Render(s)
    ensures PendingSize(s + [p]) == PieceSize(p) + PendingSize(s)
  {
    var u := s + [p];
    assert u[..|u| - 1] == s;
  }

  /** Texts i and later, each preceded by a comma except the very first. */
  function CommaSeparated(ts: seq<Text>, i: nat): Text
    requires i <= |ts|
    decreases |ts| - i
  {
    if i == |ts| then []
    else
      var u := ts[i] + CommaSeparated(ts, i + 1);
      if i > 0 then [COMMA] + u else u
  }

  lemma {:induction false} CommaSeparatedTail(ts: seq<Text>, i: nat)
    requires 0 < i < |ts|
    ensures CommaSeparated(ts, i) == [COMMA] + Join(ts[i..])
    decreases |ts| - i
  {
    if i + 1 < |ts| {
      CommaSeparatedTail(ts, i + 1);
      assert ts[i..][1..] == ts[i + 1..];
    } else {
      assert ts[i..] == [ts[i]];
    }
  }

  lemma {:induction false} CommaSeparatedJoin(ts: seq<Text>)
    ensures CommaSeparated(ts, 0) == Join(ts)
  {
    if |ts| > 1 {
      CommaSeparatedTail(ts, 1);
    }
  }

  function Texts(ps: seq<Printed>): (ts: seq<Text>)
    ensures |ts| == |ps|
    ensures forall i :: 0 <= i < |ps| ==> ts[i] == ps[i].text
  {
    if ps == [] then [] else [ps[0].text] + Texts(ps[1..])
  }

  function SizesFrom(ps: seq<Printed>, i: nat): nat
    requires i <= |ps|
    decreases |ps| - i
  {
    if i == |ps| then 0 else ps[i].size + SizesFrom(ps, i + 1)
  }

  lemma {:induction false} RenderList(s: seq<Piece<Printed>>, ps: seq<Printed>, i: nat)
    requires i <= |ps|
    ensures Render(PushList(s, ps, i)) == CommaSeparated(Texts(ps), i) + Render(s)
    ensures PendingSize(PushList(s, ps, i)) == SizesFrom(ps, i) + PendingSize(s)
    decreases |ps| - i
  {
    if i < |ps| {
      RenderList(s, ps, i + 1);
      var tail := CommaSeparated(Texts(ps), i + 1);
      var u := PushList(s, ps, i + 1);
      RenderPush(u, Pending(ps[i]));
      Assoc(ps[i].text, tail, Render(s));
      if i > 0 {
        RenderPush(u + [Pending(ps[i])], Token([COMMA]));
        Assoc([COMMA], ps[i].text + tail, Render(s));
      }
    }
  }

  function MemberTexts(ms: seq<Member<Printed>>): (ts: seq<Text>)
    ensures |ts| == |ms|
    ensures forall i :: 0 <= i < |ms| ==> ts[i] == PrintMember(Member(ms[i].key, ms[i].value.text))
  {
    if ms == [] then [] else [PrintMember(Member(ms[0].key, ms[0].value.text))] + MemberTexts(ms[1..])
  }

  function MemberSizesFrom(ms: seq<Member<Printed>>, i: nat): nat
    requires i <= |ms|
    decreases |ms| - i
  {
    if i == |ms| then 0 else ms[i].value.size + MemberSizesFrom(ms, i + 1)
  }

  lemma {:induction false} RenderMember(s: seq<Piece<Printed>>, m: Member<Printed>)
    ensures Render(PushMember(s, m)) == PrintMember(Member(m.key, m.value.text)) + Render(s)
    ensures PendingSize(PushMember(s, m)) == m.value.size + PendingSize(s)
  {
    var a := s + [Pending(m.value)];
    RenderPush(s, Pending(m.value));
    RenderPush(a, Token([COLON]));
    RenderPush(a + [Token([COLON])], Token(PrintString(m.key)));
    Assoc([COLON], m.value.text, Render(s));
    Assoc(PrintString(m.key), [COLON] + m.value.text, Render(s));
    Assoc(PrintString(m.key), [COLON], m.value.text);
  }

  lemma {:induction false} RenderMembers(s: seq<Piece<Printed>>, ms: seq<Member<Printed>>, i: nat)
    requires i <= |ms|
    ensures Render(PushMembers(s, ms, i)) == CommaSeparated(MemberTexts(ms), i) + Render(s)
    decreases |ms| - i
  {
    if i < |ms| {
      RenderMembers(s, ms, i + 1);
      var tail, t := CommaSeparated(MemberTexts(ms), i + 1), MemberTexts(ms)[i];
      var u := PushMembers(s, ms, i + 1);
      RenderMember(u, ms[i]);
      Assoc(t, tail, Render(s));
      if i > 0 {
        RenderPush(PushMember(u, ms[i]), Token([COMMA]));
        Assoc([COMMA], t + tail, Render(s));
      }
    }
  }

  lemma {:induction false} PendingMembers(s: seq<Piece<Printed>>, ms: seq<Member<Printed>>, i: nat)
    requires i <= |ms|
    ensures PendingSize(PushMembers(s, ms, i)) == MemberSizesFrom(ms, i) + PendingSize(s)
    decreases |ms| - i
  {
    if i < |ms| {
      PendingMembers(s, ms, i + 1);
      RenderMember(PushMembers(s, ms, i + 1), ms[i]);
      if i > 0 {
        RenderPush(PushMember(PushMembers(s, ms, i + 1), ms[i]), Token([COMMA]));
      }
    }
  }

  /* ---------- Stacks of values and stacks of texts ---------- */

  /** The canonical text and the size of the tree that v stands for. */
  ghost predicate Stands<N>(g: Graph<N>, v: PyValue<N>, p: Printed)
  {
    exists j :: Unfolds(g, v, j) && WellFormed(j) && p == Printed(Print(j), Size(j))
  }

  ghost predicate PieceStands<N>(g: Graph<N>, a: Piece<PyValue<N>>, b: Piece<Printed>)
  {
    match a
    case Token(t) => b == Token(t)
    case Pending(v) => b.Pending? && Stands(g, v, b.value)
  }

  ghost predicate StackStands<N>(g: Graph<N>, s: seq<Piece<PyValue<N>>>, r: seq<Piece<Printed>>)
  {
    |s| == |r| && forall i :: 0 <= i < |s| ==> PieceStands(g, s[i], r[i])
  }

  lemma {:induction false} PushListStands<N>(
      g: Graph<N>, s: seq<Piece<PyValue<N>>>, r: seq<Piece<Printed>>, xs: seq<PyValue<N>>, ps: seq<Printed>, i: nat)
    requires StackStands(g, s, r) && i <= |xs| == |ps|
    requires forall k :: 0 <= k < |xs| ==> Stands(g, xs[k], ps[k])
    ensures StackStands(g, PushList(s, xs, i), PushList(r, ps, i))
    decreases |xs| - i
  {
    if i < |xs| {
      PushListStands(g, s, r, xs, ps, i + 1);
    }
  }

  lemma {:induction false} PushMembersStands<N>(
      g: Graph<N>, s: seq<Piece<PyValue<N>>>, r: seq<Piece<Printed>>,
      ms: seq<Member<PyValue<N>>>, ps: seq<Member<Printed>>, i: nat)
    requires StackStands(g, s, r) && i <= |ms| == |ps|
    requires forall k :: 0 <= k < |ms| ==> ms[k].key == ps[k].key && Stands(g, ms[k].value, ps[k].value)
    ensures StackStands(g, PushMembers(s, ms, i), PushMembers(r, ps, i))
    decreases |ms| - i
  {
    if i < |ms| {
      PushMembersStands(g, s, r, ms, ps, i + 1);
    }
  }

  function PrintedAll(js: seq<Json>): (ps: seq<Printed>)
    requires forall i :: 0 <= i < |js| ==> WellFormed(js[i])
    ensures |ps| == |js|
    ensures forall i :: 0 <= i < |js| ==> ps[i] == Printed(Print(js[i]), Size(js[i]))
  {
    if js == [] then [] else [Printed(Print(js[0]), Size(js[0]))] + PrintedAll(js[1..])
  }

  lemma {:induction false} SizesOfPrinted(js: seq<Json>, i: nat)
    requires i <= |js| && forall k :: 0 <= k < |js| ==> WellFormed(js[k])
    ensures SizesFrom(PrintedAll(js), i) == SizeAll(js[i..])
    decreases |js| - i
  {
    if i < |js| {
      SizesOfPrinted(js, i + 1);
      assert js[i..][0] == js[i] && js[i..][1..] == js[i + 1..];
    }
  }

  lemma ListStands<N>(g: Graph<N>, c: N, p: Printed) returns (ps: seq<Printed>)
    requires c in g && g[c].List? && Stands(g, PyRef(c), p)
    ensures |ps| == |g[c].items| && forall k :: 0 <= k < |ps| ==> Stands(g, g[c].items[k], ps[k])
    ensures p == Printed([LBRACKET] + Join(Texts(ps)) + [RBRACKET], 1 + SizesFrom(ps, 0))
  {
    var j :| Unfolds(g, PyRef(c), j) && WellFormed(j) && p == Printed(Print(j), Size(j));
    ps := PrintedAll(j.items);
    assert UnfoldsAll(g, g[c].items, j, j.items);
    assert Texts(ps) == PrintAll(j.items);
    SizesOfPrinted(j.items, 0);
    assert j.items[0..] == j.items;
    forall k | 0 <= k < |ps| ensures Stands(g, g[c].items[k], ps[k]) {
      assert Unfolds(g, g[c].items[k], j.items[k]);
    }
  }

  lemma {:induction false} SizesOfSortedMembers(ms: seq<Member<Printed>>)
    ensures MemberSizesFrom(SortMembers(ms), 0) == MemberSizesFrom(ms, 0)
  {
    SumSizes(SortMembers(ms), 0);
    SumSizes(ms, 0);
    assert SortMembers(ms)[0..] == SortMembers(ms) && ms[0..] == ms;
    SizesOfSort(ms);
  }

  function MemberSizes(ms: seq<Member<Printed>>): nat
  {
    if ms == [] then 0 else ms[0].value.size + MemberSizes(ms[1..])
  }

  lemma {:induction false} SumSizes(ms: seq<Member<Printed>>, i: nat)
    requires i <= |ms|
    ensures MemberSizesFrom(ms, i) == MemberSizes(ms[i..])
    decreases |ms| - i
  {
    if i < |ms| {
      SumSizes(ms, i + 1);
      assert ms[i..][1..] == ms[i + 1..];
    }
  }

  lemma {:induction false} SizesOfInsert(m: Member<Printed>, ms: seq<Member<Printed>>)
    ensures MemberSizes(Insert(m, ms, MemberKey)) == m.value.size + MemberSizes(ms)
  {
    if ms != [] && !Leq(MemberKey(m), MemberKey(ms[0])) {
      SizesOfInsert(m, ms[1..]);
    }
  }

  lemma {:induction false} SizesOfSort(ms: seq<Member<Printed>>)
    ensures MemberSizes(Sort(ms, MemberKey)) == MemberSizes(ms)
  {
    if ms != [] {
      SizesOfSort(ms[1..]);
      SizesOfInsert(ms[0], Sort(ms[1..], MemberKey));
    }
  }

  lemma {:induction false} SizesOfMembers(ms: seq<Member<Printed>>, ps: seq<Printed>, i: nat)
    requires i <= |ps| == |ms| && forall k :: 0 <= k < |ps| ==> ms[k].value == ps[k]
    ensures MemberSizesFrom(ms, i) == SizesFrom(ps, i)
    decreases |ps| - i
  {
    if i < |ps| {
      SizesOfMembers(ms, ps, i + 1);
    }
  }

  lemma {:induction false} SizesOfZip(keys: seq<Text>, ps: seq<Printed>, i: nat)
    requires i <= |ps| == |keys|
    ensures MemberSizesFrom(Zip(keys, ps), i) == SizesFrom(ps, i)
  {
    SizesOfMembers(Zip(keys, ps), ps, i);
  }

  /** Printing the sorted members of an object is joining the texts of its sorted printed members. */
  lemma {:induction false} ObjectPrinted(keys: seq<Text>, ts: seq<Text>, ps: seq<Printed>)
    requires |keys| == |ts| == |ps| && forall i :: 0 <= i < |ps| ==> ps[i].text == ts[i]
    ensures MemberTexts(SortMembers(Zip(keys, ps))) == Map(PrintMember, SortMembers(Zip(keys, ts)))
  {
    var a, b := SortMembers(Zip(keys, ps)), SortMembers(Zip(keys, ts));
    forall i | 0 <= i < |keys| ensures MemberTexts(a)[i] == Map(PrintMember, b)[i] {
      SortTogether(keys, ps, ts, i);
    }
  }

  lemma {:induction false} ObjectStands(j: Json)
    requires j.Obj? && WellFormed(j)
    ensures var ps := SortMembers(Zip(j.keys, PrintedAll(j.items)));
      Printed(Print(j), Size(j)) == Printed([LBRACE] + Join(MemberTexts(ps)) + [RBRACE], 1 + MemberSizesFrom(ps, 0))
  {
    var qs := PrintedAll(j.items);
    ObjectPrinted(j.keys, PrintAll(j.items), qs);
    SizesOfPrinted(j.items, 0);
    assert j.items[0..] == j.items;
    SizesOfZip(j.keys, qs, 0);
    SizesOfSortedMembers(Zip(j.keys, qs));
  }

  lemma DictTree<N>(g: Graph<N>, c: N, p: Printed) returns (j: Json)
    requires c in g && g[c].Dict? && Stands(g, PyRef(c), p)
    ensures j.Obj? && WellFormed(j) && p == Printed(Print(j), Size(j))
    ensures AllStrings(g[c].keys) && j.keys == KeyTexts(g[c].keys) && |j.keys| == |j.items| == |g[c].items|
    ensures forall k :: 0 <= k < |j.items| ==> Unfolds(g, g[c].items[k], j.items[k])
  {
    j :| Unfolds(g, PyRef(c), j) && WellFormed(j) && p == Printed(Print(j), Size(j));
    assert UnfoldsAll(g, g[c].items, j, j.items);
  }

  lemma {:induction false} SortedMemberStands<N>(
      g: Graph<N>, keys: seq<Text>, items: seq<PyValue<N>>, js: seq<Json>, k: int)
    requires |keys| == |items| == |js| && 0 <= k < |keys|
    requires forall i :: 0 <= i < |js| ==> WellFormed(js[i]) && Unfolds(g, items[i], js[i])
    ensures var m, p := SortMembers(Zip(keys, items))[k], SortMembers(Zip(keys, PrintedAll(js)))[k];
      m.key == p.key && Stands(g, m.value, p.value)
  {
    var qs := PrintedAll(js);
    SortTogether(keys, items, qs, k);
    var m, p := SortMembers(Zip(keys, items))[k], SortMembers(Zip(keys, qs))[k];
    var i :| 0 <= i < |keys| && m == Member(keys[i], items[i]) && p == Member(keys[i], qs[i]);
  }

  /** The members ms stand for ps, and ps are the members of an object printed as p. */
  ghost predicate MembersStand<N>(g: Graph<N>, ms: seq<Member<PyValue<N>>>, ps: seq<Member<Printed>>, p: Printed)
  {
    |ps| == |ms| && (forall k :: 0 <= k < |ps| ==> ms[k].key == ps[k].key && Stands(g, ms[k].value, ps[k].value)) &&
    p.text == [LBRACE] + Join(MemberTexts(ps)) + [RBRACE] && p.size == 1 + MemberSizesFrom(ps, 0)
  }

  /** The sorted members of a dict stand for the texts whose join is the text of the dict. */
  lemma DictStands<N>(g: Graph<N>, c: N, p: Printed, ms: seq<Member<PyValue<N>>>) returns (ps: seq<Member<Printed>>)
    requires c in g && g[c].Dict? && Stands(g, PyRef(c), p)
    requires AllStrings(g[c].keys) && |g[c].keys| == |g[c].items|
    requires ms == SortMembers(Zip(KeyTexts(g[c].keys), g[c].items))
    ensures MembersStand(g, ms, ps, p)
  {
    var j := DictTree(g, c, p);
    ps := SortMembers(Zip(j.keys, PrintedAll(j.items)));
    ObjectStands(j);
    forall k | 0 <= k < |ps| ensures ms[k].key == ps[k].key && Stands(g, ms[k].value, ps[k].value) {
      SortedMemberStands(g, j.keys, g[c].items, j.items, k);
    }
  }

  /* ---------- The printing loop ---------- */

  /** `"".join(fragments)` */
  function Concat(fragments: seq<Text>): Text
  {
    if fragments == [] then [] else Concat(fragments[..|fragments| - 1]) + fragments[|fragments| - 1]
  }

  lemma {:induction false} ConcatPush(fragments: seq<Text>, t: Text, rest: Text)
    ensures Concat(fragments + [t]) + rest == Concat(fragments) + (t + rest)
  {
    var fs := fragments + [t];
    assert fs[..|fs| - 1] == fragments;
    Assoc(Concat(fragments), t, rest);
  }

  /** The text of a value that is not a container. */
  function ScalarText<N>(v: PyValue<N>): Text
    requires !v.PyRef?
  {
    match v
    case PyBool(b) => if b then TRUE_TEXT else FALSE_TEXT
    case PyInt(n) => PrintInt(n)
    case PyFloat(Finite(repr)) => repr
    case PyStr(t) => PrintString(t)
    case _ => NULL_TEXT
  }

  lemma ScalarStands<N>(g: Graph<N>, v: PyValue<N>, p: Printed)
    requires !v.PyRef? && Stands(g, v, p)
    ensures p == Printed(ScalarText(v), 1)
  {
  }

  /** What every turn of the printing loop keeps: what is printed and what is pending make the text. */
  ghost predicate Printing<N>(
      g: Graph<N>, stack: seq<Piece<PyValue<N>>>, r: seq<Piece<Printed>>, done: seq<Text>, text: Text)
  {
    StackStands(g, stack, r) && Concat(done) + Render(r) == text
  }

  /** Emitting the text on top of the stack. */
  lemma {:induction false} EmitKeeps<N>(
      g: Graph<N>, stack: seq<Piece<PyValue<N>>>, r: seq<Piece<Printed>>, done: seq<Text>, text: Text, t: Text)
    requires Printing(g, stack, r, done, text) && stack != []
    requires PieceText(r[|r| - 1]) == t
    ensures Printing(g, stack[..|stack| - 1], r[..|r| - 1], done + [t], text)
    ensures PendingSize(r) == PieceSize(r[|r| - 1]) + PendingSize(r[..|r| - 1])
  {
    ConcatPush(done, t, Render(r[..|r| - 1]));
  }

  /** The texts on a stack after a list is replaced by its brackets and elements. */
  lemma {:induction false} RenderBrackets(r: seq<Piece<Printed>>, ps: seq<Printed>, t: Text)
    requires t == [LBRACKET] + Join(Texts(ps)) + [RBRACKET]
    ensures var r' := PushList(r + [Token([RBRACKET])], ps, 0) + [Token([LBRACKET])];
      Render(r') == t + Render(r) && PendingSize(r') == SizesFrom(ps, 0) + PendingSize(r)
  {
    var a := r + [Token([RBRACKET])];
    RenderPush(r, Token([RBRACKET]));
    RenderList(a, ps, 0);
    CommaSeparatedJoin(Texts(ps));
    RenderPush(PushList(a, ps, 0), Token([LBRACKET]));
    Assoc([LBRACKET] + Join(Texts(ps)), [RBRACKET], Render(r));
    Assoc([LBRACKET], Join(Texts(ps)), [RBRACKET] + Render(r));
  }

  lemma {:induction false} RenderBraces(r: seq<Piece<Printed>>, ps: seq<Member<Printed>>, t: Text)
    requires t == [LBRACE] + Join(MemberTexts(ps)) + [RBRACE]
    ensures var r' := PushMembers(r + [Token([RBRACE])], ps, 0) + [Token([LBRACE])];
      Render(r') == t + Render(r) && PendingSize(r') == MemberSizesFrom(ps, 0) + PendingSize(r)
  {
    var a := r + [Token([RBRACE])];
    RenderPush(r, Token([RBRACE]));
    RenderMembers(a, ps, 0);
    PendingMembers(a, ps, 0);
    CommaSeparatedJoin(MemberTexts(ps));
    RenderPush(PushMembers(a, ps, 0), Token([LBRACE]));
    Assoc([LBRACE] + Join(MemberTexts(ps)), [RBRACE], Render(r));
    Assoc([LBRACE], Join(MemberTexts(ps)), [RBRACE] + Render(r));
  }

  lemma ListKeeps<N>(
      g: Graph<N>, stack: seq<Piece<PyValue<N>>>, r: seq<Piece<Printed>>, done: seq<Text>, text: Text, c: N)
      returns (r': seq<Piece<Printed>>)
    requires Printing(g, stack, r, done, text) && stack != [] && stack[|stack| - 1] == Pending(PyRef(c))
    requires c in g && g[c].List?
    ensures Printing(g, PushList(stack[..|stack| - 1] + [Token([RBRACKET])], g[c].items, 0) + [Token([LBRACKET])],
                     r', done, text)
    ensures PendingSize(r') < PendingSize(r)
  {
    var n := |stack| - 1;
    assert PieceStands(g, stack[n], r[n]);
    var ps := ListStands(g, c, r[n].value);
    var s0, r0 := stack[..n] + [Token([RBRACKET])], r[..n] + [Token([RBRACKET])];
    PushTokenStands(g, stack[..n], r[..n], [RBRACKET]);
    PushListStands(g, s0, r0, g[c].items, ps, 0);
    PushTokenStands(g, PushList(s0, g[c].items, 0), PushList(r0, ps, 0), [LBRACKET]);
    r' := PushList(r0, ps, 0) + [Token([LBRACKET])];
    RenderBrackets(r[..n], ps, r[n].value.text);
  }

  lemma PushTokenStands<N>(g: Graph<N>, s: seq<Piece<PyValue<N>>>, r: seq<Piece<Printed>>, t: Text)
    requires StackStands(g, s, r)
    ensures StackStands(g, s + [Token(t)], r + [Token(t)])
  {
  }

  lemma MembersKeep<N>(
      g: Graph<N>, stack: seq<Piece<PyValue<N>>>, r: seq<Piece<Printed>>, done: seq<Text>, text: Text,
      ms: seq<Member<PyValue<N>>>, ps: seq<Member<Printed>>)
      returns (r': seq<Piece<Printed>>)
    requires Printing(g, stack, r, done, text) && stack != [] && r[|r| - 1].Pending?
    requires MembersStand(g, ms, ps, r[|r| - 1].value)
    ensures Printing(g, PushMembers(stack[..|stack| - 1] + [Token([RBRACE])], ms, 0) + [Token([LBRACE])],
                     r', done, text)
    ensures PendingSize(r') < PendingSize(r)
  {
    var n := |stack| - 1;
    var s0, r0 := stack[..n] + [Token([RBRACE])], r[..n] + [Token([RBRACE])];
    PushTokenStands(g, stack[..n], r[..n], [RBRACE]);
    PushMembersStands(g, s0, r0, ms, ps, 0);
    PushTokenStands(g, PushMembers(s0, ms, 0), PushMembers(r0, ps, 0), [LBRACE]);
    r' := PushMembers(r0, ps, 0) + [Token([LBRACE])];
    RenderBraces(r[..n], ps, r[n].value.text);
    assert Render(r) == r[n].value.text + Render(r[..n]);
    assert PendingSize(r) == r[n].value.size + PendingSize(r[..n]);
  }

  lemma DictKeeps<N>(
      g: Graph<N>, stack: seq<Piece<PyValue<N>>>, r: seq<Piece<Printed>>, done: seq<Text>, text: Text, c: N,
      ms: seq<Member<PyValue<N>>>)
      returns (r': seq<Piece<Printed>>)
    requires Printing(g, stack, r, done, text) && stack != [] && stack[|stack| - 1] == Pending(PyRef(c))
    requires c in g && g[c].Dict? && AllStrings(g[c].keys) && |g[c].keys| == |g[c].items|
    requires ms == SortMembers(Zip(KeyTexts(g[c].keys), g[c].items))
    ensures Printing(g, PushMembers(stack[..|stack| - 1] + [Token([RBRACE])], ms, 0) + [Token([LBRACE])],
                     r', done, text)
    ensures PendingSize(r') < PendingSize(r)
  {
    var n := |stack| - 1;
    assert PieceStands(g, stack[n], r[n]);
    var ps := DictStands(g, c, r[n].value, ms);
    r' := MembersKeep(g, stack, r, done, text, ms, ps);
  }

  lemma DictKeysAreStrings<N>(g: Graph<N>, stack: seq<Piece<PyValue<N>>>, r: seq<Piece<Printed>>, c: N)
    requires StackStands(g, stack, r) && stack != [] && stack[|stack| - 1] == Pending(PyRef(c))
    ensures c in g && (g[c].Dict? ==> AllStrings(g[c].keys) && |g[c].keys| == |g[c].items|)
  {
    var n := |stack| - 1;
    assert PieceStands(g, stack[n], r[n]);
    if g[c].Dict? {
      var j := DictTree(g, c, r[n].value);
    }
  }

  lemma PrintingOne<N>(g: Graph<N>, v: PyValue<N>, p: Printed)
    requires Stands(g, v, p)
    ensures Printing(g, [Pending(v)], [Pending(p)], [], p.text)
  {
    RenderPush([], Pending(p));
    assert [] + [Pending(p)] == [Pending(p)];
  }

  lemma PrintingStarts<N>(g: Graph<N>, v: PyValue<N>) returns (p: Printed)
    requires Closed(g) && Known(g, v) && Visit(g, v, 0, {}, Tally(0, 0)).Pass?
    ensures Printing(g, [Pending(v)], [Pending(p)], [], p.text)
    ensures forall j :: Unfolds(g, v, j) ==> WellFormed(j) && Print(j) == p.text
  {
    var j := PassAccounts(g, v, 0, {}, Tally(0, 0));
    UnfoldingWellFormed(g, v, j);
    p := Printed(Print(j), Size(j));
    PrintingOne(g, v, p);
    forall k | Unfolds(g, v, k) ensures WellFormed(k) && Print(k) == p.text {
      UnfoldsUnique(g, v, j, k);
    }
  }

  datatype Canonical = Canonical(text: Text) | Invalid(fault: Fault)

  /** The printing loop emits the canonical text of the tree, or reports the validator's fault. */
  method Canonicalize(value: Value, ghost g: Graph<Container>) returns (r: Canonical)
    requires Reaches(g, value)
    ensures var verdict := Visit(g, value, 0, {}, Tally(0, 0));
      verdict.Fail? ==> r == Invalid(verdict.fault)
    ensures forall j :: Unfolds(g, value, j) && WithinBounds(j) ==>
      WellFormed(j) && r == Canonical(Print(j))
  {
    var verdict := Validate(value, g);
    if verdict.Fail? {
      return Invalid(verdict.fault);
    }
    ghost var p := PrintingStarts(g, value);
    ghost var text := p.text;
    var stack: seq<Piece<Value>> := [Pending(value)];
    ghost var pending: seq<Piece<Printed>> := [Pending(p)];
    var fragments: seq<Text> := [];
    while stack != []
      invariant Printing(g, stack, pending, fragments, text)
      decreases PendingSize(pending), |stack|
    {
      var current := stack[|stack| - 1];
      ghost var before := stack;
      assert PieceStands(g, current, pending[|pending| - 1]);
      stack := stack[..|stack| - 1];
      if current.Token? {
        EmitKeeps(g, before, pending, fragments, text, current.text);
        pending := pending[..|pending| - 1];
        fragments := fragments + [current.text];
      } else if !current.value.PyRef? {
        ScalarStands(g, current.value, pending[|pending| - 1].value);
        EmitKeeps(g, before, pending, fragments, text, ScalarText(current.value));
        pending := pending[..|pending| - 1];
        fragments := fragments + [ScalarText(current.value)];
      } else {
        var c := current.value.node;
        DictKeysAreStrings(g, before, pending, c);
        var body := c.body;
        assert body == g[c];
        if body.List? {
          pending := ListKeeps(g, before, pending, fragments, text, c);
          stack := PushElements(stack + [Token([RBRACKET])], body.items);
          stack := stack + [Token([LBRACKET])];
        } else {
          var items := SortMembers(Zip(KeyTexts(body.keys), body.items));
          pending := DictKeeps(g, before, pending, fragments, text, c, items);
          stack := PushSortedMembers(stack + [Token([RBRACE])], items);
          stack := stack + [Token([LBRACE])];
        }
      }
    }
    r := Canonical(Concat(fragments));
  }

  method PushElements<T>(base: seq<Piece<T>>, xs: seq<T>) returns (stack: seq<Piece<T>>)
    ensures stack == PushList(base, xs, 0)
  {
    stack := base;
    var index := |xs|;
    while index > 0
      invariant 0 <= index <= |xs|
      invariant stack == PushList(base, xs, index)
    {
      index := index - 1;
      stack := stack + [Pending(xs[index])];
      if index > 0 {
        stack := stack + [Token([COMMA])];
      }
    }
  }

  method PushSortedMembers<T>(base: seq<Piece<T>>, ms: seq<Member<T>>) returns (stack: seq<Piece<T>>)
    ensures stack == PushMembers(base, ms, 0)
  {
    stack := base;
    var index := |ms|;
    while index > 0
      invariant 0 <= index <= |ms|
      invariant stack == PushMembers(base, ms, index)
    {
      index := index - 1;
      stack := stack + [Pending(ms[index].value)];
      stack := stack + [Token([COLON])];
      stack := stack + [Token(PrintString(ms[index].key))];
      if index > 0 {
        stack := stack + [Token([COMMA])];
      }
    }
  }
}
