/**
 `copy_json`: the copy of a JSON value is built in freshly allocated lists and dicts, one for every
 position of the tree, by a loop over pairs of a copy still empty and the container it copies.
 */
module JsonCopy {
  import opened JsonTree
  import opened JsonGraph
  import opened JsonGraphProofs
  import opened JsonEngine

  /* ---------- Sharing ---------- */

  /** No container is held in two places, and none holds the root. */
  ghost predicate Unshared<N>(g: Graph<N>, root: N)
  {
    (forall b, c, i, k ::
      (b in g && c in g && 0 <= i < |g[b].items| && 0 <= k < |g[c].items| &&
       g[b].items[i].PyRef? && g[b].items[i] == g[c].items[k]) ==> b == c && i == k) &&
    forall c, i :: c in g && 0 <= i < |g[c].items| ==> g[c].items[i] != PyRef(root)
  }

  /** Every reference held in the graph leads to a node of the graph. */
  ghost predicate Confined<N>(g: Graph<N>)
  {
    forall c, i :: c in g && 0 <= i < |g[c].items| ==> Known(g, g[c].items[i])
  }

  /** The value reached from c along a path of positions. */
  ghost function Follow<N>(g: Graph<N>, c: N, path: seq<nat>): PyValue<N>
  {
    if path == [] then PyRef(c)
    else
      match Follow(g, c, path[..|path| - 1])
      case PyRef(b) =>
        if b in g && path[|path| - 1] < |g[b].items| then g[b].items[path[|path| - 1]] else PyOther
      case _ => PyOther
  }

  /** In an unshared graph, different paths from the root lead to different containers. */
  lemma {:induction false} PathsDistinct<N>(g: Graph<N>, root: N, p: seq<nat>, q: seq<nat>)
    requires Unshared(g, root)
    requires Follow(g, root, p).PyRef? && Follow(g, root, p) == Follow(g, root, q)
    ensures p == q
    decreases |p|
  {
    if p != [] && q != [] {
      var p', q' := p[..|p| - 1], q[..|q| - 1];
      var b, c := Follow(g, root, p').node, Follow(g, root, q').node;
      var i, k := p[|p| - 1], q[|q| - 1];
      assert g[b].items[i] == g[c].items[k];
      PathsDistinct(g, root, p', q');
      assert p == p' + [i] && q == q' + [k];
    }
  }

  /* ---------- The state of the copying loop ---------- */

  /** A new, empty container of the same kind. */
  function EmptyLike<N>(b: Body<N>): Body<N>
  {
    if b.List? then List([]) else Dict([], [])
  }

  /** `target[key] = v`: a key that is there keeps its place, a new one goes last. */
  function Store<N>(keys: seq<PyKey>, items: seq<PyValue<N>>, key: PyKey, v: PyValue<N>): Body<N>
    requires |keys| == |items|
  {
    var i := IndexOf(keys, key);
    if i < |keys| then Dict(keys, items[i := v]) else Dict(keys + [key], items + [v])
  }

  function IndexOf(keys: seq<PyKey>, key: PyKey): (i: nat)
    ensures i <= |keys|
    ensures i < |keys| ==> keys[i] == key
    ensures i == |keys| ==> key !in keys
  {
    if keys == [] || keys[0] == key then 0 else 1 + IndexOf(keys[1..], key)
  }

  /** Adding a member at the end of a container. */
  function Appended<N>(b: Body<N>, key: PyKey, v: PyValue<N>): Body<N>
  {
    match b
    case List(items) => List(items + [v])
    case Dict(keys, items) => Dict(keys + [key], items + [v])
  }

  /** A copy still to fill, and the container it copies. */
  datatype Job<N> = Job(target: N, source: N)

  ghost predicate IsTarget<N>(stack: seq<Job<N>>, c: N)
  {
    exists i :: 0 <= i < |stack| && stack[i].target == c
  }

  /** v holds the tree x: a scalar of that value, or a copy planned to become x. */
  ghost predicate Holds<N>(g: Graph<N>, plan: map<N, Json>, v: PyValue<N>, x: Json)
  {
    if v.PyRef? then v.node in plan && plan[v.node] == x else Unfolds(g, v, x)
  }

  /** The copy c holds the first n members of the tree it is planned to become. */
  ghost predicate Placed<N>(g: Graph<N>, made: Graph<N>, plan: map<N, Json>, c: N, n: nat)
  {
    c in made && c in plan && (plan[c].Arr? || plan[c].Obj?) && n <= |plan[c].items| &&
    |made[c].items| == n && (made[c].List? <==> plan[c].Arr?) &&
    (plan[c].Obj? ==> |plan[c].keys| == |plan[c].items| && |made[c].keys| == n) &&
    (plan[c].Obj? ==> forall i :: 0 <= i < n ==> made[c].keys[i] == StrKey(plan[c].keys[i])) &&
    forall i :: 0 <= i < n ==> Holds(g, plan, made[c].items[i], plan[c].items[i])
  }

  /** The copy c holds all the members planned for it. */
  ghost predicate Complete<N>(g: Graph<N>, made: Graph<N>, plan: map<N, Json>, c: N)
  {
    c in plan && (plan[c].Arr? || plan[c].Obj?) && Placed(g, made, plan, c, |plan[c].items|)
  }

  /** The job's source stands for the tree planned for its target, which is still empty. */
  ghost predicate JobOk<N>(g: Graph<N>, made: Graph<N>, plan: map<N, Json>, job: Job<N>)
  {
    job.target in made && job.target in plan && job.source in g &&
    Unfolds(g, PyRef(job.source), plan[job.target]) && made[job.target] == EmptyLike(g[job.source])
  }

  ghost predicate JobsOk<N>(g: Graph<N>, made: Graph<N>, plan: map<N, Json>, stack: seq<Job<N>>)
  {
    (forall i :: 0 <= i < |stack| ==> JobOk(g, made, plan, stack[i])) &&
    forall i, k :: 0 <= i < k < |stack| ==> stack[i].target != stack[k].target
  }

  /** Every copy that is not a target, and not t, holds all the members planned for it. */
  ghost predicate OthersComplete<N>(
      g: Graph<N>, made: Graph<N>, plan: map<N, Json>, stack: seq<Job<N>>, t: set<N>)
  {
    made.Keys == plan.Keys &&
    forall c :: c in made && c !in t && !IsTarget(stack, c) ==> Complete(g, made, plan, c)
  }

  /** What the outer loop keeps. */
  ghost predicate CopyState<N>(g: Graph<N>, made: Graph<N>, plan: map<N, Json>, stack: seq<Job<N>>, root: N)
  {
    root in made && Confined(made) && Unshared(made, root) && JobsOk(g, made, plan, stack) &&
    OthersComplete(g, made, plan, stack, {})
  }

  /** What the inner loop keeps while it copies member n and later of job.source. */
  ghost predicate Filling<N>(
      g: Graph<N>, made: Graph<N>, plan: map<N, Json>, stack: seq<Job<N>>, root: N, job: Job<N>, n: nat)
  {
    root in made && Confined(made) && Unshared(made, root) && JobsOk(g, made, plan, stack) &&
    OthersComplete(g, made, plan, stack, {job.target}) &&
    !IsTarget(stack, job.target) && Placed(g, made, plan, job.target, n) &&
    job.source in g && Unfolds(g, PyRef(job.source), plan[job.target])
  }

  lemma PopTarget<N>(stack: seq<Job<N>>, c: N)
    requires stack != []
    ensures IsTarget(stack, c) <==> IsTarget(stack[..|stack| - 1], c) || c == stack[|stack| - 1].target
  {
    var n := |stack| - 1;
    if i :| 0 <= i < |stack| && stack[i].target == c && i < n {
      assert stack[..n][i].target == c;
    }
    if i :| 0 <= i < n && stack[..n][i].target == c {
      assert stack[i].target == c;
    }
  }

  lemma PopJobs<N>(g: Graph<N>, made: Graph<N>, plan: map<N, Json>, stack: seq<Job<N>>)
    requires JobsOk(g, made, plan, stack) && stack != []
    ensures JobsOk(g, made, plan, stack[..|stack| - 1])
    ensures JobOk(g, made, plan, stack[|stack| - 1])
    ensures !IsTarget(stack[..|stack| - 1], stack[|stack| - 1].target)
  {
  }

  lemma PopOthers<N>(g: Graph<N>, made: Graph<N>, plan: map<N, Json>, stack: seq<Job<N>>)
    requires OthersComplete(g, made, plan, stack, {}) && stack != []
    ensures OthersComplete(g, made, plan, stack[..|stack| - 1], {stack[|stack| - 1].target})
  {
    var n := |stack| - 1;
    forall c | c in made && c != stack[n].target && !IsTarget(stack[..n], c) ensures Complete(g, made, plan, c) {
      PopTarget(stack, c);
    }
  }

  lemma EmptyPlaced<N>(g: Graph<N>, made: Graph<N>, plan: map<N, Json>, job: Job<N>)
    requires Closed(g) && JobOk(g, made, plan, job)
    ensures Placed(g, made, plan, job.target, 0)
  {
    var j := plan[job.target];
    assert UnfoldsAll(g, g[job.source].items, j, j.items);
  }

  lemma PopJob<N>(g: Graph<N>, made: Graph<N>, plan: map<N, Json>, stack: seq<Job<N>>, root: N)
    requires Closed(g) && CopyState(g, made, plan, stack, root) && stack != []
    ensures Filling(g, made, plan, stack[..|stack| - 1], root, stack[|stack| - 1], 0)
  {
    PopJobs(g, made, plan, stack);
    PopOthers(g, made, plan, stack);
    EmptyPlaced(g, made, plan, stack[|stack| - 1]);
  }

  lemma FinishJob<N>(
      g: Graph<N>, made: Graph<N>, plan: map<N, Json>, stack: seq<Job<N>>, root: N, job: Job<N>)
    requires job.target in plan && (plan[job.target].Arr? || plan[job.target].Obj?)
    requires Filling(g, made, plan, stack, root, job, |plan[job.target].items|)
    ensures CopyState(g, made, plan, stack, root)
  {
  }

  /** Putting into t a scalar, or a container that nothing holds yet, shares nothing. */
  lemma AppendUnshared<N>(made: Graph<N>, root: N, t: N, b: Body<N>, v: PyValue<N>)
    requires Unshared(made, root) && Confined(made) && t in made && b.items == made[t].items + [v]
    requires v.PyRef? ==> v.node in made && v.node != root
    requires v.PyRef? ==> forall c, i :: c in made && 0 <= i < |made[c].items| ==> made[c].items[i] != v
    ensures Unshared(made[t := b], root) && Confined(made[t := b])
  {
  }

  lemma NewUnshared<N>(made: Graph<N>, root: N, child: N, b: Body<N>)
    requires Unshared(made, root) && Confined(made) && child !in made && b.items == []
    ensures Unshared(made[child := b], root) && Confined(made[child := b])
    ensures forall c, i :: c in made && 0 <= i < |made[c].items| ==> made[c].items[i] != PyRef(child)
  {
  }

  /* ---------- Placing one member ---------- */

  /** Changing only t, and planning more copies, keeps the other jobs and the finished copies. */
  ghost predicate Extends<N>(made: Graph<N>, plan: map<N, Json>, made': Graph<N>, plan': map<N, Json>, t: N)
  {
    made.Keys <= made'.Keys && plan.Keys <= plan'.Keys && t in made &&
    (forall c :: c in made && c != t ==> made'[c] == made[c]) &&
    forall c :: c in plan ==> plan'[c] == plan[c]
  }

  lemma JobsExtend<N>(
      g: Graph<N>, made: Graph<N>, plan: map<N, Json>, made': Graph<N>, plan': map<N, Json>, stack: seq<Job<N>>, t: N)
    requires JobsOk(g, made, plan, stack) && !IsTarget(stack, t) && Extends(made, plan, made', plan', t)
    ensures JobsOk(g, made', plan', stack)
  {
  }

  lemma CompleteExtends<N>(
      g: Graph<N>, made: Graph<N>, plan: map<N, Json>, made': Graph<N>, plan': map<N, Json>, t: N, c: N)
    requires Complete(g, made, plan, c) && c != t && Extends(made, plan, made', plan', t)
    ensures Complete(g, made', plan', c)
  {
    forall i | 0 <= i < |made[c].items| ensures Holds(g, plan', made'[c].items[i], plan'[c].items[i]) {
      assert Holds(g, plan, made[c].items[i], plan[c].items[i]);
    }
  }

  lemma OthersExtend<N>(
      g: Graph<N>, made: Graph<N>, plan: map<N, Json>, made': Graph<N>, plan': map<N, Json>,
      stack: seq<Job<N>>, stack': seq<Job<N>>, t: N)
    requires OthersComplete(g, made, plan, stack, {t}) && Extends(made, plan, made', plan', t)
    requires made'.Keys == plan'.Keys
    requires forall c :: c in made' ==> IsTarget(stack', c) || (c in made && !IsTarget(stack, c))
    ensures OthersComplete(g, made', plan', stack', {t})
  {
    forall c | c in made' && c != t && !IsTarget(stack', c) ensures Complete(g, made', plan', c) {
      CompleteExtends(g, made, plan, made', plan', t, c);
    }
  }

  /** The member that job.source has at n, when its copy holds the first n. */
  lemma {:induction false} NextMember<N>(
      g: Graph<N>, made: Graph<N>, plan: map<N, Json>, stack: seq<Job<N>>, root: N, job: Job<N>, n: nat)
    requires Closed(g) && Filling(g, made, plan, stack, root, job, n) && n < |plan[job.target].items|
    ensures n < |g[job.source].items| && Known(g, g[job.source].items[n])
    ensures Unfolds(g, g[job.source].items[n], plan[job.target].items[n])
    ensures g[job.source].List? <==> made[job.target].List?
    ensures g[job.source].Dict? ==> n < |g[job.source].keys| && |made[job.target].keys| == |made[job.target].items|
    ensures g[job.source].Dict? ==> g[job.source].keys[n] == StrKey(plan[job.target].keys[n])
    ensures g[job.source].Dict? ==> g[job.source].keys[n] !in made[job.target].keys
  {
    var j := plan[job.target];
    assert UnfoldsAll(g, g[job.source].items, j, j.items);
    if g[job.source].Dict? {
      var keys := g[job.source].keys;
      assert forall i :: 0 <= i < n ==> keys[i] == StrKey(j.keys[i]) && keys[i] != keys[n];
    }
  }

  /** t holds one member more. */
  lemma PlacedNext<N>(
      g: Graph<N>, made: Graph<N>, plan: map<N, Json>, made': Graph<N>, plan': map<N, Json>,
      t: N, n: nat, key: PyKey, v: PyValue<N>)
    requires Placed(g, made, plan, t, n) && Extends(made, plan, made', plan', t) && n < |plan[t].items|
    requires made'[t] == Appended(made[t], key, v) && Holds(g, plan', v, plan[t].items[n])
    requires plan[t].Obj? ==> key == StrKey(plan[t].keys[n])
    ensures Placed(g, made', plan', t, n + 1)
  {
    forall i | 0 <= i < n + 1 ensures Holds(g, plan', made'[t].items[i], plan'[t].items[i]) {
      if i < n {
        assert Holds(g, plan, made[t].items[i], plan[t].items[i]);
      }
    }
  }

  /** Copying a scalar member. */
  lemma {:induction false} PlaceScalar<N>(
      g: Graph<N>, made: Graph<N>, plan: map<N, Json>, stack: seq<Job<N>>, root: N, job: Job<N>, n: nat,
      key: PyKey, v: PyValue<N>)
    requires Closed(g) && Filling(g, made, plan, stack, root, job, n) && n < |plan[job.target].items|
    requires plan[job.target].Obj? ==> key == StrKey(plan[job.target].keys[n])
    requires !v.PyRef? && Unfolds(g, v, plan[job.target].items[n])
    ensures Filling(g, made[job.target := Appended(made[job.target], key, v)], plan, stack, root, job, n + 1)
  {
    var t := job.target;
    var made' := made[t := Appended(made[t], key, v)];
    AppendUnshared(made, root, t, made'[t], v);
    JobsExtend(g, made, plan, made', plan, stack, t);
    OthersExtend(g, made, plan, made', plan, stack, stack, t);
    PlacedNext(g, made, plan, made', plan, t, n, key, v);
  }

  lemma PushJobs<N>(g: Graph<N>, made: Graph<N>, plan: map<N, Json>, stack: seq<Job<N>>, job: Job<N>)
    requires JobsOk(g, made, plan, stack) && JobOk(g, made, plan, job) && !IsTarget(stack, job.target)
    ensures JobsOk(g, made, plan, stack + [job])
    ensures forall c :: IsTarget(stack + [job], c) <==> IsTarget(stack, c) || c == job.target
  {
    forall c ensures IsTarget(stack + [job], c) <==> IsTarget(stack, c) || c == job.target {
      PopTarget(stack + [job], c);
      assert (stack + [job])[..|stack + [job]| - 1] == stack;
    }
  }

  /** Copying a container member: a new empty copy is placed, and a job to fill it is pushed. */
  lemma {:induction false} PlaceChild<N>(
      g: Graph<N>, made: Graph<N>, plan: map<N, Json>, stack: seq<Job<N>>, root: N, job: Job<N>, n: nat,
      key: PyKey, d: N, child: N)
    requires Closed(g) && Filling(g, made, plan, stack, root, job, n) && n < |plan[job.target].items|
    requires plan[job.target].Obj? ==> key == StrKey(plan[job.target].keys[n])
    requires d in g && Unfolds(g, PyRef(d), plan[job.target].items[n]) && child !in made
    ensures var made' := made[child := EmptyLike(g[d])][job.target := Appended(made[job.target], key, PyRef(child))];
      Filling(g, made', plan[child := plan[job.target].items[n]], stack + [Job(child, d)], root, job, n + 1)
  {
    var t := job.target;
    var made1 := made[child := EmptyLike(g[d])];
    var made' := made1[t := Appended(made[t], key, PyRef(child))];
    var plan' := plan[child := plan[t].items[n]];
    NewUnshared(made, root, child, EmptyLike(g[d]));
    AppendUnshared(made1, root, t, made'[t], PyRef(child));
    assert child !in plan && Extends(made, plan, made', plan', t);
    JobsExtend(g, made, plan, made', plan', stack, t);
    assert !IsTarget(stack, child);
    PushJobs(g, made', plan', stack, Job(child, d));
    OthersExtend(g, made, plan, made', plan', stack, stack + [Job(child, d)], t);
    PlacedNext(g, made, plan, made', plan', t, n, key, PyRef(child));
  }

  /** When no job is left, every copy stands for the tree planned for it. */
  lemma {:induction false} CompleteUnfolds<N>(g: Graph<N>, made: Graph<N>, plan: map<N, Json>, c: N)
    requires OthersComplete(g, made, plan, [], {}) && c in made
    ensures Unfolds(made, PyRef(c), plan[c])
    decreases plan[c]
  {
    assert Complete(g, made, plan, c);
    var j := plan[c];
    forall i | 0 <= i < |j.items| ensures Unfolds(made, made[c].items[i], j.items[i]) {
      var v := made[c].items[i];
      assert Holds(g, plan, v, j.items[i]) && j.items[i] < j;
      if v.PyRef? {
        CompleteUnfolds(g, made, plan, v.node);
      }
    }
    assert UnfoldsAll(made, made[c].items, j, j.items);
  }

  lemma {:induction false} SizeAllPush(js: seq<Json>, x: Json)
    ensures SizeAll(js + [x]) == SizeAll(js) + Size(x)
  {
    if js != [] {
      SizeAllPush(js[1..], x);
      assert (js + [x])[1..] == js[1..] + [x];
    }
  }

  lemma SizeAllNext(js: seq<Json>, n: nat)
    requires n < |js|
    ensures SizeAll(js[..n + 1]) == SizeAll(js[..n]) + Size(js[n])
  {
    assert js[..n + 1] == js[..n] + [js[n]];
    SizeAllPush(js[..n], js[n]);
  }

  /* ---------- The copying loop ---------- */

  /** `target.append(v)` or `target[key] = v`. */
  function AddMember<N>(b: Body<N>, key: PyKey, v: PyValue<N>): Body<N>
    requires b.Dict? ==> |b.keys| == |b.items|
  {
    if b.List? then List(b.items + [v]) else Store(b.keys, b.items, key, v)
  }

  /** The plans of the jobs, in the order of the stack. */
  ghost predicate Parallel<N>(plan: map<N, Json>, stack: seq<Job<N>>, trees: seq<Json>)
  {
    |trees| == |stack| && forall i :: 0 <= i < |stack| ==> stack[i].target in plan && trees[i] == plan[stack[i].target]
  }

  /** The outer loop's state, in the heap: g pictures the source, made pictures the copies. */
  ghost predicate Ready(
      g: Graph<Container>, made: Graph<Container>, plan: map<Container, Json>,
      stack: seq<Job<Container>>, trees: seq<Json>, root: Container)
    reads g.Keys, made.Keys
  {
    g.Keys !! made.Keys && Closed(g) && Pictures(g) && Pictures(made) &&
    CopyState(g, made, plan, stack, root) && Parallel(plan, stack, trees)
  }

  /** The inner loop's state, in the heap. */
  ghost predicate Busy(
      g: Graph<Container>, made: Graph<Container>, plan: map<Container, Json>,
      stack: seq<Job<Container>>, trees: seq<Json>, root: Container, job: Job<Container>, n: nat)
    reads g.Keys, made.Keys
  {
    g.Keys !! made.Keys && Closed(g) && Pictures(g) && Pictures(made) &&
    Filling(g, made, plan, stack, root, job, n) && Parallel(plan, stack, trees)
  }

  /** The key of member n; a list has none, and the key is not used. */
  function MemberKeyAt<N>(b: Body<N>, n: nat): PyKey
    requires b.Dict? ==> n < |b.keys|
  {
    if b.Dict? then b.keys[n] else OtherKey(0)
  }

  /** What is known of member n of the source when its turn comes. */
  ghost predicate Due<N>(g: Graph<N>, made: Graph<N>, job: Job<N>, n: nat)
  {
    job.source in g && job.target in made && n < |g[job.source].items| && Known(g, g[job.source].items[n]) &&
    (g[job.source].Dict? ==> n < |g[job.source].keys|) &&
    (made[job.target].Dict? ==> |made[job.target].keys| == |made[job.target].items|)
  }

  ghost function WithMember<N>(g: Graph<N>, made: Graph<N>, job: Job<N>, n: nat, v: PyValue<N>): Graph<N>
    requires Due(g, made, job, n)
  {
    made[job.target := AddMember(made[job.target], MemberKeyAt(g[job.source], n), v)]
  }

  lemma ScalarTurn<N>(g: Graph<N>, made: Graph<N>, plan: map<N, Json>, stack: seq<Job<N>>, root: N, job: Job<N>, n: nat)
    requires Closed(g) && Filling(g, made, plan, stack, root, job, n) && n < |plan[job.target].items|
    ensures Due(g, made, job, n)
    ensures var v := g[job.source].items[n];
      !v.PyRef? ==> Filling(g, WithMember(g, made, job, n, v), plan, stack, root, job, n + 1)
  {
    NextMember(g, made, plan, stack, root, job, n);
    if !g[job.source].items[n].PyRef? {
      PlaceScalar(g, made, plan, stack, root, job, n, MemberKeyAt(g[job.source], n), g[job.source].items[n]);
    }
  }

  lemma ChildTurn<N>(
      g: Graph<N>, made: Graph<N>, plan: map<N, Json>, stack: seq<Job<N>>, root: N, job: Job<N>, n: nat, child: N)
    requires Closed(g) && Filling(g, made, plan, stack, root, job, n) && n < |plan[job.target].items|
    requires n < |g[job.source].items| && g[job.source].items[n].PyRef? && child !in made
    ensures Due(g, made, job, n)
    ensures var d := g[job.source].items[n].node;
      Filling(g, WithMember(g, made, job, n, PyRef(child))[child := EmptyLike(g[d])],
              plan[child := plan[job.target].items[n]], stack + [Job(child, d)], root, job, n + 1)
  {
    var d, key := g[job.source].items[n].node, MemberKeyAt(g[job.source], n);
    NextMember(g, made, plan, stack, root, job, n);
    PlaceChild(g, made, plan, stack, root, job, n, key, d, child);
    assert WithMember(g, made, job, n, PyRef(child))[child := EmptyLike(g[d])] ==
      made[child := EmptyLike(g[d])][job.target := Appended(made[job.target], key, PyRef(child))];
  }

  lemma ParallelPush<N>(plan: map<N, Json>, stack: seq<Job<N>>, trees: seq<Json>, job: Job<N>, x: Json)
    requires Parallel(plan, stack, trees) && job.target !in plan
    ensures Parallel(plan[job.target := x], stack + [job], trees + [x])
  {
  }

  /** What is known of the target of a job that is being filled. */
  lemma BusyTarget<N>(g: Graph<N>, made: Graph<N>, plan: map<N, Json>, stack: seq<Job<N>>, root: N, job: Job<N>, n: nat)
    requires Filling(g, made, plan, stack, root, job, n)
    ensures job.target in plan && job.source in g && (plan[job.target].Arr? || plan[job.target].Obj?)
    ensures |g[job.source].items| == |plan[job.target].items| && made.Keys == plan.Keys
  {
    assert UnfoldsAll(g, g[job.source].items, plan[job.target], plan[job.target].items);
  }

  /** One turn of the inner loop on a scalar member. */
  method CopyScalarMember(
      ghost g: Graph<Container>, ghost made: Graph<Container>, ghost plan: map<Container, Json>,
      stack: seq<Job<Container>>, ghost trees: seq<Json>, ghost root: Container, job: Job<Container>, n: nat)
      returns (ghost made': Graph<Container>)
    requires Busy(g, made, plan, stack, trees, root, job, n) && n < |plan[job.target].items|
    requires Due(g, made, job, n) && !g[job.source].items[n].PyRef?
    modifies job.target
    ensures Busy(g, made', plan, stack, trees, root, job, n + 1) && made'.Keys == made.Keys
  {
    ScalarTurn(g, made, plan, stack, root, job, n);
    made' := WithMember(g, made, job, n, g[job.source].items[n]);
    assert job.source.body == g[job.source];
    job.target.body := AddMember(job.target.body, MemberKeyAt(job.source.body, n), job.source.body.items[n]);
    assert Pictures(g) && Pictures(made');
  }

  /** Allocating a container and putting it into t, in terms of the picture of the heap. */
  method PlaceNew(
      ghost g: Graph<Container>, ghost made: Graph<Container>, t: Container, key: PyKey, b: Body<Container>)
      returns (child: Container)
    requires t in made && g.Keys !! made.Keys && Pictures(g) && Pictures(made)
    requires made[t].Dict? ==> |made[t].keys| == |made[t].items|
    modifies t
    ensures fresh(child) && child !in made && child !in g
    ensures Pictures(g) && Pictures(made[t := AddMember(made[t], key, PyRef(child))][child := b])
  {
    child := new Container(b);
    t.body := AddMember(t.body, key, PyRef(child));
  }

  /** One turn of the inner loop on a container member. */
  method CopyContainerMember(
      ghost g: Graph<Container>, ghost made: Graph<Container>, ghost plan: map<Container, Json>,
      stack: seq<Job<Container>>, ghost trees: seq<Json>, ghost root: Container, job: Job<Container>, n: nat)
      returns (child: Container, ghost made': Graph<Container>)
    requires Busy(g, made, plan, stack, trees, root, job, n) && n < |plan[job.target].items|
    requires Due(g, made, job, n) && g[job.source].items[n].PyRef?
    modifies job.target
    ensures fresh(child) && made'.Keys == made.Keys + {child}
    ensures var x := plan[job.target].items[n];
      Busy(g, made', plan[child := x], stack + [Job(child, g[job.source].items[n].node)], trees + [x], root, job, n + 1)
  {
    ghost var d := g[job.source].items[n].node;
    assert job.source.body == g[job.source] && d.body == g[d];
    var source := job.source.body.items[n].node;
    child := PlaceNew(g, made, job.target, MemberKeyAt(job.source.body, n), EmptyLike(source.body));
    ChildTurn(g, made, plan, stack, root, job, n, child);
    ParallelPush(plan, stack, trees, Job(child, d), plan[job.target].items[n]);
    made' := WithMember(g, made, job, n, PyRef(child))[child := EmptyLike(g[d])];
  }

  /** The plans of the root and of the target being filled. */
  ghost predicate Plans<N>(plan: map<N, Json>, root: N, tree: Json, target: N, j: Json)
  {
    root in plan && plan[root] == tree && target in plan && plan[target] == j && (j.Arr? || j.Obj?)
  }

  /** One turn of the inner loop. */
  method CopyMember(
      ghost g: Graph<Container>, ghost made: Graph<Container>, ghost plan: map<Container, Json>,
      stack: seq<Job<Container>>, ghost trees: seq<Json>, ghost root: Container, ghost tree: Json,
      job: Job<Container>, ghost j: Json, n: nat)
      returns (ghost made': Graph<Container>, ghost plan': map<Container, Json>,
               stack': seq<Job<Container>>, ghost trees': seq<Json>)
    requires Plans(plan, root, tree, job.target, j)
    requires Busy(g, made, plan, stack, trees, root, job, n) && n < |j.items|
    modifies job.target
    ensures made.Keys <= made'.Keys && fresh(made'.Keys - made.Keys)
    ensures Plans(plan', root, tree, job.target, j)
    ensures Busy(g, made', plan', stack', trees', root, job, n + 1)
    ensures SizeAll(trees') <= SizeAll(trees) + Size(j.items[n])
  {
    ScalarTurn(g, made, plan, stack, root, job, n);
    assert job.source.body == g[job.source];
    var item := job.source.body.items[n];
    plan', stack', trees' := plan, stack, trees;
    if item.PyRef? {
      SizeAllPush(trees, j.items[n]);
      var child;
      child, made' := CopyContainerMember(g, made, plan, stack, trees, root, job, n);
      plan' := plan[child := j.items[n]];
      stack' := stack + [Job(child, item.node)];
      trees' := trees + [j.items[n]];
    } else {
      made' := CopyScalarMember(g, made, plan, stack, trees, root, job, n);
    }
  }

  /** The inner loop: all members of one source are copied into its target. */
  method FillCopy(
      ghost g: Graph<Container>, ghost made: Graph<Container>, ghost plan: map<Container, Json>,
      stack: seq<Job<Container>>, ghost trees: seq<Json>, ghost root: Container, ghost tree: Json,
      job: Job<Container>, ghost j: Json)
      returns (ghost made': Graph<Container>, ghost plan': map<Container, Json>,
               stack': seq<Job<Container>>, ghost trees': seq<Json>)
    requires Plans(plan, root, tree, job.target, j)
    requires Busy(g, made, plan, stack, trees, root, job, 0)
    modifies job.target
    ensures made.Keys <= made'.Keys && fresh(made'.Keys - made.Keys)
    ensures Plans(plan', root, tree, job.target, j)
    ensures Busy(g, made', plan', stack', trees', root, job, |j.items|)
    ensures SizeAll(trees') <= SizeAll(trees) + SizeAll(j.items)
  {
    made', plan', stack', trees' := made, plan, stack, trees;
    assert j.items[..0] == [];
    BusyTarget(g, made, plan, stack, root, job, 0);
    assert job.source.body == g[job.source];
    var n := 0;
    while n < |job.source.body.items|
      invariant 0 <= n <= |j.items| && job.source.body == g[job.source]
      invariant made.Keys <= made'.Keys && fresh(made'.Keys - made.Keys)
      invariant Plans(plan', root, tree, job.target, j)
      invariant Busy(g, made', plan', stack', trees', root, job, n)
      invariant SizeAll(trees') <= SizeAll(trees) + SizeAll(j.items[..n])
    {
      SizeAllNext(j.items, n);
      made', plan', stack', trees' := CopyMember(g, made', plan', stack', trees', root, tree, job, j, n);
      n := n + 1;
    }
    assert j.items[..n] == j.items;
  }

  /** In the graph made, v is a copy of the tree j that shares nothing with itself. */
  ghost predicate IsCopy<N>(made: Graph<N>, v: PyValue<N>, j: Json)
  {
    Unfolds(made, v, j) && Confined(made) && (v.PyRef? ==> Unshared(made, v.node))
  }

  lemma {:induction false} CopyStarts<N>(g: Graph<N>, source: N, j: Json, root: N)
    requires Closed(g) && source in g && Unfolds(g, PyRef(source), j)
    ensures CopyState(g, map[root := EmptyLike(g[source])], map[root := j], [Job(root, source)], root)
    ensures Parallel(map[root := j], [Job(root, source)], [j])
  {
    var stack := [Job(root, source)];
    assert stack[0].target == root;
  }

  lemma CopyEnds<N>(g: Graph<N>, made: Graph<N>, plan: map<N, Json>, root: N, tree: Json)
    requires CopyState(g, made, plan, [], root) && root in plan && plan[root] == tree
    ensures root in made && IsCopy(made, PyRef(root), tree)
  {
    CompleteUnfolds(g, made, plan, root);
  }

  lemma {:induction false} TopJob<N>(
      g: Graph<N>, made: Graph<N>, plan: map<N, Json>, stack: seq<Job<N>>, trees: seq<Json>, root: N)
    requires Closed(g) && CopyState(g, made, plan, stack, root) && Parallel(plan, stack, trees) && stack != []
    ensures var n := |stack| - 1;
      var job, j, rest, trees' := stack[n], trees[n], stack[..n], trees[..n];
      job.target in made && Filling(g, made, plan, rest, root, job, 0) && Parallel(plan, rest, trees') &&
      Plans(plan, job.target, j, job.target, j) && SizeAll(trees) == SizeAll(trees') + Size(j)
  {
    var n := |stack| - 1;
    PopJob(g, made, plan, stack, root);
    assert trees == trees[..n] + [trees[n]];
    SizeAllPush(trees[..n], trees[n]);
  }

  /** One turn of the outer loop: the copy on top of the stack is filled. */
  method CopyNext(
      ghost g: Graph<Container>, ghost made: Graph<Container>, ghost plan: map<Container, Json>,
      stack: seq<Job<Container>>, ghost trees: seq<Json>, ghost root: Container, ghost tree: Json)
      returns (ghost made': Graph<Container>, ghost plan': map<Container, Json>,
               stack': seq<Job<Container>>, ghost trees': seq<Json>)
    requires Ready(g, made, plan, stack, trees, root) && root in plan && plan[root] == tree && stack != []
    requires tree.Arr? || tree.Obj?
    modifies stack[|stack| - 1].target
    ensures made.Keys <= made'.Keys && fresh(made'.Keys - made.Keys)
    ensures Ready(g, made', plan', stack', trees', root) && root in plan' && plan'[root] == tree
    ensures SizeAll(trees') < SizeAll(trees)
  {
    var job := stack[|stack| - 1];
    ghost var j := trees[|trees| - 1];
    TopJob(g, made, plan, stack, trees, root);
    made', plan', stack', trees' :=
      FillCopy(g, made, plan, stack[..|stack| - 1], trees[..|trees| - 1], root, tree, job, j);
    FinishJob(g, made', plan', stack', root, job);
  }

  /** The outer loop: as long as a copy is not filled, one is filled. */
  method CopyContainer(ghost g: Graph<Container>, source: Container, ghost tree: Json)
      returns (root: Container, ghost made: Graph<Container>)
    requires Closed(g) && Pictures(g) && source in g && Unfolds(g, PyRef(source), tree)
    ensures fresh(made.Keys) && Pictures(made) && Pictures(g)
    ensures root in made && IsCopy(made, PyRef(root), tree)
  {
    assert source.body == g[source];
    root := new Container(EmptyLike(source.body));
    made := map[root := EmptyLike(g[source])];
    ghost var plan: map<Container, Json> := map[root := tree];
    var stack: seq<Job<Container>> := [Job(root, source)];
    ghost var trees := [tree];
    CopyStarts(g, source, tree, root);
    while stack != []
      invariant fresh(made.Keys) && root in plan && plan[root] == tree
      invariant Ready(g, made, plan, stack, trees, root)
      decreases SizeAll(trees)
    {
      assert stack[|stack| - 1].target in made by {
        TopJob(g, made, plan, stack, trees, root);
      }
      made, plan, stack, trees := CopyNext(g, made, plan, stack, trees, root, tree);
    }
    CopyEnds(g, made, plan, root, tree);
  }

  datatype CopyResult = Copied(value: Value) | Rejected(fault: Fault)

  /**
   A value that passes the check is copied: the copy stands for the same tree, lives in freshly
   allocated containers only, and shares none of them within itself; the source keeps its contents.
   */
  method Copy(value: Value, ghost g: Graph<Container>) returns (r: CopyResult, ghost made: Graph<Container>)
    requires Reaches(g, value)
    ensures fresh(made.Keys) && Pictures(made) && Pictures(g)
    ensures Visit(g, value, 0, {}, Tally(0, 0)).Fail? ==> r == Rejected(Visit(g, value, 0, {}, Tally(0, 0)).fault)
    ensures Visit(g, value, 0, {}, Tally(0, 0)).Pass? ==>
      r.Copied? && forall j :: Unfolds(g, value, j) ==> IsCopy(made, r.value, j)
  {
    made := map[];
    var verdict := Validate(value, g);
    if verdict.Fail? {
      return Rejected(verdict.fault), map[];
    }
    if !value.PyRef? {
      r := Copied(value);
    } else {
      ghost var tree := PassAccounts(g, value, 0, {}, Tally(0, 0));
      var root;
      root, made := CopyContainer(g, value.node, tree);
      r := Copied(PyRef(root));
      forall j | Unfolds(g, value, j) ensures IsCopy(made, r.value, j) {
        UnfoldsUnique(g, value, tree, j);
      }
    }
  }
}
