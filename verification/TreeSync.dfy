/** `fsyncUpdateTree`: the explicit-stack walk that makes a copied tree durable. */
module TreeSync {

  datatype Tree = File(name: string) | Directory(name: string, children: seq<Tree>)

  /** A path below the walk's root, as its components. */
  type Path = seq<string>

  datatype Pending = Pending(path: Path, node: Tree, visited: bool)

  /** Sibling names differ, as in any directory. */
  ghost predicate WellFormed(t: Tree) {
    t.Directory? ==>
      && (forall i, j :: 0 <= i < j < |t.children| ==> t.children[i].name != t.children[j].name)
      && (forall i :: 0 <= i < |t.children| ==> WellFormed(t.children[i]))
  }

  /** Whether `below` names a path inside `t`, read off the tree alone. */
  ghost predicate Holds(t: Tree, below: Path)
    decreases |below|
  {
    || below == []
    || (t.Directory? && exists i :: 0 <= i < |t.children| && t.children[i].name == below[0] && Holds(t.children[i], below[1..]))
  }

  /** The recursive walk: everything below a directory, then the directory. */
  function PostOrder(path: Path, t: Tree): seq<Path>
    decreases t, 1
  {
    match t
    case File(_) => [path]
    case Directory(_, children) => Below(path, t, |children|) + [path]
  }

  /** The first `n` children of a directory, last first. */
  function Below(path: Path, t: Tree, n: nat): seq<Path>
    requires t.Directory? && n <= |t.children|
    decreases t, 0, n
  {
    if n == 0 then []
    else PostOrder(path + [t.children[n - 1].name], t.children[n - 1]) + Below(path, t, n - 1)
  }

  function Weight(t: Tree): nat
    decreases t, 1
  {
    match t
    case File(_) => 1
    case Directory(_, children) => 2 + WeightBelow(t, |children|)
  }

  function WeightBelow(t: Tree, n: nat): nat
    requires t.Directory? && n <= |t.children|
    decreases t, 0, n
  {
    if n == 0 then 0 else Weight(t.children[n - 1]) + WeightBelow(t, n - 1)
  }

  /** What is still to be synced for a stack, top first, and a bound on the pops left. */
  ghost function Rest(stack: seq<Pending>): seq<Path> {
    if stack == [] then [] else ItemLog(stack[|stack| - 1]) + Rest(stack[..|stack| - 1])
  }

  ghost function ItemLog(item: Pending): seq<Path> {
    if item.visited then [item.path] else PostOrder(item.path, item.node)
  }

  ghost function Work(stack: seq<Pending>): nat {
    if stack == [] then 0 else ItemWork(stack[|stack| - 1]) + Work(stack[..|stack| - 1])
  }

  ghost function ItemWork(item: Pending): nat {
    if item.visited then 1 else Weight(item.node)
  }

  lemma Pushed(stack: seq<Pending>, top: Pending)
    ensures Rest(stack + [top]) == ItemLog(top) + Rest(stack)
    ensures Work(stack + [top]) == ItemWork(top) + Work(stack)
  {
    assert (stack + [top])[..|stack|] == stack;
  }

  lemma PushedChild(stack: seq<Pending>, now: seq<Pending>, path: Path, t: Tree, n: nat)
    requires t.Directory? && n < |t.children|
    requires Rest(now) == Below(path, t, n) + Rest(stack)
    requires Work(now) == WeightBelow(t, n) + Work(stack)
    ensures
      var item := Pending(path + [t.children[n].name], t.children[n], false);
      && Rest(now + [item]) == Below(path, t, n + 1) + Rest(stack)
      && Work(now + [item]) == WeightBelow(t, n + 1) + Work(stack)
  {
    hide PostOrder, Rest, Work, Weight;
    var item := Pending(path + [t.children[n].name], t.children[n], false);
    Pushed(now, item);
    var first := ItemLog(item);
    assert Below(path, t, n + 1) == first + Below(path, t, n);
    assert first + (Below(path, t, n) + Rest(stack)) == (first + Below(path, t, n)) + Rest(stack);
  }

  lemma NothingPushed(stack: seq<Pending>, path: Path, t: Tree)
    requires t.Directory?
    ensures Below(path, t, 0) + Rest(stack) == Rest(stack) && WeightBelow(t, 0) == 0
  {
    hide Rest;
    assert [] + Rest(stack) == Rest(stack);
  }

  /** The inner loop: a directory's entries go on the stack in the order read. */
  method PushChildren(stack: seq<Pending>, path: Path, t: Tree) returns (now: seq<Pending>)
    requires t.Directory?
    ensures Rest(now) == Below(path, t, |t.children|) + Rest(stack)
    ensures Work(now) == WeightBelow(t, |t.children|) + Work(stack)
  {
    hide PostOrder, Below, WeightBelow, Rest, Work;
    now := stack;
    NothingPushed(stack, path, t);
    for n := 0 to |t.children|
      invariant Rest(now) == Below(path, t, n) + Rest(stack)
      invariant Work(now) == WeightBelow(t, n) + Work(stack)
    {
      var item := Pending(path + [t.children[n].name], t.children[n], false);
      PushedChild(stack, now, path, t, n);
      now := now + [item];
    }
  }

  lemma Opened(item: Pending)
    ensures item.visited || item.node.File? ==> ItemLog(item) == [item.path] && ItemWork(item) > 0
    ensures !item.visited && item.node.Directory? ==>
      && ItemLog(item) == Below(item.path, item.node, |item.node.children|) + [item.path]
      && ItemWork(item) > WeightBelow(item.node, |item.node.children|) + 1
  {
  }

  /** The walk syncs exactly the recursive post-order, and terminates. */
  method SyncTree(root: Path, t: Tree) returns (synced: seq<Path>)
    ensures synced == PostOrder(root, t)
  {
    hide PostOrder, Below, Weight;
    synced := [];
    var stack := [Pending(root, t, false)];
    while stack != []
      invariant synced + Rest(stack) == PostOrder(root, t)
      decreases Work(stack)
    {
      var current := stack[|stack| - 1];
      Opened(current);
      stack := stack[..|stack| - 1];
      if current.node.File? || current.visited {
        synced := synced + [current.path];
      } else {
        var item := Pending(current.path, current.node, true);
        Pushed(stack, item);
        ghost var below, rest := Below(current.path, current.node, |current.node.children|), Rest(stack);
        assert below + ([current.path] + rest) == (below + [current.path]) + rest;
        stack := PushChildren(stack + [item], current.path, current.node);
      }
    }
  }

  // ── What the post-order promises ────────────────────────────────

  /** Everything in a post-order starts with its path. */
  lemma {:induction false} Extends(path: Path, t: Tree, k: nat)
    requires k < |PostOrder(path, t)|
    ensures path <= PostOrder(path, t)[k]
    decreases t, 1
  {
    if t.Directory? && k < |Below(path, t, |t.children|)| {
      var i := BelowExtends(path, t, |t.children|, k);
    }
  }

  lemma {:induction false} BelowExtends(path: Path, t: Tree, n: nat, k: nat) returns (i: nat)
    requires t.Directory? && n <= |t.children|
    requires k < |Below(path, t, n)|
    ensures i < n && path + [t.children[i].name] <= Below(path, t, n)[k]
    decreases t, 0, n
  {
    var first := PostOrder(path + [t.children[n - 1].name], t.children[n - 1]);
    if k < |first| {
      Extends(path + [t.children[n - 1].name], t.children[n - 1], k);
      i := n - 1;
    } else {
      i := BelowExtends(path, t, n - 1, k - |first|);
    }
  }

  /** Each synced path is synced once, and after everything below it. */
  ghost predicate OnceAndChildrenFirst(log: seq<Path>) {
    forall i, j :: 0 <= i < j < |log| ==> !(log[i] <= log[j])
  }

  lemma {:induction false} ChildrenFirst(path: Path, t: Tree)
    requires WellFormed(t)
    ensures OnceAndChildrenFirst(PostOrder(path, t))
    decreases t, 1
  {
    if t.Directory? {
      var below := Below(path, t, |t.children|);
      BelowChildrenFirst(path, t, |t.children|);
      forall k | 0 <= k < |below|
        ensures !(below[k] <= path)
      {
        var i := BelowExtends(path, t, |t.children|, k);
        assert |below[k]| > |path|;
      }
    }
  }

  lemma {:induction false} BelowChildrenFirst(path: Path, t: Tree, n: nat)
    requires WellFormed(t) && t.Directory? && n <= |t.children|
    ensures OnceAndChildrenFirst(Below(path, t, n))
    decreases t, 0, n
  {
    if n > 0 {
      var child := path + [t.children[n - 1].name];
      var first, rest := PostOrder(child, t.children[n - 1]), Below(path, t, n - 1);
      ChildrenFirst(child, t.children[n - 1]);
      BelowChildrenFirst(path, t, n - 1);
      forall i, j | 0 <= i < |first| && 0 <= j < |rest|
        ensures !(first[i] <= rest[j])
      {
        Extends(child, t.children[n - 1], i);
        var c := BelowExtends(path, t, n - 1, j);
        assert first[i][|path|] == t.children[n - 1].name;
        assert rest[j][|path|] == t.children[c].name;
      }
    }
  }

  /** Exactly the paths of the tree are synced. */
  lemma {:induction false} SyncsExactly(path: Path, t: Tree, q: Path)
    ensures q in PostOrder(path, t) <==> path <= q && Holds(t, q[|path|..])
    decreases t, 1
  {
    match t
    case File(_) =>
      assert path <= q && q[|path|..] == [] <==> q == path;
    case Directory(_, children) =>
      BelowExactly(path, t, |children|, q);
      if path < q {
        assert q[|path|..][0] == q[|path|] && q[|path|..][1..] == q[|path| + 1..];
      }
      if q == path {
        assert q == PostOrder(path, t)[|PostOrder(path, t)| - 1];
      }
  }

  lemma {:induction false} BelowExactly(path: Path, t: Tree, n: nat, q: Path)
    requires t.Directory? && n <= |t.children|
    ensures q in Below(path, t, n) <==>
      path < q && exists i :: 0 <= i < n && t.children[i].name == q[|path|] && Holds(t.children[i], q[|path| + 1..])
    decreases t, 0, n
  {
    if n > 0 {
      var child := path + [t.children[n - 1].name];
      BelowExactly(path, t, n - 1, q);
      SyncsExactly(child, t.children[n - 1], q);
      assert child <= q <==> path < q && q[|path|] == t.children[n - 1].name;
    }
  }

  /** `fsyncUpdateTree` as its callers use it: every path of the tree once, each
      directory after all it holds. */
  lemma SyncIsDurable(root: Path, t: Tree)
    requires WellFormed(t)
    ensures OnceAndChildrenFirst(PostOrder(root, t))
    ensures forall q: Path :: q in PostOrder(root, t) <==> root <= q && Holds(t, q[|root|..])
  {
    ChildrenFirst(root, t);
    forall q: Path
      ensures q in PostOrder(root, t) <==> root <= q && Holds(t, q[|root|..])
    {
      SyncsExactly(root, t, q);
    }
  }
}
