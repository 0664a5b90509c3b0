/**
 Dependency-first scheduling.

 `Schedule` emits layers of nodes whose dependencies are all emitted, or
 follows remaining dependencies until a node repeats. Its specification does
 not mention layers: an order is sorted by longest dependency chain and then
 by index, and a rejection is a simple closed path.
 */
module Graph {

  /** Node `v` depends on the nodes in `g[v]`. */
  type Graph = seq<set<nat>>

  datatype Result = Ordered(order: seq<nat>) | Cycle(path: seq<nat>)

  predicate WellFormed(g: Graph) {
    forall v, u :: 0 <= v < |g| && u in g[v] ==> u < |g|
  }

  // ----- specification -----

  /** A nonempty chain of nodes, each depending on the next. */
  predicate Path(g: Graph, p: seq<nat>) {
    && p != []
    && (forall i :: 0 <= i < |p| ==> p[i] < |g|)
    && (forall i :: 0 <= i < |p| - 1 ==> p[i + 1] in g[p[i]])
  }

  ghost predicate Cyclic(g: Graph) {
    exists p :: Closed(g, p)
  }

  predicate Closed(g: Graph, p: seq<nat>) {
    Path(g, p) && |p| >= 2 && p[0] == p[|p| - 1]
  }

  predicate Distinct(s: seq<nat>) {
    forall i, j :: 0 <= i < j < |s| ==> s[i] != s[j]
  }

  /** The longest dependency chain from `v` has `d` edges. */
  ghost predicate IsDepth(g: Graph, v: nat, d: nat) {
    && (exists p :: Path(g, p) && p[0] == v && |p| == d + 1)
    && (forall p :: Path(g, p) && p[0] == v ==> |p| <= d + 1)
  }

  ghost predicate Depths(g: Graph, depth: seq<nat>) {
    |depth| == |g| && forall v :: 0 <= v < |g| ==> IsDepth(g, v, depth[v])
  }

  predicate Before(depth: seq<nat>, a: nat, b: nat)
    requires a < |depth| && b < |depth|
  {
    depth[a] < depth[b] || (depth[a] == depth[b] && a < b)
  }

  predicate InRange(s: seq<nat>, n: nat) {
    forall i :: 0 <= i < |s| ==> s[i] < n
  }

  /** Sorted by depth, then by index. */
  predicate Sorted(depth: seq<nat>, order: seq<nat>)
    requires InRange(order, |depth|)
  {
    forall i, j :: 0 <= i < j < |order| ==> Before(depth, order[i], order[j])
  }

  /** `order` lists every node once, sorted by the length of its longest dependency chain, then by index. */
  ghost predicate Scheduled(g: Graph, order: seq<nat>) {
    && |order| == |g| && InRange(order, |g|)
    && exists depth :: Depths(g, depth) && Sorted(depth, order)
  }

  // ----- paths -----

  lemma PathCons(g: Graph, v: nat, p: seq<nat>)
    requires Path(g, p) && v < |g| && p[0] in g[v]
    ensures Path(g, [v] + p)
  {
    var q := [v] + p;
    assert forall i :: 0 < i < |q| ==> q[i] == p[i - 1];
  }

  lemma PathTail(g: Graph, p: seq<nat>)
    requires Path(g, p) && |p| >= 2
    ensures Path(g, p[1..]) && p[1] in g[p[0]]
  {
    assert forall i :: 0 <= i < |p| - 1 ==> p[1..][i] == p[i + 1];
    assert p[0 + 1] in g[p[0]];
  }

  lemma PathConcat(g: Graph, p: seq<nat>, q: seq<nat>)
    requires Path(g, p) && Path(g, q) && p[|p| - 1] == q[0]
    ensures Path(g, p[..|p| - 1] + q)
  {
    var r := p[..|p| - 1] + q;
    forall i | 0 <= i < |r| - 1
      ensures r[i + 1] in g[r[i]]
    {
      if i < |p| - 1 {
        assert r[i] == p[i] && r[i + 1] == p[i + 1];
      } else {
        var k := i - (|p| - 1);
        assert r[i] == q[k] && r[i + 1] == q[k + 1];
      }
    }
  }

  /** A graph whose dependency chains are bounded has no closed path. */
  lemma BoundedIsAcyclic(g: Graph, depth: seq<nat>)
    requires Depths(g, depth)
    ensures !Cyclic(g)
  {
    forall c | Closed(g, c)
      ensures false
    {
      ClosedExtends(g, c, depth[c[0]]);
    }
  }

  lemma ClosedExtends(g: Graph, c: seq<nat>, d: nat)
    requires Closed(g, c)
    ensures !IsDepth(g, c[0], d)
  {
    forall p | Path(g, p) && p[0] == c[0] && |p| == d + 1
      ensures exists longer :: Path(g, longer) && longer[0] == c[0] && |longer| > d + 1
    {
      PathConcat(g, c, p);
      var longer := c[..|c| - 1] + p;
      assert longer[0] == c[0] && |longer| > d + 1;
    }
  }

  /** A dependency has a shorter longest chain. */
  lemma DepthDecreases(g: Graph, depth: seq<nat>, v: nat, u: nat)
    requires Depths(g, depth) && v < |g| && u in g[v] && u < |g|
    ensures depth[u] < depth[v]
  {
    assert IsDepth(g, u, depth[u]) && IsDepth(g, v, depth[v]);
    var p :| Path(g, p) && p[0] == u && |p| == depth[u] + 1;
    PathCons(g, v, p);
    assert ([v] + p)[0] == v;
  }

  // ----- orders -----

  lemma SortedDistinct(depth: seq<nat>, order: seq<nat>)
    requires InRange(order, |depth|) && Sorted(depth, order)
    ensures Distinct(order)
  {
    forall i, j | 0 <= i < j < |order|
      ensures order[i] != order[j]
    {
      assert Before(depth, order[i], order[j]);
    }
  }

  function Elements(s: seq<nat>): (r: set<nat>)
    ensures forall x: nat :: x in r <==> x in s
    ensures Distinct(s) ==> |r| == |s|
    decreases |s|
  {
    if s == [] then {} else
      var last, front := s[|s| - 1], s[..|s| - 1];
      assert s == front + [last];
      Elements(front) + {last}
  }

  function Below(n: nat): (s: set<nat>)
    ensures |s| == n && forall x: nat :: x in s <==> x < n
  {
    if n == 0 then {} else Below(n - 1) + {n - 1}
  }

  /** Distinct nodes are at most as many as there are; if as many, they are all. */
  lemma Pigeonhole(s: seq<nat>, n: nat)
    requires Distinct(s) && InRange(s, n)
    ensures |s| <= n
    ensures |s| == n ==> forall x: nat :: x < n ==> x in s
  {
    SubsetSize(Elements(s), Below(n));
  }

  lemma SubsetSize(a: set<nat>, b: set<nat>)
    requires a <= b
    ensures |a| <= |b|
    ensures |a| == |b| ==> a == b
  {
    assert b == a + (b - a);
    assert |b - a| == |b| - |a|;
  }

  /** The schedule is determined by the graph. */
  lemma ScheduleUnique(g: Graph, a: seq<nat>, b: seq<nat>)
    requires Scheduled(g, a) && Scheduled(g, b)
    ensures a == b
  {
    var depth :| Depths(g, depth) && Sorted(depth, a);
    var other :| Depths(g, other) && Sorted(other, b);
    forall v | 0 <= v < |g|
      ensures depth[v] == other[v]
    {
      assert IsDepth(g, v, depth[v]) && IsDepth(g, v, other[v]);
    }
    assert depth == other;
    SortedDistinct(depth, a);
    SortedDistinct(depth, b);
    Pigeonhole(a, |g|);
    Pigeonhole(b, |g|);
    SortedUnique(depth, a, b);
  }

  lemma SameFirst(depth: seq<nat>, a: seq<nat>, b: seq<nat>)
    requires InRange(a, |depth|) && InRange(b, |depth|) && Sorted(depth, a) && Sorted(depth, b)
    requires a != [] && b != [] && a[0] in b && b[0] in a
    ensures a[0] == b[0]
  {
    FirstIsLeast(depth, a, b[0]);
    FirstIsLeast(depth, b, a[0]);
  }

  lemma FirstIsLeast(depth: seq<nat>, order: seq<nat>, x: nat)
    requires InRange(order, |depth|) && Sorted(depth, order) && x in order
    ensures x < |depth| && (x == order[0] || Before(depth, order[0], x))
  {
    var i :| 0 <= i < |order| && order[i] == x;
    assert 0 < i ==> Before(depth, order[0], order[i]);
  }

  lemma ShallowerIsEarlier(depth: seq<nat>, order: seq<nat>, i: nat, j: nat)
    requires InRange(order, |depth|) && Sorted(depth, order) && i < |order| && j < |order|
    ensures j < i || depth[order[i]] <= depth[order[j]]
  {
    if i < j {
      assert Before(depth, order[i], order[j]);
    }
  }

  lemma {:induction false} SortedUnique(depth: seq<nat>, a: seq<nat>, b: seq<nat>)
    requires InRange(a, |depth|) && InRange(b, |depth|) && Sorted(depth, a) && Sorted(depth, b)
    requires |a| == |b| && forall x: nat :: x in a <==> x in b
    ensures a == b
    decreases |a|
  {
    if a != [] {
      SameFirst(depth, a, b);
      SortedDistinct(depth, a);
      SortedDistinct(depth, b);
      forall x: nat
        ensures x in a[1..] <==> x in b[1..]
      {
        assert x in a[1..] <==> x in a && x != a[0];
        assert x in b[1..] <==> x in b && x != b[0];
      }
      SortedUnique(depth, a[1..], b[1..]);
    }
  }

  /** Every dependency comes earlier. */
  predicate Topological(g: Graph, order: seq<nat>) {
    && InRange(order, |g|)
    && forall i, u :: 0 <= i < |order| && u in g[order[i]] ==> u in order[..i]
  }

  lemma ScheduledIsTopological(g: Graph, order: seq<nat>)
    requires WellFormed(g) && Scheduled(g, order)
    ensures Topological(g, order) && Distinct(order) && forall v: nat :: v < |g| ==> v in order
    ensures !Cyclic(g)
  {
    var depth :| Depths(g, depth) && Sorted(depth, order);
    SortedDistinct(depth, order);
    Pigeonhole(order, |g|);
    BoundedIsAcyclic(g, depth);
    forall i, u | 0 <= i < |order| && u in g[order[i]]
      ensures u in order[..i]
    {
      DepthDecreases(g, depth, order[i], u);
      assert u in order;
      var j :| 0 <= j < |order| && order[j] == u;
      ShallowerIsEarlier(depth, order, i, j);
      assert order[..i][j] == u;
    }
  }

  // ----- the scheduler -----

  /** After `k` layers: emitted nodes are those of depth below `k`; every other node starts a chain of `k` edges. */
  ghost predicate Layered(g: Graph, emitted: seq<bool>, order: seq<nat>, depth: seq<nat>, k: nat) {
    && |emitted| == |depth| == |g| && InRange(order, |g|) && Sorted(depth, order)
    && (forall v: nat :: v < |g| ==> (v in order <==> emitted[v]))
    && (forall v: nat :: v < |g| && emitted[v] ==> depth[v] < k && IsDepth(g, v, depth[v]))
    && (forall v, u :: 0 <= v < |g| && emitted[v] && u in g[v] ==> u < |g| && emitted[u])
    && (forall v: nat :: v < |g| && !emitted[v] ==> Chain(g, v, k))
  }

  ghost predicate Chain(g: Graph, v: nat, k: nat) {
    exists p :: Path(g, p) && p[0] == v && |p| == k + 1
  }

  predicate Ready(g: Graph, emitted: seq<bool>, v: nat)
    requires WellFormed(g) && |emitted| == |g| && v < |g|
  {
    !emitted[v] && forall u :: u in g[v] ==> emitted[u]
  }

  method Layer(g: Graph, emitted: array<bool>) returns (layer: seq<nat>)
    requires WellFormed(g) && emitted.Length == |g|
    ensures forall v: nat :: v in layer <==> v < |g| && Ready(g, emitted[..], v)
    ensures forall i, j :: 0 <= i < j < |layer| ==> layer[i] < layer[j]
  {
    layer := [];
    for v := 0 to |g|
      invariant forall u: nat :: u in layer <==> u < v && Ready(g, emitted[..], u)
      invariant forall i, j :: 0 <= i < j < |layer| ==> layer[i] < layer[j]
    {
      if !emitted[v] && forall u | u in g[v] :: emitted[u] {
        assert forall i :: 0 <= i < |layer| ==> layer[i] in layer;
        layer := layer + [v];
      }
    }
  }

  method FirstPending(emitted: array<bool>) returns (v: nat)
    requires exists i :: 0 <= i < emitted.Length && !emitted[i]
    ensures v < emitted.Length && !emitted[v]
  {
    v := 0;
    while emitted[v]
      invariant v < emitted.Length && forall i :: 0 <= i < v ==> emitted[i]
      decreases emitted.Length - v
    {
      v := v + 1;
    }
  }

  /** The smallest dependency that is still pending. */
  method NextPending(g: Graph, emitted: array<bool>, v: nat) returns (u: nat)
    requires WellFormed(g) && emitted.Length == |g| && v < |g|
    requires exists w :: w in g[v] && !emitted[w]
    ensures u in g[v] && !emitted[u]
  {
    u := 0;
    while u !in g[v] || emitted[u]
      invariant exists w :: w in g[v] && !emitted[w] && u <= w
      decreases |g| - u
    {
      u := u + 1;
    }
  }

  predicate SimpleCycle(g: Graph, c: seq<nat>) {
    Closed(g, c) && Distinct(c[1..])
  }

  method FollowCycle(g: Graph, emitted: array<bool>) returns (cycle: seq<nat>)
    requires WellFormed(g) && emitted.Length == |g|
    requires exists i :: 0 <= i < |g| && !emitted[i]
    requires forall v: nat :: v < |g| && !emitted[v] ==> exists w :: w in g[v] && !emitted[w]
    ensures SimpleCycle(g, cycle)
  {
    var path: seq<nat> := [];
    var node: nat := FirstPending(emitted);
    while node !in path
      invariant node < |g| == emitted.Length && !emitted[node]
      invariant Distinct(path) && InRange(path, |g|)
      invariant path != [] ==> Path(g, path + [node])
      invariant |path| <= |g|
      decreases |g| - |path|
    {
      ghost var before := path;
      path := path + [node];
      Pigeonhole(path, |g|);
      var next := NextPending(g, emitted, node);
      ExtendPath(g, path, node, next);
      node := next;
    }
    var start := Position(path, node);
    cycle := path[start..] + [node];
    CycleFound(g, path, node, start);
  }

  method Position(path: seq<nat>, node: nat) returns (start: nat)
    requires node in path
    ensures start < |path| && path[start] == node
  {
    start := 0;
    while path[start] != node
      invariant start < |path| && node !in path[..start]
      decreases |path| - start
    {
      assert path[..start + 1] == path[..start] + [path[start]];
      assert path == path[..start + 1] + path[start + 1..];
      start := start + 1;
    }
  }

  lemma ExtendPath(g: Graph, path: seq<nat>, node: nat, next: nat)
    requires path != [] && path[|path| - 1] == node && node < |g| && next < |g| && next in g[node]
    requires |path| > 1 ==> Path(g, path)
    ensures Path(g, path + [next])
  {
    var longer := path + [next];
    forall i | 0 <= i < |longer| - 1
      ensures longer[i + 1] in g[longer[i]]
    {
      if i < |path| - 1 {
        assert longer[i] == path[i] && longer[i + 1] == path[i + 1];
      }
    }
  }

  lemma CycleFound(g: Graph, path: seq<nat>, node: nat, start: nat)
    requires start < |path| && path[start] == node && Distinct(path) && Path(g, path + [node])
    ensures SimpleCycle(g, path[start..] + [node])
  {
    var all, c := path + [node], path[start..] + [node];
    forall i | 0 <= i < |c|
      ensures c[i] == all[start + i] && c[i] < |g| && (i < |c| - 1 ==> c[i + 1] in g[c[i]])
    {
      assert c[i] == all[start + i];
      if i < |c| - 1 {
        assert c[i + 1] == all[(start + i) + 1];
      }
    }
    forall i, j | 0 <= i < j < |c| - 1
      ensures c[1..][i] != c[1..][j]
    {
      assert c[1..][i] == path[start + 1 + i];
      assert c[1..][j] == if j == |c| - 2 then path[start] else path[start + 1 + j];
    }
  }

  method Emit(emitted: array<bool>, layer: seq<nat>)
    requires forall v: nat :: v in layer ==> v < emitted.Length
    modifies emitted
    ensures forall v: nat :: v < emitted.Length ==> (emitted[v] <==> old(emitted[v]) || v in layer)
  {
    for i := 0 to |layer|
      invariant forall v: nat :: v < emitted.Length ==> (emitted[v] <==> old(emitted[v]) || v in layer[..i])
    {
      assert layer[i] in layer;
      emitted[layer[i]] := true;
      assert layer[..i + 1] == layer[..i] + [layer[i]];
    }
    assert layer[..|layer|] == layer;
  }

  method Schedule(g: Graph) returns (r: Result)
    requires WellFormed(g)
    ensures r.Ordered? <==> !Cyclic(g)
    ensures r.Ordered? ==> Scheduled(g, r.order)
    ensures r.Cycle? ==> SimpleCycle(g, r.path)
  {
    var emitted := new bool[|g|](_ => false);
    var order: seq<nat> := [];
    ghost var depth: seq<nat> := seq(|g|, _ => 0);
    ghost var k: nat := 0;
    StartLayers(g, emitted[..], depth);
    while |order| < |g|
      invariant Layered(g, emitted[..], order, depth, k)
      invariant |order| <= |g|
      decreases |g| - |order|
    {
      SomePending(g, emitted[..], order, depth, k);
      var layer := Layer(g, emitted);
      if layer == [] {
        assert forall v: nat :: v < |g| && !emitted[v] ==> !Ready(g, emitted[..], v);
        var cycle := FollowCycle(g, emitted);
        return Cycle(cycle);
      }
      ghost var before := emitted[..];
      Emit(emitted, layer);
      ghost var deeper := seq(|g|, v requires 0 <= v < |g| => if v in layer then k else depth[v]);
      AddLayer(g, before, emitted[..], order, layer, depth, deeper, k);
      order := order + layer;
      depth, k := deeper, k + 1;
    }
    FinishLayers(g, emitted[..], order, depth, k);
    r := Ordered(order);
  }

  lemma StartLayers(g: Graph, emitted: seq<bool>, depth: seq<nat>)
    requires WellFormed(g) && |emitted| == |depth| == |g| && forall v :: 0 <= v < |g| ==> !emitted[v]
    ensures Layered(g, emitted, [], depth, 0)
  {
    forall v: nat | v < |g|
      ensures Chain(g, v, 0)
    {
      assert Path(g, [v]);
    }
  }

  lemma SomePending(g: Graph, emitted: seq<bool>, order: seq<nat>, depth: seq<nat>, k: nat)
    requires Layered(g, emitted, order, depth, k) && |order| < |g|
    ensures exists v: nat :: v < |g| && !emitted[v]
  {
    SortedDistinct(depth, order);
    assert Elements(order) != Below(|g|);
    assert exists v: nat :: v < |g| && v !in Elements(order) by {
      assert Elements(order) <= Below(|g|);
    }
  }

  /** Nodes whose dependencies were all emitted after `k` layers have depth exactly `k`. */
  lemma AddLayer(g: Graph, before: seq<bool>, after: seq<bool>, order: seq<nat>, layer: seq<nat>,
                 depth: seq<nat>, deeper: seq<nat>, k: nat)
    requires WellFormed(g) && Layered(g, before, order, depth, k) && |after| == |deeper| == |g|
    requires forall v: nat :: v in layer <==> v < |g| && Ready(g, before, v)
    requires forall i, j :: 0 <= i < j < |layer| ==> layer[i] < layer[j]
    requires forall v: nat :: v < |g| ==> (after[v] <==> before[v] || v in layer)
    requires forall v: nat :: v < |g| ==> deeper[v] == if v in layer then k else depth[v]
    ensures Layered(g, after, order + layer, deeper, k + 1)
    ensures Distinct(order + layer) && |order + layer| <= |g|
  {
    assert InRange(layer, |g|) by {
      assert forall i :: 0 <= i < |layer| ==> layer[i] in layer;
    }
    forall v: nat | v in layer
      ensures v < |g| && IsDepth(g, v, k)
    {
      ReadyDepth(g, before, order, depth, k, v);
    }
    forall v: nat | v < |g| && !after[v]
      ensures Chain(g, v, k + 1)
    {
      ChainGrows(g, before, order, depth, k, v);
    }
    assert forall v: nat :: v in order ==> v < |g| && depth[v] < k && v !in layer;
    LayerSorted(order, layer, depth, deeper, k);
    SortedDistinct(deeper, order + layer);
    Pigeonhole(order + layer, |g|);
  }

  /** A node that is not ready waits for one that starts a chain. */
  lemma ChainGrows(g: Graph, emitted: seq<bool>, order: seq<nat>, depth: seq<nat>, k: nat, v: nat)
    requires WellFormed(g) && Layered(g, emitted, order, depth, k)
    requires v < |g| && !emitted[v] && !Ready(g, emitted, v)
    ensures Chain(g, v, k + 1)
  {
    var u :| u in g[v] && !emitted[u];
    var p :| Path(g, p) && p[0] == u && |p| == k + 1;
    PathCons(g, v, p);
    assert ([v] + p)[0] == v;
  }

  /** A layer follows all shallower nodes, in index order. */
  lemma LayerSorted(order: seq<nat>, layer: seq<nat>, depth: seq<nat>, deeper: seq<nat>, k: nat)
    requires |deeper| == |depth| && InRange(order, |depth|) && InRange(layer, |depth|) && Sorted(depth, order)
    requires forall v: nat :: v in order ==> v < |depth| && depth[v] < k && v !in layer
    requires forall v: nat :: v < |depth| ==> deeper[v] == if v in layer then k else depth[v]
    requires forall i, j :: 0 <= i < j < |layer| ==> layer[i] < layer[j]
    ensures InRange(order + layer, |deeper|) && Sorted(deeper, order + layer)
  {
    assert forall i :: 0 <= i < |layer| ==> layer[i] in layer;
    var all := order + layer;
    forall i, j | 0 <= i < j < |all|
      ensures all[i] < |deeper| && all[j] < |deeper| && Before(deeper, all[i], all[j])
    {
      if j < |order| {
        assert order[i] in order && order[j] in order && Before(depth, order[i], order[j]);
      } else if i < |order| {
        assert order[i] in order;
      }
    }
  }

  lemma ReadyDepth(g: Graph, emitted: seq<bool>, order: seq<nat>, depth: seq<nat>, k: nat, v: nat)
    requires WellFormed(g) && Layered(g, emitted, order, depth, k) && v < |g| && Ready(g, emitted, v)
    ensures IsDepth(g, v, k)
  {
    assert Chain(g, v, k);
    forall p | Path(g, p) && p[0] == v
      ensures |p| <= k + 1
    {
      if |p| >= 2 {
        PathTail(g, p);
        assert IsDepth(g, p[1], depth[p[1]]) && p[1..][0] == p[1];
      }
    }
  }

  lemma FinishLayers(g: Graph, emitted: seq<bool>, order: seq<nat>, depth: seq<nat>, k: nat)
    requires Layered(g, emitted, order, depth, k) && |order| == |g|
    ensures Scheduled(g, order) && !Cyclic(g)
  {
    SortedDistinct(depth, order);
    Pigeonhole(order, |g|);
    assert Depths(g, depth);
    BoundedIsAcyclic(g, depth);
  }
}
