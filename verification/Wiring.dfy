/**
 Which slots a constructor call receives.

 Every constructor runs as a function of its own slot and of the slots of
 everything reachable from it. A query inside its body is rewritten to name
 fields of that context only, at any nesting depth.
 */
module Wiring {
  import opened Graph

  /** How a value is stored: taken once, copied out, or only cloned. */
  datatype Storage = TakeOnce | Copied | ReadOnly

  datatype Kind = Stored(storage: Storage) | Fresh | Factory(native: bool)

  datatype Op = Resolve | TryResolve | ResolveClone | TryResolveClone | ResolveUnchecked

  datatype Query = Query(target: nat, op: Op)

  /** Winning registrations: storage kind, the queries in each body, and all its dependencies. */
  datatype Program = Program(kinds: seq<Kind>, queries: seq<seq<Query>>, deps: Graph)

  /** The operations that a registration's slot has. */
  predicate Offers(kind: Kind, op: Op) {
    match kind
    case Stored(TakeOnce) => op == TryResolve || op == TryResolveClone || op == ResolveUnchecked
    case Stored(Copied) => op == Resolve || op == TryResolve
    case Stored(ReadOnly) => op == ResolveClone || op == TryResolveClone
    case Fresh => op == Resolve || op == TryResolve
    case Factory(_) => op == Resolve || op == TryResolve
  }

  /** The operations that the analysis expects to move a stored value: it cannot see how the value is stored. */
  predicate Takes(op: Op) {
    op == TryResolve || op == ResolveUnchecked
  }

  predicate Clones(op: Op) {
    op == ResolveClone || op == TryResolveClone
  }

  /** The operations that do move it: those of a slot that is taken once, but for clones. */
  predicate MovesOut(kind: Kind, op: Op) {
    kind == Stored(TakeOnce) && Offers(kind, op) && !Clones(op)
  }

  predicate Valid(p: Program) {
    && |p.kinds| == |p.queries| == |p.deps| && WellFormed(p.deps)
    && forall i, j :: 0 <= i < |p.queries| && 0 <= j < |p.queries[i]| ==>
         && p.queries[i][j].target in p.deps[i]
         && Offers(p.kinds[p.queries[i][j].target], p.queries[i][j].op)
  }

  // ----- transitive closure -----

  ghost predicate Reaches(g: Graph, v: nat, u: nat) {
    exists p :: Path(g, p) && |p| >= 2 && p[0] == v && p[|p| - 1] == u
  }

  lemma ReachesEdge(g: Graph, v: nat, u: nat)
    requires WellFormed(g) && v < |g| && u in g[v]
    ensures Reaches(g, v, u)
  {
    var p := [v, u];
    assert Path(g, p);
  }

  lemma ReachesStep(g: Graph, v: nat, u: nat, w: nat)
    requires WellFormed(g) && v < |g| && u in g[v] && Reaches(g, u, w)
    ensures Reaches(g, v, w)
  {
    var p :| Path(g, p) && |p| >= 2 && p[0] == u && p[|p| - 1] == w;
    PathCons(g, v, p);
    var q := [v] + p;
    assert q[0] == v && q[|q| - 1] == w;
  }

  lemma ReachesCases(g: Graph, v: nat, w: nat)
    requires Reaches(g, v, w)
    ensures v < |g| && w < |g| && (w in g[v] || exists u :: u in g[v] && Reaches(g, u, w))
  {
    var p :| Path(g, p) && |p| >= 2 && p[0] == v && p[|p| - 1] == w;
    PathTail(g, p);
    if |p| > 2 {
      var q := p[1..];
      assert q[0] == p[1] && q[|q| - 1] == w;
      assert Reaches(g, p[1], w);
    }
  }

  lemma AcyclicReach(g: Graph, v: nat)
    requires !Cyclic(g)
    ensures !Reaches(g, v, v)
  {
    if Reaches(g, v, v) {
      var p :| Path(g, p) && |p| >= 2 && p[0] == v && p[|p| - 1] == v;
      assert Closed(g, p);
    }
  }

  /** `reach[v]` lists exactly what `v` reaches by at least one edge. */
  ghost predicate Closure(g: Graph, reach: seq<set<nat>>) {
    |reach| == |g| && forall v: nat, u: nat :: v < |g| ==> (u in reach[v] <==> Reaches(g, v, u))
  }

  method Transitive(deps: Graph, order: seq<nat>) returns (all: seq<set<nat>>)
    requires WellFormed(deps) && Topological(deps, order)
    requires forall v: nat :: v < |deps| ==> v in order
    ensures Closure(deps, all)
  {
    all := deps;
    forall v: nat, u: nat | v < |deps| && u in deps[v]
      ensures Reaches(deps, v, u)
    {
      ReachesEdge(deps, v, u);
    }
    for k := 0 to |order|
      invariant |all| == |deps|
      invariant forall v: nat :: v < |deps| ==> Between(deps, all[v], v)
      invariant forall v: nat :: v in order[..k] ==> Complete(deps, all[v], v)
    {
      var index := order[k];
      for d := 0 to |deps|
        invariant |all| == |deps|
        invariant forall v: nat :: v < |deps| ==> Between(deps, all[v], v)
        invariant forall v: nat :: v in order[..k] ==> Complete(deps, all[v], v)
        invariant forall u: nat, w: nat :: u < d && u in deps[index] && Reaches(deps, u, w) ==> w in all[index]
      {
        if d in deps[index] {
          Inherit(deps, all, index, d);
          assert d in order[..k];
          all := all[index := all[index] + all[d]];
        }
      }
      forall w: nat | Reaches(deps, index, w)
        ensures w in all[index]
      {
        ReachesCases(deps, index, w);
      }
      assert order[..k + 1] == order[..k] + [index];
    }
    assert order[..|order|] == order;
  }

  ghost predicate Between(g: Graph, s: set<nat>, v: nat)
    requires v < |g|
  {
    g[v] <= s && forall w: nat :: w in s ==> Reaches(g, v, w)
  }

  ghost predicate Complete(g: Graph, s: set<nat>, v: nat) {
    forall w: nat :: Reaches(g, v, w) ==> w in s
  }

  lemma Inherit(g: Graph, all: seq<set<nat>>, v: nat, u: nat)
    requires WellFormed(g) && |all| == |g| && v < |g| && u in g[v] && u < |g|
    requires Between(g, all[v], v) && Between(g, all[u], u)
    ensures Between(g, all[v] + all[u], v)
  {
    forall w: nat | w in all[u]
      ensures Reaches(g, v, w)
    {
      ReachesStep(g, v, u, w);
    }
  }

  // ----- call arguments -----

  /** The members of `s` below `n`, ascending. */
  function Ascending(s: set<nat>, n: nat): (r: seq<nat>)
    ensures forall x: nat :: x in r <==> x in s && x < n
    ensures forall i, j :: 0 <= i < j < |r| ==> r[i] < r[j]
  {
    if n == 0 then [] else
      var front := Ascending(s, n - 1);
      if n - 1 in s then assert forall i :: 0 <= i < |front| ==> front[i] in front; front + [n - 1] else front
  }

  /** The slots passed to constructor `i`: its own first, the others in ascending order. */
  function Arguments(i: nat, reach: seq<set<nat>>): (r: seq<nat>)
    requires i < |reach|
    ensures forall x: nat :: x in r <==> x == i || (x in reach[i] && x < |reach|)
    ensures |r| > 0 && r[0] == i && forall a, b :: 1 <= a < b < |r| ==> r[a] < r[b]
  {
    [i] + Ascending(reach[i], |reach|)
  }

  /** The slots stored in the context that constructor `i`'s body sees; a native closure does not see its own. */
  function ContextFields(p: Program, reach: seq<set<nat>>, i: nat): (r: set<nat>)
    requires Valid(p) && |reach| == |p.kinds| && i < |reach|
  {
    set x | x in Arguments(i, reach) && !(p.kinds[i] == Factory(true) && x == i)
  }

  lemma ArgumentsDistinct(g: Graph, reach: seq<set<nat>>, i: nat)
    requires Closure(g, reach) && !Cyclic(g) && i < |g|
    ensures Distinct(Arguments(i, reach))
  {
    AcyclicReach(g, i);
    var a, tail := Arguments(i, reach), Ascending(reach[i], |reach|);
    forall j, k | 0 <= j < k < |a|
      ensures a[j] != a[k]
    {
      assert a[k] == tail[k - 1] && tail[k - 1] in tail;
    }
  }

  lemma ReachesTransitively(g: Graph, v: nat, u: nat, w: nat)
    requires Reaches(g, v, u) && Reaches(g, u, w)
    ensures Reaches(g, v, w)
  {
    var p :| Path(g, p) && |p| >= 2 && p[0] == v && p[|p| - 1] == u;
    var q :| Path(g, q) && |q| >= 2 && q[0] == u && q[|q| - 1] == w;
    var r := p + q[1..];
    forall i | 0 <= i < |r| - 1
      ensures r[i + 1] in g[r[i]]
    {
      assert i >= |p| - 1 ==> r[i] == q[i - (|p| - 1)] && r[i + 1] == q[i - (|p| - 1) + 1];
    }
    assert Path(g, r) && r[|r| - 1] == w;
  }

  /** A context has what its constructor reaches, and the constructor's own slot unless that holds a native closure. */
  lemma ContextIsExact(p: Program, reach: seq<set<nat>>, i: nat, x: nat)
    requires Valid(p) && Closure(p.deps, reach) && !Cyclic(p.deps) && i < |p.kinds|
    ensures x in ContextFields(p, reach, i) <==>
            Reaches(p.deps, i, x) || (x == i && p.kinds[i] != Factory(true))
  {
    AcyclicReach(p.deps, i);
    ReachInRange(p.deps, reach, i);
  }

  /**
   The opaque type of native closure `i` mentions that of native closure `j`:
   `j`'s slot is a field of the context that `i` takes.
   */
  ghost predicate TypeMentions(p: Program, reach: seq<set<nat>>, i: nat, j: nat)
    requires Valid(p) && |reach| == |p.kinds|
  {
    i < |p.kinds| && j < |p.kinds| && p.kinds[i] == p.kinds[j] == Factory(true) && j in ContextFields(p, reach, i)
  }

  /** The type of each closure of `chain` mentions that of the next. */
  ghost predicate MentionsInTurn(p: Program, reach: seq<set<nat>>, chain: seq<nat>)
    requires Valid(p) && |reach| == |p.kinds|
  {
    forall k :: 0 <= k < |chain| - 1 ==> TypeMentions(p, reach, chain[k], chain[k + 1])
  }

  /** No opaque closure type occurs in its own argument, directly or through those of other closures. */
  lemma {:induction false} NativeTypesAreFinite(p: Program, reach: seq<set<nat>>, chain: seq<nat>)
    requires Valid(p) && Closure(p.deps, reach) && !Cyclic(p.deps) && |chain| >= 2
    requires MentionsInTurn(p, reach, chain)
    ensures Reaches(p.deps, chain[0], chain[|chain| - 1]) && chain[0] != chain[|chain| - 1]
    decreases |chain|
  {
    assert TypeMentions(p, reach, chain[0], chain[0 + 1]);
    ContextIsExact(p, reach, chain[0], chain[1]);
    if |chain| > 2 {
      forall k | 0 <= k < |chain[1..]| - 1
        ensures TypeMentions(p, reach, chain[1..][k], chain[1..][k + 1])
      {
        assert TypeMentions(p, reach, chain[k + 1], chain[(k + 1) + 1]);
      }
      NativeTypesAreFinite(p, reach, chain[1..]);
      ReachesTransitively(p.deps, chain[0], chain[1], chain[|chain| - 1]);
    }
    AcyclicReach(p.deps, chain[0]);
  }

  // ----- executed queries -----

  /**
   One execution of a body: the queries it made, each constructor query with
   those of the called body. `moved` says whether a read was granted the value itself.
   */
  datatype Run = Read(slot: nat, op: Op, moved: bool) | Invoke(target: nat, body: Runs)
  datatype Runs = Done | Then(head: Run, rest: Runs)

  predicate Writes(queries: seq<Query>, target: nat, op: Op) {
    Query(target, op) in queries
  }

  /** `runs` executes queries that registration `i`'s source contains, any number of times in any order. */
  predicate Conforms(p: Program, i: nat, runs: Runs)
    requires Valid(p) && i < |p.kinds|
    decreases runs
  {
    match runs
    case Done => true
    case Then(Read(slot, op, moved), rest) =>
      && slot < |p.kinds| && !p.kinds[slot].Factory? && Writes(p.queries[i], slot, op)
      && (moved ==> MovesOut(p.kinds[slot], op))
      && Conforms(p, i, rest)
    case Then(Invoke(target, body), rest) =>
      && target < |p.kinds| && p.kinds[target].Factory?
      && (Writes(p.queries[i], target, Resolve) || Writes(p.queries[i], target, TryResolve))
      && Conforms(p, target, body) && Conforms(p, i, rest)
  }

  /** Every slot named during `runs` is a field of the context in which it is named. */
  predicate Supplied(p: Program, reach: seq<set<nat>>, fields: set<nat>, runs: Runs)
    requires Valid(p) && |reach| == |p.kinds|
  {
    match runs
    case Done => true
    case Then(Read(slot, _, _), rest) => slot in fields && Supplied(p, reach, fields, rest)
    case Then(Invoke(target, body), rest) =>
      && target < |reach|
      && (forall x :: x in Arguments(target, reach) ==> x in fields)
      && Supplied(p, reach, ContextFields(p, reach, target), body)
      && Supplied(p, reach, fields, rest)
  }

  lemma CalleeArguments(p: Program, reach: seq<set<nat>>, i: nat, target: nat)
    requires Valid(p) && Closure(p.deps, reach) && !Cyclic(p.deps) && i < |p.deps| && target in p.deps[i]
    ensures target < |reach| && forall x :: x in Arguments(target, reach) ==> x in reach[i] && x != i
  {
    AcyclicReach(p.deps, i);
    ReachesEdge(p.deps, i, target);
    forall x | x in Arguments(target, reach)
      ensures x in reach[i] && x != i
    {
      if x != target {
        ReachesStep(p.deps, i, target, x);
      }
    }
  }

  /** A constructor's context supplies its whole execution. The caller's own slot is never needed. */
  lemma {:induction false} ContextSuffices(p: Program, reach: seq<set<nat>>, i: nat, fields: set<nat>, runs: Runs)
    requires Valid(p) && Closure(p.deps, reach) && !Cyclic(p.deps)
    requires i < |p.deps| && Conforms(p, i, runs) && forall x: nat :: x in reach[i] && x != i ==> x in fields
    ensures Supplied(p, reach, fields, runs)
    decreases runs
  {
    match runs
    case Done =>
    case Then(Read(slot, _, _), rest) =>
      CalleeArguments(p, reach, i, slot);
      ContextSuffices(p, reach, i, fields, rest);
    case Then(Invoke(target, body), rest) =>
      CalleeArguments(p, reach, i, target);
      ContextSuffices(p, reach, i, fields, rest);
      ReachInRange(p.deps, reach, target);
      ContextSuffices(p, reach, target, ContextFields(p, reach, target), body);
  }

  lemma ReachInRange(g: Graph, reach: seq<set<nat>>, i: nat)
    requires Closure(g, reach) && i < |g|
    ensures forall x: nat :: x in reach[i] ==> x < |g|
  {
    forall x: nat | x in reach[i]
      ensures x < |g|
    {
      ReachesCases(g, i, x);
    }
  }

  // ----- nesting -----

  function Max(a: nat, b: nat): nat {
    if a < b then b else a
  }

  function Nesting(runs: Runs): nat {
    match runs
    case Done => 0
    case Then(Read(_, _, _), rest) => Nesting(rest)
    case Then(Invoke(_, body), rest) => Max(1 + Nesting(body), Nesting(rest))
  }

  lemma {:induction false} NestingFollowsDepth(p: Program, depth: seq<nat>, i: nat, runs: Runs)
    requires Valid(p) && Depths(p.deps, depth) && i < |p.kinds| && Conforms(p, i, runs)
    ensures Nesting(runs) <= depth[i]
    decreases runs
  {
    match runs
    case Done =>
    case Then(Read(_, _, _), rest) => NestingFollowsDepth(p, depth, i, rest);
    case Then(Invoke(target, body), rest) =>
      DepthDecreases(p.deps, depth, i, target);
      NestingFollowsDepth(p, depth, target, body);
      NestingFollowsDepth(p, depth, i, rest);
  }

  lemma RepeatCloses(g: Graph, p: seq<nat>, i: nat, j: nat)
    requires Path(g, p) && i < j < |p| && p[i] == p[j]
    ensures Cyclic(g)
  {
    var c := p[i..j + 1];
    forall k | 0 <= k < |c| - 1
      ensures c[k + 1] in g[c[k]]
    {
      assert c[k] == p[i + k] && c[k + 1] == p[(i + k) + 1];
    }
    assert Closed(g, c);
  }

  /** Constructor calls nest less deeply than there are registrations. */
  lemma NestingIsBounded(p: Program, order: seq<nat>, i: nat, runs: Runs)
    requires Valid(p) && Scheduled(p.deps, order) && i < |p.kinds| && Conforms(p, i, runs)
    ensures Nesting(runs) < |p.kinds|
  {
    var depth :| Depths(p.deps, depth) && Sorted(depth, order);
    NestingFollowsDepth(p, depth, i, runs);
    BoundedIsAcyclic(p.deps, depth);
    assert IsDepth(p.deps, i, depth[i]);
    var path :| Path(p.deps, path) && path[0] == i && |path| == depth[i] + 1;
    assert Distinct(path) by {
      forall a, b | 0 <= a < b < |path|
        ensures path[a] != path[b]
      {
        if path[a] == path[b] {
          RepeatCloses(p.deps, path, a, b);
        }
      }
    }
    Pigeonhole(path, |p.deps|);
  }

  // ----- effects -----

  /** The slots whose value `runs` moves out. */
  function Moved(runs: Runs): set<nat> {
    match runs
    case Done => {}
    case Then(Read(slot, _, moved), rest) => (if moved then {slot} else {}) + Moved(rest)
    case Then(Invoke(_, body), rest) => Moved(body) + Moved(rest)
  }

  /** The constructors that `runs` calls at any depth. */
  function Invoked(runs: Runs): set<nat> {
    match runs
    case Done => {}
    case Then(Read(_, _, _), rest) => Invoked(rest)
    case Then(Invoke(target, body), rest) => {target} + Invoked(body) + Invoked(rest)
  }
}
