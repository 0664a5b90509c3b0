/**
 Which stored values a resolver may move out, and which child operations it
 may perform, through the constructors it calls.
 */
module Consumption {
  import opened Graph
  import opened Wiring

  /** Queries of a constructor body that the analysis looks at. */
  predicate Resolving(op: Op) {
    op == Resolve || op == TryResolve || op == ResolveUnchecked
  }

  // ----- specification -----

  predicate Calls(p: Program, i: nat, t: nat)
    requires Valid(p) && i < |p.kinds|
  {
    && p.kinds[i].Factory? && t < |p.kinds| && p.kinds[t].Factory?
    && exists j :: 0 <= j < |p.queries[i]| && p.queries[i][j].target == t && Resolving(p.queries[i][j].op)
  }

  /** Constructor `i`'s own body contains a query that may move `s` out of storage. */
  predicate TakesDirectly(p: Program, i: nat, s: nat)
    requires Valid(p) && i < |p.kinds|
  {
    && p.kinds[i].Factory? && s < |p.kinds| && p.kinds[s].Stored?
    && exists j :: 0 <= j < |p.queries[i]| && p.queries[i][j].target == s && Takes(p.queries[i][j].op)
  }

  predicate CallPath(p: Program, c: seq<nat>)
    requires Valid(p)
  {
    && c != [] && (forall k :: 0 <= k < |c| ==> c[k] < |p.kinds|)
    && forall k :: 0 <= k < |c| - 1 ==> Calls(p, c[k], c[k + 1])
  }

  /** Executing `i` may call `t`, directly or not; everything calls itself. */
  ghost predicate CallReaches(p: Program, i: nat, t: nat)
    requires Valid(p)
  {
    exists c :: CallPath(p, c) && c[0] == i && c[|c| - 1] == t
  }

  /** Some constructor that `i` may call contains a query that may move `s`. */
  ghost predicate Consumes(p: Program, i: nat, s: nat)
    requires Valid(p)
  {
    exists t: nat :: t < |p.kinds| && CallReaches(p, i, t) && TakesDirectly(p, t, s)
  }

  lemma CallSelf(p: Program, i: nat)
    requires Valid(p) && i < |p.kinds|
    ensures CallReaches(p, i, i)
  {
    var c := [i];
    assert CallPath(p, c);
  }

  lemma CallStep(p: Program, i: nat, u: nat, t: nat)
    requires Valid(p) && i < |p.kinds| && Calls(p, i, u) && CallReaches(p, u, t)
    ensures CallReaches(p, i, t)
  {
    var c :| CallPath(p, c) && c[0] == u && c[|c| - 1] == t;
    var d := [i] + c;
    assert forall k :: 0 < k < |d| ==> d[k] == c[k - 1];
    assert CallPath(p, d) && d[0] == i && d[|d| - 1] == t;
  }

  lemma CallCases(p: Program, i: nat, t: nat)
    requires Valid(p) && CallReaches(p, i, t)
    ensures i < |p.kinds| && (i == t || exists u: nat :: Calls(p, i, u) && CallReaches(p, u, t))
  {
    var c :| CallPath(p, c) && c[0] == i && c[|c| - 1] == t;
    if |c| > 1 {
      var d := c[1..];
      assert forall k :: 0 <= k < |d| ==> d[k] == c[k + 1];
      assert CallPath(p, d) && d[0] == c[0 + 1] && d[|d| - 1] == t;
      assert Calls(p, i, c[1]) && CallReaches(p, c[1], t);
    }
  }

  /** The equation that the analysis solves. */
  lemma ConsumesCases(p: Program, i: nat, s: nat)
    requires Valid(p) && i < |p.kinds|
    ensures Consumes(p, i, s) <==> TakesDirectly(p, i, s) || exists u: nat :: Calls(p, i, u) && Consumes(p, u, s)
  {
    if Consumes(p, i, s) {
      var t: nat :| t < |p.kinds| && CallReaches(p, i, t) && TakesDirectly(p, t, s);
      CallCases(p, i, t);
    }
    if TakesDirectly(p, i, s) {
      CallSelf(p, i);
    }
    forall u: nat | Calls(p, i, u) && Consumes(p, u, s)
      ensures Consumes(p, i, s)
    {
      var t: nat :| t < |p.kinds| && CallReaches(p, u, t) && TakesDirectly(p, t, s);
      CallStep(p, i, u, t);
    }
  }

  /** Closed under direct takes and under calls. */
  predicate ClosedUnder(p: Program, x: seq<set<nat>>)
    requires Valid(p)
  {
    && |x| == |p.kinds|
    && (forall i, s :: 0 <= i < |x| && 0 <= s < |x| && TakesDirectly(p, i, s) ==> s in x[i])
    && (forall i, t :: 0 <= i < |x| && 0 <= t < |x| && Calls(p, i, t) ==> x[t] <= x[i])
  }

  /** `Consumes` is the least family closed under direct takes and calls. */
  lemma {:induction false} ConsumesIsLeast(p: Program, x: seq<set<nat>>, c: seq<nat>, s: nat)
    requires Valid(p) && ClosedUnder(p, x) && CallPath(p, c) && TakesDirectly(p, c[|c| - 1], s)
    ensures s in x[c[0]]
    decreases |c|
  {
    if |c| > 1 {
      var d := c[1..];
      assert forall k :: 0 <= k < |d| ==> d[k] == c[k + 1];
      ConsumesIsLeast(p, x, d, s);
      assert Calls(p, c[0], c[0 + 1]);
    }
  }

  // ----- consumed dependencies -----

  /** What one query contributes. */
  predicate Contributes(p: Program, consumed: seq<set<nat>>, q: Query, s: nat)
    requires |consumed| == |p.kinds| && q.target < |p.kinds|
  {
    && Resolving(q.op)
    && if p.kinds[q.target].Factory? then s in consumed[q.target]
       else Takes(q.op) && p.kinds[q.target].Stored? && s == q.target
  }

  method ConsumedDependencies(p: Program, order: seq<nat>) returns (consumed: seq<set<nat>>)
    requires Valid(p) && Topological(p.deps, order) && Distinct(order)
    requires forall v: nat :: v < |p.deps| ==> v in order
    ensures |consumed| == |p.kinds|
    ensures forall i: nat, s: nat :: i < |p.kinds| ==> (s in consumed[i] <==> Consumes(p, i, s))
  {
    consumed := seq(|p.kinds|, _ => {});
    for k := 0 to |order|
      invariant |consumed| == |p.kinds|
      invariant Consumed(p, consumed, order[..k])
    {
      if p.kinds[order[k]].Factory? {
        consumed := ConsumeBody(p, consumed, order, k);
      }
      BodyComplete(p, consumed, order, k);
      assert order[..k + 1] == order[..k] + [order[k]];
    }
    assert order[..|order|] == order;
  }

  /** Adds what the queries of one constructor contribute; those it depends on are done. */
  method ConsumeBody(p: Program, before: seq<set<nat>>, order: seq<nat>, k: nat) returns (consumed: seq<set<nat>>)
    requires Valid(p) && Topological(p.deps, order) && Distinct(order) && k < |order| && order[k] < |p.kinds|
    requires p.kinds[order[k]].Factory? && |before| == |p.kinds| && Consumed(p, before, order[..k])
    ensures |consumed| == |p.kinds| && Consumed(p, consumed, order[..k])
    ensures forall m: nat, s: nat ::
              m < |p.queries[order[k]]| && Contributes(p, consumed, p.queries[order[k]][m], s) ==>
                s in consumed[order[k]]
  {
    consumed := before;
    var index := order[k];
    for j := 0 to |p.queries[index]|
      invariant |consumed| == |p.kinds|
      invariant Consumed(p, consumed, order[..k])
      invariant forall m: nat, s: nat ::
                  m < j && Contributes(p, consumed, p.queries[index][m], s) ==> s in consumed[index]
    {
      var q := p.queries[index][j];
      assert q.target in p.deps[index] && q.target in order[..k];
      if Resolving(q.op) {
        ghost var earlier := consumed;
        if p.kinds[q.target].Factory? {
          Contribution(p, consumed, order, k, j);
          consumed := consumed[index := consumed[index] + consumed[q.target]];
        } else if Takes(q.op) && p.kinds[q.target] != Fresh {
          Contribution(p, consumed, order, k, j);
          consumed := consumed[index := consumed[index] + {q.target}];
        }
        StillContributes(p, earlier, consumed, order, k);
      }
    }
  }

  /** Nothing excessive, and everything for the constructors already done. */
  ghost predicate Consumed(p: Program, consumed: seq<set<nat>>, done: seq<nat>)
    requires Valid(p)
  {
    && |consumed| == |p.kinds|
    && (forall i: nat, s: nat :: i < |p.kinds| && s in consumed[i] ==> Consumes(p, i, s))
    && (forall i: nat, s: nat :: i in done && Consumes(p, i, s) ==> i < |p.kinds| && s in consumed[i])
  }

  lemma Contribution(p: Program, consumed: seq<set<nat>>, order: seq<nat>, k: nat, j: nat)
    requires Valid(p) && Topological(p.deps, order) && k < |order| && p.kinds[order[k]].Factory?
    requires j < |p.queries[order[k]]| && Consumed(p, consumed, order[..k])
    ensures var q := p.queries[order[k]][j];
            forall s: nat :: Contributes(p, consumed, q, s) ==> Consumes(p, order[k], s)
  {
    var i, q := order[k], p.queries[order[k]][j];
    forall s: nat | Contributes(p, consumed, q, s)
      ensures Consumes(p, i, s)
    {
      ConsumesCases(p, i, s);
      if p.kinds[q.target].Factory? {
        assert Calls(p, i, q.target) && Consumes(p, q.target, s);
      } else {
        assert TakesDirectly(p, i, s);
      }
    }
  }

  /** A body's own set does not feed into its queries: nothing queries itself in a topological order. */
  lemma StillContributes(p: Program, before: seq<set<nat>>, after: seq<set<nat>>, order: seq<nat>, k: nat)
    requires Valid(p) && k < |order| && order[k] < |p.kinds| == |before| == |after|
    requires Distinct(order) && Topological(p.deps, order)
    requires forall i :: 0 <= i < |before| && i != order[k] ==> before[i] == after[i]
    ensures forall m: nat, s: nat :: m < |p.queries[order[k]]| ==>
              (Contributes(p, before, p.queries[order[k]][m], s) <==> Contributes(p, after, p.queries[order[k]][m], s))
  {
    forall m: nat | m < |p.queries[order[k]]|
      ensures p.queries[order[k]][m].target != order[k]
    {
      var t := p.queries[order[k]][m].target;
      assert t in p.deps[order[k]] && t in order[..k];
    }
  }

  lemma BodyComplete(p: Program, consumed: seq<set<nat>>, order: seq<nat>, k: nat)
    requires Valid(p) && Topological(p.deps, order) && k < |order| && Consumed(p, consumed, order[..k])
    requires p.kinds[order[k]].Factory? ==> forall m: nat, s: nat ::
               m < |p.queries[order[k]]| && Contributes(p, consumed, p.queries[order[k]][m], s) ==>
                 s in consumed[order[k]]
    ensures forall s: nat :: Consumes(p, order[k], s) ==> s in consumed[order[k]]
  {
    var i := order[k];
    forall s: nat | Consumes(p, i, s)
      ensures s in consumed[i]
    {
      ConsumesCases(p, i, s);
      if TakesDirectly(p, i, s) {
        var j :| 0 <= j < |p.queries[i]| && p.queries[i][j].target == s && Takes(p.queries[i][j].op);
        assert Contributes(p, consumed, p.queries[i][j], s);
      } else {
        var u: nat :| Calls(p, i, u) && Consumes(p, u, s);
        var j :| 0 <= j < |p.queries[i]| && p.queries[i][j].target == u && Resolving(p.queries[i][j].op);
        assert u in p.deps[i] && u in order[..k];
        assert Contributes(p, consumed, p.queries[i][j], s);
      }
    }
  }

  // ----- child calls -----

  /** The local targets of a body's resolving queries, as a set. */
  function Targets(queries: seq<Query>): (r: set<nat>)
    ensures forall t: nat :: t in r <==>
              exists j :: 0 <= j < |queries| && queries[j].target == t && Resolving(queries[j].op)
  {
    set q | q in queries && Resolving(q.op) :: q.target
  }

  /** `c` is a child call of some constructor that `i` may call. */
  ghost predicate Inherits<C(!new)>(p: Program, calls: seq<seq<C>>, i: nat, c: C)
    requires Valid(p) && |calls| == |p.kinds|
  {
    exists t: nat :: t < |calls| && CallReaches(p, i, t) && c in calls[t]
  }

  lemma InheritsCases<C(!new)>(p: Program, calls: seq<seq<C>>, i: nat, c: C)
    requires Valid(p) && i < |calls| == |p.kinds|
    ensures Inherits(p, calls, i, c) <==> c in calls[i] || exists u: nat :: Calls(p, i, u) && Inherits(p, calls, u, c)
  {
    CallSelf(p, i);
    if Inherits(p, calls, i, c) {
      var t: nat :| t < |calls| && CallReaches(p, i, t) && c in calls[t];
      CallCases(p, i, t);
    }
    forall u: nat | Calls(p, i, u) && Inherits(p, calls, u, c)
      ensures Inherits(p, calls, i, c)
    {
      var t: nat :| t < |calls| && CallReaches(p, u, t) && c in calls[t];
      CallStep(p, i, u, t);
    }
  }

  /** Lists between the original calls and what may be inherited; complete for the constructors in `done`. */
  ghost predicate Propagated<C(!new)>(p: Program, original: seq<seq<C>>, calls: seq<seq<C>>, done: seq<nat>)
    requires Valid(p) && |original| == |p.kinds|
  {
    && |calls| == |original|
    && (forall i :: 0 <= i < |calls| ==> original[i] <= calls[i])
    && (forall i: nat, c :: i < |calls| && c in calls[i] ==> Inherits(p, original, i, c))
    && (forall i: nat, c :: i in done && i < |calls| && Inherits(p, original, i, c) ==> c in calls[i])
  }

  method PropagateChildCalls<C(!new)>(p: Program, order: seq<nat>, original: seq<seq<C>>) returns (calls: seq<seq<C>>)
    requires Valid(p) && |original| == |p.kinds|
    requires Topological(p.deps, order) && forall v: nat :: v < |p.deps| ==> v in order
    ensures |calls| == |original| && forall i :: 0 <= i < |calls| ==> original[i] <= calls[i]
    ensures forall i: nat, c :: i < |calls| ==> (c in calls[i] <==> Inherits(p, original, i, c))
  {
    calls := original;
    StartPropagation(p, original);
    for k := 0 to |order|
      invariant Propagated(p, original, calls, order[..k])
    {
      calls := PropagateInto(p, order[..k], order[k], original, calls);
      assert order[..k + 1] == order[..k] + [order[k]];
    }
    assert order[..|order|] == order;
  }

  /** One constructor inherits from the constructors its body names. */
  method PropagateInto<C(!new)>(p: Program, ghost done: seq<nat>, index: nat, original: seq<seq<C>>,
                         before: seq<seq<C>>)
      returns (calls: seq<seq<C>>)
    requires Valid(p) && |original| == |p.kinds| && index < |p.kinds|
    requires Propagated(p, original, before, done) && forall u :: u in p.deps[index] ==> u in done
    ensures Propagated(p, original, calls, done + [index])
  {
    calls := before;
    if p.kinds[index].Factory? {
      var targets := Targets(p.queries[index]);
      for target := 0 to |p.kinds|
        invariant Propagated(p, original, calls, done)
        invariant forall t: nat, c ::
                    t < target && Calls(p, index, t) && Inherits(p, original, t, c) ==> c in calls[index]
      {
        if target in targets && p.kinds[target].Factory? {
          assert Calls(p, index, target);
          InheritFrom(p, original, calls, index, target, done);
          calls := calls[index := calls[index] + calls[target]];
        }
      }
    }
    forall c | Inherits(p, original, index, c)
      ensures c in calls[index]
    {
      InheritsCases(p, original, index, c);
    }
  }

  lemma StartPropagation<C(!new)>(p: Program, original: seq<seq<C>>)
    requires Valid(p) && |original| == |p.kinds|
    ensures Propagated(p, original, original, [])
  {
    forall i: nat, c | i < |original| && c in original[i]
      ensures Inherits(p, original, i, c)
    {
      CallSelf(p, i);
    }
  }

  lemma InheritFrom<C(!new)>(p: Program, original: seq<seq<C>>, calls: seq<seq<C>>, i: nat, t: nat, done: seq<nat>)
    requires Valid(p) && i < |original| == |p.kinds| && Calls(p, i, t) && Propagated(p, original, calls, done)
    ensures Propagated(p, original, calls[i := calls[i] + calls[t]], done)
  {
    forall c | c in calls[t]
      ensures Inherits(p, original, i, c)
    {
      InheritsCases(p, original, i, c);
    }
    var extended := calls[i := calls[i] + calls[t]];
    assert forall v :: 0 <= v < |calls| ==> calls[v] <= extended[v];
  }

  // ----- what executions do -----

  lemma WrittenCall(p: Program, i: nat, t: nat)
    requires Valid(p) && i < |p.kinds| && p.kinds[i].Factory? && t < |p.kinds| && p.kinds[t].Factory?
    ensures Writes(p.queries[i], t, Resolve) || Writes(p.queries[i], t, TryResolve) <==> Calls(p, i, t)
  {
    forall op | Writes(p.queries[i], t, op) && Resolving(op)
      ensures Calls(p, i, t)
    {
      var j :| 0 <= j < |p.queries[i]| && p.queries[i][j] == Query(t, op);
    }
    if Calls(p, i, t) {
      var j :| 0 <= j < |p.queries[i]| && p.queries[i][j].target == t && Resolving(p.queries[i][j].op);
      assert Offers(p.kinds[t], p.queries[i][j].op);
      assert p.queries[i][j] == Query(t, p.queries[i][j].op);
    }
  }

  /** Executions move only consumed values and call only reachable constructors. */
  lemma {:induction false} ExecutionsAreCovered(p: Program, i: nat, runs: Runs)
    requires Valid(p) && i < |p.kinds| && p.kinds[i].Factory? && Conforms(p, i, runs)
    ensures forall s: nat :: s in Moved(runs) ==> Consumes(p, i, s)
    ensures forall t: nat :: t in Invoked(runs) ==> CallReaches(p, i, t)
    decreases runs
  {
    match runs
    case Done =>
    case Then(Read(slot, op, moved), rest) =>
      ExecutionsAreCovered(p, i, rest);
      if moved {
        ConsumesCases(p, i, slot);
        var j :| 0 <= j < |p.queries[i]| && p.queries[i][j] == Query(slot, op);
        assert TakesDirectly(p, i, slot);
      }
    case Then(Invoke(target, body), rest) =>
      ExecutionsAreCovered(p, i, rest);
      ExecutionsAreCovered(p, target, body);
      WrittenCall(p, i, target);
      CallSelf(p, target);
      forall t: nat | t == target || t in Invoked(body)
        ensures CallReaches(p, i, t)
      {
        CallStep(p, i, target, t);
      }
      forall s: nat | s in Moved(body)
        ensures Consumes(p, i, s)
      {
        ConsumesCases(p, i, s);
      }
  }

  /** A call path is executed by nesting its constructors. */
  function Nested(c: seq<nat>, innermost: Runs): Runs
    requires c != []
    decreases |c|
  {
    if |c| == 1 then innermost else Then(Invoke(c[1], Nested(c[1..], innermost)), Wiring.Done)
  }

  lemma {:induction false} NestedConforms(p: Program, c: seq<nat>, innermost: Runs)
    requires Valid(p) && CallPath(p, c) && Conforms(p, c[|c| - 1], innermost)
    ensures Conforms(p, c[0], Nested(c, innermost))
    ensures Moved(innermost) <= Moved(Nested(c, innermost))
    ensures |c| > 1 ==> c[|c| - 1] in Invoked(Nested(c, innermost))
    decreases |c|
  {
    if |c| > 1 {
      var d := c[1..];
      assert forall k :: 0 <= k < |d| ==> d[k] == c[k + 1];
      assert Calls(p, c[0], c[0 + 1]);
      WrittenCall(p, c[0], c[1]);
      NestedConforms(p, d, innermost);
    }
  }

  /**
   A consumed value is moved by some execution of the constructor's source
   exactly when it is stored to be taken once. Nothing is listed in vain but
   values that are copied out.
   */
  lemma ConsumedCanMove(p: Program, i: nat, s: nat)
    requires Valid(p) && Consumes(p, i, s)
    ensures s < |p.kinds| && (p.kinds[s] == Stored(TakeOnce) || p.kinds[s] == Stored(Copied))
    ensures (exists runs :: i < |p.kinds| && Conforms(p, i, runs) && s in Moved(runs)) <==>
              p.kinds[s] == Stored(TakeOnce)
  {
    var t: nat :| t < |p.kinds| && CallReaches(p, i, t) && TakesDirectly(p, t, s);
    var c :| CallPath(p, c) && c[0] == i && c[|c| - 1] == t;
    var j :| 0 <= j < |p.queries[t]| && p.queries[t][j].target == s && Takes(p.queries[t][j].op);
    var op := p.queries[t][j].op;
    assert Query(s, op) in p.queries[t];
    if p.kinds[s] == Stored(TakeOnce) {
      var innermost := Then(Read(s, op, true), Wiring.Done);
      NestedConforms(p, c, innermost);
      assert s in Moved(Nested(c, innermost));
    }
    forall runs | i < |p.kinds| && Conforms(p, i, runs) && s in Moved(runs)
      ensures p.kinds[s] == Stored(TakeOnce)
    {
      OnlyTakeSlotsMove(p, i, runs);
    }
  }

  lemma {:induction false} OnlyTakeSlotsMove(p: Program, i: nat, runs: Runs)
    requires Valid(p) && i < |p.kinds| && Conforms(p, i, runs)
    ensures forall s: nat :: s in Moved(runs) ==> s < |p.kinds| && p.kinds[s] == Stored(TakeOnce)
    decreases runs
  {
    match runs
    case Done =>
    case Then(Read(_, _, _), rest) => OnlyTakeSlotsMove(p, i, rest);
    case Then(Invoke(target, body), rest) =>
      OnlyTakeSlotsMove(p, target, body);
      OnlyTakeSlotsMove(p, i, rest);
  }

  // ----- resolvers of a restricted scope -----

  /** The generated bounds of registration `i`'s resolver for `op`, when the slots in `blocked` are restricted. */
  predicate Offered(p: Program, consumed: seq<set<nat>>, i: nat, op: Op, blocked: set<nat>)
    requires i < |p.kinds| == |consumed|
  {
    && (forall s :: s in consumed[i] ==> s !in blocked)
    && (Takes(op) && p.kinds[i].Stored? ==> i !in blocked)
  }

  /** What one call of registration `i`'s resolver may move out of this container's storage. */
  predicate MayMove(p: Program, i: nat, op: Op, runs: Runs, s: nat)
    requires Valid(p) && i < |p.kinds|
  {
    match p.kinds[i]
    case Stored(_) => s == i && MovesOut(p.kinds[i], op)
    case Fresh => false
    case Factory(_) => Conforms(p, i, runs) && s in Moved(runs)
  }

  /** Registrations stored to be taken once. */
  function TakeSlots(p: Program): set<nat> {
    set s: nat | s < |p.kinds| && p.kinds[s] == Stored(TakeOnce)
  }

  /** A resolver that a scope offers never moves a value that the scope restricts. */
  lemma OfferedNeverTakesBlocked(p: Program, consumed: seq<set<nat>>, i: nat, op: Op, blocked: set<nat>, runs: Runs,
                                 s: nat)
    requires Valid(p) && i < |p.kinds| == |consumed|
    requires forall v: nat, u: nat :: v < |p.kinds| ==> (u in consumed[v] <==> Consumes(p, v, u))
    requires Offered(p, consumed, i, op, blocked) && MayMove(p, i, op, runs, s)
    ensures s !in blocked
  {
    if p.kinds[i].Factory? {
      ExecutionsAreCovered(p, i, runs);
    }
  }

  /**
   The bounds are exact for values that are taken once: a resolver is withheld
   because of such a value exactly when some call of it could move one.
   */
  lemma WithheldOnlyForBlocked(p: Program, consumed: seq<set<nat>>, i: nat, op: Op, blocked: set<nat>)
    requires Valid(p) && i < |p.kinds| == |consumed|
    requires forall v: nat, u: nat :: v < |p.kinds| ==> (u in consumed[v] <==> Consumes(p, v, u))
    ensures !Offered(p, consumed, i, op, blocked * TakeSlots(p)) <==>
              exists runs, s: nat :: s in blocked && MayMove(p, i, op, runs, s)
  {
    if !Offered(p, consumed, i, op, blocked * TakeSlots(p)) {
      if s :| s in consumed[i] && s in blocked * TakeSlots(p) {
        ConsumesFromFactory(p, i, s);
        ConsumedCanMove(p, i, s);
        var runs :| Conforms(p, i, runs) && s in Moved(runs);
        assert MayMove(p, i, op, runs, s);
      } else {
        assert MayMove(p, i, op, Wiring.Done, i);
      }
    }
    forall runs, s: nat | s in blocked && MayMove(p, i, op, runs, s)
      ensures !Offered(p, consumed, i, op, blocked * TakeSlots(p))
    {
      if p.kinds[i].Factory? {
        OnlyTakeSlotsMove(p, i, runs);
      }
      if Offered(p, consumed, i, op, blocked * TakeSlots(p)) {
        OfferedNeverTakesBlocked(p, consumed, i, op, blocked * TakeSlots(p), runs, s);
      }
    }
  }

  /** The slots that a resolver's bounds are about: what its constructor consumes and, for a take, its own. */
  function Bounded(p: Program, consumed: seq<set<nat>>, i: nat, op: Op): set<nat>
    requires i < |p.kinds| == |consumed|
  {
    consumed[i] + (if Takes(op) && p.kinds[i].Stored? then {i} else {})
  }

  /**
   A resolver is withheld in vain, though no call of it moves a blocked value,
   exactly when its bounds meet the blocked slots, and only where values are
   not taken once.
   */
  lemma WithheldInVain(p: Program, consumed: seq<set<nat>>, i: nat, op: Op, blocked: set<nat>)
    requires Valid(p) && i < |p.kinds| == |consumed|
    requires forall v: nat, u: nat :: v < |p.kinds| ==> (u in consumed[v] <==> Consumes(p, v, u))
    ensures && !Offered(p, consumed, i, op, blocked)
            && (forall runs, s: nat :: s in blocked ==> !MayMove(p, i, op, runs, s)) <==>
              && Bounded(p, consumed, i, op) * blocked != {}
              && Bounded(p, consumed, i, op) * blocked !! TakeSlots(p)
  {
    WithheldOnlyForBlocked(p, consumed, i, op, blocked);
    BoundsDecide(p, consumed, i, op, blocked);
    BoundsDecide(p, consumed, i, op, blocked * TakeSlots(p));
    var bounded := Bounded(p, consumed, i, op);
    assert bounded * (blocked * TakeSlots(p)) == (bounded * blocked) * TakeSlots(p);
  }

  lemma BoundsDecide(p: Program, consumed: seq<set<nat>>, i: nat, op: Op, blocked: set<nat>)
    requires i < |p.kinds| == |consumed|
    ensures Offered(p, consumed, i, op, blocked) <==> Bounded(p, consumed, i, op) * blocked == {}
  {
    if Offered(p, consumed, i, op, blocked) {
      assert forall s: nat :: s in Bounded(p, consumed, i, op) ==> s !in blocked;
    } else {
      var s: nat :| s in Bounded(p, consumed, i, op) && s in blocked;
      assert s in Bounded(p, consumed, i, op) * blocked;
    }
  }

  /** The `try_resolve` of a copied value is withheld in vain where the value is blocked. */
  lemma CopiesAreWithheldInVain(p: Program, consumed: seq<set<nat>>, i: nat, blocked: set<nat>)
    requires Valid(p) && i < |p.kinds| == |consumed| && p.kinds[i] == Stored(Copied)
    requires forall v: nat, u: nat :: v < |p.kinds| ==> (u in consumed[v] <==> Consumes(p, v, u))
    ensures Offers(p.kinds[i], TryResolve) && (Offered(p, consumed, i, TryResolve, blocked) <==> i !in blocked)
    ensures forall runs, s: nat :: !MayMove(p, i, TryResolve, runs, s)
  {
    forall s | s in consumed[i]
      ensures false
    {
      ConsumesFromFactory(p, i, s);
    }
  }

  /** So is a constructor that consumes a copied value, where that value is blocked. */
  lemma ConstructorsAreWithheldInVain(p: Program, consumed: seq<set<nat>>, i: nat, op: Op, s: nat)
    requires Valid(p) && i < |p.kinds| == |consumed|
    requires forall v: nat, u: nat :: v < |p.kinds| ==> (u in consumed[v] <==> Consumes(p, v, u))
    requires Consumes(p, i, s) && s < |p.kinds| && p.kinds[s] == Stored(Copied)
    ensures !Offered(p, consumed, i, op, {s})
    ensures forall runs, t: nat :: t in {s} ==> !MayMove(p, i, op, runs, t)
  {
    ConsumesFromFactory(p, i, s);
    assert s in Bounded(p, consumed, i, op) * {s} && Bounded(p, consumed, i, op) * {s} !! TakeSlots(p);
    WithheldInVain(p, consumed, i, op, {s});
  }

  /** Copies by `resolve`, and clones. */
  predicate LeavesInPlace(op: Op) {
    op == Resolve || op == ResolveClone || op == TryResolveClone
  }

  /** Query `j` of constructor `t` asks for a stored value, and not for a copy by `resolve` or a clone. */
  predicate AsksForValue(p: Program, t: nat, j: nat)
    requires Valid(p) && t < |p.kinds| && j < |p.queries[t]|
  {
    p.kinds[p.queries[t][j].target].Stored? && !LeavesInPlace(p.queries[t][j].op)
  }

  /** The resolver itself leaves a stored value in place, and so does every query that its calls can reach. */
  ghost predicate OnlyReads(p: Program, i: nat, op: Op)
    requires Valid(p) && i < |p.kinds|
  {
    && (p.kinds[i].Stored? ==> LeavesInPlace(op))
    && forall t: nat, j: nat :: t < |p.kinds| && p.kinds[t].Factory? && CallReaches(p, i, t) && j < |p.queries[t]| ==>
         !AsksForValue(p, t, j)
  }

  /** No restriction withholds a resolver exactly if it only reads. */
  lemma ReadersAreNeverWithheld(p: Program, consumed: seq<set<nat>>, i: nat, op: Op)
    requires Valid(p) && i < |p.kinds| == |consumed|
    requires forall v: nat, u: nat :: v < |p.kinds| ==> (u in consumed[v] <==> Consumes(p, v, u))
    ensures (forall blocked :: Offered(p, consumed, i, op, blocked)) <==> OnlyReads(p, i, op)
  {
    if s :| s in consumed[i] {
      var t: nat :| t < |p.kinds| && CallReaches(p, i, t) && TakesDirectly(p, t, s);
      var j :| 0 <= j < |p.queries[t]| && p.queries[t][j].target == s && Takes(p.queries[t][j].op);
      assert AsksForValue(p, t, j);
      assert !Offered(p, consumed, i, op, {s});
    } else if p.kinds[i].Stored? && !LeavesInPlace(op) {
      assert !Offered(p, consumed, i, op, {i});
    }
    forall t: nat, j: nat | t < |p.kinds| && p.kinds[t].Factory? && CallReaches(p, i, t) && j < |p.queries[t]| &&
                            AsksForValue(p, t, j)
      ensures p.queries[t][j].target in consumed[i]
    {
      assert TakesDirectly(p, t, p.queries[t][j].target);
    }
  }

  /** A copied value, and the constructor `|| try_resolve!(…)` of it. */
  const COPY: Program := Program([Stored(Copied), Factory(false)], [[], [Query(0, TryResolve)]], [{}, {0}])

  lemma CopyIsConsumed()
    ensures Valid(COPY) && Consumes(COPY, 1, 0)
  {
    assert COPY.queries[1][0] == Query(0, TryResolve);
    assert TakesDirectly(COPY, 1, 0);
    CallSelf(COPY, 1);
  }

  lemma ConsumesFromFactory(p: Program, i: nat, s: nat)
    requires Valid(p) && i < |p.kinds| && Consumes(p, i, s)
    ensures p.kinds[i].Factory?
  {
    ConsumesCases(p, i, s);
  }
}
