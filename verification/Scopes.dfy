/** Restricted scopes and consumption together: what a resolver reached through any scope may take. */
module Scopes {
  import opened Options
  import opened Keys
  import opened Wiring
  import opened Consumption
  import opened Masks

  /**
   The generated bounds of a scope's resolver: one `Blocked` answer per
   consumed key, and for a taken slot its own.
   */
  predicate Bounds(p: Program, consumed: seq<set<nat>>, keys: seq<Key>, i: nat, op: Op, restrictions: Mask)
    requires i < |p.kinds| == |consumed| == |keys| && Resolves(restrictions)
  {
    && (forall s :: s in consumed[i] && s < |keys| ==> Blocked(restrictions, keys[s]) == No)
    && (Takes(op) && p.kinds[i].Stored? ==> Blocked(restrictions, keys[i]) == No)
  }

  /** What the bounds of `i`'s resolver are about: the slots it consumes, and its own if it is stored and taken. */
  ghost predicate Concerned(p: Program, i: nat, op: Op, s: nat)
    requires Valid(p) && i < |p.kinds|
  {
    Consumes(p, i, s) || (s == i && Takes(op) && p.kinds[i].Stored?)
  }

  /** Nothing that `i`'s resolver is concerned with is restricted at `names` below `c`. */
  ghost predicate Unrestricted(p: Program, keys: seq<Key>, c: Container, m: Mask, names: seq<Key>, i: nat, op: Op)
    requires Valid(p) && i < |p.kinds| == |keys|
  {
    forall s: nat :: s < |keys| && Concerned(p, i, op, s) ==>
      !Restricts(m, names, keys[s]) && !RestrictedOnTheWay(c, names, [], keys[s])
  }

  /** A resolver's bounds hold in a reached scope exactly when nothing that it is concerned with is restricted there. */
  lemma BoundsAreExact(p: Program, consumed: seq<set<nat>>, keys: seq<Key>, c: Container, m: Mask, names: seq<Key>,
                       i: nat, op: Op)
    requires Valid(p) && i < |p.kinds| == |consumed| == |keys|
    requires forall v: nat, u: nat :: v < |p.kinds| ==> (u in consumed[v] <==> Consumes(p, v, u))
    requires Sound(c) && Resolves(m) && Below(c, names).Some?
    ensures Descend(AsScope(c, m), names).Some? && Resolves(Descend(AsScope(c, m), names).value.restrictions)
    ensures Bounds(p, consumed, keys, i, op, Descend(AsScope(c, m), names).value.restrictions) <==>
            Unrestricted(p, keys, c, m, names, i, op)
  {
    DescentReaches(c, m, names);
    DescentDecidesBlocking(c, m, names, keys[i]);
    var restrictions := Descend(AsScope(c, m), names).value.restrictions;
    forall s | 0 <= s < |keys|
      ensures Blocked(restrictions, keys[s]) == No <==>
              !Restricts(m, names, keys[s]) && !RestrictedOnTheWay(c, names, [], keys[s])
    {
      DescentDecidesBlocking(c, m, names, keys[s]);
    }
  }

  /**
   Whatever scope is reached, its resolvers never take a value that the root
   restriction or any mask stored on the way restricts there.
   */
  lemma ReachedScopeNeverTakesRestricted(p: Program, consumed: seq<set<nat>>, keys: seq<Key>, c: Container, m: Mask,
                                         names: seq<Key>, i: nat, op: Op, runs: Runs, s: nat)
    requires Valid(p) && i < |p.kinds| == |consumed| == |keys|
    requires forall v: nat, u: nat :: v < |p.kinds| ==> (u in consumed[v] <==> Consumes(p, v, u))
    requires Sound(c) && Resolves(m) && Descend(AsScope(c, m), names).Some?
    requires Resolves(Descend(AsScope(c, m), names).value.restrictions) &&
             Bounds(p, consumed, keys, i, op, Descend(AsScope(c, m), names).value.restrictions)
    requires MayMove(p, i, op, runs, s)
    ensures s < |keys| && !Restricts(m, names, keys[s]) && !RestrictedOnTheWay(c, names, [], keys[s])
  {
    var restrictions := Descend(AsScope(c, m), names).value.restrictions;
    var blocked := set u: nat | u < |keys| && Blocked(restrictions, keys[u]) == Yes;
    MovedIsStored(p, i, op, runs, s);
    OfferedNeverTakesBlocked(p, consumed, i, op, blocked, runs, s);
    DescentReaches(c, m, names);
    DescentDecidesBlocking(c, m, names, keys[s]);
  }

  lemma MovedIsStored(p: Program, i: nat, op: Op, runs: Runs, s: nat)
    requires Valid(p) && i < |p.kinds| && MayMove(p, i, op, runs, s)
    ensures s < |p.kinds| && p.kinds[s].Stored?
  {
    if p.kinds[i].Factory? {
      ExecutionsAreCovered(p, i, runs);
      var t: nat :| t < |p.kinds| && CallReaches(p, i, t) && TakesDirectly(p, t, s);
    }
  }

  // ----- child calls -----

  /** A query that a constructor makes of a child: the child, the address below it, and the operation. */
  datatype ChildCall = ChildCall(child: Key, path: Path, group: Key, op: Op)

  /** A container's program with what the analysis computed for it; `calls` are inherited from `own`. */
  datatype Analysis = Analysis(program: Program, consumed: seq<set<nat>>, keys: seq<Key>,
                               own: seq<seq<ChildCall>>, calls: seq<seq<ChildCall>>)

  ghost predicate Analyzed(a: Analysis) {
    var n := |a.program.kinds|;
    && Valid(a.program) && |a.consumed| == |a.keys| == |a.own| == |a.calls| == n
    && (forall v: nat, u: nat :: v < n ==> (u in a.consumed[v] <==> Consumes(a.program, v, u)))
    && (forall v: nat, c :: v < n ==> (c in a.calls[v] <==> Inherits(a.program, a.own, v, c)))
    && forall v, u :: 0 <= v < u < n ==> a.keys[v] != a.keys[u]
  }

  type Analyses = Container -> Analysis

  ghost predicate AllAnalyzed(units: Analyses) {
    forall c :: Analyzed(units(c))
  }

  function NamesOf(call: ChildCall): seq<Key> {
    [call.child] + Names(call.path)
  }

  function KeyOf(call: ChildCall): Key {
    Pair(Namespace(call.path), call.group)
  }

  function Size(kids: Kids): nat {
    match kids case NoKids => 0 case Kid(_, scope, rest) => 1 + Size(scope.children) + Size(rest)
  }

  lemma {:induction false} FoundIsSmaller(kids: Kids, name: Key)
    ensures Find(kids, name).Some? ==> Size(Find(kids, name).value.children) < Size(kids)
    decreases kids
  {
    if kids.Kid? && kids.name != name {
      FoundIsSmaller(kids.rest, name);
    }
  }

  lemma {:induction false} DescendedIsSmaller(s: Scope, names: seq<Key>)
    requires names != []
    ensures Descend(s, names).Some? ==> Size(Descend(s, names).value.children) < Size(s.children)
    decreases |names|
  {
    FoundIsSmaller(s.children, names[0]);
    if Find(s.children, names[0]).Some? && |names| > 1 {
      DescendedIsSmaller(Find(s.children, names[0]).value, names[1..]);
    }
  }

  /**
   All generated bounds of a scope's resolver: those on its own restrictions,
   and those on the child resolvers it calls.
   */
  ghost predicate Granted(units: Analyses, s: Scope, i: nat, op: Op)
    requires AllAnalyzed(units)
    decreases Size(s.children)
  {
    var a := units(s.backing);
    && Analyzed(a) && i < |a.keys| && Resolves(s.restrictions)
    && Bounds(a.program, a.consumed, a.keys, i, op, s.restrictions)
    && forall call :: call in a.calls[i] ==>
         && Descend(s, NamesOf(call)).Some?
         && (DescendedIsSmaller(s, NamesOf(call));
             exists j: nat :: j < |units(Descend(s, NamesOf(call)).value.backing).keys|
                              && units(Descend(s, NamesOf(call)).value.backing).keys[j] == KeyOf(call)
                              && Granted(units, Descend(s, NamesOf(call)).value, j, call.op))
  }

  // ----- which resolvers are granted -----

  /** Child calls made one after another, each with the registration that answers it. */
  datatype Chain = Stop | Step(call: ChildCall, index: nat, rest: Chain)

  /** `chain` starts with a child call of registration `i` of `c` and goes on in the called container. */
  ghost predicate Follows(units: Analyses, c: Container, i: nat, chain: Chain)
    requires AllAnalyzed(units)
    decreases chain
  {
    match chain
    case Stop => i < |units(c).keys|
    case Step(call, j, rest) =>
      && i < |units(c).calls| && call in units(c).calls[i]
      && Below(c, NamesOf(call)).Some? && j < |units(Below(c, NamesOf(call)).value).keys|
      && units(Below(c, NamesOf(call)).value).keys[j] == KeyOf(call)
      && Follows(units, Below(c, NamesOf(call)).value, j, rest)
  }

  /** Every child call of registration `i` of `c` names a registration below `c`. */
  ghost predicate CallsExist(units: Analyses, c: Container, i: nat)
    requires AllAnalyzed(units)
  {
    i < |units(c).calls| && forall call :: call in units(c).calls[i] ==>
      && Below(c, NamesOf(call)).Some?
      && KeyOf(call) in units(Below(c, NamesOf(call)).value).keys
  }

  /** What is asked of the resolver at the end of `chain`, which starts in the container at `names` below `c`. */
  ghost predicate Meets(units: Analyses, c: Container, m: Mask, names: seq<Key>, i: nat, op: Op, chain: Chain)
    requires AllAnalyzed(units) && Below(c, names).Some? && Follows(units, Below(c, names).value, i, chain)
    decreases chain
  {
    var here := Below(c, names).value;
    match chain
    case Stop =>
      assert Analyzed(units(here));
      CallsExist(units, here, i) && Unrestricted(units(here).program, units(here).keys, c, m, names, i, op)
    case Step(call, j, rest) =>
      BelowFurther(c, names, NamesOf(call));
      Meets(units, c, m, names + NamesOf(call), j, call.op, rest)
  }

  /** Wherever child calls lead from the resolver, the one reached is as it has to be. */
  ghost predicate MeetsThroughout(units: Analyses, c: Container, m: Mask, names: seq<Key>, i: nat, op: Op)
    requires AllAnalyzed(units) && Below(c, names).Some?
  {
    forall chain :: Follows(units, Below(c, names).value, i, chain) ==> Meets(units, c, m, names, i, op, chain)
  }

  lemma {:induction false} BelowFurther(c: Container, names: seq<Key>, more: seq<Key>)
    requires Below(c, names).Some?
    ensures Below(c, names + more) == Below(Below(c, names).value, more)
    decreases |names|
  {
    if names == [] {
      assert names + more == more;
    } else {
      assert (names + more)[0] == names[0] && (names + more)[1..] == names[1..] + more;
      BelowFurther(Find(c.kids, names[0]).value.backing, names[1..], more);
    }
  }

  lemma {:induction false} DescendFurther(s: Scope, names: seq<Key>, more: seq<Key>)
    requires Descend(s, names).Some?
    ensures Descend(s, names + more) == Descend(Descend(s, names).value, more)
    decreases |names|
  {
    if names == [] {
      assert names + more == more;
    } else {
      assert (names + more)[0] == names[0] && (names + more)[1..] == names[1..] + more;
      DescendFurther(Find(s.children, names[0]).value, names[1..], more);
    }
  }

  /**
   A resolver reached through any scope is granted exactly when, wherever
   child calls lead from it, every child call names a registration and nothing
   that the resolver there is concerned with is restricted there.
   */
  lemma GrantedIsExact(units: Analyses, c: Container, m: Mask, names: seq<Key>, i: nat, op: Op)
    requires AllAnalyzed(units) && Sound(c) && Resolves(m) && Below(c, names).Some?
    requires i < |units(Below(c, names).value).keys|
    ensures Descend(AsScope(c, m), names).Some?
    ensures Granted(units, Descend(AsScope(c, m), names).value, i, op) <==>
            MeetsThroughout(units, c, m, names, i, op)
  {
    DescentReaches(c, m, names);
    var s := Descend(AsScope(c, m), names).value;
    if Granted(units, s, i, op) {
      forall chain | Follows(units, Below(c, names).value, i, chain)
        ensures Meets(units, c, m, names, i, op, chain)
      {
        GrantedMeets(units, c, m, names, s, i, op, chain);
      }
    }
    if MeetsThroughout(units, c, m, names, i, op) {
      MeetingIsGranted(units, c, m, names, s, i, op);
    }
  }

  /** The local part of `Granted`. */
  lemma GrantedHere(units: Analyses, c: Container, m: Mask, names: seq<Key>, s: Scope, i: nat, op: Op)
    requires AllAnalyzed(units) && Sound(c) && Resolves(m) && Descend(AsScope(c, m), names) == Some(s)
    requires i < |units(s.backing).keys|
    ensures Below(c, names) == Some(s.backing) && Resolves(s.restrictions) && Analyzed(units(s.backing))
    ensures var a := units(s.backing);
            Bounds(a.program, a.consumed, a.keys, i, op, s.restrictions) <==>
            Unrestricted(a.program, a.keys, c, m, names, i, op)
  {
    DescentReaches(c, m, names);
    var a := units(s.backing);
    BoundsAreExact(a.program, a.consumed, a.keys, c, m, names, i, op);
  }

  /** A child call leads to the same place in scopes and in containers. */
  lemma CallLeads(c: Container, m: Mask, names: seq<Key>, s: Scope, more: seq<Key>)
    requires Sound(c) && Resolves(m) && Descend(AsScope(c, m), names) == Some(s)
    ensures Below(c, names) == Some(s.backing) && Below(c, names + more) == Below(s.backing, more)
    ensures Descend(AsScope(c, m), names + more) == Descend(s, more)
    ensures Descend(s, more).Some? <==> Below(s.backing, more).Some?
    ensures Descend(s, more).Some? ==> Descend(s, more).value.backing == Below(s.backing, more).value
  {
    DescentReaches(c, m, names);
    BelowFurther(c, names, more);
    DescendFurther(AsScope(c, m), names, more);
    DescentReaches(c, m, names + more);
  }

  lemma {:induction false} GrantedMeets(units: Analyses, c: Container, m: Mask, names: seq<Key>, s: Scope, i: nat,
                                        op: Op, chain: Chain)
    requires AllAnalyzed(units) && Sound(c) && Resolves(m) && Descend(AsScope(c, m), names) == Some(s)
    requires Granted(units, s, i, op)
    requires Below(c, names) == Some(s.backing) && Follows(units, s.backing, i, chain)
    ensures Meets(units, c, m, names, i, op, chain)
    decreases chain
  {
    var a := units(s.backing);
    match chain
    case Stop =>
      GrantedHere(units, c, m, names, s, i, op);
      forall call | call in a.calls[i]
        ensures Below(s.backing, NamesOf(call)).Some? &&
                KeyOf(call) in units(Below(s.backing, NamesOf(call)).value).keys
      {
        CallLeads(c, m, names, s, NamesOf(call));
      }
    case Step(call, j, rest) =>
      CallLeads(c, m, names, s, NamesOf(call));
      var child := Descend(s, NamesOf(call)).value;
      var keys := units(child.backing).keys;
      var k: nat :| k < |keys| && keys[k] == KeyOf(call) && Granted(units, child, k, call.op);
      assert Analyzed(units(child.backing)) && k == j;
      GrantedMeets(units, c, m, names + NamesOf(call), child, j, call.op, rest);
  }

  lemma {:induction false} MeetingIsGranted(units: Analyses, c: Container, m: Mask, names: seq<Key>, s: Scope, i: nat,
                                            op: Op)
    requires AllAnalyzed(units) && Sound(c) && Resolves(m) && Descend(AsScope(c, m), names) == Some(s)
    requires Below(c, names) == Some(s.backing) && i < |units(s.backing).keys|
    requires MeetsThroughout(units, c, m, names, i, op)
    ensures Granted(units, s, i, op)
    decreases Size(s.children)
  {
    var a := units(s.backing);
    GrantedHere(units, c, m, names, s, i, op);
    assert Follows(units, s.backing, i, Stop);
    assert Meets(units, c, m, names, i, op, Stop);
    forall call | call in a.calls[i]
      ensures Descend(s, NamesOf(call)).Some?
      ensures var child := Descend(s, NamesOf(call)).value;
              exists j: nat :: j < |units(child.backing).keys| && units(child.backing).keys[j] == KeyOf(call)
                               && Granted(units, child, j, call.op)
    {
      CallLeads(c, m, names, s, NamesOf(call));
      var child := Descend(s, NamesOf(call)).value;
      var j: nat :| j < |units(child.backing).keys| && units(child.backing).keys[j] == KeyOf(call);
      forall rest | Follows(units, child.backing, j, rest)
        ensures Meets(units, c, m, names + NamesOf(call), j, call.op, rest)
      {
        assert Meets(units, c, m, names, i, op, Step(call, j, rest));
      }
      DescendedIsSmaller(s, NamesOf(call));
      MeetingIsGranted(units, c, m, names + NamesOf(call), child, j, call.op);
    }
  }

  /** One execution of a resolver: its local queries, and the executions of the child resolvers it called. */
  datatype Execution = Execution(runs: Runs, calls: Executions)
  datatype Executions = NoExecutions | Executions(call: ChildCall, index: nat, run: Execution, rest: Executions)

  /**
   `e` executes registration `i` of `c`: queries from its source, and child
   calls from the constructors it executes.
   */
  ghost predicate Performs(units: Analyses, c: Container, i: nat, op: Op, e: Execution)
    requires AllAnalyzed(units)
    decreases e
  {
    var a := units(c);
    && Analyzed(a) && i < |a.keys|
    && (a.program.kinds[i].Factory? ==> Conforms(a.program, i, e.runs))
    && PerformsAll(units, c, i, e.runs, e.calls)
  }

  ghost predicate PerformsAll(units: Analyses, c: Container, i: nat, runs: Runs, es: Executions)
    requires AllAnalyzed(units)
    decreases es
  {
    match es
    case NoExecutions => true
    case Executions(call, j, run, rest) =>
      var a := units(c);
      && a.program.kinds != [] && i < |a.program.kinds| == |a.own| && a.program.kinds[i].Factory?
      && (exists t: nat :: (t == i || t in Invoked(runs)) && t < |a.own| && call in a.own[t])
      && Below(c, NamesOf(call)).Some?
      && j < |units(Below(c, NamesOf(call)).value).keys| && units(Below(c, NamesOf(call)).value).keys[j] == KeyOf(call)
      && Performs(units, Below(c, NamesOf(call)).value, j, call.op, run)
      && PerformsAll(units, c, i, runs, rest)
  }

  /** The execution may move the value with `key` in the container at `names`. */
  ghost predicate MovesAt(units: Analyses, c: Container, i: nat, op: Op, e: Execution, names: seq<Key>, key: Key)
    requires AllAnalyzed(units) && Performs(units, c, i, op, e)
    decreases e
  {
    var a := units(c);
    || (names == [] && exists s: nat :: s < |a.keys| && a.keys[s] == key && MayMove(a.program, i, op, e.runs, s))
    || AnyMovesAt(units, c, i, e.runs, e.calls, names, key)
  }

  ghost predicate AnyMovesAt(units: Analyses, c: Container, i: nat, runs: Runs, es: Executions, names: seq<Key>,
                             key: Key)
    requires AllAnalyzed(units) && PerformsAll(units, c, i, runs, es)
    decreases es
  {
    match es
    case NoExecutions => false
    case Executions(call, j, run, rest) =>
      || (NamesOf(call) <= names &&
          MovesAt(units, Below(c, NamesOf(call)).value, j, call.op, run, names[|NamesOf(call)|..], key))
      || AnyMovesAt(units, c, i, runs, rest, names, key)
  }

  // ----- reached scopes -----

  /** A reached scope is the restricted scope of its container. */
  lemma {:induction false} ReachedIsAsScope(c: Container, m: Mask, names: seq<Key>)
    requires Sound(c) && Resolves(m) && Descend(AsScope(c, m), names).Some?
    ensures var s := Descend(AsScope(c, m), names).value;
            && Sound(s.backing) && Resolves(s.restrictions) && s == AsScope(s.backing, s.restrictions)
            && Below(c, names) == Some(s.backing)
    decreases |names|
  {
    if names != [] {
      FindRestricted(c.kids, m, names[0]);
      var scope := Find(c.kids, names[0]).value;
      ReachedIsAsScope(scope.backing, Union(scope.restrictions, ForChild(m, names[0])), names[1..]);
    }
  }

  /**
   A resolver whose bounds all hold, reached through any scope, takes nothing
   that is restricted where it is stored: neither from its own container nor,
   through child calls of any depth, from a container below.
   */
  lemma {:induction false} GrantedNeverTakesRestricted(units: Analyses, c: Container, m: Mask, names: seq<Key>,
                                                       s: Scope, i: nat,
                                                       op: Op, e: Execution, below: seq<Key>, key: Key)
    requires AllAnalyzed(units) && Sound(c) && Resolves(m) && Descend(AsScope(c, m), names) == Some(s)
    requires Granted(units, s, i, op)
    requires Performs(units, s.backing, i, op, e)
    requires MovesAt(units, s.backing, i, op, e, below, key)
    ensures !Restricts(m, names + below, key) && !RestrictedOnTheWay(c, names + below, [], key)
    decreases e, 0
  {
    var a := units(s.backing);
    if AnyMovesAt(units, s.backing, i, e.runs, e.calls, below, key) {
      ChildrenTakeNothingRestricted(units, c, m, names, s, i, op, e.runs, e.calls, below, key);
    } else {
      var moved: nat :| moved < |a.keys| && a.keys[moved] == key && MayMove(a.program, i, op, e.runs, moved);
      ReachedScopeNeverTakesRestricted(a.program, a.consumed, a.keys, c, m, names, i, op, e.runs, moved);
      assert names + below == names;
    }
  }

  lemma {:induction false} ChildrenTakeNothingRestricted(units: Analyses, c: Container, m: Mask, names: seq<Key>,
                                                         s: Scope, i: nat, op: Op,
                                                         runs: Runs, es: Executions, below: seq<Key>, key: Key)
    requires AllAnalyzed(units) && Sound(c) && Resolves(m) && Descend(AsScope(c, m), names) == Some(s)
    requires Granted(units, s, i, op)
    requires Conforms(units(s.backing).program, i, runs) || es.NoExecutions?
    requires PerformsAll(units, s.backing, i, runs, es)
    requires AnyMovesAt(units, s.backing, i, runs, es, below, key)
    ensures !Restricts(m, names + below, key) && !RestrictedOnTheWay(c, names + below, [], key)
    decreases es, 0
  {
    if AnyMovesAt(units, s.backing, i, runs, es.rest, below, key) {
      ChildrenTakeNothingRestricted(units, c, m, names, s, i, op, runs, es.rest, below, key);
    } else {
      var child := CalledInPlace(units, c, m, names, s, i, op, runs, es.call, es.index);
      CalledTakesNothingRestricted(units, c, m, names, NamesOf(es.call), child, es.index, es.call.op, es.run, below,
                                   key);
    }
  }

  lemma {:induction false} CalledTakesNothingRestricted(units: Analyses, c: Container, m: Mask, names: seq<Key>,
                                                        more: seq<Key>, child: Scope, j: nat, op: Op,
                                                        run: Execution, below: seq<Key>, key: Key)
    requires AllAnalyzed(units) && Sound(c) && Resolves(m) && Descend(AsScope(c, m), names + more) == Some(child)
    requires Granted(units, child, j, op) && Performs(units, child.backing, j, op, run)
    requires more <= below && MovesAt(units, child.backing, j, op, run, below[|more|..], key)
    ensures !Restricts(m, names + below, key) && !RestrictedOnTheWay(c, names + below, [], key)
    decreases run, 1
  {
    assert (names + more) + below[|more|..] == names + below;
    GrantedNeverTakesRestricted(units, c, m, names + more, child, j, op, run, below[|more|..], key);
  }

  /** The scope of a child call is the one reached further down, over the container that the execution uses. */
  lemma CalledInPlace(units: Analyses, c: Container, m: Mask, names: seq<Key>, s: Scope, i: nat, op: Op, runs: Runs,
                      call: ChildCall, j: nat) returns (child: Scope)
    requires AllAnalyzed(units) && Sound(c) && Resolves(m) && Descend(AsScope(c, m), names) == Some(s)
    requires Granted(units, s, i, op)
    requires var a := units(s.backing);
             && i < |a.own| && a.program.kinds != [] && i < |a.program.kinds| && a.program.kinds[i].Factory?
             && Analyzed(a) && Conforms(a.program, i, runs)
             && (exists t: nat :: (t == i || t in Invoked(runs)) && t < |a.own| && call in a.own[t])
             && Below(s.backing, NamesOf(call)).Some?
             && j < |units(Below(s.backing, NamesOf(call)).value).keys|
             && units(Below(s.backing, NamesOf(call)).value).keys[j] == KeyOf(call)
    ensures Descend(AsScope(c, m), names + NamesOf(call)) == Some(child) && Granted(units, child, j, call.op)
    ensures Below(s.backing, NamesOf(call)) == Some(child.backing)
  {
    ReachedIsAsScope(c, m, names);
    if Descend(s, NamesOf(call)).Some? {
      ReachedIsAsScope(s.backing, s.restrictions, NamesOf(call));
    }
    CalledIsGranted(units, s, i, op, runs, call, j);
    DescendFurther(AsScope(c, m), names, NamesOf(call));
    child := Descend(s, NamesOf(call)).value;
  }

  /** A child call of an executed constructor is among the calls whose bounds were required. */
  lemma CalledIsGranted(units: Analyses, s: Scope, i: nat, op: Op, runs: Runs, call: ChildCall, j: nat)
    requires AllAnalyzed(units) && Granted(units, s, i, op)
    requires var a := units(s.backing);
             && Analyzed(a) && i < |a.own| && a.program.kinds[i].Factory? && Conforms(a.program, i, runs)
             && exists t: nat :: (t == i || t in Invoked(runs)) && t < |a.own| && call in a.own[t]
    requires Descend(s, NamesOf(call)).Some? ==>
               j < |units(Descend(s, NamesOf(call)).value.backing).keys| &&
               units(Descend(s, NamesOf(call)).value.backing).keys[j] == KeyOf(call)
    ensures Descend(s, NamesOf(call)).Some? && Granted(units, Descend(s, NamesOf(call)).value, j, call.op)
  {
    var a := units(s.backing);
    var t: nat :| (t == i || t in Invoked(runs)) && t < |a.own| && call in a.own[t];
    ExecutionsAreCovered(a.program, i, runs);
    CallSelf(a.program, i);
    assert Inherits(a.program, a.own, i, call) && call in a.calls[i];
    var child := Descend(s, NamesOf(call)).value;
    var keys := units(child.backing).keys;
    var k: nat :| k < |keys| && keys[k] == KeyOf(call) && Granted(units, child, k, call.op);
    assert Analyzed(units(child.backing)) && k == j;
  }
}
