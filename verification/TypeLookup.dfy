/**
 Recursive expansion of registered-type queries.

 A query for an interface is replaced by the registered type, itself
 expanded. `Lookup` keeps the registrations being expanded on a stack. The
 specification speaks of lookup chains: each registration's type queries the next.
 */
module TypeLookup {
  import opened Options
  import Graph

  /** A type; `Bad` is a query whose tokens do not parse. */
  datatype Type = Con(name: string, args: Types) | Query(dynamic: bool, key: string) | Bad
  datatype Types = NoTypes | Types(head: Type, tail: Types)

  datatype Error = ParseError | Unregistered(key: string) | NotDynamic(index: nat) | LookupCycle(path: seq<nat>)

  /** Registered keys, each registration's type, and the target of those registered `as dyn`. */
  datatype Registry = Registry(indices: map<string, nat>, types: seq<Type>, dynamic: seq<Option<Type>>)

  predicate QueryFree(ty: Type) {
    match ty
    case Con(_, args) => AllQueryFree(args)
    case Query(_, _) => false
    case Bad => false
  }

  predicate AllQueryFree(tys: Types) {
    tys.Types? ==> QueryFree(tys.head) && AllQueryFree(tys.tail)
  }

  /** Keys name registrations, and generated dyn targets contain no queries. */
  predicate Valid(r: Registry) {
    && |r.types| == |r.dynamic|
    && (forall key :: key in r.indices ==> r.indices[key] < |r.types|)
    && forall i :: 0 <= i < |r.dynamic| && r.dynamic[i].Some? ==> QueryFree(r.dynamic[i].value)
  }

  predicate Stack(r: Registry, active: seq<nat>) {
    Graph.Distinct(active) && Graph.InRange(active, |r.types|)
  }

  lemma PushStack(r: Registry, active: seq<nat>, i: nat)
    requires Stack(r, active) && i !in active && i < |r.types|
    ensures Stack(r, active + [i]) && |active| < |r.types|
  {
    Graph.Pigeonhole(active + [i], |r.types|);
  }

  // ----- chains -----

  /** `ty` contains a query replaced by registration `j`'s type. */
  predicate Asks(r: Registry, ty: Type, j: nat) {
    match ty
    case Con(_, args) => AnyAsks(r, args, j)
    case Query(dynamic, key) => !dynamic && key in r.indices && r.indices[key] == j
    case Bad => false
  }

  predicate AnyAsks(r: Registry, tys: Types, j: nat) {
    tys.Types? && (Asks(r, tys.head, j) || AnyAsks(r, tys.tail, j))
  }

  /** `ty` contains a query replaced by registration `j`'s dyn target. */
  predicate AsksDyn(r: Registry, ty: Type, j: nat)
    requires Valid(r)
  {
    match ty
    case Con(_, args) => AnyAsksDyn(r, args, j)
    case Query(dynamic, key) => dynamic && key in r.indices && r.indices[key] == j && r.dynamic[j].Some?
    case Bad => false
  }

  predicate AnyAsksDyn(r: Registry, tys: Types, j: nat)
    requires Valid(r)
  {
    tys.Types? && (AsksDyn(r, tys.head, j) || AnyAsksDyn(r, tys.tail, j))
  }

  /** Every query in `ty` itself names a registration, opted in if it is a dyn query. */
  predicate Answered(r: Registry, ty: Type)
    requires Valid(r)
  {
    match ty
    case Con(_, args) => AllAnswered(r, args)
    case Query(dynamic, key) => key in r.indices && (dynamic ==> r.dynamic[r.indices[key]].Some?)
    case Bad => false
  }

  predicate AllAnswered(r: Registry, tys: Types)
    requires Valid(r)
  {
    tys.Types? ==> Answered(r, tys.head) && AllAnswered(r, tys.tail)
  }

  predicate Linked(r: Registry, c: seq<nat>) {
    && (forall k :: 0 <= k < |c| ==> c[k] < |r.types|)
    && forall k :: 0 <= k < |c| - 1 ==> Asks(r, r.types[c[k]], c[k + 1])
  }

  /** A lookup chain from `ty`. */
  predicate Chain(r: Registry, ty: Type, c: seq<nat>) {
    c != [] && Linked(r, c) && Asks(r, ty, c[0])
  }

  /** Every reachable query is answered, and no chain repeats a registration. */
  ghost predicate Resolvable(r: Registry, ty: Type)
    requires Valid(r)
  {
    && Answered(r, ty)
    && forall c :: Chain(r, ty, c) ==> Graph.Distinct(c) && Answered(r, r.types[c[|c| - 1]])
  }

  /** Registration `d` is reached by a chain, or its dyn target is asked for at the end of one. */
  ghost predicate Needed(r: Registry, ty: Type, d: nat)
    requires Valid(r)
  {
    AsksDyn(r, ty, d) || exists c :: Chain(r, ty, c) && (c[|c| - 1] == d || AsksDyn(r, r.types[c[|c| - 1]], d))
  }

  /** Replaces queries to a nesting of `n` lookups. */
  function Unfold(r: Registry, ty: Type, n: nat): Type
    requires Valid(r)
    decreases n, ty
  {
    match ty
    case Con(name, args) => Con(name, UnfoldAll(r, args, n))
    case Query(dynamic, key) =>
      if key !in r.indices then ty
      else if dynamic then (if r.dynamic[r.indices[key]].Some? then r.dynamic[r.indices[key]].value else ty)
      else if n == 0 then ty
      else Unfold(r, r.types[r.indices[key]], n - 1)
    case Bad => ty
  }

  function UnfoldAll(r: Registry, tys: Types, n: nat): Types
    requires Valid(r)
    decreases n, tys
  {
    match tys
    case NoTypes => NoTypes
    case Types(head, tail) => Types(Unfold(r, head, n), UnfoldAll(r, tail, n))
  }

  /** A closed path of real lookups. */
  predicate ClosedLookup(r: Registry, path: seq<nat>) {
    |path| >= 2 && Linked(r, path) && path[0] == path[|path| - 1] && Graph.Distinct(path[1..])
  }

  // ----- what one expansion does, below a given stack -----

  predicate Succeeds(r: Registry, ty: Type, active: seq<nat>)
    requires Valid(r) && Stack(r, active)
    decreases |r.types| - |active|, ty
  {
    match ty
    case Con(_, args) => AllSucceed(r, args, active)
    case Query(dynamic, key) =>
      if key !in r.indices then false
      else
        var i := r.indices[key];
        if dynamic then r.dynamic[i].Some?
        else if i in active then false
        else PushStack(r, active, i); Succeeds(r, r.types[i], active + [i])
    case Bad => false
  }

  predicate AllSucceed(r: Registry, tys: Types, active: seq<nat>)
    requires Valid(r) && Stack(r, active)
    decreases |r.types| - |active|, tys
  {
    tys.Types? ==> Succeeds(r, tys.head, active) && AllSucceed(r, tys.tail, active)
  }

  /** The type that replaces `ty`; a query that fails stays. */
  function Expanded(r: Registry, ty: Type, active: seq<nat>): Type
    requires Valid(r) && Stack(r, active)
    decreases |r.types| - |active|, ty
  {
    match ty
    case Con(name, args) => Con(name, AllExpanded(r, args, active))
    case Query(dynamic, key) =>
      if key !in r.indices then ty
      else
        var i := r.indices[key];
        if dynamic then (if r.dynamic[i].Some? then r.dynamic[i].value else ty)
        else if i in active then ty
        else PushStack(r, active, i); Expanded(r, r.types[i], active + [i])
    case Bad => ty
  }

  function AllExpanded(r: Registry, tys: Types, active: seq<nat>): Types
    requires Valid(r) && Stack(r, active)
    decreases |r.types| - |active|, tys
  {
    match tys
    case NoTypes => NoTypes
    case Types(head, tail) => Types(Expanded(r, head, active), AllExpanded(r, tail, active))
  }

  function Reached(r: Registry, ty: Type, active: seq<nat>): set<nat>
    requires Valid(r) && Stack(r, active)
    decreases |r.types| - |active|, ty
  {
    match ty
    case Con(_, args) => AllReached(r, args, active)
    case Query(dynamic, key) =>
      if key !in r.indices then {}
      else
        var i := r.indices[key];
        if dynamic then (if r.dynamic[i].Some? then {i} else {})
        else if i in active then {}
        else PushStack(r, active, i); {i} + Reached(r, r.types[i], active + [i])
    case Bad => {}
  }

  function AllReached(r: Registry, tys: Types, active: seq<nat>): set<nat>
    requires Valid(r) && Stack(r, active)
    decreases |r.types| - |active|, tys
  {
    match tys
    case NoTypes => {}
    case Types(head, tail) => Reached(r, head, active) + AllReached(r, tail, active)
  }

  /** Where `i` is on the stack. */
  function Place(active: seq<nat>, i: nat): (start: nat)
    requires i in active
    ensures start < |active| && active[start] == i
  {
    if active[0] == i then 0 else 1 + Place(active[1..], i)
  }

  lemma PlaceIsUnique(active: seq<nat>, start: nat)
    requires Graph.Distinct(active) && start < |active|
    ensures Place(active, active[start]) == start
  {
    var place := Place(active, active[start]);
    assert active[place] == active[start];
  }

  /** What a failing expansion reports: the last failure met. */
  function Reported(r: Registry, ty: Type, active: seq<nat>): Error
    requires Valid(r) && Stack(r, active) && !Succeeds(r, ty, active)
    decreases |r.types| - |active|, ty
  {
    match ty
    case Con(_, args) => AllReported(r, args, active)
    case Query(dynamic, key) =>
      if key !in r.indices then Unregistered(key)
      else
        var i := r.indices[key];
        if dynamic then NotDynamic(i)
        else if i in active then LookupCycle(active[Place(active, i)..] + [i])
        else PushStack(r, active, i); Reported(r, r.types[i], active + [i])
    case Bad => ParseError
  }

  function AllReported(r: Registry, tys: Types, active: seq<nat>): Error
    requires Valid(r) && Stack(r, active) && !AllSucceed(r, tys, active)
    decreases |r.types| - |active|, tys
  {
    if AllSucceed(r, tys.tail, active) then Reported(r, tys.head, active) else AllReported(r, tys.tail, active)
  }

  /** What is being expanded occurs in the type of the registration on top of the stack. */
  predicate Inside(r: Registry, active: seq<nat>, ty: Type)
    requires Graph.InRange(active, |r.types|)
  {
    Linked(r, active) && (active != [] ==> forall key :: key in r.indices && Asks(r, ty, r.indices[key]) ==>
                            Asks(r, r.types[active[|active| - 1]], r.indices[key]))
  }

  predicate AllInside(r: Registry, active: seq<nat>, tys: Types)
    requires Graph.InRange(active, |r.types|)
  {
    Linked(r, active) && (active != [] ==> forall key :: key in r.indices && AnyAsks(r, tys, r.indices[key]) ==>
                            Asks(r, r.types[active[|active| - 1]], r.indices[key]))
  }

  // ----- the visitor -----

  class Lookup {
    const registry: Registry
    var active: seq<nat>
    var dependencies: set<nat>
    var error: Option<Error>

    constructor (r: Registry)
      ensures registry == r && active == [] && dependencies == {} && error == None
    {
      registry, active, dependencies, error := r, [], {}, None;
    }

    method VisitType(ty: Type) returns (t: Type)
      requires Valid(registry) && Stack(registry, active)
      modifies this
      ensures active == old(active)
      ensures t == Expanded(registry, ty, active)
      ensures dependencies == old(dependencies) + Reached(registry, ty, active)
      ensures error == if Succeeds(registry, ty, active) then old(error) else Some(Reported(registry, ty, active))
      decreases |registry.types| - |active|, ty
    {
      match ty
      case Bad =>
        error := Some(ParseError);
        t := ty;
      case Con(name, args) =>
        var expanded := VisitTypes(args);
        t := Con(name, expanded);
      case Query(dynamic, key) =>
        if key !in registry.indices {
          error := Some(Unregistered(key));
          return ty;
        }
        var index := registry.indices[key];
        if dynamic {
          if registry.dynamic[index].None? {
            error := Some(NotDynamic(index));
            return ty;
          }
          dependencies := dependencies + {index};
          return registry.dynamic[index].value;
        }
        if index in active {
          var start := Graph.Position(active, index);
          PlaceIsUnique(active, start);
          error := Some(LookupCycle(active[start..] + [index]));
          return ty;
        }
        PushStack(registry, active, index);
        ghost var below := active;
        active := active + [index];
        dependencies := dependencies + {index};
        t := VisitType(registry.types[index]);
        active := active[..|active| - 1];
        assert active == below;
    }

    method VisitTypes(tys: Types) returns (ts: Types)
      requires Valid(registry) && Stack(registry, active)
      modifies this
      ensures active == old(active)
      ensures ts == AllExpanded(registry, tys, active)
      ensures dependencies == old(dependencies) + AllReached(registry, tys, active)
      ensures error ==
              if AllSucceed(registry, tys, active) then old(error) else Some(AllReported(registry, tys, active))
      decreases |registry.types| - |active|, tys
    {
      match tys
      case NoTypes =>
        ts := NoTypes;
      case Types(head, tail) =>
        var h := VisitType(head);
        var t := VisitTypes(tail);
        ts := Types(h, t);
    }
  }

  lemma PushInside(r: Registry, active: seq<nat>, ty: Type, key: string)
    requires Valid(r) && Graph.InRange(active, |r.types|) && Inside(r, active, ty)
    requires ty == Query(false, key) && key in r.indices
    ensures var i := r.indices[key]; Linked(r, active + [i]) && Inside(r, active + [i], r.types[i])
  {
    var i := r.indices[key];
    assert Asks(r, ty, i);
    var c := active + [i];
    forall k | 0 <= k < |c| - 1
      ensures Asks(r, r.types[c[k]], c[k + 1])
    {
      if k < |active| - 1 {
        assert Asks(r, r.types[active[k]], active[k + 1]);
      }
    }
  }

  lemma CycleIsReal(r: Registry, active: seq<nat>, ty: Type, key: string, start: nat)
    requires Valid(r) && Stack(r, active) && Inside(r, active, ty)
    requires ty == Query(false, key) && key in r.indices && start < |active| && active[start] == r.indices[key]
    ensures ClosedLookup(r, active[start..] + [r.indices[key]])
  {
    var i := r.indices[key];
    PushInside(r, active, ty, key);
    var all, path := active + [i], active[start..] + [i];
    forall k | 0 <= k < |path|
      ensures path[k] == all[start + k] && path[k] < |r.types|
      ensures k < |path| - 1 ==> Asks(r, r.types[path[k]], path[k + 1])
    {
      if k < |path| - 1 {
        assert Asks(r, r.types[all[start + k]], all[(start + k) + 1]);
      }
    }
    forall j, k | 0 <= j < k < |path| - 1
      ensures path[1..][j] != path[1..][k]
    {
      assert path[1..][j] == active[start + 1 + j];
      assert path[1..][k] == if k == |path| - 2 then active[start] else active[start + 1 + k];
    }
  }

  // ----- success -----

  lemma {:induction false} SucceedsStep(r: Registry, ty: Type, active: seq<nat>)
    requires Valid(r) && Stack(r, active)
    ensures Succeeds(r, ty, active) <==>
              Answered(r, ty) && forall j: nat :: Asks(r, ty, j) ==> Descends(r, j, active)
    decreases ty
  {
    match ty
    case Con(_, args) => AllSucceedStep(r, args, active);
    case Query(dynamic, key) =>
      if !dynamic && key in r.indices {
        var i := r.indices[key];
        assert Asks(r, ty, i) && forall j: nat :: Asks(r, ty, j) ==> j == i;
        assert Succeeds(r, ty, active) <==> Descends(r, i, active);
      }
    case Bad =>
  }

  lemma {:induction false} AllSucceedStep(r: Registry, tys: Types, active: seq<nat>)
    requires Valid(r) && Stack(r, active)
    ensures AllSucceed(r, tys, active) <==>
              AllAnswered(r, tys) && forall j: nat :: AnyAsks(r, tys, j) ==> Descends(r, j, active)
    decreases tys
  {
    if tys.Types? {
      SucceedsStep(r, tys.head, active);
      AllSucceedStep(r, tys.tail, active);
    }
  }

  /** Looking up registration `j` succeeds below `active`. */
  predicate Descends(r: Registry, j: nat, active: seq<nat>)
    requires Valid(r) && Stack(r, active)
  {
    j < |r.types| && j !in active && (PushStack(r, active, j); Succeeds(r, r.types[j], active + [j]))
  }

  lemma {:induction false} SuccessCoversChains(r: Registry, ty: Type, active: seq<nat>, c: seq<nat>)
    requires Valid(r) && Stack(r, active) && Succeeds(r, ty, active) && Chain(r, ty, c)
    ensures Graph.Distinct(active + c) && Answered(r, r.types[c[|c| - 1]])
    decreases |c|
  {
    SucceedsStep(r, ty, active);
    var j := c[0];
    assert Descends(r, j, active);
    PushStack(r, active, j);
    if |c| == 1 {
      SucceedsStep(r, r.types[j], active + [j]);
      assert c == [j];
    } else {
      assert Asks(r, r.types[c[0]], c[0 + 1]);
      ChainTail(r, ty, c);
      SuccessCoversChains(r, r.types[j], active + [j], c[1..]);
      assert active + [j] + c[1..] == active + c;
    }
  }

  lemma ChainTail(r: Registry, ty: Type, c: seq<nat>)
    requires Chain(r, ty, c) && |c| >= 2
    ensures Chain(r, r.types[c[0]], c[1..])
  {
    assert Asks(r, r.types[c[0]], c[0 + 1]);
    forall k | 0 <= k < |c[1..]| - 1
      ensures Asks(r, r.types[c[1..][k]], c[1..][k + 1])
    {
      assert Asks(r, r.types[c[k + 1]], c[(k + 1) + 1]);
    }
  }

  lemma ChainCons(r: Registry, ty: Type, j: nat, c: seq<nat>)
    requires j < |r.types| && Asks(r, ty, j) && (c == [] || Chain(r, r.types[j], c))
    ensures Chain(r, ty, [j] + c)
  {
    var d := [j] + c;
    forall k | 0 <= k < |d| - 1
      ensures Asks(r, r.types[d[k]], d[k + 1])
    {
      if k > 0 {
        assert Asks(r, r.types[c[k - 1]], c[(k - 1) + 1]);
      }
    }
  }

  lemma {:induction false} AsksRegistered(r: Registry, ty: Type, j: nat)
    requires Valid(r) && Asks(r, ty, j)
    ensures j < |r.types|
    decreases ty
  {
    if ty.Con? {
      AnyAsksRegistered(r, ty.args, j);
    }
  }

  lemma {:induction false} AnyAsksRegistered(r: Registry, tys: Types, j: nat)
    requires Valid(r) && AnyAsks(r, tys, j)
    ensures j < |r.types|
    decreases tys
  {
    if Asks(r, tys.head, j) {
      AsksRegistered(r, tys.head, j);
    } else {
      AnyAsksRegistered(r, tys.tail, j);
    }
  }

  /** Chains below a stack that neither repeat nor miss anything. */
  ghost predicate ResolvableBelow(r: Registry, ty: Type, active: seq<nat>)
    requires Valid(r)
  {
    && Answered(r, ty)
    && forall c :: Chain(r, ty, c) ==> Graph.Distinct(active + c) && Answered(r, r.types[c[|c| - 1]])
  }

  lemma NotBelow(active: seq<nat>, j: nat)
    requires Graph.Distinct(active + [j])
    ensures j !in active
  {
    assert forall i :: 0 <= i < |active| ==> (active + [j])[i] == active[i] && (active + [j])[|active|] == j;
  }

  lemma ResolvableStep(r: Registry, ty: Type, active: seq<nat>, j: nat)
    requires Valid(r) && Stack(r, active) && ResolvableBelow(r, ty, active) && Asks(r, ty, j)
    ensures j < |r.types| && j !in active && ResolvableBelow(r, r.types[j], active + [j])
  {
    ResolvableNext(r, ty, active, j);
    forall c | Chain(r, r.types[j], c)
      ensures Graph.Distinct(active + [j] + c) && Answered(r, r.types[c[|c| - 1]])
    {
      ResolvableChain(r, ty, active, j, c);
    }
  }

  lemma ResolvableNext(r: Registry, ty: Type, active: seq<nat>, j: nat)
    requires Valid(r) && ResolvableBelow(r, ty, active) && Asks(r, ty, j)
    ensures j < |r.types| && j !in active && Answered(r, r.types[j])
  {
    AsksRegistered(r, ty, j);
    ChainCons(r, ty, j, []);
    var c := [j] + [];
    assert Chain(r, ty, c) && c == [j] && c[|c| - 1] == j;
    NotBelow(active, j);
  }

  lemma ResolvableChain(r: Registry, ty: Type, active: seq<nat>, j: nat, c: seq<nat>)
    requires Valid(r) && ResolvableBelow(r, ty, active) && Asks(r, ty, j) && j < |r.types|
    requires Chain(r, r.types[j], c)
    ensures Graph.Distinct(active + [j] + c) && Answered(r, r.types[c[|c| - 1]])
  {
    ChainCons(r, ty, j, c);
    var d := [j] + c;
    assert Chain(r, ty, d) && d[|d| - 1] == c[|c| - 1];
    assert active + [j] + c == active + d;
  }

  lemma {:induction false} ResolvableSucceeds(r: Registry, ty: Type, active: seq<nat>)
    requires Valid(r) && Stack(r, active) && ResolvableBelow(r, ty, active)
    ensures Succeeds(r, ty, active)
    decreases |r.types| - |active|
  {
    SucceedsStep(r, ty, active);
    forall j: nat | Asks(r, ty, j)
      ensures Descends(r, j, active)
    {
      ResolvableStep(r, ty, active, j);
      PushStack(r, active, j);
      ResolvableSucceeds(r, r.types[j], active + [j]);
    }
  }

  /** Expansion succeeds exactly on resolvable types. */
  lemma SucceedsIsResolvable(r: Registry, ty: Type)
    requires Valid(r)
    ensures Succeeds(r, ty, []) <==> Resolvable(r, ty)
  {
    forall c: seq<nat>
      ensures [] + c == c
    {
    }
    if Succeeds(r, ty, []) {
      SucceedsStep(r, ty, []);
      forall c | Chain(r, ty, c)
        ensures Graph.Distinct(c) && Answered(r, r.types[c[|c| - 1]])
      {
        SuccessCoversChains(r, ty, [], c);
        assert [] + c == c;
      }
    }
    if Resolvable(r, ty) {
      assert ResolvableBelow(r, ty, []);
      ResolvableSucceeds(r, ty, []);
    }
  }

  // ----- failure -----

  /** A query in `ty` itself cannot be answered, for the reason `e`. */
  predicate Shows(r: Registry, ty: Type, e: Error)
    requires Valid(r)
  {
    match ty
    case Con(_, args) => AnyShows(r, args, e)
    case Query(dynamic, key) =>
      if key !in r.indices then e == Unregistered(key)
      else dynamic && r.dynamic[r.indices[key]].None? && e == NotDynamic(r.indices[key])
    case Bad => e == ParseError
  }

  predicate AnyShows(r: Registry, tys: Types, e: Error)
    requires Valid(r)
  {
    tys.Types? && (Shows(r, tys.head, e) || AnyShows(r, tys.tail, e))
  }

  /** `e` tells the truth: a chain from `ty` leads to such a query, or to a closed path of lookups. */
  ghost predicate Real(r: Registry, ty: Type, e: Error)
    requires Valid(r)
  {
    if e.LookupCycle? then ClosedLookup(r, e.path) && exists c :: Chain(r, ty, c) && c[|c| - 1] == e.path[0]
    else Shows(r, ty, e) || exists c :: Chain(r, ty, c) && Shows(r, r.types[c[|c| - 1]], e)
  }

  ghost predicate AnyReal(r: Registry, tys: Types, e: Error)
    requires Valid(r)
  {
    tys.Types? && (Real(r, tys.head, e) || AnyReal(r, tys.tail, e))
  }

  /** A failing expansion reports a failure that is there. */
  lemma {:induction false} ReportedIsReal(r: Registry, ty: Type, active: seq<nat>)
    requires Valid(r) && Stack(r, active) && Inside(r, active, ty) && !Succeeds(r, ty, active)
    ensures Real(r, ty, Reported(r, ty, active))
    decreases |r.types| - |active|, ty
  {
    match ty
    case Con(_, args) =>
      AllReportedAreReal(r, args, active);
      RealInside(r, ty.name, args, Reported(r, ty, active));
    case Query(dynamic, key) =>
      if key in r.indices && !dynamic {
        var i := r.indices[key];
        if i in active {
          ReportedCycleIsReal(r, active, ty, key);
        } else {
          PushStack(r, active, i);
          PushInside(r, active, ty, key);
          ReportedIsReal(r, r.types[i], active + [i]);
          RealThrough(r, ty, i, Reported(r, r.types[i], active + [i]));
        }
      }
    case Bad =>
  }

  lemma ReportedCycleIsReal(r: Registry, active: seq<nat>, ty: Type, key: string)
    requires Valid(r) && Stack(r, active) && Inside(r, active, ty)
    requires ty == Query(false, key) && key in r.indices && r.indices[key] in active
    ensures var i := r.indices[key]; Real(r, ty, LookupCycle(active[Place(active, i)..] + [i]))
  {
    var i := r.indices[key];
    CycleIsReal(r, active, ty, key, Place(active, i));
    ChainCons(r, ty, i, []);
    var c := [i] + [];
    assert Chain(r, ty, c) && c[|c| - 1] == i;
  }

  lemma RealThrough(r: Registry, ty: Type, i: nat, e: Error)
    requires Valid(r) && i < |r.types| && Asks(r, ty, i) && Real(r, r.types[i], e)
    ensures Real(r, ty, e)
  {
    if !e.LookupCycle? && Shows(r, r.types[i], e) {
      ChainCons(r, ty, i, []);
      assert Chain(r, ty, [i] + []) && ([i] + [])[0] == i;
    } else {
      var c :| Chain(r, r.types[i], c) &&
               if e.LookupCycle? then c[|c| - 1] == e.path[0] else Shows(r, r.types[c[|c| - 1]], e);
      ChainCons(r, ty, i, c);
      assert ([i] + c)[|c|] == c[|c| - 1];
    }
  }

  lemma {:induction false} AllReportedAreReal(r: Registry, tys: Types, active: seq<nat>)
    requires Valid(r) && Stack(r, active) && AllInside(r, active, tys) && !AllSucceed(r, tys, active)
    ensures AnyReal(r, tys, AllReported(r, tys, active))
    decreases |r.types| - |active|, tys
  {
    if AllSucceed(r, tys.tail, active) {
      ReportedIsReal(r, tys.head, active);
    } else {
      AllReportedAreReal(r, tys.tail, active);
    }
  }

  lemma {:induction false} RealInside(r: Registry, name: string, tys: Types, e: Error)
    requires Valid(r) && AnyReal(r, tys, e)
    ensures Real(r, Con(name, tys), e)
    decreases tys
  {
    if Real(r, tys.head, e) {
      if e.LookupCycle? || !Shows(r, tys.head, e) {
        var c :| Chain(r, tys.head, c) &&
                 if e.LookupCycle? then c[|c| - 1] == e.path[0] else Shows(r, r.types[c[|c| - 1]], e);
        assert Chain(r, Con(name, tys), c);
      }
    } else {
      RealInside(r, name, tys.tail, e);
      if e.LookupCycle? || !AnyShows(r, tys.tail, e) {
        var c :| Chain(r, Con(name, tys.tail), c) &&
                 if e.LookupCycle? then c[|c| - 1] == e.path[0] else Shows(r, r.types[c[|c| - 1]], e);
        assert Chain(r, Con(name, tys), c);
      }
    }
  }

  // ----- the result and its dependencies -----

  /** On success the result is the full expansion, whatever its unfolding depth, and no query is left. */
  lemma {:induction false} ExpandedIsUnfolded(r: Registry, ty: Type, active: seq<nat>, n: nat)
    requires Valid(r) && Stack(r, active) && Succeeds(r, ty, active) && n + |active| >= |r.types|
    ensures Expanded(r, ty, active) == Unfold(r, ty, n) && QueryFree(Expanded(r, ty, active))
    decreases n, ty
  {
    match ty
    case Con(_, args) => AllExpandedAreUnfolded(r, args, active, n);
    case Query(dynamic, key) =>
      if !dynamic {
        var i := r.indices[key];
        PushStack(r, active, i);
        ExpandedIsUnfolded(r, r.types[i], active + [i], n - 1);
      }
    case Bad =>
  }

  lemma {:induction false} AllExpandedAreUnfolded(r: Registry, tys: Types, active: seq<nat>, n: nat)
    requires Valid(r) && Stack(r, active) && AllSucceed(r, tys, active) && n + |active| >= |r.types|
    ensures AllExpanded(r, tys, active) == UnfoldAll(r, tys, n) && AllQueryFree(AllExpanded(r, tys, active))
    decreases n, tys
  {
    if tys.Types? {
      ExpandedIsUnfolded(r, tys.head, active, n);
      AllExpandedAreUnfolded(r, tys.tail, active, n);
    }
  }

  ghost predicate ReachedThrough(r: Registry, j: nat, active: seq<nat>, d: nat)
    requires Valid(r) && Stack(r, active)
  {
    j < |r.types| && j !in active && (d == j || (PushStack(r, active, j); d in Reached(r, r.types[j], active + [j])))
  }

  lemma {:induction false} ReachedStep(r: Registry, ty: Type, active: seq<nat>, d: nat)
    requires Valid(r) && Stack(r, active)
    ensures d in Reached(r, ty, active) <==>
              AsksDyn(r, ty, d) || exists j: nat :: Asks(r, ty, j) && ReachedThrough(r, j, active, d)
    decreases ty
  {
    match ty
    case Con(_, args) => AllReachedStep(r, args, active, d);
    case Query(dynamic, key) =>
      if !dynamic && key in r.indices {
        var i := r.indices[key];
        assert Asks(r, ty, i) && forall j: nat :: Asks(r, ty, j) ==> j == i;
        assert d in Reached(r, ty, active) <==> ReachedThrough(r, i, active, d);
      }
    case Bad =>
  }

  lemma {:induction false} AllReachedStep(r: Registry, tys: Types, active: seq<nat>, d: nat)
    requires Valid(r) && Stack(r, active)
    ensures d in AllReached(r, tys, active) <==>
              AnyAsksDyn(r, tys, d) || exists j: nat :: AnyAsks(r, tys, j) && ReachedThrough(r, j, active, d)
    decreases tys
  {
    if tys.Types? {
      ReachedStep(r, tys.head, active, d);
      AllReachedStep(r, tys.tail, active, d);
    }
  }

  ghost predicate NeededThrough(r: Registry, j: nat, d: nat)
    requires Valid(r)
  {
    j < |r.types| && (d == j || Needed(r, r.types[j], d))
  }

  lemma NeededStep(r: Registry, ty: Type, d: nat)
    requires Valid(r)
    ensures Needed(r, ty, d) <==> AsksDyn(r, ty, d) || exists j: nat :: Asks(r, ty, j) && NeededThrough(r, j, d)
  {
    if Needed(r, ty, d) && !AsksDyn(r, ty, d) {
      NeededByChain(r, ty, d);
    }
    forall j: nat | Asks(r, ty, j) && NeededThrough(r, j, d)
      ensures Needed(r, ty, d)
    {
      NeededFrom(r, ty, j, d);
    }
  }

  lemma NeededByChain(r: Registry, ty: Type, d: nat)
    requires Valid(r) && Needed(r, ty, d) && !AsksDyn(r, ty, d)
    ensures exists j: nat :: Asks(r, ty, j) && NeededThrough(r, j, d)
  {
    var c :| Chain(r, ty, c) && (c[|c| - 1] == d || AsksDyn(r, r.types[c[|c| - 1]], d));
    var j := c[0];
    if |c| >= 2 {
      ChainTail(r, ty, c);
      assert c[1..][|c[1..]| - 1] == c[|c| - 1];
    }
    assert Asks(r, ty, j) && NeededThrough(r, j, d);
  }

  lemma NeededFrom(r: Registry, ty: Type, j: nat, d: nat)
    requires Valid(r) && Asks(r, ty, j) && NeededThrough(r, j, d)
    ensures Needed(r, ty, d)
  {
    if d == j || AsksDyn(r, r.types[j], d) {
      var c := [j] + [];
      ChainCons(r, ty, j, []);
      assert Chain(r, ty, c) && c[|c| - 1] == j;
    } else {
      var c :| Chain(r, r.types[j], c) && (c[|c| - 1] == d || AsksDyn(r, r.types[c[|c| - 1]], d));
      ChainCons(r, ty, j, c);
      var longer := [j] + c;
      assert longer[|longer| - 1] == c[|c| - 1];
    }
  }

  /** On success the recorded dependencies are exactly the registrations needed. */
  lemma {:induction false} ReachedIsNeeded(r: Registry, ty: Type, active: seq<nat>)
    requires Valid(r) && Stack(r, active) && Succeeds(r, ty, active)
    ensures forall d: nat :: d in Reached(r, ty, active) <==> Needed(r, ty, d)
    decreases |r.types| - |active|
  {
    SucceedsStep(r, ty, active);
    forall j: nat | Asks(r, ty, j)
      ensures Descends(r, j, active) && Stack(r, active + [j])
      ensures forall d: nat :: d in Reached(r, r.types[j], active + [j]) <==> Needed(r, r.types[j], d)
    {
      assert Descends(r, j, active);
      PushStack(r, active, j);
      ReachedIsNeeded(r, r.types[j], active + [j]);
    }
    forall d: nat
      ensures d in Reached(r, ty, active) <==> Needed(r, ty, d)
    {
      ReachedStep(r, ty, active, d);
      NeededStep(r, ty, d);
    }
  }

  // ----- registrations -----

  /**
   The types written in one registration: the registered type, those in its
   value, and those in its constructor.
   */
  datatype Registration = Registration(ty: Type, value: Types, closure: Option<Types>)

  function Written(g: Registration): Types {
    Types(g.ty, Joined(g.value, if g.closure.Some? then g.closure.value else NoTypes))
  }

  function Joined(a: Types, b: Types): Types {
    match a
    case NoTypes => b
    case Types(head, tail) => Types(head, Joined(tail, b))
  }

  ghost predicate AllResolvable(r: Registry, tys: Types)
    requires Valid(r)
  {
    tys.Types? ==> Resolvable(r, tys.head) && AllResolvable(r, tys.tail)
  }

  ghost predicate AnyNeeds(r: Registry, tys: Types, d: nat)
    requires Valid(r)
  {
    tys.Types? && (Needed(r, tys.head, d) || AnyNeeds(r, tys.tail, d))
  }

  /**
   One lookup for a registration's type, value and constructor, as the macro
   runs it. It fails exactly when one of their queries does not resolve, and
   then reports the last failure met, which is a real one. Otherwise all of
   them are fully expanded, and the dependencies are exactly what they need.
   */
  method ExpandRegistration(r: Registry, g: Registration)
      returns (h: Registration, dependencies: set<nat>, error: Option<Error>)
    requires Valid(r)
    ensures error.None? <==> AllResolvable(r, Written(g))
    ensures error.None? ==> AllQueryFree(Written(h)) && (h.closure.Some? <==> g.closure.Some?)
    ensures error.None? ==> forall n: nat :: n >= |r.types| ==>
              && h.ty == Unfold(r, g.ty, n) && h.value == UnfoldAll(r, g.value, n)
              && (g.closure.Some? ==> h.closure == Some(UnfoldAll(r, g.closure.value, n)))
    ensures error.None? ==> forall d: nat :: d in dependencies <==> AnyNeeds(r, Written(g), d)
    ensures error.Some? ==>
              && !AllSucceed(r, Written(g), []) && error.value == AllReported(r, Written(g), [])
              && AnyReal(r, Written(g), error.value)
  {
    var lookup := new Lookup(r);
    var ty := lookup.VisitType(g.ty);
    var value := lookup.VisitTypes(g.value);
    h := Registration(ty, value, None);
    if g.closure.Some? {
      var expanded := lookup.VisitTypes(g.closure.value);
      h := h.(closure := Some(expanded));
    }
    dependencies, error := lookup.dependencies, lookup.error;
    ghost var rest := if g.closure.Some? then g.closure.value else NoTypes;
    JoinedLookups(r, g.value, rest);
    AllSucceedIsResolvable(r, Written(g));
    if error.Some? {
      AllReportedAreReal(r, Written(g), []);
    }
    if error.None? {
      forall n: nat | n >= |r.types|
        ensures ty == Unfold(r, g.ty, n) && QueryFree(ty)
        ensures value == UnfoldAll(r, g.value, n) && AllQueryFree(value)
        ensures AllExpanded(r, rest, []) == UnfoldAll(r, rest, n) && AllQueryFree(AllExpanded(r, rest, []))
      {
        ExpandedIsUnfolded(r, g.ty, [], n);
        AllExpandedAreUnfolded(r, g.value, [], n);
        AllExpandedAreUnfolded(r, rest, [], n);
      }
      ExpandedIsUnfolded(r, g.ty, [], |r.types|);
      AllExpandedAreUnfolded(r, g.value, [], |r.types|);
      AllExpandedAreUnfolded(r, rest, [], |r.types|);
      JoinedQueryFree(value, AllExpanded(r, rest, []));
      AllReachedAreNeeded(r, Written(g));
    }
  }

  lemma {:induction false} JoinedLookups(r: Registry, a: Types, b: Types)
    requires Valid(r)
    ensures AllSucceed(r, Joined(a, b), []) <==> AllSucceed(r, a, []) && AllSucceed(r, b, [])
    ensures AllReached(r, Joined(a, b), []) == AllReached(r, a, []) + AllReached(r, b, [])
    ensures !AllSucceed(r, Joined(a, b), []) ==>
              AllReported(r, Joined(a, b), []) ==
              if AllSucceed(r, b, []) then AllReported(r, a, []) else AllReported(r, b, [])
    decreases a
  {
    if a.Types? {
      JoinedLookups(r, a.tail, b);
    }
  }

  lemma {:induction false} JoinedQueryFree(a: Types, b: Types)
    ensures AllQueryFree(Joined(a, b)) <==> AllQueryFree(a) && AllQueryFree(b)
    decreases a
  {
    if a.Types? {
      JoinedQueryFree(a.tail, b);
    }
  }

  lemma {:induction false} AllSucceedIsResolvable(r: Registry, tys: Types)
    requires Valid(r)
    ensures AllSucceed(r, tys, []) <==> AllResolvable(r, tys)
    decreases tys
  {
    if tys.Types? {
      SucceedsIsResolvable(r, tys.head);
      AllSucceedIsResolvable(r, tys.tail);
    }
  }

  lemma {:induction false} AllReachedAreNeeded(r: Registry, tys: Types)
    requires Valid(r) && AllSucceed(r, tys, [])
    ensures forall d: nat :: d in AllReached(r, tys, []) <==> AnyNeeds(r, tys, d)
    decreases tys
  {
    if tys.Types? {
      ReachedIsNeeded(r, tys.head, []);
      AllReachedAreNeeded(r, tys.tail);
    }
  }
}
