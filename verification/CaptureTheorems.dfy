/**
 Main results about capture analysis: which captures a plan holds, and that
 invoking a prepared constructor means what invoking the authored closure means.
 */
module CaptureTheorems {
  import opened Options
  import opened Sequences
  import BindingModes
  import opened CaptureSyntax
  import opened CaptureFree
  import CaptureObstacles
  import opened CaptureSemantics
  import opened CaptureVisitor
  import opened CaptureProof

  // ----- the configuring function -----

  datatype Observation = Observation(types: Bindings, imports: seq<Item>, uncertain: bool)

  /** Types and modules of the configuring function; its traits are not among them. */
  function LocalTypes(items: seq<Item>): set<string> {
    if items == [] then {}
    else (if items[0].Type? && !items[0].kind.Trait? then {items[0].name} else {}) + LocalTypes(items[1..])
  }

  /** Whether no leaf of the import starts at a local type or module. */
  predicate Independent(item: Item, local: set<string>)
    requires item.Use?
  {
    forall i :: 0 <= i < |item.imports| ==> item.imports[i].head !in local
  }

  /** An import that can move: it hides no parameter in scope, needs no local type, and all its names are written. */
  predicate Hoistable(item: Item, bound: set<string>, local: set<string>) {
    item.Use? && item.glob.None? && !item.importsSelf && ImportNames(item.imports) !! bound && Independent(item, local)
  }

  /** An item after which some bindings in scope are unknown. */
  predicate Obscures(item: Item, bound: set<string>, local: set<string>) {
    item.ItemMacro? || (item.Use? && !Hoistable(item, bound, local))
  }

  /** Whether one of the first `i` items obscures bindings. */
  predicate Obscured(items: seq<Item>, parameters: Bindings, i: nat)
    requires i <= |items|
  {
    exists j :: 0 <= j < i && Obscures(items[j], parameters.Keys - OwnNames(items[..j]), LocalTypes(items))
  }

  /** A parameter that no function or constant among the first `j` items shadows. */
  predicate Unshadowed(items: seq<Item>, parameters: Bindings, j: nat, x: string)
    requires j <= |items|
  {
    x in parameters && forall h :: 0 <= h < j ==> !((items[h].Fn? || items[h].Const?) && items[h].name == x)
  }

  /** A module or a type other than a trait, anywhere among the items. */
  predicate IsLocalType(items: seq<Item>, x: string) {
    exists h :: 0 <= h < |items| && items[h].Type? && !items[h].kind.Trait? && items[h].name == x
  }

  /** A leaf of import `j` hides a parameter or starts at a local type. */
  predicate LeafSpoils(items: seq<Item>, parameters: Bindings, j: nat, leaf: Import)
    requires j <= |items|
  {
    Unshadowed(items, parameters, j, leaf.name) || IsLocalType(items, leaf.head)
  }

  /**
   Item `j` makes bindings uncertain: it is a macro, or an import that does not
   write its names, hides a parameter or starts at a local type.
   */
  predicate Spoils(items: seq<Item>, parameters: Bindings, j: nat)
    requires j < |items|
  {
    match items[j]
    case ItemMacro => true
    case Use(imports, glob, importsSelf) =>
      glob.Some? || importsSelf || exists k :: 0 <= k < |imports| && LeafSpoils(items, parameters, j, imports[k])
    case _ => false
  }

  predicate Uncertain(items: seq<Item>, parameters: Bindings) {
    exists j :: 0 <= j < |items| && Spoils(items, parameters, j)
  }

  /** The imports among the first `n` items that do not, in order. */
  function CleanImports(items: seq<Item>, parameters: Bindings, n: nat): seq<Item>
    requires n <= |items|
  {
    if n == 0 then []
    else
      CleanImports(items, parameters, n - 1)
      + (if items[n - 1].Use? && !Spoils(items, parameters, n - 1) then [items[n - 1]] else [])
  }

  lemma {:induction false} OwnNamesExactly(items: seq<Item>, x: string)
    ensures x in OwnNames(items) <==>
            exists h :: 0 <= h < |items| && (items[h].Fn? || items[h].Const?) && items[h].name == x
    decreases |items|
  {
    if items != [] {
      OwnNamesExactly(items[1..], x);
      assert forall h :: 1 <= h < |items| ==> items[h] == items[1..][h - 1];
    }
  }

  lemma {:induction false} LocalTypesExactly(items: seq<Item>, x: string)
    ensures x in LocalTypes(items) <==> IsLocalType(items, x)
    decreases |items|
  {
    if items != [] {
      LocalTypesExactly(items[1..], x);
      assert forall h :: 1 <= h < |items| ==> items[h] == items[1..][h - 1];
    }
  }

  /** What the analysis rejects is what spoils, and what it moves are the other imports. */
  lemma ObscuresExactly(items: seq<Item>, parameters: Bindings, j: nat)
    requires j < |items|
    ensures var bound, local := parameters.Keys - OwnNames(items[..j]), LocalTypes(items);
            && (Obscures(items[j], bound, local) <==> Spoils(items, parameters, j))
            && (Hoistable(items[j], bound, local) <==> items[j].Use? && !Spoils(items, parameters, j))
  {
    var bound, local := parameters.Keys - OwnNames(items[..j]), LocalTypes(items);
    if items[j].Use? {
      var imports := items[j].imports;
      forall k | 0 <= k < |imports|
        ensures LeafSpoils(items, parameters, j, imports[k]) <==> imports[k].name in bound || imports[k].head in local
      {
        LeafSpoilsExactly(items, parameters, j, imports[k]);
      }
      NamesApart(imports, bound);
    }
  }

  lemma ObscuredIsUncertain(items: seq<Item>, parameters: Bindings)
    ensures Obscured(items, parameters, |items|) <==> Uncertain(items, parameters)
  {
    forall j | 0 <= j < |items|
      ensures Obscures(items[j], parameters.Keys - OwnNames(items[..j]), LocalTypes(items)) <==>
              Spoils(items, parameters, j)
    {
      ObscuresExactly(items, parameters, j);
    }
  }

  lemma LeafSpoilsExactly(items: seq<Item>, parameters: Bindings, j: nat, leaf: Import)
    requires j < |items|
    ensures LeafSpoils(items, parameters, j, leaf) <==>
            leaf.name in parameters.Keys - OwnNames(items[..j]) || leaf.head in LocalTypes(items)
  {
    OwnNamesExactly(items[..j], leaf.name);
    LocalTypesExactly(items, leaf.head);
    assert forall h :: 0 <= h < j ==> items[..j][h] == items[h];
  }

  lemma NamesApart(imports: seq<Import>, bound: set<string>)
    ensures ImportNames(imports) !! bound <==> forall k :: 0 <= k < |imports| ==> imports[k].name !in bound
  {
  }

  predicate Movable(imports: seq<Item>, local: set<string>) {
    forall use :: use in imports ==> use.Use? && use.glob.None? && !use.importsSelf && Independent(use, local)
  }

  /**
   Items shadow parameters throughout the body. Imports whose names are
   written, that hide nothing and need no local type are moved into the
   generated module; any other, and any macro, makes the bindings uncertain.
   */
  method ObserveItems(items: seq<Item>, parameters: Bindings) returns (o: Observation)
    ensures o.types == parameters - OwnNames(items)
    ensures o.uncertain <==> Uncertain(items, parameters)
    ensures o.imports == CleanImports(items, parameters, |items|)
    ensures Movable(o.imports, LocalTypes(items))
    ensures !o.uncertain ==> o.imports == Uses(items) && Plain(items, o.types.Keys)
  {
    o := Observation(parameters, [], false);
    for i := 0 to |items|
      invariant Observed(items, parameters, i, o)
    {
      ghost var before := o;
      o := ObserveItem(o, items[i], LocalTypes(items));
      ObservedMore(items, parameters, i, before, o);
    }
    assert items[..|items|] == items;
    ObscuredIsUncertain(items, parameters);
  }

  method ObserveItem(before: Observation, item: Item, local: set<string>) returns (o: Observation)
    ensures After(before, item, local, o)
  {
    o := before;
    if item.Fn? || item.Const? {
      o := o.(types := o.types - {item.name});
    } else if item.ItemMacro? || (item.Use? && !Hoistable(item, o.types.Keys, local)) {
      o := o.(uncertain := true);
    } else if item.Use? {
      o := o.(imports := o.imports + [item]);
    }
  }

  predicate After(before: Observation, item: Item, local: set<string>, o: Observation) {
    && o.types == before.types - (if item.Fn? || item.Const? then {item.name} else {})
    && (o.uncertain <==> before.uncertain || Obscures(item, before.types.Keys, local))
    && o.imports == before.imports + (if Hoistable(item, before.types.Keys, local) then [item] else [])
  }

  /** What the first `i` items show. */
  predicate Observed(items: seq<Item>, parameters: Bindings, i: nat, o: Observation)
    requires i <= |items|
  {
    && o.types == parameters - OwnNames(items[..i])
    && (o.uncertain <==> Obscured(items, parameters, i))
    && o.imports == CleanImports(items, parameters, i)
    && Movable(o.imports, LocalTypes(items))
    && (!o.uncertain ==> o.imports == Uses(items[..i]) && Plain(items[..i], o.types.Keys))
  }

  lemma ObservedMore(items: seq<Item>, parameters: Bindings, i: nat, before: Observation, o: Observation)
    requires i < |items| && Observed(items, parameters, i, before) && After(before, items[i], LocalTypes(items), o)
    ensures Observed(items, parameters, i + 1, o)
  {
    var own := if items[i].Fn? || items[i].Const? then {items[i].name} else {};
    OneMoreItem(items, i);
    KeysLess(parameters, OwnNames(items[..i]), own);
    ObscuredMore(items, parameters, i);
    ObscuresExactly(items, parameters, i);
    PlainMore(items, i, before, o);
  }

  lemma ObscuredMore(items: seq<Item>, parameters: Bindings, i: nat)
    requires i < |items|
    ensures Obscured(items, parameters, i + 1) <==>
              || Obscured(items, parameters, i)
              || Obscures(items[i], parameters.Keys - OwnNames(items[..i]), LocalTypes(items))
  {
  }

  lemma PlainMore(items: seq<Item>, i: nat, before: Observation, o: Observation)
    requires i < |items| && After(before, items[i], LocalTypes(items), o)
    requires !before.uncertain ==> Plain(items[..i], before.types.Keys)
    ensures !o.uncertain ==> Plain(items[..i + 1], o.types.Keys)
  {
    StillPlain(items, i, before.types.Keys, LocalTypes(items));
    if items[i].Fn? || items[i].Const? {
      assert o.types.Keys <= before.types.Keys;
      StillPlain(items, i, o.types.Keys, LocalTypes(items));
    }
  }

  lemma KeysLess(types: Bindings, names: set<string>, more: set<string>)
    ensures (types - names).Keys == types.Keys - names
    ensures types - names - more == types - (names + more)
  {
  }

  lemma {:induction false} OwnSnoc(items: seq<Item>, item: Item)
    ensures OwnNames(items + [item]) == OwnNames(items) + OwnNames([item])
    decreases |items|
  {
    if items == [] {
      assert items + [item] == [item];
    } else {
      assert (items + [item])[1..] == items[1..] + [item];
      OwnSnoc(items[1..], item);
    }
  }

  lemma {:induction false} UsesSnoc(items: seq<Item>, item: Item)
    ensures Uses(items + [item]) == Uses(items) + Uses([item])
    decreases |items|
  {
    if items == [] {
      assert items + [item] == [item];
    } else {
      var head := if items[0].Use? then [items[0]] else [];
      assert (items + [item])[1..] == items[1..] + [item];
      UsesSnoc(items[1..], item);
      Associates(head, Uses(items[1..]), Uses([item]));
    }
  }

  lemma OneMoreItem(items: seq<Item>, i: nat)
    requires i < |items|
    ensures items[..i + 1] == items[..i] + [items[i]]
    ensures OwnNames(items[..i + 1]) ==
            OwnNames(items[..i]) + (if items[i].Fn? || items[i].Const? then {items[i].name} else {})
    ensures Uses(items[..i + 1]) == Uses(items[..i]) + (if items[i].Use? then [items[i]] else [])
  {
    assert items[..i + 1] == items[..i] + [items[i]];
    OwnSnoc(items[..i], items[i]);
    UsesSnoc(items[..i], items[i]);
    assert [items[i]][1..] == [];
  }

  /** The observation describes the scope just after the items: they lie above the parameters. */
  lemma ObservationConfigures(items: seq<Item>, parameters: Bindings, o: Observation, scope: Env)
    requires o.types == parameters - OwnNames(items) && (!o.uncertain ==> Plain(items, o.types.Keys))
    requires OuterLocals(scope) && AuthoredE(scope) && LocalNames(scope) == parameters.Keys
    ensures Configures(o.types, o.uncertain, Items(items, scope))
  {
  }

  /** A later `let` adds its name to both. */
  lemma DeclarationConfigures(types: Bindings, uncertain: bool, outer: Env, x: string, ty: Option<BindingModes.Type>,
                              v: Value)
    requires Configures(types, uncertain, outer) && AuthoredV(v)
    ensures Configures(types[x := ty], uncertain, Bind(x, v, outer))
  {
  }

  /** Imports that hid nothing hide nothing of less. */
  lemma StillPlain(items: seq<Item>, i: nat, bound: set<string>, local: set<string>)
    requires i < |items|
    ensures Plain(items[..i], bound) ==> forall less :: less <= bound ==> Plain(items[..i], less)
    ensures Plain(items[..i], bound) && (items[i].Use? ==> Hoistable(items[i], bound, local)) ==>
              Plain(items[..i + 1], bound)
  {
    assert forall j :: 0 <= j < i ==> items[..i][j] == items[j] && items[..i + 1][j] == items[j];
    assert items[..i + 1][i] == items[i];
  }

  // ----- planning -----

  datatype Plan = Plan(captures: seq<Capture>, closure: Expr, native: bool)

  function AllSites(closure: Expr): seq<Site> {
    Sites(closure, {}, false)
  }

  /**
   A plan either leaves the closure to the compiler's own capture, or rewrites
   it. `uncertain` says that the configuring function hides some bindings.
   */
  predicate Planned(plan: Plan, closure: Expr, types: Bindings, uncertain: bool) {
    && closure.Closure? && plan.closure.Closure? && plan.closure.params == closure.params
    && (plan.native <==> uncertain || Invokes(closure) || !Accepts(types, AllSites(closure)))
    && (plan.native ==> plan.captures == [] && plan.closure == closure)
    && (!plan.native ==>
          plan.captures == Collect(types, [], AllSites(closure)) && plan.closure == Subst(closure, {}, plan.captures))
  }

  method Prepare(closure: Expr, types: Bindings, uncertain: bool) returns (plan: Plan)
    requires closure.Closure?
    ensures Planned(plan, closure, types, uncertain)
    ensures !plan.native <==> !uncertain && CaptureObstacles.Reconstructable(closure, types)
  {
    CaptureObstacles.AcceptedExactly(types, closure);
    if Invokes(closure) || uncertain {
      return Plan([], closure, true);
    }
    var visitor := new Visitor(types);
    var rewritten := visitor.VisitExpr(closure);
    if visitor.failed {
      return Plan([], closure, true);
    }
    CollectRecorded(types, [], AllSites(closure));
    assert Later(types, visitor.captures, visitor.captures);
    plan := Plan(visitor.captures, rewritten, false);
  }

  /**
   A closure is reconstructed exactly when the bindings in scope are certain,
   nothing in it is opaque, every outer binding that is free in it has a known
   type and is not used below a block glob, and no block import has the name of
   an outer binding.
   */
  lemma ReconstructedExactly(plan: Plan, closure: Expr, types: Bindings, uncertain: bool)
    requires Planned(plan, closure, types, uncertain)
    ensures var o := CaptureObstacles.Of(closure);
            !plan.native <==>
              && !uncertain && !o.invoked && !o.hidden
              && (forall x :: x in Free(closure) && x in types ==> types[x].Some?)
              && o.globbed !! types.Keys && o.imported !! types.Keys
  {
    CaptureObstacles.AcceptedExactly(types, closure);
  }

  // ----- the capture list -----

  predicate Distinct(caps: seq<Capture>) {
    forall i, j :: 0 <= i < j < |caps| ==> caps[i].name != caps[j].name
  }

  predicate Names(caps: seq<Capture>, x: string) {
    IndexOf(caps, x).Some?
  }

  lemma {:induction false} CollectRecorded(types: Bindings, caps: seq<Capture>, sites: seq<Site>)
    requires Recorded(types, caps)
    ensures Recorded(types, Collect(types, caps, sites))
    decreases |sites|
  {
    if sites != [] {
      CollectRecorded(types, Noted(types, caps, sites[0]), sites[1..]);
    }
  }

  lemma NotedName(types: Bindings, caps: seq<Capture>, s: Site, x: string)
    requires Admits(types, s)
    ensures Names(Noted(types, caps, s), x) <==> Names(caps, x) || (s.Ref? && s.name == x && x in types)
  {
    var noted := Noted(types, caps, s);
    if Names(caps, x) {
      assert noted[IndexOf(caps, x).value].name == x;
    } else if |noted| > |caps| {
      assert noted[|caps|].name == s.name;
    }
    if Names(noted, x) && !Names(caps, x) {
      assert noted[IndexOf(noted, x).value].name == x;
    }
  }

  /** A name is captured exactly when some reference to it is recorded. */
  lemma {:induction false} CollectNames(types: Bindings, caps: seq<Capture>, sites: seq<Site>, x: string)
    requires Accepts(types, sites)
    ensures Names(Collect(types, caps, sites), x) <==> Names(caps, x) || (x in types && x in Refs(sites))
    decreases |sites|
  {
    if sites != [] {
      assert Admits(types, sites[0]);
      NotedName(types, caps, sites[0], x);
      assert forall i :: 0 <= i < |sites[1..]| ==> sites[1..][i] == sites[i + 1];
      CollectNames(types, Noted(types, caps, sites[0]), sites[1..], x);
      assert sites == [sites[0]] + sites[1..];
      RefsAppend([sites[0]], sites[1..]);
      assert Refs([sites[0]]) == if sites[0].Ref? then {sites[0].name} else {};
    }
  }

  lemma {:induction false} CollectDistinct(types: Bindings, caps: seq<Capture>, sites: seq<Site>)
    requires Distinct(caps)
    ensures Distinct(Collect(types, caps, sites))
    ensures Extends(caps, Collect(types, caps, sites))
    decreases |sites|
  {
    if sites != [] {
      var noted := Noted(types, caps, sites[0]);
      assert forall i :: 0 <= i < |caps| ==> noted[i] == caps[i];
      CollectDistinct(types, noted, sites[1..]);
    }
  }

  predicate Annotated(types: Bindings, caps: seq<Capture>) {
    forall i :: 0 <= i < |caps| ==> caps[i].name in types && types[caps[i].name] == Some(caps[i].ty)
  }

  /** Each capture carries the annotated type of its binding. */
  lemma {:induction false} CollectTypes(types: Bindings, caps: seq<Capture>, sites: seq<Site>)
    requires Annotated(types, caps)
    ensures Annotated(types, Collect(types, caps, sites))
    decreases |sites|
  {
    if sites != [] {
      CollectTypes(types, Noted(types, caps, sites[0]), sites[1..]);
    }
  }

  /** Every capture made for a prefix of the visit precedes those made afterwards. */
  lemma CollectInVisitOrder(types: Bindings, earlier: seq<Site>, later: seq<Site>)
    ensures Extends(Collect(types, [], earlier), Collect(types, [], earlier + later))
  {
    CollectAppend(types, [], earlier, later);
    CollectDistinct(types, [], earlier);
    CollectDistinct(types, Collect(types, [], earlier), later);
  }

  /**
   The captures of an accepted closure are its free variables among the outer
   bindings: each once, with its annotated type.
   */
  lemma CapturesAreFreeVariables(types: Bindings, closure: Expr)
    requires Accepts(types, AllSites(closure))
    ensures var caps := Collect(types, [], AllSites(closure));
            && Distinct(caps)
            && (set i | 0 <= i < |caps| :: caps[i].name) == Free(closure) * types.Keys
            && Annotated(types, caps)
  {
    var sites := AllSites(closure);
    var caps := Collect(types, [], sites);
    CollectDistinct(types, [], sites);
    CollectTypes(types, [], sites);
    SitesFree(closure, {}, false);
    forall x
      ensures x in Free(closure) * types.Keys <==> Names(caps, x)
    {
      CollectNames(types, [], sites, x);
    }
    var names := set i | 0 <= i < |caps| :: caps[i].name;
    forall x
      ensures x in names <==> Names(caps, x)
    {
      if Names(caps, x) {
        assert caps[IndexOf(caps, x).value].name in names;
      }
    }
  }

  /** A reconstructed closure differs from the authored one exactly if it captures something. */
  lemma RewrittenWhereCaptured(plan: Plan, closure: Expr, types: Bindings, uncertain: bool)
    requires Planned(plan, closure, types, uncertain)
    ensures plan.closure == closure <==> plan.captures == []
  {
    if !plan.native {
      SubstTouches(closure, {}, plan.captures);
      CapturesAreFreeVariables(types, closure);
      assert CapturedNames(plan.captures) == set i | 0 <= i < |plan.captures| :: plan.captures[i].name;
      if plan.captures != [] {
        assert plan.captures[0].name in CapturedNames(plan.captures);
      }
    }
  }

  // ----- meaning -----

  /** Results without closures. */
  predicate FirstOrder(v: Value) {
    match v
    case Int(_) => true
    case Tup(vs) => forall i :: 0 <= i < |vs| ==> FirstOrder(vs[i])
    case Rec(_, _, vs) => forall i :: 0 <= i < |vs| ==> FirstOrder(vs[i])
    case Clo(_, _, _) => false
  }

  lemma {:induction false} FirstOrderEqual(k: Link, v: Value, w: Value)
    requires FirstOrder(v) && RelV(k, v, w)
    ensures v == w
  {
    match v
    case Int(_) =>
    case Tup(vs) =>
      forall i | 0 <= i < |vs| ensures vs[i] == w.elems[i] { FirstOrderEqual(k, vs[i], w.elems[i]); }
    case Rec(_, _, vs) =>
      forall i | 0 <= i < |vs| ensures vs[i] == w.fields[i] { FirstOrderEqual(k, vs[i], w.fields[i]); }
    case Clo(_, _, _) =>
  }

  /**
   The configuring function's scope, as the analysis saw it: if nothing was
   uncertain, exactly the recorded bindings are in scope there.
   */
  predicate Configures(types: Bindings, uncertain: bool, outer: Env) {
    AuthoredE(outer) && (!uncertain ==> FunctionScope(outer) && PlainScope(outer) && Visible(outer) == types.Keys)
  }

  lemma {:induction false} VisiblePresent(env: Env, x: string)
    requires FunctionScope(env) && x in Visible(env)
    ensures LocalValue(env, x).Some?
    decreases env
  {
    match env
    case Bind(y, _, rest) =>
      if y != x {
        VisiblePresent(rest, x);
      }
    case Items(_, rest) => ParameterPresent(rest, x);
    case _ =>
  }

  lemma {:induction false} ParameterPresent(env: Env, x: string)
    requires OuterLocals(env) && x in LocalNames(env)
    ensures LocalValue(env, x).Some?
    decreases env
  {
    if env.name != x {
      ParameterPresent(env.rest, x);
    }
  }

  function CapturedValues(caps: seq<Capture>, outer: Env): (values: seq<Value>)
    requires FunctionScope(outer) && forall i :: 0 <= i < |caps| ==> caps[i].name in Visible(outer)
    ensures |values| == |caps|
    ensures forall i :: 0 <= i < |caps| ==> LocalValue(outer, caps[i].name) == Some(values[i])
  {
    if caps == [] then []
    else
      VisiblePresent(outer, caps[0].name);
      [LocalValue(outer, caps[0].name).value] + CapturedValues(caps[1..], outer)
  }

  lemma PlannedRecorded(plan: Plan, closure: Expr, types: Bindings, uncertain: bool)
    requires Planned(plan, closure, types, uncertain)
    ensures Recorded(types, plan.captures)
  {
    CollectRecorded(types, [], AllSites(closure));
  }

  /** The generated module, with the imports of the configuring function. */
  function Destination(outer: Env): Env {
    Moved(Uses(FunctionItems(outer)))
  }

  /**
   Where a constructor body runs. A native closure stays in the configuring
   function; a reconstructed one is moved out of it, and keeps only the tuple.
   */
  function Home(plan: Plan, types: Bindings, outer: Env): Env
    requires Recorded(types, plan.captures)
    requires !plan.native ==> FunctionScope(outer) && Visible(outer) == types.Keys
  {
    if plan.native then outer else Captured(CapturedValues(plan.captures, outer), Destination(outer))
  }

  /** How values before and after conversion correspond; nothing changes for a native plan. */
  function Linking(plan: Plan, types: Bindings, outer: Env): Link {
    if plan.native then Link(map[], [], Top) else Link(types, plan.captures, outer)
  }

  // ----- which names move with a closure -----

  /** What `closure` mentions besides its own names and the bindings of the configuring function. */
  function OuterNames(closure: Expr, types: Bindings): set<Mention> {
    Outer(closure) - Bodies(types.Keys)
  }

  /** None of that is left behind. */
  predicate Stays(closure: Expr, types: Bindings, outer: Env) {
    OuterNames(closure, types) !! LeftBehind(FunctionItems(outer))
  }

  /** What is mentioned means the same in the generated module. */
  ghost predicate SameMention(world: World, m: Mention, outer: Env) {
    match m
    case InBody(x) => Lookup(world, outer, One(x)) == Lookup(world, Destination(outer), One(x))
    case InItem(x) => Lookup(world, ItemsOnly(outer), One(x)) == Lookup(world, Destination(outer), One(x))
    case AsType(x) =>
      forall rest ::
        && Lookup(world, outer, Under(x, rest)) == Lookup(world, Destination(outer), Under(x, rest))
        && Lookup(world, ItemsOnly(outer), Under(x, rest)) == Lookup(world, Destination(outer), Under(x, rest))
  }

  ghost predicate SameNames(world: World, closure: Expr, types: Bindings, outer: Env) {
    forall m :: m in OuterNames(closure, types) ==> SameMention(world, m, outer)
  }

  /** Well-formed modules: values are authored, and no binding has the name of a constant. */
  predicate Possible(world: World, types: Bindings, outer: Env) {
    AuthoredW(world) && Lawful(Link(types, [], outer), world)
  }

  /**
   The names of a moved closure keep their meaning, whatever the module
   declares, exactly when none of them stays behind.
   */
  lemma NamesKeepMeaning(closure: Expr, types: Bindings, outer: Env)
    requires Configures(types, false, outer) && ImportsResolve(FunctionItems(outer))
    ensures (forall world :: Possible(world, types, outer) ==> SameNames(world, closure, types, outer)) <==>
              Stays(closure, types, outer)
  {
    if Stays(closure, types, outer) {
      forall world, m | m in OuterNames(closure, types)
        ensures SameMention(world, m, outer)
      {
        MentionKept(world, types, outer, m);
      }
    } else {
      var m :| m in OuterNames(closure, types) && m in LeftBehind(FunctionItems(outer));
      Stranded(types, outer, m);
      assert !SameMention(EMPTY, m, outer);
      assert !SameNames(EMPTY, closure, types, outer);
    }
  }

  lemma MentionKept(world: World, types: Bindings, outer: Env, m: Mention)
    requires Configures(types, false, outer) && m !in Bodies(types.Keys) && m !in LeftBehind(FunctionItems(outer))
    ensures SameMention(world, m, outer)
  {
    LostBoth(FunctionItems(outer), m.name);
    if m.AsType? {
      forall rest
        ensures Lookup(world, outer, Under(m.name, rest)) == Lookup(world, Destination(outer), Under(m.name, rest))
        ensures Lookup(world, ItemsOnly(outer), Under(m.name, rest)) ==
                  Lookup(world, Destination(outer), Under(m.name, rest))
      {
        LookupModule(world, outer, Under(m.name, rest));
      }
    } else {
      LookupModule(world, outer, One(m.name));
    }
  }

  /** A module that declares nothing. */
  const EMPTY: World := World(map[])

  /** Whether the first segment of `w` leads to a definition. */
  predicate Leads(rib: seq<Item>, w: Name, n: nat)
    decreases n
  {
    if Defined(rib, w).Some? then Defined(rib, w).value.Some?
    else n > 0 && ImportFor(rib, w).Some? && Leads(rib, Redirect(ImportFor(rib, w).value, w), n - 1)
  }

  /** Rust rejects imports of what does not exist. */
  predicate ImportsResolve(items: seq<Item>) {
    forall m :: m in LeftBehind(items) ==> Leads(items, Lookups(m), Leaves(items) + 1)
  }

  lemma {:induction false} FoundInRib(rib: seq<Item>, w: Name, scope: Env, n: nat)
    requires Leads(rib, w, n)
    ensures InRib(EMPTY, rib, w, scope, Top, n).Some? && InRib(EMPTY, rib, w, scope, Top, n).value.Entity?
    decreases n
  {
    if Defined(rib, w).None? {
      FoundInRib(rib, Redirect(ImportFor(rib, w).value, w), scope, n - 1);
    }
  }

  /** Moved imports lead to nothing in a module that declares nothing. */
  lemma {:induction false} NotFoundInModule(rib: seq<Item>, w: Name, n: nat)
    requires !ItemsGlob(rib)
    ensures Target(EMPTY, Uses(rib), w, Top, Top, n) == Unknown
    decreases n
  {
    UsesDefineNothing(rib, w);
    UsesKeepGlobs(rib);
    if ImportFor(Uses(rib), w).None? {
      RibIsClosed(EMPTY, Uses(rib), w, Top, Top, n);
    } else if n > 0 {
      NotFoundInModule(rib, Redirect(ImportFor(Uses(rib), w).value, w), n - 1);
    }
  }

  /** What stays behind is found in the configuring function, and not in an otherwise empty module. */
  lemma Stranded(types: Bindings, outer: Env, m: Mention)
    requires Configures(types, false, outer) && ImportsResolve(FunctionItems(outer))
    requires m in LeftBehind(FunctionItems(outer))
    ensures m !in Bodies(types.Keys) ==>
              Lookup(EMPTY, if m.InItem? then ItemsOnly(outer) else outer, Lookups(m)).Entity?
    ensures Lookup(EMPTY, ItemsOnly(outer), Lookups(m)).Entity?
    ensures Lookup(EMPTY, Destination(outer), Lookups(m)) == Unknown
    ensures Possible(EMPTY, types, outer)
  {
    StrandedThere(outer, Lookups(m));
    NotThere(outer, Lookups(m));
    EmptyIsPossible(types, outer);
  }

  lemma NotThere(outer: Env, w: Name)
    requires FunctionScope(outer) && PlainScope(outer)
    ensures Lookup(EMPTY, Destination(outer), w) == Unknown
  {
    var items := FunctionItems(outer);
    NoFunctionGlob(outer);
    NotFoundInModule(items, w, Leaves(Uses(items)) + 1);
  }

  lemma EmptyIsPossible(types: Bindings, outer: Env)
    requires FunctionScope(outer) && PlainScope(outer)
    ensures Possible(EMPTY, types, outer)
  {
    forall x | x in types
      ensures !IsConstant(Lookup(EMPTY, Module(Link(types, [], outer)), One(x)))
    {
      NotThere(outer, One(x));
    }
  }

  lemma {:induction false} NoFunctionGlob(outer: Env)
    requires FunctionScope(outer) && PlainScope(outer)
    ensures !ItemsGlob(FunctionItems(outer))
    decreases outer
  {
    match outer
    case Bind(_, _, rest) => NoFunctionGlob(rest);
    case Items(items, rest) => PlainHasNoGlob(items, LocalNames(rest) - OwnNames(items));
    case _ =>
  }

  lemma {:induction false} StrandedThere(outer: Env, w: Name)
    requires FunctionScope(outer) && Leads(FunctionItems(outer), w, Leaves(FunctionItems(outer)) + 1)
    ensures !(w.One? && w.name in Visible(outer)) ==> Lookup(EMPTY, outer, w).Entity?
    ensures Lookup(EMPTY, ItemsOnly(outer), w).Entity?
    decreases outer
  {
    match outer
    case Top =>
    case Bind(_, _, rest) => StrandedThere(rest, w);
    case Items(items, rest) =>
      ItemsOnlyOnce(outer);
      ParametersHaveNoItems(rest);
      FoundInRib(items, w, ItemsOnly(outer), Leaves(items) + 1);
  }

  lemma CollectLinked(k: Link, sites: seq<Site>, all: seq<Site>)
    requires Accepts(k.types, all) && k.caps == Collect(k.types, [], all)
    requires Accepts(k.types, sites) && forall i :: 0 <= i < |sites| ==> sites[i] in all
    ensures Linked(k, sites)
    decreases |sites|
  {
    if sites != [] {
      assert Admits(k.types, sites[0]);
      if sites[0].Ref? {
        CollectNames(k.types, [], all, sites[0].name);
        assert sites[0].name in Refs(all);
      }
      assert forall i :: 0 <= i < |sites[1..]| ==> sites[1..][i] == sites[i + 1];
      CollectLinked(k, sites[1..], all);
    }
  }

  /**
   Closure conversion preserves evaluation: for every closure, binding table,
   configuring scope, module, initial cells and fuel, invoking the prepared
   constructor has the outcome of invoking the authored one, provided the plan
   is native or nothing that the closure mentions stays behind. Side effects
   and control flow are equal; returned closures are related by the simulation.
   */
  lemma ConversionPreservesEvaluation(plan: Plan, closure: Expr, types: Bindings, uncertain: bool,
                                      outer: Env, world: World, cells: Cells, fuel: nat)
    requires Planned(plan, closure, types, uncertain) && Parsed(closure) && closure.params.PNil?
    requires Configures(types, uncertain, outer) && AuthoredW(world)
    requires plan.native || (Stays(closure, types, outer) && Possible(world, types, outer))
    ensures Recorded(types, plan.captures)
    ensures RelO(Linking(plan, types, outer),
                 Eval(world, closure.body, outer, cells, fuel),
                 Eval(world, plan.closure.body, Home(plan, types, outer), cells, fuel))
  {
    PlannedRecorded(plan, closure, types, uncertain);
    var k := Linking(plan, types, outer);
    if plan.native {
      SelfE(k, outer);
    } else {
      PreparedIsReady(plan, closure, types, outer, world);
    }
    SimExpr(k, world, closure.body, outer, Home(plan, types, outer), cells, fuel);
  }

  lemma PreparedIsReady(plan: Plan, closure: Expr, types: Bindings, outer: Env, world: World)
    requires Planned(plan, closure, types, false) && !plan.native && Parsed(closure) && closure.params.PNil?
    requires Configures(types, false, outer) && Recorded(types, plan.captures)
    requires Stays(closure, types, outer) && Possible(world, types, outer)
    ensures var k, home := Linking(plan, types, outer), Home(plan, types, outer);
            && WellLinked(k, world) && RelE(k, outer, home) && Ready(k, closure.body, home)
            && Image(k, closure.body, home) == plan.closure.body
  {
    var k, home := Linking(plan, types, outer), Home(plan, types, outer);
    assert PatsNames(closure.params) == {} && PatsOuter(closure.params) == {} && PatsSites(closure.params) == [];
    assert {} + PatsNames(closure.params) == {};
    var sites := Sites(closure.body, {}, false);
    assert AllSites(closure) == [] + sites;
    assert AllSites(closure) == sites;
    CollectLinked(k, sites, sites);
    assert Lawful(Link(types, [], outer), world) == Lawful(k, world) by {
      assert Module(Link(types, [], outer)) == Module(k);
    }
    assert Bodies({}) == {} && Outer(closure) == {} + (Outer(closure.body) - {});
  }

  /** A first-order result is the same value. */
  lemma ConversionPreservesResults(plan: Plan, closure: Expr, types: Bindings, uncertain: bool,
                                   outer: Env, world: World, cells: Cells, fuel: nat)
    requires Planned(plan, closure, types, uncertain) && Parsed(closure) && closure.params.PNil?
    requires Configures(types, uncertain, outer) && AuthoredW(world)
    requires plan.native || (Stays(closure, types, outer) && Possible(world, types, outer))
    ensures Recorded(types, plan.captures)
    ensures var before := Eval(world, closure.body, outer, cells, fuel);
            var after := Eval(world, plan.closure.body, Home(plan, types, outer), cells, fuel);
            && (before.Done? && FirstOrder(before.value) ==> after == before)
            && (before.Returned? && FirstOrder(before.value) ==> after == before)
            && (!before.Done? && !before.Returned? ==> after == before)
  {
    ConversionPreservesEvaluation(plan, closure, types, uncertain, outer, world, cells, fuel);
    var k := Linking(plan, types, outer);
    var before := Eval(world, closure.body, outer, cells, fuel);
    var after := Eval(world, plan.closure.body, Home(plan, types, outer), cells, fuel);
    if (before.Done? || before.Returned?) && FirstOrder(before.value) {
      FirstOrderEqual(k, before.value, after.value);
    }
  }

  // ----- from a configuring function to its constructors -----

  datatype Let = Let(name: string, ty: Option<BindingModes.Type>)

  /** A configuring function up to a registration: its parameters, the items of its body, and the `let`s so far. */
  datatype Function = Function(parameters: Bindings, items: seq<Item>, lets: seq<Let>)

  function WithLets(types: Bindings, lets: seq<Let>): Bindings
    decreases |lets|
  {
    if lets == [] then types else WithLets(types, lets[..|lets| - 1])[lets[|lets| - 1].name := lets[|lets| - 1].ty]
  }

  /** The scope there, in some run. */
  predicate ScopeAt(f: Function, lets: seq<Let>, env: Env)
    decreases |lets|
  {
    if lets == [] then
      && env.Items? && env.items == f.items
      && OuterLocals(env.rest) && AuthoredE(env.rest) && LocalNames(env.rest) == f.parameters.Keys
    else
      && env.Bind? && env.name == lets[|lets| - 1].name && AuthoredV(env.value)
      && ScopeAt(f, lets[..|lets| - 1], env.rest)
  }

  lemma {:induction false} ScopeConfigures(f: Function, o: Observation, lets: seq<Let>, env: Env)
    requires o.types == f.parameters - OwnNames(f.items) && (!o.uncertain ==> Plain(f.items, o.types.Keys))
    requires ScopeAt(f, lets, env)
    ensures Configures(WithLets(o.types, lets), o.uncertain, env)
    decreases |lets|
  {
    if lets == [] {
      ObservationConfigures(f.items, f.parameters, o, env.rest);
    } else {
      var rest, last := lets[..|lets| - 1], lets[|lets| - 1];
      ScopeConfigures(f, o, rest, env.rest);
      DeclarationConfigures(WithLets(o.types, rest), o.uncertain, env.rest, last.name, last.ty, env.value);
    }
  }

  /**
   From source to behaviour: in every run of the configuring function, the
   constructor that is prepared from its text evaluates as the authored one,
   unless it is moved and mentions something that stays behind.
   */
  method PrepareIn(f: Function, closure: Expr) returns (types: Bindings, plan: Plan)
    requires closure.Closure? && Parsed(closure) && closure.params.PNil?
    ensures types == WithLets(f.parameters - OwnNames(f.items), f.lets)
    ensures plan.closure.Closure? && Recorded(types, plan.captures)
    ensures plan.native <==> Uncertain(f.items, f.parameters) || !CaptureObstacles.Reconstructable(closure, types)
    ensures forall outer :: ScopeAt(f, f.lets, outer) ==> Configures(types, plan.native, outer)
    ensures forall outer, world, cells, fuel ::
              Configures(types, plan.native, outer) && Possible(world, types, outer) &&
              (plan.native || Stays(closure, types, outer)) ==>
                RelO(Linking(plan, types, outer), Eval(world, closure.body, outer, cells, fuel),
                     Eval(world, plan.closure.body, Home(plan, types, outer), cells, fuel))
  {
    var o := ObserveItems(f.items, f.parameters);
    types := o.types;
    for i := 0 to |f.lets|
      invariant types == WithLets(o.types, f.lets[..i])
    {
      assert f.lets[..i + 1][..i] == f.lets[..i];
      types := types[f.lets[i].name := f.lets[i].ty];
    }
    assert f.lets[..|f.lets|] == f.lets;
    plan := Prepare(closure, types, o.uncertain);
    PlannedRecorded(plan, closure, types, o.uncertain);
    forall outer | ScopeAt(f, f.lets, outer)
      ensures Configures(types, plan.native, outer)
    {
      ScopeConfigures(f, o, f.lets, outer);
    }
    forall outer, world, cells, fuel |
      Configures(types, plan.native, outer) && Possible(world, types, outer) &&
      (plan.native || Stays(closure, types, outer))
      ensures RelO(Linking(plan, types, outer), Eval(world, closure.body, outer, cells, fuel),
                   Eval(world, plan.closure.body, Home(plan, types, outer), cells, fuel))
    {
      ConversionPreservesEvaluation(plan, closure, types, plan.native, outer, world, cells, fuel);
    }
  }

  // ----- the condition is exact -----

  /** Every moved closure that mentions only `names` evaluates as before, in every module. */
  ghost predicate AllPreserved(types: Bindings, outer: Env, names: set<Mention>)
    requires Configures(types, false, outer)
  {
    forall plan, closure, world, cells, fuel ::
      Planned(plan, closure, types, false) && !plan.native && Parsed(closure) && closure.params.PNil? &&
      Possible(world, types, outer) && OuterNames(closure, types) <= names && Recorded(types, plan.captures) ==>
        RelO(Linking(plan, types, outer), Eval(world, closure.body, outer, cells, fuel),
             Eval(world, plan.closure.body, Home(plan, types, outer), cells, fuel))
  }

  /** Moving closures over `names` is safe exactly when none of them stays behind; a binding hides an item in bodies. */
  lemma PreservationIsExact(types: Bindings, outer: Env, names: set<Mention>)
    requires Configures(types, false, outer) && ImportsResolve(FunctionItems(outer))
    ensures AllPreserved(types, outer, names) <==> (names - Bodies(types.Keys)) !! LeftBehind(FunctionItems(outer))
  {
    if (names - Bodies(types.Keys)) !! LeftBehind(FunctionItems(outer)) {
      forall plan, closure, world, cells, fuel |
        Planned(plan, closure, types, false) && !plan.native && Parsed(closure) && closure.params.PNil? &&
        Possible(world, types, outer) && OuterNames(closure, types) <= names && Recorded(types, plan.captures)
        ensures RelO(Linking(plan, types, outer), Eval(world, closure.body, outer, cells, fuel),
                     Eval(world, plan.closure.body, Home(plan, types, outer), cells, fuel))
      {
        ConversionPreservesEvaluation(plan, closure, types, false, outer, world, cells, fuel);
      }
    } else {
      var m :| m in names && m !in Bodies(types.Keys) && m in LeftBehind(FunctionItems(outer));
      NotPreserved(types, outer, names, m);
    }
  }

  lemma NotPreserved(types: Bindings, outer: Env, names: set<Mention>, m: Mention)
    requires Configures(types, false, outer) && ImportsResolve(FunctionItems(outer))
    requires m in names && m !in Bodies(types.Keys) && m in LeftBehind(FunctionItems(outer))
    ensures !AllPreserved(types, outer, names)
  {
    MentionIsLost(types, outer, m);
    var closure := Closure(PNil, Mentioning(m));
    var plan := Plan([], closure, false);
    assert !RelO(Linking(plan, types, outer), Eval(EMPTY, closure.body, outer, map[], 1),
                 Eval(EMPTY, closure.body, Home(plan, types, outer), map[], 1));
  }

  function Only(e: Expr): Exprs {
    ECons(e, ENil)
  }

  /** The name of a function that is not `x`. */
  function Other(x: string): string {
    if x == "f" then "g" else "f"
  }

  /** `{ fn f() { x } f() }` */
  function InNestedItem(x: string): Expr {
    Block(SItem(Fn(Other(x), PNil, Path(x)), STail(Call(Only(Path(Other(x)))))))
  }

  /** A body that mentions `m` and nothing else. */
  function Mentioning(m: Mention): Expr {
    match m
    case InBody(x) => Path(x)
    case InItem(x) => InNestedItem(x)
    case AsType(x) => Ascribed(Returning(0), Annotation([x], false))
  }

  /** For everything that stays behind there is a constructor that is moved, was evaluated, and now finds nothing. */
  lemma MentionIsLost(types: Bindings, outer: Env, m: Mention)
    requires Configures(types, false, outer) && ImportsResolve(FunctionItems(outer))
    requires m !in Bodies(types.Keys) && m in LeftBehind(FunctionItems(outer))
    ensures var closure := Closure(PNil, Mentioning(m));
            var plan := Plan([], closure, false);
            && Planned(plan, closure, types, false) && Parsed(closure) && OuterNames(closure, types) == {m}
            && Recorded(types, plan.captures) && Possible(EMPTY, types, outer)
            && Eval(EMPTY, closure.body, outer, map[], 1).Done?
            && Eval(EMPTY, plan.closure.body, Home(plan, types, outer), map[], 1) == Stuck
  {
    Stranded(types, outer, m);
    var home := Captured([], Destination(outer));
    assert Home(Plan([], Closure(PNil, Mentioning(m)), false), types, outer) == home;
    match m
    case InBody(x) =>
      BodyReference(types, x);
    case InItem(x) =>
      ItemReference(types, x);
      NestedEvaluates(outer, x);
      NestedEvaluates(home, x);
    case AsType(x) =>
      TypeReference(types, x);
      AscribedEvaluates(outer, x);
      AscribedEvaluates(home, x);
  }

  function Returning(n: int): Expr {
    Node(Lit(n), ENil)
  }

  lemma Literal(world: World, n: int, env: Env, fuel: nat)
    ensures Eval(world, Returning(n), env, map[], fuel) == Done(Int(n), map[])
  {
    assert EvalAll(world, ENil, env, map[], fuel) == Many([], map[]);
  }

  lemma AscribedEvaluates(env: Env, x: string)
    ensures Eval(EMPTY, Mentioning(AsType(x)), env, map[], 1) ==
              if Lookup(EMPTY, env, Under(x, "")) == Unknown then Stuck else Done(Int(0), map[])
  {
    Literal(EMPTY, 0, env, 1);
    assert [x][0] == x;
  }

  /** A body that is moved as it is. */
  lemma Unchanged(types: Bindings, body: Expr, sites: seq<Site>)
    requires Parsed(body) && !Invokes(body) && Sites(body, {}, false) == sites && Subst(body, {}, []) == body
    requires sites == [] || (sites[0].Ref? && sites == [Ref(sites[0].name, false)] && sites[0].name !in types)
    ensures var closure := Closure(PNil, body);
            && Planned(Plan([], closure, false), closure, types, false) && Parsed(closure)
            && OuterNames(closure, types) == Outer(body) - Bodies(types.Keys)
  {
    NoParameters(body);
    NothingCollected(types, sites);
  }

  lemma NoParameters(body: Expr)
    ensures var closure := Closure(PNil, body);
            && AllSites(closure) == Sites(body, {}, false) && Outer(closure) == Outer(body)
            && Subst(closure, {}, []) == Closure(PNil, Subst(body, {}, [])) && (Invokes(closure) <==> Invokes(body))
  {
    assert PatsNames(PNil) == {} && PatsSites(PNil) == [] && !PatsHidden(PNil);
    assert {} + PatsNames(PNil) == {} && [] + Sites(body, {}, false) == Sites(body, {}, false);
    OuterAlone(body);
  }

  lemma OuterAlone(body: Expr)
    ensures Outer(Closure(PNil, body)) == Outer(body)
  {
    assert PatsOuter(PNil) == {} && PatsNames(PNil) == {};
    assert {} + (Outer(body) - Bodies({})) == Outer(body);
  }

  lemma NothingCollected(types: Bindings, sites: seq<Site>)
    requires sites == [] || (sites[0].Ref? && sites == [Ref(sites[0].name, false)] && sites[0].name !in types)
    ensures Accepts(types, sites) && Collect(types, [], sites) == []
  {
    assert Collect(types, [], []) == [];
    assert sites != [] ==> sites[1..] == [] && Noted(types, [], sites[0]) == [];
  }

  lemma BodyReference(types: Bindings, x: string)
    requires x !in types
    ensures var closure := Closure(PNil, Path(x));
            && Planned(Plan([], closure, false), closure, types, false) && Parsed(closure)
            && OuterNames(closure, types) == {InBody(x)}
  {
    Unchanged(types, Path(x), [Ref(x, false)]);
    assert Outer(Path(x)) == {InBody(x)};
  }

  lemma TypeReference(types: Bindings, x: string)
    ensures var closure := Closure(PNil, Mentioning(AsType(x)));
            && Planned(Plan([], closure, false), closure, types, false) && Parsed(closure)
            && OuterNames(closure, types) == {AsType(x)}
  {
    LiteralParts(0);
    Unchanged(types, Mentioning(AsType(x)), []);
    assert Heads([x]) == {AsType(x)} && Outer(Mentioning(AsType(x))) == {} + {AsType(x)};
  }

  lemma OneOperand(e: Expr, bound: set<string>)
    requires Parsed(e) && !Invokes(e) && Subst(e, bound, []) == e
    ensures ExprsParsed(Only(e)) && !ExprsInvoke(Only(e)) && ExprsSubst(Only(e), bound, []) == Only(e)
    ensures ExprsSites(Only(e), bound, false) == Sites(e, bound, false) && OuterExprs(Only(e)) == Outer(e)
  {
    assert ExprsSites(ENil, bound, false) == [] && Sites(e, bound, false) + [] == Sites(e, bound, false);
    assert ExprsSubst(ENil, bound, []) == ENil && OuterExprs(ENil) == {} && ExprsParsed(ENil) && !ExprsInvoke(ENil);
  }

  lemma ItemReference(types: Bindings, x: string)
    ensures var closure := Closure(PNil, InNestedItem(x));
            && Planned(Plan([], closure, false), closure, types, false) && Parsed(closure)
            && OuterNames(closure, types) == {InItem(x)}
  {
    var f := Other(x);
    var item := Fn(f, PNil, Path(x));
    var call := Call(Only(Path(f)));
    var last := STail(call);
    var ss := SItem(item, last);
    OneOperand(Path(f), {f});
    NestedItem(item, last);
    assert {} + ItemsNames([item]) == {f} && Sites(call, {f}, false) == [];
    assert StmtsSites(last, {f}, false) == [] && StmtsSites(ss, {f}, false) == [];
    assert BlockSites(ss, {}, false) == [] + [];
    assert StmtsSubst(last, {f}, []) == last && StmtsSubst(ss, {f}, []) == ss;
    assert ItemOuter(item) == {InItem(x)} by {
      assert PatsOuter(PNil) == {} && PatsNames(PNil) == {} && Bodies({}) == {} && Outer(Path(x)) == {InBody(x)};
      assert Demoted({InBody(x)}) == {InItem(x)};
      assert {} + ({InBody(x)} - {}) == {InBody(x)};
    }
    assert ExprsParsed(Only(Path(f))) && !ExprsInvoke(Only(Path(f)));
    assert !Invokes(call) && Parsed(call) && Outer(call) == {InBody(f)};
    assert Parsed(Path(x)) && !Invokes(Path(x)) && !PatsHidden(PNil);
    assert ItemParsed(item) && !ItemInvokes(item) && StmtsParsed(last) && !StmtsInvoke(last);
    assert StmtsParsed(ss) && !StmtsInvoke(ss) && OuterStmts(last) == {InBody(f)};
    assert OuterBlock(ss) == ({InItem(x)} + {InBody(f)}) - {InBody(f), InItem(f)};
    Unchanged(types, InNestedItem(x), []);
  }

  lemma NestedItem(item: Item, last: Stmts)
    requires item.Fn? && last.STail?
    ensures BlockItems(SItem(item, last)) == [item] && ItemsNames([item]) == {item.name} && ItemsSites([item]) == []
    ensures Declares([item]) == {InBody(item.name), InItem(item.name)} && !ItemsGlob([item])
  {
    assert BlockItems(last) == [] && [item][1..] == [];
    assert ItemsNames([]) == {} && ItemsSites([]) == [] && Declares([]) == {};
  }

  lemma OtherItem(item: Item, w: Name)
    requires item.Fn? && w != One(item.name)
    ensures Defined([item], w).None? && ImportFor([item], w).None? && !ItemsGlob([item]) && Leaves([item]) == 0
  {
    assert [item][1..] == [] && Defined([], w).None? && ImportFor([], w).None?;
  }

  /** The nested function sees the items around it. */
  lemma NestedScope(env: Env, x: string)
    ensures var f := Other(x);
            var inner := Items([Fn(f, PNil, Path(x))], env);
            && Lookup(EMPTY, inner, One(f)) == Entity(Clo(PNil, Path(x), ItemsOnly(inner)))
            && Lookup(EMPTY, ItemsOnly(inner), One(x)) == Lookup(EMPTY, ItemsOnly(env), One(x))
  {
    var item := Fn(Other(x), PNil, Path(x));
    var scope := ItemsOnly(Items([item], env));
    assert Defined([item], One(Other(x))) == Some(Some(Code(PNil, Path(x))));
    OtherItem(item, One(x));
    RibIsClosed(EMPTY, [item], One(x), ItemsOnly(scope), ItemsOnly(ItemsOnly(env)), 1);
    ItemsOnlyOnce(env);
  }

  lemma NestedEvaluates(env: Env, x: string)
    ensures Eval(EMPTY, InNestedItem(x), env, map[], 1) == Means(Lookup(EMPTY, ItemsOnly(env), One(x)), map[])
  {
    var f := Other(x);
    var item := Fn(f, PNil, Path(x));
    var last := STail(Call(Only(Path(f))));
    var inner := Items([item], env);
    NestedItem(item, last);
    NestedCall(env, x);
    assert EvalStmts(EMPTY, last, inner, map[], 1) == Eval(EMPTY, Call(Only(Path(f))), inner, map[], 1);
    assert EvalStmts(EMPTY, SItem(item, last), inner, map[], 1) == EvalStmts(EMPTY, last, inner, map[], 1);
    assert EvalBlock(EMPTY, SItem(item, last), env, map[], 1) == EvalStmts(EMPTY, SItem(item, last), inner, map[], 1);
  }

  lemma NestedCall(env: Env, x: string)
    ensures var f := Other(x);
            var inner := Items([Fn(f, PNil, Path(x))], env);
            Eval(EMPTY, Call(Only(Path(f))), inner, map[], 1) ==
              Means(Lookup(EMPTY, ItemsOnly(env), One(x)), map[])
  {
    var f := Other(x);
    var inner := Items([Fn(f, PNil, Path(x))], env);
    var scope := ItemsOnly(inner);
    NestedScope(env, x);
    CallsNested(inner, f, Clo(PNil, Path(x), scope));
    assert Eval(EMPTY, Path(x), scope, map[], 0) == Means(Lookup(EMPTY, scope, One(x)), map[]);
  }

  lemma CallsNested(inner: Env, f: string, found: Value)
    requires found.Clo? && found.params == PNil && Lookup(EMPTY, inner, One(f)) == Entity(found)
    ensures Eval(EMPTY, Call(Only(Path(f))), inner, map[], 1) == Leave(Eval(EMPTY, found.body, found.env, map[], 0))
  {
    assert EvalAll(EMPTY, ENil, inner, map[], 1) == Many([], map[]);
    assert EvalAll(EMPTY, Only(Path(f)), inner, map[], 1) == Many([found], map[]);
    assert [found][1..] == [] && MatchedAll(EMPTY, PNil, [], found.env) == Some(found.env);
  }

  // ----- three inputs -----

  /** The scope of a configuring function whose body declares `item`. */
  function Declaring(item: Item): Env {
    Items([item], Top)
  }

  const CALL_H: Expr := Call(Only(Path("h")))

  /** The configuring function declares `fn h()` returning 2; the module has an `h` of its own, returning 1. */
  const FN_H: Item := Fn("h", PNil, Returning(2))
  const MODULE_H: World := World(map[One("h") := Clo(PNil, Returning(1), Top)])

  const CALL_MAKE: Expr := Call(Only(Qualified("helper", "make")))

  /**
   It declares `mod helper { pub fn make() … }` returning 2; the module has
   another `helper`, whose `make` returns 1.
   */
  const MOD_HELPER: Item := Type("helper", 7, Mod, MFn("make", PNil, Returning(2), MNil))
  const MODULE_HELPER: World :=
    World(map[Under("helper", "") := Int(1), Under("helper", "make") := Clo(PNil, Returning(1), Top)])

  /** It declares `const LIMIT` as 3, and the constructor is `|| match 5 { LIMIT => 1, _ => 2 }`. */
  const CONST_LIMIT: Item := Const("LIMIT", 3)
  const LIMIT_ARMS: Arms := ACons(PVar("LIMIT"), CTrue, Returning(1), ACons(PWild, CTrue, Returning(2), ANil))
  const MATCH_LIMIT: Expr := Match(Returning(5), LIMIT_ARMS)

  lemma OneItem(item: Item, types: Bindings)
    requires (item.Fn? || item.Const? || item.Type?) && types == map[]
    ensures Configures(types, false, Declaring(item)) && LeftBehind([item]) == ItemDeclares(item)
    ensures Uses([item]) == [] && FunctionItems(Declaring(item)) == [item]
  {
    assert [item][1..] == [] && Uses([]) == [] && Declares([]) == {} && OwnNames([]) == {};
    assert Declares([item]) == ItemDeclares(item) + {};
    forall m | m in ItemDeclares(item)
      ensures m in LeftBehind([item])
    {
      assert ItemDefinition(item, Lookups(m)).Some?;
    }
  }

  /** `|| body` is accepted and moved, away from the item that it mentions. */
  predicate MovedAway(body: Expr, item: Item) {
    var closure := Closure(PNil, body);
    var plan := Plan([], closure, false);
    var outer := Declaring(item);
    && Planned(plan, closure, map[], false) && Parsed(closure) && Recorded(map[], plan.captures)
    && Configures(map[], false, outer) && !Stays(closure, map[], outer)
    && Home(plan, map[], outer) == Captured([], Moved([]))
  }

  lemma LiteralParts(n: int)
    ensures Parsed(Returning(n)) && !Invokes(Returning(n)) && Outer(Returning(n)) == {}
    ensures forall bound :: Sites(Returning(n), bound, false) == [] && Subst(Returning(n), bound, []) == Returning(n)
  {
    forall bound: set<string>
      ensures Sites(Returning(n), bound, false) == [] && Subst(Returning(n), bound, []) == Returning(n)
    {
      assert ExprsSites(ENil, bound, false) == [] && ExprsSubst(ENil, bound, []) == ENil;
    }
    assert ExprsParsed(ENil) && !ExprsInvoke(ENil) && OuterExprs(ENil) == {};
  }

  lemma LimitParts()
    ensures Parsed(MATCH_LIMIT) && !Invokes(MATCH_LIMIT) && InBody("LIMIT") in Outer(MATCH_LIMIT)
    ensures Sites(MATCH_LIMIT, {}, false) == [] && Subst(MATCH_LIMIT, {}, []) == MATCH_LIMIT
  {
    LiteralParts(1);
    LiteralParts(2);
    LiteralParts(5);
    MovedArm(PWild, Returning(2), ANil);
    MovedArm(PVar("LIMIT"), Returning(1), ACons(PWild, CTrue, Returning(2), ANil));
  }

  lemma MovedArm(p: Pat, body: Expr, tail: Arms)
    requires (p.PWild? || p.PVar?) && Parsed(body) && !Invokes(body)
    requires forall bound :: Sites(body, bound, false) == [] && Subst(body, bound, []) == body
    requires tail != ANil ==>
               && ArmsParsed(tail) && !ArmsInvoke(tail)
               && ArmsSites(tail, {}, false) == [] && ArmsSubst(tail, {}, []) == tail
    ensures var arms := ACons(p, CTrue, body, tail);
            && ArmsParsed(arms) && !ArmsInvoke(arms)
            && ArmsSites(arms, {}, false) == [] && ArmsSubst(arms, {}, []) == arms
            && PatOuter(p) <= OuterArms(arms)
  {
    var bound := {} + PatNames(p) + CondNames(CTrue);
    assert Sites(body, bound, false) == [] && Subst(body, bound, []) == body;
    assert CondSites(CTrue, {} + PatNames(p), false) == [] && CondSubst(CTrue, {} + PatNames(p), []) == CTrue;
    assert tail == ANil ==> ArmsSites(tail, {}, false) == [] && ArmsSubst(tail, {}, []) == tail && !ArmsInvoke(tail);
    assert CondParsed(CTrue) && !CondInvokes(CTrue) && !PatHidden(p);
  }

  lemma Away(body: Expr, item: Item, sites: seq<Site>, m: Mention)
    requires item.Fn? || item.Const? || item.Type?
    requires Parsed(body) && !Invokes(body) && Sites(body, {}, false) == sites && Subst(body, {}, []) == body
    requires sites == [] || (sites[0].Ref? && sites == [Ref(sites[0].name, false)])
    requires m in Outer(body) && m in ItemDeclares(item)
    ensures MovedAway(body, item)
  {
    OneItem(item, map[]);
    Unchanged(map[], body, sites);
    assert m in OuterNames(Closure(PNil, body), map[]);
  }

  /** The moved constructor calls the module's function instead of the one beside it. */
  lemma MovedCallChangesMeaning()
    ensures MovedAway(CALL_H, FN_H) && AuthoredW(MODULE_H)
    ensures Eval(MODULE_H, CALL_H, Declaring(FN_H), map[], 1) == Done(Int(2), map[])
    ensures Eval(MODULE_H, CALL_H, Captured([], Moved([])), map[], 1) == Done(Int(1), map[])
  {
    assert MovedAway(CALL_H, FN_H) by {
      OneOperand(Path("h"), {});
      Away(CALL_H, FN_H, [Ref("h", false)], InBody("h"));
    }
    HMeans();
    Calls(MODULE_H, Declaring(FN_H), Path("h"), One("h"), 2, ItemsOnly(Declaring(FN_H)));
    Calls(MODULE_H, Captured([], Moved([])), Path("h"), One("h"), 1, Top);
  }

  /** The same for a path into a module, which the visitor does not look at. */
  lemma MovedPathChangesMeaning()
    ensures MovedAway(CALL_MAKE, MOD_HELPER) && AuthoredW(MODULE_HELPER)
    ensures Eval(MODULE_HELPER, CALL_MAKE, Declaring(MOD_HELPER), map[], 1) == Done(Int(2), map[])
    ensures Eval(MODULE_HELPER, CALL_MAKE, Captured([], Moved([])), map[], 1) == Done(Int(1), map[])
  {
    assert MovedAway(CALL_MAKE, MOD_HELPER) by {
      OneOperand(Qualified("helper", "make"), {});
      Away(CALL_MAKE, MOD_HELPER, [], AsType("helper"));
    }
    MakeMeans();
    var make, callee := Under("helper", "make"), Qualified("helper", "make");
    Calls(MODULE_HELPER, Declaring(MOD_HELPER), callee, make, 2, Items(AsItems(MOD_HELPER.members), Top));
    Calls(MODULE_HELPER, Captured([], Moved([])), callee, make, 1, Top);
  }

  /** A pattern that compared with a constant becomes a binding, which matches everything. */
  lemma MovedPatternChangesMeaning()
    ensures MovedAway(MATCH_LIMIT, CONST_LIMIT)
    ensures Eval(EMPTY, MATCH_LIMIT, Declaring(CONST_LIMIT), map[], 1) == Done(Int(2), map[])
    ensures Eval(EMPTY, MATCH_LIMIT, Captured([], Moved([])), map[], 1) == Done(Int(1), map[])
  {
    assert MovedAway(MATCH_LIMIT, CONST_LIMIT) by {
      LimitParts();
      Away(MATCH_LIMIT, CONST_LIMIT, [], InBody("LIMIT"));
    }
    LimitMeans();
    Matches(Declaring(CONST_LIMIT));
    Matches(Captured([], Moved([])));
  }

  lemma HMeans()
    ensures Lookup(MODULE_H, Declaring(FN_H), One("h")) == Entity(Clo(PNil, Returning(2), ItemsOnly(Declaring(FN_H))))
    ensures Lookup(MODULE_H, Captured([], Moved([])), One("h")) == Entity(Clo(PNil, Returning(1), Top))
    ensures AuthoredW(MODULE_H)
  {
    RibIsClosed(MODULE_H, [], One("h"), Top, Top, 1);
  }

  lemma MakeMeans()
    ensures Lookup(MODULE_HELPER, Declaring(MOD_HELPER), Under("helper", "make")) ==
              Entity(Clo(PNil, Returning(2), Items(AsItems(MOD_HELPER.members), Top)))
    ensures Lookup(MODULE_HELPER, Captured([], Moved([])), Under("helper", "make")) ==
              Entity(Clo(PNil, Returning(1), Top))
    ensures AuthoredW(MODULE_HELPER)
  {
    RibIsClosed(MODULE_HELPER, [], Under("helper", "make"), Top, Top, 1);
  }

  lemma LimitMeans()
    ensures Lookup(EMPTY, Declaring(CONST_LIMIT), One("LIMIT")) == Entity(Int(3))
    ensures Lookup(EMPTY, Captured([], Moved([])), One("LIMIT")) == Unknown
  {
    RibIsClosed(EMPTY, [], One("LIMIT"), Top, Top, 1);
  }

  lemma Calls(world: World, env: Env, callee: Expr, w: Name, n: int, scope: Env)
    requires callee == (if w.One? then Path(w.name) else Qualified(w.name, w.rest))
    requires Lookup(world, env, w) == Entity(Clo(PNil, Returning(n), scope))
    ensures Eval(world, Call(Only(callee)), env, map[], 1) == Done(Int(n), map[])
  {
    var f := Clo(PNil, Returning(n), scope);
    assert Eval(world, callee, env, map[], 1) == Done(f, map[]);
    assert EvalAll(world, ENil, env, map[], 1) == Many([], map[]);
    assert EvalAll(world, Only(callee), env, map[], 1) == Many([f], map[]);
    assert [f][1..] == [] && MatchedAll(world, PNil, [], scope) == Some(scope);
    Literal(world, n, scope, 0);
  }

  lemma Matches(env: Env)
    requires var m := Lookup(EMPTY, env, One("LIMIT")); m == Entity(Int(3)) || m == Unknown
    ensures Eval(EMPTY, MATCH_LIMIT, env, map[], 1) ==
              Done(Int(if Lookup(EMPTY, env, One("LIMIT")) == Unknown then 1 else 2), map[])
  {
    var inner := Bind("LIMIT", Int(5), env);
    Literal(EMPTY, 5, env, 1);
    Literal(EMPTY, 1, inner, 1);
    Literal(EMPTY, 2, env, 1);
    var last := ACons(PWild, CTrue, Returning(2), ANil);
    assert EvalGuard(EMPTY, last, Int(5), env, map[], 1) == Holds(env, map[]);
    assert EvalArms(EMPTY, last, Int(5), env, map[], 1) == Done(Int(2), map[]);
  }
}
