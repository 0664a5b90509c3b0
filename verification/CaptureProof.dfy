/**
 Closure conversion preserves evaluation.

 A simulation relates values and environments before and after conversion: the
 converted environment has no outer locals at all, only the capture tuple, and
 converted closures carry substituted bodies. Related starting points give
 related outcomes for every amount of fuel, hence equal first-order results and
 identical side effects.
 */
module CaptureProof {
  import opened Options
  import opened CaptureSyntax
  import opened CaptureFree
  import opened CaptureSemantics
  import opened CaptureVisitor

  /** What one conversion is about: the outer bindings, their values, and the captured ones. */
  datatype Link = Link(types: Bindings, caps: seq<Capture>, outer: Env)

  // ----- the configuring function -----

  /** Parameters of the configuring function: a chain of bindings. */
  predicate OuterLocals(env: Env) {
    match env
    case Top => true
    case Bind(_, _, rest) => OuterLocals(rest)
    case _ => false
  }

  /** Its scope at the declaration: locals, the items of its body, then parameters. */
  predicate FunctionScope(env: Env) {
    match env
    case Top => true
    case Bind(_, _, rest) => FunctionScope(rest)
    case Items(_, rest) => OuterLocals(rest)
    case _ => false
  }

  function FunctionItems(env: Env): seq<Item> {
    match env
    case Bind(_, _, rest) => FunctionItems(rest)
    case Items(items, _) => items
    case _ => []
  }

  function LocalNames(env: Env): set<string> {
    if env.Bind? then LocalNames(env.rest) + {env.name} else {}
  }

  /** Value names that the items themselves declare. */
  function OwnNames(items: seq<Item>): set<string> {
    if items == [] then {}
    else (if items[0].Fn? || items[0].Const? then {items[0].name} else {}) + OwnNames(items[1..])
  }

  /** Imports are moved into the generated module; other items are not. */
  function Uses(items: seq<Item>): seq<Item> {
    if items == [] then [] else (if items[0].Use? then [items[0]] else []) + Uses(items[1..])
  }

  /** How a mention is looked up; a type or module is looked up itself. */
  function Lookups(m: Mention): Name {
    if m.AsType? then Under(m.name, "") else One(m.name)
  }

  /** Whether the first segment of `w` leads to an item that the rib defines, by its own name or through imports. */
  predicate Touches(rib: seq<Item>, w: Name, n: nat)
    decreases n
  {
    || Defined(rib, w).Some?
    || (n > 0 && ImportFor(rib, w).Some? && Touches(rib, Redirect(ImportFor(rib, w).value, w), n - 1))
  }

  /** Names of items that do not move, and of imports of these. */
  function LeftBehind(items: seq<Item>): set<Mention> {
    set m <- Declares(items) | Touches(items, Lookups(m), Leaves(items) + 1)
  }

  function Lost(k: Link): set<Mention> {
    LeftBehind(FunctionItems(k.outer))
  }

  /** The bindings that are in scope at the declaration: items shadow parameters. */
  function Visible(env: Env): set<string> {
    match env
    case Bind(x, _, rest) => Visible(rest) + {x}
    case Items(items, rest) => LocalNames(rest) - OwnNames(items)
    case _ => {}
  }

  /** Imports that hide nothing: no globs, no `self`, and no name of a parameter in scope. */
  predicate Plain(items: seq<Item>, bound: set<string>) {
    forall i :: 0 <= i < |items| && items[i].Use? ==>
      items[i].glob.None? && !items[i].importsSelf && ImportNames(items[i].imports) !! bound
  }

  predicate PlainScope(env: Env) {
    match env
    case Bind(_, _, rest) => PlainScope(rest)
    case Items(items, rest) => Plain(items, LocalNames(rest) - OwnNames(items))
    case _ => true
  }

  // ----- shape of environments -----

  predicate Converted(env: Env) {
    match env
    case Top => false
    case Bind(_, _, rest) => Converted(rest)
    case Items(_, rest) => Converted(rest)
    case Captured(_, _) => true
    case Moved(_) => false
  }

  /** Code in the generated module: a converted closure, or an item nested in one. */
  predicate Relocated(env: Env) {
    match env
    case Top => false
    case Bind(_, _, rest) => Relocated(rest)
    case Items(_, rest) => Relocated(rest)
    case Captured(_, _) => true
    case Moved(_) => true
  }

  lemma {:induction false} ConvertedIsRelocated(env: Env)
    ensures Converted(env) ==> Relocated(env)
    decreases env
  {
    match env
    case Bind(_, _, rest) => ConvertedIsRelocated(rest);
    case Items(_, rest) => ConvertedIsRelocated(rest);
    case _ =>
  }

  /** Names bound inside the converted closure. */
  function InnerNames(env: Env): set<string> {
    match env
    case Top => {}
    case Bind(x, _, rest) => InnerNames(rest) + {x}
    case Items(items, rest) => InnerNames(rest) + ItemsNames(items)
    case Captured(_, _) => {}
    case Moved(_) => {}
  }

  predicate InnerGlob(env: Env) {
    match env
    case Top => false
    case Bind(_, _, rest) => InnerGlob(rest)
    case Items(items, rest) => InnerGlob(rest) || ItemsGlob(items)
    case Captured(_, _) => false
    case Moved(_) => false
  }

  /** Names that mean the same before and after: declared inside the converted closure, or fetched from the tuple. */
  function Known(k: Link, env: Env): set<Mention> {
    match env
    case Bind(x, _, rest) => Known(k, rest) + {InBody(x)}
    case Items(items, rest) => Known(k, rest) + Declares(items)
    case Captured(_, _) => Bodies(k.types.Keys)
    case _ => {}
  }

  /** None of `ms` is left behind, unless it is known in `env`. */
  predicate Fits(k: Link, ms: set<Mention>, env: Env) {
    (ms - Known(k, env)) !! Lost(k)
  }

  predicate ItemFits(k: Link, item: Item, env: Env) {
    ItemParsed(item) && Fits(k, ItemOuter(item), env)
  }

  predicate ItemsFit(k: Link, items: seq<Item>, env: Env) {
    forall i :: 0 <= i < |items| ==> ItemFits(k, items[i], env)
  }

  /** Every reference to an outer binding has a place in the tuple. */
  predicate Linked(k: Link, sites: seq<Site>)
    decreases |sites|
  {
    sites == [] || (LinkedSite(k, sites[0]) && Linked(k, sites[1..]))
  }

  predicate LinkedSite(k: Link, s: Site) {
    match s
    case Ref(x, globbed) => x in k.types ==> !globbed && k.types[x].Some? && IndexOf(k.caps, x).Some?
    case Imported(x) => x !in k.types
    case Hidden => false
  }

  lemma {:induction false} BlockItemOuter(ss: Stmts, i: nat)
    requires i < |BlockItems(ss)|
    ensures ItemOuter(BlockItems(ss)[i]) <= OuterStmts(ss)
    ensures StmtsParsed(ss) ==> ItemParsed(BlockItems(ss)[i])
    decreases ss
  {
    match ss
    case SExpr(_, rest) => BlockItemOuter(rest, i);
    case SLet(_, _, rest) => BlockItemOuter(rest, i);
    case SLetElse(_, _, _, rest) => BlockItemOuter(rest, i);
    case SItem(item, rest) =>
      if i == 0 {
        assert BlockItems(ss)[0] == item;
      } else {
        assert BlockItems(ss)[i] == BlockItems(rest)[i - 1];
        BlockItemOuter(rest, i - 1);
      }
    case SMacro(rest) => BlockItemOuter(rest, i);
  }

  lemma BlockItemsFit(k: Link, ss: Stmts, env: Env)
    requires StmtsParsed(ss) && Fits(k, OuterStmts(ss), env)
    ensures ItemsFit(k, BlockItems(ss), env)
  {
    forall i | 0 <= i < |BlockItems(ss)|
      ensures ItemFits(k, BlockItems(ss)[i], env)
    {
      BlockItemOuter(ss, i);
    }
  }

  // ----- the simulation relation -----

  ghost predicate RelV(k: Link, v: Value, w: Value)
    decreases v, 0
  {
    match v
    case Int(_) => v == w
    case Tup(vs) => w.Tup? && |w.elems| == |vs| && forall i :: 0 <= i < |vs| ==> RelV(k, vs[i], w.elems[i])
    case Rec(kind, members, vs) =>
      && w.Rec? && w.kind == kind && w.members == members
      && |w.fields| == |vs| && forall i :: 0 <= i < |vs| ==> RelV(k, vs[i], w.fields[i])
    case Clo(params, body, env) =>
      && w.Clo? && w.params == params && RelE(k, env, w.env)
      && w.body == (if Converted(w.env) then Subst(body, InnerNames(w.env) + PatsNames(params), k.caps) else body)
      && (Relocated(w.env) ==> Parsed(body) && Fits(k, Outer(Closure(params, body)), w.env))
      && (Converted(w.env) ==> Linked(k, Sites(body, InnerNames(w.env) + PatsNames(params), InnerGlob(w.env))))
  }

  ghost predicate RelE(k: Link, env: Env, fnv: Env)
    decreases env, 0
  {
    match fnv
    case Captured(values, rest) => rest == Module(k) && env == k.outer && TupleOf(k, values)
    case Moved(_) => fnv == Module(k) && env == ItemsOnly(k.outer)
    case Top => env.Top?
    case Bind(x, w, rest) => env.Bind? && env.name == x && RelV(k, env.value, w) && RelE(k, env.rest, rest)
    case Items(items, rest) =>
      && env.Items? && env.items == items && RelE(k, env.rest, rest)
      && (Converted(rest) ==> Linked(k, ItemsSites(items)))
      && (Relocated(rest) ==> ItemsFit(k, items, fnv))
  }

  /** The generated module. */
  function Module(k: Link): Env {
    Moved(Uses(FunctionItems(k.outer)))
  }

  /** The capture tuple holds the outer bindings' values, in capture order. */
  ghost predicate TupleOf(k: Link, values: seq<Value>) {
    && |values| == |k.caps|
    && forall i :: 0 <= i < |values| ==> LocalValue(k.outer, k.caps[i].name) == Some(values[i])
  }

  function LocalValue(env: Env, x: string): Option<Value> {
    match env
    case Bind(y, value, rest) => if y == x then Some(value) else LocalValue(rest, x)
    case Items(_, rest) => LocalValue(rest, x)
    case _ => None
  }

  ghost predicate RelVs(k: Link, vs: seq<Value>, ws: seq<Value>) {
    |vs| == |ws| && forall i :: 0 <= i < |vs| ==> RelV(k, vs[i], ws[i])
  }

  ghost predicate RelO(k: Link, o: Outcome, p: Outcome) {
    || (o.Done? && p.Done? && o.cells == p.cells && RelV(k, o.value, p.value))
    || (o.Returned? && p.Returned? && o.cells == p.cells && RelV(k, o.value, p.value))
    || (!o.Done? && !o.Returned? && o == p)
  }

  ghost predicate RelOs(k: Link, o: Outcomes, p: Outcomes) {
    || (o.Many? && p.Many? && o.cells == p.cells && RelVs(k, o.values, p.values))
    || (o.Stopped? && p.Stopped? && RelO(k, o.outcome, p.outcome))
  }

  /** `names` are what the condition binds when it holds. */
  ghost predicate RelC(k: Link, o: CondOutcome, p: CondOutcome, fnv: Env, names: set<string>) {
    || (o.Holds? && p.Holds? && o.cells == p.cells && RelE(k, o.env, p.env) && Inner(k, fnv, names, p.env))
    || (o.Fails? && p == o)
    || (o.Aborted? && p.Aborted? && RelO(k, o.outcome, p.outcome))
  }

  ghost predicate RelM(k: Link, m: Option<Env>, n: Option<Env>, fnv: Env, names: set<string>) {
    || (m.None? && n.None?)
    || (m.Some? && n.Some? && RelE(k, m.value, n.value) && Inner(k, fnv, names, n.value))
  }

  /** `inner` is `fnv` extended by exactly `names`. */
  predicate Inner(k: Link, fnv: Env, names: set<string>, inner: Env) {
    && Converted(inner) == Converted(fnv) && Relocated(inner) == Relocated(fnv)
    && Known(k, inner) == Known(k, fnv) + Bodies(names)
    && InnerNames(inner) == InnerNames(fnv) + names
    && InnerGlob(inner) == InnerGlob(fnv)
  }

  // ----- what the conversion starts from -----

  /** Values of authored code never mention the capture tuple. */
  predicate AuthoredV(v: Value)
    decreases v, 0
  {
    match v
    case Int(_) => true
    case Tup(vs) => forall i :: 0 <= i < |vs| ==> AuthoredV(vs[i])
    case Rec(_, _, vs) => forall i :: 0 <= i < |vs| ==> AuthoredV(vs[i])
    case Clo(_, _, env) => AuthoredE(env)
  }

  predicate AuthoredE(env: Env)
    decreases env, 0
  {
    match env
    case Top => true
    case Bind(_, v, rest) => AuthoredV(v) && AuthoredE(rest)
    case Items(_, rest) => AuthoredE(rest)
    case Captured(_, _) => false
    case Moved(_) => false
  }

  predicate AuthoredM(m: Meaning) {
    m.Unknown? || AuthoredV(m.value)
  }

  predicate AuthoredW(world: World) {
    forall w :: w in world.globals ==> AuthoredV(world.globals[w])
  }

  /** Rust lets no binding have the name of a constant that is in scope. */
  predicate Lawful(k: Link, world: World) {
    forall x {:trigger Lookup(world, Module(k), One(x))} ::
      x in k.types ==> !IsConstant(Lookup(world, Module(k), One(x)))
  }

  /** `outer` gives a value to exactly the bindings the analysis recorded. */
  ghost predicate WellLinked(k: Link, world: World) {
    && AuthoredW(world) && AuthoredE(k.outer) && FunctionScope(k.outer) && PlainScope(k.outer)
    && Visible(k.outer) == k.types.Keys
    && Recorded(k.types, k.caps) && Lawful(k, world)
  }

  lemma {:induction false} SelfV(k: Link, v: Value)
    requires AuthoredV(v)
    ensures RelV(k, v, v)
    decreases v, 0
  {
    match v
    case Int(_) =>
    case Tup(vs) => forall i | 0 <= i < |vs| ensures RelV(k, vs[i], vs[i]) { SelfV(k, vs[i]); }
    case Rec(_, _, vs) => forall i | 0 <= i < |vs| ensures RelV(k, vs[i], vs[i]) { SelfV(k, vs[i]); }
    case Clo(_, _, env) => SelfE(k, env);
  }

  lemma {:induction false} SelfE(k: Link, env: Env)
    requires AuthoredE(env)
    ensures RelE(k, env, env) && !Converted(env) && !Relocated(env)
    decreases env, 0
  {
    match env
    case Top =>
    case Bind(_, v, rest) => SelfV(k, v); SelfE(k, rest);
    case Items(_, rest) => SelfE(k, rest);
  }

  lemma {:induction false} LinkedAppend(k: Link, a: seq<Site>, b: seq<Site>)
    ensures Linked(k, a + b) <==> Linked(k, a) && Linked(k, b)
    decreases |a|
  {
    if a == [] {
      assert a + b == b;
    } else {
      assert (a + b)[1..] == a[1..] + b;
      LinkedAppend(k, a[1..], b);
    }
  }

  // ----- what is left behind -----

  /** How a path mentions its first segment, in a body and in an item. */
  function Written(w: Name): Mention {
    if w.One? then InBody(w.name) else AsType(w.name)
  }

  function WrittenInItem(w: Name): Mention {
    if w.One? then InItem(w.name) else AsType(w.name)
  }

  /** Value names are declared for bodies and for items alike. */
  lemma {:induction false} ImportsBoth(imports: seq<Import>, x: string)
    ensures InBody(x) in ImportsDeclare(imports) <==> InItem(x) in ImportsDeclare(imports)
    decreases |imports|
  {
    if imports != [] {
      ImportsBoth(imports[1..], x);
    }
  }

  lemma {:induction false} DeclaresBoth(items: seq<Item>, x: string)
    ensures InBody(x) in Declares(items) <==> InItem(x) in Declares(items)
    ensures x in OwnNames(items) ==> InBody(x) in Declares(items) && Defined(items, One(x)).Some?
    decreases |items|
  {
    if items != [] {
      DeclaresBoth(items[1..], x);
      if items[0].Use? {
        ImportsBoth(items[0].imports, x);
      }
    }
  }

  lemma LostBoth(items: seq<Item>, x: string)
    ensures InBody(x) in LeftBehind(items) <==> InItem(x) in LeftBehind(items)
  {
    DeclaresBoth(items, x);
    assert Lookups(InBody(x)) == Lookups(InItem(x));
  }

  lemma {:induction false} LeafDeclares(imports: seq<Import>, w: Name)
    ensures Written(w) in ImportsDeclare(imports) <==> LeafFor(imports, w).Some?
    decreases |imports|
  {
    if imports != [] {
      LeafDeclares(imports[1..], w);
    }
  }

  /** A rib declares what it defines and what it imports. */
  lemma {:induction false} DeclaresFound(items: seq<Item>, w: Name)
    ensures Written(w) in Declares(items) <==> Defined(items, w).Some? || ImportFor(items, w).Some?
    decreases |items|
  {
    if items != [] {
      DeclaresFound(items[1..], w);
      if items[0].Use? {
        LeafDeclares(items[0].imports, w);
      }
    }
  }

  /** Only the first segment decides where a path leads. */
  lemma {:induction false} SameLeaf(imports: seq<Import>, w: Name, u: Name)
    requires Written(w) == Written(u)
    ensures LeafFor(imports, w) == LeafFor(imports, u)
    decreases |imports|
  {
    if imports != [] {
      SameLeaf(imports[1..], w, u);
    }
  }

  lemma {:induction false} SameFirst(items: seq<Item>, w: Name, u: Name)
    requires Written(w) == Written(u)
    ensures Defined(items, w).Some? == Defined(items, u).Some? && ImportFor(items, w) == ImportFor(items, u)
    decreases |items|
  {
    if items != [] {
      SameFirst(items[1..], w, u);
      if items[0].Use? {
        SameLeaf(items[0].imports, w, u);
      }
    }
  }

  lemma {:induction false} SameTouches(rib: seq<Item>, w: Name, u: Name, n: nat)
    requires Written(w) == Written(u)
    ensures Touches(rib, w, n) == Touches(rib, u, n)
    decreases n
  {
    SameFirst(rib, w, u);
    if n > 0 && ImportFor(rib, w).Some? {
      var imp := ImportFor(rib, w).value;
      SameTouches(rib, Redirect(imp, w), Redirect(imp, u), n - 1);
    }
  }

  /** What a path leads to is left behind exactly if its mention is. */
  lemma LeftBehindTouches(items: seq<Item>, w: Name)
    ensures Written(w) in LeftBehind(items) <==> Touches(items, w, Leaves(items) + 1)
  {
    DeclaresFound(items, w);
    SameTouches(items, w, Lookups(Written(w)), Leaves(items) + 1);
  }

  lemma {:induction false} UsesDefineNothing(items: seq<Item>, w: Name)
    ensures Defined(Uses(items), w).None?
    decreases |items|
  {
    if items != [] {
      UsesDefineNothing(items[1..], w);
      UsesStep(items);
    }
  }

  lemma UsesStep(items: seq<Item>)
    requires items != []
    ensures items[0].Use? ==> Uses(items) != [] && Uses(items)[0] == items[0] && Uses(items)[1..] == Uses(items[1..])
    ensures !items[0].Use? ==> Uses(items) == Uses(items[1..])
  {
    if !items[0].Use? {
      assert [] + Uses(items[1..]) == Uses(items[1..]);
    }
  }

  lemma {:induction false} UsesImportAlike(items: seq<Item>, w: Name)
    ensures ImportFor(Uses(items), w) == ImportFor(items, w) && Leaves(Uses(items)) == Leaves(items)
    decreases |items|
  {
    if items != [] {
      UsesImportAlike(items[1..], w);
      UsesStep(items);
    }
  }

  // ----- lookup -----

  lemma {:induction false} ItemsOnlyOnce(env: Env)
    ensures ItemsOnly(ItemsOnly(env)) == ItemsOnly(env)
    ensures AuthoredE(env) ==> AuthoredE(ItemsOnly(env))
    decreases env
  {
    match env
    case Bind(_, _, rest) => ItemsOnlyOnce(rest);
    case Items(_, rest) => ItemsOnlyOnce(rest);
    case Captured(_, rest) => ItemsOnlyOnce(rest);
    case _ =>
  }

  /** Items know the same items and types, and among values no locals. */
  ghost predicate ItemView(k: Link, env: Env, inner: Env) {
    forall m :: m in Known(k, inner) <==> (if m.InBody? then InItem(m.name) else m) in Known(k, env)
  }

  lemma ViewFits(k: Link, items: seq<Item>, env: Env, inner: Env)
    requires ItemsFit(k, items, env) && ItemView(k, env, inner)
    ensures ItemsFit(k, items, inner)
  {
    forall i | 0 <= i < |items|
      ensures ItemFits(k, items[i], inner)
    {
      assert ItemFits(k, items[i], env);
    }
  }

  /** Related scopes of nested items. */
  lemma {:induction false} ItemsOnlyRel(k: Link, env: Env, fnv: Env)
    requires RelE(k, env, fnv)
    ensures RelE(k, ItemsOnly(env), ItemsOnly(fnv)) && !Converted(ItemsOnly(fnv))
    ensures Relocated(ItemsOnly(fnv)) == Relocated(fnv)
    ensures ItemView(k, fnv, ItemsOnly(fnv))
    decreases fnv
  {
    match fnv
    case Top =>
    case Bind(_, _, rest) => ItemsOnlyRel(k, env.rest, rest);
    case Items(items, rest) =>
      ItemsOnlyRel(k, env.rest, rest);
      assert ItemView(k, fnv, ItemsOnly(fnv)) by {
        forall x ensures InBody(x) in Declares(items) <==> InItem(x) in Declares(items) { DeclaresBoth(items, x); }
      }
      if Relocated(rest) {
        ViewFits(k, items, fnv, ItemsOnly(fnv));
      }
    case Captured(_, rest) => assert ItemsOnly(fnv) == rest && RelE(k, ItemsOnly(env), rest);
    case Moved(_) => ItemsOnlyOnce(k.outer);
  }

  // ----- authored names -----

  lemma InstanceAuthored(def: Option<Def>, scope: Env)
    requires AuthoredE(scope)
    ensures AuthoredM(Instance(def, scope))
  {
  }

  lemma {:induction false} RibAuthored(world: World, rib: seq<Item>, w: Name, scope: Env, outer: Env, n: nat)
    requires AuthoredW(world) && AuthoredE(scope) && AuthoredE(outer)
    ensures var d := InRib(world, rib, w, scope, outer, n); d.Some? ==> AuthoredM(d.value)
    decreases Ribs(outer) + 1, 0, n, 2
  {
    if Defined(rib, w).Some? {
      InstanceAuthored(Defined(rib, w).value, scope);
    } else if ImportFor(rib, w).Some? {
      if n > 0 {
        TargetAuthored(world, rib, Redirect(ImportFor(rib, w).value, w), scope, outer, n - 1);
      }
    } else if n > 0 {
      GlobbedAuthored(world, rib, rib, w, scope, outer, n);
    }
  }

  lemma {:induction false} TargetAuthored(world: World, rib: seq<Item>, w: Name, scope: Env, outer: Env, n: nat)
    requires AuthoredW(world) && AuthoredE(scope) && AuthoredE(outer)
    ensures AuthoredM(Target(world, rib, w, scope, outer, n))
    decreases Ribs(outer) + 1, 0, n, 3
  {
    RibAuthored(world, rib, w, scope, outer, n);
    if InRib(world, rib, w, scope, outer, n).None? {
      LookupAuthored(world, outer, w);
    }
  }

  lemma {:induction false} GlobbedAuthored(world: World, rib: seq<Item>, items: seq<Item>, w: Name, scope: Env,
                                           outer: Env,
                                           n: nat)
    requires AuthoredW(world) && AuthoredE(scope) && AuthoredE(outer) && n > 0
    ensures var d := Globbed(world, rib, items, w, scope, outer, n); d.Some? ==> AuthoredM(d.value)
    decreases Ribs(outer) + 1, 0, n, 1, |items|
  {
    if items != [] {
      if ItemGlobs(items[0]) {
        TargetAuthored(world, rib, FromGlob(items[0].glob.value, w), scope, outer, n - 1);
      }
      GlobbedAuthored(world, rib, items[1..], w, scope, outer, n);
    }
  }

  lemma {:induction false} LookupAuthored(world: World, env: Env, w: Name)
    requires AuthoredW(world) && AuthoredE(env)
    ensures AuthoredM(Lookup(world, env, w))
    decreases Ribs(env), 1, env
  {
    match env
    case Bind(_, _, rest) => LookupAuthored(world, rest, w);
    case Items(items, rest) =>
      ItemsOnlyOnce(env);
      ItemsOnlyOnce(rest);
      RibAuthored(world, items, w, ItemsOnly(env), ItemsOnly(rest), Leaves(items) + 1);
      LookupAuthored(world, rest, w);
    case _ =>
  }

  // ----- names that a rib does not bind -----

  lemma {:induction false} NoLeaf(imports: seq<Import>, w: Name)
    requires w.name !in ImportNames(imports)
    ensures LeafFor(imports, w).None?
    decreases |imports|
  {
    if imports != [] {
      assert imports[0].name in ImportNames(imports);
      assert forall i :: 0 <= i < |imports[1..]| ==> imports[1..][i] == imports[i + 1];
      NoLeaf(imports[1..], w);
    }
  }

  lemma {:induction false} NoGlobs(world: World, rib: seq<Item>, items: seq<Item>, w: Name, scope: Env, outer: Env,
                                   n: nat)
    requires !ItemsGlob(items) && n > 0
    ensures Globbed(world, rib, items, w, scope, outer, n).None?
    decreases |items|
  {
    if items != [] {
      assert !ItemGlobs(items[0]);
      assert forall i :: 0 <= i < |items[1..]| ==> items[1..][i] == items[i + 1];
      NoGlobs(world, rib, items[1..], w, scope, outer, n);
    }
  }

  /** Without globs, a rib binds only what it defines or imports. */
  lemma RibIsClosed(world: World, items: seq<Item>, w: Name, scope: Env, outer: Env, n: nat)
    requires !ItemsGlob(items) && Defined(items, w).None? && ImportFor(items, w).None?
    ensures InRib(world, items, w, scope, outer, n).None?
  {
    if n > 0 {
      NoGlobs(world, items, items, w, scope, outer, n);
    }
  }

  /** Without globs and rejected imports, an item rib is transparent for an outer binding it does not declare. */
  lemma {:induction false} NotDeclared(k: Link, items: seq<Item>, x: string)
    requires !ItemsGlob(items) && x !in ItemsNames(items) && x in k.types
    requires Linked(k, ItemsSites(items))
    ensures Defined(items, One(x)).None? && ImportFor(items, One(x)).None?
    decreases |items|
  {
    if items != [] {
      LinkedAppend(k, ItemSites(items[0]), ItemsSites(items[1..]));
      assert forall i :: 0 <= i < |items[1..]| ==> items[1..][i] == items[i + 1];
      assert !ItemGlobs(items[0]);
      if items[0].Use? {
        NoLeaf(items[0].imports, One(x));
      }
      NotDeclared(k, items[1..], x);
    }
  }

  /** A name that the rib is thought to declare is declared as a value, or is not an outer binding. */
  lemma {:induction false} ImportsAreNotCaptured(k: Link, items: seq<Item>, x: string)
    requires Linked(k, ItemsSites(items)) && x in ItemsNames(items)
    ensures InBody(x) in Declares(items) || x !in k.types
    decreases |items|
  {
    if items != [] {
      LinkedAppend(k, ItemSites(items[0]), ItemsSites(items[1..]));
      if x in ItemNames(items[0]) {
        if items[0].Use? {
          ImportIsNotCaptured(k, items[0], x);
        }
      } else {
        ImportsAreNotCaptured(k, items[1..], x);
      }
    }
  }

  lemma ImportIsNotCaptured(k: Link, item: Item, x: string)
    requires item.Use? && Linked(k, ItemSites(item)) && x in ItemNames(item)
    ensures x !in k.types
  {
    var i :| 0 <= i < |item.imports| && item.imports[i].name == x;
    var sites := ItemSites(item);
    assert [] + seq(|item.imports|, i requires 0 <= i < |item.imports| => Imported(item.imports[i].name)) == sites;
    assert sites[i] == Imported(x);
    LinkedAt(k, sites, i);
  }

  lemma {:induction false} LinkedAt(k: Link, sites: seq<Site>, i: nat)
    requires Linked(k, sites) && i < |sites|
    ensures LinkedSite(k, sites[i])
    decreases i
  {
    if i > 0 {
      LinkedAt(k, sites[1..], i - 1);
    }
  }

  /** Plain imports declare only their names. */
  lemma {:induction false} PlainDeclares(items: seq<Item>, bound: set<string>, x: string)
    requires Plain(items, bound) && x in bound && x !in OwnNames(items)
    ensures Defined(items, One(x)).None? && ImportFor(items, One(x)).None?
    decreases |items|
  {
    if items != [] {
      assert Plain(items[1..], bound) by {
        assert forall i :: 0 <= i < |items[1..]| ==> items[1..][i] == items[i + 1];
      }
      if items[0].Use? {
        NoLeaf(items[0].imports, One(x));
      }
      PlainDeclares(items[1..], bound, x);
    }
  }

  /** A binding in scope is found in the configuring function. */
  lemma {:induction false} LookupVisible(world: World, env: Env, x: string)
    requires FunctionScope(env) && PlainScope(env) && x in Visible(env)
    ensures LocalValue(env, x).Some? && Lookup(world, env, One(x)) == Variable(LocalValue(env, x).value)
    decreases env
  {
    match env
    case Bind(y, _, rest) =>
      if y != x {
        LookupVisible(world, rest, x);
      }
    case Items(items, rest) =>
      PlainDeclares(items, LocalNames(rest) - OwnNames(items), x);
      RibIsClosed(world, items, One(x), ItemsOnly(env), ItemsOnly(rest), Leaves(items) + 1);
      LookupParameter(world, rest, One(x));
    case _ =>
  }

  lemma {:induction false} LookupParameter(world: World, env: Env, w: Name)
    requires OuterLocals(env)
    ensures if w.One? && w.name in LocalNames(env)
            then LocalValue(env, w.name).Some? && Lookup(world, env, w) == Variable(LocalValue(env, w.name).value)
            else Lookup(world, env, w) == Found(world.globals, w)
    decreases env
  {
    if env.Bind? {
      LookupParameter(world, env.rest, w);
    }
  }

  lemma {:induction false} UsesKeepGlobs(items: seq<Item>)
    ensures ItemsGlob(Uses(items)) ==> ItemsGlob(items)
    decreases |items|
  {
    if ItemsGlob(Uses(items)) {
      UsesKeepGlobs(items[1..]);
      UsesStep(items);
      var i :| 0 <= i < |Uses(items)| && ItemGlobs(Uses(items)[i]);
      if items[0].Use? && i == 0 {
        assert ItemGlobs(items[0]);
      } else {
        assert items[0].Use? ==> Uses(items)[i] == Uses(items[1..])[i - 1];
        assert ItemsGlob(Uses(items[1..]));
        var j :| 0 <= j < |items[1..]| && ItemGlobs(items[1..][j]);
        assert ItemGlobs(items[j + 1]);
      }
    }
  }

  /** A path that is not left behind leads to the same through the moved imports. */
  lemma {:induction false} MovedRib(world: World, rib: seq<Item>, w: Name, scope: Env, n: nat)
    requires !ItemsGlob(rib) && !Touches(rib, w, n)
    ensures InRib(world, rib, w, scope, Top, n) == InRib(world, Uses(rib), w, Top, Top, n)
    decreases n
  {
    UsesDefineNothing(rib, w);
    UsesImportAlike(rib, w);
    UsesKeepGlobs(rib);
    if ImportFor(rib, w).Some? {
      if n > 0 {
        MovedRib(world, rib, Redirect(ImportFor(rib, w).value, w), scope, n - 1);
      }
    } else {
      RibIsClosed(world, rib, w, scope, Top, n);
      RibIsClosed(world, Uses(rib), w, Top, Top, n);
    }
  }

  lemma PlainHasNoGlob(items: seq<Item>, bound: set<string>)
    requires Plain(items, bound)
    ensures !ItemsGlob(items)
  {
  }

  /** A name that is neither a binding nor left behind means the same in the generated module. */
  lemma {:induction false} LookupModule(world: World, env: Env, w: Name)
    requires FunctionScope(env) && PlainScope(env) && Written(w) !in LeftBehind(FunctionItems(env))
    ensures !(w.One? && w.name in Visible(env)) ==>
              Lookup(world, env, w) == Lookup(world, Moved(Uses(FunctionItems(env))), w)
    ensures Lookup(world, ItemsOnly(env), w) == Lookup(world, Moved(Uses(FunctionItems(env))), w)
    decreases env
  {
    match env
    case Top =>
    case Bind(_, _, rest) => LookupModule(world, rest, w);
    case Items(items, rest) =>
      PlainHasNoGlob(items, LocalNames(rest) - OwnNames(items));
      LeftBehindTouches(items, w);
      UsesImportAlike(items, w);
      MovedRib(world, items, w, ItemsOnly(env), Leaves(items) + 1);
      ItemsOnlyOnce(env);
      ParametersHaveNoItems(rest);
      DeclaresBoth(items, w.name);
      LookupParameter(world, rest, w);
  }

  lemma {:induction false} ParametersHaveNoItems(env: Env)
    requires OuterLocals(env)
    ensures ItemsOnly(env) == Top
    decreases env
  {
    if env.Bind? {
      ParametersHaveNoItems(env.rest);
    }
  }

  lemma {:induction false} LocalAuthored(env: Env, x: string)
    requires AuthoredE(env)
    ensures LocalValue(env, x).Some? ==> AuthoredV(LocalValue(env, x).value)
  {
    match env
    case Bind(_, _, rest) => LocalAuthored(rest, x);
    case Items(_, rest) => LocalAuthored(rest, x);
    case _ =>
  }

  // ----- names that both sides find -----

  ghost predicate RelFound(k: Link, a: Option<Value>, b: Option<Value>) {
    (a.None? && b.None?) || (a.Some? && b.Some? && RelV(k, a.value, b.value))
  }

  ghost predicate RelMeaning(k: Link, a: Meaning, b: Meaning) {
    || (a.Unknown? && b.Unknown?)
    || (a.Variable? && b.Variable? && RelV(k, a.value, b.value))
    || (a.Entity? && b.Entity? && RelV(k, a.value, b.value))
  }

  lemma SelfM(k: Link, m: Meaning)
    requires AuthoredM(m)
    ensures RelMeaning(k, m, m)
  {
    if !m.Unknown? {
      SelfV(k, m.value);
    }
  }

  lemma SelfFound(k: Link, world: World, env: Env, w: Name)
    requires AuthoredW(world) && AuthoredE(env)
    ensures RelMeaning(k, Lookup(world, env, w), Lookup(world, env, w))
  {
    LookupAuthored(world, env, w);
    SelfM(k, Lookup(world, env, w));
  }

  ghost predicate RelDeclared(k: Link, a: Option<Meaning>, b: Option<Meaning>) {
    (a.None? && b.None?) || (a.Some? && b.Some? && RelMeaning(k, a.value, b.value))
  }

  /** What an item knows as an item, it knows in bodies. */
  ghost predicate ItemShape(k: Link, env: Env) {
    forall x :: InItem(x) in Known(k, env) ==> InBody(x) in Known(k, env)
  }

  /** Where items of a rib see each other, before and after. */
  ghost predicate Scopes(k: Link, scope: Env, moved: Env) {
    RelE(k, scope, moved) && !Converted(moved) && (Relocated(moved) ==> ItemShape(k, moved))
  }

  /** Items nested in a converted closure are not rewritten; their bodies are related in their own scopes. */
  lemma BodyRel(k: Link, params: Pats, body: Expr, scope: Env, moved: Env)
    requires Scopes(k, scope, moved)
    requires Relocated(moved) ==> Parsed(body) && Fits(k, Demoted(Outer(Closure(params, body))), moved)
    ensures RelV(k, Clo(params, body, scope), Clo(params, body, moved))
  {
    if Relocated(moved) {
      var ms := Outer(Closure(params, body));
      forall m | m in ms && m !in Known(k, moved)
        ensures m !in Lost(k)
      {
        if m.InBody? {
          assert InItem(m.name) in Demoted(ms);
          LostBoth(FunctionItems(k.outer), m.name);
        } else {
          assert m in Demoted(ms);
        }
      }
    }
  }

  lemma {:induction false} MemberFits(ms: Members, member: string, siblings: Option<Members>)
    ensures var d := MemberDefinition(ms, member, siblings);
            && (d.Some? && siblings.Some? ==> !d.value.Code?)
            && (d.Some? && siblings.None? ==> !d.value.Isolated?)
            && (d.Some? && d.value.Code? ==>
                  && (MembersParsed(ms) ==> Parsed(d.value.body))
                  && Demoted(Outer(Closure(d.value.params, d.value.body))) <= MembersOuter(ms))
    decreases ms
  {
    match ms
    case MNil =>
    case MFn(_, _, _, tail) => MemberFits(tail, member, siblings);
    case MConst(_, _, tail) => MemberFits(tail, member, siblings);
  }

  lemma InstanceRel(k: Link, item: Item, w: Name, scope: Env, moved: Env)
    requires Scopes(k, scope, moved) && (Relocated(moved) ==> ItemFits(k, item, moved))
    ensures var d := ItemDefinition(item, w);
            d.Some? ==> RelMeaning(k, Instance(d.value, scope), Instance(d.value, moved))
  {
    if item.Fn? {
      BodyRel(k, item.params, item.body, scope, moved);
    } else if item.Type? && w.Under? && w.rest != "" {
      MemberRelated(k, item, w.rest, scope, moved);
    }
  }

  lemma MemberRelated(k: Link, item: Item, member: string, scope: Env, moved: Env)
    requires item.Type? && Scopes(k, scope, moved) && (Relocated(moved) ==> ItemFits(k, item, moved))
    ensures var d := MemberDefinition(item.members, member, if item.kind.Mod? then Some(item.members) else None);
            RelMeaning(k, Instance(d, scope), Instance(d, moved))
  {
    var siblings := if item.kind.Mod? then Some(item.members) else None;
    var d := MemberDefinition(item.members, member, siblings);
    MemberFits(item.members, member, siblings);
    if d.Some? && d.value.Code? {
      BodyRel(k, d.value.params, d.value.body, scope, moved);
    } else if d.Some? && d.value.Isolated? {
      SelfE(k, Items(AsItems(d.value.siblings), Top));
    }
  }

  lemma {:induction false} DefinedRel(k: Link, items: seq<Item>, w: Name, scope: Env, moved: Env)
    requires Scopes(k, scope, moved) && (Relocated(moved) ==> ItemsFit(k, items, moved))
    ensures var d := Defined(items, w); d.Some? ==> RelMeaning(k, Instance(d.value, scope), Instance(d.value, moved))
    decreases |items|
  {
    if items != [] {
      assert Relocated(moved) ==> ItemFits(k, items[0], moved);
      InstanceRel(k, items[0], w, scope, moved);
      assert Relocated(moved) ==> ItemsFit(k, items[1..], moved) by {
        assert forall i :: 0 <= i < |items[1..]| ==> items[1..][i] == items[i + 1];
      }
      DefinedRel(k, items[1..], w, scope, moved);
    }
  }

  /** The first segment of an import's path is known, or not left behind. */
  predicate HeadFits(k: Link, w: Name, moved: Env) {
    Relocated(moved) ==> WrittenInItem(w) in Known(k, moved) || WrittenInItem(w) !in Lost(k)
  }

  lemma {:induction false} LeafOuter(imports: seq<Import>, w: Name)
    ensures LeafFor(imports, w).Some? ==> WrittenInItem(Redirect(LeafFor(imports, w).value, w)) in ImportsOuter(imports)
    decreases |imports|
  {
    if imports != [] {
      LeafOuter(imports[1..], w);
    }
  }

  lemma {:induction false} ImportFits(k: Link, items: seq<Item>, w: Name, moved: Env)
    requires ImportFor(items, w).Some? && (Relocated(moved) ==> ItemsFit(k, items, moved))
    ensures HeadFits(k, Redirect(ImportFor(items, w).value, w), moved)
    decreases |items|
  {
    if Relocated(moved) {
      assert ItemFits(k, items[0], moved);
      if items[0].Use? && LeafFor(items[0].imports, w).Some? {
        LeafOuter(items[0].imports, w);
        assert WrittenInItem(Redirect(LeafFor(items[0].imports, w).value, w)) in ItemOuter(items[0]);
      } else {
        assert forall i :: 0 <= i < |items[1..]| ==> items[1..][i] == items[i + 1];
        assert ItemsFit(k, items[1..], moved);
        ImportFits(k, items[1..], w, moved);
      }
    }
  }

  lemma GlobFits(k: Link, item: Item, w: Name, moved: Env)
    requires ItemGlobs(item) && (Relocated(moved) ==> ItemFits(k, item, moved))
    ensures HeadFits(k, FromGlob(item.glob.value, w), moved)
  {
    assert AsType(item.glob.value.head) in ItemOuter(item);
  }

  /** Two ribs around nested items, and what lies around them. */
  ghost predicate RibScopes(k: Link, world: World, rib: seq<Item>, outer: Env, movedOuter: Env) {
    && WellLinked(k, world)
    && Scopes(k, Items(rib, outer), Items(rib, movedOuter)) && Scopes(k, outer, movedOuter)
  }

  lemma {:induction false} RibRel(k: Link, world: World, rib: seq<Item>, w: Name, outer: Env, movedOuter: Env, n: nat)
    requires RibScopes(k, world, rib, outer, movedOuter)
    ensures RelDeclared(k, InRib(world, rib, w, Items(rib, outer), outer, n),
                        InRib(world, rib, w, Items(rib, movedOuter), movedOuter, n))
    decreases Ribs(movedOuter) + 1, 0, n, 2
  {
    var scope, moved := Items(rib, outer), Items(rib, movedOuter);
    if Defined(rib, w).Some? {
      DefinedRel(k, rib, w, scope, moved);
    } else if ImportFor(rib, w).Some? {
      if n > 0 {
        ImportFits(k, rib, w, moved);
        TargetRel(k, world, rib, Redirect(ImportFor(rib, w).value, w), outer, movedOuter, n - 1);
      }
    } else if n > 0 {
      GlobbedRel(k, world, rib, rib, w, outer, movedOuter, n);
    }
  }

  lemma {:induction false} TargetRel(k: Link, world: World, rib: seq<Item>, w: Name, outer: Env, movedOuter: Env,
                                     n: nat)
    requires RibScopes(k, world, rib, outer, movedOuter) && HeadFits(k, w, Items(rib, movedOuter))
    ensures RelMeaning(k, Target(world, rib, w, Items(rib, outer), outer, n),
                       Target(world, rib, w, Items(rib, movedOuter), movedOuter, n))
    decreases Ribs(movedOuter) + 1, 0, n, 3
  {
    RibRel(k, world, rib, w, outer, movedOuter, n);
    if InRib(world, rib, w, Items(rib, outer), outer, n).None? {
      HeadIsStable(k, rib, w, movedOuter);
      LookupKept(k, world, outer, movedOuter, w);
    }
  }

  /** A path that leaves the rib starts at a name that the rib does not declare. */
  lemma HeadIsStable(k: Link, rib: seq<Item>, w: Name, movedOuter: Env)
    requires HeadFits(k, w, Items(rib, movedOuter)) && Defined(rib, w).None? && ImportFor(rib, w).None?
    requires Relocated(movedOuter) ==> ItemShape(k, movedOuter)
    ensures Stable(k, movedOuter, w)
  {
    DeclaresFound(rib, w);
    DeclaresBoth(rib, w.name);
    LostBoth(FunctionItems(k.outer), w.name);
  }

  lemma {:induction false} GlobbedRel(k: Link, world: World, rib: seq<Item>, items: seq<Item>, w: Name,
                                      outer: Env, movedOuter: Env, n: nat)
    requires RibScopes(k, world, rib, outer, movedOuter) && n > 0
    requires Relocated(movedOuter) ==> ItemsFit(k, items, Items(rib, movedOuter))
    ensures RelDeclared(k, Globbed(world, rib, items, w, Items(rib, outer), outer, n),
                        Globbed(world, rib, items, w, Items(rib, movedOuter), movedOuter, n))
    decreases Ribs(movedOuter) + 1, 0, n, 1, |items|
  {
    if items != [] {
      var moved := Items(rib, movedOuter);
      assert Relocated(moved) ==> ItemsFit(k, items[1..], moved) by {
        assert forall i :: 0 <= i < |items[1..]| ==> items[1..][i] == items[i + 1];
      }
      GlobbedRel(k, world, rib, items[1..], w, outer, movedOuter, n);
      if ItemGlobs(items[0]) {
        assert Relocated(moved) ==> ItemFits(k, items[0], moved);
        var glob := items[0].glob.value;
        GlobFits(k, items[0], w, moved);
        GlobFits(k, items[0], Base(w), moved);
        TargetRel(k, world, rib, FromGlob(glob, w), outer, movedOuter, n - 1);
        TargetRel(k, world, rib, FromGlob(glob, Base(w)), outer, movedOuter, n - 1);
      }
    }
  }

  /** The scopes of the items of a rib. */
  lemma RibOf(k: Link, world: World, env: Env, fnv: Env)
    requires WellLinked(k, world) && RelE(k, env, fnv) && fnv.Items?
    ensures RibScopes(k, world, fnv.items, ItemsOnly(env.rest), ItemsOnly(fnv.rest))
    ensures ItemsOnly(env) == Items(fnv.items, ItemsOnly(env.rest))
    ensures ItemsOnly(fnv) == Items(fnv.items, ItemsOnly(fnv.rest))
  {
    ItemsOnlyRel(k, env, fnv);
    ItemsOnlyRel(k, env.rest, fnv.rest);
  }

  /** `w` is known inside the closure, or not left behind. */
  predicate Stable(k: Link, fnv: Env, w: Name) {
    Relocated(fnv) ==> Written(w) in Known(k, fnv) || Written(w) !in Lost(k)
  }

  /** A name that conversion leaves alone means the same on both sides. */
  lemma {:induction false} LookupKept(k: Link, world: World, env: Env, fnv: Env, w: Name)
    requires WellLinked(k, world) && RelE(k, env, fnv) && Stable(k, fnv, w)
    requires Converted(fnv) && w.One? ==> w.name in InnerNames(fnv) || w.name !in k.types
    ensures RelMeaning(k, Lookup(world, env, w), Lookup(world, fnv, w))
    decreases Ribs(fnv), 1, fnv
  {
    match fnv
    case Top => SelfM(k, Found(world.globals, w));
    case Bind(y, _, rest) =>
      if w != One(y) {
        LookupKept(k, world, env.rest, rest, w);
      }
    case Items(items, rest) =>
      var n := Leaves(items) + 1;
      RibOf(k, world, env, fnv);
      RibRel(k, world, items, w, ItemsOnly(env.rest), ItemsOnly(rest), n);
      if InRib(world, items, w, ItemsOnly(fnv), ItemsOnly(rest), n).None? {
        BelowRib(k, fnv, w);
        LookupKept(k, world, env.rest, rest, w);
      }
    case _ => ModuleKept(k, world, env, fnv, w);
  }

  lemma ModuleKept(k: Link, world: World, env: Env, fnv: Env, w: Name)
    requires WellLinked(k, world) && RelE(k, env, fnv) && Stable(k, fnv, w) && (fnv.Captured? || fnv.Moved?)
    requires Converted(fnv) && w.One? ==> w.name in InnerNames(fnv) || w.name !in k.types
    ensures RelMeaning(k, Lookup(world, env, w), Lookup(world, fnv, w))
  {
    LookupModule(world, k.outer, w);
    ItemsOnlyOnce(k.outer);
    SelfFound(k, world, env, w);
  }

  /** A name that a rib does not bind is as stable below it. */
  lemma BelowRib(k: Link, fnv: Env, w: Name)
    requires fnv.Items? && Stable(k, fnv, w) && Defined(fnv.items, w).None? && ImportFor(fnv.items, w).None?
    requires Converted(fnv) ==> Linked(k, ItemsSites(fnv.items))
    ensures Stable(k, fnv.rest, w)
    ensures Converted(fnv) && w.One? && (w.name in InnerNames(fnv) || w.name !in k.types) ==>
              w.name in InnerNames(fnv.rest) || w.name !in k.types
  {
    DeclaresFound(fnv.items, w);
    if Converted(fnv) && w.One? && w.name in ItemsNames(fnv.items) {
      ImportsAreNotCaptured(k, fnv.items, w.name);
    }
  }

  /** An identifier in a pattern is a constant on both sides, the same one, or on neither. */
  lemma {:induction false} ConstantKept(k: Link, world: World, env: Env, fnv: Env, x: string)
    requires WellLinked(k, world) && RelE(k, env, fnv) && Stable(k, fnv, One(x))
    ensures var a, b := Lookup(world, env, One(x)), Lookup(world, fnv, One(x));
            IsConstant(a) || IsConstant(b) ==> a == b
    decreases fnv
  {
    match fnv
    case Bind(y, _, rest) =>
      if x != y {
        ConstantKept(k, world, env.rest, rest, x);
      }
    case Items(items, rest) =>
      var n := Leaves(items) + 1;
      RibOf(k, world, env, fnv);
      RibRel(k, world, items, One(x), ItemsOnly(env.rest), ItemsOnly(rest), n);
      if InRib(world, items, One(x), ItemsOnly(fnv), ItemsOnly(rest), n).None? {
        BelowRib(k, fnv, One(x));
        ConstantKept(k, world, env.rest, rest, x);
      }
    case Captured(_, _) =>
      if x in k.types {
        LookupVisible(world, k.outer, x);
      } else {
        LookupKept(k, world, env, fnv, One(x));
      }
    case _ => LookupKept(k, world, env, fnv, One(x));
  }

  /** Block items do not hide a name that conversion replaces. */
  lemma CapturedBelow(k: Link, world: World, env: Env, fnv: Env, x: string)
    requires fnv.Items? && RelE(k, env, fnv) && Converted(fnv) && x in k.types
    requires x !in InnerNames(fnv) && !InnerGlob(fnv)
    ensures Lookup(world, env, One(x)) == Lookup(world, env.rest, One(x))
    ensures x !in InnerNames(fnv.rest) && !InnerGlob(fnv.rest)
  {
    NotDeclared(k, fnv.items, x);
    var n := Leaves(fnv.items) + 1;
    RibIsClosed(world, fnv.items, One(x), ItemsOnly(env), ItemsOnly(env.rest), n);
    assert InRib(world, env.items, One(x), ItemsOnly(env), ItemsOnly(env.rest), n).None?;
  }

  /** A name that conversion replaces was the outer binding stored in the tuple. */
  lemma {:induction false} LookupCaptured(k: Link, world: World, env: Env, fnv: Env, x: string)
    requires WellLinked(k, world) && RelE(k, env, fnv) && Converted(fnv)
    requires x !in InnerNames(fnv) && !InnerGlob(fnv) && IndexOf(k.caps, x).Some?
    ensures var i := IndexOf(k.caps, x).value;
            var tuple := CaptureTuple(fnv);
            var before := Lookup(world, env, One(x));
            && tuple.Some? && tuple.value.Tup? && i < |tuple.value.elems|
            && before.Variable? && RelV(k, before.value, tuple.value.elems[i])
    decreases fnv
  {
    assert x in k.types by { assert k.caps[IndexOf(k.caps, x).value].name in k.types; }
    match fnv
    case Top =>
    case Bind(_, _, rest) => LookupCaptured(k, world, env.rest, rest, x);
    case Items(_, rest) =>
      CapturedBelow(k, world, env, fnv, x);
      LookupCaptured(k, world, env.rest, rest, x);
    case Captured(_, _) =>
      LookupVisible(world, k.outer, x);
      LocalAuthored(k.outer, x);
      SelfV(k, LocalValue(k.outer, x).value);
  }

  // ----- pattern matching -----

  predicate PatReady(k: Link, p: Pat, fnv: Env) {
    Relocated(fnv) ==> Fits(k, PatOuter(p), fnv)
  }

  predicate PatsReady(k: Link, ps: Pats, fnv: Env) {
    Relocated(fnv) ==> Fits(k, PatsOuter(ps), fnv)
  }

  lemma {:induction false} MatchedRel(k: Link, world: World, p: Pat, v: Value, w: Value, env: Env, fnv: Env)
    requires WellLinked(k, world) && RelV(k, v, w) && RelE(k, env, fnv) && PatReady(k, p, fnv)
    ensures RelM(k, Matched(world, p, v, env), Matched(world, p, w, fnv), fnv, PatNames(p))
    decreases p, 1
  {
    match p
    case PVar(_) => MatchedVarRel(k, world, p, v, w, env, fnv);
    case PAt(_, _) => MatchedAtRel(k, world, p, v, w, env, fnv);
    case PPath(_, _) => MatchedPathRel(k, world, p, v, w, env, fnv);
    case PStruct(_, _, _, _) => MatchedStructRel(k, world, p, v, w, env, fnv);
    case PTuple(elems) =>
      if v.Tup? {
        TupleRel(k, v, w);
        MatchedAllRel(k, world, elems, v.elems, w.elems, env, fnv);
      }
    case POr(_, _) => MatchedOrRel(k, world, p, v, w, env, fnv);
    case _ => NothingBound(k, fnv);
  }

  lemma {:induction false} MatchedOrRel(k: Link, world: World, p: Pat, v: Value, w: Value, env: Env, fnv: Env)
    requires p.POr?
    requires WellLinked(k, world) && RelV(k, v, w) && RelE(k, env, fnv) && PatReady(k, p, fnv)
    ensures RelM(k, Matched(world, p, v, env), Matched(world, p, w, fnv), fnv, PatNames(p))
    decreases p, 0
  {
    MatchedRel(k, world, p.left, v, w, env, fnv);
    MatchedRel(k, world, p.right, v, w, env, fnv);
    assert PatNames(p.left) == PatNames(p.right) ==> PatNames(p) == PatNames(p.left);
  }

  lemma {:induction false} MatchedAtRel(k: Link, world: World, p: Pat, v: Value, w: Value, env: Env, fnv: Env)
    requires p.PAt?
    requires WellLinked(k, world) && RelV(k, v, w) && RelE(k, env, fnv) && PatReady(k, p, fnv)
    ensures RelM(k, Matched(world, p, v, env), Matched(world, p, w, fnv), fnv, PatNames(p))
    decreases p, 0
  {
    var inner, moved := Bind(p.name, v, env), Bind(p.name, w, fnv);
    VariableRel(k, p.name, v, w, env, fnv);
    MatchedRel(k, world, p.sub, v, w, inner, moved);
    RelMNested(k, Matched(world, p.sub, v, inner), Matched(world, p.sub, w, moved), fnv, moved,
               {p.name}, PatNames(p.sub));
  }

  lemma MatchedVarRel(k: Link, world: World, p: Pat, v: Value, w: Value, env: Env, fnv: Env)
    requires p.PVar?
    requires WellLinked(k, world) && RelV(k, v, w) && RelE(k, env, fnv) && PatReady(k, p, fnv)
    ensures RelM(k, Matched(world, p, v, env), Matched(world, p, w, fnv), fnv, PatNames(p))
  {
    ConstantKept(k, world, env, fnv, p.name);
    VariableRel(k, p.name, v, w, env, fnv);
  }

  lemma MatchedPathRel(k: Link, world: World, p: Pat, v: Value, w: Value, env: Env, fnv: Env)
    requires p.PPath?
    requires WellLinked(k, world) && RelV(k, v, w) && RelE(k, env, fnv) && PatReady(k, p, fnv)
    ensures RelM(k, Matched(world, p, v, env), Matched(world, p, w, fnv), fnv, PatNames(p))
  {
    LookupKept(k, world, env, fnv, Under(p.head, p.rest));
    SameConstant(k, Lookup(world, env, Under(p.head, p.rest)), Lookup(world, fnv, Under(p.head, p.rest)), v, w);
    NothingBound(k, fnv);
  }

  lemma SameConstant(k: Link, m: Meaning, n: Meaning, v: Value, w: Value)
    requires RelMeaning(k, m, n) && RelV(k, v, w)
    ensures (IsConstant(m) && m.value == v) <==> (IsConstant(n) && n.value == w)
  {
  }

  lemma NothingBound(k: Link, fnv: Env)
    ensures Inner(k, fnv, {}, fnv)
  {
    assert Bodies({}) == {};
  }

  lemma VariableRel(k: Link, x: string, v: Value, w: Value, env: Env, fnv: Env)
    requires RelV(k, v, w) && RelE(k, env, fnv)
    ensures RelE(k, Bind(x, v, env), Bind(x, w, fnv)) && Inner(k, fnv, {x}, Bind(x, w, fnv))
  {
    assert Bodies({x}) == {InBody(x)};
  }

  lemma StructPatHead(k: Link, world: World, p: Pat, env: Env, fnv: Env)
    requires p.PStruct? && WellLinked(k, world) && RelE(k, env, fnv) && PatReady(k, p, fnv)
    ensures RelMeaning(k, Lookup(world, env, Under(p.head, p.rest)), Lookup(world, fnv, Under(p.head, p.rest)))
    ensures PatsReady(k, p.elems, fnv)
  {
    LookupKept(k, world, env, fnv, Under(p.head, p.rest));
  }

  lemma {:induction false} MatchedStructRel(k: Link, world: World, p: Pat, v: Value, w: Value, env: Env, fnv: Env)
    requires p.PStruct?
    requires WellLinked(k, world) && RelV(k, v, w) && RelE(k, env, fnv) && PatReady(k, p, fnv)
    ensures RelM(k, Matched(world, p, v, env), Matched(world, p, w, fnv), fnv, PatNames(p))
    decreases p, 0
  {
    StructPatHead(k, world, p, env, fnv);
    if v.Rec? {
      SelectedRel(k, v.members, v.fields, w.fields, p.members);
      var vs := Selected(v.members, v.fields, p.members);
      if vs.Some? {
        MatchedAllRel(k, world, p.elems, vs.value, Selected(v.members, w.fields, p.members).value, env, fnv);
      }
    }
  }

  lemma {:induction false} MatchedAllRel(k: Link, world: World, ps: Pats, vs: seq<Value>, ws: seq<Value>, env: Env,
                                         fnv: Env)
    requires WellLinked(k, world) && RelVs(k, vs, ws) && RelE(k, env, fnv) && PatsReady(k, ps, fnv)
    ensures RelM(k, MatchedAll(world, ps, vs, env), MatchedAll(world, ps, ws, fnv), fnv, PatsNames(ps))
    decreases ps
  {
    match ps
    case PNil => NothingBound(k, fnv);
    case PCons(p, tail) =>
      if vs != [] {
        MatchedRel(k, world, p, vs[0], ws[0], env, fnv);
        var m := Matched(world, p, vs[0], env);
        if m.Some? {
          var n := Matched(world, p, ws[0], fnv).value;
          MatchedAllRel(k, world, tail, vs[1..], ws[1..], m.value, n);
          RelMNested(k, MatchedAll(world, tail, vs[1..], m.value), MatchedAll(world, tail, ws[1..], n), fnv, n,
                     PatNames(p), PatsNames(tail));
        }
      }
  }

  /** Bindings made below a scope that itself binds `outer`. */
  lemma InnerNested(k: Link, fnv: Env, mid: Env, final: Env, outer: set<string>, inner: set<string>)
    requires Inner(k, fnv, outer, mid) && Inner(k, mid, inner, final)
    ensures Inner(k, fnv, outer + inner, final)
  {
    assert Bodies(outer + inner) == Bodies(outer) + Bodies(inner);
    assert Known(k, fnv) + Bodies(outer) + Bodies(inner) == Known(k, fnv) + (Bodies(outer) + Bodies(inner));
    assert InnerNames(fnv) + outer + inner == InnerNames(fnv) + (outer + inner);
  }

  lemma RelMNested(k: Link, m: Option<Env>, n: Option<Env>, fnv: Env, mid: Env, outer: set<string>, inner: set<string>)
    requires Inner(k, fnv, outer, mid) && RelM(k, m, n, mid, inner)
    ensures RelM(k, m, n, fnv, outer + inner)
  {
    if n.Some? {
      InnerNested(k, fnv, mid, n.value, outer, inner);
    }
  }

  lemma {:induction false} MemberRel(k: Link, members: seq<string>, vs: seq<Value>, ws: seq<Value>, member: string)
    requires RelVs(k, vs, ws)
    ensures RelFound(k, MemberOf(members, vs, member), MemberOf(members, ws, member))
  {
    if members != [] && vs != [] && members[0] != member {
      MemberRel(k, members[1..], vs[1..], ws[1..], member);
    }
  }

  lemma {:induction false} SelectedRel(k: Link, members: seq<string>, vs: seq<Value>, ws: seq<Value>,
                                       chosen: seq<string>)
    requires RelVs(k, vs, ws)
    ensures var a, b := Selected(members, vs, chosen), Selected(members, ws, chosen);
            (a.None? && b.None?) || (a.Some? && b.Some? && RelVs(k, a.value, b.value))
    decreases |chosen|
  {
    if chosen != [] {
      MemberRel(k, members, vs, ws, chosen[0]);
      SelectedRel(k, members, vs, ws, chosen[1..]);
    }
  }

  // ----- the simulation -----

  /** What `e` becomes in `fnv`. */
  function Image(k: Link, e: Expr, fnv: Env): Expr {
    if Converted(fnv) then Subst(e, InnerNames(fnv), k.caps) else e
  }

  predicate Ready(k: Link, e: Expr, fnv: Env) {
    && (Relocated(fnv) ==> Parsed(e) && Fits(k, Outer(e), fnv))
    && (Converted(fnv) ==> Linked(k, Sites(e, InnerNames(fnv), InnerGlob(fnv))))
  }

  /** Ready once `names` are bound. */
  predicate ReadyUnder(k: Link, e: Expr, names: set<string>, fnv: Env) {
    && (Relocated(fnv) ==> Parsed(e) && Fits(k, Outer(e) - Bodies(names), fnv))
    && (Converted(fnv) ==> Linked(k, Sites(e, InnerNames(fnv) + names, InnerGlob(fnv))))
  }

  function ImageExprs(k: Link, es: Exprs, fnv: Env): Exprs {
    if Converted(fnv) then ExprsSubst(es, InnerNames(fnv), k.caps) else es
  }

  predicate ReadyExprs(k: Link, es: Exprs, fnv: Env) {
    && (Relocated(fnv) ==> ExprsParsed(es) && Fits(k, OuterExprs(es), fnv))
    && (Converted(fnv) ==> Linked(k, ExprsSites(es, InnerNames(fnv), InnerGlob(fnv))))
  }

  function ImageFields(k: Link, fs: Fields, fnv: Env): Fields {
    if Converted(fnv) then FieldsSubst(fs, InnerNames(fnv), k.caps) else fs
  }

  predicate ReadyFields(k: Link, fs: Fields, fnv: Env) {
    && (Relocated(fnv) ==> FieldsParsed(fs) && Fits(k, OuterFields(fs), fnv))
    && (Converted(fnv) ==> Linked(k, FieldsSites(fs, InnerNames(fnv), InnerGlob(fnv))))
  }

  function ImageCond(k: Link, c: Cond, fnv: Env): Cond {
    if Converted(fnv) then CondSubst(c, InnerNames(fnv), k.caps) else c
  }

  predicate ReadyCond(k: Link, c: Cond, fnv: Env) {
    && (Relocated(fnv) ==> CondParsed(c) && Fits(k, OuterCond(c), fnv))
    && (Converted(fnv) ==> Linked(k, CondSites(c, InnerNames(fnv), InnerGlob(fnv))))
  }

  /** Ready once `names` are bound. */
  predicate ReadyCondUnder(k: Link, c: Cond, names: set<string>, fnv: Env) {
    && (Relocated(fnv) ==> CondParsed(c) && Fits(k, OuterCond(c) - Bodies(names), fnv))
    && (Converted(fnv) ==> Linked(k, CondSites(c, InnerNames(fnv) + names, InnerGlob(fnv))))
  }

  function ImageArms(k: Link, arms: Arms, fnv: Env): Arms {
    if Converted(fnv) then ArmsSubst(arms, InnerNames(fnv), k.caps) else arms
  }

  predicate ReadyArms(k: Link, arms: Arms, fnv: Env) {
    && (Relocated(fnv) ==> ArmsParsed(arms) && Fits(k, OuterArms(arms), fnv))
    && (Converted(fnv) ==> Linked(k, ArmsSites(arms, InnerNames(fnv), InnerGlob(fnv))))
  }

  function ImageBlock(k: Link, ss: Stmts, fnv: Env): Stmts {
    if Converted(fnv) then BlockSubst(ss, InnerNames(fnv), k.caps) else ss
  }

  predicate ReadyBlock(k: Link, ss: Stmts, fnv: Env) {
    && (Relocated(fnv) ==> StmtsParsed(ss) && Fits(k, OuterBlock(ss), fnv))
    && (Converted(fnv) ==> Linked(k, BlockSites(ss, InnerNames(fnv), InnerGlob(fnv))))
  }

  /** Ready once `names` are bound. */
  predicate ReadyBlockUnder(k: Link, ss: Stmts, names: set<string>, fnv: Env) {
    && (Relocated(fnv) ==> StmtsParsed(ss) && Fits(k, OuterBlock(ss) - Bodies(names), fnv))
    && (Converted(fnv) ==> Linked(k, BlockSites(ss, InnerNames(fnv) + names, InnerGlob(fnv))))
  }

  function ImageStmts(k: Link, ss: Stmts, fnv: Env): Stmts {
    if Converted(fnv) then StmtsSubst(ss, InnerNames(fnv), k.caps) else ss
  }

  predicate ReadyStmts(k: Link, ss: Stmts, fnv: Env) {
    && (Relocated(fnv) ==> StmtsParsed(ss) && Fits(k, OuterStmts(ss), fnv))
    && (Converted(fnv) ==> Linked(k, StmtsSites(ss, InnerNames(fnv), InnerGlob(fnv))))
  }

  /** Ready once `names` are bound. */
  predicate ReadyStmtsUnder(k: Link, ss: Stmts, names: set<string>, fnv: Env) {
    && (Relocated(fnv) ==> StmtsParsed(ss) && Fits(k, OuterStmts(ss) - Bodies(names), fnv))
    && (Converted(fnv) ==> Linked(k, StmtsSites(ss, InnerNames(fnv) + names, InnerGlob(fnv))))
  }

  /** Entering a scope that binds `names`. */
  lemma Entered(k: Link, e: Expr, names: set<string>, fnv: Env, inner: Env)
    requires ReadyUnder(k, e, names, fnv) && Inner(k, fnv, names, inner)
    ensures Ready(k, e, inner)
    ensures Image(k, e, inner) == if Converted(fnv) then Subst(e, InnerNames(fnv) + names, k.caps) else e
  {
  }

  lemma EnteredCond(k: Link, c: Cond, names: set<string>, fnv: Env, inner: Env)
    requires ReadyCondUnder(k, c, names, fnv) && Inner(k, fnv, names, inner)
    ensures ReadyCond(k, c, inner)
    ensures ImageCond(k, c, inner) == if Converted(fnv) then CondSubst(c, InnerNames(fnv) + names, k.caps) else c
  {
  }

  lemma EnteredBlock(k: Link, ss: Stmts, names: set<string>, fnv: Env, inner: Env)
    requires ReadyBlockUnder(k, ss, names, fnv) && Inner(k, fnv, names, inner)
    ensures ReadyBlock(k, ss, inner)
    ensures ImageBlock(k, ss, inner) == if Converted(fnv) then BlockSubst(ss, InnerNames(fnv) + names, k.caps) else ss
  {
  }

  lemma EnteredStmts(k: Link, ss: Stmts, names: set<string>, fnv: Env, inner: Env)
    requires ReadyStmtsUnder(k, ss, names, fnv) && Inner(k, fnv, names, inner)
    ensures ReadyStmts(k, ss, inner)
    ensures ImageStmts(k, ss, inner) == if Converted(fnv) then StmtsSubst(ss, InnerNames(fnv) + names, k.caps) else ss
  {
  }

  lemma {:induction false} SimExpr(k: Link, world: World, e: Expr, env: Env, fnv: Env, cells: Cells, fuel: nat)
    requires WellLinked(k, world) && RelE(k, env, fnv) && Ready(k, e, fnv)
    ensures RelO(k, Eval(world, e, env, cells, fuel), Eval(world, Image(k, e, fnv), fnv, cells, fuel))
    decreases fuel, e, 3
  {
    match e
    case Path(x) => SimPath(k, world, x, env, fnv, cells, fuel);
    case Qualified(_, _) => SimQualified(k, world, e, env, fnv, cells, fuel);
    case Node(_, _) => SimNode(k, world, e, env, fnv, cells, fuel);
    case Struct(_, _, _) => SimStruct(k, world, e, env, fnv, cells, fuel);
    case Ascribed(_, _) => SimAscribed(k, world, e, env, fnv, cells, fuel);
    case Call(_) => SimCall(k, world, e, env, fnv, cells, fuel);
    case Closure(_, _) => SimClosureExpr(k, world, e, env, fnv, cells, fuel);
    case Block(_) => SimBlockExpr(k, world, e, env, fnv, cells, fuel);
    case If(_, _, _) => SimIf(k, world, e, env, fnv, cells, fuel);
    case While(_, _) => SimWhile(k, world, e, env, fnv, cells, fuel);
    case For(_, _, _) => SimForExpr(k, world, e, env, fnv, cells, fuel);
    case Match(_, _) => SimMatch(k, world, e, env, fnv, cells, fuel);
    case Unexpanded(_) =>
    case Root => SimRoot(k, world, env, fnv, cells, fuel);
  }

  lemma SimRoot(k: Link, world: World, env: Env, fnv: Env, cells: Cells, fuel: nat)
    requires RelE(k, env, fnv) && Ready(k, Root, fnv)
    ensures RelO(k, Eval(world, Root, env, cells, fuel), Eval(world, Image(k, Root, fnv), fnv, cells, fuel))
  {
    NoTuple(env, fnv, k);
  }

  lemma SimClosureExpr(k: Link, world: World, e: Expr, env: Env, fnv: Env, cells: Cells, fuel: nat)
    requires e.Closure? && RelE(k, env, fnv) && Ready(k, e, fnv)
    ensures RelO(k, Eval(world, e, env, cells, fuel), Eval(world, Image(k, e, fnv), fnv, cells, fuel))
  {
    SimClosure(k, e, env, fnv);
  }

  lemma {:induction false} SimBlockExpr(k: Link, world: World, e: Expr, env: Env, fnv: Env, cells: Cells, fuel: nat)
    requires e.Block?
    requires WellLinked(k, world) && RelE(k, env, fnv) && Ready(k, e, fnv)
    ensures RelO(k, Eval(world, e, env, cells, fuel), Eval(world, Image(k, e, fnv), fnv, cells, fuel))
    decreases fuel, e, 2
  {
    SimBlock(k, world, e.stmts, env, fnv, cells, fuel);
  }

  lemma SimQualified(k: Link, world: World, e: Expr, env: Env, fnv: Env, cells: Cells, fuel: nat)
    requires e.Qualified?
    requires WellLinked(k, world) && RelE(k, env, fnv) && Ready(k, e, fnv)
    ensures RelO(k, Eval(world, e, env, cells, fuel), Eval(world, Image(k, e, fnv), fnv, cells, fuel))
  {
    HeadStable(k, e, fnv);
    LookupKept(k, world, env, fnv, Under(e.head, e.rest));
    assert Image(k, e, fnv) == e;
  }

  lemma HeadStable(k: Link, e: Expr, fnv: Env)
    requires e.Qualified? && Ready(k, e, fnv)
    ensures Stable(k, fnv, Under(e.head, e.rest))
  {
  }

  lemma {:induction false} SimAscribed(k: Link, world: World, e: Expr, env: Env, fnv: Env, cells: Cells, fuel: nat)
    requires e.Ascribed?
    requires WellLinked(k, world) && RelE(k, env, fnv) && Ready(k, e, fnv)
    ensures RelO(k, Eval(world, e, env, cells, fuel), Eval(world, Image(k, e, fnv), fnv, cells, fuel))
    decreases fuel, e, 2
  {
    SimExpr(k, world, e.expr, env, fnv, cells, fuel);
    HeadsKept(k, world, e.ty.heads, env, fnv);
  }

  lemma HeadsKept(k: Link, world: World, heads: seq<string>, env: Env, fnv: Env)
    requires WellLinked(k, world) && RelE(k, env, fnv) && (Relocated(fnv) ==> Fits(k, Heads(heads), fnv))
    ensures AllKnown(world, env, heads) == AllKnown(world, fnv, heads)
  {
    forall i | 0 <= i < |heads|
      ensures Lookup(world, env, Under(heads[i], "")).Unknown? <==> Lookup(world, fnv, Under(heads[i], "")).Unknown?
    {
      assert AsType(heads[i]) in Heads(heads);
      LookupKept(k, world, env, fnv, Under(heads[i], ""));
    }
  }

  lemma {:induction false} SimForExpr(k: Link, world: World, e: Expr, env: Env, fnv: Env, cells: Cells, fuel: nat)
    requires e.For?
    requires WellLinked(k, world) && RelE(k, env, fnv) && Ready(k, e, fnv)
    ensures RelO(k, Eval(world, e, env, cells, fuel), Eval(world, Image(k, e, fnv), fnv, cells, fuel))
    decreases fuel, e, 2, 1
  {
    ForParts(k, e, fnv);
    SimLoop(k, world, e, Image(k, e, fnv), env, fnv, cells, fuel);
  }

  lemma {:induction false} SimLoop(k: Link, world: World, e: Expr, f: Expr, env: Env, fnv: Env, cells: Cells, fuel: nat)
    requires WellLinked(k, world) && RelE(k, env, fnv)
    requires Turns(k, e, f, fnv) && Ready(k, e.iter, fnv) && f.iter == Image(k, e.iter, fnv)
    ensures RelO(k, Eval(world, e, env, cells, fuel), Eval(world, f, fnv, cells, fuel))
    decreases fuel, e, 2, 0
  {
    SimExpr(k, world, e.iter, env, fnv, cells, fuel);
    var o, p := Eval(world, e.iter, env, cells, fuel), Eval(world, f.iter, fnv, cells, fuel);
    if o.Done? && o.value.Tup? {
      TupleRel(k, o.value, p.value);
      SimFor(k, world, e, f, o.value.elems, p.value.elems, env, fnv, o.cells, fuel);
    }
  }

  lemma TupleRel(k: Link, v: Value, w: Value)
    requires RelV(k, v, w) && v.Tup?
    ensures w.Tup? && RelVs(k, v.elems, w.elems)
  {
  }

  /** `f` is the image of the loop `e`, whose turns are ready. */
  predicate Turns(k: Link, e: Expr, f: Expr, fnv: Env) {
    && e.For? && f.For? && f.pat == e.pat
    && PatReady(k, e.pat, fnv) && ReadyBlockUnder(k, e.loopBody, PatNames(e.pat), fnv)
    && f.loopBody ==
       if Converted(fnv) then BlockSubst(e.loopBody, InnerNames(fnv) + PatNames(e.pat), k.caps) else e.loopBody
  }

  lemma ForParts(k: Link, e: Expr, fnv: Env)
    requires e.For? && Ready(k, e, fnv)
    ensures Ready(k, e.iter, fnv) && Turns(k, e, Image(k, e, fnv), fnv)
    ensures Image(k, e, fnv).iter == Image(k, e.iter, fnv)
  {
    var b, g := InnerNames(fnv), InnerGlob(fnv);
    var s1, s2 := Sites(e.iter, b, g), PatSites(e.pat);
    LinkedAppend(k, s1 + s2, BlockSites(e.loopBody, b + PatNames(e.pat), g));
    LinkedAppend(k, s1, s2);
  }

  lemma {:induction false} SimMatch(k: Link, world: World, e: Expr, env: Env, fnv: Env, cells: Cells, fuel: nat)
    requires e.Match?
    requires WellLinked(k, world) && RelE(k, env, fnv) && Ready(k, e, fnv)
    ensures RelO(k, Eval(world, e, env, cells, fuel), Eval(world, Image(k, e, fnv), fnv, cells, fuel))
    decreases fuel, e, 2
  {
    var b, g := InnerNames(fnv), InnerGlob(fnv);
    LinkedAppend(k, Sites(e.scrutinee, b, g), ArmsSites(e.arms, b, g));
    SimExpr(k, world, e.scrutinee, env, fnv, cells, fuel);
    var o := Eval(world, e.scrutinee, env, cells, fuel);
    if o.Done? {
      var p := Eval(world, Image(k, e.scrutinee, fnv), fnv, cells, fuel);
      SimArms(k, world, e.arms, o.value, p.value, env, fnv, o.cells, fuel);
    }
  }

  lemma {:induction false} SimNode(k: Link, world: World, e: Expr, env: Env, fnv: Env, cells: Cells, fuel: nat)
    requires e.Node?
    requires WellLinked(k, world) && RelE(k, env, fnv) && Ready(k, e, fnv)
    ensures RelO(k, Eval(world, e, env, cells, fuel), Eval(world, Image(k, e, fnv), fnv, cells, fuel))
    decreases fuel, e, 2
  {
    SimExprs(k, world, e.args, env, fnv, cells, fuel);
    var os := EvalAll(world, e.args, env, cells, fuel);
    if os.Many? {
      var ps := EvalAll(world, ImageExprs(k, e.args, fnv), fnv, cells, fuel);
      ApplyRel(k, e.op, os.values, ps.values, os.cells);
    }
  }

  lemma ApplyRel(k: Link, op: Op, vs: seq<Value>, ws: seq<Value>, cells: Cells)
    requires RelVs(k, vs, ws)
    ensures RelO(k, Apply(op, vs, cells), Apply(op, ws, cells))
  {
    if op.Member? && |vs| == 1 && vs[0].Rec? {
      MemberRel(k, vs[0].members, vs[0].fields, ws[0].fields, op.member);
    }
  }

  lemma SimPath(k: Link, world: World, x: string, env: Env, fnv: Env, cells: Cells, fuel: nat)
    requires WellLinked(k, world) && RelE(k, env, fnv) && Ready(k, Path(x), fnv)
    ensures RelO(k, Eval(world, Path(x), env, cells, fuel), Eval(world, Image(k, Path(x), fnv), fnv, cells, fuel))
  {
    if Converted(fnv) && x !in InnerNames(fnv) && x in k.types {
      CapturedPath(k, x, fnv);
      LookupCaptured(k, world, env, fnv, x);
      EvalField(world, IndexOf(k.caps, x).value, fnv, cells, fuel);
    } else {
      SimKeptPath(k, world, x, env, fnv, cells, fuel);
    }
  }

  lemma SimKeptPath(k: Link, world: World, x: string, env: Env, fnv: Env, cells: Cells, fuel: nat)
    requires WellLinked(k, world) && RelE(k, env, fnv) && Ready(k, Path(x), fnv)
    requires Converted(fnv) ==> x in InnerNames(fnv) || x !in k.types
    ensures RelO(k, Eval(world, Path(x), env, cells, fuel), Eval(world, Image(k, Path(x), fnv), fnv, cells, fuel))
  {
    KeptPath(k, x, fnv);
    LookupKept(k, world, env, fnv, One(x));
  }

  lemma KeptPath(k: Link, x: string, fnv: Env)
    requires Recorded(k.types, k.caps) && (Converted(fnv) ==> x in InnerNames(fnv) || x !in k.types)
    ensures Image(k, Path(x), fnv) == Path(x)
  {
    assert forall i :: 0 <= i < |k.caps| ==> k.caps[i].name in k.types;
  }

  lemma CapturedPath(k: Link, x: string, fnv: Env)
    requires Ready(k, Path(x), fnv) && Converted(fnv) && x !in InnerNames(fnv) && x in k.types
    ensures !InnerGlob(fnv) && IndexOf(k.caps, x).Some? && Image(k, Path(x), fnv) == Field(IndexOf(k.caps, x).value)
  {
    var s := Sites(Path(x), InnerNames(fnv), InnerGlob(fnv))[0];
    assert s == Ref(x, InnerGlob(fnv)) && LinkedSite(k, s);
  }

  lemma EvalField(world: World, i: nat, env: Env, cells: Cells, fuel: nat)
    requires var tuple := CaptureTuple(env); tuple.Some? && tuple.value.Tup? && i < |tuple.value.elems|
    ensures Eval(world, Field(i), env, cells, fuel) == Done(CaptureTuple(env).value.elems[i], cells)
  {
    assert EvalAll(world, ENil, env, cells, fuel) == Many([], cells);
    assert EvalAll(world, ECons(Root, ENil), env, cells, fuel) == Many([CaptureTuple(env).value], cells);
  }

  lemma {:induction false} NoTuple(env: Env, fnv: Env, k: Link)
    requires RelE(k, env, fnv) && !Relocated(fnv)
    ensures CaptureTuple(env).None? && CaptureTuple(fnv).None?
    decreases fnv
  {
    match fnv
    case Bind(_, _, rest) => NoTuple(env.rest, rest, k);
    case Items(_, rest) => NoTuple(env.rest, rest, k);
    case _ =>
  }

  lemma SimClosure(k: Link, e: Expr, env: Env, fnv: Env)
    requires e.Closure? && RelE(k, env, fnv) && Ready(k, e, fnv)
    ensures Image(k, e, fnv).Closure?
    ensures RelV(k, Clo(e.params, e.body, env), Clo(e.params, Image(k, e, fnv).body, fnv))
  {
    LinkedAppend(k, PatsSites(e.params), Sites(e.body, InnerNames(fnv) + PatsNames(e.params), InnerGlob(fnv)));
  }

  lemma {:induction false} SimExprs(k: Link, world: World, es: Exprs, env: Env, fnv: Env, cells: Cells, fuel: nat)
    requires WellLinked(k, world) && RelE(k, env, fnv) && ReadyExprs(k, es, fnv)
    ensures RelOs(k, EvalAll(world, es, env, cells, fuel), EvalAll(world, ImageExprs(k, es, fnv), fnv, cells, fuel))
    decreases fuel, es, 3
  {
    match es
    case ENil =>
    case ECons(e, tail) =>
      var b, g := InnerNames(fnv), InnerGlob(fnv);
      assert Ready(k, e, fnv) && ReadyExprs(k, tail, fnv) by {
        LinkedAppend(k, Sites(e, b, g), ExprsSites(tail, b, g));
      }
      SimExpr(k, world, e, env, fnv, cells, fuel);
      var o := Eval(world, e, env, cells, fuel);
      if o.Done? {
        var p := Eval(world, Image(k, e, fnv), fnv, cells, fuel);
        SimExprs(k, world, tail, env, fnv, o.cells, fuel);
        PrependedRel(k, o.value, p.value, EvalAll(world, tail, env, o.cells, fuel),
                     EvalAll(world, ImageExprs(k, tail, fnv), fnv, o.cells, fuel));
      }
  }

  lemma PrependedRel(k: Link, v: Value, w: Value, os: Outcomes, ps: Outcomes)
    requires RelV(k, v, w) && RelOs(k, os, ps)
    ensures RelOs(k, Prepended(v, os), Prepended(w, ps))
  {
    if os.Many? {
      assert RelVs(k, [v] + os.values, [w] + ps.values);
    }
  }

  lemma {:induction false} SimStruct(k: Link, world: World, e: Expr, env: Env, fnv: Env, cells: Cells, fuel: nat)
    requires e.Struct?
    requires WellLinked(k, world) && RelE(k, env, fnv) && Ready(k, e, fnv)
    ensures RelO(k, Eval(world, e, env, cells, fuel), Eval(world, Image(k, e, fnv), fnv, cells, fuel))
    decreases fuel, e, 2
  {
    StructParts(k, e, fnv);
    SimFields(k, world, e.fields, env, fnv, cells, fuel);
    var os := EvalFields(world, e.fields, env, cells, fuel);
    if os.Many? {
      var ps := EvalFields(world, ImageFields(k, e.fields, fnv), fnv, cells, fuel);
      StructHead(k, world, e, env, fnv);
      BuiltRel(k, Lookup(world, env, Under(e.head, e.rest)), Lookup(world, fnv, Under(e.head, e.rest)),
               FieldNames(e.fields), os.values, ps.values, os.cells);
    }
  }

  lemma StructParts(k: Link, e: Expr, fnv: Env)
    requires e.Struct? && Ready(k, e, fnv)
    ensures ReadyFields(k, e.fields, fnv)
    ensures Image(k, e, fnv) == Struct(e.head, e.rest, ImageFields(k, e.fields, fnv))
    ensures FieldNames(ImageFields(k, e.fields, fnv)) == FieldNames(e.fields)
  {
    SameFieldNames(e.fields, InnerNames(fnv), k.caps);
  }

  lemma StructHead(k: Link, world: World, e: Expr, env: Env, fnv: Env)
    requires e.Struct? && WellLinked(k, world) && RelE(k, env, fnv) && Ready(k, e, fnv)
    ensures RelMeaning(k, Lookup(world, env, Under(e.head, e.rest)), Lookup(world, fnv, Under(e.head, e.rest)))
  {
    LookupKept(k, world, env, fnv, Under(e.head, e.rest));
  }

  lemma BuiltRel(k: Link, m: Meaning, n: Meaning, members: seq<string>, vs: seq<Value>, ws: seq<Value>, cells: Cells)
    requires RelMeaning(k, m, n) && RelVs(k, vs, ws)
    ensures RelO(k, Built(m, members, vs, cells), Built(n, members, ws, cells))
  {
  }

  lemma {:induction false} SameFieldNames(fs: Fields, bound: set<string>, caps: seq<Capture>)
    ensures FieldNames(FieldsSubst(fs, bound, caps)) == FieldNames(fs)
    decreases fs
  {
    if fs.FCons? {
      SameFieldNames(fs.tail, bound, caps);
    }
  }

  lemma {:induction false} SimFields(k: Link, world: World, fs: Fields, env: Env, fnv: Env, cells: Cells, fuel: nat)
    requires WellLinked(k, world) && RelE(k, env, fnv) && ReadyFields(k, fs, fnv)
    ensures RelOs(k, EvalFields(world, fs, env, cells, fuel),
                  EvalFields(world, ImageFields(k, fs, fnv), fnv, cells, fuel))
    decreases fuel, fs, 3
  {
    match fs
    case FNil =>
    case FCons(member, colon, e, tail) =>
      var b, g := InnerNames(fnv), InnerGlob(fnv);
      assert Ready(k, e, fnv) && ReadyFields(k, tail, fnv) by {
        LinkedAppend(k, Sites(e, b, g), FieldsSites(tail, b, g));
      }
      SimField(k, world, fs, env, fnv, cells, fuel);
      var o := EvalField1(world, fs, env, cells, fuel);
      if o.Done? {
        var p := EvalField1(world, ImageFields(k, fs, fnv), fnv, cells, fuel);
        SimFields(k, world, tail, env, fnv, o.cells, fuel);
        PrependedRel(k, o.value, p.value, EvalFields(world, tail, env, o.cells, fuel),
                     EvalFields(world, ImageFields(k, tail, fnv), fnv, o.cells, fuel));
      }
  }

  /** A shorthand field that names a captured binding is spelled out, and means the same. */
  lemma {:induction false} SimField(k: Link, world: World, fs: Fields, env: Env, fnv: Env, cells: Cells, fuel: nat)
    requires fs.FCons? && WellLinked(k, world) && RelE(k, env, fnv) && Ready(k, fs.expr, fnv)
    requires Relocated(fnv) && !fs.colon ==> fs.expr == Path(fs.member)
    ensures ImageFields(k, fs, fnv).FCons?
    ensures RelO(k, EvalField1(world, fs, env, cells, fuel),
                 EvalField1(world, ImageFields(k, fs, fnv), fnv, cells, fuel))
    decreases fuel, fs, 2
  {
    ConvertedIsRelocated(fnv);
    if fs.colon {
      SimExpr(k, world, fs.expr, env, fnv, cells, fuel);
    } else if Relocated(fnv) {
      SimPath(k, world, fs.member, env, fnv, cells, fuel);
    } else {
      LookupKept(k, world, env, fnv, One(fs.member));
    }
  }

  lemma {:induction false} SimCall(k: Link, world: World, e: Expr, env: Env, fnv: Env, cells: Cells, fuel: nat)
    requires e.Call?
    requires WellLinked(k, world) && RelE(k, env, fnv) && Ready(k, e, fnv)
    ensures RelO(k, Eval(world, e, env, cells, fuel), Eval(world, Image(k, e, fnv), fnv, cells, fuel))
    decreases fuel, e, 2
  {
    SimExprs(k, world, e.args, env, fnv, cells, fuel);
    var os := EvalAll(world, e.args, env, cells, fuel);
    var ps := EvalAll(world, ImageExprs(k, e.args, fnv), fnv, cells, fuel);
    if os.Many? && fuel > 0 {
      SimEnter(k, world, os.values, ps.values, os.cells, fuel);
    }
    assert RelO(k, Called(world, os, fuel), Called(world, ps, fuel));
    assert Image(k, e, fnv) == Call(ImageExprs(k, e.args, fnv));
    assert Eval(world, e, env, cells, fuel) == Called(world, os, fuel);
    assert Eval(world, Call(ImageExprs(k, e.args, fnv)), fnv, cells, fuel) == Called(world, ps, fuel);
  }

  /** A call once callee and arguments are evaluated. */
  function Called(world: World, os: Outcomes, fuel: nat): Outcome {
    match os
    case Many(vs, after) => if fuel == 0 then Timeout else Enter(world, vs, after, fuel)
    case Stopped(o) => o
  }

  lemma {:induction false} SimEnter(k: Link, world: World, vs: seq<Value>, ws: seq<Value>, cells: Cells, fuel: nat)
    requires fuel > 0 && RelVs(k, vs, ws) && WellLinked(k, world)
    ensures RelO(k, Enter(world, vs, cells, fuel), Enter(world, ws, cells, fuel))
    decreases fuel - 1
  {
    if vs != [] && vs[0].Clo? {
      var f, h := vs[0], ws[0];
      ParamsReady(k, f, h);
      MatchedAllRel(k, world, f.params, vs[1..], ws[1..], f.env, h.env);
      var frame := MatchedAll(world, f.params, vs[1..], f.env);
      if frame.Some? {
        var moved := MatchedAll(world, h.params, ws[1..], h.env).value;
        FrameReady(k, f, h, moved);
        SimExpr(k, world, f.body, frame.value, moved, cells, fuel - 1);
      }
    }
  }

  lemma ParamsReady(k: Link, f: Value, h: Value)
    requires f.Clo? && RelV(k, f, h)
    ensures h.Clo? && h.params == f.params && RelE(k, f.env, h.env) && PatsReady(k, f.params, h.env)
  {
  }

  lemma FrameReady(k: Link, f: Value, h: Value, frame: Env)
    requires f.Clo? && RelV(k, f, h) && Inner(k, h.env, PatsNames(f.params), frame)
    ensures Ready(k, f.body, frame) && h.body == Image(k, f.body, frame)
  {
    BodyReady(k, f.params, f.body, h.env);
    Entered(k, f.body, PatsNames(f.params), h.env, frame);
  }

  lemma BodyReady(k: Link, params: Pats, body: Expr, env: Env)
    requires Relocated(env) ==> Parsed(body) && Fits(k, Outer(Closure(params, body)), env)
    requires Converted(env) ==> Linked(k, Sites(body, InnerNames(env) + PatsNames(params), InnerGlob(env)))
    ensures ReadyUnder(k, body, PatsNames(params), env)
  {
  }

  lemma {:induction false} SimIf(k: Link, world: World, e: Expr, env: Env, fnv: Env, cells: Cells, fuel: nat)
    requires e.If?
    requires WellLinked(k, world) && RelE(k, env, fnv) && Ready(k, e, fnv)
    ensures RelO(k, Eval(world, e, env, cells, fuel), Eval(world, Image(k, e, fnv), fnv, cells, fuel))
    decreases fuel, e, 2
  {
    IfParts(k, e, fnv);
    SimCond(k, world, e.cond, env, fnv, cells, fuel);
    var o := EvalCond(world, e.cond, env, cells, fuel);
    var p := EvalCond(world, ImageCond(k, e.cond, fnv), fnv, cells, fuel);
    if o.Holds? {
      EnteredBlock(k, e.yes, CondNames(e.cond), fnv, p.env);
      SimBlock(k, world, e.yes, o.env, p.env, o.cells, fuel);
    } else if o.Fails? {
      SimExpr(k, world, e.no, env, fnv, o.cells, fuel);
    }
  }

  lemma IfParts(k: Link, e: Expr, fnv: Env)
    requires e.If? && Ready(k, e, fnv)
    ensures ReadyCond(k, e.cond, fnv) && ReadyBlockUnder(k, e.yes, CondNames(e.cond), fnv) && Ready(k, e.no, fnv)
    ensures Image(k, e, fnv).If?
    ensures Image(k, e, fnv).cond == ImageCond(k, e.cond, fnv) && Image(k, e, fnv).no == Image(k, e.no, fnv)
    ensures Image(k, e, fnv).yes ==
              if Converted(fnv) then BlockSubst(e.yes, InnerNames(fnv) + CondNames(e.cond), k.caps) else e.yes
  {
    var b, g := InnerNames(fnv), InnerGlob(fnv);
    var s1, s2 := CondSites(e.cond, b, g), BlockSites(e.yes, b + CondNames(e.cond), g);
    LinkedAppend(k, s1 + s2, Sites(e.no, b, g));
    LinkedAppend(k, s1, s2);
  }

  lemma {:induction false} SimCond(k: Link, world: World, c: Cond, env: Env, fnv: Env, cells: Cells, fuel: nat)
    requires WellLinked(k, world) && RelE(k, env, fnv) && ReadyCond(k, c, fnv)
    ensures RelC(k, EvalCond(world, c, env, cells, fuel), EvalCond(world, ImageCond(k, c, fnv), fnv, cells, fuel),
                 fnv, CondNames(c))
    decreases fuel, c, 3
  {
    match c
    case CTrue => NothingBound(k, fnv);
    case CExpr(e) =>
      SimExpr(k, world, e, env, fnv, cells, fuel);
      DecideRel(k, Eval(world, e, env, cells, fuel), Eval(world, Image(k, e, fnv), fnv, cells, fuel), env, fnv);
    case CLet(_, _) => SimCondLet(k, world, c, env, fnv, cells, fuel);
    case CAnd(_, _) => SimCondAnd(k, world, c, env, fnv, cells, fuel);
  }

  lemma DecideRel(k: Link, o: Outcome, p: Outcome, env: Env, fnv: Env)
    requires RelO(k, o, p) && RelE(k, env, fnv)
    ensures RelC(k, Decide(o, env), Decide(p, fnv), fnv, {})
  {
    NothingBound(k, fnv);
  }

  lemma {:induction false} SimCondLet(k: Link, world: World, c: Cond, env: Env, fnv: Env, cells: Cells, fuel: nat)
    requires c.CLet?
    requires WellLinked(k, world) && RelE(k, env, fnv) && ReadyCond(k, c, fnv)
    ensures RelC(k, EvalCond(world, c, env, cells, fuel), EvalCond(world, ImageCond(k, c, fnv), fnv, cells, fuel),
                 fnv, CondNames(c))
    decreases fuel, c, 2
  {
    CondLetParts(k, c, fnv);
    SimExpr(k, world, c.init, env, fnv, cells, fuel);
    AttemptRel(k, world, c.pat, Eval(world, c.init, env, cells, fuel),
               Eval(world, Image(k, c.init, fnv), fnv, cells, fuel), env, fnv);
  }

  lemma CondLetParts(k: Link, c: Cond, fnv: Env)
    requires c.CLet? && ReadyCond(k, c, fnv)
    ensures Ready(k, c.init, fnv) && PatReady(k, c.pat, fnv)
    ensures ImageCond(k, c, fnv) == CLet(c.pat, Image(k, c.init, fnv))
  {
    LinkedAppend(k, Sites(c.init, InnerNames(fnv), InnerGlob(fnv)), PatSites(c.pat));
  }

  lemma AttemptRel(k: Link, world: World, p: Pat, o: Outcome, q: Outcome, env: Env, fnv: Env)
    requires WellLinked(k, world) && RelO(k, o, q) && RelE(k, env, fnv) && PatReady(k, p, fnv)
    ensures RelC(k, Attempt(world, p, o, env), Attempt(world, p, q, fnv), fnv, PatNames(p))
  {
    if o.Done? {
      MatchedRel(k, world, p, o.value, q.value, env, fnv);
    }
  }

  lemma {:induction false} SimCondAnd(k: Link, world: World, c: Cond, env: Env, fnv: Env, cells: Cells, fuel: nat)
    requires c.CAnd?
    requires WellLinked(k, world) && RelE(k, env, fnv) && ReadyCond(k, c, fnv)
    ensures RelC(k, EvalCond(world, c, env, cells, fuel), EvalCond(world, ImageCond(k, c, fnv), fnv, cells, fuel),
                 fnv, CondNames(c))
    decreases fuel, c, 2
  {
    CondParts(k, c, fnv);
    SimCond(k, world, c.left, env, fnv, cells, fuel);
    var o := EvalCond(world, c.left, env, cells, fuel);
    if o.Holds? {
      var p := EvalCond(world, ImageCond(k, c.left, fnv), fnv, cells, fuel);
      EnteredCond(k, c.right, CondNames(c.left), fnv, p.env);
      SimCond(k, world, c.right, o.env, p.env, o.cells, fuel);
      RelCNested(k, EvalCond(world, c.right, o.env, o.cells, fuel),
                 EvalCond(world, ImageCond(k, c.right, p.env), p.env, o.cells, fuel), fnv, p.env,
                 CondNames(c.left), CondNames(c.right));
    }
  }

  lemma CondParts(k: Link, c: Cond, fnv: Env)
    requires c.CAnd? && ReadyCond(k, c, fnv)
    ensures ReadyCond(k, c.left, fnv) && ReadyCondUnder(k, c.right, CondNames(c.left), fnv)
  {
    var b, g := InnerNames(fnv), InnerGlob(fnv);
    LinkedAppend(k, CondSites(c.left, b, g), CondSites(c.right, b + CondNames(c.left), g));
  }

  lemma {:induction false} SimArms(k: Link, world: World, arms: Arms, v: Value, w: Value, env: Env, fnv: Env,
                                   cells: Cells, fuel: nat)
    requires WellLinked(k, world) && RelE(k, env, fnv) && RelV(k, v, w) && ReadyArms(k, arms, fnv)
    ensures RelO(k, EvalArms(world, arms, v, env, cells, fuel),
                 EvalArms(world, ImageArms(k, arms, fnv), w, fnv, cells, fuel))
    decreases fuel, arms, 3
  {
    match arms
    case ANil =>
    case ACons(_, _, _, tail) =>
      SimArm(k, world, arms, v, w, env, fnv, cells, fuel);
      var o := EvalArm(world, arms, v, env, cells, fuel);
      if o.Next? {
        ArmParts(k, arms, fnv);
        SimArms(k, world, tail, v, w, env, fnv, o.cells, fuel);
      }
  }

  lemma {:induction false} SimArm(k: Link, world: World, arms: Arms, v: Value, w: Value, env: Env, fnv: Env,
                                  cells: Cells, fuel: nat)
    requires arms.ACons? && WellLinked(k, world) && RelE(k, env, fnv) && RelV(k, v, w) && ReadyArms(k, arms, fnv)
    ensures ImageArms(k, arms, fnv).ACons?
    ensures var o := EvalArm(world, arms, v, env, cells, fuel);
            var p := EvalArm(world, ImageArms(k, arms, fnv), w, fnv, cells, fuel);
            if o.Next? then p == o else p.Taken? && RelO(k, o.outcome, p.outcome)
    decreases fuel, arms, 2
  {
    ArmParts(k, arms, fnv);
    SimGuard(k, world, arms, v, w, env, fnv, cells, fuel);
    var o := EvalGuard(world, arms, v, env, cells, fuel);
    if o.Holds? {
      var q := EvalGuard(world, ImageArms(k, arms, fnv), w, fnv, cells, fuel);
      ArmBody(k, arms, fnv, q.env);
      SimExpr(k, world, arms.body, o.env, q.env, o.cells, fuel);
    }
  }

  lemma ArmBody(k: Link, arms: Arms, fnv: Env, inner: Env)
    requires arms.ACons? && ReadyUnder(k, arms.body, PatNames(arms.pat) + CondNames(arms.guard), fnv)
    requires Inner(k, fnv, PatNames(arms.pat) + CondNames(arms.guard), inner)
    ensures Ready(k, arms.body, inner)
    ensures ImageArms(k, arms, fnv).ACons? && ImageArms(k, arms, fnv).body == Image(k, arms.body, inner)
  {
    Entered(k, arms.body, PatNames(arms.pat) + CondNames(arms.guard), fnv, inner);
    assert InnerNames(fnv) + PatNames(arms.pat) + CondNames(arms.guard) ==
           InnerNames(fnv) + (PatNames(arms.pat) + CondNames(arms.guard));
  }

  lemma ArmParts(k: Link, arms: Arms, fnv: Env)
    requires arms.ACons? && ReadyArms(k, arms, fnv)
    ensures PatReady(k, arms.pat, fnv) && ReadyCondUnder(k, arms.guard, PatNames(arms.pat), fnv)
    ensures ReadyUnder(k, arms.body, PatNames(arms.pat) + CondNames(arms.guard), fnv) && ReadyArms(k, arms.tail, fnv)
  {
    var b, g := InnerNames(fnv), InnerGlob(fnv);
    var s1, s2, s3 := PatSites(arms.pat), CondSites(arms.guard, b + PatNames(arms.pat), g),
                      Sites(arms.body, b + PatNames(arms.pat) + CondNames(arms.guard), g);
    LinkedAppend(k, s1 + s2 + s3, ArmsSites(arms.tail, b, g));
    LinkedAppend(k, s1 + s2, s3);
    LinkedAppend(k, s1, s2);
    assert b + PatNames(arms.pat) + CondNames(arms.guard) == b + (PatNames(arms.pat) + CondNames(arms.guard));
    assert Bodies(PatNames(arms.pat) + CondNames(arms.guard)) ==
           Bodies(PatNames(arms.pat)) + Bodies(CondNames(arms.guard));
  }

  lemma {:induction false} SimGuard(k: Link, world: World, arms: Arms, v: Value, w: Value, env: Env, fnv: Env,
                                    cells: Cells, fuel: nat)
    requires arms.ACons? && WellLinked(k, world) && RelE(k, env, fnv) && RelV(k, v, w)
    requires PatReady(k, arms.pat, fnv) && ReadyCondUnder(k, arms.guard, PatNames(arms.pat), fnv)
    ensures ImageArms(k, arms, fnv).ACons?
    ensures RelC(k, EvalGuard(world, arms, v, env, cells, fuel),
                 EvalGuard(world, ImageArms(k, arms, fnv), w, fnv, cells, fuel),
                 fnv, PatNames(arms.pat) + CondNames(arms.guard))
    decreases fuel, arms, 1
  {
    MatchedRel(k, world, arms.pat, v, w, env, fnv);
    var m := Matched(world, arms.pat, v, env);
    if m.Some? {
      var n := Matched(world, arms.pat, w, fnv).value;
      EnteredCond(k, arms.guard, PatNames(arms.pat), fnv, n);
      SimCond(k, world, arms.guard, m.value, n, cells, fuel);
      var o := EvalCond(world, arms.guard, m.value, cells, fuel);
      var p := EvalCond(world, ImageCond(k, arms.guard, n), n, cells, fuel);
      assert RelC(k, o, p, fnv, PatNames(arms.pat) + CondNames(arms.guard)) by {
        RelCNested(k, o, p, fnv, n, PatNames(arms.pat), CondNames(arms.guard));
      }
    }
  }

  lemma RelCNested(k: Link, o: CondOutcome, p: CondOutcome, fnv: Env, mid: Env, outer: set<string>, inner: set<string>)
    requires Inner(k, fnv, outer, mid) && RelC(k, o, p, mid, inner)
    ensures RelC(k, o, p, fnv, outer + inner)
  {
    if o.Holds? {
      InnerNested(k, fnv, mid, p.env, outer, inner);
    }
  }

  lemma {:induction false} SimWhile(k: Link, world: World, e: Expr, env: Env, fnv: Env, cells: Cells, fuel: nat)
    requires e.While?
    requires WellLinked(k, world) && RelE(k, env, fnv) && Ready(k, e, fnv)
    ensures Image(k, e, fnv).While?
    ensures RelO(k, EvalWhile(world, e, env, cells, fuel), EvalWhile(world, Image(k, e, fnv), fnv, cells, fuel))
    decreases fuel, e, 2
  {
    if fuel > 0 {
      SimTurn(k, world, e, env, fnv, cells, fuel);
      var o := EvalTurn(world, e, env, cells, fuel);
      if Repeats(o) {
        SimWhile(k, world, e, env, fnv, o.cells, fuel - 1);
      }
    }
  }

  lemma {:induction false} SimTurn(k: Link, world: World, e: Expr, env: Env, fnv: Env, cells: Cells, fuel: nat)
    requires e.While?
    requires WellLinked(k, world) && RelE(k, env, fnv) && Ready(k, e, fnv)
    ensures Image(k, e, fnv).While?
    ensures RelO(k, EvalTurn(world, e, env, cells, fuel), EvalTurn(world, Image(k, e, fnv), fnv, cells, fuel))
    decreases fuel, e, 1
  {
    WhileParts(k, e, fnv);
    SimCond(k, world, e.cond, env, fnv, cells, fuel);
    var o := EvalCond(world, e.cond, env, cells, fuel);
    if o.Holds? {
      var p := EvalCond(world, ImageCond(k, e.cond, fnv), fnv, cells, fuel);
      EnteredBlock(k, e.loopBody, CondNames(e.cond), fnv, p.env);
      SimBlock(k, world, e.loopBody, o.env, p.env, o.cells, fuel);
    }
  }

  lemma WhileParts(k: Link, e: Expr, fnv: Env)
    requires e.While? && Ready(k, e, fnv)
    ensures ReadyCond(k, e.cond, fnv) && ReadyBlockUnder(k, e.loopBody, CondNames(e.cond), fnv)
  {
    var b, g := InnerNames(fnv), InnerGlob(fnv);
    LinkedAppend(k, CondSites(e.cond, b, g), BlockSites(e.loopBody, b + CondNames(e.cond), g));
  }

  lemma {:induction false} SimFor(k: Link, world: World, e: Expr, f: Expr, vs: seq<Value>, ws: seq<Value>,
                                  env: Env, fnv: Env, cells: Cells, fuel: nat)
    requires WellLinked(k, world) && RelE(k, env, fnv) && Turns(k, e, f, fnv) && RelVs(k, vs, ws)
    ensures RelO(k, EvalFor(world, e, vs, env, cells, fuel), EvalFor(world, f, ws, fnv, cells, fuel))
    decreases fuel, e, 1, |vs|
  {
    if vs != [] {
      SimTurnOfFor(k, world, e, f, vs[0], ws[0], env, fnv, cells, fuel);
      var m := Matched(world, e.pat, vs[0], env);
      if m.Some? {
        var o := EvalBlock(world, e.loopBody, m.value, cells, fuel);
        if Repeats(o) {
          SimFor(k, world, e, f, vs[1..], ws[1..], env, fnv, o.cells, fuel);
        }
      }
    }
  }

  /** One turn of a `for` loop. */
  lemma {:induction false} SimTurnOfFor(k: Link, world: World, e: Expr, f: Expr, v: Value, w: Value,
                                        env: Env, fnv: Env, cells: Cells, fuel: nat)
    requires WellLinked(k, world) && RelE(k, env, fnv) && Turns(k, e, f, fnv) && RelV(k, v, w)
    ensures var m, n := Matched(world, e.pat, v, env), Matched(world, e.pat, w, fnv);
            && (m.Some? <==> n.Some?)
            && (m.Some? ==> RelO(k, EvalBlock(world, e.loopBody, m.value, cells, fuel),
                                    EvalBlock(world, f.loopBody, n.value, cells, fuel)))
    decreases fuel, e, 0
  {
    MatchedRel(k, world, e.pat, v, w, env, fnv);
    var m := Matched(world, e.pat, v, env);
    if m.Some? {
      var inner := Matched(world, e.pat, w, fnv).value;
      EnteredBlock(k, e.loopBody, PatNames(e.pat), fnv, inner);
      SimBlock(k, world, e.loopBody, m.value, inner, cells, fuel);
    }
  }

  lemma {:induction false} SimBlock(k: Link, world: World, ss: Stmts, env: Env, fnv: Env, cells: Cells, fuel: nat)
    requires WellLinked(k, world) && RelE(k, env, fnv) && ReadyBlock(k, ss, fnv)
    ensures RelO(k, EvalBlock(world, ss, env, cells, fuel), EvalBlock(world, ImageBlock(k, ss, fnv), fnv, cells, fuel))
    decreases fuel, ss, 4
  {
    var items := BlockItems(ss);
    var inner := Items(items, fnv);
    LinkedAppend(k, ItemsSites(items), StmtsSites(ss, InnerNames(inner), InnerGlob(inner)));
    SameItems(ss, InnerNames(inner), k.caps);
    if Relocated(fnv) {
      BlockItemsFit(k, ss, inner);
    }
    SimStmts(k, world, ss, Items(items, env), inner, cells, fuel);
  }

  /** Items are never rewritten. */
  lemma {:induction false} SameItems(ss: Stmts, bound: set<string>, caps: seq<Capture>)
    ensures BlockItems(StmtsSubst(ss, bound, caps)) == BlockItems(ss)
    decreases ss
  {
    match ss
    case SExpr(_, rest) => SameItems(rest, bound, caps);
    case SLet(p, _, rest) => SameItems(rest, bound + PatNames(p), caps);
    case SLetElse(p, _, _, rest) => SameItems(rest, bound + PatNames(p), caps);
    case SItem(_, rest) => SameItems(rest, bound, caps);
    case SMacro(rest) => SameItems(rest, bound, caps);
    case _ =>
  }

  lemma {:induction false} SimStmts(k: Link, world: World, ss: Stmts, env: Env, fnv: Env, cells: Cells, fuel: nat)
    requires WellLinked(k, world) && RelE(k, env, fnv) && ReadyStmts(k, ss, fnv)
    ensures RelO(k, EvalStmts(world, ss, env, cells, fuel), EvalStmts(world, ImageStmts(k, ss, fnv), fnv, cells, fuel))
    decreases fuel, ss, 3
  {
    match ss
    case SEnd =>
    case STail(e) => SimExpr(k, world, e, env, fnv, cells, fuel);
    case SExpr(_, _) => SimEffect(k, world, ss, env, fnv, cells, fuel);
    case SLet(_, _, _) => SimLet(k, world, ss, env, fnv, cells, fuel);
    case SLetElse(_, _, _, _) => SimLetElse(k, world, ss, env, fnv, cells, fuel);
    case SItem(_, rest) => SimStmts(k, world, rest, env, fnv, cells, fuel);
    case SMacro(_) =>
  }

  lemma {:induction false} SimEffect(k: Link, world: World, ss: Stmts, env: Env, fnv: Env, cells: Cells, fuel: nat)
    requires ss.SExpr?
    requires WellLinked(k, world) && RelE(k, env, fnv) && ReadyStmts(k, ss, fnv)
    ensures RelO(k, EvalStmts(world, ss, env, cells, fuel), EvalStmts(world, ImageStmts(k, ss, fnv), fnv, cells, fuel))
    decreases fuel, ss, 2
  {
    var b, g := InnerNames(fnv), InnerGlob(fnv);
    assert Ready(k, ss.expr, fnv) && ReadyStmts(k, ss.rest, fnv) by {
      LinkedAppend(k, Sites(ss.expr, b, g), StmtsSites(ss.rest, b, g));
    }
    SimExpr(k, world, ss.expr, env, fnv, cells, fuel);
    var o := Eval(world, ss.expr, env, cells, fuel);
    if o.Done? {
      SimStmts(k, world, ss.rest, env, fnv, o.cells, fuel);
    }
  }

  lemma LetParts(k: Link, ss: Stmts, fnv: Env)
    requires (ss.SLet? || ss.SLetElse?) && ReadyStmts(k, ss, fnv)
    ensures Ready(k, ss.init, fnv) && (ss.SLetElse? ==> Ready(k, ss.diverge, fnv)) && PatReady(k, ss.pat, fnv)
    ensures ReadyStmtsUnder(k, ss.rest, PatNames(ss.pat), fnv)
  {
    var b, g := InnerNames(fnv), InnerGlob(fnv);
    var s1, s3, s4 := Sites(ss.init, b, g), PatSites(ss.pat), StmtsSites(ss.rest, b + PatNames(ss.pat), g);
    if ss.SLet? {
      LinkedAppend(k, s1 + s3, s4);
      LinkedAppend(k, s1, s3);
    } else {
      var s2 := Sites(ss.diverge, b, g);
      LinkedAppend(k, s1 + s2 + s3, s4);
      LinkedAppend(k, s1 + s2, s3);
      LinkedAppend(k, s1, s2);
    }
  }

  lemma {:induction false} SimRest(k: Link, world: World, p: Pat, rest: Stmts, v: Value, w: Value, env: Env, fnv: Env,
                                   cells: Cells, fuel: nat)
    requires WellLinked(k, world) && RelE(k, env, fnv) && RelV(k, v, w)
    requires PatReady(k, p, fnv) && ReadyStmtsUnder(k, rest, PatNames(p), fnv)
    ensures var m, n := Matched(world, p, v, env), Matched(world, p, w, fnv);
            var bound := InnerNames(fnv) + PatNames(p);
            && (m.Some? <==> n.Some?)
            && (m.Some? ==>
                  RelO(k, EvalStmts(world, rest, m.value, cells, fuel),
                       EvalStmts(world, if Converted(fnv) then StmtsSubst(rest, bound, k.caps) else rest,
                                 n.value, cells, fuel)))
    decreases fuel, rest, 4
  {
    MatchedRel(k, world, p, v, w, env, fnv);
    var m := Matched(world, p, v, env);
    if m.Some? {
      EnteredStmts(k, rest, PatNames(p), fnv, Matched(world, p, w, fnv).value);
      SimStmts(k, world, rest, m.value, Matched(world, p, w, fnv).value, cells, fuel);
    }
  }

  lemma {:induction false} SimLet(k: Link, world: World, ss: Stmts, env: Env, fnv: Env, cells: Cells, fuel: nat)
    requires ss.SLet?
    requires WellLinked(k, world) && RelE(k, env, fnv) && ReadyStmts(k, ss, fnv)
    ensures RelO(k, EvalStmts(world, ss, env, cells, fuel), EvalStmts(world, ImageStmts(k, ss, fnv), fnv, cells, fuel))
    decreases fuel, ss, 2
  {
    LetParts(k, ss, fnv);
    SimExpr(k, world, ss.init, env, fnv, cells, fuel);
    var o, p := Eval(world, ss.init, env, cells, fuel), Eval(world, Image(k, ss.init, fnv), fnv, cells, fuel);
    if o.Done? {
      SimRest(k, world, ss.pat, ss.rest, o.value, p.value, env, fnv, o.cells, fuel);
    }
  }

  lemma {:induction false} SimLetElse(k: Link, world: World, ss: Stmts, env: Env, fnv: Env, cells: Cells, fuel: nat)
    requires ss.SLetElse?
    requires WellLinked(k, world) && RelE(k, env, fnv) && ReadyStmts(k, ss, fnv)
    ensures RelO(k, EvalStmts(world, ss, env, cells, fuel), EvalStmts(world, ImageStmts(k, ss, fnv), fnv, cells, fuel))
    decreases fuel, ss, 2
  {
    LetParts(k, ss, fnv);
    SimExpr(k, world, ss.init, env, fnv, cells, fuel);
    var o, p := Eval(world, ss.init, env, cells, fuel), Eval(world, Image(k, ss.init, fnv), fnv, cells, fuel);
    if o.Done? {
      SimRest(k, world, ss.pat, ss.rest, o.value, p.value, env, fnv, o.cells, fuel);
      if Matched(world, ss.pat, o.value, env).None? {
        SimDiverge(k, world, ss, env, fnv, o.cells, fuel);
      }
    }
  }

  lemma {:induction false} SimDiverge(k: Link, world: World, ss: Stmts, env: Env, fnv: Env, cells: Cells, fuel: nat)
    requires ss.SLetElse?
    requires WellLinked(k, world) && RelE(k, env, fnv) && Ready(k, ss.diverge, fnv)
    ensures RelO(k, Diverged(Eval(world, ss.diverge, env, cells, fuel)),
                 Diverged(Eval(world, Image(k, ss.diverge, fnv), fnv, cells, fuel)))
    decreases fuel, ss, 1
  {
    SimExpr(k, world, ss.diverge, env, fnv, cells, fuel);
  }
}
