/**
 The capture visitor: one traversal of a constructor closure that tracks local
 scopes, records each captured outer binding once, and rewrites its uses to
 fields of the capture tuple.

 Every visiting method is specified by `Sites` and `Subst`: it records exactly
 the admitted sites in visiting order, it fails exactly when some site is not
 admitted, and its output is the substitution for every later state of the
 append-only capture list.
 */
module CaptureVisitor {
  import opened Options
  import opened Sequences
  import BindingModes
  import opened CaptureSyntax

  /** Outer bindings in scope, with the types their annotations determine. */
  type Bindings = BindingModes.Bindings

  predicate Admits(types: Bindings, s: Site) {
    match s
    case Ref(x, globbed) => x in types ==> !globbed && types[x].Some?
    case Imported(x) => x !in types
    case Hidden => false
  }

  predicate Accepts(types: Bindings, sites: seq<Site>) {
    forall i :: 0 <= i < |sites| ==> Admits(types, sites[i])
  }

  function Noted(types: Bindings, caps: seq<Capture>, s: Site): seq<Capture> {
    if s.Ref? && s.name in types && Admits(types, s) && IndexOf(caps, s.name).None?
    then caps + [Capture(s.name, types[s.name].value)]
    else caps
  }

  /** The capture list after recording `sites` in order. */
  function Collect(types: Bindings, caps: seq<Capture>, sites: seq<Site>): seq<Capture>
    decreases |sites|
  {
    if sites == [] then caps else Collect(types, Noted(types, caps, sites[0]), sites[1..])
  }

  predicate Extends(earlier: seq<Capture>, later: seq<Capture>) {
    |earlier| <= |later| && forall i :: 0 <= i < |earlier| ==> earlier[i] == later[i]
  }

  predicate Recorded(types: Bindings, caps: seq<Capture>) {
    forall i :: 0 <= i < |caps| ==> caps[i].name in types
  }

  // ----- what a visit has done, whatever is captured later -----

  predicate Later(types: Bindings, caps: seq<Capture>, final: seq<Capture>) {
    Extends(caps, final) && Recorded(types, final)
  }

  /** The growing part of the visitor's state. */
  datatype Log = Log(caps: seq<Capture>, failed: bool)

  ghost predicate Visited(types: Bindings, sites: seq<Site>, before: Log, after: Log) {
    && Extends(before.caps, after.caps)
    && (after.failed <==> before.failed || !Accepts(types, sites))
    && (!after.failed ==> after.caps == Collect(types, before.caps, sites))
  }

  /** Two visits in sequence; a later capture list extends every earlier one. */
  lemma Then(types: Bindings, a: seq<Site>, b: seq<Site>, l0: Log, l1: Log, l2: Log)
    requires Visited(types, a, l0, l1) && Visited(types, b, l1, l2)
    ensures Visited(types, a + b, l0, l2)
    ensures forall f :: Later(types, l2.caps, f) ==> Later(types, l1.caps, f)
  {
    CollectAppend(types, l0.caps, a, b);
    AcceptsAppend(types, a, b);
  }

  lemma ThenTwice(types: Bindings, a: seq<Site>, b: seq<Site>, c: seq<Site>, l0: Log, l1: Log, l2: Log, l3: Log)
    requires Visited(types, a, l0, l1) && Visited(types, b, l1, l2) && Visited(types, c, l2, l3)
    ensures Visited(types, a + b + c, l0, l3)
    ensures forall f :: Later(types, l3.caps, f) ==> Later(types, l1.caps, f) && Later(types, l2.caps, f)
  {
    Then(types, a, b, l0, l1, l2);
    Then(types, a + b, c, l0, l2, l3);
  }

  lemma {:induction false} CollectAppend(types: Bindings, caps: seq<Capture>, a: seq<Site>, b: seq<Site>)
    ensures Collect(types, caps, a + b) == Collect(types, Collect(types, caps, a), b)
    decreases |a|
  {
    if a == [] {
      assert a + b == b;
    } else {
      assert (a + b)[1..] == a[1..] + b;
      CollectAppend(types, Noted(types, caps, a[0]), a[1..], b);
    }
  }

  lemma AcceptsAppend(types: Bindings, a: seq<Site>, b: seq<Site>)
    ensures Accepts(types, a + b) <==> Accepts(types, a) && Accepts(types, b)
  {
    if Accepts(types, a + b) {
      assert forall i :: 0 <= i < |a| ==> a[i] == (a + b)[i];
      assert forall i :: 0 <= i < |b| ==> b[i] == (a + b)[|a| + i];
    }
  }

  ghost predicate Rewrote(types: Bindings, caps: seq<Capture>, e: Expr, bound: set<string>, r: Expr) {
    forall f :: Later(types, caps, f) ==> r == Subst(e, bound, f)
  }

  ghost predicate RewroteExprs(types: Bindings, caps: seq<Capture>, es: Exprs, bound: set<string>, r: Exprs) {
    forall f :: Later(types, caps, f) ==> r == ExprsSubst(es, bound, f)
  }

  ghost predicate RewroteFields(types: Bindings, caps: seq<Capture>, fs: Fields, bound: set<string>, r: Fields) {
    forall f :: Later(types, caps, f) ==> r == FieldsSubst(fs, bound, f)
  }

  ghost predicate RewroteCond(types: Bindings, caps: seq<Capture>, c: Cond, bound: set<string>, r: Cond) {
    forall f :: Later(types, caps, f) ==> r == CondSubst(c, bound, f)
  }

  ghost predicate RewroteArms(types: Bindings, caps: seq<Capture>, arms: Arms, bound: set<string>, r: Arms) {
    forall f :: Later(types, caps, f) ==> r == ArmsSubst(arms, bound, f)
  }

  ghost predicate RewroteStmts(types: Bindings, caps: seq<Capture>, ss: Stmts, bound: set<string>, r: Stmts) {
    forall f :: Later(types, caps, f) ==> r == StmtsSubst(ss, bound, f)
  }

  // ----- scope stacks -----

  function Union(scopes: seq<set<string>>): set<string> {
    if scopes == [] then {} else Union(scopes[..|scopes| - 1]) + scopes[|scopes| - 1]
  }

  predicate AnyGlob(globs: seq<bool>) {
    exists i :: 0 <= i < |globs| && globs[i]
  }

  lemma PushScope(scopes: seq<set<string>>, scope: set<string>)
    ensures Union(scopes + [scope]) == Union(scopes) + scope
    ensures (scopes + [scope])[..|scopes|] == scopes
  {
    assert (scopes + [scope])[..|scopes|] == scopes;
  }

  lemma PushGlob(globs: seq<bool>, glob: bool)
    ensures AnyGlob(globs + [glob]) == (AnyGlob(globs) || glob)
    ensures (globs + [glob])[..|globs|] == globs
  {
    var pushed := globs + [glob];
    assert pushed[|globs|] == glob;
    if AnyGlob(globs) {
      var i :| 0 <= i < |globs| && globs[i];
      assert pushed[i];
    }
  }

  lemma ItemsPrefix(types: Bindings, items: seq<Item>, i: nat)
    requires i < |items|
    ensures ItemsNames(items[..i + 1]) == ItemsNames(items[..i]) + ItemNames(items[i])
    ensures Accepts(types, ItemsSites(items[..i + 1])) <==>
              Accepts(types, ItemsSites(items[..i])) && Accepts(types, ItemSites(items[i]))
    ensures ItemsGlob(items[..i + 1]) == (ItemsGlob(items[..i]) || ItemGlobs(items[i]))
  {
    assert items[..i + 1] == items[..i] + [items[i]];
    NamesSnoc(items[..i], items[i]);
    SitesSnoc(items[..i], items[i]);
    AcceptsAppend(types, ItemsSites(items[..i]), ItemSites(items[i]));
    GlobSnoc(items, i);
  }

  lemma GlobSnoc(items: seq<Item>, i: nat)
    requires i < |items|
    ensures ItemsGlob(items[..i + 1]) == (ItemsGlob(items[..i]) || ItemGlobs(items[i]))
  {
    assert ItemGlobs(items[..i + 1][i]) == ItemGlobs(items[i]);
    assert forall k :: 0 <= k < i ==> items[..i + 1][k] == items[..i][k];
  }

  lemma {:induction false} NamesSnoc(items: seq<Item>, item: Item)
    ensures ItemsNames(items + [item]) == ItemsNames(items) + ItemNames(item)
    decreases |items|
  {
    if items == [] {
      assert [] + [item] == [item] && [item][1..] == [];
    } else {
      assert (items + [item])[1..] == items[1..] + [item];
      NamesSnoc(items[1..], item);
    }
  }

  lemma {:induction false} SitesSnoc(items: seq<Item>, item: Item)
    ensures ItemsSites(items + [item]) == ItemsSites(items) + ItemSites(item)
    decreases |items|
  {
    if items == [] {
      assert [] + [item] == [item] && [item][1..] == [];
    } else {
      assert (items + [item])[1..] == items[1..] + [item];
      SitesSnoc(items[1..], item);
      Associates(ItemSites(items[0]), ItemsSites(items[1..]), ItemSites(item));
    }
  }

  class Visitor {
    const types: Bindings
    var scopes: seq<set<string>>
    var globScopes: seq<bool>
    var captures: seq<Capture>
    var failed: bool

    constructor (types: Bindings)
      ensures this.types == types && captures == [] && !failed
      ensures scopes == [{}] && globScopes == [false]
      ensures Bound() == {} && !Glob()
    {
      this.types := types;
      scopes, globScopes, captures, failed := [{}], [false], [], false;
      new;
      PushScope([], {});
      assert [] + [{}] == scopes;
    }

    ghost function Bound(): set<string>
      reads this
    {
      Union(scopes)
    }

    ghost predicate Glob()
      reads this
    {
      AnyGlob(globScopes)
    }

    ghost function State(): Log
      reads this
    {
      Log(captures, failed)
    }

    method Push(scope: set<string>)
      modifies this`scopes
      ensures scopes == old(scopes) + [scope] && Bound() == old(Bound()) + scope
      ensures scope == {} ==> Bound() == old(Bound())
    {
      PushScope(scopes, scope);
      scopes := scopes + [scope];
    }

    method Pop()
      requires scopes != []
      modifies this`scopes
      ensures scopes == old(scopes)[..|old(scopes)| - 1]
    {
      scopes := scopes[..|scopes| - 1];
    }

    method Bind(p: Pat)
      requires scopes != []
      modifies this`scopes, this`failed
      ensures scopes == old(scopes)[..|old(scopes)| - 1] + [old(scopes)[|old(scopes)| - 1] + PatNames(p)]
      ensures Bound() == old(Bound()) + PatNames(p)
      ensures Visited(types, PatSites(p), old(State()), State())
    {
      ghost var outer, top := scopes[..|scopes| - 1], scopes[|scopes| - 1];
      PushScope(outer, top + PatNames(p));
      scopes := scopes[..|scopes| - 1] + [scopes[|scopes| - 1] + PatNames(p)];
      if PatHidden(p) {
        failed := true;
        assert PatSites(p)[0] == Hidden;
      }
    }

    method BindParams(ps: Pats)
      requires scopes != []
      modifies this`scopes, this`failed
      ensures |scopes| == |old(scopes)| && scopes[..|scopes| - 1] == old(scopes)[..|old(scopes)| - 1]
      ensures Bound() == old(Bound()) + PatsNames(ps)
      ensures Visited(types, PatsSites(ps), old(State()), State())
      decreases ps
    {
      match ps
      case PNil =>
      case PCons(p, tail) =>
        ghost var l0 := State();
        Bind(p);
        ghost var l1 := State();
        BindParams(tail);
        Then(types, PatSites(p), PatsSites(tail), l0, l1, State());
    }

    method CaptureIndex(x: string) returns (index: Option<nat>)
      modifies this`captures, this`failed
      ensures x in Bound() ==> index.None? && captures == old(captures) && failed == old(failed)
      ensures x !in Bound() ==> Visited(types, [Ref(x, Glob())], old(State()), State())
      ensures index.Some? ==> index == IndexOf(captures, x)
      ensures !failed && index.None? ==> x in Bound() || x !in types
    {
      var shadowed := LocallyBound(x);
      if shadowed { return None; }
      if x !in types { return None; }
      var globbed := InGlobScope();
      if globbed || types[x].None? {
        failed := true;
        assert !Admits(types, [Ref(x, globbed)][0]);
        return None;
      }
      index := IndexOf(captures, x);
      if index.None? {
        captures := captures + [Capture(x, types[x].value)];
        index := Some(|captures| - 1);
        AppendedIndex(old(captures), captures, x);
      }
      assert Collect(types, old(captures), [Ref(x, globbed)]) == Noted(types, old(captures), Ref(x, globbed));
    }

    method LocallyBound(x: string) returns (found: bool)
      ensures found <==> x in Bound()
    {
      found := false;
      for i := 0 to |scopes|
        invariant found <==> x in Union(scopes[..i])
      {
        assert scopes[..i + 1][..i] == scopes[..i];
        found := found || x in scopes[i];
      }
      assert scopes[..|scopes|] == scopes;
    }

    method InGlobScope() returns (found: bool)
      ensures found == Glob()
    {
      found := false;
      for i := 0 to |globScopes|
        invariant found <==> exists k :: 0 <= k < i && globScopes[k]
      {
        found := found || globScopes[i];
      }
    }

    method VisitExpr(e: Expr) returns (r: Expr)
      requires scopes != []
      modifies this
      ensures scopes == old(scopes) && globScopes == old(globScopes)
      ensures Visited(types, Sites(e, old(Bound()), old(Glob())), old(State()), State())
      ensures !failed ==> Rewrote(types, captures, e, old(Bound()), r)
      decreases e, 1
    {
      ghost var b, g, l0 := Bound(), Glob(), State();
      r := e;
      match e
      case Path(x) =>
        var index := CaptureIndex(x);
        if index.Some? {
          r := Field(index.value);
        }
        if !failed {
          PathRewritten(types, captures, x, b, index);
        }
      case Node(op, args) =>
        var args' := VisitExprs(args);
        r := Node(op, args');
      case Qualified(_, _) =>
      case Struct(head, rest, fields) =>
        var fields' := VisitFields(fields);
        r := Struct(head, rest, fields');
      case Ascribed(inner, ty) =>
        var inner' := VisitExpr(inner);
        r := Ascribed(inner', ty);
      case Call(args) =>
        var args' := VisitExprs(args);
        r := Call(args');
      case Closure(params, body) =>
        r := VisitClosure(e);
      case Block(stmts) =>
        var stmts' := VisitBlock(stmts);
        r := Block(stmts');
      case If(_, _, _) =>
        r := VisitIf(e);
      case While(_, _) =>
        r := VisitWhile(e);
      case For(_, _, _) =>
        r := VisitFor(e);
      case Match(scrutinee, arms) =>
        var scrutinee' := VisitExpr(scrutinee);
        ghost var l1 := State();
        var arms' := VisitArms(arms);
        r := Match(scrutinee', arms');
        Then(types, Sites(scrutinee, b, g), ArmsSites(arms, b, g), l0, l1, State());
      case Unexpanded(_) =>
        failed := true;
        assert Sites(e, b, g)[0] == Hidden;
      case Root =>
    }

    method VisitClosure(e: Expr) returns (r: Expr)
      requires e.Closure? && scopes != []
      modifies this
      ensures scopes == old(scopes) && globScopes == old(globScopes)
      ensures Visited(types, Sites(e, old(Bound()), old(Glob())), old(State()), State())
      ensures !failed ==> Rewrote(types, captures, e, old(Bound()), r)
      decreases e, 0
    {
      ghost var b, g, l0 := Bound(), Glob(), State();
      Push({});
      PushGlob(globScopes, false);
      globScopes := globScopes + [false];
      BindParams(e.params);
      ghost var l1 := State();
      var body' := VisitExpr(e.body);
      Pop();
      globScopes := globScopes[..|globScopes| - 1];
      r := Closure(e.params, body');
      Then(types, PatsSites(e.params), Sites(e.body, b + PatsNames(e.params), g), l0, l1, State());
    }

    method VisitIf(e: Expr) returns (r: Expr)
      requires e.If? && scopes != []
      modifies this
      ensures scopes == old(scopes) && globScopes == old(globScopes)
      ensures Visited(types, Sites(e, old(Bound()), old(Glob())), old(State()), State())
      ensures !failed ==> Rewrote(types, captures, e, old(Bound()), r)
      decreases e, 0
    {
      ghost var b, g, l0 := Bound(), Glob(), State();
      Push({});
      var cond' := VisitCond(e.cond);
      ghost var l1 := State();
      var yes' := VisitBlock(e.yes);
      ghost var l2 := State();
      Pop();
      var no' := VisitExpr(e.no);
      r := If(cond', yes', no');
      ThenTwice(types, CondSites(e.cond, b, g), BlockSites(e.yes, b + CondNames(e.cond), g), Sites(e.no, b, g),
                l0, l1, l2, State());
    }

    method VisitWhile(e: Expr) returns (r: Expr)
      requires e.While? && scopes != []
      modifies this
      ensures scopes == old(scopes) && globScopes == old(globScopes)
      ensures Visited(types, Sites(e, old(Bound()), old(Glob())), old(State()), State())
      ensures !failed ==> Rewrote(types, captures, e, old(Bound()), r)
      decreases e, 0
    {
      ghost var b, g, l0 := Bound(), Glob(), State();
      Push({});
      var cond' := VisitCond(e.cond);
      ghost var l1 := State();
      var body' := VisitBlock(e.loopBody);
      Pop();
      r := While(cond', body');
      WhileVisited(types, e, b, g, l0, l1, State());
    }

    method VisitFor(e: Expr) returns (r: Expr)
      requires e.For? && scopes != []
      modifies this
      ensures scopes == old(scopes) && globScopes == old(globScopes)
      ensures Visited(types, Sites(e, old(Bound()), old(Glob())), old(State()), State())
      ensures !failed ==> Rewrote(types, captures, e, old(Bound()), r)
      decreases e, 0
    {
      ghost var b, g, l0 := Bound(), Glob(), State();
      var iter' := VisitExpr(e.iter);
      ghost var l1 := State();
      Push({});
      Bind(e.pat);
      ghost var l2 := State();
      var body' := VisitBlock(e.loopBody);
      Pop();
      r := For(e.pat, iter', body');
      ForVisited(types, e, b, g, l0, l1, l2, State());
    }

    method VisitExprs(es: Exprs) returns (r: Exprs)
      requires scopes != []
      modifies this
      ensures scopes == old(scopes) && globScopes == old(globScopes)
      ensures Visited(types, ExprsSites(es, old(Bound()), old(Glob())), old(State()), State())
      ensures !failed ==> RewroteExprs(types, captures, es, old(Bound()), r)
      decreases es
    {
      r := es;
      match es
      case ENil =>
      case ECons(e, tail) =>
        ghost var b, g, l0 := Bound(), Glob(), State();
        var e' := VisitExpr(e);
        ghost var l1 := State();
        var tail' := VisitExprs(tail);
        r := ECons(e', tail');
        Then(types, Sites(e, b, g), ExprsSites(tail, b, g), l0, l1, State());
    }

    method VisitFields(fs: Fields) returns (r: Fields)
      requires scopes != []
      modifies this
      ensures scopes == old(scopes) && globScopes == old(globScopes)
      ensures Visited(types, FieldsSites(fs, old(Bound()), old(Glob())), old(State()), State())
      ensures !failed ==> RewroteFields(types, captures, fs, old(Bound()), r)
      decreases fs
    {
      r := fs;
      match fs
      case FNil =>
      case FCons(member, colon, e, tail) =>
        ghost var b, g, l0 := Bound(), Glob(), State();
        var e' := VisitExpr(e);
        ghost var l1 := State();
        var colon' := colon;
        if !colon && e != e' {
          colon' := true;
        }
        var tail' := VisitFields(tail);
        r := FCons(member, colon', e', tail');
        Then(types, Sites(e, b, g), FieldsSites(tail, b, g), l0, l1, State());
    }

    /** Visits a condition; the names it binds stay in the scope on top of the stack. */
    method VisitCond(c: Cond) returns (r: Cond)
      requires scopes != []
      modifies this
      ensures |scopes| == |old(scopes)| && scopes[..|scopes| - 1] == old(scopes)[..|old(scopes)| - 1]
      ensures globScopes == old(globScopes) && Bound() == old(Bound()) + CondNames(c)
      ensures Visited(types, CondSites(c, old(Bound()), old(Glob())), old(State()), State())
      ensures !failed ==> RewroteCond(types, captures, c, old(Bound()), r)
      decreases c
    {
      ghost var b, g, l0 := Bound(), Glob(), State();
      r := c;
      match c
      case CTrue =>
      case CExpr(e) =>
        var e' := VisitExpr(e);
        r := CExpr(e');
      case CLet(p, init) =>
        var init' := VisitExpr(init);
        ghost var l1 := State();
        Bind(p);
        r := CLet(p, init');
        Then(types, Sites(init, b, g), PatSites(p), l0, l1, State());
      case CAnd(left, right) =>
        var left' := VisitCond(left);
        ghost var l1 := State();
        var right' := VisitCond(right);
        r := CAnd(left', right');
        Then(types, CondSites(left, b, g), CondSites(right, b + CondNames(left), g), l0, l1, State());
    }

    method VisitArms(arms: Arms) returns (r: Arms)
      requires scopes != []
      modifies this
      ensures scopes == old(scopes) && globScopes == old(globScopes)
      ensures Visited(types, ArmsSites(arms, old(Bound()), old(Glob())), old(State()), State())
      ensures !failed ==> RewroteArms(types, captures, arms, old(Bound()), r)
      decreases arms
    {
      r := arms;
      match arms
      case ANil =>
      case ACons(p, guard, body, tail) =>
        ghost var b, g, l0 := Bound(), Glob(), State();
        Push({});
        Bind(p);
        ghost var l1 := State();
        var guard' := VisitCond(guard);
        ghost var l2 := State();
        var body' := VisitExpr(body);
        ghost var l3 := State();
        Pop();
        var tail' := VisitArms(tail);
        r := ACons(p, guard', body', tail');
        ghost var s1, s2, s3 := PatSites(p), CondSites(guard, b + PatNames(p), g),
                                Sites(body, b + PatNames(p) + CondNames(guard), g);
        ThenTwice(types, s1, s2, s3, l0, l1, l2, l3);
        Then(types, s1 + s2 + s3, ArmsSites(tail, b, g), l0, l3, State());
    }

    /** Items are in scope throughout the block, so they are collected before any statement is visited. */
    method VisitBlock(ss: Stmts) returns (r: Stmts)
      requires scopes != []
      modifies this
      ensures scopes == old(scopes) && globScopes == old(globScopes)
      ensures Visited(types, BlockSites(ss, old(Bound()), old(Glob())), old(State()), State())
      ensures !failed ==> RewroteStmts(types, captures, ss, old(Bound()) + ItemsNames(BlockItems(ss)), r)
      decreases ss, 1
    {
      ghost var b, g, l0 := Bound(), Glob(), State();
      var items := BlockItems(ss);
      var scope, glob := ScanItems(items);
      ghost var l1 := State();
      Push(scope);
      PushGlob(globScopes, glob);
      globScopes := globScopes + [glob];
      r := VisitStmts(ss);
      scopes := scopes[..|scopes| - 1];
      globScopes := globScopes[..|globScopes| - 1];
      BlockVisited(types, ss, b, g, l0, l1, State());
    }

    method ScanItems(items: seq<Item>) returns (scope: set<string>, glob: bool)
      modifies this`failed
      ensures failed <==> old(failed) || !Accepts(types, ItemsSites(items))
      ensures !failed ==> scope == ItemsNames(items)
      ensures glob == ItemsGlob(items)
    {
      scope, glob := {}, false;
      for i := 0 to |items|
        invariant failed <==> old(failed) || !Accepts(types, ItemsSites(items[..i]))
        invariant !failed ==> scope == ItemsNames(items[..i])
        invariant glob == ItemsGlob(items[..i])
      {
        ItemsPrefix(types, items, i);
        var names, globbed := ScanItem(items[i]);
        scope, glob := scope + names, glob || globbed;
      }
      assert items[..|items|] == items;
    }

    method ScanItem(item: Item) returns (names: set<string>, glob: bool)
      modifies this`failed
      ensures failed <==> old(failed) || !Accepts(types, ItemSites(item))
      ensures !failed ==> names == ItemNames(item)
      ensures glob == ItemGlobs(item)
    {
      names, glob := {}, false;
      match item
      case Fn(x, _, _) =>
        names := {x};
      case Const(x, _) =>
        names := {x};
      case Type(_, _, _, _) =>
      case Unnamed =>
      case Use(imports, globbed, importsSelf) =>
        if globbed.Some? {
          glob := true;
        } else if importsSelf || exists j :: 0 <= j < |imports| && imports[j].name in types {
          RejectedImport(types, item);
          failed := true;
        } else {
          names := ImportNames(imports);
        }
      case ItemMacro =>
        failed := true;
        assert ItemSites(item)[0] == Hidden;
    }

    method VisitStmts(ss: Stmts) returns (r: Stmts)
      requires scopes != []
      modifies this
      ensures |scopes| == |old(scopes)| && scopes[..|scopes| - 1] == old(scopes)[..|old(scopes)| - 1]
      ensures globScopes == old(globScopes)
      ensures Visited(types, StmtsSites(ss, old(Bound()), old(Glob())), old(State()), State())
      ensures !failed ==> RewroteStmts(types, captures, ss, old(Bound()), r)
      decreases ss, 0
    {
      ghost var b, g, l0 := Bound(), Glob(), State();
      r := ss;
      match ss
      case SEnd =>
      case STail(e) =>
        var e' := VisitExpr(e);
        r := STail(e');
      case SExpr(e, rest) =>
        var e' := VisitExpr(e);
        ghost var l1 := State();
        var rest' := VisitStmts(rest);
        r := SExpr(e', rest');
        Then(types, Sites(e, b, g), StmtsSites(rest, b, g), l0, l1, State());
      case SLet(p, init, rest) =>
        var init' := VisitExpr(init);
        ghost var l1 := State();
        Bind(p);
        ghost var l2 := State();
        var rest' := VisitStmts(rest);
        r := SLet(p, init', rest');
        ThenTwice(types, Sites(init, b, g), PatSites(p), StmtsSites(rest, b + PatNames(p), g), l0, l1, l2, State());
      case SLetElse(p, init, diverge, rest) =>
        r := VisitLetElse(ss);
      case SItem(item, rest) =>
        var rest' := VisitStmts(rest);
        r := SItem(item, rest');
      case SMacro(rest) =>
        failed := true;
        var rest' := VisitStmts(rest);
        r := SMacro(rest');
        assert StmtsSites(ss, b, g)[0] == Hidden;
    }

    method VisitLetElse(ss: Stmts) returns (r: Stmts)
      requires ss.SLetElse? && scopes != []
      modifies this
      ensures |scopes| == |old(scopes)| && scopes[..|scopes| - 1] == old(scopes)[..|old(scopes)| - 1]
      ensures globScopes == old(globScopes)
      ensures Visited(types, StmtsSites(ss, old(Bound()), old(Glob())), old(State()), State())
      ensures !failed ==> RewroteStmts(types, captures, ss, old(Bound()), r)
      decreases ss, 0, 0
    {
      ghost var b, g, l0 := Bound(), Glob(), State();
      var init' := VisitExpr(ss.init);
      ghost var l1 := State();
      var diverge' := VisitExpr(ss.diverge);
      ghost var l2 := State();
      Bind(ss.pat);
      ghost var l3 := State();
      var rest' := VisitStmts(ss.rest);
      r := SLetElse(ss.pat, init', diverge', rest');
      ghost var s1, s2 := Sites(ss.init, b, g), Sites(ss.diverge, b, g);
      ThenTwice(types, s1, s2, PatSites(ss.pat), l0, l1, l2, l3);
      Then(types, s1 + s2 + PatSites(ss.pat), StmtsSites(ss.rest, b + PatNames(ss.pat), g), l0, l3, State());
    }
  }

  // ----- lemmas for single sites -----

  /** A capture appended for a new name is found at the end of the list. */
  lemma AppendedIndex(before: seq<Capture>, after: seq<Capture>, x: string)
    requires |after| == |before| + 1 && after[..|before|] == before && after[|before|].name == x
    requires IndexOf(before, x).None?
    ensures IndexOf(after, x) == Some(|before|)
  {
    assert forall k :: 0 <= k < |before| ==> after[k] == after[..|before|][k];
  }

  /** Indices are stable: an index found now is the index in every later capture list. */
  lemma StableIndex(types: Bindings, caps: seq<Capture>, final: seq<Capture>, x: string)
    requires Later(types, caps, final)
    requires IndexOf(caps, x).Some? || x !in types
    ensures IndexOf(final, x) == IndexOf(caps, x)
  {
    if IndexOf(caps, x).Some? {
      var i := IndexOf(caps, x).value;
      assert final[i].name == x;
    } else {
      assert forall i :: 0 <= i < |final| ==> final[i].name in types;
    }
  }

  lemma PathRewritten(types: Bindings, caps: seq<Capture>, x: string, bound: set<string>, index: Option<nat>)
    requires index.Some? ==> x !in bound && index == IndexOf(caps, x)
    requires index.None? ==> x in bound || x !in types
    ensures Rewrote(types, caps, Path(x), bound, match index case Some(i) => Field(i) case None => Path(x))
  {
    forall f: seq<Capture> | Later(types, caps, f)
      ensures (match index case Some(i) => Field(i) case None => Path(x)) == Subst(Path(x), bound, f)
    {
      if x !in bound {
        StableIndex(types, caps, f, x);
      }
    }
  }

  lemma ForVisited(types: Bindings, e: Expr, b: set<string>, g: bool, l0: Log, l1: Log, l2: Log, l3: Log)
    requires e.For? && Visited(types, Sites(e.iter, b, g), l0, l1) && Visited(types, PatSites(e.pat), l1, l2)
    requires Visited(types, BlockSites(e.loopBody, b + PatNames(e.pat), g), l2, l3)
    ensures Visited(types, Sites(e, b, g), l0, l3)
    ensures forall f :: Later(types, l3.caps, f) ==> Later(types, l1.caps, f) && Later(types, l2.caps, f)
  {
    ThenTwice(types, Sites(e.iter, b, g), PatSites(e.pat), BlockSites(e.loopBody, b + PatNames(e.pat), g),
              l0, l1, l2, l3);
  }

  lemma WhileVisited(types: Bindings, e: Expr, b: set<string>, g: bool, l0: Log, l1: Log, l2: Log)
    requires e.While? && Visited(types, CondSites(e.cond, b, g), l0, l1)
    requires Visited(types, BlockSites(e.loopBody, b + CondNames(e.cond), g), l1, l2)
    ensures Visited(types, Sites(e, b, g), l0, l2)
    ensures forall f :: Later(types, l2.caps, f) ==> Later(types, l1.caps, f)
  {
    Then(types, CondSites(e.cond, b, g), BlockSites(e.loopBody, b + CondNames(e.cond), g), l0, l1, l2);
  }

  /** Scanning the items of a block records nothing; visiting its statements does the rest. */
  lemma BlockVisited(types: Bindings, ss: Stmts, b: set<string>, g: bool, l0: Log, l1: Log, l2: Log)
    requires l1.caps == l0.caps && (l1.failed <==> l0.failed || !Accepts(types, ItemsSites(BlockItems(ss))))
    requires var items := BlockItems(ss);
             Visited(types, StmtsSites(ss, b + ItemsNames(items), g || ItemsGlob(items)), l1, l2)
    ensures Visited(types, BlockSites(ss, b, g), l0, l2)
  {
    var items := BlockItems(ss);
    CollectItems(types, l0.caps, items);
    Then(types, ItemsSites(items), StmtsSites(ss, b + ItemsNames(items), g || ItemsGlob(items)), l0, l1, l2);
  }

  lemma {:induction false} CollectItems(types: Bindings, caps: seq<Capture>, items: seq<Item>)
    ensures Collect(types, caps, ItemsSites(items)) == caps
  {
    if items != [] {
      NoReferences(types, caps, ItemSites(items[0]));
      CollectAppend(types, caps, ItemSites(items[0]), ItemsSites(items[1..]));
      CollectItems(types, caps, items[1..]);
    }
  }

  lemma {:induction false} NoReferences(types: Bindings, caps: seq<Capture>, sites: seq<Site>)
    requires forall i :: 0 <= i < |sites| ==> !sites[i].Ref?
    ensures Collect(types, caps, sites) == caps
    decreases |sites|
  {
    if sites != [] {
      NoReferences(types, caps, sites[1..]);
    }
  }

  lemma RejectedImport(types: Bindings, item: Item)
    requires item.Use? && item.glob.None?
    ensures Accepts(types, ItemSites(item)) <==>
            !item.importsSelf && forall j :: 0 <= j < |item.imports| ==> item.imports[j].name !in types
  {
    var hidden: seq<Site> := if item.importsSelf then [Hidden] else [];
    var imported := seq(|item.imports|, i requires 0 <= i < |item.imports| => Imported(item.imports[i].name));
    AcceptsAppend(types, hidden, imported);
    assert Accepts(types, hidden) <==> !item.importsSelf by {
      assert item.importsSelf ==> hidden[0] == Hidden;
    }
    assert forall j :: 0 <= j < |imported| ==> imported[j] == Imported(item.imports[j].name);
  }
}
