/**
 Capture analysis and pattern types together: every field of the capture tuple
 holds a value of the type that was recorded for it.
 */
module CaptureTypes {
  import opened Options
  import B = BindingModes
  import opened CaptureSyntax
  import opened CaptureSemantics
  import opened CaptureVisitor
  import opened CaptureProof
  import opened CaptureTheorems

  /** A parameter or `let`: a pattern, its annotation, and the value it is matched against. */
  datatype Declaration = Declaration(pat: B.Pat, annotation: Option<B.Type>, value: B.Value)

  /** The table after some declarations. */
  function Table(ds: seq<Declaration>, generics: set<string>): Bindings
    decreases |ds|
  {
    if ds == [] then map[]
    else var n := |ds| - 1; B.Declared(Table(ds[..n], generics), ds[n].pat, ds[n].annotation, generics)
  }

  /** The values they bind; later ones shadow. None when a pattern does not match. */
  function Bound(ds: seq<Declaration>): Option<B.Env>
    decreases |ds|
  {
    if ds == [] then Some(map[])
    else
      var n := |ds| - 1;
      match (Bound(ds[..n]), B.Binds(ds[n].pat, ds[n].value, B.Move))
      case (Some(before), Some(new')) => Some(before + new')
      case _ => None
  }

  predicate WellTyped(ds: seq<Declaration>, lengths: B.Lengths) {
    forall i :: 0 <= i < |ds| && ds[i].annotation.Some? ==> B.HasType(ds[i].value, ds[i].annotation.value, lengths)
  }

  /** Recorded bindings are bound to values of their recorded types. */
  predicate Sound(types: Bindings, env: B.Env, lengths: B.Lengths) {
    forall x :: x in types && types[x].Some? ==> x in env && B.HasType(env[x], types[x].value, lengths)
  }

  lemma {:induction false} TableIsSound(ds: seq<Declaration>, generics: set<string>, lengths: B.Lengths)
    requires Bound(ds).Some? && WellTyped(ds, lengths)
    ensures Sound(Table(ds, generics), Bound(ds).value, lengths)
    decreases |ds|
  {
    if ds != [] {
      var n := |ds| - 1;
      var d := ds[n];
      assert WellTyped(ds[..n], lengths);
      TableIsSound(ds[..n], generics, lengths);
      B.BoundNames(d.pat, d.value, B.Move);
      if d.annotation.Some? {
        assert B.HasType(ds[n].value, ds[n].annotation.value, lengths);
        B.DeclarationsShadow(Table(ds[..n], generics), d.pat, d.annotation.value, d.value, generics, lengths);
      }
    }
  }

  /** `show` is how the evaluator represents values; `outer` binds what the declarations bound. */
  predicate Represents(outer: Env, types: Bindings, env: B.Env, show: B.Value -> Value)
    requires FunctionScope(outer)
  {
    forall x :: x in types && types[x].Some? && x in env ==> LocalValue(outer, x) == Some(show(env[x]))
  }

  /** The `i`-th value of the capture tuple is a value of the `i`-th capture's type. */
  lemma CapturesHaveTheirTypes(plan: Plan, closure: Expr, types: Bindings, outer: Env, ds: seq<Declaration>,
                               generics: set<string>, lengths: B.Lengths, show: B.Value -> Value)
    requires Planned(plan, closure, types, false) && !plan.native && Configures(types, false, outer)
    requires Bound(ds).Some? && WellTyped(ds, lengths)
    requires forall x :: x in types ==> x in Table(ds, generics) && types[x] == Table(ds, generics)[x]
    requires Represents(outer, types, Bound(ds).value, show)
    ensures Recorded(types, plan.captures)
    ensures var env, values := Bound(ds).value, CapturedValues(plan.captures, outer);
            forall i :: 0 <= i < |plan.captures| ==>
              && plan.captures[i].name in env
              && B.HasType(env[plan.captures[i].name], plan.captures[i].ty, lengths)
              && values[i] == show(env[plan.captures[i].name])
  {
    PlannedRecorded(plan, closure, types, false);
    TableIsSound(ds, generics, lengths);
    CollectTypes(types, [], AllSites(closure));
    var env, values := Bound(ds).value, CapturedValues(plan.captures, outer);
    forall i | 0 <= i < |plan.captures|
      ensures plan.captures[i].name in env
      ensures B.HasType(env[plan.captures[i].name], plan.captures[i].ty, lengths)
      ensures values[i] == show(env[plan.captures[i].name])
    {
      var c := plan.captures[i];
      assert types[c.name] == Some(c.ty) && Table(ds, generics)[c.name] == Some(c.ty);
      assert LocalValue(outer, c.name) == Some(values[i]);
    }
  }
}
