/**
 The scope-tracking traversal and the rewriting against free variables, which
 are defined without scopes or visiting order.
 */
module CaptureFree {
  import opened CaptureSyntax

  ghost function Refs(sites: seq<Site>): set<string> {
    set s | s in sites && s.Ref? :: s.name
  }

  lemma RefsAppend(a: seq<Site>, b: seq<Site>)
    ensures Refs(a + b) == Refs(a) + Refs(b)
  {
    assert forall s :: s in a + b <==> s in a || s in b;
  }

  lemma RefsAppendTwice(a: seq<Site>, b: seq<Site>, c: seq<Site>)
    ensures Refs(a + b + c) == Refs(a) + Refs(b) + Refs(c)
  {
    RefsAppend(a, b);
    RefsAppend(a + b, c);
  }

  /** The scope stack finds exactly the free variables. */
  lemma {:induction false} SitesFree(e: Expr, b: set<string>, g: bool)
    ensures Refs(Sites(e, b, g)) == Free(e) - b
    decreases e, 2
  {
    match e
    case Path(x) => assert x !in b ==> Sites(e, b, g)[0] == Ref(x, g);
    case Qualified(_, _) =>
    case Node(_, args) => SitesFreeExprs(args, b, g);
    case Struct(_, _, fields) => SitesFreeFields(fields, b, g);
    case Ascribed(inner, _) => SitesFree(inner, b, g);
    case Call(args) => SitesFreeExprs(args, b, g);
    case Closure(_, _) => SitesFreeClosure(e, b, g);
    case Block(stmts) => SitesFreeBlock(stmts, b, g);
    case If(_, _, _) => SitesFreeIf(e, b, g);
    case While(_, _) => SitesFreeWhile(e, b, g);
    case For(_, _, _) => SitesFreeFor(e, b, g);
    case Match(scrutinee, arms) =>
      SitesFree(scrutinee, b, g);
      SitesFreeArms(arms, b, g);
      RefsAppend(Sites(scrutinee, b, g), ArmsSites(arms, b, g));
    case Unexpanded(_) =>
    case Root =>
  }

  lemma {:induction false} SitesFreeClosure(e: Expr, b: set<string>, g: bool)
    requires e.Closure?
    ensures Refs(Sites(e, b, g)) == Free(e) - b
    decreases e, 1
  {
    SitesFree(e.body, b + PatsNames(e.params), g);
    NoPatsRefs(e.params);
    RefsAppend(PatsSites(e.params), Sites(e.body, b + PatsNames(e.params), g));
  }

  lemma {:induction false} SitesFreeIf(e: Expr, b: set<string>, g: bool)
    requires e.If?
    ensures Refs(Sites(e, b, g)) == Free(e) - b
    decreases e, 1
  {
    SitesFreeCond(e.cond, b, g);
    SitesFreeBlock(e.yes, b + CondNames(e.cond), g);
    SitesFree(e.no, b, g);
    RefsAppendTwice(CondSites(e.cond, b, g), BlockSites(e.yes, b + CondNames(e.cond), g), Sites(e.no, b, g));
  }

  lemma {:induction false} SitesFreeWhile(e: Expr, b: set<string>, g: bool)
    requires e.While?
    ensures Refs(Sites(e, b, g)) == Free(e) - b
    decreases e, 1
  {
    SitesFreeCond(e.cond, b, g);
    SitesFreeBlock(e.loopBody, b + CondNames(e.cond), g);
    RefsAppend(CondSites(e.cond, b, g), BlockSites(e.loopBody, b + CondNames(e.cond), g));
  }

  lemma {:induction false} SitesFreeFor(e: Expr, b: set<string>, g: bool)
    requires e.For?
    ensures Refs(Sites(e, b, g)) == Free(e) - b
    decreases e, 1
  {
    SitesFree(e.iter, b, g);
    SitesFreeBlock(e.loopBody, b + PatNames(e.pat), g);
    RefsAppendTwice(Sites(e.iter, b, g), PatSites(e.pat), BlockSites(e.loopBody, b + PatNames(e.pat), g));
  }

  lemma {:induction false} NoPatsRefs(ps: Pats)
    ensures Refs(PatsSites(ps)) == {}
  {
    match ps
    case PNil =>
    case PCons(p, tail) =>
      NoPatsRefs(tail);
      RefsAppend(PatSites(p), PatsSites(tail));
  }

  lemma {:induction false} NoItemsRefs(items: seq<Item>)
    ensures Refs(ItemsSites(items)) == {}
  {
    if items != [] {
      NoItemsRefs(items[1..]);
      RefsAppend(ItemSites(items[0]), ItemsSites(items[1..]));
    }
  }

  lemma {:induction false} SitesFreeExprs(es: Exprs, b: set<string>, g: bool)
    ensures Refs(ExprsSites(es, b, g)) == FreeExprs(es) - b
  {
    match es
    case ENil =>
    case ECons(e, tail) =>
      SitesFree(e, b, g);
      SitesFreeExprs(tail, b, g);
      RefsAppend(Sites(e, b, g), ExprsSites(tail, b, g));
  }

  lemma {:induction false} SitesFreeFields(fs: Fields, b: set<string>, g: bool)
    ensures Refs(FieldsSites(fs, b, g)) == FreeFields(fs) - b
  {
    match fs
    case FNil =>
    case FCons(_, _, e, tail) =>
      SitesFree(e, b, g);
      SitesFreeFields(tail, b, g);
      RefsAppend(Sites(e, b, g), FieldsSites(tail, b, g));
  }

  lemma {:induction false} SitesFreeCond(c: Cond, b: set<string>, g: bool)
    ensures Refs(CondSites(c, b, g)) == FreeCond(c) - b
  {
    match c
    case CTrue =>
    case CExpr(e) => SitesFree(e, b, g);
    case CLet(p, init) =>
      SitesFree(init, b, g);
      RefsAppend(Sites(init, b, g), PatSites(p));
    case CAnd(l, r) =>
      SitesFreeCond(l, b, g);
      SitesFreeCond(r, b + CondNames(l), g);
      RefsAppend(CondSites(l, b, g), CondSites(r, b + CondNames(l), g));
  }

  lemma {:induction false} SitesFreeArms(arms: Arms, b: set<string>, g: bool)
    ensures Refs(ArmsSites(arms, b, g)) == FreeArms(arms) - b
  {
    match arms
    case ANil =>
    case ACons(p, guard, body, tail) =>
      var inner := b + PatNames(p);
      var s1, s2, s3 := PatSites(p), CondSites(guard, inner, g), Sites(body, inner + CondNames(guard), g);
      assert Refs(s1 + s2 + s3) == (FreeCond(guard) - inner) + (Free(body) - (inner + CondNames(guard))) by {
        SitesFreeCond(guard, inner, g);
        SitesFree(body, inner + CondNames(guard), g);
        RefsAppendTwice(s1, s2, s3);
      }
      SitesFreeArms(tail, b, g);
      RefsAppend(s1 + s2 + s3, ArmsSites(tail, b, g));
  }

  lemma {:induction false} SitesFreeBlock(ss: Stmts, b: set<string>, g: bool)
    ensures Refs(BlockSites(ss, b, g)) == FreeBlock(ss) - b
    decreases ss, 1
  {
    var items := BlockItems(ss);
    NoItemsRefs(items);
    SitesFreeStmts(ss, b + ItemsNames(items), g || ItemsGlob(items));
    RefsAppend(ItemsSites(items), StmtsSites(ss, b + ItemsNames(items), g || ItemsGlob(items)));
  }

  lemma {:induction false} SitesFreeStmts(ss: Stmts, b: set<string>, g: bool)
    ensures Refs(StmtsSites(ss, b, g)) == FreeStmts(ss) - b
    decreases ss, 0
  {
    match ss
    case SEnd =>
    case STail(e) => SitesFree(e, b, g);
    case SExpr(e, rest) =>
      SitesFree(e, b, g);
      SitesFreeStmts(rest, b, g);
      RefsAppend(Sites(e, b, g), StmtsSites(rest, b, g));
    case SLet(p, init, rest) =>
      SitesFree(init, b, g);
      SitesFreeStmts(rest, b + PatNames(p), g);
      RefsAppendTwice(Sites(init, b, g), PatSites(p), StmtsSites(rest, b + PatNames(p), g));
    case SLetElse(_, _, _, _) => SitesFreeLetElse(ss, b, g);
    case SItem(_, rest) => SitesFreeStmts(rest, b, g);
    case SMacro(rest) =>
      SitesFreeStmts(rest, b, g);
      RefsAppend([Hidden], StmtsSites(rest, b, g));
  }

  lemma {:induction false} SitesFreeLetElse(ss: Stmts, b: set<string>, g: bool)
    requires ss.SLetElse?
    ensures Refs(StmtsSites(ss, b, g)) == FreeStmts(ss) - b
    decreases ss, 0, 0
  {
    var s1, s2 := Sites(ss.init, b, g), Sites(ss.diverge, b, g);
    SitesFree(ss.init, b, g);
    SitesFree(ss.diverge, b, g);
    SitesFreeStmts(ss.rest, b + PatNames(ss.pat), g);
    RefsAppendTwice(s1, s2, PatSites(ss.pat));
    RefsAppend(s1 + s2 + PatSites(ss.pat), StmtsSites(ss.rest, b + PatNames(ss.pat), g));
  }

  // ----- rewriting touches captured names only -----

  ghost function CapturedNames(caps: seq<Capture>): (names: set<string>)
    ensures forall x :: x in names <==> IndexOf(caps, x).Some?
  {
    var names := set i | 0 <= i < |caps| :: caps[i].name;
    assert forall x :: IndexOf(caps, x).Some? ==> caps[IndexOf(caps, x).value].name in names;
    names
  }

  /** `changed` tells whether code with the free names `free`, below binders of `b`, has a captured name. */
  ghost predicate Touched(changed: bool, free: set<string>, b: set<string>, caps: seq<Capture>) {
    changed <==> !((free - b) !! CapturedNames(caps))
  }

  lemma TouchedBoth(m: bool, free: set<string>, n: bool, more: set<string>, b: set<string>, caps: seq<Capture>)
    requires Touched(m, free, b, caps) && Touched(n, more, b, caps)
    ensures Touched(m || n, free + more, b, caps)
  {
    assert (free + more) - b == (free - b) + (more - b);
  }

  lemma TouchedBelow(changed: bool, free: set<string>, names: set<string>, b: set<string>, caps: seq<Capture>)
    requires Touched(changed, free, b + names, caps)
    ensures Touched(changed, free - names, b, caps)
  {
    assert (free - names) - b == free - (b + names);
  }

  /**
   An expression is rewritten exactly if one of its free names is captured;
   otherwise it stays as it is, shorthand fields included.
   */
  lemma {:induction false} SubstTouches(e: Expr, b: set<string>, caps: seq<Capture>)
    ensures Touched(Subst(e, b, caps) != e, Free(e), b, caps)
    decreases e, 2
  {
    match e
    case Path(x) =>
    case Qualified(_, _) =>
    case Node(_, args) => SubstTouchesExprs(args, b, caps);
    case Struct(_, _, fields) => SubstTouchesFields(fields, b, caps);
    case Ascribed(inner, _) => SubstTouches(inner, b, caps);
    case Call(args) => SubstTouchesExprs(args, b, caps);
    case Closure(_, _) => SubstTouchesClosure(e, b, caps);
    case Block(stmts) => SubstTouchesBlock(stmts, b, caps);
    case If(_, _, _) => SubstTouchesIf(e, b, caps);
    case While(_, _) => SubstTouchesWhile(e, b, caps);
    case For(_, _, _) => SubstTouchesFor(e, b, caps);
    case Match(_, _) => SubstTouchesMatch(e, b, caps);
    case Unexpanded(_) =>
    case Root =>
  }

  lemma {:induction false} SubstTouchesClosure(e: Expr, b: set<string>, caps: seq<Capture>)
    requires e.Closure?
    ensures Touched(Subst(e, b, caps) != e, Free(e), b, caps)
    decreases e, 1
  {
    var inner := b + PatsNames(e.params);
    SubstTouches(e.body, inner, caps);
    TouchedBelow(Subst(e.body, inner, caps) != e.body, Free(e.body), PatsNames(e.params), b, caps);
  }

  lemma {:induction false} SubstTouchesWhile(e: Expr, b: set<string>, caps: seq<Capture>)
    requires e.While?
    ensures Touched(Subst(e, b, caps) != e, Free(e), b, caps)
    decreases e, 1
  {
    var names := CondNames(e.cond);
    SubstTouchesCond(e.cond, b, caps);
    SubstTouchesBelow(e.loopBody, names, b, caps);
    TouchedBoth(CondSubst(e.cond, b, caps) != e.cond, FreeCond(e.cond),
                BlockSubst(e.loopBody, b + names, caps) != e.loopBody, FreeBlock(e.loopBody) - names, b, caps);
  }

  lemma {:induction false} SubstTouchesFor(e: Expr, b: set<string>, caps: seq<Capture>)
    requires e.For?
    ensures Touched(Subst(e, b, caps) != e, Free(e), b, caps)
    decreases e, 1
  {
    var names := PatNames(e.pat);
    SubstTouches(e.iter, b, caps);
    SubstTouchesBelow(e.loopBody, names, b, caps);
    TouchedBoth(Subst(e.iter, b, caps) != e.iter, Free(e.iter),
                BlockSubst(e.loopBody, b + names, caps) != e.loopBody, FreeBlock(e.loopBody) - names, b, caps);
  }

  lemma {:induction false} SubstTouchesMatch(e: Expr, b: set<string>, caps: seq<Capture>)
    requires e.Match?
    ensures Touched(Subst(e, b, caps) != e, Free(e), b, caps)
    decreases e, 1
  {
    SubstTouches(e.scrutinee, b, caps);
    SubstTouchesArms(e.arms, b, caps);
    TouchedBoth(Subst(e.scrutinee, b, caps) != e.scrutinee, Free(e.scrutinee),
                ArmsSubst(e.arms, b, caps) != e.arms, FreeArms(e.arms), b, caps);
  }

  lemma {:induction false} SubstTouchesIf(e: Expr, b: set<string>, caps: seq<Capture>)
    requires e.If?
    ensures Touched(Subst(e, b, caps) != e, Free(e), b, caps)
    decreases e, 1
  {
    SubstTouchesCond(e.cond, b, caps);
    SubstTouchesBelow(e.yes, CondNames(e.cond), b, caps);
    SubstTouches(e.no, b, caps);
    var cond, yes := CondSubst(e.cond, b, caps) != e.cond, BlockSubst(e.yes, b + CondNames(e.cond), caps) != e.yes;
    TouchedBoth(cond, FreeCond(e.cond), yes, FreeBlock(e.yes) - CondNames(e.cond), b, caps);
    TouchedBoth(cond || yes, FreeCond(e.cond) + (FreeBlock(e.yes) - CondNames(e.cond)),
                Subst(e.no, b, caps) != e.no, Free(e.no), b, caps);
  }

  lemma {:induction false} SubstTouchesBelow(ss: Stmts, names: set<string>, b: set<string>, caps: seq<Capture>)
    ensures Touched(BlockSubst(ss, b + names, caps) != ss, FreeBlock(ss) - names, b, caps)
    decreases ss, 2
  {
    SubstTouchesBlock(ss, b + names, caps);
    TouchedBelow(BlockSubst(ss, b + names, caps) != ss, FreeBlock(ss), names, b, caps);
  }

  lemma {:induction false} SubstTouchesExprs(es: Exprs, b: set<string>, caps: seq<Capture>)
    ensures Touched(ExprsSubst(es, b, caps) != es, FreeExprs(es), b, caps)
  {
    match es
    case ENil =>
    case ECons(e, tail) =>
      SubstTouches(e, b, caps);
      SubstTouchesExprs(tail, b, caps);
      TouchedBoth(Subst(e, b, caps) != e, Free(e), ExprsSubst(tail, b, caps) != tail, FreeExprs(tail), b, caps);
  }

  lemma {:induction false} SubstTouchesFields(fs: Fields, b: set<string>, caps: seq<Capture>)
    ensures Touched(FieldsSubst(fs, b, caps) != fs, FreeFields(fs), b, caps)
  {
    match fs
    case FNil =>
    case FCons(_, _, e, tail) =>
      SubstTouches(e, b, caps);
      SubstTouchesFields(tail, b, caps);
      TouchedBoth(Subst(e, b, caps) != e, Free(e), FieldsSubst(tail, b, caps) != tail, FreeFields(tail), b, caps);
  }

  lemma {:induction false} SubstTouchesCond(c: Cond, b: set<string>, caps: seq<Capture>)
    ensures Touched(CondSubst(c, b, caps) != c, FreeCond(c), b, caps)
  {
    match c
    case CTrue =>
    case CExpr(e) => SubstTouches(e, b, caps);
    case CLet(_, init) => SubstTouches(init, b, caps);
    case CAnd(l, r) =>
      SubstTouchesCond(l, b, caps);
      SubstTouchesCond(r, b + CondNames(l), caps);
      TouchedBelow(CondSubst(r, b + CondNames(l), caps) != r, FreeCond(r), CondNames(l), b, caps);
      TouchedBoth(CondSubst(l, b, caps) != l, FreeCond(l),
                  CondSubst(r, b + CondNames(l), caps) != r, FreeCond(r) - CondNames(l), b, caps);
  }

  lemma {:induction false} SubstTouchesArms(arms: Arms, b: set<string>, caps: seq<Capture>)
    ensures Touched(ArmsSubst(arms, b, caps) != arms, FreeArms(arms), b, caps)
  {
    match arms
    case ANil =>
    case ACons(p, guard, body, tail) =>
      var inner := b + PatNames(p);
      var free := FreeCond(guard) + (Free(body) - CondNames(guard));
      var guards, bodies :=
        CondSubst(guard, inner, caps) != guard, Subst(body, inner + CondNames(guard), caps) != body;
      SubstTouchesCond(guard, inner, caps);
      SubstTouches(body, inner + CondNames(guard), caps);
      TouchedBelow(bodies, Free(body), CondNames(guard), inner, caps);
      TouchedBoth(guards, FreeCond(guard), bodies, Free(body) - CondNames(guard), inner, caps);
      TouchedBelow(guards || bodies, free, PatNames(p), b, caps);
      SubstTouchesArms(tail, b, caps);
      TouchedBoth(guards || bodies, free - PatNames(p), ArmsSubst(tail, b, caps) != tail, FreeArms(tail), b, caps);
  }

  lemma {:induction false} SubstTouchesBlock(ss: Stmts, b: set<string>, caps: seq<Capture>)
    ensures Touched(BlockSubst(ss, b, caps) != ss, FreeBlock(ss), b, caps)
    decreases ss, 1
  {
    var names := ItemsNames(BlockItems(ss));
    SubstTouchesStmts(ss, b + names, caps);
    TouchedBelow(StmtsSubst(ss, b + names, caps) != ss, FreeStmts(ss), names, b, caps);
  }

  lemma {:induction false} SubstTouchesStmts(ss: Stmts, b: set<string>, caps: seq<Capture>)
    ensures Touched(StmtsSubst(ss, b, caps) != ss, FreeStmts(ss), b, caps)
    decreases ss, 0
  {
    match ss
    case SEnd =>
    case STail(e) => SubstTouches(e, b, caps);
    case SExpr(e, rest) =>
      SubstTouches(e, b, caps);
      SubstTouchesStmts(rest, b, caps);
      TouchedBoth(Subst(e, b, caps) != e, Free(e), StmtsSubst(rest, b, caps) != rest, FreeStmts(rest), b, caps);
    case SLet(p, init, rest) =>
      SubstTouches(init, b, caps);
      SubstTouchesRest(p, Subst(init, b, caps) != init, Free(init), rest, b, caps);
    case SLetElse(p, init, diverge, rest) =>
      SubstTouches(init, b, caps);
      SubstTouches(diverge, b, caps);
      var m, n := Subst(init, b, caps) != init, Subst(diverge, b, caps) != diverge;
      TouchedBoth(m, Free(init), n, Free(diverge), b, caps);
      SubstTouchesRest(p, m || n, Free(init) + Free(diverge), rest, b, caps);
    case SItem(_, rest) => SubstTouchesStmts(rest, b, caps);
    case SMacro(rest) => SubstTouchesStmts(rest, b, caps);
  }

  /** A declaration and the statements below it. */
  lemma {:induction false} SubstTouchesRest(p: Pat, changed: bool, free: set<string>, rest: Stmts, b: set<string>,
                                            caps: seq<Capture>)
    requires Touched(changed, free, b, caps)
    ensures Touched(changed || StmtsSubst(rest, b + PatNames(p), caps) != rest,
                    free + (FreeStmts(rest) - PatNames(p)), b, caps)
    decreases rest, 1
  {
    var more := StmtsSubst(rest, b + PatNames(p), caps) != rest;
    SubstTouchesStmts(rest, b + PatNames(p), caps);
    TouchedBelow(more, FreeStmts(rest), PatNames(p), b, caps);
    TouchedBoth(changed, free, more, FreeStmts(rest) - PatNames(p), b, caps);
  }
}
