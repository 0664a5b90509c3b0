/**
 Which closures the capture visitor accepts, without its scopes, its sites or
 its order: what in a closure can keep it from being reconstructed.
 */
module CaptureObstacles {
  import opened CaptureSyntax
  import opened CaptureFree
  import opened CaptureVisitor

  /**
   `invoked`: a macro is invoked somewhere, nested items and types included.
   `hidden`: outside of nested items there is syntax, a pattern or an import
   that does not show which names it uses or binds. `globbed` are the names
   that occur free below a block with a glob import, `imported` those that the
   other imports of blocks bind.
   */
  datatype Obstacles = Obstacles(invoked: bool, hidden: bool, globbed: set<string>, imported: set<string>)

  const NONE: Obstacles := Obstacles(false, false, {}, {})
  const MACRO: Obstacles := Obstacles(true, true, {}, {})

  function Both(a: Obstacles, b: Obstacles): Obstacles {
    Obstacles(a.invoked || b.invoked, a.hidden || b.hidden, a.globbed + b.globbed, a.imported + b.imported)
  }

  /** Below binders of `names`. */
  function Below(names: set<string>, o: Obstacles): Obstacles {
    o.(globbed := o.globbed - names)
  }

  function OfPat(p: Pat): Obstacles {
    match p
    case PAt(_, sub) => OfPat(sub)
    case PStruct(_, _, _, elems) => OfPats(elems)
    case PTuple(elems) => OfPats(elems)
    case POr(l, r) => Both(OfPat(l), OfPat(r))
    case PMacro => MACRO
    case _ => NONE
  }

  function OfPats(ps: Pats): Obstacles {
    match ps case PNil => NONE case PCons(p, tail) => Both(OfPat(p), OfPats(tail))
  }

  function Of(e: Expr): Obstacles {
    match e
    case Path(_) => NONE
    case Qualified(_, _) => NONE
    case Node(_, args) => OfExprs(args)
    case Struct(_, _, fields) => OfFields(fields)
    case Ascribed(inner, ty) => Both(Of(inner), NONE.(invoked := ty.invokes))
    case Call(args) => OfExprs(args)
    case Closure(params, body) => Both(OfPats(params), Below(PatsNames(params), Of(body)))
    case Block(stmts) => OfBlock(stmts)
    case If(cond, yes, no) => Both(Both(OfCond(cond), Below(CondNames(cond), OfBlock(yes))), Of(no))
    case While(cond, body) => Both(OfCond(cond), Below(CondNames(cond), OfBlock(body)))
    case For(pat, iter, body) => Both(Both(Of(iter), OfPat(pat)), Below(PatNames(pat), OfBlock(body)))
    case Match(scrutinee, arms) => Both(Of(scrutinee), OfArms(arms))
    case Unexpanded(invocation) => Obstacles(invocation, true, {}, {})
    case Root => NONE
  }

  function OfExprs(es: Exprs): Obstacles {
    match es case ENil => NONE case ECons(e, tail) => Both(Of(e), OfExprs(tail))
  }

  function OfFields(fs: Fields): Obstacles {
    match fs case FNil => NONE case FCons(_, _, e, tail) => Both(Of(e), OfFields(tail))
  }

  function OfCond(c: Cond): Obstacles {
    match c
    case CTrue => NONE
    case CExpr(e) => Of(e)
    case CLet(p, init) => Both(Of(init), OfPat(p))
    case CAnd(l, r) => Both(OfCond(l), Below(CondNames(l), OfCond(r)))
  }

  function OfArms(arms: Arms): Obstacles
    decreases arms, 1
  {
    if arms.ANil? then NONE else Both(OfArm(arms), OfArms(arms.tail))
  }

  function OfArm(arms: Arms): Obstacles
    requires arms.ACons?
    decreases arms, 0
  {
    Both(OfPat(arms.pat),
         Below(PatNames(arms.pat), Both(OfCond(arms.guard), Below(CondNames(arms.guard), Of(arms.body)))))
  }

  predicate HasGlob(ss: Stmts) {
    match ss
    case SEnd => false
    case STail(_) => false
    case SExpr(_, rest) => HasGlob(rest)
    case SLet(_, _, rest) => HasGlob(rest)
    case SLetElse(_, _, _, rest) => HasGlob(rest)
    case SItem(item, rest) => (item.Use? && item.glob.Some?) || HasGlob(rest)
    case SMacro(rest) => HasGlob(rest)
  }

  /** A glob import affects every name that is free in its block. */
  function OfBlock(ss: Stmts): Obstacles
    decreases ss, 1
  {
    var inner := OfStmts(ss);
    Below(ItemsNames(BlockItems(ss)), if HasGlob(ss) then inner.(globbed := FreeStmts(ss)) else inner)
  }

  function OfStmts(ss: Stmts): Obstacles
    decreases ss, 0
  {
    match ss
    case SEnd => NONE
    case STail(e) => Of(e)
    case SExpr(e, rest) => Both(Of(e), OfStmts(rest))
    case SLet(p, init, rest) => Both(Both(Of(init), OfPat(p)), Below(PatNames(p), OfStmts(rest)))
    case SLetElse(p, init, diverge, rest) =>
      Both(Both(Both(Of(init), Of(diverge)), OfPat(p)), Below(PatNames(p), OfStmts(rest)))
    case SItem(item, rest) => Both(OfItem(item), OfStmts(rest))
    case SMacro(rest) => Both(MACRO, OfStmts(rest))
  }

  /** Of what an item contains only macro invocations matter. */
  function OfItem(item: Item): Obstacles {
    match item
    case Fn(_, params, body) => NONE.(invoked := OfPats(params).invoked || Of(body).invoked)
    case Type(_, _, _, members) => NONE.(invoked := MembersInvoked(members))
    case Use(imports, None, importsSelf) => Obstacles(false, importsSelf, {}, ImportNames(imports))
    case ItemMacro => MACRO
    case _ => NONE
  }

  predicate MembersInvoked(ms: Members) {
    match ms
    case MNil => false
    case MFn(_, params, body, tail) => OfPats(params).invoked || Of(body).invoked || MembersInvoked(tail)
    case MConst(_, _, tail) => MembersInvoked(tail)
  }

  /**
   The closures that can be reconstructed: nothing in them is opaque, each
   outer binding that they use has a known type and is not used below a block
   glob, and no block import has the name of an outer binding.
   */
  predicate Reconstructable(closure: Expr, types: Bindings) {
    && !Of(closure).invoked && !Of(closure).hidden
    && (forall x :: x in Free(closure) && x in types ==> types[x].Some?)
    && Of(closure).globbed !! types.Keys
    && Of(closure).imported !! types.Keys
  }

  // ----- macros -----

  lemma {:induction false} PatHides(p: Pat)
    ensures OfPat(p) == if PatHidden(p) then MACRO else NONE
  {
    match p
    case PAt(_, sub) => PatHides(sub);
    case PStruct(_, _, _, elems) => PatsHide(elems);
    case PTuple(elems) => PatsHide(elems);
    case POr(l, r) => PatHides(l); PatHides(r);
    case _ =>
  }

  lemma {:induction false} PatsHide(ps: Pats)
    ensures OfPats(ps) == if PatsHidden(ps) then MACRO else NONE
  {
    match ps
    case PNil =>
    case PCons(p, tail) => PatHides(p); PatsHide(tail);
  }

  lemma {:induction false} InvokedExactly(e: Expr)
    ensures Of(e).invoked <==> Invokes(e)
  {
    match e
    case Node(_, args) => ExprsInvoked(args);
    case Struct(_, _, fields) => FieldsInvoked(fields);
    case Ascribed(inner, _) => InvokedExactly(inner);
    case Call(args) => ExprsInvoked(args);
    case Closure(params, body) => PatsHide(params); InvokedExactly(body);
    case Block(stmts) => StmtsInvoked(stmts);
    case If(cond, yes, no) => CondInvoked(cond); StmtsInvoked(yes); InvokedExactly(no);
    case While(cond, body) => CondInvoked(cond); StmtsInvoked(body);
    case For(pat, iter, body) => PatHides(pat); InvokedExactly(iter); StmtsInvoked(body);
    case Match(scrutinee, arms) => InvokedExactly(scrutinee); ArmsInvoked(arms);
    case _ =>
  }

  lemma {:induction false} ExprsInvoked(es: Exprs)
    ensures OfExprs(es).invoked <==> ExprsInvoke(es)
  {
    match es
    case ENil =>
    case ECons(e, tail) => InvokedExactly(e); ExprsInvoked(tail);
  }

  lemma {:induction false} FieldsInvoked(fs: Fields)
    ensures OfFields(fs).invoked <==> FieldsInvoke(fs)
  {
    match fs
    case FNil =>
    case FCons(_, _, e, tail) => InvokedExactly(e); FieldsInvoked(tail);
  }

  lemma {:induction false} CondInvoked(c: Cond)
    ensures OfCond(c).invoked <==> CondInvokes(c)
  {
    match c
    case CTrue =>
    case CExpr(e) => InvokedExactly(e);
    case CLet(p, init) => PatHides(p); InvokedExactly(init);
    case CAnd(l, r) => CondInvoked(l); CondInvoked(r);
  }

  lemma {:induction false} ArmsInvoked(arms: Arms)
    ensures OfArms(arms).invoked <==> ArmsInvoke(arms)
  {
    match arms
    case ANil =>
    case ACons(p, guard, body, tail) => PatHides(p); CondInvoked(guard); InvokedExactly(body); ArmsInvoked(tail);
  }

  lemma {:induction false} StmtsInvoked(ss: Stmts)
    ensures OfStmts(ss).invoked <==> StmtsInvoke(ss)
    ensures OfBlock(ss).invoked <==> StmtsInvoke(ss)
  {
    match ss
    case SEnd =>
    case STail(e) => InvokedExactly(e);
    case SExpr(e, rest) => InvokedExactly(e); StmtsInvoked(rest);
    case SLet(p, init, rest) => PatHides(p); InvokedExactly(init); StmtsInvoked(rest);
    case SLetElse(p, init, diverge, rest) =>
      PatHides(p); InvokedExactly(init); InvokedExactly(diverge); StmtsInvoked(rest);
    case SItem(item, rest) => ItemInvoked(item); StmtsInvoked(rest);
    case SMacro(rest) => StmtsInvoked(rest);
  }

  lemma {:induction false} ItemInvoked(item: Item)
    ensures OfItem(item).invoked <==> ItemInvokes(item)
  {
    match item
    case Fn(_, params, body) => PatsHide(params); InvokedExactly(body);
    case Type(_, _, _, members) => AllMembersInvoked(members);
    case _ =>
  }

  lemma {:induction false} AllMembersInvoked(ms: Members)
    ensures MembersInvoked(ms) <==> MembersInvoke(ms)
  {
    match ms
    case MNil =>
    case MFn(_, params, body, tail) => PatsHide(params); InvokedExactly(body); AllMembersInvoked(tail);
    case MConst(_, _, tail) => AllMembersInvoked(tail);
  }

  // ----- sites -----

  /** What a list of sites shows. */
  datatype Reading = Reading(hidden: bool, globbed: set<string>, imported: set<string>)

  ghost function Read(sites: seq<Site>): Reading {
    Reading(Hidden in sites, set s | s in sites && s.Ref? && s.globbed :: s.name,
            set s | s in sites && s.Imported? :: s.name)
  }

  function Joined(a: Reading, b: Reading): Reading {
    Reading(a.hidden || b.hidden, a.globbed + b.globbed, a.imported + b.imported)
  }

  lemma ReadAppend(a: seq<Site>, b: seq<Site>)
    ensures Read(a + b) == Joined(Read(a), Read(b))
  {
    assert forall s :: s in a + b <==> s in a || s in b;
  }

  lemma ReadAppendTwice(a: seq<Site>, b: seq<Site>, c: seq<Site>)
    ensures Read(a + b + c) == Joined(Joined(Read(a), Read(b)), Read(c))
  {
    ReadAppend(a, b);
    ReadAppend(a + b, c);
  }

  /** What the sites of code with obstacles `o` and free names `free` show. */
  function Expected(o: Obstacles, free: set<string>, bound: set<string>, glob: bool): Reading {
    Reading(o.hidden, (if glob then free else o.globbed) - bound, o.imported)
  }

  lemma ExpectedBoth(o: Obstacles, free: set<string>, p: Obstacles, more: set<string>, b: set<string>, g: bool)
    ensures Expected(Both(o, p), free + more, b, g) == Joined(Expected(o, free, b, g), Expected(p, more, b, g))
  {
  }

  lemma ExpectedBelow(o: Obstacles, free: set<string>, names: set<string>, b: set<string>, g: bool)
    ensures Expected(Below(names, o), free - names, b, g) == Expected(o, free, b + names, g)
  {
  }

  /** Obstacles without names, before code. */
  lemma ExpectedAfter(o: Obstacles, p: Obstacles, free: set<string>, b: set<string>, g: bool)
    requires o.globbed == {}
    ensures Expected(Both(o, p), free, b, g) == Joined(Reading(o.hidden, {}, o.imported), Expected(p, free, b, g))
    ensures Expected(Both(p, o), free, b, g) == Joined(Reading(o.hidden, {}, o.imported), Expected(p, free, b, g))
  {
  }

  lemma JoinedSwaps(a: Reading, b: Reading, c: Reading)
    ensures Joined(a, Joined(b, c)) == Joined(b, Joined(a, c))
    ensures Joined(Joined(a, b), c) == Joined(a, Joined(b, c))
    ensures Joined(a, b) == Joined(b, a)
  {
  }

  lemma {:induction false} PatsRead(ps: Pats)
    ensures Read(PatsSites(ps)) == Reading(PatsHidden(ps), {}, {})
  {
    match ps
    case PNil =>
    case PCons(p, tail) =>
      PatsRead(tail);
      PatRead(p);
      ReadAppend(PatSites(p), PatsSites(tail));
  }

  lemma PatRead(p: Pat)
    ensures Read(PatSites(p)) == Reading(PatHidden(p), {}, {})
  {
    assert Read([]) == Reading(false, {}, {}) && Read([Hidden]) == Reading(true, {}, {});
  }

  lemma ItemRead(item: Item)
    ensures Read(ItemSites(item)) == Reading(OfItem(item).hidden, {}, OfItem(item).imported)
    ensures OfItem(item).globbed == {}
  {
    if item.Use? && item.glob.None? {
      var sites := ItemSites(item);
      var skip := if item.importsSelf then 1 else 0;
      assert forall i :: 0 <= i < |item.imports| ==> sites[skip + i] == Imported(item.imports[i].name);
    } else {
      assert Read([]) == Reading(false, {}, {}) && Read([Hidden]) == Reading(true, {}, {});
    }
  }

  /** The sites of an expression show exactly its obstacles. */
  lemma {:induction false} SitesShow(e: Expr, b: set<string>, g: bool)
    ensures Read(Sites(e, b, g)) == Expected(Of(e), Free(e), b, g)
    decreases e, 2
  {
    match e
    case Path(x) => assert x !in b ==> Sites(e, b, g) == [Ref(x, g)] && Ref(x, g) in Sites(e, b, g);
    case Qualified(_, _) =>
    case Node(_, args) => SitesShowExprs(args, b, g);
    case Struct(_, _, fields) => SitesShowFields(fields, b, g);
    case Ascribed(inner, _) => SitesShow(inner, b, g);
    case Call(args) => SitesShowExprs(args, b, g);
    case Closure(_, _) => SitesShowClosure(e, b, g);
    case Block(stmts) => SitesShowBlock(stmts, b, g);
    case If(_, _, _) => SitesShowIf(e, b, g);
    case While(_, _) => SitesShowWhile(e, b, g);
    case For(_, _, _) => SitesShowFor(e, b, g);
    case Match(scrutinee, arms) =>
      SitesShow(scrutinee, b, g);
      SitesShowArms(arms, b, g);
      ReadAppend(Sites(scrutinee, b, g), ArmsSites(arms, b, g));
    case Unexpanded(_) =>
    case Root =>
  }

  lemma {:induction false} SitesShowClosure(e: Expr, b: set<string>, g: bool)
    requires e.Closure?
    ensures Read(Sites(e, b, g)) == Expected(Of(e), Free(e), b, g)
    decreases e, 1
  {
    SitesShow(e.body, b + PatsNames(e.params), g);
    PatsRead(e.params);
    PatsHide(e.params);
    ReadAppend(PatsSites(e.params), Sites(e.body, b + PatsNames(e.params), g));
  }

  lemma {:induction false} SitesShowIf(e: Expr, b: set<string>, g: bool)
    requires e.If?
    ensures Read(Sites(e, b, g)) == Expected(Of(e), Free(e), b, g)
    decreases e, 1
  {
    SitesShowCond(e.cond, b, g);
    SitesShowBlock(e.yes, b + CondNames(e.cond), g);
    SitesShow(e.no, b, g);
    ReadAppendTwice(CondSites(e.cond, b, g), BlockSites(e.yes, b + CondNames(e.cond), g), Sites(e.no, b, g));
    var yes, free := Below(CondNames(e.cond), OfBlock(e.yes)), FreeBlock(e.yes) - CondNames(e.cond);
    ExpectedBelow(OfBlock(e.yes), FreeBlock(e.yes), CondNames(e.cond), b, g);
    ExpectedBoth(OfCond(e.cond), FreeCond(e.cond), yes, free, b, g);
    ExpectedBoth(Both(OfCond(e.cond), yes), FreeCond(e.cond) + free, Of(e.no), Free(e.no), b, g);
  }

  lemma {:induction false} SitesShowWhile(e: Expr, b: set<string>, g: bool)
    requires e.While?
    ensures Read(Sites(e, b, g)) == Expected(Of(e), Free(e), b, g)
    decreases e, 1
  {
    SitesShowCond(e.cond, b, g);
    SitesShowBlock(e.loopBody, b + CondNames(e.cond), g);
    ReadAppend(CondSites(e.cond, b, g), BlockSites(e.loopBody, b + CondNames(e.cond), g));
    var body, free := Below(CondNames(e.cond), OfBlock(e.loopBody)), FreeBlock(e.loopBody) - CondNames(e.cond);
    ExpectedBelow(OfBlock(e.loopBody), FreeBlock(e.loopBody), CondNames(e.cond), b, g);
    ExpectedBoth(OfCond(e.cond), FreeCond(e.cond), body, free, b, g);
  }

  lemma {:induction false} SitesShowFor(e: Expr, b: set<string>, g: bool)
    requires e.For?
    ensures Read(Sites(e, b, g)) == Expected(Of(e), Free(e), b, g)
    decreases e, 1
  {
    SitesShow(e.iter, b, g);
    SitesShowBlock(e.loopBody, b + PatNames(e.pat), g);
    PatRead(e.pat);
    PatHides(e.pat);
    ReadAppendTwice(Sites(e.iter, b, g), PatSites(e.pat), BlockSites(e.loopBody, b + PatNames(e.pat), g));
    var body, free := Below(PatNames(e.pat), OfBlock(e.loopBody)), FreeBlock(e.loopBody) - PatNames(e.pat);
    ExpectedBelow(OfBlock(e.loopBody), FreeBlock(e.loopBody), PatNames(e.pat), b, g);
    ExpectedAfter(OfPat(e.pat), Of(e.iter), Free(e.iter), b, g);
    ExpectedBoth(Both(Of(e.iter), OfPat(e.pat)), Free(e.iter), body, free, b, g);
    JoinedSwaps(Read(Sites(e.iter, b, g)), Read(PatSites(e.pat)), Read(PatSites(e.pat)));
  }

  lemma {:induction false} SitesShowExprs(es: Exprs, b: set<string>, g: bool)
    ensures Read(ExprsSites(es, b, g)) == Expected(OfExprs(es), FreeExprs(es), b, g)
  {
    match es
    case ENil =>
    case ECons(e, tail) =>
      SitesShow(e, b, g);
      SitesShowExprs(tail, b, g);
      ReadAppend(Sites(e, b, g), ExprsSites(tail, b, g));
  }

  lemma {:induction false} SitesShowFields(fs: Fields, b: set<string>, g: bool)
    ensures Read(FieldsSites(fs, b, g)) == Expected(OfFields(fs), FreeFields(fs), b, g)
  {
    match fs
    case FNil =>
    case FCons(_, _, e, tail) =>
      SitesShow(e, b, g);
      SitesShowFields(tail, b, g);
      ReadAppend(Sites(e, b, g), FieldsSites(tail, b, g));
  }

  lemma {:induction false} SitesShowCond(c: Cond, b: set<string>, g: bool)
    ensures Read(CondSites(c, b, g)) == Expected(OfCond(c), FreeCond(c), b, g)
  {
    match c
    case CTrue =>
    case CExpr(e) => SitesShow(e, b, g);
    case CLet(p, init) =>
      SitesShow(init, b, g);
      PatRead(p);
      PatHides(p);
      ReadAppend(Sites(init, b, g), PatSites(p));
    case CAnd(l, r) =>
      SitesShowCond(l, b, g);
      SitesShowCond(r, b + CondNames(l), g);
      ReadAppend(CondSites(l, b, g), CondSites(r, b + CondNames(l), g));
  }

  lemma {:induction false} SitesShowArms(arms: Arms, b: set<string>, g: bool)
    ensures Read(ArmsSites(arms, b, g)) == Expected(OfArms(arms), FreeArms(arms), b, g)
    decreases arms, 1
  {
    if arms.ACons? {
      SitesShowArm(arms, b, g);
      SitesShowArms(arms.tail, b, g);
      ReadAppend(ArmSites(arms, b, g), ArmsSites(arms.tail, b, g));
      ExpectedBoth(OfArm(arms), FreeArm(arms), OfArms(arms.tail), FreeArms(arms.tail), b, g);
    }
  }

  function ArmSites(arms: Arms, b: set<string>, g: bool): seq<Site>
    requires arms.ACons?
  {
    var inner := b + PatNames(arms.pat);
    PatSites(arms.pat) + CondSites(arms.guard, inner, g) + Sites(arms.body, inner + CondNames(arms.guard), g)
  }

  function FreeArm(arms: Arms): set<string>
    requires arms.ACons?
  {
    (FreeCond(arms.guard) + (Free(arms.body) - CondNames(arms.guard))) - PatNames(arms.pat)
  }

  lemma {:induction false} SitesShowArm(arms: Arms, b: set<string>, g: bool)
    requires arms.ACons?
    ensures Read(ArmSites(arms, b, g)) == Expected(OfArm(arms), FreeArm(arms), b, g)
    decreases arms, 0
  {
    var p, guard, body := arms.pat, arms.guard, arms.body;
    var inner := b + PatNames(p);
    var guarded, free := Below(CondNames(guard), Of(body)), Free(body) - CondNames(guard);
    PatRead(p);
    PatHides(p);
    SitesShowCond(guard, inner, g);
    SitesShow(body, inner + CondNames(guard), g);
    ExpectedBelow(Of(body), Free(body), CondNames(guard), inner, g);
    ExpectedBoth(OfCond(guard), FreeCond(guard), guarded, free, inner, g);
    ExpectedBelow(Both(OfCond(guard), guarded), FreeCond(guard) + free, PatNames(p), b, g);
    ExpectedAfter(OfPat(p), Below(PatNames(p), Both(OfCond(guard), guarded)), FreeArm(arms), b, g);
    ReadAppendTwice(PatSites(p), CondSites(guard, inner, g), Sites(body, inner + CondNames(guard), g));
    JoinedSwaps(Read(PatSites(p)), Read(CondSites(guard, inner, g)), Read(Sites(body, inner + CondNames(guard), g)));
  }

  lemma {:induction false} GlobsExactly(ss: Stmts)
    ensures ItemsGlob(BlockItems(ss)) <==> HasGlob(ss)
  {
    match ss
    case SEnd =>
    case STail(_) =>
    case SExpr(_, rest) => GlobsExactly(rest);
    case SLet(_, _, rest) => GlobsExactly(rest);
    case SLetElse(_, _, _, rest) => GlobsExactly(rest);
    case SItem(item, rest) =>
      GlobsExactly(rest);
      var items := [item] + BlockItems(rest);
      assert items[0] == item && forall i :: 0 <= i < |BlockItems(rest)| ==> items[i + 1] == BlockItems(rest)[i];
    case SMacro(rest) => GlobsExactly(rest);
  }

  lemma {:induction false} SitesShowBlock(ss: Stmts, b: set<string>, g: bool)
    ensures Read(BlockSites(ss, b, g)) == Expected(OfBlock(ss), FreeBlock(ss), b, g)
    decreases ss, 1
  {
    var items := BlockItems(ss);
    GlobsExactly(ss);
    SitesShowStmts(ss, b + ItemsNames(items), g || ItemsGlob(items));
    ReadAppend(ItemsSites(items), StmtsSites(ss, b + ItemsNames(items), g || ItemsGlob(items)));
  }

  /** What the items of `ss` show, and what its statements do. */
  ghost function WithItems(ss: Stmts, sites: seq<Site>): Reading {
    Joined(Read(ItemsSites(BlockItems(ss))), Read(sites))
  }

  lemma {:induction false} SitesShowStmts(ss: Stmts, b: set<string>, g: bool)
    ensures WithItems(ss, StmtsSites(ss, b, g)) == Expected(OfStmts(ss), FreeStmts(ss), b, g)
    decreases ss, 0, 1
  {
    match ss
    case SEnd =>
    case STail(e) => SitesShow(e, b, g);
    case SExpr(_, _) => SitesShowStmt(ss, b, g);
    case SLet(_, _, _) => SitesShowLet(ss, b, g);
    case SLetElse(_, _, _, _) => SitesShowLetElse(ss, b, g);
    case SItem(_, _) => SitesShowItem(ss, b, g);
    case SMacro(_) => SitesShowMacro(ss, b, g);
  }

  lemma {:induction false} SitesShowStmt(ss: Stmts, b: set<string>, g: bool)
    requires ss.SExpr?
    ensures WithItems(ss, StmtsSites(ss, b, g)) == Expected(OfStmts(ss), FreeStmts(ss), b, g)
    decreases ss, 0, 0
  {
    SitesShow(ss.expr, b, g);
    SitesShowStmts(ss.rest, b, g);
    ReadAppend(Sites(ss.expr, b, g), StmtsSites(ss.rest, b, g));
    ExpectedBoth(Of(ss.expr), Free(ss.expr), OfStmts(ss.rest), FreeStmts(ss.rest), b, g);
    JoinedSwaps(Read(ItemsSites(BlockItems(ss))), Read(Sites(ss.expr, b, g)), Read(StmtsSites(ss.rest, b, g)));
  }

  lemma {:induction false} SitesShowMacro(ss: Stmts, b: set<string>, g: bool)
    requires ss.SMacro?
    ensures WithItems(ss, StmtsSites(ss, b, g)) == Expected(OfStmts(ss), FreeStmts(ss), b, g)
    decreases ss, 0, 0
  {
    SitesShowStmts(ss.rest, b, g);
    assert Read([Hidden]) == Reading(true, {}, {});
    ReadAppend([Hidden], StmtsSites(ss.rest, b, g));
    ExpectedAfter(MACRO, OfStmts(ss.rest), FreeStmts(ss.rest), b, g);
    JoinedSwaps(Read(ItemsSites(BlockItems(ss))), Read([Hidden]), Read(StmtsSites(ss.rest, b, g)));
  }

  lemma {:induction false} SitesShowLet(ss: Stmts, b: set<string>, g: bool)
    requires ss.SLet?
    ensures WithItems(ss, StmtsSites(ss, b, g)) == Expected(OfStmts(ss), FreeStmts(ss), b, g)
    decreases ss, 0, 0
  {
    SitesShow(ss.init, b, g);
    BoundRest(ss.pat, Sites(ss.init, b, g), Of(ss.init), Free(ss.init), ss.rest, b, g);
  }

  lemma {:induction false} SitesShowLetElse(ss: Stmts, b: set<string>, g: bool)
    requires ss.SLetElse?
    ensures WithItems(ss, StmtsSites(ss, b, g)) == Expected(OfStmts(ss), FreeStmts(ss), b, g)
    decreases ss, 0, 0
  {
    var s1, s2 := Sites(ss.init, b, g), Sites(ss.diverge, b, g);
    SitesShow(ss.init, b, g);
    SitesShow(ss.diverge, b, g);
    ReadAppend(s1, s2);
    ExpectedBoth(Of(ss.init), Free(ss.init), Of(ss.diverge), Free(ss.diverge), b, g);
    BoundRest(ss.pat, s1 + s2, Both(Of(ss.init), Of(ss.diverge)), Free(ss.init) + Free(ss.diverge), ss.rest, b, g);
  }

  /** A declaration: what comes first, the pattern, and the statements below it. */
  lemma {:induction false} BoundRest(p: Pat, first: seq<Site>, o: Obstacles, free: set<string>, rest: Stmts,
                                     b: set<string>, g: bool)
    requires Read(first) == Expected(o, free, b, g)
    ensures WithItems(rest, first + PatSites(p) + StmtsSites(rest, b + PatNames(p), g)) ==
            Expected(Both(Both(o, OfPat(p)), Below(PatNames(p), OfStmts(rest))),
                     free + (FreeStmts(rest) - PatNames(p)), b, g)
    decreases rest, 0, 2
  {
    var items, last := Read(ItemsSites(BlockItems(rest))), StmtsSites(rest, b + PatNames(p), g);
    PatRead(p);
    PatHides(p);
    SitesShowStmts(rest, b + PatNames(p), g);
    ReadAppend(first, PatSites(p));
    ReadAppend(first + PatSites(p), last);
    ExpectedAfter(OfPat(p), o, free, b, g);
    ExpectedBelow(OfStmts(rest), FreeStmts(rest), PatNames(p), b, g);
    ExpectedBoth(Both(o, OfPat(p)), free, Below(PatNames(p), OfStmts(rest)), FreeStmts(rest) - PatNames(p), b, g);
    JoinedSwaps(items, Read(first + PatSites(p)), Read(last));
    JoinedSwaps(Read(first), Read(PatSites(p)), Read(last));
  }

  lemma {:induction false} SitesShowItem(ss: Stmts, b: set<string>, g: bool)
    requires ss.SItem?
    ensures WithItems(ss, StmtsSites(ss, b, g)) == Expected(OfStmts(ss), FreeStmts(ss), b, g)
    decreases ss, 0, 0
  {
    ItemRead(ss.item);
    SitesShowStmts(ss.rest, b, g);
    assert BlockItems(ss)[1..] == BlockItems(ss.rest);
    ReadAppend(ItemSites(ss.item), ItemsSites(BlockItems(ss.rest)));
    ExpectedAfter(OfItem(ss.item), OfStmts(ss.rest), FreeStmts(ss.rest), b, g);
    JoinedSwaps(Read(ItemSites(ss.item)), Read(ItemsSites(BlockItems(ss.rest))), Read(StmtsSites(ss.rest, b, g)));
  }

  // ----- acceptance -----

  lemma AcceptedSites(types: Bindings, sites: seq<Site>)
    ensures Accepts(types, sites) <==>
            && !Read(sites).hidden && Read(sites).globbed !! types.Keys && Read(sites).imported !! types.Keys
            && forall x :: x in Refs(sites) && x in types ==> types[x].Some?
  {
    if Accepts(types, sites) {
      assert forall s :: s in sites ==> Admits(types, s);
    } else {
      var i :| 0 <= i < |sites| && !Admits(types, sites[i]);
      var s := sites[i];
      assert s in sites;
      assert s.Ref? ==> s.name in Refs(sites) && (s.globbed ==> s.name in Read(sites).globbed);
      assert s.Imported? ==> s.name in Read(sites).imported;
    }
  }

  /** The visitor accepts a closure, and nothing in it invokes a macro, exactly when it can be reconstructed. */
  lemma AcceptedExactly(types: Bindings, closure: Expr)
    ensures !Invokes(closure) && Accepts(types, Sites(closure, {}, false)) <==> Reconstructable(closure, types)
  {
    InvokedExactly(closure);
    SitesShow(closure, {}, false);
    SitesFree(closure, {}, false);
    AcceptedSites(types, Sites(closure, {}, false));
  }
}
