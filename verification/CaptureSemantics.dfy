/**
 Evaluation of the closure language of CaptureSyntax under Rust's scoping rules.

 An environment is a list of ribs. Block items form a rib that is in scope
 throughout their block, before the locals the block introduces; function items
 see enclosing items but no locals, and modules see neither. Values and types
 are separate namespaces: a local hides values only. The paths of imports and
 globs are looked up among the items around them. Code moved into the
 generated module sees that module's imports and, through its parent glob, the
 module-level names. Static cells carry the side effects, so the order of
 evaluation is observable. `fuel` bounds loop iterations and calls.
 */
module CaptureSemantics {
  import opened Options
  import opened CaptureSyntax

  datatype Value =
    | Int(n: int)
    | Tup(elems: seq<Value>)
    | Rec(kind: int, members: seq<string>, fields: seq<Value>)
    | Clo(params: Pats, body: Expr, env: Env)

  datatype Env =
    | Top
    | Bind(name: string, value: Value, rest: Env)
    | Items(items: seq<Item>, rest: Env)
    | Captured(values: seq<Value>, rest: Env)
    | Moved(imports: seq<Item>)                // the generated module: imports moved there, then its parent

  /**
   What paths mean at module level. A type or module `h` is present as
   `Under(h, "")`.
   */
  datatype World = World(globals: map<Name, Value>)

  /** `Variable` is a local; an `Entity` is a value, constant or function that some item declares. */
  datatype Meaning = Unknown | Variable(value: Value) | Entity(value: Value)

  type Cells = map<string, int>

  datatype Outcome =
    | Done(value: Value, cells: Cells)
    | Returned(value: Value, cells: Cells)
    | Broke(cells: Cells)
    | Continued(cells: Cells)
    | Stuck
    | Timeout

  datatype Outcomes = Many(values: seq<Value>, cells: Cells) | Stopped(outcome: Outcome)

  datatype CondOutcome = Holds(env: Env, cells: Cells) | Fails(cells: Cells) | Aborted(outcome: Outcome)

  const UNIT: Value := Tup([])

  // ----- name lookup -----

  /** How many item ribs there are. */
  function Ribs(env: Env): nat {
    match env
    case Top => 0
    case Bind(_, _, rest) => Ribs(rest)
    case Items(_, rest) => Ribs(rest) + 1
    case Captured(_, rest) => Ribs(rest)
    case Moved(_) => 1
  }

  function ItemsOnly(env: Env): (items: Env)
    ensures Ribs(items) == Ribs(env)
  {
    match env
    case Top => Top
    case Bind(_, _, rest) => ItemsOnly(rest)
    case Items(items, rest) => Items(items, ItemsOnly(rest))
    case Captured(_, rest) => ItemsOnly(rest)
    case Moved(_) => env
  }

  function Found(names: map<Name, Value>, w: Name): Meaning {
    if w in names then Entity(names[w]) else Unknown
  }

  function AsItems(ms: Members): seq<Item> {
    match ms
    case MNil => []
    case MFn(x, params, body, tail) => [Fn(x, params, body)] + AsItems(tail)
    case MConst(x, n, tail) => [Const(x, n)] + AsItems(tail)
  }

  /** What a definition means among items that see `scope`. */
  function Instance(def: Option<Def>, scope: Env): Meaning {
    match def
    case None => Unknown
    case Some(Number(n)) => Entity(Int(n))
    case Some(Code(params, body)) => Entity(Clo(params, body, scope))
    case Some(Isolated(params, body, siblings)) => Entity(Clo(params, body, Items(AsItems(siblings), Top)))
  }

  /**
   What a rib of items makes of `w`; None when it does not bind the first
   segment. Definitions are seen from `scope`, the rib and all around it; paths
   of imports are looked up in the rib, and then in `outer`, the items around
   it. `n` bounds the imports that lead to each other.
   */
  function InRib(world: World, rib: seq<Item>, w: Name, scope: Env, outer: Env, n: nat): Option<Meaning>
    decreases Ribs(outer) + 1, 0, n, 2
  {
    if Defined(rib, w).Some? then Some(Instance(Defined(rib, w).value, scope))
    else if ImportFor(rib, w).Some? then
      Some(if n == 0 then Unknown else Target(world, rib, Redirect(ImportFor(rib, w).value, w), scope, outer, n - 1))
    else if n == 0 then None
    else Globbed(world, rib, rib, w, scope, outer, n)
  }

  /** The target of an import in `rib`. */
  function Target(world: World, rib: seq<Item>, w: Name, scope: Env, outer: Env, n: nat): Meaning
    decreases Ribs(outer) + 1, 0, n, 3
  {
    match InRib(world, rib, w, scope, outer, n)
    case Some(found) => found
    case None => Lookup(world, outer, w)
  }

  /** What the glob imports among `items` bring in. */
  function Globbed(world: World, rib: seq<Item>, items: seq<Item>, w: Name, scope: Env, outer: Env,
                   n: nat): Option<Meaning>
    requires n > 0
    decreases Ribs(outer) + 1, 0, n, 1, |items|
  {
    if items == [] then None
    else if !ItemGlobs(items[0]) then Globbed(world, rib, items[1..], w, scope, outer, n)
    else
      var glob := items[0].glob.value;
      if Target(world, rib, FromGlob(glob, Base(w)), scope, outer, n - 1) == Unknown
      then Globbed(world, rib, items[1..], w, scope, outer, n)
      else Some(Target(world, rib, FromGlob(glob, w), scope, outer, n - 1))
  }

  function Lookup(world: World, env: Env, w: Name): Meaning
    decreases Ribs(env), 1, env
  {
    match env
    case Top => Found(world.globals, w)
    case Bind(name, value, rest) => if w == One(name) then Variable(value) else Lookup(world, rest, w)
    case Items(items, rest) =>
      (match InRib(world, items, w, ItemsOnly(env), ItemsOnly(rest), Leaves(items) + 1)
       case Some(found) => found
       case None => Lookup(world, rest, w))
    case Captured(_, rest) => Lookup(world, rest, w)
    case Moved(imports) =>
      match InRib(world, imports, w, Top, Top, Leaves(imports) + 1)
      case Some(found) => found
      case None => Found(world.globals, w)
  }

  predicate IsConstant(m: Meaning) {
    m.Entity? && m.value.Int?
  }

  function CaptureTuple(env: Env): Option<Value> {
    match env
    case Top => None
    case Bind(_, _, rest) => CaptureTuple(rest)
    case Items(_, rest) => CaptureTuple(rest)
    case Captured(values, _) => Some(Tup(values))
    case Moved(_) => None
  }

  // ----- pattern matching -----

  /**
   Extends `env` by the pattern's bindings. An identifier that names a constant
   is compared with it. Alternatives must bind the same names.
   */
  function Matched(world: World, p: Pat, v: Value, env: Env): Option<Env> {
    match p
    case PWild => Some(env)
    case PLit(n) => if v == Int(n) then Some(env) else None
    case PVar(x) =>
      var m := Lookup(world, env, One(x));
      if IsConstant(m) && m.value != v then None else Some(Bind(x, v, env))
    case PAt(x, sub) => Matched(world, sub, v, Bind(x, v, env))
    case PPath(head, rest) =>
      var m := Lookup(world, env, Under(head, rest));
      if IsConstant(m) && m.value == v then Some(env) else None
    case PStruct(head, rest, members, elems) =>
      if v.Rec? && Lookup(world, env, Under(head, rest)) == Entity(Int(v.kind)) then
        (match Selected(v.members, v.fields, members)
         case Some(vs) => MatchedAll(world, elems, vs, env)
         case None => None)
      else None
    case PTuple(elems) => if v.Tup? then MatchedAll(world, elems, v.elems, env) else None
    case POr(l, r) =>
      if PatNames(l) != PatNames(r) then None
      else
        (match Matched(world, l, v, env)
         case Some(extended) => Some(extended)
         case None => Matched(world, r, v, env))
    case PMacro => None
  }

  function MatchedAll(world: World, ps: Pats, vs: seq<Value>, env: Env): Option<Env> {
    match ps
    case PNil => if vs == [] then Some(env) else None
    case PCons(p, tail) =>
      if vs == [] then None
      else
        match Matched(world, p, vs[0], env)
        case None => None
        case Some(extended) => MatchedAll(world, tail, vs[1..], extended)
  }

  function MemberOf(members: seq<string>, fields: seq<Value>, member: string): Option<Value> {
    if members == [] || fields == [] then None
    else if members[0] == member then Some(fields[0])
    else MemberOf(members[1..], fields[1..], member)
  }

  function Selected(members: seq<string>, fields: seq<Value>, chosen: seq<string>): Option<seq<Value>> {
    if chosen == [] then Some([])
    else
      match (MemberOf(members, fields, chosen[0]), Selected(members, fields, chosen[1..]))
      case (Some(v), Some(vs)) => Some([v] + vs)
      case _ => None
  }

  // ----- evaluation -----

  function FieldNames(fs: Fields): seq<string> {
    match fs
    case FNil => []
    case FCons(member, _, _, tail) => [member] + FieldNames(tail)
  }

  function Of(found: Option<Value>, cells: Cells): Outcome {
    match found case Some(v) => Done(v, cells) case None => Stuck
  }

  function Means(m: Meaning, cells: Cells): Outcome {
    if m.Unknown? then Stuck else Done(m.value, cells)
  }

  /** A record of the type that `m` identifies. */
  function Built(m: Meaning, members: seq<string>, fields: seq<Value>, cells: Cells): Outcome {
    if IsConstant(m) then Done(Rec(m.value.n, members, fields), cells) else Stuck
  }

  predicate AllKnown(world: World, env: Env, heads: seq<string>) {
    forall i :: 0 <= i < |heads| ==> Lookup(world, env, Under(heads[i], "")) != Unknown
  }

  /** The result of a call, given how its body ended. */
  function Leave(o: Outcome): Outcome {
    match o
    case Returned(v, cells) => Done(v, cells)
    case Broke(_) => Stuck
    case Continued(_) => Stuck
    case _ => o
  }

  function Diverged(o: Outcome): Outcome {
    if o.Done? then Stuck else o
  }

  /** The effect of an operator on its evaluated operands. */
  function Apply(op: Op, vs: seq<Value>, cells: Cells): Outcome {
    match op
    case Lit(n) => Done(Int(n), cells)
    case Static(path) => if path in cells then Done(Int(cells[path]), cells) else Stuck
    case Store(path) => if |vs| == 1 && vs[0].Int? then Done(UNIT, cells[path := vs[0].n]) else Stuck
    case Add => if |vs| == 2 && vs[0].Int? && vs[1].Int? then Done(Int(vs[0].n + vs[1].n), cells) else Stuck
    case Tuple => Done(Tup(vs), cells)
    case Index(i) => if |vs| == 1 && vs[0].Tup? && i < |vs[0].elems| then Done(vs[0].elems[i], cells) else Stuck
    case Member(x) => if |vs| == 1 && vs[0].Rec? then Of(MemberOf(vs[0].members, vs[0].fields, x), cells) else Stuck
    case Return => if |vs| == 1 then Returned(vs[0], cells) else Stuck
    case Break => Broke(cells)
    case Continue => Continued(cells)
  }

  function Prepended(v: Value, os: Outcomes): Outcomes {
    match os case Many(vs, cells) => Many([v] + vs, cells) case Stopped(_) => os
  }

  function Eval(world: World, e: Expr, env: Env, cells: Cells, fuel: nat): Outcome
    decreases fuel, e, 1
  {
    match e
    case Path(x) => Means(Lookup(world, env, One(x)), cells)
    case Qualified(head, rest) => Means(Lookup(world, env, Under(head, rest)), cells)
    case Node(op, args) =>
      (match EvalAll(world, args, env, cells, fuel)
       case Many(vs, after) => Apply(op, vs, after)
       case Stopped(o) => o)
    case Struct(head, rest, fields) =>
      (match EvalFields(world, fields, env, cells, fuel)
       case Many(vs, after) => Built(Lookup(world, env, Under(head, rest)), FieldNames(fields), vs, after)
       case Stopped(o) => o)
    case Ascribed(inner, ty) =>
      if AllKnown(world, env, ty.heads) then Eval(world, inner, env, cells, fuel) else Stuck
    case Call(args) =>
      (match EvalAll(world, args, env, cells, fuel)
       case Many(vs, after) => if fuel == 0 then Timeout else Enter(world, vs, after, fuel)
       case Stopped(o) => o)
    case Closure(params, body) => Done(Clo(params, body, env), cells)
    case Block(stmts) => EvalBlock(world, stmts, env, cells, fuel)
    case If(cond, yes, no) =>
      (match EvalCond(world, cond, env, cells, fuel)
       case Holds(inner, after) => EvalBlock(world, yes, inner, after, fuel)
       case Fails(after) => Eval(world, no, env, after, fuel)
       case Aborted(o) => o)
    case While(_, _) => EvalWhile(world, e, env, cells, fuel)
    case For(_, iter, _) =>
      (match Eval(world, iter, env, cells, fuel)
       case Done(v, after) => if v.Tup? then EvalFor(world, e, v.elems, env, after, fuel) else Stuck
       case o => o)
    case Match(scrutinee, arms) =>
      (match Eval(world, scrutinee, env, cells, fuel)
       case Done(v, after) => EvalArms(world, arms, v, env, after, fuel)
       case o => o)
    case Unexpanded(_) => Stuck
    case Root => Of(CaptureTuple(env), cells)
  }

  /** Calls the first of `vs` with the others. */
  function Enter(world: World, vs: seq<Value>, cells: Cells, fuel: nat): Outcome
    requires fuel > 0
    decreases fuel - 1
  {
    if vs == [] || !vs[0].Clo? then Stuck
    else match MatchedAll(world, vs[0].params, vs[1..], vs[0].env)
      case None => Stuck
      case Some(frame) => Leave(Eval(world, vs[0].body, frame, cells, fuel - 1))
  }

  function EvalAll(world: World, es: Exprs, env: Env, cells: Cells, fuel: nat): Outcomes
    decreases fuel, es, 1
  {
    match es
    case ENil => Many([], cells)
    case ECons(e, tail) =>
      match Eval(world, e, env, cells, fuel)
      case Done(v, after) => Prepended(v, EvalAll(world, tail, env, after, fuel))
      case o => Stopped(o)
  }

  function EvalFields(world: World, fs: Fields, env: Env, cells: Cells, fuel: nat): Outcomes
    decreases fuel, fs, 1
  {
    match fs
    case FNil => Many([], cells)
    case FCons(_, _, _, tail) =>
      match EvalField1(world, fs, env, cells, fuel)
      case Done(v, after) => Prepended(v, EvalFields(world, tail, env, after, fuel))
      case o => Stopped(o)
  }

  /** The first field; without a colon it means the path spelled like its member. */
  function EvalField1(world: World, fs: Fields, env: Env, cells: Cells, fuel: nat): Outcome
    requires fs.FCons?
    decreases fuel, fs, 0
  {
    if fs.colon then Eval(world, fs.expr, env, cells, fuel) else Means(Lookup(world, env, One(fs.member)), cells)
  }

  function EvalCond(world: World, c: Cond, env: Env, cells: Cells, fuel: nat): CondOutcome
    decreases fuel, c, 1
  {
    match c
    case CTrue => Holds(env, cells)
    case CExpr(e) => Decide(Eval(world, e, env, cells, fuel), env)
    case CLet(p, init) => Attempt(world, p, Eval(world, init, env, cells, fuel), env)
    case CAnd(l, r) =>
      match EvalCond(world, l, env, cells, fuel)
      case Holds(inner, after) => EvalCond(world, r, inner, after, fuel)
      case o => o
  }

  function Decide(o: Outcome, env: Env): CondOutcome {
    if !o.Done? then Aborted(o)
    else if !o.value.Int? then Aborted(Stuck)
    else if o.value.n != 0 then Holds(env, o.cells)
    else Fails(o.cells)
  }

  function Attempt(world: World, p: Pat, o: Outcome, env: Env): CondOutcome {
    if !o.Done? then Aborted(o)
    else match Matched(world, p, o.value, env) case Some(inner) => Holds(inner, o.cells) case None => Fails(o.cells)
  }

  function EvalArms(world: World, arms: Arms, v: Value, env: Env, cells: Cells, fuel: nat): Outcome
    decreases fuel, arms, 1
  {
    match arms
    case ANil => Stuck
    case ACons(_, _, _, tail) =>
      var o := EvalArm(world, arms, v, env, cells, fuel);
      if o.Next? then EvalArms(world, tail, v, env, o.cells, fuel) else o.outcome
  }

  datatype ArmOutcome = Taken(outcome: Outcome) | Next(cells: Cells)

  /** The first arm. */
  function EvalArm(world: World, arms: Arms, v: Value, env: Env, cells: Cells, fuel: nat): ArmOutcome
    requires arms.ACons?
    decreases fuel, arms, 0
  {
    match EvalGuard(world, arms, v, env, cells, fuel)
    case Holds(guarded, after) => Taken(Eval(world, arms.body, guarded, after, fuel))
    case Fails(after) => Next(after)
    case Aborted(o) => Taken(o)
  }

  /** Whether the first arm is taken. */
  function EvalGuard(world: World, arms: Arms, v: Value, env: Env, cells: Cells, fuel: nat): CondOutcome
    requires arms.ACons?
    decreases fuel, arms, 0, 0
  {
    match Matched(world, arms.pat, v, env)
    case None => Fails(cells)
    case Some(inner) => EvalCond(world, arms.guard, inner, cells, fuel)
  }

  function EvalWhile(world: World, e: Expr, env: Env, cells: Cells, fuel: nat): Outcome
    requires e.While?
    decreases fuel, e, 0
  {
    if fuel == 0 then Timeout
    else
      var o := EvalTurn(world, e, env, cells, fuel);
      if Repeats(o) then EvalWhile(world, e, env, o.cells, fuel - 1) else Exit(o)
  }

  /** One turn of a loop; a condition that fails ends the loop. */
  function EvalTurn(world: World, e: Expr, env: Env, cells: Cells, fuel: nat): Outcome
    requires e.While?
    decreases fuel, e, 0, 0
  {
    match EvalCond(world, e.cond, env, cells, fuel)
    case Holds(inner, after) => EvalBlock(world, e.loopBody, inner, after, fuel)
    case Fails(after) => Broke(after)
    case Aborted(o) => o
  }

  function EvalFor(world: World, e: Expr, vs: seq<Value>, env: Env, cells: Cells, fuel: nat): Outcome
    requires e.For?
    decreases fuel, e, 0, |vs|
  {
    if vs == [] then Done(UNIT, cells)
    else match Matched(world, e.pat, vs[0], env)
      case None => Stuck
      case Some(inner) =>
        var o := EvalBlock(world, e.loopBody, inner, cells, fuel);
        if Repeats(o) then EvalFor(world, e, vs[1..], env, o.cells, fuel) else Exit(o)
  }

  predicate Repeats(o: Outcome) {
    o.Done? || o.Continued?
  }

  function Exit(o: Outcome): Outcome {
    if o.Broke? then Done(UNIT, o.cells) else o
  }

  function EvalBlock(world: World, ss: Stmts, env: Env, cells: Cells, fuel: nat): Outcome
    decreases fuel, ss, 1
  {
    EvalStmts(world, ss, Items(BlockItems(ss), env), cells, fuel)
  }

  function EvalStmts(world: World, ss: Stmts, env: Env, cells: Cells, fuel: nat): Outcome
    decreases fuel, ss, 0
  {
    match ss
    case SEnd => Done(UNIT, cells)
    case STail(e) => Eval(world, e, env, cells, fuel)
    case SExpr(e, rest) =>
      (match Eval(world, e, env, cells, fuel)
       case Done(_, after) => EvalStmts(world, rest, env, after, fuel)
       case o => o)
    case SLet(p, init, rest) =>
      (match Eval(world, init, env, cells, fuel)
       case Done(v, after) =>
         (match Matched(world, p, v, env)
          case Some(inner) => EvalStmts(world, rest, inner, after, fuel)
          case None => Stuck)
       case o => o)
    case SLetElse(p, init, diverge, rest) =>
      (match Eval(world, init, env, cells, fuel)
       case Done(v, after) =>
         (match Matched(world, p, v, env)
          case Some(inner) => EvalStmts(world, rest, inner, after, fuel)
          case None => Diverged(Eval(world, diverge, env, after, fuel)))
       case o => o)
    case SItem(_, rest) => EvalStmts(world, rest, env, cells, fuel)
    case SMacro(_) => Stuck
  }
}
