/**
 Abstract syntax of constructor closures, the names each construct binds, and
 the two syntactic notions capture analysis is about: the sites at which a
 closure may refer to an outer binding, and the replacement of those sites by
 fields of the capture tuple.

 The analysis refers to the capture tuple through an identifier with macro
 hygiene, which no authored identifier can equal; `Root` stands for it.
 */
module CaptureSyntax {
  import opened Options
  import BindingModes

  datatype Pat =
    | PWild
    | PLit(n: int)
    | PVar(name: string)                       // a binding, or a constant that is in scope
    | PAt(name: string, sub: Pat)
    | PPath(head: string, rest: string)        // a path of several segments: a constant
    | PStruct(head: string, rest: string, members: seq<string>, elems: Pats)
    | PTuple(elems: Pats)
    | POr(left: Pat, right: Pat)
    | PMacro

  datatype Pats = PNil | PCons(head: Pat, tail: Pats)

  /** Operators whose operands are visited, and evaluated, strictly from left to right. */
  datatype Op =
    | Lit(n: int)
    | Static(path: string)                     // an anchored path, such as `crate::CELL`: a static cell
    | Store(path: string)
    | Add
    | Tuple
    | Index(index: nat)
    | Member(member: string)
    | Return
    | Break
    | Continue

  /** The first segments of the types that are written, and whether they invoke a macro. */
  datatype Annotation = Annotation(heads: seq<string>, invokes: bool)

  /**
   `head` is the first segment of a path, looked up among modules and types;
   `rest` are the others. In a path to a type or module `rest` is empty or ends
   in `::`, so that types and values are told apart.
   */
  datatype Expr =
    | Path(name: string)                       // a path of one unqualified segment
    | Qualified(head: string, rest: string)
    | Node(op: Op, args: Exprs)
    | Struct(head: string, rest: string, fields: Fields)
    | Ascribed(expr: Expr, ty: Annotation)     // an expression and the types written for it
    | Call(args: Exprs)                        // the callee is the first operand
    | Closure(params: Pats, body: Expr)
    | Block(stmts: Stmts)
    | If(cond: Cond, yes: Stmts, no: Expr)
    | While(cond: Cond, loopBody: Stmts)
    | For(pat: Pat, iter: Expr, loopBody: Stmts)
    | Match(scrutinee: Expr, arms: Arms)
    | Unexpanded(invocation: bool)             // a macro invocation, or else tokens without structure
    | Root

  datatype Exprs = ENil | ECons(head: Expr, tail: Exprs)

  /** `colon` is false for the shorthand spelling, which prints the member only. */
  datatype Fields = FNil | FCons(member: string, colon: bool, expr: Expr, tail: Fields)

  /** A condition of `if`, `while` or a match guard: an `&&` chain that may bind. */
  datatype Cond = CTrue | CExpr(expr: Expr) | CLet(pat: Pat, init: Expr) | CAnd(left: Cond, right: Cond)

  datatype Arms = ANil | ACons(pat: Pat, guard: Cond, body: Expr, tail: Arms)

  datatype Stmts =
    | SEnd
    | STail(expr: Expr)
    | SExpr(expr: Expr, rest: Stmts)
    | SLet(pat: Pat, init: Expr, rest: Stmts)
    | SLetElse(pat: Pat, init: Expr, diverge: Expr, rest: Stmts)
    | SItem(item: Item, rest: Stmts)
    | SMacro(rest: Stmts)

  datatype Space = Values | Types | Both

  /** One leaf of a use tree: `use head::rest as name`, for a value, a type or module, or one of each. */
  datatype Import = Import(name: string, head: string, rest: string, space: Space)

  /** `use head::rest::*` */
  datatype Glob = Glob(head: string, rest: string)

  datatype Kind = Data | Trait | Mod

  /** Functions and constants of a type, trait or module. */
  datatype Members =
    | MNil
    | MFn(member: string, params: Pats, body: Expr, tail: Members)
    | MConst(member: string, n: int, tail: Members)

  /** A tuple struct is two items: `Type` and, for its constructor, `Fn`. */
  datatype Item =
    | Fn(name: string, params: Pats, body: Expr)
    | Const(name: string, n: int)
    | Type(name: string, id: int, kind: Kind, members: Members)
    | Unnamed
    | Use(imports: seq<Import>, glob: Option<Glob>, importsSelf: bool)
    | ItemMacro

  datatype Capture = Capture(name: string, ty: BindingModes.Type)

  // ----- names bound by patterns, conditions and block items -----

  function PatNames(p: Pat): set<string> {
    match p
    case PVar(x) => {x}
    case PAt(x, sub) => {x} + PatNames(sub)
    case PStruct(_, _, _, elems) => PatsNames(elems)
    case PTuple(elems) => PatsNames(elems)
    case POr(l, r) => PatNames(l) + PatNames(r)
    case _ => {}
  }

  function PatsNames(ps: Pats): set<string> {
    match ps
    case PNil => {}
    case PCons(p, tail) => PatNames(p) + PatsNames(tail)
  }

  /** Whether the names a pattern introduces cannot all be seen. */
  predicate PatHidden(p: Pat) {
    match p
    case PAt(_, sub) => PatHidden(sub)
    case PStruct(_, _, _, elems) => PatsHidden(elems)
    case PTuple(elems) => PatsHidden(elems)
    case POr(l, r) => PatHidden(l) || PatHidden(r)
    case PMacro => true
    case _ => false
  }

  predicate PatsHidden(ps: Pats) {
    match ps
    case PNil => false
    case PCons(p, tail) => PatHidden(p) || PatsHidden(tail)
  }

  function CondNames(c: Cond): set<string> {
    match c
    case CLet(p, _) => PatNames(p)
    case CAnd(l, r) => CondNames(l) + CondNames(r)
    case _ => {}
  }

  function BlockItems(ss: Stmts): seq<Item> {
    match ss
    case SEnd => []
    case STail(_) => []
    case SExpr(_, rest) => BlockItems(rest)
    case SLet(_, _, rest) => BlockItems(rest)
    case SLetElse(_, _, _, rest) => BlockItems(rest)
    case SItem(item, rest) => [item] + BlockItems(rest)
    case SMacro(rest) => BlockItems(rest)
  }

  function ImportNames(imports: seq<Import>): (names: set<string>)
    ensures forall x :: x in names <==> exists i :: 0 <= i < |imports| && imports[i].name == x
  {
    set i | 0 <= i < |imports| :: imports[i].name
  }

  /** Value names an item is known to put in scope throughout its block. */
  function ItemNames(item: Item): set<string> {
    match item
    case Fn(x, _, _) => {x}
    case Const(x, _) => {x}
    case Use(imports, None, false) => ImportNames(imports)
    case _ => {}
  }

  predicate ItemGlobs(item: Item) {
    item.Use? && item.glob.Some?
  }

  function ItemsNames(items: seq<Item>): set<string> {
    if items == [] then {} else ItemNames(items[0]) + ItemsNames(items[1..])
  }

  predicate ItemsGlob(items: seq<Item>) {
    exists i :: 0 <= i < |items| && ItemGlobs(items[i])
  }

  // ----- where a closure may refer to an outer binding -----

  /** A reference not bound locally, a block-local import, or syntax the analysis cannot see through. */
  datatype Site = Ref(name: string, globbed: bool) | Imported(name: string) | Hidden

  function PatSites(p: Pat): seq<Site> {
    if PatHidden(p) then [Hidden] else []
  }

  function PatsSites(ps: Pats): seq<Site> {
    match ps
    case PNil => []
    case PCons(p, tail) => PatSites(p) + PatsSites(tail)
  }

  function ItemSites(item: Item): seq<Site> {
    match item
    case Use(imports, None, importsSelf) =>
      (if importsSelf then [Hidden] else [])
      + seq(|imports|, i requires 0 <= i < |imports| => Imported(imports[i].name))
    case ItemMacro => [Hidden]
    case _ => []
  }

  function ItemsSites(items: seq<Item>): seq<Site> {
    if items == [] then [] else ItemSites(items[0]) + ItemsSites(items[1..])
  }

  /** Sites of `e` in visiting order; `bound` are the local names, `glob` whether a local glob import is in scope. */
  function Sites(e: Expr, bound: set<string>, glob: bool): seq<Site>
    decreases e, 1
  {
    match e
    case Path(x) => if x in bound then [] else [Ref(x, glob)]
    case Qualified(_, _) => []
    case Node(_, args) => ExprsSites(args, bound, glob)
    case Struct(_, _, fields) => FieldsSites(fields, bound, glob)
    case Ascribed(inner, _) => Sites(inner, bound, glob)
    case Call(args) => ExprsSites(args, bound, glob)
    case Closure(params, body) => PatsSites(params) + Sites(body, bound + PatsNames(params), glob)
    case Block(stmts) => BlockSites(stmts, bound, glob)
    case If(cond, yes, no) =>
      CondSites(cond, bound, glob) + BlockSites(yes, bound + CondNames(cond), glob) + Sites(no, bound, glob)
    case While(cond, body) => CondSites(cond, bound, glob) + BlockSites(body, bound + CondNames(cond), glob)
    case For(pat, iter, body) =>
      Sites(iter, bound, glob) + PatSites(pat) + BlockSites(body, bound + PatNames(pat), glob)
    case Match(scrutinee, arms) => Sites(scrutinee, bound, glob) + ArmsSites(arms, bound, glob)
    case Unexpanded(_) => [Hidden]
    case Root => []
  }

  function ExprsSites(es: Exprs, bound: set<string>, glob: bool): seq<Site> {
    match es
    case ENil => []
    case ECons(e, tail) => Sites(e, bound, glob) + ExprsSites(tail, bound, glob)
  }

  function FieldsSites(fs: Fields, bound: set<string>, glob: bool): seq<Site> {
    match fs
    case FNil => []
    case FCons(_, _, e, tail) => Sites(e, bound, glob) + FieldsSites(tail, bound, glob)
  }

  function CondSites(c: Cond, bound: set<string>, glob: bool): seq<Site> {
    match c
    case CTrue => []
    case CExpr(e) => Sites(e, bound, glob)
    case CLet(p, init) => Sites(init, bound, glob) + PatSites(p)
    case CAnd(l, r) => CondSites(l, bound, glob) + CondSites(r, bound + CondNames(l), glob)
  }

  function ArmsSites(arms: Arms, bound: set<string>, glob: bool): seq<Site> {
    match arms
    case ANil => []
    case ACons(p, guard, body, tail) =>
      PatSites(p) + CondSites(guard, bound + PatNames(p), glob)
      + Sites(body, bound + PatNames(p) + CondNames(guard), glob) + ArmsSites(tail, bound, glob)
  }

  function BlockSites(ss: Stmts, bound: set<string>, glob: bool): seq<Site>
    decreases ss, 1
  {
    var items := BlockItems(ss);
    ItemsSites(items) + StmtsSites(ss, bound + ItemsNames(items), glob || ItemsGlob(items))
  }

  function StmtsSites(ss: Stmts, bound: set<string>, glob: bool): seq<Site>
    decreases ss, 0
  {
    match ss
    case SEnd => []
    case STail(e) => Sites(e, bound, glob)
    case SExpr(e, rest) => Sites(e, bound, glob) + StmtsSites(rest, bound, glob)
    case SLet(p, init, rest) => Sites(init, bound, glob) + PatSites(p) + StmtsSites(rest, bound + PatNames(p), glob)
    case SLetElse(p, init, diverge, rest) =>
      Sites(init, bound, glob) + Sites(diverge, bound, glob) + PatSites(p) + StmtsSites(rest, bound + PatNames(p), glob)
    case SItem(_, rest) => StmtsSites(rest, bound, glob)
    case SMacro(rest) => [Hidden] + StmtsSites(rest, bound, glob)
  }

  // ----- free variables -----

  function Free(e: Expr): set<string> {
    match e
    case Path(x) => {x}
    case Qualified(_, _) => {}
    case Node(_, args) => FreeExprs(args)
    case Struct(_, _, fields) => FreeFields(fields)
    case Ascribed(inner, _) => Free(inner)
    case Call(args) => FreeExprs(args)
    case Closure(params, body) => Free(body) - PatsNames(params)
    case Block(stmts) => FreeBlock(stmts)
    case If(cond, yes, no) => FreeCond(cond) + (FreeBlock(yes) - CondNames(cond)) + Free(no)
    case While(cond, body) => FreeCond(cond) + (FreeBlock(body) - CondNames(cond))
    case For(pat, iter, body) => Free(iter) + (FreeBlock(body) - PatNames(pat))
    case Match(scrutinee, arms) => Free(scrutinee) + FreeArms(arms)
    case Unexpanded(_) => {}
    case Root => {}
  }

  function FreeExprs(es: Exprs): set<string> {
    match es case ENil => {} case ECons(e, tail) => Free(e) + FreeExprs(tail)
  }

  function FreeFields(fs: Fields): set<string> {
    match fs case FNil => {} case FCons(_, _, e, tail) => Free(e) + FreeFields(tail)
  }

  function FreeCond(c: Cond): set<string> {
    match c
    case CTrue => {}
    case CExpr(e) => Free(e)
    case CLet(_, init) => Free(init)
    case CAnd(l, r) => FreeCond(l) + (FreeCond(r) - CondNames(l))
  }

  function FreeArms(arms: Arms): set<string> {
    match arms
    case ANil => {}
    case ACons(p, guard, body, tail) =>
      ((FreeCond(guard) + (Free(body) - CondNames(guard))) - PatNames(p)) + FreeArms(tail)
  }

  function FreeBlock(ss: Stmts): set<string>
    decreases ss, 1
  {
    FreeStmts(ss) - ItemsNames(BlockItems(ss))
  }

  function FreeStmts(ss: Stmts): set<string>
    decreases ss, 0
  {
    match ss
    case SEnd => {}
    case STail(e) => Free(e)
    case SExpr(e, rest) => Free(e) + FreeStmts(rest)
    case SLet(p, init, rest) => Free(init) + (FreeStmts(rest) - PatNames(p))
    case SLetElse(p, init, diverge, rest) => Free(init) + Free(diverge) + (FreeStmts(rest) - PatNames(p))
    case SItem(_, rest) => FreeStmts(rest)
    case SMacro(rest) => FreeStmts(rest)
  }

  // ----- names that must mean the same wherever the closure is put -----

  /** A name written in a body, in an item nested in it, or as the first segment of a path to a type or module. */
  datatype Mention = InBody(name: string) | InItem(name: string) | AsType(name: string)

  function Bodies(names: set<string>): (r: set<Mention>)
    ensures forall m :: m in r <==> m.InBody? && m.name in names
  {
    set x <- names :: InBody(x)
  }

  function Heads(heads: seq<string>): (r: set<Mention>)
    ensures forall m :: m in r <==> m.AsType? && m.name in heads
  {
    set i | 0 <= i < |heads| :: AsType(heads[i])
  }

  /** Mentions of a body, seen from the item it belongs to: locals are not in scope there. */
  function Demoted(ms: set<Mention>): (r: set<Mention>)
    ensures forall m :: m in r <==> match m
                                     case InBody(_) => false
                                     case InItem(x) => m in ms || InBody(x) in ms
                                     case AsType(_) => m in ms
  {
    set m <- ms :: if m.InBody? then InItem(m.name) else m
  }

  function ImportsDeclare(imports: seq<Import>): set<Mention> {
    if imports == [] then {}
    else
      var x := imports[0].name;
      (if imports[0].space.Types? then {} else {InBody(x), InItem(x)})
      + (if imports[0].space.Values? then {} else {AsType(x)}) + ImportsDeclare(imports[1..])
  }

  /** Names that an item declares, among values or among types. */
  function ItemDeclares(item: Item): set<Mention> {
    match item
    case Fn(x, _, _) => {InBody(x), InItem(x)}
    case Const(x, _) => {InBody(x), InItem(x)}
    case Type(x, _, _, _) => {AsType(x)}
    case Use(imports, _, _) => ImportsDeclare(imports)
    case _ => {}
  }

  function Declares(items: seq<Item>): set<Mention> {
    if items == [] then {} else ItemDeclares(items[0]) + Declares(items[1..])
  }

  function PatOuter(p: Pat): set<Mention> {
    match p
    case PVar(x) => {InBody(x)}
    case PAt(_, sub) => PatOuter(sub)
    case PPath(head, _) => {AsType(head)}
    case PStruct(head, _, _, elems) => {AsType(head)} + PatsOuter(elems)
    case PTuple(elems) => PatsOuter(elems)
    case POr(l, r) => PatOuter(l) + PatOuter(r)
    case _ => {}
  }

  function PatsOuter(ps: Pats): set<Mention> {
    match ps case PNil => {} case PCons(p, tail) => PatOuter(p) + PatsOuter(tail)
  }

  /** Mentions in `e` of names that `e` itself does not certainly declare. */
  function Outer(e: Expr): set<Mention> {
    match e
    case Path(x) => {InBody(x)}
    case Qualified(head, _) => {AsType(head)}
    case Node(_, args) => OuterExprs(args)
    case Struct(head, _, fields) => {AsType(head)} + OuterFields(fields)
    case Ascribed(inner, ty) => Outer(inner) + Heads(ty.heads)
    case Call(args) => OuterExprs(args)
    case Closure(params, body) => PatsOuter(params) + (Outer(body) - Bodies(PatsNames(params)))
    case Block(stmts) => OuterBlock(stmts)
    case If(cond, yes, no) => OuterCond(cond) + (OuterBlock(yes) - Bodies(CondNames(cond))) + Outer(no)
    case While(cond, body) => OuterCond(cond) + (OuterBlock(body) - Bodies(CondNames(cond)))
    case For(pat, iter, body) => Outer(iter) + PatOuter(pat) + (OuterBlock(body) - Bodies(PatNames(pat)))
    case Match(scrutinee, arms) => Outer(scrutinee) + OuterArms(arms)
    case Unexpanded(_) => {}
    case Root => {}
  }

  function OuterExprs(es: Exprs): set<Mention> {
    match es case ENil => {} case ECons(e, tail) => Outer(e) + OuterExprs(tail)
  }

  /** A shorthand field names its member. */
  function OuterFields(fs: Fields): set<Mention> {
    match fs case FNil => {} case FCons(_, _, e, tail) => Outer(e) + OuterFields(tail)
  }

  function OuterCond(c: Cond): set<Mention> {
    match c
    case CTrue => {}
    case CExpr(e) => Outer(e)
    case CLet(p, init) => Outer(init) + PatOuter(p)
    case CAnd(l, r) => OuterCond(l) + (OuterCond(r) - Bodies(CondNames(l)))
  }

  function OuterArms(arms: Arms): set<Mention> {
    match arms
    case ANil => {}
    case ACons(p, guard, body, tail) =>
      PatOuter(p) + ((OuterCond(guard) + (Outer(body) - Bodies(CondNames(guard)))) - Bodies(PatNames(p)))
      + OuterArms(tail)
  }

  function OuterBlock(ss: Stmts): set<Mention>
    decreases ss, 1
  {
    OuterStmts(ss) - Declares(BlockItems(ss))
  }

  function OuterStmts(ss: Stmts): set<Mention>
    decreases ss, 0
  {
    match ss
    case SEnd => {}
    case STail(e) => Outer(e)
    case SExpr(e, rest) => Outer(e) + OuterStmts(rest)
    case SLet(p, init, rest) => Outer(init) + PatOuter(p) + (OuterStmts(rest) - Bodies(PatNames(p)))
    case SLetElse(p, init, diverge, rest) =>
      Outer(init) + Outer(diverge) + PatOuter(p) + (OuterStmts(rest) - Bodies(PatNames(p)))
    case SItem(item, rest) => ItemOuter(item) + OuterStmts(rest)
    case SMacro(rest) => OuterStmts(rest)
  }

  /** The first segments of imported paths are looked up where items are. */
  function ImportsOuter(imports: seq<Import>): (r: set<Mention>)
    ensures forall m :: m in r ==> !m.InBody?
  {
    if imports == [] then {}
    else
      (if imports[0].rest == "" && !imports[0].space.Types? then {InItem(imports[0].head)} else {})
      + (if imports[0].rest == "" && imports[0].space.Values? then {} else {AsType(imports[0].head)})
      + ImportsOuter(imports[1..])
  }

  /** A module sees none of the names around it. */
  function ItemOuter(item: Item): (r: set<Mention>)
    ensures forall m :: m in r ==> !m.InBody?
  {
    match item
    case Fn(_, params, body) => Demoted(PatsOuter(params) + (Outer(body) - Bodies(PatsNames(params))))
    case Type(_, _, kind, members) => if kind.Mod? then {} else MembersOuter(members)
    case Use(imports, glob, _) => ImportsOuter(imports) + (if glob.Some? then {AsType(glob.value.head)} else {})
    case _ => {}
  }

  function MembersOuter(ms: Members): (r: set<Mention>)
    ensures forall m :: m in r ==> !m.InBody?
  {
    match ms
    case MNil => {}
    case MFn(_, params, body, tail) =>
      Demoted(PatsOuter(params) + (Outer(body) - Bodies(PatsNames(params)))) + MembersOuter(tail)
    case MConst(_, _, tail) => MembersOuter(tail)
  }

  // ----- what the items of a block define -----

  /** A path as it is looked up: one segment among values, or several under a type or module. */
  datatype Name = One(name: string) | Under(name: string, rest: string)

  /** `Isolated` code sees the other members of its module only. */
  datatype Def = Number(n: int) | Code(params: Pats, body: Expr) | Isolated(params: Pats, body: Expr, siblings: Members)

  function MemberDefinition(ms: Members, member: string, mod: Option<Members>): Option<Def> {
    match ms
    case MNil => None
    case MFn(x, params, body, tail) =>
      if x != member then MemberDefinition(tail, member, mod)
      else Some(if mod.Some? then Isolated(params, body, mod.value) else Code(params, body))
    case MConst(x, n, tail) => if x != member then MemberDefinition(tail, member, mod) else Some(Number(n))
  }

  /**
   What `item` defines `w` to be: None when it does not declare the first
   segment, `Some(None)` when it has no such member.
   */
  function ItemDefinition(item: Item, w: Name): Option<Option<Def>> {
    match item
    case Fn(x, params, body) => if w == One(x) then Some(Some(Code(params, body))) else None
    case Const(x, n) => if w == One(x) then Some(Some(Number(n))) else None
    case Type(x, id, kind, members) =>
      if !w.Under? || w.name != x then None
      else if w.rest == "" then Some(Some(Number(id)))
      else Some(MemberDefinition(members, w.rest, if kind.Mod? then Some(members) else None))
    case _ => None
  }

  /** What the first item that declares `w` defines it to be; imports are not definitions. */
  function Defined(items: seq<Item>, w: Name): Option<Option<Def>> {
    if items == [] then None
    else if ItemDefinition(items[0], w).Some? then ItemDefinition(items[0], w)
    else Defined(items[1..], w)
  }

  predicate Binds(imp: Import, w: Name) {
    imp.name == w.name && if w.One? then !imp.space.Types? else !imp.space.Values?
  }

  function LeafFor(imports: seq<Import>, w: Name): Option<Import> {
    if imports == [] then None
    else if Binds(imports[0], w) then Some(imports[0])
    else LeafFor(imports[1..], w)
  }

  /** The first import that binds the first segment of `w`. */
  function ImportFor(items: seq<Item>, w: Name): Option<Import> {
    if items == [] then None
    else if items[0].Use? && LeafFor(items[0].imports, w).Some? then LeafFor(items[0].imports, w)
    else ImportFor(items[1..], w)
  }

  /** How many imports may lead to each other. */
  function Leaves(items: seq<Item>): nat {
    if items == [] then 0 else (if items[0].Use? then |items[0].imports| else 0) + Leaves(items[1..])
  }

  function Join(rest: string, more: string): string {
    if rest == "" then more else rest + "::" + more
  }

  /** What `w` means through an import of its first segment. */
  function Redirect(imp: Import, w: Name): Name {
    match w
    case One(_) => if imp.rest == "" then One(imp.head) else Under(imp.head, imp.rest)
    case Under(_, rest) => Under(imp.head, Join(imp.rest, rest))
  }

  /** What `w` means through a glob import. */
  function FromGlob(glob: Glob, w: Name): Name {
    Under(glob.head, match w case One(x) => Join(glob.rest, x) case Under(x, rest) => Join(Join(glob.rest, x), rest))
  }

  /** What must exist for a glob import to bind the first segment of `w`: a value, or else a type or module. */
  function Base(w: Name): Name {
    if w.One? then w else Under(w.name, "")
  }

  // ----- macro invocations -----

  /** Whether a macro is invoked anywhere in `e`, items included. */
  predicate Invokes(e: Expr) {
    match e
    case Path(_) => false
    case Qualified(_, _) => false
    case Node(_, args) => ExprsInvoke(args)
    case Struct(_, _, fields) => FieldsInvoke(fields)
    case Ascribed(inner, ty) => Invokes(inner) || ty.invokes
    case Call(args) => ExprsInvoke(args)
    case Closure(params, body) => PatsHidden(params) || Invokes(body)
    case Block(stmts) => StmtsInvoke(stmts)
    case If(cond, yes, no) => CondInvokes(cond) || StmtsInvoke(yes) || Invokes(no)
    case While(cond, body) => CondInvokes(cond) || StmtsInvoke(body)
    case For(pat, iter, body) => PatHidden(pat) || Invokes(iter) || StmtsInvoke(body)
    case Match(scrutinee, arms) => Invokes(scrutinee) || ArmsInvoke(arms)
    case Unexpanded(invocation) => invocation
    case Root => false
  }

  predicate ExprsInvoke(es: Exprs) {
    match es case ENil => false case ECons(e, tail) => Invokes(e) || ExprsInvoke(tail)
  }

  predicate FieldsInvoke(fs: Fields) {
    match fs case FNil => false case FCons(_, _, e, tail) => Invokes(e) || FieldsInvoke(tail)
  }

  predicate CondInvokes(c: Cond) {
    match c
    case CTrue => false
    case CExpr(e) => Invokes(e)
    case CLet(p, init) => PatHidden(p) || Invokes(init)
    case CAnd(l, r) => CondInvokes(l) || CondInvokes(r)
  }

  predicate ArmsInvoke(arms: Arms) {
    match arms
    case ANil => false
    case ACons(p, guard, body, tail) => PatHidden(p) || CondInvokes(guard) || Invokes(body) || ArmsInvoke(tail)
  }

  predicate StmtsInvoke(ss: Stmts) {
    match ss
    case SEnd => false
    case STail(e) => Invokes(e)
    case SExpr(e, rest) => Invokes(e) || StmtsInvoke(rest)
    case SLet(p, init, rest) => PatHidden(p) || Invokes(init) || StmtsInvoke(rest)
    case SLetElse(p, init, diverge, rest) => PatHidden(p) || Invokes(init) || Invokes(diverge) || StmtsInvoke(rest)
    case SItem(item, rest) => ItemInvokes(item) || StmtsInvoke(rest)
    case SMacro(_) => true
  }

  predicate ItemInvokes(item: Item) {
    match item
    case Fn(_, params, body) => PatsHidden(params) || Invokes(body)
    case Type(_, _, _, members) => MembersInvoke(members)
    case ItemMacro => true
    case _ => false
  }

  predicate MembersInvoke(ms: Members) {
    match ms
    case MNil => false
    case MFn(_, params, body, tail) => PatsHidden(params) || Invokes(body) || MembersInvoke(tail)
    case MConst(_, _, tail) => MembersInvoke(tail)
  }

  // ----- replacing captured names by fields of the capture tuple -----

  function IndexOf(caps: seq<Capture>, x: string): (i: Option<nat>)
    ensures i.Some? ==> i.value < |caps| && caps[i.value].name == x
    ensures i.Some? ==> forall k :: 0 <= k < i.value ==> caps[k].name != x
    ensures i.None? ==> forall k :: 0 <= k < |caps| ==> caps[k].name != x
  {
    if caps == [] then None
    else if caps[0].name == x then Some(0)
    else match IndexOf(caps[1..], x) case None => None case Some(i) => Some(i + 1)
  }

  /** Field `i` of the capture tuple. */
  function Field(i: nat): Expr {
    Node(Index(i), ECons(Root, ENil))
  }

  function Subst(e: Expr, bound: set<string>, caps: seq<Capture>): Expr
    decreases e, 1
  {
    match e
    case Path(x) =>
      if x in bound then e else (match IndexOf(caps, x) case None => e case Some(i) => Field(i))
    case Qualified(_, _) => e
    case Node(op, args) => Node(op, ExprsSubst(args, bound, caps))
    case Struct(head, rest, fields) => Struct(head, rest, FieldsSubst(fields, bound, caps))
    case Ascribed(inner, ty) => Ascribed(Subst(inner, bound, caps), ty)
    case Call(args) => Call(ExprsSubst(args, bound, caps))
    case Closure(params, body) => Closure(params, Subst(body, bound + PatsNames(params), caps))
    case Block(stmts) => Block(BlockSubst(stmts, bound, caps))
    case If(cond, yes, no) =>
      If(CondSubst(cond, bound, caps), BlockSubst(yes, bound + CondNames(cond), caps), Subst(no, bound, caps))
    case While(cond, body) => While(CondSubst(cond, bound, caps), BlockSubst(body, bound + CondNames(cond), caps))
    case For(pat, iter, body) => For(pat, Subst(iter, bound, caps), BlockSubst(body, bound + PatNames(pat), caps))
    case Match(scrutinee, arms) => Match(Subst(scrutinee, bound, caps), ArmsSubst(arms, bound, caps))
    case Unexpanded(_) => e
    case Root => e
  }

  function ExprsSubst(es: Exprs, bound: set<string>, caps: seq<Capture>): Exprs {
    match es
    case ENil => ENil
    case ECons(e, tail) => ECons(Subst(e, bound, caps), ExprsSubst(tail, bound, caps))
  }

  /** A shorthand field whose expression changes must be spelled out. */
  function FieldsSubst(fs: Fields, bound: set<string>, caps: seq<Capture>): Fields {
    match fs
    case FNil => FNil
    case FCons(member, colon, e, tail) =>
      var e' := Subst(e, bound, caps);
      FCons(member, colon || e' != e, e', FieldsSubst(tail, bound, caps))
  }

  function CondSubst(c: Cond, bound: set<string>, caps: seq<Capture>): Cond {
    match c
    case CTrue => c
    case CExpr(e) => CExpr(Subst(e, bound, caps))
    case CLet(p, init) => CLet(p, Subst(init, bound, caps))
    case CAnd(l, r) => CAnd(CondSubst(l, bound, caps), CondSubst(r, bound + CondNames(l), caps))
  }

  function ArmsSubst(arms: Arms, bound: set<string>, caps: seq<Capture>): Arms {
    match arms
    case ANil => ANil
    case ACons(p, guard, body, tail) =>
      ACons(p, CondSubst(guard, bound + PatNames(p), caps),
            Subst(body, bound + PatNames(p) + CondNames(guard), caps), ArmsSubst(tail, bound, caps))
  }

  function BlockSubst(ss: Stmts, bound: set<string>, caps: seq<Capture>): Stmts
    decreases ss, 1
  {
    StmtsSubst(ss, bound + ItemsNames(BlockItems(ss)), caps)
  }

  function StmtsSubst(ss: Stmts, bound: set<string>, caps: seq<Capture>): Stmts
    decreases ss, 0
  {
    match ss
    case SEnd => SEnd
    case STail(e) => STail(Subst(e, bound, caps))
    case SExpr(e, rest) => SExpr(Subst(e, bound, caps), StmtsSubst(rest, bound, caps))
    case SLet(p, init, rest) => SLet(p, Subst(init, bound, caps), StmtsSubst(rest, bound + PatNames(p), caps))
    case SLetElse(p, init, diverge, rest) =>
      SLetElse(p, Subst(init, bound, caps), Subst(diverge, bound, caps), StmtsSubst(rest, bound + PatNames(p), caps))
    case SItem(item, rest) => SItem(item, StmtsSubst(rest, bound, caps))
    case SMacro(rest) => SMacro(StmtsSubst(rest, bound, caps))
  }

  // ----- what the parser guarantees -----

  /** Shorthand fields repeat their member, and the hygienic root is not authored. */
  predicate Parsed(e: Expr) {
    match e
    case Path(_) => true
    case Qualified(_, _) => true
    case Node(_, args) => ExprsParsed(args)
    case Struct(_, _, fields) => FieldsParsed(fields)
    case Ascribed(inner, _) => Parsed(inner)
    case Call(args) => ExprsParsed(args)
    case Closure(_, body) => Parsed(body)
    case Block(stmts) => StmtsParsed(stmts)
    case If(cond, yes, no) => CondParsed(cond) && StmtsParsed(yes) && Parsed(no)
    case While(cond, body) => CondParsed(cond) && StmtsParsed(body)
    case For(_, iter, body) => Parsed(iter) && StmtsParsed(body)
    case Match(scrutinee, arms) => Parsed(scrutinee) && ArmsParsed(arms)
    case Unexpanded(_) => true
    case Root => false
  }

  predicate ExprsParsed(es: Exprs) {
    match es
    case ENil => true
    case ECons(e, tail) => Parsed(e) && ExprsParsed(tail)
  }

  predicate FieldsParsed(fs: Fields) {
    match fs
    case FNil => true
    case FCons(member, colon, e, tail) => (colon || e == Path(member)) && Parsed(e) && FieldsParsed(tail)
  }

  predicate CondParsed(c: Cond) {
    match c
    case CTrue => true
    case CExpr(e) => Parsed(e)
    case CLet(_, init) => Parsed(init)
    case CAnd(l, r) => CondParsed(l) && CondParsed(r)
  }

  predicate ArmsParsed(arms: Arms) {
    match arms
    case ANil => true
    case ACons(_, guard, body, tail) => CondParsed(guard) && Parsed(body) && ArmsParsed(tail)
  }

  predicate StmtsParsed(ss: Stmts) {
    match ss
    case SEnd => true
    case STail(e) => Parsed(e)
    case SExpr(e, rest) => Parsed(e) && StmtsParsed(rest)
    case SLet(_, init, rest) => Parsed(init) && StmtsParsed(rest)
    case SLetElse(_, init, diverge, rest) => Parsed(init) && Parsed(diverge) && StmtsParsed(rest)
    case SItem(item, rest) => ItemParsed(item) && StmtsParsed(rest)
    case SMacro(rest) => StmtsParsed(rest)
  }

  predicate ItemParsed(item: Item) {
    match item
    case Fn(_, _, body) => Parsed(body)
    case Type(_, _, _, members) => MembersParsed(members)
    case _ => true
  }

  predicate MembersParsed(ms: Members) {
    match ms
    case MNil => true
    case MFn(_, _, body, tail) => Parsed(body) && MembersParsed(tail)
    case MConst(_, _, tail) => MembersParsed(tail)
  }
}
