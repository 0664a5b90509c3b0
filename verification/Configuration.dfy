/**
 Staged selection of conditional statements.

 The first pass walks a function body and emits one helper field per `cfg`
 predicate, each under the predicates that guard it. The compiler drops the
 fields whose attributes do not hold. The second pass repeats the walk and
 asks, predicate by predicate, whether its field survived.

 Attributes are evaluated from left to right, a `cfg_attr` being replaced in
 place by its arguments, and evaluation stops at the first `cfg` that fails.
 */
module Configuration {
  import opened Options
  import opened Sequences

  /** `Plain` is any attribute without configuration predicates the passes select on. */
  datatype Meta = Cfg(pred: string) | CfgAttr(pred: string, args: seq<Meta>) | Plain(text: string)

  datatype Expr = Verbatim(text: string) | Node(attrs: seq<Meta>, text: string, kids: Kids)

  datatype Kids = KNil | KCons(head: Kid, tail: Kids)

  /** A part of an expression; `Guarded` is a match arm or a field initializer. */
  datatype Kid = Part(expr: Expr) | Block(stmts: Stmts) | Guarded(attrs: seq<Meta>, kids: Kids)

  datatype Stmts = SNil | SCons(head: Stmt, tail: Stmts)

  /**
   `attrs` are the attributes a statement form exposes: those of a local, of an
   expression or of a macro statement. Items expose none, and have no parts
   that the passes visit.
   */
  datatype Stmt = Stmt(text: string, attrs: seq<Meta>, kids: Kids)

  // ----- direct evaluation: what the compiler does with the source -----

  /** The predicates that hold in one build. */
  type Valuation = set<string>

  predicate Holds(m: Meta, v: Valuation)
    decreases m, 1
  {
    match m
    case Cfg(p) => p in v
    case CfgAttr(p, args) => p in v ==> AllHold(args, v)
    case Plain(_) => true
  }

  predicate AllHold(ms: seq<Meta>, v: Valuation)
    decreases ms, 0
  {
    ms == [] || (Holds(ms[0], v) && AllHold(ms[1..], v))
  }

  /** Attributes that remain once every conditional one is resolved. */
  function Expand(ms: seq<Meta>, v: Valuation): seq<Meta>
    decreases ms, 0
  {
    if ms == [] then [] else ExpandOne(ms[0], v) + Expand(ms[1..], v)
  }

  function ExpandOne(m: Meta, v: Valuation): seq<Meta>
    decreases m, 1
  {
    match m
    case Cfg(_) => []
    case CfgAttr(p, args) => if p in v then Expand(args, v) else []
    case Plain(_) => [m]
  }

  function StripStmts(ss: Stmts, v: Valuation): Stmts {
    match ss
    case SNil => SNil
    case SCons(s, tail) =>
      if AllHold(s.attrs, v) then SCons(Stmt(s.text, Expand(s.attrs, v), StripKids(s.kids, v)), StripStmts(tail, v))
      else StripStmts(tail, v)
  }

  function StripKids(ks: Kids, v: Valuation): Kids {
    match ks
    case KNil => KNil
    case KCons(k, tail) =>
      if AllHold(KidAttrs(k), v) then KCons(StripKid(k, v), StripKids(tail, v)) else StripKids(tail, v)
  }

  function StripKid(k: Kid, v: Valuation): Kid {
    match k
    case Part(Verbatim(_)) => k
    case Part(Node(attrs, text, kids)) => Part(Node(Expand(attrs, v), text, StripKids(kids, v)))
    case Block(stmts) => Block(StripStmts(stmts, v))
    case Guarded(attrs, kids) => Guarded(Expand(attrs, v), StripKids(kids, v))
  }

  function KidAttrs(k: Kid): seq<Meta> {
    match k
    case Part(Verbatim(_)) => []
    case Part(Node(attrs, _, _)) => attrs
    case Block(_) => []
    case Guarded(attrs, _) => attrs
  }

  // ----- which predicates a direct evaluation reaches -----

  function Reached(ms: seq<Meta>, v: Valuation): set<string>
    decreases ms, 0
  {
    if ms == [] then {} else ReachedOne(ms[0], v) + (if Holds(ms[0], v) then Reached(ms[1..], v) else {})
  }

  function ReachedOne(m: Meta, v: Valuation): set<string>
    decreases m, 1
  {
    match m
    case Cfg(p) => {p}
    case CfgAttr(p, args) => {p} + (if p in v then Reached(args, v) else {})
    case Plain(_) => {}
  }

  function ReachedStmts(ss: Stmts, v: Valuation): set<string> {
    match ss case SNil => {} case SCons(s, tail) => ReachedStmt(s, v) + ReachedStmts(tail, v)
  }

  function ReachedStmt(s: Stmt, v: Valuation): set<string> {
    Reached(s.attrs, v) + (if AllHold(s.attrs, v) then ReachedKids(s.kids, v) else {})
  }

  function ReachedKids(ks: Kids, v: Valuation): set<string> {
    match ks case KNil => {} case KCons(k, tail) => ReachedKid(k, v) + ReachedKids(tail, v)
  }

  function ReachedKid(k: Kid, v: Valuation): set<string> {
    Reached(KidAttrs(k), v) +
    (if !AllHold(KidAttrs(k), v) then {}
     else match k
       case Part(Verbatim(_)) => {}
       case Part(Node(_, _, kids)) => ReachedKids(kids, v)
       case Block(stmts) => ReachedStmts(stmts, v)
       case Guarded(_, kids) => ReachedKids(kids, v))
  }

  // ----- selecting attributes -----

  predicate Selects(m: Meta) {
    match m
    case Cfg(_) => true
    case CfgAttr(_, args) => exists i :: 0 <= i < |args| && Selects(args[i])
    case Plain(_) => false
  }

  predicate AnySelects(ms: seq<Meta>) {
    exists i :: 0 <= i < |ms| && Selects(ms[i])
  }

  /** An attribute reduced to its configuration predicates. */
  function Gate(m: Meta): Meta
    requires Selects(m)
    decreases m, 1
  {
    match m
    case Cfg(_) => m
    case CfgAttr(p, args) => CfgAttr(p, Gates(args))
  }

  function GateOf(m: Meta): seq<Meta>
    decreases m, 2
  {
    if Selects(m) then [Gate(m)] else []
  }

  function Gates(ms: seq<Meta>): seq<Meta>
    decreases ms, 0
  {
    if ms == [] then []
    else GateOf(ms[0]) + Gates(ms[1..])
  }

  // ----- pass 1: helper fields -----

  /** A field guarded, in this order, by `gates` and then by `cfg(pred)`. */
  datatype Field = Field(gates: seq<Meta>, pred: string)

  function FieldAttrs(f: Field): seq<Meta> {
    f.gates + [Cfg(f.pred)]
  }

  /** Number of selectors; it does not depend on gates or on what is active. */
  function Selectors(ms: seq<Meta>): nat
    decreases ms, 0
  {
    if ms == [] then 0 else SelectorsOne(ms[0]) + Selectors(ms[1..])
  }

  function SelectorsOne(m: Meta): nat
    decreases m, 1
  {
    if !Selects(m) then 0
    else match m
      case Cfg(_) => 1
      case CfgAttr(_, args) => 1 + Selectors(args)
  }

  /** Fields for `ms`; each attribute guards the fields of those after it. */
  function AttrFields(ms: seq<Meta>, gates: seq<Meta>): (fields: seq<Field>)
    ensures |fields| == Selectors(ms)
    decreases ms, 0
  {
    if ms == [] then [] else OneFields(ms[0], gates) + AttrFields(ms[1..], gates + GateOf(ms[0]))
  }

  function OneFields(m: Meta, gates: seq<Meta>): (fields: seq<Field>)
    ensures |fields| == SelectorsOne(m)
    decreases m, 1
  {
    if !Selects(m) then []
    else match m
      case Cfg(p) => [Field(gates, p)]
      case CfgAttr(p, args) => [Field(gates, p)] + AttrFields(args, gates + [Cfg(p)])
  }

  function StmtsSelectors(ss: Stmts): nat {
    match ss case SNil => 0 case SCons(s, tail) => StmtSelectors(s) + StmtsSelectors(tail)
  }

  function StmtSelectors(s: Stmt): nat {
    Selectors(s.attrs) + KidsSelectors(s.kids)
  }

  function KidsSelectors(ks: Kids): nat {
    match ks case KNil => 0 case KCons(k, tail) => KidSelectors(k) + KidsSelectors(tail)
  }

  /** Conditional parts that are not statements stay with the compiler, with everything inside them. */
  function KidSelectors(k: Kid): nat {
    if AnySelects(KidAttrs(k)) then 0
    else match k
      case Part(Verbatim(_)) => 0
      case Part(Node(_, _, kids)) => KidsSelectors(kids)
      case Block(stmts) => StmtsSelectors(stmts)
      case Guarded(_, kids) => KidsSelectors(kids)
  }

  function StmtsFields(ss: Stmts, gates: seq<Meta>): (fields: seq<Field>)
    ensures |fields| == StmtsSelectors(ss)
  {
    match ss case SNil => [] case SCons(s, tail) => StmtFields(s, gates) + StmtsFields(tail, gates)
  }

  function StmtFields(s: Stmt, gates: seq<Meta>): (fields: seq<Field>)
    ensures |fields| == StmtSelectors(s)
  {
    AttrFields(s.attrs, gates) + KidsFields(s.kids, gates + Gates(s.attrs))
  }

  function KidsFields(ks: Kids, gates: seq<Meta>): (fields: seq<Field>)
    ensures |fields| == KidsSelectors(ks)
  {
    match ks case KNil => [] case KCons(k, tail) => KidFields(k, gates) + KidsFields(tail, gates)
  }

  function KidFields(k: Kid, gates: seq<Meta>): (fields: seq<Field>)
    ensures |fields| == KidSelectors(k)
  {
    if AnySelects(KidAttrs(k)) then []
    else match k
      case Part(Verbatim(_)) => []
      case Part(Node(_, _, kids)) => KidsFields(kids, gates)
      case Block(stmts) => StmtsFields(stmts, gates)
      case Guarded(_, kids) => KidsFields(kids, gates)
  }

  // ----- pass 2: the selected source -----

  /** Selector numbers whose fields survived; None while the first pass is still collecting. */
  type Active = Option<set<nat>>

  predicate On(active: Active, n: nat) {
    active.None? || n in active.value
  }

  datatype Chosen = Chosen(present: bool, output: seq<Meta>)

  function ChooseAttrs(ms: seq<Meta>, n: nat, active: Active): Chosen
    decreases ms, 0
  {
    if ms == [] then Chosen(true, [])
    else
      var first := ChooseOne(ms[0], n, active);
      var rest := ChooseAttrs(ms[1..], n + SelectorsOne(ms[0]), active);
      Chosen(first.present && rest.present, first.output + rest.output)
  }

  function ChooseOne(m: Meta, n: nat, active: Active): Chosen
    decreases m, 1
  {
    if !Selects(m) then Chosen(true, [m])
    else match m
      case Cfg(_) => Chosen(On(active, n), [])
      case CfgAttr(_, args) => if On(active, n) then ChooseAttrs(args, n + 1, active) else Chosen(true, [])
  }

  function ChooseStmts(ss: Stmts, n: nat, active: Active): Stmts {
    match ss
    case SNil => SNil
    case SCons(s, tail) =>
      var rest := ChooseStmts(tail, n + StmtSelectors(s), active);
      if ChooseAttrs(s.attrs, n, active).present then SCons(ChooseStmt(s, n, active), rest) else rest
  }

  function ChooseStmt(s: Stmt, n: nat, active: Active): Stmt {
    Stmt(s.text, ChooseAttrs(s.attrs, n, active).output, ChooseKids(s.kids, n + Selectors(s.attrs), active))
  }

  function ChooseKids(ks: Kids, n: nat, active: Active): Kids {
    match ks
    case KNil => KNil
    case KCons(k, tail) => KCons(ChooseKid(k, n, active), ChooseKids(tail, n + KidSelectors(k), active))
  }

  function ChooseKid(k: Kid, n: nat, active: Active): Kid {
    if AnySelects(KidAttrs(k)) then k
    else match k
      case Part(Verbatim(_)) => k
      case Part(Node(attrs, text, kids)) => Part(Node(attrs, text, ChooseKids(kids, n, active)))
      case Block(stmts) => Block(ChooseStmts(stmts, n, active))
      case Guarded(attrs, kids) => Guarded(attrs, ChooseKids(kids, n, active))
  }

  // ----- the walk both passes share -----

  lemma AttributesTurn(ms: seq<Meta>, i: nat, n: nat, gates: seq<Meta>, active: Active)
    requires i < |ms|
    ensures Selectors(ms[i..]) == SelectorsOne(ms[i]) + Selectors(ms[i + 1..])
    ensures AttrFields(ms[i..], gates) == OneFields(ms[i], gates) + AttrFields(ms[i + 1..], gates + GateOf(ms[i]))
    ensures var one, rest := ChooseOne(ms[i], n, active), ChooseAttrs(ms[i + 1..], n + SelectorsOne(ms[i]), active);
            ChooseAttrs(ms[i..], n, active) == Chosen(one.present && rest.present, one.output + rest.output)
  {
    assert ms[i..][0] == ms[i] && ms[i..][1..] == ms[i + 1..];
  }

  class Selection {
    var next: nat
    var fields: seq<Field>
    const active: Active
    var gates: seq<Meta>

    constructor (active: Active)
      ensures this.active == active && next == 0 && fields == [] && gates == []
    {
      this.active := active;
      next, fields, gates := 0, [], [];
    }

    method Condition(pred: string) returns (enabled: bool)
      modifies this`next, this`fields
      ensures enabled == On(active, old(next)) && next == old(next) + 1
      ensures fields == old(fields) + [Field(gates, pred)]
    {
      var name := next;
      next := next + 1;
      fields := fields + [Field(gates, pred)];
      enabled := active.None? || name in active.value;
    }

    /** Selects among attributes, and expands the selecting `cfg_attr`s in place. */
    method Attributes(ms: seq<Meta>) returns (present: bool, output: seq<Meta>)
      modifies this
      ensures Chosen(present, output) == ChooseAttrs(ms, old(next), active)
      ensures next == old(next) + Selectors(ms)
      ensures fields == old(fields) + AttrFields(ms, old(gates)) && gates == old(gates)
      decreases ms, 0
    {
      var before := |gates|;
      present, output := true, [];
      for i := 0 to |ms|
        invariant before == |old(gates)| <= |gates| && gates[..before] == old(gates)
        invariant next + Selectors(ms[i..]) == old(next) + Selectors(ms)
        invariant fields + AttrFields(ms[i..], gates) == old(fields) + AttrFields(ms, old(gates))
        invariant var rest := ChooseAttrs(ms[i..], next, active);
                  Chosen(present && rest.present, output + rest.output) == ChooseAttrs(ms, old(next), active)
      {
        ghost var f, g, o := fields, gates, output;
        AttributesTurn(ms, i, next, gates, active);
        var enabled, expanded := Attribute(ms[i]);
        present, output := present && enabled, output + expanded;
        Associates(f, OneFields(ms[i], g), AttrFields(ms[i + 1..], gates));
        Associates(o, expanded, ChooseAttrs(ms[i + 1..], next, active).output);
      }
      gates := gates[..before];
    }

    /** One turn of `Attributes`; the attribute then guards what follows. */
    method Attribute(m: Meta) returns (present: bool, output: seq<Meta>)
      modifies this
      ensures Chosen(present, output) == ChooseOne(m, old(next), active)
      ensures next == old(next) + SelectorsOne(m)
      ensures fields == old(fields) + OneFields(m, old(gates)) && gates == old(gates) + GateOf(m)
      decreases m, 1
    {
      present, output := true, [];
      if !Selects(m) {
        return true, [m];
      }
      match m {
        case Cfg(p) =>
          present := Condition(p);
        case CfgAttr(p, args) =>
          var enabled := Condition(p);
          gates := gates + [Cfg(p)];
          var innerPresent, expanded := Attributes(args);
          gates := gates[..|gates| - 1];
          if enabled {
            present, output := innerPresent, expanded;
          }
      }
      gates := gates + [Gate(m)];
    }

    method VisitStmts(ss: Stmts) returns (r: Stmts)
      modifies this
      ensures r == ChooseStmts(ss, old(next), active) && next == old(next) + StmtsSelectors(ss)
      ensures fields == old(fields) + StmtsFields(ss, old(gates)) && gates == old(gates)
      decreases ss
    {
      match ss
      case SNil => r := SNil;
      case SCons(s, tail) =>
        var present, s' := VisitStmt(s);
        var rest := VisitStmts(tail);
        r := if present then SCons(s', rest) else rest;
    }

    /** A statement that is not present is still walked, under its own gates, to keep the numbering. */
    method VisitStmt(s: Stmt) returns (present: bool, r: Stmt)
      modifies this
      ensures present == ChooseAttrs(s.attrs, old(next), active).present
      ensures r == ChooseStmt(s, old(next), active) && next == old(next) + StmtSelectors(s)
      ensures fields == old(fields) + StmtFields(s, old(gates)) && gates == old(gates)
      decreases s
    {
      var before := |gates|;
      ghost var f, g := fields, gates;
      var selected := Gates(s.attrs);
      var output;
      present, output := Attributes(s.attrs);
      gates := gates + selected;
      var kids := VisitKids(s.kids);
      r := Stmt(s.text, output, kids);
      assert fields == f + StmtFields(s, g) by {
        assert fields == f + AttrFields(s.attrs, g) + KidsFields(s.kids, g + selected);
      }
      gates := gates[..before];
      assert gates == g;
    }

    method VisitKids(ks: Kids) returns (r: Kids)
      modifies this
      ensures r == ChooseKids(ks, old(next), active) && next == old(next) + KidsSelectors(ks)
      ensures fields == old(fields) + KidsFields(ks, old(gates)) && gates == old(gates)
      decreases ks
    {
      match ks
      case KNil => r := KNil;
      case KCons(k, tail) =>
        var k' := VisitKid(k);
        var tail' := VisitKids(tail);
        r := KCons(k', tail');
    }

    method VisitKid(k: Kid) returns (r: Kid)
      modifies this
      ensures r == ChooseKid(k, old(next), active) && next == old(next) + KidSelectors(k)
      ensures fields == old(fields) + KidFields(k, old(gates)) && gates == old(gates)
      decreases k
    {
      r := k;
      if AnySelects(KidAttrs(k)) {
        return;
      }
      match k
      case Part(Verbatim(_)) =>
      case Part(Node(attrs, text, kids)) =>
        var kids' := VisitKids(kids);
        r := Part(Node(attrs, text, kids'));
      case Block(stmts) =>
        var stmts' := VisitStmts(stmts);
        r := Block(stmts');
      case Guarded(attrs, kids) =>
        var kids' := VisitKids(kids);
        r := Guarded(attrs, kids');
    }
  }

  // ----- the two stages together -----

  predicate Survives(f: Field, v: Valuation) {
    AllHold(FieldAttrs(f), v)
  }

  function Survivors(fields: seq<Field>, v: Valuation): set<nat> {
    set i: nat | i < |fields| && Survives(fields[i], v)
  }

  /** Without helper fields the source is used as it is. */
  function Selected(ss: Stmts, v: Valuation): Stmts {
    var fields := StmtsFields(ss, []);
    if fields == [] then ss else ChooseStmts(ss, 0, Some(Survivors(fields, v)))
  }

  method SelectAndResume(ss: Stmts, v: Valuation) returns (r: Stmts)
    ensures r == Selected(ss, v)
  {
    var first := new Selection(None);
    var _ := first.VisitStmts(ss);
    assert first.fields == StmtsFields(ss, []);
    if first.fields == [] {
      return ss;
    }
    var active := Survivors(first.fields, v);
    var second := new Selection(Some(active));
    r := second.VisitStmts(ss);
  }

  // ----- main results -----

  /**
   For every function body and every set of true predicates: what the compiler
   makes of the selected source is what it makes of the authored source, and
   the selected source leaves no statement's presence to the compiler.
   */
  lemma StagedSelectionIsDirect(ss: Stmts, v: Valuation)
    ensures StripStmts(Selected(ss, v), v) == StripStmts(ss, v)
    ensures Settled(Selected(ss, v))
  {
    var fields := StmtsFields(ss, []);
    if fields == [] {
      NoFieldsSettled(ss);
    } else {
      ChooseStmtsDirect(ss, [], 0, Survivors(fields, v), v);
      ChooseSettles(ss, 0, Some(Survivors(fields, v)));
    }
  }

  function Texts(ss: Stmts): seq<string> {
    match ss case SNil => [] case SCons(s, tail) => [s.text] + Texts(tail)
  }

  /** Capture analysis of the selected source sees exactly the statements the compiler keeps, in order. */
  lemma SelectedStatementsAreKept(ss: Stmts, v: Valuation)
    ensures Texts(Selected(ss, v)) == Texts(StripStmts(ss, v))
  {
    StagedSelectionIsDirect(ss, v);
    SettledKeepsStatements(Selected(ss, v), v);
  }

  /**
   Evaluating the helper fields evaluates no predicate that a direct
   evaluation of the source would not have evaluated.
   */
  lemma HelperFieldsAreSuppressed(ss: Stmts, v: Valuation)
    ensures forall f :: f in StmtsFields(ss, []) ==> Reached(FieldAttrs(f), v) <= ReachedStmts(ss, v)
  {
    StmtsFieldsSuppressed(ss, [], v);
  }

  /** From `n` on, `active` names exactly the surviving fields. */
  ghost predicate Numbered(active: set<nat>, n: nat, fields: seq<Field>, v: Valuation) {
    forall k: nat :: k < |fields| ==> (n + k in active <==> Survives(fields[k], v))
  }

  lemma {:induction false} ChooseAttrsDirect(ms: seq<Meta>, gates: seq<Meta>, n: nat, active: set<nat>, v: Valuation)
    requires AllHold(gates, v) && Numbered(active, n, AttrFields(ms, gates), v)
    ensures var c := ChooseAttrs(ms, n, Some(active));
            c.present == AllHold(ms, v) && (c.present ==> Expand(c.output, v) == Expand(ms, v))
    decreases ms, 0
  {
    if ms != [] {
      var m, rest := ms[0], ms[1..];
      NumberedAppend(active, n, OneFields(m, gates), AttrFields(rest, gates + GateOf(m)), v);
      ChooseOneDirect(m, gates, n, active, v);
      if Holds(m, v) {
        var first := ChooseOne(m, n, Some(active));
        var others := ChooseAttrs(rest, n + SelectorsOne(m), Some(active));
        assert others.present == AllHold(rest, v) &&
               (others.present ==> Expand(others.output, v) == Expand(rest, v)) by {
          OneFieldUnder(m, gates, v);
          ChooseAttrsDirect(rest, gates + GateOf(m), n + SelectorsOne(m), active, v);
        }
        AllHoldAppend(first.output, others.output, v);
      }
    }
  }

  // ----- selector numbers -----

  lemma NumberedAppend(active: set<nat>, n: nat, a: seq<Field>, b: seq<Field>, v: Valuation)
    requires Numbered(active, n, a + b, v)
    ensures Numbered(active, n, a, v) && Numbered(active, n + |a|, b, v)
  {
    forall k: nat | k < |a|
      ensures n + k in active <==> Survives(a[k], v)
    {
      assert (a + b)[k] == a[k];
    }
    forall k: nat | k < |b|
      ensures n + |a| + k in active <==> Survives(b[k], v)
    {
      assert (a + b)[|a| + k] == b[k];
    }
  }

  // ----- attribute lists -----

  lemma AllHoldAppend(a: seq<Meta>, b: seq<Meta>, v: Valuation)
    ensures AllHold(a + b, v) <==> AllHold(a, v) && AllHold(b, v)
    ensures Expand(a + b, v) == Expand(a, v) + Expand(b, v)
    ensures Reached(a + b, v) == Reached(a, v) + (if AllHold(a, v) then Reached(b, v) else {})
  {
    HoldAppend(a, b, v);
    ExpandAppend(a, b, v);
    ReachedAppend(a, b, v);
  }

  lemma {:induction false} HoldAppend(a: seq<Meta>, b: seq<Meta>, v: Valuation)
    ensures AllHold(a + b, v) <==> AllHold(a, v) && AllHold(b, v)
  {
    if a == [] {
      assert a + b == b;
    } else {
      assert (a + b)[1..] == a[1..] + b;
      HoldAppend(a[1..], b, v);
    }
  }

  lemma {:induction false} ExpandAppend(a: seq<Meta>, b: seq<Meta>, v: Valuation)
    ensures Expand(a + b, v) == Expand(a, v) + Expand(b, v)
  {
    if a == [] {
      assert a + b == b;
    } else {
      assert (a + b)[1..] == a[1..] + b;
      ExpandAppend(a[1..], b, v);
    }
  }

  lemma {:induction false} ReachedAppend(a: seq<Meta>, b: seq<Meta>, v: Valuation)
    ensures Reached(a + b, v) == Reached(a, v) + (if AllHold(a, v) then Reached(b, v) else {})
  {
    if a == [] {
      assert a + b == b;
    } else {
      assert (a + b)[1..] == a[1..] + b;
      ReachedAppend(a[1..], b, v);
    }
  }

  lemma SurvivesUnder(gates: seq<Meta>, pred: string, v: Valuation)
    ensures Survives(Field(gates, pred), v) <==> AllHold(gates, v) && pred in v
  {
    AllHoldAppend(gates, [Cfg(pred)], v);
    assert [Cfg(pred)][1..] == [];
  }

  /** A reduced attribute holds exactly when the attribute does, and reaches no other predicates. */
  lemma {:induction false} GateHolds(m: Meta, v: Valuation)
    ensures !Selects(m) ==> Holds(m, v)
    ensures Selects(m) ==> Holds(Gate(m), v) == Holds(m, v) && ReachedOne(Gate(m), v) <= ReachedOne(m, v)
    decreases m, 1
  {
    match m
    case Cfg(_) =>
    case Plain(_) =>
    case CfgAttr(_, args) =>
      GatesHold(args, v);
      if !Selects(m) {
        NothingSelects(args, v);
      }
  }

  lemma {:induction false} GateOfHolds(m: Meta, v: Valuation)
    ensures AllHold(GateOf(m), v) == Holds(m, v) && Reached(GateOf(m), v) <= ReachedOne(m, v)
    decreases m, 2
  {
    GateHolds(m, v);
    assert Selects(m) ==> GateOf(m)[1..] == [];
  }

  lemma {:induction false} GatesHold(ms: seq<Meta>, v: Valuation)
    ensures AllHold(Gates(ms), v) == AllHold(ms, v) && Reached(Gates(ms), v) <= Reached(ms, v)
    decreases ms, 0
  {
    if ms != [] {
      GateHolds(ms[0], v);
      GatesHold(ms[1..], v);
      GateOfHolds(ms[0], v);
      AllHoldAppend(GateOf(ms[0]), Gates(ms[1..]), v);
    }
  }

  lemma {:induction false} NothingSelects(ms: seq<Meta>, v: Valuation)
    requires !AnySelects(ms)
    ensures AllHold(ms, v) && Gates(ms) == [] && Selectors(ms) == 0
    decreases ms, 0
  {
    if ms != [] {
      assert !Selects(ms[0]);
      GateHolds(ms[0], v);
      assert forall i :: 0 <= i < |ms[1..]| ==> ms[1..][i] == ms[i + 1];
      NothingSelects(ms[1..], v);
    }
  }

  /** The predicates of the `cfg`s in an attribute, at any depth. */
  function Conditions(m: Meta): set<string>
    decreases m, 1
  {
    match m
    case Cfg(p) => {p}
    case CfgAttr(_, args) => AllConditions(args)
    case Plain(_) => {}
  }

  function AllConditions(ms: seq<Meta>): set<string>
    decreases ms, 0
  {
    if ms == [] then {} else Conditions(ms[0]) + AllConditions(ms[1..])
  }

  /**
   Exactly the attributes that contain a `cfg` are selected on; the others stay
   as they are and get no helper field.
   */
  lemma SelectsExactly(m: Meta, n: nat, gates: seq<Meta>, active: Active)
    ensures Selects(m) <==> Conditions(m) != {}
    ensures Conditions(m) == {} ==> ChooseOne(m, n, active) == Chosen(true, [m]) && OneFields(m, gates) == []
    ensures Conditions(m) != {} ==> OneFields(m, gates) != []
  {
    SelectsConditions(m);
  }

  lemma {:induction false} SelectsConditions(m: Meta)
    ensures Selects(m) <==> Conditions(m) != {}
    decreases m, 1
  {
    if m.CfgAttr? {
      AnySelectsConditions(m.args);
      assert AnySelects(m.args) <==> Selects(m);
    }
  }

  lemma {:induction false} AnySelectsConditions(ms: seq<Meta>)
    ensures AnySelects(ms) <==> AllConditions(ms) != {}
    decreases ms, 0
  {
    if ms != [] {
      SelectsConditions(ms[0]);
      AnySelectsConditions(ms[1..]);
      assert forall i :: 0 < i < |ms| ==> ms[i] == ms[1..][i - 1];
      assert AnySelects(ms) <==> Selects(ms[0]) || AnySelects(ms[1..]) by {
        if AnySelects(ms[1..]) {
          var i :| 0 <= i < |ms[1..]| && Selects(ms[1..][i]);
          assert Selects(ms[i + 1]);
        }
      }
    }
  }

  lemma OneFieldUnder(m: Meta, gates: seq<Meta>, v: Valuation)
    ensures AllHold(gates + GateOf(m), v) == (AllHold(gates, v) && Holds(m, v))
  {
    AllHoldAppend(gates, GateOf(m), v);
    GateOfHolds(m, v);
  }

  /** Under gates that hold, the surviving selectors decide an attribute list as direct evaluation does. */
  lemma {:induction false} ChooseOneDirect(m: Meta, gates: seq<Meta>, n: nat, active: set<nat>, v: Valuation)
    requires AllHold(gates, v) && Numbered(active, n, OneFields(m, gates), v)
    ensures var c := ChooseOne(m, n, Some(active));
            c.present == Holds(m, v) && (c.present ==> Expand(c.output, v) == ExpandOne(m, v))
    decreases m, 1
  {
    if !Selects(m) {
      GateHolds(m, v);
      assert Expand([m], v) == ExpandOne(m, v) + Expand([], v);
    } else {
      var fields := OneFields(m, gates);
      assert n + 0 in active <==> Survives(fields[0], v);
      SurvivesUnder(gates, m.pred, v);
      match m
      case Cfg(_) =>
      case CfgAttr(p, args) =>
        if p in v {
          var inner := AttrFields(args, gates + [Cfg(p)]);
          NumberedAppend(active, n, [Field(gates, p)], inner, v);
          AllHoldAppend(gates, [Cfg(p)], v);
          assert AllHold([Cfg(p)], v);
          ChooseAttrsDirect(args, gates + [Cfg(p)], n + 1, active, v);
        }
    }
  }

  lemma {:induction false} OutputSettled(ms: seq<Meta>, n: nat, active: Active)
    ensures !AnySelects(ChooseAttrs(ms, n, active).output)
    decreases ms, 0
  {
    if ms != [] {
      if Selects(ms[0]) && ms[0].CfgAttr? {
        OutputSettled(ms[0].args, n + 1, active);
      }
      OutputSettled(ms[1..], n + SelectorsOne(ms[0]), active);
    }
  }

  // ----- staged selection is direct selection -----

  lemma {:induction false} ChooseStmtsDirect(ss: Stmts, gates: seq<Meta>, n: nat, active: set<nat>, v: Valuation)
    requires AllHold(gates, v) && Numbered(active, n, StmtsFields(ss, gates), v)
    ensures StripStmts(ChooseStmts(ss, n, Some(active)), v) == StripStmts(ss, v)
    decreases ss, 0
  {
    match ss
    case SNil =>
    case SCons(s, tail) =>
      NumberedAppend(active, n, StmtFields(s, gates), StmtsFields(tail, gates), v);
      ChooseStmtsDirect(tail, gates, n + StmtSelectors(s), active, v);
      ChooseStmtDirect(s, gates, n, active, v);
  }

  lemma {:induction false} ChooseStmtDirect(s: Stmt, gates: seq<Meta>, n: nat, active: set<nat>, v: Valuation)
    requires AllHold(gates, v) && Numbered(active, n, StmtFields(s, gates), v)
    ensures var chosen := ChooseAttrs(s.attrs, n, Some(active));
            && (chosen.present <==> AllHold(s.attrs, v))
            && (chosen.present ==>
                  && AllHold(chosen.output, v) && Expand(chosen.output, v) == Expand(s.attrs, v)
                  && StripKids(ChooseStmt(s, n, Some(active)).kids, v) == StripKids(s.kids, v))
    decreases s, 0
  {
    NumberedAppend(active, n, AttrFields(s.attrs, gates), KidsFields(s.kids, gates + Gates(s.attrs)), v);
    ChooseAttrsDirect(s.attrs, gates, n, active, v);
    if AllHold(s.attrs, v) {
      GatesHold(s.attrs, v);
      AllHoldAppend(gates, Gates(s.attrs), v);
      ChooseKidsDirect(s.kids, gates + Gates(s.attrs), n + Selectors(s.attrs), active, v);
      OutputSettled(s.attrs, n, Some(active));
      NothingSelects(ChooseAttrs(s.attrs, n, Some(active)).output, v);
    }
  }

  lemma {:induction false} ChooseKidsDirect(ks: Kids, gates: seq<Meta>, n: nat, active: set<nat>, v: Valuation)
    requires AllHold(gates, v) && Numbered(active, n, KidsFields(ks, gates), v)
    ensures StripKids(ChooseKids(ks, n, Some(active)), v) == StripKids(ks, v)
    decreases ks, 0
  {
    match ks
    case KNil =>
    case KCons(k, tail) =>
      NumberedAppend(active, n, KidFields(k, gates), KidsFields(tail, gates), v);
      ChooseKidsDirect(tail, gates, n + KidSelectors(k), active, v);
      if !AnySelects(KidAttrs(k)) {
        match k
        case Part(Verbatim(_)) =>
        case Part(Node(_, _, kids)) => ChooseKidsDirect(kids, gates, n, active, v);
        case Block(stmts) => ChooseStmtsDirect(stmts, gates, n, active, v);
        case Guarded(_, kids) => ChooseKidsDirect(kids, gates, n, active, v);
      }
  }

  /** No statement the passes visit has a selecting attribute left. */
  predicate Settled(ss: Stmts) {
    match ss case SNil => true case SCons(s, tail) => !AnySelects(s.attrs) && KidsSettled(s.kids) && Settled(tail)
  }

  predicate KidsSettled(ks: Kids) {
    match ks case KNil => true case KCons(k, tail) => KidSettled(k) && KidsSettled(tail)
  }

  predicate KidSettled(k: Kid) {
    AnySelects(KidAttrs(k)) ||
    match k
    case Part(Verbatim(_)) => true
    case Part(Node(_, _, kids)) => KidsSettled(kids)
    case Block(stmts) => Settled(stmts)
    case Guarded(_, kids) => KidsSettled(kids)
  }

  lemma {:induction false} ChooseSettles(ss: Stmts, n: nat, active: Active)
    ensures Settled(ChooseStmts(ss, n, active))
  {
    match ss
    case SNil =>
    case SCons(s, tail) =>
      OutputSettled(s.attrs, n, active);
      ChooseKidsSettles(s.kids, n + Selectors(s.attrs), active);
      ChooseSettles(tail, n + StmtSelectors(s), active);
  }

  lemma {:induction false} ChooseKidsSettles(ks: Kids, n: nat, active: Active)
    ensures KidsSettled(ChooseKids(ks, n, active))
  {
    match ks
    case KNil =>
    case KCons(k, tail) =>
      ChooseKidsSettles(tail, n + KidSelectors(k), active);
      if !AnySelects(KidAttrs(k)) {
        match k
        case Part(Verbatim(_)) =>
        case Part(Node(_, _, kids)) => ChooseKidsSettles(kids, n, active);
        case Block(stmts) => ChooseSettles(stmts, n, active);
        case Guarded(_, kids) => ChooseKidsSettles(kids, n, active);
      }
  }

  lemma {:induction false} NoSelectors(ms: seq<Meta>)
    ensures Selectors(ms) == 0 <==> !AnySelects(ms)
    decreases ms, 0
  {
    if ms != [] {
      NoSelectors(ms[1..]);
      assert forall i :: 0 <= i < |ms[1..]| ==> ms[1..][i] == ms[i + 1];
      if AnySelects(ms) && !Selects(ms[0]) {
        var i :| 0 <= i < |ms| && Selects(ms[i]);
        assert Selects(ms[1..][i - 1]);
      }
    }
  }

  lemma {:induction false} NoFieldsSettled(ss: Stmts)
    requires StmtsSelectors(ss) == 0
    ensures Settled(ss)
  {
    match ss
    case SNil =>
    case SCons(s, tail) =>
      NoSelectors(s.attrs);
      NoFieldsKidsSettled(s.kids);
      NoFieldsSettled(tail);
  }

  lemma {:induction false} NoFieldsKidsSettled(ks: Kids)
    requires KidsSelectors(ks) == 0
    ensures KidsSettled(ks)
  {
    match ks
    case KNil =>
    case KCons(k, tail) =>
      NoFieldsKidsSettled(tail);
      if !AnySelects(KidAttrs(k)) {
        match k
        case Part(Verbatim(_)) =>
        case Part(Node(_, _, kids)) => NoFieldsKidsSettled(kids);
        case Block(stmts) => NoFieldsSettled(stmts);
        case Guarded(_, kids) => NoFieldsKidsSettled(kids);
      }
  }

  lemma {:induction false} SettledKeepsStatements(ss: Stmts, v: Valuation)
    requires Settled(ss)
    ensures Texts(StripStmts(ss, v)) == Texts(ss)
  {
    match ss
    case SNil =>
    case SCons(s, tail) =>
      NothingSelects(s.attrs, v);
      SettledKeepsStatements(tail, v);
  }

  // ----- suppression -----

  /** Predicates that gated code reaches. */
  ghost function Under(gates: seq<Meta>, inner: set<string>, v: Valuation): set<string> {
    Reached(gates, v) + (if AllHold(gates, v) then inner else {})
  }

  ghost predicate Suppressed(fields: seq<Field>, limit: set<string>, v: Valuation) {
    forall i :: 0 <= i < |fields| ==> Reached(FieldAttrs(fields[i]), v) <= limit
  }

  lemma UnderGates(gates: seq<Meta>, added: seq<Meta>, inner: set<string>, v: Valuation)
    ensures Under(gates + added, inner, v) == Under(gates, Under(added, inner, v), v)
  {
    AllHoldAppend(gates, added, v);
  }

  lemma {:induction false} AttrFieldsSuppressed(ms: seq<Meta>, gates: seq<Meta>, v: Valuation)
    ensures Suppressed(AttrFields(ms, gates), Under(gates, Reached(ms, v), v), v)
    decreases ms, 0
  {
    if ms != [] {
      var m, rest := ms[0], ms[1..];
      OneFieldsSuppressed(m, gates, v);
      AttrFieldsSuppressed(rest, gates + GateOf(m), v);
      UnderGates(gates, GateOf(m), Reached(rest, v), v);
      GateOfHolds(m, v);
    }
  }

  lemma {:induction false} OneFieldsSuppressed(m: Meta, gates: seq<Meta>, v: Valuation)
    ensures Suppressed(OneFields(m, gates), Under(gates, ReachedOne(m, v), v), v)
    decreases m, 1
  {
    if Selects(m) {
      var guard := [Cfg(m.pred)];
      AllHoldAppend(gates, guard, v);
      assert guard[1..] == [] && Reached(guard, v) == {m.pred};
      match m
      case Cfg(_) =>
      case CfgAttr(p, args) =>
        AttrFieldsSuppressed(args, gates + guard, v);
        UnderGates(gates, guard, Reached(args, v), v);
    }
  }

  lemma {:induction false} StmtsFieldsSuppressed(ss: Stmts, gates: seq<Meta>, v: Valuation)
    ensures Suppressed(StmtsFields(ss, gates), Under(gates, ReachedStmts(ss, v), v), v)
  {
    match ss
    case SNil =>
    case SCons(s, tail) =>
      AttrFieldsSuppressed(s.attrs, gates, v);
      var inner := gates + Gates(s.attrs);
      KidsFieldsSuppressed(s.kids, inner, v);
      UnderGates(gates, Gates(s.attrs), ReachedKids(s.kids, v), v);
      GatesHold(s.attrs, v);
      StmtsFieldsSuppressed(tail, gates, v);
  }

  lemma {:induction false} KidsFieldsSuppressed(ks: Kids, gates: seq<Meta>, v: Valuation)
    ensures Suppressed(KidsFields(ks, gates), Under(gates, ReachedKids(ks, v), v), v)
  {
    match ks
    case KNil =>
    case KCons(k, tail) =>
      KidsFieldsSuppressed(tail, gates, v);
      if !AnySelects(KidAttrs(k)) {
        NothingSelects(KidAttrs(k), v);
        match k
        case Part(Verbatim(_)) =>
        case Part(Node(_, _, kids)) => KidsFieldsSuppressed(kids, gates, v);
        case Block(stmts) => StmtsFieldsSuppressed(stmts, gates, v);
        case Guarded(_, kids) => KidsFieldsSuppressed(kids, gates, v);
      }
  }
}
