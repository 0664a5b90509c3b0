/**
 Types of bindings introduced by annotated patterns.

 The recorder walks a pattern and the written type together and carries Rust's
 default binding mode. The specification matches the pattern against a value,
 as the Rust Reference describes (Patterns, "Binding modes", with the meaning
 explicit modifiers had before the 2024 edition), and the theorem is that every
 recorded binding receives a value of exactly its recorded type.
 */
module BindingModes {
  import opened Options

  /** `OpaqueLen` is any length expression that is not built from literals, paths and operators. */
  datatype Len = LitLen(n: nat) | PathLen(name: string) | MinusLen(len: Len, n: nat) | OpaqueLen(text: string)

  datatype Type =
    | Named(text: string)
    | Tuple(elems: seq<Type>)
    | Ref(mutable: bool, elem: Type)
    | Array(elem: Type, len: Len)
    | Slice(elem: Type)
    | Paren(elem: Type)

  datatype Pat =
    | PWild
    | PRest
    | PLit(n: int)
    | PIdent(name: string, byRef: bool, mutable: bool, at: Option<Pat>)
    | PRef(mutable: bool, sub: Pat)
    | PTuple(elems: seq<Pat>)
    | PSlice(elems: seq<Pat>)
    | PParen(sub: Pat)
    | POther(names: set<string>)           // structs, alternatives, ranges: names only

  datatype Mode = Move | ByRef | ByRefMut

  /** The mode below a reference that a pattern looks through. */
  function Dereferenced(mode: Mode, mutable: bool): Mode {
    if mode.ByRef? || !mutable then ByRef else ByRefMut
  }

  function BoundType(mode: Mode, t: Type): Type {
    match mode case Move => t case ByRef => Ref(false, t) case ByRefMut => Ref(true, t)
  }

  /** Explicit modifiers override the default mode; a plain `mut` resets it. */
  function IdentMode(p: Pat, mode: Mode): Mode
    requires p.PIdent?
  {
    if p.byRef then (if p.mutable then ByRefMut else ByRef) else if p.mutable then Move else mode
  }

  predicate SliceRest(p: Pat) {
    p.PRest? || (p.PIdent? && p.at == Some(PRest))
  }

  predicate ConcreteLen(len: Len, generics: set<string>) {
    match len
    case LitLen(_) => true
    case PathLen(x) => x !in generics
    case MinusLen(inner, _) => ConcreteLen(inner, generics)
    case OpaqueLen(_) => false
  }

  // ----- what is recorded -----

  type Bindings = map<string, Option<Type>>

  function RestCount(ps: seq<Pat>): (n: nat)
    ensures n <= |ps|
  {
    if ps == [] then 0 else (if SliceRest(ps[0]) then 1 else 0) + RestCount(ps[1..])
  }

  function FirstRest(ps: seq<Pat>): (r: Option<nat>)
    ensures r.Some? ==> r.value < |ps| && ps[r.value].PRest? && forall i :: 0 <= i < r.value ==> !ps[i].PRest?
    ensures r.None? ==> forall i :: 0 <= i < |ps| ==> !ps[i].PRest?
  {
    if ps == [] then None
    else if ps[0].PRest? then Some(0)
    else match FirstRest(ps[1..]) case None => None case Some(i) => Some(i + 1)
  }

  /** Elements after a rest pattern are counted from the end. */
  function TypeIndex(patterns: nat, types: nat, rest: Option<nat>, i: nat): int {
    if rest.Some? && i > rest.value then types - (patterns - i) else i
  }

  predicate TupleFits(ps: seq<Pat>, types: nat) {
    var rest := FirstRest(ps);
    var explicit := |ps| - (if rest.Some? then 1 else 0);
    explicit <= types && (rest.None? ==> explicit == types)
  }

  /** The type of a rest binding of an array pattern with `explicit` other elements, when it can be named. */
  function ArrayRest(elem: Type, len: Len, explicit: nat, generics: set<string>): Option<Type> {
    if explicit == 0 then Some(Array(elem, len))
    else match len
      case LitLen(n) => if explicit <= n then Some(Array(elem, LitLen(n - explicit))) else None
      case _ => if ConcreteLen(len, generics) then Some(Array(elem, MinusLen(len, explicit))) else None
  }

  predicate ArrayFits(ps: seq<Pat>, len: Len) {
    var rests := RestCount(ps);
    var explicit := |ps| - rests;
    rests <= 1 && (len.LitLen? ==> explicit <= len.n && (rests == 0 ==> explicit == len.n))
  }

  function Observed(p: Pat, t: Type, mode: Mode, generics: set<string>): Bindings
    decreases p, t, 0
  {
    if t.Paren? then Observed(p, t.elem, mode, generics)
    else match p
      case PParen(sub) => Observed(sub, t, mode, generics)
      case PIdent(x, _, _, None) => map[x := Some(BoundType(IdentMode(p, mode), t))]
      case PRef(_, sub) => if t.Ref? then Observed(sub, t.elem, Move, generics) else map[]
      case PTuple(ps) =>
        (match t
         case Ref(mutable, elem) => Observed(p, elem, Dereferenced(mode, mutable), generics)
         case Tuple(ts) =>
           if TupleFits(ps, |ts|) then ObservedTuple(ps, ts, 0, mode, generics) else map[]
         case _ => map[])
      case PSlice(ps) =>
        (match t
         case Ref(mutable, elem) => Observed(p, elem, Dereferenced(mode, mutable), generics)
         case Array(elem, len) =>
           if ArrayFits(ps, len) then
             ObservedSlice(ps, elem, ArrayRest(elem, len, |ps| - RestCount(ps), generics), 0, mode, generics)
           else map[]
         case Slice(elem) =>
           if RestCount(ps) <= 1 then ObservedSlice(ps, elem, Some(t), 0, mode, generics) else map[]
         case _ => map[])
      case _ => map[]
  }

  function ObservedTuple(ps: seq<Pat>, ts: seq<Type>, i: nat, mode: Mode, generics: set<string>): Bindings
    requires i <= |ps| && TupleFits(ps, |ts|)
    decreases ps, |ps| - i
  {
    if i == |ps| then map[]
    else ObservedTuple1(ps, ts, i, mode, generics) + ObservedTuple(ps, ts, i + 1, mode, generics)
  }

  function ObservedTuple1(ps: seq<Pat>, ts: seq<Type>, i: nat, mode: Mode, generics: set<string>): Bindings
    requires i < |ps| && TupleFits(ps, |ts|)
    decreases ps, |ps| - i, 0
  {
    if ps[i].PRest? then map[]
    else Observed(ps[i], ts[TypeIndex(|ps|, |ts|, FirstRest(ps), i)], mode, generics)
  }

  function ObservedSlice(ps: seq<Pat>, elem: Type, rest: Option<Type>, i: nat, mode: Mode,
                         generics: set<string>): Bindings
    requires i <= |ps|
    decreases ps, |ps| - i
  {
    if i == |ps| then map[]
    else ObservedElement(ps[i], elem, rest, mode, generics) + ObservedSlice(ps, elem, rest, i + 1, mode, generics)
  }

  function ObservedElement(p: Pat, elem: Type, rest: Option<Type>, mode: Mode, generics: set<string>): Bindings
    decreases p, elem, 1
  {
    if !SliceRest(p) then Observed(p, elem, mode, generics)
    else if p.PIdent? && rest.Some? then map[p.name := Some(BoundType(IdentMode(p, mode), rest.value))]
    else map[]
  }

  function PatNames(p: Pat): set<string>
    decreases p, 1
  {
    match p
    case PIdent(x, _, _, at) => {x} + (match at case None => {} case Some(q) => PatNames(q))
    case PRef(_, sub) => PatNames(sub)
    case PTuple(ps) => PatsNames(ps)
    case PSlice(ps) => PatsNames(ps)
    case PParen(sub) => PatNames(sub)
    case POther(names) => names
    case _ => {}
  }

  function PatsNames(ps: seq<Pat>): set<string>
    decreases ps, 0
  {
    if ps == [] then {} else PatNames(ps[0]) + PatsNames(ps[1..])
  }

  function Unknown(names: set<string>): Bindings {
    map x | x in names :: None
  }

  lemma UnionAssociative(a: Bindings, b: Bindings, c: Bindings)
    ensures (a + b) + c == a + (b + c)
  {
  }

  class Recorder {
    var types: Bindings
    const generics: set<string>

    constructor (generics: set<string>)
      ensures this.generics == generics && types == map[]
    {
      this.generics := generics;
      types := map[];
    }

    /** A declaration shadows earlier bindings of its names; only annotated shapes get types. */
    method ObservePattern(p: Pat, annotation: Option<Type>)
      modifies this`types
      ensures types == Declared(old(types), p, annotation, generics)
    {
      types := types + Unknown(PatNames(p));
      match annotation
      case None => assert types + map[] == types;
      case Some(t) => ObserveAnnotated(p, t, Move);
    }

    method ObserveAnnotated(p: Pat, t: Type, mode: Mode)
      modifies this`types
      ensures types == old(types) + Observed(p, t, mode, generics)
      decreases p, t, 0
    {
      if t.Paren? {
        ObserveAnnotated(p, t.elem, mode);
        return;
      }
      match p
      case PParen(sub) => ObserveAnnotated(sub, t, mode);
      case PIdent(x, _, _, None) => types := types[x := Some(BoundType(IdentMode(p, mode), t))];
      case PRef(_, sub) =>
        if t.Ref? {
          ObserveAnnotated(sub, t.elem, Move);
        }
      case PTuple(ps) =>
        match t {
          case Ref(mutable, elem) => ObserveAnnotated(p, elem, Dereferenced(mode, mutable));
          case Tuple(ts) => ObserveTuple(ps, ts, mode);
          case _ =>
        }
      case PSlice(ps) =>
        match t {
          case Ref(mutable, elem) => ObserveAnnotated(p, elem, Dereferenced(mode, mutable));
          case Array(elem, len) =>
            if ArrayFits(ps, len) {
              ObserveSlice(ps, elem, ArrayRest(elem, len, |ps| - RestCount(ps), generics), mode);
            }
          case Slice(elem) =>
            if RestCount(ps) <= 1 {
              ObserveSlice(ps, elem, Some(t), mode);
            }
          case _ =>
        }
      case _ =>
    }

    method ObserveTuple(ps: seq<Pat>, ts: seq<Type>, mode: Mode)
      modifies this`types
      ensures types == old(types) +
                       (if TupleFits(ps, |ts|) then ObservedTuple(ps, ts, 0, mode, generics) else map[])
      decreases ps, 0
    {
      var rest := FirstRest(ps);
      var explicit := |ps| - (if rest.Some? then 1 else 0);
      if explicit > |ts| || (rest.None? && explicit != |ts|) {
        return;
      }
      for i := 0 to |ps|
        invariant types + ObservedTuple(ps, ts, i, mode, generics) ==
                  old(types) + ObservedTuple(ps, ts, 0, mode, generics)
      {
        ghost var before, later := types, ObservedTuple(ps, ts, i + 1, mode, generics);
        ghost var here := ObservedTuple1(ps, ts, i, mode, generics);
        if !ps[i].PRest? {
          var index := if rest.Some? && i > rest.value then |ts| - (|ps| - i) else i;
          ObserveAnnotated(ps[i], ts[index], mode);
        } else {
          assert types + map[] == types;
        }
        UnionAssociative(before, here, later);
      }
    }

    method ObserveElement(p: Pat, elem: Type, rest: Option<Type>, mode: Mode)
      modifies this`types
      ensures types == old(types) + ObservedElement(p, elem, rest, mode, generics)
      decreases p
    {
      if !SliceRest(p) {
        ObserveAnnotated(p, elem, mode);
      } else if p.PIdent? && rest.Some? {
        types := types[p.name := Some(BoundType(IdentMode(p, mode), rest.value))];
      } else {
        assert types + map[] == types;
      }
    }

    method ObserveSlice(ps: seq<Pat>, elem: Type, rest: Option<Type>, mode: Mode)
      modifies this`types
      ensures types == old(types) + ObservedSlice(ps, elem, rest, 0, mode, generics)
      decreases ps, 0
    {
      for i := 0 to |ps|
        invariant types + ObservedSlice(ps, elem, rest, i, mode, generics)
               == old(types) + ObservedSlice(ps, elem, rest, 0, mode, generics)
      {
        ghost var before, later := types, ObservedSlice(ps, elem, rest, i + 1, mode, generics);
        ghost var here := ObservedElement(ps[i], elem, rest, mode, generics);
        ObserveElement(ps[i], elem, rest, mode);
        UnionAssociative(before, here, later);
      }
    }
  }

  // ----- values and matching -----

  /** Arrays and slices are both `Arr`; `Base` is a value of a nominal type. */
  datatype Value =
    | Base(text: string, id: int)
    | Tup(elems: seq<Value>)
    | Ptr(mutable: bool, target: Value)
    | Arr(elems: seq<Value>)

  type Env = map<string, Value>

  /** Values of the constants and parameters that array lengths mention. */
  type Lengths = map<string, int>

  function EvalLen(len: Len, lengths: Lengths): int {
    match len
    case LitLen(n) => n
    case PathLen(x) => if x in lengths then lengths[x] else 0
    case MinusLen(inner, n) => EvalLen(inner, lengths) - n
    case OpaqueLen(text) => if text in lengths then lengths[text] else 0
  }

  predicate HasType(v: Value, t: Type, lengths: Lengths)
    decreases t
  {
    match t
    case Named(text) => v.Base? && v.text == text
    case Tuple(ts) => v.Tup? && |v.elems| == |ts| && forall i :: 0 <= i < |ts| ==> HasType(v.elems[i], ts[i], lengths)
    case Ref(mutable, elem) => v.Ptr? && v.mutable == mutable && HasType(v.target, elem, lengths)
    case Array(elem, len) =>
      && v.Arr? && |v.elems| == EvalLen(len, lengths)
      && forall i :: 0 <= i < |v.elems| ==> HasType(v.elems[i], elem, lengths)
    case Slice(elem) => v.Arr? && forall i :: 0 <= i < |v.elems| ==> HasType(v.elems[i], elem, lengths)
    case Paren(elem) => HasType(v, elem, lengths)
  }

  /** What an identifier pattern binds when the default binding mode is `mode`. */
  function BoundValue(p: Pat, mode: Mode, v: Value): Value
    requires p.PIdent?
  {
    if p.byRef then Ptr(p.mutable, v)
    else if p.mutable then v
    else match mode case Move => v case ByRef => Ptr(false, v) case ByRefMut => Ptr(true, v)
  }

  /** A non-reference pattern looks through a reference and updates the mode. */
  function LookThrough(mode: Mode, mutable: bool): Mode {
    match mode
    case Move => if mutable then ByRefMut else ByRef
    case ByRefMut => if mutable then ByRefMut else ByRef
    case ByRef => ByRef
  }

  /** Names may be bound once only. */
  function Join(a: Option<Env>, b: Option<Env>): Option<Env> {
    if a.Some? && b.Some? && a.value.Keys !! b.value.Keys then Some(a.value + b.value) else None
  }

  /** The bindings of `p` matched against `v`, or None when it does not match. Names in `POther` are not followed. */
  function Binds(p: Pat, v: Value, mode: Mode): Option<Env>
    decreases p, v
  {
    match p
    case PWild => Some(map[])
    case PRest => None
    case PLit(n) =>
      (match v
       case Base(_, id) => if id == n then Some(map[]) else None
       case Ptr(mutable, target) => Binds(p, target, LookThrough(mode, mutable))
       case _ => None)
    case PIdent(x, _, _, None) => Some(map[x := BoundValue(p, mode, v)])
    case PIdent(x, _, _, Some(sub)) => Join(Some(map[x := BoundValue(p, mode, v)]), Binds(sub, v, mode))
    case PRef(mutable, sub) => if v.Ptr? && v.mutable == mutable then Binds(sub, v.target, Move) else None
    case PTuple(ps) =>
      (match v
       case Ptr(mutable, target) => Binds(p, target, LookThrough(mode, mutable))
       case Tup(vs) => BindsTuple(ps, vs, mode)
       case _ => None)
    case PSlice(ps) =>
      (match v
       case Ptr(mutable, target) => Binds(p, target, LookThrough(mode, mutable))
       case Arr(vs) => BindsSlice(ps, vs, mode)
       case _ => None)
    case PParen(sub) => Binds(sub, v, mode)
    case POther(_) => Some(map[])
  }

  /** Patterns and values of the same number, in order. */
  function BindsAll(ps: seq<Pat>, vs: seq<Value>, mode: Mode): Option<Env>
    decreases ps, vs, 0
  {
    if |ps| != |vs| then None
    else if ps == [] then Some(map[])
    else Join(Binds(ps[0], vs[0], mode), BindsAll(ps[1..], vs[1..], mode))
  }

  /** A rest pattern leaves out the middle: elements before it match a prefix, those after it a suffix. */
  function BindsTuple(ps: seq<Pat>, vs: seq<Value>, mode: Mode): Option<Env>
    decreases ps, vs, 1
  {
    match FirstRest(ps)
    case None => BindsAll(ps, vs, mode)
    case Some(r) =>
      if |vs| < |ps| - 1 then None
      else Join(BindsAll(ps[..r], vs[..r], mode), BindsAll(ps[r + 1..], vs[|vs| - (|ps| - 1 - r)..], mode))
  }

  function FirstSliceRest(ps: seq<Pat>): (r: Option<nat>)
    ensures r.Some? ==> r.value < |ps| && SliceRest(ps[r.value]) && forall i :: 0 <= i < r.value ==> !SliceRest(ps[i])
    ensures r.None? ==> forall i :: 0 <= i < |ps| ==> !SliceRest(ps[i])
  {
    if ps == [] then None
    else if SliceRest(ps[0]) then Some(0)
    else match FirstSliceRest(ps[1..]) case None => None case Some(i) => Some(i + 1)
  }

  /** In a sequence the middle can be bound as a whole. */
  function BindsSlice(ps: seq<Pat>, vs: seq<Value>, mode: Mode): Option<Env>
    decreases ps, vs, 1
  {
    match FirstSliceRest(ps)
    case None => BindsAll(ps, vs, mode)
    case Some(r) =>
      if |vs| < |ps| - 1 then None
      else
        var end := |vs| - (|ps| - 1 - r);
        var middle := if ps[r].PIdent? then map[ps[r].name := BoundValue(ps[r], mode, Arr(vs[r..end]))] else map[];
        Join(Some(middle), Join(BindsAll(ps[..r], vs[..r], mode), BindsAll(ps[r + 1..], vs[end..], mode)))
  }

  // ----- soundness -----

  /** Every binding with a recorded type is bound to a value of that type. */
  ghost predicate Agrees(obs: Bindings, env: Env, lengths: Lengths) {
    forall x :: x in obs && obs[x].Some? ==> x in env && HasType(env[x], obs[x].value, lengths)
  }

  ghost predicate Within(small: Env, big: Env) {
    forall x :: x in small ==> x in big && big[x] == small[x]
  }

  lemma {:induction false} AllWithin(ps: seq<Pat>, vs: seq<Value>, mode: Mode)
    requires BindsAll(ps, vs, mode).Some?
    ensures |ps| == |vs|
    ensures forall i :: 0 <= i < |ps| ==>
              Binds(ps[i], vs[i], mode).Some? && Within(Binds(ps[i], vs[i], mode).value, BindsAll(ps, vs, mode).value)
    decreases |ps|
  {
    if ps != [] {
      AllWithin(ps[1..], vs[1..], mode);
      assert forall i :: 0 < i < |ps| ==> ps[i] == ps[1..][i - 1] && vs[i] == vs[1..][i - 1];
    }
  }

  /** Element `i` of a tuple pattern matches the value that its type index selects. */
  lemma TupleAligned(ps: seq<Pat>, vs: seq<Value>, mode: Mode, i: nat)
    requires BindsTuple(ps, vs, mode).Some? && i < |ps| && !ps[i].PRest?
    ensures TupleFits(ps, |vs|)
    ensures var k := TypeIndex(|ps|, |vs|, FirstRest(ps), i);
            && 0 <= k < |vs| && Binds(ps[i], vs[k], mode).Some?
            && Within(Binds(ps[i], vs[k], mode).value, BindsTuple(ps, vs, mode).value)
  {
    match FirstRest(ps)
    case None =>
      AllWithin(ps, vs, mode);
    case Some(r) =>
      var start := |vs| - (|ps| - 1 - r);
      assert start >= r;
      if i < r {
        ElementWithin(ps[..r], vs[..r], mode, i, ps[i], vs[i]);
      } else {
        ElementWithin(ps[r + 1..], vs[start..], mode, i - r - 1, ps[i], vs[|vs| - (|ps| - i)]);
      }
  }

  lemma ElementWithin(ps: seq<Pat>, vs: seq<Value>, mode: Mode, j: nat, p: Pat, v: Value)
    requires BindsAll(ps, vs, mode).Some? && j < |ps| && ps[j] == p && (j < |vs| ==> vs[j] == v)
    ensures Binds(p, v, mode).Some? && Within(Binds(p, v, mode).value, BindsAll(ps, vs, mode).value)
  {
    AllWithin(ps, vs, mode);
  }

  /** Element `i` of a sequence pattern matches some element, or binds the remainder. */
  lemma SliceAligned(ps: seq<Pat>, vs: seq<Value>, mode: Mode, i: nat) returns (k: nat)
    requires BindsSlice(ps, vs, mode).Some? && i < |ps|
    ensures |ps| - 1 <= |vs| && k <= |vs|
    ensures !SliceRest(ps[i]) ==>
              && k < |vs| && Binds(ps[i], vs[k], mode).Some?
              && Within(Binds(ps[i], vs[k], mode).value, BindsSlice(ps, vs, mode).value)
    ensures SliceRest(ps[i]) && ps[i].PIdent? ==>
              && k + (|vs| - (|ps| - 1)) <= |vs|
              && Within(map[ps[i].name := BoundValue(ps[i], mode, Arr(vs[k..k + (|vs| - (|ps| - 1))]))],
                        BindsSlice(ps, vs, mode).value)
  {
    match FirstSliceRest(ps)
    case None =>
      AllWithin(ps, vs, mode);
      k := i;
    case Some(r) =>
      SliceParts(ps, vs, mode, r);
      var end := |vs| - (|ps| - 1 - r);
      if i < r {
        k := i;
        ElementWithin(ps[..r], vs[..r], mode, i, ps[i], vs[i]);
      } else if i == r {
        k := r;
      } else {
        k := |vs| - (|ps| - i);
        AfterRest(ps, vs, mode, r, i, k);
      }
  }

  lemma AfterRest(ps: seq<Pat>, vs: seq<Value>, mode: Mode, r: nat, i: nat, k: nat)
    requires BindsSlice(ps, vs, mode).Some? && FirstSliceRest(ps) == Some(r) && r < i < |ps| && k == |vs| - (|ps| - i)
    ensures !SliceRest(ps[i]) && k < |vs| && Binds(ps[i], vs[k], mode).Some?
    ensures Within(Binds(ps[i], vs[k], mode).value, BindsSlice(ps, vs, mode).value)
  {
    SliceParts(ps, vs, mode, r);
    ElementWithin(ps[r + 1..], vs[|vs| - (|ps| - 1 - r)..], mode, i - r - 1, ps[i], vs[k]);
    NotARest(ps[i], vs[k], mode);
  }

  lemma SliceParts(ps: seq<Pat>, vs: seq<Value>, mode: Mode, r: nat)
    requires BindsSlice(ps, vs, mode).Some? && FirstSliceRest(ps) == Some(r)
    ensures |ps| - 1 <= |vs|
    ensures var end := |vs| - (|ps| - 1 - r);
            var all := BindsSlice(ps, vs, mode).value;
            var head, tail := BindsAll(ps[..r], vs[..r], mode), BindsAll(ps[r + 1..], vs[end..], mode);
            && head.Some? && Within(head.value, all) && tail.Some? && Within(tail.value, all)
            && (ps[r].PIdent? ==> Within(map[ps[r].name := BoundValue(ps[r], mode, Arr(vs[r..end]))], all))
  {
  }

  lemma NotARest(p: Pat, v: Value, mode: Mode)
    requires Binds(p, v, mode).Some?
    ensures !SliceRest(p)
  {
  }

  lemma AgreesWithin(obs: Bindings, small: Env, big: Env, lengths: Lengths)
    requires Agrees(obs, small, lengths) && Within(small, big)
    ensures Agrees(obs, big, lengths)
  {
  }

  /**
   Binding-mode type soundness: whenever a pattern matches a value of the
   written type, every binding with a recorded type receives a value of it.
   */
  lemma {:induction false} RecordedTypesAreSound(p: Pat, t: Type, v: Value, mode: Mode, generics: set<string>,
                                                 lengths: Lengths)
    requires HasType(v, t, lengths) && Binds(p, v, mode).Some?
    ensures Agrees(Observed(p, t, mode, generics), Binds(p, v, mode).value, lengths)
    decreases p, t, 1
  {
    if t.Paren? {
      RecordedTypesAreSound(p, t.elem, v, mode, generics, lengths);
    } else {
      match p
      case PParen(sub) => RecordedTypesAreSound(sub, t, v, mode, generics, lengths);
      case PRef(_, sub) =>
        if t.Ref? {
          RecordedTypesAreSound(sub, t.elem, v.target, Move, generics, lengths);
        }
      case PTuple(ps) =>
        if t.Ref? {
          RecordedTypesAreSound(p, t.elem, v.target, LookThrough(mode, t.mutable), generics, lengths);
        } else if t.Tuple? && TupleFits(ps, |t.elems|) {
          TupleSound(ps, t.elems, v.elems, 0, mode, generics, lengths);
        }
      case PSlice(_) =>
        if t.Ref? {
          RecordedTypesAreSound(p, t.elem, v.target, LookThrough(mode, t.mutable), generics, lengths);
        } else {
          SequenceSound(p, t, v, mode, generics, lengths);
        }
      case _ =>
    }
  }

  /** A sequence pattern against an array or slice itself. */
  lemma {:induction false} SequenceSound(p: Pat, t: Type, v: Value, mode: Mode, generics: set<string>, lengths: Lengths)
    requires p.PSlice? && !t.Paren? && !t.Ref? && HasType(v, t, lengths) && Binds(p, v, mode).Some?
    ensures Agrees(Observed(p, t, mode, generics), Binds(p, v, mode).value, lengths)
    decreases p, t, 0
  {
    if t.Array? && ArrayFits(p.elems, t.len) {
      var rest := ArrayRest(t.elem, t.len, |p.elems| - RestCount(p.elems), generics);
      ArrayRestFits(p.elems, t, v.elems, generics, lengths);
      SliceSound(p.elems, t.elem, rest, v.elems, 0, mode, generics, lengths);
    } else if t.Slice? && RestCount(p.elems) <= 1 {
      SliceSound(p.elems, t.elem, Some(t), v.elems, 0, mode, generics, lengths);
    }
  }

  lemma {:induction false} TupleSound(ps: seq<Pat>, ts: seq<Type>, vs: seq<Value>, i: nat, mode: Mode,
                                      generics: set<string>, lengths: Lengths)
    requires |vs| == |ts| && forall k :: 0 <= k < |ts| ==> HasType(vs[k], ts[k], lengths)
    requires BindsTuple(ps, vs, mode).Some? && i <= |ps| && TupleFits(ps, |ts|)
    ensures Agrees(ObservedTuple(ps, ts, i, mode, generics), BindsTuple(ps, vs, mode).value, lengths)
    decreases ps, |ps| - i, 2
  {
    if i < |ps| {
      TupleSound(ps, ts, vs, i + 1, mode, generics, lengths);
      if !ps[i].PRest? {
        TupleAligned(ps, vs, mode, i);
        var k := TypeIndex(|ps|, |ts|, FirstRest(ps), i);
        RecordedTypesAreSound(ps[i], ts[k], vs[k], mode, generics, lengths);
        AgreesWithin(Observed(ps[i], ts[k], mode, generics), Binds(ps[i], vs[k], mode).value,
                     BindsTuple(ps, vs, mode).value, lengths);
      }
    }
  }

  /** `n` consecutive values. */
  function Span(vs: seq<Value>, from: nat, n: nat): seq<Value>
    requires from + n <= |vs|
  {
    vs[from..from + n]
  }

  /** `rest` is the type of whatever values the other patterns leave over. */
  ghost predicate RestFits(ps: seq<Pat>, rest: Option<Type>, vs: seq<Value>, lengths: Lengths) {
    RestCount(ps) == 1 && rest.Some? && 1 <= |ps| <= |vs| + 1 ==>
      var n: nat := |vs| - (|ps| - 1);
      forall from: nat :: from + n <= |vs| ==> HasType(Arr(Span(vs, from, n)), rest.value, lengths)
  }

  lemma RestCounted(ps: seq<Pat>, i: nat)
    requires i < |ps| && SliceRest(ps[i])
    ensures RestCount(ps) >= 1
  {
    if i > 0 {
      RestCounted(ps[1..], i - 1);
    }
  }

  lemma ArrayRestFits(ps: seq<Pat>, t: Type, vs: seq<Value>, generics: set<string>, lengths: Lengths)
    requires t.Array? && HasType(Arr(vs), t, lengths)
    ensures RestFits(ps, ArrayRest(t.elem, t.len, |ps| - RestCount(ps), generics), vs, lengths)
  {
  }

  lemma {:induction false} SliceSound(ps: seq<Pat>, elem: Type, rest: Option<Type>, vs: seq<Value>, i: nat, mode: Mode,
                                      generics: set<string>, lengths: Lengths)
    requires forall k :: 0 <= k < |vs| ==> HasType(vs[k], elem, lengths)
    requires BindsSlice(ps, vs, mode).Some? && i <= |ps|
    requires RestCount(ps) <= 1 && RestFits(ps, rest, vs, lengths)
    ensures Agrees(ObservedSlice(ps, elem, rest, i, mode, generics), BindsSlice(ps, vs, mode).value, lengths)
    decreases ps, |ps| - i, 2
  {
    if i < |ps| {
      SliceSound(ps, elem, rest, vs, i + 1, mode, generics, lengths);
      ElementSound(ps, elem, rest, vs, i, mode, generics, lengths);
    }
  }

  lemma {:induction false} ElementSound(ps: seq<Pat>, elem: Type, rest: Option<Type>, vs: seq<Value>, i: nat,
                                        mode: Mode,
                                        generics: set<string>, lengths: Lengths)
    requires forall k :: 0 <= k < |vs| ==> HasType(vs[k], elem, lengths)
    requires BindsSlice(ps, vs, mode).Some? && i < |ps|
    requires RestCount(ps) <= 1 && RestFits(ps, rest, vs, lengths)
    ensures Agrees(ObservedElement(ps[i], elem, rest, mode, generics), BindsSlice(ps, vs, mode).value, lengths)
    decreases ps, |ps| - i, 1
  {
    var here, bound := ObservedElement(ps[i], elem, rest, mode, generics), BindsSlice(ps, vs, mode).value;
    var k := SliceAligned(ps, vs, mode, i);
    if !SliceRest(ps[i]) {
      assert Agrees(here, bound, lengths) by {
        RecordedTypesAreSound(ps[i], elem, vs[k], mode, generics, lengths);
        AgreesWithin(here, Binds(ps[i], vs[k], mode).value, bound, lengths);
      }
    } else if ps[i].PIdent? && rest.Some? {
      RestCounted(ps, i);
      var middle := Arr(Span(vs, k, |vs| - (|ps| - 1)));
      assert HasType(middle, rest.value, lengths);
      assert HasType(BoundValue(ps[i], mode, middle), BoundType(IdentMode(ps[i], mode), rest.value), lengths);
    }
  }

  lemma {:induction false} ObservedNames(p: Pat, t: Type, mode: Mode, generics: set<string>)
    ensures Observed(p, t, mode, generics).Keys <= PatNames(p)
    decreases p, t, 1
  {
    if t.Paren? {
      ObservedNames(p, t.elem, mode, generics);
    } else {
      match p
      case PParen(sub) => ObservedNames(sub, t, mode, generics);
      case PRef(_, sub) => if t.Ref? { ObservedNames(sub, t.elem, Move, generics); }
      case PTuple(ps) =>
        if t.Ref? {
          ObservedNames(p, t.elem, Dereferenced(mode, t.mutable), generics);
        } else if t.Tuple? && TupleFits(ps, |t.elems|) {
          forall i | 0 <= i < |ps| && !ps[i].PRest?
            ensures ObservedTuple1(ps, t.elems, i, mode, generics).Keys <= PatsNames(ps)
          {
            ObservedNames(ps[i], t.elems[TypeIndex(|ps|, |t.elems|, FirstRest(ps), i)], mode, generics);
            NamesOfElement(ps, i);
          }
          TupleNames(ps, t.elems, 0, mode, generics);
        }
      case PSlice(ps) =>
        if t.Ref? {
          ObservedNames(p, t.elem, Dereferenced(mode, t.mutable), generics);
        } else if t.Array? || t.Slice? {
          forall i | 0 <= i < |ps|
            ensures PatNames(ps[i]) <= PatsNames(ps)
            ensures Observed(ps[i], t.elem, mode, generics).Keys <= PatNames(ps[i])
          {
            ObservedNames(ps[i], t.elem, mode, generics);
            NamesOfElement(ps, i);
          }
          SliceNames(ps, t.elem, if t.Slice? then Some(t) else ArrayRest(t.elem, t.len, |ps| - RestCount(ps), generics),
                     0, mode, generics);
        }
      case _ =>
    }
  }

  lemma NamesOfElement(ps: seq<Pat>, i: nat)
    requires i < |ps|
    ensures PatNames(ps[i]) <= PatsNames(ps)
  {
    if i > 0 {
      NamesOfElement(ps[1..], i - 1);
    }
  }

  lemma {:induction false} TupleNames(ps: seq<Pat>, ts: seq<Type>, i: nat, mode: Mode, generics: set<string>)
    requires i <= |ps| && TupleFits(ps, |ts|)
    requires forall k :: 0 <= k < |ps| && !ps[k].PRest? ==>
               ObservedTuple1(ps, ts, k, mode, generics).Keys <= PatsNames(ps)
    ensures ObservedTuple(ps, ts, i, mode, generics).Keys <= PatsNames(ps)
    decreases |ps| - i
  {
    if i < |ps| {
      TupleNames(ps, ts, i + 1, mode, generics);
    }
  }

  lemma {:induction false} SliceNames(ps: seq<Pat>, elem: Type, rest: Option<Type>, i: nat, mode: Mode,
                                      generics: set<string>)
    requires i <= |ps| && forall k :: 0 <= k < |ps| ==> PatNames(ps[k]) <= PatsNames(ps)
    requires forall k :: 0 <= k < |ps| ==> Observed(ps[k], elem, mode, generics).Keys <= PatNames(ps[k])
    ensures ObservedSlice(ps, elem, rest, i, mode, generics).Keys <= PatsNames(ps)
    decreases |ps| - i
  {
    if i < |ps| {
      SliceNames(ps, elem, rest, i + 1, mode, generics);
      assert ObservedElement(ps[i], elem, rest, mode, generics).Keys <= PatNames(ps[i]) by {
        assert ps[i].PIdent? ==> ps[i].name in PatNames(ps[i]);
      }
    }
  }

  /** A match binds no names but the pattern's. */
  lemma {:induction false} BoundNames(p: Pat, v: Value, mode: Mode)
    requires Binds(p, v, mode).Some?
    ensures Binds(p, v, mode).value.Keys <= PatNames(p)
    decreases p, v
  {
    match p
    case PLit(_) => if v.Ptr? { BoundNames(p, v.target, LookThrough(mode, v.mutable)); }
    case PIdent(_, _, _, at) => if at.Some? { BoundNames(at.value, v, mode); }
    case PRef(_, sub) => BoundNames(sub, v.target, Move);
    case PTuple(ps) =>
      if v.Ptr? {
        BoundNames(p, v.target, LookThrough(mode, v.mutable));
      } else {
        match FirstRest(ps)
        case None => AllBoundNames(ps, v.elems, mode);
        case Some(r) =>
          AllBoundNames(ps[..r], v.elems[..r], mode);
          AllBoundNames(ps[r + 1..], v.elems[|v.elems| - (|ps| - 1 - r)..], mode);
          NamesAround(ps, r);
      }
    case PSlice(ps) =>
      if v.Ptr? {
        BoundNames(p, v.target, LookThrough(mode, v.mutable));
      } else {
        match FirstSliceRest(ps)
        case None => AllBoundNames(ps, v.elems, mode);
        case Some(r) =>
          AllBoundNames(ps[..r], v.elems[..r], mode);
          AllBoundNames(ps[r + 1..], v.elems[|v.elems| - (|ps| - 1 - r)..], mode);
          NamesAround(ps, r);
      }
    case PParen(sub) => BoundNames(sub, v, mode);
    case _ =>
  }

  lemma {:induction false} AllBoundNames(ps: seq<Pat>, vs: seq<Value>, mode: Mode)
    requires BindsAll(ps, vs, mode).Some?
    ensures BindsAll(ps, vs, mode).value.Keys <= PatsNames(ps)
    decreases ps, vs
  {
    if ps != [] {
      BoundNames(ps[0], vs[0], mode);
      AllBoundNames(ps[1..], vs[1..], mode);
    }
  }

  lemma {:induction false} NamesAround(ps: seq<Pat>, r: nat)
    requires r < |ps|
    ensures PatsNames(ps[..r]) <= PatsNames(ps) && PatsNames(ps[r + 1..]) <= PatsNames(ps)
    ensures PatNames(ps[r]) <= PatsNames(ps)
  {
    NamesOfElement(ps, r);
    NamesOfPart(ps, 0, r);
    NamesOfPart(ps, r + 1, |ps|);
    assert ps[r + 1..|ps|] == ps[r + 1..];
  }

  lemma {:induction false} NamesOfPart(ps: seq<Pat>, lo: nat, hi: nat)
    requires lo <= hi <= |ps|
    ensures PatsNames(ps[lo..hi]) <= PatsNames(ps)
    decreases hi - lo
  {
    if lo < hi {
      NamesOfElement(ps, lo);
      assert ps[lo..hi][1..] == ps[lo + 1..hi];
      NamesOfPart(ps, lo + 1, hi);
    }
  }

  // ----- completeness -----

  /** Whether element `i` of a tuple pattern and element `k` of a tuple of `n` stand for each other. */
  predicate Aligned(ps: seq<Pat>, n: nat, i: nat, k: nat)
    requires i < |ps|
  {
    && !ps[i].PRest? && k < n
    && (if RestBefore(ps, |ps|) then |ps| - 1 <= n else |ps| == n)
    && (if RestBefore(ps, i) then n - k == |ps| - i else k == i)
  }

  predicate RestBefore(ps: seq<Pat>, n: nat)
    requires n <= |ps|
  {
    exists j :: 0 <= j < n && ps[j].PRest?
  }

  predicate HasRest(ps: seq<Pat>) {
    exists i :: 0 <= i < |ps| && SliceRest(ps[i])
  }

  predicate OneRestAtMost(ps: seq<Pat>) {
    forall i, j :: 0 <= i < j < |ps| ==> !(SliceRest(ps[i]) && SliceRest(ps[j]))
  }

  /** How many elements of a sequence pattern match one element each. */
  function Singles(ps: seq<Pat>): int {
    |ps| - (if HasRest(ps) then 1 else 0)
  }

  /** A sequence pattern fits a sequence of the written length, as far as it shows. */
  predicate Long(ps: seq<Pat>, len: Len) {
    OneRestAtMost(ps) && (len.LitLen? ==> if HasRest(ps) then Singles(ps) <= len.n else |ps| == len.n)
  }

  function Mentioned(len: Len): set<string> {
    match len case PathLen(x) => {x} case MinusLen(inner, _) => Mentioned(inner) case _ => {}
  }

  predicate IsOpaque(len: Len) {
    match len case OpaqueLen(_) => true case MinusLen(inner, _) => IsOpaque(inner) case _ => false
  }

  /** The length that remains can be written: nothing is subtracted, or nothing generic or opaque is in it. */
  predicate Nameable(ps: seq<Pat>, len: Len, generics: set<string>) {
    Singles(ps) == 0 || (Mentioned(len) !! generics && !IsOpaque(len))
  }

  /**
   The written type shows what `x` is bound to: some binding of `x` without a
   subpattern stands, through references, where the type has an element for
   it, or binds a remainder whose length can be written.
   */
  predicate Determined(p: Pat, t: Type, x: string, generics: set<string>)
    decreases p, t
  {
    if t.Paren? then Determined(p, t.elem, x, generics)
    else match p
      case PParen(sub) => Determined(sub, t, x, generics)
      case PIdent(y, _, _, at) => y == x && at.None?
      case PRef(_, sub) => t.Ref? && Determined(sub, t.elem, x, generics)
      case PTuple(ps) =>
        (match t
         case Ref(_, elem) => Determined(p, elem, x, generics)
         case Tuple(ts) => ElementDetermines(ps, ts, x, generics)
         case _ => false)
      case PSlice(ps) =>
        (match t
         case Ref(_, elem) => Determined(p, elem, x, generics)
         case Array(elem, len) =>
           && Long(ps, len)
           && (exists i :: 0 <= i < |ps| &&
                 if SliceRest(ps[i]) then ps[i].PIdent? && ps[i].name == x && Nameable(ps, len, generics)
                 else Determined(ps[i], elem, x, generics))
         case Slice(elem) =>
           && OneRestAtMost(ps)
           && (exists i :: 0 <= i < |ps| &&
                 if SliceRest(ps[i]) then ps[i].PIdent? && ps[i].name == x else Determined(ps[i], elem, x, generics))
         case _ => false)
      case _ => false
  }

  /** Some element of a tuple type determines `x`. */
  predicate ElementDetermines(ps: seq<Pat>, ts: seq<Type>, x: string, generics: set<string>)
    decreases ps, ts
  {
    exists i, k :: 0 <= i < |ps| && 0 <= k < |ts| && Aligned(ps, |ts|, i, k) && Determined(ps[i], ts[k], x, generics)
  }

  /** A type is recorded exactly for the names that the written type determines. */
  lemma {:induction false} RecordedExactly(p: Pat, t: Type, mode: Mode, generics: set<string>, x: string)
    ensures x in Observed(p, t, mode, generics) <==> Determined(p, t, x, generics)
    ensures x in Observed(p, t, mode, generics) ==> Observed(p, t, mode, generics)[x].Some?
    decreases p, t, 1
  {
    if t.Paren? {
      RecordedExactly(p, t.elem, mode, generics, x);
    } else {
      match p
      case PParen(sub) => RecordedExactly(sub, t, mode, generics, x);
      case PRef(_, sub) => if t.Ref? { RecordedExactly(sub, t.elem, Move, generics, x); }
      case PTuple(ps) =>
        if t.Ref? {
          RecordedExactly(p, t.elem, Dereferenced(mode, t.mutable), generics, x);
        } else if t.Tuple? {
          TupleRecorded(p, t, mode, generics, x);
        }
      case PSlice(ps) =>
        if t.Ref? {
          RecordedExactly(p, t.elem, Dereferenced(mode, t.mutable), generics, x);
        } else if t.Array? || t.Slice? {
          SequenceRecorded(p, t, mode, generics, x);
        }
      case _ =>
    }
  }

  lemma {:induction false} TupleRecorded(p: Pat, t: Type, mode: Mode, generics: set<string>, x: string)
    requires p.PTuple? && t.Tuple?
    ensures x in Observed(p, t, mode, generics) <==> Determined(p, t, x, generics)
    ensures x in Observed(p, t, mode, generics) ==> Observed(p, t, mode, generics)[x].Some?
    decreases p, t, 0
  {
    var ps, ts := p.elems, t.elems;
    forall i, k | 0 <= i < |ps| && 0 <= k < |ts| && Aligned(ps, |ts|, i, k)
      ensures TupleFits(ps, |ts|) && k == TypeIndex(|ps|, |ts|, FirstRest(ps), i)
      ensures var here := ObservedTuple1(ps, ts, i, mode, generics);
              (x in here <==> Determined(ps[i], ts[k], x, generics)) && (x in here ==> here[x].Some?)
    {
      AlignedFits(ps, |ts|, i, k);
      RecordedExactly(ps[i], ts[k], mode, generics, x);
    }
    if TupleFits(ps, |ts|) {
      ElementsRecorded(ps, ts, mode, generics, x);
      InTuple(ps, ts, 0, mode, generics, x);
    }
  }

  ghost predicate ElementRecords(ps: seq<Pat>, ts: seq<Type>, i: nat, mode: Mode, generics: set<string>, x: string)
    requires i <= |ps| && TupleFits(ps, |ts|)
  {
    exists k :: i <= k < |ps| && x in ObservedTuple1(ps, ts, k, mode, generics)
  }

  lemma ElementsRecorded(ps: seq<Pat>, ts: seq<Type>, mode: Mode, generics: set<string>, x: string)
    requires TupleFits(ps, |ts|)
    requires forall i, k :: 0 <= i < |ps| && 0 <= k < |ts| && Aligned(ps, |ts|, i, k) ==>
               var here := ObservedTuple1(ps, ts, i, mode, generics);
               (x in here <==> Determined(ps[i], ts[k], x, generics)) && (x in here ==> here[x].Some?)
    ensures ElementRecords(ps, ts, 0, mode, generics, x) <==> ElementDetermines(ps, ts, x, generics)
    ensures forall i :: 0 <= i < |ps| && x in ObservedTuple1(ps, ts, i, mode, generics) ==>
              ObservedTuple1(ps, ts, i, mode, generics)[x].Some?
  {
    forall i | 0 <= i < |ps| && x in ObservedTuple1(ps, ts, i, mode, generics)
      ensures ElementDetermines(ps, ts, x, generics) && ObservedTuple1(ps, ts, i, mode, generics)[x].Some?
    {
      FittingAligns(ps, |ts|, i);
      assert Aligned(ps, |ts|, i, TypeIndex(|ps|, |ts|, FirstRest(ps), i));
    }
    if ElementDetermines(ps, ts, x, generics) {
      var i, k :| 0 <= i < |ps| && 0 <= k < |ts| && Aligned(ps, |ts|, i, k) && Determined(ps[i], ts[k], x, generics);
      assert x in ObservedTuple1(ps, ts, i, mode, generics);
    }
  }

  lemma RestIsFirst(ps: seq<Pat>, i: nat)
    requires i <= |ps|
    ensures RestBefore(ps, i) <==> FirstRest(ps).Some? && FirstRest(ps).value < i
  {
  }

  /** Alignment is possible only when the pattern fits, and then it is what the type index computes. */
  lemma AlignedFits(ps: seq<Pat>, n: nat, i: nat, k: nat)
    requires i < |ps| && Aligned(ps, n, i, k)
    ensures TupleFits(ps, n) && k == TypeIndex(|ps|, n, FirstRest(ps), i)
  {
    RestIsFirst(ps, |ps|);
    RestIsFirst(ps, i);
  }

  lemma FittingAligns(ps: seq<Pat>, n: nat, i: nat)
    requires i < |ps| && !ps[i].PRest? && TupleFits(ps, n)
    ensures 0 <= TypeIndex(|ps|, n, FirstRest(ps), i) < n
    ensures Aligned(ps, n, i, TypeIndex(|ps|, n, FirstRest(ps), i))
  {
    RestIsFirst(ps, |ps|);
    RestIsFirst(ps, i);
  }

  lemma {:induction false} InTuple(ps: seq<Pat>, ts: seq<Type>, i: nat, mode: Mode, generics: set<string>,
                                   x: string)
    requires i <= |ps| && TupleFits(ps, |ts|)
    requires forall k :: i <= k < |ps| && x in ObservedTuple1(ps, ts, k, mode, generics) ==>
               ObservedTuple1(ps, ts, k, mode, generics)[x].Some?
    ensures x in ObservedTuple(ps, ts, i, mode, generics) <==> ElementRecords(ps, ts, i, mode, generics, x)
    ensures x in ObservedTuple(ps, ts, i, mode, generics) ==> ObservedTuple(ps, ts, i, mode, generics)[x].Some?
    decreases |ps| - i
  {
    if i < |ps| {
      var here, later := ObservedTuple1(ps, ts, i, mode, generics), ObservedTuple(ps, ts, i + 1, mode, generics);
      InTuple(ps, ts, i + 1, mode, generics, x);
      assert ObservedTuple(ps, ts, i, mode, generics) == here + later;
      assert x in here || x in later ==> ElementRecords(ps, ts, i, mode, generics, x);
    }
  }

  lemma {:induction false} SequenceRecorded(p: Pat, t: Type, mode: Mode, generics: set<string>, x: string)
    requires p.PSlice? && (t.Array? || t.Slice?)
    ensures x in Observed(p, t, mode, generics) <==> Determined(p, t, x, generics)
    ensures x in Observed(p, t, mode, generics) ==> Observed(p, t, mode, generics)[x].Some?
    decreases p, t, 0
  {
    var ps := p.elems;
    RestsCounted(ps);
    var rest := if t.Slice? then Some(t) else ArrayRest(t.elem, t.len, |ps| - RestCount(ps), generics);
    if t.Array? {
      ConcreteExactly(t.len, generics);
    }
    forall i | 0 <= i < |ps|
      ensures x in ObservedElement(ps[i], t.elem, rest, mode, generics) <==>
              if SliceRest(ps[i]) then ps[i].PIdent? && ps[i].name == x && rest.Some?
              else Determined(ps[i], t.elem, x, generics)
      ensures x in ObservedElement(ps[i], t.elem, rest, mode, generics) ==>
                ObservedElement(ps[i], t.elem, rest, mode, generics)[x].Some?
    {
      RecordedExactly(ps[i], t.elem, mode, generics, x);
    }
    InSlice(ps, t.elem, rest, 0, mode, generics, x);
  }

  lemma {:induction false} InSlice(ps: seq<Pat>, elem: Type, rest: Option<Type>, i: nat, mode: Mode,
                                   generics: set<string>, x: string)
    requires i <= |ps|
    requires forall k :: i <= k < |ps| && x in ObservedElement(ps[k], elem, rest, mode, generics) ==>
               ObservedElement(ps[k], elem, rest, mode, generics)[x].Some?
    ensures x in ObservedSlice(ps, elem, rest, i, mode, generics) <==>
            exists k :: i <= k < |ps| && x in ObservedElement(ps[k], elem, rest, mode, generics)
    ensures x in ObservedSlice(ps, elem, rest, i, mode, generics) ==>
              ObservedSlice(ps, elem, rest, i, mode, generics)[x].Some?
    decreases |ps| - i
  {
    if i < |ps| {
      InSlice(ps, elem, rest, i + 1, mode, generics, x);
    }
  }

  lemma {:induction false} RestsCounted(ps: seq<Pat>)
    ensures RestCount(ps) > 0 <==> HasRest(ps)
    ensures RestCount(ps) <= 1 <==> OneRestAtMost(ps)
    decreases |ps|
  {
    if ps != [] {
      var tail := ps[1..];
      RestsCounted(tail);
      assert forall i :: 1 <= i < |ps| ==> ps[i] == tail[i - 1];
      assert forall i :: 0 <= i < |tail| ==> tail[i] == ps[i + 1];
      assert HasRest(ps) <==> SliceRest(ps[0]) || HasRest(tail);
      assert OneRestAtMost(ps) <==> OneRestAtMost(tail) && !(SliceRest(ps[0]) && HasRest(tail));
    }
  }

  lemma {:induction false} ConcreteExactly(len: Len, generics: set<string>)
    ensures ConcreteLen(len, generics) <==> Mentioned(len) !! generics && !IsOpaque(len)
  {
    if len.MinusLen? {
      ConcreteExactly(len.len, generics);
    }
  }

  /**
   The shapes for which an annotation tells everything: identifiers,
   wildcards, references, tuples with at most a rest, and sequences with at
   most one rest whose length can be written, nested in any way.
   */
  predicate Fits(p: Pat, t: Type, generics: set<string>)
    decreases p, t
  {
    if t.Paren? then Fits(p, t.elem, generics)
    else match p
      case PWild => true
      case PRest => true
      case PLit(_) => true
      case PIdent(_, _, _, at) => at.None?
      case PParen(sub) => Fits(sub, t, generics)
      case PRef(_, sub) => t.Ref? && Fits(sub, t.elem, generics)
      case PTuple(ps) =>
        (match t
         case Ref(_, elem) => Fits(p, elem, generics)
         case Tuple(ts) =>
           forall i :: 0 <= i < |ps| && !ps[i].PRest? ==>
             exists k :: 0 <= k < |ts| && Aligned(ps, |ts|, i, k) && Fits(ps[i], ts[k], generics)
         case _ => false)
      case PSlice(ps) =>
        (match t
         case Ref(_, elem) => Fits(p, elem, generics)
         case Array(elem, len) =>
           && Long(ps, len)
           && (forall i :: 0 <= i < |ps| ==>
                 if SliceRest(ps[i]) then ps[i].PIdent? ==> Nameable(ps, len, generics)
                 else Fits(ps[i], elem, generics))
         case Slice(elem) =>
           OneRestAtMost(ps) && forall i :: 0 <= i < |ps| ==> SliceRest(ps[i]) || Fits(ps[i], elem, generics)
         case _ => false)
      case POther(names) => names == {}
  }

  lemma {:induction false} FitsDetermines(p: Pat, t: Type, x: string, generics: set<string>)
    requires Fits(p, t, generics) && x in PatNames(p)
    ensures Determined(p, t, x, generics)
    decreases p, t
  {
    if t.Paren? {
      FitsDetermines(p, t.elem, x, generics);
    } else {
      match p
      case PParen(sub) => FitsDetermines(sub, t, x, generics);
      case PRef(_, sub) => FitsDetermines(sub, t.elem, x, generics);
      case PTuple(ps) =>
        if t.Ref? {
          FitsDetermines(p, t.elem, x, generics);
        } else {
          var i := ElementOf(ps, x);
          var k :| 0 <= k < |t.elems| && Aligned(ps, |t.elems|, i, k) && Fits(ps[i], t.elems[k], generics);
          FitsDetermines(ps[i], t.elems[k], x, generics);
        }
      case PSlice(ps) =>
        if t.Ref? {
          FitsDetermines(p, t.elem, x, generics);
        } else {
          var i := ElementOf(ps, x);
          if !SliceRest(ps[i]) {
            FitsDetermines(ps[i], t.elem, x, generics);
          }
        }
      case _ =>
    }
  }

  lemma {:induction false} ElementOf(ps: seq<Pat>, x: string) returns (i: nat)
    requires x in PatsNames(ps)
    ensures i < |ps| && x in PatNames(ps[i])
    decreases |ps|
  {
    if x in PatNames(ps[0]) {
      i := 0;
    } else {
      var k := ElementOf(ps[1..], x);
      i := k + 1;
    }
  }

  /** The bindings after a declaration, as `Recorder.ObservePattern` leaves them. */
  function Declared(before: Bindings, p: Pat, annotation: Option<Type>, generics: set<string>): Bindings {
    before + Unknown(PatNames(p)) +
    (match annotation case None => map[] case Some(t) => Observed(p, t, Move, generics))
  }

  /**
   A declaration replaces exactly what was known of its names: a type recorded
   for one of them is the type of the value it is bound to, and nothing that
   an earlier declaration said about it survives.
   */
  lemma DeclarationsShadow(before: Bindings, p: Pat, t: Type, v: Value, generics: set<string>, lengths: Lengths)
    requires HasType(v, t, lengths) && Binds(p, v, Move).Some?
    ensures var after := Declared(before, p, Some(t), generics);
            var env := Binds(p, v, Move).value;
            && (forall x :: x in PatNames(p) ==>
                  x in after && (after[x].Some? ==> x in env && HasType(env[x], after[x].value, lengths)))
            && forall x :: x !in PatNames(p) ==>
                 (x in after <==> x in before) && (x in before ==> after[x] == before[x])
  {
    RecordedTypesAreSound(p, t, v, Move, generics, lengths);
    ObservedNames(p, t, Move, generics);
  }

  /** A declared name has a known type exactly when an annotation determines it. */
  lemma DeclarationsAreExact(before: Bindings, p: Pat, annotation: Option<Type>, generics: set<string>, x: string)
    requires x in PatNames(p)
    ensures var after := Declared(before, p, annotation, generics);
            x in after && (after[x].Some? <==> annotation.Some? && Determined(p, annotation.value, x, generics))
  {
    if annotation.Some? {
      RecordedExactly(p, annotation.value, Move, generics, x);
    }
  }

  /** Where the annotation fits the pattern, every name that the pattern binds gets a type. */
  lemma FittingDeclarationsAreComplete(before: Bindings, p: Pat, t: Type, generics: set<string>)
    requires Fits(p, t, generics)
    ensures forall x :: x in PatNames(p) ==>
              x in Declared(before, p, Some(t), generics) && Declared(before, p, Some(t), generics)[x].Some?
  {
    forall x | x in PatNames(p)
      ensures x in Declared(before, p, Some(t), generics) && Declared(before, p, Some(t), generics)[x].Some?
    {
      FitsDetermines(p, t, x, generics);
      DeclarationsAreExact(before, p, Some(t), generics, x);
    }
  }
}
