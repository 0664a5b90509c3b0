/**
 Restrictions of nested scopes.

 A mask denotes a set of child paths with a key. `Blocked` and `ForChild` are
 the type-level programs; `Restricts` is the set. A scope reached along any
 path is restricted by every mask stored on the way, and by nothing else.
 */
module Masks {
  import opened Options
  import opened Keys

  type Key = Tree

  /** A registration's address: child names, then its namespace. */
  datatype Path = Here(namespace: Key) | There(child: Key, rest: Path)

  datatype Mask =
    | Empty
    | Mask(key: Key, tail: Mask)
    | Union(left: Mask, right: Mask)
    | Nested(child: Key, inner: Mask)
    | BorrowedBy(container: Container, path: Path, group: Key)

  /** A registered key and its namespace. */
  datatype Entry = Entry(namespace: Key, group: Key)

  /** A generated container stores a restricted scope of each child; `declaration` is the program that generated it. */
  datatype Container = Container(declaration: nat, entries: seq<Entry>, kids: Kids)
  datatype Kids = NoKids | Kid(name: Key, scope: Scope, rest: Kids)
  datatype Scope = Scope(backing: Container, restrictions: Mask, children: Kids)

  // ----- borrowed registrations -----

  function Find(kids: Kids, name: Key): Option<Scope> {
    match kids
    case NoKids => None
    case Kid(n, scope, rest) => if n == name then Some(scope) else Find(rest, name)
  }

  /** The container at `names` below `c`. */
  function Below(c: Container, names: seq<Key>): Option<Container>
    decreases |names|
  {
    if names == [] then Some(c)
    else match Find(c.kids, names[0]) case None => None case Some(scope) => Below(scope.backing, names[1..])
  }

  function Length(kids: Kids): nat {
    match kids case NoKids => 0 case Kid(_, _, rest) => 1 + Length(rest)
  }

  function Nth(kids: Kids, i: nat): (Key, Scope)
    requires i < Length(kids)
  {
    if i == 0 then (kids.name, kids.scope) else Nth(kids.rest, i - 1)
  }

  /** A name finds the first child that has it, and nothing only where no child has it. */
  lemma {:induction false} FindIsFirst(kids: Kids, name: Key) returns (i: nat)
    ensures match Find(kids, name)
            case None => i == Length(kids)
            case Some(scope) => i < Length(kids) && Nth(kids, i) == (name, scope)
    ensures i <= Length(kids) && forall j :: 0 <= j < i ==> Nth(kids, j).0 != name
    decreases kids
  {
    if kids.Kid? && kids.name != name {
      var k := FindIsFirst(kids.rest, name);
      i := k + 1;
      forall j | 0 <= j < i
        ensures Nth(kids, j).0 != name
      {
        assert j > 0 ==> Nth(kids, j) == Nth(kids.rest, j - 1);
      }
    } else {
      i := 0;
    }
  }

  /** The `Borrowed` implementations: a local registration's mask, or a child's, nested. */
  function BorrowedMask(c: Container, path: Path, group: Key): Option<Mask>
    decreases path
  {
    match path
    case Here(namespace) =>
      if Entry(namespace, group) in c.entries then Some(Mask(Pair(namespace, group), Empty)) else None
    case There(child, rest) =>
      match Find(c.kids, child)
      case None => None
      case Some(scope) =>
        match BorrowedMask(scope.backing, rest, group)
        case None => None
        case Some(mask) => Some(Nested(child, mask))
  }

  /** Every indirection names a registration, as the trait bounds demand. */
  predicate Resolves(m: Mask) {
    match m
    case Empty => true
    case Mask(_, tail) => Resolves(tail)
    case Union(a, b) => Resolves(a) && Resolves(b)
    case Nested(_, inner) => Resolves(inner)
    case BorrowedBy(c, path, group) => BorrowedMask(c, path, group).Some?
  }

  function Indirections(m: Mask): nat {
    match m
    case Empty => 0
    case Mask(_, tail) => Indirections(tail)
    case Union(a, b) => Indirections(a) + Indirections(b)
    case Nested(_, inner) => Indirections(inner)
    case BorrowedBy(_, _, _) => 1
  }

  lemma {:induction false} BorrowedIsDirect(c: Container, path: Path, group: Key)
    requires BorrowedMask(c, path, group).Some?
    ensures Resolves(BorrowedMask(c, path, group).value) && Indirections(BorrowedMask(c, path, group).value) == 0
    decreases path
  {
    if path.There? {
      BorrowedIsDirect(Find(c.kids, path.child).value.backing, path.rest, group);
    }
  }

  /** The child names of an address, and the key restricted there. */
  function Names(path: Path): seq<Key> {
    match path
    case Here(_) => []
    case There(child, rest) => [child] + Names(rest)
  }

  function Namespace(path: Path): Key {
    match path
    case Here(namespace) => namespace
    case There(_, rest) => Namespace(rest)
  }

  /** A registration can be borrowed exactly when the container at its address has it. */
  lemma {:induction false} BorrowedIsRegistered(c: Container, path: Path, group: Key)
    ensures BorrowedMask(c, path, group).Some? <==>
            && Below(c, Names(path)).Some?
            && Entry(Namespace(path), group) in Below(c, Names(path)).value.entries
    decreases path
  {
    if path.There? {
      assert Names(path)[1..] == Names(path.rest);
      if Find(c.kids, path.child).Some? {
        BorrowedIsRegistered(Find(c.kids, path.child).value.backing, path.rest, group);
      }
    }
  }

  // ----- the type-level programs -----

  function Blocked(m: Mask, key: Key): Answer
    requires Resolves(m)
    decreases Indirections(m), m
  {
    match m
    case Empty => No
    case Mask(head, tail) => Or(Equal(key, head), Blocked(tail, key))
    case Union(a, b) => Or(Blocked(a, key), Blocked(b, key))
    case Nested(_, _) => No
    case BorrowedBy(c, path, group) =>
      BorrowedIsDirect(c, path, group);
      Blocked(BorrowedMask(c, path, group).value, key)
  }

  function SelectMask(answer: Answer, m: Mask): Mask {
    match answer
    case Yes => m
    case No => Empty
  }

  function ForChild(m: Mask, key: Key): (r: Mask)
    requires Resolves(m)
    ensures Resolves(r)
    decreases Indirections(m), m
  {
    match m
    case Empty => Empty
    case Mask(_, tail) => ForChild(tail, key)
    case Union(a, b) => Union(ForChild(a, key), ForChild(b, key))
    case Nested(child, inner) => SelectMask(Equal(key, child), inner)
    case BorrowedBy(c, path, group) =>
      BorrowedIsDirect(c, path, group);
      ForChild(BorrowedMask(c, path, group).value, key)
  }

  // ----- denotation -----

  /** `m` restricts `key` in the scope reached along `names`. */
  predicate Restricts(m: Mask, names: seq<Key>, key: Key) {
    match m
    case Empty => false
    case Mask(head, tail) => (names == [] && head == key) || Restricts(tail, names, key)
    case Union(a, b) => Restricts(a, names, key) || Restricts(b, names, key)
    case Nested(child, inner) => names != [] && names[0] == child && Restricts(inner, names[1..], key)
    case BorrowedBy(_, path, group) => names == Names(path) && key == Pair(Namespace(path), group)
  }

  /** An indirection restricts exactly the registration that it names. */
  lemma {:induction false} BorrowedRestricts(c: Container, path: Path, group: Key, names: seq<Key>, key: Key)
    requires BorrowedMask(c, path, group).Some?
    ensures Restricts(BorrowedMask(c, path, group).value, names, key) <==>
            names == Names(path) && key == Pair(Namespace(path), group)
    decreases path
  {
    if path.There? {
      var inner := Find(c.kids, path.child).value.backing;
      BorrowedIsDirect(inner, path.rest, group);
      if names != [] && names[0] == path.child {
        BorrowedRestricts(inner, path.rest, group, names[1..], key);
        assert names == [path.child] + names[1..];
      }
    }
  }

  /** `Blocked` decides local membership. */
  lemma {:induction false} BlockedDecides(m: Mask, key: Key)
    requires Resolves(m)
    ensures Blocked(m, key) == Yes <==> Restricts(m, [], key)
    decreases Indirections(m), m
  {
    match m
    case Empty =>
    case Mask(head, tail) =>
      EqualIsIdentity(key, head);
      BlockedDecides(tail, key);
    case Union(a, b) =>
      BlockedDecides(a, key);
      BlockedDecides(b, key);
    case Nested(_, _) =>
    case BorrowedBy(c, path, group) =>
      BorrowedIsDirect(c, path, group);
      BlockedDecides(BorrowedMask(c, path, group).value, key);
      BorrowedRestricts(c, path, group, [], key);
  }

  /** `ForChild` is projection. */
  lemma {:induction false} ForChildProjects(m: Mask, child: Key, names: seq<Key>, key: Key)
    requires Resolves(m)
    ensures Restricts(ForChild(m, child), names, key) <==> Restricts(m, [child] + names, key)
    decreases Indirections(m), m
  {
    match m
    case Empty =>
    case Mask(_, tail) => ForChildProjects(tail, child, names, key);
    case Union(a, b) =>
      ForChildProjects(a, child, names, key);
      ForChildProjects(b, child, names, key);
    case Nested(c, inner) =>
      EqualIsIdentity(child, c);
      assert ([child] + names)[1..] == names;
    case BorrowedBy(c, path, group) =>
      BorrowedIsDirect(c, path, group);
      ForChildProjects(BorrowedMask(c, path, group).value, child, names, key);
      BorrowedRestricts(c, path, group, [child] + names, key);
  }

  // ----- scopes -----

  /** Every mask stored in a container resolves. */
  predicate Sound(c: Container) {
    SoundKids(c.kids)
  }

  predicate SoundKids(kids: Kids) {
    match kids
    case NoKids => true
    case Kid(_, scope, rest) => Resolves(scope.restrictions) && Sound(scope.backing) && SoundKids(rest)
  }

  /** `AsScope`: a descriptor of `c` under `m`, its children restricted further. */
  function AsScope(c: Container, m: Mask): Scope
    requires Sound(c) && Resolves(m)
    decreases c, 0
  {
    Scope(c, m, Restricted(c.kids, m))
  }

  /** `ReScope` starts again from the backing container with both restrictions. */
  function ReScope(s: Scope, more: Mask): Scope
    requires Resolves(s.restrictions) && Sound(s.backing) && Resolves(more)
    decreases s, 1
  {
    AsScope(s.backing, Union(s.restrictions, more))
  }

  function Restricted(kids: Kids, m: Mask): Kids
    requires SoundKids(kids) && Resolves(m)
    decreases kids, 1
  {
    match kids
    case NoKids => NoKids
    case Kid(name, scope, rest) => Kid(name, ReScope(scope, ForChild(m, name)), Restricted(rest, m))
  }

  /** The scope reached through the child accessors. */
  function Descend(s: Scope, names: seq<Key>): Option<Scope>
    decreases |names|
  {
    if names == [] then Some(s) else
      match Find(s.children, names[0])
      case None => None
      case Some(child) => Descend(child, names[1..])
  }

  /** The scope that a container stores for the child at `names`, as that child's parent was built. */
  function Stored(c: Container, names: seq<Key>): Option<Scope>
    requires names != []
    decreases |names|
  {
    match Find(c.kids, names[0])
    case None => None
    case Some(scope) => if |names| == 1 then Some(scope) else Stored(scope.backing, names[1..])
  }

  lemma {:induction false} FindRestricted(kids: Kids, m: Mask, name: Key)
    requires SoundKids(kids) && Resolves(m)
    ensures Find(kids, name).Some? ==>
              Resolves(Find(kids, name).value.restrictions) && Sound(Find(kids, name).value.backing)
    ensures Find(Restricted(kids, m), name) ==
            if Find(kids, name).None? then None else Some(ReScope(Find(kids, name).value, ForChild(m, name)))
  {
    if kids.Kid? && kids.name != name {
      FindRestricted(kids.rest, m, name);
    }
  }

  /**
   A scope has a child at exactly the addresses at which its container has
   one, whatever is restricted, and the child is a scope of that container.
   */
  lemma {:induction false} DescentReaches(c: Container, m: Mask, names: seq<Key>)
    requires Sound(c) && Resolves(m)
    ensures Descend(AsScope(c, m), names).Some? <==> Below(c, names).Some?
    ensures Below(c, names).Some? ==> Descend(AsScope(c, m), names).value.backing == Below(c, names).value
    decreases |names|
  {
    if names != [] {
      FindRestricted(c.kids, m, names[0]);
      if Find(c.kids, names[0]).Some? {
        var scope := Find(c.kids, names[0]).value;
        DescentReaches(scope.backing, Union(scope.restrictions, ForChild(m, names[0])), names[1..]);
      }
    }
  }

  /** The same of a scope that is restricted again. */
  lemma RestrictedAgainReaches(s: Scope, more: Mask, names: seq<Key>)
    requires Resolves(s.restrictions) && Sound(s.backing) && Resolves(more)
    ensures Descend(ReScope(s, more), names).Some? <==> Below(s.backing, names).Some?
    ensures Below(s.backing, names).Some? ==>
              Descend(ReScope(s, more), names).value.backing == Below(s.backing, names).value
  {
    DescentReaches(s.backing, Union(s.restrictions, more), names);
  }

  /** The mask stored with the scope at `names[..i]` restricts `key` at what remains, then `below`. */
  predicate RestrictedAt(c: Container, names: seq<Key>, i: nat, below: seq<Key>, key: Key)
    requires 0 < i <= |names|
  {
    && Stored(c, names[..i]).Some?
    && Restricts(Stored(c, names[..i]).value.restrictions, names[i..] + below, key)
  }

  /** Some mask stored between `c` and the scope at `names` restricts `key` at `below`, relative to that scope. */
  predicate RestrictedOnTheWay(c: Container, names: seq<Key>, below: seq<Key>, key: Key) {
    exists i :: 0 < i <= |names| && RestrictedAt(c, names, i, below, key)
  }

  lemma RestrictedAtStep(c: Container, names: seq<Key>, i: nat, below: seq<Key>, key: Key)
    requires 1 < i <= |names| && Find(c.kids, names[0]).Some?
    ensures RestrictedAt(c, names, i, below, key) <==>
            RestrictedAt(Find(c.kids, names[0]).value.backing, names[1..], i - 1, below, key)
  {
    assert names[..i][1..] == names[1..][..i - 1];
    assert names[i..] == names[1..][i - 1..];
  }

  lemma WayStep(c: Container, names: seq<Key>, below: seq<Key>, key: Key)
    requires names != [] && Find(c.kids, names[0]).Some?
    ensures var scope := Find(c.kids, names[0]).value;
            RestrictedOnTheWay(c, names, below, key) <==>
              Restricts(scope.restrictions, names[1..] + below, key) ||
              RestrictedOnTheWay(scope.backing, names[1..], below, key)
  {
    var scope := Find(c.kids, names[0]).value;
    assert Stored(c, names[..1]) == Some(scope);
    assert RestrictedAt(c, names, 1, below, key) <==> Restricts(scope.restrictions, names[1..] + below, key);
    forall i | 1 < i <= |names|
      ensures RestrictedAt(c, names, i, below, key) <==> RestrictedAt(scope.backing, names[1..], i - 1, below, key)
    {
      RestrictedAtStep(c, names, i, below, key);
    }
    if j :| 0 < j <= |names[1..]| && RestrictedAt(scope.backing, names[1..], j, below, key) {
      assert RestrictedAt(c, names, j + 1, below, key);
    }
  }

  /**
   Descent is exact at every depth: every child of the container is reached,
   and the scope reached along `names` restricts `key` iff the root mask or a
   mask stored on the way names what remains.
   */
  lemma {:induction false} DescentIsExact(c: Container, m: Mask, names: seq<Key>, below: seq<Key>, key: Key)
    requires Sound(c) && Resolves(m) && Below(c, names).Some?
    ensures Descend(AsScope(c, m), names).Some?
    ensures var s := Descend(AsScope(c, m), names).value;
            && Resolves(s.restrictions)
            && (Restricts(s.restrictions, below, key) <==>
                Restricts(m, names + below, key) || RestrictedOnTheWay(c, names, below, key))
    decreases |names|
  {
    if names == [] {
      assert names + below == below;
    } else {
      var name, rest := names[0], names[1..];
      FindRestricted(c.kids, m, name);
      var scope := Find(c.kids, name).value;
      var both := Union(scope.restrictions, ForChild(m, name));
      DescentIsExact(scope.backing, both, rest, below, key);
      ForChildProjects(m, name, rest + below, key);
      assert [name] + (rest + below) == names + below;
      WayStep(c, names, below, key);
    }
  }

  /** Every operation that a reached scope withholds is withheld for a stored reason, and conversely. */
  lemma DescentDecidesBlocking(c: Container, m: Mask, names: seq<Key>, key: Key)
    requires Sound(c) && Resolves(m) && Below(c, names).Some?
    ensures Descend(AsScope(c, m), names).Some?
    ensures var s := Descend(AsScope(c, m), names).value;
            && Resolves(s.restrictions)
            && (Blocked(s.restrictions, key) == Yes <==>
                Restricts(m, names, key) || RestrictedOnTheWay(c, names, [], key))
  {
    DescentIsExact(c, m, names, [], key);
    assert names + [] == names;
    BlockedDecides(Descend(AsScope(c, m), names).value.restrictions, key);
  }

  /** Restricting a scope again never restores an operation, at any depth below it. */
  lemma RestrictingIsMonotone(c: Container, m: Mask, more: Mask, names: seq<Key>, key: Key)
    requires Sound(c) && Resolves(m) && Resolves(more)
    requires Below(c, names).Some?
    ensures Descend(AsScope(c, m), names).Some? && Descend(ReScope(AsScope(c, m), more), names).Some?
    ensures var s, t := Descend(AsScope(c, m), names).value, Descend(ReScope(AsScope(c, m), more), names).value;
            && Resolves(s.restrictions) && Resolves(t.restrictions)
            && (Blocked(t.restrictions, key) == Yes <==>
                Blocked(s.restrictions, key) == Yes || Restricts(more, names, key))
  {
    DescentReaches(c, Union(m, more), names);
    DescentDecidesBlocking(c, m, names, key);
    DescentDecidesBlocking(c, Union(m, more), names, key);
  }

  // ----- masks of a declaration's children -----

  /** The mask under which a container stores child `index`: the union of what its constructors borrow from it. */
  function ChildMask(borrows: seq<(nat, Mask)>, index: nat): Mask
    decreases |borrows|
  {
    if borrows == [] then Empty else
      var n := |borrows| - 1;
      var tail := ChildMask(borrows[..n], index);
      if borrows[n].0 == index then Union(borrows[n].1, tail) else tail
  }

  lemma {:induction false} ChildMaskExact(borrows: seq<(nat, Mask)>, index: nat, names: seq<Key>, key: Key)
    requires forall i :: 0 <= i < |borrows| ==> Resolves(borrows[i].1)
    ensures Resolves(ChildMask(borrows, index))
    ensures Restricts(ChildMask(borrows, index), names, key) <==>
            exists i :: 0 <= i < |borrows| && borrows[i].0 == index && Restricts(borrows[i].1, names, key)
    decreases |borrows|
  {
    if borrows != [] {
      var n := |borrows| - 1;
      ChildMaskExact(borrows[..n], index, names, key);
      assert forall i :: 0 <= i < n ==> borrows[..n][i] == borrows[i];
      if Restricts(ChildMask(borrows[..n], index), names, key) {
        var i :| 0 <= i < n && borrows[..n][i].0 == index && Restricts(borrows[..n][i].1, names, key);
        assert borrows[i].0 == index;
      }
    }
  }
}
