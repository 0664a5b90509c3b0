/**
 Moving source one module deeper.

 Authored paths are copied into a generated module inside the module they were
 written in. `Visitor` rewrites them. The specification resolves paths: a
 rewritten path must lead where it led before, except that modules that moved
 with the source are found at their new place. The generated module imports its
 parent's names, so that a name it does not define itself is its parent's.
 */
module Rebase {
  import opened Options
  import opened Sequences

  datatype Segment = Super | Self | Crate | Name(text: string)

  datatype Path = Path(leading: bool, segments: seq<Segment>)

  datatype UseTree =
    | UsePath(head: Segment, tree: UseTree)
    | UseName(name: Segment)
    | UseRename(name: Segment, alias: string)
    | UseGlob
    | UseGroup(items: UseTrees)
  datatype UseTrees = NoTrees | Trees(head: UseTree, tail: UseTrees)

  /** Source items, reduced to their paths, imports and nested modules. A block may hold items of its own. */
  datatype Node =
    | Mention(path: Path)
    | Import(leading: bool, tree: UseTree)
    | Block(body: Nodes)
    | Module(name: string, body: Nodes)
  datatype Nodes = NoNodes | Nodes(head: Node, tail: Nodes)

  // ----- resolution -----

  /** What the leading part of a path decides: an absolute module, or that lookup continues elsewhere. */
  datatype Target =
    | External(segments: seq<Segment>)
    | Lexical(segments: seq<Segment>)
    | SelfValue
    | In(home: seq<string>, rest: seq<Segment>)
    | Broken

  function Supers(segments: seq<Segment>): (k: nat)
    ensures k <= |segments| && (forall i :: 0 <= i < k ==> segments[i] == Super)
    ensures k < |segments| ==> segments[k] != Super
  {
    if segments != [] && segments[0] == Super then 1 + Supers(segments[1..]) else 0
  }

  predicate AllNames(segments: seq<Segment>) {
    forall i :: 0 <= i < |segments| ==> segments[i].Name?
  }

  /** Each leading `super` leaves one module. */
  function Climb(here: seq<string>, segments: seq<Segment>): Target
    decreases |segments|
  {
    if segments != [] && segments[0] == Super then
      if here == [] then Broken else Climb(here[..|here| - 1], segments[1..])
    else if AllNames(segments) then In(here, segments)
    else Broken
  }

  function ResolveImport(here: seq<string>, p: Path): Target {
    if p.leading then External(p.segments)
    else if p.segments == [] then Broken
    else
      match p.segments[0]
      case Crate => if AllNames(p.segments[1..]) then In([], p.segments[1..]) else Broken
      case Self => Climb(here, p.segments[1..])
      case Super => Climb(here, p.segments)
      case Name(_) => if AllNames(p.segments) then Lexical(p.segments) else Broken
  }

  /** A lone `self` in an expression is the receiver, not a module. */
  function Resolve(here: seq<string>, p: Path): Target {
    if !p.leading && p.segments == [Self] then SelfValue else ResolveImport(here, p)
  }

  /** Source in module `outer` moves into its new child `g`, which defines the names in `defined` itself. */
  datatype Move = Move(outer: seq<string>, g: string, defined: set<string>)

  /** Modules strictly inside `outer` moved into `g`; others stayed. */
  function Relocate(m: Move, home: seq<string>): seq<string> {
    var n := |m.outer|;
    if |home| > n then home[..n] + [m.g] + home[n..] else home
  }

  function Relocated(m: Move, t: Target): Target {
    match t
    case In(home, rest) => In(Relocate(m, home), rest)
    case _ => t
  }

  /** Lookup in `g` goes on in its parent, by the parent glob, for names that it does not define. */
  function Through(m: Move, t: Target): Target {
    if t.In? && t.home == m.outer + [m.g] && t.rest != [] && t.rest[0].Name? && t.rest[0].text !in m.defined
    then In(m.outer, t.rest) else t
  }

  /** `after`, resolved at the new place, is what `before` was at the old one. */
  predicate Same(m: Move, after: Target, before: Target) {
    Through(m, after) == Relocated(m, before)
  }

  lemma RelocatedIsSame(m: Move, t: Target)
    ensures Same(m, Relocated(m, t), t)
  {
  }

  lemma {:induction false} ClimbIs(here: seq<string>, segments: seq<Segment>)
    ensures var k := Supers(segments);
            Climb(here, segments) ==
            if k <= |here| && AllNames(segments[k..]) then In(here[..|here| - k], segments[k..]) else Broken
    decreases |segments|
  {
    if segments != [] && segments[0] == Super {
      if here != [] {
        ClimbIs(here[..|here| - 1], segments[1..]);
        assert segments[1..][Supers(segments[1..])..] == segments[Supers(segments)..];
      }
    } else {
      assert segments[0..] == segments && here[..|here| - 0] == here;
    }
  }

  // ----- the rewriting -----

  /** Specification of the rewriting of one path at nesting depth `d`. */
  function RebasedPath(p: Path, d: nat): Path {
    var parents := Supers(p.segments);
    if p.leading then p
    else if parents > 0 && parents >= d then p.(segments := [Super] + p.segments)
    else if d == 0 && |p.segments| > 1 && p.segments[0] == Self then p.(segments := [Super] + p.segments[1..])
    else p
  }

  function Chain(tree: UseTree): nat {
    match tree
    case UsePath(head, rest) => if head == Super then 1 + Chain(rest) else 0
    case _ => 0
  }

  function RebasedTree(tree: UseTree, d: nat): UseTree
    decreases tree
  {
    match tree
    case UseGroup(items) => UseGroup(RebasedTrees(items, d))
    case _ =>
      if Chain(tree) > 0 && Chain(tree) >= d then UsePath(Super, tree)
      else if d == 0 && tree.UsePath? && tree.head == Self then tree.(head := Super)
      else tree
  }

  function RebasedTrees(trees: UseTrees, d: nat): UseTrees
    decreases trees
  {
    match trees
    case NoTrees => NoTrees
    case Trees(head, tail) => Trees(RebasedTree(head, d), RebasedTrees(tail, d))
  }

  function RebasedNode(node: Node, d: nat): Node
    decreases node
  {
    match node
    case Mention(path) => Mention(RebasedPath(path, d))
    case Import(leading, tree) => if leading then node else Import(leading, RebasedTree(tree, d))
    case Block(body) => Block(RebasedNodes(body, d))
    case Module(name, body) => Module(name, RebasedNodes(body, d + 1))
  }

  function RebasedNodes(nodes: Nodes, d: nat): Nodes
    decreases nodes
  {
    match nodes
    case NoNodes => NoNodes
    case Nodes(head, tail) => Nodes(RebasedNode(head, d), RebasedNodes(tail, d))
  }

  /** The generated module's own `use super::*` is written for that module. */
  predicate ParentGlob(node: Node) {
    node.Import? && node.tree == UsePath(Super, UseGlob)
  }

  function RebasedModule(nodes: Nodes): Nodes {
    match nodes
    case NoNodes => NoNodes
    case Nodes(head, tail) => Nodes(if ParentGlob(head) then head else RebasedNode(head, 0), RebasedModule(tail))
  }

  class Visitor {
    var nestedModules: nat

    constructor ()
      ensures nestedModules == 0
    {
      nestedModules := 0;
    }

    method VisitPath(path: Path) returns (p: Path)
      ensures p == RebasedPath(path, nestedModules)
    {
      if path.leading {
        return path;
      }
      var parents: nat := 0;
      while parents < |path.segments| && path.segments[parents] == Super
        invariant parents <= |path.segments| && forall i :: 0 <= i < parents ==> path.segments[i] == Super
      {
        parents := parents + 1;
      }
      SupersIs(path.segments, parents);
      p := path;
      if parents > 0 && parents >= nestedModules {
        p := p.(segments := [Super] + p.segments);
      } else if nestedModules == 0 && |p.segments| > 1 && p.segments[0] == Self {
        p := p.(segments := [Super] + p.segments[1..]);
      }
    }

    method VisitUseTree(tree: UseTree) returns (t: UseTree)
      ensures t == RebasedTree(tree, nestedModules)
      decreases tree
    {
      if tree.UseGroup? {
        var items := VisitUseTrees(tree.items);
        return UseGroup(items);
      }
      var current := tree;
      var parents: nat := 0;
      while current.UsePath? && current.head == Super
        invariant Chain(tree) == parents + Chain(current)
        decreases current
      {
        parents := parents + 1;
        current := current.tree;
      }
      t := tree;
      if parents > 0 && parents >= nestedModules {
        t := UsePath(Super, tree);
      } else if nestedModules == 0 && tree.UsePath? && tree.head == Self {
        t := tree.(head := Super);
      }
    }

    method VisitUseTrees(trees: UseTrees) returns (ts: UseTrees)
      ensures ts == RebasedTrees(trees, nestedModules)
      decreases trees
    {
      if trees.NoTrees? {
        return NoTrees;
      }
      var head := VisitUseTree(trees.head);
      var tail := VisitUseTrees(trees.tail);
      ts := Trees(head, tail);
    }

    method VisitNode(node: Node) returns (n: Node)
      modifies this
      ensures nestedModules == old(nestedModules) && n == RebasedNode(node, nestedModules)
      decreases node
    {
      match node
      case Mention(path) =>
        var p := VisitPath(path);
        n := Mention(p);
      case Import(leading, tree) =>
        if leading {
          return node;
        }
        var t := VisitUseTree(tree);
        n := Import(leading, t);
      case Block(body) =>
        var b := VisitNodes(body);
        n := Block(b);
      case Module(name, body) =>
        nestedModules := nestedModules + 1;
        var b := VisitNodes(body);
        nestedModules := nestedModules - 1;
        n := Module(name, b);
    }

    method VisitNodes(nodes: Nodes) returns (ns: Nodes)
      modifies this
      ensures nestedModules == old(nestedModules) && ns == RebasedNodes(nodes, nestedModules)
      decreases nodes
    {
      if nodes.NoNodes? {
        return NoNodes;
      }
      var head := VisitNode(nodes.head);
      var tail := VisitNodes(nodes.tail);
      ns := Nodes(head, tail);
    }
  }

  method GeneratedModule(nodes: Nodes) returns (ns: Nodes)
    ensures ns == RebasedModule(nodes)
    decreases nodes
  {
    if nodes.NoNodes? {
      return NoNodes;
    }
    var head := nodes.head;
    if !ParentGlob(head) {
      var visitor := new Visitor();
      head := visitor.VisitNode(head);
    }
    var tail := GeneratedModule(nodes.tail);
    ns := Nodes(head, tail);
  }

  lemma {:induction false} SupersIs(segments: seq<Segment>, k: nat)
    requires k <= |segments| && (forall i :: 0 <= i < k ==> segments[i] == Super)
    requires k < |segments| ==> segments[k] != Super
    ensures Supers(segments) == k
    decreases k
  {
    if k > 0 {
      SupersIs(segments[1..], k - 1);
    }
  }

  // ----- leaving the moved modules -----

  /** The path leaves the modules that move with the source, `d` of them around it. */
  predicate Escapes(segments: seq<Segment>, d: nat) {
    segments != [] &&
    match segments[0]
    case Super => Supers(segments) >= d
    case Self => Supers(segments[1..]) >= d
    case _ => false
  }

  /** The source's place before and after the move; `nested` are the modules around it that move too. */
  function Old(m: Move, nested: seq<string>): seq<string> {
    m.outer + nested
  }

  function New(m: Move, nested: seq<string>): seq<string> {
    m.outer + [m.g] + nested
  }

  /**
   Left as it is, a path that leaves the moved modules is one step short. It
   ends elsewhere, except that ending in `g` instead of its parent is harmless
   for a name that `g` does not define, or for a glob if it defines none.
   */
  predicate Strands(climb: seq<Segment>, d: nat, defined: set<string>, all: bool) {
    var k := Supers(climb);
    k > d || (k == d && if k < |climb| then !climb[k].Name? || climb[k].text in defined else !all || defined != {})
  }

  lemma InnerParent(outer: seq<string>, nested: seq<string>)
    requires nested != []
    ensures (outer + nested)[..|outer + nested| - 1] == outer + nested[..|nested| - 1]
  {
  }

  lemma RelocateNested(m: Move, inner: seq<string>)
    requires inner != []
    ensures Relocate(m, m.outer + inner) == m.outer + [m.g] + inner
  {
    assert (m.outer + inner)[..|m.outer|] == m.outer && (m.outer + inner)[|m.outer|..] == inner;
  }

  /** Climbing within the moved modules reaches the moved module. */
  lemma {:induction false} ClimbInside(m: Move, nested: seq<string>, segments: seq<Segment>)
    requires Supers(segments) < |nested|
    ensures Climb(New(m, nested), segments) == Relocated(m, Climb(Old(m, nested), segments))
    decreases |segments|
  {
    if Supers(segments) > 0 {
      InnerParent(m.outer, nested);
      InnerParent(m.outer + [m.g], nested);
      ClimbInside(m, nested[..|nested| - 1], segments[1..]);
    } else {
      RelocateNested(m, nested);
    }
  }

  lemma {:induction false} ClimbShortens(here: seq<string>, segments: seq<Segment>)
    ensures Climb(here, segments).In? ==> |Climb(here, segments).home| <= |here|
    decreases |segments|
  {
    if segments != [] && segments[0] == Super && here != [] {
      ClimbShortens(here[..|here| - 1], segments[1..]);
    }
  }

  /** Leaving the moved modules takes one more step. */
  lemma {:induction false} ClimbOut(m: Move, nested: seq<string>, segments: seq<Segment>)
    requires Supers(segments) >= |nested|
    ensures Climb(New(m, nested), [Super] + segments) == Relocated(m, Climb(Old(m, nested), segments))
    decreases |nested|
  {
    assert ([Super] + segments)[1..] == segments;
    if nested == [] {
      assert m.outer + nested == m.outer && m.outer + [m.g] + nested == m.outer + [m.g];
      assert (m.outer + [m.g])[..|m.outer|] == m.outer;
      ClimbShortens(m.outer, segments);
    } else {
      InnerParent(m.outer, nested);
      InnerParent(m.outer + [m.g], nested);
      assert [Super] + segments[1..] == segments;
      ClimbOut(m, nested[..|nested| - 1], segments[1..]);
    }
  }

  /** Where both climbs end when the step is missing. */
  lemma ClimbShort(m: Move, nested: seq<string>, climb: seq<Segment>)
    requires Supers(climb) >= |nested|
    ensures var k, d := Supers(climb), |nested|;
            var t, u := Climb(Old(m, nested), climb), Climb(New(m, nested), climb);
            && (t != Broken ==>
                  k <= |m.outer| + d && AllNames(climb[k..]) && t == In(m.outer[..|m.outer| - (k - d)], climb[k..]))
            && (k == d ==> u == if AllNames(climb[k..]) then In(m.outer + [m.g], climb[k..]) else Broken)
            && (k == d && t == Broken ==> u == Broken)
            && (k > d && t != Broken ==> u == In(m.outer[..|m.outer| - (k - d - 1)], climb[k..]))
  {
    var k, d, before, after := Supers(climb), |nested|, Old(m, nested), New(m, nested);
    ClimbIs(before, climb);
    ClimbIs(after, climb);
    if k == d {
      assert after[..|after| - k] == m.outer + [m.g] && before[..|before| - k] == m.outer;
    } else if k <= |before| {
      assert after[..|after| - k] == m.outer[..|m.outer| - (k - d - 1)];
      assert before[..|before| - k] == m.outer[..|m.outer| - (k - d)];
    }
  }

  /** Missing the step is harmless exactly when the path does not strand. */
  lemma ClimbStranded(m: Move, nested: seq<string>, climb: seq<Segment>)
    requires Supers(climb) >= |nested|
    ensures var t, u := Climb(Old(m, nested), climb), Climb(New(m, nested), climb);
            && (!Strands(climb, |nested|, m.defined, false) ==> Same(m, u, t))
            && (t != Broken && Strands(climb, |nested|, m.defined, false) ==> !Same(m, u, t))
  {
    ClimbShort(m, nested, climb);
    var k := Supers(climb);
    assert k < |climb| ==> climb[k..][0] == climb[k];
  }

  // ----- one path -----

  /** The failing family: a path that leaves the moved modules through `self`, and strands. */
  predicate StrandedPath(p: Path, d: nat, defined: set<string>) {
    && !p.leading && p.segments != [] && p.segments[0] == Self && d > 0
    && Supers(p.segments[1..]) >= d && Strands(p.segments[1..], d, defined, false)
  }

  /** A path keeps its meaning, at any depth, exactly when it is not in the failing family. */
  lemma PathIsPreserved(m: Move, nested: seq<string>, p: Path)
    ensures var d := |nested|;
            var t, u := Resolve(Old(m, nested), p), Resolve(New(m, nested), RebasedPath(p, d));
            && (!StrandedPath(p, d, m.defined) ==> Same(m, u, t))
            && (t != Broken ==> (Same(m, u, t) <==> !StrandedPath(p, d, m.defined)))
  {
    if !p.leading && p.segments != [] && p.segments[0] == Super {
      if Supers(p.segments) >= |nested| {
        ClimbOut(m, nested, p.segments);
      } else {
        ClimbInside(m, nested, p.segments);
      }
      RelocatedIsSame(m, Resolve(Old(m, nested), p));
    } else if !p.leading && |p.segments| > 1 && p.segments[0] == Self {
      SelfPath(m, nested, p);
    }
  }

  lemma SelfPath(m: Move, nested: seq<string>, p: Path)
    requires !p.leading && |p.segments| > 1 && p.segments[0] == Self
    ensures var t, u := Resolve(Old(m, nested), p), Resolve(New(m, nested), RebasedPath(p, |nested|));
            && (!StrandedPath(p, |nested|, m.defined) ==> Same(m, u, t))
            && (t != Broken && StrandedPath(p, |nested|, m.defined) ==> !Same(m, u, t))
  {
    var rest := p.segments[1..];
    assert forall here :: Resolve(here, p) == Climb(here, rest);
    RelocatedIsSame(m, Resolve(Old(m, nested), p));
    if nested == [] {
      assert Supers(p.segments) == 0;
      var q := RebasedPath(p, 0);
      assert q == Path(false, [Super] + rest) && q.segments[0] == Super;
      assert Resolve(New(m, nested), q) == Climb(New(m, nested), q.segments);
      ClimbOut(m, nested, rest);
    } else {
      assert RebasedPath(p, |nested|) == p;
      if Supers(rest) < |nested| {
        ClimbInside(m, nested, rest);
      } else {
        ClimbStranded(m, nested, rest);
      }
    }
  }

  /**
   Two members of the family, one module down: `self::super::super::x` stops at
   the module instead of its parent, and `self::super::x` finds the generated
   module's own `x` if it defines one.
   */
  lemma SelfSuperIsStranded(m: Move, inner: string, x: string, y: string)
    requires m.outer != [] && y in m.defined
    ensures var far, near := Path(false, [Self, Super, Super, Name(x)]), Path(false, [Self, Super, Name(y)]);
            && Resolve(Old(m, [inner]), far) == In(m.outer[..|m.outer| - 1], [Name(x)])
            && Resolve(New(m, [inner]), RebasedPath(far, 1)) == In(m.outer, [Name(x)])
            && Resolve(Old(m, [inner]), near) == In(m.outer, [Name(y)])
            && Through(m, Resolve(New(m, [inner]), RebasedPath(near, 1))) == In(m.outer + [m.g], [Name(y)])
  {
    SelfClimb(m, inner, 2, x);
    SelfClimb(m, inner, 1, y);
    assert [Self] + Times(2) + [Name(x)] == [Self, Super, Super, Name(x)];
    assert [Self] + Times(1) + [Name(y)] == [Self, Super, Name(y)];
    assert m.outer[..|m.outer| - 0] == m.outer;
  }

  function Times(n: nat): seq<Segment> {
    if n == 0 then [] else [Super] + Times(n - 1)
  }

  lemma {:induction false} SupersOf(n: nat, x: string)
    ensures var s := Times(n) + [Name(x)]; Supers(s) == n && |s| == n + 1 && s[n..] == [Name(x)]
    decreases n
  {
    if n > 0 {
      SupersOf(n - 1, x);
      assert (Times(n) + [Name(x)])[1..] == Times(n - 1) + [Name(x)];
    }
  }

  lemma SelfClimb(m: Move, inner: string, n: nat, x: string)
    requires 1 <= n <= 2 && n - 1 <= |m.outer|
    ensures var p := Path(false, [Self] + Times(n) + [Name(x)]);
            && Resolve(Old(m, [inner]), p) == In(m.outer[..|m.outer| - (n - 1)], [Name(x)])
            && RebasedPath(p, 1) == p
            && Resolve(New(m, [inner]), p) ==
               if n == 1 then In(m.outer + [m.g], [Name(x)]) else In(m.outer, [Name(x)])
    ensures Times(1) == [Super] && Times(2) == [Super, Super]
  {
    var climb := Times(n) + [Name(x)];
    SupersOf(n, x);
    var p := Path(false, [Self] + Times(n) + [Name(x)]);
    assert p.segments[1..] == climb && Supers(p.segments) == 0;
    ClimbShort(m, [inner], climb);
    ClimbIs(Old(m, [inner]), climb);
    assert m.outer[..|m.outer|] == m.outer;
    assert Times(0) == [] && Times(1) == [Super] + Times(0) && Times(2) == [Super] + Times(1);
  }

  // ----- imports -----

  datatype Kind = Plain | As(alias: string) | All
  datatype Leaf = Leaf(segments: seq<Segment>, kind: Kind)

  function Prefixed(head: Segment, leaves: seq<Leaf>): (r: seq<Leaf>)
    ensures |r| == |leaves|
    ensures forall i :: 0 <= i < |r| ==> r[i] == Leaf([head] + leaves[i].segments, leaves[i].kind)
  {
    seq(|leaves|, i requires 0 <= i < |leaves| => Leaf([head] + leaves[i].segments, leaves[i].kind))
  }

  /** The single imports of a tree. A final `self` names its prefix. */
  function Leaves(tree: UseTree): seq<Leaf>
    decreases tree
  {
    match tree
    case UsePath(head, rest) => Prefixed(head, Leaves(rest))
    case UseName(name) => [Leaf(if name == Self then [] else [name], Plain)]
    case UseRename(name, alias) => [Leaf(if name == Self then [] else [name], As(alias))]
    case UseGlob => [Leaf([], All)]
    case UseGroup(items) => AllLeaves(items)
  }

  function AllLeaves(trees: UseTrees): seq<Leaf>
    decreases trees
  {
    match trees
    case NoTrees => []
    case Trees(head, tail) => Leaves(head) + AllLeaves(tail)
  }

  function Imported(here: seq<string>, leaf: Leaf): Target {
    ResolveImport(here, Path(false, leaf.segments))
  }

  function Member(t: Target, x: string): Target {
    match t
    case In(home, rest) => In(home, rest + [Name(x)])
    case _ => t
  }

  /** A glob must give every name what it gave before. */
  ghost predicate SameImport(m: Move, kind: Kind, after: Target, before: Target) {
    if kind.All? then forall x :: Same(m, Member(after, x), Member(before, x)) else Same(m, after, before)
  }

  /** Each import keeps its form and names what it named. */
  ghost predicate Kept(m: Move, nested: seq<string>, before: seq<Leaf>, after: seq<Leaf>) {
    |before| == |after| && forall i :: 0 <= i < |before| ==> KeptLeaf(m, nested, before[i], after[i])
  }

  ghost predicate KeptLeaf(m: Move, nested: seq<string>, before: Leaf, after: Leaf) {
    && before.kind == after.kind
    && SameImport(m, before.kind, Imported(New(m, nested), after), Imported(Old(m, nested), before))
  }

  /** The guard of the rewriting, for one branch. */
  predicate Rewrites(tree: UseTree, d: nat) {
    (Chain(tree) > 0 && Chain(tree) >= d) || (d == 0 && tree.UsePath? && tree.head == Self)
  }

  function Climbing(segments: seq<Segment>): seq<Segment> {
    if segments != [] && segments[0] == Self then segments[1..] else segments
  }

  /** Left as it is, the import leaves the moved modules and strands. */
  predicate StrandedLeaf(leaf: Leaf, d: nat, defined: set<string>) {
    Escapes(leaf.segments, d) && Strands(Climbing(leaf.segments), d, defined, leaf.kind.All?)
  }

  /** No import of an unwritten branch strands behind a prefix that the guard does not see. */
  predicate Covered(tree: UseTree, d: nat, defined: set<string>)
    decreases tree
  {
    match tree
    case UseGroup(items) => CoveredTrees(items, d, defined)
    case _ => Rewrites(tree, d) || forall i :: 0 <= i < |Leaves(tree)| ==> !StrandedLeaf(Leaves(tree)[i], d, defined)
  }

  predicate CoveredTrees(trees: UseTrees, d: nat, defined: set<string>)
    decreases trees
  {
    match trees
    case NoTrees => true
    case Trees(head, tail) => Covered(head, d, defined) && CoveredTrees(tail, d, defined)
  }

  lemma {:induction false} ChainIsShared(tree: UseTree)
    ensures forall i :: 0 <= i < |Leaves(tree)| ==> Supers(Leaves(tree)[i].segments) >= Chain(tree)
    decreases tree
  {
    if tree.UsePath? && tree.head == Super {
      ChainIsShared(tree.tree);
      forall i | 0 <= i < |Leaves(tree)|
        ensures Supers(Leaves(tree)[i].segments) >= Chain(tree)
      {
        assert Leaves(tree)[i].segments[1..] == Leaves(tree.tree)[i].segments;
      }
    }
  }

  lemma RelocatedImport(m: Move, kind: Kind, t: Target)
    ensures SameImport(m, kind, Relocated(m, t), t)
  {
    RelocatedIsSame(m, t);
    forall x
      ensures Same(m, Member(Relocated(m, t), x), Member(t, x))
    {
      RelocatedIsSame(m, Member(t, x));
      assert Member(Relocated(m, t), x) == Relocated(m, Member(t, x));
    }
  }

  /** The glob counterpart of `ClimbStranded`. */
  lemma GlobStranded(m: Move, nested: seq<string>, climb: seq<Segment>)
    requires Supers(climb) >= |nested|
    ensures var t, u := Climb(Old(m, nested), climb), Climb(New(m, nested), climb);
            && (!Strands(climb, |nested|, m.defined, true) ==> SameImport(m, All, u, t))
            && (t != Broken && Strands(climb, |nested|, m.defined, true) ==> !SameImport(m, All, u, t))
  {
    ClimbShort(m, nested, climb);
    var k, d := Supers(climb), |nested|;
    var t, u := Climb(Old(m, nested), climb), Climb(New(m, nested), climb);
    assert k < |climb| ==> climb[k..][0] == climb[k];
    if t != Broken && Strands(climb, d, m.defined, true) {
      var x: string :| k > d || k < |climb| || x in m.defined;
      assert !Same(m, Member(u, x), Member(t, x));
    } else if !Strands(climb, d, m.defined, true) {
      forall x
        ensures Same(m, Member(u, x), Member(t, x))
      {
        assert t != Broken && k < |climb| ==> (climb[k..] + [Name(x)])[0] == climb[k];
      }
    }
  }

  /** An import left alone keeps its meaning exactly when it does not strand. */
  lemma ImportLeftAlone(m: Move, nested: seq<string>, leaf: Leaf)
    ensures var t, u := Imported(Old(m, nested), leaf), Imported(New(m, nested), leaf);
            && (!StrandedLeaf(leaf, |nested|, m.defined) ==> SameImport(m, leaf.kind, u, t))
            && (StrandedLeaf(leaf, |nested|, m.defined) && t != Broken ==> !SameImport(m, leaf.kind, u, t))
  {
    var segments := leaf.segments;
    var t := Imported(Old(m, nested), leaf);
    RelocatedImport(m, leaf.kind, t);
    if segments != [] && (segments[0] == Super || segments[0] == Self) {
      if !Escapes(segments, |nested|) {
        ClimbInside(m, nested, Climbing(segments));
      } else if leaf.kind.All? {
        GlobStranded(m, nested, Climbing(segments));
      } else {
        ClimbStranded(m, nested, Climbing(segments));
      }
    }
  }

  lemma ImportRewritten(m: Move, nested: seq<string>, tree: UseTree)
    requires Rewrites(tree, |nested|) && !tree.UseGroup?
    ensures Kept(m, nested, Leaves(tree), Leaves(RebasedTree(tree, |nested|)))
  {
    var before, after := Leaves(tree), Leaves(RebasedTree(tree, |nested|));
    ChainIsShared(tree);
    forall i | 0 <= i < |before|
      ensures KeptLeaf(m, nested, before[i], after[i])
    {
      RelocatedImport(m, before[i].kind, Imported(Old(m, nested), before[i]));
      if Chain(tree) > 0 && Chain(tree) >= |nested| {
        ClimbOut(m, nested, before[i].segments);
      } else {
        assert before[i].segments[1..] == Leaves(tree.tree)[i].segments;
        assert after[i].segments == [Super] + Leaves(tree.tree)[i].segments;
        ClimbOut(m, nested, before[i].segments[1..]);
      }
    }
  }

  predicate AllResolve(here: seq<string>, leaves: seq<Leaf>) {
    forall i :: 0 <= i < |leaves| ==> Imported(here, leaves[i]) != Broken
  }

  lemma BranchIsKept(m: Move, nested: seq<string>, tree: UseTree)
    requires !tree.UseGroup?
    ensures |Leaves(tree)| == |Leaves(RebasedTree(tree, |nested|))|
    ensures Covered(tree, |nested|, m.defined) ==> Kept(m, nested, Leaves(tree), Leaves(RebasedTree(tree, |nested|)))
    ensures AllResolve(Old(m, nested), Leaves(tree)) ==>
              (Covered(tree, |nested|, m.defined) <==>
               Kept(m, nested, Leaves(tree), Leaves(RebasedTree(tree, |nested|))))
  {
    if Rewrites(tree, |nested|) {
      ImportRewritten(m, nested, tree);
    } else {
      var leaves := Leaves(tree);
      forall i | 0 <= i < |leaves|
        ensures var t, u := Imported(Old(m, nested), leaves[i]), Imported(New(m, nested), leaves[i]);
                && (!StrandedLeaf(leaves[i], |nested|, m.defined) ==> SameImport(m, leaves[i].kind, u, t))
                && (StrandedLeaf(leaves[i], |nested|, m.defined) && t != Broken ==>
                      !SameImport(m, leaves[i].kind, u, t))
      {
        ImportLeftAlone(m, nested, leaves[i]);
      }
    }
  }

  lemma KeptAppend(m: Move, nested: seq<string>, a: seq<Leaf>, b: seq<Leaf>, c: seq<Leaf>, d: seq<Leaf>)
    requires |a| == |c|
    ensures Kept(m, nested, a + b, c + d) <==> Kept(m, nested, a, c) && Kept(m, nested, b, d)
    ensures AllResolve(Old(m, nested), a + b) <==> AllResolve(Old(m, nested), a) && AllResolve(Old(m, nested), b)
  {
    assert forall i :: 0 <= i < |a| ==> (a + b)[i] == a[i] && (c + d)[i] == c[i];
    assert forall i :: 0 <= i < |b| ==> (a + b)[|a| + i] == b[i];
    assert forall i :: 0 <= i < |d| ==> (c + d)[|c| + i] == d[i];
  }

  /** An import tree keeps all its meanings when it is covered; if all of it resolves, only then. */
  lemma {:induction false} TreeIsPreserved(m: Move, nested: seq<string>, tree: UseTree)
    ensures |Leaves(tree)| == |Leaves(RebasedTree(tree, |nested|))|
    ensures Covered(tree, |nested|, m.defined) ==> Kept(m, nested, Leaves(tree), Leaves(RebasedTree(tree, |nested|)))
    ensures AllResolve(Old(m, nested), Leaves(tree)) ==>
              (Covered(tree, |nested|, m.defined) <==>
               Kept(m, nested, Leaves(tree), Leaves(RebasedTree(tree, |nested|))))
    decreases tree
  {
    if tree.UseGroup? {
      TreesArePreserved(m, nested, tree.items);
    } else {
      BranchIsKept(m, nested, tree);
    }
  }

  lemma {:induction false} TreesArePreserved(m: Move, nested: seq<string>, trees: UseTrees)
    ensures |AllLeaves(trees)| == |AllLeaves(RebasedTrees(trees, |nested|))|
    ensures CoveredTrees(trees, |nested|, m.defined) ==>
              Kept(m, nested, AllLeaves(trees), AllLeaves(RebasedTrees(trees, |nested|)))
    ensures AllResolve(Old(m, nested), AllLeaves(trees)) ==>
              (CoveredTrees(trees, |nested|, m.defined) <==>
               Kept(m, nested, AllLeaves(trees), AllLeaves(RebasedTrees(trees, |nested|))))
    decreases trees
  {
    if trees.Trees? {
      var d := |nested|;
      TreeIsPreserved(m, nested, trees.head);
      TreesArePreserved(m, nested, trees.tail);
      KeptAppend(m, nested, Leaves(trees.head), AllLeaves(trees.tail),
                 Leaves(RebasedTree(trees.head, d)), AllLeaves(RebasedTrees(trees.tail, d)));
    }
  }

  /**
   A `super` behind a prefix is not counted: two modules down,
   `super::{super::super::x}` takes three steps where four are needed.
   */
  lemma HiddenSuperIsStranded(m: Move, a: string, b: string, x: string)
    requires m.outer != []
    ensures var tree := UsePath(Super, UseGroup(Trees(UsePath(Super, UsePath(Super, UseName(Name(x)))), NoTrees)));
            && RebasedTree(tree, 2) == tree && !Covered(tree, 2, m.defined) && |Leaves(tree)| == 1
            && Imported(Old(m, [a, b]), Leaves(tree)[0]) == In(m.outer[..|m.outer| - 1], [Name(x)])
            && Imported(New(m, [a, b]), Leaves(tree)[0]) == In(m.outer, [Name(x)])
  {
    var group := UseGroup(Trees(UsePath(Super, UsePath(Super, UseName(Name(x)))), NoTrees));
    var tree := UsePath(Super, group);
    var climb := Times(3) + [Name(x)];
    SupersOf(3, x);
    HiddenLeaf(x);
    assert Chain(group) == 0 && Chain(tree) == 1 && !Rewrites(tree, 2);
    ClimbShort(m, [a, b], climb);
    ClimbIs(Old(m, [a, b]), climb);
    assert m.outer[..|m.outer|] == m.outer && StrandedLeaf(Leaves(tree)[0], 2, m.defined);
  }

  lemma HiddenLeaf(x: string)
    ensures var tree := UsePath(Super, UseGroup(Trees(UsePath(Super, UsePath(Super, UseName(Name(x)))), NoTrees)));
            Leaves(tree) == [Leaf(Times(3) + [Name(x)], Plain)]
  {
    var inner := UsePath(Super, UsePath(Super, UseName(Name(x))));
    var group := UseGroup(Trees(inner, NoTrees));
    var tree := UsePath(Super, group);
    assert Leaves(UseName(Name(x))) == [Leaf([Name(x)], Plain)];
    assert Leaves(UsePath(Super, UseName(Name(x)))) == [Leaf([Super] + [Name(x)], Plain)];
    assert Leaves(inner) == [Leaf([Super] + ([Super] + [Name(x)]), Plain)];
    assert AllLeaves(NoTrees) == [] && Leaves(group) == Leaves(inner) + [];
    assert Times(0) == [] && Times(1) == [Super] + Times(0);
    assert Times(2) == [Super] + Times(1) && Times(3) == [Super] + Times(2);
    assert Times(3) + [Name(x)] == [Super] + ([Super] + ([Super] + [Name(x)]));
    assert Leaves(tree) == Prefixed(Super, Leaves(inner));
  }

  // ----- whole source -----

  /** Every path and import in `before`, at any nesting depth, keeps its meaning in `after`. */
  ghost predicate SameMeaning(m: Move, nested: seq<string>, before: Nodes, after: Nodes)
    decreases before
  {
    match (before, after)
    case (NoNodes, NoNodes) => true
    case (Nodes(a, rest), Nodes(b, tail)) => SameNode(m, nested, a, b) && SameMeaning(m, nested, rest, tail)
    case _ => false
  }

  ghost predicate SameNode(m: Move, nested: seq<string>, before: Node, after: Node)
    decreases before
  {
    match (before, after)
    case (Mention(p), Mention(q)) => Same(m, Resolve(New(m, nested), q), Resolve(Old(m, nested), p))
    case (Import(leading, s), Import(leads, t)) =>
      leading == leads && if leading then s == t else Kept(m, nested, Leaves(s), Leaves(t))
    case (Block(body), Block(inner)) => SameMeaning(m, nested, body, inner)
    case (Module(n, body), Module(o, inner)) => n == o && SameMeaning(m, nested + [n], body, inner)
    case _ => false
  }

  predicate Supported(nodes: Nodes, d: nat, defined: set<string>)
    decreases nodes
  {
    nodes.Nodes? ==> SupportedNode(nodes.head, d, defined) && Supported(nodes.tail, d, defined)
  }

  /** No `self` path and no hidden `super` import strands. */
  predicate SupportedNode(node: Node, d: nat, defined: set<string>)
    decreases node
  {
    match node
    case Mention(p) => !StrandedPath(p, d, defined)
    case Import(leading, tree) => leading || Covered(tree, d, defined)
    case Block(body) => Supported(body, d, defined)
    case Module(_, body) => Supported(body, d + 1, defined)
  }

  /** Every path and import resolves where it was written. */
  predicate Resolving(outer: seq<string>, nested: seq<string>, nodes: Nodes)
    decreases nodes
  {
    nodes.Nodes? ==> ResolvingNode(outer, nested, nodes.head) && Resolving(outer, nested, nodes.tail)
  }

  predicate ResolvingNode(outer: seq<string>, nested: seq<string>, node: Node)
    decreases node
  {
    match node
    case Mention(p) => Resolve(outer + nested, p) != Broken
    case Import(leading, tree) => leading || AllResolve(outer + nested, Leaves(tree))
    case Block(body) => Resolving(outer, nested, body)
    case Module(n, body) => Resolving(outer, nested + [n], body)
  }

  /** Rebasing preserves the meaning of all supported source, at every depth; if the source resolves, of no other. */
  lemma {:induction false} RebasingPreservesMeaning(m: Move, nested: seq<string>, nodes: Nodes)
    ensures Supported(nodes, |nested|, m.defined) ==> SameMeaning(m, nested, nodes, RebasedNodes(nodes, |nested|))
    ensures Resolving(m.outer, nested, nodes) ==>
              (SameMeaning(m, nested, nodes, RebasedNodes(nodes, |nested|)) <==> Supported(nodes, |nested|, m.defined))
    decreases nodes
  {
    if nodes.Nodes? {
      NodeIsPreserved(m, nested, nodes.head);
      RebasingPreservesMeaning(m, nested, nodes.tail);
    }
  }

  lemma {:induction false} NodeIsPreserved(m: Move, nested: seq<string>, node: Node)
    ensures SupportedNode(node, |nested|, m.defined) ==> SameNode(m, nested, node, RebasedNode(node, |nested|))
    ensures ResolvingNode(m.outer, nested, node) ==>
              (SameNode(m, nested, node, RebasedNode(node, |nested|)) <==> SupportedNode(node, |nested|, m.defined))
    decreases node
  {
    match node
    case Mention(p) => PathIsPreserved(m, nested, p);
    case Import(leading, tree) => TreeIsPreserved(m, nested, tree);
    case Block(body) => RebasingPreservesMeaning(m, nested, body);
    case Module(name, body) => RebasingPreservesMeaning(m, nested + [name], body);
  }

  // ----- the generated module -----

  function Text(segment: Segment): string {
    match segment
    case Super => "super"
    case Self => "self"
    case Crate => "crate"
    case Name(text) => text
  }

  /** The names that a tree binds, when all of them are written. */
  function ImportNames(tree: UseTree): (names: Option<set<string>>)
    decreases tree
  {
    match tree
    case UsePath(_, rest) => ImportNames(rest)
    case UseName(name) => if name == Self then None else Some({Text(name)})
    case UseRename(_, alias) => Some({alias})
    case UseGlob => None
    case UseGroup(items) => AllImportNames(items)
  }

  function AllImportNames(trees: UseTrees): Option<set<string>>
    decreases trees
  {
    match trees
    case NoTrees => Some({})
    case Trees(head, tail) =>
      var first, others := ImportNames(head), AllImportNames(tail);
      if first.Some? && others.Some? then Some(first.value + others.value) else None
  }

  function ImportRoots(tree: UseTree): set<string>
    decreases tree
  {
    match tree
    case UsePath(head, _) => {Text(head)}
    case UseName(name) => {Text(name)}
    case UseRename(name, _) => {Text(name)}
    case UseGlob => {}
    case UseGroup(items) => AllImportRoots(items)
  }

  function AllImportRoots(trees: UseTrees): set<string>
    decreases trees
  {
    match trees case NoTrees => {} case Trees(head, tail) => ImportRoots(head) + AllImportRoots(tail)
  }

  /** Whether an import of the configuring function moves: it needs no local item, and hides no parameter. */
  predicate Moves(leading: bool, tree: UseTree, local: set<string>, parameters: set<string>) {
    && (leading || (tree.UsePath? && !tree.head.Name?) || ImportRoots(tree) !! local)
    && ImportNames(tree).Some? && ImportNames(tree).value !! parameters
  }

  /** Whether the tree imports a prefix by a final `self`. */
  predicate NamesSelf(tree: UseTree)
    decreases tree
  {
    match tree
    case UsePath(_, rest) => NamesSelf(rest)
    case UseName(name) => name == Self
    case UseGroup(items) => AnyNamesSelf(items)
    case _ => false
  }

  predicate AnyNamesSelf(trees: UseTrees)
    decreases trees
  {
    match trees case NoTrees => false case Trees(head, tail) => NamesSelf(head) || AnyNamesSelf(tail)
  }

  /** The name that a single import binds. */
  function Bound(leaf: Leaf): string {
    match leaf.kind
    case As(alias) => alias
    case _ => if leaf.segments == [] then "" else Text(leaf.segments[|leaf.segments| - 1])
  }

  /** The trees that outermost groups consist of. */
  function Branches(tree: UseTree): seq<UseTree>
    decreases tree
  {
    if tree.UseGroup? then AllBranches(tree.items) else [tree]
  }

  function AllBranches(trees: UseTrees): seq<UseTree>
    decreases trees
  {
    match trees case NoTrees => [] case Trees(head, tail) => Branches(head) + AllBranches(tail)
  }

  function Head(branch: UseTree): Option<Segment> {
    match branch
    case UsePath(head, _) => Some(head)
    case UseName(name) => Some(name)
    case UseRename(name, _) => Some(name)
    case _ => None
  }

  predicate Globs(leaves: seq<Leaf>) {
    exists i :: 0 <= i < |leaves| && leaves[i].kind.All?
  }

  predicate Binds(leaves: seq<Leaf>, x: string) {
    exists i :: 0 <= i < |leaves| && Bound(leaves[i]) == x
  }

  predicate StartsAt(branches: seq<UseTree>, x: string) {
    exists i :: 0 <= i < |branches| && Head(branches[i]).Some? && Text(Head(branches[i]).value) == x
  }

  /**
   An import of the configuring function moves exactly when every single
   import in it has a written name that no parameter in scope has, and it is
   absolute or none of its branches starts at a local item.
   */
  lemma MovesExactly(leading: bool, tree: UseTree, local: set<string>, parameters: set<string>)
    ensures Moves(leading, tree, local, parameters) <==>
            && !NamesSelf(tree) && !Globs(Leaves(tree))
            && (forall x :: x in parameters ==> !Binds(Leaves(tree), x))
            && (leading || (tree.UsePath? && !tree.head.Name?)
                || forall x :: x in local ==> !StartsAt(Branches(tree), x))
  {
    NamesAreBound(tree);
    forall x
      ensures x in ImportRoots(tree) <==> StartsAt(Branches(tree), x)
    {
      RootsAreHeads(tree, x);
    }
  }

  lemma {:induction false} NamesAreBound(tree: UseTree)
    ensures ImportNames(tree).None? <==> NamesSelf(tree) || Globs(Leaves(tree))
    ensures ImportNames(tree).Some? ==> forall x :: x in ImportNames(tree).value <==> Binds(Leaves(tree), x)
    ensures ImportNames(tree).Some? ==>
              forall i :: 0 <= i < |Leaves(tree)| ==> Leaves(tree)[i].kind.As? || Leaves(tree)[i].segments != []
    decreases tree
  {
    var leaves := Leaves(tree);
    match tree
    case UsePath(_, rest) =>
      NamesAreBound(rest);
      assert |leaves| == |Leaves(rest)| && forall i :: 0 <= i < |leaves| ==> leaves[i].kind == Leaves(rest)[i].kind;
      if ImportNames(tree).Some? {
        forall i | 0 <= i < |leaves|
          ensures Bound(leaves[i]) == Bound(Leaves(rest)[i])
        {
        }
      }
    case UseGroup(items) => AllNamesAreBound(items);
    case UseGlob => assert leaves[0].kind.All?;
    case UseName(_) => assert leaves[0].kind.Plain?;
    case UseRename(_, alias) => assert Bound(leaves[0]) == alias;
  }

  lemma {:induction false} AllNamesAreBound(trees: UseTrees)
    ensures AllImportNames(trees).None? <==> AnyNamesSelf(trees) || Globs(AllLeaves(trees))
    ensures AllImportNames(trees).Some? ==>
              forall x :: x in AllImportNames(trees).value <==> Binds(AllLeaves(trees), x)
    ensures AllImportNames(trees).Some? ==>
              forall i :: 0 <= i < |AllLeaves(trees)| ==>
                AllLeaves(trees)[i].kind.As? || AllLeaves(trees)[i].segments != []
    decreases trees
  {
    if trees.Trees? {
      var first, others := Leaves(trees.head), AllLeaves(trees.tail);
      NamesAreBound(trees.head);
      AllNamesAreBound(trees.tail);
      LeavesAppend(first, others);
    }
  }

  lemma LeavesAppend(first: seq<Leaf>, others: seq<Leaf>)
    ensures Globs(first + others) <==> Globs(first) || Globs(others)
    ensures forall x :: Binds(first + others, x) <==> Binds(first, x) || Binds(others, x)
  {
    var leaves := first + others;
    assert forall i :: 0 <= i < |first| ==> leaves[i] == first[i];
    assert forall i :: 0 <= i < |others| ==> leaves[|first| + i] == others[i];
    forall x
      ensures Binds(leaves, x) <==> Binds(first, x) || Binds(others, x)
    {
    }
  }

  lemma {:induction false} RootsAreHeads(tree: UseTree, x: string)
    ensures x in ImportRoots(tree) <==> StartsAt(Branches(tree), x)
    decreases tree
  {
    if tree.UseGroup? {
      AllRootsAreHeads(tree.items, x);
    } else {
      assert Branches(tree)[0] == tree;
    }
  }

  lemma {:induction false} AllRootsAreHeads(trees: UseTrees, x: string)
    ensures x in AllImportRoots(trees) <==> StartsAt(AllBranches(trees), x)
    decreases trees
  {
    if trees.Trees? {
      RootsAreHeads(trees.head, x);
      AllRootsAreHeads(trees.tail, x);
      StartsAtEither(Branches(trees.head), AllBranches(trees.tail), x);
    }
  }

  lemma StartsAtEither(first: seq<UseTree>, others: seq<UseTree>, x: string)
    ensures StartsAt(first + others, x) <==> StartsAt(first, x) || StartsAt(others, x)
  {
    var all := first + others;
    if i :| 0 <= i < |first| && Head(first[i]).Some? && Text(Head(first[i]).value) == x {
      assert all[i] == first[i];
    } else if i :| 0 <= i < |others| && Head(others[i]).Some? && Text(Head(others[i]).value) == x {
      assert all[|first| + i] == others[i];
    }
  }

  function MovedOf(uses: seq<Node>, local: set<string>, bound: seq<set<string>>): seq<Node>
    requires |bound| == |uses| && forall i :: 0 <= i < |uses| ==> uses[i].Import?
  {
    if uses == [] then []
    else
      (if Moves(uses[0].leading, uses[0].tree, local, bound[0]) then [uses[0]] else [])
      + MovedOf(uses[1..], local, bound[1..])
  }

  /**
   The imports that are copied into the generated module; any other makes the
   bindings uncertain. `bound[i]` are the parameters in scope when import `i` is examined.
   */
  method MoveImports(uses: seq<Node>, local: set<string>, bound: seq<set<string>>)
      returns (imports: seq<Node>, uncertain: bool)
    requires |bound| == |uses| && forall i :: 0 <= i < |uses| ==> uses[i].Import?
    ensures imports == MovedOf(uses, local, bound)
    ensures uncertain <==> exists i :: 0 <= i < |uses| && !Moves(uses[i].leading, uses[i].tree, local, bound[i])
  {
    imports, uncertain := [], false;
    for i := 0 to |uses|
      invariant imports + MovedOf(uses[i..], local, bound[i..]) == MovedOf(uses, local, bound)
      invariant uncertain <==> exists j :: 0 <= j < i && !Moves(uses[j].leading, uses[j].tree, local, bound[j])
    {
      MovedNext(imports, uses[i..], local, bound[i..]);
      assert uses[i..][0] == uses[i] && uses[i..][1..] == uses[i + 1..];
      assert bound[i..][0] == bound[i] && bound[i..][1..] == bound[i + 1..];
      if Moves(uses[i].leading, uses[i].tree, local, bound[i]) {
        imports := imports + [uses[i]];
      } else {
        uncertain := true;
      }
    }
  }

  lemma MovedNext(imports: seq<Node>, uses: seq<Node>, local: set<string>, bound: seq<set<string>>)
    requires |bound| == |uses| > 0 && forall i :: 0 <= i < |uses| ==> uses[i].Import?
    ensures imports + MovedOf(uses, local, bound) ==
              imports + (if Moves(uses[0].leading, uses[0].tree, local, bound[0]) then [uses[0]] else [])
              + MovedOf(uses[1..], local, bound[1..])
  {
    var first := if Moves(uses[0].leading, uses[0].tree, local, bound[0]) then [uses[0]] else [];
    Associates(imports, first, MovedOf(uses[1..], local, bound[1..]));
  }

  lemma {:induction false} WrittenNamesHaveNoGlob(tree: UseTree)
    requires ImportNames(tree).Some?
    ensures forall i :: 0 <= i < |Leaves(tree)| ==> !Leaves(tree)[i].kind.All?
    decreases tree
  {
    match tree
    case UsePath(_, rest) => WrittenNamesHaveNoGlob(rest);
    case UseGroup(items) => AllWrittenNamesHaveNoGlob(items);
    case _ =>
  }

  lemma {:induction false} AllWrittenNamesHaveNoGlob(trees: UseTrees)
    requires AllImportNames(trees).Some?
    ensures forall i :: 0 <= i < |AllLeaves(trees)| ==> !AllLeaves(trees)[i].kind.All?
    decreases trees
  {
    if trees.Trees? {
      WrittenNamesHaveNoGlob(trees.head);
      AllWrittenNamesHaveNoGlob(trees.tail);
    }
  }

  /** No import that moves is a glob; in particular none is the generated module's own parent glob. */
  lemma {:induction false} MovedIsNoParentGlob(uses: seq<Node>, local: set<string>, bound: seq<set<string>>)
    requires |bound| == |uses| && forall i :: 0 <= i < |uses| ==> uses[i].Import?
    ensures forall use :: use in MovedOf(uses, local, bound) ==>
              && use.Import? && !ParentGlob(use)
              && forall i :: 0 <= i < |Leaves(use.tree)| ==> !Leaves(use.tree)[i].kind.All?
    decreases |uses|
  {
    if uses != [] {
      MovedIsNoParentGlob(uses[1..], local, bound[1..]);
      assert ImportNames(UsePath(Super, UseGlob)) == ImportNames(UseGlob);
      if ImportNames(uses[0].tree).Some? {
        WrittenNamesHaveNoGlob(uses[0].tree);
      }
    }
  }

  function Joined(imports: seq<Node>, items: Nodes): Nodes {
    if imports == [] then items else Nodes(imports[0], Joined(imports[1..], items))
  }

  const PARENT_GLOB: Node := Import(false, UsePath(Super, UseGlob))

  /** The generated module: its parent glob, the moved imports, and the generated items with the moved bodies. */
  function Generated(imports: seq<Node>, items: Nodes): Nodes {
    Nodes(PARENT_GLOB, Joined(imports, items))
  }

  /** Imports among the generated items themselves are absolute; those inside bodies are as they were written. */
  predicate AbsoluteImports(nodes: Nodes) {
    nodes.Nodes? ==> (nodes.head.Import? ==> nodes.head.leading) && AbsoluteImports(nodes.tail)
  }

  lemma {:induction false} OnlyParentGlobStays(imports: seq<Node>, items: Nodes)
    requires (forall use :: use in imports ==> !ParentGlob(use)) && AbsoluteImports(items)
    ensures RebasedModule(Joined(imports, items)) == RebasedNodes(Joined(imports, items), 0)
    decreases |imports|, items
  {
    if imports != [] {
      OnlyParentGlobStays(imports[1..], items);
    } else if items.Nodes? {
      OnlyParentGlobStays([], items.tail);
    }
  }

  /**
   The module as it is generated: its own parent glob is kept and imports the
   outer module; everything after it keeps its meaning when it is supported,
   and if it resolves, only then.
   */
  lemma ModuleIsPreserved(m: Move, uses: seq<Node>, local: set<string>, bound: seq<set<string>>, items: Nodes)
    requires |bound| == |uses| && (forall i :: 0 <= i < |uses| ==> uses[i].Import?) && AbsoluteImports(items)
    ensures var source := Joined(MovedOf(uses, local, bound), items);
            var moved := RebasedModule(Generated(MovedOf(uses, local, bound), items));
            && moved == Nodes(PARENT_GLOB, RebasedNodes(source, 0))
            && Imported(m.outer + [m.g], Leaves(PARENT_GLOB.tree)[0]) == In(m.outer, [])
            && (Supported(source, 0, m.defined) ==> SameMeaning(m, [], source, moved.tail))
            && (Resolving(m.outer, [], source) ==>
                  (SameMeaning(m, [], source, moved.tail) <==> Supported(source, 0, m.defined)))
  {
    var imports := MovedOf(uses, local, bound);
    MovedIsNoParentGlob(uses, local, bound);
    OnlyParentGlobStays(imports, items);
    RebasingPreservesMeaning(m, [], Joined(imports, items));
    assert Leaves(UsePath(Super, UseGlob))[0] == Leaf([Super], All);
    assert [Super][1..] == [] && (m.outer + [m.g])[..|m.outer|] == m.outer;
  }
}
