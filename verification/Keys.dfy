/**
 Exact type-level symbol keys.

 `Encode` packs the bits of a text into a balanced tree. Two keys compare
 equal exactly when their texts are the same.
 */
module Keys {

  datatype Tree = Zero | One | Pad | Pair(left: Tree, right: Tree)

  datatype Answer = Yes | No

  // ----- type-level answers -----

  function And(a: Answer, b: Answer): Answer {
    match a
    case No => No
    case Yes => b
  }

  function Or(a: Answer, b: Answer): Answer {
    match a
    case Yes => Yes
    case No => b
  }

  /** Structural equality, one case per implementation. */
  function Equal(a: Tree, b: Tree): Answer {
    match (a, b)
    case (Zero, Zero) => Yes
    case (One, One) => Yes
    case (Pad, Pad) => Yes
    case (Pair(l, r), Pair(m, s)) => And(Equal(l, m), Equal(r, s))
    case _ => No
  }

  lemma {:induction false} EqualIsIdentity(a: Tree, b: Tree)
    ensures Equal(a, b) == Yes <==> a == b
  {
    if a.Pair? && b.Pair? {
      EqualIsIdentity(a.left, b.left);
      EqualIsIdentity(a.right, b.right);
    }
  }

  // ----- specification of an encoding -----

  function Pow2(d: nat): (p: nat)
    ensures p > 0
  {
    if d == 0 then 1 else 2 * Pow2(d - 1)
  }

  /** All leaves are at depth `d`. */
  predicate Perfect(t: Tree, d: nat) {
    if d == 0 then !t.Pair? else t.Pair? && Perfect(t.left, d - 1) && Perfect(t.right, d - 1)
  }

  function Leaves(t: Tree): seq<Tree> {
    match t
    case Pair(l, r) => Leaves(l) + Leaves(r)
    case _ => [t]
  }

  predicate Bit(b: bv8, i: nat)
    requires i < 8
  {
    b & (1 << i) != 0
  }

  /** The bits of a text, least significant bit of each byte first, then padding. */
  function Leaf(text: seq<bv8>, j: nat): Tree {
    if j >= 8 * |text| then Pad else if Bit(text[j / 8], j % 8) then One else Zero
  }

  predicate Spells(leaves: seq<Tree>, text: seq<bv8>, n: nat) {
    |leaves| == n >= 8 * |text| && forall j :: 0 <= j < n ==> leaves[j] == Leaf(text, j)
  }

  /** `d` is the least depth whose perfect tree has room for `n` leaves. */
  predicate LeastDepth(n: nat, d: nat) {
    n <= Pow2(d) && (d > 0 ==> Pow2(d - 1) < n)
  }

  /** `t` is the least perfect tree whose leaves spell `text`. */
  ghost predicate Encodes(t: Tree, text: seq<bv8>) {
    exists d: nat :: LeastDepth(8 * |text|, d) && Perfect(t, d) && Spells(Leaves(t), text, Pow2(d))
  }

  // ----- the encoder -----

  method BitLeaves(text: seq<bv8>) returns (leaves: seq<Tree>)
    ensures Spells(leaves, text, 8 * |text|)
  {
    leaves := [];
    for k := 0 to |text|
      invariant Spells(leaves, text[..k], 8 * k)
    {
      assert forall j :: 0 <= j < 8 * k ==> Leaf(text[..k + 1], j) == Leaf(text[..k], j);
      for bit := 0 to 8
        invariant |leaves| == 8 * k + bit
        invariant forall j :: 0 <= j < |leaves| ==> leaves[j] == Leaf(text[..k + 1], j)
      {
        assert (8 * k + bit) / 8 == k && (8 * k + bit) % 8 == bit;
        leaves := leaves + [if text[k] & (1 << bit) == 0 then Zero else One];
      }
    }
    assert text[..|text|] == text;
  }

  /** The least power of two that is at least `n`. */
  method NextPowerOfTwo(n: nat) returns (p: nat, ghost d: nat)
    ensures p == Pow2(d) && LeastDepth(n, d)
  {
    p, d := 1, 0;
    while p < n
      invariant p == Pow2(d) && (d > 0 ==> Pow2(d - 1) < n)
      decreases n - p
    {
      p, d := 2 * p, d + 1;
    }
  }

  function Flat(ts: seq<Tree>): seq<Tree> {
    if ts == [] then [] else Leaves(ts[0]) + Flat(ts[1..])
  }

  lemma {:induction false} FlatAppend(a: seq<Tree>, b: seq<Tree>)
    ensures Flat(a + b) == Flat(a) + Flat(b)
    decreases |a|
  {
    if a == [] {
      assert a + b == b;
    } else {
      assert (a + b)[1..] == a[1..] + b;
      FlatAppend(a[1..], b);
    }
  }

  lemma {:induction false} FlatLeaves(ts: seq<Tree>)
    requires forall i :: 0 <= i < |ts| ==> !ts[i].Pair?
    ensures Flat(ts) == ts
    decreases |ts|
  {
    if ts != [] {
      FlatLeaves(ts[1..]);
      assert ts == [ts[0]] + ts[1..];
    }
  }

  lemma PairsAppend(ts: seq<Tree>, done: seq<Tree>, k: nat)
    requires 2 * k + 1 < |ts| && Flat(done) == Flat(ts[..2 * k])
    ensures Flat(done + [Pair(ts[2 * k], ts[2 * k + 1])]) == Flat(ts[..2 * (k + 1)])
  {
    var l, r := ts[2 * k], ts[2 * k + 1];
    FlatAppend(done, [Pair(l, r)]);
    assert ts[..2 * (k + 1)] == ts[..2 * k] + [l, r];
    FlatAppend(ts[..2 * k], [l, r]);
    assert Flat([l, r]) == Leaves(l) + Leaves(r) by {
      assert [l, r][1..] == [r] && [r][1..] == [];
    }
    assert Flat([Pair(l, r)]) == Leaves(Pair(l, r)) by {
      assert [Pair(l, r)][1..] == [];
    }
  }

  /** One round: neighbouring trees become one tree. */
  method PairUp(ts: seq<Tree>, ghost h: nat) returns (pairs: seq<Tree>)
    requires |ts| % 2 == 0 && forall i :: 0 <= i < |ts| ==> Perfect(ts[i], h)
    ensures |pairs| == |ts| / 2 && Flat(pairs) == Flat(ts)
    ensures forall i :: 0 <= i < |pairs| ==> Perfect(pairs[i], h + 1)
  {
    pairs := [];
    for k := 0 to |ts| / 2
      invariant |pairs| == k && Flat(pairs) == Flat(ts[..2 * k])
      invariant forall i :: 0 <= i < k ==> Perfect(pairs[i], h + 1)
    {
      PairsAppend(ts, pairs, k);
      pairs := pairs + [Pair(ts[2 * k], ts[2 * k + 1])];
    }
    assert ts[..|ts|] == ts;
  }

  method Encode(text: seq<bv8>) returns (t: Tree)
    ensures Encodes(t, text)
  {
    var leaves := BitLeaves(text);
    var n, d := NextPowerOfTwo(if |leaves| == 0 then 1 else |leaves|);
    leaves := leaves + seq(n - |leaves|, _ => Pad);
    assert Spells(leaves, text, Pow2(d));
    ghost var spelled := leaves;
    ghost var h: nat := 0;
    OnlyLeaves(leaves, text, n);
    FlatLeaves(leaves);
    while |leaves| > 1
      invariant h <= d && |leaves| == Pow2(d - h) && Flat(leaves) == spelled
      invariant forall i :: 0 <= i < |leaves| ==> Perfect(leaves[i], h)
      decreases d - h
    {
      leaves := PairUp(leaves, h);
      h := h + 1;
    }
    assert h == d;
    t := leaves[0];
    assert Flat(leaves) == Leaves(t) by {
      assert leaves[1..] == [];
    }
    assert LeastDepth(8 * |text|, d) by {
      if |text| == 0 {
        assert d == 0;
      }
    }
  }

  lemma OnlyLeaves(leaves: seq<Tree>, text: seq<bv8>, n: nat)
    requires Spells(leaves, text, n)
    ensures forall i :: 0 <= i < |leaves| ==> !leaves[i].Pair?
  {
  }

  // ----- exactness -----

  lemma SameByte(a: bv8, b: bv8)
    requires forall i :: 0 <= i < 8 ==> (Bit(a, i) <==> Bit(b, i))
    ensures a == b
  {
    assert Bit(a, 0) == Bit(b, 0) && Bit(a, 1) == Bit(b, 1) && Bit(a, 2) == Bit(b, 2) && Bit(a, 3) == Bit(b, 3);
    assert Bit(a, 4) == Bit(b, 4) && Bit(a, 5) == Bit(b, 5) && Bit(a, 6) == Bit(b, 6) && Bit(a, 7) == Bit(b, 7);
  }

  lemma PaddingStart(leaves: seq<Tree>, text: seq<bv8>, n: nat, j: nat)
    requires Spells(leaves, text, n) && j < n
    ensures leaves[j] == Pad <==> j >= 8 * |text|
  {
  }

  /** Padding differs from both bits, so spelled leaves determine the text. */
  lemma SpellsOnce(leaves: seq<Tree>, a: seq<bv8>, b: seq<bv8>, n: nat)
    requires Spells(leaves, a, n) && Spells(leaves, b, n)
    ensures a == b
  {
    var shorter := if |a| < |b| then |a| else |b|;
    if 8 * shorter < n {
      PaddingStart(leaves, a, n, 8 * shorter);
      PaddingStart(leaves, b, n, 8 * shorter);
    }
    assert |a| == |b|;
    forall k | 0 <= k < |a|
      ensures a[k] == b[k]
    {
      forall i | 0 <= i < 8
        ensures Bit(a[k], i) <==> Bit(b[k], i)
      {
        var j := 8 * k + i;
        assert j / 8 == k && j % 8 == i;
        assert leaves[j] == Leaf(a, j) && leaves[j] == Leaf(b, j);
      }
      SameByte(a[k], b[k]);
    }
  }

  lemma SpellsSame(l: seq<Tree>, m: seq<Tree>, text: seq<bv8>, n: nat)
    requires Spells(l, text, n) && Spells(m, text, n)
    ensures l == m
  {
  }

  lemma {:induction false} PerfectSize(t: Tree, d: nat)
    requires Perfect(t, d)
    ensures |Leaves(t)| == Pow2(d)
    decreases d
  {
    if d > 0 {
      PerfectSize(t.left, d - 1);
      PerfectSize(t.right, d - 1);
    }
  }

  /** Perfect trees of one depth are determined by their leaves. */
  lemma {:induction false} PerfectOnce(t: Tree, u: Tree, d: nat)
    requires Perfect(t, d) && Perfect(u, d) && Leaves(t) == Leaves(u)
    ensures t == u
    decreases d
  {
    if d > 0 {
      PerfectSize(t.left, d - 1);
      PerfectSize(u.left, d - 1);
      var n := Pow2(d - 1);
      assert Leaves(t.left) == Leaves(t)[..n] && Leaves(t.right) == Leaves(t)[n..];
      assert Leaves(u.left) == Leaves(u)[..n] && Leaves(u.right) == Leaves(u)[n..];
      PerfectOnce(t.left, u.left, d - 1);
      PerfectOnce(t.right, u.right, d - 1);
    } else {
      assert Leaves(t) == [t] && Leaves(u) == [u];
      assert [t][0] == [u][0];
    }
  }

  lemma {:induction false} Pow2Monotone(d: nat, e: nat)
    requires d <= e
    ensures Pow2(d) <= Pow2(e)
    decreases e
  {
    if d < e {
      Pow2Monotone(d, e - 1);
    }
  }

  lemma LeastDepthOnce(n: nat, d: nat, e: nat)
    requires LeastDepth(n, d) && LeastDepth(n, e)
    ensures d == e
  {
    if d < e {
      Pow2Monotone(d, e - 1);
    } else if e < d {
      Pow2Monotone(e, d - 1);
    }
  }

  lemma {:induction false} PerfectDepthOnce(t: Tree, d: nat, e: nat)
    requires Perfect(t, d) && Perfect(t, e)
    ensures d == e
    decreases d
  {
    if d > 0 && e > 0 {
      PerfectDepthOnce(t.left, d - 1, e - 1);
    }
  }

  /** Keys are exact, across lengths and for the empty text. */
  lemma KeysAreExact(t: Tree, a: seq<bv8>, u: Tree, b: seq<bv8>)
    requires Encodes(t, a) && Encodes(u, b)
    ensures Equal(t, u) == Yes <==> a == b
  {
    EqualIsIdentity(t, u);
    var d :| LeastDepth(8 * |a|, d) && Perfect(t, d) && Spells(Leaves(t), a, Pow2(d));
    var e :| LeastDepth(8 * |b|, e) && Perfect(u, e) && Spells(Leaves(u), b, Pow2(e));
    if t == u {
      PerfectDepthOnce(t, d, e);
      SpellsOnce(Leaves(t), a, b, Pow2(d));
    }
    if a == b {
      LeastDepthOnce(8 * |a|, d, e);
      SpellsSame(Leaves(t), Leaves(u), a, Pow2(d));
      PerfectOnce(t, u, d);
    }
  }

  /** A registration's restriction key names its namespace and its interface group, and nothing else. */
  lemma RestrictionKeysAreExact(namespace: Tree, group: Tree, ns: seq<bv8>, gr: seq<bv8>,
                                namespace': Tree, group': Tree, ns': seq<bv8>, gr': seq<bv8>)
    requires Encodes(namespace, ns) && Encodes(group, gr) && Encodes(namespace', ns') && Encodes(group', gr')
    ensures Equal(Pair(namespace, group), Pair(namespace', group')) == Yes <==> ns == ns' && gr == gr'
  {
    KeysAreExact(namespace, ns, namespace', ns');
    KeysAreExact(group, gr, group', gr');
  }
}
