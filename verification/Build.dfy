/**
 The emitted build sequence.

 Initializers run in schedule order until the first error. Later steps only
 discard their factory's captures; then every filled slot is discarded in
 reverse order. `stuck` records that an emitted `unreachable!` was evaluated.
 */
module Build {
  import opened Options
  import opened Sequences
  import opened Graph
  import opened Wiring

  /** What the build owns: the value of a stored registration, or a factory's captures. */
  datatype Resource = Payload(slot: nat) | Capture(slot: nat)

  /** A filled slot: its resource, or nothing when the registration stores none or its value was taken. */
  datatype Cell = Cell(holds: Option<Resource>)

  datatype State = State(slots: seq<Option<Cell>>, ran: seq<nat>, taken: seq<Resource>, dropped: seq<Resource>,
                         stuck: bool)

  /** One execution of an initializer expression: its queries and the error it ends with, if any. */
  datatype Initializer = Initializer(runs: Runs, error: Option<nat>)

  datatype Outcome = Built(container: seq<Cell>) | Failed(error: nat) | Unreachable

  // ----- running one initializer -----

  function Touch(s: State, slot: nat, moved: bool): State {
    if slot >= |s.slots| || s.slots[slot].None? then s.(stuck := true)
    else if moved && s.slots[slot].value.holds.Some? then
      s.(slots := s.slots[slot := Some(Cell(None))], taken := s.taken + [s.slots[slot].value.holds.value])
    else s
  }

  /** A constructor call demands every argument slot before its body runs. */
  function Demand(s: State, arguments: seq<nat>): State {
    if forall x :: x in arguments ==> x < |s.slots| && s.slots[x].Some? then s else s.(stuck := true)
  }

  function Perform(reach: seq<set<nat>>, s: State, runs: Runs): (t: State)
    ensures |t.slots| == |s.slots|
    decreases runs
  {
    match runs
    case Done => s
    case Then(Read(slot, _, moved), rest) => Perform(reach, Touch(s, slot, moved), rest)
    case Then(Invoke(target, body), rest) =>
      var called := if target < |reach| then Demand(s, Arguments(target, reach)) else s.(stuck := true);
      Perform(reach, Perform(reach, called, body), rest)
  }

  // ----- specification -----

  /** A build problem: a valid acyclic program, dependencies first, and one execution of each initializer. */
  ghost predicate Setting(p: Program, reach: seq<set<nat>>, order: seq<nat>, init: seq<Initializer>) {
    && Valid(p) && Executions(p, init) && !Cyclic(p.deps) && Closure(p.deps, reach)
    && |order| == |p.kinds| && Topological(p.deps, order) && Distinct(order)
  }

  predicate Executions(p: Program, init: seq<Initializer>)
    requires Valid(p)
  {
    |init| == |p.kinds| && forall i :: 0 <= i < |init| ==> Conforms(p, i, init[i].runs)
  }

  predicate Fails(p: Program, init: seq<Initializer>, i: nat)
    requires i < |p.kinds| == |init|
  {
    p.kinds[i].Stored? && init[i].error.Some?
  }

  predicate FailsFirst(p: Program, init: seq<Initializer>, order: seq<nat>, f: nat)
    requires |p.kinds| == |init| && InRange(order, |init|)
  {
    && f <= |order| && (f < |order| ==> Fails(p, init, order[f]))
    && forall k :: 0 <= k < f ==> !Fails(p, init, order[k])
  }

  lemma {:induction false} SomeFailsFirst(p: Program, init: seq<Initializer>, order: seq<nat>, from: nat)
    requires |p.kinds| == |init| && InRange(order, |init|) && from <= |order|
    requires forall k :: 0 <= k < from ==> !Fails(p, init, order[k])
    ensures exists f: nat :: FailsFirst(p, init, order, f)
    decreases |order| - from
  {
    if from == |order| || Fails(p, init, order[from]) {
      assert FailsFirst(p, init, order, from);
    } else {
      SomeFailsFirst(p, init, order, from + 1);
    }
  }

  /** The position of the first failing initializer, or `|order|`. */
  ghost function FirstFailure(p: Program, init: seq<Initializer>, order: seq<nat>): (f: nat)
    requires |p.kinds| == |init| && InRange(order, |init|)
    ensures FailsFirst(p, init, order, f)
  {
    SomeFailsFirst(p, init, order, 0);
    var f: nat :| FailsFirst(p, init, order, f);
    f
  }

  /** What filled slot `i` holds once the resources in `taken` have left. */
  function Held(p: Program, taken: seq<Resource>, i: nat): Option<Resource>
    requires i < |p.kinds|
  {
    match p.kinds[i]
    case Stored(_) => if Payload(i) in taken then None else Some(Payload(i))
    case Fresh => None
    case Factory(_) => Some(Capture(i))
  }

  /** The captures of the factories in `order`. */
  function Skipped(p: Program, order: seq<nat>): seq<Resource>
    requires InRange(order, |p.kinds|)
    decreases |order|
  {
    if order == [] then [] else
      var n := |order| - 1;
      Skipped(p, order[..n]) + if p.kinds[order[n]].Factory? then [Capture(order[n])] else []
  }

  /** What the slots of `order` hold, last slot first. */
  function Unwound(p: Program, taken: seq<Resource>, order: seq<nat>): seq<Resource>
    requires InRange(order, |p.kinds|)
    decreases |order|
  {
    if order == [] then [] else
      var n := |order| - 1;
      (if Held(p, taken, order[n]).Some? then [Held(p, taken, order[n]).value] else []) + Unwound(p, taken, order[..n])
  }

  /** Exactly the slots in `filled` are filled, and hold what was not taken. */
  predicate Filling(p: Program, s: State, filled: seq<nat>) {
    && |s.slots| == |p.kinds|
    && forall i :: 0 <= i < |p.kinds| ==>
         s.slots[i] == if i in filled then Some(Cell(Held(p, s.taken, i))) else None
  }

  predicate NoRepeats(s: seq<Resource>) {
    forall i, j :: 0 <= i < j < |s| ==> s[i] != s[j]
  }

  // ----- one initializer -----

  /** Nothing but takes: the moved payloads join `taken`, once each. */
  ghost predicate Effect(p: Program, before: State, after: State, filled: seq<nat>, moved: set<nat>) {
    && Filling(p, after, filled) && !after.stuck
    && after.ran == before.ran && after.dropped == before.dropped
    && NoRepeats(after.taken)
    && forall r :: r in after.taken <==> r in before.taken || (r.Payload? && r.slot in moved)
  }

  lemma TouchEffect(p: Program, s: State, filled: seq<nat>, slot: nat, moved: bool)
    requires Filling(p, s, filled) && !s.stuck && NoRepeats(s.taken)
    requires slot in filled && slot < |p.kinds| && (moved ==> p.kinds[slot].Stored?)
    ensures Effect(p, s, Touch(s, slot, moved), filled, if moved then {slot} else {})
  {
    assert s.slots[slot] == Some(Cell(Held(p, s.taken, slot)));
    if moved && Payload(slot) !in s.taken {
      var t := Touch(s, slot, moved);
      assert t.taken == s.taken + [Payload(slot)];
      forall i | 0 <= i < |p.kinds|
        ensures t.slots[i] == if i in filled then Some(Cell(Held(p, t.taken, i))) else None
      {
        if i != slot {
          assert Payload(i) in t.taken <==> Payload(i) in s.taken;
        }
      }
    }
  }

  lemma EffectTrans(p: Program, a: State, b: State, c: State, filled: seq<nat>, m: set<nat>, n: set<nat>)
    requires Effect(p, a, b, filled, m) && Effect(p, b, c, filled, n)
    ensures Effect(p, a, c, filled, m + n)
  {
  }

  /** With every reachable slot filled, a body runs without meeting an empty one. */
  lemma {:induction false} PerformEffect(p: Program, reach: seq<set<nat>>, s: State, i: nat, filled: seq<nat>,
                                         runs: Runs)
    requires Valid(p) && Closure(p.deps, reach) && !Cyclic(p.deps)
    requires i < |p.kinds| && Conforms(p, i, runs)
    requires Filling(p, s, filled) && !s.stuck && NoRepeats(s.taken)
    requires forall x: nat :: x in reach[i] ==> x in filled
    ensures Effect(p, s, Perform(reach, s, runs), filled, Moved(runs))
    decreases runs
  {
    match runs
    case Done =>
    case Then(Read(slot, _, moved), rest) =>
      CalleeArguments(p, reach, i, slot);
      var t := Touch(s, slot, moved);
      TouchEffect(p, s, filled, slot, moved);
      PerformEffect(p, reach, t, i, filled, rest);
      EffectTrans(p, s, t, Perform(reach, t, rest), filled, if moved then {slot} else {}, Moved(rest));
    case Then(Invoke(target, body), rest) =>
      CalleeArguments(p, reach, i, target);
      ReachInRange(p.deps, reach, target);
      assert Demand(s, Arguments(target, reach)) == s;
      PerformEffect(p, reach, s, target, filled, body);
      var t := Perform(reach, s, body);
      PerformEffect(p, reach, t, i, filled, rest);
      EffectTrans(p, s, t, Perform(reach, t, rest), filled, Moved(body), Moved(rest));
  }

  predicate IsFilled(s: State, slot: nat) {
    slot < |s.slots| && s.slots[slot].Some?
  }

  predicate MeetsEmpty(s: State, slots: set<nat>) {
    exists x :: x in slots && !IsFilled(s, x)
  }

  lemma MeetsEmptyEither(s: State, t: State, a: set<nat>, b: set<nat>)
    requires forall x: nat :: IsFilled(t, x) <==> IsFilled(s, x)
    ensures MeetsEmpty(s, a + b) <==> MeetsEmpty(s, a) || MeetsEmpty(t, b)
  {
    assert forall x :: x in a + b <==> x in a || x in b;
  }

  lemma DemandIsExact(s: State, arguments: seq<nat>)
    ensures Demand(s, arguments).stuck <==> s.stuck || MeetsEmpty(s, set x | x in arguments)
  {
    if x: nat :| x in arguments && !IsFilled(s, x) {
      assert x in (set y | y in arguments);
    }
  }

  /** The slots that `runs` names, in reads and as arguments of calls. */
  function Named(reach: seq<set<nat>>, runs: Runs): set<nat> {
    match runs
    case Done => {}
    case Then(Read(slot, _, _), rest) => {slot} + Named(reach, rest)
    case Then(Invoke(target, body), rest) =>
      (if target < |reach| then set x | x in Arguments(target, reach) else {})
      + Named(reach, body) + Named(reach, rest)
  }

  /** An `unreachable!` is evaluated exactly when `runs` names an empty slot; no slot is emptied or filled meanwhile. */
  lemma {:induction false} StuckOnEmptySlots(p: Program, reach: seq<set<nat>>, s: State, i: nat, runs: Runs)
    requires Valid(p) && |reach| == |p.kinds| && i < |p.kinds| && Conforms(p, i, runs)
    ensures forall x: nat :: IsFilled(Perform(reach, s, runs), x) <==> IsFilled(s, x)
    ensures Perform(reach, s, runs).stuck <==> s.stuck || MeetsEmpty(s, Named(reach, runs))
    decreases runs
  {
    match runs
    case Done =>
    case Then(Read(slot, _, moved), rest) =>
      var t := Touch(s, slot, moved);
      assert forall x: nat :: IsFilled(t, x) <==> IsFilled(s, x);
      StuckOnEmptySlots(p, reach, t, i, rest);
      MeetsEmptyEither(s, t, {slot}, Named(reach, rest));
      assert slot in {slot} && (t.stuck <==> s.stuck || MeetsEmpty(s, {slot}));
    case Then(Invoke(target, body), rest) =>
      var called := Demand(s, Arguments(target, reach));
      var arguments := set x | x in Arguments(target, reach);
      var t := Perform(reach, called, body);
      StuckOnEmptySlots(p, reach, called, target, body);
      StuckOnEmptySlots(p, reach, t, i, rest);
      DemandIsExact(s, Arguments(target, reach));
      MeetsEmptyEither(s, called, arguments, Named(reach, body));
      MeetsEmptyEither(s, t, arguments + Named(reach, body), Named(reach, rest));
  }

  /** Only stored values reachable from a body leave their slots while it runs. */
  lemma {:induction false} MovedIsReachable(p: Program, reach: seq<set<nat>>, i: nat, runs: Runs)
    requires Valid(p) && Closure(p.deps, reach) && i < |p.kinds| && Conforms(p, i, runs)
    ensures forall x: nat :: x in Moved(runs) ==> x < |p.kinds| && p.kinds[x].Stored? && x in reach[i]
    decreases runs
  {
    match runs
    case Done =>
    case Then(Read(slot, _, _), rest) =>
      ReachesEdge(p.deps, i, slot);
      MovedIsReachable(p, reach, i, rest);
    case Then(Invoke(target, body), rest) =>
      ReachesEdge(p.deps, i, target);
      MovedIsReachable(p, reach, i, rest);
      MovedIsReachable(p, reach, target, body);
      forall x: nat | x in Moved(body)
        ensures x in reach[i]
      {
        ReachesStep(p.deps, i, target, x);
      }
  }

  /** In schedule order, everything a body reaches was scheduled before it. */
  lemma {:induction false} ReachIsEarlier(g: Graph, order: seq<nat>, k: nat, x: nat)
    requires WellFormed(g) && Topological(g, order) && k < |order| && Reaches(g, order[k], x)
    ensures x in order[..k]
    decreases k
  {
    ReachesCases(g, order[k], x);
    if x !in g[order[k]] {
      var u :| u in g[order[k]] && Reaches(g, u, x);
      var j :| 0 <= j < k && order[j] == u;
      ReachIsEarlier(g, order, j, x);
    }
  }

  // ----- the emitted chain -----

  function Min(a: nat, b: nat): nat {
    if a < b then a else b
  }

  /** The payloads moved by the first `k` initializers of `order`. */
  ghost predicate TakenBy(p: Program, init: seq<Initializer>, order: seq<nat>, k: nat, r: Resource)
    requires k <= |order| && |p.kinds| == |init| && InRange(order, |init|)
  {
    r.Payload? && exists j :: 0 <= j < k && p.kinds[order[j]].Stored? && r.slot in Moved(init[order[j]].runs)
  }

  /** State of the chain after `k` of its steps. */
  ghost predicate Progress(p: Program, init: seq<Initializer>, order: seq<nat>, k: nat, s: State, error: Option<nat>)
    requires |p.kinds| == |init| && InRange(order, |init|) && k <= |order|
  {
    var f := FirstFailure(p, init, order);
    && Filling(p, s, order[..Min(k, f)]) && !s.stuck && NoRepeats(s.taken)
    && error == (if k <= f then None else init[order[f]].error)
    && s.ran == order[..Min(k, f + 1)]
    && s.dropped == (if k <= f then [] else Skipped(p, order[f + 1..k]))
    && forall r :: r in s.taken <==> TakenBy(p, init, order, |s.ran|, r)
  }

  lemma PrefixMembership(order: seq<nat>, k: nat)
    requires k < |order|
    ensures order[..k + 1] == order[..k] + [order[k]]
    ensures Distinct(order) ==> order[k] !in order[..k]
  {
  }

  /** One more resource is stored: slot `order[k]` starts to hold what its registration stores. */
  lemma FillSlot(p: Program, order: seq<nat>, k: nat, s: State)
    requires k < |order| && order[k] < |p.kinds| && Distinct(order) && Filling(p, s, order[..k])
    ensures Filling(p, s.(slots := s.slots[order[k] := Some(Cell(Held(p, s.taken, order[k])))]), order[..k + 1])
  {
    PrefixMembership(order, k);
  }

  /** The step of a registration whose initializer runs. */
  lemma RunStep(p: Program, reach: seq<set<nat>>, order: seq<nat>, init: seq<Initializer>, k: nat, s: State)
    requires Setting(p, reach, order, init) && k < |order| && p.kinds[order[k]].Stored?
    requires Progress(p, init, order, k, s, None) && k <= FirstFailure(p, init, order)
    ensures Effect(p, s, Perform(reach, s, init[order[k]].runs), order[..k], Moved(init[order[k]].runs))
    ensures Payload(order[k]) !in Perform(reach, s, init[order[k]].runs).taken
  {
    var i := order[k];
    forall x: nat | x in reach[i]
      ensures x in order[..k]
    {
      ReachIsEarlier(p.deps, order, k, x);
    }
    PerformEffect(p, reach, s, i, order[..k], init[i].runs);
    PrefixMembership(order, k);
    MovedIsReachable(p, reach, i, init[i].runs);
    assert Payload(i) !in s.taken by {
      forall j | 0 <= j < k
        ensures i !in Moved(init[order[j]].runs)
      {
        MovedIsReachable(p, reach, order[j], init[order[j]].runs);
        assert i !in order[..j];
        if i in reach[order[j]] {
          ReachIsEarlier(p.deps, order, j, i);
        }
      }
    }
  }

  lemma TakenStep(p: Program, init: seq<Initializer>, order: seq<nat>, k: nat, r: Resource)
    requires k < |order| && |p.kinds| == |init| && InRange(order, |init|)
    ensures TakenBy(p, init, order, k + 1, r) <==>
              TakenBy(p, init, order, k, r) ||
              (r.Payload? && p.kinds[order[k]].Stored? && r.slot in Moved(init[order[k]].runs))
  {
  }

  /** The two variables that every step of the chain defines anew: its slot, within the state, and the error. */
  datatype Link = Link(state: State, error: Option<nat>)

  /** One step of the chain, as emitted for registration `i`. */
  function Step(p: Program, reach: seq<set<nat>>, init: seq<Initializer>, i: nat, l: Link): (m: Link)
    requires i < |p.kinds| == |init| == |l.state.slots|
    ensures |m.state.slots| == |l.state.slots|
  {
    var s := l.state;
    if l.error.Some? then
      if p.kinds[i].Factory? then l.(state := s.(dropped := s.dropped + [Capture(i)])) else l
    else if p.kinds[i].Stored? then
      var t := Perform(reach, s, init[i].runs);
      if init[i].error.Some? then Link(t.(ran := t.ran + [i]), init[i].error)
      else Link(t.(ran := t.ran + [i], slots := t.slots[i := Some(Cell(Some(Payload(i))))]), None)
    else
      var cell := Cell(if p.kinds[i].Factory? then Some(Capture(i)) else None);
      Link(s.(ran := s.ran + [i], slots := s.slots[i := Some(cell)]), None)
  }

  /** The chain's variables after `k` steps. */
  function After(p: Program, reach: seq<set<nat>>, order: seq<nat>, init: seq<Initializer>, k: nat): (l: Link)
    requires |p.kinds| == |init| && InRange(order, |init|) && k <= |order|
    ensures |l.state.slots| == |p.kinds|
  {
    if k == 0 then Link(Initial(|p.kinds|), None)
    else Step(p, reach, init, order[k - 1], After(p, reach, order, init, k - 1))
  }

  /** Nothing initialized yet. */
  function Initial(n: nat): State {
    State(seq(n, _ => None), [], [], [], false)
  }

  lemma StepProgress(p: Program, reach: seq<set<nat>>, order: seq<nat>, init: seq<Initializer>, k: nat, l: Link,
                     m: Link)
    requires Setting(p, reach, order, init) && k < |order|
    requires Progress(p, init, order, k, l.state, l.error) && m == Step(p, reach, init, order[k], l)
    ensures Progress(p, init, order, k + 1, m.state, m.error)
  {
    if l.error.Some? {
      SkipStep(p, order, init, k, l.state, l.error);
    } else if !p.kinds[order[k]].Stored? {
      PlainStep(p, reach, order, init, k, l.state);
    } else if init[order[k]].error.None? {
      StoreStep(p, reach, order, init, k, l.state);
    } else {
      FailStep(p, reach, order, init, k, l.state);
    }
  }

  lemma {:induction false} ChainProgress(p: Program, reach: seq<set<nat>>, order: seq<nat>, init: seq<Initializer>,
                                         k: nat, l: Link)
    requires Setting(p, reach, order, init) && k <= |order| && l == After(p, reach, order, init, k)
    ensures Progress(p, init, order, k, l.state, l.error)
    decreases k
  {
    if k == 0 {
      StartChain(p, init, order);
    } else {
      var before := After(p, reach, order, init, k - 1);
      ChainProgress(p, reach, order, init, k - 1, before);
      StepProgress(p, reach, order, init, k - 1, before, l);
    }
  }

  lemma SkipStep(p: Program, order: seq<nat>, init: seq<Initializer>, k: nat, s: State, error: Option<nat>)
    requires |p.kinds| == |init| && InRange(order, |init|) && k < |order|
    requires Progress(p, init, order, k, s, error) && error.Some?
    ensures Progress(p, init, order, k + 1,
                     if p.kinds[order[k]].Factory? then s.(dropped := s.dropped + [Capture(order[k])]) else s, error)
  {
    var f := FirstFailure(p, init, order);
    assert order[f + 1..k + 1][..k - f - 1] == order[f + 1..k];
  }

  lemma PlainStep(p: Program, reach: seq<set<nat>>, order: seq<nat>, init: seq<Initializer>, k: nat, s: State)
    requires Setting(p, reach, order, init) && k < |order| && !p.kinds[order[k]].Stored?
    requires Progress(p, init, order, k, s, None)
    ensures var i := order[k];
            var cell := Cell(if p.kinds[i].Factory? then Some(Capture(i)) else None);
            Progress(p, init, order, k + 1, s.(ran := s.ran + [i], slots := s.slots[i := Some(cell)]), None)
  {
    PrefixMembership(order, k);
    FillSlot(p, order, k, s);
    forall r
      ensures TakenBy(p, init, order, k + 1, r) <==> r in s.taken
    {
      TakenStep(p, init, order, k, r);
    }
  }

  lemma StoreStep(p: Program, reach: seq<set<nat>>, order: seq<nat>, init: seq<Initializer>, k: nat, s: State)
    requires Setting(p, reach, order, init) && k < |order|
    requires p.kinds[order[k]].Stored? && init[order[k]].error.None?
    requires Progress(p, init, order, k, s, None)
    ensures var i := order[k];
            var t := Perform(reach, s, init[i].runs);
            i < |t.slots| && Progress(p, init, order, k + 1,
              t.(ran := t.ran + [i], slots := t.slots[i := Some(Cell(Some(Payload(i))))]), None)
  {
    PrefixMembership(order, k);
    RunStep(p, reach, order, init, k, s);
    var t := Perform(reach, s, init[order[k]].runs);
    FillSlot(p, order, k, t);
    forall r
      ensures TakenBy(p, init, order, k + 1, r) <==> r in t.taken
    {
      TakenStep(p, init, order, k, r);
    }
  }

  lemma FailStep(p: Program, reach: seq<set<nat>>, order: seq<nat>, init: seq<Initializer>, k: nat, s: State)
    requires Setting(p, reach, order, init) && k < |order|
    requires p.kinds[order[k]].Stored? && init[order[k]].error.Some?
    requires Progress(p, init, order, k, s, None)
    ensures var i := order[k];
            var t := Perform(reach, s, init[i].runs);
            Progress(p, init, order, k + 1, t.(ran := t.ran + [i]), init[i].error)
  {
    PrefixMembership(order, k);
    RunStep(p, reach, order, init, k, s);
    var t := Perform(reach, s, init[order[k]].runs);
    forall r
      ensures TakenBy(p, init, order, k + 1, r) <==> r in t.taken
    {
      TakenStep(p, init, order, k, r);
    }
  }

  // ----- cleanup and result -----

  /** Exactly the first `filled` slots of `order` are filled, by position. */
  predicate FilledTo(p: Program, s: State, order: seq<nat>, filled: nat)
    requires InRange(order, |p.kinds|)
  {
    && |s.slots| == |p.kinds|
    && forall j :: 0 <= j < |order| ==>
         s.slots[order[j]] == if j < filled then Some(Cell(Held(p, s.taken, order[j]))) else None
  }

  lemma FilledByPosition(p: Program, s: State, order: seq<nat>, filled: nat)
    requires InRange(order, |p.kinds|) && Distinct(order) && filled <= |order| && Filling(p, s, order[..filled])
    ensures FilledTo(p, s, order, filled)
  {
    forall j | 0 <= j < |order|
      ensures order[j] in order[..filled] <==> j < filled
    {
      if j < filled {
        assert order[..filled][j] == order[j];
      }
    }
  }

  /** Discards every slot, last initialized first. */
  method Cleanup(p: Program, order: seq<nat>, ghost filled: nat, s: State) returns (t: State)
    requires InRange(order, |p.kinds|) && Distinct(order) && filled <= |order| && FilledTo(p, s, order, filled)
    ensures t == s.(dropped := s.dropped + Unwound(p, s.taken, order[..filled]), slots := t.slots)
    ensures |t.slots| == |s.slots| && forall j :: 0 <= j < |order| ==> t.slots[order[j]] == None
  {
    var slots, dropped := s.slots, s.dropped;
    ghost var left := Unwound(p, s.taken, order[..filled]);
    ghost var all := s.dropped + left;
    var k: nat := |order|;
    while k > 0
      invariant k <= |order| && |slots| == |s.slots|
      invariant forall j :: 0 <= j < k ==> slots[order[j]] == s.slots[order[j]]
      invariant forall j :: k <= j < |order| ==> slots[order[j]] == None
      invariant left == Unwound(p, s.taken, order[..Min(k, filled)]) && dropped + left == all
    {
      k := k - 1;
      var contents := Discarded(slots[order[k]]);
      left := UnwoundStep(p, s, order, k, filled, left);
      Associates(dropped, contents, left);
      dropped := dropped + contents;
      slots := slots[order[k] := None];
    }
    assert left == [] && dropped == all;
    t := s.(dropped := dropped, slots := slots);
  }

  /** What dropping a slot variable drops. */
  function Discarded(slot: Option<Cell>): seq<Resource> {
    if slot.Some? && slot.value.holds.Some? then [slot.value.holds.value] else []
  }

  lemma UnwoundStep(p: Program, s: State, order: seq<nat>, k: nat, filled: nat, left: seq<Resource>)
      returns (rest: seq<Resource>)
    requires InRange(order, |p.kinds|) && k < |order| && filled <= |order| && FilledTo(p, s, order, filled)
    requires left == Unwound(p, s.taken, order[..Min(k + 1, filled)])
    ensures rest == Unwound(p, s.taken, order[..Min(k, filled)]) && left == Discarded(s.slots[order[k]]) + rest
  {
    rest := Unwound(p, s.taken, order[..Min(k, filled)]);
    if k < filled {
      assert order[..k + 1][..k] == order[..k];
    }
  }

  /** Moves every slot into the container; an empty slot would be unreachable. */
  method Publish(s: State) returns (outcome: Outcome)
    ensures outcome.Built? <==> forall i :: 0 <= i < |s.slots| ==> s.slots[i].Some?
    ensures outcome.Built? ==>
      |outcome.container| == |s.slots| && forall i :: 0 <= i < |s.slots| ==> s.slots[i] == Some(outcome.container[i])
    ensures !outcome.Failed?
  {
    var container: seq<Cell> := [];
    for i := 0 to |s.slots|
      invariant |container| == i && forall j :: 0 <= j < i ==> s.slots[j] == Some(container[j])
    {
      if s.slots[i].None? {
        return Unreachable;
      }
      container := container + [s.slots[i].value];
    }
    outcome := Built(container);
  }

  lemma StartChain(p: Program, init: seq<Initializer>, order: seq<nat>)
    requires |p.kinds| == |init| && InRange(order, |init|)
    ensures Progress(p, init, order, 0, Initial(|p.kinds|), None)
  {
  }

  /**
   What a build promises. It never meets an empty slot. Exactly the prefix of
   initializers up to the first failure runs, and what they moved is taken
   once. A failure drops the captures of the factories after it, then what the
   filled slots hold in reverse order; a success drops nothing and keeps every slot.
   */
  ghost predicate Finished(p: Program, order: seq<nat>, init: seq<Initializer>, outcome: Outcome, s: State)
    requires |p.kinds| == |init| == |order| && InRange(order, |init|)
  {
    var f := FirstFailure(p, init, order);
    && !outcome.Unreachable? && !s.stuck
    && (outcome.Built? <==> f == |order|)
    && (outcome.Built? ==>
          && s.ran == order && s.dropped == [] && |outcome.container| == |p.kinds|
          && forall i :: 0 <= i < |p.kinds| ==> outcome.container[i] == Cell(Held(p, s.taken, i)))
    && (outcome.Failed? ==>
          && outcome.error == init[order[f]].error.value && s.ran == order[..f + 1]
          && s.dropped == Skipped(p, order[f + 1..]) + Unwound(p, s.taken, order[..f]))
    && NoRepeats(s.taken) && |s.ran| <= |order|
    && forall r :: r in s.taken <==> TakenBy(p, init, order, |s.ran|, r)
  }

  /** The generated build expression. */
  method Execute(p: Program, reach: seq<set<nat>>, order: seq<nat>, init: seq<Initializer>)
      returns (outcome: Outcome, s: State)
    requires Setting(p, reach, order, init)
    ensures Finished(p, order, init, outcome, s)
  {
    var link := Link(Initial(|p.kinds|), None);
    for k := 0 to |order|
      invariant link == After(p, reach, order, init, k)
    {
      link := Step(p, reach, init, order[k], link);
    }
    assert Progress(p, init, order, |order|, link.state, link.error) by {
      ChainProgress(p, reach, order, init, |order|, link);
    }
    outcome, s := Conclude(p, order, init, link);
  }

  /** The final match on the error variable. */
  method Conclude(p: Program, order: seq<nat>, init: seq<Initializer>, link: Link) returns (outcome: Outcome, s: State)
    requires |p.kinds| == |init| == |order| && InRange(order, |init|) && Distinct(order)
    requires Progress(p, init, order, |order|, link.state, link.error)
    ensures Finished(p, order, init, outcome, s)
  {
    s := link.state;
    if link.error.None? {
      outcome := Publish(s);
      SuccessFinishes(p, order, init, outcome, s);
    } else {
      ghost var before := s;
      ghost var f := FirstFailure(p, init, order);
      FilledByPosition(p, s, order, f);
      s := Cleanup(p, order, f, s);
      outcome := Failed(link.error.value);
      FailureFinishes(p, order, init, before, link.error.value, s);
    }
  }

  lemma SuccessFinishes(p: Program, order: seq<nat>, init: seq<Initializer>, outcome: Outcome, s: State)
    requires |p.kinds| == |init| == |order| && InRange(order, |init|) && Distinct(order)
    requires Progress(p, init, order, |order|, s, None) && !outcome.Failed?
    requires outcome.Built? <==> forall i :: 0 <= i < |s.slots| ==> s.slots[i].Some?
    requires outcome.Built? ==>
      |outcome.container| == |s.slots| && forall i :: 0 <= i < |s.slots| ==> s.slots[i] == Some(outcome.container[i])
    ensures Finished(p, order, init, outcome, s)
  {
    Pigeonhole(order, |p.kinds|);
    assert order[..|order|] == order;
    assert forall i :: 0 <= i < |p.kinds| ==> s.slots[i] == Some(Cell(Held(p, s.taken, i)));
  }

  lemma FailureFinishes(p: Program, order: seq<nat>, init: seq<Initializer>, before: State, error: nat, s: State)
    requires |p.kinds| == |init| == |order| && InRange(order, |init|)
    requires Progress(p, init, order, |order|, before, Some(error))
    requires s == before.(slots := s.slots,
                          dropped := before.dropped + Unwound(p, before.taken, order[..FirstFailure(p, init, order)]))
    ensures Finished(p, order, init, Failed(error), s)
  {
    var f := FirstFailure(p, init, order);
    assert order[f + 1..|order|] == order[f + 1..];
  }

  datatype Expansion = Rejected(cycle: seq<nat>) | Accepted(order: seq<nat>, outcome: Outcome, state: State)

  /** Scheduling, wiring and building composed: every acyclic program builds without meeting an empty slot. */
  method ExpandAndBuild(p: Program, init: seq<Initializer>) returns (r: Expansion)
    requires Valid(p) && Executions(p, init)
    ensures r.Rejected? <==> Cyclic(p.deps)
    ensures r.Rejected? ==> SimpleCycle(p.deps, r.cycle)
    ensures r.Accepted? ==>
              && Scheduled(p.deps, r.order) && Finished(p, r.order, init, r.outcome, r.state)
              && Conserved(p, r.order, init, r.outcome, r.state)
  {
    var scheduled := Schedule(p.deps);
    match scheduled
    case Cycle(path) =>
      r := Rejected(path);
    case Ordered(order) =>
      ScheduledIsTopological(p.deps, order);
      var reach := Transitive(p.deps, order);
      var outcome, s := Execute(p, reach, order, init);
      OwnershipIsConserved(p, reach, order, init, outcome, s);
      r := Accepted(order, outcome, s);
  }

  // ----- conservation -----

  lemma {:induction false} SkippedElements(p: Program, order: seq<nat>)
    requires InRange(order, |p.kinds|) && Distinct(order)
    ensures forall r :: r in Skipped(p, order) <==> r.Capture? && r.slot in order && p.kinds[r.slot].Factory?
    ensures NoRepeats(Skipped(p, order))
    decreases |order|
  {
    if order != [] {
      var n := |order| - 1;
      SkippedElements(p, order[..n]);
      PrefixMembership(order, n);
      assert order[..n + 1] == order;
    }
  }

  lemma {:induction false} UnwoundElements(p: Program, taken: seq<Resource>, order: seq<nat>)
    requires InRange(order, |p.kinds|) && Distinct(order)
    ensures forall r :: r in Unwound(p, taken, order) <==> r.slot in order && Held(p, taken, r.slot) == Some(r)
    ensures NoRepeats(Unwound(p, taken, order))
    decreases |order|
  {
    if order != [] {
      var n := |order| - 1;
      UnwoundElements(p, taken, order[..n]);
      PrefixMembership(order, n);
      assert order[..n + 1] == order;
    }
  }

  /** What the build came to own: every factory's captures, and each payload whose initializer succeeded. */
  ghost predicate Created(p: Program, init: seq<Initializer>, order: seq<nat>, r: Resource)
    requires |p.kinds| == |init| && InRange(order, |init|)
  {
    r.slot < |p.kinds| &&
    match r
    case Capture(i) => p.kinds[i].Factory?
    case Payload(i) => p.kinds[i].Stored? && i in order[..FirstFailure(p, init, order)]
  }

  predicate Contained(outcome: Outcome, r: Resource) {
    outcome.Built? && exists i :: 0 <= i < |outcome.container| && outcome.container[i].holds == Some(r)
  }

  /** Takes concern payloads that exist. */
  lemma TakenIsCreated(p: Program, reach: seq<set<nat>>, order: seq<nat>, init: seq<Initializer>,
                       outcome: Outcome, s: State, r: Resource)
    requires Setting(p, reach, order, init) && Finished(p, order, init, outcome, s) && r in s.taken
    ensures r.Payload? && Created(p, init, order, r)
  {
    var f := FirstFailure(p, init, order);
    var j :| 0 <= j < |s.ran| && p.kinds[order[j]].Stored? && r.slot in Moved(init[order[j]].runs);
    assert j <= f;
    MovedEarlier(p, reach, order, init, j, r.slot);
    assert order[..j] <= order[..f];
  }

  lemma MovedEarlier(p: Program, reach: seq<set<nat>>, order: seq<nat>, init: seq<Initializer>, j: nat, x: nat)
    requires Setting(p, reach, order, init) && j < |order| && x in Moved(init[order[j]].runs)
    ensures x < |p.kinds| && p.kinds[x].Stored? && x in order[..j]
  {
    MovedIsReachable(p, reach, order[j], init[order[j]].runs);
    ReachIsEarlier(p.deps, order, j, x);
  }

  /**
   Whatever the build came to own ends in exactly one place: the consumer that
   took it, the container, or a single drop.
   */
  ghost predicate Conserved(p: Program, order: seq<nat>, init: seq<Initializer>, outcome: Outcome, s: State)
    requires |p.kinds| == |init| && InRange(order, |init|)
  {
    && (forall r :: Created(p, init, order, r) <==> r in s.taken || r in s.dropped || Contained(outcome, r))
    && (forall r :: !(r in s.taken && r in s.dropped) && !(r in s.taken && Contained(outcome, r)) &&
                    !(r in s.dropped && Contained(outcome, r)))
    && NoRepeats(s.taken) && NoRepeats(s.dropped)
    && (outcome.Built? ==> forall i, j :: 0 <= i < j < |outcome.container| && outcome.container[i].holds.Some? ==>
                             outcome.container[i] != outcome.container[j])
  }

  lemma OwnershipIsConserved(p: Program, reach: seq<set<nat>>, order: seq<nat>, init: seq<Initializer>,
                             outcome: Outcome, s: State)
    requires Setting(p, reach, order, init) && Finished(p, order, init, outcome, s)
    ensures Conserved(p, order, init, outcome, s)
  {
    AllTakenCreated(p, reach, order, init, outcome, s);
    if outcome.Built? {
      SuccessConserves(p, order, init, outcome, s);
    } else {
      FailureConserves(p, order, init, outcome, s);
    }
  }

  ghost predicate TakesCreated(p: Program, init: seq<Initializer>, order: seq<nat>, taken: seq<Resource>)
    requires |p.kinds| == |init| && InRange(order, |init|)
  {
    forall r :: r in taken ==> r.Payload? && Created(p, init, order, r)
  }

  lemma AllTakenCreated(p: Program, reach: seq<set<nat>>, order: seq<nat>, init: seq<Initializer>,
                        outcome: Outcome, s: State)
    requires Setting(p, reach, order, init) && Finished(p, order, init, outcome, s)
    ensures TakesCreated(p, init, order, s.taken)
  {
    forall r | r in s.taken
      ensures r.Payload? && Created(p, init, order, r)
    {
      TakenIsCreated(p, reach, order, init, outcome, s, r);
    }
  }

  lemma SuccessConserves(p: Program, order: seq<nat>, init: seq<Initializer>, outcome: Outcome, s: State)
    requires |p.kinds| == |init| == |order| && InRange(order, |init|) && Distinct(order)
    requires Finished(p, order, init, outcome, s) && outcome.Built? && TakesCreated(p, init, order, s.taken)
    ensures Conserved(p, order, init, outcome, s)
  {
    SuccessKeeps(p, order, init, outcome, s);
  }

  lemma FailureConserves(p: Program, order: seq<nat>, init: seq<Initializer>, outcome: Outcome, s: State)
    requires |p.kinds| == |init| == |order| && InRange(order, |init|) && Distinct(order)
    requires Finished(p, order, init, outcome, s) && outcome.Failed? && TakesCreated(p, init, order, s.taken)
    ensures Conserved(p, order, init, outcome, s)
  {
    assert NoRepeats(s.dropped) && forall r :: r in s.dropped <==> Created(p, init, order, r) && r !in s.taken by {
      FailureDrops(p, order, init, FirstFailure(p, init, order), s.taken);
    }
    assert forall r :: !Contained(outcome, r);
  }

  lemma SuccessKeeps(p: Program, order: seq<nat>, init: seq<Initializer>, outcome: Outcome, s: State)
    requires |p.kinds| == |init| == |order| && InRange(order, |init|) && Distinct(order)
    requires Finished(p, order, init, outcome, s) && outcome.Built? && forall r :: r in s.taken ==> r.Payload?
    ensures forall r :: Contained(outcome, r) <==> Created(p, init, order, r) && r !in s.taken
    ensures forall i, j :: 0 <= i < j < |outcome.container| && outcome.container[i].holds.Some? ==>
              outcome.container[i] != outcome.container[j]
  {
    Pigeonhole(order, |p.kinds|);
    assert order[..FirstFailure(p, init, order)] == order;
    forall r
      ensures Contained(outcome, r) <==> r.slot < |p.kinds| && Held(p, s.taken, r.slot) == Some(r)
    {
      if r.slot < |p.kinds| && Held(p, s.taken, r.slot) == Some(r) {
        assert outcome.container[r.slot].holds == Some(r);
      }
    }
  }

  lemma SplitMembership(order: seq<nat>, f: nat, i: nat)
    requires f < |order| && i in order
    ensures i in order[..f] || i == order[f] || i in order[f + 1..]
  {
    assert order == order[..f] + [order[f]] + order[f + 1..];
  }

  lemma {:induction false} FailureDrops(p: Program, order: seq<nat>, init: seq<Initializer>, f: nat,
                                        taken: seq<Resource>)
    requires |p.kinds| == |init| == |order| && InRange(order, |init|) && Distinct(order)
    requires f == FirstFailure(p, init, order) < |order| && forall r :: r in taken ==> r.Payload?
    ensures var dropped := Skipped(p, order[f + 1..]) + Unwound(p, taken, order[..f]);
            NoRepeats(dropped) && forall r :: r in dropped <==> Created(p, init, order, r) && r !in taken
  {
    SkippedElements(p, order[f + 1..]);
    UnwoundElements(p, taken, order[..f]);
    Pigeonhole(order, |p.kinds|);
    forall i: nat | i < |p.kinds|
      ensures i in order[..f] || i == order[f] || i in order[f + 1..]
    {
      SplitMembership(order, f, i);
    }
  }
}
