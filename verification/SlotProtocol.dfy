/**
 The synchronized slot as a protocol between any number of operations that may
 interleave at every step: acquiring the lock, reading the reservation flag,
 acting on the payload, and releasing.

 An actor is one operation and the guard it returns, if any; a thread that
 re-enters the slot is another actor. A leaked guard is one that is never
 dropped. Lock acquisition never waits: it succeeds exactly when no conflicting
 holder exists.
 */
module SlotProtocol {
  import opened Options

  type Actor = nat

  datatype Error = Contention | Consumed

  datatype Op = Take | Share | Lend | Reserve

  /** Where an actor is. The states from `Reading` to `Refusing` hold the lock. */
  datatype Phase<V> =
    | Idle
    | Reading                              // read lock held, payload not examined
    | Sharing(seen: V)                     // a live shared guard
    | ReadFailing                          // found empty, read lock still held
    | Locked(op: Op)                       // write lock held, flag not read
    | Clear(op: Op)                        // flag read as false; an exclusive reference is formed
    | Lending                              // a live exclusive guard
    | Taking(taken: V)                     // payload moved out, lock still held
    | Reserving(seen: V)                   // payload seen, flag not yet set
    | Reserved(seen: V)                    // flag set, lock still held
    | Refusing(op: Op, error: Error)       // failing, lock still held

  datatype Response<V> = Took(v: V) | Guard | Failed(error: Error)

  datatype Entry<V> = Entry(actor: Actor, op: Op, response: Response<V>)

  /** `free` are the values behind guard-free reserved references that are still in use. */
  datatype State<V> = State(
    readers: set<Actor>, writer: Option<Actor>, reserved: bool, payload: Option<V>,
    phases: map<Actor, Phase<V>>, free: set<V>, taken: seq<V>, log: seq<Entry<V>>)

  datatype Step<V> =
    | TryRead(actor: Actor)
    | Look(actor: Actor)
    | TryWrite(actor: Actor, op: Op)
    | CheckFlag(actor: Actor)
    | Act(actor: Actor)
    | SetFlag(actor: Actor)
    | Write(actor: Actor, v: V)            // through an exclusive guard
    | Release(actor: Actor)                // return from an operation, or drop its guard
    | Forget(v: V)                         // last use of a reserved reference

  function New<V>(v: V): State<V> {
    State({}, None, false, Some(v), map[], {}, [], [])
  }

  function At<V>(s: State<V>, a: Actor): Phase<V> {
    if a in s.phases then s.phases[a] else Idle
  }

  function Go<V>(s: State<V>, a: Actor, p: Phase<V>): State<V> {
    s.(phases := s.phases[a := p])
  }

  function Note<V>(s: State<V>, a: Actor, op: Op, r: Response<V>): State<V> {
    s.(log := s.log + [Entry(a, op, r)])
  }

  predicate HoldsRead<V>(p: Phase<V>) {
    p.Reading? || p.Sharing? || p.ReadFailing?
  }

  predicate HoldsWrite<V>(p: Phase<V>) {
    p.Locked? || p.Clear? || p.Lending? || p.Taking? || p.Reserving? || p.Reserved? || p.Refusing?
  }

  /** One step, or None when the actor is not in a position to take it. */
  function Next<V(==)>(s: State<V>, step: Step<V>): Option<State<V>> {
    match step
    case TryRead(a) =>
      if !At(s, a).Idle? then None
      else if s.writer.Some? then Some(Note(s, a, Share, Failed(Contention)))
      else Some(Go(s, a, Reading).(readers := s.readers + {a}))
    case Look(a) =>
      if !At(s, a).Reading? then None
      else (match s.payload
            case Some(v) => Some(Note(Go(s, a, Sharing(v)), a, Share, Guard))
            case None => Some(Go(s, a, ReadFailing)))
    case TryWrite(a, op) =>
      if !At(s, a).Idle? || op.Share? then None
      else if s.writer.Some? || s.readers != {} then Some(Note(s, a, op, Failed(Contention)))
      else Some(Go(s, a, Locked(op)).(writer := Some(a)))
    case CheckFlag(a) =>
      (match At(s, a)
       case Locked(op) =>
         if op.Reserve? then None
         else if s.reserved then Some(Go(s, a, Refusing(op, Contention)))
         else Some(Go(s, a, Clear(op)))
       case _ => None)
    case Act(a) =>
      (match At(s, a)
       case Clear(op) =>
         (match s.payload
          case None => Some(Go(s, a, Refusing(op, Consumed)))
          case Some(v) =>
            if op.Take? then Some(Go(s, a, Taking(v)).(payload := None, taken := s.taken + [v]))
            else Some(Note(Go(s, a, Lending), a, op, Guard)))
       case Locked(Reserve) =>
         (match s.payload
          case None => Some(Go(s, a, Refusing(Reserve, Consumed)))
          case Some(v) => Some(Go(s, a, Reserving(v))))
       case _ => None)
    case SetFlag(a) =>
      (match At(s, a)
       case Reserving(v) => Some(Go(s, a, Reserved(v)).(reserved := true))
       case _ => None)
    case Write(a, v) =>
      if At(s, a).Lending? then Some(s.(payload := Some(v))) else None
    case Release(a) =>
      (match At(s, a)
       case Sharing(_) => Some(Go(s, a, Idle).(readers := s.readers - {a}))
       case ReadFailing => Some(Note(Go(s, a, Idle), a, Share, Failed(Consumed)).(readers := s.readers - {a}))
       case Lending => Some(Go(s, a, Idle).(writer := None))
       case Taking(v) => Some(Note(Go(s, a, Idle), a, Take, Took(v)).(writer := None))
       case Reserved(v) => Some(Note(Go(s, a, Idle), a, Reserve, Guard).(writer := None, free := s.free + {v}))
       case Refusing(op, error) => Some(Note(Go(s, a, Idle), a, op, Failed(error)).(writer := None))
       case _ => None)
    case Forget(v) => Some(s.(free := s.free - {v}))
  }

  /** The state after `steps`, or None when one of them is not enabled. */
  function Run<V(==)>(s: State<V>, steps: seq<Step<V>>): Option<State<V>>
    decreases |steps|
  {
    if steps == [] then Some(s)
    else match Next(s, steps[0]) case None => None case Some(t) => Run(t, steps[1..])
  }

  // ----- the invariant -----

  /** The lock's bookkeeping agrees with the actors' phases. */
  ghost predicate LockAgrees<V>(s: State<V>) {
    && (s.writer.Some? ==> s.readers == {})
    && (forall a: Actor :: a in s.readers <==> HoldsRead(At(s, a)))
    && (forall a: Actor :: s.writer == Some(a) <==> HoldsWrite(At(s, a)))
  }

  /** References that exist in a phase point to the present payload, and exclusive ones only without reservation. */
  ghost predicate PhaseSound<V>(s: State<V>, p: Phase<V>) {
    match p
    case Sharing(v) => s.payload == Some(v)
    case Clear(op) => !s.reserved && (op.Take? || op.Lend?)
    case Lending => !s.reserved && s.payload.Some?
    case Locked(op) => !op.Share?
    case Reserving(v) => s.payload == Some(v)
    case Reserved(v) => s.payload == Some(v) && s.reserved
    case Taking(v) => s.payload.None? && !s.reserved && s.taken == [v] && !TookBefore(s.log, |s.log|)
    case ReadFailing => s.payload.None?
    case Refusing(op, error) => !op.Share? && (error.Consumed? ==> s.payload.None?)
    case _ => true
  }

  ghost predicate Inv<V>(s: State<V>) {
    && LockAgrees(s)
    && (forall a: Actor :: PhaseSound(s, At(s, a)))
    && (s.reserved ==> s.payload.Some?)
    && (forall v :: v in s.free ==> s.reserved && s.payload == Some(v))
    && |s.taken| == (if s.payload.Some? then 0 else 1)
    && (s.payload.None? ==> TookBefore(s.log, |s.log|) || (s.writer.Some? && At(s, s.writer.value).Taking?))
    && LogSound(s.log, s.taken)
  }

  ghost predicate TookBefore<V>(log: seq<Entry<V>>, n: int) {
    exists j :: 0 <= j < n <= |log| && log[j].response.Took?
  }

  /** At most one operation takes the value, it is the value that left, and only later ones find it gone. */
  ghost predicate LogSound<V>(log: seq<Entry<V>>, taken: seq<V>) {
    && (forall i :: 0 <= i < |log| && log[i].response.Took? ==> taken == [log[i].response.v] && !TookBefore(log, i))
    && (forall i :: 0 <= i < |log| && log[i].response == Failed(Consumed) ==> TookBefore(log, i))
  }

  lemma NoteSound<V>(log: seq<Entry<V>>, taken: seq<V>, e: Entry<V>)
    requires LogSound(log, taken)
    requires e.response.Took? ==> taken == [e.response.v] && !TookBefore(log, |log|)
    requires e.response == Failed(Consumed) ==> TookBefore(log, |log|)
    ensures LogSound(log + [e], taken)
    ensures TookBefore(log + [e], |log| + 1) <==> TookBefore(log, |log|) || e.response.Took?
  {
    var longer := log + [e];
    forall i | 0 <= i <= |log|
      ensures TookBefore(longer, i) <==> TookBefore(log, i)
    {
      assert forall j :: 0 <= j < i ==> longer[j] == log[j];
    }
    assert longer[|log|] == e;
    assert forall j :: 0 <= j < |log| ==> longer[j] == log[j];
  }

  lemma NewInv<V>(v: V)
    ensures Inv(New(v))
  {
  }

  /** The lock's bookkeeping survives a move of actor `a` that acquires, keeps or releases the lock. */
  lemma Moved<V>(s: State<V>, t: State<V>, a: Actor, p: Phase<V>)
    requires LockAgrees(s) && t.phases == s.phases[a := p]
    requires t.readers == if HoldsRead(p) then s.readers + {a} else s.readers - {a}
    requires t.writer == if HoldsWrite(p) then Some(a) else if s.writer == Some(a) then None else s.writer
    requires HoldsRead(p) && !HoldsRead(At(s, a)) ==> s.writer.None?
    requires HoldsWrite(p) && !HoldsWrite(At(s, a)) ==> s.writer.None? && s.readers == {}
    ensures LockAgrees(t)
    ensures forall b: Actor :: At(t, b) == if b == a then p else At(s, b)
  {
    assert forall b: Actor :: At(t, b) == if b == a then p else At(s, b);
    assert HoldsRead(p) ==> !HoldsWrite(p);
  }

  /** While one actor holds the write lock, every other actor is outside. */
  lemma Alone<V>(s: State<V>, a: Actor)
    requires LockAgrees(s) && s.writer == Some(a)
    ensures forall b: Actor :: b != a ==> At(s, b).Idle?
  {
    forall b: Actor | b != a
      ensures At(s, b).Idle?
    {
      assert s.writer != Some(b) && b !in s.readers;
    }
  }

  /** Every enabled step keeps the invariant. */
  lemma NextInv<V>(s: State<V>, step: Step<V>)
    requires Inv(s) && Next(s, step).Some?
    ensures Inv(Next(s, step).value)
  {
    var t := Next(s, step).value;
    match step
    case TryRead(a) => TryInv(s, step);
    case TryWrite(a, op) => TryInv(s, step);
    case Look(a) =>
      Moved(s, t, a, At(t, a));
      NoteSound(s.log, s.taken, Entry(a, Share, Guard));
    case CheckFlag(a) => Moved(s, t, a, At(t, a));
    case Act(a) => ActInv(s, a);
    case SetFlag(a) => Moved(s, t, a, At(t, a)); Alone(s, a);
    case Write(a, _) => SamePhases(s, t); Alone(s, a);
    case Release(a) => ReleaseInv(s, a);
    case Forget(_) => SamePhases(s, t);
  }

  lemma TryInv<V>(s: State<V>, step: Step<V>)
    requires (step.TryRead? || step.TryWrite?) && Inv(s) && Next(s, step).Some?
    ensures Inv(Next(s, step).value)
  {
    var t := Next(s, step).value;
    if t.log == s.log {
      Moved(s, t, step.actor, At(t, step.actor));
    } else {
      SamePhases(s, t);
      NoteSound(s.log, s.taken, t.log[|s.log|]);
    }
  }

  lemma SamePhases<V>(s: State<V>, t: State<V>)
    requires LockAgrees(s) && t.phases == s.phases && t.readers == s.readers && t.writer == s.writer
    ensures LockAgrees(t) && forall b: Actor :: At(t, b) == At(s, b)
  {
    assert forall b: Actor :: At(t, b) == At(s, b);
  }

  lemma ActInv<V>(s: State<V>, a: Actor)
    requires Inv(s) && Next(s, Act(a)).Some?
    ensures Inv(Next(s, Act(a)).value)
  {
    var t := Next(s, Act(a)).value;
    assert PhaseSound(s, At(s, a));
    Moved(s, t, a, At(t, a));
    Alone(s, a);
    if t.log != s.log {
      NoteSound(s.log, s.taken, t.log[|s.log|]);
    }
    if t.taken != s.taken {
      assert !TookBefore(s.log, |s.log|);
    }
  }

  lemma ReleaseInv<V>(s: State<V>, a: Actor)
    requires Inv(s) && Next(s, Release(a)).Some?
    ensures Inv(Next(s, Release(a)).value)
  {
    var t := Next(s, Release(a)).value;
    assert PhaseSound(s, At(s, a));
    Moved(s, t, a, Idle);
    if s.writer == Some(a) {
      Alone(s, a);
    }
    if t.log != s.log {
      NoteSound(s.log, s.taken, t.log[|s.log|]);
    }
  }

  lemma {:induction false} RunInv<V>(s: State<V>, steps: seq<Step<V>>)
    requires Inv(s) && Run(s, steps).Some?
    ensures Inv(Run(s, steps).value)
    decreases |steps|
  {
    if steps != [] {
      NextInv(s, steps[0]);
      RunInv(Next(s, steps[0]).value, steps[1..]);
    }
  }

  // ----- aliasing -----

  predicate IsExclusive<V>(p: Phase<V>) {
    p.Clear? || p.Lending?
  }

  predicate IsShared<V>(p: Phase<V>) {
    p.Reading? || p.Sharing? || p.Reserving? || p.Reserved?
  }

  /**
   An exclusive reference is alone, and every reference points to a present
   value; a shared one still to the value it was created with.
   */
  ghost predicate Safe<V>(s: State<V>) {
    && (forall a: Actor, b: Actor :: a != b && IsExclusive(At(s, a)) ==> !IsExclusive(At(s, b)) && !IsShared(At(s, b)))
    && (forall a: Actor :: IsExclusive(At(s, a)) ==> s.free == {})
    && (forall a: Actor :: At(s, a).Lending? ==> s.payload.Some?)
    && (forall a: Actor :: At(s, a).Sharing? ==> s.payload == Some(At(s, a).seen))
    && (forall a: Actor :: At(s, a).Reserved? ==> s.payload == Some(At(s, a).seen))
    && (forall v :: v in s.free ==> s.payload == Some(v))
  }

  lemma AliasingSafety<V>(v: V, steps: seq<Step<V>>)
    requires Run(New(v), steps).Some?
    ensures Safe(Run(New(v), steps).value)
  {
    NewInv(v);
    RunInv(New(v), steps);
    var s := Run(New(v), steps).value;
    forall a: Actor | IsExclusive(At(s, a))
      ensures forall b: Actor :: b != a ==> At(s, b).Idle?
      ensures s.free == {}
    {
      assert PhaseSound(s, At(s, a));
      assert HoldsWrite(At(s, a));
      Alone(s, a);
    }
    forall a: Actor
      ensures PhaseSound(s, At(s, a))
    {
    }
  }

  // ----- progress -----

  /** The steps that an actor in phase `p` can take. Acquiring is always possible outside of an operation. */
  predicate Open<V>(p: Phase<V>, step: Step<V>) {
    match p
    case Idle => step.TryRead? || (step.TryWrite? && !step.op.Share?)
    case Reading => step.Look?
    case Locked(op) => if op.Reserve? then step.Act? else step.CheckFlag?
    case Clear(_) => step.Act?
    case Reserving(_) => step.SetFlag?
    case Lending => step.Write? || step.Release?
    case _ => step.Release?
  }

  /** Which steps an actor can take depends on its own phase alone: no step waits for another actor. */
  lemma NothingWaits<V>(s: State<V>, step: Step<V>)
    ensures Next(s, step).Some? <==> step.Forget? || Open(At(s, step.actor), step)
  {
  }

  /** How many steps an actor's operation or guard has still to go. */
  function Remaining<V>(p: Phase<V>): nat {
    match p
    case Idle => 0
    case Reading => 2
    case Locked(_) => 3
    case Clear(_) => 2
    case Reserving(_) => 2
    case _ => 1
  }

  /** The next step towards leaving the slot. */
  function Onwards<V>(a: Actor, p: Phase<V>): Step<V> {
    match p
    case Reading => Look(a)
    case Locked(op) => if op.Reserve? then Act(a) else CheckFlag(a)
    case Clear(_) => Act(a)
    case Reserving(_) => SetFlag(a)
    case _ => Release(a)
  }

  lemma GoesOn<V>(s: State<V>, a: Actor)
    requires Inv(s) && !At(s, a).Idle?
    ensures Next(s, Onwards(a, At(s, a))).Some?
    ensures var t := Next(s, Onwards(a, At(s, a))).value;
            && Inv(t) && Remaining(At(t, a)) < Remaining(At(s, a))
            && forall b: Actor :: b != a ==> At(t, b) == At(s, b)
  {
    assert PhaseSound(s, At(s, a));
    NextInv(s, Onwards(a, At(s, a)));
  }

  /**
   Whatever an actor has begun and whatever guard it holds, at most three steps
   of its own take it out of the slot, and then it holds nothing. Nobody else
   moves.
   */
  lemma {:induction false} EveryoneCanLeave<V>(s: State<V>, a: Actor) returns (steps: seq<Step<V>>)
    requires Inv(s)
    ensures |steps| <= Remaining(At(s, a)) <= 3
    ensures forall k :: 0 <= k < |steps| ==> !steps[k].Forget? && steps[k].actor == a
    ensures Run(s, steps).Some?
    ensures var t := Run(s, steps).value;
            && Inv(t) && At(t, a).Idle? && (forall b: Actor :: b != a ==> At(t, b) == At(s, b))
            && t.readers == s.readers - {a} && t.writer == (if s.writer == Some(a) then None else s.writer)
    decreases Remaining(At(s, a))
  {
    if At(s, a).Idle? {
      steps := [];
      assert a !in s.readers && s.writer != Some(a);
    } else {
      GoesOn(s, a);
      var m := Next(s, Onwards(a, At(s, a))).value;
      var more := EveryoneCanLeave(m, a);
      steps := [Onwards(a, At(s, a))] + more;
      assert steps[1..] == more;
      LocksLeft(s, Run(m, more).value, a);
    }
  }

  /** What an actor that left held is released, and nothing else. */
  lemma LocksLeft<V>(s: State<V>, t: State<V>, a: Actor)
    requires LockAgrees(s) && LockAgrees(t) && At(t, a).Idle?
    requires forall b: Actor :: b != a ==> At(t, b) == At(s, b)
    ensures t.readers == s.readers - {a} && t.writer == (if s.writer == Some(a) then None else s.writer)
  {
    forall b: Actor
      ensures b in t.readers <==> b in s.readers - {a}
      ensures t.writer == Some(b) <==> b != a && s.writer == Some(b)
    {
    }
  }

  /** A guard can be dropped at any time. Its actor's lock goes with it, and the value stays. */
  lemma GuardCanBeDropped<V>(s: State<V>, a: Actor)
    requires Inv(s) && (At(s, a).Sharing? || At(s, a).Lending?)
    ensures Next(s, Release(a)).Some?
    ensures var t := Next(s, Release(a)).value;
            && Inv(t) && At(t, a).Idle? && (forall b: Actor :: b != a ==> At(t, b) == At(s, b))
            && t.readers == s.readers - {a} && t.writer == (if s.writer == Some(a) then None else s.writer)
            && t.payload == s.payload && t.payload.Some? && t.reserved == s.reserved && t.free == s.free
            && t.taken == s.taken && t.log == s.log
  {
    assert PhaseSound(s, At(s, a));
    NextInv(s, Release(a));
    LocksLeft(s, Next(s, Release(a)).value, a);
  }

  /**
   A reservation's reference is in use once its operation has returned, without
   any lock, and its last use leaves the slot reserved with the same value.
   */
  lemma ReferenceOutlivesReservation<V>(s: State<V>, a: Actor)
    requires Inv(s) && At(s, a).Reserved?
    ensures Next(s, Release(a)).Some?
    ensures var v, t := At(s, a).seen, Next(s, Release(a)).value;
            && t.free == {v} && t.writer.None? && t.readers == {} && At(t, a).Idle? && Next(t, Forget(v)).Some?
            && Next(t, Forget(v)).value == t.(free := {}) && t.reserved && t.payload == Some(v)
  {
    assert PhaseSound(s, At(s, a)) && HoldsWrite(At(s, a)) && s.writer == Some(a);
    NextInv(s, Release(a));
    assert forall v :: v in Next(s, Release(a)).value.free ==> s.payload == Some(v);
  }

  // ----- the value leaves at most once -----

  lemma ValueLeavesAtMostOnce<V>(v: V, steps: seq<Step<V>>)
    requires Run(New(v), steps).Some?
    ensures var s := Run(New(v), steps).value;
            && |s.taken| + (if s.payload.Some? then 1 else 0) == 1
            && LogSound(s.log, s.taken)
            && (s.reserved ==> s.payload.Some?)
  {
    NewInv(v);
    RunInv(New(v), steps);
  }

  // ----- reservations are permanent -----

  predicate OnlyContention<V>(log: seq<Entry<V>>, from: nat) {
    forall i :: from <= i < |log| && (log[i].op.Take? || log[i].op.Lend?) ==> log[i].response == Failed(Contention)
  }

  lemma NextReserved<V>(s: State<V>, step: Step<V>)
    requires Inv(s) && s.reserved && Next(s, step).Some?
    ensures var t := Next(s, step).value;
            && t.reserved && t.payload == s.payload
            && |s.log| <= |t.log| && t.log[..|s.log|] == s.log && OnlyContention(t.log, |s.log|)
  {
    assert forall a: Actor :: PhaseSound(s, At(s, a));
  }

  /** After a reservation the value stays, unchanged, and every later take or exclusive access reports contention. */
  lemma {:induction false} ReservationIsPermanent<V>(s: State<V>, steps: seq<Step<V>>)
    requires Inv(s) && s.reserved && Run(s, steps).Some?
    ensures var t := Run(s, steps).value;
            && t.reserved && t.payload == s.payload
            && |s.log| <= |t.log| && t.log[..|s.log|] == s.log && OnlyContention(t.log, |s.log|)
    decreases |steps|
  {
    if steps != [] {
      var m := Next(s, steps[0]).value;
      NextReserved(s, steps[0]);
      NextInv(s, steps[0]);
      ReservationIsPermanent(m, steps[1..]);
      var t := Run(s, steps).value;
      assert forall i :: |s.log| <= i < |m.log| ==> t.log[i] == t.log[..|m.log|][i];
      assert t.log[..|s.log|] == t.log[..|m.log|][..|s.log|];
    }
  }

  // ----- refinement of an atomic slot -----

  /** The slot as its users think of it: operations take effect at once. */
  datatype Atomic<V> =
    Atomic(payload: Option<V>, reserved: bool, sharing: set<Actor>, lent: Option<Actor>, taken: seq<V>)

  datatype Effect<V> =
    | Internal
    | TookValue(actor: Actor, v: V)
    | Shared(actor: Actor)
    | Lent(actor: Actor)
    | ReservedFor(actor: Actor)
    | Assigned(actor: Actor, v: V)
    | Dropped(actor: Actor)
    | SawEmpty(actor: Actor)
    | SawReservation(actor: Actor)
    | Refused(actor: Actor)

  function AtomicNext<V(==)>(s: Atomic<V>, e: Effect<V>): Option<Atomic<V>> {
    match e
    case Internal => Some(s)
    case TookValue(_, v) =>
      if s.payload == Some(v) && !s.reserved && s.sharing == {} && s.lent.None?
      then Some(s.(payload := None, taken := s.taken + [v])) else None
    case Shared(a) => if s.payload.Some? && s.lent.None? then Some(s.(sharing := s.sharing + {a})) else None
    case Lent(a) =>
      if s.payload.Some? && !s.reserved && s.sharing == {} && s.lent.None? then Some(s.(lent := Some(a))) else None
    case ReservedFor(_) =>
      if s.payload.Some? && s.sharing == {} && s.lent.None? then Some(s.(reserved := true)) else None
    case Assigned(a, v) => if s.lent == Some(a) then Some(s.(payload := Some(v))) else None
    case Dropped(a) =>
      if a in s.sharing then Some(s.(sharing := s.sharing - {a}))
      else if s.lent == Some(a) then Some(s.(lent := None)) else None
    case SawEmpty(_) => if s.payload.None? then Some(s) else None
    case SawReservation(_) => if s.reserved then Some(s) else None
    case Refused(_) => Some(s)
  }

  function AtomicRun<V(==)>(s: Atomic<V>, effects: seq<Effect<V>>): Option<Atomic<V>>
    decreases |effects|
  {
    if effects == [] then Some(s)
    else match AtomicNext(s, effects[0]) case None => None case Some(t) => AtomicRun(t, effects[1..])
  }

  ghost function Abstract<V>(s: State<V>): Atomic<V> {
    Atomic(s.payload, s.reserved, set a | a in s.readers && At(s, a).Sharing?,
           if s.writer.Some? && At(s, s.writer.value).Lending? then s.writer else None, s.taken)
  }

  /** The step at which each operation takes effect. */
  function EffectOf<V>(s: State<V>, step: Step<V>): Effect<V> {
    match step
    case TryRead(a) => if s.writer.Some? then Refused(a) else Internal
    case Look(a) => if s.payload.Some? then Shared(a) else SawEmpty(a)
    case TryWrite(a, _) => if s.writer.Some? || s.readers != {} then Refused(a) else Internal
    case CheckFlag(a) => if s.reserved then SawReservation(a) else Internal
    case Act(a) =>
      (match s.payload
       case None => SawEmpty(a)
       case Some(v) =>
         if At(s, a) == Clear(Take) then TookValue(a, v)
         else if At(s, a).Clear? then Lent(a)
         else Internal)
    case SetFlag(a) => ReservedFor(a)
    case Write(a, v) => Assigned(a, v)
    case Release(a) => if At(s, a).Sharing? || At(s, a).Lending? then Dropped(a) else Internal
    case Forget(_) => Internal
  }

  function Effects<V(==)>(s: State<V>, steps: seq<Step<V>>): seq<Effect<V>>
    requires Run(s, steps).Some?
    decreases |steps|
  {
    if steps == [] then [] else [EffectOf(s, steps[0])] + Effects(Next(s, steps[0]).value, steps[1..])
  }

  /** Each step either is invisible to the atomic slot or is one of its effects. */
  lemma NextRefines<V>(s: State<V>, step: Step<V>)
    requires Inv(s) && Next(s, step).Some?
    ensures AtomicNext(Abstract(s), EffectOf(s, step)) == Some(Abstract(Next(s, step).value))
  {
    match step
    case Forget(_) => ForgetRefines(s, step);
    case Act(a) =>
      AbstractMoves(s, step);
      ActRefines(s, a);
    case Release(a) =>
      AbstractMoves(s, step);
      ReleaseRefines(s, a);
    case TryRead(_) => AcquiringRefines(s, step);
    case TryWrite(_, _) => AcquiringRefines(s, step);
    case _ => GoingOnRefines(s, step);
  }

  lemma ForgetRefines<V>(s: State<V>, step: Step<V>)
    requires Inv(s) && step.Forget?
    ensures AtomicNext(Abstract(s), EffectOf(s, step)) == Some(Abstract(Next(s, step).value))
  {
    var t := Next(s, step).value;
    assert forall b: Actor :: At(t, b) == At(s, b);
    assert Abstract(t).sharing == Abstract(s).sharing;
  }

  lemma AcquiringRefines<V>(s: State<V>, step: Step<V>)
    requires Inv(s) && Next(s, step).Some? && (step.TryRead? || step.TryWrite?)
    ensures AtomicNext(Abstract(s), EffectOf(s, step)) == Some(Abstract(Next(s, step).value))
  {
    AbstractMoves(s, step);
  }

  lemma GoingOnRefines<V>(s: State<V>, step: Step<V>)
    requires Inv(s) && Next(s, step).Some? && (step.Look? || step.CheckFlag? || step.SetFlag? || step.Write?)
    ensures AtomicNext(Abstract(s), EffectOf(s, step)) == Some(Abstract(Next(s, step).value))
  {
    AbstractMoves(s, step);
    assert PhaseSound(s, At(s, step.actor));
  }

  lemma ActRefines<V>(s: State<V>, a: Actor)
    requires Inv(s) && Next(s, Act(a)).Some?
    requires var t := Next(s, Act(a)).value;
             s.writer == Some(a) && Abstract(s).sharing == {} && Abstract(t).sharing == {}
    ensures AtomicNext(Abstract(s), EffectOf(s, Act(a))) == Some(Abstract(Next(s, Act(a)).value))
  {
    assert PhaseSound(s, At(s, a));
  }

  lemma ReleaseRefines<V>(s: State<V>, a: Actor)
    requires Inv(s) && Next(s, Release(a)).Some?
    requires var t := Next(s, Release(a)).value;
             && Abstract(t).sharing == (if At(s, a).Sharing? then Abstract(s).sharing - {a} else Abstract(s).sharing)
             && (a in Abstract(s).sharing <==> At(s, a).Sharing?) && (s.writer == Some(a) <==> HoldsWrite(At(s, a)))
    ensures AtomicNext(Abstract(s), EffectOf(s, Release(a))) == Some(Abstract(Next(s, Release(a)).value))
  {
    assert PhaseSound(s, At(s, a));
  }

  lemma AbstractMoves<V>(s: State<V>, step: Step<V>)
    requires Inv(s) && Next(s, step).Some? && !step.Forget?
    ensures var t, a := Next(s, step).value, step.actor;
            && (s.writer.Some? ==> Abstract(s).sharing == {})
            && Abstract(t).sharing == (if At(t, a).Sharing? then Abstract(s).sharing + {a}
                                       else if At(s, a).Sharing? then Abstract(s).sharing - {a}
                                       else Abstract(s).sharing)
            && (a in Abstract(s).sharing <==> At(s, a).Sharing?)
            && (s.writer == Some(a) <==> HoldsWrite(At(s, a)))
            && (At(s, a).Reading? ==> s.writer.None?)
  {
    var t, a := Next(s, step).value, step.actor;
    assert forall b: Actor :: b != a ==> At(t, b) == At(s, b);
    assert a in s.readers <==> HoldsRead(At(s, a));
    SharingSets(s, t, a);
  }

  lemma SharingSets<V>(s: State<V>, t: State<V>, a: Actor)
    requires Inv(s) && (t.readers == s.readers || t.readers == s.readers + {a} || t.readers == s.readers - {a})
    requires forall b: Actor :: b != a ==> At(t, b) == At(s, b)
    requires a in t.readers ==> HoldsRead(At(t, a))
    ensures Abstract(t).sharing ==
            (if a in t.readers && At(t, a).Sharing? then Abstract(s).sharing + {a} else Abstract(s).sharing - {a})
  {
  }

  /** Every interleaving of the fine-grained steps is a run of the atomic slot. */
  lemma {:induction false} RunRefines<V>(s: State<V>, steps: seq<Step<V>>)
    requires Inv(s) && Run(s, steps).Some?
    ensures AtomicRun(Abstract(s), Effects(s, steps)) == Some(Abstract(Run(s, steps).value))
    decreases |steps|
  {
    if steps != [] {
      NextRefines(s, steps[0]);
      NextInv(s, steps[0]);
      var t := Next(s, steps[0]).value;
      RunRefines(t, steps[1..]);
      assert Effects(s, steps)[1..] == Effects(t, steps[1..]);
    }
  }

  // ----- responses report effects -----

  predicate Explains<V(==)>(e: Effect<V>, entry: Entry<V>) {
    match entry.response
    case Took(v) => e == TookValue(entry.actor, v)
    case Guard =>
      (match entry.op
       case Share => e == Shared(entry.actor)
       case Lend => e == Lent(entry.actor)
       case Reserve => e == ReservedFor(entry.actor)
       case Take => false)
    case Failed(Consumed) => e == SawEmpty(entry.actor)
    case Failed(Contention) => e == SawReservation(entry.actor) || e == Refused(entry.actor)
  }

  /** The acquiring step with which an operation starts. */
  function Acquiring<V>(a: Actor, op: Op): Step<V> {
    if op.Share? then TryRead(a) else TryWrite(a, op)
  }

  predicate Acquires<V>(step: Step<V>, a: Actor) {
    (step.TryRead? || step.TryWrite?) && step.actor == a
  }

  /** Positions in a run: where an operation acquires, takes effect and responds. */
  datatype Span = Span(start: nat, effect: nat, response: nat)

  function StateAt<V(==)>(v: V, steps: seq<Step<V>>, k: nat): State<V>
    requires k <= |steps| && Run(New(v), steps[..k]).Some?
  {
    Run(New(v), steps[..k]).value
  }

  ghost predicate Runs<V>(v: V, steps: seq<Step<V>>) {
    forall k :: 0 <= k <= |steps| ==> Run(New(v), steps[..k]).Some?
  }

  /**
   The `i`-th response belongs to one operation: it starts with the acquiring
   step of its kind, its actor starts nothing else until it responds, and in
   between it takes the effect that it reports.
   */
  ghost predicate Spanned<V>(v: V, steps: seq<Step<V>>, i: nat, entry: Entry<V>, span: Span)
    requires Runs(v, steps)
  {
    && span.start <= span.effect <= span.response < |steps|
    && steps[span.start] == Acquiring(entry.actor, entry.op)
    && (forall k :: span.start < k <= span.response ==> !Acquires(steps[k], entry.actor))
    && Explains(EffectOf(StateAt(v, steps, span.effect), steps[span.effect]), entry)
    && |StateAt(v, steps, span.response).log| == i && |StateAt(v, steps, span.response + 1).log| == i + 1
  }

  /** Every response has a span, and the spans of one actor follow each other. */
  ghost predicate Linearized<V>(v: V, steps: seq<Step<V>>, spans: seq<Span>)
    requires Runs(v, steps)
  {
    SpansOf(v, steps, StateAt(v, steps, |steps|).log, spans)
  }

  ghost predicate SpansOf<V>(v: V, steps: seq<Step<V>>, log: seq<Entry<V>>, spans: seq<Span>)
    requires Runs(v, steps)
  {
    && |spans| == |log|
    && (forall i :: 0 <= i < |log| ==> Spanned(v, steps, i, log[i], spans[i]))
    && (forall i, j :: 0 <= i < j < |log| && log[i].actor == log[j].actor ==> spans[i].response < spans[j].start)
  }

  /** Different responses report different effects. */
  lemma EffectsAreDistinct<V>(v: V, steps: seq<Step<V>>, spans: seq<Span>)
    requires Runs(v, steps) && Linearized(v, steps, spans)
    ensures forall i, j :: 0 <= i < j < |spans| ==> spans[i].effect != spans[j].effect
  {
    var log := StateAt(v, steps, |steps|).log;
    forall i, j | 0 <= i < j < |spans|
      ensures spans[i].effect != spans[j].effect
    {
      assert Spanned(v, steps, i, log[i], spans[i]) && Spanned(v, steps, j, log[j], spans[j]);
      ExplainedActor(EffectOf(StateAt(v, steps, spans[i].effect), steps[spans[i].effect]), log[i]);
      ExplainedActor(EffectOf(StateAt(v, steps, spans[j].effect), steps[spans[j].effect]), log[j]);
    }
  }

  lemma ExplainedActor<V>(e: Effect<V>, entry: Entry<V>)
    requires Explains(e, entry)
    ensures !e.Internal? && e.actor == entry.actor
  {
  }

  // ----- operations under way -----

  /** The operation that an actor has not answered yet. */
  function Unanswered<V>(p: Phase<V>): Option<Op> {
    match p
    case Reading => Some(Share)
    case ReadFailing => Some(Share)
    case Locked(op) => Some(op)
    case Clear(op) => Some(op)
    case Taking(_) => Some(Take)
    case Reserving(_) => Some(Reserve)
    case Reserved(_) => Some(Reserve)
    case Refusing(op, _) => Some(op)
    case _ => None
  }

  /** The effect that an actor has had but not reported yet. */
  function Unreported<V>(a: Actor, p: Phase<V>): Option<Effect<V>> {
    match p
    case Taking(v) => Some(TookValue(a, v))
    case Reserved(_) => Some(ReservedFor(a))
    case ReadFailing => Some(SawEmpty(a))
    case Refusing(_, Consumed) => Some(SawEmpty(a))
    case Refusing(_, Contention) => Some(SawReservation(a))
    case _ => None
  }

  /**
   `span` is where `a`'s unanswered operation started and took effect; what `a`
   reported before, it reported earlier.
   */
  ghost predicate UnderWay<V>(v: V, steps: seq<Step<V>>, spans: seq<Span>, a: Actor, span: Span)
    requires Runs(v, steps)
  {
    var s := StateAt(v, steps, |steps|);
    Unanswered(At(s, a)).Some? ==>
      && span.start <= span.effect < |steps|
      && steps[span.start] == Acquiring(a, Unanswered(At(s, a)).value)
      && (forall k :: span.start < k < |steps| ==> !Acquires(steps[k], a))
      && (forall i :: 0 <= i < |s.log| && i < |spans| && s.log[i].actor == a ==> spans[i].response < span.start)
      && (Unreported(a, At(s, a)).Some? ==>
            EffectOf(StateAt(v, steps, span.effect), steps[span.effect]) == Unreported(a, At(s, a)).value)
  }

  lemma {:induction false} RunSnoc<V>(s: State<V>, steps: seq<Step<V>>)
    requires steps != []
    ensures var front := Run(s, steps[..|steps| - 1]);
            Run(s, steps) == if front.None? then None else Next(front.value, steps[|steps| - 1])
    decreases |steps|
  {
    var n := |steps| - 1;
    if n > 0 && Next(s, steps[0]).Some? {
      var t := Next(s, steps[0]).value;
      RunSnoc(t, steps[1..]);
      assert steps[1..][..n - 1] == steps[..n][1..];
    } else if n == 0 {
      assert steps[..0] == [] && steps[1..] == [];
    }
  }

  lemma {:induction false} RunPrefixes<V>(v: V, steps: seq<Step<V>>)
    requires Run(New(v), steps).Some?
    ensures Runs(v, steps)
    decreases |steps|
  {
    assert steps[..|steps|] == steps;
    if steps != [] {
      RunSnoc(New(v), steps);
      var front := steps[..|steps| - 1];
      RunPrefixes(v, front);
      assert forall k :: 0 <= k < |steps| ==> steps[..k] == front[..k];
    }
  }

  /** One more step: positions before it mean what they meant. */
  lemma LastStep<V>(v: V, steps: seq<Step<V>>)
    requires Runs(v, steps) && steps != []
    ensures var n := |steps| - 1;
            && Runs(v, steps[..n])
            && (forall k :: 0 <= k <= n ==> StateAt(v, steps, k) == StateAt(v, steps[..n], k))
            && Next(StateAt(v, steps, n), steps[n]) == Some(StateAt(v, steps, n + 1))
            && Inv(StateAt(v, steps, n))
  {
    var n := |steps| - 1;
    assert forall k :: 0 <= k <= n ==> steps[..n][..k] == steps[..k];
    assert steps[..n + 1] == steps;
    RunSnoc(New(v), steps);
    NewInv(v);
    RunInv(New(v), steps[..n]);
  }

  /** How a step moves its actor's operation, and nobody else's. */
  lemma Advances<V>(s: State<V>, step: Step<V>)
    requires Inv(s) && Next(s, step).Some? && !step.Forget?
    ensures var t, a := Next(s, step).value, step.actor;
            && (forall b: Actor :: b != a ==> At(t, b) == At(s, b))
            && (!Acquires(step, a) && Unanswered(At(t, a)).Some? ==> Unanswered(At(s, a)) == Unanswered(At(t, a)))
            && (Unreported(a, At(t, a)).Some? ==>
                  Unreported(a, At(t, a)) ==
                  if EffectOf(s, step).Internal? then Unreported(a, At(s, a)) else Some(EffectOf(s, step)))
  {
    assert PhaseSound(s, At(s, step.actor));
  }

  lemma Starts<V>(s: State<V>, step: Step<V>)
    requires Inv(s) && Next(s, step).Some? && (step.TryRead? || step.TryWrite?)
    ensures var t, a := Next(s, step).value, step.actor;
            && At(s, a).Idle?
            && (t.log == s.log ==>
                  && Unanswered(At(t, a)).Some? && Unreported(a, At(t, a)).None?
                  && step == Acquiring(a, Unanswered(At(t, a)).value))
  {
  }

  /**
   A step answers nothing, or ends its actor's operation and reports this
   step's effect or the one not reported yet.
   */
  lemma Answers<V>(s: State<V>, step: Step<V>)
    requires Inv(s) && Next(s, step).Some? && !step.Forget?
    ensures var t := Next(s, step).value;
            t.log == s.log ||
            (|t.log| == |s.log| + 1 && t.log[..|s.log|] == s.log && Unanswered(At(t, step.actor)).None?
             && AnswerOf(s, step, t.log[|s.log|]))
  {
    assert PhaseSound(s, At(s, step.actor));
  }

  predicate AnswerOf<V(==)>(s: State<V>, step: Step<V>, entry: Entry<V>)
    requires !step.Forget?
  {
    var a := step.actor;
    && entry.actor == a
    && (if Acquires(step, a) then step == Acquiring(a, entry.op) else Unanswered(At(s, a)) == Some(entry.op))
    && (if EffectOf(s, step).Internal?
        then Unreported(a, At(s, a)).Some? && Explains(Unreported(a, At(s, a)).value, entry)
        else Explains(EffectOf(s, step), entry))
  }

  ghost predicate AllUnderWay<V>(v: V, steps: seq<Step<V>>, spans: seq<Span>, open: map<Actor, Span>)
    requires Runs(v, steps)
  {
    forall a: Actor :: Unanswered(At(StateAt(v, steps, |steps|), a)).Some? ==>
      a in open && UnderWay(v, steps, spans, a, open[a])
  }

  lemma SpanPersists<V>(v: V, steps: seq<Step<V>>, i: nat, entry: Entry<V>, span: Span)
    requires Runs(v, steps) && steps != [] && Runs(v, steps[..|steps| - 1])
    requires Spanned(v, steps[..|steps| - 1], i, entry, span)
    ensures Spanned(v, steps, i, entry, span) && span.response < |steps| - 1
  {
    var front := steps[..|steps| - 1];
    assert front[..span.effect] == steps[..span.effect];
    assert front[..span.response] == steps[..span.response] && front[..span.response + 1] == steps[..span.response + 1];
  }

  /** The spans of a run without its last step are spans of the run. */
  lemma SpansPersist<V>(v: V, steps: seq<Step<V>>, spans: seq<Span>)
    requires Runs(v, steps) && steps != [] && Runs(v, steps[..|steps| - 1])
    requires Linearized(v, steps[..|steps| - 1], spans)
    ensures SpansOf(v, steps, StateAt(v, steps, |steps| - 1).log, spans)
    ensures forall i :: 0 <= i < |spans| ==> spans[i].response < |steps| - 1
  {
    var n := |steps| - 1;
    var log := StateAt(v, steps, n).log;
    assert steps[..n][..n] == steps[..n];
    forall i | 0 <= i < |log|
      ensures Spanned(v, steps, i, log[i], spans[i]) && spans[i].response < n
    {
      SpanPersists(v, steps, i, log[i], spans[i]);
    }
  }

  /** An operation under way stays so while its actor does not move. */
  lemma StaysUnderWay<V>(v: V, steps: seq<Step<V>>, before: seq<Span>, after: seq<Span>, b: Actor, span: Span)
    requires Runs(v, steps) && steps != [] && Runs(v, steps[..|steps| - 1])
    requires steps[|steps| - 1].Forget? || steps[|steps| - 1].actor != b
    requires UnderWay(v, steps[..|steps| - 1], before, b, span)
    requires var log, more := StateAt(v, steps, |steps| - 1).log, StateAt(v, steps, |steps|).log;
             && |before| == |log| <= |more| && more[..|log|] == log && |after| == |more| && after[..|log|] == before
             && forall i :: |log| <= i < |more| ==> more[i].actor != b
    requires At(StateAt(v, steps, |steps|), b) == At(StateAt(v, steps, |steps| - 1), b)
    ensures UnderWay(v, steps, after, b, span)
  {
    LastStep(v, steps);
    var n := |steps| - 1;
    var log, more := StateAt(v, steps, n).log, StateAt(v, steps, n + 1).log;
    assert StateAt(v, steps[..n], n) == StateAt(v, steps, n);
    if Unanswered(At(StateAt(v, steps, n + 1), b)).Some? {
      forall i | 0 <= i < |more| && more[i].actor == b
        ensures after[i].response < span.start
      {
        assert i < |log| && more[i] == more[..|log|][i] && after[i] == after[..|log|][i];
      }
    }
  }

  lemma {:induction false} Linearize<V>(v: V, steps: seq<Step<V>>) returns (spans: seq<Span>, open: map<Actor, Span>)
    requires Runs(v, steps)
    ensures Linearized(v, steps, spans) && AllUnderWay(v, steps, spans, open)
    decreases |steps|
  {
    if steps == [] {
      assert steps[..0] == [];
      return [], map[];
    }
    var n := |steps| - 1;
    LastStep(v, steps);
    var before, under := Linearize(v, steps[..n]);
    if steps[n].Forget? {
      spans, open := before, under;
      ForgetLinearized(v, steps, spans, open);
    } else {
      var a := steps[n].actor;
      var s, t := StateAt(v, steps, n), StateAt(v, steps, n + 1);
      var starts := Acquires(steps[n], a) || a !in under;
      var start := if starts then n else under[a].start;
      var effect := if starts || !EffectOf(s, steps[n]).Internal? then n else under[a].effect;
      var span := Span(start, effect, n);
      spans := if t.log == s.log then before else before + [span];
      open := under[a := span];
      MoverUnderWay(v, steps, before, under, spans, span);
      MoverLinearized(v, steps, before, under, spans, span);
      OthersUnderWay(v, steps, before, under, spans, open);
    }
  }

  lemma ForgetLinearized<V>(v: V, steps: seq<Step<V>>, spans: seq<Span>, open: map<Actor, Span>)
    requires Runs(v, steps) && steps != [] && Runs(v, steps[..|steps| - 1]) && steps[|steps| - 1].Forget?
    requires Linearized(v, steps[..|steps| - 1], spans) && AllUnderWay(v, steps[..|steps| - 1], spans, open)
    ensures Linearized(v, steps, spans) && AllUnderWay(v, steps, spans, open)
  {
    ForgetsNothing(v, steps);
    SpansPersist(v, steps, spans);
    assert spans[..|spans|] == spans;
    forall b: Actor | Unanswered(At(StateAt(v, steps, |steps|), b)).Some?
      ensures b in open && UnderWay(v, steps, spans, b, open[b])
    {
      OtherUnderWay(v, steps, spans, open, spans, b);
    }
  }

  lemma ForgetsNothing<V>(v: V, steps: seq<Step<V>>)
    requires Runs(v, steps) && steps != [] && steps[|steps| - 1].Forget?
    ensures StateAt(v, steps, |steps|).log == StateAt(v, steps, |steps| - 1).log
    ensures Runs(v, steps[..|steps| - 1])
    ensures StateAt(v, steps[..|steps| - 1], |steps| - 1) == StateAt(v, steps, |steps| - 1)
  {
    LastStep(v, steps);
  }

  /** The last step is a step of `a`, with `before` and `under` for the run without it. */
  ghost predicate Moving<V>(v: V, steps: seq<Step<V>>, before: seq<Span>, under: map<Actor, Span>, spans: seq<Span>,
                            span: Span)
    requires Runs(v, steps)
  {
    steps != [] && Runs(v, steps[..|steps| - 1]) && !steps[|steps| - 1].Forget? &&
    var n := |steps| - 1;
    var a, s, t := steps[n].actor, StateAt(v, steps, n), StateAt(v, steps, n + 1);
    var starts := Acquires(steps[n], a) || a !in under;
    && Linearized(v, steps[..n], before) && AllUnderWay(v, steps[..n], before, under)
    && span == Span(if starts then n else under[a].start,
                    if starts || !EffectOf(s, steps[n]).Internal? then n else under[a].effect, n)
    && spans == (if t.log == s.log then before else before + [span])
  }

  /**
   The operation of `a` that is under way before the last step began where
   `span` does, after its earlier responses.
   */
  ghost predicate Begun<V>(v: V, steps: seq<Step<V>>, before: seq<Span>, a: Actor, span: Span)
    requires Runs(v, steps) && steps != []
  {
    var n := |steps| - 1;
    var s := StateAt(v, steps, n);
    Unanswered(At(s, a)).Some? ==>
      && span.start <= span.effect <= n && span.start < n
      && steps[span.start] == Acquiring(a, Unanswered(At(s, a)).value)
      && (forall k :: span.start < k <= n ==> !Acquires(steps[k], a))
      && (forall i :: 0 <= i < |s.log| && i < |before| && s.log[i].actor == a ==> before[i].response < span.start)
  }

  /** The effect that it is going to report. */
  ghost predicate Effected<V>(v: V, steps: seq<Step<V>>, a: Actor, span: Span)
    requires Runs(v, steps) && steps != []
  {
    var n := |steps| - 1;
    var s := StateAt(v, steps, n);
    if EffectOf(s, steps[n]).Internal? then
      Unreported(a, At(s, a)).Some? ==>
        && span.effect <= n
        && EffectOf(StateAt(v, steps, span.effect), steps[span.effect]) == Unreported(a, At(s, a)).value
    else span.effect == n
  }

  /** What the mover had before this step, if its operation was under way. */
  lemma MoverBefore<V>(v: V, steps: seq<Step<V>>, before: seq<Span>, under: map<Actor, Span>, spans: seq<Span>,
                       span: Span)
    requires Runs(v, steps) && Moving(v, steps, before, under, spans, span)
    ensures var n := |steps| - 1;
            var a, s := steps[n].actor, StateAt(v, steps, n);
            && |before| == |s.log|
            && (!Acquires(steps[n], a) ==> Begun(v, steps, before, a, span))
            && (!Acquires(steps[n], a) && Unanswered(At(s, a)).Some? ==> Effected(v, steps, a, span))
            && (Acquires(steps[n], a) ==> span.start == n && span.effect == n)
            && (forall i :: 0 <= i < |s.log| ==> before[i].response < n)
  {
    var n := |steps| - 1;
    var a, s := steps[n].actor, StateAt(v, steps, n);
    assert steps[..n][..n] == steps[..n];
    SpansPersist(v, steps, before);
    if !Acquires(steps[n], a) && Unanswered(At(s, a)).Some? {
      MoverBegun(v, steps, before, under, spans, span);
      MoverEffected(v, steps, before, under, spans, span);
    }
  }

  lemma MoverBegun<V>(v: V, steps: seq<Step<V>>, before: seq<Span>, under: map<Actor, Span>, spans: seq<Span>,
                      span: Span)
    requires Runs(v, steps) && Moving(v, steps, before, under, spans, span)
    requires var n := |steps| - 1;
             var a := steps[n].actor;
             !Acquires(steps[n], a) && Unanswered(At(StateAt(v, steps, n), a)).Some?
    ensures Begun(v, steps, before, steps[|steps| - 1].actor, span)
  {
    var n := |steps| - 1;
    var a := steps[n].actor;
    assert steps[..n][..n] == steps[..n];
    assert a in under && UnderWay(v, steps[..n], before, a, under[a]);
  }

  lemma MoverEffected<V>(v: V, steps: seq<Step<V>>, before: seq<Span>, under: map<Actor, Span>, spans: seq<Span>,
                         span: Span)
    requires Runs(v, steps) && Moving(v, steps, before, under, spans, span)
    requires var n := |steps| - 1;
             var a := steps[n].actor;
             !Acquires(steps[n], a) && Unanswered(At(StateAt(v, steps, n), a)).Some?
    ensures Effected(v, steps, steps[|steps| - 1].actor, span)
  {
    var n := |steps| - 1;
    var a := steps[n].actor;
    assert steps[..n][..n] == steps[..n];
    assert a in under && UnderWay(v, steps[..n], before, a, under[a]);
    assert steps[..n][..under[a].effect] == steps[..under[a].effect];
  }

  lemma MoverUnderWay<V>(v: V, steps: seq<Step<V>>, before: seq<Span>, under: map<Actor, Span>, spans: seq<Span>,
                         span: Span)
    requires Runs(v, steps) && Moving(v, steps, before, under, spans, span)
    ensures UnderWay(v, steps, spans, steps[|steps| - 1].actor, span)
  {
    var n := |steps| - 1;
    var a, s, t := steps[n].actor, StateAt(v, steps, n), StateAt(v, steps, n + 1);
    LastStep(v, steps);
    Advances(s, steps[n]);
    Answers(s, steps[n]);
    if Acquires(steps[n], a) {
      Starts(s, steps[n]);
    }
    MoverBefore(v, steps, before, under, spans, span);
  }

  lemma MoverLinearized<V>(v: V, steps: seq<Step<V>>, before: seq<Span>, under: map<Actor, Span>, spans: seq<Span>,
                           span: Span)
    requires Runs(v, steps) && Moving(v, steps, before, under, spans, span)
    ensures Linearized(v, steps, spans)
  {
    var n := |steps| - 1;
    var a, s, t := steps[n].actor, StateAt(v, steps, n), StateAt(v, steps, n + 1);
    SpansPersist(v, steps, before);
    if t.log != s.log {
      MoverAnswers(v, steps, before, under, spans, span);
      OneMoreSpan(v, steps, s.log, t.log, before, span);
    }
  }

  lemma OneMoreSpan<V>(v: V, steps: seq<Step<V>>, log: seq<Entry<V>>, more: seq<Entry<V>>, before: seq<Span>,
                       span: Span)
    requires Runs(v, steps) && SpansOf(v, steps, log, before)
    requires |more| == |log| + 1 && more[..|log|] == log && Spanned(v, steps, |log|, more[|log|], span)
    requires forall i :: 0 <= i < |log| && log[i].actor == more[|log|].actor ==> before[i].response < span.start
    ensures SpansOf(v, steps, more, before + [span])
  {
    var spans := before + [span];
    forall i | 0 <= i < |more|
      ensures Spanned(v, steps, i, more[i], spans[i])
    {
      if i < |log| {
        assert more[i] == more[..|log|][i] && spans[i] == before[i] && Spanned(v, steps, i, log[i], before[i]);
      }
    }
    forall i, j | 0 <= i < j < |more| && more[i].actor == more[j].actor
      ensures spans[i].response < spans[j].start
    {
      assert more[i] == more[..|log|][i] && (j < |log| ==> more[j] == more[..|log|][j]);
    }
  }

  lemma MoverAnswers<V>(v: V, steps: seq<Step<V>>, before: seq<Span>, under: map<Actor, Span>, spans: seq<Span>,
                        span: Span)
    requires Runs(v, steps) && Moving(v, steps, before, under, spans, span)
    requires StateAt(v, steps, |steps|).log != StateAt(v, steps, |steps| - 1).log
    ensures var s, t := StateAt(v, steps, |steps| - 1), StateAt(v, steps, |steps|);
            && |t.log| == |s.log| + 1 && t.log[..|s.log|] == s.log && |before| == |s.log|
            && Spanned(v, steps, |s.log|, t.log[|s.log|], span)
            && forall i :: 0 <= i < |s.log| && s.log[i].actor == t.log[|s.log|].actor ==>
                 before[i].response < span.start
  {
    var n := |steps| - 1;
    var s := StateAt(v, steps, n);
    LastStep(v, steps);
    Answers(s, steps[n]);
    MoverBefore(v, steps, before, under, spans, span);
  }

  /** Other actors keep their phases and get no responses. */
  lemma OthersWait<V>(s: State<V>, step: Step<V>, b: Actor)
    requires Inv(s) && Next(s, step).Some? && (step.Forget? || b != step.actor)
    ensures var t := Next(s, step).value;
            && At(t, b) == At(s, b) && |s.log| <= |t.log| && t.log[..|s.log|] == s.log
            && forall i :: |s.log| <= i < |t.log| ==> t.log[i].actor != b
  {
    if !step.Forget? {
      Advances(s, step);
      Answers(s, step);
    }
  }

  lemma OtherUnderWay<V>(v: V, steps: seq<Step<V>>, before: seq<Span>, under: map<Actor, Span>, spans: seq<Span>,
                         b: Actor)
    requires Runs(v, steps) && steps != [] && Runs(v, steps[..|steps| - 1])
    requires steps[|steps| - 1].Forget? || b != steps[|steps| - 1].actor
    requires AllUnderWay(v, steps[..|steps| - 1], before, under) && Unanswered(At(StateAt(v, steps, |steps|), b)).Some?
    requires var log, more := StateAt(v, steps, |steps| - 1).log, StateAt(v, steps, |steps|).log;
             |before| == |log| && |spans| == |more| && |log| <= |more| && spans[..|log|] == before
    ensures b in under && UnderWay(v, steps, spans, b, under[b])
  {
    var n := |steps| - 1;
    LastStep(v, steps);
    OthersWait(StateAt(v, steps, n), steps[n], b);
    assert UnderWay(v, steps[..n], before, b, under[b]);
    StaysUnderWay(v, steps, before, spans, b, under[b]);
  }

  lemma OthersUnderWay<V>(v: V, steps: seq<Step<V>>, before: seq<Span>, under: map<Actor, Span>, spans: seq<Span>,
                          open: map<Actor, Span>)
    requires Runs(v, steps) && steps != [] && !steps[|steps| - 1].Forget?
    requires var a := steps[|steps| - 1].actor; a in open && open == under[a := open[a]]
    requires Moving(v, steps, before, under, spans, open[steps[|steps| - 1].actor])
    requires UnderWay(v, steps, spans, steps[|steps| - 1].actor, open[steps[|steps| - 1].actor])
    ensures AllUnderWay(v, steps, spans, open)
  {
    SpansMatch(v, steps, before, under, spans, open[steps[|steps| - 1].actor]);
    forall b: Actor | Unanswered(At(StateAt(v, steps, |steps|), b)).Some?
      ensures b in open && UnderWay(v, steps, spans, b, open[b])
    {
      if b != steps[|steps| - 1].actor {
        OtherUnderWay(v, steps, before, under, spans, b);
      }
    }
  }

  lemma SpansMatch<V>(v: V, steps: seq<Step<V>>, before: seq<Span>, under: map<Actor, Span>, spans: seq<Span>,
                      span: Span)
    requires Runs(v, steps) && Moving(v, steps, before, under, spans, span)
    ensures var log, more := StateAt(v, steps, |steps| - 1).log, StateAt(v, steps, |steps|).log;
            |before| == |log| && |spans| == |more| && |log| <= |more| && spans[..|log|] == before
  {
    LastStep(v, steps);
    Answers(StateAt(v, steps, |steps| - 1), steps[|steps| - 1]);
    assert spans[..|before|] == before;
  }

  /** An acquisition is refused only while another actor holds the lock in a conflicting way. */
  lemma RefusalHasConflict<V>(s: State<V>, step: Step<V>)
    requires Inv(s) && Next(s, step).Some? && EffectOf(s, step).Refused?
    ensures exists b: Actor :: b != step.actor && (HoldsWrite(At(s, b)) || (step.TryWrite? && HoldsRead(At(s, b))))
  {
    if s.writer.Some? {
      assert HoldsWrite(At(s, s.writer.value));
    } else {
      var b :| b in s.readers;
      assert HoldsRead(At(s, b));
    }
  }

  /**
   For every run of a new slot: the atomic slot reaches the same state by the
   recorded effects, and each response reports an effect that its own
   operation had, different responses different ones.
   */
  lemma SlotRefinesAtomicSlot<V>(v: V, steps: seq<Step<V>>) returns (spans: seq<Span>)
    requires Run(New(v), steps).Some?
    ensures AtomicRun(Atomic(Some(v), false, {}, None, []), Effects(New(v), steps)) ==
            Some(Abstract(Run(New(v), steps).value))
    ensures Runs(v, steps) && Linearized(v, steps, spans)
    ensures forall i, j :: 0 <= i < j < |spans| ==> spans[i].effect != spans[j].effect
  {
    NewInv(v);
    RunRefines(New(v), steps);
    assert Abstract(New(v)) == Atomic(Some(v), false, {}, None, []);
    RunPrefixes(v, steps);
    ghost var open;
    spans, open := Linearize(v, steps);
    EffectsAreDistinct(v, steps, spans);
  }
}
