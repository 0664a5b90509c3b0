/**
 The two consumable slots as their callers use them: one call at a time, with
 guards that stay outstanding between calls.

 `TakeSlot` is tied to SlotProtocol (an uninterrupted operation of the protocol
 is one call), and `LocalTakeSlot` to `TakeSlot` (they answer alike).
 */
module Slots {
  import opened Options
  import P = SlotProtocol

  datatype Call<V> =
    | Take
    | Share
    | Lend
    | Reserve
    | DropShared
    | DropLent
    | Assign(v: V)                         // through the outstanding exclusive guard

  datatype Reply<V> = Value(v: V) | Guarded(seen: V) | Failed(error: P.Error) | Unit

  /** Observable state of a synchronized slot: its payload, lock and reservation flag. */
  datatype Slot<V> = Slot(payload: Option<V>, readers: nat, writing: bool, reserved: bool)

  datatype Answer<S, V> = Answer(slot: S, reply: Reply<V>)

  function Sync<V>(s: Slot<V>, call: Call<V>): Answer<Slot<V>, V> {
    match call
    case Take =>
      if s.writing || s.readers > 0 || s.reserved then Answer(s, Failed(P.Contention))
      else (match s.payload
            case None => Answer(s, Failed(P.Consumed))
            case Some(v) => Answer(s.(payload := None), Value(v)))
    case Share =>
      if s.writing then Answer(s, Failed(P.Contention))
      else (match s.payload
            case None => Answer(s, Failed(P.Consumed))
            case Some(v) => Answer(s.(readers := s.readers + 1), Guarded(v)))
    case Lend =>
      if s.writing || s.readers > 0 || s.reserved then Answer(s, Failed(P.Contention))
      else (match s.payload
            case None => Answer(s, Failed(P.Consumed))
            case Some(v) => Answer(s.(writing := true), Guarded(v)))
    case Reserve =>
      if s.writing || s.readers > 0 then Answer(s, Failed(P.Contention))
      else (match s.payload
            case None => Answer(s, Failed(P.Consumed))
            case Some(v) => Answer(s.(reserved := true), Guarded(v)))
    case DropShared => Answer(if s.readers > 0 then s.(readers := s.readers - 1) else s, Unit)
    case DropLent => Answer(s.(writing := false), Unit)
    case Assign(v) => Answer(if s.writing then s.(payload := Some(v)) else s, Unit)
  }

  class TakeSlot<V> {
    var readers: nat
    var writing: bool
    var reserved: bool
    var payload: Option<V>

    ghost function State(): Slot<V>
      reads this
    {
      Slot(payload, readers, writing, reserved)
    }

    constructor (v: V)
      ensures State() == Slot(Some(v), 0, false, false)
    {
      readers, writing, reserved, payload := 0, false, false, Some(v);
    }

    method TryWrite() returns (acquired: bool)
      modifies this`writing
      ensures acquired == (!old(writing) && readers == 0) && writing == (old(writing) || acquired)
    {
      acquired := !writing && readers == 0;
      if acquired {
        writing := true;
      }
    }

    method TryResolve() returns (r: Reply<V>)
      modifies this
      ensures Answer(State(), r) == Sync(old(State()), Take)
    {
      var acquired := TryWrite();
      if !acquired {
        return Failed(P.Contention);
      }
      if reserved {
        writing := false;
        return Failed(P.Contention);
      }
      match payload {
        case None => r := Failed(P.Consumed);
        case Some(v) =>
          payload := None;
          r := Value(v);
      }
      writing := false;
    }

    /** On success the read lock stays with the returned guard. */
    method TryResolveRef() returns (r: Reply<V>)
      modifies this
      ensures Answer(State(), r) == Sync(old(State()), Share)
    {
      if writing {
        return Failed(P.Contention);
      }
      readers := readers + 1;
      match payload {
        case None =>
          readers := readers - 1;
          r := Failed(P.Consumed);
        case Some(v) => r := Guarded(v);
      }
    }

    /** On success the write lock stays with the returned guard. */
    method TryResolveRefMut() returns (r: Reply<V>)
      modifies this
      ensures Answer(State(), r) == Sync(old(State()), Lend)
    {
      var acquired := TryWrite();
      if !acquired {
        return Failed(P.Contention);
      }
      if reserved {
        writing := false;
        return Failed(P.Contention);
      }
      match payload {
        case None =>
          writing := false;
          r := Failed(P.Consumed);
        case Some(v) => r := Guarded(v);
      }
    }

    method TryReserveRef() returns (r: Reply<V>)
      modifies this
      ensures Answer(State(), r) == Sync(old(State()), Reserve)
    {
      var acquired := TryWrite();
      if !acquired {
        return Failed(P.Contention);
      }
      match payload {
        case None => r := Failed(P.Consumed);
        case Some(v) =>
          reserved := true;
          r := Guarded(v);
      }
      writing := false;
    }
  }

  // ----- one protocol operation, run alone, is one call -----

  function View<V>(s: P.State<V>): Slot<V> {
    Slot(s.payload, |s.readers|, s.writer.Some?, s.reserved)
  }

  function CallOf<V>(op: P.Op): Call<V> {
    match op case Take => Take case Share => Share case Lend => Lend case Reserve => Reserve
  }

  /** The steps of one operation of `a` from state `s`, nothing else happening meanwhile. */
  function Alone<V(==)>(s: P.State<V>, a: P.Actor, op: P.Op): seq<P.Step<V>> {
    match op
    case Share =>
      if s.writer.Some? then [P.TryRead(a)]
      else [P.TryRead(a), P.Look(a)] + (if s.payload.None? then [P.Release(a)] else [])
    case Reserve =>
      if s.writer.Some? || s.readers != {} then [P.TryWrite(a, op)]
      else [P.TryWrite(a, op), P.Act(a)] + (if s.payload.None? then [] else [P.SetFlag(a)]) + [P.Release(a)]
    case _ =>
      if s.writer.Some? || s.readers != {} then [P.TryWrite(a, op)]
      else if s.reserved then [P.TryWrite(a, op), P.CheckFlag(a), P.Release(a)]
      else [P.TryWrite(a, op), P.CheckFlag(a), P.Act(a)]
           + (if op.Take? || s.payload.None? then [P.Release(a)] else [])
  }

  /** The call's reply is what the protocol noted. */
  predicate Matches<V(==)>(response: P.Response<V>, reply: Reply<V>, payload: Option<V>) {
    match response
    case Took(v) => reply == Value(v)
    case Guard => payload.Some? && reply == Guarded(payload.value)
    case Failed(error) => reply == Failed(error)
  }

  lemma RunTwo<V>(s: P.State<V>, x: P.Step<V>, y: P.Step<V>)
    requires P.Next(s, x).Some?
    ensures P.Run(s, [x]) == P.Next(s, x)
    ensures P.Run(s, [x, y]) == P.Next(P.Next(s, x).value, y)
  {
    assert [x][1..] == [] && [x, y][1..] == [y];
    assert P.Run(P.Next(s, x).value, [y]) == P.Next(P.Next(s, x).value, y) by { assert [y][1..] == []; }
  }

  lemma RunMore<V>(s: P.State<V>, steps: seq<P.Step<V>>, m: P.State<V>, last: P.Step<V>)
    requires P.Run(s, steps) == Some(m)
    ensures P.Run(s, steps + [last]) == P.Next(m, last)
    decreases |steps|
  {
    if steps == [] {
      assert steps + [last] == [last] && [last][1..] == [];
    } else {
      assert (steps + [last])[1..] == steps[1..] + [last];
      RunMore(P.Next(s, steps[0]).value, steps[1..], m, last);
    }
  }

  /** The protocol's steps of one operation answer as the call does, and leave the same slot. */
  ghost predicate Answers<V>(s: P.State<V>, a: P.Actor, op: P.Op) {
    var t := P.Run(s, Alone(s, a, op));
    var answer := Sync(View(s), CallOf(op));
    && t.Some? && View(t.value) == answer.slot
    && |t.value.log| == |s.log| + 1 && t.value.log[..|s.log|] == s.log
    && t.value.log[|s.log|].actor == a && t.value.log[|s.log|].op == op
    && Matches(t.value.log[|s.log|].response, answer.reply, s.payload)
  }

  /** An operation that runs without interference is one call, whatever guards are outstanding. */
  lemma UninterruptedOperationIsACall<V>(s: P.State<V>, a: P.Actor, op: P.Op)
    requires P.Inv(s) && P.At(s, a).Idle?
    ensures Answers(s, a, op)
  {
    assert a !in s.readers && s.writer != Some(a);
    var steps := Alone(s, a, op);
    if op.Share? {
      AloneShares(s, a);
    } else if s.writer.Some? || s.readers != {} {
      RunTwo(s, P.TryWrite(a, op), P.TryWrite(a, op));
    } else if op.Reserve? && s.payload.Some? {
      AloneReservesPresent(s, a);
    } else if op.Reserve? {
      AloneReservesConsumed(s, a);
    } else if s.reserved {
      AloneRefused(s, a, op);
    } else {
      AloneActs(s, a, op);
    }
  }

  lemma AloneShares<V>(s: P.State<V>, a: P.Actor)
    requires P.At(s, a).Idle? && a !in s.readers
    ensures Answers(s, a, P.Share)
  {
    var x, y := P.TryRead(a), P.Look(a);
    RunTwo(s, x, y);
    if s.writer.None? {
      var m := P.Next(s, x).value;
      assert m.readers - {a} == s.readers;
      if s.payload.None? {
        RunMore(s, [x, y], P.Next(m, y).value, P.Release(a));
        assert [x, y] + [P.Release(a)] == [x, y, P.Release(a)];
      } else {
        assert [x, y] + [] == [x, y];
      }
    }
  }

  lemma AloneReservesPresent<V>(s: P.State<V>, a: P.Actor)
    requires P.At(s, a).Idle? && s.writer.None? && s.readers == {} && s.payload.Some?
    ensures Answers(s, a, P.Reserve)
  {
    var x, y, z, w := P.TryWrite(a, P.Reserve), P.Act(a), P.SetFlag(a), P.Release(a);
    var v := s.payload.value;
    var locked := P.Go(s, a, P.Locked(P.Reserve)).(writer := Some(a));
    var seen := P.Go(locked, a, P.Reserving(v));
    var set' := P.Go(seen, a, P.Reserved(v)).(reserved := true);
    assert P.Run(s, [x, y] + [z] + [w]) == P.Next(set', w) by {
      RunTwo(s, x, y);
      assert P.Next(locked, y) == Some(seen);
      RunMore(s, [x, y], seen, z);
      RunMore(s, [x, y] + [z], set', w);
    }
  }

  lemma AloneReservesConsumed<V>(s: P.State<V>, a: P.Actor)
    requires P.At(s, a).Idle? && s.writer.None? && s.readers == {} && s.payload.None?
    ensures Answers(s, a, P.Reserve)
  {
    var x, y, w := P.TryWrite(a, P.Reserve), P.Act(a), P.Release(a);
    var locked := P.Go(s, a, P.Locked(P.Reserve)).(writer := Some(a));
    assert P.Run(s, [x, y] + [] + [w]) == P.Next(P.Go(locked, a, P.Refusing(P.Reserve, P.Consumed)), w) by {
      RunTwo(s, x, y);
      assert [x, y] + [] == [x, y];
      RunMore(s, [x, y], P.Go(locked, a, P.Refusing(P.Reserve, P.Consumed)), w);
    }
  }

  lemma AloneRefused<V>(s: P.State<V>, a: P.Actor, op: P.Op)
    requires P.At(s, a).Idle? && s.writer.None? && s.readers == {} && s.reserved && (op.Take? || op.Lend?)
    ensures Answers(s, a, op)
  {
    var x, y, w := P.TryWrite(a, op), P.CheckFlag(a), P.Release(a);
    var locked := P.Go(s, a, P.Locked(op)).(writer := Some(a));
    RunTwo(s, x, y);
    RunMore(s, [x, y], P.Go(locked, a, P.Refusing(op, P.Contention)), w);
    assert [x, y] + [w] == [x, y, w];
  }

  lemma AloneActs<V>(s: P.State<V>, a: P.Actor, op: P.Op)
    requires P.At(s, a).Idle? && s.writer.None? && s.readers == {} && !s.reserved && (op.Take? || op.Lend?)
    ensures Answers(s, a, op)
  {
    if op.Take? || s.payload.None? {
      AloneLeaves(s, a, op);
    } else {
      AloneChecks(s, a, op);
      var steps: seq<P.Step<V>> := [P.TryWrite(a, op), P.CheckFlag(a), P.Act(a)];
      assert steps + [] == steps;
    }
  }

  lemma AloneLeaves<V>(s: P.State<V>, a: P.Actor, op: P.Op)
    requires P.At(s, a).Idle? && s.writer.None? && s.readers == {} && !s.reserved
    requires op.Take? || (op.Lend? && s.payload.None?)
    ensures Answers(s, a, op)
  {
    var x, y, z, w := P.TryWrite(a, op), P.CheckFlag(a), P.Act(a), P.Release(a);
    var clear := P.Go(P.Go(s, a, P.Locked(op)), a, P.Clear(op)).(writer := Some(a));
    AloneChecks(s, a, op);
    var acted := P.Next(clear, z).value;
    assert P.Run(s, Alone(s, a, op)) == P.Next(acted, w) by {
      RunMore(s, [x, y, z], acted, w);
    }
  }

  lemma AloneChecks<V>(s: P.State<V>, a: P.Actor, op: P.Op)
    requires P.At(s, a).Idle? && s.writer.None? && s.readers == {} && !s.reserved && (op.Take? || op.Lend?)
    ensures P.Run(s, [P.TryWrite(a, op), P.CheckFlag(a), P.Act(a)]) ==
            P.Next(P.Go(P.Go(s, a, P.Locked(op)), a, P.Clear(op)).(writer := Some(a)), P.Act(a))
  {
    var x, y, z := P.TryWrite(a, op), P.CheckFlag(a), P.Act(a);
    RunTwo(s, x, y);
    RunMore(s, [x, y], P.Go(P.Go(s, a, P.Locked(op)), a, P.Clear(op)).(writer := Some(a)), z);
    assert [x, y] + [z] == [x, y, z];
  }

  // ----- guards -----

  /** Dropping a guard and writing through one are calls too. */
  lemma UsingAGuardIsACall<V>(s: P.State<V>, a: P.Actor, v: V)
    requires P.Inv(s) && (P.At(s, a).Sharing? || P.At(s, a).Lending?)
    ensures P.Next(s, P.Release(a)).Some?
    ensures Answer(View(P.Next(s, P.Release(a)).value), Unit) ==
            Sync(View(s), if P.At(s, a).Sharing? then DropShared else DropLent)
    ensures P.At(s, a).Lending? ==>
              && P.Next(s, P.Write(a, v)).Some?
              && Answer(View(P.Next(s, P.Write(a, v)).value), Unit) == Sync(View(s), Assign(v))
  {
    P.GuardCanBeDropped(s, a);
    if P.At(s, a).Sharing? {
      SharedDropIsACall(s, a);
    } else {
      LentDropIsACall(s, a);
    }
  }

  lemma SharedDropIsACall<V>(s: P.State<V>, a: P.Actor)
    requires P.Inv(s) && P.At(s, a).Sharing? && P.Next(s, P.Release(a)).Some?
    ensures Answer(View(P.Next(s, P.Release(a)).value), Unit) == Sync(View(s), DropShared)
  {
    assert P.HoldsRead(P.At(s, a)) && a in s.readers;
    assert |s.readers - {a}| == |s.readers| - 1;
  }

  lemma LentDropIsACall<V>(s: P.State<V>, a: P.Actor)
    requires P.Inv(s) && P.At(s, a).Lending? && P.Next(s, P.Release(a)).Some?
    ensures Answer(View(P.Next(s, P.Release(a)).value), Unit) == Sync(View(s), DropLent)
    ensures s.writer == Some(a)
  {
    assert P.HoldsWrite(P.At(s, a));
  }

  /** The lock is held by `a` at most. */
  ghost predicate HeldByNobodyElse<V>(s: P.State<V>, a: P.Actor) {
    forall b: P.Actor :: b != a ==> !P.HoldsRead(P.At(s, b)) && !P.HoldsWrite(P.At(s, b))
  }

  /**
   Once the only guard is dropped, any operation of any actor that is outside
   of the slot answers as a call on the unlocked slot with the same value.
   */
  lemma DroppedGuardFreesTheSlot<V>(s: P.State<V>, a: P.Actor, b: P.Actor, op: P.Op)
    requires P.Inv(s) && (P.At(s, a).Sharing? || P.At(s, a).Lending?) && HeldByNobodyElse(s, a)
    requires b == a || P.At(s, b).Idle?
    ensures P.Next(s, P.Release(a)).Some?
    ensures var t := P.Next(s, P.Release(a)).value;
            && View(t) == Slot(s.payload, 0, false, s.reserved) && s.payload.Some? && Answers(t, b, op)
            && Sync(View(t), CallOf(op)).reply ==
               if s.reserved && (op.Take? || op.Lend?) then Failed(P.Contention)
               else if op.Take? then Value(s.payload.value) else Guarded(s.payload.value)
  {
    P.GuardCanBeDropped(s, a);
    var t := P.Next(s, P.Release(a)).value;
    assert t.readers == {} by {
      assert forall c: P.Actor :: c in s.readers ==> P.HoldsRead(P.At(s, c));
    }
    assert t.writer.None? by {
      assert s.writer.Some? ==> P.HoldsWrite(P.At(s, s.writer.value));
    }
    UninterruptedOperationIsACall(t, b, op);
  }

  // ----- local storage -----

  /** A `RefCell` around the payload: positive borrows are shared, a negative one is exclusive. */
  datatype Cell<V> = Cell(payload: Option<V>, borrow: int)

  function Local<V>(c: Cell<V>, call: Call<V>): Answer<Cell<V>, V>
    requires !call.Reserve?
  {
    match call
    case Take =>
      if c.borrow != 0 then Answer(c, Failed(P.Contention))
      else (match c.payload
            case None => Answer(c, Failed(P.Consumed))
            case Some(v) => Answer(c.(payload := None), Value(v)))
    case Share =>
      if c.borrow < 0 then Answer(c, Failed(P.Contention))
      else (match c.payload
            case None => Answer(c, Failed(P.Consumed))
            case Some(v) => Answer(c.(borrow := c.borrow + 1), Guarded(v)))
    case Lend =>
      if c.borrow != 0 then Answer(c, Failed(P.Contention))
      else (match c.payload
            case None => Answer(c, Failed(P.Consumed))
            case Some(v) => Answer(c.(borrow := -1), Guarded(v)))
    case DropShared => Answer(if c.borrow > 0 then c.(borrow := c.borrow - 1) else c, Unit)
    case DropLent => Answer(if c.borrow < 0 then c.(borrow := 0) else c, Unit)
    case Assign(v) => Answer(if c.borrow < 0 then c.(payload := Some(v)) else c, Unit)
  }

  class LocalTakeSlot<V> {
    var borrow: int
    var payload: Option<V>

    ghost function State(): Cell<V>
      reads this
    {
      Cell(payload, borrow)
    }

    constructor (v: V)
      ensures State() == Cell(Some(v), 0)
    {
      borrow, payload := 0, Some(v);
    }

    method TryResolve() returns (r: Reply<V>)
      modifies this
      ensures Answer(State(), r) == Local(old(State()), Take)
    {
      if borrow != 0 {
        return Failed(P.Contention);
      }
      borrow := -1;
      match payload {
        case None => r := Failed(P.Consumed);
        case Some(v) =>
          payload := None;
          r := Value(v);
      }
      borrow := 0;
    }

    method TryResolveRef() returns (r: Reply<V>)
      modifies this
      ensures Answer(State(), r) == Local(old(State()), Share)
    {
      if borrow < 0 {
        return Failed(P.Contention);
      }
      borrow := borrow + 1;
      match payload {
        case None =>
          borrow := borrow - 1;
          r := Failed(P.Consumed);
        case Some(v) => r := Guarded(v);
      }
    }

    method TryResolveRefMut() returns (r: Reply<V>)
      modifies this
      ensures Answer(State(), r) == Local(old(State()), Lend)
    {
      if borrow != 0 {
        return Failed(P.Contention);
      }
      borrow := -1;
      match payload {
        case None =>
          borrow := 0;
          r := Failed(P.Consumed);
        case Some(v) => r := Guarded(v);
      }
    }
  }

  // ----- local storage answers as synchronized storage does -----

  function SyncReplies<V>(s: Slot<V>, calls: seq<Call<V>>): seq<Reply<V>>
    decreases |calls|
  {
    if calls == [] then []
    else var answer := Sync(s, calls[0]); [answer.reply] + SyncReplies(answer.slot, calls[1..])
  }

  function LocalReplies<V>(c: Cell<V>, calls: seq<Call<V>>): seq<Reply<V>>
    requires forall i :: 0 <= i < |calls| ==> !calls[i].Reserve?
    decreases |calls|
  {
    if calls == [] then []
    else var answer := Local(c, calls[0]); [answer.reply] + LocalReplies(answer.slot, calls[1..])
  }

  predicate Corresponds<V(==)>(s: Slot<V>, c: Cell<V>) {
    && !s.reserved && s.payload == c.payload
    && (s.writing ==> s.readers == 0)
    && c.borrow == (if s.writing then -1 else s.readers)
  }

  lemma {:induction false} RepliesCorrespond<V>(s: Slot<V>, c: Cell<V>, calls: seq<Call<V>>)
    requires Corresponds(s, c) && forall i :: 0 <= i < |calls| ==> !calls[i].Reserve?
    ensures SyncReplies(s, calls) == LocalReplies(c, calls)
    decreases |calls|
  {
    if calls != [] {
      RepliesCorrespond(Sync(s, calls[0]).slot, Local(c, calls[0]).slot, calls[1..]);
    }
  }

  /** A guard that is taken and dropped leaves both kinds of slot as they were, but for what was written through it. */
  lemma GuardsRoundTrip<V>(s: Slot<V>, c: Cell<V>, v: V)
    requires Corresponds(s, c)
    ensures var shared, held := Sync(s, Share), Local(c, Share);
            && shared.reply == held.reply
            && (shared.reply.Guarded? ==>
                  Sync(shared.slot, DropShared).slot == s && Local(held.slot, DropShared).slot == c)
    ensures var lent, held := Sync(s, Lend), Local(c, Lend);
            && lent.reply == held.reply
            && (lent.reply.Guarded? ==>
                  && Sync(lent.slot, DropLent).slot == s && Local(held.slot, DropLent).slot == c
                  && Sync(Sync(lent.slot, Assign(v)).slot, DropLent).slot == s.(payload := Some(v))
                  && Local(Local(held.slot, Assign(v)).slot, DropLent).slot == c.(payload := Some(v)))
  {
  }

  /**
   For every history of takes, shared and exclusive accesses, writes and guard
   drops, in any order, both kinds of storage give the same values and errors.
   A clone is a shared access, whatever user code runs meanwhile, and a drop.
   */
  lemma LocalStorageSimulatesSynchronized<V>(v: V, calls: seq<Call<V>>)
    requires forall i :: 0 <= i < |calls| ==> !calls[i].Reserve?
    ensures SyncReplies(Slot(Some(v), 0, false, false), calls) == LocalReplies(Cell(Some(v), 0), calls)
  {
    RepliesCorrespond(Slot(Some(v), 0, false, false), Cell(Some(v), 0), calls);
  }
}
