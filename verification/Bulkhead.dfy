/** The bulkhead: a counting semaphore with a bounded, time-limited waiting room, used by any number
    of concurrent requests. Every channel or atomic operation is one step. */
module Bulkhead {

  /** Where a request is. `Overflow` to `GaveUp` have added themselves to the queue counter and not
      yet taken themselves off. */
  datatype Call =
    | Outside    // before the call, or after rejection or release
    | Entered    // before the first select
    | NoSlot     // the first select found no slot
    | Overflow   // the counter came back above the limit
    | Waiting    // in the second select
    | Served     // got a slot there; deferred decrement pending
    | GaveUp     // timed out or cancelled; deferred decrement pending
    | Holding    // has a slot

  datatype State = State(maxConcurrent: nat, maxQueue: nat, slots: nat, queued: int, calls: seq<Call>)

  datatype Op = Enter | TrySlot | RejectUnqueued | Join | Undo | TakeSlot | Timeout | Cancel | Deferred | Release

  datatype Action = Action(i: nat, op: Op)

  predicate Enabled(s: State, a: Action) {
    && a.i < |s.calls|
    && var c := s.calls[a.i];
       match a.op
       case Enter => c.Outside?
       case TrySlot => c.Entered?
       case RejectUnqueued => c.NoSlot? && s.maxQueue == 0
       case Join => c.NoSlot? && s.maxQueue != 0
       case Undo => c.Overflow?
       case TakeSlot => c.Waiting? && s.slots < s.maxConcurrent
       case Timeout => c.Waiting?
       case Cancel => c.Waiting?
       case Deferred => c.Served? || c.GaveUp?
       case Release => c.Holding? && s.slots > 0
  }

  function Put(s: State, i: nat, c: Call): State
    requires i < |s.calls|
  {
    s.(calls := s.calls[i := c])
  }

  function Next(s: State, a: Action): State
    requires Enabled(s, a)
  {
    match a.op
    case Enter => Put(s, a.i, Entered)
    case TrySlot =>
      if s.slots < s.maxConcurrent then Put(s.(slots := s.slots + 1), a.i, Holding) else Put(s, a.i, NoSlot)
    case RejectUnqueued => Put(s, a.i, Outside)
    case Join => Put(s.(queued := s.queued + 1), a.i, if s.queued + 1 > s.maxQueue then Overflow else Waiting)
    case Undo => Put(s.(queued := s.queued - 1), a.i, Outside)
    case TakeSlot => Put(s.(slots := s.slots + 1), a.i, Served)
    case Timeout => Put(s, a.i, GaveUp)
    case Cancel => Put(s, a.i, GaveUp)
    case Deferred => Put(s.(queued := s.queued - 1), a.i, if s.calls[a.i].Served? then Holding else Outside)
    case Release => Put(s.(slots := s.slots - 1), a.i, Outside)
  }

  predicate Run(s: State, acts: seq<Action>, s': State)
    decreases |acts|
  {
    if acts == [] then s' == s
    else Enabled(s, acts[0]) && Run(Next(s, acts[0]), acts[1..], s')
  }

  predicate Initial(s: State) {
    s.maxConcurrent >= 1 && s.slots == 0 && s.queued == 0 && forall i :: 0 <= i < |s.calls| ==> s.calls[i].Outside?
  }

  /******* Counting requests *******/

  datatype Group = Holders | Counted | Admitted | Overflowing

  predicate In(c: Call, g: Group) {
    match g
    case Holders => c.Holding? || c.Served?
    case Counted => c.Overflow? || c.Waiting? || c.Served? || c.GaveUp?
    case Admitted => c.Waiting? || c.Served? || c.GaveUp?
    case Overflowing => c.Overflow?
  }

  function Bit(c: Call, g: Group): nat { if In(c, g) then 1 else 0 }

  function Size(calls: seq<Call>, g: Group): nat {
    if calls == [] then 0 else Size(calls[..|calls| - 1], g) + Bit(calls[|calls| - 1], g)
  }

  lemma {:induction false} SizeUpdate(calls: seq<Call>, i: nat, c: Call, g: Group)
    requires i < |calls|
    ensures Size(calls[i := c], g) == Size(calls, g) - Bit(calls[i], g) + Bit(c, g)
    decreases |calls|
  {
    var n := |calls| - 1;
    if i < n {
      SizeUpdate(calls[..n], i, c, g);
      assert calls[i := c][..n] == calls[..n][i := c];
    } else {
      assert calls[i := c][..n] == calls[..n];
    }
  }

  lemma {:induction false} CountedSplits(calls: seq<Call>)
    ensures Size(calls, Counted) == Size(calls, Admitted) + Size(calls, Overflowing)
    decreases |calls|
  {
    if calls != [] {
      CountedSplits(calls[..|calls| - 1]);
    }
  }

  lemma {:induction false} NobodyIn(calls: seq<Call>, g: Group)
    requires forall i :: 0 <= i < |calls| ==> !In(calls[i], g)
    ensures Size(calls, g) == 0
    decreases |calls|
  {
    if calls != [] {
      NobodyIn(calls[..|calls| - 1], g);
    }
  }

  lemma {:induction false} SomebodyIn(calls: seq<Call>, g: Group, i: nat)
    requires i < |calls| && In(calls[i], g)
    ensures Size(calls, g) > 0
    decreases |calls|
  {
    var n := |calls| - 1;
    if i < n {
      SomebodyIn(calls[..n], g, i);
    }
  }

  /******* Every interleaving *******/

  /** The counters tell the truth, slots are bounded, and so is the waiting room: the counter itself
      exceeds its limit only by the requests about to undo their increment. */
  ghost predicate Inv(s: State) {
    && s.maxConcurrent >= 1
    && s.slots == Size(s.calls, Holders) && s.slots <= s.maxConcurrent
    && s.queued == Size(s.calls, Counted)
    && Size(s.calls, Admitted) <= s.maxQueue
  }

  lemma StepKeepsInv(s: State, a: Action)
    requires Inv(s) && Enabled(s, a)
    ensures Inv(Next(s, a))
  {
    var c' := Next(s, a).calls[a.i];
    forall g: Group {
      SizeUpdate(s.calls, a.i, c', g);
    }
    CountedSplits(s.calls);
    CountedSplits(Next(s, a).calls);
  }

  lemma {:induction false} RunKeepsInv(s: State, acts: seq<Action>, s': State)
    requires Inv(s) && Run(s, acts, s')
    ensures Inv(s')
    decreases |acts|
  {
    if acts != [] {
      StepKeepsInv(s, acts[0]);
      RunKeepsInv(Next(s, acts[0]), acts[1..], s');
    }
  }

  /** Safety of every interleaving from an unused limiter. */
  lemma BulkheadSafe(s0: State, acts: seq<Action>, s: State)
    requires Initial(s0) && Run(s0, acts, s)
    ensures Size(s.calls, Holders) == s.slots <= s.maxConcurrent
    ensures Size(s.calls, Admitted) <= s.maxQueue
    ensures 0 <= s.queued <= s.maxQueue + Size(s.calls, Overflowing)
    ensures (forall i :: 0 <= i < |s.calls| ==> s.calls[i].Outside?) ==> s.slots == 0 && s.queued == 0
    ensures forall i :: 0 <= i < |s.calls| && s.calls[i].Holding? ==> Enabled(s, Action(i, Release))
  {
    forall g: Group {
      NobodyIn(s0.calls, g);
    }
    RunKeepsInv(s0, acts, s);
    CountedSplits(s.calls);
    if forall i :: 0 <= i < |s.calls| ==> s.calls[i].Outside? {
      NobodyIn(s.calls, Holders);
      NobodyIn(s.calls, Counted);
    }
    forall i | 0 <= i < |s.calls| && s.calls[i].Holding?
      ensures Enabled(s, Action(i, Release))
    {
      SomebodyIn(s.calls, Holders, i);
    }
  }

  /** Joining is refused exactly when the admitted and the overflowing requests together fill the
      waiting room: an overflowing request that has not yet undone its increment takes up a place. */
  lemma JoinRefusedExactlyWhen(s: State, i: nat)
    requires Inv(s) && Enabled(s, Action(i, Join))
    ensures Next(s, Action(i, Join)).calls[i].Overflow? <==>
            Size(s.calls, Admitted) + Size(s.calls, Overflowing) >= s.maxQueue
  {
    CountedSplits(s.calls);
  }

  /** So a request can be refused while nobody waits: with one slot and one waiting place, the second
      of two overflowing requests finds the first one's increment after the only waiter left. */
  lemma RefusedThoughNobodyWaits() returns (s0: State, s: State)
    ensures Initial(s0) && s0.maxQueue == 1 && Reach(s0, s)
    ensures Size(s.calls, Admitted) == 0 && Enabled(s, Action(3, Join)) && Next(s, Action(3, Join)).calls[3].Overflow?
  {
    s0 := State(1, 1, 0, 0, [Outside, Outside, Outside, Outside]);
    s := State(1, 1, 1, 1, [Holding, Outside, Overflow, NoSlot]);
    var s2 := State(1, 1, 1, 1, [Holding, Waiting, Outside, Outside]);
    var s4 := State(1, 1, 1, 1, [Holding, Outside, Overflow, Outside]);
    NobodyIn(s.calls, Admitted);
    WaiterArrives(s0, s2);
    WaiterLeaves(s2, s4);
    Two(s4, Action(3, Enter), Action(3, TrySlot), s);
    hide Run;
    ReachTrans(s0, s2, s4);
    ReachTrans(s0, s4, s);
  }

  lemma WaiterArrives(s0: State, s2: State)
    requires s0 == State(1, 1, 0, 0, [Outside, Outside, Outside, Outside])
    requires s2 == State(1, 1, 1, 1, [Holding, Waiting, Outside, Outside])
    ensures Reach(s0, s2)
  {
    hide Run;
    var s1 := State(1, 1, 1, 0, [Holding, Outside, Outside, Outside]);
    Two(s0, Action(0, Enter), Action(0, TrySlot), s1);
    Three(s1, Action(1, Enter), Action(1, TrySlot), Action(1, Join), s2);
    ReachTrans(s0, s1, s2);
  }

  lemma WaiterLeaves(s2: State, s4: State)
    requires s2 == State(1, 1, 1, 1, [Holding, Waiting, Outside, Outside])
    requires s4 == State(1, 1, 1, 1, [Holding, Outside, Overflow, Outside])
    ensures Reach(s2, s4)
  {
    hide Run;
    var s3 := State(1, 1, 1, 2, [Holding, Waiting, Overflow, Outside]);
    Three(s2, Action(2, Enter), Action(2, TrySlot), Action(2, Join), s3);
    Two(s3, Action(1, Timeout), Action(1, Deferred), s4);
    ReachTrans(s2, s3, s4);
  }

  /******* Every call ends *******/

  function Rank(c: Call): nat {
    match c
    case Outside => 0
    case Entered => 6
    case NoSlot => 5
    case Overflow => 1
    case Waiting => 4
    case Served => 2
    case GaveUp => 1
    case Holding => 1
  }

  /** An upper bound on the steps the present calls can still take. */
  function Work(calls: seq<Call>): nat {
    if calls == [] then 0 else Work(calls[..|calls| - 1]) + Rank(calls[|calls| - 1])
  }

  lemma {:induction false} WorkUpdate(calls: seq<Call>, i: nat, c: Call)
    requires i < |calls|
    ensures Work(calls[i := c]) == Work(calls) - Rank(calls[i]) + Rank(c)
    decreases |calls|
  {
    var n := |calls| - 1;
    if i < n {
      WorkUpdate(calls[..n], i, c);
      assert calls[i := c][..n] == calls[..n][i := c];
    } else {
      assert calls[i := c][..n] == calls[..n];
    }
  }

  /** Without new arrivals every schedule is finite, and a call that has not ended can always go on,
      whatever the others do: so all calls end, and then both counters are back to zero. */
  lemma {:induction false} CallsEnd(s: State, acts: seq<Action>, s': State)
    requires Inv(s) && Run(s, acts, s')
    requires forall k :: 0 <= k < |acts| ==> !acts[k].op.Enter?
    ensures |acts| + Work(s'.calls) <= Work(s.calls)
    ensures forall i :: 0 <= i < |s'.calls| && !s'.calls[i].Outside? ==> CanGoOn(s', i)
    decreases |acts|
  {
    if acts == [] {
      forall i | 0 <= i < |s.calls| && !s.calls[i].Outside?
        ensures CanGoOn(s, i)
      {
        AlwaysCanGoOn(s, i);
      }
    } else {
      StepKeepsInv(s, acts[0]);
      var s1 := Next(s, acts[0]);
      WorkUpdate(s.calls, acts[0].i, s1.calls[acts[0].i]);
      CallsEnd(s1, acts[1..], s');
    }
  }

  ghost predicate CanGoOn(s: State, i: nat) {
    exists op: Op :: !op.Enter? && Enabled(s, Action(i, op))
  }

  lemma AlwaysCanGoOn(s: State, i: nat)
    requires Inv(s) && i < |s.calls| && !s.calls[i].Outside?
    ensures CanGoOn(s, i)
  {
    var op :=
      match s.calls[i]
      case Entered => TrySlot
      case NoSlot => if s.maxQueue == 0 then RejectUnqueued else Join
      case Overflow => Undo
      case Waiting => Timeout
      case Holding => Release
      case _ => Deferred;
    if s.calls[i].Holding? {
      SomebodyIn(s.calls, Holders, i);
    }
    assert Enabled(s, Action(i, op));
  }

  /******* Reachability *******/

  ghost predicate Reach(s: State, s': State) {
    exists acts :: Run(s, acts, s')
  }

  lemma {:induction false} RunConcat(s: State, a: seq<Action>, s1: State, b: seq<Action>, s2: State)
    requires Run(s, a, s1) && Run(s1, b, s2)
    ensures Run(s, a + b, s2)
    decreases |a|
  {
    if a == [] {
      assert a + b == b;
    } else {
      RunConcat(Next(s, a[0]), a[1..], s1, b, s2);
      assert (a + b)[1..] == a[1..] + b;
    }
  }

  lemma ReachTrans(s: State, s1: State, s2: State)
    requires Reach(s, s1) && Reach(s1, s2)
    ensures Reach(s, s2)
  {
    var a :| Run(s, a, s1);
    var b :| Run(s1, b, s2);
    RunConcat(s, a, s1, b, s2);
  }

  lemma One(s: State, a: Action)
    requires Enabled(s, a)
    ensures Reach(s, Next(s, a))
  {
    assert Run(Next(s, a), [], Next(s, a));
    assert [a][1..] == [];
    assert Run(s, [a], Next(s, a));
  }

  lemma Two(s: State, a: Action, b: Action, s': State)
    requires Enabled(s, a) && Enabled(Next(s, a), b) && s' == Next(Next(s, a), b)
    ensures Reach(s, s')
  {
    One(s, a);
    One(Next(s, a), b);
    ReachTrans(s, Next(s, a), s');
  }

  lemma Three(s: State, a: Action, b: Action, c: Action, s': State)
    requires Enabled(s, a) && Enabled(Next(s, a), b) && Enabled(Next(Next(s, a), b), c) && s' == Next(Next(Next(s, a), b), c)
    ensures Reach(s, s')
  {
    var s1 := Next(s, a);
    One(s, a);
    Two(s1, b, c, s');
    ReachTrans(s, s1, s');
  }

  /******* The limiter object *******/

  datatype Wake = Slot | Timer | Done

  /** The steps of `acts` that other requests can take, in order. */
  function Others(s: State, i: nat, acts: seq<Action>): State
    decreases |acts|
  {
    if acts == [] then s
    else Others(if acts[0].i != i && Enabled(s, acts[0]) then Next(s, acts[0]) else s, i, acts[1..])
  }

  lemma {:induction false} OthersReach(s: State, i: nat, acts: seq<Action>)
    requires Inv(s) && i < |s.calls|
    ensures var s' := Others(s, i, acts);
            && Reach(s, s') && Inv(s') && s'.maxConcurrent == s.maxConcurrent && s'.maxQueue == s.maxQueue
            && |s'.calls| == |s.calls| && s'.calls[i] == s.calls[i]
    decreases |acts|
  {
    if acts == [] {
      assert Run(s, [], s);
    } else if acts[0].i != i && Enabled(s, acts[0]) {
      One(s, acts[0]);
      StepKeepsInv(s, acts[0]);
      OthersReach(Next(s, acts[0]), i, acts[1..]);
      ReachTrans(s, Next(s, acts[0]), Others(s, i, acts));
    } else {
      OthersReach(s, i, acts[1..]);
    }
  }

  /** The shared limiter. `calls` is bookkeeping that says where each request is; no operation
      consults it. */
  class Limiter {
    const maxConcurrent: nat
    const maxQueue: nat
    var slots: nat
    var queued: int
    var calls: seq<Call>

    function View(): State
      reads this
    {
      State(maxConcurrent, maxQueue, slots, queued, calls)
    }

    ghost predicate Valid()
      reads this
    {
      Inv(View())
    }

    constructor (concurrent: int, queue: int, requests: nat)
      ensures Initial(View()) && Valid() && |calls| == requests
      ensures maxConcurrent == (if concurrent <= 0 then 1 else concurrent)
      ensures maxQueue == (if queue < 0 then 0 else queue)
    {
      maxConcurrent := if concurrent <= 0 then 1 else concurrent;
      maxQueue := if queue < 0 then 0 else queue;
      slots := 0;
      queued := 0;
      calls := seq(requests, _ => Outside);
      new;
      forall g: Group {
        NobodyIn(calls, g);
      }
    }

    /** Other requests run while request `i` is between two operations. */
    method Interfere(i: nat, acts: seq<Action>)
      requires Valid() && i < |calls|
      modifies this
      ensures View() == Others(old(View()), i, acts) && Valid() && Reach(old(View()), View())
      ensures |calls| == |old(calls)| && calls[i] == old(calls[i])
    {
      OthersReach(View(), i, acts);
      var s := Others(View(), i, acts);
      slots, queued, calls := s.slots, s.queued, s.calls;
    }

    /** `l.sem <- struct{}{}` with a default branch. */
    method TrySend() returns (sent: bool)
      modifies this`slots
      ensures sent == (old(slots) < maxConcurrent) && slots == old(slots) + (if sent then 1 else 0)
    {
      sent := slots < maxConcurrent;
      if sent {
        slots := slots + 1;
      }
    }

    /** `l.queued.Add`. */
    method AddQueued(d: int) returns (n: int)
      modifies this`queued
      ensures queued == n == old(queued) + d
    {
      queued := queued + d;
      n := queued;
    }

    /** The bookkeeping for a step of request `i`, whose effect on the counters is already there. */
    ghost method Account(was: State, a: Action)
      requires Inv(was) && Enabled(was, a) && View() == Next(was, a)
      ensures Valid() && Reach(was, View())
    {
      StepKeepsInv(was, a);
      One(was, a);
    }

    /** `Acquire` by request `i`; other requests take the steps `e1` .. `e4` in its gaps, and `wake`
        is what its second select picks when it has a choice. */
    method Acquire(i: nat, e1: seq<Action>, e2: seq<Action>, e3: seq<Action>, e4: seq<Action>, wake: Wake) returns (ok: bool)
      requires Valid() && i < |calls| && calls[i].Entered?
      modifies this
      ensures Valid() && Reach(old(View()), View())
      ensures |calls| == |old(calls)| && calls[i] == (if ok then Holding else Outside)
      ensures old(slots) < maxConcurrent ==> ok && View() == Next(old(View()), Action(i, TrySlot))
    {
      ghost var s0 := View();
      var sent := TrySend();
      calls := calls[i := if sent then Holding else NoSlot];
      Account(s0, Action(i, TrySlot));
      if sent {
        return true;
      }
      ghost var s1 := View();
      Interfere(i, e1);
      ReachTrans(s0, s1, View());
      s1 := View();
      if maxQueue == 0 {
        calls := calls[i := Outside];
        Account(s1, Action(i, RejectUnqueued));
        ReachTrans(s0, s1, View());
        return false;
      }
      var n := AddQueued(1);
      calls := calls[i := if n > maxQueue then Overflow else Waiting];
      Account(s1, Action(i, Join));
      ReachTrans(s0, s1, View());
      s1 := View();
      Interfere(i, e2);
      ReachTrans(s0, s1, View());
      s1 := View();
      if n > maxQueue {
        var _ := AddQueued(-1);
        calls := calls[i := Outside];
        Account(s1, Action(i, Undo));
        ReachTrans(s0, s1, View());
        return false;
      }
      ok := Await(i, e3, e4, wake);
      ReachTrans(s0, s1, View());
    }

    /** The second select and the deferred decrement. */
    method Await(i: nat, e3: seq<Action>, e4: seq<Action>, wake: Wake) returns (ok: bool)
      requires Valid() && i < |calls| && calls[i].Waiting?
      modifies this
      ensures Valid() && Reach(old(View()), View())
      ensures |calls| == |old(calls)| && calls[i] == (if ok then Holding else Outside)
    {
      ghost var s0 := View();
      Interfere(i, e3);
      ghost var s1 := View();
      ok := false;
      if wake.Slot? {
        ok := TrySend();
      }
      calls := calls[i := if ok then Served else GaveUp];
      Account(s1, Action(i, if ok then TakeSlot else if wake.Done? then Cancel else Timeout));
      ReachTrans(s0, s1, View());
      s1 := View();
      Interfere(i, e4);
      ReachTrans(s0, s1, View());
      s1 := View();
      var _ := AddQueued(-1);
      calls := calls[i := if ok then Holding else Outside];
      Account(s1, Action(i, Deferred));
      ReachTrans(s0, s1, View());
    }

    /** The function `Acquire` hands out, called once by the middleware. */
    method Release(i: nat)
      requires Valid() && i < |calls| && calls[i].Holding?
      modifies this
      ensures Valid() && Enabled(old(View()), Action(i, Op.Release)) && View() == Next(old(View()), Action(i, Op.Release))
    {
      SomebodyIn(calls, Holders, i);
      ghost var s := View();
      slots := slots - 1;
      calls := calls[i := Outside];
      Account(s, Action(i, Op.Release));
    }
  }
}
