/** The last phases of the recovery schedule - draining the retry set, consuming the ready list, and
    compensation rounds - and the recoverability theorem. */
module Recoverability {
  import opened Common
  import T = Tasks
  import opened Delivery
  import opened DeliveryInvariants
  import opened DeliveryTheorems
  import opened Recovery
  import opened RecoveryPhases

  /******* Phase 4: the retry set drains into ready *******/

  /** Mover work: ready only grows, and what leaves the retry set is in ready. */
  ghost predicate Moved(w: World, w': World) {
    && |w.movers| >= 1
    && w' == w.(now := w'.now, q := Queue(w'.q.ready, w'.q.retry, w.q.dlq), movers := w.movers[0 := Moving([])])
    && w.q.ready <= w'.q.ready
    && forall id :: id in w.q.retry ==> id in w'.q.retry || id in w'.q.ready
  }

  ghost predicate Submap(m: map<int, int>, m': map<int, int>) {
    m'.Keys <= m.Keys && forall id :: id in m' ==> m'[id] == m[id]
  }

  lemma MovedTrans(w: World, w1: World, w2: World)
    requires Moved(w, w1) && Moved(w1, w2)
    ensures Moved(w, w2)
  {
    assert w1.movers[0 := Moving([])] == w.movers[0 := Moving([])];
    forall id | id in w.q.retry
      ensures id in w2.q.retry || id in w2.q.ready
    {
      assert id in w1.q.ready ==> id in w2.q.ready;
    }
  }

  /** One entry of a batch: moved if it is still there, skipped otherwise. */
  lemma MoveNext(w: World) returns (w': World)
    requires |w.movers| >= 1 && w.movers[0].Moving? && w.movers[0].todo != []
    ensures Goes(w, w')
    ensures var id := w.movers[0].todo[0];
            w' == w.(q := Queue(if id in w.q.retry then w.q.ready + [id] else w.q.ready, w.q.retry - {id}, w.q.dlq),
                     movers := w.movers[0 := Moving(w.movers[0].todo[1..])])
  {
    var id := w.movers[0].todo[0];
    var a1, a2 := OfMover(0, RemoveNext(Done)), OfMover(0, PushNext(Done));
    var w1 := Next(w, a1);
    Step(w, a1);
    if id in w.q.retry {
      w' := Next(w1, a2);
      Step(w1, a2);
      Then(w, w1, w');
      assert w'.movers == w.movers[0 := Moving(w.movers[0].todo[1..])];
    } else {
      w' := w1;
    }
  }

  /** Works off a batch. */
  lemma {:induction false} MoveAll(w: World) returns (w': World)
    requires |w.movers| >= 1 && w.movers[0].Moving?
    ensures Goes(w, w') && Moved(w, w') && w'.now == w.now && Submap(w.q.retry, w'.q.retry)
    ensures forall i :: 0 <= i < |w.movers[0].todo| ==> w.movers[0].todo[i] !in w'.q.retry
    decreases |w.movers[0].todo|
  {
    hide Goes;
    var todo := w.movers[0].todo;
    if todo == [] {
      Stay(w);
      w' := w;
      assert w.movers[0 := Moving([])] == w.movers;
    } else {
      var w1 := MoveNext(w);
      w' := MoveAll(w1);
      Then(w, w1, w');
      MoveAllStep(w, w1, w', todo);
    }
  }

  lemma MoveAllStep(w: World, w1: World, w': World, todo: seq<int>)
    requires |w.movers| >= 1 && w.movers[0] == Moving(todo) && todo != []
    requires w1 == w.(q := Queue(if todo[0] in w.q.retry then w.q.ready + [todo[0]] else w.q.ready, w.q.retry - {todo[0]}, w.q.dlq),
                      movers := w.movers[0 := Moving(todo[1..])])
    requires Moved(w1, w') && Submap(w1.q.retry, w'.q.retry)
    requires forall i :: 0 <= i < |todo[1..]| ==> todo[1..][i] !in w'.q.retry
    ensures Moved(w, w') && Submap(w.q.retry, w'.q.retry)
    ensures forall i :: 0 <= i < |todo| ==> todo[i] !in w'.q.retry
  {
    assert w1.movers[0 := Moving([])] == w.movers[0 := Moving([])];
    assert todo[0] !in w1.q.retry.Keys;
    forall i | 0 <= i < |todo|
      ensures todo[i] !in w'.q.retry
    {
      if i > 0 {
        assert todo[i] == todo[1..][i - 1];
      }
    }
    forall id | id in w.q.retry
      ensures id in w'.q.retry || id in w'.q.ready
    {
      if id == todo[0] {
        assert w1.q.ready[|w.q.ready|] == id;
        assert id in w1.q.ready;
        assert w'.q.ready[|w.q.ready|] == id;
      }
    }
  }

  /** Brings the first mover back to its loop, wherever it was. */
  lemma FinishMover(w: World) returns (w': World)
    requires |w.movers| >= 1
    ensures Goes(w, w') && Moved(w, w')
  {
    match w.movers[0]
    case Moving(_) => w' := MoveAll(w);
    case Removed(_, _) =>
      var a := OfMover(0, PushNext(Done));
      var w1 := Next(w, a);
      Step(w, a);
      w' := MoveAll(w1);
      Then(w, w1, w');
      assert w1.movers[0 := Moving([])] == w.movers[0 := Moving([])];
    case Unmoved(_) =>
      var a := OfMover(0, PutBack(Done));
      w' := Next(w, a);
      Step(w, a);
  }

  ghost predicate AllRetryDue(w: World) {
    forall id :: id in w.q.retry ==> w.q.retry[id] <= w.now
  }

  lemma DrainPass(w: World) returns (w': World)
    requires |w.movers| >= 1 && w.movers[0] == Moving([]) && w.cfg.moverBatch >= 1
    requires AllRetryDue(w) && w.q.retry.Keys != {}
    ensures Goes(w, w') && Moved(w, w') && AllRetryDue(w') && |w'.q.retry.Keys| < |w.q.retry.Keys|
  {
    hide Goes;
    var m := DueRetry(w);
    forall k | k in w.q.retry.Keys
      ensures k in m.Keys
    {
      assert w.q.retry[k] <= w.now;
    }
    var batch := ScanExists(m, w.cfg.moverBatch);
    ScanFinds(m, w.cfg.moverBatch, batch);
    var a := OfMover(0, ListRetry(batch));
    var w1 := Next(w, a);
    Step(w, a);
    w' := MoveAll(w1);
    Then(w, w1, w');
    assert w1.movers[0 := Moving([])] == w.movers[0 := Moving([])];
    assert w1.movers[0].todo[0] == batch[0];
    assert batch[0] in w.q.retry.Keys && batch[0] !in w'.q.retry.Keys;
    ProperSubsetIsSmaller(w'.q.retry.Keys, w.q.retry.Keys);
  }

  lemma {:induction false} Drain(w: World) returns (w': World)
    requires |w.movers| >= 1 && w.movers[0] == Moving([]) && w.cfg.moverBatch >= 1 && AllRetryDue(w)
    ensures Goes(w, w') && Moved(w, w') && w'.q.retry.Keys == {}
    decreases |w.q.retry.Keys|
  {
    hide Goes;
    if w.q.retry.Keys == {} {
      Stay(w);
      w' := w;
      assert w.movers[0 := Moving([])] == w.movers;
    } else {
      var w1 := DrainPass(w);
      w' := Drain(w1);
      Then(w, w1, w');
      MovedTrans(w, w1, w');
    }
  }

  /** Waits until every scheduled retry is due and moves them all: each ends up in ready. */
  lemma Phase4(w: World) returns (w': World)
    requires |w.movers| >= 1 && w.cfg.moverBatch >= 1
    ensures Goes(w, w') && Moved(w, w') && w'.q.retry.Keys == {}
  {
    hide Goes;
    var w1 := FinishMover(w);
    var t := Ceiling(w1.q.retry);
    var w2 := WaitUntil(w1, t);
    Then(w, w1, w2);
    w' := Drain(w2);
    Then(w, w2, w');
    assert Moved(w1, w');
    MovedTrans(w, w1, w');
  }

  /******* Phase 5: the ready list is consumed *******/

  lemma {:induction false} OnlySucceedsTrans(a: map<int, T.Task>, b: map<int, T.Task>, c: map<int, T.Task>)
    requires OnlySucceeds(a, b) && OnlySucceeds(b, c)
    ensures OnlySucceeds(a, c)
  {
    forall id | id in a
      ensures Kept(a[id], c[id])
    {
      assert Kept(a[id], b[id]) && Kept(b[id], c[id]);
    }
  }

  ghost predicate AllRan(ts: map<int, T.Task>, ids: seq<int>) {
    forall i :: 0 <= i < |ids| ==> ids[i] in ts && !T.CanRun(ts[ids[i]])
  }

  ghost predicate Consumed(w: World, w': World) {
    && w' == w.(tasks := w'.tasks, q := w.q.(ready := []))
    && OnlySucceeds(w.tasks, w'.tasks) && Recoverable(w'.tasks) == {}
    && AllRan(w'.tasks, w.q.ready)
  }

  /** Pops one id and runs it. */
  lemma ConsumeNext(w: World) returns (w': World)
    requires Inv(w) && |w.workers| >= 1 && w.workers[0].Idle? && Recoverable(w.tasks) == {} && w.q.ready != []
    ensures Goes(w, w') && Inv(w')
    ensures w' == w.(tasks := w'.tasks, q := w.q.(ready := w.q.ready[1..]))
    ensures OnlySucceeds(w.tasks, w'.tasks) && Recoverable(w'.tasks) == {}
    ensures w.q.ready[0] in w'.tasks && !T.CanRun(w'.tasks[w.q.ready[0]])
  {
    var a := OfWorker(0, Pop);
    var w1 := Next(w, a);
    Step(w, a);
    hide Goes;
    GoesKeepsInv(w, w1);
    WorkerIsOk(w1, 0);
    hide Inv;
    w' := RunPopped(w1, 0);
    Then(w, w1, w');
    GoesKeepsInv(w, w');
    assert w1.workers[0 := Idle] == w.workers;
  }

  lemma {:induction false} Phase5(w: World) returns (w': World)
    requires Inv(w) && |w.workers| >= 1 && w.workers[0].Idle? && Recoverable(w.tasks) == {}
    ensures Goes(w, w') && Consumed(w, w')
    decreases |w.q.ready|
  {
    hide Inv, Goes;
    if w.q.ready == [] {
      Stay(w);
      w' := w;
    } else {
      var w1 := ConsumeNext(w);
      w' := Phase5(w1);
      Then(w, w1, w');
      OnlySucceedsTrans(w.tasks, w1.tasks, w'.tasks);
      ConsumedStep(w, w1, w');
    }
  }

  lemma ConsumedStep(w: World, w1: World, w': World)
    requires w.q.ready != [] && w1.q.ready == w.q.ready[1..]
    requires OnlySucceeds(w1.tasks, w'.tasks) && AllRan(w'.tasks, w1.q.ready)
    requires w.q.ready[0] in w1.tasks && !T.CanRun(w1.tasks[w.q.ready[0]])
    ensures AllRan(w'.tasks, w.q.ready)
  {
    var id := w.q.ready[0];
    assert id in w1.tasks && Kept(w1.tasks[id], w'.tasks[id]);
    forall i | 0 <= i < |w.q.ready|
      ensures w.q.ready[i] in w'.tasks && !T.CanRun(w'.tasks[w.q.ready[i]])
    {
      if i > 0 {
        assert w.q.ready[i] == w1.q.ready[i - 1];
      }
    }
  }

  /******* Rounds *******/

  /** One thread of each kind is back in its loop and nothing is RUNNING or SUSPENDED. */
  ghost predicate Calm(w: World) {
    && Inv(w) && Staffed(w)
    && w.workers[0].Idle? && w.comps[0].Resting? && Recoverable(w.tasks) == {}
  }

  ghost function FailedTasks(ts: map<int, T.Task>): set<int> {
    set id | id in ts && ts[id].status == T.FAILED
  }

  /** Moves everything scheduled and runs everything queued. */
  lemma Sweep(w: World) returns (w': World)
    requires Calm(w)
    ensures Goes(w, w') && Calm(w') && OnlySucceeds(w.tasks, w'.tasks)
    ensures forall id :: id in w.q.retry || id in w.q.ready ==> id in w'.tasks && !T.CanRun(w'.tasks[id])
    ensures w'.workers == w.workers
  {
    hide Inv, Goes;
    var w1 := Phase4(w);
    GoesKeepsInv(w, w1);
    w' := Phase5(w1);
    Then(w, w1, w');
    GoesKeepsInv(w, w');
    forall id | id in w.q.retry || id in w.q.ready
      ensures id in w'.tasks && !T.CanRun(w'.tasks[id])
    {
      assert id in w1.q.ready;
      var i :| 0 <= i < |w1.q.ready| && w1.q.ready[i] == id;
      assert w1.q.ready[i] in w'.tasks;
    }
  }

  /** A compensation pass that schedules at least one due row; rows do not change. */
  lemma SchedulePass(w: World, id: int) returns (w': World, x: int)
    requires Calm(w) && id in w.tasks && w.tasks[id].status == T.FAILED && w.tasks[id].nextRetry.Some?
    ensures Goes(w, w') && Calm(w') && w'.tasks == w.tasks
    ensures x in w'.q.retry && x in FailedTasks(w.tasks)
  {
    hide Inv, Goes;
    var w1 := WaitUntil(w, w.tasks[id].nextRetry.value);
    assert id in DueFailed(w1).Keys;
    w' := Pass(w1, 0);
    Then(w, w1, w');
    GoesKeepsInv(w, w');
    assert w'.tasks == w.tasks by {
      forall k | k in w.tasks
        ensures w'.tasks[k] == w.tasks[k]
      {
        NotRunning(w, k);
      }
    }
    assert DueScheduled(w1, w');
    x :| x in DueFailed(w1) && x in w'.q.retry;
  }

  /** One round turns at least one FAILED row into SUCCESS, whatever the batch sizes. */
  lemma Round(w: World, id: int) returns (w': World)
    requires Calm(w) && id in w.tasks && w.tasks[id].status == T.FAILED && w.tasks[id].nextRetry.Some?
    ensures Goes(w, w') && Calm(w') && OnlySucceeds(w.tasks, w'.tasks)
    ensures |FailedTasks(w'.tasks)| < |FailedTasks(w.tasks)|
  {
    hide Calm, Goes;
    var w1, x := SchedulePass(w, id);
    w' := Sweep(w1);
    Then(w, w1, w');
    assert Kept(w.tasks[x], w'.tasks[x]);
    assert x !in FailedTasks(w'.tasks);
    forall k | k in FailedTasks(w'.tasks)
      ensures k in FailedTasks(w.tasks)
    {
      assert Kept(w.tasks[k], w'.tasks[k]);
    }
    ProperSubsetIsSmaller(FailedTasks(w'.tasks), FailedTasks(w.tasks));
  }

  /** Rounds go on until the task has succeeded; the number of FAILED rows bounds how many it takes. */
  lemma {:induction false} Rounds(w: World, id: int) returns (w': World)
    requires Calm(w) && id in w.tasks && w.tasks[id].status == T.FAILED && w.tasks[id].nextRetry.Some?
    ensures Goes(w, w') && id in w'.tasks && w'.tasks[id].status == T.SUCCESS
    decreases |FailedTasks(w.tasks)|
  {
    hide Calm, Goes;
    var w1 := Round(w, id);
    assert Kept(w.tasks[id], w1.tasks[id]);
    if w1.tasks[id].status == T.SUCCESS {
      w' := w1;
    } else {
      w' := Rounds(w1, id);
      Then(w, w1, w');
    }
  }

  /******* Towards SUCCESS *******/

  /** The row is as good as before, and not left RUNNING or SUSPENDED. */
  predicate Prepared(t: T.Task, t': T.Task) {
    || t'.status == T.SUCCESS
    || (T.CanRecover(t) && t'.status == T.FAILED && t'.nextRetry.Some?)
    || (!T.CanRecover(t) && t'.status == t.status && t'.nextRetry == t.nextRetry)
  }

  /** Clears RUNNING rows and frees a worker; nothing leaves the queues. */
  lemma Settle(w: World) returns (w': World)
    requires Inv(w) && Staffed(w)
    ensures Goes(w, w') && Calm(w') && w'.q.ready == w.q.ready
    ensures forall id :: id in w.q.retry ==> id in w'.q.retry
    ensures w'.tasks.Keys == w.tasks.Keys && forall id :: id in w.tasks ==> Prepared(w.tasks[id], w'.tasks[id])
  {
    hide Inv, Goes;
    var w1 := Phase1(w);
    GoesKeepsInv(w, w1);
    w' := FinishWorker(w1, 0);
    Then(w, w1, w');
    GoesKeepsInv(w, w');
    forall id | id in w.tasks
      ensures Prepared(w.tasks[id], w'.tasks[id])
    {
      assert Kept(w1.tasks[id], w'.tasks[id]);
      NotRunning(w1, id);
    }
  }

  /** A task the compensator can see: compensation rounds. */
  lemma RecoverSeen(w: World, id: int) returns (w': World)
    requires Inv(w) && Staffed(w) && id in w.tasks
    requires T.CanRecover(w.tasks[id]) || (w.tasks[id].status == T.FAILED && w.tasks[id].nextRetry.Some?)
    ensures Goes(w, w') && id in w'.tasks && w'.tasks[id].status == T.SUCCESS
  {
    hide Inv, Goes;
    w' := Settle(w);
    assert Prepared(w.tasks[id], w'.tasks[id]);
    if w'.tasks[id].status != T.SUCCESS {
      var w1 := w';
      w' := Rounds(w1, id);
      Then(w, w1, w');
    }
  }

  /** A runnable task with a copy in ready or in the retry set: drain the queues. */
  lemma RecoverQueued(w: World, id: int) returns (w': World)
    requires Inv(w) && Staffed(w) && id in w.tasks && T.CanRun(w.tasks[id]) && (id in w.q.ready || id in w.q.retry)
    ensures Goes(w, w') && id in w'.tasks && w'.tasks[id].status == T.SUCCESS
  {
    hide Inv, Goes;
    var w1 := Settle(w);
    assert Prepared(w.tasks[id], w1.tasks[id]);
    w' := Sweep(w1);
    Then(w, w1, w');
    assert Kept(w1.tasks[id], w'.tasks[id]);
  }

  /** One step puts a copy into a queue. */
  lemma RecoverAfter(w: World, a: Action, id: int) returns (w': World)
    requires Inv(w) && Staffed(w) && id in w.tasks && T.CanRun(w.tasks[id]) && Enabled(w, a) && FaultFree(a)
    requires var w1 := Next(w, a); Staffed(w1) && w1.tasks == w.tasks && (id in w1.q.ready || id in w1.q.retry)
    ensures Goes(w, w') && id in w'.tasks && w'.tasks[id].status == T.SUCCESS
  {
    hide Inv, Goes, Next, Enabled;
    Step(w, a);
    var w1 := Next(w, a);
    GoesKeepsInv(w, w1);
    w' := RecoverQueued(w1, id);
    Then(w, w1, w');
  }

  /** A runnable task in a worker's hands: let that worker go on. */
  lemma RecoverAtWorker(w: World, id: int, i: nat) returns (w': World)
    requires Inv(w) && Staffed(w) && id in w.tasks && T.CanRun(w.tasks[id])
    requires i < |w.workers| && WorkerCarries(w.workers[i], id)
    ensures Goes(w, w') && id in w'.tasks && w'.tasks[id].status == T.SUCCESS
  {
    hide Inv, Goes;
    if w.workers[i].ToRetry? {
      w' := RecoverAfter(w, OfWorker(i, ScheduleRetry(Done)), id);
    } else {
      var w1 := Phase1(w);
      GoesKeepsInv(w, w1);
      w' := FinishWorker(w1, i);
      Then(w, w1, w');
      assert Kept(w1.tasks[id], w'.tasks[id]);
    }
  }

  lemma RecoverAtMover(w: World, id: int, i: nat) returns (w': World)
    requires Inv(w) && Staffed(w) && id in w.tasks && T.CanRun(w.tasks[id])
    requires i < |w.movers| && MoverCarries(w.movers[i], id)
    ensures Goes(w, w') && id in w'.tasks && w'.tasks[id].status == T.SUCCESS
  {
    hide Inv, Goes;
    var a := OfMover(i, if w.movers[i].Removed? then PushNext(Done) else PutBack(Done));
    assert w.movers[i].Removed? ==> Next(w, a).q.ready[|w.q.ready|] == id;
    w' := RecoverAfter(w, a, id);
  }

  lemma RecoverAtComp(w: World, id: int, i: nat) returns (w': World)
    requires Inv(w) && Staffed(w) && id in w.tasks && T.CanRun(w.tasks[id])
    requires i < |w.comps| && CompCarries(w.comps[i], id)
    ensures Goes(w, w') && id in w'.tasks && w'.tasks[id].status == T.SUCCESS
  {
    hide Inv, Goes;
    CompIsOk(w, i);
    var w1 := FinishComp(w, i);
    GoesKeepsInv(w, w1);
    w' := RecoverQueued(w1, id);
    Then(w, w1, w');
  }

  lemma RecoverAtRelay(w: World, id: int, r: nat) returns (w': World)
    requires Inv(w) && Staffed(w) && id in w.tasks && T.CanRun(w.tasks[id])
    requires r < |w.relays| && RelayCarries(w.events, w.relays[r], id)
    ensures Goes(w, w') && id in w'.tasks && w'.tasks[id].status == T.SUCCESS
  {
    hide Inv, Goes;
    TargetIsTask(w, w.relays[r].snap.event);
    var w1 := PublishClaimed(w, r);
    GoesKeepsInv(w, w1);
    assert w1.q.ready[|w.q.ready|] == id;
    w' := RecoverQueued(w1, id);
    Then(w, w1, w');
  }

  /** A replay call under way: it moves the id to ready once it is in the dead-letter list. */
  lemma RecoverFromDlq(w: World, id: int, i: nat) returns (w': World)
    requires Inv(w) && Staffed(w) && id in w.tasks && T.CanRun(w.tasks[id])
    requires i < |w.admins| && w.admins[i] == Reopened(id) && id in w.q.dlq
    ensures Goes(w, w') && id in w'.tasks && w'.tasks[id].status == T.SUCCESS
  {
    hide Inv, Goes;
    var a := OfAdmin(i, MoveFromDlq(Done));
    assert Next(w, a).q.ready[|w.q.ready|] == id;
    w' := RecoverAfter(w, a, id);
  }

  lemma RecoverAtAdmin(w: World, id: int) returns (w': World)
    requires Inv(w) && Staffed(w) && id in w.tasks && T.CanRun(w.tasks[id]) && AtAdmin(w, id)
    ensures Goes(w, w') && id in w'.tasks && w'.tasks[id].status == T.SUCCESS
  {
    hide Inv, Goes;
    var i :| 0 <= i < |w.admins| && w.admins[i] == Reopened(id);
    if id in w.q.dlq {
      w' := RecoverFromDlq(w, id, i);
    } else {
      var k :| 0 <= k < |w.workers| && w.workers[k] == ToDlq(id);
      var w1 := Next(w, OfWorker(k, PushDlq(Done)));
      Step(w, OfWorker(k, PushDlq(Done)));
      GoesKeepsInv(w, w1);
      assert w1.q.dlq[|w.q.dlq|] == id;
      w' := RecoverFromDlq(w1, id, i);
      Then(w, w1, w');
    }
  }

  /** A runnable task with an unpublished event that some relay does not just have in hand. */
  lemma RecoverUnpublished(w: World, id: int, e: int, r: nat) returns (w': World)
    requires Inv(w) && Staffed(w) && id in w.tasks && T.CanRun(w.tasks[id])
    requires e in w.events && w.events[e].task == id && w.events[e].status != PUBLISHED
    requires r < |w.relays| && !InHand(w, r, e)
    ensures Goes(w, w') && id in w'.tasks && w'.tasks[id].status == T.SUCCESS
  {
    hide Inv, Goes;
    var w1 := Phase3(w, r);
    GoesKeepsInv(w, w1);
    assert Tracked(w, w1, e);
    assert e !in Unpublished(w1.events);
    w' := RecoverQueued(w1, id);
    Then(w, w1, w');
  }

  /******* Exactly which tasks can still succeed *******/

  /** Every relay has this event in hand: whichever goes on marks it PUBLISHED, and none is free to
      send it again. */
  ghost predicate DeadEnd(w: World, e: int) {
    |w.relays| >= 1 && forall r :: 0 <= r < |w.relays| ==> InHand(w, r, e)
  }

  /** An event of the task is still to be published, and not by a mere mark. */
  ghost predicate Sendable(w: World, id: int) {
    exists e :: e in w.events && w.events[e].task == id && w.events[e].status != PUBLISHED && !DeadEnd(w, e)
  }

  /** The row is invisible to every recovery scan and nobody will hand out its id again. */
  ghost predicate Stuck(w: World, id: int) {
    OutOfHands(w, id) && !Sendable(w, id)
  }

  lemma CarriedRecovers(w: World, id: int) returns (w': World)
    requires Inv(w) && Staffed(w) && id in w.tasks && T.CanRun(w.tasks[id]) && Carried(w, id)
    ensures Goes(w, w') && id in w'.tasks && w'.tasks[id].status == T.SUCCESS
  {
    hide Inv, Goes;
    if id in w.q.ready || id in w.q.retry {
      w' := RecoverQueued(w, id);
    } else if i :| 0 <= i < |w.workers| && WorkerCarries(w.workers[i], id) {
      w' := RecoverAtWorker(w, id, i);
    } else if i :| 0 <= i < |w.movers| && MoverCarries(w.movers[i], id) {
      w' := RecoverAtMover(w, id, i);
    } else if i :| 0 <= i < |w.comps| && CompCarries(w.comps[i], id) {
      w' := RecoverAtComp(w, id, i);
    } else if i :| 0 <= i < |w.relays| && RelayCarries(w.events, w.relays[i], id) {
      w' := RecoverAtRelay(w, id, i);
    } else {
      w' := RecoverAtAdmin(w, id);
    }
  }

  lemma NotStuckRecovers(w: World, id: int) returns (w': World)
    requires Inv(w) && Staffed(w) && id in w.tasks
    requires w.tasks[id].status != T.SUCCESS && w.tasks[id].status != T.DEAD && !Stuck(w, id)
    ensures Goes(w, w') && id in w'.tasks && w'.tasks[id].status == T.SUCCESS
  {
    hide Inv, Goes, Carried;
    if !Unseen(w.tasks[id]) {
      w' := RecoverSeen(w, id);
    } else if Carried(w, id) {
      w' := CarriedRecovers(w, id);
    } else {
      var e :| e in w.events && w.events[e].task == id && w.events[e].status != PUBLISHED && !DeadEnd(w, e);
      var r :| 0 <= r < |w.relays| && !InHand(w, r, e);
      w' := RecoverUnpublished(w, id, e, r);
    }
  }

  /** Steps of all but relays and replay calls. */
  lemma StuckElsewhere(w: World, a: Action, id: int)
    requires OutOfHands(w, id) && Enabled(w, a) && FaultFree(a) && !a.OfRelay? && !a.OfAdmin?
    ensures HandsOff(w, Next(w, a), id)
  {
    match a
    case Tick(_) =>
    case OfWorker(i, wa) => LostWorker(w, i, wa, id);
    case OfMover(i, ma) => LostMover(w, i, ma, id);
    case OfComp(i, ca) => LostComp(w, i, ca, id);
  }

  /** A replay call under way that does not find the id in the dead-letter list ends by killing the
      task; no other one touches it. */
  lemma StuckAdmin(w: World, i: nat, a: AdminAct, id: int)
    requires OutOfHands(w, id) && CanAdmin(w, i, a) && FaultFree(OfAdmin(i, a))
    ensures var w' := DoAdmin(w, i, a);
            && w'.events == w.events && w'.relays == w.relays && id in w'.tasks
            && (OutOfHands(w', id) || w'.tasks[id].status == T.DEAD)
  {
    hide AtWorker, AtMover, AtComp, AtRelay, Burying;
    var w' := DoAdmin(w, i, a);
    RemovesFirst(w.q.dlq, w.admins[i].id, id);
    if Reopening(w'.admins, id) {
      var j :| 0 <= j < |w'.admins| && w'.admins[j] == Reopened(id);
      assert w.admins[j] == Reopened(id);
    }
    assert w.admins[i] == Reopened(id) ==> Reopening(w.admins, id);
  }

  lemma {:induction false} RemovesFirst(s: seq<int>, x: int, id: int)
    ensures id in RemoveFirst(s, x) ==> id in s
    decreases |s|
  {
    if s != [] && s[0] != x {
      RemovesFirst(s[1..], x, id);
    }
  }

  lemma SameDeadEnd(w: World, w': World, e: int)
    requires w'.events == w.events && w'.relays == w.relays && DeadEnd(w, e)
    ensures DeadEnd(w', e)
  {
    forall r | 0 <= r < |w'.relays|
      ensures InHand(w', r, e)
    {
      assert InHand(w, r, e);
    }
  }

  /** A relay that has a dead end in hand can only mark it; else it cannot touch the task's events. */
  lemma StuckRelay(w: World, r: nat, ra: RelayAct, id: int)
    requires Inv(w) && Stuck(w, id) && CanRelay(w, r, ra) && FaultFree(OfRelay(r, ra))
    ensures Stuck(DoRelay(w, r, ra), id)
  {
    hide Inv;
    if e :| e in w.events && w.events[e].task == id && w.events[e].status != PUBLISHED {
      assert DeadEnd(w, e);
      StuckMark(w, r, ra, e, id);
    } else {
      PublishedRelay(w, r, ra, id);
    }
  }

  lemma StuckMark(w: World, r: nat, ra: RelayAct, e: int, id: int)
    requires Stuck(w, id) && CanRelay(w, r, ra) && FaultFree(OfRelay(r, ra))
    requires e in w.events && DeadEnd(w, e)
    ensures Stuck(DoRelay(w, r, ra), id)
  {
    assert InHand(w, r, e);
    assert ra == MarkPublished(Done);
    var w' := DoRelay(w, r, ra);
    forall x | x in w'.events && w'.events[x].task == id
      ensures w'.events[x].status == PUBLISHED
    {
      if w.events[x].status != PUBLISHED {
        assert DeadEnd(w, x);
        assert InHand(w, r, x);
      }
    }
    forall j | 0 <= j < |w'.relays|
      ensures !RelayCarries(w'.events, w'.relays[j], id)
    {
      assert InHand(w, j, e);
    }
  }

  lemma StuckStep(w: World, a: Action, id: int)
    requires Inv(w) && Stuck(w, id) && Enabled(w, a) && FaultFree(a)
    ensures StuckOrDead(Next(w, a), id)
  {
    hide Inv, OutOfHands;
    if a.OfRelay? {
      StuckRelay(w, a.i, a.ra, id);
    } else {
      if a.OfAdmin? {
        StuckAdmin(w, a.i, a.aa, id);
      } else {
        StuckElsewhere(w, a, id);
      }
      var w' := Next(w, a);
      hide Next;
      forall e | e in w'.events && w'.events[e].task == id && w'.events[e].status != PUBLISHED
        ensures DeadEnd(w', e)
      {
        SameDeadEnd(w, w', e);
      }
    }
  }

  ghost predicate StuckOrDead(w: World, id: int) {
    Stuck(w, id) || (id in w.tasks && w.tasks[id].status == T.DEAD)
  }

  /** Only a new replay revives a DEAD task. */
  lemma DeadStays(w: World, a: Action, id: int)
    requires id in w.tasks && w.tasks[id].status == T.DEAD && Enabled(w, a) && FaultFree(a)
    ensures var w' := Next(w, a); id in w'.tasks && w'.tasks[id].status == T.DEAD
  {
    hide Work, DoRelay, DoMove, DoComp, DoAdmin;
    match a
    case Tick(_) =>
    case OfWorker(i, wa) => DeadWorker(w, i, wa, id);
    case OfRelay(i, ra) => RowsUntouched(w, a);
    case OfMover(i, ma) => RowsUntouched(w, a);
    case OfComp(i, ca) => DeadComp(w, i, ca, id);
    case OfAdmin(i, aa) => DeadAdmin(w, i, aa, id);
  }

  lemma RowsUntouched(w: World, a: Action)
    requires Enabled(w, a) && (a.OfRelay? || a.OfMover?)
    ensures Next(w, a).tasks == w.tasks
  {
    hide IsScan, Target;
  }

  lemma DeadWorker(w: World, i: nat, a: WorkerAct, id: int)
    requires id in w.tasks && w.tasks[id].status == T.DEAD && CanWork(w, i, a)
    ensures var w' := Work(w, i, a); id in w'.tasks && w'.tasks[id].status == T.DEAD
  {
  }

  lemma DeadComp(w: World, i: nat, a: CompAct, id: int)
    requires id in w.tasks && w.tasks[id].status == T.DEAD && CanComp(w, i, a)
    ensures var w' := DoComp(w, i, a); id in w'.tasks && w'.tasks[id].status == T.DEAD
  {
    hide IsScan;
  }

  lemma DeadAdmin(w: World, i: nat, a: AdminAct, id: int)
    requires id in w.tasks && w.tasks[id].status == T.DEAD && CanAdmin(w, i, a) && !a.Reopen?
    ensures var w' := DoAdmin(w, i, a); id in w'.tasks && w'.tasks[id].status == T.DEAD
  {
  }

  lemma {:induction false} StuckStays(w: World, acts: seq<Action>, w': World, id: int)
    requires Inv(w) && StuckOrDead(w, id) && AllFaultFree(acts) && Run(w, acts, w')
    ensures StuckOrDead(w', id)
    decreases |acts|
  {
    hide Inv, Stuck, Next, Enabled;
    if acts != [] {
      assert FaultFree(acts[0]);
      if Stuck(w, id) {
        StuckStep(w, acts[0], id);
      } else {
        DeadStays(w, acts[0], id);
      }
      StepKeepsInv(w, acts[0]);
      assert AllFaultFree(acts[1..]);
      StuckStays(Next(w, acts[0]), acts[1..], w', id);
    }
  }

  lemma StuckIsFinal(w: World, w': World, id: int)
    requires Inv(w) && Stuck(w, id) && Goes(w, w')
    ensures id in w'.tasks && w'.tasks[id].status != T.SUCCESS
  {
    hide Inv, Run;
    var acts :| AllFaultFree(acts) && Run(w, acts, w');
    StuckStays(w, acts, w', id);
  }

  ghost predicate CanSucceed(w: World, id: int) {
    exists w' :: Goes(w, w') && id in w'.tasks && w'.tasks[id].status == T.SUCCESS
  }

  lemma CanSucceedExactly(w: World, id: int)
    requires Inv(w) && Staffed(w) && id in w.tasks
    requires w.tasks[id].status != T.SUCCESS && w.tasks[id].status != T.DEAD
    ensures CanSucceed(w, id) <==> !Stuck(w, id)
  {
    hide Inv, Goes;
    if Stuck(w, id) {
      forall w' | Goes(w, w')
        ensures id in w'.tasks && w'.tasks[id].status != T.SUCCESS
      {
        StuckIsFinal(w, w', id);
      }
    } else {
      var w' := NotStuckRecovers(w, id);
      assert CanSucceed(w, id);
    }
  }

  /** From every reachable state a task that is not over has a finite fault-free schedule of clock,
      relay, compensator, mover and worker steps, and of steps of replay calls under way, to SUCCESS
      if and only if it is not stuck. */
  lemma RecoverableUnlessStuck(w0: World, acts: seq<Action>, w: World, id: int)
    requires Initial(w0) && Run(w0, acts, w) && Staffed(w) && id in w.tasks
    requires w.tasks[id].status != T.SUCCESS && w.tasks[id].status != T.DEAD
    ensures CanSucceed(w, id) <==> !Stuck(w, id)
  {
    hide Inv, Run;
    ReachableInv(w0, acts, w);
    CanSucceedExactly(w, id);
  }

  lemma StuckWasDropped(w: World, id: int)
    requires Inv(w) && Stuck(w, id) && w.tasks[id].log.reopened == 0
    ensures w.tasks[id].log.dropped > 0
  {
    assert HasEvent(w.events, id);
    var e :| e in w.events && w.events[e].task == id;
    assert EventOk(w, w.events[e]);
    if w.events[e].status != PUBLISHED {
      assert DeadEnd(w, e);
      assert InHand(w, 0, e);
      RelayIsOk(w, 0);
    }
  }

  /** In particular every unfinished task recovers under the documented faults: as long as it was
      never reopened by hand and no worker lost its id between popping it and `TryMarkRunning`. */
  lemma Recoverability(w0: World, acts: seq<Action>, w: World, id: int)
    requires Initial(w0) && Run(w0, acts, w) && Staffed(w)
    requires id in w.tasks && w.tasks[id].log.reopened == 0 && w.tasks[id].log.dropped == 0
    requires w.tasks[id].status != T.SUCCESS && w.tasks[id].status != T.DEAD
    ensures CanSucceed(w, id)
  {
    hide Inv, Run;
    ReachableInv(w0, acts, w);
    CanSucceedExactly(w, id);
    if Stuck(w, id) {
      StuckWasDropped(w, id);
    }
  }

  /** A replay whose status update is applied but not acknowledged leaves the row FAILED without a
      retry time, invisible to every scan. It can still succeed exactly when, before the call, some
      queue or thread carried its id or one of its events was still to be sent. */
  lemma LostReplayStrands(w0: World, acts: seq<Action>, w: World, i: nat, id: int)
    requires Initial(w0) && Run(w0, acts, w) && Staffed(w)
    requires CanAdmin(w, i, Reopen(id, Outcome.Lost)) && id in w.tasks && T.CanReopen(w.tasks[id])
    ensures var w' := DoAdmin(w, i, Reopen(id, Outcome.Lost));
            && Unseen(w'.tasks[id]) && w'.admins[i].NoReplay?
            && (CanSucceed(w', id) <==> Carried(w, id) || Sendable(w, id))
  {
    hide Inv, Run, CanSucceed;
    ReachableInv(w0, acts, w);
    var w' := DoAdmin(w, i, Reopen(id, Outcome.Lost));
    StepKeepsInv(w, OfAdmin(i, Reopen(id, Outcome.Lost)));
    CanSucceedExactly(w', id);
    assert w'.admins == w.admins;
    forall e | e in w.events
      ensures DeadEnd(w, e) <==> DeadEnd(w', e)
    {
      if DeadEnd(w, e) {
        SameDeadEnd(w, w', e);
      } else if DeadEnd(w', e) {
        SameDeadEnd(w', w, e);
      }
    }
  }
}
