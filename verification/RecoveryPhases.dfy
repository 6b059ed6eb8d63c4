/** Phases of the recovery schedule: clearing RUNNING rows, freeing a worker, publishing every event. */
module RecoveryPhases {
  import opened Common
  import T = Tasks
  import opened Delivery
  import opened DeliveryInvariants
  import opened DeliveryTheorems
  import opened Recovery

  /******* Phase 1: no task is left RUNNING or SUSPENDED *******/

  ghost function Recoverable(ts: map<int, T.Task>): set<int> {
    set id | id in ts && T.CanRecover(ts[id])
  }

  ghost predicate AllStale(w: World) {
    forall id :: id in w.tasks && T.CanRecover(w.tasks[id]) ==> w.tasks[id].updatedAt <= w.now - w.cfg.staleTimeout
  }

  lemma PassShrinks(w: World, w': World)
    requires AllStale(w) && AfterPass(w, 0, w') && Recoverable(w.tasks) != {}
    requires Shrinks(w, T.RUNNING, w.now - w.cfg.staleTimeout, w') && Shrinks(w, T.SUSPENDED, w.now - w.cfg.staleTimeout, w')
    ensures |Recoverable(w'.tasks)| < |Recoverable(w.tasks)| && AllStale(w')
  {
    var x := Choose(Recoverable(w.tasks));
    var before := w.now - w.cfg.staleTimeout;
    var status := w.tasks[x].status;
    assert x in Stale(w, status, before).Keys;
    assert Shrinks(w, status, before, w');
    var y :| y in Stale(w, status, before) && y in w'.tasks && !T.CanRecover(w'.tasks[y]);
    assert y in Recoverable(w.tasks) && y !in Recoverable(w'.tasks);
    forall k | k in Recoverable(w'.tasks)
      ensures k in Recoverable(w.tasks)
    {
      assert k in w.tasks;
    }
    ProperSubsetIsSmaller(Recoverable(w'.tasks), Recoverable(w.tasks));
  }

  /** Repeated passes clear all RUNNING and SUSPENDED rows; each pass recovers at least one, however
      small the batch. */
  lemma {:induction false} ClearRecoverable(w: World) returns (w': World)
    requires |w.comps| >= 1 && w.comps[0].Resting? && w.cfg.compBatch >= 1 && AllStale(w)
    ensures Goes(w, w') && AfterPass(w, 0, w') && Recoverable(w'.tasks) == {}
    decreases |Recoverable(w.tasks)|
  {
    if Recoverable(w.tasks) == {} {
      Stay(w);
      w' := w;
      assert w.comps[0 := Resting] == w.comps;
    } else {
      var w1 := Pass(w, 0);
      PassShrinks(w, w1);
      w' := ClearRecoverable(w1);
      Then(w, w1, w');
      assert w1.comps[0 := Resting] == w.comps[0 := Resting];
    }
  }

  /** Some bound on all the times in a map. */
  lemma {:induction false} Ceiling(m: map<int, int>) returns (t: int)
    ensures forall k :: k in m ==> m[k] <= t
    decreases |m|
  {
    if m.Keys == {} {
      t := 0;
    } else {
      var x := Choose(m.Keys);
      var rest := m - {x};
      assert rest.Keys == m.Keys - {x};
      t := Ceiling(rest);
      t := if m[x] > t then m[x] else t;
      assert forall k :: k in m ==> k == x || k in rest;
    }
  }

  /** Lets the clock run until it has reached `t`. */
  lemma WaitUntil(w: World, t: int) returns (w': World)
    ensures Goes(w, w') && w' == w.(now := w'.now) && w'.now >= t && w'.now >= w.now
  {
    var a := Tick(if t < w.now then 0 else t - w.now);
    w' := Next(w, a);
    Step(w, a);
  }

  lemma Phase1(w: World) returns (w': World)
    requires Inv(w) && Staffed(w)
    ensures Goes(w, w') && Recoverable(w'.tasks) == {} && OnlyRecovers(w.tasks, w'.tasks)
    ensures forall id :: id in w.q.retry ==> id in w'.q.retry
    ensures w' == w.(now := w'.now, tasks := w'.tasks, q := w.q.(retry := w'.q.retry), comps := w.comps[0 := Resting])
  {
    CompIsOk(w, 0);
    hide Inv;
    var w1 := FinishComp(w, 0);
    var times := map id | id in w1.tasks :: w1.tasks[id].updatedAt;
    var t := Ceiling(times);
    var w2 := WaitUntil(w1, t + w1.cfg.staleTimeout);
    assert AllStale(w2) by {
      assert forall id :: id in w1.tasks ==> id in times && times[id] == w1.tasks[id].updatedAt;
    }
    Then(w, w1, w2);
    w' := ClearRecoverable(w2);
    Then(w, w2, w');
    assert w1.comps[0 := Resting] == w.comps[0 := Resting];
  }

  /******* Phase 2: a worker becomes idle *******/

  /** A row is as it was, up to bookkeeping, or became SUCCESS. */
  predicate Kept(t: T.Task, t': T.Task) {
    t'.status == T.SUCCESS
    || (t'.status == t.status && t'.nextRetry == t.nextRetry)
  }

  ghost predicate OnlySucceeds(ts: map<int, T.Task>, ts': map<int, T.Task>) {
    ts'.Keys == ts.Keys && forall id :: id in ts ==> Kept(ts[id], ts'[id])
  }

  /** Nothing but task rows, queues other than ready, and worker `i` has changed. */
  ghost predicate WorkerDone(w: World, i: nat, w': World) {
    && i < |w.workers|
    && w' == w.(tasks := w'.tasks, q := w'.q, workers := w.workers[i := Idle])
    && w'.q.ready == w.q.ready
    && (forall id :: id in w.q.retry ==> id in w'.q.retry)
    && OnlySucceeds(w.tasks, w'.tasks)
    && Recoverable(w'.tasks) == {}
  }

  lemma NotRunning(w: World, id: int)
    requires Recoverable(w.tasks) == {} && id in w.tasks
    ensures w.tasks[id].status != T.RUNNING && w.tasks[id].status != T.SUSPENDED
  {
    assert id !in Recoverable(w.tasks);
  }

  /** The handler succeeds and the result is recorded. */
  lemma RunToEnd(w: World, i: nat) returns (w': World)
    requires i < |w.workers| && w.workers[i].Handling? && w.workers[i].id in w.tasks
    ensures Goes(w, w')
    ensures var id := w.workers[i].id;
            && id in w'.tasks && w' == w.(tasks := w.tasks[id := w'.tasks[id]], workers := w.workers[i := Idle])
            && (if w.tasks[id].status == T.RUNNING then w'.tasks[id].status == T.SUCCESS else Kept(w.tasks[id], w'.tasks[id]))
            && (w.tasks[id].status != T.RUNNING ==> w'.tasks[id].status == w.tasks[id].status)
  {
    var id := w.workers[i].id;
    var a1, a2 := OfWorker(i, Handle(true)), OfWorker(i, MarkSuccess(Done));
    var w1 := Next(w, a1);
    Step(w, a1);
    w' := Next(w1, a2);
    Step(w1, a2);
    Then(w, w1, w');
    assert w1.workers[i := Idle] == w.workers[i := Idle];
    assert w'.tasks == w.tasks[id := w'.tasks[id]];
  }

  /** A worker holding an id runs it to SUCCESS if it can be run at all. */
  lemma RunPopped(w: World, i: nat) returns (w': World)
    requires i < |w.workers| && w.workers[i].Popped? && w.workers[i].id in w.tasks && Recoverable(w.tasks) == {}
    ensures Goes(w, w') && WorkerDone(w, i, w') && w'.q == w.q
    ensures !T.CanRun(w'.tasks[w.workers[i].id])
    ensures T.CanRun(w.tasks[w.workers[i].id]) ==> w'.tasks[w.workers[i].id].status == T.SUCCESS
  {
    var id := w.workers[i].id;
    var a := OfWorker(i, TryMarkRunning);
    var w1 := Next(w, a);
    Step(w, a);
    if T.CanRun(w.tasks[id]) {
      w' := RunToEnd(w1, i);
      Then(w, w1, w');
      assert w1.workers[i := Idle] == w.workers[i := Idle];
      assert w'.tasks == w.tasks[id := w'.tasks[id]];
    } else {
      w' := w1;
    }
    StillClear(w, w', id);
  }

  lemma StillClear(w: World, w': World, id: int)
    requires Recoverable(w.tasks) == {} && id in w.tasks && id in w'.tasks && w'.tasks == w.tasks[id := w'.tasks[id]]
    requires w'.tasks[id].status == T.SUCCESS || w'.tasks[id].status == w.tasks[id].status
    ensures Recoverable(w'.tasks) == {}
  {
    NotRunning(w, id);
    forall k | k in w'.tasks
      ensures !T.CanRecover(w'.tasks[k])
    {
      NotRunning(w, k);
    }
  }

  /** Any worker can be brought back to its loop without harming a task, once nothing is RUNNING. */
  lemma FinishWorker(w: World, i: nat) returns (w': World)
    requires Inv(w) && i < |w.workers| && Recoverable(w.tasks) == {}
    ensures Goes(w, w') && WorkerDone(w, i, w')
    ensures w.workers[i].Popped? ==> !T.CanRun(w'.tasks[w.workers[i].id])
  {
    WorkerIsOk(w, i);
    hide Inv;
    var p := w.workers[i];
    if p.Idle? {
      Stay(w);
      w' := w;
      assert w.workers[i := Idle] == w.workers;
    } else {
      NotRunning(w, p.id);
      if p.Popped? {
        w' := RunPopped(w, i);
      } else if p.Handling? {
        w' := RunToEnd(w, i);
        StillClear(w, w', p.id);
      } else {
        var a := OfWorker(i, match p
                             case Errored(_) => MarkFailed(Done)
                             case Handled(_) => MarkSuccess(Done)
                             case Unmarked(_) => MarkSuspended(Done)
                             case ToDlq(_) => PushDlq(Done)
                             case _ => ScheduleRetry(Done));
        w' := Next(w, a);
        Step(w, a);
        assert w'.tasks == w.tasks;
      }
    }
  }

  /******* Phase 3: every event gets published *******/

  ghost function Unpublished(es: map<int, Event>): set<int> {
    set e | e in es && es[e].status != PUBLISHED
  }

  ghost function InDispatch(es: map<int, Event>): set<int> {
    set e | e in es && es[e].status == DISPATCHING
  }

  /** Relay work changes events and appends to ready; nobody else is touched. */
  ghost predicate Relaid(w: World, r: nat, w': World) {
    && r < |w.relays|
    && w' == w.(now := w'.now, events := w'.events, q := w.q.(ready := w'.q.ready), relays := w.relays[r := Batch([])])
    && w.q.ready <= w'.q.ready
    && w'.events.Keys == w.events.Keys
    && Unpublished(w'.events) <= Unpublished(w.events)
  }

  /** If the event got published on the way, its task id is in ready. */
  ghost predicate Tracked(w: World, w': World, e: int)
    requires e in w.events
  {
    && e in w'.events && w'.events[e].task == w.events[e].task
    && (w.events[e].status != PUBLISHED && w'.events[e].status == PUBLISHED ==> w.events[e].task in w'.q.ready)
  }

  ghost predicate AllTracked(w: World, w': World) {
    forall e :: e in w.events ==> Tracked(w, w', e)
  }

  /** The relay has pushed the event and will mark it PUBLISHED next. */
  predicate InHand(w: World, r: nat, e: int)
    requires r < |w.relays|
  {
    w.relays[r].Pushed? && w.relays[r].snap.event == e && e in w.events && w.events[e].status == DISPATCHING
  }

  ghost predicate OthersTracked(w: World, r: nat, w': World)
    requires r < |w.relays|
  {
    forall e :: e in w.events && !InHand(w, r, e) ==> Tracked(w, w', e)
  }

  ghost predicate Relayed(w: World, r: nat, w': World) {
    Relaid(w, r, w') && AllTracked(w, w')
  }

  lemma TrackedTrans(w: World, w1: World, w2: World, e: int)
    requires e in w.events && Tracked(w, w1, e) && Tracked(w1, w2, e) && w1.q.ready <= w2.q.ready
    ensures Tracked(w, w2, e)
  {
    var id := w.events[e].task;
    if id in w1.q.ready {
      var k :| 0 <= k < |w1.q.ready| && w1.q.ready[k] == id;
      assert w2.q.ready[k] == id;
    }
  }

  lemma RelayedTrans(w: World, r: nat, w1: World, w2: World)
    requires Relaid(w, r, w1) && OthersTracked(w, r, w1) && Relayed(w1, r, w2)
    ensures Relaid(w, r, w2) && OthersTracked(w, r, w2)
    ensures AllTracked(w, w1) ==> Relayed(w, r, w2)
  {
    assert w1.relays[r := Batch([])] == w.relays[r := Batch([])];
    forall e | e in w.events && Tracked(w, w1, e)
      ensures Tracked(w, w2, e)
    {
      TrackedTrans(w, w1, w2, e);
    }
  }

  lemma PushClaimed(w: World, r: nat) returns (w': World)
    requires r < |w.relays| && w.relays[r].Claimed? && w.relays[r].snap.event in w.events
    requires Target(w, w.relays[r].snap.event).Some?
    ensures Goes(w, w')
    ensures var e := w.relays[r].snap.event;
            && e in w'.events
            && w' == w.(events := w.events[e := w'.events[e]], q := w.q.(ready := w'.q.ready),
                        relays := w.relays[r := Pushed(w.relays[r].snap, w.relays[r].rest)])
            && w'.q.ready == w.q.ready + [Target(w, e).value]
            && w'.events[e].status == w.events[e].status && w'.events[e].task == w.events[e].task
  {
    hide Goes;
    var a := OfRelay(r, PublishReady(Done));
    w' := Next(w, a);
    Step(w, a);
  }

  lemma MarkPushed(w: World, r: nat) returns (w': World)
    requires r < |w.relays| && w.relays[r].Pushed? && w.relays[r].snap.event in w.events
    ensures Goes(w, w')
    ensures var e := w.relays[r].snap.event;
            && e in w'.events
            && w' == w.(events := w.events[e := w'.events[e]], relays := w.relays[r := Batch(w.relays[r].rest)])
            && w'.events[e].status == (if w.events[e].status == DISPATCHING then PUBLISHED else w.events[e].status)
            && w'.events[e].task == w.events[e].task
  {
    hide Goes;
    var a := OfRelay(r, MarkPublished(Done));
    w' := Next(w, a);
    Step(w, a);
    assert w'.events == w.events[w.relays[r].snap.event := w'.events[w.relays[r].snap.event]];
  }

  lemma MarkUnpushed(w: World, r: nat) returns (w': World)
    requires r < |w.relays| && w.relays[r].Unpushed? && w.relays[r].snap.event in w.events
    ensures Goes(w, w')
    ensures var e := w.relays[r].snap.event;
            && e in w'.events
            && w' == w.(events := w.events[e := w'.events[e]], relays := w.relays[r := Batch(w.relays[r].rest)])
            && w'.events[e].status == (if w.events[e].status == DISPATCHING then PENDING else w.events[e].status)
            && w'.events[e].task == w.events[e].task
  {
    hide Goes;
    var a := OfRelay(r, MarkRetry(Done));
    w' := Next(w, a);
    Step(w, a);
    assert w'.events == w.events[w.relays[r].snap.event := w'.events[w.relays[r].snap.event]];
  }

  /** From a claimed event to the next one in the batch. */
  lemma PublishClaimed(w: World, r: nat) returns (w': World)
    requires r < |w.relays| && w.relays[r].Claimed? && w.relays[r].snap.event in w.events
    requires Target(w, w.relays[r].snap.event).Some?
    ensures Goes(w, w')
    ensures var e := w.relays[r].snap.event;
            && e in w'.events
            && w' == w.(events := w.events[e := w'.events[e]], q := w.q.(ready := w'.q.ready), relays := w.relays[r := Batch(w.relays[r].rest)])
            && w'.q.ready == w.q.ready + [Target(w, e).value]
            && w'.events[e].status == (if w.events[e].status == DISPATCHING then PUBLISHED else w.events[e].status)
            && w'.events[e].task == w.events[e].task
  {
    hide Goes;
    var e := w.relays[r].snap.event;
    var w1 := PushClaimed(w, r);
    w' := MarkPushed(w1, r);
    Then(w, w1, w');
    assert w'.events == w.events[e := w'.events[e]];
    assert w'.relays == w.relays[r := Batch(w.relays[r].rest)];
  }

  /** The attempt to claim the next event of a batch. */
  lemma ClaimNext(w: World, r: nat) returns (w': World)
    requires r < |w.relays| && w.relays[r].Batch? && w.relays[r].todo != [] && w.relays[r].todo[0].event in w.events
    ensures Goes(w, w')
    ensures var snap, rest := w.relays[r].todo[0], w.relays[r].todo[1..];
            if w.events[snap.event].status == PENDING then
              w' == w.(events := w.events[snap.event := w.events[snap.event].(status := DISPATCHING, updatedAt := w.now)],
                       relays := w.relays[r := Claimed(snap, rest)])
            else
              w' == w.(relays := w.relays[r := Batch(rest)])
  {
    hide Goes;
    var a := OfRelay(r, TryMarkDispatching(Done));
    w' := Next(w, a);
    Step(w, a);
  }

  /** One event of a batch: published if it is still PENDING, skipped otherwise. */
  lemma DispatchNext(w: World, r: nat) returns (w': World)
    requires Inv(w) && r < |w.relays| && w.relays[r].Batch? && w.relays[r].todo != []
    ensures Goes(w, w')
    ensures var e := w.relays[r].todo[0].event;
            && e in w.events && e in w'.events
            && w' == w.(events := w.events[e := w'.events[e]], q := w.q.(ready := w'.q.ready), relays := w.relays[r := Batch(w.relays[r].todo[1..])])
            && w.q.ready <= w'.q.ready
            && w'.events[e].status == (if w.events[e].status == PENDING then PUBLISHED else w.events[e].status)
            && Tracked(w, w', e)
  {
    RelayIsOk(w, r);
    var e := w.relays[r].todo[0].event;
    TargetIsTask(w, e);
    hide Inv, Goes;
    var w1 := ClaimNext(w, r);
    if w.events[e].status == PENDING {
      assert Target(w1, e) == Target(w, e);
      w' := PublishClaimed(w1, r);
      Then(w, w1, w');
      assert w'.events == w.events[e := w'.events[e]];
      assert w'.relays == w.relays[r := Batch(w.relays[r].todo[1..])];
      assert w'.q.ready[|w.q.ready|] == w.events[e].task;
    } else {
      w' := w1;
      assert w.events == w.events[e := w.events[e]];
    }
  }

  ghost predicate NoNewPending(es: map<int, Event>, es': map<int, Event>) {
    es'.Keys == es.Keys && forall e :: e in es' && es'[e].status == PENDING ==> es'[e] == es[e]
  }

  /** Works off a batch. */
  lemma {:induction false} DispatchAll(w: World, r: nat) returns (w': World)
    requires Inv(w) && r < |w.relays| && w.relays[r].Batch?
    ensures Goes(w, w') && Relayed(w, r, w') && w'.now == w.now
    ensures InDispatch(w'.events) <= InDispatch(w.events) && NoNewPending(w.events, w'.events)
    ensures forall i :: 0 <= i < |w.relays[r].todo| ==>
              w.relays[r].todo[i].event in w'.events && w'.events[w.relays[r].todo[i].event].status != PENDING
    decreases |w.relays[r].todo|
  {
    hide Inv, Goes;
    var todo := w.relays[r].todo;
    if todo == [] {
      Stay(w);
      w' := w;
      assert w.relays[r := Batch([])] == w.relays;
    } else {
      var w1 := DispatchNext(w, r);
      GoesKeepsInv(w, w1);
      w' := DispatchAll(w1, r);
      Then(w, w1, w');
      DispatchAllStep(w, r, w1, w', todo);
    }
  }

  lemma DispatchAllStep(w: World, r: nat, w1: World, w': World, todo: seq<Snap>)
    requires r < |w.relays| && w.relays[r] == Batch(todo) && todo != []
    requires var e := todo[0].event;
             && e in w.events && e in w1.events
             && w1 == w.(events := w.events[e := w1.events[e]], q := w.q.(ready := w1.q.ready), relays := w.relays[r := Batch(todo[1..])])
             && w.q.ready <= w1.q.ready
             && w1.events[e].status == (if w.events[e].status == PENDING then PUBLISHED else w.events[e].status)
             && Tracked(w, w1, e)
    requires Relayed(w1, r, w') && InDispatch(w'.events) <= InDispatch(w1.events) && NoNewPending(w1.events, w'.events)
    requires forall i :: 0 <= i < |todo[1..]| ==>
               todo[1..][i].event in w'.events && w'.events[todo[1..][i].event].status != PENDING
    ensures Relayed(w, r, w') && InDispatch(w'.events) <= InDispatch(w.events) && NoNewPending(w.events, w'.events)
    ensures forall i :: 0 <= i < |todo| ==> todo[i].event in w'.events && w'.events[todo[i].event].status != PENDING
  {
    assert w'.relays == w.relays[r := Batch([])];
    assert Unpublished(w1.events) <= Unpublished(w.events);
    assert InDispatch(w1.events) <= InDispatch(w.events);
    assert NoNewPending(w.events, w1.events);
    forall x | x in w.events
      ensures Tracked(w, w', x)
    {
      TrackedTrans(w, w1, w', x);
    }
    forall i | 0 <= i < |todo|
      ensures todo[i].event in w'.events && w'.events[todo[i].event].status != PENDING
    {
      if i > 0 {
        assert todo[i] == todo[1..][i - 1];
      }
    }
  }

  /** Gets a relay past the event it has in hand. */
  lemma FinishEvent(w: World, r: nat) returns (w': World)
    requires Inv(w) && r < |w.relays| && !w.relays[r].Batch?
    ensures Goes(w, w')
    ensures w' == w.(events := w'.events, q := w.q.(ready := w'.q.ready), relays := w.relays[r := Batch(w.relays[r].rest)])
    ensures w.q.ready <= w'.q.ready && w'.events.Keys == w.events.Keys && Unpublished(w'.events) <= Unpublished(w.events)
    ensures OthersTracked(w, r, w')
  {
    RelayIsOk(w, r);
    var e := w.relays[r].snap.event;
    TargetIsTask(w, e);
    hide Inv, Goes;
    match w.relays[r]
    case Claimed(_, _) =>
      w' := PublishClaimed(w, r);
      assert w'.q.ready[|w.q.ready|] == w.events[e].task;
    case Pushed(_, _) => w' := MarkPushed(w, r);
    case Unpushed(_, _) => w' := MarkUnpushed(w, r);
  }

  /** Brings a relay back to its loop, wherever it was. */
  lemma FinishRelay(w: World, r: nat) returns (w': World)
    requires Inv(w) && r < |w.relays|
    ensures Goes(w, w') && Relaid(w, r, w') && OthersTracked(w, r, w')
  {
    hide Inv, Goes;
    if w.relays[r].Batch? {
      w' := DispatchAll(w, r);
    } else {
      var w1 := FinishEvent(w, r);
      GoesKeepsInv(w, w1);
      w' := DispatchAll(w1, r);
      Then(w, w1, w');
      assert w1.relays[r := Batch([])] == w.relays[r := Batch([])];
      forall e | e in w.events && !InHand(w, r, e)
        ensures Tracked(w, w', e)
      {
        TrackedTrans(w, w1, w', e);
      }
    }
  }

  /******* Phase 3b: nothing is left DISPATCHING *******/

  ghost predicate AllDispatchStale(w: World) {
    forall e :: e in InDispatch(w.events) ==> w.events[e].updatedAt <= w.now - w.cfg.dispatchTimeout
  }

  lemma RecoverStaleShrinks(w: World, batch: seq<int>)
    requires AllDispatchStale(w) && InDispatch(w.events) != {}
    requires IsScan(StaleDispatching(w), w.cfg.relayBatch, batch) && w.cfg.relayBatch >= 1
    ensures var es' := RecoverEvents(w, batch).events;
            && |InDispatch(es')| < |InDispatch(w.events)| && InDispatch(es') <= InDispatch(w.events)
            && es'.Keys == w.events.Keys && Unpublished(es') <= Unpublished(w.events)
            && AllDispatchStale(RecoverEvents(w, batch)) && AllTracked(w, RecoverEvents(w, batch))
  {
    var es' := RecoverEvents(w, batch).events;
    var m := StaleDispatching(w);
    var x := Choose(InDispatch(w.events));
    assert x in m.Keys;
    ScanFinds(m, w.cfg.relayBatch, batch);
    var y := batch[0];
    assert y in batch;
    assert y in InDispatch(w.events) && y !in InDispatch(es');
    ProperSubsetIsSmaller(InDispatch(es'), InDispatch(w.events));
  }

  lemma {:induction false} ClearDispatching(w: World, r: nat) returns (w': World)
    requires r < |w.relays| && w.relays[r] == Batch([]) && w.cfg.relayBatch >= 1 && AllDispatchStale(w)
    ensures Goes(w, w') && Relayed(w, r, w') && InDispatch(w'.events) == {}
    decreases |InDispatch(w.events)|
  {
    if InDispatch(w.events) == {} {
      Stay(w);
      w' := w;
      assert w.relays[r := Batch([])] == w.relays;
    } else {
      var batch := ScanExists(StaleDispatching(w), w.cfg.relayBatch);
      var a := OfRelay(r, RecoverStale(batch));
      var w1 := Next(w, a);
      Step(w, a);
      RecoverStaleShrinks(w, batch);
      assert w1 == RecoverEvents(w, batch);
      w' := ClearDispatching(w1, r);
      Then(w, w1, w');
      assert w.relays[r := Batch([])] == w.relays;
      forall e | e in w.events
        ensures Tracked(w, w', e)
      {
        TrackedTrans(w, w1, w', e);
      }
    }
  }

  /******* Phase 3c: nothing is left PENDING *******/

  ghost predicate AllDue(w: World) {
    forall e :: e in w.events && w.events[e].status == PENDING ==> w.events[e].nextRetryAt <= w.now
  }

  /** Lists due events; there is one if any event is unpublished. */
  lemma ListPass(w: World, r: nat) returns (w': World)
    requires Inv(w) && r < |w.relays| && w.relays[r] == Batch([]) && w.cfg.relayBatch >= 1
    requires AllDue(w) && InDispatch(w.events) == {} && Unpublished(w.events) != {}
    ensures Goes(w, w') && r < |w'.relays| && w' == w.(relays := w.relays[r := w'.relays[r]])
    ensures w'.relays[r].Batch? && w'.relays[r].todo != [] && w'.relays[r].todo[0].event in Unpublished(w.events)
  {
    var m := Dispatchable(w);
    var x := Choose(Unpublished(w.events));
    NeverSuspended(w, x);
    hide Inv;
    assert x !in InDispatch(w.events);
    assert x in m.Keys;
    var batch := ScanExists(m, w.cfg.relayBatch);
    ScanFinds(m, w.cfg.relayBatch, batch);
    var a := OfRelay(r, ListEvents(batch));
    w' := Next(w, a);
    Step(w, a);
    assert w'.relays[r].todo[0].event == batch[0];
  }

  /** One pass over due events publishes at least one. */
  lemma PublishPass(w: World, r: nat) returns (w': World)
    requires Inv(w) && r < |w.relays| && w.relays[r] == Batch([]) && w.cfg.relayBatch >= 1
    requires AllDue(w) && InDispatch(w.events) == {} && Unpublished(w.events) != {}
    ensures Goes(w, w') && Relayed(w, r, w') && w'.now == w.now && InDispatch(w'.events) == {}
    ensures NoNewPending(w.events, w'.events) && |Unpublished(w'.events)| < |Unpublished(w.events)|
  {
    hide Inv, Goes;
    var w1 := ListPass(w, r);
    GoesKeepsInv(w, w1);
    w' := DispatchAll(w1, r);
    Then(w, w1, w');
    assert w1.relays[r := Batch([])] == w.relays[r := Batch([])];
    GoesKeepsInv(w, w');
    var y := w1.relays[r].todo[0].event;
    NeverSuspended(w', y);
    assert y !in InDispatch(w'.events);
    assert y in Unpublished(w.events) && y !in Unpublished(w'.events);
    ProperSubsetIsSmaller(Unpublished(w'.events), Unpublished(w.events));
  }

  lemma NeverSuspended(w: World, e: int)
    requires Inv(w) && e in w.events
    ensures w.events[e].status != SUSPENDED
  {
    assert EventOk(w, w.events[e]);
  }

  lemma {:induction false} PublishAll(w: World, r: nat) returns (w': World)
    requires Inv(w) && r < |w.relays| && w.relays[r] == Batch([]) && w.cfg.relayBatch >= 1
    requires AllDue(w) && InDispatch(w.events) == {}
    ensures Goes(w, w') && Relayed(w, r, w') && Unpublished(w'.events) == {}
    decreases |Unpublished(w.events)|
  {
    hide Inv, Goes;
    if Unpublished(w.events) == {} {
      Stay(w);
      w' := w;
      assert w.relays[r := Batch([])] == w.relays;
    } else {
      var w1 := PublishPass(w, r);
      GoesKeepsInv(w, w1);
      assert AllDue(w1);
      w' := PublishAll(w1, r);
      Then(w, w1, w');
      RelayedTrans(w, r, w1, w');
    }
  }

  /** Waits until every claimed event is stale, and releases them all. */
  lemma ReleaseAll(w: World, r: nat) returns (w': World)
    requires r < |w.relays| && w.relays[r] == Batch([]) && w.cfg.relayBatch >= 1
    ensures Goes(w, w') && Relayed(w, r, w') && InDispatch(w'.events) == {}
  {
    hide Goes;
    var times := map e | e in w.events :: w.events[e].updatedAt;
    var t := Ceiling(times);
    var w1 := WaitUntil(w, t + w.cfg.dispatchTimeout);
    assert AllDispatchStale(w1) by {
      assert forall e :: e in w.events ==> e in times && times[e] == w.events[e].updatedAt;
    }
    w' := ClearDispatching(w1, r);
    Then(w, w1, w');
  }

  /** Waits until every pending event is due, and publishes them all. */
  lemma PublishDue(w: World, r: nat) returns (w': World)
    requires Inv(w) && r < |w.relays| && w.relays[r] == Batch([]) && w.cfg.relayBatch >= 1 && InDispatch(w.events) == {}
    ensures Goes(w, w') && Relayed(w, r, w') && Unpublished(w'.events) == {}
  {
    hide Inv, Goes;
    var times := map e | e in w.events :: w.events[e].nextRetryAt;
    var t := Ceiling(times);
    var w1 := WaitUntil(w, t);
    assert AllDue(w1) by {
      assert forall e :: e in w.events ==> e in times && times[e] == w.events[e].nextRetryAt;
    }
    GoesKeepsInv(w, w1);
    w' := PublishAll(w1, r);
    Then(w, w1, w');
  }

  /** A single relay gets every event published, and every task whose event it publishes into ready,
      except that an event it has already pushed only gets marked. */
  lemma Phase3(w: World, r: nat) returns (w': World)
    requires Inv(w) && r < |w.relays| && w.cfg.relayBatch >= 1
    ensures Goes(w, w') && Relaid(w, r, w') && OthersTracked(w, r, w') && Unpublished(w'.events) == {}
  {
    hide Inv, Goes;
    var w1 := FinishRelay(w, r);
    GoesKeepsInv(w, w1);
    var w2 := ReleaseAll(w1, r);
    Then(w, w1, w2);
    RelayedTrans(w, r, w1, w2);
    GoesKeepsInv(w, w2);
    w' := PublishDue(w2, r);
    Then(w, w2, w');
    RelayedTrans(w, r, w2, w');
  }
}
