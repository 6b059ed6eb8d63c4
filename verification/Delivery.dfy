/** The asynchronous delivery pipeline as a transition system: outbox events, tasks, the ready list,
    the retry sorted set and the dead-letter list, moved by any number of relays, consumer workers,
    retry movers, compensators and replay calls that interleave freely.

    Every SQL statement or transaction, every Redis command and every Lua script is one atomic step.
    A step's `Outcome` says whether the store applied it and whether the caller learned so; threads
    can stall for ever or crash. */
module Delivery {
  import opened Common
  import Codec
  import T = Tasks

  /******* State *******/

  datatype EventStatus = PENDING | DISPATCHING | PUBLISHED | SUSPENDED

  /** An outbox row. `pushes` counts the times its task id was pushed to ready on its behalf;
      no step reads it. */
  datatype Event = Event(
    task: int,
    payload: string,
    status: EventStatus,
    retryCount: nat,
    nextRetryAt: int,
    updatedAt: int,
    pushes: nat)

  datatype Queue = Queue(ready: seq<int>, retry: map<int, int>, dlq: seq<int>)

  datatype Worker =
    | Idle
    | Popped(id: int)          // id only in memory
    | Handling(id: int)        // inside the handler
    | Errored(id: int)         // handler failed, before MarkFailed
    | Handled(id: int)         // handler succeeded, before MarkSuccess
    | Unmarked(id: int)        // MarkSuccess failed, before MarkSuspended
    | ToDlq(id: int)
    | ToRetry(id: int, at: int)

  datatype Snap = Snap(event: int, retryCount: nat)

  datatype Relay =
    | Batch(todo: seq<Snap>)   // [] when idle
    | Claimed(snap: Snap, rest: seq<Snap>)
    | Pushed(snap: Snap, rest: seq<Snap>)
    | Unpushed(snap: Snap, rest: seq<Snap>)

  datatype Mover =
    | Moving(todo: seq<int>)   // [] when idle
    | Removed(id: int, rest: seq<int>)
    | Unmoved(id: int)

  datatype Comp =
    | Resting
    | Due(due: seq<int>)
    | Suspects(due: seq<int>, suspended: seq<int>, staleBefore: int)
    | Recovering(todo: seq<int>, cands: seq<int>)
    | Scheduling(cands: seq<int>, at: int)

  datatype Admin = NoReplay | Reopened(id: int) | Restoring(id: int)

  datatype Config = Config(
    relayBatch: nat, moverBatch: nat, compBatch: nat,
    retryBackoff: int, relayBackoff: int, staleTimeout: int, dispatchTimeout: int)

  datatype World = World(
    cfg: Config,
    now: int,
    tasks: map<int, T.Task>,
    events: map<int, Event>,
    q: Queue,
    workers: seq<Worker>,
    relays: seq<Relay>,
    movers: seq<Mover>,
    comps: seq<Comp>,
    admins: seq<Admin>)

  /******* Scans *******/

  /** The first `limit` keys of `m` in ascending order of their values: `ORDER BY ... LIMIT`, or
      `ZRANGEBYSCORE ... LIMIT`. Ties come in any order. */
  predicate IsScan(m: map<int, int>, limit: nat, out: seq<int>) {
    && |out| == (if |m| < limit then |m| else limit)
    && (forall i :: 0 <= i < |out| ==> out[i] in m)
    && (forall i, j :: 0 <= i < j < |out| ==> out[i] != out[j])
    && (forall i, j :: 0 <= i < j < |out| ==> m[out[i]] <= m[out[j]])
    && (forall i, k :: 0 <= i < |out| && k in m && k !in out ==> m[out[i]] <= m[k])
  }

  function DueFailed(w: World): map<int, int> {
    map id | id in w.tasks && w.tasks[id].status == T.FAILED
             && w.tasks[id].nextRetry.Some? && w.tasks[id].nextRetry.value <= w.now
      :: w.tasks[id].nextRetry.value
  }

  function Stale(w: World, status: T.Status, before: int): map<int, int> {
    map id | id in w.tasks && w.tasks[id].status == status && w.tasks[id].updatedAt <= before :: w.tasks[id].updatedAt
  }

  function DueRetry(w: World): map<int, int> {
    map id | id in w.q.retry && w.q.retry[id] <= w.now :: w.q.retry[id]
  }

  function Dispatchable(w: World): map<int, int> {
    map e | e in w.events && w.events[e].status == PENDING && w.events[e].nextRetryAt <= w.now :: e
  }

  function StaleDispatching(w: World): map<int, int> {
    map e | e in w.events && w.events[e].status == DISPATCHING
            && w.events[e].updatedAt <= w.now - w.cfg.dispatchTimeout
      :: w.events[e].updatedAt
  }

  /******* What the scans find, in the rows' own fields *******/

  lemma {:induction false} DistinctElements(out: seq<int>)
    requires forall i, j :: 0 <= i < j < |out| ==> out[i] != out[j]
    ensures |set x | x in out| == |out|
    decreases |out|
  {
    if out == [] {
      assert (set x | x in out) == {};
    } else {
      var n := |out| - 1;
      DistinctElements(out[..n]);
      assert (set x | x in out) == (set x | x in out[..n]) + {out[n]};
    }
  }

  /** A scan that is not full has found everything. */
  lemma ScanIsComplete(m: map<int, int>, limit: nat, out: seq<int>, k: int)
    requires IsScan(m, limit, out) && |out| < limit && k in m
    ensures k in out
  {
    DistinctElements(out);
    var found := set x | x in out;
    if k !in found {
      SubsetIsNoLarger(found + {k}, m.Keys);
    }
  }

  /** The recovery scans find rows in that status not updated since the cut-off, oldest first: all of
      them unless the batch is full. */
  lemma StaleFound(w: World, status: T.Status, before: int, limit: nat, out: seq<int>)
    requires IsScan(Stale(w, status, before), limit, out)
    ensures |out| <= limit
    ensures forall id :: id in out ==> id in w.tasks && w.tasks[id].status == status && w.tasks[id].updatedAt <= before
    ensures |out| < limit ==>
              forall id :: id in w.tasks && w.tasks[id].status == status && w.tasks[id].updatedAt <= before ==> id in out
    ensures forall id, x :: id in out && x in w.tasks && x !in out && w.tasks[x].status == status && w.tasks[x].updatedAt <= before ==>
              w.tasks[id].updatedAt <= w.tasks[x].updatedAt
  {
    var m := Stale(w, status, before);
    forall id | id in m && |out| < limit
      ensures id in out
    {
      ScanIsComplete(m, limit, out, id);
    }
  }

  lemma DueFailedFound(w: World, limit: nat, out: seq<int>)
    requires IsScan(DueFailed(w), limit, out)
    ensures |out| <= limit
    ensures forall id :: id in out ==>
              id in w.tasks && w.tasks[id].status == T.FAILED && w.tasks[id].nextRetry.Some? && w.tasks[id].nextRetry.value <= w.now
    ensures |out| < limit ==>
              forall id :: id in w.tasks && w.tasks[id].status == T.FAILED && w.tasks[id].nextRetry.Some? && w.tasks[id].nextRetry.value <= w.now
                           ==> id in out
  {
    var m := DueFailed(w);
    forall id | id in m && |out| < limit
      ensures id in out
    {
      ScanIsComplete(m, limit, out, id);
    }
  }

  lemma DueRetryFound(w: World, limit: nat, out: seq<int>)
    requires IsScan(DueRetry(w), limit, out)
    ensures |out| <= limit
    ensures forall id :: id in out ==> id in w.q.retry && w.q.retry[id] <= w.now
    ensures |out| < limit ==> forall id :: id in w.q.retry && w.q.retry[id] <= w.now ==> id in out
    ensures forall i, j :: 0 <= i < j < |out| ==> w.q.retry[out[i]] <= w.q.retry[out[j]]
  {
    var m := DueRetry(w);
    forall id | id in m && |out| < limit
      ensures id in out
    {
      ScanIsComplete(m, limit, out, id);
    }
    forall i, j | 0 <= i < j < |out|
      ensures w.q.retry[out[i]] <= w.q.retry[out[j]]
    {
      assert m[out[i]] <= m[out[j]];
    }
  }

  lemma DispatchableFound(w: World, limit: nat, out: seq<int>)
    requires IsScan(Dispatchable(w), limit, out)
    ensures |out| <= limit
    ensures forall e :: e in out ==> e in w.events && w.events[e].status == PENDING && w.events[e].nextRetryAt <= w.now
    ensures |out| < limit ==> forall e :: e in w.events && w.events[e].status == PENDING && w.events[e].nextRetryAt <= w.now ==> e in out
    ensures forall i, j :: 0 <= i < j < |out| ==> out[i] < out[j]
  {
    var m := Dispatchable(w);
    forall e | e in m && |out| < limit
      ensures e in out
    {
      ScanIsComplete(m, limit, out, e);
    }
    forall i, j | 0 <= i < j < |out|
      ensures out[i] < out[j]
    {
      assert m[out[i]] <= m[out[j]];
    }
  }

  lemma StaleDispatchingFound(w: World, limit: nat, out: seq<int>)
    requires IsScan(StaleDispatching(w), limit, out)
    ensures |out| <= limit
    ensures forall e :: e in out ==>
              e in w.events && w.events[e].status == DISPATCHING && w.events[e].updatedAt <= w.now - w.cfg.dispatchTimeout
    ensures |out| < limit ==>
              forall e :: e in w.events && w.events[e].status == DISPATCHING && w.events[e].updatedAt <= w.now - w.cfg.dispatchTimeout
                          ==> e in out
  {
    var m := StaleDispatching(w);
    forall e | e in m && |out| < limit
      ensures e in out
    {
      ScanIsComplete(m, limit, out, e);
    }
  }

  /******* Row updates *******/

  function OnTask(w: World, id: int, op: T.Op): World {
    if id in w.tasks then w.(tasks := w.tasks[id := T.Apply(w.tasks[id], op, w.now)]) else w
  }

  function MaybeOnTask(w: World, id: int, op: T.Op, o: Outcome): World {
    if o.Applied() then OnTask(w, id, op) else w
  }

  function SetEvent(w: World, e: int, x: Event): World {
    w.(events := w.events[e := x])
  }

  /** The conditional UPDATE from DISPATCHING, shared by the three marks of a claimed event. */
  function FromDispatching(w: World, e: int, x: Event, o: Outcome): World {
    if o.Applied() && e in w.events && w.events[e].status == DISPATCHING then SetEvent(w, e, x) else w
  }

  function PushReady(w: World, id: int, o: Outcome): World {
    if o.Applied() then w.(q := w.q.(ready := w.q.ready + [id])) else w
  }

  function AddRetry(w: World, id: int, at: int, o: Outcome): World {
    if o.Applied() then w.(q := w.q.(retry := w.q.retry[id := at])) else w
  }

  function SetWorker(w: World, i: nat, x: Worker): World
    requires i < |w.workers|
  {
    w.(workers := w.workers[i := x])
  }

  function SetRelay(w: World, i: nat, x: Relay): World
    requires i < |w.relays|
  {
    w.(relays := w.relays[i := x])
  }

  function SetMover(w: World, i: nat, x: Mover): World
    requires i < |w.movers|
  {
    w.(movers := w.movers[i := x])
  }

  function SetComp(w: World, i: nat, x: Comp): World
    requires i < |w.comps|
  {
    w.(comps := w.comps[i := x])
  }

  function SetAdmin(w: World, i: nat, x: Admin): World
    requires i < |w.admins|
  {
    w.(admins := w.admins[i := x])
  }

  /******* Creation *******/

  function NewEvent(w: World, task: int): Event {
    Event(task, Codec.StoredTaskCreated(task), PENDING, 0, w.now, w.now, 0)
  }

  /******* Consumer worker *******/

  function TryRun(w: World, i: nat): World
    requires i < |w.workers| && w.workers[i].Popped?
  {
    var id := w.workers[i].id;
    if id in w.tasks && T.CanRun(w.tasks[id]) then SetWorker(OnTask(w, id, T.TryMarkRunning), i, Handling(id))
    else SetWorker(w, i, Idle)
  }

  function MarkFailedStep(w: World, i: nat, o: Outcome): World
    requires i < |w.workers| && w.workers[i].Errored?
  {
    var id := w.workers[i].id;
    var w1 := MaybeOnTask(w, id, T.MarkFailed(w.cfg.retryBackoff), o);
    var x :=
      if !o.Done? || id !in w.tasks || w.tasks[id].status != T.RUNNING then Idle
      else if w1.tasks[id].status == T.DEAD then ToDlq(id)
      else if w1.tasks[id].nextRetry.Some? then ToRetry(id, w1.tasks[id].nextRetry.value)
      else Idle;
    SetWorker(w1, i, x)
  }

  /******* Relay *******/

  /** `relayBackoff`. */
  function RelayBackoff(retryCount: int, base: int): int {
    var n := if retryCount < 0 then 0 else if retryCount > 8 then 8 else retryCount;
    base * T.Pow2(n)
  }

  /** The delay of a failed publish: the base at first, doubled with every failure seen up to 256 times
      the base, and never shrinking. */
  lemma RelayBackoffBounds(n: int, base: int)
    requires base >= 0
    ensures base <= RelayBackoff(n, base) <= 256 * base && RelayBackoff(n, base) <= RelayBackoff(n + 1, base)
    ensures n <= 0 ==> RelayBackoff(n, base) == base
    ensures 0 <= n < 8 ==> RelayBackoff(n + 1, base) == 2 * RelayBackoff(n, base)
  {
    if base > 0 {
      T.BackoffBounds(n, base);
      if n < 0 {
        T.BackoffBounds(0, base);
      }
      assert RelayBackoff(n, base) == T.Backoff(n, base) && RelayBackoff(n + 1, base) == T.Backoff(n + 1, base);
    }
  }

  function RecoverEvents(w: World, batch: seq<int>): World {
    w.(events := map e | e in w.events :: if e in batch then w.events[e].(status := PENDING, updatedAt := w.now) else w.events[e])
  }

  function ClaimEvent(w: World, i: nat, o: Outcome): World
    requires i < |w.relays| && w.relays[i].Batch? && w.relays[i].todo != []
  {
    var snap, rest := w.relays[i].todo[0], w.relays[i].todo[1..];
    var e := snap.event;
    var can := e in w.events && w.events[e].status == PENDING;
    var w1 := if o.Applied() && can then SetEvent(w, e, w.events[e].(status := DISPATCHING, updatedAt := w.now)) else w;
    SetRelay(w1, i, if !o.Done? then Batch([]) else if can then Claimed(snap, rest) else Batch(rest))
  }

  /** The task id a relay reads from the payload, if it is usable. */
  function Target(w: World, e: int): Option<int> {
    if e !in w.events then None
    else
      match Codec.ParseTaskCreated(w.events[e].payload)
      case None => None
      case Some(id) => if id <= 0 then None else Some(id)
  }

  function Publish(w: World, i: nat, o: Outcome): World
    requires i < |w.relays| && w.relays[i].Claimed? && Target(w, w.relays[i].snap.event).Some?
  {
    var snap, rest := w.relays[i].snap, w.relays[i].rest;
    var e := snap.event;
    var w1 := PushReady(w, Target(w, e).value, o);
    var w2 := if o.Applied() then SetEvent(w1, e, w1.events[e].(pushes := w1.events[e].pushes + 1)) else w1;
    SetRelay(w2, i, if o.Done? then Pushed(snap, rest) else Unpushed(snap, rest))
  }

  function EventOr(w: World, e: int): Event {
    if e in w.events then w.events[e] else Event(0, "", SUSPENDED, 0, 0, 0, 0)
  }

  /******* Retry mover *******/

  function MoveRemove(w: World, i: nat, o: Outcome): World
    requires i < |w.movers| && w.movers[i].Moving? && w.movers[i].todo != []
  {
    var id, rest := w.movers[i].todo[0], w.movers[i].todo[1..];
    var present := id in w.q.retry;
    var w1 := if o.Applied() then w.(q := w.q.(retry := w.q.retry - {id})) else w;
    SetMover(w1, i, if !o.Done? then Moving([]) else if present then Removed(id, rest) else Moving(rest))
  }

  /******* Compensator *******/

  function Recover(w: World, i: nat, o: Outcome): World
    requires i < |w.comps| && w.comps[i].Recovering? && w.comps[i].todo != []
  {
    var id, rest, cands := w.comps[i].todo[0], w.comps[i].todo[1..], w.comps[i].cands;
    var affected := id in w.tasks && T.CanRecover(w.tasks[id]);
    SetComp(MaybeOnTask(w, id, T.MarkRecovered, o), i,
            Recovering(rest, if o.Done? && affected then cands + [id] else cands))
  }

  /******* Manual replay *******/

  function RemoveFirst(s: seq<int>, x: int): seq<int> {
    if s == [] then [] else if s[0] == x then s[1..] else [s[0]] + RemoveFirst(s[1..], x)
  }

  function ReopenStep(w: World, i: nat, id: int, o: Outcome): World
    requires i < |w.admins|
  {
    var can := id in w.tasks && T.CanReopen(w.tasks[id]);
    SetAdmin(MaybeOnTask(w, id, T.MarkReplayReady, o), i, if o.Done? && can then Reopened(id) else NoReplay)
  }

  function ReplayMove(w: World, i: nat, o: Outcome): World
    requires i < |w.admins| && w.admins[i].Reopened?
  {
    var id := w.admins[i].id;
    var found := id in w.q.dlq;
    var w1 := if o.Applied() && found then w.(q := w.q.(dlq := RemoveFirst(w.q.dlq, id), ready := w.q.ready + [id])) else w;
    SetAdmin(w1, i, if o.Done? && found then NoReplay else Restoring(id))
  }

  /******* The transition system *******/

  datatype WorkerAct =
    | Pop | TryMarkRunning | Drop | Handle(ok: bool)
    | MarkSuccess(o: Outcome) | MarkSuspended(o: Outcome) | MarkFailed(o: Outcome)
    | PushDlq(o: Outcome) | ScheduleRetry(o: Outcome) | WorkerCrash

  datatype RelayAct =
    | RecoverStale(batch: seq<int>) | ListEvents(batch: seq<int>) | TryMarkDispatching(o: Outcome)
    | PublishReady(o: Outcome) | SuspendEvent(o: Outcome)
    | MarkPublished(o: Outcome) | MarkRetry(o: Outcome) | RelayCrash

  datatype MoverAct =
    | ListRetry(batch: seq<int>) | RemoveNext(o: Outcome) | PushNext(o: Outcome) | PutBack(o: Outcome) | MoverCrash

  datatype CompAct =
    | ListFailed(batch: seq<int>) | ListSuspended(batch: seq<int>) | ListRunning(batch: seq<int>)
    | RecoverNext(o: Outcome) | Begin | ScheduleNext(o: Outcome) | CompCrash

  datatype AdminAct = Reopen(task: int, o: Outcome) | MoveFromDlq(o: Outcome) | Restore(o: Outcome) | AdminCrash

  datatype Action =
    | Tick(d: nat)
    | CreateTask(task: int, maxRetry: int, event: int)
    | ExtraEvent(task: int, event: int)
    | OfWorker(i: nat, wa: WorkerAct)
    | OfRelay(i: nat, ra: RelayAct)
    | OfMover(i: nat, ma: MoverAct)
    | OfComp(i: nat, ca: CompAct)
    | OfAdmin(i: nat, aa: AdminAct)

  predicate CanWork(w: World, i: nat, a: WorkerAct) {
    && i < |w.workers|
    && var p := w.workers[i];
       match a
       case Pop => p.Idle? && w.q.ready != []
       case TryMarkRunning => p.Popped?
       case Drop => p.Popped?
       case Handle(_) => p.Handling?
       case MarkSuccess(_) => p.Handled?
       case MarkSuspended(_) => p.Unmarked?
       case MarkFailed(_) => p.Errored?
       case PushDlq(_) => p.ToDlq?
       case ScheduleRetry(_) => p.ToRetry?
       case WorkerCrash => !p.Popped?
  }

  function Work(w: World, i: nat, a: WorkerAct): World
    requires CanWork(w, i, a)
  {
    var p := w.workers[i];
    match a
    case Pop => SetWorker(w.(q := w.q.(ready := w.q.ready[1..])), i, Popped(w.q.ready[0]))
    case TryMarkRunning => TryRun(w, i)
    case Drop => SetWorker(OnTask(w, p.id, T.Dropped), i, Idle)
    case Handle(ok) =>
      if ok then SetWorker(OnTask(w, p.id, T.HandlerOk), i, Handled(p.id)) else SetWorker(w, i, Errored(p.id))
    case MarkSuccess(o) => SetWorker(MaybeOnTask(w, p.id, T.MarkSuccess, o), i, if o.Done? then Idle else Unmarked(p.id))
    case MarkSuspended(o) => SetWorker(MaybeOnTask(w, p.id, T.MarkSuspended, o), i, Idle)
    case MarkFailed(o) => MarkFailedStep(w, i, o)
    case PushDlq(o) => SetWorker(if o.Applied() then w.(q := w.q.(dlq := w.q.dlq + [p.id])) else w, i, Idle)
    case ScheduleRetry(o) => SetWorker(AddRetry(w, p.id, p.at, o), i, Idle)
    case WorkerCrash => SetWorker(w, i, Idle)
  }

  predicate CanRelay(w: World, i: nat, a: RelayAct) {
    && i < |w.relays|
    && var p := w.relays[i];
       match a
       case RecoverStale(batch) => p == Batch([]) && IsScan(StaleDispatching(w), w.cfg.relayBatch, batch)
       case ListEvents(batch) => p == Batch([]) && IsScan(Dispatchable(w), w.cfg.relayBatch, batch)
       case TryMarkDispatching(_) => p.Batch? && p.todo != []
       case PublishReady(_) => p.Claimed? && Target(w, p.snap.event).Some?
       case SuspendEvent(_) => p.Claimed? && Target(w, p.snap.event).None?
       case MarkPublished(_) => p.Pushed?
       case MarkRetry(_) => p.Unpushed?
       case RelayCrash => true
  }

  function Snaps(w: World, batch: seq<int>): seq<Snap> {
    seq(|batch|, k requires 0 <= k < |batch| => Snap(batch[k], EventOr(w, batch[k]).retryCount))
  }

  function DoRelay(w: World, i: nat, a: RelayAct): World
    requires CanRelay(w, i, a)
  {
    var p := w.relays[i];
    match a
    case RecoverStale(batch) => RecoverEvents(w, batch)
    case ListEvents(batch) => SetRelay(w, i, Batch(Snaps(w, batch)))
    case TryMarkDispatching(o) => ClaimEvent(w, i, o)
    case PublishReady(o) => Publish(w, i, o)
    case SuspendEvent(o) =>
      var e := p.snap.event;
      var w1 := if o.Applied() && e in w.events && (w.events[e].status == PENDING || w.events[e].status == DISPATCHING)
                then SetEvent(w, e, w.events[e].(status := SUSPENDED, updatedAt := w.now)) else w;
      SetRelay(w1, i, Batch(p.rest))
    case MarkPublished(o) =>
      var x := EventOr(w, p.snap.event);
      SetRelay(FromDispatching(w, p.snap.event, x.(status := PUBLISHED, updatedAt := w.now), o), i, Batch(p.rest))
    case MarkRetry(o) =>
      var x := EventOr(w, p.snap.event);
      SetRelay(FromDispatching(w, p.snap.event, RetryEvent(w, x, p.snap.retryCount), o), i, Batch(p.rest))
    case RelayCrash => SetRelay(w, i, Batch([]))
  }

  function RetryEvent(w: World, x: Event, seen: nat): Event {
    x.(status := PENDING, retryCount := x.retryCount + 1,
       nextRetryAt := w.now + RelayBackoff(seen, w.cfg.relayBackoff), updatedAt := w.now)
  }

  predicate CanMove(w: World, i: nat, a: MoverAct) {
    && i < |w.movers|
    && var p := w.movers[i];
       match a
       case ListRetry(batch) => p == Moving([]) && IsScan(DueRetry(w), w.cfg.moverBatch, batch)
       case RemoveNext(_) => p.Moving? && p.todo != []
       case PushNext(_) => p.Removed?
       case PutBack(_) => p.Unmoved?
       case MoverCrash => true
  }

  function DoMove(w: World, i: nat, a: MoverAct): World
    requires CanMove(w, i, a)
  {
    var p := w.movers[i];
    match a
    case ListRetry(batch) => SetMover(w, i, Moving(batch))
    case RemoveNext(o) => MoveRemove(w, i, o)
    case PushNext(o) => SetMover(PushReady(w, p.id, o), i, if o.Done? then Moving(p.rest) else Unmoved(p.id))
    case PutBack(o) => SetMover(AddRetry(w, p.id, w.now, o), i, Moving([]))
    case MoverCrash => SetMover(w, i, Moving([]))
  }

  predicate CanComp(w: World, i: nat, a: CompAct) {
    && i < |w.comps|
    && var p := w.comps[i];
       match a
       case ListFailed(batch) => p.Resting? && IsScan(DueFailed(w), w.cfg.compBatch, batch)
       case ListSuspended(batch) =>
         p.Due? && IsScan(Stale(w, T.SUSPENDED, w.now - w.cfg.staleTimeout), w.cfg.compBatch, batch)
       case ListRunning(batch) => p.Suspects? && IsScan(Stale(w, T.RUNNING, p.staleBefore), w.cfg.compBatch, batch)
       case RecoverNext(_) => p.Recovering? && p.todo != []
       case Begin => p.Recovering? && p.todo == []
       case ScheduleNext(_) => p.Scheduling? && p.cands != []
       case CompCrash => true
  }

  /** After the last candidate the compensator goes back to waiting for its ticker. */
  function SchedulingOrRest(cands: seq<int>, at: int): Comp {
    if cands == [] then Resting else Scheduling(cands, at)
  }

  function DoComp(w: World, i: nat, a: CompAct): World
    requires CanComp(w, i, a)
  {
    var p := w.comps[i];
    match a
    case ListFailed(batch) => SetComp(w, i, Due(batch))
    case ListSuspended(batch) => SetComp(w, i, Suspects(p.due, batch, w.now - w.cfg.staleTimeout))
    case ListRunning(batch) => SetComp(w, i, Recovering(batch + p.suspended, p.due))
    case RecoverNext(o) => Recover(w, i, o)
    case Begin => SetComp(w, i, SchedulingOrRest(p.cands, w.now))
    case ScheduleNext(o) => SetComp(AddRetry(w, p.cands[0], p.at, o), i, SchedulingOrRest(p.cands[1..], p.at))
    case CompCrash => SetComp(w, i, Resting)
  }

  predicate CanAdmin(w: World, i: nat, a: AdminAct) {
    && i < |w.admins|
    && var p := w.admins[i];
       match a
       case Reopen(_, _) => p.NoReplay?
       case MoveFromDlq(_) => p.Reopened?
       case Restore(_) => p.Restoring?
       case AdminCrash => true
  }

  function DoAdmin(w: World, i: nat, a: AdminAct): World
    requires CanAdmin(w, i, a)
  {
    match a
    case Reopen(id, o) => ReopenStep(w, i, id, o)
    case MoveFromDlq(o) => ReplayMove(w, i, o)
    case Restore(o) => SetAdmin(MaybeOnTask(w, w.admins[i].id, T.RestoreDead, o), i, NoReplay)
    case AdminCrash => SetAdmin(w, i, NoReplay)
  }

  predicate Enabled(w: World, a: Action) {
    match a
    case Tick(_) => true
    case CreateTask(id, _, e) => id > 0 && Codec.IsInt64(id) && id !in w.tasks && e !in w.events
    case ExtraEvent(id, e) => id in w.tasks && e !in w.events
    case OfWorker(i, wa) => CanWork(w, i, wa)
    case OfRelay(i, ra) => CanRelay(w, i, ra)
    case OfMover(i, ma) => CanMove(w, i, ma)
    case OfComp(i, ca) => CanComp(w, i, ca)
    case OfAdmin(i, aa) => CanAdmin(w, i, aa)
  }

  function Next(w: World, a: Action): World
    requires Enabled(w, a)
  {
    match a
    case Tick(d) => w.(now := w.now + d)
    case CreateTask(id, maxRetry, e) =>
      SetEvent(w.(tasks := w.tasks[id := T.New(maxRetry, w.now)]), e, NewEvent(w, id))
    case ExtraEvent(id, e) => SetEvent(w, e, NewEvent(w, id))
    case OfWorker(i, wa) => Work(w, i, wa)
    case OfRelay(i, ra) => DoRelay(w, i, ra)
    case OfMover(i, ma) => DoMove(w, i, ma)
    case OfComp(i, ca) => DoComp(w, i, ca)
    case OfAdmin(i, aa) => DoAdmin(w, i, aa)
  }

  /******* The life of an event row *******/

  /** What one step may do to an event row: its payload never changes; it is pushed only with the
      positive task id its payload names; every change of status is stamped with the time it happens. */
  predicate EventMoves(w: World, x: Event, x': Event, ready: seq<int>) {
    && x'.task == x.task && x'.payload == x.payload
    && (x'.pushes == x.pushes || (x'.pushes == x.pushes + 1 && x'.status == x.status && ready != []
                                  && ready == w.q.ready + [ready[|ready| - 1]] && ready[|ready| - 1] > 0
                                  && Codec.ParseTaskCreated(x.payload) == Some(ready[|ready| - 1])))
    && (x'.status == x.status ==> x' == x.(pushes := x'.pushes))
    && (x'.status != x.status ==> x'.updatedAt == w.now && EventDiagram(w, x, x'))
  }

  /** The status diagram of an event. */
  predicate EventDiagram(w: World, x: Event, x': Event) {
    match x'.status
    case DISPATCHING => x.status == PENDING && x'.retryCount == x.retryCount && x'.nextRetryAt == x.nextRetryAt
    case PUBLISHED => x.status == DISPATCHING && x'.retryCount == x.retryCount && x'.nextRetryAt == x.nextRetryAt
    case SUSPENDED =>
      && (x.status == PENDING || x.status == DISPATCHING) && x'.retryCount == x.retryCount && x'.nextRetryAt == x.nextRetryAt
      && var id := Codec.ParseTaskCreated(x.payload); id.None? || id.value <= 0
    case PENDING =>
      && x.status == DISPATCHING
      && (|| (x'.retryCount == x.retryCount && x'.nextRetryAt == x.nextRetryAt && x.updatedAt <= w.now - w.cfg.dispatchTimeout)
          || (x'.retryCount == x.retryCount + 1 && (w.cfg.relayBackoff >= 0 ==>
                w.now + w.cfg.relayBackoff <= x'.nextRetryAt <= w.now + 256 * w.cfg.relayBackoff)))
  }

  lemma EventStep(w: World, a: Action, e: int)
    requires Enabled(w, a) && e in w.events
    ensures var w' := Next(w, a); e in w'.events && EventMoves(w, w.events[e], w'.events[e], w'.q.ready)
  {
    hide IsScan, Codec.ParseTaskCreated;
    if a.OfRelay? {
      EventRelayStep(w, a.i, a.ra, e);
    }
    hide DoRelay, CanRelay;
  }

  lemma EventRelayStep(w: World, i: nat, a: RelayAct, e: int)
    requires CanRelay(w, i, a) && e in w.events
    ensures var w' := DoRelay(w, i, a); e in w'.events && EventMoves(w, w.events[e], w'.events[e], w'.q.ready)
  {
    hide IsScan, Codec.ParseTaskCreated, RelayBackoff;
    match a
    case RecoverStale(batch) => StaleDispatchingFound(w, w.cfg.relayBatch, batch);
    case MarkRetry(o) =>
      if w.cfg.relayBackoff >= 0 {
        RelayBackoffBounds(w.relays[i].snap.retryCount, w.cfg.relayBackoff);
      }
    case _ =>
  }

  /** `w'` is reached from `w` by the steps `acts`, in that order. */
  ghost predicate Run(w: World, acts: seq<Action>, w': World)
    decreases |acts|
  {
    if acts == [] then w' == w
    else Enabled(w, acts[0]) && Run(Next(w, acts[0]), acts[1..], w')
  }

  /** A freshly deployed pipeline: empty tables and queues, every thread waiting. */
  ghost predicate Initial(w: World) {
    && w.tasks == map[] && w.events == map[] && w.q == Queue([], map[], [])
    && (forall i :: 0 <= i < |w.workers| ==> w.workers[i] == Idle)
    && (forall i :: 0 <= i < |w.relays| ==> w.relays[i] == Batch([]))
    && (forall i :: 0 <= i < |w.movers| ==> w.movers[i] == Moving([]))
    && (forall i :: 0 <= i < |w.comps| ==> w.comps[i] == Resting)
    && (forall i :: 0 <= i < |w.admins| ==> w.admins[i] == NoReplay)
  }

  lemma {:induction false} RunConcat(w: World, a: seq<Action>, w1: World, b: seq<Action>, w2: World)
    requires Run(w, a, w1) && Run(w1, b, w2)
    ensures Run(w, a + b, w2)
    decreases |a|
  {
    hide Next, Enabled;
    if a == [] {
      assert a + b == b;
    } else {
      RunConcat(Next(w, a[0]), a[1..], w1, b, w2);
      assert (a + b)[1..] == a[1..] + b;
    }
  }

  lemma RunSnoc(w: World, acts: seq<Action>, w1: World, a: Action)
    requires Run(w, acts, w1) && Enabled(w1, a)
    ensures Run(w, acts + [a], Next(w1, a))
  {
    hide Next, Enabled;
    var w2 := Next(w1, a);
    assert Run(w2, [], w2);
    assert [a][1..] == [];
    assert Run(w1, [a], w2);
    RunConcat(w, acts, w1, [a], w2);
  }
}
