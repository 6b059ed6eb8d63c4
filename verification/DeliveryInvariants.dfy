/** What every interleaving of the delivery pipeline keeps, and what follows for its users. */
module DeliveryInvariants {
  import opened Common
  import Codec
  import T = Tasks
  import opened Delivery

  /******* Vocabulary *******/

  /** The worker marked `id` RUNNING and is in the handler or about to record how it ended; with
      `busy`, also when it is left with an unacknowledged success. */
  predicate Inside(p: Worker, id: int, busy: bool) {
    (p.Handling? || p.Errored? || p.Handled? || (busy && p.Unmarked?)) && p.id == id
  }

  function InsideCount(ws: seq<Worker>, id: int, busy: bool): nat {
    if ws == [] then 0
    else InsideCount(ws[..|ws| - 1], id, busy) + (if Inside(ws[|ws| - 1], id, busy) then 1 else 0)
  }

  /** How many workers the row can account for. */
  function Slack(t: T.Task, busy: bool): nat {
    (if t.status == T.RUNNING || (busy && t.status == T.SUCCESS) then 1 else 0) + t.log.interrupted
  }

  ghost predicate Held(ws: seq<Worker>, id: int) {
    exists i :: 0 <= i < |ws| && ws[i] == Popped(id)
  }

  predicate Seen(tasks: map<int, T.Task>, id: int) {
    id in tasks && tasks[id].status != T.PENDING
  }

  /** A pushed id is not forgotten: it left PENDING, or a copy is queued, or a worker holds it -
      unless the model recorded that a holder dropped it. */
  ghost predicate Delivered(w: World, id: int) {
    id in w.tasks &&
    (w.tasks[id].status != T.PENDING || w.tasks[id].log.dropped > 0 || id in w.q.ready || Held(w.workers, id))
  }

  /******* Invariant *******/

  ghost predicate RowsOk(tasks: map<int, T.Task>) {
    forall id :: id in tasks ==> id > 0 && Codec.IsInt64(id) && T.RowInv(tasks[id])
  }

  ghost predicate EventOk(w: World, x: Event) {
    && x.task in w.tasks && x.payload == Codec.StoredTaskCreated(x.task)
    && x.status != SUSPENDED
    && (x.status == PUBLISHED ==> x.pushes >= 1)
    && (x.pushes >= 1 ==> Delivered(w, x.task))
  }

  ghost predicate EventsOk(w: World) {
    forall e :: e in w.events ==> EventOk(w, w.events[e])
  }

  ghost predicate HasEvent(events: map<int, Event>, id: int) {
    exists e :: e in events && events[e].task == id
  }

  ghost predicate AllHaveEvents(w: World) {
    forall id :: id in w.tasks ==> HasEvent(w.events, id)
  }

  ghost predicate AllSeen(tasks: map<int, T.Task>, ids: seq<int>) {
    forall i :: 0 <= i < |ids| ==> Seen(tasks, ids[i])
  }

  ghost predicate QueueOk(tasks: map<int, T.Task>, q: Queue) {
    && (forall i :: 0 <= i < |q.ready| ==> q.ready[i] in tasks)
    && (forall id :: id in q.retry ==> Seen(tasks, id))
    && AllSeen(tasks, q.dlq)
  }

  ghost predicate WorkerOk(tasks: map<int, T.Task>, p: Worker) {
    match p
    case Idle => true
    case Popped(id) => id in tasks
    case Handled(id) => Seen(tasks, id) && tasks[id].log.okCalls >= 1
    case Unmarked(id) => Seen(tasks, id) && tasks[id].log.okCalls >= 1
    case _ => Seen(tasks, p.id)
  }

  ghost predicate SnapsOk(events: map<int, Event>, snaps: seq<Snap>) {
    forall i :: 0 <= i < |snaps| ==> snaps[i].event in events
  }

  ghost predicate RelayOk(events: map<int, Event>, p: Relay) {
    match p
    case Batch(todo) => SnapsOk(events, todo)
    case Pushed(snap, rest) => snap.event in events && events[snap.event].pushes >= 1 && SnapsOk(events, rest)
    case Claimed(snap, rest) => snap.event in events && SnapsOk(events, rest)
    case Unpushed(snap, rest) => snap.event in events && SnapsOk(events, rest)
  }

  ghost predicate MoverOk(tasks: map<int, T.Task>, p: Mover) {
    match p
    case Moving(todo) => AllSeen(tasks, todo)
    case Removed(id, rest) => Seen(tasks, id) && AllSeen(tasks, rest)
    case Unmoved(id) => Seen(tasks, id)
  }

  ghost predicate CompOk(tasks: map<int, T.Task>, p: Comp) {
    match p
    case Resting => true
    case Due(due) => AllSeen(tasks, due)
    case Suspects(due, suspended, _) => AllSeen(tasks, due) && AllSeen(tasks, suspended)
    case Recovering(todo, cands) => AllSeen(tasks, todo) && AllSeen(tasks, cands)
    case Scheduling(cands, _) => cands != [] && AllSeen(tasks, cands)
  }

  ghost predicate AdminOk(tasks: map<int, T.Task>, p: Admin) {
    p.NoReplay? || (Seen(tasks, p.id) && tasks[p.id].log.reopened >= 1)
  }

  ghost predicate ThreadsOk(w: World) {
    && QueueOk(w.tasks, w.q)
    && (forall i :: 0 <= i < |w.workers| ==> WorkerOk(w.tasks, w.workers[i]))
    && (forall i :: 0 <= i < |w.relays| ==> RelayOk(w.events, w.relays[i]))
    && (forall i :: 0 <= i < |w.movers| ==> MoverOk(w.tasks, w.movers[i]))
    && (forall i :: 0 <= i < |w.comps| ==> CompOk(w.tasks, w.comps[i]))
    && (forall i :: 0 <= i < |w.admins| ==> AdminOk(w.tasks, w.admins[i]))
  }

  /** Workers inside one task: one for a RUNNING row, plus one per recovery that hit a RUNNING row. */
  ghost predicate Bounded(tasks: map<int, T.Task>, ws: seq<Worker>) {
    forall id, busy :: id in tasks ==> InsideCount(ws, id, busy) <= Slack(tasks[id], busy)
  }

  ghost predicate Inv(w: World) {
    && RowsOk(w.tasks)
    && EventsOk(w)
    && AllHaveEvents(w)
    && ThreadsOk(w)
    && Bounded(w.tasks, w.workers)
  }

  /******* Monotonicity *******/

  ghost predicate TasksLater(ts: map<int, T.Task>, ts': map<int, T.Task>) {
    forall id :: id in ts ==> id in ts' && T.Later(ts[id], ts'[id])
  }

  ghost predicate DeliveredKept(w: World, w': World) {
    forall id :: Delivered(w, id) ==> Delivered(w', id)
  }

  /** Events only ever gain rows and pushes. */
  ghost predicate EventsLater(es: map<int, Event>, es': map<int, Event>) {
    forall e :: e in es ==> e in es' && es'[e].task == es[e].task && es[e].pushes <= es'[e].pushes
  }

  lemma QueueLater(ts: map<int, T.Task>, ts': map<int, T.Task>, q: Queue)
    requires TasksLater(ts, ts') && QueueOk(ts, q)
    ensures QueueOk(ts', q)
  {
    assert AllSeen(ts', q.dlq);
    forall i | 0 <= i < |q.ready|
      ensures q.ready[i] in ts'
    {
      var id := q.ready[i];
      assert id in ts;
    }
  }

  /** Unmoved threads and queues stay right as the tables grow. */
  lemma ThreadsLater(w: World, w': World)
    requires ThreadsOk(w) && TasksLater(w.tasks, w'.tasks) && EventsLater(w.events, w'.events)
    requires w'.q == w.q && w'.workers == w.workers && w'.relays == w.relays
    requires w'.movers == w.movers && w'.comps == w.comps && w'.admins == w.admins
    ensures ThreadsOk(w')
  {
    forall i | 0 <= i < |w.comps|
      ensures CompOk(w'.tasks, w.comps[i])
    {
      assert CompOk(w.tasks, w.comps[i]);
    }
    forall i | 0 <= i < |w.movers|
      ensures MoverOk(w'.tasks, w.movers[i])
    {
      assert MoverOk(w.tasks, w.movers[i]);
    }
    forall i | 0 <= i < |w.relays|
      ensures RelayOk(w'.events, w.relays[i])
    {
      assert RelayOk(w.events, w.relays[i]);
    }
    QueueLater(w.tasks, w'.tasks, w.q);
  }

  lemma EventsStayOk(w: World, w': World)
    requires EventsOk(w) && AllHaveEvents(w)
    requires TasksLater(w.tasks, w'.tasks) && w'.tasks.Keys == w.tasks.Keys
    requires DeliveredKept(w, w') && w'.events == w.events
    ensures EventsOk(w') && AllHaveEvents(w')
  {
    forall e | e in w'.events
      ensures EventOk(w', w'.events[e])
    {
      assert EventOk(w, w.events[e]);
    }
  }

  /** A transition on one row. */
  lemma OnTaskLater(w: World, id: int, op: T.Op)
    requires RowsOk(w.tasks)
    requires id in w.tasks && op.MarkSuccess? ==> w.tasks[id].log.okCalls >= 1
    requires id in w.tasks && op.RestoreDead? ==> w.tasks[id].log.reopened >= 1
    ensures RowsOk(OnTask(w, id, op).tasks)
    ensures TasksLater(w.tasks, OnTask(w, id, op).tasks)
    ensures OnTask(w, id, op).tasks.Keys == w.tasks.Keys
  {
    if id in w.tasks {
      T.ApplyKeeps(w.tasks[id], op, w.now);
    }
  }

  lemma {:induction false} InsideUpdate(ws: seq<Worker>, i: nat, x: Worker, id: int, busy: bool)
    requires i < |ws|
    ensures InsideCount(ws[i := x], id, busy)
         == InsideCount(ws, id, busy) - (if Inside(ws[i], id, busy) then 1 else 0) + (if Inside(x, id, busy) then 1 else 0)
    decreases |ws|
  {
    var n := |ws| - 1;
    if i < n {
      InsideUpdate(ws[..n], i, x, id, busy);
      assert ws[i := x][..n] == ws[..n][i := x];
    } else {
      assert ws[i := x][..n] == ws[..n];
    }
  }

  lemma {:induction false} UnmarkedIsOutside(ws: seq<Worker>, i: nat, id: int)
    requires i < |ws|
    ensures InsideCount(ws, id, false) + (if ws[i] == Unmarked(id) then 1 else 0) <= InsideCount(ws, id, true)
    decreases |ws|
  {
    var n := |ws| - 1;
    if i < n {
      UnmarkedIsOutside(ws[..n], i, id);
    } else if n > 0 {
      UnmarkedIsOutside(ws[..n], 0, id);
    }
  }

  /** Worker `i` moves from `p` to `x` while row `id` goes from `t` to `t'`: the bounds follow. */
  predicate Balanced(id: int, t: T.Task, t': T.Task, p: Worker, x: Worker, busy: bool) {
    (if Inside(x, id, busy) then 1 else 0) - (if Inside(p, id, busy) then 1 else 0) <= Slack(t', busy) - Slack(t, busy)
  }

  ghost predicate BalancedAt(w: World, w': World, i: nat, id: int, busy: bool)
    requires i < |w.workers| == |w'.workers| && id in w.tasks && id in w'.tasks
  {
    var p, x, t, t' := w.workers[i], w'.workers[i], w.tasks[id], w'.tasks[id];
    || Balanced(id, t, t', p, x, busy)
    || (!busy && p == Unmarked(id) && x == Idle && Slack(t, true) <= Slack(t', false) + 1)
  }

  lemma BoundedStep(w: World, w': World, i: nat)
    requires Bounded(w.tasks, w.workers)
    requires i < |w.workers| == |w'.workers| && w'.workers == w.workers[i := w'.workers[i]]
    requires w'.tasks.Keys == w.tasks.Keys
    requires forall id, busy :: id in w.tasks ==> BalancedAt(w, w', i, id, busy)
    ensures Bounded(w'.tasks, w'.workers)
  {
    forall id, busy | id in w'.tasks
      ensures InsideCount(w'.workers, id, busy) <= Slack(w'.tasks[id], busy)
    {
      assert BalancedAt(w, w', i, id, busy);
      InsideUpdate(w.workers, i, w'.workers[i], id, busy);
      UnmarkedIsOutside(w.workers, i, id);
      assert InsideCount(w.workers, id, busy) <= Slack(w.tasks[id], busy);
      assert InsideCount(w.workers, id, true) <= Slack(w.tasks[id], true);
    }
  }

  /** Moving one worker changes who holds what only at that worker. */
  lemma HeldAfter(ws: seq<Worker>, i: nat, x: Worker, id: int)
    requires i < |ws| && Held(ws, id)
    ensures Held(ws[i := x], id) || ws[i] == Popped(id)
  {
    var j :| 0 <= j < |ws| && ws[j] == Popped(id);
    if j != i {
      assert ws[i := x][j] == Popped(id);
    }
  }

  /******* Worker steps *******/

  /** A worker step that leaves queues and events alone: row `id` undergoes `op`, worker `i` moves
      to `x`. Ids leave a worker's hands only towards a row that is no longer PENDING or a drop. */
  lemma WorkerRowStep(w: World, i: nat, id: int, op: T.Op, x: Worker)
    requires Inv(w) && i < |w.workers| && id in w.tasks
    requires op.MarkSuccess? ==> w.tasks[id].log.okCalls >= 1
    requires !op.RestoreDead?
    requires w.workers[i].Popped? ==> w.workers[i].id == id && (op.TryMarkRunning? || op.Dropped?)
    requires op.TryMarkRunning? ==> T.CanRun(w.tasks[id])
    requires WorkerOk(OnTask(w, id, op).tasks, x)
    requires var t, t' := w.tasks[id], T.Apply(w.tasks[id], op, w.now);
             && Balanced(id, t, t', w.workers[i], x, true)
             && (Balanced(id, t, t', w.workers[i], x, false) ||
                 (w.workers[i] == Unmarked(id) && x == Idle && Slack(t, true) <= Slack(t', false) + 1))
    requires x.Idle? || x.id == id
    ensures Inv(SetWorker(OnTask(w, id, op), i, x))
  {
    var w1 := OnTask(w, id, op);
    var w' := SetWorker(w1, i, x);
    OnTaskLater(w, id, op);
    ThreadsLater(w, w1);
    assert ThreadsOk(w');
    forall k | Delivered(w, k)
      ensures Delivered(w', k)
    {
      if Held(w.workers, k) {
        HeldAfter(w.workers, i, x, k);
      }
    }
    EventsStayOk(w, w');
    BoundedStep(w, w', i);
  }

  /** A worker step that touches no row. */
  lemma WorkerMoveStep(w: World, i: nat, x: Worker)
    requires Inv(w) && i < |w.workers| && WorkerOk(w.tasks, x)
    requires w.workers[i].Popped? ==> w.workers[i].id in w.tasks && w.tasks[w.workers[i].id].status != T.PENDING
    requires forall id, busy :: Inside(x, id, busy) ==> Inside(w.workers[i], id, busy)
    ensures Inv(SetWorker(w, i, x))
  {
    var w' := SetWorker(w, i, x);
    forall k | Delivered(w, k)
      ensures Delivered(w', k)
    {
      if Held(w.workers, k) {
        HeldAfter(w.workers, i, x, k);
      }
    }
    EventsStayOk(w, w');
    BoundedStep(w, w', i);
  }

  /** A change of the queues that loses no ready entry. */
  lemma QueueStep(w: World, q': Queue)
    requires Inv(w) && QueueOk(w.tasks, q')
    requires forall id :: id in w.q.ready ==> id in q'.ready
    ensures Inv(w.(q := q'))
  {
    EventsStayOk(w, w.(q := q'));
  }

  lemma PopStep(w: World, i: nat)
    requires Inv(w) && i < |w.workers| && w.workers[i].Idle? && w.q.ready != []
    ensures Inv(SetWorker(w.(q := w.q.(ready := w.q.ready[1..])), i, Popped(w.q.ready[0])))
  {
    var id := w.q.ready[0];
    var w' := SetWorker(w.(q := w.q.(ready := w.q.ready[1..])), i, Popped(id));
    assert w'.workers[i] == Popped(id);
    assert Held(w'.workers, id);
    forall k | Delivered(w, k)
      ensures Delivered(w', k)
    {
      if Held(w.workers, k) {
        HeldAfter(w.workers, i, Popped(id), k);
      }
      if k in w.q.ready && k != id {
        assert k in w.q.ready[1..];
      }
    }
    EventsStayOk(w, w');
    BoundedStep(w, w', i);
  }

  lemma WorkerIsOk(w: World, i: nat)
    requires Inv(w) && i < |w.workers|
    ensures WorkerOk(w.tasks, w.workers[i])
  {
  }

  lemma TryRunKeeps(w: World, i: nat)
    requires Inv(w) && i < |w.workers| && w.workers[i].Popped?
    ensures Inv(TryRun(w, i))
  {
    WorkerIsOk(w, i);
    var id := w.workers[i].id;
    if T.CanRun(w.tasks[id]) {
      WorkerRowStep(w, i, id, T.TryMarkRunning, Handling(id));
    } else {
      WorkerMoveStep(w, i, Idle);
    }
  }

  lemma HandlerKeeps(w: World, i: nat, ok: bool)
    requires Inv(w) && CanWork(w, i, Handle(ok))
    ensures Inv(Work(w, i, Handle(ok)))
  {
    WorkerIsOk(w, i);
    var id := w.workers[i].id;
    if ok {
      WorkerRowStep(w, i, id, T.HandlerOk, Handled(id));
    } else {
      WorkerMoveStep(w, i, Errored(id));
    }
  }

  lemma MarkSuccessKeeps(w: World, i: nat, o: Outcome)
    requires Inv(w) && CanWork(w, i, MarkSuccess(o))
    ensures Inv(Work(w, i, MarkSuccess(o)))
  {
    WorkerIsOk(w, i);
    var id := w.workers[i].id;
    if o.Applied() {
      WorkerRowStep(w, i, id, T.MarkSuccess, if o.Done? then Idle else Unmarked(id));
    } else {
      WorkerMoveStep(w, i, Unmarked(id));
    }
  }

  lemma MarkFailedKeeps(w: World, i: nat, o: Outcome)
    requires Inv(w) && i < |w.workers| && w.workers[i].Errored?
    ensures Inv(MarkFailedStep(w, i, o))
  {
    WorkerIsOk(w, i);
    var id := w.workers[i].id;
    var op := T.MarkFailed(w.cfg.retryBackoff);
    if o.Applied() {
      OnTaskLaterHere(w, id, op);
      WorkerRowStep(w, i, id, op, MarkFailedStep(w, i, o).workers[i]);
    } else {
      WorkerMoveStep(w, i, Idle);
    }
  }

  lemma OnTaskLaterHere(w: World, id: int, op: T.Op)
    requires Inv(w) && id in w.tasks && !op.MarkSuccess? && !op.RestoreDead?
    ensures T.Later(w.tasks[id], T.Apply(w.tasks[id], op, w.now))
  {
    OnTaskLater(w, id, op);
  }

  lemma PushDlqStep(w: World, id: int)
    requires Inv(w) && Seen(w.tasks, id)
    ensures Inv(w.(q := w.q.(dlq := w.q.dlq + [id])))
  {
    QueueStep(w, w.q.(dlq := w.q.dlq + [id]));
  }

  lemma AddRetryStep(w: World, id: int, at: int, o: Outcome)
    requires Inv(w) && Seen(w.tasks, id)
    ensures Inv(AddRetry(w, id, at, o))
  {
    QueueStep(w, w.q.(retry := w.q.retry[id := at]));
  }

  lemma WorkerKeeps(w: World, i: nat, a: WorkerAct)
    requires Inv(w) && CanWork(w, i, a)
    ensures Inv(Work(w, i, a))
  {
    hide Inv;
    WorkerIsOk(w, i);
    var p := w.workers[i];
    match a
    case Pop => PopStep(w, i);
    case TryMarkRunning => TryRunKeeps(w, i);
    case Drop => WorkerRowStep(w, i, p.id, T.Dropped, Idle);
    case Handle(ok) => HandlerKeeps(w, i, ok);
    case MarkSuccess(o) => MarkSuccessKeeps(w, i, o);
    case MarkSuspended(o) =>
      if o.Applied() {
        WorkerRowStep(w, i, p.id, T.MarkSuspended, Idle);
      } else {
        WorkerMoveStep(w, i, Idle);
      }
    case MarkFailed(o) => MarkFailedKeeps(w, i, o);
    case PushDlq(o) =>
      if o.Applied() {
        PushDlqStep(w, p.id);
        WorkerMoveStep(w.(q := w.q.(dlq := w.q.dlq + [p.id])), i, Idle);
      } else {
        WorkerMoveStep(w, i, Idle);
      }
    case ScheduleRetry(o) =>
      AddRetryStep(w, p.id, p.at, o);
      WorkerMoveStep(AddRetry(w, p.id, p.at, o), i, Idle);
    case WorkerCrash => WorkerMoveStep(w, i, Idle);
  }

  /******* Relay steps *******/

  /** A relay moves; events may change status or gain pushes, but only pushed ones are PUBLISHED. */
  lemma RelayStep(w: World, w': World, i: nat)
    requires Inv(w) && i < |w.relays| == |w'.relays|
    requires w'.tasks == w.tasks && w'.workers == w.workers && w'.movers == w.movers
    requires w'.comps == w.comps && w'.admins == w.admins
    requires w'.relays == w.relays[i := w'.relays[i]] && RelayOk(w'.events, w'.relays[i])
    requires QueueOk(w'.tasks, w'.q) && w.q.ready <= w'.q.ready
    requires EventsLater(w.events, w'.events) && w'.events.Keys == w.events.Keys
    requires forall e :: e in w.events ==> EventChange(w', w.events[e], w'.events[e])
    ensures Inv(w')
  {
    forall j | 0 <= j < |w'.relays|
      ensures RelayOk(w'.events, w'.relays[j])
    {
      assert j != i ==> RelayOk(w.events, w.relays[j]);
    }
    forall e | e in w'.events
      ensures EventOk(w', w'.events[e])
    {
      var id := w.events[e].task;
      assert EventOk(w, w.events[e]);
      assert EventChange(w', w.events[e], w'.events[e]);
      assert Delivered(w, id) ==> Delivered(w', id);
    }
    forall id | id in w'.tasks
      ensures HasEvent(w'.events, id)
    {
      assert HasEvent(w.events, id);
      var e :| e in w.events && w.events[e].task == id;
      assert e in w'.events;
    }
  }

  ghost predicate EventChange(w': World, x: Event, x': Event) {
    && x'.payload == x.payload && x'.task == x.task
    && (x'.status == SUSPENDED ==> x.status == SUSPENDED)
    && (x'.status == PUBLISHED ==> x'.pushes >= 1)
    && (x'.pushes > x.pushes ==> x.task in w'.q.ready)
  }

  lemma RelayIsOk(w: World, i: nat)
    requires Inv(w) && i < |w.relays|
    ensures RelayOk(w.events, w.relays[i])
  {
  }

  /** The payload written by the creation paths always decodes to its task. */
  lemma TargetIsTask(w: World, e: int)
    requires Inv(w) && e in w.events
    ensures w.events[e].task in w.tasks && Target(w, e) == Some(w.events[e].task)
  {
    assert EventOk(w, w.events[e]);
    Codec.ParseMarshalTaskCreated(w.events[e].task);
  }

  lemma EventFacts(w: World, e: int)
    requires Inv(w) && e in w.events
    ensures EventOk(w, w.events[e])
  {
  }

  lemma QueueFacts(w: World)
    requires Inv(w)
    ensures QueueOk(w.tasks, w.q)
  {
  }

  /** A relay step that rewrites at most one event. */
  lemma RelayEventStep(w: World, i: nat, e: int, x: Event, q: Queue, p: Relay)
    requires Inv(w) && i < |w.relays| && e in w.events
    requires EventChange(w.(q := q), w.events[e], x) && w.events[e].pushes <= x.pushes
    requires QueueOk(w.tasks, q) && w.q.ready <= q.ready
    requires RelayOk(w.events[e := x], p)
    ensures Inv(SetRelay(SetEvent(w.(q := q), e, x), i, p))
  {
    hide Inv;
    forall k | k in w.events { EventFacts(w, k); }
    RelayStep(w, SetRelay(SetEvent(w.(q := q), e, x), i, p), i);
  }

  lemma ClaimKeeps(w: World, i: nat, o: Outcome)
    requires Inv(w) && i < |w.relays| && w.relays[i].Batch? && w.relays[i].todo != []
    ensures Inv(ClaimEvent(w, i, o))
  {
    hide Inv;
    RelayIsOk(w, i);
    QueueFacts(w);
    var e := w.relays[i].todo[0].event;
    EventFacts(w, e);
    var w' := ClaimEvent(w, i, o);
    RelayEventStep(w, i, e, w'.events[e], w.q, w'.relays[i]);
    assert w'.events == w.events[e := w'.events[e]];
  }

  lemma PublishKeeps(w: World, i: nat, o: Outcome)
    requires Inv(w) && i < |w.relays| && w.relays[i].Claimed? && Target(w, w.relays[i].snap.event).Some?
    ensures Inv(Publish(w, i, o))
  {
    hide Inv, Target;
    RelayIsOk(w, i);
    QueueFacts(w);
    var e := w.relays[i].snap.event;
    EventFacts(w, e);
    TargetIsTask(w, e);
    var w' := Publish(w, i, o);
    var id := w.events[e].task;
    assert o.Applied() ==> w'.q.ready == w.q.ready + [id] && w'.q.ready[|w.q.ready|] == id;
    RelayEventStep(w, i, e, w'.events[e], w'.q, w'.relays[i]);
    assert w'.events == w.events[e := w'.events[e]];
  }

  lemma MarkKeeps(w: World, i: nat, x: Event, o: Outcome, rest: seq<Snap>)
    requires Inv(w) && i < |w.relays| && !w.relays[i].Batch? && w.relays[i].rest == rest
    requires var e := w.relays[i].snap.event;
             && (x == EventOr(w, e).(status := PENDING, retryCount := x.retryCount, nextRetryAt := x.nextRetryAt, updatedAt := x.updatedAt)
                 || (x == EventOr(w, e).(status := PUBLISHED, updatedAt := x.updatedAt) && w.relays[i].Pushed?))
    ensures Inv(SetRelay(FromDispatching(w, w.relays[i].snap.event, x, o), i, Batch(rest)))
  {
    hide Inv;
    RelayIsOk(w, i);
    QueueFacts(w);
    var e := w.relays[i].snap.event;
    EventFacts(w, e);
    var w1 := FromDispatching(w, e, x, o);
    RelayEventStep(w, i, e, w1.events[e], w.q, Batch(rest));
    assert w1.events == w.events[e := w1.events[e]];
  }

  lemma RecoverEventsKeeps(w: World, i: nat, batch: seq<int>)
    requires Inv(w) && CanRelay(w, i, RecoverStale(batch))
    ensures Inv(RecoverEvents(w, batch))
  {
    hide Inv, IsScan;
    RelayIsOk(w, i);
    QueueFacts(w);
    var w' := RecoverEvents(w, batch);
    forall e | e in w.events
      ensures EventChange(w', w.events[e], w'.events[e])
    {
      EventFacts(w, e);
    }
    RelayStep(w, w', i);
  }

  lemma RelayMoveStep(w: World, i: nat, x: Relay)
    requires Inv(w) && i < |w.relays| && RelayOk(w.events, x)
    ensures Inv(SetRelay(w, i, x))
  {
    QueueFacts(w);
    forall e | e in w.events { EventFacts(w, e); }
    hide Inv;
    RelayStep(w, SetRelay(w, i, x), i);
  }

  lemma RelayKeeps(w: World, i: nat, a: RelayAct)
    requires Inv(w) && CanRelay(w, i, a)
    ensures Inv(DoRelay(w, i, a))
  {
    hide Inv;
    RelayIsOk(w, i);
    var p := w.relays[i];
    match a
    case RecoverStale(batch) => RecoverEventsKeeps(w, i, batch);
    case ListEvents(batch) => RelayMoveStep(w, i, Batch(Snaps(w, batch)));
    case TryMarkDispatching(o) => ClaimKeeps(w, i, o);
    case PublishReady(o) => PublishKeeps(w, i, o);
    case SuspendEvent(o) => TargetIsTask(w, p.snap.event);
    case MarkPublished(o) =>
      MarkKeeps(w, i, EventOr(w, p.snap.event).(status := PUBLISHED, updatedAt := w.now), o, p.rest);
    case MarkRetry(o) => MarkKeeps(w, i, RetryEvent(w, EventOr(w, p.snap.event), p.snap.retryCount), o, p.rest);
    case RelayCrash => RelayMoveStep(w, i, Batch([]));
  }

  /******* Mover, compensator and replay steps *******/

  lemma MoverIsOk(w: World, i: nat)
    requires Inv(w) && i < |w.movers|
    ensures MoverOk(w.tasks, w.movers[i])
  {
  }

  lemma MoverMoveStep(w: World, i: nat, x: Mover)
    requires Inv(w) && i < |w.movers| && MoverOk(w.tasks, x)
    ensures Inv(SetMover(w, i, x))
  {
    EventsStayOk(w, SetMover(w, i, x));
  }

  lemma PushReadyStep(w: World, id: int, o: Outcome)
    requires Inv(w) && id in w.tasks
    ensures Inv(PushReady(w, id, o))
  {
    QueueStep(w, w.q.(ready := w.q.ready + [id]));
  }

  lemma RetryRemoveStep(w: World, id: int)
    requires Inv(w)
    ensures Inv(w.(q := w.q.(retry := w.q.retry - {id})))
  {
    QueueStep(w, w.q.(retry := w.q.retry - {id}));
  }

  lemma DueRetrySeen(w: World, batch: seq<int>)
    requires Inv(w) && IsScan(DueRetry(w), w.cfg.moverBatch, batch)
    ensures AllSeen(w.tasks, batch)
  {
    QueueFacts(w);
  }

  lemma MoverKeeps(w: World, i: nat, a: MoverAct)
    requires Inv(w) && CanMove(w, i, a)
    ensures Inv(DoMove(w, i, a))
  {
    hide Inv;
    MoverIsOk(w, i);
    var p := w.movers[i];
    match a
    case ListRetry(batch) =>
      DueRetrySeen(w, batch);
      MoverMoveStep(w, i, Moving(batch));
    case RemoveNext(o) =>
      RetryRemoveStep(w, p.todo[0]);
      var w1 := if o.Applied() then w.(q := w.q.(retry := w.q.retry - {p.todo[0]})) else w;
      MoverMoveStep(w1, i, MoveRemove(w, i, o).movers[i]);
    case PushNext(o) =>
      PushReadyStep(w, p.id, o);
      MoverMoveStep(PushReady(w, p.id, o), i, if o.Done? then Moving(p.rest) else Unmoved(p.id));
    case PutBack(o) =>
      AddRetryStep(w, p.id, w.now, o);
      MoverMoveStep(AddRetry(w, p.id, w.now, o), i, Moving([]));
    case MoverCrash => MoverMoveStep(w, i, Moving([]));
  }

  lemma CompIsOk(w: World, i: nat)
    requires Inv(w) && i < |w.comps|
    ensures CompOk(w.tasks, w.comps[i])
  {
  }

  lemma CompMoveStep(w: World, i: nat, x: Comp)
    requires Inv(w) && i < |w.comps| && CompOk(w.tasks, x)
    ensures Inv(SetComp(w, i, x))
  {
    EventsStayOk(w, SetComp(w, i, x));
  }

  /** A row transition made by no worker: recovery or replay. */
  lemma RowStep(w: World, id: int, op: T.Op)
    requires Inv(w) && (op.MarkRecovered? || op.MarkReplayReady? || op.RestoreDead?)
    requires id in w.tasks && op.RestoreDead? ==> w.tasks[id].log.reopened >= 1
    ensures Inv(OnTask(w, id, op))
  {
    var w' := OnTask(w, id, op);
    OnTaskLater(w, id, op);
    ThreadsLater(w, w');
    EventsStayOk(w, w');
    forall k, busy | k in w'.tasks
      ensures InsideCount(w'.workers, k, busy) <= Slack(w'.tasks[k], busy)
    {
      assert InsideCount(w.workers, k, busy) <= Slack(w.tasks[k], busy);
    }
  }

  lemma CompKeeps(w: World, i: nat, a: CompAct)
    requires Inv(w) && CanComp(w, i, a)
    ensures Inv(DoComp(w, i, a))
  {
    hide Inv;
    CompIsOk(w, i);
    var p := w.comps[i];
    match a
    case RecoverNext(o) => RecoverKeeps(w, i, o);
    case Begin => CompMoveStep(w, i, SchedulingOrRest(p.cands, w.now));
    case ScheduleNext(o) =>
      AddRetryStep(w, p.cands[0], p.at, o);
      CompMoveStep(AddRetry(w, p.cands[0], p.at, o), i, SchedulingOrRest(p.cands[1..], p.at));
    case CompCrash => CompMoveStep(w, i, Resting);
    case _ =>
      assert AllSeen(w.tasks, a.batch);
      CompMoveStep(w, i, DoComp(w, i, a).comps[i]);
  }

  lemma RecoverKeeps(w: World, i: nat, o: Outcome)
    requires Inv(w) && i < |w.comps| && w.comps[i].Recovering? && w.comps[i].todo != []
    ensures Inv(Recover(w, i, o))
  {
    hide Inv;
    CompIsOk(w, i);
    var id := w.comps[i].todo[0];
    RowStep(w, id, T.MarkRecovered);
    var w1 := MaybeOnTask(w, id, T.MarkRecovered, o);
    CompIsOk(w1, i);
    CompMoveStep(w1, i, Recover(w, i, o).comps[i]);
  }

  lemma AdminIsOk(w: World, i: nat)
    requires Inv(w) && i < |w.admins|
    ensures AdminOk(w.tasks, w.admins[i])
  {
  }

  lemma AdminMoveStep(w: World, i: nat, x: Admin)
    requires Inv(w) && i < |w.admins| && AdminOk(w.tasks, x)
    ensures Inv(SetAdmin(w, i, x))
  {
    EventsStayOk(w, SetAdmin(w, i, x));
  }

  lemma {:induction false} RemoveFirstSubset(s: seq<int>, x: int)
    ensures forall k :: k in RemoveFirst(s, x) ==> k in s
  {
    if s != [] {
      RemoveFirstSubset(s[1..], x);
    }
  }

  lemma ReplayMoveStep(w: World, id: int)
    requires Inv(w) && id in w.tasks
    ensures Inv(w.(q := w.q.(dlq := RemoveFirst(w.q.dlq, id), ready := w.q.ready + [id])))
  {
    RemoveFirstSubset(w.q.dlq, id);
    var q' := w.q.(dlq := RemoveFirst(w.q.dlq, id), ready := w.q.ready + [id]);
    forall i | 0 <= i < |q'.dlq|
      ensures Seen(w.tasks, q'.dlq[i])
    {
      assert q'.dlq[i] in q'.dlq;
    }
    QueueStep(w, q');
  }

  lemma AdminKeeps(w: World, i: nat, a: AdminAct)
    requires Inv(w) && CanAdmin(w, i, a)
    ensures Inv(DoAdmin(w, i, a))
  {
    hide Inv;
    AdminIsOk(w, i);
    var p := w.admins[i];
    match a
    case Reopen(id, o) =>
      RowStep(w, id, T.MarkReplayReady);
      AdminMoveStep(MaybeOnTask(w, id, T.MarkReplayReady, o), i, ReopenStep(w, i, id, o).admins[i]);
    case MoveFromDlq(o) =>
      ReplayMoveStep(w, p.id);
      var w1 := if o.Applied() && p.id in w.q.dlq
                then w.(q := w.q.(dlq := RemoveFirst(w.q.dlq, p.id), ready := w.q.ready + [p.id])) else w;
      AdminMoveStep(w1, i, ReplayMove(w, i, o).admins[i]);
    case Restore(o) =>
      RowStep(w, p.id, T.RestoreDead);
      AdminMoveStep(MaybeOnTask(w, p.id, T.RestoreDead, o), i, NoReplay);
    case AdminCrash => AdminMoveStep(w, i, NoReplay);
  }

  /******* Creation and time *******/

  lemma EventAdded(w: World, id: int, e: int)
    requires Inv(w) && id in w.tasks && e !in w.events
    ensures Inv(SetEvent(w, e, NewEvent(w, id)))
  {
    FirstEventAdded(w, id, e);
  }

  lemma NobodyInside(w: World, ws: seq<Worker>, id: int, busy: bool)
    requires id !in w.tasks && forall i :: 0 <= i < |ws| ==> WorkerOk(w.tasks, ws[i])
    ensures InsideCount(ws, id, busy) == 0
  {
  }

  /** A new row, momentarily without its event: everything else still holds. */
  lemma RowAdded(w: World, id: int, t: T.Task)
    requires Inv(w) && id !in w.tasks && id > 0 && Codec.IsInt64(id) && T.RowInv(t)
    ensures var w' := w.(tasks := w.tasks[id := t]);
            RowsOk(w'.tasks) && EventsOk(w') && ThreadsOk(w') && Bounded(w'.tasks, w'.workers)
  {
    var w' := w.(tasks := w.tasks[id := t]);
    ThreadsLater(w, w');
    forall k | k in w'.events
      ensures EventOk(w', w'.events[k])
    {
      assert EventOk(w, w.events[k]);
      assert Delivered(w, w.events[k].task) ==> Delivered(w', w.events[k].task);
    }
    forall k, busy | k in w'.tasks
      ensures InsideCount(w'.workers, k, busy) <= Slack(w'.tasks[k], busy)
    {
      if k == id {
        NobodyInside(w, w.workers, id, busy);
      } else {
        assert InsideCount(w.workers, k, busy) <= Slack(w.tasks[k], busy);
      }
    }
  }

  lemma FirstEventAdded(w: World, id: int, e: int)
    requires RowsOk(w.tasks) && EventsOk(w) && ThreadsOk(w) && Bounded(w.tasks, w.workers)
    requires id in w.tasks && e !in w.events
    requires forall k :: k in w.tasks && k != id ==> HasEvent(w.events, k)
    ensures Inv(SetEvent(w, e, NewEvent(w, id)))
  {
    var w' := SetEvent(w, e, NewEvent(w, id));
    ThreadsLater(w, w');
    forall k | k in w'.events
      ensures EventOk(w', w'.events[k])
    {
      if k != e {
        assert EventOk(w, w.events[k]);
        assert Delivered(w, w.events[k].task) ==> Delivered(w', w.events[k].task);
      }
    }
    forall k | k in w'.tasks
      ensures HasEvent(w'.events, k)
    {
      if k == id {
        assert w'.events[e].task == id;
      } else {
        var f :| f in w.events && w.events[f].task == k;
        assert f in w'.events;
      }
    }
  }

  lemma TaskCreated(w: World, id: int, maxRetry: int, e: int)
    requires Inv(w) && id > 0 && Codec.IsInt64(id) && id !in w.tasks && e !in w.events
    ensures Inv(SetEvent(w.(tasks := w.tasks[id := T.New(maxRetry, w.now)]), e, NewEvent(w, id)))
  {
    var w1 := w.(tasks := w.tasks[id := T.New(maxRetry, w.now)]);
    RowAdded(w, id, T.New(maxRetry, w.now));
    FirstEventAdded(w1, id, e);
  }

  lemma TickKeeps(w: World, d: nat)
    requires Inv(w)
    ensures Inv(w.(now := w.now + d))
  {
    EventsStayOk(w, w.(now := w.now + d));
  }

  /******* Every run *******/

  lemma StepKeepsInv(w: World, a: Action)
    requires Inv(w) && Enabled(w, a)
    ensures Inv(Next(w, a))
  {
    hide Inv;
    match a
    case Tick(d) => TickKeeps(w, d);
    case CreateTask(id, maxRetry, e) => TaskCreated(w, id, maxRetry, e);
    case ExtraEvent(id, e) => EventAdded(w, id, e);
    case OfWorker(i, wa) => WorkerKeeps(w, i, wa);
    case OfRelay(i, ra) => RelayKeeps(w, i, ra);
    case OfMover(i, ma) => MoverKeeps(w, i, ma);
    case OfComp(i, ca) => CompKeeps(w, i, ca);
    case OfAdmin(i, aa) => AdminKeeps(w, i, aa);
  }

  lemma {:induction false} RunKeepsInv(w: World, acts: seq<Action>, w': World)
    requires Inv(w) && Run(w, acts, w')
    ensures Inv(w')
    decreases |acts|
  {
    hide Inv, Next, Enabled;
    if acts != [] {
      StepKeepsInv(w, acts[0]);
      RunKeepsInv(Next(w, acts[0]), acts[1..], w');
    }
  }
}
