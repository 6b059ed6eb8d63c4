/** Run-wide guarantees of the delivery pipeline, and where they end. */
module DeliveryTheorems {
  import opened Common
  import T = Tasks
  import opened Delivery
  import opened DeliveryInvariants

  lemma InitialInv(w: World)
    requires Initial(w)
    ensures Inv(w)
  {
    forall id, busy
      ensures id in w.tasks ==> InsideCount(w.workers, id, busy) <= Slack(w.tasks[id], busy)
    {
    }
  }

  lemma ReachableInv(w0: World, acts: seq<Action>, w: World)
    requires Initial(w0) && Run(w0, acts, w)
    ensures Inv(w)
  {
    hide Inv, Run;
    InitialInv(w0);
    RunKeepsInv(w0, acts, w);
  }

  /******* No silent loss *******/

  ghost predicate Undelivered(w: World, id: int) {
    exists e :: e in w.events && w.events[e].task == id && (w.events[e].status == PENDING || w.events[e].status == DISPATCHING)
  }

  /** Somebody can still see that the task has to be done, or how it ended. */
  ghost predicate Visible(w: World, id: int)
    requires id in w.tasks
  {
    match w.tasks[id].status
    case PENDING => Undelivered(w, id) || id in w.q.ready || Held(w.workers, id)
    case FAILED => w.tasks[id].nextRetry.Some?
    case _ => true
  }

  lemma InvVisible(w: World, id: int)
    requires Inv(w) && id in w.tasks
    requires w.tasks[id].log.reopened == 0 && w.tasks[id].log.dropped == 0
    ensures Visible(w, id)
  {
    if w.tasks[id].status == T.PENDING {
      assert HasEvent(w.events, id);
      var e :| e in w.events && w.events[e].task == id;
      assert EventOk(w, w.events[e]);
    }
  }

  /** In every interleaving of all components, with lost, failed and duplicated store operations and
      with crashes, every task is finished, RUNNING or SUSPENDED, FAILED with a retry time, or
      PENDING with an undelivered event, a queued copy or a worker holding its id - unless that very
      task was reopened by hand or an id popped for it never reached `TryMarkRunning`. */
  lemma NoSilentLoss(w0: World, acts: seq<Action>, w: World, id: int)
    requires Initial(w0) && Run(w0, acts, w) && id in w.tasks
    requires w.tasks[id].log.reopened == 0 && w.tasks[id].log.dropped == 0
    ensures Visible(w, id)
  {
    hide Inv, Run;
    ReachableInv(w0, acts, w);
    InvVisible(w, id);
  }

  /******* Accounting *******/

  lemma InvRow(w: World, id: int)
    requires Inv(w) && id in w.tasks
    ensures T.RowInv(w.tasks[id])
    ensures InsideCount(w.workers, id, false) <= Slack(w.tasks[id], false)
  {
  }

  /** In every reachable state, the successful `TryMarkRunning` steps of a task equal its retry count
      plus its effective recoveries plus one if it is RUNNING, SUSPENDED or SUCCESS; and SUCCESS
      implies that some handler call returned nil. */
  lemma RunAccounting(w0: World, acts: seq<Action>, w: World, id: int)
    requires Initial(w0) && Run(w0, acts, w) && id in w.tasks
    ensures var t := w.tasks[id];
            && t.log.runs == t.retryCount + t.log.recovered
                             + (if t.status == T.RUNNING || t.status == T.SUSPENDED || t.status == T.SUCCESS then 1 else 0)
            && (t.status == T.SUCCESS ==> t.log.okCalls >= 1)
            && (t.status == T.PENDING ==> t.log.runs == 0)
  {
    hide Inv, Run;
    ReachableInv(w0, acts, w);
    InvRow(w, id);
  }

  /** With k effective replays of a dead task, one that is not DEAD has failed fewer than
      max_retry + k times and a DEAD one at most that often; with no replay at all, DEAD holds
      exactly when the retry count has reached max_retry. */
  lemma RetryBudget(w0: World, acts: seq<Action>, w: World, id: int)
    requires Initial(w0) && Run(w0, acts, w) && id in w.tasks
    ensures var t := w.tasks[id];
            && t.maxRetry >= 1
            && (t.status != T.DEAD ==> t.retryCount < t.maxRetry + t.log.replayed)
            && (t.status == T.DEAD ==> t.retryCount <= t.maxRetry + t.log.replayed)
            && (t.log.reopened == 0 ==> (t.status == T.DEAD <==> t.retryCount == t.maxRetry))
  {
    hide Inv, Run;
    ReachableInv(w0, acts, w);
    InvRow(w, id);
  }

  /** However often an id is delivered, the workers inside one task's handler never exceed one for a
      RUNNING row plus the recoveries that hit the row while RUNNING. */
  lemma HandlerBound(w0: World, acts: seq<Action>, w: World, id: int)
    requires Initial(w0) && Run(w0, acts, w) && id in w.tasks
    ensures InsideCount(w.workers, id, false)
         <= (if w.tasks[id].status == T.RUNNING then 1 else 0) + w.tasks[id].log.interrupted
    ensures |set i | 0 <= i < |w.workers| && w.workers[i] == Handling(id)|
         <= (if w.tasks[id].status == T.RUNNING then 1 else 0) + w.tasks[id].log.interrupted
  {
    hide Inv, Run;
    ReachableInv(w0, acts, w);
    InvRow(w, id);
    HandlersAreInside(w.workers, id);
  }

  lemma {:induction false} HandlersAreInside(ws: seq<Worker>, id: int)
    ensures |set i | 0 <= i < |ws| && ws[i] == Handling(id)| <= InsideCount(ws, id, false)
    decreases |ws|
  {
    var all := set i | 0 <= i < |ws| && ws[i] == Handling(id);
    if ws == [] {
      assert all == {};
    } else {
      var n := |ws| - 1;
      HandlersAreInside(ws[..n], id);
      var before := set i | 0 <= i < |ws[..n]| && ws[..n][i] == Handling(id);
      assert all == if ws[n] == Handling(id) then before + {n} else before;
    }
  }

  lemma {:induction false} TwoInside(ws: seq<Worker>, i: nat, j: nat, id: int)
    requires i < j < |ws| && Inside(ws[i], id, false) && Inside(ws[j], id, false)
    ensures InsideCount(ws, id, false) >= 2
    decreases |ws|
  {
    var n := |ws| - 1;
    if j < n {
      TwoInside(ws[..n], i, j, id);
    } else {
      OneInside(ws[..n], i, id);
    }
  }

  lemma {:induction false} OneInside(ws: seq<Worker>, i: nat, id: int)
    requires i < |ws| && Inside(ws[i], id, false)
    ensures InsideCount(ws, id, false) >= 1
    decreases |ws|
  {
    if i < |ws| - 1 {
      OneInside(ws[..|ws| - 1], i, id);
    }
  }

  /** So while no recovery interrupted it, a task's handler runs under mutual exclusion. */
  lemma MutualExclusion(w0: World, acts: seq<Action>, w: World, id: int, i: nat, j: nat)
    requires Initial(w0) && Run(w0, acts, w) && id in w.tasks && w.tasks[id].log.interrupted == 0
    requires i < |w.workers| && j < |w.workers| && Inside(w.workers[i], id, false) && Inside(w.workers[j], id, false)
    ensures i == j
  {
    hide Inv, Run;
    HandlerBound(w0, acts, w, id);
    if i < j {
      TwoInside(w.workers, i, j, id);
    } else if j < i {
      TwoInside(w.workers, j, i, id);
    }
  }

  /** Two workers are never in the handler of one task unless a recovery interrupted it. */
  lemma OneHandler(w0: World, acts: seq<Action>, w: World, id: int, i: nat, j: nat)
    requires Initial(w0) && Run(w0, acts, w) && id in w.tasks && w.tasks[id].log.interrupted == 0
    requires i < |w.workers| && j < |w.workers| && w.workers[i] == Handling(id) && w.workers[j] == Handling(id)
    ensures i == j && w.tasks[id].status == T.RUNNING
  {
    hide Inv, Run;
    MutualExclusion(w0, acts, w, id, i, j);
    HandlerBound(w0, acts, w, id);
    OneInside(w.workers, i, id);
  }

  /******* Outbox history and absorbing states *******/

  /** With several relays and stale-dispatch recovery interleaved: a PUBLISHED event had its task id
      pushed to ready at least once, and no event of the creation paths is ever SUSPENDED. */
  lemma OutboxHistory(w0: World, acts: seq<Action>, w: World, e: int)
    requires Initial(w0) && Run(w0, acts, w) && e in w.events
    ensures w.events[e].status == PUBLISHED ==> w.events[e].pushes >= 1
    ensures w.events[e].status != SUSPENDED
    ensures w.events[e].task in w.tasks
  {
    hide Inv, Run;
    ReachableInv(w0, acts, w);
    EventFacts(w, e);
  }

  ghost predicate Settled(w: World, w': World) {
    && TasksLater(w.tasks, w'.tasks)
    && forall e :: e in w.events ==>
         && e in w'.events
         && (w.events[e].status == PUBLISHED ==> w'.events[e].status == PUBLISHED)
         && (w.events[e].status == SUSPENDED ==> w'.events[e].status == SUSPENDED)
  }

  lemma LaterRefl(ts: map<int, T.Task>)
    ensures TasksLater(ts, ts)
  {
  }

  lemma InvRows(w: World)
    requires Inv(w)
    ensures RowsOk(w.tasks)
  {
  }

  lemma WorkerSettles(w: World, i: nat, a: WorkerAct)
    requires Inv(w) && CanWork(w, i, a)
    ensures Settled(w, Work(w, i, a))
  {
    hide Inv;
    InvRows(w);
    WorkerIsOk(w, i);
    LaterRefl(w.tasks);
    var p := w.workers[i];
    match a
    case TryMarkRunning => OnTaskLater(w, p.id, T.TryMarkRunning);
    case Drop => OnTaskLater(w, p.id, T.Dropped);
    case Handle(ok) => OnTaskLater(w, p.id, T.HandlerOk);
    case MarkSuccess(o) => OnTaskLater(w, p.id, T.MarkSuccess);
    case MarkSuspended(o) => OnTaskLater(w, p.id, T.MarkSuspended);
    case MarkFailed(o) => OnTaskLater(w, p.id, T.MarkFailed(w.cfg.retryBackoff));
    case _ =>
  }

  lemma RelaySettles(w: World, i: nat, a: RelayAct)
    requires CanRelay(w, i, a)
    ensures Settled(w, DoRelay(w, i, a))
  {
    LaterRefl(w.tasks);
  }

  lemma MoverSettles(w: World, i: nat, a: MoverAct)
    requires CanMove(w, i, a)
    ensures Settled(w, DoMove(w, i, a))
  {
    LaterRefl(w.tasks);
  }

  lemma CompSettles(w: World, i: nat, a: CompAct)
    requires Inv(w) && CanComp(w, i, a)
    ensures Settled(w, DoComp(w, i, a))
  {
    hide Inv;
    InvRows(w);
    LaterRefl(w.tasks);
    if a.RecoverNext? {
      OnTaskLater(w, w.comps[i].todo[0], T.MarkRecovered);
    }
  }

  lemma AdminSettles(w: World, i: nat, a: AdminAct)
    requires Inv(w) && CanAdmin(w, i, a)
    ensures Settled(w, DoAdmin(w, i, a))
  {
    hide Inv;
    InvRows(w);
    LaterRefl(w.tasks);
    AdminIsOk(w, i);
    match a {
      case Reopen(id, _) => OnTaskLater(w, id, T.MarkReplayReady);
      case Restore(_) => OnTaskLater(w, w.admins[i].id, T.RestoreDead);
      case _ =>
    }
  }

  lemma StepSettles(w: World, a: Action)
    requires Inv(w) && Enabled(w, a)
    ensures Settled(w, Next(w, a))
  {
    hide Inv;
    match a
    case OfWorker(i, wa) => WorkerSettles(w, i, wa);
    case OfRelay(i, ra) => RelaySettles(w, i, ra);
    case OfMover(i, ma) => MoverSettles(w, i, ma);
    case OfComp(i, ca) => CompSettles(w, i, ca);
    case OfAdmin(i, aa) => AdminSettles(w, i, aa);
    case _ => LaterRefl(w.tasks);
  }

  /** SUCCESS of a task, PUBLISHED and SUSPENDED of an event are absorbing over every run, and no
      task ever returns to PENDING. */
  lemma {:induction false} Absorbing(w: World, acts: seq<Action>, w': World)
    requires Inv(w) && Run(w, acts, w')
    ensures Settled(w, w')
    decreases |acts|
  {
    hide Inv, Next, Enabled;
    LaterRefl(w.tasks);
    if acts != [] {
      StepSettles(w, acts[0]);
      StepKeepsInv(w, acts[0]);
      Absorbing(Next(w, acts[0]), acts[1..], w');
    }
  }

  /******* Where no-loss ends: a popped id that is dropped *******/

  /** The compensator is going to schedule this id, whatever the row's status is by then. */
  predicate CompCarries(p: Comp, id: int) {
    match p
    case Resting => false
    case Due(due) => id in due
    case Suspects(due, _, _) => id in due
    case Recovering(_, cands) => id in cands
    case Scheduling(cands, _) => id in cands
  }

  /** The relay is going to push the id of this task. */
  predicate RelayCarries(events: map<int, Event>, p: Relay, id: int) {
    p.Claimed? && p.snap.event in events && events[p.snap.event].task == id
  }

  predicate WorkerCarries(p: Worker, id: int) { (p.Popped? || p.ToRetry?) && p.id == id }
  predicate MoverCarries(p: Mover, id: int) { (p.Removed? || p.Unmoved?) && p.id == id }

  ghost predicate AtWorker(ws: seq<Worker>, id: int) {
    exists i :: 0 <= i < |ws| && WorkerCarries(ws[i], id)
  }

  ghost predicate AtMover(ms: seq<Mover>, id: int) {
    exists i :: 0 <= i < |ms| && MoverCarries(ms[i], id)
  }

  ghost predicate AtComp(cs: seq<Comp>, id: int) {
    exists i :: 0 <= i < |cs| && CompCarries(cs[i], id)
  }

  ghost predicate AtRelay(events: map<int, Event>, rs: seq<Relay>, id: int) {
    exists i :: 0 <= i < |rs| && RelayCarries(events, rs[i], id)
  }

  ghost predicate Reopening(admins: seq<Admin>, id: int) {
    exists i :: 0 <= i < |admins| && admins[i] == Reopened(id)
  }

  ghost predicate Burying(ws: seq<Worker>, id: int) {
    exists i :: 0 <= i < |ws| && ws[i] == ToDlq(id)
  }

  /** A replay call is about to move the id out of the dead-letter list, and it is there or on its way. */
  ghost predicate AtAdmin(w: World, id: int) {
    Reopening(w.admins, id) && (id in w.q.dlq || Burying(w.workers, id))
  }

  /** Some queue or thread has a copy of the id that will reach ready or a worker. */
  ghost predicate Carried(w: World, id: int) {
    || id in w.q.ready || id in w.q.retry
    || AtWorker(w.workers, id) || AtMover(w.movers, id) || AtComp(w.comps, id) || AtRelay(w.events, w.relays, id)
    || AtAdmin(w, id)
  }

  /** No recovery scan sees the row: it is PENDING, or FAILED without a retry time. */
  predicate Unseen(t: T.Task) {
    t.status == T.PENDING || (t.status == T.FAILED && t.nextRetry.None?)
  }

  ghost predicate OutOfHands(w: World, id: int) {
    id in w.tasks && Unseen(w.tasks[id]) && !Carried(w, id)
  }

  /** A PENDING task out of hands with all events published: nothing can hand it out again. */
  ghost predicate Lost(w: World, id: int) {
    OutOfHands(w, id) && w.tasks[id].status == T.PENDING && AllPublished(w, id)
  }

  /** A step of one thread that hands the id to nobody. */
  ghost predicate HandsOff(w: World, w': World, id: int) {
    && id in w.tasks && OutOfHands(w', id) && w'.tasks[id].status == w.tasks[id].status
    && w'.events == w.events && w'.relays == w.relays
  }

  lemma LostWorker(w: World, i: nat, a: WorkerAct, id: int)
    requires OutOfHands(w, id) && CanWork(w, i, a)
    ensures HandsOff(w, Work(w, i, a), id)
  {
    hide AtMover, AtComp, AtRelay, Reopening, Burying;
    var w' := Work(w, i, a);
    assert !WorkerCarries(w.workers[i], id);
    forall j | 0 <= j < |w'.workers|
      ensures !WorkerCarries(w'.workers[j], id)
    {
      assert !WorkerCarries(w.workers[j], id);
    }
    LostWorkerDlq(w, i, a, id);
  }

  lemma LostWorkerDlq(w: World, i: nat, a: WorkerAct, id: int)
    requires OutOfHands(w, id) && CanWork(w, i, a)
    ensures !AtAdmin(Work(w, i, a), id)
  {
    hide AtMover, AtComp, AtRelay, AtWorker, Reopening;
    var w' := Work(w, i, a);
    if Reopening(w.admins, id) {
      assert w.workers[i] != ToDlq(id) && id !in w.q.dlq;
      forall j | 0 <= j < |w'.workers|
        ensures w'.workers[j] != ToDlq(id)
      {
        assert w.workers[j] != ToDlq(id);
      }
    }
  }

  ghost predicate AllPublished(w: World, id: int) {
    forall e :: e in w.events && w.events[e].task == id ==> w.events[e].status == PUBLISHED
  }

  /** A relay cannot bring back a task whose events are all published. */
  lemma PublishedRelay(w: World, i: nat, a: RelayAct, id: int)
    requires Inv(w) && OutOfHands(w, id) && AllPublished(w, id) && CanRelay(w, i, a)
    ensures OutOfHands(DoRelay(w, i, a), id) && AllPublished(DoRelay(w, i, a), id) && DoRelay(w, i, a).tasks == w.tasks
  {
    hide Inv, AtWorker, AtMover, AtComp, Reopening, Burying;
    if a.PublishReady? {
      RelayIsOk(w, i);
      TargetIsTask(w, w.relays[i].snap.event);
      assert !RelayCarries(w.events, w.relays[i], id);
    }
    PublishedRelayClaims(w, i, a, id);
  }

  lemma PublishedRelayClaims(w: World, i: nat, a: RelayAct, id: int)
    requires Inv(w) && OutOfHands(w, id) && AllPublished(w, id) && CanRelay(w, i, a)
    ensures !AtRelay(DoRelay(w, i, a).events, DoRelay(w, i, a).relays, id)
  {
    hide Inv, AtWorker, AtMover, AtComp, IsScan, Reopening, Burying;
    RelayIsOk(w, i);
    var w' := DoRelay(w, i, a);
    forall j | 0 <= j < |w'.relays|
      ensures !RelayCarries(w'.events, w'.relays[j], id)
    {
      assert !RelayCarries(w.events, w.relays[j], id);
    }
  }

  lemma LostMover(w: World, i: nat, a: MoverAct, id: int)
    requires OutOfHands(w, id) && CanMove(w, i, a)
    ensures HandsOff(w, DoMove(w, i, a), id)
  {
    hide AtWorker, AtComp, AtRelay, IsScan, Reopening, Burying;
    var w' := DoMove(w, i, a);
    assert !MoverCarries(w.movers[i], id);
    forall j | 0 <= j < |w'.movers|
      ensures !MoverCarries(w'.movers[j], id)
    {
      assert !MoverCarries(w.movers[j], id);
    }
  }

  lemma LostComp(w: World, i: nat, a: CompAct, id: int)
    requires OutOfHands(w, id) && CanComp(w, i, a)
    ensures HandsOff(w, DoComp(w, i, a), id)
  {
    hide AtWorker, AtMover, AtRelay, Reopening, Burying;
    var w' := DoComp(w, i, a);
    assert !CompCarries(w.comps[i], id);
    forall j | 0 <= j < |w'.comps|
      ensures !CompCarries(w'.comps[j], id)
    {
      assert !CompCarries(w.comps[j], id);
    }
  }

  lemma LostAdmin(w: World, i: nat, a: AdminAct, id: int)
    requires Inv(w) && OutOfHands(w, id) && w.tasks[id].status == T.PENDING && CanAdmin(w, i, a)
    ensures HandsOff(w, DoAdmin(w, i, a), id)
  {
    hide Inv, AtWorker, AtMover, AtComp, AtRelay, Burying;
    AdminIsOk(w, i);
    var w' := DoAdmin(w, i, a);
    forall j | 0 <= j < |w'.admins|
      ensures w'.admins[j] != Reopened(id)
    {
      AdminIsOk(w, j);
    }
  }

  lemma LostStep(w: World, a: Action, id: int)
    requires Inv(w) && Lost(w, id) && Enabled(w, a)
    requires !(a.ExtraEvent? && a.task == id)
    ensures Lost(Next(w, a), id)
  {
    InvThreads(w);
    hide Inv, OutOfHands;
    match a
    case OfWorker(i, wa) => LostWorker(w, i, wa, id);
    case OfRelay(i, ra) => PublishedRelay(w, i, ra, id);
    case OfMover(i, ma) => LostMover(w, i, ma, id);
    case OfComp(i, ca) => LostComp(w, i, ca, id);
    case OfAdmin(i, aa) => LostAdmin(w, i, aa, id);
    case _ => LostOther(w, a, id);
  }

  lemma InvThreads(w: World)
    requires Inv(w)
    ensures ThreadsOk(w)
  {
  }

  lemma LostOther(w: World, a: Action, id: int)
    requires Lost(w, id) && (a.Tick? || a.CreateTask? || a.ExtraEvent?) && Enabled(w, a)
    requires ThreadsOk(w)
    requires !(a.ExtraEvent? && a.task == id)
    ensures Lost(Next(w, a), id)
  {
    hide AtWorker, AtMover, AtComp, Reopening, Burying;
    var w' := Next(w, a);
    forall j | 0 <= j < |w'.relays|
      ensures !RelayCarries(w'.events, w'.relays[j], id)
    {
      assert RelayOk(w.events, w.relays[j]);
      assert !RelayCarries(w.events, w.relays[j], id);
    }
  }

  /** A lost task stays PENDING for ever, whatever relays, workers, movers, compensators and manual
      replays do: the compensator never scans PENDING rows. Only a new event for it helps. */
  lemma {:induction false} LostForever(w: World, acts: seq<Action>, w': World, id: int)
    requires Inv(w) && Lost(w, id) && Run(w, acts, w')
    requires forall k :: 0 <= k < |acts| ==> !(acts[k].ExtraEvent? && acts[k].task == id)
    ensures Lost(w', id)
    decreases |acts|
  {
    hide Inv, Lost, Next, Enabled;
    if acts != [] {
      LostStep(w, acts[0], id);
      StepKeepsInv(w, acts[0]);
      LostForever(Next(w, acts[0]), acts[1..], w', id);
    }
  }

  /** A PENDING id was never scheduled: no retry entry, mover or compensator can carry it. */
  lemma PendingIsUnscheduled(w: World, id: int)
    requires Inv(w) && id in w.tasks && w.tasks[id].status == T.PENDING
    ensures id !in w.q.retry && !AtMover(w.movers, id) && !AtComp(w.comps, id) && !Reopening(w.admins, id)
    ensures forall i :: 0 <= i < |w.workers| && WorkerCarries(w.workers[i], id) ==> w.workers[i] == Popped(id)
  {
    forall i | 0 <= i < |w.movers|
      ensures !MoverCarries(w.movers[i], id)
    {
      MoverIsOk(w, i);
    }
    forall i | 0 <= i < |w.comps|
      ensures !CompCarries(w.comps[i], id)
    {
      CompIsOk(w, i);
    }
    forall i | 0 <= i < |w.admins|
      ensures w.admins[i] != Reopened(id)
    {
      AdminIsOk(w, i);
    }
    forall i | 0 <= i < |w.workers| && WorkerCarries(w.workers[i], id)
      ensures w.workers[i] == Popped(id)
    {
      WorkerIsOk(w, i);
    }
  }

  /** And dropping the last copy does lose the task: whenever its events are all published, nobody
      else holds it, no relay is about to push it and no copy is queued. */
  lemma DroppingTheLastCopyLoses(w: World, i: nat)
    requires Inv(w) && i < |w.workers| && w.workers[i].Popped?
    requires var id := w.workers[i].id;
             && w.tasks[id].status == T.PENDING && id !in w.q.ready && !Undelivered(w, id)
             && (forall j :: 0 <= j < |w.workers| && j != i ==> w.workers[j] != Popped(id))
             && !AtRelay(w.events, w.relays, id)
    ensures Lost(Work(w, i, Drop), w.workers[i].id)
  {
    WorkerIsOk(w, i);
    PendingIsUnscheduled(w, w.workers[i].id);
    forall e | e in w.events && w.events[e].task == w.workers[i].id
      ensures w.events[e].status == PUBLISHED
    {
      EventFacts(w, e);
    }
  }

  /******* Manual replay *******/

  /** `ReplayDLQTask` without faults or interference, as three steps of one caller. */
  ghost function Replay(w: World, i: nat, id: int): World
    requires CanAdmin(w, i, Reopen(id, Done))
  {
    var w1 := DoAdmin(w, i, Reopen(id, Done));
    if w1.admins[i].NoReplay? then w1
    else
      var w2 := DoAdmin(w1, i, MoveFromDlq(Done));
      if w2.admins[i].NoReplay? then w2 else DoAdmin(w2, i, Restore(Done))
  }

  /** A replayed DEAD or FAILED task is put back to work exactly when its id is in the dead-letter
      list. If it is not, the task ends DEAD - a FAILED task that was still waiting for its retry
      included, although its budget was not exhausted. */
  lemma ReplayNeedsTheDlq(w: World, i: nat, id: int)
    requires CanAdmin(w, i, Reopen(id, Done)) && id in w.tasks && T.CanReopen(w.tasks[id])
    ensures var w' := Replay(w, i, id);
            && (id in w.q.dlq <==> w'.tasks[id].status == T.FAILED)
            && (id in w.q.dlq ==> w'.q.ready == w.q.ready + [id] && multiset(w'.q.dlq) == multiset(w.q.dlq) - multiset{id})
            && (id !in w.q.dlq ==> w'.tasks[id].status == T.DEAD && w'.q == w.q)
            && w'.tasks[id].retryCount == w.tasks[id].retryCount
  {
    if id in w.q.dlq {
      RemoveFirstCount(w.q.dlq, id);
    }
  }

  lemma {:induction false} RemoveFirstCount(s: seq<int>, x: int)
    requires x in s
    ensures multiset(RemoveFirst(s, x)) == multiset(s) - multiset{x}
  {
    assert s == [s[0]] + s[1..];
    if s[0] != x {
      RemoveFirstCount(s[1..], x);
    }
  }
}
