/** The delivery components as code: the task and outbox repositories, the queue, and the loops of
    consumer, retry mover, relay, compensator and replay, updating shared stores in place.

    Between any two store operations of a component other threads may take steps (`env`), and any
    operation may fail or lose its reply (`faults`). Every execution is proved to be a run of the
    transition system in `Delivery`, so what is proved there of every run holds of this code. What a
    component achieves when nothing interferes is stated outright. */
module DeliveryService {
  import opened Common
  import Codec
  import T = Tasks
  import opened Delivery
  import opened DeliveryInvariants
  import opened DeliveryTheorems

  /******* Interference *******/

  datatype Me = AWorker(i: nat) | ARelay(i: nat) | AMover(i: nat) | AComp(i: nat) | AnAdmin(i: nat)

  predicate Mine(a: Action, me: Me) {
    match a
    case OfWorker(i, _) => me == AWorker(i)
    case OfRelay(i, _) => me == ARelay(i)
    case OfMover(i, _) => me == AMover(i)
    case OfComp(i, _) => me == AComp(i)
    case OfAdmin(i, _) => me == AnAdmin(i)
    case _ => false
  }

  /** The thread stands where it stood. */
  predicate SamePc(w: World, w': World, me: Me) {
    match me
    case AWorker(i) => i < |w.workers| && i < |w'.workers| && w'.workers[i] == w.workers[i]
    case ARelay(i) => i < |w.relays| && i < |w'.relays| && w'.relays[i] == w.relays[i]
    case AMover(i) => i < |w.movers| && i < |w'.movers| && w'.movers[i] == w.movers[i]
    case AComp(i) => i < |w.comps| && i < |w'.comps| && w'.comps[i] == w.comps[i]
    case AnAdmin(i) => i < |w.admins| && i < |w'.admins| && w'.admins[i] == w.admins[i]
  }

  lemma WorkerLeavesOthers(w: World, i: nat, a: WorkerAct, me: Me)
    requires CanWork(w, i, a) && me != AWorker(i) && SamePc(w, w, me)
    ensures SamePc(w, Work(w, i, a), me) && Work(w, i, a).cfg == w.cfg
  {
    WorkerFrame(w, i, a);
    hide Work;
  }

  lemma WorkerFrame(w: World, i: nat, a: WorkerAct)
    requires CanWork(w, i, a)
    ensures var w' := Work(w, i, a);
            && |w'.workers| == |w.workers| && (forall j :: 0 <= j < |w.workers| && j != i ==> w'.workers[j] == w.workers[j])
            && w'.relays == w.relays && w'.movers == w.movers && w'.comps == w.comps && w'.admins == w.admins && w'.cfg == w.cfg
  {
    hide T.Apply;
  }

  lemma RelayLeavesOthers(w: World, i: nat, a: RelayAct, me: Me)
    requires CanRelay(w, i, a) && me != ARelay(i) && SamePc(w, w, me)
    ensures SamePc(w, DoRelay(w, i, a), me) && DoRelay(w, i, a).cfg == w.cfg
  {
    hide IsScan;
  }

  lemma MoverLeavesOthers(w: World, i: nat, a: MoverAct, me: Me)
    requires CanMove(w, i, a) && me != AMover(i) && SamePc(w, w, me)
    ensures SamePc(w, DoMove(w, i, a), me) && DoMove(w, i, a).cfg == w.cfg
  {
    hide IsScan;
  }

  lemma CompLeavesOthers(w: World, i: nat, a: CompAct, me: Me)
    requires CanComp(w, i, a) && me != AComp(i) && SamePc(w, w, me)
    ensures SamePc(w, DoComp(w, i, a), me) && DoComp(w, i, a).cfg == w.cfg
  {
    hide IsScan;
  }

  lemma AdminLeavesOthers(w: World, i: nat, a: AdminAct, me: Me)
    requires CanAdmin(w, i, a) && me != AnAdmin(i) && SamePc(w, w, me)
    ensures SamePc(w, DoAdmin(w, i, a), me) && DoAdmin(w, i, a).cfg == w.cfg
  {
  }

  lemma OtherStep(w: World, a: Action, me: Me)
    requires Enabled(w, a) && !Mine(a, me) && SamePc(w, w, me)
    ensures SamePc(w, Next(w, a), me) && Next(w, a).cfg == w.cfg
  {
    hide Work, DoRelay, DoMove, DoComp, DoAdmin, CanWork, CanRelay, CanMove, CanComp, CanAdmin;
    match a
    case OfWorker(i, wa) => WorkerLeavesOthers(w, i, wa, me);
    case OfRelay(i, ra) => RelayLeavesOthers(w, i, ra, me);
    case OfMover(i, ma) => MoverLeavesOthers(w, i, ma, me);
    case OfComp(i, ca) => CompLeavesOthers(w, i, ca, me);
    case OfAdmin(i, aa) => AdminLeavesOthers(w, i, aa, me);
    case _ =>
  }

  lemma TargetOfNew(w: World, e: int, id: int)
    requires e in w.events && w.events[e].payload == Codec.StoredTaskCreated(id) && id > 0 && Codec.IsInt64(id)
    ensures Target(w, e) == Some(id)
  {
    Codec.ParseMarshalTaskCreated(id);
  }

  /******* Scans *******/

  method Pick<X>(s: set<X>) returns (x: X)
    requires s != {}
    ensures x in s
  {
    x :| x in s;
  }

  method Least(m: map<int, int>) returns (k: int)
    requires m.Keys != {}
    ensures k in m && forall j :: j in m ==> m[k] <= m[j]
  {
    var rest := m.Keys;
    k := Pick(rest);
    rest := rest - {k};
    while rest != {}
      invariant rest <= m.Keys && k in m
      invariant forall j :: j in m && j !in rest ==> m[k] <= m[j]
      decreases |rest|
    {
      var j := Pick(rest);
      rest := rest - {j};
      if m[j] < m[k] {
        k := j;
      }
    }
  }

  /** `ORDER BY ... LIMIT`. */
  method Scan(m: map<int, int>, limit: nat) returns (out: seq<int>)
    ensures IsScan(m, limit, out)
  {
    out := [];
    var rest := m;
    while |out| < limit && rest.Keys != {}
      invariant |out| <= limit && |rest.Keys| + |out| == |m.Keys|
      invariant forall k :: k in rest <==> k in m && k !in out
      invariant forall k :: k in rest ==> rest[k] == m[k]
      invariant forall i :: 0 <= i < |out| ==> out[i] in m
      invariant forall i, j :: 0 <= i < j < |out| ==> out[i] != out[j] && m[out[i]] <= m[out[j]]
      invariant forall i, k :: 0 <= i < |out| && k in rest ==> m[out[i]] <= m[k]
      decreases |rest.Keys|
    {
      var k := Least(rest);
      out := out + [k];
      rest := rest - {k};
    }
  }

  /******* Components *******/

  class Pipeline {
    const cfg: Config
    var now: int
    var tasks: map<int, T.Task>
    var events: map<int, Event>
    var index: map<(string, string), int>  // unique key on type and business id, for tasks created here
    var ready: seq<int>
    var retry: map<int, int>
    var dlq: seq<int>

    // where every thread stands
    var workers: seq<Worker>
    var relays: seq<Relay>
    var movers: seq<Mover>
    var comps: seq<Comp>
    var admins: seq<Admin>

    // what other threads do in the gaps to come, and how the operations to come end
    var env: seq<seq<Action>>
    var faults: seq<Outcome>

    ghost const origin: World
    ghost var trace: seq<Action>

    function View(): World
      reads this
    {
      World(cfg, now, tasks, events, Queue(ready, retry, dlq), workers, relays, movers, comps, admins)
    }

    /** Everything that happened so far is a run of the transition system. */
    ghost predicate Valid()
      reads this
    {
      Initial(origin) && Run(origin, trace, View())
    }

    /** Nothing interferes from here on. */
    predicate Quiet()
      reads this
    {
      env == [] && faults == []
    }

    constructor (w: World, env: seq<seq<Action>>, faults: seq<Outcome>)
      requires Initial(w)
      ensures Valid() && View() == w && trace == []
    {
      cfg, now, tasks, events := w.cfg, w.now, w.tasks, w.events;
      ready, retry, dlq := w.q.ready, w.q.retry, w.q.dlq;
      workers, relays, movers, comps, admins := w.workers, w.relays, w.movers, w.comps, w.admins;
      this.env, this.faults := env, faults;
      index := map[];
      origin, trace := w, [];
    }

    /** What is proved of every run holds here. */
    lemma Reachable()
      requires Valid()
      ensures Inv(View())
    {
      InitialInv(origin);
      RunKeepsInv(origin, trace, View());
    }

    /** The fields have taken the step `a`. */
    ghost method Record(was: World, a: Action)
      requires Initial(origin) && Run(origin, trace, was) && Enabled(was, a) && View() == Next(was, a)
      modifies this`trace
      ensures Valid() && trace == old(trace) + [a]
    {
      RunSnoc(origin, trace, was, a);
      trace := trace + [a];
    }

    method Fault() returns (o: Outcome)
      modifies this`faults
      ensures old(faults) == [] ==> o == Done && faults == []
    {
      o := Done;
      if faults != [] {
        o := faults[0];
        faults := faults[1..];
      }
    }

    /** A gap between two operations of thread `me`. */
    method Yield(me: Me)
      requires Valid() && SamePc(View(), View(), me)
      modifies this
      ensures Valid() && SamePc(old(View()), View(), me) && faults == old(faults)
      ensures old(env) == [] ==> View() == old(View()) && env == [] && trace == old(trace)
    {
      if env == [] {
        return;
      }
      var acts := env[0];
      env := env[1..];
      var k := 0;
      while k < |acts|
        invariant k <= |acts| && Valid() && SamePc(old(View()), View(), me) && faults == old(faults)
      {
        if !Mine(acts[k], me) && Enabled(View(), acts[k]) {
          TakeStep(acts[k], me);
        }
        k := k + 1;
      }
    }

    /** A step of another thread. */
    method TakeStep(a: Action, me: Me)
      requires Valid() && SamePc(View(), View(), me) && !Mine(a, me) && Enabled(View(), a)
      modifies this
      ensures Valid() && View() == Next(old(View()), a) && SamePc(old(View()), View(), me)
      ensures faults == old(faults) && env == old(env)
    {
      hide Run, Initial, IsScan, Next, Enabled;
      ghost var was := View();
      OtherStep(was, a, me);
      var w := Next(View(), a);
      now, tasks, events := w.now, w.tasks, w.events;
      ready, retry, dlq := w.q.ready, w.q.retry, w.q.dlq;
      workers, relays, movers, comps, admins := w.workers, w.relays, w.movers, w.comps, w.admins;
      Record(was, a);
    }

    /******* Creation *******/

    /** The transaction of `CreateTask`: if the unique index already has the type and business id, its
        task is returned and nothing is written; otherwise the row and its outbox event are, with the
        ids handed out. */
    method CreateTask(taskType: string, bizId: string, id: int, maxRetry: int, event: int) returns (task: int)
      requires Valid() && id > 0 && Codec.IsInt64(id) && id !in tasks && event !in events
      modifies this`tasks, this`events, this`index, this`trace
      ensures Valid() && (taskType, bizId) in index && task == index[(taskType, bizId)]
      ensures (taskType, bizId) in old(index) ==> View() == old(View()) && index == old(index) && trace == old(trace)
      ensures (taskType, bizId) !in old(index) ==>
                && task == id && index == old(index)[(taskType, bizId) := id]
                && trace == old(trace) + [Action.CreateTask(id, maxRetry, event)]
                && id in tasks && tasks == old(tasks)[id := tasks[id]] && tasks[id].status == T.PENDING
                && tasks[id].maxRetry == (if maxRetry > 0 then maxRetry else 5)
                && event in events && events == old(events)[event := events[event]] && events[event].status == PENDING
                && events[event].nextRetryAt == now && Target(View(), event) == Some(id)
    {
      if (taskType, bizId) in index {
        return index[(taskType, bizId)];
      }
      hide Run, Initial, IsScan;
      ghost var was := View();
      var budget := if maxRetry <= 0 then T.DEFAULT_MAX_RETRY else maxRetry;
      tasks := tasks[id := T.Task(T.PENDING, 0, budget, None, now, T.Log(0, 0, 0, 0, 0, 0, 0))];
      events := events[event := Event(id, Codec.StoredTaskCreated(id), PENDING, 0, now, now, 0)];
      TargetOfNew(View(), event, id);
      hide Target;
      index := index[(taskType, bizId) := id];
      Record(was, Action.CreateTask(id, maxRetry, event));
      task := id;
    }

    /******* Consumer *******/

    /** `BLPOP`; not `ok` when the list stays empty until the timeout. */
    method PopReady(i: nat) returns (ok: bool)
      requires Valid() && i < |workers| && workers[i].Idle?
      modifies this`ready, this`workers, this`trace
      ensures Valid() && ok == (old(ready) != [])
      ensures !ok ==> View() == old(View()) && trace == old(trace)
      ensures ok ==>
                && trace == old(trace) + [OfWorker(i, Pop)]
                && View() == SetWorker(old(View()).(q := old(View()).q.(ready := old(ready)[1..])), i, Popped(old(ready)[0]))
    {
      hide Run, Initial, IsScan;
      ok := ready != [];
      if ok {
        ghost var was := View();
        var id := ready[0];
        ready := ready[1..];
        workers := workers[i := Popped(id)];
        Record(was, OfWorker(i, Pop));
      }
    }

    /** The conditional UPDATE to RUNNING. */
    method TryMarkRunning(i: nat) returns (ok: bool)
      requires Valid() && i < |workers| && workers[i].Popped?
      modifies this`tasks, this`workers, this`trace
      ensures Valid() && trace == old(trace) + [OfWorker(i, WorkerAct.TryMarkRunning)]
      ensures View() == TryRun(old(View()), i)
      ensures ok == (old(workers[i].id) in old(tasks) && T.CanRun(old(tasks[workers[i].id])))
    {
      hide Run, Initial, IsScan;
      ghost var was := View();
      var id := workers[i].id;
      ok := id in tasks && (tasks[id].status == T.PENDING || tasks[id].status == T.FAILED);
      if ok {
        var t := tasks[id];
        tasks := tasks[id := t.(status := T.RUNNING, updatedAt := now, log := t.log.(runs := t.log.runs + 1))];
      }
      workers := workers[i := if ok then Handling(id) else Idle];
      Record(was, OfWorker(i, WorkerAct.TryMarkRunning));
    }

    /** The id was popped, but `TryMarkRunning` never reached the database. */
    method Forget(i: nat)
      requires Valid() && i < |workers| && workers[i].Popped?
      modifies this`tasks, this`workers, this`trace
      ensures Valid() && trace == old(trace) + [OfWorker(i, Drop)]
      ensures View() == SetWorker(OnTask(old(View()), old(workers[i].id), T.Dropped), i, Idle)
    {
      hide Run, Initial, IsScan;
      ghost var was := View();
      var id := workers[i].id;
      if id in tasks {
        tasks := tasks[id := tasks[id].(log := tasks[id].log.(dropped := tasks[id].log.dropped + 1))];
      }
      workers := workers[i := Idle];
      Record(was, OfWorker(i, Drop));
    }

    /** The worker returns to its loop with work undone. */
    method Abandon(i: nat)
      requires Valid() && i < |workers| && !workers[i].Popped?
      modifies this`workers, this`trace
      ensures Valid() && trace == old(trace) + [OfWorker(i, WorkerCrash)]
      ensures View() == SetWorker(old(View()), i, Idle)
    {
      hide Run, Initial, IsScan;
      ghost var was := View();
      workers := workers[i := Idle];
      Record(was, OfWorker(i, WorkerCrash));
    }

    method CallHandler(i: nat, ok: bool)
      requires Valid() && i < |workers| && workers[i].Handling?
      modifies this`tasks, this`workers, this`trace
      ensures Valid() && trace == old(trace) + [OfWorker(i, Handle(ok))]
      ensures View() == SetWorker(if ok then OnTask(old(View()), old(workers[i].id), T.HandlerOk) else old(View()), i,
                                    if ok then Handled(old(workers[i].id)) else Errored(old(workers[i].id)))
    {
      hide Run, Initial, IsScan;
      ghost var was := View();
      var id := workers[i].id;
      if ok && id in tasks {
        tasks := tasks[id := tasks[id].(log := tasks[id].log.(okCalls := tasks[id].log.okCalls + 1))];
      }
      workers := workers[i := if ok then Handled(id) else Errored(id)];
      Record(was, OfWorker(i, Handle(ok)));
    }

    method MarkSuccess(i: nat, o: Outcome)
      requires Valid() && i < |workers| && workers[i].Handled?
      modifies this`tasks, this`workers, this`trace
      ensures Valid() && trace == old(trace) + [OfWorker(i, WorkerAct.MarkSuccess(o))]
      ensures View() == SetWorker(MaybeOnTask(old(View()), old(workers[i].id), T.MarkSuccess, o), i,
                                    if o.Done? then Idle else Unmarked(old(workers[i].id)))
    {
      hide Run, Initial, IsScan;
      ghost var was := View();
      var id := workers[i].id;
      if o.Applied() && id in tasks && tasks[id].status == T.RUNNING {
        tasks := tasks[id := tasks[id].(status := T.SUCCESS, nextRetry := None, updatedAt := now)];
      }
      workers := workers[i := if o.Done? then Idle else Unmarked(id)];
      assert View().tasks == Next(was, OfWorker(i, WorkerAct.MarkSuccess(o))).tasks;
      Record(was, OfWorker(i, WorkerAct.MarkSuccess(o)));
    }

    method MarkSuspended(i: nat, o: Outcome)
      requires Valid() && i < |workers| && workers[i].Unmarked?
      modifies this`tasks, this`workers, this`trace
      ensures Valid() && trace == old(trace) + [OfWorker(i, WorkerAct.MarkSuspended(o))]
      ensures View() == SetWorker(MaybeOnTask(old(View()), old(workers[i].id), T.MarkSuspended, o), i, Idle)
    {
      hide Run, Initial, IsScan;
      ghost var was := View();
      var id := workers[i].id;
      if o.Applied() && id in tasks && tasks[id].status == T.RUNNING {
        tasks := tasks[id := tasks[id].(status := T.SUSPENDED, nextRetry := None, updatedAt := now)];
      }
      workers := workers[i := Idle];
      assert View().tasks == Next(was, OfWorker(i, WorkerAct.MarkSuspended(o))).tasks;
      Record(was, OfWorker(i, WorkerAct.MarkSuspended(o)));
    }

    /** The transaction that counts a failure: DEAD when the budget is used up, FAILED with a retry
        time otherwise; a row that is no longer RUNNING is left alone. */
    method MarkFailed(i: nat, o: Outcome)
      requires Valid() && i < |workers| && workers[i].Errored?
      modifies this`tasks, this`workers, this`trace
      ensures Valid() && trace == old(trace) + [OfWorker(i, WorkerAct.MarkFailed(o))]
      ensures View() == MarkFailedStep(old(View()), i, o)
    {
      hide Run, Initial, IsScan, T.Backoff;
      ghost var was := View();
      var id := workers[i].id;
      var next := Idle;
      if id in tasks && tasks[id].status == T.RUNNING {
        var t := tasks[id];
        var count := t.retryCount + 1;
        if count >= t.maxRetry {
          t := t.(status := T.DEAD, retryCount := count, nextRetry := None, updatedAt := now);
          next := ToDlq(id);
        } else {
          var at := now + T.Backoff(count, cfg.retryBackoff);
          t := t.(status := T.FAILED, retryCount := count, nextRetry := Some(at), updatedAt := now);
          next := ToRetry(id, at);
        }
        if o.Applied() {
          tasks := tasks[id := t];
        }
      }
      workers := workers[i := if o.Done? then next else Idle];
      assert View().tasks == Next(was, OfWorker(i, WorkerAct.MarkFailed(o))).tasks;
      Record(was, OfWorker(i, WorkerAct.MarkFailed(o)));
    }

    method PushDlq(i: nat, o: Outcome)
      requires Valid() && i < |workers| && workers[i].ToDlq?
      modifies this`dlq, this`workers, this`trace
      ensures Valid() && trace == old(trace) + [OfWorker(i, WorkerAct.PushDlq(o))]
      ensures View() == SetWorker(old(View()).(q := old(View()).q.(dlq := if o.Applied() then old(dlq) + [old(workers[i].id)] else old(dlq))), i, Idle)
    {
      hide Run, Initial, IsScan;
      ghost var was := View();
      if o.Applied() {
        dlq := dlq + [workers[i].id];
      }
      workers := workers[i := Idle];
      Record(was, OfWorker(i, WorkerAct.PushDlq(o)));
    }

    method ScheduleRetry(i: nat, o: Outcome)
      requires Valid() && i < |workers| && workers[i].ToRetry?
      modifies this`retry, this`workers, this`trace
      ensures Valid() && trace == old(trace) + [OfWorker(i, WorkerAct.ScheduleRetry(o))]
      ensures View() == SetWorker(AddRetry(old(View()), old(workers[i].id), old(workers[i].at), o), i, Idle)
    {
      hide Run, Initial, IsScan;
      ghost var was := View();
      if o.Applied() {
        retry := retry[workers[i].id := workers[i].at];
      }
      workers := workers[i := Idle];
      Record(was, OfWorker(i, WorkerAct.ScheduleRetry(o)));
    }

    method Bury(i: nat)
      requires Valid() && i < |workers| && workers[i].ToDlq?
      modifies this
      ensures Valid() && i < |workers| && workers[i].Idle?
      ensures old(Quiet()) ==> Quiet() && View() == AfterMarkFailed(old(View()), i)
    {
      hide Run, Initial, IsScan, Next, Enabled;
      Yield(AWorker(i));
      var o := Fault();
      PushDlq(i, o);
    }

    method Postpone(i: nat)
      requires Valid() && i < |workers| && workers[i].ToRetry?
      modifies this
      ensures Valid() && i < |workers| && workers[i].Idle?
      ensures old(Quiet()) ==> Quiet() && View() == AfterMarkFailed(old(View()), i)
    {
      hide Run, Initial, IsScan, Next, Enabled;
      Yield(AWorker(i));
      var o := Fault();
      ScheduleRetry(i, o);
    }

    /** After a failed handler. */
    method FinishFailure(i: nat)
      requires Valid() && i < |workers| && workers[i].Errored?
      modifies this
      ensures Valid() && i < |workers| && workers[i].Idle?
      ensures old(Quiet()) ==> Quiet() && View() == AfterFailure(old(View()), i)
    {
      hide Run, Initial, IsScan, Next, Enabled, T.Apply;
      var o := Fault();
      MarkFailed(i, o);
      if workers[i].ToDlq? {
        Bury(i);
      } else if workers[i].ToRetry? {
        Postpone(i);
      }
    }

    /** After a handler that returned nil. */
    method FinishSuccess(i: nat)
      requires Valid() && i < |workers| && workers[i].Handled?
      modifies this
      ensures Valid() && i < |workers| && workers[i].Idle?
      ensures old(Quiet()) ==> Quiet() && View() == AfterSuccess(old(View()), i)
    {
      hide Run, Initial, IsScan, Next, Enabled, T.Apply;
      var o := Fault();
      MarkSuccess(i, o);
      if !o.Done? {
        Yield(AWorker(i));
        o := Fault();
        MarkSuspended(i, o);
      }
    }

    method Execute(i: nat, handlerOk: bool)
      requires Valid() && i < |workers| && workers[i].Handling?
      modifies this
      ensures Valid() && i < |workers| && workers[i].Idle?
      ensures old(Quiet()) ==> Quiet() && View() == AfterHandler(old(View()), i, handlerOk)
    {
      hide Run, Initial, IsScan, Next, Enabled, T.Apply, AfterFailure, AfterSuccess;
      Yield(AWorker(i));
      CallHandler(i, handlerOk);
      Yield(AWorker(i));
      if handlerOk {
        FinishSuccess(i);
      } else {
        FinishFailure(i);
      }
    }

    /** `consumeTask` for the id the worker has popped. */
    method ConsumeTask(i: nat, handlerOk: bool)
      requires Valid() && i < |workers| && workers[i].Popped?
      modifies this
      ensures Valid() && i < |workers| && workers[i].Idle?
      ensures old(Quiet()) ==> Quiet() && View() == AfterConsume(old(View()), i, handlerOk)
    {
      hide Run, Initial, IsScan, Next, Enabled, T.Apply, AfterHandler;
      var o := Fault();
      if o.Failed? {
        Forget(i);
        return;
      }
      var ok := TryMarkRunning(i);
      if !ok {
        return;
      }
      if o.Lost? {
        Abandon(i);
        return;
      }
      Execute(i, handlerOk);
    }

    /******* Retry mover *******/

    /** `ZRANGEBYSCORE` up to now. */
    method ListRetry(i: nat) returns (ids: seq<int>)
      requires Valid() && i < |movers| && movers[i] == Moving([])
      modifies this`movers, this`trace
      ensures Valid() && trace == old(trace) + [OfMover(i, MoverAct.ListRetry(ids))]
      ensures IsScan(DueRetry(old(View())), cfg.moverBatch, ids) && View() == SetMover(old(View()), i, Moving(ids))
      ensures forall id :: id in ids ==> id in retry && retry[id] <= now
      ensures |ids| < cfg.moverBatch ==> forall id :: id in retry && retry[id] <= now ==> id in ids
    {
      hide Run, Initial, IsScan, DueRetry;
      ghost var was := View();
      ids := Scan(DueRetry(View()), cfg.moverBatch);
      DueRetryFound(was, cfg.moverBatch, ids);
      movers := movers[i := Moving(ids)];
      Record(was, OfMover(i, MoverAct.ListRetry(ids)));
    }

    /** `ZREM`. */
    method RemoveNext(i: nat, o: Outcome) returns (removed: bool)
      requires Valid() && i < |movers| && movers[i].Moving? && movers[i].todo != []
      modifies this`retry, this`movers, this`trace
      ensures Valid() && trace == old(trace) + [OfMover(i, MoverAct.RemoveNext(o))]
      ensures View() == MoveRemove(old(View()), i, o) && removed == (old(movers[i].todo)[0] in old(retry))
    {
      hide Run, Initial, IsScan;
      ghost var was := View();
      var id, rest := movers[i].todo[0], movers[i].todo[1..];
      removed := id in retry;
      if o.Applied() {
        retry := retry - {id};
      }
      movers := movers[i := if !o.Done? then Moving([]) else if removed then Removed(id, rest) else Moving(rest)];
      Record(was, OfMover(i, MoverAct.RemoveNext(o)));
    }

    /** `RPUSH`. */
    method PushNext(i: nat, o: Outcome)
      requires Valid() && i < |movers| && movers[i].Removed?
      modifies this`ready, this`movers, this`trace
      ensures Valid() && trace == old(trace) + [OfMover(i, MoverAct.PushNext(o))]
      ensures View() == SetMover(PushReady(old(View()), old(movers[i].id), o), i,
                                 if o.Done? then Moving(old(movers[i].rest)) else Unmoved(old(movers[i].id)))
    {
      hide Run, Initial, IsScan;
      ghost var was := View();
      var id, rest := movers[i].id, movers[i].rest;
      if o.Applied() {
        ready := ready + [id];
      }
      movers := movers[i := if o.Done? then Moving(rest) else Unmoved(id)];
      Record(was, OfMover(i, MoverAct.PushNext(o)));
    }

    /** `ZADD` of an id that could not be pushed. */
    method PutBack(i: nat, o: Outcome)
      requires Valid() && i < |movers| && movers[i].Unmoved?
      modifies this`retry, this`movers, this`trace
      ensures Valid() && trace == old(trace) + [OfMover(i, MoverAct.PutBack(o))]
      ensures View() == SetMover(AddRetry(old(View()), old(movers[i].id), old(now), o), i, Moving([]))
    {
      hide Run, Initial, IsScan;
      ghost var was := View();
      if o.Applied() {
        retry := retry[movers[i].id := now];
      }
      movers := movers[i := Moving([])];
      Record(was, OfMover(i, MoverAct.PutBack(o)));
    }

    /** One entry of the batch; `ok` unless the move has to stop here. */
    method MoveOne(i: nat) returns (ok: bool, moved: bool)
      requires Valid() && i < |movers| && movers[i].Moving? && movers[i].todo != []
      modifies this
      ensures Valid() && i < |movers| && movers[i] == Moving(if ok then old(movers[i].todo)[1..] else [])
      ensures old(Quiet()) ==>
                Quiet() && ok && moved == (old(movers[i].todo)[0] in old(retry)) && View() == AfterMoveOne(old(View()), i)
    {
      hide Run, Initial, IsScan, Next, Enabled;
      Yield(AMover(i));
      var o := Fault();
      moved := RemoveNext(i, o);
      if !o.Done? || !moved {
        return o.Done?, false;
      }
      ok := FinishMove(i);
      moved := ok;
    }

    /** The second half: push the removed id, or put it back and stop. */
    method FinishMove(i: nat) returns (ok: bool)
      requires Valid() && i < |movers| && movers[i].Removed?
      modifies this
      ensures Valid() && i < |movers| && movers[i] == Moving(if ok then old(movers[i].rest) else [])
      ensures old(Quiet()) ==>
                && Quiet() && ok
                && View() == SetMover(PushReady(old(View()), old(movers[i].id), Done), i, Moving(old(movers[i].rest)))
    {
      hide Run, Initial, IsScan, Next, Enabled;
      Yield(AMover(i));
      var o := Fault();
      PushNext(i, o);
      if !o.Done? {
        Yield(AMover(i));
        o := Fault();
        PutBack(i, o);
        return false;
      }
      return true;
    }

    /** `MoveDueRetryToReady`. Undisturbed, exactly the scanned entries leave the retry set and reach
        the end of ready, in order, and their number is reported. */
    method MoveDueRetryToReady(i: nat) returns (moved: nat, ids: seq<int>)
      requires Valid() && i < |movers| && movers[i] == Moving([])
      modifies this
      ensures Valid() && i < |movers| && movers[i] == Moving([]) && moved <= |ids|
      ensures old(Quiet()) ==>
                && Quiet() && IsScan(DueRetry(old(View())), cfg.moverBatch, ids) && moved == |ids|
                && View() == old(View()).(q := Queue(old(ready) + ids, old(retry) - Elems(ids), old(dlq)))
    {
      hide Run, Initial, Next, Enabled;
      ghost var w, quiet := View(), Quiet();
      ids := ListRetry(i);
      ghost var found := IsScan(DueRetry(w), cfg.moverBatch, ids) && DistinctKeys(ids, w.q.retry);
      assert quiet ==> found;
      hide IsScan;
      moved := 0;
      var k := 0;
      while k < |ids|
        invariant k <= |ids| && moved <= k && Valid() && i < |movers| && movers[i] == Moving(ids[k..])
        invariant quiet ==> Quiet() && moved == k && View() == MovedSoFar(w, i, ids, k)
      {
        ghost var before := View();
        var ok, one := MoveOne(i);
        if !ok {
          return;
        }
        assert ids[k..][1..] == ids[k + 1..];
        if quiet {
          MovedOneMore(w, i, ids, k);
        }
        if one {
          moved := moved + 1;
        }
        k := k + 1;
      }
      assert ids[..k] == ids && ids[k..] == [];
      assert w.movers[i := Moving([])] == w.movers;
    }

    /******* Manual replay *******/

    method MarkReplayReady(i: nat, id: int, o: Outcome) returns (found: bool, replayable: bool)
      requires Valid() && i < |admins| && admins[i].NoReplay?
      modifies this`tasks, this`admins, this`trace
      ensures Valid() && trace == old(trace) + [OfAdmin(i, Reopen(id, o))]
      ensures View() == ReopenStep(old(View()), i, id, o)
      ensures found == (id in old(tasks)) && replayable == (found && T.CanReopen(old(tasks)[id]))
    {
      hide Run, Initial, IsScan;
      ghost var was := View();
      found := id in tasks;
      replayable := found && (tasks[id].status == T.DEAD || tasks[id].status == T.FAILED);
      if o.Applied() && replayable {
        var t := tasks[id];
        var log := t.log.(reopened := t.log.reopened + 1, replayed := t.log.replayed + (if t.status == T.DEAD then 1 else 0));
        tasks := tasks[id := t.(status := T.FAILED, nextRetry := None, updatedAt := now, log := log)];
      }
      admins := admins[i := if o.Done? && replayable then Reopened(id) else NoReplay];
      assert View().tasks == Next(was, OfAdmin(i, Reopen(id, o))).tasks;
      Record(was, OfAdmin(i, Reopen(id, o)));
    }

    /** The script that moves an id from the dead-letter list to ready. */
    method ReplayFromDLQ(i: nat, o: Outcome) returns (moved: bool)
      requires Valid() && i < |admins| && admins[i].Reopened?
      modifies this`ready, this`dlq, this`admins, this`trace
      ensures Valid() && trace == old(trace) + [OfAdmin(i, MoveFromDlq(o))]
      ensures View() == ReplayMove(old(View()), i, o) && moved == (old(admins[i].id) in old(dlq))
    {
      hide Run, Initial, IsScan;
      ghost var was := View();
      var id := admins[i].id;
      moved := id in dlq;
      if o.Applied() && moved {
        dlq := RemoveFirst(dlq, id);
        ready := ready + [id];
      }
      admins := admins[i := if o.Done? && moved then NoReplay else Restoring(id)];
      Record(was, OfAdmin(i, MoveFromDlq(o)));
    }

    method RestoreDead(i: nat, o: Outcome)
      requires Valid() && i < |admins| && admins[i].Restoring?
      modifies this`tasks, this`admins, this`trace
      ensures Valid() && trace == old(trace) + [OfAdmin(i, Restore(o))]
      ensures View() == SetAdmin(MaybeOnTask(old(View()), old(admins[i].id), T.RestoreDead, o), i, NoReplay)
    {
      hide Run, Initial, IsScan;
      ghost var was := View();
      var id := admins[i].id;
      if o.Applied() && id in tasks && tasks[id].status == T.FAILED {
        tasks := tasks[id := tasks[id].(status := T.DEAD, updatedAt := now)];
      }
      admins := admins[i := NoReplay];
      assert View().tasks == Next(was, OfAdmin(i, Restore(o))).tasks;
      Record(was, OfAdmin(i, Restore(o)));
    }

    /** `ReplayDLQTask`. */
    method ReplayDLQTask(i: nat, id: int) returns (r: ReplayReply)
      requires Valid() && i < |admins| && admins[i].NoReplay?
      modifies this
      ensures Valid() && i < |admins| && admins[i].NoReplay?
      ensures old(Quiet()) ==>
                && Quiet() && r == ReplayResult(old(View()), id)
                && View() == if id <= 0 then old(View()) else Replay(old(View()), i, id)
    {
      hide Run, Initial, IsScan, Next, Enabled, AfterReopen, Replay;
      ReplayIs(View(), i, id);
      if id <= 0 {
        return BadTaskId;
      }
      var o := Fault();
      var found, replayable := MarkReplayReady(i, id, o);
      if !o.Done? {
        return StoreTrouble;
      }
      if !replayable {
        return if found then NotReplayable else NoSuchTask;
      }
      r := MoveOrRestore(i);
    }

    /** The move of a reopened task, and the fallback write when it does not happen. */
    method MoveOrRestore(i: nat) returns (r: ReplayReply)
      requires Valid() && i < |admins| && admins[i].Reopened?
      modifies this
      ensures Valid() && i < |admins| && admins[i].NoReplay?
      ensures old(Quiet()) ==>
                && Quiet() && r == (if old(admins[i].id) in old(dlq) then Replayed else NotInDlq)
                && View() == AfterReopen(old(View()), i)
    {
      hide Run, Initial, IsScan, Next, Enabled, T.Apply;
      Yield(AnAdmin(i));
      var o := Fault();
      var moved := ReplayFromDLQ(i, o);
      if !o.Done? || !moved {
        FallBack(i);
        return if o.Done? then NotInDlq else StoreTrouble;
      }
      r := Replayed;
    }

    method FallBack(i: nat)
      requires Valid() && i < |admins| && admins[i].Restoring?
      modifies this
      ensures Valid() && i < |admins| && admins[i].NoReplay?
      ensures old(Quiet()) ==>
                Quiet() && View() == SetAdmin(OnTask(old(View()), old(admins[i].id), T.RestoreDead), i, NoReplay)
    {
      hide Run, Initial, IsScan, Next, Enabled, T.Apply;
      Yield(AnAdmin(i));
      var o := Fault();
      RestoreDead(i, o);
    }

    /******* Relay *******/

    /** The UPDATE that takes stale DISPATCHING events back to PENDING. */
    method RecoverStaleDispatching(i: nat) returns (batch: seq<int>)
      requires Valid() && i < |relays| && relays[i] == Batch([])
      modifies this`events, this`trace
      ensures Valid() && trace == old(trace) + [OfRelay(i, RecoverStale(batch))]
      ensures IsScan(StaleDispatching(old(View())), cfg.relayBatch, batch) && View() == RecoverEvents(old(View()), batch)
      ensures forall e :: e in batch ==>
                e in old(events) && old(events)[e].status == DISPATCHING && old(events)[e].updatedAt <= now - cfg.dispatchTimeout
                && e in events && events[e] == old(events)[e].(status := PENDING, updatedAt := now)
      ensures |batch| < cfg.relayBatch ==>
                forall e :: e in old(events) && old(events)[e].status == DISPATCHING && old(events)[e].updatedAt <= now - cfg.dispatchTimeout
                            ==> e in batch
      ensures forall e :: e in old(events) && e !in batch ==> e in events && events[e] == old(events)[e]
    {
      hide Run, Initial, IsScan, StaleDispatching;
      ghost var was := View();
      batch := Scan(StaleDispatching(View()), cfg.relayBatch);
      StaleDispatchingFound(was, cfg.relayBatch, batch);
      events := map e | e in events :: if e in batch then events[e].(status := PENDING, updatedAt := now) else events[e];
      Record(was, OfRelay(i, RecoverStale(batch)));
    }

    method ListDispatchable(i: nat) returns (batch: seq<int>)
      requires Valid() && i < |relays| && relays[i] == Batch([])
      modifies this`relays, this`trace
      ensures Valid() && trace == old(trace) + [OfRelay(i, ListEvents(batch))]
      ensures IsScan(Dispatchable(old(View())), cfg.relayBatch, batch)
      ensures View() == SetRelay(old(View()), i, Batch(Snaps(old(View()), batch)))
      ensures forall e :: e in batch ==> e in events && events[e].status == PENDING && events[e].nextRetryAt <= now
      ensures |batch| < cfg.relayBatch ==> forall e :: e in events && events[e].status == PENDING && events[e].nextRetryAt <= now ==> e in batch
      ensures forall j, k :: 0 <= j < k < |batch| ==> batch[j] < batch[k]
    {
      hide Run, Initial, IsScan, Dispatchable;
      ghost var was := View();
      batch := Scan(Dispatchable(View()), cfg.relayBatch);
      DispatchableFound(was, cfg.relayBatch, batch);
      relays := relays[i := Batch(Snaps(View(), batch))];
      Record(was, OfRelay(i, ListEvents(batch)));
    }

    method TryMarkDispatching(i: nat, o: Outcome)
      requires Valid() && i < |relays| && relays[i].Batch? && relays[i].todo != []
      modifies this`events, this`relays, this`trace
      ensures Valid() && trace == old(trace) + [OfRelay(i, RelayAct.TryMarkDispatching(o))]
      ensures View() == ClaimEvent(old(View()), i, o)
    {
      hide Run, Initial, IsScan;
      ghost var was := View();
      var snap, rest := relays[i].todo[0], relays[i].todo[1..];
      var ok := snap.event in events && events[snap.event].status == PENDING;
      if o.Applied() && ok {
        events := events[snap.event := events[snap.event].(status := DISPATCHING, updatedAt := now)];
      }
      relays := relays[i := if !o.Done? then Batch([]) else if ok then Claimed(snap, rest) else Batch(rest)];
      Record(was, OfRelay(i, RelayAct.TryMarkDispatching(o)));
    }

    method PublishReady(i: nat, o: Outcome)
      requires Valid() && i < |relays| && relays[i].Claimed? && Target(View(), relays[i].snap.event).Some?
      modifies this`events, this`ready, this`relays, this`trace
      ensures Valid() && trace == old(trace) + [OfRelay(i, RelayAct.PublishReady(o))]
      ensures View() == Publish(old(View()), i, o)
    {
      hide Run, Initial, IsScan, Codec.ParseTaskCreated;
      ghost var was := View();
      var snap, rest := relays[i].snap, relays[i].rest;
      if o.Applied() {
        ready := ready + [Target(View(), snap.event).value];
        events := events[snap.event := events[snap.event].(pushes := events[snap.event].pushes + 1)];
      }
      relays := relays[i := if o.Done? then Pushed(snap, rest) else Unpushed(snap, rest)];
      Record(was, OfRelay(i, RelayAct.PublishReady(o)));
    }

    method SuspendEvent(i: nat, o: Outcome)
      requires Valid() && i < |relays| && relays[i].Claimed? && Target(View(), relays[i].snap.event).None?
      modifies this`events, this`relays, this`trace
      ensures Valid() && trace == old(trace) + [OfRelay(i, RelayAct.SuspendEvent(o))]
      ensures View() == Next(old(View()), OfRelay(i, RelayAct.SuspendEvent(o)))
    {
      hide Run, Initial, IsScan;
      ghost var was := View();
      var e := relays[i].snap.event;
      if o.Applied() && e in events && (events[e].status == PENDING || events[e].status == DISPATCHING) {
        events := events[e := events[e].(status := SUSPENDED, updatedAt := now)];
      }
      relays := relays[i := Batch(relays[i].rest)];
      Record(was, OfRelay(i, RelayAct.SuspendEvent(o)));
    }

    method MarkPublished(i: nat, o: Outcome)
      requires Valid() && i < |relays| && relays[i].Pushed?
      modifies this`events, this`relays, this`trace
      ensures Valid() && trace == old(trace) + [OfRelay(i, RelayAct.MarkPublished(o))]
      ensures View() == AfterMarkPublished(old(View()), i, o)
    {
      hide Run, Initial, IsScan;
      ghost var was := View();
      var e := relays[i].snap.event;
      if o.Applied() && e in events && events[e].status == DISPATCHING {
        events := events[e := events[e].(status := PUBLISHED, updatedAt := now)];
      }
      relays := relays[i := Batch(relays[i].rest)];
      Record(was, OfRelay(i, RelayAct.MarkPublished(o)));
    }

    method MarkRetry(i: nat, o: Outcome)
      requires Valid() && i < |relays| && relays[i].Unpushed?
      modifies this`events, this`relays, this`trace
      ensures Valid() && trace == old(trace) + [OfRelay(i, RelayAct.MarkRetry(o))]
      ensures View() == AfterMarkRetry(old(View()), i, o)
    {
      hide Run, Initial, IsScan;
      ghost var was := View();
      var snap := relays[i].snap;
      if o.Applied() && snap.event in events && events[snap.event].status == DISPATCHING {
        var x := events[snap.event];
        events := events[snap.event := x.(status := PENDING, retryCount := x.retryCount + 1,
                                          nextRetryAt := now + RelayBackoff(snap.retryCount, cfg.relayBackoff), updatedAt := now)];
      }
      relays := relays[i := Batch(relays[i].rest)];
      Record(was, OfRelay(i, RelayAct.MarkRetry(o)));
    }

    /** A claimed event: suspended if its payload is unusable, else pushed and marked. */
    method PublishClaimed(i: nat)
      requires Valid() && i < |relays| && relays[i].Claimed?
      modifies this
      ensures Valid() && i < |relays| && relays[i] == Batch(old(relays[i].rest))
      ensures old(Quiet()) && Target(old(View()), old(relays[i].snap.event)).Some? ==>
                Quiet() && View() == AfterMarkPublished(Publish(old(View()), i, Done), i, Done)
    {
      hide Run, Initial, IsScan, Next, Enabled, Target;
      Yield(ARelay(i));
      var o := Fault();
      if Target(View(), relays[i].snap.event).None? {
        SuspendWith(i, o);
        return;
      }
      PublishReady(i, o);
      FinishPublish(i);
    }

    method SuspendWith(i: nat, o: Outcome)
      requires Valid() && i < |relays| && relays[i].Claimed? && Target(View(), relays[i].snap.event).None?
      modifies this`events, this`relays, this`trace
      ensures Valid() && i < |relays| && relays[i] == Batch(old(relays[i].rest))
    {
      hide Run, Initial, IsScan;
      SuspendEvent(i, o);
    }

    method FinishPublish(i: nat)
      requires Valid() && i < |relays| && (relays[i].Pushed? || relays[i].Unpushed?)
      modifies this
      ensures Valid() && i < |relays| && relays[i] == Batch(old(relays[i].rest))
      ensures old(Quiet()) && old(relays[i].Pushed?) ==> Quiet() && View() == AfterMarkPublished(old(View()), i, Done)
    {
      hide Run, Initial, IsScan, Next, Enabled;
      Yield(ARelay(i));
      var o := Fault();
      if relays[i].Pushed? {
        MarkPublished(i, o);
      } else {
        MarkRetry(i, o);
      }
    }

    /** One event of the batch; `ok` unless the pass has to stop here. */
    method DispatchEvent(i: nat) returns (ok: bool)
      requires Valid() && i < |relays| && relays[i].Batch? && relays[i].todo != []
      modifies this
      ensures Valid() && i < |relays| && relays[i] == Batch(if ok then old(relays[i].todo)[1..] else [])
      ensures old(Quiet()) && Sendable(old(View()), old(relays[i].todo)[0].event) ==>
                Quiet() && ok && View() == AfterDispatchOne(old(View()), i)
    {
      hide Run, Initial, IsScan, Next, Enabled, Target;
      ghost var w, quiet := View(), Quiet();
      ghost var e := relays[i].todo[0].event;
      Yield(ARelay(i));
      var o := Fault();
      TryMarkDispatching(i, o);
      if !o.Done? {
        return false;
      }
      if quiet && Sendable(w, e) {
        SameTarget(w, View(), e);
      }
      if relays[i].Claimed? {
        PublishClaimed(i);
      }
      ok := true;
    }

    /** `dispatchOnce`. Undisturbed, every event the scan found is PUBLISHED and its task id appended
        to ready, in the order of the event ids; no other event changes. */
    method DispatchOnce(i: nat) returns (ids: seq<int>)
      requires Valid() && i < |relays| && relays[i] == Batch([])
      modifies this
      ensures Valid() && i < |relays| && relays[i] == Batch([])
      ensures old(Quiet()) ==>
                && Quiet() && IsScan(Dispatchable(old(View())), cfg.relayBatch, ids)
                && AllSendable(old(View()), ids) && View() == DispatchedSoFar(old(View()), i, ids, |ids|)
    {
      hide Run, Initial, Next, Enabled;
      ghost var w, quiet := View(), Quiet();
      Reachable();
      ids := ListDispatchable(i);
      ScannedAreSendable(w, ids);
      hide IsScan, Inv;
      var k := 0;
      NothingSentYet(w, i, ids);
      while k < |ids|
        invariant k <= |ids| && Valid() && i < |relays| && relays[i] == Batch(Snaps(w, ids)[k..])
        invariant quiet ==> Quiet() && View() == DispatchedSoFar(w, i, ids, k)
      {
        if quiet {
          DispatchedOneMore(w, i, ids, k);
        }
        assert Snaps(w, ids)[k..][1..] == Snaps(w, ids)[k + 1..];
        var ok := DispatchEvent(i);
        if !ok {
          return;
        }
        k := k + 1;
      }
    }

    /** One iteration of the relay's loop. */
    method RelayIteration(i: nat)
      requires Valid() && i < |relays| && relays[i] == Batch([])
      modifies this
      ensures Valid() && i < |relays| && relays[i] == Batch([])
    {
      hide Run, Initial, IsScan, Next, Enabled;
      var _ := RecoverStaleDispatching(i);
      Yield(ARelay(i));
      var _ := DispatchOnce(i);
    }

    /******* Compensator *******/

    method ListDueFailed(i: nat) returns (batch: seq<int>)
      requires Valid() && i < |comps| && comps[i].Resting?
      modifies this`comps, this`trace
      ensures Valid() && trace == old(trace) + [OfComp(i, CompAct.ListFailed(batch))]
      ensures IsScan(DueFailed(old(View())), cfg.compBatch, batch)
      ensures View() == SetComp(old(View()), i, Due(batch))
      ensures forall id :: id in batch ==>
                id in tasks && tasks[id].status == T.FAILED && tasks[id].nextRetry.Some? && tasks[id].nextRetry.value <= now
      ensures |batch| < cfg.compBatch ==>
                forall id :: id in tasks && tasks[id].status == T.FAILED && tasks[id].nextRetry.Some? && tasks[id].nextRetry.value <= now ==> id in batch
    {
      hide Run, Initial, IsScan, DueFailed;
      ghost var was := View();
      batch := Scan(DueFailed(View()), cfg.compBatch);
      DueFailedFound(was, cfg.compBatch, batch);
      comps := comps[i := Due(batch)];
      Record(was, OfComp(i, CompAct.ListFailed(batch)));
    }

    method ListStaleSuspended(i: nat) returns (batch: seq<int>)
      requires Valid() && i < |comps| && comps[i].Due?
      modifies this`comps, this`trace
      ensures Valid() && trace == old(trace) + [OfComp(i, CompAct.ListSuspended(batch))]
      ensures IsScan(Stale(old(View()), T.SUSPENDED, old(now) - cfg.staleTimeout), cfg.compBatch, batch)
      ensures View() == SetComp(old(View()), i, Suspects(old(comps[i]).due, batch, old(now) - cfg.staleTimeout))
      ensures forall id :: id in batch ==>
                id in tasks && tasks[id].status == T.SUSPENDED && tasks[id].updatedAt <= now - cfg.staleTimeout
      ensures |batch| < cfg.compBatch ==>
                forall id :: id in tasks && tasks[id].status == T.SUSPENDED && tasks[id].updatedAt <= now - cfg.staleTimeout ==> id in batch
    {
      hide Run, Initial, IsScan, Stale;
      ghost var was := View();
      batch := Scan(Stale(View(), T.SUSPENDED, now - cfg.staleTimeout), cfg.compBatch);
      StaleFound(was, T.SUSPENDED, now - cfg.staleTimeout, cfg.compBatch, batch);
      comps := comps[i := Suspects(comps[i].due, batch, now - cfg.staleTimeout)];
      Record(was, OfComp(i, CompAct.ListSuspended(batch)));
    }

    method ListStaleRunning(i: nat) returns (batch: seq<int>)
      requires Valid() && i < |comps| && comps[i].Suspects?
      modifies this`comps, this`trace
      ensures Valid() && trace == old(trace) + [OfComp(i, CompAct.ListRunning(batch))]
      ensures IsScan(Stale(old(View()), T.RUNNING, old(comps[i]).staleBefore), cfg.compBatch, batch)
      ensures View() == SetComp(old(View()), i, Recovering(batch + old(comps[i]).suspended, old(comps[i]).due))
      ensures forall id :: id in batch ==>
                id in tasks && tasks[id].status == T.RUNNING && tasks[id].updatedAt <= old(comps[i]).staleBefore
      ensures |batch| < cfg.compBatch ==>
                forall id :: id in tasks && tasks[id].status == T.RUNNING && tasks[id].updatedAt <= old(comps[i]).staleBefore ==> id in batch
    {
      hide Run, Initial, IsScan, Stale;
      ghost var was := View();
      batch := Scan(Stale(View(), T.RUNNING, comps[i].staleBefore), cfg.compBatch);
      StaleFound(was, T.RUNNING, comps[i].staleBefore, cfg.compBatch, batch);
      comps := comps[i := Recovering(batch + comps[i].suspended, comps[i].due)];
      Record(was, OfComp(i, CompAct.ListRunning(batch)));
    }

    /** The conditional UPDATE back to FAILED; it does not look at staleness again. */
    method MarkRecoveredForRetry(i: nat, o: Outcome)
      requires Valid() && i < |comps| && comps[i].Recovering? && comps[i].todo != []
      modifies this`tasks, this`comps, this`trace
      ensures Valid() && trace == old(trace) + [OfComp(i, RecoverNext(o))] && View() == Recover(old(View()), i, o)
    {
      hide Run, Initial, IsScan;
      ghost var was := View();
      var id, rest, cands := comps[i].todo[0], comps[i].todo[1..], comps[i].cands;
      var affected := id in tasks && (tasks[id].status == T.RUNNING || tasks[id].status == T.SUSPENDED);
      if o.Applied() && affected {
        var t := tasks[id];
        var log := t.log.(recovered := t.log.recovered + 1,
                          interrupted := t.log.interrupted + (if t.status == T.RUNNING then 1 else 0));
        tasks := tasks[id := t.(status := T.FAILED, nextRetry := Some(now), updatedAt := now, log := log)];
      }
      comps := comps[i := Recovering(rest, if o.Done? && affected then cands + [id] else cands)];
      assert View().tasks == Next(was, OfComp(i, RecoverNext(o))).tasks;
      Record(was, OfComp(i, RecoverNext(o)));
    }

    /** Reads the clock for the scheduling loop. */
    method BeginScheduling(i: nat)
      requires Valid() && i < |comps| && comps[i].Recovering? && comps[i].todo == []
      modifies this`comps, this`trace
      ensures Valid() && trace == old(trace) + [OfComp(i, Begin)]
      ensures View() == SetComp(old(View()), i, SchedulingOrRest(old(comps[i].cands), old(now)))
    {
      hide Run, Initial, IsScan;
      ghost var was := View();
      comps := comps[i := SchedulingOrRest(comps[i].cands, now)];
      Record(was, OfComp(i, Begin));
    }

    method ScheduleCandidate(i: nat, o: Outcome)
      requires Valid() && i < |comps| && comps[i].Scheduling? && comps[i].cands != []
      modifies this`retry, this`comps, this`trace
      ensures Valid() && trace == old(trace) + [OfComp(i, ScheduleNext(o))]
      ensures View() == SetComp(AddRetry(old(View()), old(comps[i].cands)[0], old(comps[i].at), o), i,
                                SchedulingOrRest(old(comps[i].cands)[1..], old(comps[i].at)))
    {
      hide Run, Initial, IsScan;
      ghost var was := View();
      var cands, at := comps[i].cands, comps[i].at;
      if o.Applied() {
        retry := retry[cands[0] := at];
      }
      comps := comps[i := SchedulingOrRest(cands[1..], at)];
      Record(was, OfComp(i, ScheduleNext(o)));
    }

    /** The recovery loop. */
    method RecoverAll(i: nat)
      requires Valid() && i < |comps| && comps[i].Recovering?
      modifies this
      ensures Valid() && i < |comps| && comps[i].Recovering? && comps[i].todo == []
      ensures old(Quiet()) && AllRecoverable(old(tasks), old(comps[i].todo)) ==>
                Quiet() && View() == RecoveredSoFar(old(View()), i, |old(comps[i].todo)|)
    {
      hide Run, Initial, IsScan, Next, Enabled, T.Apply, RecoveredSoFar, AllRecoverable;
      ghost var w, quiet := View(), Quiet() && AllRecoverable(tasks, comps[i].todo);
      var todo, k := comps[i].todo, 0;
      NothingRecoveredYet(w, i);
      while k < |todo|
        invariant k <= |todo| && Valid() && i < |comps| && comps[i].Recovering? && comps[i].todo == todo[k..]
        invariant quiet ==> Quiet() && View() == RecoveredSoFar(w, i, k)
      {
        Yield(AComp(i));
        var o := Fault();
        if quiet {
          RecoveredOneMore(w, i, k);
        }
        assert todo[k..][1..] == todo[k + 1..];
        MarkRecoveredForRetry(i, o);
        k := k + 1;
      }
    }

    /** The scheduling loop. */
    method ScheduleAll(i: nat)
      requires Valid() && i < |comps| && comps[i].Recovering? && comps[i].todo == []
      modifies this
      ensures Valid() && i < |comps| && comps[i].Resting?
      ensures old(Quiet()) ==> Quiet() && View() == AfterScheduling(old(View()), i)
    {
      hide Run, Initial, IsScan, Next, Enabled, PutAll, ScheduledSoFar, AfterScheduling;
      ghost var w, quiet := View(), Quiet();
      var cands, k := comps[i].cands, 0;
      BeginScheduling(i);
      ghost var at := w.now;
      assert cands[0..] == cands;
      NothingScheduledYet(w, i);
      while k < |cands|
        invariant k <= |cands| && Valid() && i < |comps| && comps[i] == SchedulingOrRest(cands[k..], at)
        invariant quiet ==> Quiet() && View() == ScheduledSoFar(w, i, k)
      {
        Yield(AComp(i));
        var o := Fault();
        assert cands[k..][1..] == cands[k + 1..] && cands[k..][0] == cands[k];
        if quiet {
          ScheduledOneMore(w, i, k);
        }
        ScheduleCandidate(i, o);
        k := k + 1;
      }
      assert cands[k..] == [];
      AllScheduled(w, i);
    }

    /** `compensateOnce`. Undisturbed, every stale RUNNING or SUSPENDED row the scans found is FAILED
        and due, and each of these and of the due FAILED rows found is in the retry set for now. */
    method CompensateOnce(i: nat) returns (due: seq<int>, suspended: seq<int>, running: seq<int>)
      requires Valid() && i < |comps| && comps[i].Resting?
      modifies this
      ensures Valid() && i < |comps| && comps[i].Resting?
      ensures old(Quiet()) ==>
                && Quiet() && IsScan(DueFailed(old(View())), cfg.compBatch, due)
                && IsScan(Stale(old(View()), T.SUSPENDED, old(now) - cfg.staleTimeout), cfg.compBatch, suspended)
                && IsScan(Stale(old(View()), T.RUNNING, old(now) - cfg.staleTimeout), cfg.compBatch, running)
                && View() == Compensated(old(View()), due, running + suspended)
                && PassByTheRows(old(View()), due, suspended, running, View())
    {
      hide Run, Initial, IsScan, Next, Enabled, AfterPass, Compensated, PassByTheRows;
      ghost var w, quiet := View(), Quiet();
      due := ListDueFailed(i);
      Yield(AComp(i));
      suspended := ListStaleSuspended(i);
      Yield(AComp(i));
      running := ListStaleRunning(i);
      if quiet {
        ScannedAreRecoverable(w, suspended, running);
        assert comps == w.comps[i := Recovering(running + suspended, due)];
        assert View() == SetComp(w, i, Recovering(running + suspended, due));
      }
      FinishPass(i);
      if quiet {
        CompensatedIs(w, i, due, running + suspended);
        PassMeans(w, due, suspended, running);
      }
    }

    method FinishPass(i: nat)
      requires Valid() && i < |comps| && comps[i].Recovering?
      modifies this
      ensures Valid() && i < |comps| && comps[i].Resting?
      ensures old(Quiet()) && AllRecoverable(old(tasks), old(comps[i].todo)) ==>
                Quiet() && View() == AfterPass(old(View()), i)
    {
      hide Run, Initial, IsScan, Next, Enabled, AfterScheduling;
      RecoverAll(i);
      ScheduleAll(i);
    }
  }

  /******* What an undisturbed worker does *******/

  function AfterMarkFailed(w: World, i: nat): World
    requires i < |w.workers|
  {
    match w.workers[i]
    case ToDlq(id) => SetWorker(w.(q := w.q.(dlq := w.q.dlq + [id])), i, Idle)
    case ToRetry(id, at) => SetWorker(AddRetry(w, id, at, Done), i, Idle)
    case _ => w
  }

  function AfterFailure(w: World, i: nat): World
    requires i < |w.workers| && w.workers[i].Errored?
  {
    AfterMarkFailed(MarkFailedStep(w, i, Done), i)
  }

  function AfterSuccess(w: World, i: nat): World
    requires i < |w.workers| && w.workers[i].Handled?
  {
    SetWorker(OnTask(w, w.workers[i].id, T.MarkSuccess), i, Idle)
  }

  function AfterHandler(w: World, i: nat, ok: bool): World
    requires i < |w.workers| && w.workers[i].Handling?
  {
    var id := w.workers[i].id;
    if ok then AfterSuccess(SetWorker(OnTask(w, id, T.HandlerOk), i, Handled(id)), i)
    else AfterFailure(SetWorker(w, i, Errored(id)), i)
  }

  function AfterConsume(w: World, i: nat, ok: bool): World
    requires i < |w.workers| && w.workers[i].Popped?
  {
    var w1 := TryRun(w, i);
    if w1.workers[i].Handling? then AfterHandler(w1, i, ok) else w1
  }

  /** An undisturbed worker takes a runnable task to SUCCESS if its handler succeeds; if not, to DEAD
      and the dead-letter list when the budget is used up, and otherwise to FAILED with an entry in
      the retry set for exactly the row's retry time. No other row and no other queue changes. */
  lemma ConsumeMeans(w: World, i: nat, ok: bool)
    requires i < |w.workers| && w.workers[i].Popped?
    ensures var id, w' := w.workers[i].id, AfterConsume(w, i, ok);
            if id !in w.tasks || !T.CanRun(w.tasks[id]) then w' == w.(workers := w.workers[i := Idle])
            else
              var t := w.tasks[id];
              && id in w'.tasks && w' == w.(tasks := w.tasks[id := w'.tasks[id]], q := w'.q, workers := w.workers[i := Idle])
              && (if ok then w'.tasks[id].status == T.SUCCESS && w'.q == w.q
                  else if t.retryCount + 1 >= t.maxRetry then
                    w'.tasks[id].status == T.DEAD && w'.q == w.q.(dlq := w.q.dlq + [id])
                  else
                    var at := w.now + T.Backoff(t.retryCount + 1, w.cfg.retryBackoff);
                    && w'.tasks[id].status == T.FAILED && w'.tasks[id].nextRetry == Some(at)
                    && w'.q == w.q.(retry := w.q.retry[id := at]))
  {
  }

  /******* What an undisturbed mover does *******/

  function AfterMoveOne(w: World, i: nat): World
    requires i < |w.movers| && w.movers[i].Moving? && w.movers[i].todo != []
  {
    var id, rest := w.movers[i].todo[0], w.movers[i].todo[1..];
    w.(q := Queue(if id in w.q.retry then w.q.ready + [id] else w.q.ready, w.q.retry - {id}, w.q.dlq),
       movers := w.movers[i := Moving(rest)])
  }

  function Elems(s: seq<int>): set<int> {
    set x | x in s
  }

  function MovedSoFar(w: World, i: nat, ids: seq<int>, k: nat): World
    requires i < |w.movers| && k <= |ids|
  {
    w.(q := Queue(w.q.ready + ids[..k], w.q.retry - Elems(ids[..k]), w.q.dlq),
       movers := w.movers[i := Moving(ids[k..])])
  }

  ghost predicate DistinctKeys(ids: seq<int>, m: map<int, int>) {
    (forall j :: 0 <= j < |ids| ==> ids[j] in m) && (forall j, k :: 0 <= j < k < |ids| ==> ids[j] != ids[k])
  }

  lemma MovedOneMore(w: World, i: nat, ids: seq<int>, k: nat)
    requires i < |w.movers| && k < |ids| && DistinctKeys(ids, w.q.retry)
    ensures AfterMoveOne(MovedSoFar(w, i, ids, k), i) == MovedSoFar(w, i, ids, k + 1)
    ensures ids[k] in MovedSoFar(w, i, ids, k).q.retry
  {
    assert ids[k..][0] == ids[k] && ids[k..][1..] == ids[k + 1..];
    assert ids[..k + 1] == ids[..k] + [ids[k]];
    assert Elems(ids[..k + 1]) == Elems(ids[..k]) + {ids[k]};
    assert w.q.ready + ids[..k] + [ids[k]] == w.q.ready + ids[..k + 1];
    var gone := Elems(ids[..k]);
    assert w.q.retry - gone - {ids[k]} == w.q.retry - (gone + {ids[k]});
    assert ids[k] !in gone;
    assert w.movers[i := Moving(ids[k..])][i := Moving(ids[k + 1..])] == w.movers[i := Moving(ids[k + 1..])];
  }

  /******* What an undisturbed replay does *******/

  datatype ReplayReply = Replayed | BadTaskId | NoSuchTask | NotReplayable | NotInDlq | StoreTrouble

  function AfterReopen(w: World, i: nat): World
    requires i < |w.admins| && w.admins[i].Reopened?
  {
    var w1 := ReplayMove(w, i, Done);
    if w1.admins[i].NoReplay? then w1 else SetAdmin(OnTask(w1, w.admins[i].id, T.RestoreDead), i, NoReplay)
  }

  lemma ReplayIs(w: World, i: nat, id: int)
    requires i < |w.admins| && w.admins[i].NoReplay?
    ensures if id in w.tasks && T.CanReopen(w.tasks[id])
            then Replay(w, i, id) == AfterReopen(ReopenStep(w, i, id, Done), i)
            else Replay(w, i, id) == w
  {
    assert w.admins[i := NoReplay] == w.admins;
    assert id in w.tasks ==> w.tasks[id := w.tasks[id]] == w.tasks;
  }

  function ReplayResult(w: World, id: int): ReplayReply {
    if id <= 0 then BadTaskId
    else if id !in w.tasks then NoSuchTask
    else if !T.CanReopen(w.tasks[id]) then NotReplayable
    else if id in w.q.dlq then Replayed
    else NotInDlq
  }

  /******* What an undisturbed relay does *******/

  function AfterMarkPublished(w: World, i: nat, o: Outcome): World
    requires i < |w.relays| && w.relays[i].Pushed?
  {
    var e := w.relays[i].snap.event;
    SetRelay(FromDispatching(w, e, EventOr(w, e).(status := PUBLISHED, updatedAt := w.now), o), i, Batch(w.relays[i].rest))
  }

  function AfterMarkRetry(w: World, i: nat, o: Outcome): World
    requires i < |w.relays| && w.relays[i].Unpushed?
  {
    var snap := w.relays[i].snap;
    SetRelay(FromDispatching(w, snap.event, RetryEvent(w, EventOr(w, snap.event), snap.retryCount), o), i, Batch(w.relays[i].rest))
  }

  /** The event is waiting and its payload names a task. */
  predicate Sendable(w: World, e: int) {
    e in w.events && w.events[e].status == PENDING && Target(w, e).Some?
  }

  function Sent(w: World, e: int): Event
    requires e in w.events
  {
    w.events[e].(status := PUBLISHED, updatedAt := w.now, pushes := w.events[e].pushes + 1)
  }

  function AfterDispatchOne(w: World, i: nat): World
    requires i < |w.relays| && w.relays[i].Batch? && w.relays[i].todo != [] && Sendable(w, w.relays[i].todo[0].event)
  {
    var e := w.relays[i].todo[0].event;
    w.(events := w.events[e := Sent(w, e)], q := w.q.(ready := w.q.ready + [Target(w, e).value]),
       relays := w.relays[i := Batch(w.relays[i].todo[1..])])
  }

  predicate AllSendable(w: World, ids: seq<int>) {
    && (forall j :: 0 <= j < |ids| ==> Sendable(w, ids[j]))
    && (forall j, k :: 0 <= j < k < |ids| ==> ids[j] != ids[k])
  }

  function Targets(w: World, ids: seq<int>): seq<int>
    requires AllSendable(w, ids)
  {
    seq(|ids|, k requires 0 <= k < |ids| => Target(w, ids[k]).value)
  }

  function SentEvents(w: World, done: seq<int>): map<int, Event> {
    map e | e in w.events :: if e in done then Sent(w, e) else w.events[e]
  }

  lemma SentOneMore(w: World, done: seq<int>, e: int)
    requires e in w.events && e !in done
    ensures SentEvents(w, done)[e := Sent(w, e)] == SentEvents(w, done + [e])
    ensures e in SentEvents(w, done) && SentEvents(w, done)[e] == w.events[e]
  {
  }

  function DispatchedSoFar(w: World, i: nat, ids: seq<int>, k: nat): World
    requires i < |w.relays| && k <= |ids| && AllSendable(w, ids)
  {
    w.(events := SentEvents(w, ids[..k]),
       q := w.q.(ready := w.q.ready + Targets(w, ids)[..k]),
       relays := w.relays[i := Batch(Snaps(w, ids)[k..])])
  }

  lemma ScannedAreSendable(w: World, ids: seq<int>)
    requires Inv(w) && IsScan(Dispatchable(w), w.cfg.relayBatch, ids)
    ensures AllSendable(w, ids)
  {
    forall j | 0 <= j < |ids|
      ensures Sendable(w, ids[j])
    {
      assert ids[j] in Dispatchable(w);
      TargetIsTask(w, ids[j]);
    }
  }

  lemma NothingSentYet(w: World, i: nat, ids: seq<int>)
    requires i < |w.relays| && AllSendable(w, ids)
    ensures DispatchedSoFar(w, i, ids, 0) == SetRelay(w, i, Batch(Snaps(w, ids)))
  {
    assert w.q.ready + Targets(w, ids)[..0] == w.q.ready;
    assert Snaps(w, ids)[0..] == Snaps(w, ids);
    assert DispatchedSoFar(w, i, ids, 0).events == w.events;
  }

  lemma SameTarget(w: World, w': World, e: int)
    requires e in w.events && e in w'.events && w'.events[e].payload == w.events[e].payload
    ensures Target(w', e) == Target(w, e)
  {
  }

  lemma BatchStep(w: World, ids: seq<int>, k: nat)
    requires k < |ids| && AllSendable(w, ids)
    ensures |Snaps(w, ids)| == |ids| && Snaps(w, ids)[k..][0].event == ids[k]
    ensures Snaps(w, ids)[k..][1..] == Snaps(w, ids)[k + 1..]
    ensures |Targets(w, ids)| == |ids| && Targets(w, ids)[..k + 1] == Targets(w, ids)[..k] + [Target(w, ids[k]).value]
  {
    assert Snaps(w, ids)[k..][0] == Snaps(w, ids)[k];
    assert Targets(w, ids)[k] == Target(w, ids[k]).value;
  }

  lemma DispatchedOneMore(w: World, i: nat, ids: seq<int>, k: nat)
    requires i < |w.relays| && k < |ids| && AllSendable(w, ids)
    ensures var w1 := DispatchedSoFar(w, i, ids, k);
            && w1.relays[i].todo != [] && w1.relays[i].todo[0].event == ids[k] && Sendable(w1, ids[k])
            && AfterDispatchOne(w1, i) == DispatchedSoFar(w, i, ids, k + 1)
  {
    hide Target, Targets, Snaps, SentEvents;
    var e := ids[k];
    assert Sendable(w, e);
    assert ids[..k + 1] == ids[..k] + [e];
    SentOneMore(w, ids[..k], e);
    BatchStep(w, ids, k);
    var w1, w2 := DispatchedSoFar(w, i, ids, k), DispatchedSoFar(w, i, ids, k + 1);
    SameTarget(w, w1, e);
    assert w1.q.ready + [Target(w, e).value] == w2.q.ready;
    assert w1.relays[i := Batch(Snaps(w, ids)[k + 1..])] == w2.relays;
  }

  /******* What an undisturbed compensator does *******/

  predicate AllRecoverable(ts: map<int, T.Task>, ids: seq<int>) {
    && (forall j :: 0 <= j < |ids| ==> ids[j] in ts && T.CanRecover(ts[ids[j]]))
    && (forall j, k :: 0 <= j < k < |ids| ==> ids[j] != ids[k])
  }

  lemma ScannedAreRecoverable(w: World, suspended: seq<int>, running: seq<int>)
    requires IsScan(Stale(w, T.SUSPENDED, w.now - w.cfg.staleTimeout), w.cfg.compBatch, suspended)
    requires IsScan(Stale(w, T.RUNNING, w.now - w.cfg.staleTimeout), w.cfg.compBatch, running)
    ensures AllRecoverable(w.tasks, running + suspended)
  {
    var ids := running + suspended;
    forall j | 0 <= j < |ids|
      ensures ids[j] in w.tasks && w.tasks[ids[j]].status == (if j < |running| then T.RUNNING else T.SUSPENDED)
    {
      if j < |running| {
        assert running[j] in Stale(w, T.RUNNING, w.now - w.cfg.staleTimeout);
      } else {
        assert suspended[j - |running|] in Stale(w, T.SUSPENDED, w.now - w.cfg.staleTimeout);
      }
    }
  }

  function RecoveredTasks(w: World, done: seq<int>): map<int, T.Task> {
    map id | id in w.tasks :: if id in done then T.Apply(w.tasks[id], T.MarkRecovered, w.now) else w.tasks[id]
  }

  lemma RecoveredTask(w: World, done: seq<int>, id: int)
    requires id in w.tasks && id !in done
    ensures id in RecoveredTasks(w, done) && RecoveredTasks(w, done)[id] == w.tasks[id]
    ensures RecoveredTasks(w, done)[id := T.Apply(w.tasks[id], T.MarkRecovered, w.now)] == RecoveredTasks(w, done + [id])
  {
  }

  function RecoveredSoFar(w: World, i: nat, k: nat): World
    requires i < |w.comps| && w.comps[i].Recovering? && k <= |w.comps[i].todo|
  {
    var todo := w.comps[i].todo;
    w.(tasks := RecoveredTasks(w, todo[..k]), comps := w.comps[i := Recovering(todo[k..], w.comps[i].cands + todo[..k])])
  }

  lemma NothingRecoveredYet(w: World, i: nat)
    requires i < |w.comps| && w.comps[i].Recovering?
    ensures RecoveredSoFar(w, i, 0) == w
  {
    var todo := w.comps[i].todo;
    assert todo[0..] == todo && todo[..0] == [] && w.comps[i].cands + [] == w.comps[i].cands;
    assert RecoveredTasks(w, []) == w.tasks;
    assert w.comps[i := w.comps[i]] == w.comps;
  }

  lemma RecoveredOneMore(w: World, i: nat, k: nat)
    requires i < |w.comps| && w.comps[i].Recovering? && k < |w.comps[i].todo| && AllRecoverable(w.tasks, w.comps[i].todo)
    ensures var w1 := RecoveredSoFar(w, i, k);
            w1.comps[i].todo != [] && Recover(w1, i, Done) == RecoveredSoFar(w, i, k + 1)
  {
    var todo, cands := w.comps[i].todo, w.comps[i].cands;
    var id := todo[k];
    assert todo[..k + 1] == todo[..k] + [id];
    RecoveredTask(w, todo[..k], id);
    hide RecoveredTasks, T.Apply;
    assert todo[k..][0] == id && todo[k..][1..] == todo[k + 1..];
    assert cands + todo[..k] + [id] == cands + todo[..k + 1];
    var w1, w2 := RecoveredSoFar(w, i, k), RecoveredSoFar(w, i, k + 1);
    assert w1.comps[i := w2.comps[i]] == w2.comps;
  }

  /** All `ids` are scheduled for `at`. */
  function PutAll(m: map<int, int>, ids: seq<int>, at: int): map<int, int> {
    if ids == [] then m else PutAll(m, ids[..|ids| - 1], at)[ids[|ids| - 1] := at]
  }

  lemma {:induction false} PutAllMeans(m: map<int, int>, ids: seq<int>, at: int, id: int)
    ensures id in PutAll(m, ids, at) <==> id in m || id in ids
    ensures id in PutAll(m, ids, at) ==> PutAll(m, ids, at)[id] == if id in ids then at else m[id]
    decreases |ids|
  {
    if ids != [] {
      var n := |ids| - 1;
      PutAllMeans(m, ids[..n], at, id);
      assert ids == ids[..n] + [ids[n]];
    }
  }

  function ScheduledSoFar(w: World, i: nat, k: nat): World
    requires i < |w.comps| && w.comps[i].Recovering? && k <= |w.comps[i].cands|
  {
    var cands := w.comps[i].cands;
    w.(q := w.q.(retry := PutAll(w.q.retry, cands[..k], w.now)), comps := w.comps[i := SchedulingOrRest(cands[k..], w.now)])
  }

  lemma NothingScheduledYet(w: World, i: nat)
    requires i < |w.comps| && w.comps[i].Recovering?
    ensures ScheduledSoFar(w, i, 0) == SetComp(w, i, SchedulingOrRest(w.comps[i].cands, w.now))
  {
    var cands := w.comps[i].cands;
    assert cands[0..] == cands && cands[..0] == [];
  }

  lemma ScheduledOneMore(w: World, i: nat, k: nat)
    requires i < |w.comps| && w.comps[i].Recovering? && k < |w.comps[i].cands|
    ensures var cands, w1 := w.comps[i].cands, ScheduledSoFar(w, i, k);
            && i < |w1.comps| && w1.comps[i] == Scheduling(cands[k..], w.now)
            && SetComp(AddRetry(w1, cands[k], w.now, Done), i, SchedulingOrRest(cands[k + 1..], w.now)) == ScheduledSoFar(w, i, k + 1)
  {
    var cands, w1 := w.comps[i].cands, ScheduledSoFar(w, i, k);
    assert cands[..k + 1] == cands[..k] + [cands[k]];
    var rest := SchedulingOrRest(cands[k + 1..], w.now);
    assert w1.comps[i := rest] == w.comps[i := rest];
  }

  lemma AllScheduled(w: World, i: nat)
    requires i < |w.comps| && w.comps[i].Recovering?
    ensures ScheduledSoFar(w, i, |w.comps[i].cands|) == AfterScheduling(w, i)
  {
    var cands := w.comps[i].cands;
    assert cands[..|cands|] == cands && cands[|cands|..] == [];
  }

  function AfterScheduling(w: World, i: nat): World
    requires i < |w.comps| && w.comps[i].Recovering?
  {
    w.(q := w.q.(retry := PutAll(w.q.retry, w.comps[i].cands, w.now)), comps := w.comps[i := Resting])
  }

  function AfterPass(w: World, i: nat): World
    requires i < |w.comps| && w.comps[i].Recovering?
  {
    AfterScheduling(RecoveredSoFar(w, i, |w.comps[i].todo|), i)
  }

  function Compensated(w: World, due: seq<int>, stale: seq<int>): World {
    w.(tasks := RecoveredTasks(w, stale), q := w.q.(retry := PutAll(w.q.retry, due + stale, w.now)))
  }

  lemma CompensatedIs(w: World, i: nat, due: seq<int>, stale: seq<int>)
    requires i < |w.comps| && w.comps[i].Resting?
    ensures AfterPass(SetComp(w, i, Recovering(stale, due)), i) == Compensated(w, due, stale)
  {
    assert stale[..|stale|] == stale;
    var w1 := SetComp(w, i, Recovering(stale, due));
    assert RecoveredTasks(w1, stale) == RecoveredTasks(w, stale);
    assert w1.comps[i := Resting] == w.comps;
  }

  /** What that pass means for any row: stale rows found are FAILED and due at once, whatever was
      found is scheduled for now, and nothing else changes. */
  lemma CompensatedMeans(w: World, due: seq<int>, stale: seq<int>, id: int)
    requires AllRecoverable(w.tasks, stale) && id in w.tasks
    ensures var w' := Compensated(w, due, stale);
            && id in w'.tasks
            && (if id in stale then w'.tasks[id].status == T.FAILED && w'.tasks[id].nextRetry == Some(w.now)
                else w'.tasks[id] == w.tasks[id])
            && (id in due || id in stale ==> id in w'.q.retry && w'.q.retry[id] == w.now)
            && (id !in due && id !in stale ==> (id in w'.q.retry <==> id in w.q.retry))
  {
    PutAllMeans(w.q.retry, due + stale, w.now, id);
    if id in stale {
      var j :| 0 <= j < |stale| && stale[j] == id;
    }
  }

  /** A whole undisturbed pass in the rows' own fields: it recovers the RUNNING and SUSPENDED rows not
      updated for the stale timeout - all of them unless a batch was full - and no other row changes;
      these and the due FAILED rows are in the retry set for now, and no other entry changes. */
  ghost predicate PassByTheRows(w: World, due: seq<int>, suspended: seq<int>, running: seq<int>, w': World) {
    var cut := w.now - w.cfg.staleTimeout;
    && (forall id :: id in running ==> id in w.tasks && w.tasks[id].status == T.RUNNING && w.tasks[id].updatedAt <= cut)
    && (forall id :: id in suspended ==> id in w.tasks && w.tasks[id].status == T.SUSPENDED && w.tasks[id].updatedAt <= cut)
    && (forall id :: id in due ==>
          id in w.tasks && w.tasks[id].status == T.FAILED && w.tasks[id].nextRetry.Some? && w.tasks[id].nextRetry.value <= w.now)
    && (|running| < w.cfg.compBatch ==>
          forall id :: id in w.tasks && w.tasks[id].status == T.RUNNING && w.tasks[id].updatedAt <= cut ==> id in running)
    && (|suspended| < w.cfg.compBatch ==>
          forall id :: id in w.tasks && w.tasks[id].status == T.SUSPENDED && w.tasks[id].updatedAt <= cut ==> id in suspended)
    && (|due| < w.cfg.compBatch ==>
          forall id :: id in w.tasks && w.tasks[id].status == T.FAILED && w.tasks[id].nextRetry.Some? && w.tasks[id].nextRetry.value <= w.now
                       ==> id in due)
    && w' == w.(tasks := w'.tasks, q := w.q.(retry := w'.q.retry)) && w'.tasks.Keys == w.tasks.Keys
    && (forall id :: id in w.tasks ==> RowAfterPass(w, id in running || id in suspended, id, w'.tasks[id]))
    && (forall id :: id in w'.q.retry <==> id in w.q.retry || id in due || id in suspended || id in running)
    && (forall id :: id in w'.q.retry ==>
          w'.q.retry[id] == if id in due || id in suspended || id in running then w.now else w.q.retry[id])
  }

  ghost predicate RowAfterPass(w: World, recovered: bool, id: int, t': T.Task)
    requires id in w.tasks
  {
    var t := w.tasks[id];
    if recovered then t'.status == T.FAILED && t'.nextRetry == Some(w.now) && t'.updatedAt == w.now && t'.retryCount == t.retryCount
    else t' == t
  }

  lemma PassMeans(w: World, due: seq<int>, suspended: seq<int>, running: seq<int>)
    requires IsScan(DueFailed(w), w.cfg.compBatch, due)
    requires IsScan(Stale(w, T.SUSPENDED, w.now - w.cfg.staleTimeout), w.cfg.compBatch, suspended)
    requires IsScan(Stale(w, T.RUNNING, w.now - w.cfg.staleTimeout), w.cfg.compBatch, running)
    ensures PassByTheRows(w, due, suspended, running, Compensated(w, due, running + suspended))
  {
    hide IsScan;
    DueFailedFound(w, w.cfg.compBatch, due);
    StaleFound(w, T.SUSPENDED, w.now - w.cfg.staleTimeout, w.cfg.compBatch, suspended);
    StaleFound(w, T.RUNNING, w.now - w.cfg.staleTimeout, w.cfg.compBatch, running);
    PassRows(w, due, suspended, running);
    PassRetries(w, due, suspended, running);
    hide Stale, DueFailed, PutAll, RecoveredTasks, RowAfterPass;
  }

  lemma PassRows(w: World, due: seq<int>, suspended: seq<int>, running: seq<int>)
    requires forall id :: id in running || id in suspended ==> id in w.tasks && T.CanRecover(w.tasks[id])
    ensures var w' := Compensated(w, due, running + suspended);
            && w'.tasks.Keys == w.tasks.Keys
            && forall id :: id in w.tasks ==> RowAfterPass(w, id in running || id in suspended, id, w'.tasks[id])
  {
    var w' := Compensated(w, due, running + suspended);
    forall id | id in w.tasks
      ensures RowAfterPass(w, id in running || id in suspended, id, w'.tasks[id])
    {
      assert id in running + suspended <==> id in running || id in suspended;
    }
  }

  lemma PassRetries(w: World, due: seq<int>, suspended: seq<int>, running: seq<int>)
    ensures var w' := Compensated(w, due, running + suspended);
            && (forall id :: id in w'.q.retry <==> id in w.q.retry || id in due || id in suspended || id in running)
            && (forall id :: id in w'.q.retry ==>
                  w'.q.retry[id] == if id in due || id in suspended || id in running then w.now else w.q.retry[id])
  {
    var w' := Compensated(w, due, running + suspended);
    forall id
      ensures id in w'.q.retry <==> id in w.q.retry || id in due || id in suspended || id in running
      ensures id in w'.q.retry ==>
                w'.q.retry[id] == if id in due || id in suspended || id in running then w.now else w.q.retry[id]
    {
      PutAllMeans(w.q.retry, due + (running + suspended), w.now, id);
      assert id in due + (running + suspended) <==> id in due || id in running || id in suspended;
    }
  }

  /** What an undisturbed dispatch means in the events' own fields. */
  lemma DispatchedMeans(w: World, i: nat, ids: seq<int>)
    requires Inv(w) && i < |w.relays| && w.relays[i] == Batch([]) && AllSendable(w, ids)
    ensures var w' := DispatchedSoFar(w, i, ids, |ids|);
            && w' == w.(events := w'.events, q := w.q.(ready := w'.q.ready)) && w'.events.Keys == w.events.Keys
            && |w'.q.ready| == |w.q.ready| + |ids| && w.q.ready <= w'.q.ready
            && (forall k :: 0 <= k < |ids| ==> w'.q.ready[|w.q.ready| + k] == w.events[ids[k]].task)
            && (forall e :: e in ids ==> e in w.events && w'.events[e].status == PUBLISHED && w'.events[e].updatedAt == w.now)
            && (forall e :: e in w.events && e !in ids ==> w'.events[e] == w.events[e])
  {
    var w' := DispatchedSoFar(w, i, ids, |ids|);
    assert ids[..|ids|] == ids && Targets(w, ids)[..|ids|] == Targets(w, ids) && Snaps(w, ids)[|ids|..] == [];
    assert w.relays[i := Batch([])] == w.relays;
    forall k | 0 <= k < |ids|
      ensures w'.q.ready[|w.q.ready| + k] == w.events[ids[k]].task
    {
      assert Sendable(w, ids[k]);
      TargetIsTask(w, ids[k]);
      assert Targets(w, ids)[k] == w.events[ids[k]].task;
    }
    forall e | e in ids
      ensures e in w.events && w'.events[e].status == PUBLISHED && w'.events[e].updatedAt == w.now
    {
      var k :| 0 <= k < |ids| && ids[k] == e;
      assert Sendable(w, ids[k]);
    }
  }

  /** What a failed publish does to a claimed event: back to PENDING, one more failure counted, and not
      before the backoff of the failures seen, which lies between the base and 256 times it. */
  lemma RetryMeans(w: World, i: nat, o: Outcome)
    requires i < |w.relays| && w.relays[i].Unpushed? && w.cfg.relayBackoff >= 0
    ensures var e, w' := w.relays[i].snap.event, AfterMarkRetry(w, i, o);
            && w' == w.(events := w'.events, relays := w.relays[i := Batch(w.relays[i].rest)])
            && (if o.Failed? || e !in w.events || w.events[e].status != DISPATCHING then w'.events == w.events
                else
                  var x := w.events[e];
                  && e in w'.events && w'.events == w.events[e := w'.events[e]]
                  && w'.events[e] == x.(status := PENDING, retryCount := x.retryCount + 1,
                                        nextRetryAt := w'.events[e].nextRetryAt, updatedAt := w.now)
                  && w.now + w.cfg.relayBackoff <= w'.events[e].nextRetryAt <= w.now + 256 * w.cfg.relayBackoff
                  && (w.relays[i].snap.retryCount == 0 ==> w'.events[e].nextRetryAt == w.now + w.cfg.relayBackoff))
  {
    RelayBackoffBounds(w.relays[i].snap.retryCount, w.cfg.relayBackoff);
    hide RelayBackoff;
  }

  /** What a mover leaves behind when a push fails: the id is back in the retry set and due at once,
      unless that write fails too; ready is longer by the id if the push was applied all the same. */
  lemma FailedMoveMeans(w: World, i: nat, o1: Outcome, o2: Outcome)
    requires i < |w.movers| && w.movers[i].Removed? && !o1.Done?
    ensures var id := w.movers[i].id;
            var w1 := SetMover(PushReady(w, id, o1), i, Unmoved(id));
            CanMove(w, i, MoverAct.PushNext(o1)) && DoMove(w, i, MoverAct.PushNext(o1)) == w1 && CanMove(w1, i, MoverAct.PutBack(o2)) &&
            var w2 := DoMove(w1, i, MoverAct.PutBack(o2));
            && w2.movers[i] == Moving([]) && w2.tasks == w.tasks && w2.events == w.events
            && w2.q.ready == (if o1.Lost? then w.q.ready + [id] else w.q.ready)
            && (o2.Failed? ==> w2.q.retry == w.q.retry)
            && (!o2.Failed? ==> w2.q.retry == w.q.retry[id := w.now])
  {
  }

  /** A handler that succeeded and a success mark that did not: the row becomes SUSPENDED, but
      SUCCESS if the mark was applied all the same, and stays RUNNING if the second write fails too. */
  lemma FailedMarkMeans(w: World, i: nat, o1: Outcome, o2: Outcome)
    requires i < |w.workers| && w.workers[i].Handled? && !o1.Done?
    ensures CanWork(w, i, WorkerAct.MarkSuccess(o1))
    ensures var id, w1 := w.workers[i].id, Work(w, i, WorkerAct.MarkSuccess(o1));
            CanWork(w1, i, WorkerAct.MarkSuspended(o2)) &&
            var w2 := Work(w1, i, WorkerAct.MarkSuspended(o2));
            && w2.workers[i].Idle? && w2.q == w.q && w2.events == w.events && w2.tasks.Keys == w.tasks.Keys
            && (forall x :: x in w.tasks && (x != id || w.tasks[x].status != T.RUNNING) ==> w2.tasks[x] == w.tasks[x])
            && (id in w.tasks && w.tasks[id].status == T.RUNNING ==>
                  w2.tasks[id].status == if o1.Lost? then T.SUCCESS else if o2.Failed? then T.RUNNING else T.SUSPENDED)
  {
  }

  /** A replay whose move does not happen, or is not acknowledged, makes the reopened row DEAD unless that
      write fails too; a move that was applied all the same is not taken back. */
  lemma FailedReplayMeans(w: World, i: nat, o1: Outcome, o2: Outcome)
    requires i < |w.admins| && w.admins[i].Reopened? && (!o1.Done? || w.admins[i].id !in w.q.dlq)
    ensures CanAdmin(w, i, MoveFromDlq(o1))
    ensures var id, w1 := w.admins[i].id, DoAdmin(w, i, MoveFromDlq(o1));
            CanAdmin(w1, i, Restore(o2)) &&
            var w2 := DoAdmin(w1, i, Restore(o2));
            && w2.admins[i].NoReplay? && w2.q.retry == w.q.retry && w2.events == w.events && w2.tasks.Keys == w.tasks.Keys
            && w2.q.ready == (if o1.Lost? && id in w.q.dlq then w.q.ready + [id] else w.q.ready)
            && (!(o1.Lost? && id in w.q.dlq) ==> w2.q == w.q)
            && (forall x :: x in w.tasks && (x != id || w.tasks[x].status != T.FAILED) ==> w2.tasks[x] == w.tasks[x])
            && (id in w.tasks && w.tasks[id].status == T.FAILED ==>
                  w2.tasks[id].status == if o2.Failed? then T.FAILED else T.DEAD)
  {
  }

  /** An error while claiming an event, or while taking an entry out of the retry set, ends the batch: the
      rest of it is left for the next tick. */
  lemma FailedClaimEndsBatch(w: World, i: nat, o: Outcome)
    requires i < |w.relays| && w.relays[i].Batch? && w.relays[i].todo != [] && !o.Done?
    ensures var e, w' := w.relays[i].todo[0].event, ClaimEvent(w, i, o);
            && w' == w.(events := w'.events, relays := w.relays[i := Batch([])]) && w'.events.Keys == w.events.Keys
            && (forall x :: x in w.events && (x != e || o.Failed? || w.events[x].status != PENDING) ==> w'.events[x] == w.events[x])
            && (o.Lost? && e in w.events && w.events[e].status == PENDING ==> w'.events[e].status == DISPATCHING && w'.events[e].updatedAt == w.now)
  {
  }

  lemma FailedRemovalEndsBatch(w: World, i: nat, o: Outcome)
    requires i < |w.movers| && w.movers[i].Moving? && w.movers[i].todo != [] && !o.Done?
    ensures var id, w' := w.movers[i].todo[0], MoveRemove(w, i, o);
            && w' == w.(q := w.q.(retry := w'.q.retry), movers := w.movers[i := Moving([])])
            && (o.Failed? ==> w'.q.retry == w.q.retry)
            && (o.Lost? ==> w'.q.retry.Keys == w.q.retry.Keys - {id} && forall x :: x in w'.q.retry ==> w'.q.retry[x] == w.q.retry[x])
  {
  }
}
