/** Concrete runs from an empty pipeline with one task: how an id is lost, and how a replay strands a
    row. They hold for every configuration. */
module DeliveryScenarios {
  import opened Common
  import Codec
  import T = Tasks
  import opened Delivery
  import opened DeliveryInvariants
  import opened DeliveryTheorems
  import opened Recovery
  import opened RecoveryPhases
  import opened Recoverability

  /******* The stage *******/

  ghost function Empty(cfg: Config): World {
    World(cfg, 0, map[], map[], Queue([], map[], []), [Idle], [Batch([])], [Moving([])], [Resting], [NoReplay])
  }

  /** One task, its event, the ready list, the worker and the relay. */
  ghost function Scene(cfg: Config, task: T.Task, event: Event, ready: seq<int>, worker: Worker, relay: Relay): World {
    World(cfg, 0, map[1 := task], map[1 := event], Queue(ready, map[], []),
          [worker], [relay], [Moving([])], [Resting], [NoReplay])
  }

  ghost function Notice(status: EventStatus, pushes: nat): Event {
    Event(1, Codec.StoredTaskCreated(1), status, 0, 0, 0, pushes)
  }

  const FIRST := Snap(1, 0)

  ghost function Created(): T.Task { T.New(5, 0) }

  predicate Batched(cfg: Config) {
    cfg.relayBatch >= 1 && cfg.moverBatch >= 1 && cfg.compBatch >= 1
  }

  /******* From creation to the ready list *******/

  lemma Creates(cfg: Config)
    ensures var a := CreateTask(1, 5, 1);
            && Enabled(Empty(cfg), a)
            && Next(Empty(cfg), a) == Scene(cfg, Created(), Notice(PENDING, 0), [], Idle, Batch([]))
  {
  }

  lemma Lists(w: World)
    requires Batched(w.cfg) && w == Scene(w.cfg, Created(), Notice(PENDING, 0), [], Idle, Batch([]))
    ensures var a := OfRelay(0, ListEvents([1]));
            Enabled(w, a) && Next(w, a) == Scene(w.cfg, Created(), Notice(PENDING, 0), [], Idle, Batch([FIRST]))
  {
    assert Dispatchable(w) == map[1 := 1];
    assert IsScan(Dispatchable(w), w.cfg.relayBatch, [1]);
    assert Snaps(w, [1]) == [FIRST];
    assert Next(w, OfRelay(0, ListEvents([1]))).relays == [Batch([FIRST])];
  }

  lemma Claims(w: World)
    requires w == Scene(w.cfg, Created(), Notice(PENDING, 0), [], Idle, Batch([FIRST]))
    ensures var a := OfRelay(0, TryMarkDispatching(Done));
            Enabled(w, a) && Next(w, a) == Scene(w.cfg, Created(), Notice(DISPATCHING, 0), [], Idle, Claimed(FIRST, []))
  {
    assert w.relays[0].todo[0] == FIRST && w.relays[0].todo[1..] == [] && w.events[1].status == PENDING;
    var w' := ClaimEvent(w, 0, Done);
    assert w'.relays == [Claimed(FIRST, [])] && w'.events == map[1 := Notice(DISPATCHING, 0)];
  }

  lemma NamesTheTask(w: World)
    requires 1 in w.events && w.events[1].payload == Codec.StoredTaskCreated(1)
    ensures Target(w, 1) == Some(1)
  {
    Codec.ParseMarshalTaskCreated(1);
  }

  lemma Pushes(w: World)
    requires w == Scene(w.cfg, Created(), Notice(DISPATCHING, 0), [], Idle, Claimed(FIRST, []))
    ensures var a := OfRelay(0, PublishReady(Done));
            Enabled(w, a) && Next(w, a) == Scene(w.cfg, Created(), Notice(DISPATCHING, 1), [1], Idle, Pushed(FIRST, []))
  {
    hide Target, Codec.StoredTaskCreated;
    NamesTheTask(w);
    var w' := Next(w, OfRelay(0, PublishReady(Done)));
    assert w'.relays == [Pushed(FIRST, [])] && w'.events == map[1 := Notice(DISPATCHING, 1)] && w'.q.ready == [1];
  }

  lemma Marks(w: World)
    requires w == Scene(w.cfg, Created(), Notice(DISPATCHING, 1), [1], Idle, Pushed(FIRST, []))
    ensures var a := OfRelay(0, MarkPublished(Done));
            Enabled(w, a) && Next(w, a) == Scene(w.cfg, Created(), Notice(PUBLISHED, 1), [1], Idle, Batch([]))
  {
    var w' := Next(w, OfRelay(0, MarkPublished(Done)));
    assert w'.relays == [Batch([])] && w'.events == map[1 := Notice(PUBLISHED, 1)];
  }

  lemma Pops(w: World)
    requires w == Scene(w.cfg, Created(), Notice(PUBLISHED, 1), [1], Idle, Batch([]))
    ensures var a := OfWorker(0, Pop);
            Enabled(w, a) && Next(w, a) == Scene(w.cfg, Created(), Notice(PUBLISHED, 1), [], Popped(1), Batch([]))
  {
    assert Next(w, OfWorker(0, Pop)).workers == [Popped(1)] && Next(w, OfWorker(0, Pop)).q.ready == [];
  }

  lemma Delivers(cfg: Config) returns (acts: seq<Action>)
    requires Batched(cfg)
    ensures Run(Empty(cfg), acts, Scene(cfg, Created(), Notice(PUBLISHED, 1), [], Popped(1), Batch([])))
  {
    hide Run, Next, Enabled, Notice, Created;
    var w0 := Empty(cfg);
    var w1 := Scene(cfg, Created(), Notice(PENDING, 0), [], Idle, Batch([]));
    var w2 := Scene(cfg, Created(), Notice(PENDING, 0), [], Idle, Batch([FIRST]));
    var w3 := Scene(cfg, Created(), Notice(DISPATCHING, 0), [], Idle, Claimed(FIRST, []));
    var w4 := Scene(cfg, Created(), Notice(DISPATCHING, 1), [1], Idle, Pushed(FIRST, []));
    var w5 := Scene(cfg, Created(), Notice(PUBLISHED, 1), [1], Idle, Batch([]));
    acts := [];
    Nothing(w0);
    Creates(cfg);
    acts := Extend(w0, acts, w0, CreateTask(1, 5, 1));
    Lists(w1);
    acts := Extend(w0, acts, w1, OfRelay(0, ListEvents([1])));
    Claims(w2);
    acts := Extend(w0, acts, w2, OfRelay(0, TryMarkDispatching(Done)));
    Pushes(w3);
    acts := Extend(w0, acts, w3, OfRelay(0, PublishReady(Done)));
    Marks(w4);
    acts := Extend(w0, acts, w4, OfRelay(0, MarkPublished(Done)));
    Pops(w5);
    acts := Extend(w0, acts, w5, OfWorker(0, Pop));
  }

  lemma Nothing(w: World)
    ensures Run(w, [], w)
  {
  }

  lemma Extend(w0: World, acts: seq<Action>, w: World, a: Action) returns (more: seq<Action>)
    requires Run(w0, acts, w) && Enabled(w, a)
    ensures Run(w0, more, Next(w, a))
  {
    RunSnoc(w0, acts, w, a);
    more := acts + [a];
  }

  /******* A lost id *******/

  lemma Drops(w: World)
    requires w == Scene(w.cfg, Created(), Notice(PUBLISHED, 1), [], Popped(1), Batch([]))
    ensures var a := OfWorker(0, Drop);
            Enabled(w, a) && DeliveryTheorems.Lost(Next(w, a), 1)
  {
    var w' := Next(w, OfWorker(0, Drop));
    assert w'.workers == [Idle] && w'.relays == [Batch([])] && w'.q == Queue([], map[], []);
  }

  /** Creating one task, relaying it, popping it and failing before `TryMarkRunning` loses it. */
  lemma LossIsReachable(cfg: Config) returns (w0: World, acts: seq<Action>, w: World)
    requires Batched(cfg)
    ensures Initial(w0) && w0.cfg == cfg && Run(w0, acts, w) && DeliveryTheorems.Lost(w, 1)
  {
    hide Run;
    w0 := Empty(cfg);
    acts := Delivers(cfg);
    var w6 := Scene(cfg, Created(), Notice(PUBLISHED, 1), [], Popped(1), Batch([]));
    Drops(w6);
    w := Next(w6, OfWorker(0, Drop));
    acts := Extend(w0, acts, w6, OfWorker(0, Drop));
  }

  /******* A stranded replay *******/

  ghost function Running(): T.Task { T.Apply(Created(), T.TryMarkRunning, 0) }
  ghost function Failed(cfg: Config): T.Task { T.Apply(Running(), T.MarkFailed(cfg.retryBackoff), 0) }
  ghost function Reopened(cfg: Config): T.Task { T.Apply(Failed(cfg), T.MarkReplayReady, 0) }

  ghost function Retry(cfg: Config): int { T.Backoff(1, cfg.retryBackoff) }

  lemma Starts(w: World)
    requires w == Scene(w.cfg, Created(), Notice(PUBLISHED, 1), [], Popped(1), Batch([]))
    ensures var a := OfWorker(0, TryMarkRunning);
            Enabled(w, a) && Next(w, a) == Scene(w.cfg, Running(), Notice(PUBLISHED, 1), [], Handling(1), Batch([]))
  {
    var w' := Next(w, OfWorker(0, TryMarkRunning));
    assert w'.workers == [Handling(1)] && w'.tasks == map[1 := Running()];
  }

  lemma Errs(w: World)
    requires w == Scene(w.cfg, Running(), Notice(PUBLISHED, 1), [], Handling(1), Batch([]))
    ensures var a := OfWorker(0, Handle(false));
            Enabled(w, a) && Next(w, a) == Scene(w.cfg, Running(), Notice(PUBLISHED, 1), [], Errored(1), Batch([]))
  {
    assert Next(w, OfWorker(0, Handle(false))).workers == [Errored(1)];
  }

  lemma Fails(w: World)
    requires w == Scene(w.cfg, Running(), Notice(PUBLISHED, 1), [], Errored(1), Batch([]))
    ensures var a := OfWorker(0, MarkFailed(Done));
            && Enabled(w, a)
            && Next(w, a) == Scene(w.cfg, Failed(w.cfg), Notice(PUBLISHED, 1), [], ToRetry(1, Retry(w.cfg)), Batch([]))
  {
    hide T.Backoff;
    var w' := Next(w, OfWorker(0, MarkFailed(Done)));
    assert w'.tasks == map[1 := Failed(w.cfg)];
    assert w'.workers == [ToRetry(1, Retry(w.cfg))];
  }

  lemma Misses(w: World)
    requires w == Scene(w.cfg, Failed(w.cfg), Notice(PUBLISHED, 1), [], ToRetry(1, Retry(w.cfg)), Batch([]))
    ensures var a := OfWorker(0, ScheduleRetry(Outcome.Failed));
            Enabled(w, a) && Next(w, a) == Scene(w.cfg, Failed(w.cfg), Notice(PUBLISHED, 1), [], Idle, Batch([]))
  {
    assert Next(w, OfWorker(0, ScheduleRetry(Outcome.Failed))).workers == [Idle];
  }

  lemma Reopens(w: World)
    requires w == Scene(w.cfg, Failed(w.cfg), Notice(PUBLISHED, 1), [], Idle, Batch([]))
    ensures var a := OfAdmin(0, Reopen(1, Outcome.Lost));
            Enabled(w, a) && Next(w, a) == Scene(w.cfg, Reopened(w.cfg), Notice(PUBLISHED, 1), [], Idle, Batch([]))
  {
    hide T.Backoff;
    var w' := Next(w, OfAdmin(0, Reopen(1, Outcome.Lost)));
    assert w'.tasks == map[1 := Reopened(w.cfg)] && w'.admins == [NoReplay];
  }

  lemma StuckThere(w: World)
    requires w == Scene(w.cfg, Reopened(w.cfg), Notice(PUBLISHED, 1), [], Idle, Batch([]))
    ensures Stuck(w, 1) && w.tasks[1].status == T.FAILED
  {
    hide T.Backoff;
  }

  /** A handler error, a retry that could not be scheduled and a replay whose update is applied but
      not acknowledged: the row is FAILED, and no fault-free schedule brings it to SUCCESS. */
  lemma StrandingIsReachable(cfg: Config) returns (w0: World, acts: seq<Action>, w: World)
    requires Batched(cfg)
    ensures Initial(w0) && Run(w0, acts, w) && Staffed(w) && w.cfg == cfg
    ensures 1 in w.tasks && w.tasks[1].status == T.FAILED && Stuck(w, 1) && !CanSucceed(w, 1)
  {
    hide Run, Next, Enabled, Notice, CanSucceed, Stuck;
    w0 := Empty(cfg);
    acts := Delivers(cfg);
    var w6 := Scene(cfg, Created(), Notice(PUBLISHED, 1), [], Popped(1), Batch([]));
    var w7 := Scene(cfg, Running(), Notice(PUBLISHED, 1), [], Handling(1), Batch([]));
    var w8 := Scene(cfg, Running(), Notice(PUBLISHED, 1), [], Errored(1), Batch([]));
    var w9 := Scene(cfg, Failed(cfg), Notice(PUBLISHED, 1), [], ToRetry(1, Retry(cfg)), Batch([]));
    var w10 := Scene(cfg, Failed(cfg), Notice(PUBLISHED, 1), [], Idle, Batch([]));
    Starts(w6);
    acts := Extend(w0, acts, w6, OfWorker(0, TryMarkRunning));
    Errs(w7);
    acts := Extend(w0, acts, w7, OfWorker(0, Handle(false)));
    Fails(w8);
    acts := Extend(w0, acts, w8, OfWorker(0, MarkFailed(Done)));
    Misses(w9);
    acts := Extend(w0, acts, w9, OfWorker(0, ScheduleRetry(Outcome.Failed)));
    Reopens(w10);
    acts := Extend(w0, acts, w10, OfAdmin(0, Reopen(1, Outcome.Lost)));
    w := Scene(cfg, Reopened(cfg), Notice(PUBLISHED, 1), [], Idle, Batch([]));
    StuckThere(w);
    RecoverableUnlessStuck(w0, acts, w, 1);
  }
}
