/** Recoverability: from every reachable state a finite fault-free schedule of clock, relay,
    compensator, mover and worker steps carries any unfinished, untouched task to SUCCESS, despite
    batch limits, scan order and FIFO draining. */
module Recovery {
  import opened Common
  import T = Tasks
  import opened Delivery
  import opened DeliveryInvariants
  import opened DeliveryTheorems

  /******* Fault-free schedules *******/

  /** No lost or failed operation, no crash, no handler error, no drop, no new task, event or replay; a
      replay call that is under way may go on. */
  predicate FaultFree(a: Action) {
    match a
    case Tick(_) => true
    case OfWorker(_, wa) =>
      (match wa
       case Pop => true
       case TryMarkRunning => true
       case Handle(ok) => ok
       case MarkSuccess(o) => o.Done?
       case MarkSuspended(o) => o.Done?
       case MarkFailed(o) => o.Done?
       case PushDlq(o) => o.Done?
       case ScheduleRetry(o) => o.Done?
       case _ => false)
    case OfRelay(_, ra) =>
      (match ra
       case RecoverStale(_) => true
       case ListEvents(_) => true
       case RelayCrash => false
       case _ => ra.o.Done?)
    case OfMover(_, ma) =>
      (match ma
       case ListRetry(_) => true
       case MoverCrash => false
       case _ => ma.o.Done?)
    case OfComp(_, ca) =>
      (match ca
       case RecoverNext(o) => o.Done?
       case ScheduleNext(o) => o.Done?
       case CompCrash => false
       case _ => true)
    case OfAdmin(_, aa) =>
      (match aa
       case MoveFromDlq(o) => o.Done?
       case Restore(o) => o.Done?
       case _ => false)
    case _ => false
  }

  ghost predicate AllFaultFree(acts: seq<Action>) {
    forall k :: 0 <= k < |acts| ==> FaultFree(acts[k])
  }

  ghost predicate Goes(w: World, w': World) {
    exists acts :: AllFaultFree(acts) && Run(w, acts, w')
  }

  lemma Stay(w: World)
    ensures Goes(w, w)
  {
    assert Run(w, [], w);
  }

  lemma Step(w: World, a: Action)
    requires Enabled(w, a) && FaultFree(a)
    ensures Goes(w, Next(w, a))
  {
    hide Next, Enabled;
    var w' := Next(w, a);
    assert Run(w', [], w');
    assert [a][1..] == [];
    assert Run(w, [a], w');
  }

  lemma Then(w: World, w1: World, w2: World)
    requires Goes(w, w1) && Goes(w1, w2)
    ensures Goes(w, w2)
  {
    hide Run;
    var a :| AllFaultFree(a) && Run(w, a, w1);
    var b :| AllFaultFree(b) && Run(w1, b, w2);
    RunConcat(w, a, w1, b, w2);
  }

  lemma GoesKeepsInv(w: World, w': World)
    requires Inv(w) && Goes(w, w')
    ensures Inv(w')
  {
    hide Inv, Run;
    var acts :| AllFaultFree(acts) && Run(w, acts, w');
    RunKeepsInv(w, acts, w');
  }

  /** Somebody is there to do each job, and every batch takes at least one row. */
  predicate Staffed(w: World) {
    && |w.workers| >= 1 && |w.relays| >= 1 && |w.movers| >= 1 && |w.comps| >= 1
    && w.cfg.relayBatch >= 1 && w.cfg.moverBatch >= 1 && w.cfg.compBatch >= 1
  }

  /******* Scans exist *******/

  lemma {:induction false} MinKey(m: map<int, int>) returns (k: int)
    requires m.Keys != {}
    ensures k in m && forall j :: j in m ==> m[k] <= m[j]
    decreases |m|
  {
    var x := Choose(m.Keys);
    var rest := m - {x};
    assert rest.Keys == m.Keys - {x};
    if rest.Keys == {} {
      k := x;
      forall j | j in m
        ensures m[k] <= m[j]
      {
        assert j != x ==> j in rest.Keys;
      }
    } else {
      var y := MinKey(rest);
      k := if m[x] <= m[y] then x else y;
      assert forall j :: j in m ==> j == x || j in rest;
    }
  }

  lemma {:induction false} ScanExists(m: map<int, int>, limit: nat) returns (out: seq<int>)
    ensures IsScan(m, limit, out)
    decreases limit
  {
    if limit == 0 || m.Keys == {} {
      out := [];
      assert m.Keys == {} ==> |m| == 0;
    } else {
      var k := MinKey(m);
      var rest := m - {k};
      assert rest.Keys == m.Keys - {k};
      assert |rest| == |m| - 1;
      var tail := ScanExists(rest, limit - 1);
      out := [k] + tail;
      ScanCons(m, k, limit, tail);
    }
  }

  lemma ScanCons(m: map<int, int>, k: int, limit: nat, tail: seq<int>)
    requires k in m && (forall j :: j in m ==> m[k] <= m[j]) && limit >= 1
    requires |m - {k}| == |m| - 1 && IsScan(m - {k}, limit - 1, tail)
    ensures IsScan(m, limit, [k] + tail)
  {
    var out, rest := [k] + tail, m - {k};
    forall i | 0 < i < |out|
      ensures out[i] == tail[i - 1] && out[i] in rest && out[i] in m && out[i] != k && rest[out[i]] == m[out[i]]
    {
    }
    forall i, j | 0 <= i < j < |out|
      ensures out[i] != out[j] && m[out[i]] <= m[out[j]]
    {
      if i > 0 {
        assert rest[tail[i - 1]] <= rest[tail[j - 1]];
      }
    }
    forall i, j | 0 <= i < |out| && j in m && j !in out
      ensures m[out[i]] <= m[j]
    {
      assert j != out[0] && j in rest && j !in tail;
      if i > 0 {
        assert rest[tail[i - 1]] <= rest[j];
      }
    }
  }

  lemma ScanFinds(m: map<int, int>, limit: nat, out: seq<int>)
    requires IsScan(m, limit, out) && limit >= 1 && m.Keys != {}
    ensures |out| >= 1 && out[0] in m
  {
    assert |m.Keys| >= 1;
    assert |m| >= 1;
  }

  /******* Compensator *******/

  /** What a compensator may do to rows: turn RUNNING or SUSPENDED ones into FAILED ones. */
  ghost predicate OnlyRecovers(ts: map<int, T.Task>, ts': map<int, T.Task>) {
    && ts'.Keys == ts.Keys
    && forall id :: id in ts ==>
         || ts'[id] == ts[id]
         || (T.CanRecover(ts[id]) && ts'[id].status == T.FAILED && ts'[id].nextRetry.Some?)
  }

  /** Works off the list of rows to recover. */
  lemma {:induction false} RecoverAll(w: World, c: nat) returns (w': World)
    requires c < |w.comps| && w.comps[c].Recovering?
    ensures Goes(w, w') && OnlyRecovers(w.tasks, w'.tasks)
    ensures |w'.comps| == |w.comps| && w' == w.(tasks := w'.tasks, comps := w.comps[c := w'.comps[c]])
    ensures w'.comps[c].Recovering? && w'.comps[c].todo == [] && w.comps[c].cands <= w'.comps[c].cands
    ensures forall id :: id in w.comps[c].todo && id in w'.tasks ==> !T.CanRecover(w'.tasks[id])
    decreases |w.comps[c].todo|
  {
    var todo := w.comps[c].todo;
    if todo == [] {
      Stay(w);
      w' := w;
    } else {
      var a := OfComp(c, RecoverNext(Done));
      var w1 := Next(w, a);
      Step(w, a);
      assert w1.comps[c].todo == todo[1..];
      w' := RecoverAll(w1, c);
      Then(w, w1, w');
      RecoveredStays(w, w1, w', todo);
    }
  }

  lemma RecoveredStays(w: World, w1: World, w': World, todo: seq<int>)
    requires todo != [] && w1.tasks == OnTask(w, todo[0], T.MarkRecovered).tasks
    requires OnlyRecovers(w1.tasks, w'.tasks)
    requires forall id :: id in todo[1..] && id in w'.tasks ==> !T.CanRecover(w'.tasks[id])
    ensures OnlyRecovers(w.tasks, w'.tasks)
    ensures forall id :: id in todo && id in w'.tasks ==> !T.CanRecover(w'.tasks[id])
  {
    forall id | id in todo && id in w'.tasks
      ensures !T.CanRecover(w'.tasks[id])
    {
      if id != todo[0] {
        assert id in todo[1..];
      }
    }
  }

  /** Schedules every remaining candidate. */
  lemma {:induction false} ScheduleAll(w: World, c: nat) returns (w': World)
    requires c < |w.comps| && w.comps[c].Scheduling? && w.comps[c].cands != []
    ensures Goes(w, w')
    ensures w' == w.(q := w.q.(retry := w'.q.retry), comps := w.comps[c := Resting])
    ensures forall id :: id in w.q.retry ==> id in w'.q.retry
    ensures forall id :: id in w.comps[c].cands ==> id in w'.q.retry
    decreases |w.comps[c].cands|
  {
    var cands := w.comps[c].cands;
    var a := OfComp(c, ScheduleNext(Done));
    var w1 := Next(w, a);
    Step(w, a);
    if cands[1..] == [] {
      w' := w1;
    } else {
      w' := ScheduleAll(w1, c);
      Then(w, w1, w');
      assert w1.comps[c := Resting] == w.comps[c := Resting];
    }
    forall id | id in cands
      ensures id in w'.q.retry
    {
      assert id == cands[0] || id in cands[1..];
    }
  }

  /** From the end of the recovery loop to the end of the pass. */
  lemma FinishScheduling(w: World, c: nat) returns (w': World)
    requires c < |w.comps| && w.comps[c].Recovering? && w.comps[c].todo == []
    ensures Goes(w, w')
    ensures w' == w.(q := w.q.(retry := w'.q.retry), comps := w.comps[c := Resting])
    ensures forall id :: id in w.q.retry ==> id in w'.q.retry
    ensures forall id :: id in w.comps[c].cands ==> id in w'.q.retry
  {
    var a := OfComp(c, Begin);
    var w1 := Next(w, a);
    Step(w, a);
    if w.comps[c].cands == [] {
      w' := w1;
    } else {
      w' := ScheduleAll(w1, c);
      Then(w, w1, w');
      assert w1.comps[c := Resting] == w.comps[c := Resting];
    }
  }

  /** The common outcome of the rest of a pass: rows only recover, retries only get added. */
  ghost predicate AfterPass(w: World, c: nat, w': World) {
    && c < |w.comps|
    && w' == w.(tasks := w'.tasks, q := w.q.(retry := w'.q.retry), comps := w.comps[c := Resting])
    && OnlyRecovers(w.tasks, w'.tasks)
    && forall id :: id in w.q.retry ==> id in w'.q.retry
  }

  lemma FinishRecovering(w: World, c: nat) returns (w': World)
    requires c < |w.comps| && w.comps[c].Recovering?
    ensures Goes(w, w') && AfterPass(w, c, w')
    ensures forall id :: id in w.comps[c].todo && id in w'.tasks ==> !T.CanRecover(w'.tasks[id])
    ensures forall id :: id in w.comps[c].cands ==> id in w'.q.retry
  {
    var w1 := RecoverAll(w, c);
    w' := FinishScheduling(w1, c);
    Then(w, w1, w');
    assert w1.comps[c := Resting] == w.comps[c := Resting];
    assert forall id :: id in w.comps[c].cands ==> id in w1.comps[c].cands;
  }

  /** If some row in that status was stale, one of those rows got recovered. */
  ghost predicate Shrinks(w: World, status: T.Status, before: int, w': World) {
    Stale(w, status, before).Keys != {} ==>
      exists id :: id in Stale(w, status, before) && id in w'.tasks && !T.CanRecover(w'.tasks[id])
  }

  ghost predicate DueScheduled(w: World, w': World) {
    DueFailed(w).Keys != {} ==> exists id :: id in DueFailed(w) && id in w'.q.retry
  }

  lemma ShrinkWitness(w: World, status: T.Status, before: int, w': World, id: int)
    requires id in Stale(w, status, before) && id in w'.tasks && !T.CanRecover(w'.tasks[id])
    ensures Shrinks(w, status, before, w')
  {
  }

  lemma DueWitness(w: World, w': World, id: int)
    requires id in DueFailed(w) && id in w'.q.retry
    ensures DueScheduled(w, w')
  {
  }

  /** The last scan and what follows it. */
  lemma FinishSuspects(w: World, c: nat) returns (w': World)
    requires c < |w.comps| && w.comps[c].Suspects? && w.cfg.compBatch >= 1
    ensures Goes(w, w') && AfterPass(w, c, w')
    ensures forall id :: id in w.comps[c].due ==> id in w'.q.retry
    ensures forall id :: id in w.comps[c].suspended && id in w'.tasks ==> !T.CanRecover(w'.tasks[id])
    ensures Shrinks(w, T.RUNNING, w.comps[c].staleBefore, w')
  {
    var m := Stale(w, T.RUNNING, w.comps[c].staleBefore);
    var batch := ScanExists(m, w.cfg.compBatch);
    var a := OfComp(c, ListRunning(batch));
    var w1 := Next(w, a);
    Step(w, a);
    w' := FinishRecovering(w1, c);
    Then(w, w1, w');
    assert w1.comps[c := Resting] == w.comps[c := Resting];
    assert forall id :: id in w.comps[c].suspended ==> id in batch + w.comps[c].suspended;
    if m.Keys != {} {
      ScanFinds(m, w.cfg.compBatch, batch);
      assert batch[0] in batch + w.comps[c].suspended;
      ShrinkWitness(w, T.RUNNING, w.comps[c].staleBefore, w', batch[0]);
    }
  }

  lemma FinishDue(w: World, c: nat) returns (w': World)
    requires c < |w.comps| && w.comps[c].Due? && w.cfg.compBatch >= 1
    ensures Goes(w, w') && AfterPass(w, c, w')
    ensures forall id :: id in w.comps[c].due ==> id in w'.q.retry
    ensures Shrinks(w, T.RUNNING, w.now - w.cfg.staleTimeout, w') && Shrinks(w, T.SUSPENDED, w.now - w.cfg.staleTimeout, w')
  {
    var before := w.now - w.cfg.staleTimeout;
    var m := Stale(w, T.SUSPENDED, before);
    var batch := ScanExists(m, w.cfg.compBatch);
    var a := OfComp(c, ListSuspended(batch));
    var w1 := Next(w, a);
    Step(w, a);
    assert Stale(w1, T.RUNNING, before) == Stale(w, T.RUNNING, before);
    assert w1.comps[c] == Suspects(w.comps[c].due, batch, before);
    w' := FinishSuspects(w1, c);
    assert forall id :: id in batch && id in w'.tasks ==> !T.CanRecover(w'.tasks[id]);
    Then(w, w1, w');
    assert w1.comps[c := Resting] == w.comps[c := Resting];
    if m.Keys != {} {
      ScanFinds(m, w.cfg.compBatch, batch);
      assert batch[0] in batch;
      ShrinkWitness(w, T.SUSPENDED, before, w', batch[0]);
    }
  }

  /** A whole pass of a resting compensator: at least one due FAILED row gets scheduled, and at least
      one stale RUNNING and one stale SUSPENDED row gets recovered, if there is any. */
  lemma Pass(w: World, c: nat) returns (w': World)
    requires c < |w.comps| && w.comps[c].Resting? && w.cfg.compBatch >= 1
    ensures Goes(w, w') && AfterPass(w, c, w')
    ensures DueScheduled(w, w')
    ensures Shrinks(w, T.RUNNING, w.now - w.cfg.staleTimeout, w') && Shrinks(w, T.SUSPENDED, w.now - w.cfg.staleTimeout, w')
  {
    var m := DueFailed(w);
    var batch := ScanExists(m, w.cfg.compBatch);
    var a := OfComp(c, ListFailed(batch));
    var w1 := Next(w, a);
    Step(w, a);
    var before := w.now - w.cfg.staleTimeout;
    assert Stale(w1, T.RUNNING, before) == Stale(w, T.RUNNING, before);
    assert Stale(w1, T.SUSPENDED, before) == Stale(w, T.SUSPENDED, before);
    assert w1.comps[c] == Due(batch);
    w' := FinishDue(w1, c);
    assert forall id :: id in batch ==> id in w'.q.retry;
    Then(w, w1, w');
    assert w1.comps[c := Resting] == w.comps[c := Resting];
    if m.Keys != {} {
      ScanFinds(m, w.cfg.compBatch, batch);
      assert batch[0] in batch;
      DueWitness(w, w', batch[0]);
    }
  }

  /** Brings a compensator back to rest, wherever it was; what it was going to schedule gets scheduled. */
  lemma FinishComp(w: World, c: nat) returns (w': World)
    requires c < |w.comps| && w.cfg.compBatch >= 1 && (w.comps[c].Scheduling? ==> w.comps[c].cands != [])
    ensures Goes(w, w') && AfterPass(w, c, w')
    ensures forall id :: CompCarries(w.comps[c], id) ==> id in w'.q.retry
  {
    match w.comps[c]
    case Resting =>
      Stay(w);
      w' := w;
      assert w.comps[c := Resting] == w.comps;
    case Due(_) => w' := FinishDue(w, c);
    case Suspects(_, _, _) => w' := FinishSuspects(w, c);
    case Recovering(_, _) => w' := FinishRecovering(w, c);
    case Scheduling(_, _) => w' := ScheduleAll(w, c);
  }
}
