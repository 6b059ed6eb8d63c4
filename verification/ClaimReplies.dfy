/** What a client of the claim protocol is told: a committed claim is always granted, there are at most
    two attempts, and a client that runs alone and without faults ends in exactly the stores and the
    reply of the sequential specification. */
module ClaimReplies {
  import opened Common
  import Codec
  import L = Ledger
  import R = Adjudicator
  import P = ClaimProtocol
  import F = ClaimRefinement

  /******* After the transaction *******/

  /** Once the transaction has returned there is only one answer left: the committed claim is granted,
      the ledger's objection is passed on, and an error of the store is an internal error. */
  predicate Told(pc: P.Pc, reply: P.Reply) {
    match pc
    case Persisted(_, claim) => reply == P.Granted(claim)
    case Undoing(_, e) => ToldError(e, reply)
    case Undone(_, e) => ToldError(e, reply)
    case Replied(r) => reply == r
    case _ => false
  }

  predicate ToldError(e: L.ClaimError, reply: P.Reply) {
    reply == P.Refused(if e == L.StoreError then P.Internal else P.Rejected(e))
  }

  lemma ToldStep(s: P.State, a: P.Action, i: nat, reply: P.Reply)
    requires P.Enabled(s, a) && i < |s.clients| && Told(s.clients[i].pc, reply)
    ensures var s' := P.Next(s, a); i < |s'.clients| && Told(s'.clients[i].pc, reply)
  {
    hide R.Decide, L.PersistClaim, R.Hydrate, R.Finalize, R.Rollback, L.FindById;
  }

  lemma {:induction false} ToldStays(s: P.State, acts: seq<P.Action>, s': P.State, i: nat, reply: P.Reply)
    requires P.Run(s, acts, s') && i < |s.clients| && Told(s.clients[i].pc, reply)
    ensures i < |s'.clients| && Told(s'.clients[i].pc, reply)
    decreases |acts|
  {
    hide P.Next, P.Enabled, Told;
    if acts != [] {
      ToldStep(s, acts[0], i, reply);
      ToldStays(P.Next(s, acts[0]), acts[1..], s', i, reply);
    }
  }

  /** Whatever happens to Finalize or to anybody else, a client whose claim is committed and who gets a
      reply is told that it has the claim. */
  lemma CommittedIsGranted(s: P.State, acts: seq<P.Action>, s': P.State, i: nat, claim: L.Claim)
    requires P.Run(s, acts, s') && i < |s.clients| && s.clients[i].pc.Persisted? && s.clients[i].pc.claim == claim
    ensures i < |s'.clients| && (s'.clients[i].pc.Replied? ==> s'.clients[i].pc.reply == P.Granted(claim))
  {
    ToldStays(s, acts, s', i, P.Granted(claim));
  }

  /** And whatever happens to Rollback, a client whose claim the ledger turned down hears why. */
  lemma RejectedIsTold(s: P.State, acts: seq<P.Action>, s': P.State, i: nat, e: L.ClaimError)
    requires P.Run(s, acts, s') && i < |s.clients| && s.clients[i].pc.Undoing? && s.clients[i].pc.error == e
    ensures i < |s'.clients|
    ensures s'.clients[i].pc.Replied? ==>
              s'.clients[i].pc.reply == if e.StoreError? then P.Refused(P.Internal) else P.Refused(P.Rejected(e))
  {
    ToldStays(s, acts, s', i, if e.StoreError? then P.Refused(P.Internal) else P.Refused(P.Rejected(e)));
  }

  /** Which of the two it is, is what `Persist` decides for an admitted client. */
  lemma PersistCommits(s: P.State, i: nat, now: int, ids: L.RowIds, ok: bool)
    requires P.Enabled(s, P.Persist(i, now, ids, ok))
    ensures var s', req := P.Next(s, P.Persist(i, now, ids, ok)), s.clients[i].req;
            var (db, reply) := L.PersistClaim(s.db, now, req, ids);
            && s'.redis == s.redis
            && (ok && reply.Ok? ==> s'.db == db && Told(s'.clients[i].pc, P.Granted(reply.claim)))
            && (ok && reply.Err? ==> s'.db == s.db && Told(s'.clients[i].pc, P.Refused(P.Rejected(reply.error))))
            && (!ok ==> s'.db == s.db && Told(s'.clients[i].pc, P.Refused(P.Internal)))
  {
  }

  /******* At most two attempts *******/

  /** An attempt in progress is the first or the second, and no client is told about store errors. */
  predicate Orderly(pc: P.Pc) {
    match pc
    case Deciding(n, _) => n < 2
    case Missed(n) => n < 2
    case Loaded(n, _) => n < 2
    case Polling(n) => n < 2
    case Fetching(n, _, _) => n < 2
    case Undecided(n) => n < 2
    case Replied(Refused(Rejected(e))) => e != L.StoreError
    case _ => true
  }

  ghost predicate AllOrderly(s: P.State) {
    forall i :: 0 <= i < |s.clients| ==> Orderly(s.clients[i].pc)
  }

  /** One step, one client: the one that moves, one that arrives, or a bystander. */
  lemma OrderlyClient(s: P.State, a: P.Action, i: nat)
    requires P.Enabled(s, a) && i < |P.Next(s, a).clients| && (i < |s.clients| ==> Orderly(s.clients[i].pc))
    ensures Orderly(P.Next(s, a).clients[i].pc)
  {
    hide R.Decide, L.PersistClaim, R.Hydrate, R.Finalize, R.Rollback, L.FindById;
  }

  lemma OrderlyStep(s: P.State, a: P.Action)
    requires P.Enabled(s, a) && AllOrderly(s)
    ensures AllOrderly(P.Next(s, a))
  {
    hide P.Next, P.Enabled, Orderly;
    forall i | 0 <= i < |P.Next(s, a).clients|
      ensures Orderly(P.Next(s, a).clients[i].pc)
    {
      OrderlyClient(s, a, i);
    }
  }

  lemma {:induction false} OrderlyRun(s: P.State, acts: seq<P.Action>, s': P.State)
    requires P.Run(s, acts, s') && AllOrderly(s)
    ensures AllOrderly(s')
    decreases |acts|
  {
    hide P.Next, P.Enabled, Orderly;
    if acts != [] {
      OrderlyStep(s, acts[0]);
      OrderlyRun(P.Next(s, acts[0]), acts[1..], s');
    }
  }

  /** In every run every client makes at most two attempts. */
  lemma AtMostTwoAttempts(base: L.Ledger, acts: seq<P.Action>, s: P.State)
    requires P.Run(P.Start(base), acts, s)
    ensures AllOrderly(s)
  {
    hide P.Run;
    OrderlyRun(P.Start(base), acts, s);
  }

  /** "Still being processed" is the answer after the second attempt, and only then. */
  lemma BusyAfterTwo(s: P.State, i: nat, rid: string)
    requires P.Enabled(s, P.NextAttempt(i, rid)) && Orderly(s.clients[i].pc)
    ensures var pc' := P.Next(s, P.NextAttempt(i, rid)).clients[i].pc;
            if s.clients[i].pc.attempt == 0 then pc' == P.Deciding(1, rid) else pc' == P.Replied(P.Refused(P.Busy))
  {
  }

  /******* A client alone *******/

  /** A fault-free step of client `i` serving `call`. */
  predicate Solo(s: P.State, a: P.Action, i: nat, call: F.Call) {
    i < |s.clients| &&
    match a
    case Decide(j, now, o, _) => j == i && now == call.now && o.Done?
    case LoadCampaign(j, ok) => j == i && ok
    case EnsureCampaign(j, o, _) => j == i && o.Done?
    case Poll(j, ok, _) => j == i && ok
    case Fetch(j, ok) => j == i && ok
    case NextAttempt(j, rid) => j == i && s.clients[i].pc.Undecided? && (s.clients[i].pc.attempt == 0 ==> rid == call.again)
    case Persist(j, now, ids, ok) => j == i && now == call.now && ids == call.ids && ok
    case Finalize(j, o, _) => j == i && o.Done?
    case Rollback(j, o, _) => j == i && o.Done?
    case _ => false
  }

  ghost predicate SoloRun(s: P.State, acts: seq<P.Action>, s': P.State, i: nat, call: F.Call)
    decreases |acts|
  {
    if acts == [] then s' == s
    else P.Enabled(s, acts[0]) && Solo(s, acts[0], i, call) && SoloRun(P.Next(s, acts[0]), acts[1..], s', i, call)
  }

  function StoresOf(s: P.State): F.Stores { F.Stores(s.db, s.redis) }

  function Hydrated(st: F.Stores, c: int, camp: L.Campaign): F.Stores {
    st.(redis := R.Hydrate(st.redis, c, camp))
  }

  /** The next attempt, if there is one. */
  function Again(st: F.Stores, call: F.Call, n: nat): (F.Stores, P.Reply) {
    F.FastClaim(st, call.(rid := call.again), if n == 0 then 1 else 0)
  }

  /** How the sequential specification goes on from each point of the client's program. */
  function Rest(st: F.Stores, call: F.Call, pc: P.Pc): (F.Stores, P.Reply) {
    match pc
    case Deciding(n, rid) => F.FastClaim(st, call.(rid := rid), if n == 0 then 2 else 1)
    case Missed(n) =>
      if call.req.coupon !in st.db.campaigns then (st, P.Refused(P.Rejected(L.NotFound)))
      else Again(Hydrated(st, call.req.coupon, st.db.campaigns[call.req.coupon]), call, n)
    case Loaded(n, camp) => Again(Hydrated(st, call.req.coupon, camp), call, n)
    case Polling(n) => Again(st, call, n)
    case Undecided(n) => Again(st, call, n)
    case Fetching(n, id, waited) =>
      (match L.FindById(st.db.claims, id)
       case Some(claim) => (st, P.Granted(claim))
       case None => if waited then Again(st, call, n) else (st, P.Refused(P.Internal)))
    case Admitted(rid) =>
      (match L.PersistClaim(st.db, call.now, call.req, call.ids)
       case (db', Ok(claim)) => (F.Stores(db', R.Finalize(st.redis, call.req, rid, claim.id)), P.Granted(claim))
       case (db', Err(e)) => (F.Stores(db', R.Rollback(st.redis, call.req, rid)), P.Refused(P.MapError(e))))
    case Persisted(rid, claim) => (st.(redis := R.Finalize(st.redis, call.req, rid, claim.id)), P.Granted(claim))
    case Undoing(rid, e) => (st.(redis := R.Rollback(st.redis, call.req, rid)), P.Refused(P.MapError(e)))
    case Undone(rid, e) => (st.(redis := R.Rollback(st.redis, call.req, rid)), P.Refused(P.MapError(e)))
    case Replied(r) => (st, r)
  }

  /** The client serves this request in an orderly way; while it polls, the reservation is there. */
  ghost predicate Serving(s: P.State, i: nat, call: F.Call) {
    && i < |s.clients| && s.clients[i].req == call.req && Orderly(s.clients[i].pc)
    && (s.clients[i].pc.Polling? ==> call.req in s.redis.entries && s.redis.entries[call.req].Pending?)
  }

  /** Decisions that do not admit leave Redis alone where the client does, and an admission carries the
      id that was drawn. */
  lemma DecisionFacts(r: R.Redis, now: int, req: L.Request, rid: string)
    ensures var (r', d) := R.Decide(r, now, req, rid);
            && (d.CampaignMiss? || d.IdemHit? || d.InFlight? ==> r' == r)
            && (d.InFlight? ==> req in r.entries && r.entries[req].Pending?)
            && (d.Admitted? ==> d.rid == rid)
  {
    R.CompensationsAreDead(r, now, req);
  }

  /** After a decision the client goes on as the specification does. */
  lemma DecidedAlike(s: P.State, i: nat, call: F.Call, again: bool)
    requires Serving(s, i, call) && s.clients[i].pc.Deciding?
    ensures var s' := P.DecideStep(s, i, call.now, Done, again);
            Serving(s', i, call) && Rest(StoresOf(s'), call, s'.clients[i].pc) == Rest(StoresOf(s), call, s.clients[i].pc)
  {
    hide R.Decide, L.PersistClaim, R.Hydrate, R.Finalize, R.Rollback;
    var n, rid := s.clients[i].pc.attempt, s.clients[i].pc.rid;
    DecisionFacts(s.redis, call.now, call.req, rid);
    FirstOf(StoresOf(s), call, rid, n);
    var d := R.Decide(s.redis, call.now, call.req, rid).1;
    var s' := P.DecideStep(s, i, call.now, Done, again);
    assert s'.clients[i].pc == P.AfterDecision(d, n);
    assert F.Attempt(StoresOf(s), call.(rid := rid)).1.None? <==> d.InFlight? || (d.CampaignMiss? && call.req.coupon in s.db.campaigns);
    match d
    case CampaignMiss => assert StoresOf(s') == StoresOf(s);
    case Admitted(_) =>
    case _ =>
  }

  lemma FirstOf(st: F.Stores, call: F.Call, rid: string, n: nat)
    ensures F.FastClaim(st, call.(rid := rid), if n == 0 then 2 else 1)
         == match F.Attempt(st, call.(rid := rid))
            case (st', Some(reply)) => (st', reply)
            case (st', None) => Again(st', call, n)
  {
    hide F.Attempt;
  }

  /** Every solo step keeps what the specification says will come out. */
  lemma SoloStep(s: P.State, a: P.Action, i: nat, call: F.Call)
    requires Serving(s, i, call) && P.Enabled(s, a) && Solo(s, a, i, call)
    ensures var s' := P.Next(s, a);
            Serving(s', i, call) && Rest(StoresOf(s'), call, s'.clients[i].pc) == Rest(StoresOf(s), call, s.clients[i].pc)
  {
    if a.Decide? {
      DecidedAlike(s, i, call, a.again);
    }
  }

  lemma {:induction false} SoloKeepsRest(s: P.State, acts: seq<P.Action>, s': P.State, i: nat, call: F.Call)
    requires Serving(s, i, call) && SoloRun(s, acts, s', i, call)
    ensures Serving(s', i, call) && Rest(StoresOf(s'), call, s'.clients[i].pc) == Rest(StoresOf(s), call, s.clients[i].pc)
    decreases |acts|
  {
    hide P.Next, P.Enabled, Rest, Solo;
    if acts != [] {
      SoloStep(s, acts[0], i, call);
      SoloKeepsRest(P.Next(s, acts[0]), acts[1..], s', i, call);
    }
  }

  /** A client that starts to decide and runs alone and without faults, however often it polls, ends in
      exactly the stores and the reply of the sequential specification. */
  lemma SoloIsFastClaim(s: P.State, acts: seq<P.Action>, s': P.State, i: nat, call: F.Call)
    requires i < |s.clients| && s.clients[i] == P.Client(call.req, P.Deciding(0, call.rid))
    requires SoloRun(s, acts, s', i, call)
    ensures i < |s'.clients|
    ensures s'.clients[i].pc.Replied? ==> (StoresOf(s'), s'.clients[i].pc.reply) == F.FastClaim(StoresOf(s), call, 2)
  {
    SoloKeepsRest(s, acts, s', i, call);
  }

  /******* And it does end *******/

  /** Steps still to go. */
  function ToGo(pc: P.Pc): nat {
    match pc
    case Deciding(n, _) => if n == 0 then 11 else 5
    case Missed(n) => if n == 0 then 10 else 4
    case Polling(n) => if n == 0 then 10 else 4
    case Loaded(n, _) => if n == 0 then 9 else 3
    case Fetching(n, _, _) => if n == 0 then 9 else 3
    case Undecided(n) => if n == 0 then 8 else 2
    case Admitted(_) => 2
    case Replied(_) => 0
    case _ => 1
  }

  predicate BeforePersist(pc: P.Pc) {
    !pc.Persisted? && !pc.Undoing? && !pc.Undone? && !pc.Replied?
  }

  predicate FirstAttempt(pc: P.Pc) {
    match pc
    case Deciding(n, _) => n == 0
    case Missed(n) => n == 0
    case Loaded(n, _) => n == 0
    case Polling(n) => n == 0
    case Fetching(n, _, _) => n == 0
    case Undecided(n) => n == 0
    case _ => false
  }

  /** Row ids and the second reservation id are still unused. */
  ghost predicate Supplied(s: P.State, i: nat, call: F.Call)
    requires i < |s.clients|
  {
    && (BeforePersist(s.clients[i].pc) ==> L.FreshIds(s.db, call.ids))
    && (FirstAttempt(s.clients[i].pc) ==> call.again !in s.owner)
  }

  lemma {:induction false} Longest(ks: set<string>) returns (n: nat)
    ensures forall k :: k in ks ==> |k| <= n
    decreases |ks|
  {
    if ks == {} {
      n := 0;
    } else {
      var x := Choose(ks);
      n := Longest(ks - {x});
      n := if |x| > n then |x| else n;
    }
  }

  lemma FreshRid(owner: map<string, nat>) returns (rid: string)
    ensures rid !in owner
  {
    var n := Longest(owner.Keys);
    rid := seq(n + 1, _ => 'x');
    assert |rid| == n + 1;
  }

  /** What the client does next when nothing goes wrong; waiting ends at the deadline. */
  function Move(pc: P.Pc, i: nat, call: F.Call, rid: string): P.Action {
    match pc
    case Deciding(_, _) => P.Decide(i, call.now, Done, false)
    case Missed(_) => P.LoadCampaign(i, true)
    case Loaded(_, _) => P.EnsureCampaign(i, Done, false)
    case Polling(_) => P.Poll(i, true, true)
    case Fetching(_, _, _) => P.Fetch(i, true)
    case Undecided(n) => P.NextAttempt(i, if n == 0 then call.again else rid)
    case Admitted(_) => P.Persist(i, call.now, call.ids, true)
    case Persisted(_, _) => P.Finalize(i, Done, false)
    case _ => P.Rollback(i, Done, false)
  }

  lemma MoveWorks(s: P.State, i: nat, call: F.Call, rid: string)
    requires Serving(s, i, call) && Supplied(s, i, call) && !s.clients[i].pc.Replied? && rid !in s.owner
    ensures var a := Move(s.clients[i].pc, i, call, rid);
            && P.Enabled(s, a) && Solo(s, a, i, call) && i < |P.Next(s, a).clients|
            && Supplied(P.Next(s, a), i, call) && ToGo(P.Next(s, a).clients[i].pc) < ToGo(s.clients[i].pc)
  {
    hide R.Hydrate, R.Finalize, R.Rollback;
    if s.clients[i].pc.Deciding? {
      DecisionFacts(s.redis, call.now, call.req, s.clients[i].pc.rid);
    }
    hide R.Decide;
  }

  lemma {:induction false} SoloGoesOn(s: P.State, i: nat, call: F.Call) returns (acts: seq<P.Action>, s': P.State)
    requires Serving(s, i, call) && Supplied(s, i, call)
    ensures SoloRun(s, acts, s', i, call) && i < |s'.clients| && s'.clients[i].pc.Replied?
    decreases ToGo(s.clients[i].pc)
  {
    hide P.Next, P.Enabled, Solo, Supplied, Rest;
    if s.clients[i].pc.Replied? {
      acts, s' := [], s;
    } else {
      var rid := FreshRid(s.owner);
      var a := Move(s.clients[i].pc, i, call, rid);
      MoveWorks(s, i, call, rid);
      SoloStep(s, a, i, call);
      var more;
      more, s' := SoloGoesOn(P.Next(s, a), i, call);
      acts := [a] + more;
      assert acts[1..] == more;
    }
  }

  /** A client that starts to decide has such a run, and it ends with the specified stores and reply. */
  lemma SoloEnds(s: P.State, i: nat, call: F.Call) returns (acts: seq<P.Action>, s': P.State)
    requires i < |s.clients| && s.clients[i] == P.Client(call.req, P.Deciding(0, call.rid))
    requires L.FreshIds(s.db, call.ids) && call.again !in s.owner
    ensures SoloRun(s, acts, s', i, call) && i < |s'.clients|
    ensures s'.clients[i].pc.Replied? && (StoresOf(s'), s'.clients[i].pc.reply) == F.FastClaim(StoresOf(s), call, 2)
  {
    acts, s' := SoloGoesOn(s, i, call);
    hide SoloRun;
    SoloIsFastClaim(s, acts, s', i, call);
  }
}
