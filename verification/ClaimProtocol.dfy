/** The two-store claim protocol: any number of clients run `Service.Claim` concurrently, each store
    operation is one atomic step, every reply can be lost, clients can stall for ever at any point,
    and idempotency entries can expire at any moment.

    Standing assumptions: the campaign row changes only through claims, its stock starts
    non-negative, Redis campaign keys are never evicted, every claim on a hydrated campaign goes
    through Redis, a transaction that reports an error changed nothing, and reservation ids are
    never reused by another attempt. */
module ClaimProtocol {
  import opened Common
  import Codec
  import L = Ledger
  import R = Adjudicator

  datatype Failure = Rejected(error: L.ClaimError) | Busy | Internal
  datatype Reply = Granted(claim: L.Claim) | Refused(why: Failure)

  /** `mapClaimErr`: a failure of the store itself is an internal error. */
  function MapError(e: L.ClaimError): Failure {
    if e.StoreError? then Internal else Rejected(e)
  }

  /** Where a client stands inside `Claim`. */
  datatype Pc =
    | Deciding(attempt: nat, rid: string)
    | Missed(attempt: nat)
    | Loaded(attempt: nat, campaign: L.Campaign)
    | Polling(attempt: nat)
    | Fetching(attempt: nat, claimId: int, waited: bool)
    | Undecided(attempt: nat)
    | Admitted(rid: string)
    | Persisted(rid: string, claim: L.Claim)
    | Undoing(rid: string, error: L.ClaimError)
    | Undone(rid: string, error: L.ClaimError)
    | Replied(reply: Reply)

  datatype Client = Client(req: L.Request, pc: Pc)

  /** `owner` records which client drew each reservation id. */
  datatype State = State(db: L.Ledger, redis: R.Redis, clients: seq<Client>, owner: map<string, nat>)

  datatype Action =
    | Arrive(req: L.Request, rid: string)
    | Decide(i: nat, now: int, o: Outcome, again: bool)
    | LoadCampaign(i: nat, ok: bool)
    | EnsureCampaign(i: nat, o: Outcome, again: bool)
    | Poll(i: nat, ok: bool, deadline: bool)
    | Fetch(i: nat, ok: bool)
    | NextAttempt(i: nat, rid: string)
    | Persist(i: nat, now: int, ids: L.RowIds, ok: bool)
    | Finalize(i: nat, o: Outcome, again: bool)
    | Rollback(i: nat, o: Outcome, again: bool)
    | Expire(req: L.Request)

  const ATTEMPTS: nat := 2

  /******* Steps *******/

  function Goto(s: State, i: nat, pc: Pc): State
    requires i < |s.clients|
  {
    s.(clients := s.clients[i := s.clients[i].(pc := pc)])
  }

  function AfterDecision(d: R.Decision, attempt: nat): Pc {
    match d
    case CampaignMiss => Missed(attempt)
    case IdemHit(id) => Fetching(attempt, id, false)
    case InFlight(_) => Polling(attempt)
    case AlreadyClaimed => Replied(Refused(Rejected(L.AlreadyClaimed)))
    case LimitReached => Replied(Refused(Rejected(L.LimitReached)))
    case SoldOut => Replied(Refused(Rejected(L.SoldOut)))
    case Inactive => Replied(Refused(Rejected(L.Inactive)))
    case Admitted(rid) => Admitted(rid)
  }

  /** An error seen by the Redis client: it either retries the command or gives up. */
  function OnError(again: bool, stay: Pc, give: Pc): Pc {
    if again then stay else give
  }

  function DecideStep(s: State, i: nat, now: int, o: Outcome, again: bool): State
    requires i < |s.clients| && s.clients[i].pc.Deciding?
  {
    var pc := s.clients[i].pc;
    var (r', d) := R.Decide(s.redis, now, s.clients[i].req, pc.rid);
    var s1 := if o.Applied() then s.(redis := r') else s;
    Goto(s1, i, if o.Done? then AfterDecision(d, pc.attempt) else OnError(again, pc, Replied(Refused(Internal))))
  }

  function LoadStep(s: State, i: nat, ok: bool): State
    requires i < |s.clients| && s.clients[i].pc.Missed?
  {
    var c := s.clients[i].req.coupon;
    Goto(s, i,
         if !ok then Replied(Refused(Internal))
         else if c !in s.db.campaigns then Replied(Refused(Rejected(L.NotFound)))
         else Loaded(s.clients[i].pc.attempt, s.db.campaigns[c]))
  }

  function EnsureStep(s: State, i: nat, o: Outcome, again: bool): State
    requires i < |s.clients| && s.clients[i].pc.Loaded?
  {
    var pc := s.clients[i].pc;
    var s1 := if o.Applied() then s.(redis := R.Hydrate(s.redis, s.clients[i].req.coupon, pc.campaign)) else s;
    Goto(s1, i, if o.Done? then Undecided(pc.attempt) else OnError(again, pc, Replied(Refused(Internal))))
  }

  function PollStep(s: State, i: nat, ok: bool, deadline: bool): State
    requires i < |s.clients| && s.clients[i].pc.Polling?
  {
    var pc, req := s.clients[i].pc, s.clients[i].req;
    Goto(s, i,
         if !ok then Replied(Refused(Internal))
         else if req !in s.redis.entries then Undecided(pc.attempt)
         else
           match s.redis.entries[req]
           case Success(id) => Fetching(pc.attempt, id, true)
           case Pending(_) => if deadline then Undecided(pc.attempt) else pc)
  }

  function FetchStep(s: State, i: nat, ok: bool): State
    requires i < |s.clients| && s.clients[i].pc.Fetching?
  {
    var pc := s.clients[i].pc;
    Goto(s, i,
         if !ok then Replied(Refused(Internal))
         else
           match L.FindById(s.db.claims, pc.claimId)
           case Some(claim) => Replied(Granted(claim))
           case None => if pc.waited then Undecided(pc.attempt) else Replied(Refused(Internal)))
  }

  function NextAttemptStep(s: State, i: nat, rid: string): State
    requires i < |s.clients| && s.clients[i].pc.Undecided?
  {
    var n := s.clients[i].pc.attempt + 1;
    if n < ATTEMPTS then Goto(s, i, Deciding(n, rid)).(owner := s.owner[rid := i])
    else Goto(s, i, Replied(Refused(Busy)))
  }

  function PersistStep(s: State, i: nat, now: int, ids: L.RowIds, ok: bool): State
    requires i < |s.clients| && s.clients[i].pc.Admitted?
  {
    var rid := s.clients[i].pc.rid;
    if !ok then Goto(s, i, Undoing(rid, L.StoreError))
    else
      var (db', reply) := L.PersistClaim(s.db, now, s.clients[i].req, ids);
      match reply
      case Ok(claim) => Goto(s.(db := db'), i, Persisted(rid, claim))
      case Err(e) => Goto(s.(db := db'), i, Undoing(rid, e))
  }

  function FinalizeStep(s: State, i: nat, o: Outcome, again: bool): State
    requires i < |s.clients| && s.clients[i].pc.Persisted?
  {
    var pc := s.clients[i].pc;
    var s1 := if o.Applied() then s.(redis := R.Finalize(s.redis, s.clients[i].req, pc.rid, pc.claim.id)) else s;
    Goto(s1, i, if o.Done? then Replied(Granted(pc.claim)) else OnError(again, pc, Replied(Granted(pc.claim))))
  }

  function RollbackStep(s: State, i: nat, o: Outcome, again: bool): State
    requires i < |s.clients| && (s.clients[i].pc.Undoing? || s.clients[i].pc.Undone?)
  {
    var pc := s.clients[i].pc;
    var reply := Replied(Refused(MapError(pc.error)));
    if o.Applied() then
      var s1 := s.(redis := R.Rollback(s.redis, s.clients[i].req, pc.rid));
      Goto(s1, i, if o.Done? then reply else OnError(again, Undone(pc.rid, pc.error), reply))
    else Goto(s, i, OnError(again, pc, reply))
  }

  ghost predicate Enabled(s: State, a: Action) {
    match a
    case Arrive(_, rid) => rid !in s.owner
    case Decide(i, _, _, _) => i < |s.clients| && s.clients[i].pc.Deciding?
    case LoadCampaign(i, _) => i < |s.clients| && s.clients[i].pc.Missed?
    case EnsureCampaign(i, _, _) => i < |s.clients| && s.clients[i].pc.Loaded?
    case Poll(i, _, _) => i < |s.clients| && s.clients[i].pc.Polling?
    case Fetch(i, _) => i < |s.clients| && s.clients[i].pc.Fetching?
    case NextAttempt(i, rid) => i < |s.clients| && s.clients[i].pc.Undecided? && rid !in s.owner
    case Persist(i, _, ids, _) => i < |s.clients| && s.clients[i].pc.Admitted? && L.FreshIds(s.db, ids)
    case Finalize(i, _, _) => i < |s.clients| && s.clients[i].pc.Persisted?
    case Rollback(i, _, _) => i < |s.clients| && (s.clients[i].pc.Undoing? || s.clients[i].pc.Undone?)
    case Expire(_) => true
  }

  ghost function Next(s: State, a: Action): State
    requires Enabled(s, a)
  {
    match a
    case Arrive(req, rid) =>
      s.(clients := s.clients + [Client(req, Deciding(0, rid))], owner := s.owner[rid := |s.clients|])
    case Decide(i, now, o, again) => DecideStep(s, i, now, o, again)
    case LoadCampaign(i, ok) => LoadStep(s, i, ok)
    case EnsureCampaign(i, o, again) => EnsureStep(s, i, o, again)
    case Poll(i, ok, deadline) => PollStep(s, i, ok, deadline)
    case Fetch(i, ok) => FetchStep(s, i, ok)
    case NextAttempt(i, rid) => NextAttemptStep(s, i, rid)
    case Persist(i, now, ids, ok) => PersistStep(s, i, now, ids, ok)
    case Finalize(i, o, again) => FinalizeStep(s, i, o, again)
    case Rollback(i, o, again) => RollbackStep(s, i, o, again)
    case Expire(req) => s.(redis := R.Expire(s.redis, req))
  }

  /** `s'` is reached from `s` by the steps `acts`, in that order. */
  ghost predicate Run(s: State, acts: seq<Action>, s': State)
    decreases |acts|
  {
    if acts == [] then s' == s
    else Enabled(s, acts[0]) && Run(Next(s, acts[0]), acts[1..], s')
  }

  ghost function Start(base: L.Ledger): State {
    State(base, R.EMPTY, [], map[])
  }

  /** The ledger the system starts from: a committed ledger with non-negative stock. */
  ghost predicate GoodBase(base: L.Ledger) {
    && L.UniqueClaims(base.claims)
    && forall c :: c in base.campaigns ==> base.campaigns[c].stock >= 0
  }

  /******* Live admissions *******/

  /** Admitted by Redis, not yet settled in MySQL: about to persist, or about to be undone. */
  predicate Live(c: Client) {
    c.pc.Admitted? || c.pc.Undoing?
  }

  datatype Scope = OnCoupon(c: int) | OnUser(c: int, u: int)

  predicate Within(k: Scope, req: L.Request) {
    req.coupon == k.c && (k.OnUser? ==> req.user == k.u)
  }

  function Weight(k: Scope, c: Client): nat {
    if Live(c) && Within(k, c.req) then 1 else 0
  }

  function LiveIn(k: Scope, cs: seq<Client>): nat {
    if cs == [] then 0 else LiveIn(k, cs[..|cs| - 1]) + Weight(k, cs[|cs| - 1])
  }

  lemma {:induction false} LiveUpdate(k: Scope, cs: seq<Client>, i: nat, x: Client)
    requires i < |cs|
    ensures LiveIn(k, cs[i := x]) == LiveIn(k, cs) - Weight(k, cs[i]) + Weight(k, x)
    decreases |cs|
  {
    var n := |cs| - 1;
    if i < n {
      LiveUpdate(k, cs[..n], i, x);
      assert cs[i := x][..n] == cs[..n][i := x];
    } else {
      assert cs[i := x][..n] == cs[..n];
    }
  }

  lemma {:induction false} LiveCounts(k: Scope, cs: seq<Client>, i: nat)
    requires i < |cs|
    ensures LiveIn(k, cs) >= Weight(k, cs[i])
    decreases |cs|
  {
    if i < |cs| - 1 {
      LiveCounts(k, cs[..|cs| - 1], i);
    }
  }

  /******* Invariant *******/

  predicate Owned(owner: map<string, nat>, rid: string, i: nat) {
    rid in owner && owner[rid] == i
  }

  /** What a client may rely on at its program point. */
  ghost predicate ClientOk(base: L.Ledger, s: State, i: nat, c: Client) {
    match c.pc
    case Deciding(_, rid) => Owned(s.owner, rid, i)
    case Loaded(_, camp) =>
      && c.req.coupon in base.campaigns
      && camp == base.campaigns[c.req.coupon].(stock := camp.stock)
      && (c.req.coupon !in s.redis.stock ==> camp == base.campaigns[c.req.coupon])
    case Fetching(_, id, _) => L.Claim(id, c.req) in s.db.claims
    case Admitted(rid) => Owned(s.owner, rid, i) && c.req.coupon in s.redis.stock
    case Persisted(rid, claim) => Owned(s.owner, rid, i) && claim in s.db.claims && claim.req == c.req
    case Undoing(rid, _) => Owned(s.owner, rid, i) && c.req.coupon in s.redis.stock
    case Undone(rid, _) =>
      Owned(s.owner, rid, i) && forall q :: q in s.redis.entries ==> s.redis.entries[q] != Codec.Pending(rid)
    case Replied(Granted(claim)) => claim in s.db.claims && claim.req == c.req
    case _ => true
  }

  ghost predicate ClientsOk(base: L.Ledger, s: State) {
    forall i :: 0 <= i < |s.clients| ==> ClientOk(base, s, i, s.clients[i])
  }

  /** A SUCCESS entry names a ledger row with its key; a PENDING entry carries an id drawn by a
      client with that very request. */
  ghost predicate EntryOk(s: State, q: L.Request, e: R.Entry) {
    match e
    case Success(id) => L.Claim(id, q) in s.db.claims
    case Pending(rid) => rid in s.owner && s.owner[rid] < |s.clients| && s.clients[s.owner[rid]].req == q
  }

  ghost predicate EntriesOk(s: State) {
    forall q :: q in s.redis.entries ==> EntryOk(s, q, s.redis.entries[q])
  }

  /** The campaign rows differ from the start only in stock, which moves only after hydration. */
  ghost predicate RowsOk(base: L.Ledger, s: State) {
    && s.db.campaigns.Keys == base.campaigns.Keys
    && (forall c :: c in base.campaigns ==>
          && s.db.campaigns[c] == base.campaigns[c].(stock := s.db.campaigns[c].stock)
          && (c !in s.redis.stock ==> s.db.campaigns[c] == base.campaigns[c]))
    && L.UniqueClaims(s.db.claims)
  }

  ghost predicate CacheOk(base: L.Ledger, r: R.Redis) {
    && r.stock.Keys == r.meta.Keys <= base.campaigns.Keys
    && r.counts.Keys <= r.stock.Keys
    && R.CountsBounded(r)
    && forall c :: c in r.stock ==>
         && r.stock[c] >= 0
         && r.meta[c] == R.Meta(base.campaigns[c].status, base.campaigns[c].startAt, base.campaigns[c].endAt, base.campaigns[c].Limit())
  }

  /** Redis stock plus live admissions never exceeds the ledger's stock. */
  ghost predicate StockSound(s: State) {
    forall c :: c in s.redis.stock && c in s.db.campaigns ==>
      s.redis.stock[c] + LiveIn(OnCoupon(c), s.clients) <= s.db.campaigns[c].stock
  }

  /** A user's ledger claims plus live admissions never exceed its Redis count, beyond the claims
      that already existed at the start. */
  ghost predicate CountSound(base: L.Ledger, s: State) {
    forall c, u ::
      L.CountUser(s.db.claims, c, u) + LiveIn(OnUser(c, u), s.clients)
      <= R.CountOf(s.redis, c, u) + L.CountUser(base.claims, c, u)
  }

  ghost predicate Inv(base: L.Ledger, s: State) {
    && RowsOk(base, s)
    && CacheOk(base, s.redis)
    && ClientsOk(base, s)
    && EntriesOk(s)
    && StockSound(s)
    && CountSound(base, s)
  }

  lemma StartInv(base: L.Ledger)
    requires GoodBase(base)
    ensures Inv(base, Start(base))
  {
    var s := Start(base);
    assert forall c, u :: R.PendingOf(s.redis, c, u) == {};
  }

  /******* Preservation *******/

  /** A step that changes neither store keeps the invariant if the client it moves is still right
      and stops or goes on being live consistently. */
  lemma LocalStep(base: L.Ledger, s: State, i: nat, pc: Pc)
    requires Inv(base, s) && i < |s.clients|
    requires ClientOk(base, s, i, s.clients[i].(pc := pc))
    requires Live(s.clients[i].(pc := pc)) ==> Live(s.clients[i])
    ensures Inv(base, Goto(s, i, pc))
  {
    var s' := Goto(s, i, pc);
    forall k {
      LiveUpdate(k, s.clients, i, s.clients[i].(pc := pc));
    }
    forall j | 0 <= j < |s'.clients|
      ensures ClientOk(base, s', j, s'.clients[j])
    {
      assert ClientOk(base, s, j, s.clients[j]);
    }
  }

  lemma ArriveStep(base: L.Ledger, s: State, req: L.Request, rid: string)
    requires Inv(base, s) && rid !in s.owner
    ensures Inv(base, Next(s, Arrive(req, rid)))
  {
    var s' := Next(s, Arrive(req, rid));
    assert s'.clients[..|s'.clients| - 1] == s.clients;
    forall j | 0 <= j < |s'.clients|
      ensures ClientOk(base, s', j, s'.clients[j])
    {
      if j < |s.clients| {
        assert ClientOk(base, s, j, s.clients[j]);
      }
    }
  }

  /** Drawing a new reservation id disturbs nobody. */
  lemma NewOwner(base: L.Ledger, s: State, rid: string, i: nat)
    requires Inv(base, s) && rid !in s.owner
    ensures Inv(base, s.(owner := s.owner[rid := i]))
  {
    var s' := s.(owner := s.owner[rid := i]);
    forall j | 0 <= j < |s'.clients|
      ensures ClientOk(base, s', j, s'.clients[j])
    {
      assert ClientOk(base, s, j, s.clients[j]);
    }
  }

  /** The idempotency entry of one request is removed or becomes a SUCCESS naming its row. */
  lemma EntryStep(base: L.Ledger, s: State, r': R.Redis, req: L.Request)
    requires Inv(base, s)
    requires r' == s.redis.(entries := r'.entries)
    requires r'.entries - {req} == s.redis.entries - {req}
    requires req in r'.entries ==> r'.entries[req].Success? && L.Claim(r'.entries[req].claimId, req) in s.db.claims
    ensures Inv(base, s.(redis := r'))
  {
    var s' := s.(redis := r');
    R.EntryGoneKeepsCounts(s.redis, r', req);
    EntryElsewhere(s.redis.entries, r'.entries, req);
    forall q | q in r'.entries
      ensures EntryOk(s', q, r'.entries[q])
    {
      assert q != req ==> EntryOk(s, q, s.redis.entries[q]);
    }
    forall j | 0 <= j < |s'.clients|
      ensures ClientOk(base, s', j, s'.clients[j])
    {
      assert ClientOk(base, s, j, s.clients[j]);
    }
    assert CountSound(base, s');
  }

  lemma EntryElsewhere(m: map<L.Request, R.Entry>, m': map<L.Request, R.Entry>, req: L.Request)
    requires m' - {req} == m - {req}
    ensures forall q :: q != req && q in m' ==> q in m && m'[q] == m[q]
  {
    forall q | q != req && q in m'
      ensures q in m && m'[q] == m[q]
    {
      assert q in m' - {req};
      assert (m' - {req})[q] == m'[q];
    }
  }

  /** An admission taken by Redis, before its client has heard of it. */
  lemma AdmitOthers(base: L.Ledger, s: State, now: int, req: L.Request, rid: string, i: nat)
    requires Inv(base, s) && Owned(s.owner, rid, i)
    requires R.DecideBranch(s.redis, now, req).Admit?
    ensures var s' := s.(redis := R.Decide(s.redis, now, req, rid).0);
            forall j :: 0 <= j < |s.clients| && j != i ==> ClientOk(base, s', j, s.clients[j])
  {
    R.AdmitEffect(s.redis, now, req, rid);
    var s' := s.(redis := R.Decide(s.redis, now, req, rid).0);
    forall j | 0 <= j < |s.clients| && j != i
      ensures ClientOk(base, s', j, s.clients[j])
    {
      assert ClientOk(base, s, j, s.clients[j]);
    }
  }

  lemma AdmitStores(base: L.Ledger, s: State, now: int, req: L.Request, rid: string)
    requires Inv(base, s) && rid in s.owner && s.owner[rid] < |s.clients| && s.clients[s.owner[rid]].req == req
    requires R.DecideBranch(s.redis, now, req).Admit?
    ensures var s' := s.(redis := R.Decide(s.redis, now, req, rid).0);
            RowsOk(base, s') && CacheOk(base, s'.redis) && EntriesOk(s')
  {
    R.AdmitEffect(s.redis, now, req, rid);
    R.AdmitKeepsCounts(s.redis, now, req, rid);
  }

  /** After the admission Redis has one unit less and one count more: room for one live client. */
  lemma AdmitRoom(base: L.Ledger, s: State, now: int, req: L.Request, rid: string)
    requires Inv(base, s)
    requires R.DecideBranch(s.redis, now, req).Admit?
    ensures var r' := R.Decide(s.redis, now, req, rid).0;
            && r'.stock.Keys == s.redis.stock.Keys
            && (forall c :: c in s.redis.stock ==>
                 r'.stock[c] == s.redis.stock[c] - (if c == req.coupon then 1 else 0))
            && (forall c, u :: R.CountOf(r', c, u) ==
                 R.CountOf(s.redis, c, u) + (if c == req.coupon && u == req.user then 1 else 0))
  {
    R.AdmitEffect(s.redis, now, req, rid);
  }

  lemma AdmitCounts(base: L.Ledger, s: State, s': State, i: nat, now: int, rid: string, pc: Pc)
    requires Inv(base, s) && i < |s.clients| && !Live(s.clients[i])
    requires R.DecideBranch(s.redis, now, s.clients[i].req).Admit?
    requires s' == Goto(s.(redis := R.Decide(s.redis, now, s.clients[i].req, rid).0), i, pc)
    ensures StockSound(s') && CountSound(base, s')
  {
    var req := s.clients[i].req;
    AdmitRoom(base, s, now, req, rid);
    forall c, u
      ensures L.CountUser(s'.db.claims, c, u) + LiveIn(OnUser(c, u), s'.clients)
           <= R.CountOf(s'.redis, c, u) + L.CountUser(base.claims, c, u)
    {
      LiveUpdate(OnUser(c, u), s.clients, i, s.clients[i].(pc := pc));
    }
    forall c | c in s'.redis.stock && c in s'.db.campaigns
      ensures s'.redis.stock[c] + LiveIn(OnCoupon(c), s'.clients) <= s'.db.campaigns[c].stock
    {
      LiveUpdate(OnCoupon(c), s.clients, i, s.clients[i].(pc := pc));
    }
  }

  /** Moving a client keeps every entry right: requests never change. */
  lemma GotoKeepsEntries(s: State, i: nat, pc: Pc)
    requires i < |s.clients| && EntriesOk(s)
    ensures EntriesOk(Goto(s, i, pc))
  {
    var s' := Goto(s, i, pc);
    forall q | q in s'.redis.entries
      ensures EntryOk(s', q, s'.redis.entries[q])
    {
      assert EntryOk(s, q, s.redis.entries[q]);
    }
  }

  lemma AdmitStep(base: L.Ledger, s: State, i: nat, now: int, rid: string, pc: Pc)
    requires Inv(base, s) && i < |s.clients| && Owned(s.owner, rid, i) && !Live(s.clients[i])
    requires R.DecideBranch(s.redis, now, s.clients[i].req).Admit?
    requires pc == Admitted(rid) || (pc.Deciding? && pc.rid == rid) || pc == Replied(Refused(Internal))
    ensures Inv(base, Goto(s.(redis := R.Decide(s.redis, now, s.clients[i].req, rid).0), i, pc))
  {
    var req := s.clients[i].req;
    var s1 := s.(redis := R.Decide(s.redis, now, req, rid).0);
    var s' := Goto(s1, i, pc);
    AdmitStores(base, s, now, req, rid);
    GotoKeepsEntries(s1, i, pc);
    AdmitOthers(base, s, now, req, rid, i);
    AdmitMover(base, s, i, now, rid, pc);
    forall j | 0 <= j < |s'.clients|
      ensures ClientOk(base, s', j, s'.clients[j])
    {
      assert j != i ==> ClientOk(base, s1, j, s.clients[j]);
    }
    AdmitCounts(base, s, s', i, now, rid, pc);
  }

  lemma AdmitMover(base: L.Ledger, s: State, i: nat, now: int, rid: string, pc: Pc)
    requires Inv(base, s) && i < |s.clients| && Owned(s.owner, rid, i)
    requires R.DecideBranch(s.redis, now, s.clients[i].req).Admit?
    requires pc == Admitted(rid) || (pc.Deciding? && pc.rid == rid) || pc == Replied(Refused(Internal))
    ensures var s1 := s.(redis := R.Decide(s.redis, now, s.clients[i].req, rid).0);
            ClientOk(base, s1, i, s.clients[i].(pc := pc))
  {
    R.AdmitEffect(s.redis, now, s.clients[i].req, rid);
  }

  lemma DecideKeeps(base: L.Ledger, s: State, i: nat, now: int, o: Outcome, again: bool)
    requires Inv(base, s) && Enabled(s, Decide(i, now, o, again))
    ensures Inv(base, Next(s, Decide(i, now, o, again)))
  {
    var pc, req := s.clients[i].pc, s.clients[i].req;
    assert ClientOk(base, s, i, s.clients[i]);
    R.CompensationsAreDead(s.redis, now, req);
    var pc' := if o.Done? then AfterDecision(R.Decide(s.redis, now, req, pc.rid).1, pc.attempt)
               else OnError(again, pc, Replied(Refused(Internal)));
    if R.DecideBranch(s.redis, now, req).Admit? && o.Applied() {
      AdmitStep(base, s, i, now, pc.rid, pc');
    } else {
      assert (if o.Applied() then R.Decide(s.redis, now, req, pc.rid).0 else s.redis) == s.redis;
      UnadmittedOk(base, s, i, now, o, again);
      LocalStep(base, s, i, pc');
    }
  }

  lemma UnadmittedOk(base: L.Ledger, s: State, i: nat, now: int, o: Outcome, again: bool)
    requires EntriesOk(s) && Enabled(s, Decide(i, now, o, again)) && ClientOk(base, s, i, s.clients[i])
    requires !(R.DecideBranch(s.redis, now, s.clients[i].req).Admit? && o.Applied())
    ensures var pc, req := s.clients[i].pc, s.clients[i].req;
            var pc' := if o.Done? then AfterDecision(R.Decide(s.redis, now, req, pc.rid).1, pc.attempt)
                       else OnError(again, pc, Replied(Refused(Internal)));
            ClientOk(base, s, i, s.clients[i].(pc := pc')) && !Live(s.clients[i].(pc := pc'))
  {
    var req := s.clients[i].req;
    if req in s.redis.entries {
      assert EntryOk(s, req, s.redis.entries[req]);
    }
  }

  lemma HydrateStores(base: L.Ledger, s: State, c: int, camp: L.Campaign)
    requires Inv(base, s) && c in base.campaigns && c !in s.redis.stock && camp == base.campaigns[c]
    requires base.campaigns[c].stock >= 0
    ensures var s' := s.(redis := R.Hydrate(s.redis, c, camp));
            RowsOk(base, s') && CacheOk(base, s'.redis) && EntriesOk(s') && ClientsOk(base, s')
  {
    var s' := s.(redis := R.Hydrate(s.redis, c, camp));
    assert forall d, u :: R.PendingOf(s'.redis, d, u) == R.PendingOf(s.redis, d, u);
    forall j | 0 <= j < |s'.clients|
      ensures ClientOk(base, s', j, s'.clients[j])
    {
      assert ClientOk(base, s, j, s.clients[j]);
    }
  }

  lemma {:induction false} NobodyLive(base: L.Ledger, s: State, c: int, n: nat)
    requires ClientsOk(base, s) && c !in s.redis.stock && n <= |s.clients|
    ensures LiveIn(OnCoupon(c), s.clients[..n]) == 0
  {
    if n > 0 {
      NobodyLive(base, s, c, n - 1);
      assert s.clients[..n][..n - 1] == s.clients[..n - 1];
      assert ClientOk(base, s, n - 1, s.clients[n - 1]);
    }
  }

  lemma EnsureKeeps(base: L.Ledger, s: State, i: nat, o: Outcome, again: bool)
    requires Inv(base, s) && GoodBase(base) && Enabled(s, EnsureCampaign(i, o, again))
    ensures Inv(base, Next(s, EnsureCampaign(i, o, again)))
  {
    var pc, c := s.clients[i].pc, s.clients[i].req.coupon;
    assert ClientOk(base, s, i, s.clients[i]);
    var s1 := if o.Applied() then s.(redis := R.Hydrate(s.redis, c, pc.campaign)) else s;
    if o.Applied() && c !in s.redis.stock {
      HydrateStores(base, s, c, pc.campaign);
      NobodyLive(base, s, c, |s.clients|);
      assert s.clients[..|s.clients|] == s.clients;
      assert StockSound(s1);
      assert forall d, u :: R.CountOf(s1.redis, d, u) == R.CountOf(s.redis, d, u);
    } else {
      assert s1 == s;
    }
    assert ClientOk(base, s1, i, s.clients[i]);
    LocalStep(base, s1, i, if o.Done? then Undecided(pc.attempt) else OnError(again, pc, Replied(Refused(Internal))));
  }

  lemma PollKeeps(base: L.Ledger, s: State, i: nat, ok: bool, deadline: bool)
    requires Inv(base, s) && Enabled(s, Poll(i, ok, deadline))
    ensures Inv(base, Next(s, Poll(i, ok, deadline)))
  {
    var pc, req := s.clients[i].pc, s.clients[i].req;
    assert ClientOk(base, s, i, s.clients[i]);
    LocalStep(base, s, i,
              if !ok then Replied(Refused(Internal))
              else if req !in s.redis.entries then Undecided(pc.attempt)
              else
                match s.redis.entries[req]
                case Success(id) => Fetching(pc.attempt, id, true)
                case Pending(_) => if deadline then Undecided(pc.attempt) else pc);
  }

  lemma IdNamesOneClaim(cs: seq<L.Claim>, claim: L.Claim)
    requires L.UniqueClaims(cs) && claim in cs
    ensures L.FindById(cs, claim.id) == Some(claim)
  {
    var found := L.FindById(cs, claim.id).value;
    var i :| 0 <= i < |cs| && cs[i] == claim;
    var j :| 0 <= j < |cs| && cs[j] == found;
  }

  lemma FetchKeeps(base: L.Ledger, s: State, i: nat, ok: bool)
    requires Inv(base, s) && Enabled(s, Fetch(i, ok))
    ensures Inv(base, Next(s, Fetch(i, ok)))
  {
    var c := s.clients[i];
    assert ClientOk(base, s, i, c);
    IdNamesOneClaim(s.db.claims, L.Claim(c.pc.claimId, c.req));
    LocalStep(base, s, i, if !ok then Replied(Refused(Internal)) else Replied(Granted(L.Claim(c.pc.claimId, c.req))));
  }

  lemma NextAttemptKeeps(base: L.Ledger, s: State, i: nat, rid: string)
    requires Inv(base, s) && Enabled(s, NextAttempt(i, rid))
    ensures Inv(base, Next(s, NextAttempt(i, rid)))
  {
    var n := s.clients[i].pc.attempt + 1;
    if n < ATTEMPTS {
      NewOwner(base, s, rid, i);
      LocalStep(base, s.(owner := s.owner[rid := i]), i, Deciding(n, rid));
    } else {
      LocalStep(base, s, i, Replied(Refused(Busy)));
    }
  }

  /** The request of an admitted client is within budget: the ledger still has a unit for it and,
      unless the user already had claims when the campaign was hydrated, a place below the limit. */
  lemma AdmittedFits(base: L.Ledger, s: State, i: nat)
    requires Inv(base, s) && i < |s.clients| && s.clients[i].pc.Admitted?
    ensures var req := s.clients[i].req;
            && req.coupon in s.db.campaigns
            && s.db.campaigns[req.coupon].stock >= 1
            && (L.CountUser(base.claims, req.coupon, req.user) == 0 ==>
                  L.CountUser(s.db.claims, req.coupon, req.user) < s.db.campaigns[req.coupon].Limit())
  {
    var req := s.clients[i].req;
    assert ClientOk(base, s, i, s.clients[i]);
    LiveCounts(OnCoupon(req.coupon), s.clients, i);
    LiveCounts(OnUser(req.coupon, req.user), s.clients, i);
    assert R.CountOf(s.redis, req.coupon, req.user) <= R.MetaOf(s.redis, req.coupon).limit;
  }

  lemma PersistLedger(base: L.Ledger, s: State, i: nat, now: int, ids: L.RowIds)
    requires Inv(base, s) && i < |s.clients| && s.clients[i].pc.Admitted? && L.FreshIds(s.db, ids)
    ensures var (db', reply) := L.PersistClaim(s.db, now, s.clients[i].req, ids);
            && (forall claim :: claim in s.db.claims ==> claim in db'.claims)
            && L.UniqueClaims(db'.claims)
            && (reply.Ok? ==> reply.claim in db'.claims && reply.claim.req == s.clients[i].req)
            && (reply.Err? ==> db' == s.db)
            && (db' == s.db || (db'.campaigns == s.db.campaigns[s.clients[i].req.coupon := db'.campaigns[s.clients[i].req.coupon]]
                                && L.Admissible(s.db, now, s.clients[i].req)
                                && db' == L.Issue(s.db, s.clients[i].req, ids)))
  {
    var req := s.clients[i].req;
    L.SameLedger(s.db, now, req, ids);
    if L.Admissible(s.db, now, req) {
      L.IssueKeepsUnique(s.db, now, req, ids);
      assert L.Claim(ids.claim, req) in L.Issue(s.db, req, ids).claims;
    }
  }

  lemma IssueCounts(db: L.Ledger, req: L.Request, ids: L.RowIds, c: int, u: int)
    requires req.coupon in db.campaigns
    ensures L.CountUser(L.Issue(db, req, ids).claims, c, u)
         == L.CountUser(db.claims, c, u) + (if req.coupon == c && req.user == u then 1 else 0)
  {
    var cs := L.Issue(db, req, ids).claims;
    assert cs == db.claims + [L.Claim(ids.claim, req)];
    assert cs[..|cs| - 1] == db.claims;
  }

  lemma PersistOthers(base: L.Ledger, s: State, db': L.Ledger)
    requires Inv(base, s)
    requires forall claim :: claim in s.db.claims ==> claim in db'.claims
    ensures ClientsOk(base, s.(db := db')) && EntriesOk(s.(db := db'))
  {
    var s' := s.(db := db');
    forall j | 0 <= j < |s'.clients|
      ensures ClientOk(base, s', j, s'.clients[j])
    {
      assert ClientOk(base, s, j, s.clients[j]);
    }
  }

  lemma CommitStep(base: L.Ledger, s: State, i: nat, now: int, ids: L.RowIds)
    requires Inv(base, s) && i < |s.clients| && s.clients[i].pc.Admitted? && L.FreshIds(s.db, ids)
    requires L.Admissible(s.db, now, s.clients[i].req)
    ensures var req := s.clients[i].req;
            Inv(base, Goto(s.(db := L.Issue(s.db, req, ids)), i, Persisted(s.clients[i].pc.rid, L.Claim(ids.claim, req))))
  {
    hide L.Issue, StockSound, CountSound, CacheOk;
    var req := s.clients[i].req;
    L.IssueEffect(s.db, req, ids);
    var db' := L.Issue(s.db, req, ids);
    var pc := Persisted(s.clients[i].pc.rid, L.Claim(ids.claim, req));
    var s1 := s.(db := db');
    var s' := Goto(s1, i, pc);
    assert ClientOk(base, s, i, s.clients[i]);
    L.IssueKeepsUnique(s.db, now, req, ids);
    assert L.Claim(ids.claim, req) in db'.claims;
    PersistOthers(base, s, db');
    forall j | 0 <= j < |s'.clients|
      ensures ClientOk(base, s', j, s'.clients[j])
    {
      assert ClientOk(base, s1, j, s1.clients[j]);
    }
    CommitCounts(base, s, s', i, req, ids, pc);
  }

  lemma CommitCounts(base: L.Ledger, s: State, s': State, i: nat, req: L.Request, ids: L.RowIds, pc: Pc)
    requires StockSound(s) && CountSound(base, s)
    requires i < |s.clients| && s.clients[i].pc.Admitted? && s.clients[i].req == req && req.coupon in s.db.campaigns
    requires pc.Persisted?
    requires s' == Goto(s.(db := L.Issue(s.db, req, ids)), i, pc)
    ensures StockSound(s') && CountSound(base, s')
  {
    forall c, u
      ensures L.CountUser(s'.db.claims, c, u) + LiveIn(OnUser(c, u), s'.clients)
           <= R.CountOf(s'.redis, c, u) + L.CountUser(base.claims, c, u)
    {
      IssueCounts(s.db, req, ids, c, u);
      LiveUpdate(OnUser(c, u), s.clients, i, s.clients[i].(pc := pc));
    }
    forall c | c in s'.redis.stock && c in s'.db.campaigns
      ensures s'.redis.stock[c] + LiveIn(OnCoupon(c), s'.clients) <= s'.db.campaigns[c].stock
    {
      LiveUpdate(OnCoupon(c), s.clients, i, s.clients[i].(pc := pc));
    }
  }

  lemma PersistKeeps(base: L.Ledger, s: State, i: nat, now: int, ids: L.RowIds, ok: bool)
    requires Inv(base, s) && Enabled(s, Persist(i, now, ids, ok))
    ensures Inv(base, Next(s, Persist(i, now, ids, ok)))
  {
    var rid, req := s.clients[i].pc.rid, s.clients[i].req;
    assert ClientOk(base, s, i, s.clients[i]);
    if !ok {
      LocalStep(base, s, i, Undoing(rid, L.StoreError));
    } else {
      L.SameLedger(s.db, now, req, ids);
      PersistLedger(base, s, i, now, ids);
      var (db', reply) := L.PersistClaim(s.db, now, req, ids);
      if L.Admissible(s.db, now, req) {
        assert reply == L.Ok(L.Claim(ids.claim, req));
        CommitStep(base, s, i, now, ids);
      } else {
        assert db' == s.db;
        LocalStep(base, s, i, if reply.Ok? then Persisted(rid, reply.claim) else Undoing(rid, reply.error));
      }
    }
  }

  lemma FinalizeKeeps(base: L.Ledger, s: State, i: nat, o: Outcome, again: bool)
    requires Inv(base, s) && Enabled(s, Finalize(i, o, again))
    ensures Inv(base, Next(s, Finalize(i, o, again)))
  {
    var pc, req := s.clients[i].pc, s.clients[i].req;
    assert ClientOk(base, s, i, s.clients[i]);
    var r' := R.Finalize(s.redis, req, pc.rid, pc.claim.id);
    assert pc.claim == L.Claim(pc.claim.id, req);
    var s1 := if o.Applied() then s.(redis := r') else s;
    if o.Applied() && R.Holds(s.redis, req, pc.rid) {
      assert r'.entries - {req} == s.redis.entries - {req};
      EntryStep(base, s, r', req);
    }
    LocalStep(base, s1, i, if o.Done? then Replied(Granted(pc.claim)) else OnError(again, pc, Replied(Granted(pc.claim))));
  }

  lemma RollbackStores(base: L.Ledger, s: State, req: L.Request, rid: string)
    requires Inv(base, s) && R.Holds(s.redis, req, rid) && req.coupon in s.redis.stock
    ensures var s' := s.(redis := R.Rollback(s.redis, req, rid));
            RowsOk(base, s') && CacheOk(base, s'.redis) && EntriesOk(s') && ClientsOk(base, s')
    ensures var r' := R.Rollback(s.redis, req, rid);
            && r'.stock == s.redis.stock[req.coupon := s.redis.stock[req.coupon] + 1]
            && r'.entries == s.redis.entries - {req}
  {
    PendingMeansCounted(s.redis, req);
    R.RollbackEffect(s.redis, req, rid);
    R.RollbackKeepsCounts(s.redis, req, rid);
    var s' := s.(redis := R.Rollback(s.redis, req, rid));
    forall j | 0 <= j < |s'.clients|
      ensures ClientOk(base, s', j, s'.clients[j])
    {
      assert ClientOk(base, s, j, s.clients[j]);
    }
  }

  lemma RollbackCount(r: R.Redis, req: L.Request, rid: string, c: int, u: int)
    requires R.Holds(r, req, rid) && req.coupon in r.stock && R.CountOf(r, req.coupon, req.user) >= 1
    ensures R.CountOf(R.Rollback(r, req, rid), c, u) == R.CountOf(r, c, u) - (if c == req.coupon && u == req.user then 1 else 0)
  {
    R.RollbackEffect(r, req, rid);
  }

  /** A rollback that takes effect frees exactly the unit its own live client held. */
  lemma UndoStep(base: L.Ledger, s: State, i: nat, pc: Pc)
    requires Inv(base, s) && i < |s.clients| && s.clients[i].pc.Undoing? && s.clients[i].req.coupon in s.redis.stock
    requires R.Holds(s.redis, s.clients[i].req, s.clients[i].pc.rid)
    requires !pc.Admitted? && !pc.Undoing?
    requires ClientOk(base, s.(redis := R.Rollback(s.redis, s.clients[i].req, s.clients[i].pc.rid)), i, s.clients[i].(pc := pc))
    ensures Inv(base, Goto(s.(redis := R.Rollback(s.redis, s.clients[i].req, s.clients[i].pc.rid)), i, pc))
  {
    var req, rid := s.clients[i].req, s.clients[i].pc.rid;
    RollbackStores(base, s, req, rid);
    var s1 := s.(redis := R.Rollback(s.redis, req, rid));
    var s' := Goto(s1, i, pc);
    GotoKeepsEntries(s1, i, pc);
    forall j | 0 <= j < |s'.clients|
      ensures ClientOk(base, s', j, s'.clients[j])
    {
      assert j != i ==> ClientOk(base, s1, j, s1.clients[j]);
    }
    PendingMeansCounted(s.redis, req);
    UndoCounts(base, s, s', i, pc);
  }

  lemma PendingMeansCounted(r: R.Redis, req: L.Request)
    requires R.PendingCounted(r) && req in r.entries && r.entries[req].Pending?
    ensures R.CountOf(r, req.coupon, req.user) >= 1
  {
    assert req in R.PendingOf(r, req.coupon, req.user);
    assert |R.PendingOf(r, req.coupon, req.user)| <= R.CountOf(r, req.coupon, req.user);
  }

  lemma UndoCounts(base: L.Ledger, s: State, s': State, i: nat, pc: Pc)
    requires StockSound(s) && CountSound(base, s)
    requires i < |s.clients| && s.clients[i].pc.Undoing? && !pc.Admitted? && !pc.Undoing?
    requires var req, rid := s.clients[i].req, s.clients[i].pc.rid;
             && R.Holds(s.redis, req, rid) && req.coupon in s.redis.stock && R.CountOf(s.redis, req.coupon, req.user) >= 1
             && s' == Goto(s.(redis := R.Rollback(s.redis, req, rid)), i, pc)
    ensures StockSound(s') && CountSound(base, s')
  {
    var req, rid := s.clients[i].req, s.clients[i].pc.rid;
    R.RollbackEffect(s.redis, req, rid);
    forall c, u
      ensures L.CountUser(s'.db.claims, c, u) + LiveIn(OnUser(c, u), s'.clients)
           <= R.CountOf(s'.redis, c, u) + L.CountUser(base.claims, c, u)
    {
      RollbackCount(s.redis, req, rid, c, u);
      LiveUpdate(OnUser(c, u), s.clients, i, s.clients[i].(pc := pc));
    }
    forall c | c in s'.redis.stock && c in s'.db.campaigns
      ensures s'.redis.stock[c] + LiveIn(OnCoupon(c), s'.clients) <= s'.db.campaigns[c].stock
    {
      LiveUpdate(OnCoupon(c), s.clients, i, s.clients[i].(pc := pc));
    }
  }

  /** A reservation id belongs to one client, so only one entry, that client's, can carry it; after
      a rollback of it none does. */
  lemma RollbackKeeps(base: L.Ledger, s: State, i: nat, o: Outcome, again: bool)
    requires Inv(base, s) && Enabled(s, Rollback(i, o, again)) 
    ensures Inv(base, Next(s, Rollback(i, o, again)))
  {
    var pc, req := s.clients[i].pc, s.clients[i].req;
    var reply := Replied(Refused(MapError(pc.error)));
    assert ClientOk(base, s, i, s.clients[i]);
    var pc' := if o.Done? then reply
               else if o.Lost? then OnError(again, Undone(pc.rid, pc.error), reply)
               else OnError(again, pc, reply);
    if o.Applied() && R.Holds(s.redis, req, pc.rid) {
      RollbackStores(base, s, req, pc.rid);
      UndoStep(base, s, i, pc');
    } else {
      LocalStep(base, s, i, pc');
    }
  }

  lemma ExpireKeeps(base: L.Ledger, s: State, req: L.Request)
    requires Inv(base, s)
    ensures Inv(base, Next(s, Expire(req)))
  {
    var r' := R.Expire(s.redis, req);
    assert r'.entries - {req} == s.redis.entries - {req};
    EntryStep(base, s, r', req);
  }

  lemma LoadKeeps(base: L.Ledger, s: State, i: nat, ok: bool)
    requires Inv(base, s) && Enabled(s, LoadCampaign(i, ok))
    ensures Inv(base, Next(s, LoadCampaign(i, ok)))
  {
    var c := s.clients[i].req.coupon;
    LocalStep(base, s, i,
              if !ok then Replied(Refused(Internal))
              else if c !in s.db.campaigns then Replied(Refused(Rejected(L.NotFound)))
              else Loaded(s.clients[i].pc.attempt, s.db.campaigns[c]));
  }

  lemma StepKeepsInv(base: L.Ledger, s: State, a: Action)
    requires GoodBase(base) && Inv(base, s) && Enabled(s, a)
    ensures Inv(base, Next(s, a))
  {
    match a
    case Arrive(req, rid) => ArriveStep(base, s, req, rid);
    case Decide(i, now, o, again) => DecideKeeps(base, s, i, now, o, again);
    case LoadCampaign(i, ok) => LoadKeeps(base, s, i, ok);
    case EnsureCampaign(i, o, again) => EnsureKeeps(base, s, i, o, again);
    case Poll(i, ok, deadline) => PollKeeps(base, s, i, ok, deadline);
    case Fetch(i, ok) => FetchKeeps(base, s, i, ok);
    case NextAttempt(i, rid) => NextAttemptKeeps(base, s, i, rid);
    case Persist(i, now, ids, ok) => PersistKeeps(base, s, i, now, ids, ok);
    case Finalize(i, o, again) => FinalizeKeeps(base, s, i, o, again);
    case Rollback(i, o, again) => RollbackKeeps(base, s, i, o, again);
    case Expire(req) => ExpireKeeps(base, s, req);
  }

  lemma {:induction false} RunKeepsInv(base: L.Ledger, s: State, acts: seq<Action>, s': State)
    requires GoodBase(base) && Inv(base, s) && Run(s, acts, s')
    ensures Inv(base, s')
    decreases |acts|
  {
    if acts != [] {
      StepKeepsInv(base, s, acts[0]);
      RunKeepsInv(base, Next(s, acts[0]), acts[1..], s');
    }
  }

  /******* Main results *******/

  /** Redis admission is sound for the ledger, in every interleaving with expiries and lost replies:
      Redis stock plus live admissions never exceeds MySQL stock, and a user's ledger claims plus
      live admissions never exceed that user's Redis count beyond the claims it started with. */
  lemma AdmissionIsSound(base: L.Ledger, acts: seq<Action>, s: State)
    requires GoodBase(base) && Run(Start(base), acts, s)
    ensures forall c :: c in s.redis.stock ==>
              && c in s.db.campaigns && 0 <= s.redis.stock[c]
              && s.redis.stock[c] + LiveIn(OnCoupon(c), s.clients) <= s.db.campaigns[c].stock
    ensures forall c, u :: L.CountUser(base.claims, c, u) == 0 ==>
              L.CountUser(s.db.claims, c, u) + LiveIn(OnUser(c, u), s.clients) <= R.CountOf(s.redis, c, u)
  {
    StartInv(base);
    RunKeepsInv(base, Start(base), acts, s);
    assert CountSound(base, s);
  }

  /** So an admitted request is never turned down by MySQL as sold out and, if its user had no
      claims on the campaign at the start, neither as already claimed nor as over the limit. */
  lemma AdmittedIsNeverRejected(base: L.Ledger, acts: seq<Action>, s: State, i: nat, now: int, ids: L.RowIds)
    requires GoodBase(base) && Run(Start(base), acts, s)
    requires i < |s.clients| && s.clients[i].pc.Admitted?
    ensures var req := s.clients[i].req;
            var reply := L.PersistClaim(s.db, now, req, ids).1;
            && reply != L.Err(L.SoldOut) && reply != L.Err(L.NotFound)
            && (L.CountUser(base.claims, req.coupon, req.user) == 0 ==>
                  reply != L.Err(L.AlreadyClaimed) && reply != L.Err(L.LimitReached))
  {
    StartInv(base);
    RunKeepsInv(base, Start(base), acts, s);
    AdmittedFits(base, s, i);
    var req := s.clients[i].req;
    if L.Admissible(s.db, now, req) {
      L.SameLedger(s.db, now, req, ids);
    }
  }

  /** Idempotent replies: in every concurrent run, any two successful replies for the same coupon,
      user and non-empty key carry the same claim, and the ledger holds exactly that one row. */
  lemma RepliesAreIdempotent(base: L.Ledger, acts: seq<Action>, s: State, i: nat, j: nat)
    requires GoodBase(base) && Run(Start(base), acts, s)
    requires i < |s.clients| && s.clients[i].pc.Replied? && s.clients[i].pc.reply.Granted?
    requires j < |s.clients| && s.clients[j].pc.Replied? && s.clients[j].pc.reply.Granted?
    requires s.clients[i].req == s.clients[j].req && s.clients[i].req.key != ""
    ensures s.clients[i].pc.reply.claim == s.clients[j].pc.reply.claim
    ensures s.clients[i].pc.reply.claim.req == s.clients[i].req
    ensures exists n :: 0 <= n < |s.db.claims| && s.db.claims[n] == s.clients[i].pc.reply.claim
              && forall m :: 0 <= m < |s.db.claims| && s.db.claims[m].req == s.clients[i].req ==> m == n
  {
    StartInv(base);
    RunKeepsInv(base, Start(base), acts, s);
    assert ClientOk(base, s, i, s.clients[i]) && ClientOk(base, s, j, s.clients[j]);
    var claim := s.clients[i].pc.reply.claim;
    L.KeyNamesOneClaim(s.db.claims, claim);
    L.KeyNamesOneClaim(s.db.claims, s.clients[j].pc.reply.claim);
    var n :| 0 <= n < |s.db.claims| && s.db.claims[n] == claim;
  }
}
