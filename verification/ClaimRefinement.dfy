/** The Redis path against the MySQL-only path, for requests served one after the other without
    faults: the fast path commits exactly the ledger the slow path would. */
module ClaimRefinement {
  import opened Common
  import Codec
  import L = Ledger
  import R = Adjudicator
  import P = ClaimProtocol

  /** One request with its arrival time, the row ids MySQL would hand out, and the reservation ids its
      first and its second attempt draw. */
  datatype Call = Call(now: int, req: L.Request, ids: L.RowIds, rid: string, again: string)

  datatype Stores = Stores(db: L.Ledger, redis: R.Redis)

  /******* The slow path *******/

  function SlowReply(r: L.Reply): P.Reply {
    match r
    case Ok(claim) => P.Granted(claim)
    case Err(e) => P.Refused(P.MapError(e))
  }

  function SlowClaim(db: L.Ledger, call: Call): (L.Ledger, P.Reply) {
    var (db', r) := L.ClaimCoupon(db, call.now, call.req, call.ids);
    (db', SlowReply(r))
  }

  /******* The fast path *******/

  /** One pass of `claimWithRedis`; `None` asks the caller for another attempt. */
  function Attempt(s: Stores, call: Call): (Stores, Option<P.Reply>) {
    var (r1, d) := R.Decide(s.redis, call.now, call.req, call.rid);
    match d
    case CampaignMiss =>
      if call.req.coupon !in s.db.campaigns then (s, Some(P.Refused(P.Rejected(L.NotFound))))
      else (s.(redis := R.Hydrate(r1, call.req.coupon, s.db.campaigns[call.req.coupon])), None)
    case IdemHit(id) =>
      (s, match L.FindById(s.db.claims, id)
          case Some(claim) => Some(P.Granted(claim))
          case None => Some(P.Refused(P.Internal)))
    case InFlight(_) => (s, None)
    case AlreadyClaimed => (s.(redis := r1), Some(P.Refused(P.Rejected(L.AlreadyClaimed))))
    case LimitReached => (s.(redis := r1), Some(P.Refused(P.Rejected(L.LimitReached))))
    case SoldOut => (s.(redis := r1), Some(P.Refused(P.Rejected(L.SoldOut))))
    case Inactive => (s.(redis := r1), Some(P.Refused(P.Rejected(L.Inactive))))
    case Admitted(rid) =>
      var (db', reply) := L.PersistClaim(s.db, call.now, call.req, call.ids);
      match reply
      case Ok(claim) =>
        (Stores(db', R.Finalize(r1, call.req, rid, claim.id)), Some(P.Granted(claim)))
      case Err(e) =>
        (Stores(db', R.Rollback(r1, call.req, rid)), Some(P.Refused(P.MapError(e))))
  }

  /** `Service.Claim`: at most `n` attempts. */
  function FastClaim(s: Stores, call: Call, n: nat): (Stores, P.Reply)
    decreases n
  {
    if n == 0 then (s, P.Refused(P.Busy))
    else
      var (s', r) := Attempt(s, call);
      match r
      case Some(reply) => (s', reply)
      case None => FastClaim(s', call.(rid := call.again), n - 1)
  }

  /******* Redis mirrors the ledger *******/

  ghost predicate CampaignSync(s: Stores, c: int) {
    if c in s.redis.stock then
      && c in s.db.campaigns && c in s.redis.meta
      && s.redis.stock[c] == s.db.campaigns[c].stock
      && s.redis.meta[c] == R.Meta(s.db.campaigns[c].status, s.db.campaigns[c].startAt, s.db.campaigns[c].endAt,
                                   s.db.campaigns[c].Limit())
    else
      && c !in s.redis.meta
      && forall q :: q in s.redis.entries ==> q.coupon != c
  }

  ghost predicate EntrySync(s: Stores, q: L.Request) {
    if q in s.redis.entries then
      s.redis.entries[q].Success? && L.Claim(s.redis.entries[q].claimId, q) in s.db.claims
    else
      forall claim :: claim in s.db.claims ==> claim.req != q
  }

  ghost predicate UserSync(s: Stores, c: int, u: int) {
    R.CountOf(s.redis, c, u) == L.CountUser(s.db.claims, c, u)
  }

  /** Redis and the ledger agree on the campaigns `cs`; nothing is said about others. */
  ghost predicate Sync(s: Stores, cs: set<int>) {
    && L.UniqueClaims(s.db.claims)
    && R.CountsBounded(s.redis)
    && (forall c :: c in cs ==> CampaignSync(s, c))
    && (forall q: L.Request :: q.coupon in cs ==> EntrySync(s, q))
    && (forall c, u :: c in cs ==> UserSync(s, c, u))
  }

  /** No claim has been made on these campaigns, and Redis has not heard of them. Other campaigns may
      have claims and keys. */
  ghost predicate Untouched(s: Stores, cs: set<int>) {
    && (forall claim :: claim in s.db.claims ==> claim.req.coupon !in cs)
    && s.redis.stock.Keys !! cs && s.redis.meta.Keys !! cs && s.redis.counts.Keys !! cs
    && (forall q :: q in s.redis.entries ==> q.coupon !in cs)
  }

  lemma {:induction false} NoClaims(claims: seq<L.Claim>, c: int, u: int)
    requires forall claim :: claim in claims ==> claim.req.coupon != c
    ensures L.CountUser(claims, c, u) == 0
    decreases |claims|
  {
    if claims != [] {
      var n := |claims| - 1;
      assert claims[n] in claims;
      assert forall claim :: claim in claims[..n] ==> claim in claims;
      NoClaims(claims[..n], c, u);
    }
  }

  lemma StartSync(s: Stores, cs: set<int>)
    requires L.UniqueClaims(s.db.claims) && R.CountsBounded(s.redis) && Untouched(s, cs)
    ensures Sync(s, cs)
  {
    forall c, u | c in cs
      ensures UserSync(s, c, u)
    {
      NoClaims(s.db.claims, c, u);
    }
  }

  lemma HydrateSyncs(s: Stores, cs: set<int>, c: int)
    requires Sync(s, cs) && c in cs && c in s.db.campaigns && c !in s.redis.stock
    ensures Sync(s.(redis := R.Hydrate(s.redis, c, s.db.campaigns[c])), cs)
  {
    var s' := s.(redis := R.Hydrate(s.redis, c, s.db.campaigns[c]));
    assert CampaignSync(s, c);
    assert forall d, u :: R.PendingOf(s'.redis, d, u) == R.PendingOf(s.redis, d, u);
    forall d | d in cs
      ensures CampaignSync(s', d)
    {
      assert CampaignSync(s, d);
    }
    forall q: L.Request | q.coupon in cs
      ensures EntrySync(s', q)
    {
      assert EntrySync(s, q);
    }
    forall d, u | d in cs
      ensures UserSync(s', d, u)
    {
      assert UserSync(s, d, u);
    }
  }

  /** With both stores in step, Redis admits exactly the requests the ledger would accept. */
  lemma SameDecision(s: Stores, cs: set<int>, call: Call)
    requires Sync(s, cs) && call.req.coupon in cs && call.req.key != "" && call.req.coupon in s.redis.stock
    ensures R.DecideBranch(s.redis, call.now, call.req).Admit? <==> L.Admissible(s.db, call.now, call.req)
    ensures call.req in s.redis.entries <==> L.FindReplay(s.db.claims, call.req).Some?
  {
    assert CampaignSync(s, call.req.coupon);
    assert EntrySync(s, call.req);
    assert UserSync(s, call.req.coupon, call.req.user);
  }

  /** The stores after an admitted, persisted and finalized claim. */
  lemma CommitEffect(s: Stores, cs: set<int>, call: Call)
    requires Sync(s, cs) && call.req.coupon in cs && call.req.key != "" && call.req.coupon in s.redis.stock
    requires L.Admissible(s.db, call.now, call.req)
    ensures var (s', r) := Attempt(s, call);
            var c, u := call.req.coupon, call.req.user;
            && r == Some(P.Granted(L.Claim(call.ids.claim, call.req)))
            && s'.db == L.Issue(s.db, call.req, call.ids)
            && s'.redis.stock == s.redis.stock[c := s.redis.stock[c] - 1]
            && s'.redis.meta == s.redis.meta
            && s'.redis.entries == s.redis.entries[call.req := Codec.Success(call.ids.claim)]
            && s'.redis.counts == s.redis.counts[c := R.Counts(s.redis, c)[u := R.CountOf(s.redis, c, u) + 1]]
  {
    SameDecision(s, cs, call);
    R.AdmitEffect(s.redis, call.now, call.req, call.rid);
    L.SameLedger(s.db, call.now, call.req, call.ids);
    var r1 := R.Decide(s.redis, call.now, call.req, call.rid).0;
    assert R.Holds(r1, call.req, call.rid);
    assert r1.entries[call.req := Codec.Success(call.ids.claim)]
        == s.redis.entries[call.req := Codec.Success(call.ids.claim)];
  }

  lemma CommitBounded(s: Stores, cs: set<int>, call: Call)
    requires Sync(s, cs) && call.req.coupon in cs && call.req.key != "" && call.req.coupon in s.redis.stock
    requires L.Admissible(s.db, call.now, call.req)
    ensures R.CountsBounded(Attempt(s, call).0.redis)
  {
    SameDecision(s, cs, call);
    CommitEffect(s, cs, call);
    R.AdmitKeepsCounts(s.redis, call.now, call.req, call.rid);
    R.AdmitEffect(s.redis, call.now, call.req, call.rid);
    var r1, r2 := R.Decide(s.redis, call.now, call.req, call.rid).0, Attempt(s, call).0.redis;
    assert r2.entries - {call.req} == r1.entries - {call.req};
    R.EntryGoneKeepsCounts(r1, r2, call.req);
  }

  lemma CommitCampaigns(s: Stores, cs: set<int>, call: Call, c: int)
    requires Sync(s, cs) && call.req.coupon in cs && call.req.key != "" && call.req.coupon in s.redis.stock
    requires L.Admissible(s.db, call.now, call.req) && c in cs
    ensures CampaignSync(Attempt(s, call).0, c)
  {
    CommitEffect(s, cs, call);
    assert CampaignSync(s, call.req.coupon);
    assert CampaignSync(s, c);
  }

  lemma CommitEntries(s: Stores, cs: set<int>, call: Call, q: L.Request)
    requires Sync(s, cs) && call.req.coupon in cs && call.req.key != "" && call.req.coupon in s.redis.stock
    requires L.Admissible(s.db, call.now, call.req) && q.coupon in cs
    ensures EntrySync(Attempt(s, call).0, q)
  {
    CommitEffect(s, cs, call);
    var s' := Attempt(s, call).0;
    var claim := L.Claim(call.ids.claim, call.req);
    assert s'.db.claims == s.db.claims + [claim];
    assert claim in s'.db.claims;
    assert EntrySync(s, q);
  }

  lemma CommitUsers(s: Stores, cs: set<int>, call: Call, c: int, u: int)
    requires Sync(s, cs) && call.req.coupon in cs && call.req.key != "" && call.req.coupon in s.redis.stock
    requires L.Admissible(s.db, call.now, call.req) && c in cs
    ensures UserSync(Attempt(s, call).0, c, u)
  {
    CommitEffect(s, cs, call);
    P.IssueCounts(s.db, call.req, call.ids, c, u);
    assert UserSync(s, c, u);
  }

  lemma CommitSyncs(s: Stores, cs: set<int>, call: Call)
    requires Sync(s, cs) && call.req.coupon in cs && call.req.key != "" && call.req.coupon in s.redis.stock
    requires L.Admissible(s.db, call.now, call.req) && L.FreshIds(s.db, call.ids)
    ensures Sync(Attempt(s, call).0, cs)
  {
    CommitEffect(s, cs, call);
    CommitBounded(s, cs, call);
    L.IssueKeepsUnique(s.db, call.now, call.req, call.ids);
    forall c | c in cs { CommitCampaigns(s, cs, call, c); }
    forall q: L.Request | q.coupon in cs { CommitEntries(s, cs, call, q); }
    forall c, u | c in cs { CommitUsers(s, cs, call, c, u); }
  }

  /** One attempt on a hydrated campaign settles the request and keeps the stores in step. */
  lemma HydratedAttempt(s: Stores, cs: set<int>, call: Call)
    requires Sync(s, cs) && call.req.coupon in cs && call.req.key != "" && call.req.coupon in s.redis.stock && L.FreshIds(s.db, call.ids)
    ensures var (s', r) := Attempt(s, call);
            && r.Some? && Sync(s', cs) && s'.db == SlowClaim(s.db, call).0
            && RepliesAgree(s.db, call, r.value)
  {
    L.SameLedger(s.db, call.now, call.req, call.ids);
    assert CampaignSync(s, call.req.coupon);
    assert EntrySync(s, call.req);
    assert UserSync(s, call.req.coupon, call.req.user);
    SameDecision(s, cs, call);
    R.CompensationsAreDead(s.redis, call.now, call.req);
    if L.Admissible(s.db, call.now, call.req) {
      CommitEffect(s, cs, call);
      CommitSyncs(s, cs, call);
    } else {
      if call.req in s.redis.entries {
        var claim := L.Claim(s.redis.entries[call.req].claimId, call.req);
        P.IdNamesOneClaim(s.db.claims, claim);
        L.KeyNamesOneClaim(s.db.claims, claim);
      }
      assert Attempt(s, call).0 == s;
    }
  }

  /** How the replies may differ although the ledgers do not: the fast path looks for the replay
      first and tests the limit before the stock. */
  ghost predicate RepliesAgree(db: L.Ledger, call: Call, fast: P.Reply) {
    var slow := SlowClaim(db, call).1;
    && (slow.Granted? ==> fast == slow)
    && (fast != slow ==>
          && call.req.coupon in db.campaigns
          && (!db.campaigns[call.req.coupon].Active(call.now) || db.campaigns[call.req.coupon].stock <= 0)
          && (fast.Granted? || fast == P.Refused(P.Rejected(L.LimitError(db.campaigns[call.req.coupon]))))
          && (fast.Granted? ==> L.FindReplay(db.claims, call.req) == Some(fast.claim)))
  }

  lemma FastClaimAgrees(s: Stores, cs: set<int>, call: Call)
    requires Sync(s, cs) && call.req.coupon in cs && call.req.key != "" && L.FreshIds(s.db, call.ids)
    ensures var (s', r) := FastClaim(s, call, P.ATTEMPTS);
            Sync(s', cs) && s'.db == SlowClaim(s.db, call).0 && RepliesAgree(s.db, call, r)
  {
    var c := call.req.coupon;
    if c in s.redis.stock {
      HydratedAttempt(s, cs, call);
    } else if c in s.db.campaigns {
      HydrateSyncs(s, cs, c);
      HydratedAttempt(s.(redis := R.Hydrate(s.redis, c, s.db.campaigns[c])), cs, call.(rid := call.again));
    }
  }

  /******* Whole runs *******/

  /** Requests on the campaigns `cs`, with non-empty keys and fresh row ids. */
  ghost predicate LegalCalls(db: L.Ledger, cs: set<int>, calls: seq<Call>)
    decreases |calls|
  {
    calls == [] ||
    (&& calls[0].req.coupon in cs && calls[0].req.key != "" && L.FreshIds(db, calls[0].ids)
     && LegalCalls(SlowClaim(db, calls[0]).0, cs, calls[1..]))
  }

  function SlowRun(db: L.Ledger, calls: seq<Call>): L.Ledger
    decreases |calls|
  {
    if calls == [] then db else SlowRun(SlowClaim(db, calls[0]).0, calls[1..])
  }

  function FastRun(s: Stores, calls: seq<Call>): Stores
    decreases |calls|
  {
    if calls == [] then s else FastRun(FastClaim(s, calls[0], P.ATTEMPTS).0, calls[1..])
  }

  lemma {:induction false} FastRunSyncs(s: Stores, cs: set<int>, calls: seq<Call>)
    requires Sync(s, cs) && LegalCalls(s.db, cs, calls)
    ensures Sync(FastRun(s, calls), cs) && FastRun(s, calls).db == SlowRun(s.db, calls)
    decreases |calls|
  {
    if calls != [] {
      FastClaimAgrees(s, cs, calls[0]);
      FastRunSyncs(FastClaim(s, calls[0], P.ATTEMPTS).0, cs, calls[1..]);
    }
  }

  /** For every sequence of fault-free requests on campaigns that have no claims yet and that Redis has
      not heard of, the fast path and the slow path commit the same ledger - whatever claims the
      database holds, and whatever Redis holds, for other campaigns. */
  lemma FastPathRefinesSlowPath(s: Stores, cs: set<int>, calls: seq<Call>)
    requires L.UniqueClaims(s.db.claims) && R.CountsBounded(s.redis) && Untouched(s, cs)
    requires LegalCalls(s.db, cs, calls)
    ensures FastRun(s, calls).db == SlowRun(s.db, calls)
  {
    StartSync(s, cs);
    FastRunSyncs(s, cs, calls);
  }

  /** A cold Redis is one such start. */
  lemma ColdStart(db: L.Ledger, cs: set<int>)
    requires forall claim :: claim in db.claims ==> claim.req.coupon !in cs
    ensures R.CountsBounded(R.EMPTY) && Untouched(Stores(db, R.EMPTY), cs)
  {
    assert forall c, u :: R.PendingOf(R.EMPTY, c, u) == {};
  }

  /** The answers through Redis in the campaign row's own fields: a committed claim first of all, then
      the row's status and dates, the number in its limit column, where less than one means one, and its
      stock, in this order. */
  ghost predicate AnswerByTheRow(db: L.Ledger, call: Call, reply: P.Reply) {
    if exists claim :: claim in db.claims && claim.req == call.req then
      reply.Granted? && reply.claim in db.claims && reply.claim.req == call.req
    else if call.req.coupon !in db.campaigns then reply == P.Refused(P.Rejected(L.NotFound))
    else
      var row, n := db.campaigns[call.req.coupon], L.CountUser(db.claims, call.req.coupon, call.req.user);
      if row.status != "ACTIVE" || call.now < row.startAt || row.endAt < call.now then reply == P.Refused(P.Rejected(L.Inactive))
      else if n >= 1 && row.perUserLimit <= 1 then reply == P.Refused(P.Rejected(L.AlreadyClaimed))
      else if n >= row.perUserLimit > 1 then reply == P.Refused(P.Rejected(L.LimitReached))
      else if row.stock <= 0 then reply == P.Refused(P.Rejected(L.SoldOut))
      else reply == P.Granted(L.Claim(call.ids.claim, call.req))
  }

  lemma HydratedAnswer(s: Stores, cs: set<int>, call: Call)
    requires Sync(s, cs) && call.req.coupon in cs && call.req.key != "" && call.req.coupon in s.redis.stock
    ensures Attempt(s, call).1.Some? && AnswerByTheRow(s.db, call, Attempt(s, call).1.value)
  {
    assert CampaignSync(s, call.req.coupon);
    assert EntrySync(s, call.req);
    assert UserSync(s, call.req.coupon, call.req.user);
    R.CompensationsAreDead(s.redis, call.now, call.req);
    if call.req in s.redis.entries {
      P.IdNamesOneClaim(s.db.claims, L.Claim(s.redis.entries[call.req].claimId, call.req));
    } else if L.Admissible(s.db, call.now, call.req) {
      CommitEffect(s, cs, call);
    }
  }

  lemma RepliesByTheRow(s: Stores, cs: set<int>, call: Call)
    requires Sync(s, cs) && call.req.coupon in cs && call.req.key != ""
    ensures AnswerByTheRow(s.db, call, FastClaim(s, call, P.ATTEMPTS).1)
  {
    var c := call.req.coupon;
    if c in s.redis.stock {
      HydratedAnswer(s, cs, call);
    } else {
      assert CampaignSync(s, c) && EntrySync(s, call.req);
      if c in s.db.campaigns {
        HydrateSyncs(s, cs, c);
        HydratedAnswer(s.(redis := R.Hydrate(s.redis, c, s.db.campaigns[c])), cs, call.(rid := call.again));
      }
    }
  }

  /******* Admissions that MySQL turns down *******/

  /** Whatever the ledger objects to, an admission it rejects leaves no trace in either store. */
  lemma RejectedAdmissionIsUndone(s: Stores, call: Call)
    requires R.CountsBounded(s.redis) && R.DecideBranch(s.redis, call.now, call.req).Admit?
    requires L.PersistClaim(s.db, call.now, call.req, call.ids).1.Err?
    ensures Attempt(s, call)
         == (s, Some(P.Refused(P.MapError(L.PersistClaim(s.db, call.now, call.req, call.ids).1.error))))
  {
    R.AdmitThenRollback(s.redis, call.now, call.req, call.rid);
  }

  /** Redis counts start at zero, so claims made before hydration are unknown to it: it admits users
      who are already at their limit. MySQL catches them, with the reply of the slow path. */
  lemma PriorClaimsAreCaught(s: Stores, call: Call)
    requires R.CountsBounded(s.redis) && R.DecideBranch(s.redis, call.now, call.req).Admit?
    requires call.req.coupon in s.db.campaigns && s.db.campaigns[call.req.coupon].Active(call.now)
    requires L.FindReplay(s.db.claims, call.req).None? && s.db.campaigns[call.req.coupon].stock > 0
    ensures L.CountUser(s.db.claims, call.req.coupon, call.req.user) >= s.db.campaigns[call.req.coupon].Limit() <==>
            Attempt(s, call).1 == Some(P.Refused(P.Rejected(L.LimitError(s.db.campaigns[call.req.coupon]))))
    ensures L.CountUser(s.db.claims, call.req.coupon, call.req.user) >= s.db.campaigns[call.req.coupon].Limit() ==>
              Attempt(s, call).0 == s && SlowClaim(s.db, call) == (s.db, Attempt(s, call).1.value)
  {
    if L.CountUser(s.db.claims, call.req.coupon, call.req.user) >= s.db.campaigns[call.req.coupon].Limit() {
      RejectedAdmissionIsUndone(s, call);
    } else {
      L.SameLedger(s.db, call.now, call.req, call.ids);
    }
  }

  /******* Why "no entry expires" is needed *******/

  /** On a campaign Redis knows, the paths commit different ledgers exactly when MySQL would accept a
      request that Redis does not admit. */
  lemma DiffersExactlyWhen(s: Stores, call: Call)
    requires call.req.coupon in s.redis.stock
    ensures FastClaim(s, call, P.ATTEMPTS).0.db != SlowClaim(s.db, call).0 <==>
            L.Admissible(s.db, call.now, call.req) && !R.DecideBranch(s.redis, call.now, call.req).Admit?
  {
    L.SameLedger(s.db, call.now, call.req, call.ids);
    R.CompensationsAreDead(s.redis, call.now, call.req);
    if L.Admissible(s.db, call.now, call.req) {
      assert |L.Issue(s.db, call.req, call.ids).claims| == |s.db.claims| + 1;
    }
  }

  /** The stores after a claim's idempotency entry expired and the claim is replayed. */
  function ExpiredReplay(s: Stores, replay: Call): Stores {
    FastClaim(s.(redis := R.Expire(s.redis, replay.req)), replay, P.ATTEMPTS).0
  }

  /** Redis admits the replay once the entry is gone. */
  predicate Readmitted(s: Stores, replay: Call) {
    && replay.req.coupon in s.db.campaigns
    && s.db.campaigns[replay.req.coupon].Active(replay.now) && s.db.campaigns[replay.req.coupon].stock > 0
    && L.CountUser(s.db.claims, replay.req.coupon, replay.req.user) < s.db.campaigns[replay.req.coupon].Limit()
  }

  /** Replaying a claim whose idempotency entry has expired leaves the ledger alone. If Redis admits
      it, it returns the right claim but is charged a second time: one unit of stock and one of the
      user's count are gone although no row was written. If not, nothing but the entry has changed. */
  lemma ExpiredReplayCharges(s: Stores, cs: set<int>, replay: Call)
    requires Sync(s, cs) && replay.req.coupon in cs && replay.req in s.redis.entries && replay.req.key != ""
    ensures L.FindReplay(s.db.claims, replay.req).Some? && replay.req.coupon in s.redis.stock
    ensures var c, u := replay.req.coupon, replay.req.user;
            var s' := ExpiredReplay(s, replay);
            && s'.db == s.db
            && (Readmitted(s, replay) ==>
                  && FastClaim(s.(redis := R.Expire(s.redis, replay.req)), replay, P.ATTEMPTS).1
                     == P.Granted(L.FindReplay(s.db.claims, replay.req).value)
                  && s'.redis.stock == s.redis.stock[c := s.redis.stock[c] - 1]
                  && s'.redis.meta == s.redis.meta && s'.redis.entries == s.redis.entries
                  && s'.redis.counts == s.redis.counts[c := R.Counts(s.redis, c)[u := R.CountOf(s.redis, c, u) + 1]])
            && (!Readmitted(s, replay) ==> s'.redis == R.Expire(s.redis, replay.req))
  {
    var c, u := replay.req.coupon, replay.req.user;
    assert CampaignSync(s, c);
    assert EntrySync(s, replay.req);
    assert UserSync(s, c, u);
    var claim := L.Claim(s.redis.entries[replay.req].claimId, replay.req);
    L.KeyNamesOneClaim(s.db.claims, claim);
    var e := R.Expire(s.redis, replay.req);
    assert R.CountOf(e, c, u) == R.CountOf(s.redis, c, u);
    R.CompensationsAreDead(e, replay.now, replay.req);
    if Readmitted(s, replay) {
      assert R.DecideBranch(e, replay.now, replay.req).Admit?;
      R.AdmitEffect(e, replay.now, replay.req, replay.rid);
      var r1 := R.Decide(e, replay.now, replay.req, replay.rid).0;
      assert R.Holds(r1, replay.req, replay.rid);
      assert r1.entries[replay.req := Codec.Success(claim.id)] == s.redis.entries;
    }
  }
}
