/** Sequential runs of requests in which idempotency entries expire at any point: how far Redis falls
    behind the ledger, and exactly when a request is treated differently from the MySQL-only path. */
module ClaimExpiry {
  import opened Common
  import Codec
  import L = Ledger
  import R = Adjudicator
  import P = ClaimProtocol
  import F = ClaimRefinement

  datatype Event = Ask(call: F.Call) | Expire(req: L.Request)

  /** The stores, and the claims whose replay Redis has charged a second time, once per charge. */
  datatype History = History(s: F.Stores, twice: seq<L.Claim>)

  /** The request's row exists, and Redis admits it all the same. */
  predicate ChargedTwice(s: F.Stores, call: F.Call) {
    L.FindReplay(s.db.claims, call.req).Some? && R.DecideBranch(s.redis, call.now, call.req).Admit?
  }

  function Step(h: History, e: Event): History {
    match e
    case Expire(q) => h.(s := h.s.(redis := R.Expire(h.s.redis, q)))
    case Ask(call) =>
      History(F.FastClaim(h.s, call, P.ATTEMPTS).0,
              if ChargedTwice(h.s, call) then h.twice + [L.FindReplay(h.s.db.claims, call.req).value] else h.twice)
  }

  function Run(h: History, es: seq<Event>): History
    decreases |es|
  {
    if es == [] then h else Run(Step(h, es[0]), es[1..])
  }

  /** Requests on the campaigns `cs` with non-empty keys and fresh row ids; anything may expire. */
  ghost predicate Legal(h: History, cs: set<int>, e: Event) {
    e.Ask? ==> e.call.req.coupon in cs && e.call.req.key != "" && L.FreshIds(h.s.db, e.call.ids)
  }

  ghost predicate LegalRun(h: History, cs: set<int>, es: seq<Event>)
    decreases |es|
  {
    es == [] || (Legal(h, cs, es[0]) && LegalRun(Step(h, es[0]), cs, es[1..]))
  }

  /******* How far Redis is behind *******/

  /** Redis is short of exactly the units charged twice; before hydration there is nothing. */
  ghost predicate CampaignBehind(h: History, c: int) {
    var s := h.s;
    if c in s.redis.stock then
      && c in s.db.campaigns && c in s.redis.meta
      && s.redis.stock[c] + L.CountCoupon(h.twice, c) == s.db.campaigns[c].stock
      && s.redis.meta[c] == R.Meta(s.db.campaigns[c].status, s.db.campaigns[c].startAt, s.db.campaigns[c].endAt,
                                   s.db.campaigns[c].Limit())
    else
      && c !in s.redis.meta && L.CountCoupon(h.twice, c) == 0
      && (forall q :: q in s.redis.entries ==> q.coupon != c)
      && (forall claim :: claim in s.db.claims ==> claim.req.coupon != c)
  }

  ghost predicate EntryBehind(h: History, q: L.Request) {
    q in h.s.redis.entries ==>
      h.s.redis.entries[q].Success? && L.Claim(h.s.redis.entries[q].claimId, q) in h.s.db.claims
  }

  ghost predicate UserBehind(h: History, c: int, u: int) {
    R.CountOf(h.s.redis, c, u) == L.CountUser(h.s.db.claims, c, u) + L.CountUser(h.twice, c, u)
  }

  ghost predicate Behind(h: History, cs: set<int>) {
    && L.UniqueClaims(h.s.db.claims)
    && R.CountsBounded(h.s.redis)
    && (forall c :: c in cs ==> CampaignBehind(h, c))
    && (forall q: L.Request :: q.coupon in cs ==> EntryBehind(h, q))
    && (forall c, u :: c in cs ==> UserBehind(h, c, u))
  }

  /** Stores in step are not behind at all. */
  lemma InStepIsNotBehind(s: F.Stores, cs: set<int>)
    requires F.Sync(s, cs)
    ensures Behind(History(s, []), cs)
  {
    var h := History(s, []);
    forall c | c in cs
      ensures CampaignBehind(h, c)
    {
      assert F.CampaignSync(s, c);
      forall claim | claim in s.db.claims
        ensures c !in s.redis.stock ==> claim.req.coupon != c
      {
        if claim.req.coupon == c {
          assert F.EntrySync(s, claim.req);
        }
      }
    }
    forall q: L.Request | q.coupon in cs
      ensures EntryBehind(h, q)
    {
      assert F.EntrySync(s, q);
    }
    forall c, u | c in cs
      ensures UserBehind(h, c, u)
    {
      assert F.UserSync(s, c, u);
    }
  }

  /******* Every step keeps the account *******/

  lemma ExpireKeeps(h: History, cs: set<int>, q: L.Request)
    requires Behind(h, cs)
    ensures Behind(Step(h, Expire(q)), cs)
  {
    var h' := Step(h, Expire(q));
    R.EntryGoneKeepsCounts(h.s.redis, h'.s.redis, q);
    forall c | c in cs
      ensures CampaignBehind(h', c)
    {
      assert CampaignBehind(h, c);
    }
    forall p: L.Request | p.coupon in cs
      ensures EntryBehind(h', p)
    {
      assert EntryBehind(h, p);
    }
    forall c, u | c in cs
      ensures UserBehind(h', c, u)
    {
      assert UserBehind(h, c, u);
    }
  }

  lemma HydrateKeeps(h: History, cs: set<int>, c: int)
    requires Behind(h, cs) && c in cs && c in h.s.db.campaigns && c !in h.s.redis.stock
    ensures Behind(h.(s := h.s.(redis := R.Hydrate(h.s.redis, c, h.s.db.campaigns[c]))), cs)
  {
    var h' := h.(s := h.s.(redis := R.Hydrate(h.s.redis, c, h.s.db.campaigns[c])));
    assert CampaignBehind(h, c);
    assert forall d, u :: R.PendingOf(h'.s.redis, d, u) == R.PendingOf(h.s.redis, d, u);
    forall d | d in cs
      ensures CampaignBehind(h', d)
    {
      assert CampaignBehind(h, d);
    }
    forall q: L.Request | q.coupon in cs
      ensures EntryBehind(h', q)
    {
      assert EntryBehind(h, q);
    }
    forall d, u | d in cs
      ensures UserBehind(h', d, u)
    {
      assert UserBehind(h, d, u);
    }
  }

  /** Redis is never ahead: whatever it admits, the ledger accepts or has already. */
  lemma AdmittedIsAccepted(h: History, cs: set<int>, call: F.Call)
    requires Behind(h, cs) && call.req.coupon in cs && call.req.key != "" && R.DecideBranch(h.s.redis, call.now, call.req).Admit?
    ensures L.FindReplay(h.s.db.claims, call.req).Some? || L.Admissible(h.s.db, call.now, call.req)
    ensures call.req.coupon in h.s.db.campaigns && h.s.db.campaigns[call.req.coupon].Active(call.now)
  {
    assert CampaignBehind(h, call.req.coupon);
    assert UserBehind(h, call.req.coupon, call.req.user);
  }

  /** The row an admitted request ends up with. */
  function Row(s: F.Stores, call: F.Call): L.Claim {
    match L.FindReplay(s.db.claims, call.req)
    case Some(claim) => claim
    case None => L.Claim(call.ids.claim, call.req)
  }

  lemma AdmitEffect(h: History, cs: set<int>, call: F.Call)
    requires Behind(h, cs) && call.req.coupon in cs && call.req.key != "" && R.DecideBranch(h.s.redis, call.now, call.req).Admit?
    ensures var s, h' := h.s, Step(h, Ask(call));
            var c, u := call.req.coupon, call.req.user;
            && c in s.db.campaigns
            && h'.s.redis.stock == s.redis.stock[c := s.redis.stock[c] - 1]
            && h'.s.redis.meta == s.redis.meta
            && h'.s.redis.entries == s.redis.entries[call.req := Codec.Success(Row(s, call).id)]
            && h'.s.redis.counts == s.redis.counts[c := R.Counts(s.redis, c)[u := R.CountOf(s.redis, c, u) + 1]]
            && (if L.FindReplay(s.db.claims, call.req).Some? then h'.s.db == s.db && h'.twice == h.twice + [Row(s, call)]
                else h'.s.db == L.Issue(s.db, call.req, call.ids) && h'.twice == h.twice)
  {
    AdmittedIsAccepted(h, cs, call);
    R.AdmitEffect(h.s.redis, call.now, call.req, call.rid);
    L.SameLedger(h.s.db, call.now, call.req, call.ids);
    var r1 := R.Decide(h.s.redis, call.now, call.req, call.rid).0;
    assert R.Holds(r1, call.req, call.rid);
    assert r1.entries[call.req := Codec.Success(Row(h.s, call).id)]
        == h.s.redis.entries[call.req := Codec.Success(Row(h.s, call).id)];
  }

  lemma AdmitBounded(h: History, cs: set<int>, call: F.Call)
    requires Behind(h, cs) && call.req.coupon in cs && call.req.key != "" && R.DecideBranch(h.s.redis, call.now, call.req).Admit?
    ensures R.CountsBounded(Step(h, Ask(call)).s.redis)
  {
    AdmitEffect(h, cs, call);
    R.AdmitKeepsCounts(h.s.redis, call.now, call.req, call.rid);
    R.AdmitEffect(h.s.redis, call.now, call.req, call.rid);
    var r1, r2 := R.Decide(h.s.redis, call.now, call.req, call.rid).0, Step(h, Ask(call)).s.redis;
    assert r2.entries - {call.req} == r1.entries - {call.req};
    hide Step;
    R.EntryGoneKeepsCounts(r1, r2, call.req);
  }

  lemma LastClaim(claims: seq<L.Claim>, claim: L.Claim, c: int, u: int)
    ensures L.CountUser(claims + [claim], c, u)
         == L.CountUser(claims, c, u) + (if claim.req.coupon == c && claim.req.user == u then 1 else 0)
    ensures L.CountCoupon(claims + [claim], c) == L.CountCoupon(claims, c) + (if claim.req.coupon == c then 1 else 0)
  {
    assert (claims + [claim])[..|claims|] == claims;
  }

  /** The claims after an admission. */
  lemma AdmitRows(h: History, cs: set<int>, call: F.Call)
    requires Behind(h, cs) && call.req.coupon in cs && call.req.key != "" && R.DecideBranch(h.s.redis, call.now, call.req).Admit?
    ensures var claims, claims', row := h.s.db.claims, Step(h, Ask(call)).s.db.claims, Row(h.s, call);
            && claims' == (if L.FindReplay(claims, call.req).Some? then claims else claims + [row])
            && row in claims' && row.req == call.req
  {
    AdmitEffect(h, cs, call);
    if L.FindReplay(h.s.db.claims, call.req).None? {
      assert L.Issue(h.s.db, call.req, call.ids).claims == h.s.db.claims + [Row(h.s, call)];
      assert (h.s.db.claims + [Row(h.s, call)])[|h.s.db.claims|] == Row(h.s, call);
    }
  }

  lemma AdmitCampaigns(h: History, cs: set<int>, call: F.Call, c: int)
    requires Behind(h, cs) && call.req.coupon in cs && call.req.key != "" && R.DecideBranch(h.s.redis, call.now, call.req).Admit?
    requires c in cs
    ensures CampaignBehind(Step(h, Ask(call)), c)
  {
    AdmitEffect(h, cs, call);
    AdmitRows(h, cs, call);
    hide Step;
    assert CampaignBehind(h, c) && CampaignBehind(h, call.req.coupon);
    LastClaim(h.twice, Row(h.s, call), c, 0);
  }

  lemma AdmitEntries(h: History, cs: set<int>, call: F.Call, q: L.Request)
    requires Behind(h, cs) && call.req.coupon in cs && call.req.key != "" && R.DecideBranch(h.s.redis, call.now, call.req).Admit?
    requires q.coupon in cs
    ensures EntryBehind(Step(h, Ask(call)), q)
  {
    AdmitEffect(h, cs, call);
    AdmitRows(h, cs, call);
    hide Step;
    assert EntryBehind(h, q);
    if q != call.req && q in h.s.redis.entries {
      assert L.Claim(h.s.redis.entries[q].claimId, q) in h.s.db.claims;
    }
  }

  lemma AdmitUsers(h: History, cs: set<int>, call: F.Call, c: int, u: int)
    requires Behind(h, cs) && call.req.coupon in cs && call.req.key != "" && R.DecideBranch(h.s.redis, call.now, call.req).Admit?
    requires c in cs
    ensures UserBehind(Step(h, Ask(call)), c, u)
  {
    AdmitEffect(h, cs, call);
    AdmitRows(h, cs, call);
    hide Step;
    assert UserBehind(h, c, u);
    LastClaim(h.twice, Row(h.s, call), c, u);
    LastClaim(h.s.db.claims, Row(h.s, call), c, u);
  }

  lemma AdmitUnique(h: History, cs: set<int>, call: F.Call)
    requires Behind(h, cs) && call.req.coupon in cs && call.req.key != "" && R.DecideBranch(h.s.redis, call.now, call.req).Admit?
    requires L.FreshIds(h.s.db, call.ids)
    ensures L.UniqueClaims(Step(h, Ask(call)).s.db.claims)
  {
    AdmitEffect(h, cs, call);
    AdmittedIsAccepted(h, cs, call);
    if L.FindReplay(h.s.db.claims, call.req).None? {
      L.IssueKeepsUnique(h.s.db, call.now, call.req, call.ids);
    }
  }

  lemma AdmitKeeps(h: History, cs: set<int>, call: F.Call)
    requires Behind(h, cs) && call.req.coupon in cs && call.req.key != "" && R.DecideBranch(h.s.redis, call.now, call.req).Admit?
    requires L.FreshIds(h.s.db, call.ids)
    ensures Behind(Step(h, Ask(call)), cs)
  {
    AdmitUnique(h, cs, call);
    AdmitBounded(h, cs, call);
    hide Step;
    forall c | c in cs { AdmitCampaigns(h, cs, call, c); }
    forall q: L.Request | q.coupon in cs { AdmitEntries(h, cs, call, q); }
    forall c, u | c in cs { AdmitUsers(h, cs, call, c, u); }
  }

  /** A request that Redis knows about and does not admit changes nothing. */
  lemma RefusedChangesNothing(h: History, cs: set<int>, call: F.Call)
    requires Behind(h, cs) && call.req.coupon in cs && call.req.coupon in h.s.redis.stock
    requires !R.DecideBranch(h.s.redis, call.now, call.req).Admit?
    ensures Step(h, Ask(call)) == h
  {
    assert EntryBehind(h, call.req);
    R.CompensationsAreDead(h.s.redis, call.now, call.req);
  }

  lemma HydratedAskKeeps(h: History, cs: set<int>, call: F.Call)
    requires Behind(h, cs) && Legal(h, cs, Ask(call)) && call.req.coupon in h.s.redis.stock
    ensures Behind(Step(h, Ask(call)), cs)
  {
    if R.DecideBranch(h.s.redis, call.now, call.req).Admit? {
      AdmitKeeps(h, cs, call);
    } else {
      RefusedChangesNothing(h, cs, call);
    }
  }

  /** The history after lazy hydration. */
  function Hydrated(h: History, c: int): History
    requires c in h.s.db.campaigns
  {
    h.(s := h.s.(redis := R.Hydrate(h.s.redis, c, h.s.db.campaigns[c])))
  }

  /** Asking about a campaign Redis has not heard of is asking again after hydration. */
  lemma ColdAsk(h: History, cs: set<int>, call: F.Call)
    requires Behind(h, cs) && Legal(h, cs, Ask(call)) && call.req.coupon !in h.s.redis.stock
    ensures call.req.coupon !in h.s.db.campaigns ==> Step(h, Ask(call)) == h
    ensures call.req.coupon in h.s.db.campaigns ==>
              Step(h, Ask(call)) == Step(Hydrated(h, call.req.coupon), Ask(call.(rid := call.again)))
  {
    var c := call.req.coupon;
    assert CampaignBehind(h, c);
    assert L.FindReplay(h.s.db.claims, call.req).None?;
    if c in h.s.db.campaigns {
      HydrateKeeps(h, cs, c);
      var h1, retry := Hydrated(h, c), call.(rid := call.again);
      assert EntryBehind(h1, call.req);
      assert F.Attempt(h1.s, retry).1.Some?;
    }
  }

  lemma AskKeeps(h: History, cs: set<int>, call: F.Call)
    requires Behind(h, cs) && Legal(h, cs, Ask(call))
    ensures Behind(Step(h, Ask(call)), cs)
  {
    hide Behind, Step;
    var c := call.req.coupon;
    if c in h.s.redis.stock {
      HydratedAskKeeps(h, cs, call);
    } else {
      ColdAsk(h, cs, call);
      if c in h.s.db.campaigns {
        HydrateKeeps(h, cs, c);
        HydratedAskKeeps(Hydrated(h, c), cs, call.(rid := call.again));
      }
    }
  }

  /** Over every sequential run of requests and expiries, Redis falls behind the ledger by exactly the
      units it charged twice: its stock by those of the campaign, a user's count by that user's. */
  lemma {:induction false} BehindByTheDoubleCharges(h: History, cs: set<int>, es: seq<Event>)
    requires Behind(h, cs) && LegalRun(h, cs, es)
    ensures Behind(Run(h, es), cs)
    decreases |es|
  {
    hide Behind, Step;
    if es != [] {
      match es[0] {
        case Ask(call) => AskKeeps(h, cs, call);
        case Expire(q) => ExpireKeeps(h, cs, q);
      }
      BehindByTheDoubleCharges(Step(h, es[0]), cs, es[1..]);
    }
  }

  /******* Exactly when it shows *******/

  /** The campaign's last units, or the user's last ones, are gone to double charges. */
  ghost predicate Starved(h: History, req: L.Request)
    requires req.coupon in h.s.db.campaigns
  {
    var camp := h.s.db.campaigns[req.coupon];
    || camp.stock <= L.CountCoupon(h.twice, req.coupon)
    || camp.Limit() - L.CountUser(h.s.db.claims, req.coupon, req.user) <= L.CountUser(h.twice, req.coupon, req.user)
  }

  /** On a campaign Redis knows, it admits an admissible request unless double charges starve it. */
  lemma AdmitsUnlessStarved(h: History, cs: set<int>, call: F.Call)
    requires Behind(h, cs) && call.req.coupon in cs && call.req.key != "" && call.req.coupon in h.s.redis.stock
    requires L.Admissible(h.s.db, call.now, call.req)
    ensures R.DecideBranch(h.s.redis, call.now, call.req).Admit? <==> !Starved(h, call.req)
  {
    assert CampaignBehind(h, call.req.coupon);
    assert EntryBehind(h, call.req);
    assert UserBehind(h, call.req.coupon, call.req.user);
  }

  lemma BehindDiffers(h: History, cs: set<int>, call: F.Call)
    requires Behind(h, cs) && Legal(h, cs, Ask(call))
    ensures Step(h, Ask(call)).s.db != F.SlowClaim(h.s.db, call).0 <==>
            L.Admissible(h.s.db, call.now, call.req) && Starved(h, call.req)
  {
    var c := call.req.coupon;
    if c in h.s.redis.stock {
      F.DiffersExactlyWhen(h.s, call);
      if L.Admissible(h.s.db, call.now, call.req) {
        AdmitsUnlessStarved(h, cs, call);
      }
    } else {
      ColdDiffers(h, cs, call);
    }
  }

  /** Before hydration nothing has been charged, let alone twice. */
  lemma ColdDiffers(h: History, cs: set<int>, call: F.Call)
    requires Behind(h, cs) && Legal(h, cs, Ask(call)) && call.req.coupon !in h.s.redis.stock
    ensures Step(h, Ask(call)).s.db == F.SlowClaim(h.s.db, call).0
    ensures L.Admissible(h.s.db, call.now, call.req) ==> !Starved(h, call.req)
  {
    var c := call.req.coupon;
    ColdAsk(h, cs, call);
    assert CampaignBehind(h, c);
    F.NoClaims(h.s.db.claims, c, call.req.user);
    assert UserBehind(h, c, call.req.user);
    NoneTwice(h.twice, c, call.req.user);
    if c in h.s.db.campaigns {
      HydrateKeeps(h, cs, c);
      var h1, retry := Hydrated(h, c), call.(rid := call.again);
      F.DiffersExactlyWhen(h1.s, retry);
      if L.Admissible(h1.s.db, retry.now, retry.req) {
        AdmitsUnlessStarved(h1, cs, retry);
      }
    }
  }

  lemma {:induction false} NoneTwice(twice: seq<L.Claim>, c: int, u: int)
    ensures L.CountUser(twice, c, u) <= L.CountCoupon(twice, c)
    decreases |twice|
  {
    if twice != [] {
      NoneTwice(twice[..|twice| - 1], c, u);
    }
  }

  /** From campaigns without claims that Redis has not heard of, after any sequential run of requests
      and expiries: the next request makes the Redis path commit another ledger than the MySQL-only
      path if and only if MySQL would accept it and the units charged twice use up what is left of the
      campaign's stock or of the user's allowance. */
  lemma ExpiryBreaksRefinement(s: F.Stores, cs: set<int>, es: seq<Event>, call: F.Call)
    requires L.UniqueClaims(s.db.claims) && R.CountsBounded(s.redis) && F.Untouched(s, cs)
    requires LegalRun(History(s, []), cs, es)
    requires var h := Run(History(s, []), es); Legal(h, cs, Ask(call))
    ensures var h := Run(History(s, []), es);
            F.FastClaim(h.s, call, P.ATTEMPTS).0.db != F.SlowClaim(h.s.db, call).0 <==>
              L.Admissible(h.s.db, call.now, call.req) && Starved(h, call.req)
  {
    F.StartSync(s, cs);
    InStepIsNotBehind(s, cs);
    BehindByTheDoubleCharges(History(s, []), cs, es);
    BehindDiffers(Run(History(s, []), es), cs, call);
  }

  /******* It happens *******/

  const LAST_TWO: L.Campaign := L.Campaign("ACTIVE", 2, 2, 0, 10)
  const FIRST := F.Call(5, L.Request(1, 1, "a"), L.RowIds(1, 1, 1), "r1", "r2")
  const AGAIN := F.Call(5, L.Request(1, 1, "a"), L.RowIds(2, 2, 2), "r3", "r4")
  const OTHER := F.Call(5, L.Request(1, 2, "b"), L.RowIds(3, 3, 3), "r5", "r6")

  /** From a cold Redis: user 1 claims one of two coupons, its entry expires, it asks again with the
      same key, and user 2, for whom MySQL has a coupon left, gets nothing. */
  lemma ExpiryBreaksRefinementAtWork() returns (db: L.Ledger, es: seq<Event>)
    ensures db.claims == [] && es == [Ask(FIRST), Expire(FIRST.req), Ask(AGAIN)] && AGAIN.req == FIRST.req
    ensures var h0 := History(F.Stores(db, R.EMPTY), []);
            var h := Run(h0, es);
            && LegalRun(h0, {1}, es)
            && F.FastClaim(h.s, OTHER, P.ATTEMPTS).0.db != F.SlowClaim(h.s.db, OTHER).0
  {
    hide Behind, Step, Starved, L.Admissible, F.FastClaim, F.SlowClaim, F.Sync;
    db := L.Ledger(map[1 := LAST_TWO], [], [], []);
    es := [Ask(FIRST), Expire(FIRST.req), Ask(AGAIN)];
    var h0 := History(F.Stores(db, R.EMPTY), []);
    F.ColdStart(db, {1});
    var h1 := Step(h0, Ask(FIRST));
    F.StartSync(h0.s, {1});
    InStepIsNotBehind(h0.s, {1});
    FirstStep(h0, db);
    AskKeeps(h0, {1}, FIRST);
    var h2 := Step(h1, Expire(FIRST.req));
    ExpireKeeps(h1, {1}, FIRST.req);
    SecondStep(h1, h2);
    var h3 := Step(h2, Ask(AGAIN));
    assert es[1..] == [Expire(FIRST.req), Ask(AGAIN)] && es[1..][1..] == [Ask(AGAIN)] && es[1..][1..][1..] == [];
    assert Run(h3, es[1..][1..][1..]) == h3;
    assert LegalRun(h3, {1}, es[1..][1..][1..]);
    assert Run(h2, es[1..][1..]) == h3 && LegalRun(h2, {1}, es[1..][1..]);
    assert Run(h1, es[1..]) == h3 && LegalRun(h1, {1}, es[1..]);
    assert Run(h0, es) == h3;
    ExpiryBreaksRefinement(h0.s, {1}, es, OTHER);
  }

  /** The first claim is committed and entered. */
  lemma FirstStep(h0: History, db: L.Ledger)
    requires db == L.Ledger(map[1 := LAST_TWO], [], [], []) && h0 == History(F.Stores(db, R.EMPTY), []) && Behind(h0, {1})
    ensures var h1 := Step(h0, Ask(FIRST));
            && h1.twice == [] && h1.s.db == L.Issue(db, FIRST.req, FIRST.ids)
            && h1.s.redis.stock == map[1 := 1] && R.CountOf(h1.s.redis, 1, 1) == 1
            && h1.s.redis.meta == map[1 := R.Meta("ACTIVE", 0, 10, 2)]
  {
    ColdAsk(h0, {1}, FIRST);
    HydrateKeeps(h0, {1}, 1);
    var warm := Hydrated(h0, 1);
    AdmitEffect(warm, {1}, FIRST.(rid := "r2"));
    hide Step;
    assert warm.s.redis.stock == map[1 := 2];
  }

  /** Its replay is charged once more; one coupon is left in MySQL, none in Redis. */
  lemma SecondStep(h1: History, h2: History)
    requires Behind(h2, {1}) && h2 == Step(h1, Expire(FIRST.req))
    requires h1.twice == [] && h1.s.redis.stock == map[1 := 1] && R.CountOf(h1.s.redis, 1, 1) == 1
    requires h1.s.redis.meta == map[1 := R.Meta("ACTIVE", 0, 10, 2)]
    requires h1.s.db == L.Issue(L.Ledger(map[1 := LAST_TWO], [], [], []), FIRST.req, FIRST.ids)
    ensures var h3 := Step(h2, Ask(AGAIN));
            && Legal(h2, {1}, Ask(AGAIN)) && Legal(h3, {1}, Ask(OTHER))
            && L.Admissible(h3.s.db, 5, OTHER.req) && Starved(h3, OTHER.req)
  {
    var claim := L.Claim(1, FIRST.req);
    assert h1.s.db.claims == [claim] && h1.s.db.tasks == [L.TaskRow(1, L.NOTICE, Codec.ClaimBizId(1))];
    assert [claim][..0] == [];
    assert L.FindReplay(h2.s.db.claims, AGAIN.req) == Some(claim);
    assert R.DecideBranch(h2.s.redis, 5, AGAIN.req).Admit?;
    AdmitEffect(h2, {1}, AGAIN);
    assert [] + [claim] == [claim];
  }
}
