/** The claim service as code: the repository's transactions, which change rows in place and put
    them back on error, and the bounded retry loop over Redis and MySQL. Each method is tied to the
    function that specifies it in `Ledger` and `ClaimRefinement`. */
module ClaimService {
  import opened Common
  import Codec
  import L = Ledger
  import R = Adjudicator
  import P = ClaimProtocol
  import F = ClaimRefinement
  import S = RedisScripts

  /** The tables the claim transactions write. */
  class Repository {
    var campaigns: map<int, L.Campaign>
    var claims: seq<L.Claim>
    var tasks: seq<L.TaskRow>
    var events: seq<L.EventRow>

    constructor (db: L.Ledger)
      ensures View() == db
    {
      campaigns, claims, tasks, events := db.campaigns, db.claims, db.tasks, db.events;
    }

    function View(): L.Ledger
      reads this
    {
      L.Ledger(campaigns, claims, tasks, events)
    }

    /** The deferred block of `WithinTx`: rolls every table back after an error of the callback or of
        the commit, which then replaces the callback's result. */
    method End(saved: L.Ledger, r: L.Reply, commits: bool) returns (r': L.Reply)
      modifies this
      ensures (View(), r') == L.WithinTx(saved, match r case Ok(claim) => L.Commit(old(View()), claim) case Err(e) => L.Abort(e), true, commits)
    {
      r' := r;
      if r.Ok? && !commits {
        r' := L.Err(L.StoreError);
      }
      if r'.Err? {
        campaigns, claims, tasks, events := saved.campaigns, saved.claims, saved.tasks, saved.events;
      }
    }

    method DeductStock(coupon: int) returns (ok: bool)
      modifies this`campaigns
      ensures ok == L.DeductStock(old(View()), coupon).Some?
      ensures View() == if ok then L.DeductStock(old(View()), coupon).value else old(View())
    {
      ok := coupon in campaigns && campaigns[coupon].stock > 0;
      if ok {
        campaigns := campaigns[coupon := campaigns[coupon].(stock := campaigns[coupon].stock - 1)];
      }
    }

    /** The INSERT; false on a duplicate key. */
    method InsertClaim(id: int, req: L.Request) returns (ok: bool)
      modifies this`claims
      ensures ok == L.InsertClaim(old(View()), id, req).Some?
      ensures View() == if ok then L.InsertClaim(old(View()), id, req).value else old(View())
    {
      ok := L.FindReplay(claims, req).None?;
      if ok {
        claims := claims + [L.Claim(id, req)];
      }
    }

    method CreateTaskAndOutbox(claim: L.Claim, ids: L.RowIds)
      modifies this`tasks, this`events
      ensures View() == L.CreateTaskAndOutbox(old(View()), claim, ids)
    {
      var biz := Codec.ClaimBizId(claim.id);
      var existing := L.FindTask(tasks, L.NOTICE, biz);
      var task := ids.task;
      if existing.Some? {
        task := existing.value.id;
      } else {
        tasks := tasks + [L.TaskRow(task, L.NOTICE, biz)];
      }
      events := events + [L.EventRow(ids.event, Codec.StoredTaskCreated(task))];
    }

    /** The checks both transactions make after looking at stock. */
    method Replay(req: L.Request) returns (r: Option<L.Reply>)
      requires req.coupon in campaigns
      ensures r == match L.FindReplay(claims, req)
                   case Some(claim) => Some(L.Ok(claim))
                   case None =>
                     if L.CountUser(claims, req.coupon, req.user) >= campaigns[req.coupon].Limit()
                     then Some(L.Err(L.LimitError(campaigns[req.coupon]))) else None
      ensures L.FindReplay(claims, req).None? ==>
                var limit, n := campaigns[req.coupon].perUserLimit, L.CountUser(claims, req.coupon, req.user);
                && (n == 0 || n < limit ==> r == None)
                && (n >= 1 && limit <= 1 ==> r == Some(L.Err(L.AlreadyClaimed)))
                && (n >= limit > 1 ==> r == Some(L.Err(L.LimitReached)))
    {
      var found := L.FindReplay(claims, req);
      if found.Some? {
        return Some(L.Ok(found.value));
      }
      var limit := campaigns[req.coupon].perUserLimit;
      if limit <= 0 {
        limit := 1;
      }
      if L.CountUser(claims, req.coupon, req.user) >= limit {
        return Some(L.Err(if limit == 1 then L.AlreadyClaimed else L.LimitReached));
      }
      r := None;
    }

    /** After a duplicate-key error. */
    method ResolveDuplicate(req: L.Request) returns (r: L.Reply)
      ensures L.ResolveDuplicate(View(), req) ==
              (match r case Ok(claim) => L.Commit(View(), claim) case Err(e) => L.Abort(e))
    {
      var found := L.FindReplay(claims, req);
      r := if found.Some? then L.Ok(found.value) else L.Err(L.AlreadyClaimed);
    }

    /** The callback of `ClaimCoupon`: it leaves its writes behind even when it fails. */
    method ClaimCouponBody(now: int, req: L.Request, ids: L.RowIds) returns (r: L.Reply)
      modifies this
      ensures L.ClaimCouponTx(old(View()), now, req, ids) ==
              (match r case Ok(claim) => L.Commit(View(), claim) case Err(e) => L.Abort(e))
    {
      if req.coupon !in campaigns {
        return L.Err(L.NotFound);
      }
      var c := campaigns[req.coupon];
      if !c.Active(now) {
        return L.Err(L.Inactive);
      }
      if c.stock <= 0 {
        return L.Err(L.SoldOut);
      }
      var early := Replay(req);
      if early.Some? {
        return early.value;
      }
      var deducted := DeductStock(req.coupon);
      if !deducted {
        return L.Err(L.SoldOut);
      }
      var inserted := InsertClaim(ids.claim, req);
      if !inserted {
        r := ResolveDuplicate(req);
        return;
      }
      CreateTaskAndOutbox(L.Claim(ids.claim, req), ids);
      r := L.Ok(L.Claim(ids.claim, req));
    }

    method PersistClaimBody(now: int, req: L.Request, ids: L.RowIds) returns (r: L.Reply)
      modifies this
      ensures L.PersistClaimTx(old(View()), now, req, ids) ==
              (match r case Ok(claim) => L.Commit(View(), claim) case Err(e) => L.Abort(e))
    {
      if req.coupon !in campaigns {
        return L.Err(L.NotFound);
      }
      if !campaigns[req.coupon].Active(now) {
        return L.Err(L.Inactive);
      }
      var early := Replay(req);
      if early.Some? {
        return early.value;
      }
      var inserted := InsertClaim(ids.claim, req);
      if !inserted {
        r := ResolveDuplicate(req);
        return;
      }
      var deducted := DeductStock(req.coupon);
      if !deducted {
        return L.Err(L.SoldOut);
      }
      CreateTaskAndOutbox(L.Claim(ids.claim, req), ids);
      r := L.Ok(L.Claim(ids.claim, req));
    }

    /** All or nothing: the tables are either the issued claim's or exactly what they were. */
    method ClaimCoupon(now: int, req: L.Request, ids: L.RowIds, begins: bool, commits: bool) returns (r: L.Reply)
      modifies this
      ensures (View(), r) == L.WithinTx(old(View()), L.ClaimCouponTx(old(View()), now, req, ids), begins, commits)
      ensures View() == if begins && commits && L.Admissible(old(View()), now, req) then L.Issue(old(View()), req, ids) else old(View())
    {
      L.SameLedger(View(), now, req, ids);
      if !begins {
        return L.Err(L.StoreError);
      }
      var saved := View();
      r := ClaimCouponBody(now, req, ids);
      r := End(saved, r, commits);
    }

    method PersistClaimAfterAdjudication(now: int, req: L.Request, ids: L.RowIds, begins: bool, commits: bool) returns (r: L.Reply)
      modifies this
      ensures (View(), r) == L.WithinTx(old(View()), L.PersistClaimTx(old(View()), now, req, ids), begins, commits)
      ensures View() == if begins && commits && L.Admissible(old(View()), now, req) then L.Issue(old(View()), req, ids) else old(View())
    {
      L.SameLedger(View(), now, req, ids);
      if !begins {
        return L.Err(L.StoreError);
      }
      var saved := View();
      r := PersistClaimBody(now, req, ids);
      r := End(saved, r, commits);
    }
  }

  /******* Waiting for another attempt's result *******/

  /** What one GET of the entry returns. */
  datatype Poll = Value(text: string) | Missing | ReadError

  predicate StillPending(p: Poll) {
    p.Value? && |p.text| >= 8 && p.text[..8] == "PENDING:"
  }

  /** The first read that is not a reservation, or None if the deadline comes first. */
  function FirstSettled(polls: seq<Poll>): (r: Option<Poll>)
    ensures r.None? <==> forall k :: 0 <= k < |polls| ==> StillPending(polls[k])
  {
    if polls == [] then None
    else if StillPending(polls[0]) then FirstSettled(polls[1..])
    else Some(polls[0])
  }

  datatype Waited = Found(claimId: int) | NotFound | Broken

  /** How the wait ends: a success entry gives its claim id, an unreadable or malformed one an error,
      anything else - no entry, another text, the deadline - nothing. */
  function Waiting(settled: Option<Poll>): Waited {
    match settled
    case None => NotFound
    case Some(Missing) => NotFound
    case Some(ReadError) => Broken
    case Some(Value(text)) =>
      if |text| < 8 || text[..8] != "SUCCESS:" then NotFound
      else
        match Codec.ParseEntry(text)
        case Some(Success(id)) => Found(id)
        case _ => Broken
  }

  /** `WaitResult`: `polls` are what GET returns on each poll before the deadline. */
  method WaitResult(polls: seq<Poll>) returns (r: Waited)
    ensures r == Waiting(FirstSettled(polls))
  {
    var i := 0;
    assert polls[0..] == polls;
    while i < |polls|
      invariant i <= |polls|
      invariant FirstSettled(polls) == FirstSettled(polls[i..])
    {
      var p := polls[i];
      assert polls[i..][1..] == polls[i + 1..];
      if p.Missing? {
        return NotFound;
      }
      if p.ReadError? {
        return Broken;
      }
      if |p.text| >= 8 && p.text[..8] == "SUCCESS:" {
        assert "SUCCESS:"[0] == 'S' && "PENDING:"[0] == 'P';
        assert !StillPending(p) by {
          assert p.text[..8][0] == 'S';
        }
        var n := Codec.ParseInt(p.text[8..]);
        return if n.Some? then Found(n.value) else Broken;
      }
      if !(|p.text| >= 8 && p.text[..8] == "PENDING:") {
        return NotFound;
      }
      i := i + 1;
    }
    return NotFound;
  }

  /** A reservation that is finalized while somebody waits is found, with its claim's id. */
  lemma {:induction false} WaitFindsTheClaim(before: seq<Poll>, claimId: int, after: seq<Poll>)
    requires Codec.IsInt64(claimId)
    requires forall k :: 0 <= k < |before| ==> StillPending(before[k])
    ensures Waiting(FirstSettled(before + [Value(Codec.PrintEntry(Codec.Success(claimId)))] + after)) == Found(claimId)
    decreases |before|
  {
    var hit := Value(Codec.PrintEntry(Codec.Success(claimId)));
    var all := before + [hit] + after;
    if before == [] {
      assert all[0] == hit;
      S.EntryPrefix(Codec.Success(claimId));
      Codec.ParsePrintEntry(Codec.Success(claimId));
      assert "SUCCESS:"[0] == 'S' && "PENDING:"[0] == 'P';
    } else {
      assert all[0] == before[0] && all[1..] == before[1..] + [hit] + after;
      WaitFindsTheClaim(before[1..], claimId, after);
    }
  }

  /** Reservations alone end without a result, and so does an entry that vanishes or is neither a
      reservation nor a success; a failing read, or a success entry without a number, is an error. */
  lemma {:induction false} WaitEnds(before: seq<Poll>, text: string, after: seq<Poll>)
    requires forall k :: 0 <= k < |before| ==> StillPending(before[k])
    ensures Waiting(FirstSettled(before)) == NotFound
    ensures Waiting(FirstSettled(before + [Missing] + after)) == NotFound
    ensures Waiting(FirstSettled(before + [ReadError] + after)) == Broken
    ensures (|text| < 8 || (text[..8] != "SUCCESS:" && text[..8] != "PENDING:")) ==>
              Waiting(FirstSettled(before + [Value(text)] + after)) == NotFound
    ensures Codec.ParseInt(text).None? ==> Waiting(FirstSettled(before + [Value("SUCCESS:" + text)] + after)) == Broken
    decreases |before|
  {
    if before == [] {
      assert ([] + [Missing] + after)[0] == Missing && ([] + [ReadError] + after)[0] == ReadError;
      assert ([] + [Value(text)] + after)[0] == Value(text);
      var bad := "SUCCESS:" + text;
      assert ([] + [Value(bad)] + after)[0] == Value(bad) && bad[..8] == "SUCCESS:" && bad[8..] == text;
      assert "SUCCESS:"[0] == 'S' && "PENDING:"[0] == 'P';
    } else {
      WaitEnds(before[1..], text, after);
      SkipOne(before, Missing, after);
      SkipOne(before, ReadError, after);
      SkipOne(before, Value(text), after);
      SkipOne(before, Value("SUCCESS:" + text), after);
    }
  }

  lemma SkipOne(before: seq<Poll>, p: Poll, after: seq<Poll>)
    requires before != [] && StillPending(before[0])
    ensures FirstSettled(before + [p] + after) == FirstSettled(before[1..] + [p] + after)
  {
    assert (before + [p] + after)[0] == before[0] && (before + [p] + after)[1..] == before[1..] + [p] + after;
  }

  /******* The service *******/

  class Service {
    const repo: Repository
    const redis: S.Server

    constructor (db: L.Ledger)
      ensures Valid() && View() == F.Stores(db, R.EMPTY) && fresh(repo) && fresh(redis)
    {
      repo := new Repository(db);
      redis := new S.Server();
    }

    ghost predicate Valid()
      reads this, repo, redis
    {
      redis.Valid()
    }

    ghost function View(): F.Stores
      reads this, repo, redis
    {
      F.Stores(repo.View(), redis.abs)
    }

    /** `claimWithoutRedis`. */
    method ClaimWithoutRedis(call: F.Call) returns (reply: P.Reply)
      modifies repo
      ensures (repo.View(), reply) == F.SlowClaim(old(repo.View()), call)
    {
      var r := repo.ClaimCoupon(call.now, call.req, call.ids, true, true);
      reply := match r
        case Ok(claim) => P.Granted(claim)
        case Err(e) => P.Refused(P.MapError(e));
    }

    /** `waitPendingClaim` with `polls` reads before the deadline. Nobody else runs, so a reservation
        stays one. */
    method WaitPending(q: L.Request, polls: nat) returns (r: Waited)
      requires redis.Valid() && q in redis.abs.entries && redis.abs.entries[q].Pending?
      ensures r == NotFound
    {
      redis.EntryText(q);
      S.EntryPrefix(redis.abs.entries[q]);
      var text := redis.Get(S.IdemKeyOf(q));
      r := WaitResult(seq(polls, _ => Value(text.value)));
    }

    /** One pass over both stores, without faults and without other clients in between. */
    method ClaimWithRedis(call: F.Call, polls: nat) returns (reply: Option<P.Reply>)
      requires Valid() && Storable(repo.View(), call)
      modifies repo, redis
      ensures Valid() && (View(), reply) == F.Attempt(old(View()), call)
    {
      var q := call.req;
      ghost var s := View();
      var result := redis.Decide(call.now, q, call.rid);
      var d := S.ParseDecision(result).value;
      match d
      case CampaignMiss =>
        if q.coupon !in repo.campaigns {
          return Some(P.Refused(P.Rejected(L.NotFound)));
        }
        redis.EnsureCampaign(q.coupon, repo.campaigns[q.coupon]);
        return None;
      case IdemHit(id) =>
        var found := L.FindById(repo.claims, id);
        return Some(if found.Some? then P.Granted(found.value) else P.Refused(P.Internal));
      case InFlight(_) =>
        var waited := WaitPending(q, polls);
        return WaitReply(waited, repo.claims);
      case AlreadyClaimed => return Some(P.Refused(P.Rejected(L.AlreadyClaimed)));
      case LimitReached => return Some(P.Refused(P.Rejected(L.LimitReached)));
      case SoldOut => return Some(P.Refused(P.Rejected(L.SoldOut)));
      case Inactive => return Some(P.Refused(P.Rejected(L.Inactive)));
      case Admitted(rid) =>
        var r := repo.PersistClaimAfterAdjudication(call.now, q, call.ids, true, true);
        match r {
          case Err(e) =>
            redis.Rollback(q, rid);
            return Some(P.Refused(P.MapError(e)));
          case Ok(claim) =>
            redis.Finalize(q, rid, claim.id);
            return Some(P.Granted(claim));
        }
    }

    /** `Claim`: two attempts at most. While the stores are in step on the campaigns `cs` it commits
        exactly the ledger of the MySQL-only path. */
    method Claim(call: F.Call, polls: nat, ghost cs: set<int>) returns (reply: P.Reply)
      requires Valid() && Storable(repo.View(), call)
      modifies repo, redis
      ensures Valid() && (View(), reply) == F.FastClaim(old(View()), call, P.ATTEMPTS)
      ensures old(F.Sync(View(), cs) && call.req.coupon in cs && call.req.key != "" && L.FreshIds(repo.View(), call.ids)) ==>
                F.Sync(View(), cs) && repo.View() == F.SlowClaim(old(repo.View()), call).0
    {
      ghost var s := View();
      if F.Sync(s, cs) && call.req.coupon in cs && call.req.key != "" && L.FreshIds(s.db, call.ids) {
        F.FastClaimAgrees(s, cs, call);
      }
      var n, now := P.ATTEMPTS, call;  // every attempt draws its own reservation id
      while n > 0
        invariant Valid() && Storable(repo.View(), now)
        invariant F.FastClaim(s, call, P.ATTEMPTS) == F.FastClaim(View(), now, n)
      {
        ghost var before := View();
        var r := ClaimWithRedis(now, polls);
        if r.Some? {
          return r.value;
        }
        AttemptKeepsRows(before, now);
        n, now := n - 1, now.(rid := now.again);
      }
      reply := P.Refused(P.Busy);
    }
  }

  /** What the caller of a wait makes of its result. */
  function WaitReply(r: Waited, claims: seq<L.Claim>): Option<P.Reply> {
    match r
    case NotFound => None
    case Broken => Some(P.Refused(P.Internal))
    case Found(id) =>
      match L.FindById(claims, id)
      case Some(claim) => Some(P.Granted(claim))
      case None => None
  }

  /** Claim ids are 64-bit, those in the table and the one about to be handed out. */
  ghost predicate Storable(db: L.Ledger, call: F.Call) {
    Codec.IsInt64(call.ids.claim) && forall c :: c in db.claims ==> Codec.IsInt64(c.id)
  }

  lemma AttemptKeepsRows(s: F.Stores, call: F.Call)
    requires F.Attempt(s, call).1.None?
    ensures F.Attempt(s, call).0.db == s.db
  {
  }
}
