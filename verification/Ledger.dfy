/** The MySQL side of a claim: campaigns, claim rows, task rows and outbox rows, and the two
    transactions that write them.

    Every transaction locks the campaign row first, so transactions on one campaign are serialized
    and each is modelled as one atomic step. Row ids come from auto-increment columns; they are
    parameters here, so a run may skip ids that a rolled-back transaction burned. */
module Ledger {
  import opened Common
  import Codec

  const NOTICE := "SEND_COUPON_NOTICE"

  datatype Campaign = Campaign(status: string, stock: int, perUserLimit: int, startAt: int, endAt: int) {
    predicate Active(now: int) {
      status == "ACTIVE" && startAt <= now <= endAt
    }

    function Limit(): (l: nat)
      ensures l >= 1
    {
      if perUserLimit <= 0 then 1 else perUserLimit
    }
  }

  datatype Request = Request(coupon: int, user: int, key: string)
  datatype Claim = Claim(id: int, req: Request)
  datatype TaskRow = TaskRow(id: int, taskType: string, bizId: string)
  datatype EventRow = EventRow(id: int, payload: string)
  datatype Ledger = Ledger(
    campaigns: map<int, Campaign>,
    claims: seq<Claim>,
    tasks: seq<TaskRow>,
    events: seq<EventRow>)

  /** Auto-increment values handed out to one transaction. */
  datatype RowIds = RowIds(claim: int, task: int, event: int)

  datatype ClaimError = NotFound | Inactive | SoldOut | AlreadyClaimed | LimitReached | StoreError
  datatype Reply = Ok(claim: Claim) | Err(error: ClaimError)

  /** What a transaction callback returns: rows to commit, or an error that rolls everything back. */
  datatype Tx = Commit(db: Ledger, claim: Claim) | Abort(error: ClaimError)

  /** `WithinTx`: the callback runs only if the transaction begins, its error rolls back, and so does
      a commit that fails. */
  function WithinTx(db: Ledger, tx: Tx, begins: bool, commits: bool): (Ledger, Reply) {
    if !begins then (db, Err(StoreError))
    else
      match tx
      case Abort(e) => (db, Err(e))
      case Commit(db', claim) => if commits then (db', Ok(claim)) else (db, Err(StoreError))
  }

  function Within(db: Ledger, tx: Tx): (Ledger, Reply) { WithinTx(db, tx, true, true) }

  /******* Queries *******/

  function CountUser(cs: seq<Claim>, coupon: int, user: int): nat {
    if cs == [] then 0
    else
      var last := cs[|cs| - 1].req;
      CountUser(cs[..|cs| - 1], coupon, user) + (if last.coupon == coupon && last.user == user then 1 else 0)
  }

  function CountCoupon(cs: seq<Claim>, coupon: int): nat {
    if cs == [] then 0
    else CountCoupon(cs[..|cs| - 1], coupon) + (if cs[|cs| - 1].req.coupon == coupon then 1 else 0)
  }

  /** The rows a user, or anybody, has of a campaign. */
  ghost function UserRows(cs: seq<Claim>, coupon: int, user: int): set<int> {
    set i | 0 <= i < |cs| && cs[i].req.coupon == coupon && cs[i].req.user == user
  }

  ghost function CouponRows(cs: seq<Claim>, coupon: int): set<int> {
    set i | 0 <= i < |cs| && cs[i].req.coupon == coupon
  }

  lemma {:induction false} CountUserIsRows(cs: seq<Claim>, coupon: int, user: int)
    ensures CountUser(cs, coupon, user) == |UserRows(cs, coupon, user)|
    decreases |cs|
  {
    if cs == [] {
      assert UserRows(cs, coupon, user) == {};
    } else {
      var n := |cs| - 1;
      CountUserIsRows(cs[..n], coupon, user);
      var rows := UserRows(cs[..n], coupon, user);
      assert n !in rows;
      if cs[n].req.coupon == coupon && cs[n].req.user == user {
        assert UserRows(cs, coupon, user) == rows + {n};
      } else {
        assert UserRows(cs, coupon, user) == rows;
      }
    }
  }

  lemma {:induction false} CountCouponIsRows(cs: seq<Claim>, coupon: int)
    ensures CountCoupon(cs, coupon) == |CouponRows(cs, coupon)|
    decreases |cs|
  {
    if cs == [] {
      assert CouponRows(cs, coupon) == {};
    } else {
      var n := |cs| - 1;
      CountCouponIsRows(cs[..n], coupon);
      var rows := CouponRows(cs[..n], coupon);
      assert n !in rows;
      if cs[n].req.coupon == coupon {
        assert CouponRows(cs, coupon) == rows + {n};
      } else {
        assert CouponRows(cs, coupon) == rows;
      }
    }
  }

  function FindByKey(cs: seq<Claim>, req: Request): (r: Option<Claim>)
    ensures r.Some? ==> r.value in cs && r.value.req == req
    ensures r.None? ==> forall c :: c in cs ==> c.req != req
  {
    if cs == [] then None
    else if cs[|cs| - 1].req == req then Some(cs[|cs| - 1])
    else FindByKey(cs[..|cs| - 1], req)
  }

  function FindById(cs: seq<Claim>, id: int): (r: Option<Claim>)
    ensures r.Some? ==> r.value in cs && r.value.id == id
    ensures r.None? ==> forall c :: c in cs ==> c.id != id
  {
    if cs == [] then None
    else if cs[|cs| - 1].id == id then Some(cs[|cs| - 1])
    else FindById(cs[..|cs| - 1], id)
  }

  function FindTask(ts: seq<TaskRow>, taskType: string, bizId: string): (r: Option<TaskRow>)
    ensures r.Some? ==> r.value in ts && r.value.taskType == taskType && r.value.bizId == bizId
    ensures r.None? ==> forall t :: t in ts ==> t.taskType != taskType || t.bizId != bizId
  {
    if ts == [] then None
    else
      var last := ts[|ts| - 1];
      if last.taskType == taskType && last.bizId == bizId then Some(last)
      else FindTask(ts[..|ts| - 1], taskType, bizId)
  }

  /** The replay lookup: skipped for an empty idempotency key. */
  function FindReplay(cs: seq<Claim>, req: Request): Option<Claim> {
    if req.key == "" then None else FindByKey(cs, req)
  }

  /******* Statements *******/

  /** The guarded stock UPDATE; `None` when it affects no row. */
  function DeductStock(db: Ledger, coupon: int): Option<Ledger> {
    if coupon in db.campaigns && db.campaigns[coupon].stock > 0 then
      var c := db.campaigns[coupon];
      Some(db.(campaigns := db.campaigns[coupon := c.(stock := c.stock - 1)]))
    else None
  }

  /** The claim INSERT; `None` is a duplicate-key error. An empty key is stored as NULL, which the
      unique index never compares. */
  function InsertClaim(db: Ledger, id: int, req: Request): Option<Ledger> {
    if FindReplay(db.claims, req).Some? then None
    else Some(db.(claims := db.claims + [Claim(id, req)]))
  }

  function ResolveDuplicate(db: Ledger, req: Request): Tx {
    match FindReplay(db.claims, req)
    case Some(claim) => Commit(db, claim)
    case None => Abort(AlreadyClaimed)
  }

  /** The task INSERT, falling back to the existing row of the same type and business id. */
  function EnsureTask(db: Ledger, taskType: string, bizId: string, id: int): (Ledger, int) {
    match FindTask(db.tasks, taskType, bizId)
    case Some(t) => (db, t.id)
    case None => (db.(tasks := db.tasks + [TaskRow(id, taskType, bizId)]), id)
  }

  function AddEvent(db: Ledger, id: int, task: int): Ledger {
    db.(events := db.events + [EventRow(id, Codec.StoredTaskCreated(task))])
  }

  function CreateTaskAndOutbox(db: Ledger, claim: Claim, ids: RowIds): Ledger {
    var (db', task) := EnsureTask(db, NOTICE, Codec.ClaimBizId(claim.id), ids.task);
    AddEvent(db', ids.event, task)
  }

  function LimitError(c: Campaign): ClaimError {
    if c.Limit() == 1 then AlreadyClaimed else LimitReached
  }

  /******* Transactions *******/

  /** MySQL-only claim: sold-out is tested before the replay lookup; deduct, then insert. */
  function ClaimCouponTx(db: Ledger, now: int, req: Request, ids: RowIds): Tx {
    if req.coupon !in db.campaigns then Abort(NotFound) else
    var c := db.campaigns[req.coupon];
    if !c.Active(now) then Abort(Inactive)
    else if c.stock <= 0 then Abort(SoldOut)
    else if FindReplay(db.claims, req).Some? then Commit(db, FindReplay(db.claims, req).value)
    else if CountUser(db.claims, req.coupon, req.user) >= c.Limit() then Abort(LimitError(c))
    else
      match DeductStock(db, req.coupon)
      case None => Abort(SoldOut)
      case Some(db1) =>
        match InsertClaim(db1, ids.claim, req)
        case None => ResolveDuplicate(db1, req)
        case Some(db2) => Commit(CreateTaskAndOutbox(db2, Claim(ids.claim, req), ids), Claim(ids.claim, req))
  }

  /** Claim persisted after a Redis admission: insert, then deduct. */
  function PersistClaimTx(db: Ledger, now: int, req: Request, ids: RowIds): Tx {
    if req.coupon !in db.campaigns then Abort(NotFound) else
    var c := db.campaigns[req.coupon];
    if !c.Active(now) then Abort(Inactive)
    else if FindReplay(db.claims, req).Some? then Commit(db, FindReplay(db.claims, req).value)
    else if CountUser(db.claims, req.coupon, req.user) >= c.Limit() then Abort(LimitError(c))
    else
      match InsertClaim(db, ids.claim, req)
      case None => ResolveDuplicate(db, req)
      case Some(db1) =>
        match DeductStock(db1, req.coupon)
        case None => Abort(SoldOut)
        case Some(db2) => Commit(CreateTaskAndOutbox(db2, Claim(ids.claim, req), ids), Claim(ids.claim, req))
  }

  function ClaimCoupon(db: Ledger, now: int, req: Request, ids: RowIds): (Ledger, Reply) {
    Within(db, ClaimCouponTx(db, now, req, ids))
  }

  function PersistClaim(db: Ledger, now: int, req: Request, ids: RowIds): (Ledger, Reply) {
    Within(db, PersistClaimTx(db, now, req, ids))
  }

  /** The task service's own creation path: a duplicate creates neither a task nor an event. */
  function CreateTask(db: Ledger, taskType: string, bizId: string, ids: RowIds): Ledger {
    match FindTask(db.tasks, taskType, bizId)
    case Some(_) => db
    case None => AddEvent(db.(tasks := db.tasks + [TaskRow(ids.task, taskType, bizId)]), ids.event, ids.task)
  }

  /******* What both transactions mean *******/

  /** The request deserves a new claim row. */
  predicate Admissible(db: Ledger, now: int, req: Request) {
    && req.coupon in db.campaigns
    && db.campaigns[req.coupon].Active(now)
    && db.campaigns[req.coupon].stock > 0
    && FindReplay(db.claims, req).None?
    && CountUser(db.claims, req.coupon, req.user) < db.campaigns[req.coupon].Limit()
  }

  /** One unit of stock becomes one claim row with its task and event. */
  function Issue(db: Ledger, req: Request, ids: RowIds): Ledger
    requires req.coupon in db.campaigns
  {
    var c := db.campaigns[req.coupon];
    CreateTaskAndOutbox(
      Ledger(db.campaigns[req.coupon := c.(stock := c.stock - 1)], db.claims + [Claim(ids.claim, req)], db.tasks, db.events),
      Claim(ids.claim, req), ids)
  }

  /** Both orders of deducting and inserting commit the same ledger from every state: the issued
      claim when the request is admissible, nothing otherwise. In particular the duplicate-key
      branch that would commit a deduction without a claim is dead. */
  lemma SameLedger(db: Ledger, now: int, req: Request, ids: RowIds)
    ensures ClaimCoupon(db, now, req, ids).0 == PersistClaim(db, now, req, ids).0
    ensures ClaimCoupon(db, now, req, ids).0 == if Admissible(db, now, req) then Issue(db, req, ids) else db
  {
    if Admissible(db, now, req) {
      var c := db.campaigns[req.coupon];
      var ded := DeductStock(db, req.coupon).value;
      assert FindReplay(ded.claims, req).None?;
      assert InsertClaim(ded, ids.claim, req).Some?;
      assert InsertClaim(db, ids.claim, req).value.campaigns == db.campaigns;
    }
  }

  /** The replies differ exactly when an active campaign is out of stock and the request is either
      a replay or over its limit: only then does the order of the checks show. */
  lemma RepliesDifferOnlyWhenSoldOut(db: Ledger, now: int, req: Request, ids: RowIds)
    ensures ClaimCoupon(db, now, req, ids).1 != PersistClaim(db, now, req, ids).1 <==>
            && req.coupon in db.campaigns
            && db.campaigns[req.coupon].Active(now)
            && db.campaigns[req.coupon].stock <= 0
            && (FindReplay(db.claims, req).Some? ||
                CountUser(db.claims, req.coupon, req.user) >= db.campaigns[req.coupon].Limit())
  {
    SameLedger(db, now, req, ids);
    if Admissible(db, now, req) {
      var ded := DeductStock(db, req.coupon).value;
      assert InsertClaim(ded, ids.claim, req).Some?;
    }
  }

  /******* The invariant of every committed ledger *******/

  ghost predicate StockInv(db: Ledger, budget: map<int, int>) {
    && budget.Keys == db.campaigns.Keys
    && forall c :: c in db.campaigns ==>
         0 <= db.campaigns[c].stock && db.campaigns[c].stock + CountCoupon(db.claims, c) == budget[c]
  }

  ghost predicate LimitInv(db: Ledger) {
    forall c, u :: c in db.campaigns ==> CountUser(db.claims, c, u) <= db.campaigns[c].Limit()
  }

  ghost predicate UniqueClaims(cs: seq<Claim>) {
    && (forall i, j :: 0 <= i < j < |cs| ==> cs[i].id != cs[j].id)
    && (forall i, j :: 0 <= i < j < |cs| ==> cs[i].req == cs[j].req ==> cs[i].req.key == "")
  }

  ghost predicate UniqueTasks(ts: seq<TaskRow>) {
    && (forall i, j :: 0 <= i < j < |ts| ==> ts[i].id != ts[j].id)
    && (forall i, j :: 0 <= i < j < |ts| ==> ts[i].taskType != ts[j].taskType || ts[i].bizId != ts[j].bizId)
  }

  ghost predicate IsNotice(t: TaskRow, claimId: int) {
    t.taskType == NOTICE && t.bizId == Codec.ClaimBizId(claimId)
  }

  ghost predicate HasEvent(events: seq<EventRow>, task: int) {
    exists e :: e in events && e.payload == Codec.StoredTaskCreated(task)
  }

  ghost predicate HasNotice(db: Ledger, claimId: int) {
    exists t :: t in db.tasks && IsNotice(t, claimId) && HasEvent(db.events, t.id)
  }

  ghost predicate NoticeInv(db: Ledger) {
    && UniqueTasks(db.tasks)
    && forall c :: c in db.claims ==> HasNotice(db, c.id)
  }

  ghost predicate LedgerInv(db: Ledger, budget: map<int, int>) {
    && StockInv(db, budget)
    && LimitInv(db)
    && UniqueClaims(db.claims)
    && NoticeInv(db)
  }

  /** Ids an auto-increment column can hand out next. */
  ghost predicate FreshIds(db: Ledger, ids: RowIds) {
    && (forall c :: c in db.claims ==> c.id != ids.claim)
    && (forall t :: t in db.tasks ==> t.id != ids.task)
  }

  lemma IssueEffect(db: Ledger, req: Request, ids: RowIds)
    requires req.coupon in db.campaigns
    ensures var db', c := Issue(db, req, ids), db.campaigns[req.coupon];
            && db'.campaigns == db.campaigns[req.coupon := c.(stock := c.stock - 1)]
            && db'.claims == db.claims + [Claim(ids.claim, req)]
  {
  }

  lemma IssueKeepsStock(db: Ledger, now: int, req: Request, ids: RowIds, budget: map<int, int>)
    requires StockInv(db, budget) && Admissible(db, now, req)
    ensures StockInv(Issue(db, req, ids), budget)
  {
    var db' := Issue(db, req, ids);
    assert db'.claims == db.claims + [Claim(ids.claim, req)];
    assert db'.claims[..|db'.claims| - 1] == db.claims;
  }

  lemma IssueKeepsLimit(db: Ledger, now: int, req: Request, ids: RowIds)
    requires LimitInv(db) && Admissible(db, now, req)
    ensures LimitInv(Issue(db, req, ids))
  {
    var db' := Issue(db, req, ids);
    assert db'.claims == db.claims + [Claim(ids.claim, req)];
    assert db'.claims[..|db'.claims| - 1] == db.claims;
  }

  lemma IssueKeepsUnique(db: Ledger, now: int, req: Request, ids: RowIds)
    requires UniqueClaims(db.claims) && Admissible(db, now, req) && FreshIds(db, ids)
    ensures UniqueClaims(Issue(db, req, ids).claims)
  {
    assert Issue(db, req, ids).claims == db.claims + [Claim(ids.claim, req)];
  }

  lemma NoticeSurvives(db: Ledger, db': Ledger, claimId: int)
    requires HasNotice(db, claimId)
    requires db.tasks <= db'.tasks && db.events <= db'.events
    ensures HasNotice(db', claimId)
  {
    var t :| t in db.tasks && IsNotice(t, claimId) && HasEvent(db.events, t.id);
    var e :| e in db.events && e.payload == Codec.StoredTaskCreated(t.id);
    assert e in db'.events;
    assert t in db'.tasks;
  }

  lemma IssueKeepsNotice(db: Ledger, req: Request, ids: RowIds)
    requires req.coupon in db.campaigns
    requires NoticeInv(db) && FreshIds(db, ids)
    ensures NoticeInv(Issue(db, req, ids))
  {
    var db' := Issue(db, req, ids);
    var biz := Codec.ClaimBizId(ids.claim);
    forall c | c in db'.claims
      ensures HasNotice(db', c.id)
    {
      if c in db.claims {
        NoticeSurvives(db, db', c.id);
      } else {
        var task := EnsureTask(db, NOTICE, biz, ids.task).1;
        var t := if FindTask(db.tasks, NOTICE, biz).Some? then FindTask(db.tasks, NOTICE, biz).value
                 else TaskRow(ids.task, NOTICE, biz);
        assert t in db'.tasks && IsNotice(t, c.id);
        assert EventRow(ids.event, Codec.StoredTaskCreated(task)) in db'.events;
        assert HasEvent(db'.events, t.id);
      }
    }
  }

  lemma CreateTaskKeepsNotice(db: Ledger, taskType: string, bizId: string, ids: RowIds)
    requires NoticeInv(db) && FreshIds(db, ids)
    ensures NoticeInv(CreateTask(db, taskType, bizId, ids))
  {
    var db' := CreateTask(db, taskType, bizId, ids);
    forall c | c in db'.claims
      ensures HasNotice(db', c.id)
    {
      NoticeSurvives(db, db', c.id);
    }
  }

  /** The task service creates a task and its event once per type and business id: asking again, with
      whatever ids, changes nothing. */
  lemma TaskIsCreatedOnce(db: Ledger, taskType: string, bizId: string, ids: RowIds, again: RowIds)
    ensures var db' := CreateTask(db, taskType, bizId, ids);
            && FindTask(db'.tasks, taskType, bizId).Some? && CreateTask(db', taskType, bizId, again) == db'
            && (FindTask(db.tasks, taskType, bizId).Some? ==> db' == db)
            && (FindTask(db.tasks, taskType, bizId).None? ==>
                  FindTask(db'.tasks, taskType, bizId) == Some(TaskRow(ids.task, taskType, bizId)) && HasEvent(db'.events, ids.task))
  {
    var db' := CreateTask(db, taskType, bizId, ids);
    if FindTask(db.tasks, taskType, bizId).None? {
      assert EventRow(ids.event, Codec.StoredTaskCreated(ids.task)) in db'.events;
    }
  }

  /** "Exactly one task": a committed claim has one notice row, no second one, and that row has an event. */
  lemma ExactlyOneNotice(db: Ledger, claim: Claim)
    requires NoticeInv(db) && claim in db.claims
    ensures exists i ::
              && 0 <= i < |db.tasks|
              && IsNotice(db.tasks[i], claim.id) && HasEvent(db.events, db.tasks[i].id)
              && forall j :: 0 <= j < |db.tasks| && IsNotice(db.tasks[j], claim.id) ==> j == i
  {
    assert HasNotice(db, claim.id);
    var t :| t in db.tasks && IsNotice(t, claim.id) && HasEvent(db.events, t.id);
    var i :| 0 <= i < |db.tasks| && db.tasks[i] == t;
    assert IsNotice(db.tasks[i], claim.id);
  }

  /******* Every run *******/

  /** One committed or failed transaction of any writer. */
  datatype Op =
    | ClaimDirect(now: int, req: Request, ids: RowIds)
    | ClaimAdmitted(now: int, req: Request, ids: RowIds)
    | TaskRequest(taskType: string, bizId: string, ids: RowIds)
    | StoreFailure

  function Apply(db: Ledger, op: Op): Ledger {
    match op
    case ClaimDirect(now, req, ids) => ClaimCoupon(db, now, req, ids).0
    case ClaimAdmitted(now, req, ids) => PersistClaim(db, now, req, ids).0
    case TaskRequest(tt, biz, ids) => CreateTask(db, tt, biz, ids)
    case StoreFailure => db
  }

  ghost predicate LegalOp(db: Ledger, op: Op) {
    !op.StoreFailure? ==> FreshIds(db, op.ids)
  }

  ghost predicate LegalRun(db: Ledger, ops: seq<Op>)
    decreases |ops|
  {
    ops == [] || (LegalOp(db, ops[0]) && LegalRun(Apply(db, ops[0]), ops[1..]))
  }

  function Run(db: Ledger, ops: seq<Op>): Ledger
    decreases |ops|
  {
    if ops == [] then db else Run(Apply(db, ops[0]), ops[1..])
  }

  lemma OpKeepsInv(db: Ledger, op: Op, budget: map<int, int>)
    requires LedgerInv(db, budget) && LegalOp(db, op)
    ensures LedgerInv(Apply(db, op), budget)
  {
    match op
    case StoreFailure =>
    case TaskRequest(tt, biz, ids) =>
      CreateTaskKeepsNotice(db, tt, biz, ids);
    case ClaimDirect(now, req, ids) =>
      ClaimKeepsInv(db, now, req, ids, budget);
    case ClaimAdmitted(now, req, ids) =>
      ClaimKeepsInv(db, now, req, ids, budget);
  }

  lemma ClaimKeepsInv(db: Ledger, now: int, req: Request, ids: RowIds, budget: map<int, int>)
    requires LedgerInv(db, budget) && FreshIds(db, ids)
    ensures LedgerInv(ClaimCoupon(db, now, req, ids).0, budget)
    ensures LedgerInv(PersistClaim(db, now, req, ids).0, budget)
  {
    SameLedger(db, now, req, ids);
    if Admissible(db, now, req) {
      IssueKeepsStock(db, now, req, ids, budget);
      IssueKeepsLimit(db, now, req, ids);
      IssueKeepsUnique(db, now, req, ids);
      IssueKeepsNotice(db, req, ids);
    }
  }

  /** Over every serialized run of both claim paths, task creation and failures: available stock
      plus claim rows is constant, stock is never negative, no user exceeds the limit, non-empty
      keys are unique, and every claim has its one task and at least one outbox event. */
  lemma {:induction false} LedgerSafe(db: Ledger, ops: seq<Op>, budget: map<int, int>)
    requires LedgerInv(db, budget) && LegalRun(db, ops)
    ensures LedgerInv(Run(db, ops), budget)
    decreases |ops|
  {
    if ops != [] {
      OpKeepsInv(db, ops[0], budget);
      LedgerSafe(Apply(db, ops[0]), ops[1..], budget);
    }
  }

  /******* In the campaign row's own fields *******/

  /** Every answer of both transactions to a request that is no replay, decided by the row: its status
      and dates, its stock and the number in its limit column, where less than one means one. */
  lemma RepliesByTheRow(db: Ledger, now: int, req: Request, ids: RowIds)
    requires req.coupon in db.campaigns && (req.key == "" || forall c :: c in db.claims ==> c.req != req)
    ensures var row, n := db.campaigns[req.coupon], CountUser(db.claims, req.coupon, req.user);
            var direct, persist := ClaimCoupon(db, now, req, ids).1, PersistClaim(db, now, req, ids).1;
            && (row.status != "ACTIVE" || now < row.startAt || row.endAt < now ==> direct == persist == Err(Inactive))
            && (row.status == "ACTIVE" && row.startAt <= now <= row.endAt ==>
                  && (row.stock <= 0 ==> direct == Err(SoldOut))
                  && (row.stock <= 0 && (n < row.perUserLimit || n == 0) ==> persist == Err(SoldOut))
                  && (row.stock <= 0 && n >= 1 && row.perUserLimit <= 1 ==> persist == Err(AlreadyClaimed))
                  && (row.stock <= 0 && n >= row.perUserLimit > 1 ==> persist == Err(LimitReached))
                  && (row.stock > 0 && n < row.perUserLimit ==> direct == persist == Ok(Claim(ids.claim, req)))
                  && (row.stock > 0 && n == 0 ==> direct == persist == Ok(Claim(ids.claim, req)))
                  && (row.stock > 0 && n >= 1 && n >= row.perUserLimit && row.perUserLimit <= 1 ==> direct == persist == Err(AlreadyClaimed))
                  && (row.stock > 0 && n >= row.perUserLimit > 1 ==> direct == persist == Err(LimitReached)))
  {
    SameLedger(db, now, req, ids);
    RepliesDifferOnlyWhenSoldOut(db, now, req, ids);
    if Admissible(db, now, req) {
      var ded := DeductStock(db, req.coupon).value;
      assert InsertClaim(ded, ids.claim, req).Some?;
    }
  }

  /** Over every serialized run no user ever has more rows of a campaign than the number in the row's
      limit column, where less than one means one; and that column never changes. */
  lemma LimitByTheRow(db: Ledger, ops: seq<Op>, budget: map<int, int>, coupon: int, user: int)
    requires LedgerInv(db, budget) && LegalRun(db, ops) && coupon in db.campaigns
    ensures var db' := Run(db, ops);
            var limit := db.campaigns[coupon].perUserLimit;
            var rows := UserRows(db'.claims, coupon, user);
            && coupon in db'.campaigns && db'.campaigns[coupon].perUserLimit == limit
            && (limit >= 1 ==> |rows| <= limit) && (limit <= 0 ==> |rows| <= 1)
  {
    LedgerSafe(db, ops, budget);
    RowsKeepTheirTerms(db, ops, coupon);
    CountUserIsRows(Run(db, ops).claims, coupon, user);
  }

  /** Over every serialized run each row written costs one unit of stock and none is ever owed. */
  lemma StockByTheRow(db: Ledger, ops: seq<Op>, budget: map<int, int>, coupon: int)
    requires LedgerInv(db, budget) && LegalRun(db, ops) && coupon in db.campaigns
    ensures var db' := Run(db, ops);
            && coupon in db'.campaigns && db'.campaigns[coupon].stock >= 0
            && db'.campaigns[coupon].stock + |CouponRows(db'.claims, coupon)|
               == db.campaigns[coupon].stock + |CouponRows(db.claims, coupon)|
  {
    LedgerSafe(db, ops, budget);
    CountCouponIsRows(db.claims, coupon);
    CountCouponIsRows(Run(db, ops).claims, coupon);
  }

  /** A run changes nothing of a campaign row but its stock. */
  lemma {:induction false} RowsKeepTheirTerms(db: Ledger, ops: seq<Op>, coupon: int)
    requires coupon in db.campaigns
    ensures coupon in Run(db, ops).campaigns
    ensures Run(db, ops).campaigns[coupon] == db.campaigns[coupon].(stock := Run(db, ops).campaigns[coupon].stock)
    decreases |ops|
  {
    if ops != [] {
      OpKeepsTerms(db, ops[0], coupon);
      RowsKeepTheirTerms(Apply(db, ops[0]), ops[1..], coupon);
    }
  }

  lemma OpKeepsTerms(db: Ledger, op: Op, coupon: int)
    requires coupon in db.campaigns
    ensures coupon in Apply(db, op).campaigns
    ensures Apply(db, op).campaigns[coupon] == db.campaigns[coupon].(stock := Apply(db, op).campaigns[coupon].stock)
  {
    if op.ClaimDirect? || op.ClaimAdmitted? {
      SameLedger(db, op.now, op.req, op.ids);
      if Admissible(db, op.now, op.req) {
        IssueEffect(db, op.req, op.ids);
      }
    }
  }

  /** Replaying a committed claim changes nothing. While the campaign runs, persisting returns exactly
      that row, and so does the direct path unless stock is exhausted; once the campaign is over or
      its row is gone both refuse the replay. */
  lemma ReplayReturnsTheClaim(db: Ledger, now: int, claim: Claim, ids: RowIds)
    requires UniqueClaims(db.claims) && claim in db.claims && claim.req.key != ""
    ensures var c := claim.req.coupon;
            var direct, persist := ClaimCoupon(db, now, claim.req, ids), PersistClaim(db, now, claim.req, ids);
            if c !in db.campaigns then direct == persist == (db, Err(NotFound))
            else if !db.campaigns[c].Active(now) then direct == persist == (db, Err(Inactive))
            else persist == (db, Ok(claim)) && direct == (db, if db.campaigns[c].stock > 0 then Ok(claim) else Err(SoldOut))
  {
    KeyNamesOneClaim(db.claims, claim);
  }

  lemma KeyNamesOneClaim(cs: seq<Claim>, claim: Claim)
    requires UniqueClaims(cs) && claim in cs && claim.req.key != ""
    ensures FindByKey(cs, claim.req) == Some(claim)
  {
    var found := FindByKey(cs, claim.req).value;
    var i :| 0 <= i < |cs| && cs[i] == claim;
    var j :| 0 <= j < |cs| && cs[j] == found;
  }
}
