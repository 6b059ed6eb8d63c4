/** The Redis adjudicator: its keys as maps and each Lua script as one atomic function.

    Idempotency entries are indexed by the request they belong to; `Codec.IdemDecisionKeyInjective`
    justifies reading the string-keyed store that way. TTLs are modelled by an expiry step that may
    remove any entry at any moment. */
module Adjudicator {
  import opened Common
  import Codec
  import L = Ledger

  type Entry = Codec.Entry

  datatype Meta = Meta(status: string, startAt: int, endAt: int, limit: int)

  datatype Redis = Redis(
    stock: map<int, int>,
    meta: map<int, Meta>,
    counts: map<int, map<int, int>>,
    entries: map<L.Request, Entry>)

  const EMPTY := Redis(map[], map[], map[], map[])

  datatype Decision =
    | Admitted(rid: string) | IdemHit(claimId: int) | InFlight(rid: string)
    | AlreadyClaimed | LimitReached | SoldOut | Inactive | CampaignMiss

  /******* Reads with the scripts' defaults *******/

  function MetaOf(r: Redis, c: int): Meta {
    if c in r.meta then r.meta[c] else Meta("", 0, 0, 1)
  }

  function Counts(r: Redis, c: int): map<int, int> {
    if c in r.counts then r.counts[c] else map[]
  }

  function CountOf(r: Redis, c: int, u: int): int {
    if u in Counts(r, c) then Counts(r, c)[u] else 0
  }

  /** Writing a hash; Redis drops a hash that becomes empty. */
  function PutCounts(r: Redis, c: int, m: map<int, int>): Redis {
    r.(counts := if m == map[] then r.counts - {c} else r.counts[c := m])
  }

  function AddStock(r: Redis, c: int, d: int): Redis {
    r.(stock := r.stock[c := (if c in r.stock then r.stock[c] else 0) + d])
  }

  function HIncrBy(r: Redis, c: int, u: int, d: int): Redis {
    PutCounts(r, c, Counts(r, c)[u := CountOf(r, c, u) + d])
  }

  function HDel(r: Redis, c: int, u: int): Redis {
    PutCounts(r, c, Counts(r, c) - {u})
  }

  /******* Scripts *******/

  /** The path a decision takes through the script, the two compensations included. */
  datatype Branch =
    | Miss | Replay(claimId: int) | Waiting(rid: string) | Closed | OverLimit | OutOfStock
    | UndoStock | UndoCount | Admit

  function DecideBranch(r: Redis, now: int, req: L.Request): (b: Branch)
    ensures b.Admit? ==>
              && req.coupon in r.stock && r.stock[req.coupon] >= 1 && req !in r.entries
              && CountOf(r, req.coupon, req.user) < MetaOf(r, req.coupon).limit
  {
    var c := req.coupon;
    var m := MetaOf(r, c);
    if c !in r.stock then Miss
    else if req in r.entries then
      match r.entries[req]
      case Success(id) => Replay(id)
      case Pending(rid) => Waiting(rid)
    else if m.status != "ACTIVE" || now < m.startAt || now > m.endAt then Closed
    else if CountOf(r, c, req.user) >= m.limit then OverLimit
    else if r.stock[c] <= 0 then OutOfStock
    else if r.stock[c] - 1 < 0 then UndoStock
    else if CountOf(r, c, req.user) + 1 > m.limit then UndoCount
    else Admit
  }

  function LimitDecision(m: Meta): Decision {
    if m.limit == 1 then AlreadyClaimed else LimitReached
  }

  function Decide(r: Redis, now: int, req: L.Request, rid: string): (Redis, Decision) {
    var c := req.coupon;
    match DecideBranch(r, now, req)
    case Miss => (r, CampaignMiss)
    case Replay(id) => (r, IdemHit(id))
    case Waiting(other) => (r, InFlight(other))
    case Closed => (r, Inactive)
    case OverLimit => (r, LimitDecision(MetaOf(r, c)))
    case OutOfStock => (r, SoldOut)
    case UndoStock => (AddStock(AddStock(r, c, -1), c, 1), SoldOut)
    case UndoCount =>
      (AddStock(HIncrBy(HIncrBy(AddStock(r, c, -1), c, req.user, 1), c, req.user, -1), c, 1), LimitDecision(MetaOf(r, c)))
    case Admit =>
      var r' := HIncrBy(AddStock(r, c, -1), c, req.user, 1);
      (r'.(entries := r'.entries[req := Codec.Pending(rid)]), Admitted(rid))
  }

  /** Whether the entry of `req` is the reservation `rid`. */
  predicate Holds(r: Redis, req: L.Request, rid: string) {
    req in r.entries && r.entries[req] == Codec.Pending(rid)
  }

  function Finalize(r: Redis, req: L.Request, rid: string, claimId: int): Redis {
    if Holds(r, req, rid) then r.(entries := r.entries[req := Codec.Success(claimId)]) else r
  }

  function Rollback(r: Redis, req: L.Request, rid: string): Redis {
    if !Holds(r, req, rid) then r
    else
      var freed := AddStock(r.(entries := r.entries - {req}), req.coupon, 1);
      var counted := HIncrBy(freed, req.coupon, req.user, -1);
      if CountOf(counted, req.coupon, req.user) <= 0 then HDel(counted, req.coupon, req.user) else counted
  }

  /** `EnsureCampaign`: every key and field is written only if absent, all in one transaction. */
  function Hydrate(r: Redis, coupon: int, c: L.Campaign): Redis {
    r.(stock := if coupon in r.stock then r.stock else r.stock[coupon := c.stock],
       meta := if coupon in r.meta then r.meta
               else r.meta[coupon := Meta(c.status, c.startAt, c.endAt, c.Limit())])
  }

  function Expire(r: Redis, req: L.Request): Redis {
    r.(entries := r.entries - {req})
  }

  /******* Sums over hashes *******/

  ghost function Sum(m: map<int, int>): int {
    if m.Keys == {} then 0
    else
      var k := Choose(m.Keys);
      m[k] + Sum(m - {k})
  }

  lemma {:induction false} SumWithout(m: map<int, int>, k: int)
    requires k in m
    ensures Sum(m) == m[k] + Sum(m - {k})
    decreases |m|
  {
    var p := Choose(m.Keys);
    if p != k {
      SumWithout(m - {p}, k);
      SumWithout(m - {k}, p);
      assert m - {p} - {k} == m - {k} - {p};
    }
  }

  lemma SumUpdate(m: map<int, int>, k: int, v: int)
    ensures Sum(m[k := v]) == Sum(m) + v - (if k in m then m[k] else 0)
  {
    SumWithout(m[k := v], k);
    if k in m {
      SumWithout(m, k);
      assert m[k := v] - {k} == m - {k};
    } else {
      assert m[k := v] - {k} == m;
    }
  }

  /******* Logged runs of script calls *******/

  datatype Call =
    | DecideCall(now: int, req: L.Request, rid: string)
    | FinalizeCall(req: L.Request, rid: string, claimId: int)
    | RollbackCall(req: L.Request, rid: string)
    | HydrateCall(coupon: int, campaign: L.Campaign)
    | ExpireCall(req: L.Request)

  /** The store with its history: the stock each campaign was hydrated with, every admission, and
      every finalize or rollback that took effect, by reservation id. */
  datatype Logged = Logged(r: Redis, hydrated: map<int, int>, admitted: multiset<string>, ended: multiset<string>)

  function Apply(s: Logged, call: Call): Logged {
    match call
    case DecideCall(now, req, rid) =>
      var (r', d) := Decide(s.r, now, req, rid);
      s.(r := r', admitted := if d.Admitted? then s.admitted + multiset{rid} else s.admitted)
    case FinalizeCall(req, rid, id) =>
      s.(r := Finalize(s.r, req, rid, id), ended := if Holds(s.r, req, rid) then s.ended + multiset{rid} else s.ended)
    case RollbackCall(req, rid) =>
      s.(r := Rollback(s.r, req, rid), ended := if Holds(s.r, req, rid) then s.ended + multiset{rid} else s.ended)
    case HydrateCall(c, camp) =>
      s.(r := Hydrate(s.r, c, camp), hydrated := if c in s.hydrated then s.hydrated else s.hydrated[c := camp.stock])
    case ExpireCall(req) => s.(r := Expire(s.r, req))
  }

  /** Campaign rows never carry negative stock. */
  predicate LegalCall(call: Call) {
    call.HydrateCall? ==> call.campaign.stock >= 0
  }

  function Run(s: Logged, calls: seq<Call>): Logged
    decreases |calls|
  {
    if calls == [] then s else Run(Apply(s, calls[0]), calls[1..])
  }

  ghost function PendingOf(r: Redis, c: int, u: int): set<L.Request> {
    set q | q in r.entries && q.coupon == c && q.user == u && r.entries[q].Pending?
  }

  ghost function PendingWith(r: Redis, rid: string): set<L.Request> {
    set q | q in r.entries && r.entries[q] == Codec.Pending(rid)
  }

  ghost predicate Conserved(s: Logged) {
    && s.r.stock.Keys == s.r.meta.Keys == s.hydrated.Keys
    && s.r.counts.Keys <= s.r.stock.Keys
    && forall c :: c in s.r.stock ==>
         s.r.stock[c] >= 0 && s.r.stock[c] + Sum(Counts(s.r, c)) == s.hydrated[c]
  }

  ghost predicate CountsPositive(r: Redis) {
    && (forall c :: c in r.counts ==> r.counts[c] != map[])
    && (forall c, u :: c in r.counts && u in r.counts[c] ==> 1 <= r.counts[c][u] <= MetaOf(r, c).limit)
  }

  ghost predicate PendingCounted(r: Redis) {
    forall c, u :: |PendingOf(r, c, u)| <= CountOf(r, c, u)
  }

  /** Each user count lies between that user's pending entries and the limit, and no hash or field
      is kept for nothing. */
  ghost predicate CountsBounded(r: Redis) {
    CountsPositive(r) && PendingCounted(r)
  }

  /** Every reservation that was ended, or can still be, was admitted that often. */
  ghost predicate Fenced(s: Logged) {
    forall rid :: |PendingWith(s.r, rid)| + s.ended[rid] <= s.admitted[rid]
  }

  ghost predicate Inv(s: Logged) {
    Conserved(s) && CountsBounded(s.r) && Fenced(s)
  }

  /******* Effects of a single script *******/

  lemma AdmitEffect(r: Redis, now: int, req: L.Request, rid: string)
    requires DecideBranch(r, now, req).Admit?
    ensures var r' := Decide(r, now, req, rid).0;
            && r'.stock == r.stock[req.coupon := r.stock[req.coupon] - 1]
            && r'.meta == r.meta
            && r'.entries == r.entries[req := Codec.Pending(rid)]
            && r'.counts == r.counts[req.coupon := Counts(r, req.coupon)[req.user := CountOf(r, req.coupon, req.user) + 1]]
  {
    var m := Counts(r, req.coupon)[req.user := CountOf(r, req.coupon, req.user) + 1];
    assert req.user in m;
  }

  lemma RollbackEffect(r: Redis, req: L.Request, rid: string)
    requires Holds(r, req, rid) && req.coupon in r.stock && CountOf(r, req.coupon, req.user) >= 1
    ensures var r' := Rollback(r, req, rid);
            var m := Counts(r, req.coupon);
            && r'.stock == r.stock[req.coupon := r.stock[req.coupon] + 1]
            && r'.meta == r.meta
            && r'.entries == r.entries - {req}
            && r'.counts == (if m[req.user] > 1 then r.counts[req.coupon := m[req.user := m[req.user] - 1]]
                             else if m.Keys == {req.user} then r.counts - {req.coupon}
                             else r.counts[req.coupon := m - {req.user}])
  {
    var c, u := req.coupon, req.user;
    var m := Counts(r, c);
    var m1 := m[u := m[u] - 1];
    assert u in m1;
    var freed := AddStock(r.(entries := r.entries - {req}), c, 1);
    var counted := HIncrBy(freed, c, u, -1);
    assert counted.counts == r.counts[c := m1];
    assert Counts(counted, c) == m1;
    assert m1 - {u} == m - {u};
    if m.Keys == {u} {
      assert m - {u} == map[];
      assert counted.counts - {c} == r.counts - {c};
    } else {
      assert m.Keys - {u} != {};
      assert (m - {u}).Keys == m.Keys - {u};
    }
    assert counted.counts[c := m - {u}] == r.counts[c := m - {u}];
  }

  /** An admission immediately undone leaves Redis exactly as it was, absent fields included. */
  lemma AdmitThenRollback(r: Redis, now: int, req: L.Request, rid: string)
    requires CountsBounded(r)
    requires DecideBranch(r, now, req).Admit?
    ensures Rollback(Decide(r, now, req, rid).0, req, rid) == r
  {
    AdmitEffect(r, now, req, rid);
    var r1 := Decide(r, now, req, rid).0;
    RollbackEffect(r1, req, rid);
    assert r1.entries - {req} == r.entries;
    assert r1.stock[req.coupon := r1.stock[req.coupon] + 1] == r.stock;
    AdmitThenRollbackCounts(r.counts, Counts(r, req.coupon), r1.counts, req.coupon, req.user);
  }

  lemma AdmitThenRollbackCounts(cs: map<int, map<int, int>>, m: map<int, int>, cs1: map<int, map<int, int>>, c: int, u: int)
    requires m == if c in cs then cs[c] else map[]
    requires c in cs ==> m != map[]
    requires u in m ==> m[u] >= 1
    requires cs1 == cs[c := m[u := (if u in m then m[u] else 0) + 1]]
    ensures u in m ==> cs1[c := cs1[c][u := cs1[c][u] - 1]] == cs
    ensures u !in m && m.Keys == {} ==> cs1[c].Keys == {u} && cs1 - {c} == cs
    ensures u !in m && m.Keys != {} ==> cs1[c].Keys != {u} && cs1[c := cs1[c] - {u}] == cs
  {
    if u in m {
      assert m[u := m[u] + 1][u := m[u]] == m;
    } else if m.Keys == {} {
      assert m == map[];
    } else {
      assert m[u := 1] - {u} == m;
      assert m[u := 1].Keys == m.Keys + {u};
      var v := Choose(m.Keys);
      assert v in cs1[c].Keys;
    }
  }

  /** The script's two compensation branches never run. */
  lemma CompensationsAreDead(r: Redis, now: int, req: L.Request)
    ensures !DecideBranch(r, now, req).UndoStock? && !DecideBranch(r, now, req).UndoCount?
  {
  }

  /******* Preservation *******/

  lemma AdmitKeepsCounts(r: Redis, now: int, req: L.Request, rid: string)
    requires CountsBounded(r) && DecideBranch(r, now, req).Admit?
    ensures CountsBounded(Decide(r, now, req, rid).0)
  {
    var r' := Decide(r, now, req, rid).0;
    AdmitEffect(r, now, req, rid);
    assert CountsPositive(r') by {
      assert req.user in r'.counts[req.coupon];
    }
    forall c, u
      ensures |PendingOf(r', c, u)| <= CountOf(r', c, u)
    {
      AdmitPending(r, now, req, rid, c, u);
    }
  }

  lemma AdmitPending(r: Redis, now: int, req: L.Request, rid: string, c: int, u: int)
    requires PendingCounted(r) && DecideBranch(r, now, req).Admit?
    ensures var r' := Decide(r, now, req, rid).0; |PendingOf(r', c, u)| <= CountOf(r', c, u)
  {
    var r' := Decide(r, now, req, rid).0;
    AdmitEffect(r, now, req, rid);
    assert |PendingOf(r, c, u)| <= CountOf(r, c, u);
    if c == req.coupon && u == req.user {
      assert PendingOf(r', c, u) == PendingOf(r, c, u) + {req};
    } else {
      assert PendingOf(r', c, u) == PendingOf(r, c, u);
    }
  }

  lemma RollbackPending(r: Redis, req: L.Request, rid: string, c: int, u: int)
    requires PendingCounted(r) && req.coupon in r.stock && Holds(r, req, rid)
    requires CountOf(r, req.coupon, req.user) >= 1
    ensures var r' := Rollback(r, req, rid); |PendingOf(r', c, u)| <= CountOf(r', c, u)
  {
    var r' := Rollback(r, req, rid);
    RollbackEffect(r, req, rid);
    assert |PendingOf(r, c, u)| <= CountOf(r, c, u);
    if c == req.coupon && u == req.user {
      assert req in PendingOf(r, c, u);
      assert PendingOf(r', c, u) == PendingOf(r, c, u) - {req};
    } else {
      assert PendingOf(r', c, u) == PendingOf(r, c, u);
    }
  }

  lemma RollbackPositive(r: Redis, req: L.Request, rid: string)
    requires CountsPositive(r) && req.coupon in r.stock && Holds(r, req, rid)
    requires CountOf(r, req.coupon, req.user) >= 1
    ensures CountsPositive(Rollback(r, req, rid))
  {
    var c, u := req.coupon, req.user;
    var r' := Rollback(r, req, rid);
    RollbackEffect(r, req, rid);
    var m := r.counts[c];
    if m[u] > 1 {
      assert u in r'.counts[c];
    } else if m.Keys != {u} {
      assert m.Keys - {u} != {};
      var v := Choose(m.Keys - {u});
      assert v in r'.counts[c];
    }
  }

  lemma RollbackKeepsCounts(r: Redis, req: L.Request, rid: string)
    requires CountsBounded(r) && req.coupon in r.stock && Holds(r, req, rid)
    requires CountOf(r, req.coupon, req.user) >= 1
    ensures CountsBounded(Rollback(r, req, rid))
  {
    RollbackPositive(r, req, rid);
    forall c, u {
      RollbackPending(r, req, rid, c, u);
    }
  }

  lemma RollbackKeepsSum(s: Logged, req: L.Request, rid: string)
    requires Conserved(s) && Holds(s.r, req, rid) && req.coupon in s.r.stock
    requires CountOf(s.r, req.coupon, req.user) >= 1
    ensures Conserved(Apply(s, RollbackCall(req, rid)))
  {
    var r := s.r;
    RollbackEffect(r, req, rid);
    var r' := Rollback(r, req, rid);
    var c, u := req.coupon, req.user;
    var m := Counts(r, c);
    SumUpdate(m, u, m[u] - 1);
    SumWithout(m, u);
    if m[u] == 1 && m.Keys == {u} {
      assert m - {u} == map[];
      assert Counts(r', c) == map[];
    }
  }

  lemma AdmitKeepsSum(s: Logged, now: int, req: L.Request, rid: string)
    requires Conserved(s) && DecideBranch(s.r, now, req).Admit?
    ensures Conserved(Apply(s, DecideCall(now, req, rid)))
  {
    AdmitEffect(s.r, now, req, rid);
    SumUpdate(Counts(s.r, req.coupon), req.user, CountOf(s.r, req.coupon, req.user) + 1);
  }

  lemma AdmitKeepsFence(s: Logged, now: int, req: L.Request, rid: string)
    requires Fenced(s) && DecideBranch(s.r, now, req).Admit?
    ensures Fenced(Apply(s, DecideCall(now, req, rid)))
  {
    AdmitEffect(s.r, now, req, rid);
    var s' := Apply(s, DecideCall(now, req, rid));
    forall x
      ensures |PendingWith(s'.r, x)| + s'.ended[x] <= s'.admitted[x]
    {
      if x == rid {
        assert PendingWith(s'.r, x) == PendingWith(s.r, x) + {req};
      } else {
        assert PendingWith(s'.r, x) == PendingWith(s.r, x);
      }
    }
  }

  lemma DecideKeepsInv(s: Logged, now: int, req: L.Request, rid: string)
    requires Inv(s)
    ensures Inv(Apply(s, DecideCall(now, req, rid)))
  {
    CompensationsAreDead(s.r, now, req);
    if DecideBranch(s.r, now, req).Admit? {
      AdmitKeepsSum(s, now, req, rid);
      AdmitKeepsCounts(s.r, now, req, rid);
      AdmitKeepsFence(s, now, req, rid);
    }
  }

  /** Removing or overwriting the entry of `req` only shrinks the pending sets. */
  lemma EntryGone(r: Redis, r': Redis, req: L.Request)
    requires r'.entries - {req} == r.entries - {req}
    requires req in r'.entries ==> r'.entries[req].Success?
    ensures forall c, u :: PendingOf(r', c, u) == PendingOf(r, c, u) - {req}
    ensures forall x :: PendingWith(r', x) == PendingWith(r, x) - {req}
  {
    assert forall q :: q != req ==> (q in r.entries <==> q in r.entries - {req});
    assert forall q :: q != req ==> (q in r'.entries <==> q in r'.entries - {req});
    assert forall q :: q != req && q in r.entries ==> (r.entries - {req})[q] == r.entries[q];
    assert forall q :: q != req && q in r'.entries ==> (r'.entries - {req})[q] == r'.entries[q];
  }

  lemma EndKeepsFence(s: Logged, s': Logged, req: L.Request, rid: string)
    requires Fenced(s) && Holds(s.r, req, rid)
    requires s'.ended == s.ended + multiset{rid} && s'.admitted == s.admitted
    requires s'.r.entries - {req} == s.r.entries - {req}
    requires req in s'.r.entries ==> s'.r.entries[req].Success?
    ensures Fenced(s')
  {
    EntryGone(s.r, s'.r, req);
    assert req in PendingWith(s.r, rid);
    forall x
      ensures |PendingWith(s'.r, x)| + s'.ended[x] <= s'.admitted[x]
    {
      assert PendingWith(s'.r, x) == PendingWith(s.r, x) - {req};
      assert |PendingWith(s.r, x)| + s.ended[x] <= s.admitted[x];
    }
  }

  lemma EntryGoneKeepsCounts(r: Redis, r': Redis, req: L.Request)
    requires CountsBounded(r) && r'.counts == r.counts && r'.meta == r.meta
    requires r'.entries - {req} == r.entries - {req}
    requires req in r'.entries ==> r'.entries[req].Success?
    ensures CountsBounded(r')
  {
    EntryGone(r, r', req);
    forall c, u
      ensures |PendingOf(r', c, u)| <= CountOf(r', c, u)
    {
      assert PendingOf(r', c, u) == PendingOf(r, c, u) - {req};
      assert |PendingOf(r, c, u)| <= CountOf(r, c, u);
    }
  }

  lemma FinalizeKeepsInv(s: Logged, req: L.Request, rid: string, id: int)
    requires Inv(s)
    ensures Inv(Apply(s, FinalizeCall(req, rid, id)))
  {
    var s' := Apply(s, FinalizeCall(req, rid, id));
    if Holds(s.r, req, rid) {
      assert s'.r.entries - {req} == s.r.entries - {req};
      EndKeepsFence(s, s', req, rid);
      EntryGoneKeepsCounts(s.r, s'.r, req);
    }
  }

  lemma RollbackKeepsInv(s: Logged, req: L.Request, rid: string)
    requires Inv(s)
    ensures Inv(Apply(s, RollbackCall(req, rid)))
  {
    var s' := Apply(s, RollbackCall(req, rid));
    if Holds(s.r, req, rid) {
      assert req in PendingOf(s.r, req.coupon, req.user);
      assert CountOf(s.r, req.coupon, req.user) >= 1;
      assert req.coupon in s.r.counts;
      RollbackKeepsCounts(s.r, req, rid);
      RollbackKeepsSum(s, req, rid);
      RollbackEffect(s.r, req, rid);
      assert s'.r.entries - {req} == s.r.entries - {req};
      EndKeepsFence(s, s', req, rid);
    }
  }

  lemma ExpireKeepsInv(s: Logged, req: L.Request)
    requires Inv(s)
    ensures Inv(Apply(s, ExpireCall(req)))
  {
    var s' := Apply(s, ExpireCall(req));
    assert s'.r.entries - {req} == s.r.entries - {req};
    EntryGoneKeepsCounts(s.r, s'.r, req);
    ExpireKeepsFence(s, s', req);
  }

  lemma ExpireKeepsFence(s: Logged, s': Logged, req: L.Request)
    requires Fenced(s)
    requires s' == Apply(s, ExpireCall(req))
    ensures Fenced(s')
  {
    forall x
      ensures |PendingWith(s'.r, x)| + s'.ended[x] <= s'.admitted[x]
    {
      assert PendingWith(s'.r, x) == PendingWith(s.r, x) - {req};
      assert |PendingWith(s.r, x)| + s.ended[x] <= s.admitted[x];
    }
  }

  lemma HydrateKeepsInv(s: Logged, c: int, camp: L.Campaign)
    requires Inv(s) && camp.stock >= 0
    ensures Inv(Apply(s, HydrateCall(c, camp)))
  {
    var s' := Apply(s, HydrateCall(c, camp));
    assert forall d, u :: PendingOf(s'.r, d, u) == PendingOf(s.r, d, u);
    assert forall x :: PendingWith(s'.r, x) == PendingWith(s.r, x);
    if c !in s.r.stock {
      assert c !in s.r.counts;
      assert Counts(s.r, c) == map[];
    }
  }

  lemma CallKeepsInv(s: Logged, call: Call)
    requires Inv(s) && LegalCall(call)
    ensures Inv(Apply(s, call))
  {
    match call
    case DecideCall(now, req, rid) => DecideKeepsInv(s, now, req, rid);
    case FinalizeCall(req, rid, id) => FinalizeKeepsInv(s, req, rid, id);
    case RollbackCall(req, rid) => RollbackKeepsInv(s, req, rid);
    case HydrateCall(c, camp) => HydrateKeepsInv(s, c, camp);
    case ExpireCall(req) => ExpireKeepsInv(s, req);
  }

  /** Over every run of script calls with any arguments, in any order, by any number of clients:
      stock plus the sum of user counts equals the hydrated stock, stock is never negative, each
      user count lies between that user's pending entries and the limit, and no reservation id is
      finalized or rolled back more often than it was admitted. */
  lemma {:induction false} RedisSafe(s: Logged, calls: seq<Call>)
    requires Inv(s) && forall i :: 0 <= i < |calls| ==> LegalCall(calls[i])
    ensures Inv(Run(s, calls))
    decreases |calls|
  {
    if calls != [] {
      CallKeepsInv(s, calls[0]);
      RedisSafe(Apply(s, calls[0]), calls[1..]);
    }
  }

  /******* Fencing over runs *******/

  /** No entry carries the reservation id. */
  ghost predicate Gone(r: Redis, rid: string) {
    forall req :: !Holds(r, req, rid)
  }

  predicate Draws(call: Call, rid: string) {
    call.DecideCall? && call.rid == rid
  }

  /** Only a decision that draws the id can enter it. */
  lemma CallKeepsGone(s: Logged, call: Call, rid: string)
    requires Gone(s.r, rid) && !Draws(call, rid)
    ensures Gone(Apply(s, call).r, rid)
  {
    forall q
      ensures !Holds(Apply(s, call).r, q, rid)
    {
      assert !Holds(s.r, q, rid);
    }
  }

  /** Once no entry carries a reservation id and nobody draws it again, every late rollback and every
      late finalize with it, after any further calls and for any request and claim id, changes
      nothing - also when the request was re-admitted under another id in the meantime. */
  lemma {:induction false} LateEndIsHarmless(s: Logged, calls: seq<Call>, rid: string, req: L.Request, claimId: int)
    requires Gone(s.r, rid) && forall i :: 0 <= i < |calls| ==> !Draws(calls[i], rid)
    ensures Rollback(Run(s, calls).r, req, rid) == Run(s, calls).r
    ensures Finalize(Run(s, calls).r, req, rid, claimId) == Run(s, calls).r
    decreases |calls|
  {
    if calls == [] {
      assert !Holds(s.r, req, rid);
    } else {
      CallKeepsGone(s, calls[0], rid);
      LateEndIsHarmless(Apply(s, calls[0]), calls[1..], rid, req, claimId);
    }
  }

  /** An id drawn once is gone as soon as its entry expires, is finalized or is rolled back. */
  lemma EndedIsGone(s: Logged, req: L.Request, rid: string, claimId: int)
    requires Inv(s) && s.admitted[rid] <= 1 && Holds(s.r, req, rid)
    ensures Gone(Expire(s.r, req), rid) && Gone(Finalize(s.r, req, rid, claimId), rid) && Gone(Rollback(s.r, req, rid), rid)
  {
    forall q
      ensures !Holds(Expire(s.r, req), q, rid)
      ensures !Holds(Finalize(s.r, req, rid, claimId), q, rid)
      ensures !Holds(Rollback(s.r, req, rid), q, rid)
    {
      OneHolder(s, req, rid, q);
    }
  }

  lemma OneHolder(s: Logged, req: L.Request, rid: string, q: L.Request)
    requires Fenced(s) && s.admitted[rid] <= 1 && Holds(s.r, req, rid)
    ensures Holds(s.r, q, rid) ==> q == req
  {
    assert |PendingWith(s.r, rid)| + s.ended[rid] <= s.admitted[rid];
    if Holds(s.r, q, rid) {
      SubsetIsNoLarger({req, q}, PendingWith(s.r, rid));
    }
  }

  /** With unique reservation ids at most one of finalize and rollback takes effect per admission. */
  lemma AtMostOneEnd(calls: seq<Call>, rid: string)
    requires forall i :: 0 <= i < |calls| ==> LegalCall(calls[i])
    requires Run(Logged(EMPTY, map[], multiset{}, multiset{}), calls).admitted[rid] <= 1
    ensures Run(Logged(EMPTY, map[], multiset{}, multiset{}), calls).ended[rid] <= 1
  {
    var s0 := Logged(EMPTY, map[], multiset{}, multiset{});
    InitInv();
    RedisSafe(s0, calls);
  }

  lemma InitInv()
    ensures Inv(Logged(EMPTY, map[], multiset{}, multiset{}))
  {
    var s := Logged(EMPTY, map[], multiset{}, multiset{});
    assert forall c, u :: PendingOf(s.r, c, u) == {};
    assert forall x :: PendingWith(s.r, x) == {};
  }
}
