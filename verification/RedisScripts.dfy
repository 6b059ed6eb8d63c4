/** The Redis keyspace as Redis holds it - string keys, string values, hashes of strings - and the
    adjudicator's Lua scripts as command sequences over it. Each script is proved to do to the
    strings what `Adjudicator` does to numbers and requests. */
module RedisScripts {
  import opened Common
  import opened Codec
  import L = Ledger
  import R = Adjudicator

  type Hash = map<string, string>

  /******* Representation *******/

  function IdemKeyOf(q: L.Request): string {
    IdemDecisionKey(q.coupon, q.user, q.key)
  }

  ghost predicate StockAt(st: map<string, string>, stock: map<int, int>, c: int) {
    && (CampaignStockKey(c) in st <==> c in stock)
    && (c in stock ==> st[CampaignStockKey(c)] == PrintInt(stock[c]))
  }

  ghost predicate StockRep(st: map<string, string>, stock: map<int, int>) {
    forall c :: StockAt(st, stock, c)
  }

  predicate StorableEntry(e: Entry) {
    e.Success? ==> IsInt64(e.claimId)
  }

  ghost predicate EntryAt(st: map<string, string>, entries: map<L.Request, Entry>, q: L.Request) {
    && (IdemKeyOf(q) in st <==> q in entries)
    && (q in entries ==> st[IdemKeyOf(q)] == PrintEntry(entries[q]) && StorableEntry(entries[q]))
  }

  ghost predicate EntryRep(st: map<string, string>, entries: map<L.Request, Entry>) {
    forall q :: EntryAt(st, entries, q)
  }

  function PrintMeta(m: R.Meta): Hash {
    map["status" := m.status, "start_ms" := PrintInt(m.startAt), "end_ms" := PrintInt(m.endAt),
        "per_user_limit" := PrintInt(m.limit)]
  }

  lemma PrintedMeta(m: R.Meta)
    ensures var h := PrintMeta(m);
            && "status" in h && h["status"] == m.status && "start_ms" in h && h["start_ms"] == PrintInt(m.startAt)
            && "end_ms" in h && h["end_ms"] == PrintInt(m.endAt)
            && "per_user_limit" in h && h["per_user_limit"] == PrintInt(m.limit)
  {
    assert |"status"| == 6 && |"start_ms"| == 8 && |"end_ms"| == 6 && |"per_user_limit"| == 14;
    assert "status"[0] == 's' && "end_ms"[0] == 'e';
  }

  ghost predicate MetaAt(hs: map<string, Hash>, meta: map<int, R.Meta>, c: int) {
    && (CampaignMetaKey(c) in hs <==> c in meta)
    && (c in meta ==> hs[CampaignMetaKey(c)] == PrintMeta(meta[c]))
  }

  ghost predicate MetaRep(hs: map<string, Hash>, meta: map<int, R.Meta>) {
    forall c :: MetaAt(hs, meta, c)
  }

  ghost predicate FieldAt(h: Hash, m: map<int, int>, u: int) {
    && (PrintInt(u) in h <==> u in m)
    && (u in m ==> h[PrintInt(u)] == PrintInt(m[u]))
  }

  ghost predicate IsField(f: string, m: map<int, int>) {
    exists u :: u in m && f == PrintInt(u)
  }

  /** A hash of user counts; it has no other fields. */
  ghost predicate HashRep(h: Hash, m: map<int, int>) {
    (forall u :: FieldAt(h, m, u)) && (forall f :: f in h ==> IsField(f, m))
  }

  ghost predicate CountAt(hs: map<string, Hash>, counts: map<int, map<int, int>>, c: int) {
    && (CampaignUserCountKey(c) in hs <==> c in counts)
    && (c in counts ==> HashRep(hs[CampaignUserCountKey(c)], counts[c]))
  }

  ghost predicate CountRep(hs: map<string, Hash>, counts: map<int, map<int, int>>) {
    forall c :: CountAt(hs, counts, c)
  }

  ghost predicate Represents(st: map<string, string>, hs: map<string, Hash>, r: R.Redis) {
    StockRep(st, r.stock) && EntryRep(st, r.entries) && MetaRep(hs, r.meta) && CountRep(hs, r.counts)
  }

  /******* Writes that keep the representation *******/

  lemma StockKeysDiffer(c: int, d: int)
    ensures c != d ==> CampaignStockKey(c) != CampaignStockKey(d)
  {
    if CampaignStockKey(c) == CampaignStockKey(d) {
      CampaignKeyInjective(c, "stock", d, "stock");
    }
  }

  lemma EntryIsNoStock(q: L.Request, c: int)
    ensures CampaignStockKey(c) != IdemKeyOf(q)
  {
    IdemKeyIsNoCampaignKey(q.coupon, q.user, q.key, c, "stock");
  }

  lemma IdemKeysDiffer(p: L.Request, q: L.Request)
    ensures p != q ==> IdemKeyOf(p) != IdemKeyOf(q)
  {
    if IdemKeyOf(p) == IdemKeyOf(q) {
      IdemDecisionKeyInjective(p.coupon, p.user, p.key, q.coupon, q.user, q.key);
    }
  }

  lemma HashKeysDiffer(c: int, d: int)
    ensures CampaignMetaKey(c) != CampaignUserCountKey(d)
    ensures c != d ==> CampaignMetaKey(c) != CampaignMetaKey(d) && CampaignUserCountKey(c) != CampaignUserCountKey(d)
  {
    if CampaignMetaKey(c) == CampaignUserCountKey(d) {
      CampaignKeyInjective(c, "meta", d, "user_count");
    }
    if CampaignMetaKey(c) == CampaignMetaKey(d) {
      CampaignKeyInjective(c, "meta", d, "meta");
    }
    if CampaignUserCountKey(c) == CampaignUserCountKey(d) {
      CampaignKeyInjective(c, "user_count", d, "user_count");
    }
  }

  lemma StockWrite(st: map<string, string>, stock: map<int, int>, entries: map<L.Request, Entry>, c: int, v: int)
    requires StockRep(st, stock) && EntryRep(st, entries)
    ensures var st' := st[CampaignStockKey(c) := PrintInt(v)];
            StockRep(st', stock[c := v]) && EntryRep(st', entries)
  {
    hide CampaignStockKey, IdemKeyOf;
    var st', stock' := st[CampaignStockKey(c) := PrintInt(v)], stock[c := v];
    forall d
      ensures StockAt(st', stock', d)
    {
      StockKeysDiffer(c, d);
      assert StockAt(st, stock, d);
    }
    forall q
      ensures EntryAt(st', entries, q)
    {
      EntryIsNoStock(q, c);
      assert EntryAt(st, entries, q);
    }
  }

  lemma EntryWrite(st: map<string, string>, stock: map<int, int>, entries: map<L.Request, Entry>, q: L.Request, e: Entry)
    requires StockRep(st, stock) && EntryRep(st, entries) && StorableEntry(e)
    ensures var st' := st[IdemKeyOf(q) := PrintEntry(e)];
            StockRep(st', stock) && EntryRep(st', entries[q := e])
  {
    hide CampaignStockKey, IdemKeyOf;
    var st', entries' := st[IdemKeyOf(q) := PrintEntry(e)], entries[q := e];
    forall d
      ensures StockAt(st', stock, d)
    {
      EntryIsNoStock(q, d);
      assert StockAt(st, stock, d);
    }
    forall p
      ensures EntryAt(st', entries', p)
    {
      IdemKeysDiffer(q, p);
      assert EntryAt(st, entries, p);
    }
  }

  lemma EntryDelete(st: map<string, string>, stock: map<int, int>, entries: map<L.Request, Entry>, q: L.Request)
    requires StockRep(st, stock) && EntryRep(st, entries)
    ensures StockRep(st - {IdemKeyOf(q)}, stock) && EntryRep(st - {IdemKeyOf(q)}, entries - {q})
  {
    hide CampaignStockKey, IdemKeyOf;
    var st', entries' := st - {IdemKeyOf(q)}, entries - {q};
    forall d
      ensures StockAt(st', stock, d)
    {
      EntryIsNoStock(q, d);
      assert StockAt(st, stock, d);
    }
    forall p
      ensures EntryAt(st', entries', p)
    {
      IdemKeysDiffer(q, p);
      assert EntryAt(st, entries, p);
    }
  }

  lemma MetaWrite(hs: map<string, Hash>, meta: map<int, R.Meta>, counts: map<int, map<int, int>>, c: int, m: R.Meta)
    requires MetaRep(hs, meta) && CountRep(hs, counts)
    ensures var hs' := hs[CampaignMetaKey(c) := PrintMeta(m)];
            MetaRep(hs', meta[c := m]) && CountRep(hs', counts)
  {
    hide CampaignMetaKey, CampaignUserCountKey, PrintMeta;
    var hs', meta' := hs[CampaignMetaKey(c) := PrintMeta(m)], meta[c := m];
    forall d
      ensures MetaAt(hs', meta', d)
    {
      HashKeysDiffer(c, d);
      assert MetaAt(hs, meta, d);
    }
    forall d
      ensures CountAt(hs', counts, d)
    {
      HashKeysDiffer(c, d);
      assert CountAt(hs, counts, d);
    }
  }

  /** Writing a count hash, or dropping it when it has become empty. */
  function PutHash(hs: map<string, Hash>, k: string, h: Hash): map<string, Hash> {
    if h == map[] then hs - {k} else hs[k := h]
  }

  lemma CountWrite(hs: map<string, Hash>, r: R.Redis, c: int, h: Hash, m: map<int, int>)
    requires MetaRep(hs, r.meta) && CountRep(hs, r.counts) && HashRep(h, m)
    ensures var hs' := PutHash(hs, CampaignUserCountKey(c), h);
            MetaRep(hs', r.meta) && CountRep(hs', R.PutCounts(r, c, m).counts)
  {
    EmptyHash(h, m);
    hide CampaignMetaKey, CampaignUserCountKey, HashRep, PrintMeta;
    var hs', counts' := PutHash(hs, CampaignUserCountKey(c), h), R.PutCounts(r, c, m).counts;
    forall d
      ensures MetaAt(hs', r.meta, d)
    {
      HashKeysDiffer(d, c);
      assert MetaAt(hs, r.meta, d);
    }
    forall d
      ensures CountAt(hs', counts', d)
    {
      HashKeysDiffer(d, c);
      assert CountAt(hs, r.counts, d);
    }
  }

  lemma EmptyHash(h: Hash, m: map<int, int>)
    requires HashRep(h, m)
    ensures h == map[] <==> m == map[]
  {
    if h.Keys != {} {
      var f := Choose(h.Keys);
      assert IsField(f, m);
    } else {
      assert h == map[];
      forall u
        ensures u !in m
      {
        assert FieldAt(h, m, u);
      }
    }
  }

  lemma FieldWrite(h: Hash, m: map<int, int>, u: int, v: int)
    requires HashRep(h, m)
    ensures HashRep(h[PrintInt(u) := PrintInt(v)], m[u := v])
  {
    hide PrintInt;
    var h', m' := h[PrintInt(u) := PrintInt(v)], m[u := v];
    forall x
      ensures FieldAt(h', m', x)
    {
      FieldsDiffer(u, x);
      assert FieldAt(h, m, x);
    }
    forall f | f in h'
      ensures IsField(f, m')
    {
      if f == PrintInt(u) {
        assert u in m';
      } else {
        assert IsField(f, m);
        var x :| x in m && f == PrintInt(x);
        assert x in m';
      }
    }
  }

  lemma FieldsDiffer(u: int, x: int)
    ensures x != u ==> PrintInt(x) != PrintInt(u)
  {
    if PrintInt(x) == PrintInt(u) {
      PrintIntInjective(x, u);
    }
  }

  lemma FieldDelete(h: Hash, m: map<int, int>, u: int)
    requires HashRep(h, m)
    ensures HashRep(h - {PrintInt(u)}, m - {u})
  {
    hide PrintInt;
    var h', m' := h - {PrintInt(u)}, m - {u};
    forall x
      ensures FieldAt(h', m', x)
    {
      FieldsDiffer(u, x);
      assert FieldAt(h, m, x);
    }
    forall f | f in h'
      ensures IsField(f, m')
    {
      assert IsField(f, m);
      var x :| x in m && f == PrintInt(x);
      assert x in m';
    }
  }

  /******* Replies *******/

  /** `parseClaimDecision`, and the caller's switch over the codes. */
  function ParseDecision(result: seq<string>): Option<R.Decision> {
    if |result| == 0 then None
    else if |result| == 1 then
      (if result[0] == "CAMPAIGN_MISS" then Some(R.CampaignMiss)
       else if result[0] == "INACTIVE" then Some(R.Inactive)
       else if result[0] == "ALREADY_CLAIMED" then Some(R.AlreadyClaimed)
       else if result[0] == "LIMIT_REACHED" then Some(R.LimitReached)
       else if result[0] == "SOLD_OUT" then Some(R.SoldOut)
       else None)
    else if result[0] == "IDEM_HIT" then
      (match ParseInt(result[1])
       case None => None
       case Some(id) => Some(R.IdemHit(id)))
    else if result[0] == "PENDING" then Some(R.InFlight(result[1]))
    else if result[0] == "ADMITTED" then Some(R.Admitted(result[1]))
    else None
  }

  lemma ParsedCodes()
    ensures ParseDecision(["CAMPAIGN_MISS"]) == Some(R.CampaignMiss) && ParseDecision(["INACTIVE"]) == Some(R.Inactive)
    ensures ParseDecision(["ALREADY_CLAIMED"]) == Some(R.AlreadyClaimed)
    ensures ParseDecision(["LIMIT_REACHED"]) == Some(R.LimitReached) && ParseDecision(["SOLD_OUT"]) == Some(R.SoldOut)
  {
    assert "CAMPAIGN_MISS"[0] == 'C' && "INACTIVE"[0] == 'I' && "ALREADY_CLAIMED"[0] == 'A' && "LIMIT_REACHED"[0] == 'L' && "SOLD_OUT"[0] == 'S';
  }

  lemma ParsedPairs(v: string)
    ensures ParseDecision(["PENDING", v]) == Some(R.InFlight(v)) && ParseDecision(["ADMITTED", v]) == Some(R.Admitted(v))
    ensures ParseInt(v).Some? ==> ParseDecision(["IDEM_HIT", v]) == Some(R.IdemHit(ParseInt(v).value))
  {
    assert "PENDING"[0] == 'P' && "ADMITTED"[0] == 'A' && "IDEM_HIT"[0] == 'I';
  }

  lemma EntryPrefix(e: Entry)
    requires StorableEntry(e)
    ensures var s := PrintEntry(e);
            && |s| >= 8
            && (e.Success? <==> s[..8] == "SUCCESS:") && (e.Pending? <==> s[..8] == "PENDING:")
            && (e.Success? ==> ParseInt(s[8..]) == Some(e.claimId)) && (e.Pending? ==> s[8..] == e.rid)
  {
    var s := PrintEntry(e);
    match e
    case Pending(rid) => assert s[..8] == "PENDING:" && s[8..] == rid;
    case Success(id) =>
      ParsePrintInt(id);
      assert s[..8] == "SUCCESS:" && s[8..] == PrintInt(id);
  }

  /** An entry's text is the reservation's text exactly when it is that reservation. */
  lemma PendingText(e: Entry, rid: string)
    requires StorableEntry(e)
    ensures PrintEntry(e) == "PENDING:" + rid <==> e == Pending(rid)
  {
    ParsePrintEntry(e);
    ParsePrintEntry(Pending(rid));
  }

  /******* The server *******/

  /** A Redis server; `abs` is the state its strings stand for. */
  class Server {
    var strings: map<string, string>
    var hashes: map<string, Hash>
    ghost var abs: R.Redis

    ghost predicate Valid()
      reads this
    {
      Represents(strings, hashes, abs)
    }

    constructor ()
      ensures Valid() && abs == R.EMPTY
    {
      strings, hashes := map[], map[];
      abs := R.EMPTY;
    }

    /******* Commands *******/

    function Get(k: string): Option<string>
      reads this
    {
      if k in strings then Some(strings[k]) else None
    }

    function HGet(k: string, f: string): Option<string>
      reads this
    {
      if k in hashes && f in hashes[k] then Some(hashes[k][f]) else None
    }

    function HGetAll(k: string): Hash
      reads this
    {
      if k in hashes then hashes[k] else map[]
    }

    /** `tonumber(v or default)`. */
    static function Number(v: Option<string>, default: int): int {
      match v
      case None => default
      case Some(s) => (match ReadInt(s) case None => default case Some(n) => n)
    }

    /** INCR and DECR on a stock key. */
    method IncrStock(c: int, d: int) returns (n: int)
      requires Valid()
      modifies this
      ensures Valid() && abs == R.AddStock(old(abs), c, d) && n == abs.stock[c]
    {
      var k := CampaignStockKey(c);
      StockNumber(c);
      n := Number(Get(k), 0) + d;
      StockWrite(strings, abs.stock, abs.entries, c, n);
      strings := strings[k := PrintInt(n)];
      abs := R.AddStock(abs, c, d);
    }

    /** HINCRBY on a user count. */
    method IncrCount(c: int, u: int, d: int) returns (n: int)
      requires Valid()
      modifies this
      ensures Valid() && abs == R.HIncrBy(old(abs), c, u, d) && n == R.CountOf(old(abs), c, u) + d
    {
      var k, f := CampaignUserCountKey(c), PrintInt(u);
      CountNumber(c, u);
      n := Number(HGet(k, f), 0) + d;
      var h := HGetAll(k);
      CountHash(c);
      FieldWrite(h, R.Counts(abs, c), u, n);
      CountWrite(hashes, abs, c, h[f := PrintInt(n)], R.Counts(abs, c)[u := n]);
      hide Represents;
      assert f in h[f := PrintInt(n)];
      hashes := hashes[k := h[f := PrintInt(n)]];
      abs := R.HIncrBy(abs, c, u, d);
    }

    /** HDEL of a user count. */
    method DelCount(c: int, u: int)
      requires Valid()
      modifies this
      ensures Valid() && abs == R.HDel(old(abs), c, u)
    {
      var k, f := CampaignUserCountKey(c), PrintInt(u);
      var h := HGetAll(k);
      CountHash(c);
      FieldDelete(h, R.Counts(abs, c), u);
      CountWrite(hashes, abs, c, h - {f}, R.Counts(abs, c) - {u});
      hashes := PutHash(hashes, k, h - {f});
      abs := R.HDel(abs, c, u);
    }

    /** SET of an idempotency entry. */
    method SetEntry(q: L.Request, text: string, ghost e: Entry)
      requires Valid() && StorableEntry(e) && text == PrintEntry(e)
      modifies this
      ensures Valid() && abs == old(abs).(entries := old(abs).entries[q := e])
    {
      EntryWrite(strings, abs.stock, abs.entries, q, e);
      strings := strings[IdemKeyOf(q) := text];
      abs := abs.(entries := abs.entries[q := e]);
    }

    /** DEL of an idempotency entry, or its expiry. */
    method DelEntry(q: L.Request)
      requires Valid()
      modifies this
      ensures Valid() && abs == R.Expire(old(abs), q)
    {
      EntryDelete(strings, abs.stock, abs.entries, q);
      strings := strings - {IdemKeyOf(q)};
      abs := R.Expire(abs, q);
    }

    /******* What reads return *******/

    lemma StockNumber(c: int)
      requires Valid()
      ensures Get(CampaignStockKey(c)).Some? <==> c in abs.stock
      ensures Number(Get(CampaignStockKey(c)), 0) == if c in abs.stock then abs.stock[c] else 0
    {
      assert StockAt(strings, abs.stock, c);
      if c in abs.stock {
        ParsePrintInt(abs.stock[c]);
      }
    }

    lemma CountHash(c: int)
      requires Valid()
      ensures HashRep(HGetAll(CampaignUserCountKey(c)), R.Counts(abs, c))
    {
      assert CountAt(hashes, abs.counts, c);
      if c !in abs.counts {
        forall u
          ensures FieldAt(map[], map[], u)
        {
        }
      }
    }

    lemma CountNumber(c: int, u: int)
      requires Valid()
      ensures Number(HGet(CampaignUserCountKey(c), PrintInt(u)), 0) == R.CountOf(abs, c, u)
    {
      assert CountAt(hashes, abs.counts, c);
      if c in abs.counts {
        assert HashRep(hashes[CampaignUserCountKey(c)], abs.counts[c]);
        assert FieldAt(hashes[CampaignUserCountKey(c)], abs.counts[c], u);
        if u in abs.counts[c] {
          ParsePrintInt(abs.counts[c][u]);
        }
      }
    }

    lemma MetaFields(c: int)
      requires Valid()
      ensures var k, m := CampaignMetaKey(c), R.MetaOf(abs, c);
              && (HGet(k, "status") == Some("ACTIVE") <==> m.status == "ACTIVE")
              && Number(HGet(k, "start_ms"), 0) == m.startAt && Number(HGet(k, "end_ms"), 0) == m.endAt
              && Number(HGet(k, "per_user_limit"), 1) == m.limit
    {
      assert MetaAt(hashes, abs.meta, c);
      if c in abs.meta {
        var m := abs.meta[c];
        PrintedMeta(m);
        hide PrintMeta;
        ParsePrintInt(m.startAt);
        ParsePrintInt(m.endAt);
        ParsePrintInt(m.limit);
      }
    }

    lemma EntryText(q: L.Request)
      requires Valid()
      ensures Get(IdemKeyOf(q)) == if q in abs.entries then Some(PrintEntry(abs.entries[q])) else None
      ensures q in abs.entries ==> StorableEntry(abs.entries[q])
    {
      assert EntryAt(strings, abs.entries, q);
    }

    /******* Scripts *******/

    /** The decision script. */
    method Decide(now: int, q: L.Request, rid: string) returns (result: seq<string>)
      requires Valid()
      modifies this
      ensures Valid() && abs == R.Decide(old(abs), now, q, rid).0
      ensures ParseDecision(result) == Some(R.Decide(old(abs), now, q, rid).1)
    {
      hide Represents, ParseDecision;
      ParsedCodes();
      StockNumber(q.coupon);
      EntryText(q);
      if Get(CampaignStockKey(q.coupon)).None? {
        return ["CAMPAIGN_MISS"];
      }
      var idem := Get(IdemKeyOf(q));
      if idem.Some? {
        var v := idem.value;
        EntryPrefix(abs.entries[q]);
        ParsedPairs(v[8..]);
        if v[..8] == "SUCCESS:" {
          return ["IDEM_HIT", v[8..]];
        }
        return ["PENDING", v[8..]];
      }
      result := Judge(now, q, rid);
    }

    /** The script for a request without an entry. */
    method Judge(now: int, q: L.Request, rid: string) returns (result: seq<string>)
      requires Valid() && q.coupon in abs.stock && q !in abs.entries
      modifies this
      ensures Valid() && abs == R.Decide(old(abs), now, q, rid).0
      ensures ParseDecision(result) == Some(R.Decide(old(abs), now, q, rid).1)
    {
      hide Represents, ParseDecision;
      var c := q.coupon;
      ParsedCodes();
      ParsedPairs(rid);
      StockNumber(c);
      MetaFields(c);
      CountNumber(c, q.user);
      var k := CampaignMetaKey(c);
      var status := HGet(k, "status");
      var start, end := Number(HGet(k, "start_ms"), 0), Number(HGet(k, "end_ms"), 0);
      var limit := Number(HGet(k, "per_user_limit"), 1);
      if status != Some("ACTIVE") || now < start || now > end {
        return ["INACTIVE"];
      }
      var count := Number(HGet(CampaignUserCountKey(c), PrintInt(q.user)), 0);
      if count >= limit {
        return [if limit == 1 then "ALREADY_CLAIMED" else "LIMIT_REACHED"];
      }
      var remain := Number(Get(CampaignStockKey(c)), 0);
      if remain <= 0 {
        return ["SOLD_OUT"];
      }
      result := Reserve(q, limit, rid);
    }

    /** The script's tail: take a unit of stock, count it, enter the reservation; give both back
        when a counter went out of bounds. */
    method Reserve(q: L.Request, limit: int, rid: string) returns (result: seq<string>)
      requires Valid() && q.coupon in abs.stock
      modifies this
      ensures Valid()
      ensures var c, u, r := q.coupon, q.user, old(abs);
              if r.stock[c] - 1 < 0 then
                result == ["SOLD_OUT"] && abs == R.AddStock(R.AddStock(r, c, -1), c, 1)
              else if R.CountOf(r, c, u) + 1 > limit then
                && result == [if limit == 1 then "ALREADY_CLAIMED" else "LIMIT_REACHED"]
                && abs == R.AddStock(R.HIncrBy(R.HIncrBy(R.AddStock(r, c, -1), c, u, 1), c, u, -1), c, 1)
              else
                var r1 := R.HIncrBy(R.AddStock(r, c, -1), c, u, 1);
                result == ["ADMITTED", rid] && abs == r1.(entries := r1.entries[q := Pending(rid)])
    {
      hide Represents;
      var c := q.coupon;
      var remain := IncrStock(c, -1);
      if remain < 0 {
        remain := IncrStock(c, 1);
        return ["SOLD_OUT"];
      }
      var n := IncrCount(c, q.user, 1);
      if n > limit {
        n := IncrCount(c, q.user, -1);
        remain := IncrStock(c, 1);
        return [if limit == 1 then "ALREADY_CLAIMED" else "LIMIT_REACHED"];
      }
      SetEntry(q, "PENDING:" + rid, Pending(rid));
      result := ["ADMITTED", rid];
    }

    /** The finalize script. */
    method Finalize(q: L.Request, rid: string, claimId: int)
      requires Valid() && IsInt64(claimId)
      modifies this
      ensures Valid() && abs == R.Finalize(old(abs), q, rid, claimId)
    {
      hide Represents;
      EntryText(q);
      if q in abs.entries {
        PendingText(abs.entries[q], rid);
      }
      if Get(IdemKeyOf(q)) == Some("PENDING:" + rid) {
        SetEntry(q, "SUCCESS:" + PrintInt(claimId), Success(claimId));
      }
    }

    /** The rollback script. */
    method Rollback(q: L.Request, rid: string)
      requires Valid()
      modifies this
      ensures Valid() && abs == R.Rollback(old(abs), q, rid)
    {
      hide Represents;
      EntryText(q);
      if q in abs.entries {
        PendingText(abs.entries[q], rid);
      }
      if Get(IdemKeyOf(q)) != Some("PENDING:" + rid) {
        return;
      }
      DelEntry(q);
      var _ := IncrStock(q.coupon, 1);
      var n := IncrCount(q.coupon, q.user, -1);
      if n <= 0 {
        DelCount(q.coupon, q.user);
      }
    }

    /** `EnsureCampaign`: SETNX and four HSETNX in one MULTI. */
    method EnsureCampaign(c: int, camp: L.Campaign)
      requires Valid()
      modifies this
      ensures Valid() && abs == R.Hydrate(old(abs), c, camp)
    {
      var k := CampaignStockKey(c);
      assert StockAt(strings, abs.stock, c);
      if k !in strings {
        StockWrite(strings, abs.stock, abs.entries, c, camp.stock);
        strings := strings[k := PrintInt(camp.stock)];
      }
      var meta := R.Meta(camp.status, camp.startAt, camp.endAt, camp.Limit());
      var mk := CampaignMetaKey(c);
      assert MetaAt(hashes, abs.meta, c);
      MetaWrite(hashes, abs.meta, abs.counts, c, meta);
      ghost var h0 := hashes;
      HSetNX(mk, "status", meta.status);
      HSetNX(mk, "start_ms", PrintInt(meta.startAt));
      HSetNX(mk, "end_ms", PrintInt(meta.endAt));
      HSetNX(mk, "per_user_limit", PrintInt(meta.limit));
      MetaSet(h0, mk, meta);
      abs := R.Hydrate(abs, c, camp);
    }

    method HSetNX(k: string, f: string, v: string)
      modifies this`hashes
      ensures hashes == SetNX(old(hashes), k, f, v)
    {
      if !(k in hashes && f in hashes[k]) {
        hashes := hashes[k := (if k in hashes then hashes[k] else map[])[f := v]];
      }
    }
  }

  function SetNX(hs: map<string, Hash>, k: string, f: string, v: string): map<string, Hash> {
    if k in hs && f in hs[k] then hs
    else hs[k := (if k in hs then hs[k] else map[])[f := v]]
  }

  /** Four HSETNX either create the whole meta hash or, when it is there, change nothing. */
  lemma MetaSet(hs: map<string, Hash>, k: string, m: R.Meta)
    requires k in hs ==> exists m0 :: hs[k] == PrintMeta(m0)
    ensures var h1 := SetNX(hs, k, "status", m.status);
            var h2 := SetNX(h1, k, "start_ms", PrintInt(m.startAt));
            var h3 := SetNX(h2, k, "end_ms", PrintInt(m.endAt));
            SetNX(h3, k, "per_user_limit", PrintInt(m.limit)) == if k in hs then hs else hs[k := PrintMeta(m)]
  {
    assert |"status"| == 6 && |"start_ms"| == 8 && |"end_ms"| == 6 && |"per_user_limit"| == 14;
    assert "status"[0] == 's' && "end_ms"[0] == 'e';
  }
}
