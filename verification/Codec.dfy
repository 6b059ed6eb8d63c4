/** Text forms used at the store boundaries: decimal ids, Redis key names, idempotency entry
    values and the outbox payload. */
module Codec {
  import opened Common

  const INT64_MIN: int := -0x8000_0000_0000_0000
  const INT64_MAX: int := 0x7fff_ffff_ffff_ffff

  predicate IsInt64(i: int) {
    INT64_MIN <= i <= INT64_MAX
  }

  /******* Decimal integers *******/

  function DigitChar(d: nat): (c: char)
    requires d < 10
    ensures '0' <= c <= '9'
  {
    '0' + d as char
  }

  predicate IsDigit(c: char) {
    '0' <= c <= '9'
  }

  /** Decimal digits of a non-negative number, most significant first. */
  function PrintNat(n: nat): (s: string)
    ensures s != []
    ensures forall i :: 0 <= i < |s| ==> IsDigit(s[i])
  {
    if n < 10 then [DigitChar(n)] else PrintNat(n / 10) + [DigitChar(n % 10)]
  }

  /** `strconv.FormatInt(i, 10)`. */
  function PrintInt(i: int): (s: string)
    ensures s != []
    ensures forall k :: 0 <= k < |s| ==> IsDigit(s[k]) || s[k] == '-'
  {
    if i < 0 then "-" + PrintNat(-i) else PrintNat(i)
  }

  function ParseNat(s: string): Option<nat> {
    if s == [] || !IsDigit(s[|s| - 1]) then None
    else
      var d := (s[|s| - 1] - '0') as nat;
      if |s| == 1 then Some(d)
      else
        match ParseNat(s[..|s| - 1])
        case None => None
        case Some(v) => Some(10 * v + d)
  }

  /** An optional sign, then digits. */
  function ReadInt(s: string): Option<int> {
    var negative := s != [] && s[0] == '-';
    var body := if s != [] && (s[0] == '-' || s[0] == '+') then s[1..] else s;
    match ParseNat(body)
    case None => None
    case Some(v) => Some(if negative then -(v as int) else v)
  }

  /** `strconv.ParseInt(s, 10, 64)`: the same with the 64-bit range check. */
  function ParseInt(s: string): Option<int> {
    match ReadInt(s)
    case None => None
    case Some(i) => if IsInt64(i) then Some(i) else None
  }

  lemma {:induction false} ParsePrintNat(n: nat)
    ensures ParseNat(PrintNat(n)) == Some(n)
  {
    if n >= 10 {
      ParsePrintNat(n / 10);
      var s := PrintNat(n);
      assert s[..|s| - 1] == PrintNat(n / 10);
    }
  }

  /** Printing an integer and reading it back gives the integer; parsing does for 64-bit ones. */
  lemma ParsePrintInt(i: int)
    ensures ReadInt(PrintInt(i)) == Some(i)
    ensures IsInt64(i) ==> ParseInt(PrintInt(i)) == Some(i)
  {
    if i < 0 {
      ParsePrintNat(-i);
      assert PrintInt(i)[1..] == PrintNat(-i);
    } else {
      ParsePrintNat(i);
      assert IsDigit(PrintInt(i)[0]);
    }
  }

  lemma PrintIntInjective(i: int, j: int)
    requires PrintInt(i) == PrintInt(j)
    ensures i == j
  {
    ParsePrintInt(i);
    ParsePrintInt(j);
  }

  /******* Redis key names *******/

  function CampaignKey(coupon: int, field: string): string {
    "quan:claim:campaign:" + (PrintInt(coupon) + ":" + field)
  }

  function CampaignStockKey(coupon: int): string { CampaignKey(coupon, "stock") }
  function CampaignMetaKey(coupon: int): string { CampaignKey(coupon, "meta") }
  function CampaignUserCountKey(coupon: int): string { CampaignKey(coupon, "user_count") }

  function IdemDecisionKey(coupon: int, user: int, idemKey: string): string {
    "quan:claim:coupon:" + (PrintInt(coupon) + ":" + ("user:" + (PrintInt(user) + ":" + ("idem:" + idemKey))))
  }

  lemma DropPrefix(p: string, a: string, b: string)
    requires p + a == p + b
    ensures a == b
  {
    assert (p + a)[|p|..] == a && (p + b)[|p|..] == b;
  }

  /** Two colon-free heads followed by a colon can be told apart. */
  lemma ColonSplits(a: string, x: string, b: string, y: string)
    requires ':' !in a && ':' !in b
    requires a + ":" + x == b + ":" + y
    ensures a == b && x == y
  {
    var s := a + ":" + x;
    assert s[|a|] == ':' && s[|b|] == ':';
    assert forall i :: 0 <= i < |a| ==> s[i] == a[i];
    assert forall i :: 0 <= i < |b| ==> s[i] == b[i];
    assert a == s[..|a|] == b;
    assert x == s[|a| + 1..] == y;
  }

  lemma PrintIntHasNoColon(i: int)
    ensures ':' !in PrintInt(i)
  {
  }

  /** Distinct (coupon, user, idempotency key) triples never share a Redis key, whatever characters
      the client put into its idempotency key. */
  lemma IdemDecisionKeyInjective(c: int, u: int, k: string, c': int, u': int, k': string)
    requires IdemDecisionKey(c, u, k) == IdemDecisionKey(c', u', k')
    ensures c == c' && u == u' && k == k'
  {
    PrintIntHasNoColon(c);
    PrintIntHasNoColon(c');
    PrintIntHasNoColon(u);
    PrintIntHasNoColon(u');
    var rest, rest' := PrintInt(u) + ":" + ("idem:" + k), PrintInt(u') + ":" + ("idem:" + k');
    DropPrefix("quan:claim:coupon:", PrintInt(c) + ":" + ("user:" + rest), PrintInt(c') + ":" + ("user:" + rest'));
    ColonSplits(PrintInt(c), "user:" + rest, PrintInt(c'), "user:" + rest');
    DropPrefix("user:", rest, rest');
    ColonSplits(PrintInt(u), "idem:" + k, PrintInt(u'), "idem:" + k');
    DropPrefix("idem:", k, k');
    PrintIntInjective(c, c');
    PrintIntInjective(u, u');
  }

  /** A campaign key determines both its coupon and which of the three campaign keys it is. */
  lemma CampaignKeyInjective(c: int, f: string, c': int, f': string)
    requires CampaignKey(c, f) == CampaignKey(c', f')
    ensures c == c' && f == f'
  {
    PrintIntHasNoColon(c);
    PrintIntHasNoColon(c');
    DropPrefix("quan:claim:campaign:", PrintInt(c) + ":" + f, PrintInt(c') + ":" + f');
    ColonSplits(PrintInt(c), f, PrintInt(c'), f');
    PrintIntInjective(c, c');
  }

  /** No idempotency entry, even one with a hostile client key, can collide with a campaign key. */
  lemma IdemKeyIsNoCampaignKey(c: int, u: int, k: string, c': int, f: string)
    ensures IdemDecisionKey(c, u, k) != CampaignKey(c', f)
  {
    assert IdemDecisionKey(c, u, k)[12] == 'o';
    assert CampaignKey(c', f)[12] == 'a';
  }

  /******* Idempotency entry values *******/

  datatype Entry = Pending(rid: string) | Success(claimId: int)

  function PrintEntry(e: Entry): string {
    match e
    case Pending(rid) => "PENDING:" + rid
    case Success(id) => "SUCCESS:" + PrintInt(id)
  }

  /** The readers of an entry look at its first eight characters and parse what follows. */
  function ParseEntry(s: string): Option<Entry> {
    if |s| < 8 then None
    else if s[..8] == "SUCCESS:" then
      match ParseInt(s[8..])
      case None => None
      case Some(id) => Some(Success(id))
    else if s[..8] == "PENDING:" then Some(Pending(s[8..]))
    else None
  }

  lemma ParsePrintEntry(e: Entry)
    requires e.Success? ==> IsInt64(e.claimId)
    ensures ParseEntry(PrintEntry(e)) == Some(e)
  {
    var s := PrintEntry(e);
    match e
    case Pending(rid) =>
      assert s[..8] == "PENDING:" && s[8..] == rid;
    case Success(id) =>
      ParsePrintInt(id);
      assert s[..8] == "SUCCESS:" && s[8..] == PrintInt(id);
  }

  /******* Outbox payload *******/

  /** The payload object with the blanks `w` after its colon. */
  function SpacedTaskCreated(w: string, id: int): string {
    "{" + ("\"task_id\"" + (":" + (w + (PrintInt(id) + "}"))))
  }

  /** `json.Marshal(TaskCreatedPayload{TaskID: id})`. */
  function MarshalTaskCreated(id: int): string {
    SpacedTaskCreated("", id)
  }

  /** The text a MySQL JSON column gives back for that payload: one space after the colon. */
  function StoredTaskCreated(id: int): string {
    SpacedTaskCreated(" ", id)
  }

  predicate IsJsonSpace(c: char) {
    c == ' ' || c == '\t' || c == '\n' || c == '\r'
  }

  function SkipSpace(s: string): (r: string)
    ensures |r| <= |s|
  {
    if s != [] && IsJsonSpace(s[0]) then SkipSpace(s[1..]) else s
  }

  /** Skips blanks, then requires and drops `token`. */
  function Expect(s: string, token: string): Option<string> {
    var t := SkipSpace(s);
    if |token| <= |t| && t[..|token|] == token then Some(t[|token|..]) else None
  }

  predicate IsNumberChar(c: char) {
    IsDigit(c) || c == '-'
  }

  function NumberSpan(s: string): (n: nat)
    ensures n <= |s|
  {
    if s != [] && IsNumberChar(s[0]) then 1 + NumberSpan(s[1..]) else 0
  }

  /** `json.Unmarshal` of an object whose only member is an integral `task_id`. */
  function ParseTaskCreated(s: string): Option<int> {
    var a := Expect(s, "{");
    if a.None? then None else
    var b := Expect(a.value, "\"task_id\"");
    if b.None? then None else
    var c := Expect(b.value, ":");
    if c.None? then None else
    var t := SkipSpace(c.value);
    var n := NumberSpan(t);
    var id := ParseInt(t[..n]);
    if id.None? || PrintInt(id.value) != t[..n] then None else
    var d := Expect(t[n..], "}");
    if d.None? || SkipSpace(d.value) != [] then None else id
  }

  lemma {:induction false} SkipsBlanks(w: string, s: string)
    requires forall i :: 0 <= i < |w| ==> IsJsonSpace(w[i])
    requires s == [] || !IsJsonSpace(s[0])
    ensures SkipSpace(w + s) == s
  {
    if w != [] {
      SkipsBlanks(w[1..], s);
      assert (w + s)[1..] == w[1..] + s;
    } else {
      assert w + s == s;
    }
  }

  lemma ExpectsToken(w: string, token: string, rest: string)
    requires forall i :: 0 <= i < |w| ==> IsJsonSpace(w[i])
    requires token != [] && !IsJsonSpace(token[0])
    ensures Expect(w + (token + rest), token) == Some(rest)
  {
    SkipsBlanks(w, token + rest);
    assert (token + rest)[..|token|] == token && (token + rest)[|token|..] == rest;
  }

  lemma {:induction false} SpansNumber(n: string, rest: string)
    requires forall i :: 0 <= i < |n| ==> IsNumberChar(n[i])
    requires rest == [] || !IsNumberChar(rest[0])
    ensures NumberSpan(n + rest) == |n|
  {
    if n != [] {
      SpansNumber(n[1..], rest);
      assert (n + rest)[1..] == n[1..] + rest;
    } else {
      assert n + rest == rest;
    }
  }

  /** Whatever blanks a JSON column puts after the colon, the payload decodes to the task id. */
  lemma ParseSpacedTaskCreated(w: string, id: int)
    requires forall i :: 0 <= i < |w| ==> IsJsonSpace(w[i])
    requires IsInt64(id)
    ensures ParseTaskCreated(SpacedTaskCreated(w, id)) == Some(id)
  {
    var num := PrintInt(id);
    var d := num + "}";
    var c := ":" + (w + d);
    var b := "\"task_id\"" + c;
    ExpectsToken("", "{", b);
    assert "" + ("{" + b) == "{" + b;
    ExpectsToken("", "\"task_id\"", c);
    assert "" + b == b;
    ExpectsToken("", ":", w + d);
    assert "" + c == c;
    SkipsBlanks(w, d);
    SpansNumber(num, "}");
    assert d[..|num|] == num && d[|num|..] == "}";
    ParsePrintInt(id);
    ExpectsToken("", "}", "");
    assert "" + ("}" + "") == "}";
  }

  /** Payload round trip, directly and through the JSON column. */
  lemma ParseMarshalTaskCreated(id: int)
    requires IsInt64(id)
    ensures ParseTaskCreated(MarshalTaskCreated(id)) == Some(id)
    ensures ParseTaskCreated(StoredTaskCreated(id)) == Some(id)
  {
    ParseSpacedTaskCreated("", id);
    ParseSpacedTaskCreated(" ", id);
  }

  /** `fmt.Sprintf("claim:%d", id)`, the business id of a claim's task. */
  function ClaimBizId(id: int): string {
    "claim:" + PrintInt(id)
  }

  lemma ClaimBizIdInjective(i: int, j: int)
    requires ClaimBizId(i) == ClaimBizId(j)
    ensures i == j
  {
    DropPrefix("claim:", PrintInt(i), PrintInt(j));
    PrintIntInjective(i, j);
  }

  /******* Spelled out *******/

  /** Decimal notation: one more digit is appended on the right. */
  lemma PrintsDecimal(n: nat, d: nat)
    requires d < 10
    ensures PrintInt(d) == [['0', '1', '2', '3', '4', '5', '6', '7', '8', '9'][d]]
    ensures n > 0 ==> PrintInt(10 * n + d) == PrintInt(n) + PrintInt(d) && PrintInt(-(n as int)) == ['-'] + PrintInt(n)
  {
    assert (10 * n + d) / 10 == n && (10 * n + d) % 10 == d;
  }

  lemma TwelveAndSeven()
    ensures PrintInt(12) == "12" && PrintInt(7) == "7"
  {
    PrintsDecimal(1, 2);
    PrintsDecimal(0, 7);
    PrintsDecimal(0, 1);
  }

  /** The Redis keys of coupon 12, user 7 and client key "k". */
  lemma KeysSpelledOut()
    ensures CampaignStockKey(12) == "quan:claim:campaign:12:stock" && CampaignMetaKey(12) == "quan:claim:campaign:12:meta"
    ensures CampaignUserCountKey(12) == "quan:claim:campaign:12:user_count"
    ensures IdemDecisionKey(12, 7, "k") == "quan:claim:coupon:12:user:7:idem:k"
  {
    hide PrintInt;
    TwelveAndSeven();
  }

  /** The values stored for reservation "r", claim 12 and task 12. */
  lemma ValuesSpelledOut()
    ensures PrintEntry(Pending("r")) == "PENDING:r" && PrintEntry(Success(12)) == "SUCCESS:12"
    ensures MarshalTaskCreated(12) == "{\"task_id\":12}" && StoredTaskCreated(12) == "{\"task_id\": 12}"
    ensures ClaimBizId(12) == "claim:12"
  {
    hide PrintInt;
    TwelveAndSeven();
  }
}
