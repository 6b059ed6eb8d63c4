/** The token bucket rate limiter, over real time in seconds and real-valued tokens. */
module TokenBucket {

  datatype Bucket = Bucket(rate: real, burst: real, tokens: real, last: real)

  /** `New`: positive settings are kept, others are replaced by 1, and the bucket starts full. */
  function New(rate: real, burst: int, now: real): (b: Bucket)
    ensures Sound(b) && b.tokens == b.burst && b.last == now
    ensures if rate > 0.0 then b.rate == rate else b.rate == 1.0
    ensures if burst > 0 then b.burst == burst as real else b.burst == 1.0
  {
    var r := if rate <= 0.0 then 1.0 else rate;
    var k := if burst <= 0 then 1.0 else burst as real;
    Bucket(r, k, k, now)
  }

  predicate Sound(b: Bucket) {
    b.rate > 0.0 && b.burst >= 1.0 && 0.0 <= b.tokens <= b.burst
  }

  /** Tokens that flow in over `seconds`. */
  function Earned(rate: real, seconds: real): real { rate * seconds }

  lemma EarnedIs(rate: real, seconds: real)
    ensures Earned(rate, seconds) == rate * seconds
  {
  }

  lemma EarnedNonNegative(rate: real, seconds: real)
    requires rate >= 0.0 && seconds >= 0.0
    ensures Earned(rate, seconds) >= 0.0
  {
  }

  lemma EarnedInNoTime(rate: real)
    ensures Earned(rate, 0.0) == 0.0
  {
  }

  lemma EarnedAdds(rate: real, x: real, y: real)
    ensures Earned(rate, x + y) == Earned(rate, x) + Earned(rate, y)
  {
  }

  /** Tokens available to a call at `now`. */
  function Level(b: Bucket, now: real): real {
    var t := b.tokens + Earned(b.rate, now - b.last);
    if t > b.burst then b.burst else t
  }

  predicate Grants(b: Bucket, now: real) {
    Level(b, now) >= 1.0
  }

  /** The bucket after a call at `now`. */
  function Next(b: Bucket, now: real): Bucket {
    b.(tokens := Level(b, now) - One(Grants(b, now)), last := now)
  }

  function One(ok: bool): real { if ok then 1.0 else 0.0 }

  /******* Call histories *******/

  function After(b: Bucket, calls: seq<real>): Bucket {
    if calls == [] then b else Next(After(b, calls[..|calls| - 1]), calls[|calls| - 1])
  }

  /** Which of the calls are granted. */
  function Decisions(b: Bucket, calls: seq<real>): (d: seq<bool>)
    ensures |d| == |calls|
  {
    if calls == [] then []
    else
      var n := |calls| - 1;
      Decisions(b, calls[..n]) + [Grants(After(b, calls[..n]), calls[n])]
  }

  predicate Ordered(start: real, calls: seq<real>) {
    && (forall i, j :: 0 <= i <= j < |calls| ==> calls[i] <= calls[j])
    && (forall i :: 0 <= i < |calls| ==> start <= calls[i])
  }

  /** How many of the calls `i .. j-1` are granted. */
  function Count(d: seq<bool>, i: nat, j: nat): int
    requires i <= j <= |d|
  {
    if i == j then 0 else Count(d, i, j - 1) + (if d[j - 1] then 1 else 0)
  }

  /** That is the number of granted calls among them. */
  lemma {:induction false} CountIs(d: seq<bool>, i: nat, j: nat)
    requires i <= j <= |d|
    ensures Count(d, i, j) == |set k | i <= k < j && d[k]|
    decreases j
  {
    if i < j {
      CountIs(d, i, j - 1);
      var before, now := set k | i <= k < j - 1 && d[k], set k | i <= k < j && d[k];
      assert now == if d[j - 1] then before + {j - 1} else before;
    }
  }

  /** What a window from call `i` to time `t` has room for, given what it granted so far. */
  function Room(b: Bucket, calls: seq<real>, d: seq<bool>, i: nat, j: nat, t: real): real
    requires i <= j <= |d| && i < |calls|
  {
    b.burst + Earned(b.rate, t - calls[i]) - Count(d, i, j) as real
  }

  lemma {:induction false} CountSplit(d: seq<bool>, i: nat, k: nat, j: nat)
    requires i <= k <= j <= |d|
    ensures Count(d, i, j) == Count(d, i, k) + Count(d, k, j)
    decreases j
  {
    if k < j {
      CountSplit(d, i, k, j - 1);
    }
  }

  lemma {:induction false} DecisionsPrefix(b: Bucket, calls: seq<real>, n: nat)
    requires n <= |calls|
    ensures Decisions(b, calls[..n]) == Decisions(b, calls)[..n]
    decreases |calls| - n
  {
    if n < |calls| {
      DecisionsPrefix(b, calls, n + 1);
      var c := calls[..n + 1];
      assert c[..n] == calls[..n];
    } else {
      assert calls[..n] == calls;
    }
  }

  lemma DecisionAt(b: Bucket, calls: seq<real>, n: nat)
    requires n < |calls|
    ensures Decisions(b, calls)[n] == Grants(After(b, calls[..n]), calls[n])
    ensures After(b, calls[..n + 1]) == Next(After(b, calls[..n]), calls[n])
  {
    var c := calls[..n + 1];
    assert c[..n] == calls[..n];
    DecisionsPrefix(b, calls, n + 1);
    assert Decisions(b, c)[n] == Decisions(b, calls)[n];
  }

  /** Settings never change, the clock is that of the last call, and tokens stay within bounds. */
  lemma {:induction false} AfterIsSound(b: Bucket, calls: seq<real>)
    requires Sound(b) && Ordered(b.last, calls)
    ensures var a := After(b, calls);
            && Sound(a) && a.rate == b.rate && a.burst == b.burst
            && a.last == (if calls == [] then b.last else calls[|calls| - 1])
    decreases |calls|
  {
    hide Earned;
    if calls != [] {
      var n := |calls| - 1;
      AfterIsSound(b, calls[..n]);
      var a := After(b, calls[..n]);
      assert calls[..n] != [] ==> calls[..n][n - 1] == calls[n - 1];
      EarnedNonNegative(a.rate, calls[n] - a.last);
    }
  }

  /******* The level is the tightest window *******/

  /** `v` is the least room over all windows that end with call `j`. */
  ghost predicate LeastRoom(b: Bucket, calls: seq<real>, d: seq<bool>, j: nat, v: real)
    requires j < |calls| == |d|
  {
    && (forall i :: 0 <= i <= j ==> v <= Room(b, calls, d, i, j, calls[j]))
    && (exists i :: 0 <= i <= j && v == Room(b, calls, d, i, j, calls[j]))
  }

  lemma RoomStep(b: Bucket, calls: seq<real>, d: seq<bool>, i: nat, j: nat)
    requires i <= j && j + 1 < |calls| == |d|
    ensures Room(b, calls, d, i, j + 1, calls[j + 1])
         == Room(b, calls, d, i, j, calls[j]) - One(d[j]) + Earned(b.rate, calls[j + 1] - calls[j])
  {
    hide Earned;
    var x, y, z := calls[j + 1], calls[j], calls[i];
    assert x - z == (y - z) + (x - y);
    EarnedAdds(b.rate, y - z, x - y);
  }

  lemma FirstLevel(b: Bucket, calls: seq<real>, d: seq<bool>)
    requires Sound(b) && b.tokens == b.burst && calls != [] && |d| == |calls| && b.last <= calls[0]
    ensures LeastRoom(b, calls, d, 0, Level(b, calls[0]))
  {
    hide Earned;
    EarnedNonNegative(b.rate, calls[0] - b.last);
    EarnedInNoTime(b.rate);
    assert Room(b, calls, d, 0, 0, calls[0]) == b.burst;
  }

  /** A token bucket that starts full holds, at every call, exactly what the tightest window leaves. */
  lemma {:induction false} LevelIsLeastRoom(b: Bucket, calls: seq<real>, j: nat)
    requires Sound(b) && b.tokens == b.burst && Ordered(b.last, calls) && j < |calls|
    ensures LeastRoom(b, calls, Decisions(b, calls), j, Level(After(b, calls[..j]), calls[j]))
    decreases j
  {
    hide Earned;
    var d := Decisions(b, calls);
    if j == 0 {
      assert After(b, calls[..0]) == b;
      FirstLevel(b, calls, d);
    } else {
      var k := j - 1;
      LevelIsLeastRoom(b, calls, k);
      DecisionAt(b, calls, k);
      AfterIsSound(b, calls[..k]);
      LevelStep(b, calls, d, k, Level(After(b, calls[..k]), calls[k]), Level(After(b, calls[..j]), calls[j]));
    }
  }

  lemma LevelStep(b: Bucket, calls: seq<real>, d: seq<bool>, k: nat, v: real, v': real)
    requires Sound(b) && Ordered(b.last, calls) && k + 1 < |calls| == |d| && LeastRoom(b, calls, d, k, v)
    requires var t := v - One(d[k]) + Earned(b.rate, calls[k + 1] - calls[k]);
             v' == if t > b.burst then b.burst else t
    ensures LeastRoom(b, calls, d, k + 1, v')
  {
    hide Earned;
    var j := k + 1;
    EarnedInNoTime(b.rate);
    assert Room(b, calls, d, j, j, calls[j]) == b.burst;
    forall i | 0 <= i <= j
      ensures v' <= Room(b, calls, d, i, j, calls[j])
    {
      if i < j {
        RoomStep(b, calls, d, i, k);
        assert v <= Room(b, calls, d, i, k, calls[k]);
      }
    }
    var i :| 0 <= i <= k && v == Room(b, calls, d, i, k, calls[k]);
    RoomStep(b, calls, d, i, k);
    assert v' == Room(b, calls, d, i, j, calls[j]) || v' == Room(b, calls, d, j, j, calls[j]);
  }

  /******* What callers may rely on *******/

  /** Every window that call `j` would end has room for one more. */
  ghost predicate HasRoom(b: Bucket, calls: seq<real>, d: seq<bool>, j: nat)
    requires j < |calls| == |d|
  {
    forall i :: 0 <= i <= j ==> Room(b, calls, d, i, j, calls[j]) >= 1.0
  }

  lemma GrantedWhenRoom(b: Bucket, calls: seq<real>, j: nat)
    requires Sound(b) && b.tokens == b.burst && Ordered(b.last, calls) && j < |calls|
    ensures Decisions(b, calls)[j] <==> HasRoom(b, calls, Decisions(b, calls), j)
  {
    hide Earned;
    LevelIsLeastRoom(b, calls, j);
    DecisionAt(b, calls, j);
  }

  /** One more grant at call `j` keeps the window from call `i` within the burst plus the rate times its
      length. */
  predicate Fits(b: Bucket, calls: seq<real>, d: seq<bool>, i: nat, j: nat)
    requires i <= j < |calls| == |d|
  {
    (Count(d, i, j) + 1) as real <= b.burst + b.rate * (calls[j] - calls[i])
  }

  /** The window from call `i` up to and including call `j` is within that bound. */
  predicate Within(b: Bucket, calls: seq<real>, d: seq<bool>, i: nat, j: nat)
    requires i <= j < |calls| == |d|
  {
    Count(d, i, j + 1) as real <= b.burst + b.rate * (calls[j] - calls[i])
  }

  lemma FitsIs(b: Bucket, calls: seq<real>, d: seq<bool>, i: nat, j: nat)
    requires i <= j < |calls| == |d|
    ensures Fits(b, calls, d, i, j) <==> Room(b, calls, d, i, j, calls[j]) >= 1.0
  {
    hide Earned, Count;
    Rearranged(Count(d, i, j), 1, b.burst, b.rate, calls[j], calls[i]);
  }

  lemma WithinIs(b: Bucket, calls: seq<real>, d: seq<bool>, i: nat, j: nat)
    requires i <= j < |calls| == |d|
    ensures Within(b, calls, d, i, j) <==> Room(b, calls, d, i, j, calls[j]) >= One(d[j])
  {
    hide Earned, Count;
    var x := if d[j] then 1 else 0;
    CountNext(d, i, j);
    Rearranged(Count(d, i, j), x, b.burst, b.rate, calls[j], calls[i]);
    assert x as real == One(d[j]);
  }

  lemma CountNext(d: seq<bool>, i: nat, j: nat)
    requires i <= j < |d|
    ensures Count(d, i, j + 1) == Count(d, i, j) + (if d[j] then 1 else 0)
  {
  }

  lemma Rearranged(n: int, x: int, burst: real, rate: real, t1: real, t0: real)
    ensures (n + x) as real <= burst + rate * (t1 - t0) <==> burst + Earned(rate, t1 - t0) - n as real >= x as real
  {
    var p := rate * (t1 - t0);
    assert Earned(rate, t1 - t0) == p;
    Sides(n, x, burst, p);
  }

  lemma Sides(n: int, x: int, burst: real, p: real)
    ensures (n + x) as real <= burst + p <==> burst + p - n as real >= x as real
  {
  }

  /** A call is granted if and only if it fits into every window that it ends. */
  lemma GrantedExactlyWhenRoom(b: Bucket, calls: seq<real>, j: nat)
    requires Sound(b) && b.tokens == b.burst && Ordered(b.last, calls) && j < |calls|
    ensures var d := Decisions(b, calls); d[j] <==> forall i :: 0 <= i <= j ==> Fits(b, calls, d, i, j)
  {
    hide Earned, Room, Fits, Within;
    var d := Decisions(b, calls);
    GrantedWhenRoom(b, calls, j);
    forall i | 0 <= i <= j
      ensures Fits(b, calls, d, i, j) <==> Room(b, calls, d, i, j, calls[j]) >= 1.0
    {
      FitsIs(b, calls, d, i, j);
    }
  }

  /** The same with the bound written out: a granted call leaves every window within it, and a refused
      one would have broken it for some window. */
  lemma GrantedKeepsTheRate(b: Bucket, calls: seq<real>, i: nat, j: nat)
    requires Sound(b) && b.tokens == b.burst && Ordered(b.last, calls) && i <= j < |calls| && Decisions(b, calls)[j]
    ensures (Count(Decisions(b, calls), i, j) + 1) as real <= b.burst + b.rate * (calls[j] - calls[i])
  {
    hide Decisions, Ordered, Count;
    Granted(b, calls, i, j);
  }

  lemma Granted(b: Bucket, calls: seq<real>, i: nat, j: nat)
    requires Sound(b) && b.tokens == b.burst && Ordered(b.last, calls) && i <= j < |calls| && Decisions(b, calls)[j]
    ensures Fits(b, calls, Decisions(b, calls), i, j)
  {
    hide Fits;
    GrantedExactlyWhenRoom(b, calls, j);
  }

  lemma RefusedForTheRate(b: Bucket, calls: seq<real>, j: nat) returns (i: nat)
    requires Sound(b) && b.tokens == b.burst && Ordered(b.last, calls) && j < |calls| && !Decisions(b, calls)[j]
    ensures i <= j && (Count(Decisions(b, calls), i, j) + 1) as real > b.burst + b.rate * (calls[j] - calls[i])
  {
    hide Decisions, Ordered, Count;
    i := Refused(b, calls, j);
  }

  lemma Refused(b: Bucket, calls: seq<real>, j: nat) returns (i: nat)
    requires Sound(b) && b.tokens == b.burst && Ordered(b.last, calls) && j < |calls| && !Decisions(b, calls)[j]
    ensures i <= j && !Fits(b, calls, Decisions(b, calls), i, j)
  {
    hide Fits;
    GrantedExactlyWhenRoom(b, calls, j);
    i :| 0 <= i <= j && !Fits(b, calls, Decisions(b, calls), i, j);
  }

  lemma WindowRoom(b: Bucket, calls: seq<real>, i: nat, j: nat)
    requires Sound(b) && b.tokens == b.burst && Ordered(b.last, calls) && i <= j < |calls|
    ensures Room(b, calls, Decisions(b, calls), i, j, calls[j]) >= One(Decisions(b, calls)[j])
  {
    hide Earned;
    LevelIsLeastRoom(b, calls, j);
    GrantedWhenRoom(b, calls, j);
    LevelNonNegative(b, calls, j);
    assert Level(After(b, calls[..j]), calls[j]) <= Room(b, calls, Decisions(b, calls), i, j, calls[j]);
  }

  /** The grants of any window number at most the burst plus the rate times the window's length. */
  lemma WindowBound(b: Bucket, calls: seq<real>, i: nat, j: nat)
    requires Sound(b) && b.tokens == b.burst && Ordered(b.last, calls) && i <= j < |calls|
    ensures Count(Decisions(b, calls), i, j + 1) as real <= b.burst + b.rate * (calls[j] - calls[i])
  {
    hide Decisions, Ordered, Count;
    WindowWithin(b, calls, i, j);
  }

  lemma WindowWithin(b: Bucket, calls: seq<real>, i: nat, j: nat)
    requires Sound(b) && b.tokens == b.burst && Ordered(b.last, calls) && i <= j < |calls|
    ensures Within(b, calls, Decisions(b, calls), i, j)
  {
    hide Decisions, Ordered, Room, Fits, Within;
    WindowRoom(b, calls, i, j);
    WithinIs(b, calls, Decisions(b, calls), i, j);
  }

  lemma LevelNonNegative(b: Bucket, calls: seq<real>, j: nat)
    requires Sound(b) && Ordered(b.last, calls) && j < |calls|
    ensures Level(After(b, calls[..j]), calls[j]) >= 0.0
  {
    hide Earned;
    AfterIsSound(b, calls[..j]);
    var a := After(b, calls[..j]);
    EarnedNonNegative(a.rate, calls[j] - a.last);
  }

  /** No limiter that keeps the window bound grants more calls: at every point of the history the
      bucket has granted at least as many as any other policy. */
  lemma {:induction false} NoPolicyGrantsMore(b: Bucket, calls: seq<real>, other: seq<bool>, n: nat)
    requires Sound(b) && b.tokens == b.burst && Ordered(b.last, calls)
    requires |other| == |calls| && n <= |calls|
    requires forall i, j :: 0 <= i <= j < |calls| ==> Within(b, calls, other, i, j)
    ensures Count(other, 0, n) <= Count(Decisions(b, calls), 0, n)
    decreases n
  {
    hide Earned, Room, Within, Fits;
    if n > 0 {
      var d, j := Decisions(b, calls), n - 1;
      NoPolicyGrantsMore(b, calls, other, j);
      if other[j] && !d[j] {
        var i := Refused(b, calls, j);
        NoPolicyGrantsMore(b, calls, other, i);
        CountSplit(d, 0, i, j);
        CountSplit(other, 0, i, j);
        MoreThanFits(b, calls, d, other, i, j);
      }
    }
  }

  lemma MoreThanFits(b: Bucket, calls: seq<real>, d: seq<bool>, other: seq<bool>, i: nat, j: nat)
    requires i <= j < |calls| == |d| == |other|
    requires other[j] && !Fits(b, calls, d, i, j) && Within(b, calls, other, i, j)
    ensures Count(other, i, j) < Count(d, i, j)
  {
  }

  /** Of two calls on a bucket of size one, the second is granted exactly when a token has flowed in. */
  lemma SecondCall(rate: real, t0: real, t1: real)
    requires rate > 0.0 && t0 <= t1
    ensures Decisions(New(rate, 1, t0), [t0, t1]) == [true, rate * (t1 - t0) >= 1.0]
  {
    var b, calls := New(rate, 1, t0), [t0, t1];
    var d := Decisions(b, calls);
    assert calls[..1] == [t0] && calls[..0] == [];
    assert b.rate * (t0 - t0) == 0.0;
    assert b.rate * (t1 - t1) == 0.0;
    GrantedExactlyWhenRoom(b, calls, 0);
    assert Count(d, 0, 0) == 0 && Fits(b, calls, d, 0, 0);
    assert d[0];
    GrantedExactlyWhenRoom(b, calls, 1);
    assert Count(d, 0, 1) == 1 && Count(d, 1, 1) == 0 && Fits(b, calls, d, 1, 1);
    assert Fits(b, calls, d, 0, 1) <==> rate * (t1 - t0) >= 1.0;
  }

  /******* The limiter object *******/

  /** One more call, and all that is known about it. */
  lemma OneMoreCall(b: Bucket, calls: seq<real>, now: real)
    requires Sound(b) && b.tokens == b.burst && Ordered(b.last, calls) && now >= After(b, calls).last
    ensures var a, calls' := After(b, calls), calls + [now];
            && Sound(a) && a.rate == b.rate && a.burst == b.burst && Sound(Next(a, now))
            && Ordered(b.last, calls') && After(b, calls') == Next(a, now)
            && Decisions(b, calls') == Decisions(b, calls) + [Grants(a, now)]
  {
    hide Earned, Level;
    var calls' := calls + [now];
    AfterIsSound(b, calls);
    LateCall(b, calls, now);
    assert calls'[..|calls|] == calls;
    AfterIsSound(b, calls');
  }

  lemma LateCall(b: Bucket, calls: seq<real>, now: real)
    requires Ordered(b.last, calls) && now >= (if calls == [] then b.last else calls[|calls| - 1])
    ensures Ordered(b.last, calls + [now])
  {
  }

  /** `Allow` under its mutex. `start`, `calls` and `granted` are history kept for the contract. */
  class Limiter {
    const rate: real
    const burst: real
    var tokens: real
    var last: real
    ghost const start: Bucket
    ghost var calls: seq<real>
    ghost var granted: seq<bool>

    ghost predicate Valid()
      reads this
    {
      && Sound(start) && start.tokens == start.burst && Ordered(start.last, calls)
      && start.rate == rate && start.burst == burst
      && After(start, calls) == Bucket(rate, burst, tokens, last)
      && granted == Decisions(start, calls)
    }

    constructor (rate: real, burst: int, now: real)
      ensures Valid() && calls == [] && start == New(rate, burst, now)
      ensures rate > 0.0 ==> this.rate == rate
      ensures burst > 0 ==> this.burst == burst as real
    {
      this.rate := if rate <= 0.0 then 1.0 else rate;
      var size := if burst <= 0 then 1.0 else burst as real;
      this.burst := size;
      tokens := size;
      last := now;
      start := New(rate, burst, now);
      calls, granted := [], [];
    }

    /** Exact admission: granted if and only if the call fits into every window that it ends; so every
        window stays within the burst plus the rate times its length. */
    method Allow(now: real) returns (ok: bool)
      requires Valid() && now >= last
      modifies this
      ensures Valid() && calls == old(calls) + [now] && granted == old(granted) + [ok]
      ensures ok <==> forall i :: 0 <= i <= |old(calls)| ==> Fits(Settings(), calls, granted, i, |old(calls)|)
      ensures forall i, j :: 0 <= i <= j < |calls| ==> Within(Settings(), calls, granted, i, j)
      ensures 0.0 <= tokens <= burst
    {
      hide Decisions, After, Ordered, Fits, Within, Earned;
      OneMoreCall(start, calls, now);
      ghost var n := |calls|;
      calls := calls + [now];
      var elapsed := now - last;
      EarnedIs(rate, elapsed);
      last := now;
      tokens := tokens + elapsed * rate;
      if tokens > burst {
        tokens := burst;
      }
      if tokens < 1.0 {
        ok := false;
      } else {
        tokens := tokens - 1.0;
        ok := true;
      }
      granted := granted + [ok];
      Promise(n);
    }

    /** The configured rate and burst, as a full bucket. */
    ghost function Settings(): Bucket
      reads this
    {
      start.(rate := rate, burst := burst)
    }

    /** What the history of a valid limiter satisfies. */
    lemma Promise(n: nat)
      requires Valid() && n < |calls|
      ensures granted[n] <==> forall i :: 0 <= i <= n ==> Fits(Settings(), calls, granted, i, n)
      ensures forall i, j :: 0 <= i <= j < |calls| ==> Within(Settings(), calls, granted, i, j)
    {
      hide Fits, Within;
      assert Settings() == start;
      GrantedExactlyWhenRoom(start, calls, n);
      forall i, j | 0 <= i <= j < |calls|
        ensures Within(start, calls, granted, i, j)
      {
        WindowWithin(start, calls, i, j);
      }
    }
  }
}
