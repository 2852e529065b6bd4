/** The token bucket of internal/irc/ratelimit.go. Times and durations are integers; the clock is
    monotonic and its readings are arguments. */
module RateLimiter {

  datatype Bucket = Bucket(tokens: int, lastAdd: int, maxBurst: int, interval: int) {
    predicate Valid() {
      maxBurst > 0 && interval > 0 && 0 <= tokens <= maxBurst
    }
  }

  function Refilled(b: Bucket, now: int): Bucket
    requires b.interval > 0
  {
    var elapsed := now - b.lastAdd;
    if elapsed >= b.interval then
      var tokens := b.tokens + elapsed / b.interval;
      b.(tokens := if tokens > b.maxBurst then b.maxBurst else tokens, lastAdd := now)
    else b
  }

  predicate Grants(b: Bucket, now: int)
    requires b.interval > 0
  {
    Refilled(b, now).tokens > 0
  }

  /** One round of Wait's loop: refill, and take a token if there is one. */
  function Tried(b: Bucket, now: int): Bucket
    requires b.interval > 0
  {
    var r := Refilled(b, now);
    if r.tokens > 0 then r.(tokens := r.tokens - 1) else r
  }

  /** How long a round without success sleeps, after reading the clock again. */
  function Sleep(b: Bucket, reading: int): int {
    var wait := b.interval - (reading - b.lastAdd);
    if wait < 0 then 0 else wait
  }

  /** Rounds at the given times, by whatever callers. */
  function TriedAt(b: Bucket, times: seq<int>): (r: Bucket)
    requires b.interval > 0
    ensures r.interval == b.interval && r.maxBurst == b.maxBurst
    decreases |times|
  {
    if times == [] then b else TriedAt(Tried(b, times[0]), times[1..])
  }

  /** The sleep is exactly what the next token needs, as long as nobody else comes first: an attempt
      after it succeeds, and every attempt before the token is due fails. */
  lemma SleepIsExact(b: Bucket, now: int, reading: int, next: int)
    requires b.Valid() && b.lastAdd <= now <= reading <= next && !Grants(b, now)
    ensures var r := Tried(b, now);
            && (next >= reading + Sleep(r, reading) ==> Grants(r, next))
            && (Grants(r, next) <==> next >= r.lastAdd + r.interval)
  {
    var r := Tried(b, now);
    assert r.tokens == 0;
    if next - r.lastAdd >= r.interval {
      QuotientPositive(next - r.lastAdd, r.interval);
    }
  }

  lemma Cancel(i: int, x: int, y: int)
    requires i > 0 && i * x < i * y
    ensures x < y
  {
  }

  lemma QuotientLeast(a: int, q: int, i: int)
    requires i > 0 && i * q <= a
    ensures q <= a / i
  {
    assert a == i * (a / i) + a % i;
    assert i * (a / i + 1) == i * (a / i) + i;
    Cancel(i, q, a / i + 1);
  }

  lemma QuotientPositive(a: int, i: int)
    requires 0 < i <= a
    ensures a / i >= 1
  {
    QuotientLeast(a, 1, i);
  }

  class Limiter {
    var tokens: int
    var lastAdd: int
    var maxBurst: int
    var interval: int

    ghost function View(): Bucket
      reads this
    {
      Bucket(tokens, lastAdd, maxBurst, interval)
    }

    ghost predicate Valid()
      reads this
    {
      View().Valid()
    }

    /** NewRateLimiter; a window shorter than one tick per token would give a zero interval. */
    constructor (burst: int, window: int, now: int)
      requires burst > 0 && window >= burst
      ensures Valid() && View() == Bucket(burst, now, burst, window / burst)
    {
      QuotientPositive(window, burst);
      tokens, maxBurst, interval, lastAdd := burst, burst, window / burst, now;
    }

    method Refill(now: int)
      requires Valid() && lastAdd <= now
      modifies this`tokens, this`lastAdd
      ensures Valid() && View() == Refilled(old(View()), now)
    {
      var elapsed := now - lastAdd;
      if elapsed >= interval {
        QuotientPositive(elapsed, interval);
        var newTokens := elapsed / interval;
        tokens := tokens + newTokens;
        if tokens > maxBurst {
          tokens := maxBurst;
        }
        lastAdd := now;
      }
    }

    /** Wait, given the clock as its rounds read it. It returns in the first round that finds a
        token; `rounds` tells how many it took. */
    method Wait(clock: seq<int>) returns (granted: bool, rounds: nat)
      requires Valid() && (forall k :: 0 <= k < |clock| ==> lastAdd <= clock[k]) && Rising(clock)
      modifies this`tokens, this`lastAdd
      ensures Valid() && rounds <= |clock|
      ensures View() == TriedAt(old(View()), clock[..rounds])
      ensures granted <==> rounds > 0 && Grants(TriedAt(old(View()), clock[..rounds - 1]), clock[rounds - 1])
      ensures !granted ==> rounds == |clock|
      ensures forall k :: 0 <= k < rounds - 1 ==> !Grants(TriedAt(old(View()), clock[..k]), clock[k])
    {
      rounds := 0;
      granted := false;
      while rounds < |clock|
        invariant rounds <= |clock| && !granted
        invariant Valid() && maxBurst == old(maxBurst) && interval == old(interval)
        invariant View() == TriedAt(old(View()), clock[..rounds])
        invariant forall k :: rounds <= k < |clock| ==> lastAdd <= clock[k]
        invariant forall k :: 0 <= k < rounds ==> !Grants(TriedAt(old(View()), clock[..k]), clock[k])
      {
        var now := clock[rounds];
        TriedAtLast(old(View()), clock, rounds);
        Refill(now);
        rounds := rounds + 1;
        if tokens > 0 {
          tokens := tokens - 1;
          return true, rounds;
        }
      }
    }
  }

  predicate Rising(times: seq<int>) {
    forall j, k :: 0 <= j < k < |times| ==> times[j] <= times[k]
  }

  lemma {:induction false} TriedAtLast(b: Bucket, times: seq<int>, n: nat)
    requires n < |times| && b.interval > 0
    ensures TriedAt(b, times[..n + 1]) == Tried(TriedAt(b, times[..n]), times[n])
    decreases n
  {
    if n == 0 {
      assert times[..1] == [times[0]] && times[..1][1..] == [] && times[..0] == [];
    } else {
      TriedAtLast(Tried(b, times[0]), times[1..], n - 1);
      assert times[..n + 1][1..] == times[1..][..n] && times[..n][1..] == times[1..][..n - 1];
    }
  }

  // ---------------------------------------------------------------- the window bound

  /** The bucket with its history: when tokens were granted, oldest first. */
  datatype History = History(bucket: Bucket, now: int, grants: seq<int>)

  function Attempt(h: History, time: int): History
    requires h.bucket.interval > 0
  {
    History(Tried(h.bucket, time), time, if Grants(h.bucket, time) then h.grants + [time] else h.grants)
  }

  /** How many of `times` lie between `s` and `t`. */
  function CountIn(times: seq<int>, s: int, t: int): nat {
    if times == [] then 0
    else CountIn(times[..|times| - 1], s, t) + (if s <= times[|times| - 1] <= t then 1 else 0)
  }

  lemma CountMore(times: seq<int>, x: int, s: int, t: int)
    ensures CountIn(times + [x], s, t) == CountIn(times, s, t) + (if s <= x <= t then 1 else 0)
  {
    assert (times + [x])[..|times|] == times;
  }

  lemma {:induction false} CountUntil(times: seq<int>, s: int, t: int, now: int)
    requires t <= now && forall k :: 0 <= k < |times| ==> times[k] <= t
    ensures CountIn(times, s, t) == CountIn(times, s, now)
    decreases |times|
  {
    if times != [] {
      CountUntil(times[..|times| - 1], s, t, now);
    }
  }

  function Bound(b: Bucket, length: int): int
    requires b.interval > 0
  {
    b.maxBurst + length / b.interval + 1
  }

  /** What the bucket can still give is paid for: tokens held plus tokens granted since `s`. */
  predicate Account(h: History, s: int)
    requires h.bucket.interval > 0
  {
    var b := h.bucket;
    var spent := CountIn(h.grants, s, h.now);
    && (b.lastAdd >= s ==> spent + b.tokens <= Bound(b, b.lastAdd - s))
    && (b.lastAdd < s ==> spent + b.tokens <= b.maxBurst)
    && (b.lastAdd < s && spent > 0 ==> s < b.lastAdd + b.interval)
  }

  predicate Windowed(h: History, s: int, t: int)
    requires h.bucket.interval > 0
  {
    s <= t ==> CountIn(h.grants, s, t) <= Bound(h.bucket, t - s)
  }

  ghost predicate Inv(h: History) {
    && h.bucket.Valid()
    && h.bucket.lastAdd <= h.now
    && (forall k :: 0 <= k < |h.grants| ==> h.grants[k] <= h.now)
    && (forall s :: Account(h, s))
    && (forall s, t :: Windowed(h, s, t))
  }

  lemma QuotientIs(a: int, q: int, r: int, i: int)
    requires i > 0 && a == i * q + r && 0 <= r < i
    ensures a / i == q
  {
    QuotientLeast(a, q, i);
    assert a == i * (a / i) + a % i;
    assert i * (q + 1) == i * q + i;
    Cancel(i, a / i, q + 1);
  }

  /** Rounding down a sum. */
  lemma QuotientSum(a: int, c: int, i: int)
    requires a >= 0 && c >= 0 && i > 0
    ensures a / i + c / i <= (a + c) / i
  {
    assert a == i * (a / i) + a % i && c == i * (c / i) + c % i && a + c == i * ((a + c) / i) + (a + c) % i;
    assert a + c == i * (a / i + c / i) + (a % i + c % i);
    QuotientLeast(a + c, a / i + c / i, i);
  }

  lemma QuotientGrows(a: int, c: int, i: int)
    requires 0 <= a <= c && i > 0
    ensures 0 <= a / i <= c / i
  {
    QuotientSum(a, c - a, i);
  }

  /** A longer stretch by less than one interval holds at most one more token. */
  lemma QuotientStretch(a: int, c: int, i: int)
    requires 0 <= a && 0 <= c < a + i && i > 0
    ensures c / i <= a / i + 1
  {
    QuotientGrows(c, a + i, i);
    assert a == i * (a / i) + a % i;
    QuotientIs(a + i, a / i + 1, a % i, i);
  }

  lemma AccountRefill(b: Bucket, time: int, s: int, spent: nat)
    requires b.Valid() && b.lastAdd <= time
    requires b.lastAdd >= s ==> spent + b.tokens <= Bound(b, b.lastAdd - s)
    requires b.lastAdd < s ==> spent + b.tokens <= b.maxBurst
    requires b.lastAdd < s && spent > 0 ==> s < b.lastAdd + b.interval
    ensures var r := Refilled(b, time);
            && (r.lastAdd >= s ==> spent + r.tokens <= Bound(b, r.lastAdd - s))
            && (r.lastAdd < s ==> spent + r.tokens <= r.maxBurst)
            && (r.lastAdd < s && spent > 0 ==> s < r.lastAdd + r.interval)
  {
    var elapsed := time - b.lastAdd;
    if elapsed >= b.interval && time >= s {
      QuotientGrows(0, elapsed, b.interval);
      QuotientGrows(0, time - s, b.interval);
      if b.lastAdd >= s {
        QuotientSum(b.lastAdd - s, elapsed, b.interval);
      } else if spent > 0 {
        QuotientStretch(time - s, elapsed, b.interval);
      }
    }
  }

  lemma AttemptAccount(h: History, time: int, s: int)
    requires Inv(h) && h.now <= time
    ensures Account(Attempt(h, time), s)
  {
    var b := h.bucket;
    var r := Refilled(b, time);
    assert Account(h, s);
    CountUntil(h.grants, s, h.now, time);
    var spent := CountIn(h.grants, s, h.now);
    AccountRefill(b, time, s, spent);
    hide Inv;
    CountMore(h.grants, time, s, time);
  }

  lemma AttemptWindow(h: History, time: int, s: int, t: int)
    requires Inv(h) && h.now <= time
    ensures Windowed(Attempt(h, time), s, t)
  {
    assert Windowed(h, s, t);
    if Grants(h.bucket, time) && s <= time <= t {
      var a := Attempt(h, time);
      AttemptAccount(h, time, s);
      AttemptKeeps(h, time);
      hide Inv;
      CountUntil(a.grants, s, time, t);
      if a.bucket.lastAdd >= s {
        QuotientGrows(a.bucket.lastAdd - s, t - s, a.bucket.interval);
      } else {
        QuotientGrows(0, t - s, a.bucket.interval);
      }
    } else {
      CountMore(h.grants, time, s, t);
    }
  }

  lemma AttemptKeeps(h: History, time: int)
    requires h.bucket.Valid() && h.bucket.lastAdd <= h.now <= time && (forall k :: 0 <= k < |h.grants| ==> h.grants[k] <= h.now)
    ensures var a := Attempt(h, time);
            && a.bucket.Valid() && a.bucket.lastAdd <= a.now
            && a.bucket.maxBurst == h.bucket.maxBurst && a.bucket.interval == h.bucket.interval
            && forall k :: 0 <= k < |a.grants| ==> a.grants[k] <= a.now
  {
    if time - h.bucket.lastAdd >= h.bucket.interval {
      QuotientPositive(time - h.bucket.lastAdd, h.bucket.interval);
    }
  }

  lemma AttemptInv(h: History, time: int)
    requires Inv(h) && h.now <= time
    ensures Inv(Attempt(h, time))
  {
    AttemptKeeps(h, time);
    forall s ensures Account(Attempt(h, time), s) {
      AttemptAccount(h, time, s);
    }
    forall s, t ensures Windowed(Attempt(h, time), s, t) {
      AttemptWindow(h, time, s, t);
    }
  }

  function Attempts(h: History, times: seq<int>): History
    requires h.bucket.interval > 0
    decreases |times|
  {
    if times == [] then h else Attempts(Attempt(h, times[0]), times[1..])
  }

  lemma {:induction false} AttemptsInv(h: History, times: seq<int>)
    requires Inv(h) && Rising(times) && forall k :: 0 <= k < |times| ==> h.now <= times[k]
    ensures Inv(Attempts(h, times))
    ensures Attempts(h, times).bucket.maxBurst == h.bucket.maxBurst && Attempts(h, times).bucket.interval == h.bucket.interval
    decreases |times|
  {
    if times != [] {
      AttemptInv(h, times[0]);
      AttemptKeeps(h, times[0]);
      hide Inv, Attempt;
      AttemptsInv(Attempt(h, times[0]), times[1..]);
    }
  }

  function New(burst: int, window: int, now: int): History
    requires burst > 0
  {
    History(Bucket(burst, now, burst, window / burst), now, [])
  }

  lemma NewInv(burst: int, window: int, now: int)
    requires burst > 0 && window >= burst
    ensures Inv(New(burst, window, now))
  {
    var h := New(burst, window, now);
    QuotientPositive(window, burst);
    forall s ensures Account(h, s) {
      if now >= s {
        QuotientGrows(0, now - s, h.bucket.interval);
      }
    }
    forall s, t ensures Windowed(h, s, t) {
      if s <= t {
        QuotientGrows(0, t - s, h.bucket.interval);
      }
    }
  }

  /** Whatever callers come at whatever times, no window from `s` to `t` sees more grants than the
      burst, the intervals it holds, and one; the bucket stays between empty and full. */
  lemma WindowBound(burst: int, window: int, now: int, times: seq<int>, s: int, t: int)
    requires burst > 0 && window >= burst && s <= t
    requires Rising(times) && forall k :: 0 <= k < |times| ==> now <= times[k]
    ensures var h := Attempts(New(burst, window, now), times);
            && 0 <= h.bucket.tokens <= burst
            && window / burst > 0
            && CountIn(h.grants, s, t) <= burst + (t - s) / (window / burst) + 1
  {
    NewInv(burst, window, now);
    AttemptsInv(New(burst, window, now), times);
    assert Windowed(Attempts(New(burst, window, now), times), s, t);
  }

  /** The one extra grant does occur: a bucket of one token per four ticks, asked at ticks three and
      four, grants both, within a window of length one. */
  lemma WindowBoundTight()
    ensures CountIn(Attempts(New(1, 4, 0), [3, 4]).grants, 3, 4) == 2 == 1 + (4 - 3) / (4 / 1) + 1
  {
    var h := New(1, 4, 0);
    var one := Attempt(h, 3);
    assert [3, 4][1..] == [4] && [4][1..] == [];
    assert Attempts(h, [3, 4]) == Attempts(one, [4]) == Attempts(Attempt(one, 4), []) == Attempt(one, 4);
    assert Attempt(one, 4).grants == [3] + [4];
    CountMore([3], 4, 3, 4);
    CountMore([], 3, 3, 4);
    assert [] + [3] == [3];
  }

  // ---------------------------------------------------------------- what a gap is worth

  /** `n` attempts at one time. */
  function Copies(time: int, n: nat): seq<int> {
    seq(n, _ => time)
  }

  /** Tokens at `now`: those left, and one for every full interval since they were last added, up to the
      burst. */
  function Stock(b: Bucket, now: int): int
    requires b.interval > 0
  {
    var all := b.tokens + (now - b.lastAdd) / b.interval;
    if all < b.maxBurst then all else b.maxBurst
  }

  lemma QuotientZero(a: int, i: int)
    requires 0 <= a < i
    ensures a / i == 0
  {
    QuotientIs(a, 0, a, i);
  }

  lemma StockTried(b: Bucket, now: int)
    requires b.Valid() && b.lastAdd <= now
    ensures var r := Tried(b, now);
            && r.Valid() && r.lastAdd <= now
            && (Grants(b, now) <==> Stock(b, now) > 0)
            && Stock(r, now) == (if Stock(b, now) > 0 then Stock(b, now) - 1 else 0)
  {
    var d := now - b.lastAdd;
    if d >= b.interval {
      QuotientPositive(d, b.interval);
    } else {
      QuotientZero(d, b.interval);
    }
    QuotientZero(0, b.interval);
  }

  lemma {:induction false} StockAfter(b: Bucket, now: int, n: nat)
    requires b.Valid() && b.lastAdd <= now
    ensures var r := TriedAt(b, Copies(now, n));
            && r.Valid() && r.lastAdd <= now
            && Stock(r, now) == (if Stock(b, now) > n then Stock(b, now) - n else 0)
    decreases n
  {
    StockTried(b, now);
    if n == 0 {
      QuotientGrows(0, now - b.lastAdd, b.interval);
    } else {
      StockAfter(b, now, n - 1);
      StockTried(TriedAt(b, Copies(now, n - 1)), now);
      TriedAtLast(b, Copies(now, n), n - 1);
      assert Copies(now, n)[..n] == Copies(now, n) && Copies(now, n)[..n - 1] == Copies(now, n - 1);
    }
  }

  /** However long nobody came: of any number of attempts at one time exactly as many succeed, the first
      ones, as tokens were left or came due since, at most the burst. */
  lemma GapIsWorth(b: Bucket, now: int, k: nat)
    requires b.Valid() && b.lastAdd <= now
    ensures var worth := b.tokens + (now - b.lastAdd) / b.interval;
            Grants(TriedAt(b, Copies(now, k)), now) <==> k < b.maxBurst && k < worth
  {
    StockAfter(b, now, k);
    StockTried(TriedAt(b, Copies(now, k)), now);
  }

  /** A bucket left alone for burst intervals grants a full burst at once, and no more. */
  lemma IdleMeansFullBurst(b: Bucket, now: int, k: nat)
    requires b.Valid() && now - b.lastAdd >= b.interval * b.maxBurst
    ensures Grants(TriedAt(b, Copies(now, k)), now) <==> k < b.maxBurst
  {
    assert b.interval * b.maxBurst >= 0;
    QuotientLeast(now - b.lastAdd, b.maxBurst, b.interval);
    GapIsWorth(b, now, k);
  }

  /** The recorded grants are the attempts that succeeded: at one time as many as the stock. */
  lemma {:induction false} GrantsCounted(h: History, now: int, n: nat)
    requires h.bucket.Valid() && h.bucket.lastAdd <= now
    ensures var g := Attempts(h, Copies(now, n)).grants;
            && |g| == |h.grants| + (if Stock(h.bucket, now) < n then Stock(h.bucket, now) else n)
            && g[..|h.grants|] == h.grants
            && forall k :: |h.grants| <= k < |g| ==> g[k] == now
    decreases n
  {
    StockTried(h.bucket, now);
    QuotientGrows(0, now - h.bucket.lastAdd, h.bucket.interval);
    if n > 0 {
      assert Copies(now, n)[1..] == Copies(now, n - 1);
      GrantsCounted(Attempt(h, now), now, n - 1);
      var g, a := Attempts(h, Copies(now, n)).grants, Attempt(h, now).grants;
      assert g[..|a|] == a && g[..|h.grants|] == a[..|h.grants|];
    }
  }
}
