/** The fixed-window counter in front of the public lead form: `apps/web/src/lib/rate-limit.ts`. */
module RateLimiter {

  datatype Rule = Rule(limit: int, windowMs: int) {
    /** A first hit always opens a bucket, so a limit below one still lets one hit through. */
    function Budget(): (b: int)
      ensures b >= 1
    { if limit < 1 then 1 else limit }
  }

  datatype Bucket = Bucket(count: int, resetAt: int)

  /** What one key holds: nothing, or a bucket. */
  datatype Slot = Free | Held(bucket: Bucket) {
    predicate Live(now: int) { Held? && bucket.resetAt > now }
  }

  type Buckets = map<string, Bucket>

  const SWEEP_AT := 1000

  // ---------------------------------------------------------------- one key, no garbage collection

  datatype Answer = Answer(slot: Slot, allowed: bool)

  function Hit(rule: Rule, slot: Slot, now: int): Answer {
    if !slot.Live(now) then Answer(Held(Bucket(1, now + rule.windowMs)), true)
    else if slot.bucket.count >= rule.limit then Answer(slot, false)
    else Answer(Held(slot.bucket.(count := slot.bucket.count + 1)), true)
  }

  function CeilDiv(x: int, d: int): int
    requires d > 0
  {
    -((-x) / d)
  }

  lemma CeilDivSpec(x: int, d: int)
    requires d > 0
    ensures d * (CeilDiv(x, d) - 1) < x <= d * CeilDiv(x, d)
  {
    var q, r := (-x) / d, (-x) % d;
    assert -x == d * q + r;
    assert CeilDiv(x, d) == -q;
    assert d * (-q - 1) == -(d * q) - d && d * -q == -(d * q);
  }

  lemma CeilDivUnique(x: int, d: int, n: int)
    requires d > 0 && d * (n - 1) < x <= d * n
    ensures CeilDiv(x, d) == n
  {
    CeilDivSpec(x, d);
    if n + 1 <= CeilDiv(x, d) { MulMonotone(d, n, CeilDiv(x, d) - 1); }
    if CeilDiv(x, d) + 1 <= n { MulMonotone(d, CeilDiv(x, d), n - 1); }
  }

  function RetryAfter(rule: Rule, slot: Slot, now: int): int {
    if !slot.Live(now) || slot.bucket.count < rule.limit then 0
    else
      var seconds := CeilDiv(slot.bucket.resetAt - now, 1000);
      if seconds > 1 then seconds else 1
  }

  // ---------------------------------------------------------------- the class

  function Get(m: Buckets, key: string): Slot {
    if key in m then Held(m[key]) else Free
  }

  function LiveOnly(m: Buckets, now: int): Buckets {
    map k | k in m && m[k].resetAt > now :: m[k]
  }

  function Swept(m: Buckets, now: int): Buckets {
    if |m| < SWEEP_AT then m else LiveOnly(m, now)
  }

  function Allowed(rule: Rule, m: Buckets, key: string, now: int): bool {
    Hit(rule, Get(Swept(m, now), key), now).allowed
  }

  function After(rule: Rule, m: Buckets, key: string, now: int): Buckets {
    var s := Swept(m, now);
    var a := Hit(rule, Get(s, key), now);
    if a.allowed then s[key := a.slot.bucket] else s
  }

  class RateLimiter {
    const rule: Rule
    var buckets: Buckets

    constructor (rule: Rule)
      ensures this.rule == rule && buckets == map[]
    {
      this.rule := rule;
      buckets := map[];
    }

    method Allow(key: string, now: int) returns (allowed: bool)
      modifies this`buckets
      ensures allowed == Allowed(rule, old(buckets), key, now)
      ensures buckets == After(rule, old(buckets), key, now)
    {
      Sweep(now);
      if key !in buckets || buckets[key].resetAt <= now {
        buckets := buckets[key := Bucket(1, now + rule.windowMs)];
        return true;
      }
      var bucket := buckets[key];
      if bucket.count >= rule.limit { return false; }
      buckets := buckets[key := bucket.(count := bucket.count + 1)];
      return true;
    }

    method RetryAfterSeconds(key: string, now: int) returns (seconds: int)
      ensures seconds == RetryAfter(rule, Get(buckets, key), now)
    {
      if key !in buckets || buckets[key].resetAt <= now || buckets[key].count < rule.limit { return 0; }
      seconds := CeilDiv(buckets[key].resetAt - now, 1000);
      if seconds < 1 { seconds := 1; }
    }

    method Sweep(now: int)
      modifies this`buckets
      ensures buckets == Swept(old(buckets), now)
    {
      if |buckets| < SWEEP_AT { return; }
      var rest := buckets.Keys;
      while rest != {}
        invariant rest <= old(buckets).Keys
        invariant buckets == map k | k in old(buckets) && (k in rest || old(buckets)[k].resetAt > now) :: old(buckets)[k]
        decreases |rest|
      {
        var key :| key in rest;
        rest := rest - {key};
        if buckets[key].resetAt <= now {
          buckets := buckets - {key};
        }
      }
    }
  }

  // ---------------------------------------------------------------- histories

  datatype Event = Event(key: string, at: int)

  ghost predicate Ordered(hits: seq<Event>) {
    forall i, j :: 0 <= i < j < |hits| ==> hits[i].at <= hits[j].at
  }

  /** The answers a limiter gives over a history of hits. */
  function Answers(rule: Rule, m: Buckets, hits: seq<Event>): seq<bool>
    decreases |hits|
  {
    if hits == [] then []
    else [Allowed(rule, m, hits[0].key, hits[0].at)] + Answers(rule, After(rule, m, hits[0].key, hits[0].at), hits[1..])
  }

  function BucketsAfter(rule: Rule, m: Buckets, hits: seq<Event>): Buckets
    decreases |hits|
  {
    if hits == [] then m
    else BucketsAfter(rule, After(rule, m, hits[0].key, hits[0].at), hits[1..])
  }

  /** The answers of one key on its own, with no other keys and no sweeping. */
  function KeyAnswers(rule: Rule, slot: Slot, times: seq<int>): seq<bool>
    decreases |times|
  {
    if times == [] then []
    else var a := Hit(rule, slot, times[0]); [a.allowed] + KeyAnswers(rule, a.slot, times[1..])
  }

  function TimesOf(hits: seq<Event>, key: string): seq<int> {
    if hits == [] then []
    else (if hits[0].key == key then [hits[0].at] else []) + TimesOf(hits[1..], key)
  }

  function AnswersTo(hits: seq<Event>, answers: seq<bool>, key: string): seq<bool>
    requires |hits| == |answers|
  {
    if hits == [] then []
    else (if hits[0].key == key then [answers[0]] else []) + AnswersTo(hits[1..], answers[1..], key)
  }

  lemma {:induction false} AnswersLength(rule: Rule, m: Buckets, hits: seq<Event>)
    ensures |Answers(rule, m, hits)| == |hits|
    decreases |hits|
  {
    if hits != [] {
      AnswersLength(rule, After(rule, m, hits[0].key, hits[0].at), hits[1..]);
    }
  }

  /** Two slots no hit from `now` on can tell apart. */
  predicate SameSlot(a: Slot, b: Slot, now: int) {
    a == b || (!a.Live(now) && !b.Live(now))
  }

  lemma HitIgnoresExpired(rule: Rule, a: Slot, b: Slot, now: int)
    requires SameSlot(a, b, now)
    ensures Hit(rule, a, now).allowed == Hit(rule, b, now).allowed
    ensures SameSlot(Hit(rule, a, now).slot, Hit(rule, b, now).slot, now)
  {
  }

  lemma SweepKeepsSlots(m: Buckets, key: string, now: int)
    ensures SameSlot(Get(m, key), Get(Swept(m, now), key), now)
  {
  }

  /**
   * Sweeping is invisible and keys never touch one another: over any history with a nondecreasing clock the
   * answers a key gets are those it would get alone, from a limiter that never forgets.
   */
  lemma {:induction false} KeysAreIndependent(rule: Rule, m: Buckets, slot: Slot, hits: seq<Event>, key: string)
    requires Ordered(hits)
    requires hits != [] ==> SameSlot(Get(m, key), slot, hits[0].at)
    ensures |Answers(rule, m, hits)| == |hits|
    ensures AnswersTo(hits, Answers(rule, m, hits), key) == KeyAnswers(rule, slot, TimesOf(hits, key))
    decreases |hits|
  {
    AnswersLength(rule, m, hits);
    if hits != [] {
      var h, now, rest := hits[0].key, hits[0].at, hits[1..];
      var m' := After(rule, m, h, now);
      assert Answers(rule, m, hits)[1..] == Answers(rule, m', rest);
      SweepKeepsSlots(m, key, now);
      if h == key {
        HitIgnoresExpired(rule, Get(Swept(m, now), key), slot, now);
        KeysAreIndependent(rule, m', Hit(rule, slot, now).slot, rest, key);
        var times := TimesOf(hits, key);
        assert times == [now] + TimesOf(rest, key);
        assert times[1..] == TimesOf(rest, key);
      } else {
        assert TimesOf(hits, key) == TimesOf(rest, key);
        KeysAreIndependent(rule, m', slot, rest, key);
      }
    }
  }

  /** Hits on other keys leave a key's slot as it was, or sweep it once it has expired. */
  lemma {:induction false} OthersKeepSlot(rule: Rule, m: Buckets, others: seq<Event>, key: string, until: int)
    requires forall i :: 0 <= i < |others| ==> others[i].key != key && others[i].at <= until
    ensures SameSlot(Get(m, key), Get(BucketsAfter(rule, m, others), key), until)
    decreases |others|
  {
    if others != [] {
      var h := others[0];
      SweepKeepsSlots(m, key, h.at);
      OthersKeepSlot(rule, After(rule, m, h.key, h.at), others[1..], key, until);
    }
  }

  /**
   * The `retry-after` header tells the truth, whatever other keys do meanwhile: it is never negative, it is zero exactly
   * when a hit passes now, and after a whole number of seconds one passes exactly when that many are no fewer.
   */
  lemma RetryAfterIsLeast(rule: Rule, m: Buckets, key: string, now: int, others: seq<Event>, s: int)
    requires s >= 0
    requires forall i :: 0 <= i < |others| ==> others[i].key != key && others[i].at <= now + 1000 * s
    ensures RetryAfter(rule, Get(m, key), now) >= 0
    ensures RetryAfter(rule, Get(m, key), now) == 0 <==> Allowed(rule, m, key, now)
    ensures Allowed(rule, BucketsAfter(rule, m, others), key, now + 1000 * s)
       <==> s >= RetryAfter(rule, Get(m, key), now)
  {
    var slot, t, m' := Get(m, key), now + 1000 * s, BucketsAfter(rule, m, others);
    SweepKeepsSlots(m, key, now);
    HitIgnoresExpired(rule, slot, Get(Swept(m, now), key), now);
    OthersKeepSlot(rule, m, others, key, t);
    SweepKeepsSlots(m', key, t);
    HitIgnoresExpired(rule, slot, Get(Swept(m', t), key), t);
    if slot.Held? { CeilDivSpec(slot.bucket.resetAt - now, 1000); }
  }

  // ---------------------------------------------------------------- how many hits get through

  /** Hits let through at times in [lo, hi). */
  function Passed(rule: Rule, slot: Slot, times: seq<int>, lo: int, hi: int): int
    decreases |times|
  {
    if times == [] then 0
    else
      var a := Hit(rule, slot, times[0]);
      (if a.allowed && lo <= times[0] < hi then 1 else 0) + Passed(rule, a.slot, times[1..], lo, hi)
  }

  lemma PassedUnfold(rule: Rule, slot: Slot, t: int, rest: seq<int>, lo: int, hi: int)
    ensures var a := Hit(rule, slot, t);
      Passed(rule, slot, [t] + rest, lo, hi) == (if a.allowed && lo <= t < hi then 1 else 0) + Passed(rule, a.slot, rest, lo, hi)
  {
    assert ([t] + rest)[1..] == rest;
  }

  ghost predicate Nondecreasing(times: seq<int>) {
    forall i, j :: 0 <= i < j < |times| ==> times[i] <= times[j]
  }

  /** A bucket a history can leave behind. */
  predicate Reachable(rule: Rule, slot: Slot) {
    slot.Held? ==> 1 <= slot.bucket.count <= rule.Budget()
  }

  /** How many windows can still open in [from, hi). */
  function Windows(rule: Rule, from: int, hi: int): (n: int)
    requires rule.windowMs > 0
    ensures n >= 0
  {
    if hi <= from then 0 else CeilDiv(hi - from, rule.windowMs)
  }

  lemma WindowsStep(rule: Rule, from: int, hi: int)
    requires rule.windowMs > 0 && from < hi
    ensures Windows(rule, from, hi) == 1 + Windows(rule, from + rule.windowMs, hi)
  {
    var w, x := rule.windowMs, hi - from;
    CeilDivSpec(x, w);
    if x <= w {
      CeilDivUnique(x, w, 1);
    } else {
      CeilDivSpec(x - w, w);
      CeilDivUnique(x, w, 1 + CeilDiv(x - w, w));
    }
  }

  lemma WindowsShrink(rule: Rule, a: int, b: int, hi: int)
    requires rule.windowMs > 0 && a <= b
    ensures Windows(rule, b, hi) <= Windows(rule, a, hi)
  {
    if b < hi {
      CeilDivSpec(hi - a, rule.windowMs);
      CeilDivSpec(hi - b, rule.windowMs);
      if Windows(rule, a, hi) + 1 <= Windows(rule, b, hi) {
        MulMonotone(rule.windowMs, Windows(rule, a, hi), Windows(rule, b, hi) - 1);
      }
    }
  }

  lemma MulMonotone(b: int, x: int, y: int)
    requires b >= 0 && x <= y
    ensures b * x <= b * y
  {
    assert b * (y - x) >= 0;
  }

  /** What can still pass before `hi`, seen from time `t`: the rest of a live bucket and full windows after it. */
  function Headroom(rule: Rule, slot: Slot, t: int, hi: int): int
    requires rule.windowMs > 0
  {
    if slot.Live(t) then rule.Budget() - slot.bucket.count + rule.Budget() * Windows(rule, slot.bucket.resetAt, hi)
    else rule.Budget() * Windows(rule, t, hi)
  }

  lemma {:induction false} PassedWithinHeadroom(rule: Rule, slot: Slot, times: seq<int>, t: int, lo: int, hi: int)
    requires rule.windowMs > 0 && Reachable(rule, slot) && Nondecreasing(times)
    requires times != [] ==> t <= times[0]
    ensures Passed(rule, slot, times, lo, hi) <= Headroom(rule, slot, t, hi)
    decreases |times|
  {
    if times == [] {
      if slot.Held? { MulMonotone(rule.Budget(), 0, Windows(rule, slot.bucket.resetAt, hi)); }
      MulMonotone(rule.Budget(), 0, Windows(rule, t, hi));
    } else {
      var now, a, L := times[0], Hit(rule, slot, times[0]), rule.Budget();
      PassedWithinHeadroom(rule, a.slot, times[1..], now, lo, hi);
      if !slot.Live(now) {
        var from := if slot.Live(t) then slot.bucket.resetAt else t;
        WindowsShrink(rule, from, now, hi);
        MulMonotone(L, Windows(rule, now, hi), Windows(rule, from, hi));
        if now < hi {
          WindowsStep(rule, now, hi);
          assert L * Windows(rule, now, hi) == L + L * Windows(rule, now + rule.windowMs, hi);
        } else {
          PassedLate(rule, slot, times, lo, hi);
        }
      }
    }
  }

  lemma {:induction false} PassedLate(rule: Rule, slot: Slot, times: seq<int>, lo: int, hi: int)
    requires Nondecreasing(times) && (times != [] ==> times[0] >= hi)
    ensures Passed(rule, slot, times, lo, hi) == 0
    decreases |times|
  {
    if times != [] {
      PassedLate(rule, Hit(rule, slot, times[0]).slot, times[1..], lo, hi);
    }
  }

  /**
   * The most that can pass in a half-open interval of a given length: a budget for each window that fits, rounded
   * up, and one budget less one more, for the end of a window that began before. Only when the length is one more
   * than whole windows does that early window cost as much as it brings.
   */
  function Cap(rule: Rule, length: int): int
    requires rule.windowMs > 0
  {
    var L, n := rule.Budget(), CeilDiv(length, rule.windowMs);
    if (length - 1) % rule.windowMs == 0 then L * n else L * (n + 1) - 1
  }

  /** The better of two ways to spend an interval: windows from its start, or the end of an older one and windows after it. */
  lemma CapIsTheBetter(rule: Rule, length: int)
    requires rule.windowMs > 0 && length >= 1
    ensures var L, early, late := rule.Budget(), Windows(rule, 0, length), Windows(rule, 1, length);
      Cap(rule, length) == (if L * early >= L - 1 + L * late then L * early else L - 1 + L * late)
    ensures rule.windowMs == 1 ==> Cap(rule, length) == rule.Budget() * Windows(rule, 0, length)
  {
    var L, w := rule.Budget(), rule.windowMs;
    var q, r := (length - 1) / w, (length - 1) % w;
    assert length - 1 == w * q + r;
    assert w * (q + 1) == w * q + w && w * (q - 1) == w * q - w;
    CeilDivUnique(length, w, q + 1);
    if r == 0 {
      if length > 1 { CeilDivUnique(length - 1, w, q); } else { assert q == 0; }
      assert L * (q + 1) == L * q + L;
    } else {
      CeilDivUnique(length - 1, w, q + 1);
      assert L * (q + 2) == L * (q + 1) + L;
    }
  }

  lemma {:induction false} PassedWithinCap(rule: Rule, slot: Slot, times: seq<int>, lo: int, hi: int)
    requires rule.windowMs > 0 && Reachable(rule, slot) && Nondecreasing(times) && lo < hi
    ensures Passed(rule, slot, times, lo, hi) <= Cap(rule, hi - lo)
    decreases |times|
  {
    if times != [] && times[0] < lo {
      PassedWithinCap(rule, Hit(rule, slot, times[0]).slot, times[1..], lo, hi);
    } else {
      CapIsTheBetter(rule, hi - lo);
      PassedWithinHeadroom(rule, slot, times, lo, lo, hi);
      if slot.Live(lo) {
        WindowsShrink(rule, lo + 1, slot.bucket.resetAt, hi);
        MulMonotone(rule.Budget(), Windows(rule, slot.bucket.resetAt, hi), Windows(rule, lo + 1, hi));
      }
    }
  }

  /** Hits of one key let through in [lo, hi), counted on the history of the whole limiter. */
  function PassedFor(hits: seq<Event>, answers: seq<bool>, key: string, lo: int, hi: int): int
    requires |hits| == |answers|
  {
    if hits == [] then 0
    else
      (if hits[0].key == key && answers[0] && lo <= hits[0].at < hi then 1 else 0)
      + PassedFor(hits[1..], answers[1..], key, lo, hi)
  }

  lemma {:induction false} PassedForIsPassed(rule: Rule, m: Buckets, slot: Slot, hits: seq<Event>, key: string, lo: int, hi: int)
    requires Ordered(hits)
    requires hits != [] ==> SameSlot(Get(m, key), slot, hits[0].at)
    ensures |Answers(rule, m, hits)| == |hits|
    ensures PassedFor(hits, Answers(rule, m, hits), key, lo, hi) == Passed(rule, slot, TimesOf(hits, key), lo, hi)
    decreases |hits|
  {
    AnswersLength(rule, m, hits);
    if hits != [] {
      var h, now, rest := hits[0].key, hits[0].at, hits[1..];
      var m' := After(rule, m, h, now);
      assert Answers(rule, m, hits)[1..] == Answers(rule, m', rest);
      SweepKeepsSlots(m, key, now);
      if h == key {
        HitIgnoresExpired(rule, Get(Swept(m, now), key), slot, now);
        PassedForIsPassed(rule, m', Hit(rule, slot, now).slot, rest, key, lo, hi);
        PassedUnfold(rule, slot, now, TimesOf(rest, key), lo, hi);
        assert TimesOf(hits, key) == [now] + TimesOf(rest, key);
      } else {
        assert TimesOf(hits, key) == TimesOf(rest, key);
        PassedForIsPassed(rule, m', slot, rest, key, lo, hi);
      }
    }
  }

  lemma {:induction false} TimesAreOrdered(hits: seq<Event>, key: string)
    requires Ordered(hits)
    ensures Nondecreasing(TimesOf(hits, key))
    ensures forall t :: t in TimesOf(hits, key) ==> exists i :: 0 <= i < |hits| && hits[i].at == t
  {
    if hits != [] {
      var rest := TimesOf(hits[1..], key);
      TimesAreOrdered(hits[1..], key);
      forall t | t in rest ensures hits[0].at <= t && exists i :: 0 <= i < |hits| && hits[i].at == t {
        var i :| 0 <= i < |hits[1..]| && hits[1..][i].at == t;
        assert hits[i + 1].at == t;
      }
      forall j | 0 <= j < |rest| ensures hits[0].at <= rest[j] {
        assert rest[j] in rest;
      }
    }
  }

  /**
   * The counting bound, over every history of hits on any keys: in no half-open interval does a key get more
   * than the cap for its length.
   */
  lemma KeyIsCapped(rule: Rule, hits: seq<Event>, key: string, lo: int, hi: int)
    requires rule.windowMs > 0 && Ordered(hits) && lo < hi
    ensures |Answers(rule, map[], hits)| == |hits|
    ensures PassedFor(hits, Answers(rule, map[], hits), key, lo, hi) <= Cap(rule, hi - lo)
  {
    PassedForIsPassed(rule, map[], Free, hits, key, lo, hi);
    TimesAreOrdered(hits, key);
    PassedWithinCap(rule, Free, TimesOf(hits, key), lo, hi);
  }

  // ---------------------------------------------------------------- the bound is met

  function Burst(n: nat, at: int): (times: seq<int>)
    ensures |times| == n && forall i :: 0 <= i < n ==> times[i] == at
  {
    seq(n, i => at)
  }

  lemma {:induction false} BurstPasses(rule: Rule, b: Bucket, n: nat, at: int, rest: seq<int>, lo: int, hi: int)
    requires b.resetAt > at && (n == 0 || b.count + n <= rule.limit) && lo <= at < hi
    ensures Passed(rule, Held(b), Burst(n, at) + rest, lo, hi)
         == n + Passed(rule, Held(b.(count := b.count + n)), rest, lo, hi)
    decreases n
  {
    if n == 0 {
      assert Burst(n, at) + rest == rest;
    } else {
      assert Burst(n, at) + rest == [at] + (Burst(n - 1, at) + rest);
      PassedUnfold(rule, Held(b), at, Burst(n - 1, at) + rest, lo, hi);
      BurstPasses(rule, b.(count := b.count + 1), n - 1, at, rest, lo, hi);
    }
  }

  /** A whole budget as each of `n` windows opens, one after the other. */
  function FullWindows(rule: Rule, at: int, n: nat): seq<int>
    decreases n
  {
    if n == 0 then [] else [at] + (Burst(rule.Budget() - 1, at) + FullWindows(rule, at + rule.windowMs, n - 1))
  }

  lemma {:induction false} FullWindowsPass(rule: Rule, slot: Slot, at: int, n: nat, lo: int, hi: int)
    requires rule.windowMs > 0 && !slot.Live(at) && lo <= at && n <= Windows(rule, at, hi)
    ensures Passed(rule, slot, FullWindows(rule, at, n), lo, hi) == rule.Budget() * n
    decreases n
  {
    if n > 0 {
      var L, w := rule.Budget(), rule.windowMs;
      var later := FullWindows(rule, at + w, n - 1);
      PassedUnfold(rule, slot, at, Burst(L - 1, at) + later, lo, hi);
      BurstPasses(rule, Bucket(1, at + w), L - 1, at, later, lo, hi);
      WindowsStep(rule, at, hi);
      FullWindowsPass(rule, Held(Bucket(L, at + w)), at + w, n - 1, lo, hi);
      assert L * n == L + L * (n - 1);
    }
  }

  lemma {:induction false} FullWindowsAreOrdered(rule: Rule, at: int, n: nat)
    requires rule.windowMs > 0
    ensures Nondecreasing(FullWindows(rule, at, n)) && forall t :: t in FullWindows(rule, at, n) ==> t >= at
    decreases n
  {
    if n > 0 {
      var w, burst := rule.windowMs, Burst(rule.Budget() - 1, at);
      FullWindowsAreOrdered(rule, at + w, n - 1);
      var later := FullWindows(rule, at + w, n - 1);
      forall i | 0 <= i < |later| ensures later[i] >= at { assert later[i] in later; }
      var all := FullWindows(rule, at, n);
      forall i, j | 0 <= i < j < |all| ensures all[i] <= all[j] {
        if i > |burst| { assert all[i] == later[i - |burst| - 1] && all[j] == later[j - |burst| - 1]; }
      }
    }
  }

  /** One hit so long before that its window is about to close, what is left of its budget, and full windows after it. */
  function LateStart(rule: Rule, lo: int, n: nat): seq<int> {
    [lo + 1 - rule.windowMs] + (Burst(rule.Budget() - 1, lo) + FullWindows(rule, lo + 1, n))
  }

  lemma LateStartPasses(rule: Rule, lo: int, hi: int)
    requires rule.windowMs >= 2 && lo < hi
    ensures var n, L := Windows(rule, lo + 1, hi), rule.Budget();
      Passed(rule, Free, LateStart(rule, lo, n), lo, hi) == L - 1 + L * n
  {
    var n, L, w := Windows(rule, lo + 1, hi), rule.Budget(), rule.windowMs;
    var later := FullWindows(rule, lo + 1, n);
    PassedUnfold(rule, Free, lo + 1 - w, Burst(L - 1, lo) + later, lo, hi);
    BurstPasses(rule, Bucket(1, lo + 1), L - 1, lo, later, lo, hi);
    FullWindowsPass(rule, Held(Bucket(L, lo + 1)), lo + 1, n, lo, hi);
  }

  lemma LateStartIsOrdered(rule: Rule, lo: int, n: nat)
    requires rule.windowMs >= 2
    ensures Nondecreasing(LateStart(rule, lo, n))
  {
    var burst, later := Burst(rule.Budget() - 1, lo), FullWindows(rule, lo + 1, n);
    FullWindowsAreOrdered(rule, lo + 1, n);
    forall i | 0 <= i < |later| ensures later[i] >= lo { assert later[i] in later; }
    var all := LateStart(rule, lo, n);
    forall i, j | 0 <= i < j < |all| ensures all[i] <= all[j] {
      if i > |burst| { assert all[i] == later[i - |burst| - 1] && all[j] == later[j - |burst| - 1]; }
    }
  }

  function HitsOf(key: string, times: seq<int>): (hits: seq<Event>)
    ensures |hits| == |times|
  {
    seq(|times|, i requires 0 <= i < |times| => Event(key, times[i]))
  }

  lemma {:induction false} TimesOfHits(key: string, times: seq<int>)
    ensures TimesOf(HitsOf(key, times), key) == times
    decreases |times|
  {
    if times != [] {
      assert HitsOf(key, times)[1..] == HitsOf(key, times[1..]);
      TimesOfHits(key, times[1..]);
    }
  }

  /** And every interval, of whatever length, has a history that fills it: the cap is the maximum. */
  lemma CapIsMet(rule: Rule, key: string, lo: int, hi: int) returns (hits: seq<Event>)
    requires rule.windowMs > 0 && lo < hi
    ensures Ordered(hits) && |Answers(rule, map[], hits)| == |hits|
    ensures PassedFor(hits, Answers(rule, map[], hits), key, lo, hi) == Cap(rule, hi - lo)
  {
    CapIsTheBetter(rule, hi - lo);
    var times;
    if Cap(rule, hi - lo) == rule.Budget() * Windows(rule, lo, hi) {
      times := FullWindows(rule, lo, Windows(rule, lo, hi));
      FullWindowsPass(rule, Free, lo, Windows(rule, lo, hi), lo, hi);
      FullWindowsAreOrdered(rule, lo, Windows(rule, lo, hi));
    } else {
      times := LateStart(rule, lo, Windows(rule, lo + 1, hi));
      LateStartPasses(rule, lo, hi);
      LateStartIsOrdered(rule, lo, Windows(rule, lo + 1, hi));
    }
    hits := HitsOf(key, times);
    TimesOfHits(key, times);
    PassedForIsPassed(rule, map[], Free, hits, key, lo, hi);
  }

  /** What the window is for: no more than twice the limit less one in any one window's length. */
  lemma CapOfOneWindow(rule: Rule)
    requires rule.windowMs >= 2
    ensures Cap(rule, rule.windowMs) == 2 * rule.Budget() - 1
  {
    CeilDivUnique(rule.windowMs, rule.windowMs, 1);
    assert (rule.windowMs - 1) % rule.windowMs == rule.windowMs - 1;
  }

  // ---------------------------------------------------------------- memory

  /** After any hit the map holds at most a thousand buckets, or nothing that has expired. */
  lemma MapStaysSmallOrLive(rule: Rule, m: Buckets, key: string, now: int)
    requires rule.windowMs > 0
    ensures var m' := After(rule, m, key, now);
      |m'| <= SWEEP_AT || forall k :: k in m' ==> m'[k].resetAt > now
  {
    var s, m' := Swept(m, now), After(rule, m, key, now);
    if |m| < SWEEP_AT {
      assert m'.Keys <= m.Keys + {key};
      SubsetSize(m'.Keys, m.Keys + {key});
    }
  }

  lemma {:induction false} SubsetSize<T>(a: set<T>, b: set<T>)
    requires a <= b
    ensures |a| <= |b|
  {
    assert b == a + (b - a);
  }
}
