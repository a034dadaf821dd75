/** The Redis token bucket: the Lua script behind `RedisRateLimiter.hit`.

    The script keeps two numbers per key and decides each hit in constant time.  Here it is
    proved equal to a limiter that remembers every hit it ever saw, and the TTL on the key is
    proved to change no verdict.  Arithmetic is exact (`real`), where Lua's is floating point. */
module TokenBucket {

  function Max(a: real, b: real): real { if a < b then b else a }
  function Min(a: real, b: real): real { if a < b then a else b }

  /** The script's arguments: tokens per second, bucket size, and time to live in seconds. */
  datatype Args = Args(rate: real, burst: real, ttl: real) {
    /** The bucket takes at least one token, and a key that vanished would have been full. */
    predicate Valid() { rate > 0.0 && burst >= 1.0 && rate * ttl >= burst }
  }

  /** What `hit` passes for `limit` requests per `window` seconds. */
  function ArgsFor(limit: int, window: int): (args: Args)
    requires limit >= 1 && window >= 1
    ensures args.Valid() && args.rate * window as real == args.burst == limit as real
    ensures args.ttl == 2.0 * window as real
  {
    var rate := limit as real / window as real;
    assert rate * (2 * window) as real == 2.0 * (rate * window as real);
    Args(rate, limit as real, (2 * window) as real)
  }

  /** The Redis hash under a key, or no hash at all. */
  datatype Bucket = Missing | Stored(tokens: real, ts: real) {
    /** The tokens available at `now`, before this hit takes one. */
    function Level(now: real, args: Args): real
      requires args.Valid()
    {
      match this
      case Missing => args.burst
      case Stored(tokens, ts) => Min(args.burst, tokens + Max(0.0, now - ts) * args.rate)
    }

    predicate Admits(now: real, args: Args)
      requires args.Valid()
    {
      Level(now, args) >= 1.0
    }

    function Next(now: real, args: Args): Bucket
      requires args.Valid()
    {
      Stored(Level(now, args) - (if Admits(now, args) then 1.0 else 0.0), now)
    }

    predicate Sane(args: Args) { Stored? ==> 0.0 <= tokens <= args.burst }
  }

  // ----- The script over a whole run of hits, with no expiry -----

  function Init<T>(s: seq<T>): seq<T>
    requires s != []
  {
    s[..|s| - 1]
  }

  function Last<T>(s: seq<T>): T
    requires s != []
  {
    s[|s| - 1]
  }

  function BucketAfter(times: seq<real>, args: Args): Bucket
    requires args.Valid()
  {
    if times == [] then Missing else BucketAfter(Init(times), args).Next(Last(times), args)
  }

  function ScriptVerdicts(times: seq<real>, args: Args): (v: seq<bool>)
    requires args.Valid()
    ensures |v| == |times|
  {
    if times == [] then []
    else ScriptVerdicts(Init(times), args) + [BucketAfter(Init(times), args).Admits(Last(times), args)]
  }

  // ----- The specification: a limiter that keeps the whole log -----

  /** How many of the verdicts from position `j` on are admissions. */
  function Count(v: seq<bool>, j: nat): nat
    decreases |v|
  {
    if j >= |v| then 0 else Count(Init(v), j) + (if Last(v) then 1 else 0)
  }

  /** Forward clock movement between hit `j` and the last hit; a clock that steps back adds nothing. */
  function Elapsed(times: seq<real>, j: nat): (e: real)
    requires j < |times|
    ensures e >= 0.0
    decreases |times|
  {
    if j == |times| - 1 then 0.0
    else Elapsed(Init(times), j) + Max(0.0, Last(times) - Last(Init(times)))
  }

  /** What the interval from hit `j` to the last hit may admit at most. */
  function Budget(times: seq<real>, j: nat, args: Args): real
    requires args.Valid() && j < |times|
  {
    args.burst + args.rate * Elapsed(times, j)
  }

  /** The last hit of `times` may be admitted after the verdicts `v` on the hits before it: every
      interval that ends in it stays within its budget. */
  ghost predicate LogAllows(times: seq<real>, v: seq<bool>, args: Args)
    requires args.Valid() && times != []
  {
    forall j: nat | j < |times| :: (Count(v, j) + 1) as real <= Budget(times, j, args)
  }

  ghost function LogVerdicts(times: seq<real>, args: Args): (v: seq<bool>)
    requires args.Valid()
    ensures |v| == |times|
  {
    if times == [] then []
    else var v := LogVerdicts(Init(times), args); v + [LogAllows(times, v, args)]
  }

  // ----- The constant-state script is that specification -----

  lemma RateTimesSum(rate: real, a: real, b: real)
    ensures rate * (a + b) == rate * a + rate * b
  {
  }

  lemma RateMonotone(rate: real, a: real, b: real)
    requires rate > 0.0 && a <= b
    ensures rate * a <= rate * b
  {
  }

  /** How far the clock moved forward before the last hit. */
  function Stride(times: seq<real>): (d: real)
    requires |times| > 1
    ensures d >= 0.0
  {
    Max(0.0, Last(times) - Last(Init(times)))
  }

  lemma BudgetGrows(times: seq<real>, j: nat, args: Args)
    requires args.Valid() && j < |times| - 1
    ensures Budget(times, j, args) == Budget(Init(times), j, args) + args.rate * Stride(times)
    ensures Budget(times, j, args) >= Budget(Init(times), j, args)
  {
    RateTimesSum(args.rate, Elapsed(Init(times), j), Stride(times));
    RateMonotone(args.rate, 0.0, Stride(times));
  }

  /** The level at the last hit of `times`. */
  function LastLevel(times: seq<real>, args: Args): real
    requires args.Valid() && times != []
  {
    BucketAfter(Init(times), args).Level(Last(times), args)
  }

  lemma RunUnfolds(times: seq<real>, args: Args)
    requires args.Valid() && times != []
    ensures BucketAfter(times, args) == BucketAfter(Init(times), args).Next(Last(times), args)
    ensures var v := ScriptVerdicts(times, args);
            && Init(v) == ScriptVerdicts(Init(times), args)
            && Last(v) == BucketAfter(Init(times), args).Admits(Last(times), args)
  {
  }

  lemma LevelGrows(times: seq<real>, args: Args)
    requires args.Valid() && |times| > 1
    ensures var v := ScriptVerdicts(Init(times), args);
            && Init(v) == ScriptVerdicts(Init(Init(times)), args)
            && LastLevel(times, args) == Min(args.burst,
                 LastLevel(Init(times), args) - (if Last(v) then 1.0 else 0.0) + args.rate * Stride(times))
  {
    hide Args.Valid, ScriptVerdicts, BucketAfter, Bucket.Level, Bucket.Next, Bucket.Admits;
    assert Stride(times) == Max(0.0, Last(times) - Last(Init(times)));
    RunUnfolds(Init(times), args);
    NextLevel(BucketAfter(Init(Init(times)), args), Last(Init(times)), Last(times), args);
  }

  lemma NextLevel(b: Bucket, ts: real, now: real, args: Args)
    requires args.Valid()
    ensures b.Next(ts, args).Level(now, args)
         == Min(args.burst, b.Level(ts, args) - (if b.Admits(ts, args) then 1.0 else 0.0)
                            + args.rate * Max(0.0, now - ts))
  {
    hide Args.Valid;
    Commutes(args.rate, Max(0.0, now - ts));
  }

  lemma Commutes(a: real, b: real)
    ensures a * b == b * a
  {
  }

  /** The stored level is the tightest slack over all intervals ending in the last hit. */
  lemma {:induction false} LevelIsTightestSlack(times: seq<real>, args: Args) returns (tight: nat)
    requires args.Valid() && times != []
    ensures var v := ScriptVerdicts(Init(times), args); var level := LastLevel(times, args);
            && (forall j: nat | j < |times| :: level <= Budget(times, j, args) - Count(v, j) as real)
            && tight < |times| && level == Budget(times, tight, args) - Count(v, tight) as real
  {
    var past := Init(times);
    var n := |past|;
    if past == [] {
      tight := 0;
    } else {
      var v := ScriptVerdicts(past, args);
      var before := LevelIsTightestSlack(past, args);
      LevelGrows(times, args);
      var refill := args.rate * Stride(times);
      forall j: nat | j < n
        ensures Budget(times, j, args) == Budget(past, j, args) + refill
      {
        BudgetGrows(times, j, args);
      }
      tight := if LastLevel(times, args) == args.burst then n else before;
    }
  }

  /** For every sequence of hits, on any clock, the script's verdicts are the log's verdicts. */
  lemma {:induction false} ScriptIsSlidingLog(times: seq<real>, args: Args)
    requires args.Valid()
    ensures ScriptVerdicts(times, args) == LogVerdicts(times, args)
  {
    if times != [] {
      ScriptIsSlidingLog(Init(times), args);
      var tight := LevelIsTightestSlack(times, args);
    }
  }

  // ----- What the specification means for callers -----

  lemma BudgetAtLeastBurst(times: seq<real>, j: nat, args: Args)
    requires args.Valid() && j < |times|
    ensures Budget(times, j, args) >= args.burst >= 1.0
  {
    RateMonotone(args.rate, 0.0, Elapsed(times, j));
  }

  /** No stretch of hits admits more than the bucket size plus the refill over that stretch. */
  lemma {:induction false} AdmissionsWithinBudget(times: seq<real>, j: nat, args: Args)
    requires args.Valid() && j < |times|
    ensures Count(LogVerdicts(times, args), j) as real <= Budget(times, j, args)
  {
    var v := LogVerdicts(times, args);
    assert Init(v) == LogVerdicts(Init(times), args);
    if Last(v) {
      assert LogAllows(times, Init(v), args);
    } else if j < |times| - 1 {
      AdmissionsWithinBudget(Init(times), j, args);
      BudgetGrows(times, j, args);
    } else {
      assert Count(Init(v), j) == 0;
      BudgetAtLeastBurst(times, j, args);
    }
  }

  /** Within one window that is at most twice the limit. */
  lemma AtMostTwiceTheLimitPerWindow(times: seq<real>, j: nat, limit: int, window: int)
    requires limit >= 1 && window >= 1 && j < |times|
    requires Elapsed(times, j) <= window as real
    ensures Count(ScriptVerdicts(times, ArgsFor(limit, window)), j) <= 2 * limit
  {
    hide *;
    var args := ArgsFor(limit, window);
    ScriptIsSlidingLog(times, args);
    AdmissionsWithinBudget(times, j, args);
    OneWindowBudget(times, j, limit, window, args);
  }

  lemma RefillWithin(rate: real, e: real, w: real, limit: real)
    requires rate > 0.0 && e <= w && limit == rate * w
    ensures limit + rate * e <= 2.0 * limit
  {
    RateMonotone(rate, e, w);
  }

  lemma OneWindowBudget(times: seq<real>, j: nat, limit: int, window: int, args: Args)
    requires args.Valid() && limit as real == args.burst == args.rate * window as real
    requires j < |times| && Elapsed(times, j) <= window as real
    ensures Budget(times, j, args) <= (2 * limit) as real
  {
    RefillWithin(args.rate, Elapsed(times, j), window as real, limit as real);
  }

  function Repeat(t: real, n: nat): (s: seq<real>)
    ensures |s| == n && forall i | 0 <= i < n :: s[i] == t
  {
    seq(n, _ => t)
  }

  /** One burst at time zero and `n` more hits when the window has passed. */
  function TwoBursts(limit: nat, window: int, n: nat): seq<real> {
    Repeat(0.0, limit) + Repeat(window as real, n)
  }

  lemma {:induction false} FirstBurstAdmitted(n: nat, args: Args)
    requires args.Valid() && n as real <= args.burst
    ensures var times := Repeat(0.0, n);
            && (forall j: nat | j < n :: Elapsed(times, j) == 0.0)
            && (forall j: nat | j <= n :: Count(LogVerdicts(times, args), j) == n - j)
  {
    if n > 0 {
      var times := Repeat(0.0, n);
      FirstBurstAdmitted(n - 1, args);
      assert Init(times) == Repeat(0.0, n - 1);
      var v := LogVerdicts(Init(times), args);
      assert forall j: nat | j < n :: Elapsed(times, j) == 0.0;
      assert forall j: nat | j < n :: Budget(times, j, args) == args.burst;
      assert LogAllows(times, v, args);
      assert Init(LogVerdicts(times, args)) == v;
    }
  }

  lemma SecondBurstBudget(times: seq<real>, j: nat, limit: nat, window: nat, args: Args)
    requires args.Valid() && limit as real == args.burst == args.rate * window as real && j < |times|
    requires Elapsed(times, j) == if j < limit then window as real else 0.0
    ensures Budget(times, j, args) == if j < limit then (2 * limit) as real else limit as real
  {
  }

  lemma {:induction false} SecondBurstAdmitted(limit: nat, window: nat, n: nat, args: Args)
    requires args.Valid() && limit as real == args.burst == args.rate * window as real && n <= limit
    ensures var times := TwoBursts(limit, window, n);
            && (forall j: nat | j < limit + n ::
                  Elapsed(times, j) == if j < limit && n > 0 then window as real else 0.0)
            && (forall j: nat | j <= limit + n :: Count(LogVerdicts(times, args), j) == limit + n - j)
  {
    var times := TwoBursts(limit, window, n);
    if n == 0 {
      FirstBurstAdmitted(limit, args);
      assert times == Repeat(0.0, limit);
    } else {
      SecondBurstAdmitted(limit, window, n - 1, args);
      assert Init(times) == TwoBursts(limit, window, n - 1);
      var v := LogVerdicts(Init(times), args);
      assert Last(Init(times)) == if n == 1 then 0.0 else window as real;
      assert forall j: nat | j < limit + n ::
          Elapsed(times, j) == if j < limit then window as real else 0.0;
      forall j: nat | j < limit + n
        ensures (Count(v, j) + 1) as real <= Budget(times, j, args)
      {
        SecondBurstBudget(times, j, limit, window, args);
      }
      assert LogAllows(times, v, args);
      assert Init(LogVerdicts(times, args)) == v;
    }
  }

  /** The factor two is reached by every tier, so "at most `limit` per window" is not a promise. */
  lemma TwiceTheLimitIsReached(limit: int, window: int) returns (times: seq<real>)
    requires limit >= 1 && window >= 1
    ensures times != [] && Elapsed(times, 0) == window as real
    ensures Count(ScriptVerdicts(times, ArgsFor(limit, window)), 0) == 2 * limit
  {
    var args := ArgsFor(limit, window);
    times := TwoBursts(limit, window, limit);
    SecondBurstAdmitted(limit, window, limit, args);
    ScriptIsSlidingLog(times, args);
  }

  // ----- How many at most, in a stretch of any length -----

  /** `limit`, and one more for each `window / limit` seconds. */
  function Most(limit: int, window: int, d: real): int
    requires limit >= 1 && window >= 1 && d >= 0.0
  {
    limit + (limit as real * d / window as real).Floor
  }

  lemma RateTimesStretch(limit: int, window: int, d: real)
    requires limit >= 1 && window >= 1 && d >= 0.0
    ensures ArgsFor(limit, window).rate * d == limit as real * d / window as real >= 0.0
  {
    var rate, w := limit as real / window as real, window as real;
    assert rate * d * w == limit as real * d by { assert rate * w == limit as real; }
    assert limit as real * d / w * w == limit as real * d;
    assert rate * d >= 0.0;
  }

  lemma NeverMoreThanMost(times: seq<real>, j: nat, d: real, limit: int, window: int)
    requires limit >= 1 && window >= 1 && j < |times| && Elapsed(times, j) <= d
    ensures Count(ScriptVerdicts(times, ArgsFor(limit, window)), j) <= Most(limit, window, d)
  {
    hide *;
    var args := ArgsFor(limit, window);
    ScriptIsSlidingLog(times, args);
    AdmissionsWithinBudget(times, j, args);
    RateTimesStretch(limit, window, d);
    BudgetWithin(times, j, d, args);
    FloorBounds(Count(ScriptVerdicts(times, args), j) - limit, args.rate * d);
    assert Most(limit, window, d) == limit + (limit as real * d / window as real).Floor by { MostIs(limit, window, d); }
  }

  lemma MostIs(limit: int, window: int, d: real)
    requires limit >= 1 && window >= 1 && d >= 0.0
    ensures Most(limit, window, d) == limit + (limit as real * d / window as real).Floor
  {
  }

  lemma BudgetWithin(times: seq<real>, j: nat, d: real, args: Args)
    requires args.Valid() && j < |times| && Elapsed(times, j) <= d
    ensures Budget(times, j, args) <= args.burst + args.rate * d
  {
    RateMonotone(args.rate, Elapsed(times, j), d);
  }

  lemma FloorBounds(n: int, x: real)
    requires n as real <= x
    ensures n <= x.Floor
  {
  }

  lemma {:induction false} BurstEmpties(n: nat, args: Args)
    requires args.Valid() && n as real <= args.burst
    ensures var times := Repeat(0.0, n);
            && Count(ScriptVerdicts(times, args), 0) == n
            && (n > 0 ==> BucketAfter(times, args) == Stored(args.burst - n as real, 0.0)
                          && Elapsed(times, 0) == 0.0 && Last(times) == 0.0)
  {
    hide Args.Valid;
    if n == 1 {
      BurstOfOne(args);
    } else if n > 1 {
      var before := Repeat(0.0, n - 1);
      BurstEmpties(n - 1, args);
      assert Repeat(0.0, n) == before + [0.0];
      hide Repeat, ScriptVerdicts, BucketAfter, Count, Elapsed, Bucket.Level, Bucket.Admits, Bucket.Next;
      BucketOneMore(before, 0.0, args);
      AtOnceLevel(BucketAfter(before, args), n - 1, args);
      CountOneMore(before, 0.0, args);
    }
  }

  lemma BurstOfOne(args: Args)
    requires args.Valid()
    ensures var times := Repeat(0.0, 1);
            && Count(ScriptVerdicts(times, args), 0) == 1 && BucketAfter(times, args) == Stored(args.burst - 1.0, 0.0)
            && Elapsed(times, 0) == 0.0 && Last(times) == 0.0
  {
    var times := Repeat(0.0, 1);
    assert Init(times) == [];
    assert ScriptVerdicts(times, args) == [true];
    assert Init([true]) == [];
  }

  lemma AtOnceLevel(b: Bucket, taken: nat, args: Args)
    requires args.Valid() && (taken + 1) as real <= args.burst
    requires taken > 0 && b == Stored(args.burst - taken as real, 0.0)
    ensures b.Admits(0.0, args) && b.Next(0.0, args) == Stored(args.burst - (taken + 1) as real, 0.0)
  {
  }

  /** When the `m`-th token has come in. */
  function Nth(m: nat, gap: real): real { m as real * gap }

  /** The tokens that come in, in all, by the time `t`. */
  function Came(t: real, args: Args): real { args.rate * t }

  /** The bucket takes `limit` tokens, and one comes in every `gap` seconds. */
  predicate Paced(limit: nat, gap: real, args: Args) {
    args.Valid() && limit as real == args.burst && gap > 0.0 && args.rate * gap == 1.0
  }

  lemma NthComes(m: nat, gap: real, args: Args)
    requires args.rate * gap == 1.0
    ensures Came(Nth(m, gap), args) == m as real
  {
    assert args.rate * (m as real * gap) == m as real * (args.rate * gap);
  }

  lemma NthInTime(limit: nat, m: nat, gap: real, d: real, args: Args)
    requires Paced(limit, gap, args) && m as real <= Came(d, args)
    ensures Nth(m, gap) <= d
  {
    NthComes(m, gap, args);
    if Nth(m, gap) > d {
      hide Nth;
      StrictlyMonotone(args.rate, d, Nth(m, gap));
    }
  }

  lemma StrictlyMonotone(rate: real, a: real, b: real)
    requires rate > 0.0 && a < b
    ensures rate * a < rate * b
  {
  }

  lemma PacedFacts(limit: nat, gap: real, m: nat, args: Args)
    requires Paced(limit, gap, args)
    ensures args.Valid() && limit as real == args.burst >= 1.0
    ensures Came(Nth(m, gap), args) == m as real
    ensures Nth(0, gap) == 0.0 && 0.0 <= Nth(m, gap) <= Nth(m + 1, gap)
  {
    NthComes(m, gap, args);
  }

  lemma Times(rate: real, a: real, b: real)
    ensures rate * (a - b) == rate * a - rate * b
  {
  }

  /** An empty bucket, some time later. */
  lemma EmptyBucket(at: real, now: real, args: Args)
    requires args.Valid() && at <= now
    ensures var b, came := Stored(0.0, at), Came(now, args) - Came(at, args);
            && b.Level(now, args) == Min(args.burst, came)
            && (b.Admits(now, args) <==> came >= 1.0)
            && (came == 1.0 ==> b.Next(now, args) == Stored(0.0, now))
  {
    Times(args.rate, now, at);
  }

  /** One burst at time zero, then one hit whenever a token has come in, every `gap` seconds. */
  function Drip(limit: nat, gap: real, m: nat): (times: seq<real>)
    ensures |times| == limit + m
  {
    Repeat(0.0, limit) + seq(m, k requires 0 <= k < m => Nth(k + 1, gap))
  }

  lemma DripGoesOn(limit: nat, gap: real, m: nat)
    requires m > 0
    ensures Drip(limit, gap, m) == Drip(limit, gap, m - 1) + [Nth(m, gap)]
  {
    hide Nth;
  }

  lemma NoDrip(limit: nat, gap: real)
    ensures Drip(limit, gap, 0) == Repeat(0.0, limit)
  {
  }

  lemma {:induction false} DripEmpties(limit: nat, gap: real, m: nat, args: Args)
    requires args.Valid() && Paced(limit, gap, args)
    ensures var times := Drip(limit, gap, m);
            && Count(ScriptVerdicts(times, args), 0) == limit + m
            && BucketAfter(times, args) == Stored(0.0, Nth(m, gap))
            && times != [] && Last(times) == Elapsed(times, 0) == Nth(m, gap)
  {
    hide Args.Valid, Paced, Nth, Came, Drip, Bucket.Level, Bucket.Admits, Bucket.Next,
         ScriptVerdicts, BucketAfter, Count, Elapsed;
    PacedFacts(limit, gap, m, args);
    if m == 0 {
      NoDrip(limit, gap);
      BurstEmpties(limit, args);
    } else {
      var before, now := Drip(limit, gap, m - 1), Nth(m, gap);
      DripEmpties(limit, gap, m - 1, args);
      DripGoesOn(limit, gap, m);
      PacedFacts(limit, gap, m - 1, args);
      EmptyBucket(Nth(m - 1, gap), now, args);
      CountOneMore(before, now, args);
      BucketOneMore(before, now, args);
    }
  }

  lemma BucketOneMore(times: seq<real>, now: real, args: Args)
    requires args.Valid()
    ensures BucketAfter(times + [now], args) == BucketAfter(times, args).Next(now, args)
  {
    assert Init(times + [now]) == times;
  }

  lemma CountOneMore(times: seq<real>, now: real, args: Args)
    requires args.Valid() && times != []
    ensures var more := times + [now];
            && Count(ScriptVerdicts(more, args), 0)
               == Count(ScriptVerdicts(times, args), 0) + (if BucketAfter(times, args).Admits(now, args) then 1 else 0)
            && Elapsed(more, 0) == Elapsed(times, 0) + Max(0.0, now - Last(times))
  {
    assert Init(times + [now]) == times;
    var v := ScriptVerdicts(times + [now], args);
    assert Init(v) == ScriptVerdicts(times, args);
  }

  /** In a stretch of `d` seconds the script can admit `Most`, whatever `d` is. */
  lemma MostIsReached(limit: int, window: int, d: real) returns (times: seq<real>)
    requires limit >= 1 && window >= 1 && d >= 0.0
    ensures times != [] && Elapsed(times, 0) == d
    ensures Count(ScriptVerdicts(times, ArgsFor(limit, window)), 0) == Most(limit, window, d)
  {
    var args := ArgsFor(limit, window);
    var gap := window as real / limit as real;
    RateTimesStretch(limit, window, d);
    GapFits(limit, window);
    hide ArgsFor;
    times := FullStretch(limit, gap, (args.rate * d).Floor, d, args);
  }

  lemma FloorOf(x: real)
    ensures x.Floor as real <= x < (x.Floor + 1) as real
    ensures x >= 0.0 ==> x.Floor >= 0
  {
  }

  lemma GapFits(limit: int, window: int)
    requires limit >= 1 && window >= 1
    ensures Paced(limit, window as real / limit as real, ArgsFor(limit, window))
  {
    var l, w := limit as real, window as real;
    assert l / w * (w / l) == 1.0;
  }

  lemma FullStretch(limit: nat, gap: real, m: nat, d: real, args: Args) returns (times: seq<real>)
    requires args.Valid() && Paced(limit, gap, args) && d >= 0.0
    requires m as real <= Came(d, args) < (m + 1) as real
    ensures times != [] && Elapsed(times, 0) == d && Count(ScriptVerdicts(times, args), 0) == limit + m
  {
    hide Args.Valid, Paced, Nth, Came, Drip, Bucket.Level, Bucket.Admits, Bucket.Next,
         ScriptVerdicts, BucketAfter, Count, Elapsed;
    var before := if m == 0 then 0 else m - 1;
    var drip, last := Drip(limit, gap, before), Nth(before, gap);
    DripEmpties(limit, gap, before, args);
    PacedFacts(limit, gap, before, args);
    NthInTime(limit, before, gap, d, args);
    EmptyBucket(last, d, args);
    CountOneMore(drip, d, args);
    times := drip + [d];
  }

  /** A schedule of admissions that keeps every interval within its budget. */
  ghost predicate Compliant(times: seq<real>, w: seq<bool>, args: Args)
    requires args.Valid() && |w| == |times|
    decreases |times|
  {
    times != [] ==>
    && Compliant(Init(times), Init(w), args)
    && (Last(w) ==> LogAllows(times, Init(w), args))
  }

  /** Counts split at any position. */
  lemma {:induction false} CountSplits(v: seq<bool>, j: nat)
    requires j <= |v|
    ensures Count(v, 0) == Count(v[..j], 0) + Count(v, j)
    decreases |v|
  {
    if j < |v| {
      CountSplits(Init(v), j);
      assert Init(v)[..j] == v[..j];
    } else {
      assert v[..j] == v;
    }
  }

  lemma {:induction false} CompliantPrefix(times: seq<real>, w: seq<bool>, j: nat, args: Args)
    requires args.Valid() && |w| == |times| && Compliant(times, w, args) && j <= |times|
    ensures Compliant(times[..j], w[..j], args)
    ensures LogVerdicts(times, args)[..j] == LogVerdicts(times[..j], args)
    decreases |times|
  {
    if j == |times| {
      assert times[..j] == times && w[..j] == w;
    } else {
      CompliantPrefix(Init(times), Init(w), j, args);
      assert Init(times)[..j] == times[..j] && Init(w)[..j] == w[..j];
    }
  }

  /** The bucket is never stricter than it must be: no compliant schedule of the same hits admits
      more of them, up to any point. */
  lemma {:induction false} NoCompliantScheduleAdmitsMore(times: seq<real>, w: seq<bool>, args: Args)
    requires args.Valid() && |w| == |times| && Compliant(times, w, args)
    ensures Count(w, 0) <= Count(LogVerdicts(times, args), 0)
    decreases |times|
  {
    if times != [] {
      var v := LogVerdicts(times, args);
      NoCompliantScheduleAdmitsMore(Init(times), Init(w), args);
      assert Init(v) == LogVerdicts(Init(times), args);
      if Last(w) && !Last(v) {
        var j: nat :| j < |times| && (Count(Init(v), j) + 1) as real > Budget(times, j, args);
        CompliantPrefix(Init(times), Init(w), j, args);
        NoCompliantScheduleAdmitsMore(Init(times)[..j], Init(w)[..j], args);
        CountSplits(Init(v), j);
        CountSplits(Init(w), j);
      }
    }
  }

  // ----- The key's time to live -----

  /** A hit, or Redis dropping the key because its TTL ran out. */
  datatype Event = Hit(at: real) | Vanish(at: real)

  function Step(b: Bucket, e: Event, args: Args): Bucket
    requires args.Valid()
  {
    match e
    case Hit(at) => b.Next(at, args)
    case Vanish(_) => Missing
  }

  /** The verdicts of a run in which keys may vanish. */
  function ExpiringVerdicts(b: Bucket, run: seq<Event>, args: Args): seq<bool>
    requires args.Valid()
    decreases |run|
  {
    if run == [] then []
    else (if run[0].Hit? then [b.Admits(run[0].at, args)] else [])
         + ExpiringVerdicts(Step(b, run[0], args), run[1..], args)
  }

  /** The verdicts of the same hits on a bucket that is kept forever. */
  function KeptVerdicts(b: Bucket, run: seq<Event>, args: Args): seq<bool>
    requires args.Valid()
    decreases |run|
  {
    if run == [] then []
    else if run[0].Vanish? then KeptVerdicts(b, run[1..], args)
    else [b.Admits(run[0].at, args)] + KeptVerdicts(b.Next(run[0].at, args), run[1..], args)
  }

  /** A key vanishes only once its TTL, counted from the last hit, is over; and the next hit does
      not see a clock from before that deletion (`gone`).  The clock may step back otherwise. */
  ghost predicate Redis(b: Bucket, gone: real, run: seq<Event>, args: Args)
    requires args.Valid()
    decreases |run|
  {
    run != [] ==>
    && (b.Missing? ==> run[0].at >= gone)
    && (run[0].Vanish? ==> b.Stored? && run[0].at >= b.ts + args.ttl)
    && Redis(Step(b, run[0], args), if run[0].Vanish? then run[0].at else gone, run[1..], args)
  }

  /** The kept bucket `k` will have refilled by `gone`, when its expiring twin `b` vanished. */
  ghost predicate Alike(b: Bucket, k: Bucket, gone: real, args: Args) {
    b == k || (b.Missing? && k.Stored? && k.ts + args.ttl <= gone)
  }

  lemma NextIsSane(b: Bucket, now: real, args: Args)
    requires args.Valid() && b.Sane(args)
    ensures b.Next(now, args).Sane(args)
  {
    if b.Stored? { RateMonotone(args.rate, 0.0, Max(0.0, now - b.ts)); }
  }

  lemma IdleBucketIsFull(k: Bucket, now: real, args: Args)
    requires args.Valid() && k.Sane(args) && k.Stored? && k.ts + args.ttl <= now
    ensures k.Level(now, args) == args.burst
  {
    RateMonotone(args.rate, args.ttl, now - k.ts);
  }

  /** Dropping the key after its TTL changes no verdict, whenever Redis gets round to it. */
  lemma {:induction false} ExpiryIsInvisible(b: Bucket, k: Bucket, gone: real, run: seq<Event>, args: Args)
    requires args.Valid() && k.Sane(args) && Alike(b, k, gone, args)
    requires Redis(b, gone, run, args)
    ensures ExpiringVerdicts(b, run, args) == KeptVerdicts(k, run, args)
    decreases |run|
  {
    if run != [] {
      match run[0]
      case Hit(at) =>
        if b != k { IdleBucketIsFull(k, at, args); }
        NextIsSane(k, at, args);
        ExpiryIsInvisible(b.Next(at, args), k.Next(at, args), gone, run[1..], args);
      case Vanish(at) =>
        ExpiryIsInvisible(Missing, k, at, run[1..], args);
    }
  }

  /** The clock condition is needed: a clock that steps back behind the deletion shows it. */
  lemma ClockSteppingBackShowsExpiry()
    ensures var args := Args(1.0, 1.0, 2.0); var run := [Hit(0.0), Vanish(2.0), Hit(0.0)];
            && !Redis(Missing, 0.0, run, args)
            && ExpiringVerdicts(Missing, run, args) == [true, true]
            && KeptVerdicts(Missing, run, args) == [true, false]
  {
    var args := Args(1.0, 1.0, 2.0);
    var run := [Hit(0.0), Vanish(2.0), Hit(0.0)];
    var b := Missing.Next(0.0, args);
    assert run[1..] == [Vanish(2.0), Hit(0.0)] && run[1..][1..] == [Hit(0.0)];
    assert ExpiringVerdicts(b, run[1..], args) == ExpiringVerdicts(Missing, [Hit(0.0)], args) == [true];
    assert KeptVerdicts(b, run[1..], args) == KeptVerdicts(b, [Hit(0.0)], args) == [false];
  }

  function HitsAt(now: real, n: nat): (run: seq<Event>)
    ensures |run| == n && forall i | 0 <= i < n :: run[i] == Hit(now)
  {
    seq(n, _ => Hit(now))
  }

  predicate AllAdmitted(v: seq<bool>) { forall i | 0 <= i < |v| :: v[i] }

  /** Of `n` hits at one instant, all are admitted exactly when the bucket holds `n` tokens. */
  lemma {:induction false} AtOnce(b: Bucket, now: real, n: nat, args: Args)
    requires args.Valid()
    ensures AllAdmitted(KeptVerdicts(b, HitsAt(now, n), args)) <==> n == 0 || b.Level(now, args) >= n as real
    decreases n
  {
    if n > 0 {
      var run, b' := HitsAt(now, n), b.Next(now, args);
      assert run[1..] == HitsAt(now, n - 1);
      AtOnce(b', now, n - 1, args);
      var rest := KeptVerdicts(b', run[1..], args);
      assert KeptVerdicts(b, run, args) == [b.Admits(now, args)] + rest;
      assert AllAdmitted([b.Admits(now, args)] + rest) <==> b.Admits(now, args) && AllAdmitted(rest) by {
        AllAdmittedFirst(b.Admits(now, args), rest);
      }
    }
  }

  lemma AllAdmittedFirst(first: bool, rest: seq<bool>)
    ensures AllAdmitted([first] + rest) <==> first && AllAdmitted(rest)
  {
    if AllAdmitted([first] + rest) {
      assert first == ([first] + rest)[0];
      assert forall i | 0 <= i < |rest| :: rest[i] == ([first] + rest)[i + 1];
    }
  }

  /** Exactly when a deletion shows: a key that has vanished and one that was kept agree on every run
      of hits from `now` on, if and only if the kept bucket is full at `now`. */
  lemma DeletionIsInvisibleIffFull(k: Bucket, now: real, limit: nat, args: Args)
    requires args.Valid() && args.burst == limit as real
    ensures (forall run: seq<Event> | run != [] && run[0] == Hit(now) ::
               KeptVerdicts(Missing, run, args) == KeptVerdicts(k, run, args))
       <==> k.Level(now, args) == args.burst
  {
    if k.Level(now, args) == args.burst {
      assert Missing.Next(now, args) == k.Next(now, args);
    } else {
      var run := HitsAt(now, limit);
      AtOnce(Missing, now, limit, args);
      AtOnce(k, now, limit, args);
      assert run != [] && run[0] == Hit(now);
      assert KeptVerdicts(Missing, run, args) != KeptVerdicts(k, run, args);
    }
  }

  /** A hit finds a vanished bucket and the kept one at the same level. */
  lemma TwinsAgree(b: Bucket, k: Bucket, now: real, gone: real, args: Args)
    requires args.Valid() && k.Sane(args) && Alike(b, k, gone, args) && (b != k ==> gone <= now)
    ensures b.Level(now, args) == k.Level(now, args) && b.Next(now, args) == k.Next(now, args)
    ensures b.Next(now, args).Sane(args)
  {
    if b != k { IdleBucketIsFull(k, now, args); }
    NextIsSane(k, now, args);
  }

  /** One more hit on the kept bucket is one more entry in the log. */
  lemma HitExtendsLog(times: seq<real>, now: real, args: Args)
    requires args.Valid()
    ensures var k := BucketAfter(times, args); var v := LogVerdicts(times, args);
            && BucketAfter(times + [now], args) == k.Next(now, args)
            && (k.Admits(now, args) <==> LogAllows(times + [now], v, args))
            && LogVerdicts(times + [now], args) == v + [k.Admits(now, args)]
  {
    hide Budget, Bucket.Level;
    assert Init(times + [now]) == times;
    ScriptIsSlidingLog(times, args);
    ScriptIsSlidingLog(times + [now], args);
    assert Last(ScriptVerdicts(times + [now], args)) == Last(LogVerdicts(times + [now], args));
  }

  // ----- The script itself, over one key in Redis -----

  /** The script's local computation on the hash it read. */
  method RunScript(stored: Bucket, now: real, args: Args) returns (allowed: bool, after: Bucket)
    requires args.Valid()
    ensures allowed == stored.Admits(now, args) && after == stored.Next(now, args)
  {
    var tokens, ts := args.burst, now;
    if stored.Stored? {
      tokens, ts := stored.tokens, stored.ts;
    }
    tokens := Min(args.burst, tokens + Max(0.0, now - ts) * args.rate);
    allowed := false;
    if tokens >= 1.0 {
      tokens := tokens - 1.0;
      allowed := true;
    }
    after := Stored(tokens, now);
  }

  class RedisKey {
    const args: Args
    var bucket: Bucket
    var expireAt: real
    // Every hit so far and its verdict, and the instant of the latest deletion.
    ghost var times: seq<real>
    ghost var verdicts: seq<bool>
    ghost var gone: real

    ghost predicate Valid()
      reads this
    {
      && args.Valid()
      && verdicts == LogVerdicts(times, args)
      && BucketAfter(times, args).Sane(args)
      && Alike(bucket, BucketAfter(times, args), gone, args)
      && (bucket.Stored? ==> expireAt == bucket.ts + args.ttl)
    }

    constructor (args: Args)
      requires args.Valid()
      ensures Valid() && this.args == args && times == [] && bucket == Missing
    {
      this.args := args;
      bucket, expireAt := Missing, 0.0;
      times, verdicts, gone := [], [], 0.0;
    }

    /** `hit`: one atomic run of the script.  Its verdict is the sliding log's verdict. */
    method Hit(now: real) returns (allowed: bool)
      requires Valid()
      requires bucket.Missing? && times != [] ==> gone <= now
      modifies this
      ensures Valid()
      ensures times == old(times) + [now] && verdicts == old(verdicts) + [allowed]
      ensures allowed <==> LogAllows(times, old(verdicts), args)
      ensures bucket == old(bucket).Next(now, args) && expireAt == now + args.ttl && gone == old(gone)
    {
      assert times == [] ==> BucketAfter(times, args) == Missing;
      hide Budget, LogAllows, Count, LogVerdicts, BucketAfter, Bucket.Level, Bucket.Sane;
      TwinsAgree(bucket, BucketAfter(times, args), now, gone, args);
      HitExtendsLog(times, now, args);
      allowed, bucket := RunScript(bucket, now, args);
      expireAt := now + args.ttl;
      times, verdicts := times + [now], verdicts + [allowed];
    }

    /** Redis drops the key, at any moment after its time to live. */
    method Vanish(now: real)
      requires Valid() && bucket.Stored? && now >= expireAt
      modifies this
      ensures Valid() && bucket == Missing && gone == now
      ensures times == old(times) && verdicts == old(verdicts)
    {
      bucket, gone := Missing, now;
    }
  }
}
