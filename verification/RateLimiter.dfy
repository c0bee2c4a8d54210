/**
 The per-IP token bucket of ingress (apps/ingress/internal/ingress/handler.go),
 built by `NewHandler` with a rate of limit/60 tokens a second and a burst of
 limit. Time and tokens are reals.
 */
module RateLimiter {
  import opened Prelude

  datatype Bucket = Bucket(tokens: real, last: real)

  type Buckets = map<string, Bucket>

  const IDLE_EXPIRY := 600.0

  /** Tokens earned in `dt` seconds. */
  function Earned(limit: nat, dt: real): (r: real) {
    limit as real * dt / 60.0
  }

  function Refilled(limit: nat, b: Bucket, now: real): (r: real) {
    Min(limit as real, b.tokens + Earned(limit, now - b.last))
  }

  /** The tokens an IP has at `now`; one without a bucket has a full one. */
  function Level(limit: nat, bs: Buckets, ip: string, now: real): (r: real) {
    if ip in bs then Refilled(limit, bs[ip], now) else limit as real
  }

  /** Decisions of an allow step. */
  predicate Allows(limit: nat, bs: Buckets, ip: string, now: real) {
    Level(limit, bs, ip, now) >= 1.0
  }

  function AfterAllow(limit: nat, bs: Buckets, ip: string, now: real): (r: Buckets) {
    var level := Level(limit, bs, ip, now);
    bs[ip := Bucket(if level >= 1.0 then level - 1.0 else level, now)]
  }

  function AfterCleanup(bs: Buckets, readAt: real): (r: Buckets) {
    map ip | ip in bs && !(bs[ip].last < readAt - IDLE_EXPIRY) :: bs[ip]
  }

  class IpRateLimiter {
    var buckets: Buckets
    const limit: nat

    constructor (limit: nat)
      ensures buckets == map[] && this.limit == limit
    {
      buckets, this.limit := map[], limit;
    }

    /** `allow`; `seen` is the clock when a missing bucket is made, `now` the later reading. */
    method Allow(ip: string, seen: real, now: real) returns (ok: bool)
      requires seen <= now
      modifies this
      ensures ok <==> Allows(limit, old(buckets), ip, now)
      ensures buckets == AfterAllow(limit, old(buckets), ip, now)
    {
      var burst := limit as real;
      var b := if ip in buckets then buckets[ip] else Bucket(burst, seen);
      buckets := buckets[ip := b];
      var elapsed := now - b.last;
      var rate := burst / 60.0;
      var tokens := Min(burst, b.tokens + elapsed * rate);
      EarnedIsRate(limit, elapsed);
      EarnedMonotone(limit, 0.0, now - seen);
      hide Earned;
      assert tokens == Level(limit, old(buckets), ip, now);
      ok := tokens >= 1.0;
      if ok { tokens := tokens - 1.0; }
      buckets := buckets[ip := Bucket(tokens, now)];
    }

    /** One tick of `cleanupLoop`; the cutoff was read from the clock before the lock. */
    method Cleanup(readAt: real)
      modifies this
      ensures buckets == AfterCleanup(old(buckets), readAt)
    {
      var cutoff := readAt - IDLE_EXPIRY;
      var todo := buckets.Keys;
      var kept := buckets;
      while todo != {}
        invariant todo <= buckets.Keys && buckets == old(buckets)
        invariant kept == map ip | ip in buckets && (ip in todo || !(buckets[ip].last < cutoff)) :: buckets[ip]
        decreases todo
      {
        var ip :| ip in todo;
        if buckets[ip].last < cutoff { kept := kept - {ip}; }
        todo := todo - {ip};
      }
      buckets := kept;
    }
  }

  lemma EarnedIsRate(limit: nat, dt: real)
    ensures Earned(limit, dt) == dt * (limit as real / 60.0)
  {
    var l := limit as real;
    assert dt * (l / 60.0) * 60.0 == dt * l;
  }

  lemma EarnedAdd(limit: nat, a: real, b: real)
    ensures Earned(limit, a + b) == Earned(limit, a) + Earned(limit, b)
  {
    var l := limit as real;
    assert l * (a + b) == l * a + l * b;
  }

  lemma EarnedMonotone(limit: nat, a: real, b: real)
    requires a <= b
    ensures Earned(limit, a) <= Earned(limit, b) && Earned(limit, 0.0) == 0.0
  {
    var l := limit as real;
    assert l * (b - a) >= 0.0;
    assert l * b == l * a + l * (b - a);
  }

  // ---------------------------------------------------------------- runs

  datatype Event = Allow(ip: string, now: real) | Cleanup(readAt: real, now: real)

  /** The clock never goes back, and a cleanup reads it before it gets the lock. */
  predicate Ordered(es: seq<Event>, from: real) {
    es == [] || (from <= es[0].now && (es[0].Cleanup? ==> es[0].readAt <= es[0].now) && Ordered(es[1..], es[0].now))
  }

  function Step(limit: nat, evict: bool, bs: Buckets, e: Event): (r: Buckets) {
    match e
    case Allow(ip, now) => AfterAllow(limit, bs, ip, now)
    case Cleanup(readAt, _) => if evict then AfterCleanup(bs, readAt) else bs
  }

  /** The answers of a run, one per event; a cleanup answers false. */
  function Answers(limit: nat, evict: bool, bs: Buckets, es: seq<Event>): (r: seq<bool>)
    ensures |r| == |es|
    decreases |es|
  {
    if es == [] then []
    else
      var ok := es[0].Allow? && Allows(limit, bs, es[0].ip, es[0].now);
      [ok] + Answers(limit, evict, Step(limit, evict, bs, es[0]), es[1..])
  }

  predicate Sane(limit: nat, bs: Buckets, now: real) {
    forall ip :: ip in bs ==> 0.0 <= bs[ip].tokens <= limit as real && bs[ip].last <= now
  }

  lemma LevelBounds(limit: nat, bs: Buckets, ip: string, now: real)
    requires Sane(limit, bs, now)
    ensures 0.0 <= Level(limit, bs, ip, now) <= limit as real
  {
    if ip in bs { EarnedMonotone(limit, 0.0, now - bs[ip].last); }
  }

  lemma StepSane(limit: nat, evict: bool, bs: Buckets, e: Event)
    requires Sane(limit, bs, e.now)
    ensures Sane(limit, Step(limit, evict, bs, e), e.now)
  {
    if e.Allow? { LevelBounds(limit, bs, e.ip, e.now); }
  }

  // ---------------------------------------------------------------- eviction is unobservable

  /** A bucket is dropped exactly when it has not been used for more than ten minutes. */
  lemma EvictedIffIdle(bs: Buckets, readAt: real, ip: string)
    requires ip in bs
    ensures ip !in AfterCleanup(bs, readAt) <==> readAt - bs[ip].last > 600.0
    ensures ip in AfterCleanup(bs, readAt) ==> AfterCleanup(bs, readAt)[ip] == bs[ip]
  {
  }

  /** `a` is `b` without some buckets that are full at `now`. */
  predicate SameUpToFull(limit: nat, a: Buckets, b: Buckets, now: real) {
    && (forall ip :: ip in a ==> ip in b && a[ip] == b[ip])
    && (forall ip :: ip in b && ip !in a ==> b[ip].tokens + Earned(limit, now - b[ip].last) >= limit as real)
  }

  lemma StayFull(limit: nat, a: Buckets, b: Buckets, t: real, now: real)
    requires SameUpToFull(limit, a, b, t) && t <= now
    ensures SameUpToFull(limit, a, b, now)
  {
    forall ip | ip in b && ip !in a ensures b[ip].tokens + Earned(limit, now - b[ip].last) >= limit as real {
      EarnedMonotone(limit, t - b[ip].last, now - b[ip].last);
    }
  }

  /** Ten idle minutes refill any bucket. */
  lemma IdleIsFull(limit: nat, b: Bucket, readAt: real, now: real)
    requires b.tokens >= 0.0 && b.last < readAt - IDLE_EXPIRY && readAt <= now
    ensures b.tokens + Earned(limit, now - b.last) >= limit as real
  {
    EarnedMonotone(limit, 600.0, now - b.last);
  }

  lemma StepSame(limit: nat, a: Buckets, b: Buckets, e: Event)
    requires SameUpToFull(limit, a, b, e.now) && Sane(limit, b, e.now) && (e.Cleanup? ==> e.readAt <= e.now)
    ensures SameUpToFull(limit, Step(limit, true, a, e), Step(limit, false, b, e), e.now)
    ensures e.Allow? ==> Level(limit, a, e.ip, e.now) == Level(limit, b, e.ip, e.now)
  {
    if e.Cleanup? {
      forall ip | ip in b && ip !in AfterCleanup(a, e.readAt)
        ensures b[ip].tokens + Earned(limit, e.now - b[ip].last) >= limit as real
      {
        if ip in a { IdleIsFull(limit, a[ip], e.readAt, e.now); }
      }
    }
  }

  /** With and without idle eviction, every call of every run gets the same answer. */
  lemma {:induction false} EvictionUnobservable(limit: nat, a: Buckets, b: Buckets, es: seq<Event>, from: real)
    requires Ordered(es, from) && SameUpToFull(limit, a, b, from) && Sane(limit, b, from)
    ensures Answers(limit, true, a, es) == Answers(limit, false, b, es)
    decreases |es|
  {
    hide Step, Level;
    if es != [] {
      var e := es[0];
      StayFull(limit, a, b, from, e.now);
      StepSame(limit, a, b, e);
      StepSane(limit, false, b, e);
      EvictionUnobservable(limit, Step(limit, true, a, e), Step(limit, false, b, e), es[1..], e.now);
    }
  }

  // ---------------------------------------------------------------- the window bound

  function Allowed(es: seq<Event>, answers: seq<bool>, ip: string): (n: nat)
    requires |es| == |answers|
  {
    if es == [] then 0
    else (if es[0].Allow? && es[0].ip == ip && answers[0] then 1 else 0) + Allowed(es[1..], answers[1..], ip)
  }

  lemma LevelGrows(limit: nat, bs: Buckets, ip: string, t: real, now: real)
    requires t <= now
    ensures Level(limit, bs, ip, now) <= Level(limit, bs, ip, t) + Earned(limit, now - t)
  {
    EarnedMonotone(limit, 0.0, now - t);
    if ip in bs {
      EarnedAdd(limit, t - bs[ip].last, now - t);
      assert (t - bs[ip].last) + (now - t) == now - bs[ip].last;
    }
  }

  /** What a step costs: an allowed call takes one token, nothing else takes any. */
  lemma StepCost(limit: nat, evict: bool, bs: Buckets, e: Event, ip: string)
    requires Sane(limit, bs, e.now) && (e.Cleanup? ==> e.readAt <= e.now)
    ensures var spent := if e.Allow? && e.ip == ip && Allows(limit, bs, ip, e.now) then 1.0 else 0.0;
            Level(limit, Step(limit, evict, bs, e), ip, e.now) == Level(limit, bs, ip, e.now) - spent
  {
    LevelBounds(limit, bs, ip, e.now);
    EarnedMonotone(limit, 0.0, 0.0);
    if e.Cleanup? && ip in bs && ip !in AfterCleanup(bs, e.readAt) {
      IdleIsFull(limit, bs[ip], e.readAt, e.now);
    }
  }

  /** The calls allowed in a run are paid for by the tokens at its start and those earned since. */
  lemma {:induction false} RunBudget(limit: nat, evict: bool, bs: Buckets, es: seq<Event>, from: real, until: real,
                                     ip: string)
    requires Ordered(es, from) && Sane(limit, bs, from) && from <= until
    requires forall i :: 0 <= i < |es| ==> es[i].now <= until
    ensures Allowed(es, Answers(limit, evict, bs, es), ip) as real <= Level(limit, bs, ip, from)
              + Earned(limit, until - from)
    decreases |es|
  {
    hide Step, Level;
    if es == [] {
      LevelBounds(limit, bs, ip, from);
      EarnedMonotone(limit, 0.0, until - from);
    } else {
      var e := es[0];
      var next := Step(limit, evict, bs, e);
      assert Sane(limit, bs, e.now);
      StepSane(limit, evict, bs, e);
      StepCost(limit, evict, bs, e, ip);
      LevelGrows(limit, bs, ip, from, e.now);
      RunBudget(limit, evict, next, es[1..], e.now, until, ip);
      EarnedAdd(limit, e.now - from, until - e.now);
      assert (e.now - from) + (until - e.now) == until - from;
      assert Answers(limit, evict, bs, es)[1..] == Answers(limit, evict, next, es[1..]);
    }
  }

  function AfterRun(limit: nat, evict: bool, bs: Buckets, es: seq<Event>): (r: Buckets)
    decreases |es|
  {
    if es == [] then bs else AfterRun(limit, evict, Step(limit, evict, bs, es[0]), es[1..])
  }

  lemma SaneLater(limit: nat, bs: Buckets, t: real, now: real)
    requires Sane(limit, bs, t) && t <= now
    ensures Sane(limit, bs, now)
  {
  }

  lemma FirstAnswer(limit: nat, evict: bool, bs: Buckets, es: seq<Event>)
    requires es != []
    ensures var next := Step(limit, evict, bs, es[0]);
            && Answers(limit, evict, bs, es)[1..] == Answers(limit, evict, next, es[1..])
            && AfterRun(limit, evict, bs, es) == AfterRun(limit, evict, next, es[1..])
  {
    hide Step, Allows;
  }

  /** A run goes on from where its first events leave off. */
  lemma {:induction false} RunSplit(limit: nat, evict: bool, bs: Buckets, es: seq<Event>, k: nat, from: real)
    requires k <= |es| && Ordered(es, from) && Sane(limit, bs, from)
    ensures Answers(limit, evict, bs, es)[k..] == Answers(limit, evict, AfterRun(limit, evict, bs, es[..k]), es[k..])
    ensures var t := if k == 0 then from else es[k - 1].now;
            Ordered(es[k..], t) && Sane(limit, AfterRun(limit, evict, bs, es[..k]), t)
    decreases |es|
  {
    hide Step, Sane, Answers;
    if k == 0 {
      assert es[..k] == [] && es[k..] == es;
    } else {
      var next := Step(limit, evict, bs, es[0]);
      SaneLater(limit, bs, from, es[0].now);
      StepSane(limit, evict, bs, es[0]);
      RunSplit(limit, evict, next, es[1..], k - 1, es[0].now);
      FirstAnswer(limit, evict, bs, es);
      FirstAnswer(limit, evict, bs, es[..k]);
      assert es[..k][1..] == es[1..][..k - 1] && es[k..] == es[1..][k - 1..];
      Dropped(Answers(limit, evict, bs, es), k);
    }
  }

  lemma Dropped<T>(s: seq<T>, k: nat)
    requires 1 <= k <= |s|
    ensures s[k..] == s[1..][k - 1..]
  {
  }

  /** The first events of a run are a run, with the same answers. */
  lemma PrefixRun(limit: nat, evict: bool, bs: Buckets, es: seq<Event>, n: nat, from: real)
    requires n <= |es| && Ordered(es, from)
    ensures Ordered(es[..n], from)
    ensures Answers(limit, evict, bs, es)[..n] == Answers(limit, evict, bs, es[..n])
  {
    PrefixOrdered(es, n, from);
    PrefixAnswers(limit, evict, bs, es, n);
  }

  /**
   In every run and every window [s, t], an IP is allowed at most
   burst + rate * (t - s) times. The window holds the events `i` to `j`.
   */
  lemma WindowBound(limit: nat, evict: bool, es: seq<Event>, from: real, i: nat, j: nat, s: real, t: real, ip: string)
    requires Ordered(es, from) && i <= j <= |es| && s <= t
    requires forall k :: i <= k < j ==> s <= es[k].now <= t
    ensures Allowed(es[i..j], Answers(limit, evict, map[], es)[i..j], ip) as real <= limit as real
              + Earned(limit, t - s)
  {
    hide Answers, Level, Allowed, AfterRun, Sane, Ordered;
    var answers := Answers(limit, evict, map[], es);
    EarnedMonotone(limit, 0.0, t - s);
    if i == j {
      NothingAllowed(ip);
      assert es[i..j] == [] && answers[i..j] == [];
    } else {
      var bs := AfterRun(limit, evict, map[], es[..i]);
      NobodySane(limit, from);
      RunSplit(limit, evict, map[], es, i, from);
      var u, v := es[i].now, if i == 0 then from else es[i - 1].now;
      OrderedFromFirst(es[i..], v);
      SaneLater(limit, bs, v, u);
      var window := es[i..][..j - i];
      assert window == es[i..j];
      PrefixRun(limit, evict, bs, es[i..], j - i, u);
      assert answers[i..j] == answers[i..][..j - i];
      forall k | 0 <= k < |window| ensures window[k].now <= t { assert window[k] == es[i + k]; }
      RunBudget(limit, evict, bs, window, u, t, ip);
      LevelBounds(limit, bs, ip, u);
      EarnedMonotone(limit, t - u, t - s);
    }
  }

  lemma NobodySane(limit: nat, t: real)
    ensures Sane(limit, map[], t)
  {
  }

  lemma OrderedFromFirst(es: seq<Event>, t: real)
    requires es != [] && Ordered(es, t)
    ensures t <= es[0].now && Ordered(es, es[0].now)
  {
  }

  lemma NothingAllowed(ip: string)
    ensures Allowed([], [], ip) == 0
  {
  }

  lemma {:induction false} PrefixOrdered(es: seq<Event>, n: nat, from: real)
    requires n <= |es| && Ordered(es, from)
    ensures Ordered(es[..n], from)
  {
    if n > 0 {
      PrefixOrdered(es[1..], n - 1, es[0].now);
      assert es[..n][1..] == es[1..][..n - 1];
    }
  }

  lemma {:induction false} PrefixAnswers(limit: nat, evict: bool, bs: Buckets, es: seq<Event>, n: nat)
    requires n <= |es|
    ensures Answers(limit, evict, bs, es)[..n] == Answers(limit, evict, bs, es[..n])
    decreases |es|
  {
    hide Step;
    if n > 0 {
      PrefixAnswers(limit, evict, Step(limit, evict, bs, es[0]), es[1..], n - 1);
      assert es[..n][1..] == es[1..][..n - 1];
    }
  }

  // ---------------------------------------------------------------- the bound is used up

  /** Between two readings a level earns, unless it is full. */
  lemma LevelExact(limit: nat, bs: Buckets, ip: string, t: real, now: real)
    requires t <= now && Sane(limit, bs, t)
    ensures Level(limit, bs, ip, now) == limit as real
            || (ip in bs && Level(limit, bs, ip, now) == Level(limit, bs, ip, t) + Earned(limit, now - t))
  {
    if ip in bs {
      EarnedMonotone(limit, 0.0, now - t);
      EarnedAdd(limit, t - bs[ip].last, now - t);
      assert (t - bs[ip].last) + (now - t) == now - bs[ip].last;
    }
  }

  /** What is left at `t` of a full bucket at event `i`; of one at `t` itself when `i` is past the last event. */
  function Left(limit: nat, es: seq<Event>, answers: seq<bool>, i: nat, t: real, ip: string): (r: real)
    requires i <= |es| == |answers|
  {
    limit as real + (if i < |es| then Earned(limit, t - es[i].now) else 0.0)
    - Allowed(es[i..], answers[i..], ip) as real
  }

  lemma LeftLater(limit: nat, es: seq<Event>, answers: seq<bool>, i: nat, t: real, ip: string)
    requires i < |es| == |answers|
    ensures Left(limit, es, answers, i + 1, t, ip) == Left(limit, es[1..], answers[1..], i, t, ip)
  {
    assert es[1..][i..] == es[i + 1..] && answers[1..][i..] == answers[i + 1..];
  }

  lemma LeftFirst(limit: nat, es: seq<Event>, answers: seq<bool>, t: real, ip: string)
    requires 0 < |es| == |answers|
    ensures Left(limit, es, answers, 0, t, ip) ==
            limit as real + Earned(limit, t - es[0].now)
            - (if es[0].Allow? && es[0].ip == ip && answers[0] then 1.0 else 0.0)
            - Allowed(es[1..], answers[1..], ip) as real
  {
    assert es[0..] == es && answers[0..] == answers;
  }

  /** The level a run leaves is exactly what is left since the start or since some full bucket. */
  lemma {:induction false} LevelLeft(limit: nat, evict: bool, bs: Buckets, es: seq<Event>, from: real, t: real,
                                     ip: string) returns (i: nat)
    requires Ordered(es, from) && Sane(limit, bs, from) && from <= t && forall k :: 0 <= k < |es| ==> es[k].now <= t
    ensures var answers, level := Answers(limit, evict, bs, es), Level(limit, AfterRun(limit, evict, bs, es), ip, t);
            || (i <= |es| && level == Left(limit, es, answers, i, t, ip))
            || (ip in bs && level == Level(limit, bs, ip, from) + Earned(limit, t - from)
                                     - Allowed(es, answers, ip) as real)
    decreases |es|
  {
    hide Step, Level, Sane, Left, Earned, Allows;
    i := 0;
    if es == [] {
      LevelExact(limit, bs, ip, from, t);
      NothingLeft(limit, t, ip);
    } else {
      var e, next, answers := es[0], Step(limit, evict, bs, es[0]), Answers(limit, evict, bs, es);
      SaneLater(limit, bs, from, e.now);
      StepSane(limit, evict, bs, e);
      StepCost(limit, evict, bs, e, ip);
      LevelExact(limit, bs, ip, from, e.now);
      FirstAnswer(limit, evict, bs, es);
      LeftFirst(limit, es, answers, t, ip);
      EarnedAdd(limit, e.now - from, t - e.now);
      assert (e.now - from) + (t - e.now) == t - from;
      var j := LevelLeft(limit, evict, next, es[1..], e.now, t, ip);
      var level := Level(limit, AfterRun(limit, evict, bs, es), ip, t);
      if j <= |es[1..]| && level == Left(limit, es[1..], answers[1..], j, t, ip) {
        LeftLater(limit, es, answers, j, t, ip);
        i := j + 1;
      }
    }
  }

  lemma NothingLeft(limit: nat, t: real, ip: string)
    ensures Left(limit, [], [], 0, t, ip) == limit as real
  {
  }

  /** The window from event `i` to the call `n` has room for one more. */
  predicate Room(limit: nat, es: seq<Event>, answers: seq<bool>, i: nat, n: nat, ip: string)
    requires i <= n < |es| == |answers|
  {
    Allowed(es[i..n], answers[i..n], ip) as real + 1.0 <= limit as real + Earned(limit, es[n].now - es[i].now)
  }

  lemma {:induction false} AllowedMore(es: seq<Event>, answers: seq<bool>, ip: string)
    requires 0 < |es| == |answers|
    ensures var n := |es| - 1;
            Allowed(es, answers, ip) == Allowed(es[..n], answers[..n], ip)
                                        + (if es[n].Allow? && es[n].ip == ip && answers[n] then 1 else 0)
  {
    var n := |es| - 1;
    if n > 0 {
      AllowedMore(es[1..], answers[1..], ip);
      assert es[1..][..n - 1] == es[..n][1..] && answers[1..][..n - 1] == answers[..n][1..];
    }
  }

  /** The level before a call is the one its run so far leaves, and decides the call. */
  lemma CallDecided(limit: nat, evict: bool, es: seq<Event>, from: real, n: nat)
    requires Ordered(es, from) && n < |es| && es[n].Allow?
    ensures Answers(limit, evict, map[], es)[n] <==>
            Level(limit, AfterRun(limit, evict, map[], es[..n]), es[n].ip, es[n].now) >= 1.0
  {
    hide Level, AfterRun, Sane, Ordered, Step;
    NobodySane(limit, from);
    RunSplit(limit, evict, map[], es, n, from);
    assert Answers(limit, evict, map[], es)[n..][0] == Answers(limit, evict, map[], es)[n];
    assert es[n..][0] == es[n];
  }

  /**
   In every run a call is allowed exactly when every window that ends with it has room for it: the
   limiter refuses no call that the window bound lets through.
   */
  lemma AllowedIffRoom(limit: nat, evict: bool, es: seq<Event>, from: real, n: nat)
    requires Ordered(es, from) && n < |es| && es[n].Allow?
    ensures Answers(limit, evict, map[], es)[n] <==>
            forall i :: 0 <= i <= n ==> Room(limit, es, Answers(limit, evict, map[], es), i, n, es[n].ip)
  {
    hide Answers, Level, AfterRun, Sane, Ordered, Room, Earned;
    var answers, ip, t := Answers(limit, evict, map[], es), es[n].ip, es[n].now;
    CallDecided(limit, evict, es, from, n);
    if answers[n] {
      forall i | 0 <= i <= n ensures Room(limit, es, answers, i, n, ip) {
        LaterEvents(es, from, i, n);
        WindowBound(limit, evict, es, from, i, n + 1, es[i].now, t, ip);
        RoomFromBound(limit, es, answers, i, n, ip);
      }
    } else {
      NobodySane(limit, from);
      LaterEvents(es, from, 0, n);
      PrefixRun(limit, evict, map[], es, n, from);
      OrderedFromFirst(es, from);
      var i := LevelLeft(limit, evict, map[], es[..n], from, t, ip);
      NoRoom(limit, es, answers, i, n, ip);
    }
  }

  lemma {:induction false} LaterEvents(es: seq<Event>, from: real, i: nat, n: nat)
    requires Ordered(es, from) && i <= n < |es|
    ensures forall k :: i <= k <= n ==> es[i].now <= es[k].now <= es[n].now
    ensures from <= es[n].now
    decreases |es|
  {
    if i > 0 {
      LaterEvents(es[1..], es[0].now, i - 1, n - 1);
      forall k | i <= k <= n ensures es[i].now <= es[k].now <= es[n].now { assert es[k] == es[1..][k - 1]; }
    } else if n > 0 {
      LaterEvents(es[1..], es[0].now, 0, n - 1);
      forall k | 0 <= k <= n ensures es[0].now <= es[k].now <= es[n].now {
        if k > 0 { assert es[k] == es[1..][k - 1]; }
      }
    }
  }

  lemma RoomFromBound(limit: nat, es: seq<Event>, answers: seq<bool>, i: nat, n: nat, ip: string)
    requires i <= n < |es| == |answers| && es[n].Allow? && es[n].ip == ip && answers[n]
    requires Allowed(es[i..n + 1], answers[i..n + 1], ip) as real
             <= limit as real + Earned(limit, es[n].now - es[i].now)
    ensures Room(limit, es, answers, i, n, ip)
  {
    hide Earned;
    var w, a := es[i..n + 1], answers[i..n + 1];
    AllowedMore(w, a, ip);
    assert w[..n - i] == es[i..n] && a[..n - i] == answers[i..n] && w[n - i] == es[n] && a[n - i] == answers[n];
  }

  lemma NoRoom(limit: nat, es: seq<Event>, answers: seq<bool>, i: nat, n: nat, ip: string)
    requires i <= n < |es| == |answers| && Left(limit, es[..n], answers[..n], i, es[n].now, ip) < 1.0
    ensures !Room(limit, es, answers, i, n, ip)
  {
    assert es[..n][i..] == es[i..n] && answers[..n][i..] == answers[i..n];
    if i == n { assert Earned(limit, es[n].now - es[i].now) == 0.0 by { EarnedMonotone(limit, 0.0, 0.0); } }
  }

  /** From an address not seen before, exactly the first `limit` of any number of calls at one instant are allowed. */
  lemma FreshBurst(limit: nat, evict: bool, bs: Buckets, ip: string, t: real, n: nat)
    requires ip !in bs
    ensures var answers := Answers(limit, evict, bs, seq(n, _ => Allow(ip, t)));
            forall j :: 0 <= j < n ==> (answers[j] <==> j < limit)
  {
    BurstFrom(limit, evict, bs, ip, t, n, limit);
  }

  lemma {:induction false} BurstFrom(limit: nat, evict: bool, bs: Buckets, ip: string, t: real, n: nat, left: nat)
    requires Level(limit, bs, ip, t) == left as real && left <= limit
    ensures var answers := Answers(limit, evict, bs, seq(n, _ => Allow(ip, t)));
            forall j :: 0 <= j < n ==> (answers[j] <==> j < left)
    decreases n
  {
    if n > 0 {
      var es := seq(n, _ => Allow(ip, t));
      var next := Step(limit, evict, bs, es[0]);
      EarnedMonotone(limit, 0.0, 0.0);
      assert es[1..] == seq(n - 1, _ => Allow(ip, t));
      BurstFrom(limit, evict, next, ip, t, n - 1, if left > 0 then left - 1 else 0);
      FirstAnswer(limit, evict, bs, es);
    }
  }
}
