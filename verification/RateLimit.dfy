/**
 * The fixed-window rate limiter: a counter per API key and time bucket in Redis,
 * incremented by a script that also sets its expiry. The caller reads its clock,
 * and so chooses the bucket, some time before the script runs.
 */
module RateLimit {
  import opened Base
  import opened Decimals

  /** A stored counter; `deadline` is the instant in milliseconds at which it expires. */
  datatype Counter = Counter(count: nat, deadline: Option<int>)

  type Store = map<string, Counter>

  /**
   * One script run for `id`: the caller read `clock`, Redis ran the script at `at`.
   * `lingers` says whether a counter is still there in the very millisecond of its
   * deadline, which Redis versions decide differently.
   */
  datatype Event = Event(id: string, clock: nat, at: nat, lingers: bool)

  function RedisKey(id: string, bucket: nat): string {
    "rl:" + id + ":" + Decimal(bucket)
  }

  function Bucket(e: Event, window: nat): nat
    requires window >= 1
  {
    e.clock / window
  }

  function KeyOf(e: Event, window: nat): string
    requires window >= 1
  {
    RedisKey(e.id, Bucket(e, window))
  }

  predicate Live(store: Store, key: string, at: nat, lingers: bool) {
    key in store && match store[key].deadline case None => true case Some(d) => at < d || (at == d && lingers)
  }

  /** INCR, then PEXPIRE if the counter is new; returns the new count. */
  function Script(store: Store, key: string, at: nat, lingers: bool, window: nat): (r: (Store, nat)) {
    var current := if Live(store, key, at, lingers) then store[key] else Counter(0, None);
    var c := current.count + 1;
    (store[key := Counter(c, if c == 1 then Some(at + window) else current.deadline)], c)
  }

  // ---- keys do not collide ----------------------------------------------------

  lemma DecimalHasNoColon(n: nat)
    ensures ':' !in Decimal(n)
  {
  }

  /** Text before and after the last colon is determined by the whole. */
  lemma LastColon(p1: string, d1: string, p2: string, d2: string)
    requires p1 + ":" + d1 == p2 + ":" + d2 && ':' !in d1 && ':' !in d2
    ensures p1 == p2 && d1 == d2
  {
    var s := p1 + ":" + d1;
    assert s[|p1|] == ':' && s[|p2|] == ':';
    assert forall i | |p1| < i < |s| :: s[i] == d1[i - |p1| - 1];
    assert forall i | |p2| < i < |s| :: s[i] == d2[i - |p2| - 1];
    assert |p1| == |p2|;
    assert p1 == s[..|p1|] && p2 == s[..|p1|];
    assert d1 == s[|p1| + 1..] && d2 == s[|p1| + 1..];
  }

  /** Different API keys or buckets never share a Redis key. */
  lemma RedisKeyInjective(id1: string, b1: nat, id2: string, b2: nat)
    requires RedisKey(id1, b1) == RedisKey(id2, b2)
    ensures id1 == id2 && b1 == b2
  {
    DecimalHasNoColon(b1);
    DecimalHasNoColon(b2);
    LastColon("rl:" + id1, Decimal(b1), "rl:" + id2, Decimal(b2));
    assert ("rl:" + id1)[3..] == id1 && ("rl:" + id2)[3..] == id2;
    DecimalInjective(b1, b2);
  }

  // ---- traces -------------------------------------------------------------------

  /** Script runs in the order Redis executes them, from an empty store. */
  function After(t: seq<Event>, window: nat): Store
    requires window >= 1
  {
    if t == [] then map[] else
      var e := t[|t| - 1];
      Script(After(t[..|t| - 1], window), KeyOf(e, window), e.at, e.lingers, window).0
  }

  /** The count the last event's script returns. */
  function Reply(t: seq<Event>, window: nat): nat
    requires window >= 1 && t != []
  {
    var e := t[|t| - 1];
    Script(After(t[..|t| - 1], window), KeyOf(e, window), e.at, e.lingers, window).1
  }

  ghost predicate Ordered(t: seq<Event>) {
    && (forall e | e in t :: e.clock <= e.at)
    && (forall i, j | 0 <= i < j < |t| :: t[i].at <= t[j].at)
  }

  /** Requests tagged with `key` so far. */
  function Requests(t: seq<Event>, key: string, window: nat): nat
    requires window >= 1
  {
    if t == [] then 0 else Requests(t[..|t| - 1], key, window) + if KeyOf(t[|t| - 1], window) == key then 1 else 0
  }

  /** Requests tagged with `key` that were allowed so far. */
  function Admitted(t: seq<Event>, key: string, max: int, window: nat): nat
    requires window >= 1
  {
    if t == [] then 0 else
      var admits := KeyOf(t[|t| - 1], window) == key && Reply(t, window) <= max;
      Admitted(t[..|t| - 1], key, max, window) + if admits then 1 else 0
  }

  /** Every counter that exists has a deadline, so none is immortal. */
  lemma {:induction false} EveryCounterHasDeadline(t: seq<Event>, window: nat)
    requires window >= 1
    ensures forall key | key in After(t, window) ::
      After(t, window)[key].deadline.Some? && After(t, window)[key].count >= 1
  {
    if t == [] {
    } else {
      EveryCounterHasDeadline(t[..|t| - 1], window);
    }
  }

  function Positive(max: int): nat {
    Max(0, max)
  }

  // ---- any delay between clock and script -----------------------------------------

  lemma TaggedClock(e: Event, id: string, bucket: nat, window: nat)
    requires window >= 1 && KeyOf(e, window) == RedisKey(id, bucket)
    ensures e.id == id && bucket * window <= e.clock < bucket * window + window
  {
    RedisKeyInjective(e.id, Bucket(e, window), id, bucket);
    QuotientBetween(e.clock, window, bucket);
  }

  /** How many whole windows after the bucket's start a lifetime began. */
  function Age(start: int, bucket: nat, window: nat): int
    requires window >= 1
  {
    (start - bucket * window) / window
  }

  lemma AgeGrows(start: int, later: int, bucket: nat, window: nat)
    requires window >= 1 && later >= start + window
    ensures Age(later, bucket, window) >= Age(start, bucket, window) + 1
  {
    var x, y := start - bucket * window, later - bucket * window;
    QuotientBetween(x, window, x / window);
    QuotientBetween(y, window, x / window + 1);
    assert (x / window + 1) * window == (x / window) * window + window;
  }

  /** What `lifetimes` whole lifetimes of a counter admit. */
  function Budget(max: int, lifetimes: int): int {
    Positive(max) * lifetimes
  }

  /** A counter that has been started anew `Age` times at most has admitted `max` in each earlier lifetime. */
  ghost predicate LifetimeBound(t: seq<Event>, id: string, bucket: nat, max: int, window: nat)
    requires window >= 1
  {
    var key := RedisKey(id, bucket);
    var store := After(t, window);
    if key !in store then Admitted(t, key, max, window) == 0
    else
      && store[key].deadline.Some? && store[key].count >= 1
      && var start := store[key].deadline.value - window;
         start >= bucket * window
         && Admitted(t, key, max, window)
            <= Budget(max, Age(start, bucket, window)) + Min(store[key].count, Positive(max))
  }

  lemma TimesMax(max: int, a: int, b: int)
    requires a <= b
    ensures Budget(max, a) + Positive(max) <= Budget(max, b + 1)
  {
    MulMonotone(a, b, Positive(max));
    assert Positive(max) * (b + 1) == b * Positive(max) + Positive(max);
  }

  lemma FreshLifetime(max: int, start: int, at: int, bucket: nat, window: nat)
    requires window >= 1 && at >= start + window && start >= bucket * window
    ensures Budget(max, Age(start, bucket, window)) + Positive(max) <= Budget(max, Age(at, bucket, window))
  {
    AgeGrows(start, at, bucket, window);
    TimesMax(max, Age(start, bucket, window), Age(at, bucket, window) - 1);
  }

  lemma BudgetNonNegative(max: int, start: int, bucket: nat, window: nat)
    requires window >= 1 && start >= bucket * window
    ensures Budget(max, Age(start, bucket, window)) >= 0
  {
    QuotientBetween(start - bucket * window, window, 0);
    MulMonotone(0, Age(start, bucket, window), Positive(max));
  }

  lemma LifetimeStep(t: seq<Event>, id: string, bucket: nat, max: int, window: nat)
    requires window >= 1 && t != [] && t[|t| - 1].clock <= t[|t| - 1].at
    requires LifetimeBound(t[..|t| - 1], id, bucket, max, window)
    ensures LifetimeBound(t, id, bucket, max, window)
  {
    var front, e := t[..|t| - 1], t[|t| - 1];
    var key := RedisKey(id, bucket);
    var store := After(front, window);
    hide RedisKey, Age, Budget;
    if KeyOf(e, window) == key {
      TaggedClock(e, id, bucket, window);
      BudgetNonNegative(max, e.at, bucket, window);
      if key in store && !Live(store, key, e.at, e.lingers) {
        FreshLifetime(max, store[key].deadline.value - window, e.at, bucket, window);
      }
    }
  }

  lemma {:induction false} LifetimesBounded(t: seq<Event>, id: string, bucket: nat, max: int, window: nat)
    requires window >= 1 && forall e | e in t :: e.clock <= e.at
    ensures LifetimeBound(t, id, bucket, max, window)
  {
    if t == [] {
    } else {
      var front, e := t[..|t| - 1], t[|t| - 1];
      LifetimesBounded(front, id, bucket, max, window);
      LifetimeStep(t, id, bucket, max, window);
    }
  }

  /** How many lifetimes a bucket's counter can have while scripts run up to `delay` after the clock reading. */
  function Lifetimes(window: nat, delay: nat): nat
    requires window >= 1
  {
    (window - 1 + delay) / window + 1
  }

  lemma {:induction false} LatestStart(t: seq<Event>, id: string, bucket: nat, window: nat, delay: nat)
    requires window >= 1 && forall e | e in t :: e.clock <= e.at <= e.clock + delay
    ensures var key, store := RedisKey(id, bucket), After(t, window);
      key in store ==>
        && store[key].count >= 1 && store[key].deadline.Some?
        && store[key].deadline.value - window <= bucket * window + window - 1 + delay
  {
    if t == [] {
    } else {
      LatestStart(t[..|t| - 1], id, bucket, window, delay);
      var e := t[|t| - 1];
      assert e in t;
      if KeyOf(e, window) == RedisKey(id, bucket) {
        TaggedClock(e, id, bucket, window);
      }
    }
  }

  /**
   * If every request tagged with a bucket runs its script at most `delay` after reading
   * the clock, the bucket admits `max` per lifetime its counter can have in that time.
   */
  lemma AdmittedUnderDelay(t: seq<Event>, id: string, bucket: nat, max: int, window: nat, delay: nat)
    requires window >= 1 && forall e | e in t :: e.clock <= e.at <= e.clock + delay
    ensures Admitted(t, RedisKey(id, bucket), max, window) <= Budget(max, Lifetimes(window, delay))
  {
    LifetimesBounded(t, id, bucket, max, window);
    LatestStart(t, id, bucket, window, delay);
    var key := RedisKey(id, bucket);
    var store := After(t, window);
    var b := (window - 1 + delay) / window;
    QuotientBetween(window - 1 + delay, window, 0);
    if key in store {
      var start := store[key].deadline.value - window;
      DivMonotone(start - bucket * window, window - 1 + delay, window);
      TimesMax(max, Age(start, bucket, window), b);
    } else {
      TimesMax(max, 0, b);
    }
  }

  lemma TwoLifetimesBudget(max: int, window: nat)
    requires window >= 1
    ensures Budget(max, Lifetimes(window, window - 1)) <= 2 * Positive(max)
  {
    QuotientBetween(window - 1 + (window - 1), window, 2);
    assert Lifetimes(window, window - 1) <= 2;
    hide Lifetimes;
    MulMonotone(Lifetimes(window, window - 1), 2, Positive(max));
  }

  /** With a delay under one window a bucket admits at most twice `max`. */
  lemma AtMostTwoLifetimes(t: seq<Event>, id: string, bucket: nat, max: int, window: nat)
    requires window >= 1 && forall e | e in t :: e.clock <= e.at < e.clock + window
    ensures Admitted(t, RedisKey(id, bucket), max, window) <= 2 * Positive(max)
  {
    hide *;
    AdmittedUnderDelay(t, id, bucket, max, window, window - 1);
    TwoLifetimesBudget(max, window);
  }

  function Burst(e: Event, n: nat): seq<Event> {
    if n == 0 then [] else Burst(e, n - 1) + [e]
  }

  function TwoBursts(first: Event, max: nat, second: Event, n: nat): seq<Event> {
    Burst(first, max) + Burst(second, n)
  }

  /** After `t` the store is `store`, and `n` requests tagged with `key` were allowed. */
  ghost predicate Reaches(t: seq<Event>, store: Store, n: nat, key: string, max: int, window: nat)
    requires window >= 1
  {
    After(t, window) == store && Admitted(t, key, max, window) == n
  }

  lemma OneMoreRequest(t: seq<Event>, e: Event, store: Store, n: nat, key: string, max: int, window: nat)
    requires window >= 1 && KeyOf(e, window) == key
    ensures var r := Script(store, key, e.at, e.lingers, window);
      Reaches(t, store, n, key, max, window) && r.1 <= max ==> Reaches(t + [e], r.0, n + 1, key, max, window)
  {
    assert (t + [e])[..|t|] == t;
    hide KeyOf, Script;
  }

  /** The script finds no counter, a live one, or an expired one. */
  lemma ScriptCounts(key: string, c: nat, d: int, at: nat, window: nat)
    ensures Script(map[], key, at, false, window) == (map[key := Counter(1, Some(at + window))], 1)
    ensures c >= 1 && at < d ==>
      Script(map[key := Counter(c, Some(d))], key, at, false, window) == (map[key := Counter(c + 1, Some(d))], c + 1)
    ensures c >= 1 && at >= d ==>
      Script(map[key := Counter(c, Some(d))], key, at, false, window) == (map[key := Counter(1, Some(at + window))], 1)
  {
    assert forall x: Counter, y: Counter :: map[key := x][key := y] == map[key := y];
  }

  lemma FirstBucket(id: string, clock: nat, at: nat, window: nat)
    requires clock < window
    ensures KeyOf(Event(id, clock, at, false), window) == RedisKey(id, 0)
  {
    QuotientBetween(clock, window, 0);
    QuotientBetween(clock, window, 1);
    assert clock / window == 0;
  }

  lemma NoRequests(key: string, max: int, window: nat)
    requires window >= 1
    ensures Reaches([], map[], 0, key, max, window)
  {
  }

  function FirstStore(key: string, window: nat, n: nat): Store {
    if n == 0 then map[] else map[key := Counter(n, Some(window))]
  }

  lemma FirstScript(key: string, window: nat, n: nat)
    requires window >= 1
    ensures Script(FirstStore(key, window, n), key, 0, false, window) == (FirstStore(key, window, n + 1), n + 1)
  {
    ScriptCounts(key, n, window, 0, window);
    hide Script;
  }

  lemma StartsEmpty(key: string, window: nat)
    ensures FirstStore(key, window, 0) == map[]
  {
  }

  lemma BurstGrows(e: Event, n: nat)
    ensures Burst(e, 0) == [] && Burst(e, n + 1) == Burst(e, n) + [e]
  {
  }

  lemma {:induction false} FirstBurst(e: Event, key: string, window: nat, max: nat, n: nat)
    requires window >= 1 && n <= max && KeyOf(e, window) == key && e.at == 0 && !e.lingers
    ensures Reaches(Burst(e, n), FirstStore(key, window, n), n, key, max, window)
  {
    hide *;
    if n == 0 {
      BurstGrows(e, 0);
      StartsEmpty(key, window);
      NoRequests(key, max, window);
    } else {
      FirstBurst(e, key, window, max, n - 1);
      BurstGrows(e, n - 1);
      FirstScript(key, window, n - 1);
      OneMoreRequest(Burst(e, n - 1), e, FirstStore(key, window, n - 1), n - 1, key, max, window);
    }
  }

  /** The store after `n` requests of the second burst. */
  function SecondStore(key: string, window: nat, max: nat, n: nat): Store {
    map[key := if n == 0 then Counter(max, Some(window)) else Counter(n, Some(2 * window))]
  }

  lemma SecondScript(key: string, window: nat, max: nat, n: nat)
    requires window >= 1 && max >= 1
    ensures Script(SecondStore(key, window, max, n), key, window, false, window)
         == (SecondStore(key, window, max, n + 1), n + 1)
  {
    ScriptCounts(key, max, window, window, window);
    ScriptCounts(key, n, 2 * window, window, window);
    hide Script;
  }

  lemma TwoBurstsGrow(first: Event, max: nat, second: Event, n: nat)
    ensures TwoBursts(first, max, second, 0) == Burst(first, max)
    ensures TwoBursts(first, max, second, n + 1) == TwoBursts(first, max, second, n) + [second]
  {
  }

  lemma StoresMeet(key: string, window: nat, max: nat)
    requires max >= 1
    ensures SecondStore(key, window, max, 0) == FirstStore(key, window, max)
  {
  }

  lemma {:induction false} SecondBurst(first: Event, second: Event, key: string, window: nat, max: nat, n: nat)
    requires window >= 1 && 1 <= max && n <= max && KeyOf(first, window) == key == KeyOf(second, window)
    requires first.at == 0 && !first.lingers && second.at == window && !second.lingers
    ensures Reaches(TwoBursts(first, max, second, n), SecondStore(key, window, max, n), max + n, key, max, window)
  {
    hide *;
    if n == 0 {
      FirstBurst(first, key, window, max, max);
      StoresMeet(key, window, max);
      TwoBurstsGrow(first, max, second, 0);
    } else {
      SecondBurst(first, second, key, window, max, n - 1);
      TwoBurstsGrow(first, max, second, n - 1);
      SecondScript(key, window, max, n - 1);
      var before := SecondStore(key, window, max, n - 1);
      OneMoreRequest(TwoBursts(first, max, second, n - 1), second, before, max + n - 1, key, max, window);
    }
  }

  lemma {:induction false} BurstMembers(e: Event, n: nat)
    ensures forall x | x in Burst(e, n) :: x == e
  {
    if n == 0 {
    } else {
      BurstMembers(e, n - 1);
    }
  }

  /**
   * `max` requests at the start of a bucket, then as many that read the clock at its end
   * and reach Redis as the counter expires.
   */
  function DelayedBursts(id: string, window: nat, max: nat): seq<Event>
    requires window >= 1
  {
    TwoBursts(Event(id, 0, 0, false), max, Event(id, window - 1, window, false), max)
  }

  /**
   * The bound is reached for every maximum: scripts delayed past the counter's expiry
   * start it anew in the same bucket.
   */
  lemma TwoLifetimesHappen(id: string, window: nat, max: nat)
    requires window >= 2 && max >= 1
    ensures var t := DelayedBursts(id, window, max);
      (forall e | e in t :: e.clock <= e.at < e.clock + window) && Admitted(t, RedisKey(id, 0), max, window) == 2 * max
  {
    var first, second := Event(id, 0, 0, false), Event(id, window - 1, window, false);
    FirstBucket(id, 0, 0, window);
    FirstBucket(id, window - 1, window, window);
    SecondBurst(first, second, RedisKey(id, 0), window, max, max);
    hide RedisKey, KeyOf;
    BurstMembers(first, max);
    BurstMembers(second, max);
  }

  // ---- when a bucket admits at most the maximum ----------------------------------------

  predicate Expired(e: Event, deadline: int) {
    e.at > deadline || (e.at == deadline && !e.lingers)
  }

  /** When the first script tagged with `key` ran. */
  function FirstAt(t: seq<Event>, key: string, window: nat): Option<int>
    requires window >= 1
  {
    if t == [] then None
    else
      var before := FirstAt(t[..|t| - 1], key, window);
      if before.None? && KeyOf(t[|t| - 1], window) == key then Some(t[|t| - 1].at) else before
  }

  /** A tagged script ran a window or more after the first one, when the first counter had expired. */
  predicate RunsLate(t: seq<Event>, key: string, window: nat)
    requires window >= 1
  {
    var first := FirstAt(t, key, window);
    first.Some? && exists i :: 0 <= i < |t| && KeyOf(t[i], window) == key && Expired(t[i], first.value + window)
  }

  /** What the store holds of `key`, given how many tagged requests there were and how many were allowed. */
  predicate CountsAs(store: Store, key: string, requests: nat, admitted: nat, late: bool, first: Option<int>,
                     max: int, window: nat) {
    if key !in store then requests == 0 && admitted == 0 && first.None? && !late
    else
      var c := store[key].count;
      && c >= 1 && store[key].deadline.Some? && first.Some?
      && (!late ==>
            && c == requests && admitted == Min(c, Positive(max))
            && store[key].deadline.value == first.value + window)
      && (late ==> c < requests && (max >= 1 ==> admitted >= 1 + Min(c, max)))
      && (max < 1 ==> admitted == 0)
      && (requests <= max ==> admitted == requests)
      && (late && 1 <= max < requests ==> admitted > max)
  }

  lemma CountsStep(store: Store, e: Event, key: string, requests: nat, admitted: nat, late: bool, first: Option<int>,
                   max: int, window: nat)
    requires window >= 1 && KeyOf(e, window) == key
    requires CountsAs(store, key, requests, admitted, late, first, max, window)
    ensures var r := Script(store, key, e.at, e.lingers, window);
      CountsAs(r.0, key, requests + 1, admitted + if r.1 <= max then 1 else 0,
               late || (first.Some? && Expired(e, first.value + window)),
               if first.None? then Some(e.at) else first, max, window)
  {
    hide KeyOf;
  }

  lemma {:induction false} NoneTagged(t: seq<Event>, key: string, window: nat)
    requires window >= 1 && FirstAt(t, key, window).None?
    ensures forall i | 0 <= i < |t| :: KeyOf(t[i], window) != key
  {
    if t == [] {
    } else {
      NoneTagged(t[..|t| - 1], key, window);
      assert forall i | 0 <= i < |t| - 1 :: t[i] == t[..|t| - 1][i];
    }
  }

  lemma RunsLateStep(t: seq<Event>, key: string, window: nat)
    requires window >= 1 && t != []
    ensures var front, e := t[..|t| - 1], t[|t| - 1];
      var first := FirstAt(front, key, window);
      RunsLate(t, key, window) <==>
        RunsLate(front, key, window) || (KeyOf(e, window) == key && first.Some? && Expired(e, first.value + window))
  {
    var front, e := t[..|t| - 1], t[|t| - 1];
    assert forall i | 0 <= i < |front| :: front[i] == t[i];
    var first := FirstAt(front, key, window);
    if first.None? {
      NoneTagged(front, key, window);
    }
    hide KeyOf;
    if first.Some? && KeyOf(e, window) == key && Expired(e, first.value + window) {
      assert t[|t| - 1] == e;
    }
    if RunsLate(front, key, window) {
      var i :| 0 <= i < |front| && KeyOf(front[i], window) == key && Expired(front[i], first.value + window);
      assert t[i] == front[i];
    }
  }

  ghost predicate Counted(t: seq<Event>, key: string, max: int, window: nat)
    requires window >= 1
  {
    CountsAs(After(t, window), key, Requests(t, key, window), Admitted(t, key, max, window), RunsLate(t, key, window),
             FirstAt(t, key, window), max, window)
  }

  /** Scripts tagged with other keys leave the counter of `key` alone. */
  lemma OtherKeyCounted(t: seq<Event>, key: string, max: int, window: nat)
    requires window >= 1 && t != [] && KeyOf(t[|t| - 1], window) != key && Counted(t[..|t| - 1], key, max, window)
    ensures Counted(t, key, max, window)
  {
    RunsLateStep(t, key, window);
    hide KeyOf, RunsLate;
  }

  lemma OwnKeyCounted(t: seq<Event>, key: string, max: int, window: nat)
    requires window >= 1 && t != [] && KeyOf(t[|t| - 1], window) == key && Counted(t[..|t| - 1], key, max, window)
    ensures Counted(t, key, max, window)
  {
    var front, e := t[..|t| - 1], t[|t| - 1];
    RunsLateStep(t, key, window);
    var requests, admitted := Requests(front, key, window), Admitted(front, key, max, window);
    var late, first := RunsLate(front, key, window), FirstAt(front, key, window);
    CountsStep(After(front, window), e, key, requests, admitted, late, first, max, window);
    hide KeyOf, RunsLate, CountsAs, Script, Expired;
  }

  lemma {:induction false} AllCounted(t: seq<Event>, key: string, max: int, window: nat)
    requires window >= 1
    ensures Counted(t, key, max, window)
  {
    hide KeyOf;
    if t == [] {
    } else {
      AllCounted(t[..|t| - 1], key, max, window);
      hide Counted;
      if KeyOf(t[|t| - 1], window) == key {
        OwnKeyCounted(t, key, max, window);
      } else {
        OtherKeyCounted(t, key, max, window);
      }
    }
  }

  /**
   * In any trace a bucket admits at most the maximum if and only if there is nothing to
   * admit, there are not more requests than that, or no tagged script ran a window or
   * more after the first one. Then it admits exactly `min(n, max)` of `n` requests.
   */
  lemma AtMostMaxIff(t: seq<Event>, key: string, max: int, window: nat)
    requires window >= 1
    ensures var n, admitted := Requests(t, key, window), Admitted(t, key, max, window);
      var kept := max < 1 || n <= max || !RunsLate(t, key, window);
      && (admitted <= Positive(max) <==> kept)
      && (admitted == Min(n, Positive(max)) <==> kept)
  {
    AllCounted(t, key, max, window);
    hide RunsLate;
  }

  /** A tagged script found the key's counter there but expired, and started it anew. */
  predicate Restarted(t: seq<Event>, key: string, window: nat)
    requires window >= 1
  {
    t != [] &&
    var e, store := t[|t| - 1], After(t[..|t| - 1], window);
    || Restarted(t[..|t| - 1], key, window)
    || (KeyOf(e, window) == key && key in store && !Live(store, key, e.at, e.lingers))
  }

  /** A counter is started anew if and only if some script runs late. */
  lemma {:induction false} RestartedIffLate(t: seq<Event>, key: string, window: nat)
    requires window >= 1
    ensures Restarted(t, key, window) <==> RunsLate(t, key, window)
  {
    if t == [] {
    } else {
      RestartedIffLate(t[..|t| - 1], key, window);
      RunsLateStep(t, key, window);
      AllCounted(t[..|t| - 1], key, 0, window);
      hide KeyOf, RunsLate;
    }
  }

  // ---- what is counted ---------------------------------------------------------------

  /** The requests of one API key whose clock reading falls into one bucket. */
  function Tagged(t: seq<Event>, id: string, bucket: nat, window: nat): set<nat>
    requires window >= 1
  {
    set i: nat | i < |t| && t[i].id == id && t[i].clock / window == bucket
  }

  /** The script of this request counted at most `max`. */
  predicate AllowedAt(t: seq<Event>, i: nat, max: int, window: nat)
    requires window >= 1 && i < |t|
  {
    Reply(t[..i + 1], window) <= max
  }

  /** Those of them that were allowed. */
  function TaggedAllowed(t: seq<Event>, id: string, bucket: nat, max: int, window: nat): set<nat>
    requires window >= 1
  {
    set i: nat | i < |t| && t[i].id == id && t[i].clock / window == bucket && AllowedAt(t, i, max, window)
  }

  lemma SameEvent(t: seq<Event>, i: nat, max: int, window: nat)
    requires window >= 1 && i < |t|
    ensures var front := t[..|t| - 1];
      if i < |front| then t[i] == front[i] && AllowedAt(t, i, max, window) == AllowedAt(front, i, max, window)
      else i == |front| && (AllowedAt(t, i, max, window) <==> Reply(t, window) <= max)
  {
    var front := t[..|t| - 1];
    hide Reply;
    if i < |front| {
      assert t[..i + 1] == front[..i + 1];
    } else {
      assert t[..i + 1] == t;
    }
  }

  lemma TaggedSnoc(t: seq<Event>, id: string, bucket: nat, max: int, window: nat)
    requires window >= 1 && t != []
    ensures var front, e := t[..|t| - 1], t[|t| - 1];
      var tagged := e.id == id && e.clock / window == bucket;
      && Tagged(t, id, bucket, window) == Tagged(front, id, bucket, window) + (if tagged then {|front|} else {})
      && TaggedAllowed(t, id, bucket, max, window) == TaggedAllowed(front, id, bucket, max, window)
           + (if tagged && Reply(t, window) <= max then {|front|} else {})
  {
    var front, e := t[..|t| - 1], t[|t| - 1];
    var n := |front|;
    hide Reply, AllowedAt;
    var tagged := e.id == id && e.clock / window == bucket;
    forall i: nat
      ensures i in Tagged(t, id, bucket, window) <==> i in Tagged(front, id, bucket, window) || (i == n && tagged)
      ensures i in TaggedAllowed(t, id, bucket, max, window)
        <==> i in TaggedAllowed(front, id, bucket, max, window) || (i == n && tagged && Reply(t, window) <= max)
    {
      if i < |t| {
        SameEvent(t, i, max, window);
      }
    }
    hide *;
  }

  /** Requests and allowed requests per Redis key are those of one API key and one bucket. */
  lemma {:induction false} CountsAreOfOneBucket(t: seq<Event>, id: string, bucket: nat, max: int, window: nat)
    requires window >= 1
    ensures Requests(t, RedisKey(id, bucket), window) == |Tagged(t, id, bucket, window)|
    ensures Admitted(t, RedisKey(id, bucket), max, window) == |TaggedAllowed(t, id, bucket, max, window)|
  {
    if t == [] {
    } else {
      var front, e := t[..|t| - 1], t[|t| - 1];
      CountsAreOfOneBucket(front, id, bucket, max, window);
      TaggedSnoc(t, id, bucket, max, window);
      var key, tagged := RedisKey(id, bucket), e.id == id && e.clock / window == bucket;
      assert KeyOf(e, window) == key <==> tagged by {
        if KeyOf(e, window) == key {
          RedisKeyInjective(e.id, e.clock / window, id, bucket);
        }
      }
      assert |front| !in Tagged(front, id, bucket, window);
      assert |front| !in TaggedAllowed(front, id, bucket, max, window);
      assert Requests(t, key, window) == Requests(front, key, window) + if tagged then 1 else 0;
      assert Admitted(t, key, max, window) ==
        Admitted(front, key, max, window) + if tagged && Reply(t, window) <= max then 1 else 0;
      hide *;
    }
  }

  // ---- every script inside the bucket its caller computed ---------------------------

  ghost predicate Prompt(t: seq<Event>, window: nat)
    requires window >= 1
  {
    forall e | e in t :: e.at / window == e.clock / window
  }

  /** A counter was started inside its bucket, not after the last script, and counts every request since. */
  ghost predicate CounterExact(t: seq<Event>, id: string, bucket: nat, window: nat)
    requires window >= 1
  {
    var key := RedisKey(id, bucket);
    var store := After(t, window);
    if key !in store then Requests(t, key, window) == 0
    else
      && store[key].count == Requests(t, key, window) >= 1 && store[key].deadline.Some?
      && var start := store[key].deadline.value - window;
         bucket * window <= start < bucket * window + window && (t != [] ==> start <= t[|t| - 1].at)
  }

  lemma PromptAt(e: Event, id: string, bucket: nat, window: nat)
    requires window >= 1 && KeyOf(e, window) == RedisKey(id, bucket) && e.at / window == e.clock / window
    ensures bucket * window <= e.at < bucket * window + window
  {
    RedisKeyInjective(e.id, Bucket(e, window), id, bucket);
    QuotientBetween(e.at, window, bucket);
  }

  lemma CounterStep(t: seq<Event>, id: string, bucket: nat, window: nat)
    requires window >= 1 && t != [] && Ordered(t) && Prompt(t, window)
    requires CounterExact(t[..|t| - 1], id, bucket, window)
    ensures CounterExact(t, id, bucket, window)
  {
    var front, e := t[..|t| - 1], t[|t| - 1];
    assert e in t;
    assert front != [] ==> front[|front| - 1].at <= e.at;
    if KeyOf(e, window) == RedisKey(id, bucket) {
      PromptAt(e, id, bucket, window);
    }
    hide RedisKey, Ordered, Prompt;
  }

  lemma {:induction false} CountersExact(t: seq<Event>, id: string, bucket: nat, window: nat)
    requires window >= 1 && Ordered(t) && Prompt(t, window)
    ensures CounterExact(t, id, bucket, window)
  {
    if t == [] {
    } else {
      CountersExact(t[..|t| - 1], id, bucket, window);
      CounterStep(t, id, bucket, window);
    }
  }

  /** The reply to a request is its ordinal among the requests tagged with its bucket. */
  lemma ReplyIsOrdinal(t: seq<Event>, window: nat)
    requires window >= 1 && t != [] && Ordered(t) && Prompt(t, window)
    ensures Reply(t, window) == Requests(t, KeyOf(t[|t| - 1], window), window)
  {
    var front, e := t[..|t| - 1], t[|t| - 1];
    assert e in t;
    var bucket := Bucket(e, window);
    CountersExact(front, e.id, bucket, window);
    PromptAt(e, e.id, bucket, window);
    hide RedisKey, Ordered, Prompt;
  }

  lemma PrefixOrdered(t: seq<Event>, i: nat, window: nat)
    requires window >= 1 && i <= |t| && Ordered(t) && Prompt(t, window)
    ensures Ordered(t[..i]) && Prompt(t[..i], window)
  {
    assert forall e | e in t[..i] :: e in t;
  }

  lemma {:induction false} AdmittedIsMin(t: seq<Event>, key: string, max: int, window: nat)
    requires window >= 1 && Ordered(t) && Prompt(t, window)
    ensures Admitted(t, key, max, window) == Min(Requests(t, key, window), Positive(max))
  {
    if t == [] {
    } else {
      PrefixOrdered(t, |t| - 1, window);
      AdmittedIsMin(t[..|t| - 1], key, max, window);
      ReplyIsOrdinal(t, window);
      hide Ordered, Prompt, KeyOf, Reply;
    }
  }

  /** Exactly `min(n, max)` of `n` requests per key and bucket are allowed: the first ones in script order. */
  lemma FirstMaxAdmitted(t: seq<Event>, key: string, max: int, window: nat)
    requires window >= 1 && Ordered(t) && Prompt(t, window)
    ensures Admitted(t, key, max, window) == Min(Requests(t, key, window), Positive(max))
    ensures forall i | 0 <= i < |t| && KeyOf(t[i], window) == key ::
      Reply(t[..i + 1], window) <= max <==> Requests(t[..i + 1], key, window) <= max
  {
    AdmittedIsMin(t, key, max, window);
    hide KeyOf, Reply;
    forall i | 0 <= i < |t| && KeyOf(t[i], window) == key
      ensures Reply(t[..i + 1], window) <= max <==> Requests(t[..i + 1], key, window) <= max
    {
      PrefixOrdered(t, i + 1, window);
      ReplyIsOrdinal(t[..i + 1], window);
    }
  }

  /** At any later instant at most two counters of an API key are live: those of the current and the previous bucket. */
  lemma TwoLiveCounters(t: seq<Event>, id: string, bucket: nat, window: nat, now: nat, lingers: bool)
    requires window >= 1 && Ordered(t) && Prompt(t, window) && (t != [] ==> t[|t| - 1].at <= now)
    requires Live(After(t, window), RedisKey(id, bucket), now, lingers)
    ensures bucket == now / window || bucket == now / window - 1
  {
    CountersExact(t, id, bucket, window);
    QuotientBetween(now, window, bucket);
    QuotientBetween(now, window, bucket + 2);
    assert (bucket + 2) * window == bucket * window + 2 * window;
  }

  // ---- any span of time -----------------------------------------------------------

  /** Requests of one API key allowed by scripts that ran in [lo, hi). */
  function AdmittedIn(t: seq<Event>, id: string, max: int, window: nat, lo: int, hi: int): nat
    requires window >= 1
  {
    if t == [] then 0 else
      var e := t[|t| - 1];
      var admits := e.id == id && lo <= e.at < hi && Reply(t, window) <= max;
      AdmittedIn(t[..|t| - 1], id, max, window, lo, hi) + if admits then 1 else 0
  }

  lemma {:induction false} AdmittedSplits(t: seq<Event>, id: string, max: int, window: nat, lo: int, mid: int, hi: int)
    requires window >= 1 && lo <= mid <= hi
    ensures AdmittedIn(t, id, max, window, lo, hi)
         == AdmittedIn(t, id, max, window, lo, mid) + AdmittedIn(t, id, max, window, mid, hi)
  {
    if t == [] {
    } else {
      AdmittedSplits(t[..|t| - 1], id, max, window, lo, mid, hi);
    }
  }

  /** Inside one bucket the allowed requests are among those tagged with it. */
  lemma {:induction false} AdmittedInBucket(t: seq<Event>, id: string, max: int, window: nat, bucket: nat,
                                            lo: int, hi: int)
    requires window >= 1 && Prompt(t, window) && bucket * window <= lo && hi <= bucket * window + window
    ensures AdmittedIn(t, id, max, window, lo, hi) <= Admitted(t, RedisKey(id, bucket), max, window)
  {
    if t == [] {
    } else {
      AdmittedInBucket(t[..|t| - 1], id, max, window, bucket, lo, hi);
      var e := t[|t| - 1];
      assert e in t;
      if e.id == id && lo <= e.at < hi {
        QuotientBetween(e.at, window, bucket);
        QuotientBetween(e.at, window, bucket + 1);
        assert (bucket + 1) * window == bucket * window + window;
        assert KeyOf(e, window) == RedisKey(id, bucket);
      }
    }
  }

  lemma OneBucketSpan(t: seq<Event>, id: string, max: int, window: nat, bucket: nat, lo: int, hi: int)
    requires window >= 1 && Ordered(t) && Prompt(t, window) && bucket * window <= lo && hi <= bucket * window + window
    ensures AdmittedIn(t, id, max, window, lo, hi) <= Positive(max)
  {
    AdmittedInBucket(t, id, max, window, bucket, lo, hi);
    FirstMaxAdmitted(t, RedisKey(id, bucket), max, window);
  }

  lemma NextMultiple(n: nat, k: nat)
    ensures (n + 1) * k == n * k + k >= k
  {
    MulMonotone(0, n, k);
  }

  lemma {:induction false} NothingIn(t: seq<Event>, id: string, max: int, window: nat, lo: int)
    requires window >= 1
    ensures AdmittedIn(t, id, max, window, lo, lo) == 0
  {
    if t == [] {
    } else {
      NothingIn(t[..|t| - 1], id, max, window, lo);
    }
  }

  /** From the start of a bucket on, `n` windows admit at most `n` times `max`. */
  lemma {:induction false} AlignedSpan(t: seq<Event>, id: string, max: int, window: nat, bucket: nat, hi: int, n: nat)
    requires window >= 1 && Ordered(t) && Prompt(t, window) && bucket * window <= hi <= bucket * window + n * window
    ensures AdmittedIn(t, id, max, window, bucket * window, hi) <= n * Positive(max)
    decreases n
  {
    var lo := bucket * window;
    NextMultiple(bucket, window);
    hide Ordered, Prompt, Positive;
    if n == 0 {
      NothingIn(t, id, max, window, lo);
    } else {
      NextMultiple(n - 1, window);
      NextMultiple(n - 1, Positive(max));
      if hi <= lo + window {
        OneBucketSpan(t, id, max, window, bucket, lo, hi);
      } else {
        AdmittedSplits(t, id, max, window, lo, lo + window, hi);
        OneBucketSpan(t, id, max, window, bucket, lo, lo + window);
        AlignedSpan(t, id, max, window, bucket + 1, hi, n - 1);
        assert AdmittedIn(t, id, max, window, lo, hi) <= Positive(max) + (n - 1) * Positive(max);
      }
    }
  }

  /** The rest of the bucket in which the span starts, and then `n` windows. */
  lemma SpanFrom(t: seq<Event>, id: string, max: int, window: nat, bucket: nat, lo: int, hi: int, n: nat)
    requires window >= 1 && Ordered(t) && Prompt(t, window)
    requires bucket * window <= lo < (bucket + 1) * window && lo <= hi <= (bucket + 1) * window + n * window
    ensures AdmittedIn(t, id, max, window, lo, hi) <= Positive(max) + n * Positive(max)
  {
    NextMultiple(bucket, window);
    MulMonotone(0, n, Positive(max));
    hide Positive, Ordered, Prompt;
    var mid := (bucket + 1) * window;
    if hi <= mid {
      OneBucketSpan(t, id, max, window, bucket, lo, hi);
    } else {
      AdmittedSplits(t, id, max, window, lo, mid, hi);
      OneBucketSpan(t, id, max, window, bucket, lo, mid);
      AlignedSpan(t, id, max, window, bucket + 1, hi, n);
    }
  }

  /** The requests of one API key allowed by scripts in a span of time. */
  function AllowedIn(t: seq<Event>, id: string, max: int, window: nat, lo: int, hi: int): set<nat>
    requires window >= 1
  {
    set i: nat | i < |t| && t[i].id == id && lo <= t[i].at < hi && AllowedAt(t, i, max, window)
  }

  lemma AllowedInSnoc(t: seq<Event>, id: string, max: int, window: nat, lo: int, hi: int)
    requires window >= 1 && t != []
    ensures var front, e := t[..|t| - 1], t[|t| - 1];
      AllowedIn(t, id, max, window, lo, hi) == AllowedIn(front, id, max, window, lo, hi)
        + if e.id == id && lo <= e.at < hi && Reply(t, window) <= max then {|front|} else {}
  {
    var front, e := t[..|t| - 1], t[|t| - 1];
    hide Reply, AllowedAt;
    var allowed := e.id == id && lo <= e.at < hi && Reply(t, window) <= max;
    forall i: nat
      ensures i in AllowedIn(t, id, max, window, lo, hi)
        <==> i in AllowedIn(front, id, max, window, lo, hi) || (i == |front| && allowed)
    {
      if i < |t| {
        SameEvent(t, i, max, window);
      }
    }
    hide *;
  }

  lemma {:induction false} AdmittedInIsAllowedIn(t: seq<Event>, id: string, max: int, window: nat, lo: int, hi: int)
    requires window >= 1
    ensures AdmittedIn(t, id, max, window, lo, hi) == |AllowedIn(t, id, max, window, lo, hi)|
  {
    if t == [] {
    } else {
      var front := t[..|t| - 1];
      AdmittedInIsAllowedIn(front, id, max, window, lo, hi);
      AllowedInSnoc(t, id, max, window, lo, hi);
      hide Reply, AllowedAt;
      assert |front| !in AllowedIn(front, id, max, window, lo, hi);
    }
  }

  lemma SpanCounts(t: seq<Event>, id: string, max: int, window: nat, lo: nat, length: nat)
    requires window >= 1 && Ordered(t) && Prompt(t, window)
    ensures AdmittedIn(t, id, max, window, lo, lo + length) <= (CeilDiv(length, window) + 1) * Positive(max)
  {
    var bucket, n := lo / window, CeilDiv(length, window);
    QuotientBetween(lo, window, bucket);
    CeilDivIsLeastCover(length, window, n);
    CeilDivIsLeastCover(length, window, 0);
    NextMultiple(bucket, window);
    NextMultiple(n, Positive(max));
    hide Positive, CeilDiv, Ordered, Prompt;
    SpanFrom(t, id, max, window, bucket, lo, lo + length, n);
  }

  /** Any span of `length` milliseconds admits at most `max` per window it covers, rounded up, and once more. */
  lemma SpanBound(t: seq<Event>, id: string, max: int, window: nat, lo: nat, length: nat)
    requires window >= 1 && Ordered(t) && Prompt(t, window)
    ensures |AllowedIn(t, id, max, window, lo, lo + length)| <= (CeilDiv(length, window) + 1) * Positive(max)
  {
    hide *;
    AdmittedInIsAllowedIn(t, id, max, window, lo, lo + length);
    SpanCounts(t, id, max, window, lo, length);
  }

  // ---- the limiter ----------------------------------------------------------------

  /** `Panicked`: a positive window below a millisecond is truncated to zero and divided by. */
  datatype Outcome = Allowed | Denied | Failed | Panicked

  /** A call to Redis can fail before the script ran, or after it when only the reply is lost. */
  datatype Call = Answered | NotRun | ReplyLost

  /**
   * The counter under `key` is one higher than it was at the instant `at`, when a counter
   * past its deadline is gone. A first count sets the deadline, `ms` milliseconds later,
   * and a later one keeps it. No other counter changes.
   */
  ghost predicate Increments(before: Store, after: Store, key: string, at: nat, lingers: bool, ms: nat) {
    var there := key in before && match before[key].deadline
      case None => true
      case Some(d) => if lingers then at <= d else at < d;
    && key in after
    && after[key].count == (if there then before[key].count else 0) + 1
    && after[key].deadline == (if after[key].count == 1 then Some(at + ms) else before[key].deadline)
    && forall k | k != key :: (k in after <==> k in before) && (k in before ==> after[k] == before[k])
  }

  lemma ScriptIncrements(store: Store, key: string, at: nat, lingers: bool, window: nat)
    ensures var r := Script(store, key, at, lingers, window);
      Increments(store, r.0, key, at, lingers, window) && r.1 == r.0[key].count
  {
  }

  /** A store that some trace leads to becomes the one that the trace with `e` added leads to. */
  ghost predicate Continues(before: Store, after: Store, e: Event, window: nat, reply: nat)
    requires window >= 1
  {
    forall t | After(t, window) == before :: After(t + [e], window) == after && Reply(t + [e], window) == reply
  }

  lemma ScriptContinues(store: Store, e: Event, window: nat)
    requires window >= 1
    ensures var r := Script(store, KeyOf(e, window), e.at, e.lingers, window);
      Continues(store, r.0, e, window, r.1)
  {
    hide Script, KeyOf;
    forall t | After(t, window) == store
      ensures var r := Script(store, KeyOf(e, window), e.at, e.lingers, window);
        After(t + [e], window) == r.0 && Reply(t + [e], window) == r.1
    {
      assert (t + [e])[..|t|] == t;
    }
  }

  class Limiter {
    var counters: Store

    constructor ()
      ensures counters == map[]
    {
      counters := map[];
    }

    /** The Lua script: INCR, and PEXPIRE on the first increment. */
    method RunScript(key: string, at: nat, lingers: bool, window: nat) returns (c: nat)
      modifies this
      ensures (counters, c) == Script(old(counters), key, at, lingers, window)
      ensures Increments(old(counters), counters, key, at, lingers, window) && c == counters[key].count
    {
      ScriptIncrements(counters, key, at, lingers, window);
      hide Increments;
      var current := if Live(counters, key, at, lingers) then counters[key] else Counter(0, None);
      c := current.count + 1;
      counters := counters[key := Counter(c, current.deadline)];
      if c == 1 {
        counters := counters[key := Counter(c, Some(at + window))];
        assert counters == old(counters)[key := Counter(c, Some(at + window))];
      }
    }

    /**
     * Counts a request in the bucket of the clock reading, and allows it while the count
     * is at most `max`. Buckets and deadlines are in whole milliseconds of the window.
     */
    method Allow(id: string, max: int, windowNanos: int, clock: nat, at: nat, lingers: bool, call: Call)
      returns (out: Outcome)
      modifies this
      ensures out == Panicked <==> 0 < windowNanos < 1_000_000
      ensures out == Failed <==> windowNanos <= 0 || (windowNanos >= 1_000_000 && call != Answered)
      ensures windowNanos < 1_000_000 || call == NotRun ==> counters == old(counters)
      ensures windowNanos >= 1_000_000 && call != NotRun ==>
        var ms := windowNanos / 1_000_000;
        var key := "rl:" + id + ":" + Decimal(clock / ms);
        && Increments(old(counters), counters, key, at, lingers, ms)
        && (call == Answered ==> out == if counters[key].count <= max then Allowed else Denied)
        && Continues(old(counters), counters, Event(id, clock, at, lingers), ms, counters[key].count)
    {
      if windowNanos <= 0 {
        return Failed;
      }
      var window := windowNanos / 1_000_000;
      if window == 0 {
        return Panicked;
      }
      var key := RedisKey(id, clock / window);
      if call == NotRun {
        return Failed;
      }
      ScriptContinues(counters, Event(id, clock, at, lingers), window);
      hide Increments, Continues, Script;
      var count := RunScript(key, at, lingers, window);
      out := if call == ReplyLost then Failed else if count > max then Denied else Allowed;
    }
  }
}
