/**
 * The scheduler: how many runs it lets overlap, and for which intervals they can never
 * take all connections.
 */
module SyncSchedule {
  import opened Base
  import opened Ordering
  import opened SyncPool
  import opened SyncProtocol
  import opened SyncSafety
  import opened SyncTheorems

  /** A setup program does not choose; the driver's default is at least four. */
  const SETUP_CONNS := 4

  /** The startup run (0) begins at `boot`; tick k fires k intervals after the scheduler started. */
  function StartTime(k: nat, boot: int, cronStart: int, interval: nat): int {
    if k == 0 then boot else cronStart + k * interval
  }

  predicate LiveTick(k: int, cronStart: int, interval: nat, limit: nat, now: int) {
    cronStart + k * interval <= now <= cronStart + k * interval + limit
  }

  /** Ticks whose run, ending within `limit`, can still be alive at `now`. */
  function LiveTicks(cronStart: int, interval: nat, limit: nat, now: int): set<int>
    requires interval >= 1
  {
    set k | 1 <= k <= now - cronStart && LiveTick(k, cronStart, interval, limit, now)
  }

  lemma {:induction false} IntervalCard(s: set<int>, lo: int, n: nat)
    requires forall x | x in s :: lo <= x < lo + n
    ensures |s| <= n
    decreases n
  {
    if n == 0 {
      assert forall x :: x !in s;
    } else {
      IntervalCard(s - {lo + n - 1}, lo, n - 1);
      assert s <= (s - {lo + n - 1}) + {lo + n - 1};
      SubsetCard(s, (s - {lo + n - 1}) + {lo + n - 1});
    }
  }

  lemma TicksApart(i: int, k: int, interval: nat, limit: nat)
    requires interval >= 1 && i <= k && (k - i) * interval <= limit
    ensures k - i <= limit / interval
  {
    if k - i > limit / interval {
      assert (k - i) * interval >= (limit / interval + 1) * interval by {
        MulMonotone(limit / interval + 1, k - i, interval);
      }
    }
  }

  lemma LeastTick(s: set<int>) returns (m: int)
    requires s != {}
    ensures m in s && forall k | k in s :: m <= k
  {
    var less := (x: int, y: int) => x < y;
    m := LeastExists(s, less);
  }

  lemma LiveTicksBound(cronStart: int, interval: nat, limit: nat, now: int)
    requires interval >= 1
    ensures |LiveTicks(cronStart, interval, limit, now)| <= limit / interval + 1
  {
    var ticks := LiveTicks(cronStart, interval, limit, now);
    if ticks != {} {
      var first := LeastTick(ticks);
      forall k | k in ticks ensures first <= k < first + (limit / interval + 1) {
        assert (k - first) * interval == k * interval - first * interval;
        TicksApart(first, k, interval, limit);
      }
      IntervalCard(ticks, first, limit / interval + 1);
    }
  }

  /** `origin` names the start of each live run of a pool: no start begins two runs, and each run ends in time. */
  ghost predicate Scheduled(ids: set<nat>, origin: map<nat, nat>, boot: int, cronStart: int,
                            interval: nat, limit: nat, now: int) {
    && ids <= origin.Keys
    && (forall i, j | i in ids && j in ids && i != j :: origin[i] != origin[j])
    && (forall i | i in ids ::
          var t := StartTime(origin[i], boot, cronStart, interval);
          t <= now <= t + limit)
  }

  lemma InjectiveCard(ids: set<nat>, origin: map<nat, nat>, starts: set<int>)
    requires ids <= origin.Keys && forall i, j | i in ids && j in ids && i != j :: origin[i] != origin[j]
    requires forall i | i in ids :: origin[i] in starts
    ensures |ids| <= |starts|
    decreases ids
  {
    if ids != {} {
      var i :| i in ids;
      InjectiveCard(ids - {i}, origin, starts - {origin[i]});
    }
  }

  /** At most the startup run and one run per tick of the last `limit` are alive. */
  lemma OverlapBound(ids: set<nat>, origin: map<nat, nat>, boot: int, cronStart: int,
                     interval: nat, limit: nat, now: int)
    requires interval >= 1 && Scheduled(ids, origin, boot, cronStart, interval, limit, now)
    ensures |ids| <= limit / interval + 2
  {
    var ticks := LiveTicks(cronStart, interval, limit, now);
    LiveTicksBound(cronStart, interval, limit, now);
    forall i | i in ids ensures origin[i] in {0} + ticks {
      if origin[i] != 0 {
        assert origin[i] * interval >= origin[i] by { MulMonotone(1, interval, origin[i]); }
      }
    }
    InjectiveCard(ids, origin, {0} + ticks);
  }

  // ---- when the schedule is safe ------------------------------------------------------

  /** The runs of pool 0 are the service's, as scheduled; a setup program has a pool and one run of its own. */
  ghost predicate OnSchedule(s: State, origin: map<nat, nat>, boot: int, cronStart: int,
                             interval: nat, limit: nat, now: int) {
    && Scheduled(Alive(s, 0), origin, boot, cronStart, interval, limit, now)
    && forall id | id in s.workers && s.workers[id].pool != 0 ::
         |Alive(s, s.workers[id].pool)| <= 1 && s.cap(s.workers[id].pool) >= SETUP_CONNS
  }

  /** Whatever happens, the service's runs do not get stuck while they are on schedule. */
  ghost predicate NeverStuck(cap: Capacity, interval: nat, limit: nat) {
    forall trace, origin, boot, cronStart, now ::
      OnSchedule(Exec(Init(cap), trace), origin, boot, cronStart, interval, limit, now) ==>
        !Stuck(Exec(Init(cap), trace))
  }

  lemma ScheduleLeavesRoom(s: State, origin: map<nat, nat>, boot: int, cronStart: int,
                           interval: nat, limit: nat, now: int)
    requires Inv(s) && interval >= 1 && OnSchedule(s, origin, boot, cronStart, interval, limit, now)
    requires limit / interval + 2 < s.cap(0)
    ensures !Stuck(s)
  {
    OverlapBound(Alive(s, 0), origin, boot, cronStart, interval, limit, now);
    hide Inv, Scheduled, Stuck, Alive;
    assert BelowCapacity(s);
    NotStuckBelowCapacity(s);
  }

  lemma TickOnTime(k: nat, n: nat, interval: nat, limit: nat)
    requires interval >= 1 && 1 <= k < n <= limit / interval + 2
    ensures k * interval <= (n - 1) * interval <= k * interval + limit
  {
    var d := n - 1 - k;
    assert (n - 1) * interval == k * interval + d * interval;
    MulMonotone(0, d, interval);
    MulMonotone(d, limit / interval, interval);
    QuotientBetween(limit, interval, limit / interval);
  }

  /** Runs 0 to n-1 as the startup run and the first n-1 ticks, when the last of them has just fired. */
  lemma FirstRunsScheduled(n: nat, interval: nat, limit: nat)
    requires interval >= 1 && 1 <= n <= limit / interval + 2
    ensures var now := (n - 1) * interval;
      Scheduled(FirstRuns(n), map id | id in FirstRuns(n) :: id, now, 0, interval, limit, now)
  {
    var now := (n - 1) * interval;
    forall k | k in FirstRuns(n)
      ensures var t := StartTime(k, now, 0, interval); t <= now <= t + limit
    {
      if k > 0 {
        TickOnTime(k, n, interval, limit);
      }
    }
  }

  lemma StepKeepsCapacity(s: State, a: Action)
    ensures Step(s, a).cap == s.cap
  {
  }

  lemma {:induction false} CapacityStays(cap: Capacity, trace: seq<Action>)
    ensures Exec(Init(cap), trace).cap == cap
    decreases |trace|
  {
    if trace == [] {
      assert Exec(Init(cap), trace) == Init(cap);
    } else {
      CapacityStays(cap, trace[..|trace| - 1]);
      StepKeepsCapacity(Exec(Init(cap), trace[..|trace| - 1]), trace[|trace| - 1]);
      hide Step;
    }
  }

  /**
   * The service can never get stuck if and only if the pool has more connections than the
   * schedule lets runs overlap.
   */
  lemma NeverStuckIff(cap: Capacity, interval: nat, limit: nat)
    requires interval >= 1 && cap(0) >= 1
    ensures NeverStuck(cap, interval, limit) <==> limit / interval + 2 < cap(0)
  {
    if limit / interval + 2 < cap(0) {
      forall trace, origin, boot, cronStart, now
        | OnSchedule(Exec(Init(cap), trace), origin, boot, cronStart, interval, limit, now)
        ensures !Stuck(Exec(Init(cap), trace))
      {
        Reachable(cap, trace);
        CapacityStays(cap, trace);
        hide Inv, Stuck, OnSchedule;
        ScheduleLeavesRoom(Exec(Init(cap), trace), origin, boot, cronStart, interval, limit, now);
      }
    } else {
      var n := cap(0);
      var trace := StarvingTrace(n);
      var t := Exec(Init(cap), trace);
      StuckAtCapacity(cap);
      FirstRunsScheduled(n, interval, limit);
      hide Scheduled, Stuck, StarvingTrace, FirstRuns, Alive;
      var now := (n - 1) * interval;
      assert OnSchedule(t, map id | id in FirstRuns(n) :: id, now, 0, interval, limit, now);
      assert !NeverStuck(cap, interval, limit);
    }
  }

  /**
   * With ten connections and runs cut off after ten minutes, exactly the intervals over
   * 75 seconds are safe; times are in milliseconds.
   */
  lemma SafeIntervals(cap: Capacity, interval: nat)
    requires interval >= 1 && cap(0) == 10
    ensures NeverStuck(cap, interval, 600_000) <==> interval > 75_000
  {
    NeverStuckIff(cap, interval, 600_000);
    QuotientBetween(600_000, interval, 8);
    hide NeverStuck;
  }

  /**
   * With the default interval, runs cut off after ten minutes and ten connections, at
   * most four of the service's runs overlap, and neither they nor setup programs, each
   * with a pool and one run of its own, get stuck.
   */
  lemma DefaultScheduleNeverStuck(s: State, origin: map<nat, nat>, boot: int, cronStart: int, now: int)
    requires Inv(s) && s.cap(0) == 10
    requires OnSchedule(s, origin, boot, cronStart, 300_000, 600_000, now)
    ensures |Alive(s, 0)| <= 4 && !Stuck(s)
  {
    OverlapBound(Alive(s, 0), origin, boot, cronStart, 300_000, 600_000, now);
    ScheduleLeavesRoom(s, origin, boot, cronStart, 300_000, 600_000, now);
  }
}
