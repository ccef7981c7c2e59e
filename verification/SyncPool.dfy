/**
 * Connections. Every run past Begin holds one for its transaction, and the lock
 * holder needs another for the watermark and the upserts: enough overlapping runs
 * can starve the holder.
 */
module SyncPool {
  import opened Base
  import opened SyncProtocol
  import opened SyncSafety

  function Alive(s: State, pool: nat): set<nat> {
    set id | id in s.workers && s.workers[id].pool == pool
  }

  /** A run's next statement completes; no error, deadline or crash is involved. */
  ghost predicate Proceeds(s: State, a: Action) {
    Enabled(s, a) &&
    match a
    case SourceWrite(_) => false
    case Start(_, _, _, _) => false
    case Crash(_) => false
    case Cleanup(_, _) => false
    case Upsert(_, outcome) => outcome.Stored?
    case CommitTx(_, result) => result.Acknowledged?
    case MarkRun(id, ok, _) => ok || s.workers[id].tx.aborted
    case MarkState(id, ok, _) => ok || s.workers[id].tx.aborted
    case _ => a.ok
  }

  /** Runs are alive and none can proceed until one of them fails. */
  ghost predicate Stuck(s: State) {
    s.workers.Keys != {} && forall a :: !Proceeds(s, a)
  }

  lemma SubsetCard<T>(x: set<T>, y: set<T>)
    requires x <= y
    ensures |x| <= |y|
  {
    assert y == x + (y - x);
  }

  lemma HasFreeConnection(s: State, id: nat)
    requires id in s.workers && |Alive(s, s.workers[id].pool)| < s.cap(s.workers[id].pool)
    ensures FreeConnection(s, id)
  {
    SubsetCard(Holders(s, s.workers[id].pool), Alive(s, s.workers[id].pool));
  }

  /** The statement a run executes next, completing. */
  function Next(s: State, id: nat): Action
    requires id in s.workers
  {
    var w := s.workers[id];
    match w.pc
    case Starting => Begin(id, true)
    case Waiting => Lock(id, true)
    case Locked => InsertRun(id, true)
    case Inserted => ReadWatermark(id, true, "")
    case Fetching => Fetch(id, true, "")
    case Upserting => if w.upserted < |w.rows| then Upsert(id, Stored) else WriteState(id, true, 0, "")
    case Finalizing => Finalize(id, true, 0)
    case MarkingRun => MarkRun(id, !w.tx.aborted, 0)
    case MarkingState => MarkState(id, !w.tx.aborted, 0)
    case Committing => CommitTx(id, Acknowledged)
  }

  lemma HolderProceeds(s: State, id: nat)
    requires Inv(s) && s.lock == Some(id) && FreeConnection(s, id)
    ensures Proceeds(s, Next(s, id))
  {
    HolderFacts(s, id);
    HolderData(s);
    hide Inv;
  }

  /** Every pool in use has a connection more than live runs. */
  ghost predicate BelowCapacity(s: State) {
    forall id | id in s.workers :: |Alive(s, s.workers[id].pool)| < s.cap(s.workers[id].pool)
  }

  /** While every pool in use has fewer live runs than connections, some live run can proceed. */
  lemma NotStuckBelowCapacity(s: State)
    requires Inv(s) && BelowCapacity(s)
    ensures !Stuck(s)
  {
    if s.workers.Keys != {} {
      if s.lock.Some? {
        HasFreeConnection(s, s.lock.value);
        HolderProceeds(s, s.lock.value);
      } else {
        var id :| id in s.workers.Keys;
        HasFreeConnection(s, id);
        assert Proceeds(s, Next(s, id));
      }
    }
  }

  // ---- as many runs as connections can starve --------------------------------

  function QueueTrace(n: nat): seq<Action> {
    if n == 0 then [] else QueueTrace(n - 1) + [Start(n - 1, 0, 1, 0), Begin(n - 1, true)]
  }

  /** The runs 0 to n-1. */
  function FirstRuns(n: nat): (ids: set<nat>)
    ensures |ids| == n
    ensures forall id: nat :: id in ids <==> id < n
  {
    if n == 0 then {} else
      var before := FirstRuns(n - 1);
      assert n - 1 !in before;
      before + {n - 1}
  }

  const WAITING := Fresh(0, 1, 0).(pc := Waiting)

  /** Runs 0 to n-1 hold a connection each and wait for the lock. */
  ghost predicate Queued(s: State, n: nat) {
    && s.lock.None? && s.db.runs == map[]
    && s.workers.Keys == FirstRuns(n)
    && forall id | id in s.workers :: s.workers[id] == WAITING
  }

  lemma FirstN(s: State, n: nat)
    requires s.workers.Keys == FirstRuns(n)
    requires forall id | id in s.workers :: s.workers[id].pool == 0 && s.workers[id].pc != Starting
    ensures |Holders(s, 0)| == n && Holders(s, 0) == Alive(s, 0) == s.workers.Keys
  {
    assert Holders(s, 0) == FirstRuns(n);
    assert Alive(s, 0) == FirstRuns(n);
  }

  lemma StartingHoldsNothing(s: State, n: nat)
    requires n !in s.workers
    ensures Holders(With(s, n, Fresh(0, 1, 0)), 0) == Holders(s, 0)
  {
  }

  lemma BeginWaits(u: State, n: nat)
    requires n in u.workers && u.workers[n] == Fresh(0, 1, 0) && FreeConnection(u, n)
    ensures Step(u, Begin(n, true)) == With(u, n, WAITING)
  {
    hide Holders;
  }

  lemma FirstRunsNext(n: nat)
    ensures FirstRuns(n + 1) == FirstRuns(n) + {n}
  {
  }

  lemma BeginQueued(s: State, u: State, n: nat)
    requires Queued(s, n) && n < s.cap(0) && n !in s.workers
    requires u == With(s, n, Fresh(0, 1, 0)) && |Holders(s, 0)| == n
    ensures Step(u, Begin(n, true)) == With(u, n, WAITING)
  {
    StartingHoldsNothing(s, n);
    BeginWaits(u, n);
    hide Step, FirstRuns, Holders;
  }

  lemma StartQueued(s: State, n: nat)
    requires n !in s.workers && n !in s.db.runs
    ensures Step(s, Start(n, 0, 1, 0)) == With(s, n, Fresh(0, 1, 0))
  {
  }

  lemma QueueGrows(s: State, t: State, n: nat)
    requires Queued(s, n) && t == With(With(s, n, Fresh(0, 1, 0)), n, WAITING)
    ensures Queued(t, n + 1)
  {
    FirstRunsNext(n);
    hide FirstRuns;
    assert t.workers.Keys == s.workers.Keys + {n};
  }

  lemma QueueOneMore(s: State, n: nat)
    requires Queued(s, n) && n < s.cap(0)
    ensures var t := Step(Step(s, Start(n, 0, 1, 0)), Begin(n, true));
      Queued(t, n + 1) && t.cap == s.cap
  {
    assert n !in FirstRuns(n);
    FirstN(s, n);
    StartQueued(s, n);
    hide FirstRuns, Step, Holders;
    BeginQueued(s, With(s, n, Fresh(0, 1, 0)), n);
    QueueGrows(s, With(With(s, n, Fresh(0, 1, 0)), n, WAITING), n);
  }

  lemma QueueTraceNext(n: nat)
    ensures QueueTrace(n + 1) == (QueueTrace(n) + [Start(n, 0, 1, 0)]) + [Begin(n, true)]
  {
  }

  /** One more start and begin after a trace is two more steps after its state. */
  lemma QueueRuns(cap: Capacity, n: nat)
    ensures Exec(Init(cap), QueueTrace(n + 1))
         == Step(Step(Exec(Init(cap), QueueTrace(n)), Start(n, 0, 1, 0)), Begin(n, true))
  {
    var before, start, begin := QueueTrace(n), Start(n, 0, 1, 0), Begin(n, true);
    ExecSnoc(Init(cap), before, start);
    ExecSnoc(Init(cap), before + [start], begin);
    QueueTraceNext(n);
    hide Step, Init;
  }

  lemma NothingQueued(cap: Capacity)
    ensures Queued(Exec(Init(cap), QueueTrace(0)), 0) && Exec(Init(cap), QueueTrace(0)).cap == cap
  {
  }

  lemma {:induction false} QueueReachable(cap: Capacity, n: nat)
    requires n <= cap(0)
    ensures Queued(Exec(Init(cap), QueueTrace(n)), n) && Exec(Init(cap), QueueTrace(n)).cap == cap
  {
    hide Queued, Step, Init;
    if n == 0 {
      NothingQueued(cap);
    } else {
      QueueReachable(cap, n - 1);
      QueueRuns(cap, n - 1);
      QueueOneMore(Exec(Init(cap), QueueTrace(n - 1)), n - 1);
    }
  }

  lemma QueuedLocks(s: State, n: nat)
    requires Queued(s, n) && n >= 1
    ensures var u := Step(s, Lock(0, true));
      && u.cap == s.cap && u.lock == Some(0) && 0 in s.workers
      && u.workers == s.workers[0 := WAITING.(pc := Locked)]
      && s.workers.Keys == FirstRuns(n) && forall id | id in s.workers :: s.workers[id] == WAITING
  {
    assert 0 in FirstRuns(n);
  }

  lemma LockedInserts(u: State)
    requires At(u, 0, Locked)
    ensures var t := Step(u, InsertRun(0, true));
      && t.cap == u.cap && t.lock == u.lock && At(t, 0, Inserted)
      && t.workers == u.workers[0 := t.workers[0]] && t.workers[0].pool == u.workers[0].pool
  {
  }

  lemma StarvedCannotProceed(t: State)
    requires At(t, 0, Inserted) && t.lock == Some(0) && |Holders(t, t.workers[0].pool)| >= t.cap(t.workers[0].pool)
    requires forall id | id in t.workers && id != 0 :: t.workers[id].pc == Waiting
    ensures Stuck(t)
  {
    assert 0 in t.workers.Keys;
    forall a ensures !Proceeds(t, a) {
    }
  }

  lemma StarvedIsStuck(s: State, n: nat)
    requires Queued(s, n) && n == s.cap(0) && n >= 1
    ensures var t := Step(Step(s, Lock(0, true)), InsertRun(0, true));
      && Stuck(t) && t.workers.Keys == Alive(t, 0) == FirstRuns(n)
      && forall id | id in t.workers :: t.workers[id].pool == 0
  {
    assert 0 in FirstRuns(n);
    var u := Step(s, Lock(0, true));
    QueuedLocks(s, n);
    var t := Step(u, InsertRun(0, true));
    LockedInserts(u);
    hide Step, Queued, DoLock, DoInsertRun, Stuck;
    assert t.workers.Keys == s.workers.Keys == FirstRuns(n);
    FirstN(t, n);
    StarvedCannotProceed(t);
  }

  /** All connections of pool 0 are taken, and the run that gets the lock has inserted its row. */
  function StarvingTrace(n: nat): seq<Action> {
    (QueueTrace(n) + [Lock(0, true)]) + [InsertRun(0, true)]
  }

  /** For every capacity there is a reachable state in which as many runs as connections are stuck. */
  lemma StuckAtCapacity(cap: Capacity)
    requires cap(0) >= 1
    ensures var t := Exec(Init(cap), StarvingTrace(cap(0)));
      && Stuck(t) && t.workers.Keys == Alive(t, 0) == FirstRuns(cap(0))
      && forall id | id in t.workers :: t.workers[id].pool == 0
  {
    var q := QueueTrace(cap(0));
    QueueReachable(cap, cap(0));
    ExecSnoc(Init(cap), q, Lock(0, true));
    ExecSnoc(Init(cap), q + [Lock(0, true)], InsertRun(0, true));
    StarvedIsStuck(Exec(Init(cap), q), cap(0));
    hide Step, Stuck, Queued;
  }
}
