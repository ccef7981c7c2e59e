/**
 * The backlog can always be drained: undisturbed runs exist, each of them succeeds, and
 * finitely many of them catch up.
 */
module SyncLiveness {
  import opened Base
  import opened Karyawan
  import opened SyncDrain
  import opened SyncPool
  import opened SyncProgress
  import opened SyncProtocol
  import opened SyncSafety
  import opened SyncTables
  import opened SyncTheorems
  import opened SyncTrace
  import opened SyncUniform
  import opened VpsMysql

  // ---- one undisturbed run -----------------------------------------------------

  /** A run starts, or a statement of a run completes. */
  predicate Smooth(a: Action) {
    match a
    case SourceWrite(_) => false
    case Crash(_) => false
    case Cleanup(_, _) => false
    case Start(_, _, _, _) => true
    case Upsert(_, outcome) => outcome.Stored?
    case CommitTx(_, result) => result.Acknowledged?
    case _ => a.ok
  }

  ghost predicate AllSmooth(trace: seq<Action>) {
    forall i | 0 <= i < |trace| :: Smooth(trace[i])
  }

  lemma SmoothConcat(p: seq<Action>, q: seq<Action>)
    requires AllSmooth(p) && AllSmooth(q)
    ensures AllSmooth(p + q)
  {
    hide Smooth;
  }

  lemma SmoothExtend(p: Path, a: Action)
    requires AllSmooth(p.trace) && Smooth(a)
    ensures AllSmooth(Extend(p, a).trace)
  {
    SmoothConcat(p.trace, [a]);
    hide Smooth, Step;
  }

  /** The rows that are left are stored one by one. */
  lemma {:induction false} StoreRest(s0: State, p: Path, db: Db, id: nat, w: Worker)
    returns (q: Path, after: Db, v: Worker)
    requires Linked(s0, p, db, id, w) && w.pc == Upserting && w.upserted <= |w.rows| && Room(s0, w.pool, 2)
    requires AllSmooth(p.trace)
    ensures Linked(s0, q, after, id, v) && after.state == db.state && after.runs == db.runs
    ensures v == w.(upserted := |w.rows|, maxTs := v.maxTs) && AllSmooth(q.trace)
    decreases |w.rows| - w.upserted
  {
    hide Linked, Room, Project, Extend, AllSmooth;
    if w.upserted == |w.rows| {
      q, after, v := p, db, w;
    } else {
      LinkUpsert(s0, p, db, id, w, Stored);
      SmoothExtend(p, Upsert(id, Stored));
      var p1, db1 := Extend(p, Upsert(id, Stored)), StoreIn(db, w.rows[w.upserted]);
      q, after, v := StoreRest(s0, p1, db1, id, AfterUpsert(w, Stored));
    }
  }

  /** From the batch to the commit. */
  lemma FinishRest(s0: State, p: Path, db: Db, id: nat, w: Worker) returns (q: Path, after: Db)
    requires Linked(s0, p, db, id, w) && w.pc == Upserting && w.upserted == |w.rows|
    requires !w.tx.aborted && w.tx.run.Some? && AllSmooth(p.trace)
    ensures Returned(s0, q, after, id, w.batch) && q.s.counts == s0.counts + [|w.rows|] && AllSmooth(q.trace)
  {
    hide Linked, Returned, Extend, AllSmooth;
    LinkWriteState(s0, p, db, id, w, true, 0, "");
    SmoothExtend(p, WriteState(id, true, 0, ""));
    var p1, w1 := Extend(p, WriteState(id, true, 0, "")), AfterWriteState(w, true, 0, "");
    LinkFinalize(s0, p1, db, id, w1, true, 0);
    SmoothExtend(p1, Finalize(id, true, 0));
    var p2, w2 := Extend(p1, Finalize(id, true, 0)), AfterFinalize(w1, true, 0);
    LinkCommit(s0, p2, db, id, w2, Acknowledged);
    SmoothExtend(p2, CommitTx(id, Acknowledged));
    q, after := Extend(p2, CommitTx(id, Acknowledged)), Committed(db, id, w2.tx, Acknowledged);
  }

  lemma LinkedTables(s0: State, p: Path, db: Db, id: nat, w: Worker)
    requires Linked(s0, p, db, id, w)
    ensures p.s.db == db
  {
  }

  /** With the lock free and two connections left, a run can get as far as its row. */
  lemma InsertRow(s0: State, id: nat, pool: nat, b: Batch) returns (p: Path, w: Worker)
    requires id !in s0.workers && id !in s0.db.runs && Keyed(s0.src) && s0.lock.None? && Room(s0, pool, 2)
    ensures Linked(s0, p, s0.db, id, w) && AllSmooth(p.trace)
    ensures w == Fresh(pool, b, 0).(pc := Inserted, tx := InsertRunning(NO_WRITES, 0))
  {
    var w0 := Fresh(pool, b, 0);
    LinkStart(s0, id, w0);
    assert Room(s0, pool, 1);
    SmoothExtend(Path(s0, []), Start(id, pool, b, 0));
    var p0 := Extend(Path(s0, []), Start(id, pool, b, 0));
    assert Smooth(Begin(id, true)) && Smooth(Lock(id, true)) && Smooth(InsertRun(id, true));
    hide Linked, Room, Keyed, Extend, AllSmooth, Smooth, Holders;
    LinkPreamble(s0, p0, s0.db, id, w0, Begin(id, true), w0.(pc := Waiting));
    SmoothExtend(p0, Begin(id, true));
    var p1 := Extend(p0, Begin(id, true));
    LinkPreamble(s0, p1, s0.db, id, w0.(pc := Waiting), Lock(id, true), w0.(pc := Locked));
    SmoothExtend(p1, Lock(id, true));
    var p2 := Extend(p1, Lock(id, true));
    w := w0.(pc := Inserted, tx := InsertRunning(NO_WRITES, 0));
    LinkPreamble(s0, p2, s0.db, id, w0.(pc := Locked), InsertRun(id, true), w);
    SmoothExtend(p2, InsertRun(id, true));
    p := Extend(p2, InsertRun(id, true));
  }

  /** Then it can store its whole batch. */
  lemma StoreBatch(s0: State, id: nat, pool: nat, b: Batch) returns (p: Path, db: Db, w: Worker)
    requires id !in s0.workers && id !in s0.db.runs && Keyed(s0.src) && s0.lock.None? && Room(s0, pool, 2)
    ensures Linked(s0, p, db, id, w) && db.state == s0.db.state && db.runs == s0.db.runs && AllSmooth(p.trace)
    ensures w.pc == Upserting && w.batch == b && w.rows == Limit(Pending(s0.src, Watermark(s0)), b)
    ensures w.upserted == |w.rows| && !w.tx.aborted && w.tx.run.Some?
  {
    hide Linked, Room, Pending, Limit, Tied, Extend, AllSmooth;
    var p3, w3 := InsertRow(s0, id, pool, b);
    LinkRead(s0, p3, s0.db, id, w3, true, "");
    SmoothExtend(p3, ReadWatermark(id, true, ""));
    LinkedTables(s0, p3, s0.db, id, w3);
    var p4, w4 := Extend(p3, ReadWatermark(id, true, "")), AfterRead(p3.s, w3, true, "");
    LinkFetch(s0, p4, s0.db, id, w4, true, "");
    SmoothExtend(p4, Fetch(id, true, ""));
    p, db, w := StoreRest(s0, Extend(p4, Fetch(id, true, "")), s0.db, id, Fetched(s0.src, w4));
  }

  /** Then, without failures, it returns successfully. */
  lemma CleanRun(s0: State, id: nat, pool: nat, b: Batch) returns (p: Path, db: Db)
    requires id !in s0.workers && id !in s0.db.runs && Keyed(s0.src) && s0.lock.None? && Room(s0, pool, 2)
    ensures Returned(s0, p, db, id, b) && Successes(s0, p.s) == 1 && AllSmooth(p.trace)
  {
    var p1, db1, w := StoreBatch(s0, id, pool, b);
    hide Linked, Returned, AllSmooth;
    p, db := FinishRest(s0, p1, db1, id, w);
  }

  // ---- many of them --------------------------------------------------------------

  lemma UnusedId(s: State) returns (id: nat)
    ensures id !in s.workers && id !in s.db.runs
  {
    var x := Bounded(s.workers.Keys);
    var y := Bounded(s.db.runs.Keys);
    id := if x < y then y else x;
  }

  lemma OwnIsQuiet(trace: seq<Action>, id: nat, b: Batch)
    requires OwnTrace(trace, id, b)
    ensures Quiet(trace, {b})
  {
  }

  lemma QuietConcat(p: seq<Action>, q: seq<Action>, b: Batch)
    requires Quiet(p, {b}) && Quiet(q, {b})
    ensures Quiet(p + q, {b})
  {
  }

  /** Any number of runs can succeed one after the other, and nothing else changes who is alive. */
  lemma {:induction false} CleanRuns(s0: State, pool: nat, b: Batch, n: nat) returns (trace: seq<Action>)
    requires Keyed(s0.src) && s0.lock.None? && Room(s0, pool, 2)
    ensures Quiet(trace, {b}) && AllSmooth(trace) && Successes(s0, Exec(s0, trace)) == n
    ensures var t := Exec(s0, trace); t.src == s0.src && t.workers == s0.workers && t.cap == s0.cap && t.lock.None?
  {
    if n == 0 {
      trace := [];
    } else {
      var before := CleanRuns(s0, pool, b, n - 1);
      var mid := Exec(s0, before);
      var id := UnusedId(mid);
      var p, db := CleanRun(mid, id, pool, b);
      ExecConcat(s0, before, p.trace);
      OwnIsQuiet(p.trace, id, b);
      QuietConcat(before, p.trace, b);
      SmoothConcat(before, p.trace);
      trace := before + p.trace;
    }
  }

  /** While the lock is free and a pool has two connections left, undisturbed runs catch up. */
  lemma CanCatchUp(s0: State, pool: nat, b: Batch)
    requires Inv(s0) && Settled(s0, {b}) && s0.lock.None? && Room(s0, pool, 2)
    ensures exists trace :: Quiet(trace, {b}) && AllSmooth(trace) && CaughtUp(Exec(s0, trace))
  {
    var q := Backlog(s0);
    var trace := CleanRuns(s0, pool, b, |q|);
    var bs := DrainState(s0, trace, {b});
    DrainShrinks(q, bs, {b});
    hide Inv, Settled, Drain, Balanced, Quiet, AllSmooth, RunsOk, Overlays, Offer;
    assert CaughtUp(Exec(s0, trace));
  }

  /** Without split ties they do so in as many runs as the backlog has batches, and it is all mirrored. */
  lemma CatchesUpInTime(s0: State, pool: nat, b: Batch)
    requires Inv(s0) && Settled(s0, {b}) && s0.lock.None? && Room(s0, pool, 2) && NoSplitTie(Backlog(s0), b)
    ensures exists trace ::
      && Quiet(trace, {b}) && AllSmooth(trace) && CaughtUp(Exec(s0, trace))
      && Successes(s0, Exec(s0, trace)) == CeilDiv(|Backlog(s0)|, b)
      && Exec(s0, trace).db.mirror == UpsertAll(s0.db.mirror, Backlog(s0))
  {
    var n := CeilDiv(|Backlog(s0)|, b);
    hide Inv, Settled, NoSplitTie, Room, Quiet, UpsertAll, CeilDiv, AllSmooth;
    var trace := CleanRuns(s0, pool, b, n);
    DrainsBatchByBatch(s0, trace, b);
    UniformLikeOneBatch(s0, trace, b);
    assert CaughtUp(Exec(s0, trace));
  }

  // ---- from a state with live runs ---------------------------------------------------

  lemma IdleCatchesUp(s: State, pool: nat, b: Batch)
    requires Inv(s) && s.workers.Keys == {} && s.cap(pool) >= 2
    ensures exists trace :: Quiet(trace, {b}) && AllSmooth(trace) && CaughtUp(Exec(s, trace))
  {
    HolderData(s);
    assert Holders(s, pool) == {};
    hide DataOk;
    CanCatchUp(s, pool, b);
  }

  /**
   * While every pool in use has a connection to spare, the live runs can all return and
   * further runs catch up, and nothing crashes or fails on the way.
   */
  lemma LiveRunsThenCatchUp(s: State, pool: nat, b: Batch)
    requires Inv(s) && BelowCapacity(s) && s.cap(pool) >= 2
    ensures exists first, rest ::
      && AllProceed(s, first) && Exec(s, first).workers.Keys == {}
      && Quiet(rest, {b}) && AllSmooth(rest) && CaughtUp(Exec(s, first + rest))
  {
    hide Inv, BelowCapacity, AllProceed, Quiet, AllSmooth, CaughtUp;
    LiveRunsFinish(s);
    var first :| AllProceed(s, first) && Exec(s, first).workers.Keys == {};
    var n := Bounded(s.workers.Keys);
    ProceedsBounded(s, first, n);
    ExecInv(s, first);
    IdleCatchesUp(Exec(s, first), pool, b);
    var rest :| Quiet(rest, {b}) && AllSmooth(rest) && CaughtUp(Exec(Exec(s, first), rest));
    ExecConcat(s, first, rest);
  }

  lemma CrashLeaves(s: State, id: nat)
    requires id in s.workers
    ensures Step(s, Crash(id)) == Leave(s, id)
  {
  }

  /** Every run that is alive can die, which frees its connection and its lock. */
  lemma {:induction false} AllDie(s: State, b: Batch) returns (trace: seq<Action>)
    requires s.lock.Some? ==> s.lock.value in s.workers
    ensures Quiet(trace, {b})
    ensures Exec(s, trace) == s.(workers := map[], lock := None)
    decreases |s.workers.Keys|
  {
    if s.workers.Keys == {} {
      trace := [];
      assert s.workers == map[];
    } else {
      var id :| id in s.workers;
      var t := Leave(s, id);
      assert t.workers.Keys == s.workers.Keys - {id};
      var rest := AllDie(t, b);
      CrashLeaves(s, id);
      ExecSnoc(s, [], Crash(id));
      ExecConcat(s, [Crash(id)], rest);
      assert [] + [Crash(id)] == [Crash(id)];
      hide Step, Leave;
      trace := [Crash(id)] + rest;
    }
  }

  /**
   * From every state that satisfies the invariant, stuck ones included, a quiet source can
   * be caught up with once its live runs are dead, if some pool has two connections.
   */
  lemma CanAlwaysCatchUp(s: State, pool: nat, b: Batch)
    requires Inv(s) && s.cap(pool) >= 2
    ensures exists trace :: Quiet(trace, {b}) && CaughtUp(Exec(s, trace))
  {
    var first := AllDie(s, b);
    var t := Exec(s, first);
    ExecInv(s, first);
    hide Inv, CaughtUp;
    IdleCatchesUp(t, pool, b);
    var rest :| Quiet(rest, {b}) && CaughtUp(Exec(t, rest));
    ExecConcat(s, first, rest);
    QuietConcat(first, rest, b);
    hide Quiet;
    assert Quiet(first + rest, {b}) && CaughtUp(Exec(s, first + rest));
  }
}
