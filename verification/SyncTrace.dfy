/**
 * A run by itself, statement by statement, as a trace of the protocol: each lemma
 * extends the trace by the statement that comes next, whether it succeeds or fails.
 */
module SyncTrace {
  import opened Base
  import opened Karyawan
  import opened SyncTables
  import opened SyncProtocol
  import opened SyncSafety
  import opened SyncTheorems
  import opened VpsMysql

  /** An action of run `id`, which was started with the given batch size and does not crash. */
  ghost predicate OwnAction(a: Action, id: nat, batch: nat) {
    !a.SourceWrite? && !a.Cleanup? && !a.Crash? && a.id == id && (a.Start? ==> a.batch == batch)
  }

  ghost predicate OwnTrace(trace: seq<Action>, id: nat, batch: nat) {
    forall i | 0 <= i < |trace| :: OwnAction(trace[i], id, batch)
  }

  /** A state and the actions that led to it. */
  datatype Path = Path(s: State, trace: seq<Action>)

  ghost function Extend(p: Path, a: Action): Path {
    Path(Step(p.s, a), p.trace + [a])
  }

  /** The trace of run `id` alone leads from `s0` to `p.s`, where the run is `w` and the tables are `db`. */
  ghost predicate Linked(s0: State, p: Path, db: Db, id: nat, w: Worker) {
    && p.s == Exec(s0, p.trace) && OwnTrace(p.trace, id, w.batch)
    && p.s.src == s0.src && p.s.db == db && p.s.cap == s0.cap && p.s.counts == s0.counts
    && id !in s0.workers && p.s.workers == s0.workers[id := w]
    && p.s.lock == (if PastLock(w.pc) then Some(id) else s0.lock) && (PastLock(w.pc) ==> s0.lock.None?)
    && Keyed(s0.src) && w.batch >= 1 && s0.lock != Some(id)
  }

  /** The run has returned: the lock is as before, and the tables are `db`. */
  ghost predicate Returned(s0: State, p: Path, db: Db, id: nat, batch: nat) {
    && p.s == Exec(s0, p.trace) && OwnTrace(p.trace, id, batch)
    && p.s.src == s0.src && p.s.db == db && p.s.cap == s0.cap && p.s.workers == s0.workers && p.s.lock == s0.lock
  }

  /** A run that starts in a reachable state ends in one, so every guarantee about traces covers it. */
  lemma RunIsReachable(cap: Capacity, before: seq<Action>, p: Path, db: Db, id: nat, batch: nat)
    requires Returned(Exec(Init(cap), before), p, db, id, batch)
    ensures p.s == Exec(Init(cap), before + p.trace) && Inv(p.s)
  {
    ExecConcat(Init(cap), before, p.trace);
    Reachable(cap, before + p.trace);
    hide Inv;
  }

  /** The pool has `n` connections besides those held by transactions. */
  predicate Room(s: State, pool: nat, n: nat) {
    |Holders(s, pool)| + n <= s.cap(pool)
  }

  lemma ConnectionsLeft(s0: State, p: Path, db: Db, id: nat, w: Worker)
    requires Linked(s0, p, db, id, w) && Room(s0, w.pool, if w.pc == Starting then 1 else 2)
    ensures FreeConnection(p.s, id)
  {
    var before, held := Holders(s0, w.pool), Holders(p.s, w.pool);
    if w.pc == Starting {
      assert held == before;
    } else {
      assert held <= before + {id};
      assert before + {id} == held + (before + {id} - held);
    }
  }

  lemma Advance(s0: State, p: Path, db: Db, id: nat, w: Worker, a: Action, after: Db, v: Worker)
    requires Linked(s0, p, db, id, w) && OwnAction(a, id, w.batch) && Enabled(p.s, a)
    requires v.pool == w.pool && v.batch == w.batch && (PastLock(v.pc) ==> s0.lock.None?)
    requires var t := Apply(p.s, a);
      && t.db == after && t.workers == p.s.workers[id := v]
      && t.src == p.s.src && t.cap == p.s.cap && t.counts == p.s.counts
      && t.lock == (if PastLock(v.pc) then Some(id) else s0.lock)
    ensures Linked(s0, Extend(p, a), after, id, v)
  {
    ExecSnoc(s0, p.trace, a);
    hide Apply, Enabled, Holders, Keyed;
  }

  lemma Return(s0: State, p: Path, db: Db, id: nat, w: Worker, a: Action, after: Db)
    requires Linked(s0, p, db, id, w) && OwnAction(a, id, w.batch) && Enabled(p.s, a)
    requires var t := Apply(p.s, a);
      t.db == after && t.workers == p.s.workers - {id} && t.src == p.s.src && t.cap == p.s.cap && t.lock == s0.lock
    ensures Returned(s0, Extend(p, a), after, id, w.batch)
  {
    ExecSnoc(s0, p.trace, a);
    hide Apply, Enabled, Holders, Keyed;
    assert s0.workers[id := w] - {id} == s0.workers;
  }

  lemma LinkStart(s0: State, id: nat, w: Worker)
    requires id !in s0.workers && id !in s0.db.runs && Keyed(s0.src) && s0.lock != Some(id)
    requires w.batch >= 1 && w == Fresh(w.pool, w.batch, w.startedAt)
    ensures Linked(s0, Extend(Path(s0, []), Start(id, w.pool, w.batch, w.startedAt)), s0.db, id, w)
  {
    ExecSnoc(s0, [], Start(id, w.pool, w.batch, w.startedAt));
  }

  /** A statement of the preamble succeeds. */
  lemma LinkPreamble(s0: State, p: Path, db: Db, id: nat, w: Worker, a: Action, v: Worker)
    requires Linked(s0, p, db, id, w)
    requires || (a == Begin(id, true) && w.pc == Starting && v == w.(pc := Waiting) && Room(s0, w.pool, 1))
             || (a == Lock(id, true) && w.pc == Waiting && v == w.(pc := Locked) && s0.lock.None?)
             || (a == InsertRun(id, true) && w.pc == Locked
                 && v == w.(pc := Inserted, tx := InsertRunning(w.tx, w.startedAt)))
    ensures Linked(s0, Extend(p, a), db, id, v)
  {
    if w.pc == Starting {
      ConnectionsLeft(s0, p, db, id, w);
    }
    hide Holders, Room, Keyed;
    Advance(s0, p, db, id, w, a, db, v);
  }

  /** A statement of the preamble fails, and the run returns. */
  lemma LinkRefused(s0: State, p: Path, db: Db, id: nat, w: Worker, a: Action)
    requires Linked(s0, p, db, id, w)
    requires || (a == Begin(id, false) && w.pc == Starting)
             || (a == Lock(id, false) && w.pc == Waiting)
             || (a == InsertRun(id, false) && w.pc == Locked)
    ensures Returned(s0, Extend(p, a), db, id, w.batch)
  {
    hide Holders, Room, Keyed;
    Return(s0, p, db, id, w, a, db);
  }

  lemma LinkRead(s0: State, p: Path, db: Db, id: nat, w: Worker, ok: bool, cause: string)
    requires Linked(s0, p, db, id, w) && w.pc == Inserted && (ok ==> Room(s0, w.pool, 2))
    ensures Linked(s0, Extend(p, ReadWatermark(id, ok, cause)), db, id, AfterRead(p.s, w, ok, cause))
  {
    if ok {
      ConnectionsLeft(s0, p, db, id, w);
    }
    hide Holders, Room, Keyed;
    Advance(s0, p, db, id, w, ReadWatermark(id, ok, cause), db, AfterRead(p.s, w, ok, cause));
  }

  lemma LinkFetch(s0: State, p: Path, db: Db, id: nat, w: Worker, ok: bool, cause: string)
    requires Linked(s0, p, db, id, w) && w.pc == Fetching
    ensures Linked(s0, Extend(p, Fetch(id, ok, cause)), db, id, if ok then Fetched(s0.src, w) else GiveUp(w, cause))
  {
    hide Holders, Room, Keyed, Pending, Limit, Tied;
    Advance(s0, p, db, id, w, Fetch(id, ok, cause), db, if ok then Fetched(s0.src, w) else GiveUp(w, cause));
  }

  lemma LinkUpsert(s0: State, p: Path, db: Db, id: nat, w: Worker, outcome: UpsertOutcome)
    requires Linked(s0, p, db, id, w) && w.pc == Upserting && w.upserted < |w.rows|
    requires outcome.Rejected? || Room(s0, w.pool, 2)
    ensures var after := if outcome.Rejected? then db else StoreIn(db, w.rows[w.upserted]);
      Linked(s0, Extend(p, Upsert(id, outcome)), after, id, AfterUpsert(w, outcome))
  {
    if !outcome.Rejected? {
      ConnectionsLeft(s0, p, db, id, w);
    }
    hide Holders, Room, Keyed, Project;
    var after := if outcome.Rejected? then db else StoreIn(db, w.rows[w.upserted]);
    Advance(s0, p, db, id, w, Upsert(id, outcome), after, AfterUpsert(w, outcome));
  }

  lemma LinkWriteState(s0: State, p: Path, db: Db, id: nat, w: Worker, ok: bool, at: int, cause: string)
    requires Linked(s0, p, db, id, w) && w.pc == Upserting && w.upserted == |w.rows|
    ensures Linked(s0, Extend(p, WriteState(id, ok, at, cause)), db, id, AfterWriteState(w, ok, at, cause))
  {
    hide Holders, Room, Keyed;
    Advance(s0, p, db, id, w, WriteState(id, ok, at, cause), db, AfterWriteState(w, ok, at, cause));
  }

  lemma LinkFinalize(s0: State, p: Path, db: Db, id: nat, w: Worker, ok: bool, at: int)
    requires Linked(s0, p, db, id, w) && w.pc == Finalizing
    ensures Linked(s0, Extend(p, Finalize(id, ok, at)), db, id, AfterFinalize(w, ok, at))
  {
    hide Holders, Room, Keyed;
    Advance(s0, p, db, id, w, Finalize(id, ok, at), db, AfterFinalize(w, ok, at));
  }

  lemma LinkMarkRun(s0: State, p: Path, db: Db, id: nat, w: Worker, ok: bool, at: int)
    requires Linked(s0, p, db, id, w) && w.pc == MarkingRun && (ok ==> !w.tx.aborted)
    ensures Linked(s0, Extend(p, MarkRun(id, ok, at)), db, id, AfterMarkRun(w, ok, at))
  {
    hide Holders, Room, Keyed;
    Advance(s0, p, db, id, w, MarkRun(id, ok, at), db, AfterMarkRun(w, ok, at));
  }

  lemma LinkMarkState(s0: State, p: Path, db: Db, id: nat, w: Worker, ok: bool, at: int)
    requires Linked(s0, p, db, id, w) && w.pc == MarkingState && (ok ==> !w.tx.aborted)
    ensures Linked(s0, Extend(p, MarkState(id, ok, at)), db, id, AfterMarkState(p.s, w, ok, at))
  {
    hide Holders, Room, Keyed;
    Advance(s0, p, db, id, w, MarkState(id, ok, at), db, AfterMarkState(p.s, w, ok, at));
  }

  function Committed(db: Db, id: nat, tx: Tx, result: CommitOutcome): Db {
    if result == ConnectionLost then db else Commit(db, id, tx)
  }

  /** Committing ends the run; only a success counts. */
  lemma LinkCommit(s0: State, p: Path, db: Db, id: nat, w: Worker, result: CommitOutcome)
    requires Linked(s0, p, db, id, w) && w.pc == Committing
    ensures var q, success := Extend(p, CommitTx(id, result)), result != ConnectionLost && CommitsSuccess(w);
      && Returned(s0, q, Committed(db, id, w.tx, result), id, w.batch)
      && q.s.counts == if success then s0.counts + [w.upserted] else s0.counts
  {
    hide Holders, Room, Keyed;
    Return(s0, p, db, id, w, CommitTx(id, result), Committed(db, id, w.tx, result));
  }
}
