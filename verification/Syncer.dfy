/**
 * One sync run as the service executes it, statement by statement, on the tables
 * it updates. It is proved to compute what `RunResult` says of it and to be a run
 * of the protocol, whatever statements fail on the way.
 */
module Syncer {
  import opened Base
  import opened Karyawan
  import opened SyncTables
  import opened SyncProtocol
  import opened SyncTrace
  import opened VpsMysql

  /** The committed tables of the local database. */
  class Postgres {
    var mirror: Mirror
    var state: Option<StateRow>
    var runs: Runs

    ghost function Tables(): Db
      reads this
    {
      Db(mirror, state, runs)
    }

    constructor ()
      ensures Tables() == EMPTY_SCHEMA
    {
      mirror, state, runs := map[], None, map[];
    }

    /** INSERT ... ON CONFLICT (nik_hris) DO UPDATE. */
    method Upsert(k: Karyawan)
      modifies this`mirror
      ensures mirror == old(mirror)[k.nikHris := k]
    {
      mirror := mirror[k.nikHris := k];
    }

    /** None if the query fails. */
    method ReadWatermark(ok: bool) returns (watermark: Option<int>)
      ensures watermark == if ok then Some(WatermarkOf(state)) else None
      ensures ok && state.Some? && state.value.watermark.Some? ==> watermark == state.value.watermark
      ensures ok && (state.None? || state.value.watermark.None?) ==> watermark == Some(0)
    {
      if !ok {
        return None;
      }
      match state
      case None => watermark := Some(EPOCH);
      case Some(row) => watermark := if row.watermark.Some? then row.watermark else Some(EPOCH);
    }

    method CommitTx(id: nat, tx: Tx)
      modifies this`state, this`runs
      ensures Tables() == Commit(old(Tables()), id, tx)
    {
      if !tx.aborted {
        if tx.state.Some? {
          state := tx.state;
        }
        if tx.run.Some? {
          runs := runs[id := tx.run.value];
        }
      }
    }

    /**
     * Marks old 'running' rows of one resource failed, keeping all else they hold, and
     * returns how many rows it changed.
     */
    method CleanupStaleRuns(resource: string, now: int, staleAfter: int) returns (n: nat)
      modifies this`runs
      ensures runs == Cleaned(old(runs), resource, now, now - staleAfter)
      ensures forall id | id in old(runs) ::
        id in runs && Recovers(old(runs)[id], resource, now, now - staleAfter, runs[id])
      ensures n == |set id | id in old(runs) && runs[id] != old(runs)[id]|
    {
      n := 0;
      var before, cutoff := runs, now - staleAfter;
      hide Stale, Recover, Recovers;
      var left := runs.Keys;
      ghost var changed := {};
      while left != {}
        invariant left <= before.Keys == runs.Keys && n == |changed|
        invariant forall id | id in left :: runs[id] == before[id]
        invariant forall id | id in before && id !in left ::
          runs[id] == if Stale(before[id], resource, cutoff) then Recover(before[id], now) else before[id]
        invariant forall id :: id in changed <==> id in before && id !in left && Stale(before[id], resource, cutoff)
        decreases left
      {
        var id :| id in left;
        left := left - {id};
        if Stale(runs[id], resource, cutoff) {
          runs := runs[id := Recover(runs[id], now)];
          n, changed := n + 1, changed + {id};
        }
      }
      assert runs == Cleaned(before, resource, now, cutoff);
      hide *;
      CleanedIds(before, resource, now, cutoff);
      assert changed == StaleIds(before, resource, cutoff);
      CleanupIsSelectiveAndIdempotent(before, resource, now, now, cutoff);
    }
  }

  /** The batch size a syncer uses, which it also hands to its source; never zero or negative. */
  method New(src: Client, batchSize: int) returns (batch: nat)
    requires src.Valid()
    modifies src`batchSize
    ensures src.Valid() && src.batchSize == batch >= 1
    ensures batch == if batchSize <= 0 then 500 else batchSize
  {
    batch := if batchSize <= 0 then DEFAULT_BATCH else batchSize;
    src.SetBatchSize(batch);
  }

  /** Which statements of a run fail; `upserts` lists the outcome row by row, and rows beyond it are stored. */
  datatype Faults = Faults(
    begin: bool, lock: bool, insert: bool, read: bool, fetch: bool, upserts: seq<UpsertOutcome>,
    writeState: bool, finalize: bool, markRun: bool, markState: bool, commit: CommitOutcome)

  // ---- the run -----------------------------------------------------------------

  /** The transaction after a failure is marked in it: of no effect unless both statements work. */
  function FailureTx(tx: Tx, committed: Option<StateRow>, at: int, cause: string, f: Faults): Tx {
    if tx.aborted || !f.markRun || !f.markState then Abort(tx)
    else WriteFailure(FailRun(tx, at, cause), committed, at, cause)
  }

  /**
   * Both statements may fail; the errors are swallowed. Either the run row and the
   * state row both say that the run failed, and the watermark is the one it was, or
   * the transaction is aborted.
   */
  method MarkRunFailed(pg: Postgres, tx: Tx, at: int, cause: string, f: Faults) returns (out: Tx)
    ensures out.aborted <==> tx.aborted || !f.markRun || !f.markState
    ensures !out.aborted ==>
      var seen := if tx.state.Some? then tx.state else pg.state;
      && out.state == Some(StateRow(StoredWatermark(seen), at, Failed, Some(cause)))
      && (tx.run.None? ==> out.run.None?)
      && (tx.run.Some? ==>
            out.run == Some(tx.run.value.(finishedAt := Some(at), status := Failed, error := Some(cause))))
  {
    out := tx;
    if f.markRun && !out.aborted {
      out := FailRun(out, at, cause);
    } else {
      out := Abort(out);
    }
    if f.markState && !out.aborted {
      out := WriteFailure(out, pg.state, at, cause);
    } else {
      out := Abort(out);
    }
  }

  /** The common failure path: mark the run failed in its transaction, commit, and return. */
  method FailAndCommit(pg: Postgres, id: nat, tx: Tx, at: int, cause: string, f: Faults,
                       ghost s0: State, ghost p: Path, ghost w: Worker)
    returns (ghost q: Path)
    requires Linked(s0, p, pg.Tables(), id, w) && w.pc == MarkingRun && w.tx == tx && w.cause == cause
    modifies pg`state, pg`runs
    ensures Returned(s0, q, pg.Tables(), id, w.batch)
    ensures pg.Tables() == Committed(old(pg.Tables()), id, FailureTx(tx, old(pg.state), at, cause, f), f.commit)
  {
    var final := MarkRunFailed(pg, tx, at, cause, f);
    ghost var okRun := f.markRun && !tx.aborted;
    LinkMarkRun(s0, p, pg.Tables(), id, w, okRun, at);
    ghost var v := AfterMarkRun(w, okRun, at);
    ghost var okState := f.markState && !v.tx.aborted;
    ghost var p1 := Extend(p, MarkRun(id, okRun, at));
    assert p1.s.db == pg.Tables();
    LinkMarkState(s0, p1, pg.Tables(), id, v, okState, at);
    ghost var u := AfterMarkState(p1.s, v, okState, at);
    ghost var p2 := Extend(p1, MarkState(id, okState, at));
    LinkCommit(s0, p2, pg.Tables(), id, u, f.commit);
    q := Extend(p2, CommitTx(id, f.commit));
    hide Linked, Returned;
    if f.commit != ConnectionLost {
      pg.CommitTx(id, final);
    }
  }

  function OutcomeAt(f: Faults, i: nat): UpsertOutcome {
    if i < |f.upserts| then f.upserts[i] else Stored
  }

  function LastOf(rows: seq<SourceRow>, watermark: int): int {
    if rows == [] then watermark else rows[|rows| - 1].stamp
  }

  /** The first of rows `i` to `n - 1` whose upsert reports an error; `n` without one. */
  function FirstFault(f: Faults, i: nat, n: nat): (k: nat)
    requires i <= n
    ensures i <= k <= n
    decreases n - i
  {
    if i == n || !OutcomeAt(f, i).Stored? then i else FirstFault(f, i + 1, n)
  }

  /** How many rows reach the mirror: one more than were acknowledged if only an acknowledgement got lost. */
  function StoredRows(f: Faults, n: nat): (k: nat)
    ensures k <= n
  {
    var i := FirstFault(f, 0, n);
    if i < n && OutcomeAt(f, i).StoredUnacknowledged? then i + 1 else i
  }

  function Failure(f: Faults, n: nat): Option<string> {
    var i := FirstFault(f, 0, n);
    if i == n then None
    else match OutcomeAt(f, i)
      case Stored => None
      case Rejected(cause) => Some(cause)
      case StoredUnacknowledged(cause) => Some(cause)
  }

  // ---- what a run does ---------------------------------------------------------

  datatype RunReport = RunReport(db: Db, n: nat, err: Option<string>)

  function FailedRun(db: Db, id: nat, tx: Tx, at: int, cause: string, f: Faults): RunReport {
    RunReport(Committed(db, id, FailureTx(tx, db.state, at, cause, f), f.commit), 0, Some(cause))
  }

  function FinishedRun(db: Db, id: nat, tx: Tx, at: int, n: nat, f: Faults): RunReport {
    if !f.finalize then RunReport(db, n, Some("finalize sync_run"))
    else
      var err := if f.commit == Acknowledged then None else Some("commit sync tx");
      RunReport(Committed(db, id, FinishRun(tx, at, n), f.commit), n, err)
  }

  function StoredRun(db: Db, rows: seq<SourceRow>, id: nat, tx: Tx, at: int, f: Faults): RunReport {
    var mid := db.(mirror := UpsertAll(db.mirror, rows[..StoredRows(f, |rows|)]));
    var failure := Failure(f, |rows|);
    if failure.Some? then FailedRun(mid, id, tx, at, failure.value, f)
    else if !f.writeState then FailedRun(mid, id, Abort(tx), at, "update sync_state", f)
    else FinishedRun(mid, id, WriteWatermark(tx, LastOf(rows, WatermarkOf(db.state)), at), at, |rows|, f)
  }

  /** A run that finds `rows` pending, given which of its statements fail. */
  function RunResult(db: Db, rows: seq<SourceRow>, id: nat, startedAt: int, at: int, f: Faults): RunReport {
    if !f.begin then RunReport(db, 0, Some("begin lock tx"))
    else if !f.lock then RunReport(db, 0, Some("acquire advisory lock"))
    else if !f.insert then RunReport(db, 0, Some("insert sync_run"))
    else
      var tx := InsertRunning(NO_WRITES, startedAt);
      if !f.read then FailedRun(db, id, tx, at, "read watermark", f)
      else if !f.fetch then FailedRun(db, id, tx, at, "fetch from source", f)
      else StoredRun(db, rows, id, tx, at, f)
  }

  /** The mirror holds the first rows of the batch, and nothing else changed in it. */
  ghost predicate PartlyMirrored(before: Mirror, after: Mirror, rows: seq<SourceRow>) {
    exists k | 0 <= k <= |rows| :: after == UpsertAll(before, rows[..k])
  }

  lemma PrefixMirrored(before: Mirror, rows: seq<SourceRow>, k: nat)
    requires k <= |rows|
    ensures PartlyMirrored(before, UpsertAll(before, rows[..k]), rows)
  {
  }

  /** Everything up to the row loop, and every row of it, succeeded. */
  predicate AllStored(f: Faults, n: nat) {
    f.begin && f.lock && f.insert && f.read && f.fetch && FirstFault(f, 0, n) == n
  }

  /** No 'running' row, no row of another run, and the watermark as before. */
  predicate TidyTables(before: Db, after: Db, id: nat, at: int) {
    && after.runs.Keys <= before.runs.Keys + {id}
    && (forall i | i in before.runs && i != id :: i in after.runs && after.runs[i] == before.runs[i])
    && (id in after.runs ==> after.runs[id].status != Running && after.runs[id].finishedAt == Some(at))
  }

  predicate RecordsFailure(f: Faults) {
    f.markRun && f.markState && f.commit != ConnectionLost
  }

  lemma FailedRunEffect(db: Db, id: nat, startedAt: int, at: int, cause: string, f: Faults)
    requires id !in db.runs
    ensures var r := FailedRun(db, id, InsertRunning(NO_WRITES, startedAt), at, cause, f);
      && r.db.mirror == db.mirror && r.err == Some(cause) && r.n == 0
      && TidyTables(db, r.db, id, at) && StoredWatermark(r.db.state) == StoredWatermark(db.state)
      && (id in r.db.runs ==> r.db.runs[id].status == Failed)
      && (RecordsFailure(f) ==>
            && r.db.runs == db.runs[id := RunRow("karyawan", startedAt, Some(at), 0, Failed, r.err)]
            && r.db.state == Some(StateRow(StoredWatermark(db.state), at, Failed, r.err)))
  {
  }

  lemma AbortedRunEffect(db: Db, id: nat, tx: Tx, at: int, cause: string, f: Faults)
    requires tx.aborted
    ensures FailedRun(db, id, tx, at, cause, f) == RunReport(db, 0, Some(cause))
  {
  }

  lemma FinishedRunEffect(db: Db, id: nat, startedAt: int, at: int, watermark: int, n: nat, f: Faults)
    requires id !in db.runs
    ensures var r := FinishedRun(db, id, WriteWatermark(InsertRunning(NO_WRITES, startedAt), watermark, at), at, n, f);
      && r.db.mirror == db.mirror && r.n == n && TidyTables(db, r.db, id, at)
      && (r.err.None? <==> f.finalize && f.commit == Acknowledged)
      && (if f.finalize && f.commit != ConnectionLost then
            && r.db.state == Some(StateRow(Some(watermark), at, Success, None))
            && r.db.runs == db.runs[id := RunRow("karyawan", startedAt, Some(at), n, Success, None)]
          else r.db == db)
  {
  }

  /** The batch, the watermark and the success row were committed, whether or not that was acknowledged. */
  predicate Stores(all: bool, f: Faults) {
    all && f.writeState && f.finalize && f.commit != ConnectionLost
  }

  /**
   * What a run leaves behind; `all` says that every statement up to the last upsert
   * succeeded. It reports no error exactly when all statements succeeded. Its success
   * row is there, with all rows mirrored and counted and the last one's stamp as the
   * watermark, exactly when all succeeded but perhaps for the acknowledgement of the
   * commit; otherwise some first rows may be mirrored, and the watermark stays. A
   * failure before the watermark is written is recorded, when the statements that
   * record it work. No 'running' row is left in any case.
   */
  ghost predicate Leaves(db: Db, r: RunReport, rows: seq<SourceRow>, id: nat, startedAt: int, at: int,
                         all: bool, f: Faults) {
    && PartlyMirrored(db.mirror, r.db.mirror, rows) && TidyTables(db, r.db, id, at)
    && (r.err.None? <==> Stores(all, f) && f.commit == Acknowledged)
    && (id in r.db.runs && r.db.runs[id].status == Success <==> Stores(all, f))
    && (Stores(all, f) ==>
          && r.n == |rows| && r.db.mirror == UpsertAll(db.mirror, rows)
          && r.db.state == Some(StateRow(Some(LastOf(rows, WatermarkOf(db.state))), at, Success, None))
          && r.db.runs == db.runs[id := RunRow("karyawan", startedAt, Some(at), r.n, Success, None)])
    && (!Stores(all, f) ==> StoredWatermark(r.db.state) == StoredWatermark(db.state))
    && (f.begin && f.lock && f.insert && !all && RecordsFailure(f) ==>
          && r.db.runs == db.runs[id := RunRow("karyawan", startedAt, Some(at), 0, Failed, r.err)]
          && r.db.state == Some(StateRow(StoredWatermark(db.state), at, Failed, r.err)))
  }

  lemma {:induction false} FaultIsFault(f: Faults, i: nat, n: nat)
    requires i <= n
    ensures var k := FirstFault(f, i, n);
      (k < n ==> !OutcomeAt(f, k).Stored?) && forall j | i <= j < k :: OutcomeAt(f, j).Stored?
    decreases n - i
  {
    hide OutcomeAt;
    if i == n || !OutcomeAt(f, i).Stored? {
    } else {
      FaultIsFault(f, i + 1, n);
    }
  }

  lemma FailureIffFault(f: Faults, n: nat)
    ensures Failure(f, n).None? <==> FirstFault(f, 0, n) == n
    ensures Failure(f, n).None? ==> StoredRows(f, n) == n
  {
    FaultIsFault(f, 0, n);
  }

  lemma StoredRunEffect(db: Db, rows: seq<SourceRow>, id: nat, startedAt: int, at: int, f: Faults)
    requires id !in db.runs
    ensures var r := StoredRun(db, rows, id, InsertRunning(NO_WRITES, startedAt), at, f);
      Leaves(db, r, rows, id, startedAt, at, FirstFault(f, 0, |rows|) == |rows|, f)
  {
    var k := StoredRows(f, |rows|);
    PrefixMirrored(db.mirror, rows, k);
    assert k == |rows| ==> rows[..k] == rows;
    FailureIffFault(f, |rows|);
    var mid := db.(mirror := UpsertAll(db.mirror, rows[..k]));
    var tx := InsertRunning(NO_WRITES, startedAt);
    var failure := Failure(f, |rows|);
    if failure.Some? {
      FailedRunEffect(mid, id, startedAt, at, failure.value, f);
    }
    AbortedRunEffect(mid, id, Abort(tx), at, "update sync_state", f);
    FinishedRunEffect(mid, id, startedAt, at, LastOf(rows, WatermarkOf(db.state)), |rows|, f);
    hide PartlyMirrored, UpsertAll, FailedRun, FinishedRun, Failure, StoredRows, WriteWatermark, LastOf;
  }

  lemma NothingMirrored(mirror: Mirror, rows: seq<SourceRow>)
    ensures PartlyMirrored(mirror, mirror, rows)
  {
    PrefixMirrored(mirror, rows, 0);
    assert UpsertAll(mirror, rows[..0]) == mirror;
  }

  /** Every run, whatever fails, leaves the tables in one of these ways. */
  lemma RunEffect(db: Db, rows: seq<SourceRow>, id: nat, startedAt: int, at: int, f: Faults)
    requires id !in db.runs
    ensures Leaves(db, RunResult(db, rows, id, startedAt, at, f), rows, id, startedAt, at, AllStored(f, |rows|), f)
  {
    NothingMirrored(db.mirror, rows);
    if f.begin && f.lock && f.insert {
      FailedRunEffect(db, id, startedAt, at, "read watermark", f);
      FailedRunEffect(db, id, startedAt, at, "fetch from source", f);
      if f.read && f.fetch {
        StoredRunEffect(db, rows, id, startedAt, at, f);
        hide StoredRun;
      }
    }
    hide PartlyMirrored, UpsertAll, FailedRun;
  }

  /** Each of the rows is in the mirror with all its columns, and no other key is touched. */
  ghost predicate Copied(before: Mirror, after: Mirror, rows: seq<SourceRow>) {
    && (forall r | r in rows :: r.nik in after && Copies(after[r.nik], r))
    && (forall k :: k in after <==> k in before || exists r :: r in rows && r.nik == k)
    && (forall k | k in before && forall r | r in rows :: r.nik != k :: after[k] == before[k])
  }

  /**
   * What a run has done that returns `n` and no error: it copied the batch it fetched,
   * and stored the last stamp of the batch with the success row that counts it.
   */
  ghost predicate Synced(src: Table, b: nat, before: Db, after: Db, id: nat, startedAt: int, at: int, n: nat) {
    var since :=
      if before.state.Some? && before.state.value.watermark.Some? then before.state.value.watermark.value else 0;
    exists rows: seq<SourceRow> ::
      && FetchedBatch(src, since, b, rows) && n == |rows| && Copied(before.mirror, after.mirror, rows)
      && after.state == Some(StateRow(Some(if n == 0 then since else rows[n - 1].stamp), at, Success, None))
      && after.runs == before.runs[id := RunRow("karyawan", startedAt, Some(at), n, Success, None)]
  }

  lemma UpsertAllIsCopied(mirror: Mirror, rows: seq<SourceRow>)
    requires InOrder(rows)
    ensures Copied(mirror, UpsertAll(mirror, rows), rows)
  {
    var after := UpsertAll(mirror, rows);
    assert forall i, j | 0 <= i < j < |rows| :: rows[i].nik != rows[j].nik;
    UpsertAllEffect(mirror, rows);
    forall r | r in rows ensures r.nik in after && Copies(after[r.nik], r) {
      UpsertAllCopies(mirror, rows, r);
    }
    hide UpsertAll, Copies, Mirrored, InOrder;
  }

  lemma StoresIsSynced(src: Table, b: nat, db: Db, rows: seq<SourceRow>, id: nat, startedAt: int, at: int,
                       r: RunReport, all: bool, f: Faults)
    requires FetchedBatch(src, WatermarkOf(db.state), b, rows)
    requires Leaves(db, r, rows, id, startedAt, at, all, f) && r.err.None?
    ensures Synced(src, b, db, r.db, id, startedAt, at, r.n)
  {
    assert Copied(db.mirror, r.db.mirror, rows) by {
      UpsertAllIsCopied(db.mirror, rows);
    }
    hide FetchedBatch, Copied, PartlyMirrored, TidyTables, UpsertAll;
  }

  lemma NoErrorIsSynced(src: Table, b: nat, db: Db, id: nat, startedAt: int, at: int, f: Faults)
    requires Keyed(src) && id !in db.runs
    ensures var r := RunResult(db, Limit(Pending(src, WatermarkOf(db.state)), b), id, startedAt, at, f);
      r.err.None? ==> Synced(src, b, db, r.db, id, startedAt, at, r.n)
  {
    hide *;
    var rows := Limit(Pending(src, WatermarkOf(db.state)), b);
    var r := RunResult(db, rows, id, startedAt, at, f);
    if r.err.None? {
      LimitFetches(src, WatermarkOf(db.state), b);
      RunEffect(db, rows, id, startedAt, at, f);
      StoresIsSynced(src, b, db, rows, id, startedAt, at, r, AllStored(f, |rows|), f);
    }
  }

  lemma ProjectKey(r: SourceRow)
    ensures Project(r).nikHris == r.nik
  {
  }

  lemma UpsertNext(before: Mirror, rows: seq<SourceRow>, k: nat)
    requires k < |rows|
    ensures UpsertAll(before, rows[..k + 1]) == UpsertAll(before, rows[..k])[rows[k].nik := Project(rows[k])]
  {
    assert rows[..k + 1][..k] == rows[..k];
  }

  /** The row loop: each row is upserted through the pool, until one fails. */
  method UpsertRows(pg: Postgres, rows: seq<SourceRow>, watermark: int, id: nat, f: Faults,
                    ghost s0: State, ghost p0: Path, ghost w0: Worker)
    returns (upserted: nat, maxTs: int, failure: Option<string>, ghost p: Path, ghost w: Worker)
    requires Linked(s0, p0, pg.Tables(), id, w0) && w0.pc == Upserting && w0.rows == rows && w0.upserted == 0
    requires w0.maxTs == watermark && forall i, j | 0 <= i < j < |rows| :: rows[i].stamp <= rows[j].stamp
    requires (forall i | 0 <= i < |rows| :: rows[i].stamp > watermark) && Room(s0, w0.pool, 2)
    modifies pg`mirror
    ensures Linked(s0, p, pg.Tables(), id, w) && w.tx == w0.tx && w.batch == w0.batch
    ensures pg.mirror == UpsertAll(old(pg.mirror), rows[..StoredRows(f, |rows|)]) && failure == Failure(f, |rows|)
    ensures failure.Some? ==> w.pc == MarkingRun && w.cause == failure.value
    ensures failure.None? ==> w == w0.(upserted := |rows|, maxTs := LastOf(rows, watermark))
    ensures failure.None? ==> upserted == |rows| && maxTs == w.maxTs
  {
    upserted, maxTs, failure, p, w := 0, watermark, None, p0, w0;
    ghost var before := pg.mirror;
    assert UpsertAll(before, []) == before;
    hide Linked, Room, Project, Extend, OutcomeAt;
    assert rows[..0] == [];
    while upserted < |rows|
      invariant upserted <= |rows|
      invariant FirstFault(f, 0, |rows|) == FirstFault(f, upserted, |rows|)
      invariant w == w0.(upserted := upserted, maxTs := maxTs) && Linked(s0, p, pg.Tables(), id, w)
      invariant maxTs == LastOf(rows[..upserted], watermark)
      invariant pg.mirror == UpsertAll(before, rows[..upserted])
    {
      var r := rows[upserted];
      var outcome := OutcomeAt(f, upserted);
      LinkUpsert(s0, p, pg.Tables(), id, w, outcome);
      UpsertNext(before, rows, upserted);
      p, w := Extend(p, Upsert(id, outcome)), AfterUpsert(w, outcome);
      if !outcome.Rejected? {
        ProjectKey(r);
        pg.Upsert(Project(r));
      }
      if !outcome.Stored? {
        failure := Some(outcome.cause);
        return;
      }
      upserted := upserted + 1;
      if r.stamp > maxTs {
        maxTs := r.stamp;
      }
    }
    assert rows[..|rows|] == rows;
  }

  /** A failing last statement aborts the transaction, so the commit that follows keeps nothing. */
  method FinalizeAndCommit(pg: Postgres, upserted: nat, id: nat, tx0: Tx, at: int, f: Faults,
                           ghost s0: State, ghost p0: Path, ghost w0: Worker)
    returns (n: nat, err: Option<string>, ghost p: Path)
    requires Linked(s0, p0, pg.Tables(), id, w0) && w0.pc == Finalizing
    requires w0.tx == tx0 && w0.upserted == upserted && !tx0.aborted
    modifies pg`state, pg`runs
    ensures Returned(s0, p, pg.Tables(), id, w0.batch)
    ensures RunReport(pg.Tables(), n, err) == FinishedRun(old(pg.Tables()), id, tx0, at, upserted, f)
  {
    var tx := if f.finalize then FinishRun(tx0, at, upserted) else Abort(tx0);
    LinkFinalize(s0, p0, pg.Tables(), id, w0, f.finalize, at);
    p := Extend(p0, Finalize(id, f.finalize, at));
    LinkCommit(s0, p, pg.Tables(), id, AfterFinalize(w0, f.finalize, at), f.commit);
    p := Extend(p, CommitTx(id, f.commit));
    if f.commit != ConnectionLost {
      pg.CommitTx(id, tx);
    }
    n := upserted;
    err := if !f.finalize then Some("finalize sync_run")
           else if f.commit != Acknowledged then Some("commit sync tx")
           else None;
  }

  /** Upserts the fetched rows, then writes the watermark and the success row and commits. */
  method StoreAndFinish(pg: Postgres, rows: seq<SourceRow>, watermark: int, id: nat, tx0: Tx, at: int, f: Faults,
                        ghost s0: State, ghost p0: Path, ghost w0: Worker)
    returns (n: nat, err: Option<string>, ghost p: Path)
    requires Linked(s0, p0, pg.Tables(), id, w0) && w0.pc == Upserting && w0.rows == rows && w0.upserted == 0
    requires w0.maxTs == watermark == WatermarkOf(pg.state) && w0.tx == tx0 && !tx0.aborted
    requires forall i, j | 0 <= i < j < |rows| :: rows[i].stamp <= rows[j].stamp
    requires (forall i | 0 <= i < |rows| :: rows[i].stamp > watermark) && Room(s0, w0.pool, 2)
    modifies pg
    ensures Returned(s0, p, pg.Tables(), id, w0.batch)
    ensures RunReport(pg.Tables(), n, err) == StoredRun(old(pg.Tables()), rows, id, tx0, at, f)
  {
    hide Linked, Room, Returned, UpsertAll, FailureTx, Committed, StoredRows, Failure;
    var upserted, maxTs, failure, path, w := UpsertRows(pg, rows, watermark, id, f, s0, p0, w0);
    p := path;
    if failure.Some? {
      p := FailAndCommit(pg, id, tx0, at, failure.value, f, s0, p, w);
      return 0, failure, p;
    }

    var cause := "update sync_state";
    LinkWriteState(s0, p, pg.Tables(), id, w, f.writeState, at, cause);
    p, w := Extend(p, WriteState(id, f.writeState, at, cause)), AfterWriteState(w, f.writeState, at, cause);
    if !f.writeState {
      p := FailAndCommit(pg, id, Abort(tx0), at, cause, f, s0, p, w);
      return 0, Some(cause), p;
    }
    n, err, p := FinalizeAndCommit(pg, upserted, id, WriteWatermark(tx0, maxTs, at), at, f, s0, p, w);
  }

  lemma FetchedInOrder(src: Table, watermark: int, b: nat)
    requires Keyed(src)
    ensures var rows := Limit(Pending(src, watermark), b);
      && (forall i, j | 0 <= i < j < |rows| :: rows[i].stamp <= rows[j].stamp)
      && (forall i | 0 <= i < |rows| :: rows[i].stamp > watermark)
  {
    LimitFetches(src, watermark, b);
    var rows := Limit(Pending(src, watermark), b);
    hide Pending, Limit, AfterAll;
    assert forall i | 0 <= i < |rows| :: rows[i] in rows;
  }

  /** The part of the run in which every failure is recorded in the transaction. */
  method PullAndFinish(pg: Postgres, src: Client, id: nat, tx: Tx, at: int, f: Faults,
                       ghost s0: State, ghost p0: Path, ghost w0: Worker)
    returns (n: nat, err: Option<string>, ghost p: Path)
    requires src.Valid() && s0.src == src.rows
    requires w0 == Fresh(w0.pool, src.batchSize, w0.startedAt).(pc := Inserted, tx := tx)
    requires tx == InsertRunning(NO_WRITES, w0.startedAt) && Linked(s0, p0, pg.Tables(), id, w0)
    requires f.read ==> Room(s0, w0.pool, 2)
    modifies pg
    ensures Returned(s0, p, pg.Tables(), id, w0.batch)
    ensures RunReport(pg.Tables(), n, err) ==
      var db := old(pg.Tables());
      if !f.read then FailedRun(db, id, tx, at, "read watermark", f)
      else if !f.fetch then FailedRun(db, id, tx, at, "fetch from source", f)
      else StoredRun(db, Limit(Pending(src.rows, WatermarkOf(db.state)), src.batchSize), id, tx, at, f)
  {
    assert p0.s.db == pg.Tables();
    hide Linked, Room, Returned, Pending, Limit, Tied, StoredRun;

    var cause := "read watermark";
    LinkRead(s0, p0, pg.Tables(), id, w0, f.read, cause);
    p := Extend(p0, ReadWatermark(id, f.read, cause));
    ghost var w := AfterRead(p0.s, w0, f.read, cause);
    var watermark := pg.ReadWatermark(f.read);
    if watermark.None? {
      p := FailAndCommit(pg, id, tx, at, cause, f, s0, p, w);
      return 0, Some(cause), p;
    }

    cause := "fetch from source";
    LinkFetch(s0, p, pg.Tables(), id, w, f.fetch, cause);
    p := Extend(p, Fetch(id, f.fetch, cause));
    var rows := src.FetchKaryawanUpdatedSince(watermark.value, f.fetch);
    if rows.None? {
      p := FailAndCommit(pg, id, tx, at, cause, f, s0, p, GiveUp(w, cause));
      return 0, Some(cause), p;
    }
    FetchedInOrder(src.rows, watermark.value, src.batchSize);
    n, err, p := StoreAndFinish(pg, rows.value, watermark.value, id, tx, at, f, s0, p, Fetched(s0.src, w));
  }

  /**
   * The statements that need a connection or the lock succeed only if there is one. A
   * run that finds the lock taken and gives up waiting is one whose `lock` fails.
   */
  predicate Possible(s0: State, pool: nat, f: Faults) {
    && (f.begin ==> Room(s0, pool, 1))
    && (f.begin && f.lock ==> s0.lock.None?)
    && (f.begin && f.lock && f.insert && f.read ==> Room(s0, pool, 2))
  }

  /** Begins, takes the lock and inserts the run row; a failure rolls back and is returned. */
  method Preamble(pg: Postgres, id: nat, batch: nat, startedAt: int, f: Faults, ghost s0: State, ghost pool: nat)
    returns (tx: Tx, err: Option<string>, ghost p: Path, ghost w: Worker)
    requires s0.db == pg.Tables() && Keyed(s0.src) && batch >= 1
    requires id !in s0.workers && id !in s0.db.runs && s0.lock != Some(id) && Possible(s0, pool, f)
    ensures tx == InsertRunning(NO_WRITES, startedAt)
    ensures err ==
      if !f.begin then Some("begin lock tx")
      else if !f.lock then Some("acquire advisory lock")
      else if !f.insert then Some("insert sync_run")
      else None
    ensures err.Some? ==> Returned(s0, p, pg.Tables(), id, batch)
    ensures err.None? ==> Linked(s0, p, pg.Tables(), id, w)
    ensures w == Fresh(pool, batch, startedAt).(pc := Inserted, tx := tx)
  {
    tx, err := InsertRunning(NO_WRITES, startedAt), None;
    ghost var w0 := Fresh(pool, batch, startedAt);
    w := w0.(pc := Inserted, tx := tx);
    LinkStart(s0, id, w0);
    p := Extend(Path(s0, []), Start(id, pool, batch, startedAt));
    hide Linked, Returned, Extend, Room, Holders;

    if !f.begin {
      LinkRefused(s0, p, pg.Tables(), id, w0, Begin(id, false));
      err, p := Some("begin lock tx"), Extend(p, Begin(id, false));
      return;
    }
    LinkPreamble(s0, p, pg.Tables(), id, w0, Begin(id, true), w0.(pc := Waiting));
    p, w0 := Extend(p, Begin(id, true)), w0.(pc := Waiting);
    if !f.lock {
      LinkRefused(s0, p, pg.Tables(), id, w0, Lock(id, false));
      err, p := Some("acquire advisory lock"), Extend(p, Lock(id, false));
      return;
    }
    LinkPreamble(s0, p, pg.Tables(), id, w0, Lock(id, true), w0.(pc := Locked));
    p, w0 := Extend(p, Lock(id, true)), w0.(pc := Locked);
    if !f.insert {
      LinkRefused(s0, p, pg.Tables(), id, w0, InsertRun(id, false));
      err, p := Some("insert sync_run"), Extend(p, InsertRun(id, false));
      return;
    }
    LinkPreamble(s0, p, pg.Tables(), id, w0, InsertRun(id, true), w);
    p := Extend(p, InsertRun(id, true));
  }

  /**
   * One sync run. `at` stands for the clock readings after the start. The run
   * returns the number of rows it upserted, and the first error, if any.
   */
  method SyncKaryawan(pg: Postgres, src: Client, id: nat, startedAt: int, at: int, f: Faults,
                      ghost s0: State, ghost pool: nat)
    returns (n: nat, err: Option<string>, ghost p: Path)
    requires src.Valid() && s0.db == pg.Tables() && s0.src == src.rows
    requires id !in s0.workers && id !in s0.db.runs && s0.lock != Some(id) && Possible(s0, pool, f)
    modifies pg
    ensures Returned(s0, p, pg.Tables(), id, src.batchSize)
    ensures RunReport(pg.Tables(), n, err) ==
      var db := old(pg.Tables());
      RunResult(db, Limit(Pending(src.rows, WatermarkOf(db.state)), src.batchSize), id, startedAt, at, f)
    ensures err.None? ==> Synced(src.rows, src.batchSize, old(pg.Tables()), pg.Tables(), id, startedAt, at, n)
  {
    NoErrorIsSynced(src.rows, src.batchSize, pg.Tables(), id, startedAt, at, f);
    hide Linked, Returned, Room, Pending, Limit, FailedRun, StoredRun, Synced;
    var tx, failure, path, w := Preamble(pg, id, src.batchSize, startedAt, f, s0, pool);
    if failure.Some? {
      return 0, failure, path;
    }
    n, err, p := PullAndFinish(pg, src, id, tx, at, f, s0, path, w);
  }
}
