/**
 * The Postgres tables the sync writes, and the transaction that buffers the
 * `sync_runs` row and the `sync_state` row of one run until it commits.
 */
module SyncTables {
  import opened Base
  import opened Karyawan

  const RESOURCE := "karyawan"
  const EPOCH := 0
  const RECOVERED := " [recovered: stale running row]"

  datatype Status = Running | Success | Failed

  datatype RunRow = RunRow(resource: string, startedAt: int, finishedAt: Option<int>,
                           rowsUpserted: nat, status: Status, error: Option<string>)

  datatype StateRow = StateRow(watermark: Option<int>, lastRunAt: int, lastStatus: Status, lastError: Option<string>)

  type Runs = map<nat, RunRow>

  /** What is committed: the mirror, the `sync_state` row of the resource, and `sync_runs`. */
  datatype Db = Db(mirror: Mirror, state: Option<StateRow>, runs: Runs)

  const EMPTY_SCHEMA := Db(map[], None, map[])

  /** The stored watermark: absent without a row, and when the row's column is NULL. */
  function StoredWatermark(state: Option<StateRow>): Option<int> {
    match state case None => None case Some(row) => row.watermark
  }

  function WatermarkOf(state: Option<StateRow>): int {
    match StoredWatermark(state) case None => EPOCH case Some(w) => w
  }

  /** A transaction's writes; once a statement fails the server refuses all that follow. */
  datatype Tx = Tx(aborted: bool, run: Option<RunRow>, state: Option<StateRow>)

  const NO_WRITES := Tx(false, None, None)

  function Abort(tx: Tx): Tx {
    tx.(aborted := true)
  }

  function InsertRunning(tx: Tx, startedAt: int): Tx {
    tx.(run := Some(RunRow(RESOURCE, startedAt, None, 0, Running, None)))
  }

  /** UPDATE changes the row the transaction inserted, if there is one. */
  function FinishRun(tx: Tx, at: int, upserted: nat): Tx {
    match tx.run
    case None => tx
    case Some(row) => tx.(run := Some(row.(finishedAt := Some(at), rowsUpserted := upserted, status := Success)))
  }

  function FailRun(tx: Tx, at: int, cause: string): Tx {
    match tx.run
    case None => tx
    case Some(row) => tx.(run := Some(row.(finishedAt := Some(at), status := Failed, error := Some(cause))))
  }

  function WriteWatermark(tx: Tx, watermark: int, at: int): Tx {
    tx.(state := Some(StateRow(Some(watermark), at, Success, None)))
  }

  /** The failure path leaves the watermark column as the transaction sees it. */
  function WriteFailure(tx: Tx, committed: Option<StateRow>, at: int, cause: string): Tx {
    var seen := if tx.state.Some? then tx.state else committed;
    tx.(state := Some(StateRow(StoredWatermark(seen), at, Failed, Some(cause))))
  }

  /** COMMIT of an aborted transaction is a rollback. */
  function Commit(db: Db, id: nat, tx: Tx): Db {
    if tx.aborted then db
    else Db(db.mirror,
            if tx.state.Some? then tx.state else db.state,
            match tx.run case None => db.runs case Some(row) => db.runs[id := row])
  }

  predicate Stale(row: RunRow, resource: string, cutoff: int) {
    row.resource == resource && row.status == Running && row.startedAt < cutoff
  }

  function Recover(row: RunRow, now: int): RunRow {
    var error := match row.error case None => "" case Some(e) => e;
    row.(status := Failed, finishedAt := Some(now), error := Some(error + RECOVERED))
  }

  function Cleaned(runs: Runs, resource: string, now: int, cutoff: int): Runs {
    map id | id in runs :: if Stale(runs[id], resource, cutoff) then Recover(runs[id], now) else runs[id]
  }

  function StaleIds(runs: Runs, resource: string, cutoff: int): set<nat> {
    set id | id in runs && Stale(runs[id], resource, cutoff)
  }

  lemma CleanedIds(runs: Runs, resource: string, now: int, cutoff: int)
    ensures (set id | id in runs && Cleaned(runs, resource, now, cutoff)[id] != runs[id])
         == StaleIds(runs, resource, cutoff)
  {
  }

  /**
   * What recovery makes of one row. A row of the resource that is running since before the
   * cutoff becomes a failed one with a finish and a note; any other row stays as it is.
   */
  predicate Recovers(row: RunRow, resource: string, now: int, cutoff: int, out: RunRow) {
    if row.resource == resource && row.status == Running && row.startedAt < cutoff then
      && out.resource == row.resource && out.startedAt == row.startedAt && out.rowsUpserted == row.rowsUpserted
      && out.status == Failed && out.finishedAt == Some(now)
      && out.error == Some((if row.error.Some? then row.error.value else "") + " [recovered: stale running row]")
    else out == row
  }

  lemma RowRecovers(row: RunRow, resource: string, now: int, cutoff: int)
    ensures Recovers(row, resource, now, cutoff, if Stale(row, resource, cutoff) then Recover(row, now) else row)
  {
  }

  /** Recovery only ever touches stale rows of its resource, and a second pass finds none. */
  lemma CleanupIsSelectiveAndIdempotent(runs: Runs, resource: string, now: int, later: int, cutoff: int)
    ensures var once := Cleaned(runs, resource, now, cutoff);
      && once.Keys == runs.Keys
      && (forall id | id in runs :: Recovers(runs[id], resource, now, cutoff, once[id]))
      && (forall id | id in runs && runs[id].resource == resource && runs[id].startedAt < cutoff ::
            once[id].status != Running)
      && Cleaned(once, resource, later, cutoff) == once
    ensures (forall id | id in runs :: runs[id].status != Running) ==> Cleaned(runs, resource, now, cutoff) == runs
  {
    var once := Cleaned(runs, resource, now, cutoff);
    forall id | id in runs ensures Recovers(runs[id], resource, now, cutoff, once[id]) {
      RowRecovers(runs[id], resource, now, cutoff);
      hide Recovers, Recover;
    }
    hide Recovers;
    assert Cleaned(once, resource, later, cutoff) == once;
    assert (forall id | id in runs :: runs[id].status != Running) ==> once == runs;
  }
}
