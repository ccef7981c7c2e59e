/** What every reachable state of the sync protocol satisfies, and what every step keeps. */
module SyncSafety {
  import opened Base
  import opened Karyawan
  import opened Ordering
  import opened SyncTables
  import opened SyncProtocol
  import opened VpsMysql

  /** Exactly the run that is past the lock is registered as its holder. */
  ghost predicate LockExclusive(lock: Option<nat>, workers: map<nat, Worker>) {
    && (lock.Some? ==> lock.value in workers)
    && (forall id | id in workers :: PastLock(workers[id].pc) <==> lock == Some(id))
  }

  ghost predicate Clean(w: Worker) {
    w.rows == [] && w.tied == {} && w.tx == NO_WRITES
  }

  ghost predicate WorkersFresh(workers: map<nat, Worker>, runs: Runs) {
    forall id | id in workers ::
      id !in runs && workers[id].batch >= 1 && (!PastLock(workers[id].pc) ==> Clean(workers[id]))
  }

  /** No committed row of `sync_runs` is 'running'; each has a finish time. */
  ghost predicate RunsFinished(runs: Runs) {
    forall id | id in runs :: runs[id].status != Running && runs[id].finishedAt.Some?
  }

  ghost predicate SourceOk(src: Table, held: set<SourceRow>) {
    Keyed(src) && forall k | k in src :: src[k].stamp > EPOCH && src[k] in held
  }

  ghost predicate LostOk(lost: set<SourceRow>, watermark: int) {
    watermark >= EPOCH && forall r | r in lost :: r.stamp <= watermark
  }

  /** `k` in the mirror is the projection of a version the source held, no newer than the current one. */
  ghost predicate FromSource(src: Table, held: set<SourceRow>, mirror: Mirror, k: string)
    requires k in mirror
  {
    k in src && exists r :: r in held && r.nik == k && mirror[k] == Project(r) && r.stamp <= src[k].stamp
  }

  ghost predicate MirrorOk(src: Table, held: set<SourceRow>, mirror: Mirror) {
    forall k | k in mirror :: FromSource(src, held, mirror, k)
  }

  /** Rows stamped at or before the watermark are mirrored, save those lost at split ties. */
  ghost predicate Covered(src: Table, mirror: Mirror, lost: set<SourceRow>, watermark: int) {
    forall k | k in src && src[k].stamp <= watermark :: Mirrored(mirror, src[k]) || src[k] in lost
  }

  ghost predicate NoNewer(mirror: Mirror, r: SourceRow) {
    r.nik in mirror ==> mirror[r.nik].sourceUpdatedAt.Some? && mirror[r.nik].sourceUpdatedAt.value <= r.stamp
  }

  /** One row per key, in stamp order. */
  ghost predicate DistinctSorted(rows: seq<SourceRow>) {
    forall i, j | 0 <= i < j < |rows| :: rows[i].nik != rows[j].nik && rows[i].stamp <= rows[j].stamp
  }

  /** The fetched rows are versions the source held, none newer than its current one. */
  ghost predicate BatchRows(src: Table, held: set<SourceRow>, watermark: int,
                            rows: seq<SourceRow>, tied: set<SourceRow>) {
    && DistinctSorted(rows)
    && (forall r | r in rows :: r.stamp > watermark && r in held && r.nik in src && r.stamp <= src[r.nik].stamp)
    && (forall r | r in tied :: rows != [] && r.stamp == rows[|rows| - 1].stamp)
  }

  /** The rows upserted so far are mirrored, and the mirror has nothing newer than the rows to come. */
  ghost predicate BatchProgress(mirror: Mirror, watermark: int, rows: seq<SourceRow>, upserted: nat, maxTs: int) {
    && upserted <= |rows|
    && maxTs == (if upserted == 0 then watermark else rows[upserted - 1].stamp)
    && (forall i | 0 <= i < upserted :: Mirrored(mirror, rows[i]))
    && (forall i | upserted <= i < |rows| :: NoNewer(mirror, rows[i]))
  }

  /** Up to the last row's stamp, the batch holds every pending row but those tied behind it. */
  ghost predicate BatchCovers(src: Table, watermark: int, rows: seq<SourceRow>, tied: set<SourceRow>) {
    rows != [] ==>
      forall k | k in src && watermark < src[k].stamp <= rows[|rows| - 1].stamp :: src[k] in rows || src[k] in tied
  }

  ghost predicate BatchOk(src: Table, db: Db, held: set<SourceRow>, w: Worker) {
    && w.watermark == WatermarkOf(db.state)
    && BatchRows(src, held, w.watermark, w.rows, w.tied)
    && BatchProgress(db.mirror, w.watermark, w.rows, w.upserted, w.maxTs)
    && BatchCovers(src, w.watermark, w.rows, w.tied)
  }

  ghost predicate WritesSuccess(w: Worker) {
    && w.upserted == |w.rows|
    && w.tx.state.Some? && w.tx.state.value.watermark == Some(w.maxTs) && w.tx.state.value.lastStatus == Success
  }

  ghost predicate FinishedSuccess(w: Worker) {
    && WritesSuccess(w)
    && w.tx.run.Some? && w.tx.run.value.status == Success && w.tx.run.value.finishedAt.Some?
    && w.tx.run.value.rowsUpserted == w.upserted
  }

  ghost predicate WritesFailedRun(tx: Tx) {
    tx.run.Some? && tx.run.value.status == Failed && tx.run.value.finishedAt.Some?
  }

  ghost predicate FinishedFailure(db: Db, tx: Tx) {
    && WritesFailedRun(tx)
    && tx.state.Some? && tx.state.value.lastStatus == Failed
    && tx.state.value.watermark == StoredWatermark(db.state)
  }

  /** The transaction of the lock holder, by the statement it executes next. */
  ghost predicate TxOk(db: Db, w: Worker) {
    var tx := w.tx;
    match w.pc
    case Starting => true
    case Waiting => true
    case Locked => tx == NO_WRITES
    case Inserted => !tx.aborted && tx.run.Some? && tx.state.None?
    case Fetching => !tx.aborted && tx.run.Some? && tx.state.None? && w.watermark == WatermarkOf(db.state)
    case Upserting => !tx.aborted && tx.run.Some? && tx.state.None?
    case Finalizing => !tx.aborted && tx.run.Some? && WritesSuccess(w)
    case MarkingRun => tx.aborted || (tx.run.Some? && tx.state.None?)
    case MarkingState => tx.aborted || (WritesFailedRun(tx) && tx.state.None?)
    case Committing => tx.aborted || FinishedSuccess(w) || FinishedFailure(db, tx)
  }

  ghost predicate HasBatch(w: Worker) {
    w.pc == Upserting || w.pc == Finalizing || (w.pc == Committing && CommitsSuccess(w))
  }

  ghost predicate HolderOk(src: Table, db: Db, held: set<SourceRow>, w: Worker) {
    TxOk(db, w) && if HasBatch(w) then BatchOk(src, db, held, w) else w.rows == [] && w.tied == {}
  }

  /** The tables and the history, apart from the runs. */
  ghost predicate DataOk(s: State) {
    && RunsFinished(s.db.runs)
    && SourceOk(s.src, s.held)
    && LostOk(s.lost, Watermark(s))
    && MirrorOk(s.src, s.held, s.db.mirror)
    && Covered(s.src, s.db.mirror, s.lost, Watermark(s))
  }

  ghost predicate Inv(s: State) {
    && LockExclusive(s.lock, s.workers)
    && WorkersFresh(s.workers, s.db.runs)
    && DataOk(s)
    && (s.lock.Some? ==> HolderOk(s.src, s.db, s.held, s.workers[s.lock.value]))
  }

  lemma InitInv(cap: Capacity)
    ensures Inv(Init(cap))
  {
  }

  lemma LeaveInv(s: State, id: nat)
    requires Inv(s) && id in s.workers
    ensures Inv(Leave(s, id))
  {
  }

  // ---- the source writes -------------------------------------------------

  lemma WriteKeepsBatchRows(src: Table, held: set<SourceRow>, row: SourceRow, w: Worker)
    requires BatchRows(src, held, w.watermark, w.rows, w.tied)
    requires row.nik in src ==> row.stamp >= src[row.nik].stamp
    ensures BatchRows(src[row.nik := row], held + {row}, w.watermark, w.rows, w.tied)
  {
    hide DistinctSorted;
  }

  /** A write stamped after the batch leaves the batch as good as it was. */
  lemma WriteKeepsHolder(src: Table, db: Db, held: set<SourceRow>, row: SourceRow, w: Worker)
    requires row.stamp > WatermarkOf(db.state) && (w.rows != [] ==> row.stamp > w.rows[|w.rows| - 1].stamp)
    requires row.nik in src ==> row.stamp >= src[row.nik].stamp
    ensures HolderOk(src, db, held, w) ==> HolderOk(src[row.nik := row], db, held + {row}, w)
  {
    hide TxOk, BatchRows, BatchProgress;
    if BatchOk(src, db, held, w) {
      WriteKeepsBatchRows(src, held, row, w);
    }
  }

  lemma WriteKeepsMirror(s: State, row: SourceRow)
    requires MirrorOk(s.src, s.held, s.db.mirror) && (row.nik in s.src ==> row.stamp >= s.src[row.nik].stamp)
    ensures MirrorOk(DoSourceWrite(s, row).src, DoSourceWrite(s, row).held, s.db.mirror)
  {
    var t := DoSourceWrite(s, row);
    forall k | k in t.db.mirror ensures FromSource(t.src, t.held, t.db.mirror, k) {
      assert FromSource(s.src, s.held, s.db.mirror, k);
      var r :| r in s.held && r.nik == k && s.db.mirror[k] == Project(r) && r.stamp <= s.src[k].stamp;
      assert r in t.held;
    }
  }

  lemma WriteKeepsData(s: State, row: SourceRow)
    requires DataOk(s) && row.stamp > Watermark(s) && (row.nik in s.src ==> row.stamp >= s.src[row.nik].stamp)
    ensures DataOk(DoSourceWrite(s, row))
  {
    WriteKeepsMirror(s, row);
    hide MirrorOk, Project;
  }

  lemma WriteInv(s: State, row: SourceRow)
    requires Inv(s) && TimelyWrite(s, row)
    ensures Inv(DoSourceWrite(s, row))
  {
    WriteKeepsData(s, row);
    hide DataOk;
    if s.lock.Some? {
      WriteKeepsHolder(s.src, s.db, s.held, row, s.workers[s.lock.value]);
    }
    hide HolderOk;
  }

  lemma HolderFacts(s: State, id: nat)
    requires Inv(s) && id in s.workers && PastLock(s.workers[id].pc)
    ensures s.lock == Some(id) && s.workers[id].batch >= 1 && HolderOk(s.src, s.db, s.held, s.workers[id])
  {
  }

  lemma HolderData(s: State)
    requires Inv(s)
    ensures DataOk(s)
  {
  }

  // ---- the lock holder moves ---------------------------------------------

  /** A step that only moves the lock holder keeps the invariant if the holder's own part holds again. */
  lemma HolderMoves(s: State, id: nat, v: Worker)
    requires Inv(s) && s.lock == Some(id) && PastLock(v.pc) && v.batch >= 1
    ensures HolderOk(s.src, s.db, s.held, v) ==> Inv(With(s, id, v))
  {
  }

  lemma StoreRowKeepsMirror(s: State, row: SourceRow)
    requires MirrorOk(s.src, s.held, s.db.mirror)
    requires row in s.held && row.nik in s.src && row.stamp <= s.src[row.nik].stamp
    ensures MirrorOk(s.src, s.held, StoreRow(s, row).db.mirror)
  {
    var t := StoreRow(s, row);
    forall k | k in t.db.mirror ensures FromSource(t.src, t.held, t.db.mirror, k) {
      if k != row.nik {
        assert FromSource(s.src, s.held, s.db.mirror, k);
      }
    }
  }

  lemma StoreRowKeepsCovered(s: State, row: SourceRow)
    requires Keyed(s.src) && Covered(s.src, s.db.mirror, s.lost, Watermark(s))
    requires row.nik in s.src && Watermark(s) < row.stamp <= s.src[row.nik].stamp
    ensures Covered(s.src, StoreRow(s, row).db.mirror, s.lost, Watermark(s))
  {
  }

  lemma StoreRowAdvances(mirror: Mirror, watermark: int, rows: seq<SourceRow>, upserted: nat, maxTs: int)
    requires BatchProgress(mirror, watermark, rows, upserted, maxTs) && upserted < |rows|
    requires DistinctSorted(rows) && rows[upserted].stamp > watermark
    ensures BatchProgress(mirror[rows[upserted].nik := Project(rows[upserted])], watermark, rows, upserted + 1,
                          LaterStamp(maxTs, rows[upserted]))
  {
  }

  lemma StoredRowInv(s: State, id: nat, row: SourceRow, v: Worker)
    requires Inv(s) && At(s, id, Upserting) && row in s.workers[id].rows
    requires PastLock(v.pc) && v.batch >= 1
    ensures HolderOk(s.src, StoreRow(s, row).db, s.held, v) ==> Inv(With(StoreRow(s, row), id, v))
  {
    assert s.lock == Some(id);
    StoreRowKeepsMirror(s, row);
    StoreRowKeepsCovered(s, row);
  }

  lemma StoredBatchOk(src: Table, db: Db, held: set<SourceRow>, w: Worker, row: SourceRow)
    requires w.upserted < |w.rows| && row == w.rows[w.upserted] && BatchOk(src, db, held, w)
    ensures BatchOk(src, db.(mirror := db.mirror[row.nik := Project(row)]), held, CountRow(w, row))
  {
    assert row in w.rows;
    StoreRowAdvances(db.mirror, w.watermark, w.rows, w.upserted, w.maxTs);
    hide BatchCovers, BatchProgress, BatchRows, Project;
  }

  lemma StoredHolderOk(src: Table, db: Db, held: set<SourceRow>, w: Worker, row: SourceRow)
    requires w.pc == Upserting && w.upserted < |w.rows| && row == w.rows[w.upserted]
    ensures HolderOk(src, db, held, w) ==>
      HolderOk(src, db.(mirror := db.mirror[row.nik := Project(row)]), held, CountRow(w, row))
  {
    if BatchOk(src, db, held, w) {
      StoredBatchOk(src, db, held, w, row);
    }
    hide BatchOk, Project;
  }

  lemma UpsertStores(s: State, id: nat, cause: string)
    requires At(s, id, Upserting) && s.workers[id].upserted < |s.workers[id].rows|
    ensures var w := s.workers[id];
      var row := w.rows[w.upserted];
      && DoUpsert(s, id, Stored) == With(StoreRow(s, row), id, CountRow(w, row))
      && DoUpsert(s, id, StoredUnacknowledged(cause)) == With(StoreRow(s, row), id, GiveUp(w, cause))
      && CountRow(w, row).pc == w.pc && CountRow(w, row).batch == w.batch
  {
    hide StoreRow;
  }

  lemma StoredInv(s: State, id: nat)
    requires Inv(s) && At(s, id, Upserting) && s.workers[id].upserted < |s.workers[id].rows|
    ensures Inv(DoUpsert(s, id, Stored))
  {
    var w := s.workers[id];
    var row := w.rows[w.upserted];
    UpsertStores(s, id, "");
    HolderFacts(s, id);
    StoredHolderOk(s.src, s.db, s.held, w, row);
    hide Inv, DoUpsert, Project, HolderOk, CountRow;
    StoredRowInv(s, id, row, CountRow(w, row));
  }

  lemma GivenUpHolderOk(src: Table, db: Db, held: set<SourceRow>, w: Worker, mirror: Mirror, cause: string)
    requires w.pc == Upserting
    ensures HolderOk(src, db, held, w) ==> HolderOk(src, db.(mirror := mirror), held, GiveUp(w, cause))
  {
    hide BatchOk;
  }

  lemma UnacknowledgedInv(s: State, id: nat, cause: string)
    requires Inv(s) && At(s, id, Upserting) && s.workers[id].upserted < |s.workers[id].rows|
    ensures Inv(DoUpsert(s, id, StoredUnacknowledged(cause)))
  {
    var w := s.workers[id];
    var row := w.rows[w.upserted];
    UpsertStores(s, id, cause);
    HolderFacts(s, id);
    hide Inv, DoUpsert, BatchOk, Project;
    GivenUpHolderOk(s.src, s.db, s.held, w, StoreRow(s, row).db.mirror, cause);
    hide HolderOk;
    StoredRowInv(s, id, row, GiveUp(w, cause));
  }

  lemma UpsertInv(s: State, id: nat, outcome: UpsertOutcome)
    requires Inv(s) && At(s, id, Upserting) && s.workers[id].upserted < |s.workers[id].rows|
    ensures Inv(DoUpsert(s, id, outcome))
  {
    HolderFacts(s, id);
    match outcome
    case Stored => StoredInv(s, id);
    case Rejected(cause) =>
      GivenUpHolderOk(s.src, s.db, s.held, s.workers[id], s.db.mirror, cause);
      hide Inv, HolderOk;
      HolderMoves(s, id, GiveUp(s.workers[id], cause));
    case StoredUnacknowledged(cause) => UnacknowledgedInv(s, id, cause);
  }

  lemma LimitFacts(q: seq<SourceRow>, batch: nat)
    requires batch >= 1 && DistinctSorted(q)
    ensures DistinctSorted(Limit(q, batch))
    ensures forall r | r in Limit(q, batch) :: r in q
    ensures q != [] ==> Limit(q, batch) != [] && Limit(q, batch)[|Limit(q, batch)| - 1].stamp == LastStamp(q, batch)
  {
  }

  lemma FetchedRows(src: Table, held: set<SourceRow>, watermark: int, batch: nat)
    requires SourceOk(src, held) && batch >= 1
    ensures var q := Pending(src, watermark);
      BatchRows(src, held, watermark, Limit(q, batch), Elements(Tied(q, batch)))
  {
    PendingFacts(src, watermark);
    var q := Pending(src, watermark);
    LimitFacts(q, batch);
    if q != [] {
      TiedStamps(q, batch);
    }
  }

  lemma FetchedCovers(src: Table, watermark: int, batch: nat)
    requires Keyed(src) && batch >= 1
    ensures var q := Pending(src, watermark);
      BatchCovers(src, watermark, Limit(q, batch), Elements(Tied(q, batch)))
  {
    PendingFacts(src, watermark);
    var q := Pending(src, watermark);
    LimitFacts(q, batch);
    if q != [] {
      TiedStamps(q, batch);
      hide Pending, Limit, Tied, LastStamp;
      forall k | k in src && watermark < src[k].stamp <= LastStamp(q, batch)
        ensures src[k] in Limit(q, batch) || src[k] in Elements(Tied(q, batch))
      {
        assert src[k] in q;
        BatchMember(q, batch, src[k]);
      }
    }
  }

  lemma FetchedProgress(src: Table, held: set<SourceRow>, mirror: Mirror, watermark: int, batch: nat)
    requires SourceOk(src, held) && MirrorOk(src, held, mirror) && batch >= 1
    ensures BatchProgress(mirror, watermark, Limit(Pending(src, watermark), batch), 0, watermark)
  {
    PendingFacts(src, watermark);
    var rows := Limit(Pending(src, watermark), batch);
    forall i | 0 <= i < |rows| ensures NoNewer(mirror, rows[i]) {
      assert rows[i] == Pending(src, watermark)[i] && rows[i] in Pending(src, watermark);
      if rows[i].nik in mirror {
        assert FromSource(src, held, mirror, rows[i].nik);
      }
    }
  }

  lemma FetchInv(s: State, id: nat)
    requires Inv(s) && At(s, id, Fetching)
    ensures Inv(DoFetch(s, id))
  {
    HolderFacts(s, id);
    HolderData(s);
    hide Inv, BatchRows, BatchProgress, BatchCovers, MirrorOk, SourceOk, Project;
    var w := s.workers[id];
    FetchedRows(s.src, s.held, w.watermark, w.batch);
    FetchedCovers(s.src, w.watermark, w.batch);
    FetchedProgress(s.src, s.held, s.db.mirror, w.watermark, w.batch);
    HolderMoves(s, id, DoFetch(s, id).workers[id]);
  }

  // ---- commit --------------------------------------------------------------

  lemma SuccessfulHolder(src: Table, db: Db, held: set<SourceRow>, w: Worker)
    requires w.pc == Committing && CommitsSuccess(w)
    ensures HolderOk(src, db, held, w) ==>
      w.maxTs == if w.rows == [] then WatermarkOf(db.state) else w.rows[|w.rows| - 1].stamp
  {
    hide BatchRows, BatchCovers;
  }

  lemma CommitCovers(src: Table, db: Db, held: set<SourceRow>, lost: set<SourceRow>, w: Worker)
    requires Covered(src, db.mirror, lost, WatermarkOf(db.state)) && LostOk(lost, WatermarkOf(db.state))
    requires BatchOk(src, db, held, w) && w.upserted == |w.rows|
    ensures w.maxTs >= WatermarkOf(db.state)
    ensures Covered(src, db.mirror, lost + w.tied, w.maxTs)
    ensures LostOk(lost + w.tied, w.maxTs)
  {
    assert w.rows != [] ==> w.rows[|w.rows| - 1] in w.rows;
    forall k | k in src && src[k].stamp <= w.maxTs
      ensures Mirrored(db.mirror, src[k]) || src[k] in lost + w.tied
    {
      if src[k].stamp > WatermarkOf(db.state) && src[k] !in w.tied {
        assert src[k] in w.rows;
      }
    }
  }

  lemma SuccessCovers(s: State, id: nat)
    requires Inv(s) && At(s, id, Committing) && CommitsSuccess(s.workers[id])
    ensures var w := s.workers[id];
      && w.maxTs >= Watermark(s)
      && Covered(s.src, s.db.mirror, s.lost + w.tied, w.maxTs) && LostOk(s.lost + w.tied, w.maxTs)
  {
    HolderFacts(s, id);
    HolderData(s);
    hide Inv, BatchRows, BatchProgress, BatchCovers, MirrorOk, SourceOk, Covered, LostOk;
    CommitCovers(s.src, s.db, s.held, s.lost, s.workers[id]);
  }

  lemma SuccessTables(s: State, id: nat, result: CommitOutcome)
    requires Inv(s) && At(s, id, Committing) && result != ConnectionLost && CommitsSuccess(s.workers[id])
    ensures var w, t := s.workers[id], DoCommit(s, id, result);
      && t.src == s.src && t.held == s.held && t.db.mirror == s.db.mirror && t.lost == s.lost + w.tied
      && Watermark(t) == w.maxTs && t.db.runs == s.db.runs[id := w.tx.run.value]
      && w.tx.run.value.status != Running && w.tx.run.value.finishedAt.Some?
      && t.lock.None? && t.workers == s.workers - {id}
  {
    HolderFacts(s, id);
    hide BatchOk, DataOk, WorkersFresh, Covered, LostOk;
  }

  lemma CommitSuccessInv(s: State, id: nat, result: CommitOutcome)
    requires Inv(s) && At(s, id, Committing) && result != ConnectionLost && CommitsSuccess(s.workers[id])
    ensures Inv(DoCommit(s, id, result))
  {
    SuccessCovers(s, id);
    SuccessTables(s, id, result);
    hide DoCommit, HolderOk, MirrorOk, SourceOk, Covered, LostOk, CommitsSuccess;
  }

  lemma CommitFailureInv(s: State, id: nat, result: CommitOutcome)
    requires Inv(s) && At(s, id, Committing) && result != ConnectionLost
    requires !s.workers[id].tx.aborted && !CommitsSuccess(s.workers[id])
    ensures Inv(DoCommit(s, id, result))
  {
    HolderFacts(s, id);
    hide BatchOk, MirrorOk, SourceOk, Covered, LostOk;
    assert Watermark(DoCommit(s, id, result)) == Watermark(s);
  }

  lemma CommitInv(s: State, id: nat, result: CommitOutcome)
    requires Inv(s) && At(s, id, Committing)
    ensures Inv(DoCommit(s, id, result))
  {
    var w := s.workers[id];
    HolderFacts(s, id);
    if result == ConnectionLost || w.tx.aborted {
      LeaveInv(s, id);
      assert DoCommit(s, id, result) == Leave(s, id);
    } else if CommitsSuccess(w) {
      CommitSuccessInv(s, id, result);
    } else {
      CommitFailureInv(s, id, result);
    }
  }

  // ---- every step -----------------------------------------------------------

  lemma StartInv(s: State, id: nat, w: Worker)
    requires Inv(s) && id !in s.workers && id !in s.db.runs && w.batch >= 1 && w.pc == Starting && Clean(w)
    ensures Inv(With(s, id, w))
  {
  }

  lemma BeginInv(s: State, id: nat, ok: bool)
    requires Inv(s) && At(s, id, Starting)
    ensures Inv(DoBegin(s, id, ok))
  {
    if !ok {
      LeaveInv(s, id);
    }
  }

  lemma LockInv(s: State, id: nat, ok: bool)
    requires Inv(s) && At(s, id, Waiting) && (ok ==> s.lock.None?)
    ensures Inv(DoLock(s, id, ok))
  {
    if ok {
      assert Clean(s.workers[id]);
    } else {
      LeaveInv(s, id);
    }
  }

  lemma InsertRunInv(s: State, id: nat, ok: bool)
    requires Inv(s) && At(s, id, Locked)
    ensures Inv(DoInsertRun(s, id, ok))
  {
    if ok {
      HolderMoves(s, id, DoInsertRun(s, id, ok).workers[id]);
    } else {
      LeaveInv(s, id);
    }
  }

  lemma WrittenHolderOk(src: Table, db: Db, held: set<SourceRow>, w: Worker, ok: bool, at: int, cause: string)
    requires w.pc == Upserting && w.upserted == |w.rows|
    ensures HolderOk(src, db, held, w) ==> HolderOk(src, db, held, AfterWriteState(w, ok, at, cause))
  {
    hide BatchRows, BatchProgress, BatchCovers;
  }

  lemma WriteStateInv(s: State, id: nat, ok: bool, at: int, cause: string)
    requires Inv(s) && At(s, id, Upserting) && s.workers[id].upserted == |s.workers[id].rows|
    ensures Inv(With(s, id, AfterWriteState(s.workers[id], ok, at, cause)))
  {
    HolderFacts(s, id);
    WrittenHolderOk(s.src, s.db, s.held, s.workers[id], ok, at, cause);
    hide Inv, HolderOk;
    HolderMoves(s, id, AfterWriteState(s.workers[id], ok, at, cause));
  }

  lemma FinalizedHolderOk(src: Table, db: Db, held: set<SourceRow>, w: Worker, ok: bool, at: int)
    requires w.pc == Finalizing
    ensures HolderOk(src, db, held, w) ==> HolderOk(src, db, held, AfterFinalize(w, ok, at))
  {
    hide BatchRows, BatchProgress, BatchCovers;
  }

  lemma FinalizeInv(s: State, id: nat, ok: bool, at: int)
    requires Inv(s) && At(s, id, Finalizing)
    ensures Inv(With(s, id, AfterFinalize(s.workers[id], ok, at)))
  {
    HolderFacts(s, id);
    FinalizedHolderOk(s.src, s.db, s.held, s.workers[id], ok, at);
    hide Inv, HolderOk;
    HolderMoves(s, id, AfterFinalize(s.workers[id], ok, at));
  }

  lemma CleanupInv(s: State, now: int, cutoff: int)
    requires Inv(s)
    ensures s.(db := s.db.(runs := Cleaned(s.db.runs, RESOURCE, now, cutoff))) == s
  {
    CleanupIsSelectiveAndIdempotent(s.db.runs, RESOURCE, now, now, cutoff);
  }

  lemma RunStepInv(s: State, a: Action)
    requires Inv(s) && Enabled(s, a)
    requires a.Begin? || a.Lock? || a.InsertRun? || a.ReadWatermark? || a.Fetch? || a.Upsert?
    ensures Inv(Apply(s, a))
  {
    hide Inv;
    match a
    case Begin(id, ok) => BeginInv(s, id, ok);
    case Lock(id, ok) => LockInv(s, id, ok);
    case InsertRun(id, ok) => InsertRunInv(s, id, ok);
    case ReadWatermark(id, ok, cause) => HolderFacts(s, id); HolderMoves(s, id, AfterRead(s, s.workers[id], ok, cause));
    case Fetch(id, ok, cause) =>
      HolderFacts(s, id);
      if ok { FetchInv(s, id); } else { HolderMoves(s, id, GiveUp(s.workers[id], cause)); }
    case Upsert(id, outcome) => UpsertInv(s, id, outcome);
  }

  lemma FinishStepInv(s: State, a: Action)
    requires Inv(s) && Enabled(s, a) && (a.WriteState? || a.Finalize? || a.MarkRun? || a.MarkState? || a.CommitTx?)
    ensures Inv(Apply(s, a))
  {
    hide Inv;
    match a
    case WriteState(id, ok, at, cause) => WriteStateInv(s, id, ok, at, cause);
    case Finalize(id, ok, at) => FinalizeInv(s, id, ok, at);
    case MarkRun(id, ok, at) => HolderFacts(s, id); HolderMoves(s, id, AfterMarkRun(s.workers[id], ok, at));
    case MarkState(id, ok, at) => HolderFacts(s, id); HolderMoves(s, id, AfterMarkState(s, s.workers[id], ok, at));
    case CommitTx(id, result) => CommitInv(s, id, result);
  }

  lemma StepInv(s: State, a: Action)
    requires Inv(s)
    ensures Inv(Step(s, a))
  {
    hide Inv;
    if Enabled(s, a) {
      match a
      case SourceWrite(row) => WriteInv(s, row);
      case Start(id, pool, batch, at) => StartInv(s, id, Fresh(pool, batch, at));
      case Crash(id) => LeaveInv(s, id);
      case Cleanup(now, cutoff) => CleanupInv(s, now, cutoff);
      case _ =>
        if a.Begin? || a.Lock? || a.InsertRun? || a.ReadWatermark? || a.Fetch? || a.Upsert? {
          RunStepInv(s, a);
        } else {
          FinishStepInv(s, a);
        }
    }
  }
}
