/**
 * Any number of sync runs, a source that is written meanwhile, and crashes, as
 * one state machine. Every statement of a run is one action that may succeed or
 * fail. An action that is not enabled leaves the state alone, so a trace is any
 * sequence of attempts.
 */
module SyncProtocol {
  import opened Base
  import opened Karyawan
  import opened Ordering
  import opened SyncTables
  import opened VpsMysql

  /** Where a run is: the statement it executes next. */
  datatype Pc =
    | Starting       // pool.Begin
    | Waiting        // pg_advisory_xact_lock
    | Locked         // INSERT sync_runs
    | Inserted       // SELECT watermark, through the pool
    | Fetching       // the query to the source
    | Upserting      // the next upsert through the pool, or INSERT sync_state
    | Finalizing     // UPDATE sync_runs to success
    | MarkingRun     // markRunFailed: UPDATE sync_runs
    | MarkingState   // markRunFailed: INSERT sync_state
    | Committing     // COMMIT

  /** A run and its local variables. `tied` is history: the rows its fetch left behind at a split tie. */
  datatype Worker = Worker(
    pool: nat, batch: nat, startedAt: int, pc: Pc, watermark: int, rows: seq<SourceRow>, tied: set<SourceRow>,
    upserted: nat, maxTs: int, cause: string, tx: Tx)

  function Fresh(pool: nat, batch: nat, startedAt: int): Worker {
    Worker(pool, batch, startedAt, Starting, EPOCH, [], {}, 0, EPOCH, "", NO_WRITES)
  }

  /** How many connections each pool has. */
  type Capacity = nat -> nat

  /**
   * `held` (every version the source ever held), `lost` (rows that committed runs
   * left behind at split ties) and `counts` (rows upserted by each committed
   * successful run) are history; nothing reads them.
   */
  datatype State = State(
    src: Table, db: Db, lock: Option<nat>, workers: map<nat, Worker>, cap: Capacity,
    held: set<SourceRow>, lost: set<SourceRow>, counts: seq<nat>)

  function Init(cap: Capacity): State {
    State(map[], EMPTY_SCHEMA, None, map[], cap, {}, {}, [])
  }

  datatype UpsertOutcome = Stored | Rejected(cause: string) | StoredUnacknowledged(cause: string)
  datatype CommitOutcome = Acknowledged | Unacknowledged | ConnectionLost

  datatype Action =
    | SourceWrite(row: SourceRow)
    | Start(id: nat, pool: nat, batch: nat, at: int)
    | Begin(id: nat, ok: bool)
    | Lock(id: nat, ok: bool)
    | InsertRun(id: nat, ok: bool)
    | ReadWatermark(id: nat, ok: bool, cause: string)
    | Fetch(id: nat, ok: bool, cause: string)
    | Upsert(id: nat, outcome: UpsertOutcome)
    | WriteState(id: nat, ok: bool, at: int, cause: string)
    | Finalize(id: nat, ok: bool, at: int)
    | MarkRun(id: nat, ok: bool, at: int)
    | MarkState(id: nat, ok: bool, at: int)
    | CommitTx(id: nat, result: CommitOutcome)
    | Crash(id: nat)
    | Cleanup(now: int, cutoff: int)

  function Watermark(s: State): int {
    WatermarkOf(s.db.state)
  }

  predicate PastLock(pc: Pc) {
    pc != Starting && pc != Waiting
  }

  function Holders(s: State, pool: nat): set<nat> {
    set id | id in s.workers && s.workers[id].pool == pool && s.workers[id].pc != Starting
  }

  /** A statement through the pool needs a connection besides those held by transactions. */
  predicate FreeConnection(s: State, id: nat)
    requires id in s.workers
  {
    |Holders(s, s.workers[id].pool)| < s.cap(s.workers[id].pool)
  }

  predicate At(s: State, id: nat, pc: Pc) {
    id in s.workers && s.workers[id].pc == pc
  }

  /** The latest stamp a run has relied on: the watermark, or the last row of the batch in flight. */
  function Frontier(s: State): int {
    if s.lock.Some? && s.lock.value in s.workers && s.workers[s.lock.value].rows != [] then
      var rows := s.workers[s.lock.value].rows;
      Max(Watermark(s), rows[|rows| - 1].stamp)
    else Watermark(s)
  }

  /** Assumed of the source: stamps grow per key, and a write is stamped after the frontier. */
  predicate TimelyWrite(s: State, row: SourceRow) {
    row.stamp > Frontier(s) && (row.nik in s.src ==> row.stamp >= s.src[row.nik].stamp)
  }

  ghost predicate Enabled(s: State, a: Action) {
    match a
    case SourceWrite(row) => TimelyWrite(s, row)
    case Start(id, _, batch, _) => id !in s.workers && id !in s.db.runs && batch >= 1
    case Begin(id, ok) => At(s, id, Starting) && (ok ==> FreeConnection(s, id))
    case Lock(id, ok) => At(s, id, Waiting) && (ok ==> s.lock.None?)
    case InsertRun(id, _) => At(s, id, Locked)
    case ReadWatermark(id, ok, _) => At(s, id, Inserted) && (ok ==> FreeConnection(s, id))
    // the last two conjuncts hold in every reachable state
    case Fetch(id, _, _) => At(s, id, Fetching) && Keyed(s.src) && s.workers[id].batch >= 1
    case Upsert(id, outcome) =>
      && At(s, id, Upserting) && s.workers[id].upserted < |s.workers[id].rows|
      && (!outcome.Rejected? ==> FreeConnection(s, id))
    case WriteState(id, _, _, _) => At(s, id, Upserting) && s.workers[id].upserted == |s.workers[id].rows|
    case Finalize(id, _, _) => At(s, id, Finalizing)
    case MarkRun(id, ok, _) => At(s, id, MarkingRun) && (ok ==> !s.workers[id].tx.aborted)
    case MarkState(id, ok, _) => At(s, id, MarkingState) && (ok ==> !s.workers[id].tx.aborted)
    case CommitTx(id, _) => At(s, id, Committing)
    case Crash(id) => id in s.workers
    case Cleanup(_, _) => true
  }

  function With(s: State, id: nat, w: Worker): State {
    s.(workers := s.workers[id := w])
  }

  /** The run returns or dies: its transaction rolls back unless committed, and its lock is released. */
  function Leave(s: State, id: nat): State {
    s.(workers := s.workers - {id}, lock := if s.lock == Some(id) then None else s.lock)
  }

  function GiveUp(w: Worker, cause: string): Worker {
    w.(pc := MarkingRun, cause := cause, rows := [], tied := {})
  }

  function LaterStamp(maxTs: int, row: SourceRow): int {
    if row.stamp > maxTs then row.stamp else maxTs
  }

  function CountRow(w: Worker, row: SourceRow): Worker {
    w.(upserted := w.upserted + 1, maxTs := LaterStamp(w.maxTs, row))
  }

  function StoreIn(db: Db, row: SourceRow): Db {
    db.(mirror := db.mirror[row.nik := Project(row)])
  }

  function StoreRow(s: State, row: SourceRow): State {
    s.(db := StoreIn(s.db, row))
  }

  function AfterUpsert(w: Worker, outcome: UpsertOutcome): Worker
    requires w.upserted < |w.rows|
  {
    match outcome
    case Stored => CountRow(w, w.rows[w.upserted])
    case Rejected(cause) => GiveUp(w, cause)
    case StoredUnacknowledged(cause) => GiveUp(w, cause)
  }

  function DoUpsert(s: State, id: nat, outcome: UpsertOutcome): State
    requires id in s.workers && s.workers[id].upserted < |s.workers[id].rows|
  {
    var w := s.workers[id];
    var t := if outcome.Rejected? then s else StoreRow(s, w.rows[w.upserted]);
    With(t, id, AfterUpsert(w, outcome))
  }

  predicate CommitsSuccess(w: Worker) {
    !w.tx.aborted && w.tx.run.Some? && w.tx.run.value.status == Success
  }

  function DoCommit(s: State, id: nat, result: CommitOutcome): State
    requires id in s.workers
  {
    var w := s.workers[id];
    if result == ConnectionLost then Leave(s, id)
    else
      var t := s.(db := Commit(s.db, id, w.tx));
      Leave(if CommitsSuccess(w) then t.(lost := t.lost + w.tied, counts := t.counts + [w.upserted]) else t, id)
  }

  ghost function Fetched(src: Table, w: Worker): Worker
    requires Keyed(src) && w.batch >= 1
  {
    var q := Pending(src, w.watermark);
    w.(pc := Upserting, rows := Limit(q, w.batch), tied := Elements(Tied(q, w.batch)),
       upserted := 0, maxTs := w.watermark)
  }

  ghost function DoFetch(s: State, id: nat): State
    requires id in s.workers && Keyed(s.src) && s.workers[id].batch >= 1
  {
    With(s, id, Fetched(s.src, s.workers[id]))
  }

  function DoBegin(s: State, id: nat, ok: bool): State
    requires id in s.workers
  {
    if ok then With(s, id, s.workers[id].(pc := Waiting)) else Leave(s, id)
  }

  function DoLock(s: State, id: nat, ok: bool): State
    requires id in s.workers
  {
    if ok then With(s, id, s.workers[id].(pc := Locked)).(lock := Some(id)) else Leave(s, id)
  }

  function DoInsertRun(s: State, id: nat, ok: bool): State
    requires id in s.workers
  {
    var w := s.workers[id];
    if ok then With(s, id, w.(pc := Inserted, tx := InsertRunning(w.tx, w.startedAt))) else Leave(s, id)
  }

  function AfterRead(s: State, w: Worker, ok: bool, cause: string): Worker {
    if ok then w.(pc := Fetching, watermark := Watermark(s)) else GiveUp(w, cause)
  }

  function AfterWriteState(w: Worker, ok: bool, at: int, cause: string): Worker {
    if ok then w.(pc := Finalizing, tx := WriteWatermark(w.tx, w.maxTs, at))
    else GiveUp(w, cause).(tx := Abort(w.tx))
  }

  function AfterFinalize(w: Worker, ok: bool, at: int): Worker {
    if ok then w.(pc := Committing, tx := FinishRun(w.tx, at, w.upserted))
    else w.(pc := Committing, tx := Abort(w.tx), rows := [], tied := {})
  }

  function AfterMarkRun(w: Worker, ok: bool, at: int): Worker {
    w.(pc := MarkingState, tx := if ok then FailRun(w.tx, at, w.cause) else Abort(w.tx))
  }

  function AfterMarkState(s: State, w: Worker, ok: bool, at: int): Worker {
    w.(pc := Committing, tx := if ok then WriteFailure(w.tx, s.db.state, at, w.cause) else Abort(w.tx))
  }

  function DoSourceWrite(s: State, row: SourceRow): State {
    s.(src := s.src[row.nik := row], held := s.held + {row})
  }

  ghost function Apply(s: State, a: Action): State
    requires Enabled(s, a)
  {
    match a
    case SourceWrite(row) => DoSourceWrite(s, row)
    case Start(id, pool, batch, at) => With(s, id, Fresh(pool, batch, at))
    case Begin(id, ok) => DoBegin(s, id, ok)
    case Lock(id, ok) => DoLock(s, id, ok)
    case InsertRun(id, ok) => DoInsertRun(s, id, ok)
    case ReadWatermark(id, ok, cause) => With(s, id, AfterRead(s, s.workers[id], ok, cause))
    case Fetch(id, ok, cause) => if ok then DoFetch(s, id) else With(s, id, GiveUp(s.workers[id], cause))
    case Upsert(id, outcome) => DoUpsert(s, id, outcome)
    case WriteState(id, ok, at, cause) => With(s, id, AfterWriteState(s.workers[id], ok, at, cause))
    case Finalize(id, ok, at) => With(s, id, AfterFinalize(s.workers[id], ok, at))
    case MarkRun(id, ok, at) => With(s, id, AfterMarkRun(s.workers[id], ok, at))
    case MarkState(id, ok, at) => With(s, id, AfterMarkState(s, s.workers[id], ok, at))
    case CommitTx(id, result) => DoCommit(s, id, result)
    case Crash(id) => Leave(s, id)
    case Cleanup(now, cutoff) => s.(db := s.db.(runs := Cleaned(s.db.runs, RESOURCE, now, cutoff)))
  }

  ghost function Step(s: State, a: Action): State {
    if Enabled(s, a) then Apply(s, a) else s
  }

  ghost function Exec(s: State, trace: seq<Action>): State {
    if trace == [] then s else Step(Exec(s, trace[..|trace| - 1]), trace[|trace| - 1])
  }

  lemma ExecSnoc(s: State, trace: seq<Action>, a: Action)
    ensures Exec(s, trace + [a]) == Step(Exec(s, trace), a)
  {
    assert (trace + [a])[..|trace|] == trace;
  }

  lemma {:induction false} ExecConcat(s: State, first: seq<Action>, rest: seq<Action>)
    ensures Exec(s, first + rest) == Exec(Exec(s, first), rest)
    decreases |rest|
  {
    if rest == [] {
      assert first + rest == first;
    } else {
      var front, last := rest[..|rest| - 1], rest[|rest| - 1];
      ExecConcat(s, first, front);
      assert first + rest == (first + front) + [last];
      ExecSnoc(s, first + front, last);
    }
  }
}
